/** Collision checks across parts, before any of them is commanded. */
module CrossPart {
  import opened Wrappers
  import opened Solids
  import opened Envelope
  import opened Recovery

  /** One part and the row its bodies are taken at: the commanded row of an addressed part, the
  measured one of a neighbour. */
  datatype Placement = Placement(arm: Arm, row: seq<Scalar>)

  predicate Enabled(p: Placement) { p.row != [] && p.arm.selfCollision }

  predicate Shaped(p: Placement) {
    Snapshot(p.arm, p.row).Some? && Snapshot(p.arm, p.row).value != []
  }

  /** The larger of the two margins, and either part's ignored pairs. */
  predicate BodyPairClear(a: Arm, b: Arm, s: Sphere, t: Sphere) {
    || multiset{s.name, t.name} in a.ignored + b.ignored
    || !Overlap(s.ball, t.ball, Max(a.margin, b.margin))
  }

  predicate PartsClear(p: Placement, q: Placement)
    requires Shaped(p) && Shaped(q)
  {
    var ps, qs := Snapshot(p.arm, p.row).value, Snapshot(q.arm, q.row).value;
    && p.arm.frame == q.arm.frame
    && forall i, j :: 0 <= i < |ps| && 0 <= j < |qs| ==> BodyPairClear(p.arm, q.arm, ps[i], qs[j])
  }

  predicate AllShaped(ps: seq<Placement>) { forall i :: 0 <= i < |ps| && Enabled(ps[i]) ==> Shaped(ps[i]) }

  /** Every enabled part has geometry, and every two of them, in one shared frame, are clear. */
  predicate CrossClear(ps: seq<Placement>) {
    AllShaped(ps) && PairsClear(ps)
  }

  datatype Refusal = Refusal(index: nat, reason: Reason)

  function EnabledIndices(ps: seq<Placement>): (r: seq<nat>)
    ensures Lists(ps, r)
  {
    if ps == [] then []
    else
      var init := EnabledIndices(ps[..|ps| - 1]);
      if Enabled(ps[|ps| - 1]) then init + [|ps| - 1] else init
  }

  /** Why a refusal names this placement: its own geometry is missing, or all have theirs and it is not
  clear of a later one. */
  predicate AtFault(ps: seq<Placement>, i: nat) {
    && i < |ps| && Enabled(ps[i])
    && (AllShaped(ps) ==> exists j :: i < j < |ps| && Enabled(ps[j]) && !PartsClear(ps[i], ps[j]))
    && (!AllShaped(ps) ==> !Shaped(ps[i]))
  }

  /** The placement a refusal names is the first one at fault. */
  predicate FirstAtFault(ps: seq<Placement>, i: nat) { AtFault(ps, i) && forall k :: 0 <= k < i ==> !AtFault(ps, k) }

  /** `_cross_arm_collision_refusal`: refuses exactly when the placements are not clear. */
  method CrossArmRefusal(ps: seq<Placement>) returns (r: Option<Refusal>)
    ensures r.None? <==> CrossClear(ps)
    ensures r.Some? ==> FirstAtFault(ps, r.value.index)
  {
    var enabled := EnabledIndices(ps);
    r := ShapeRefusal(ps, enabled);
    if r.None? {
      r := PairsRefusal(ps, enabled);
    }
  }

  /** The positions of the enabled placements, each once and in order. */
  predicate Lists(ps: seq<Placement>, enabled: seq<nat>) {
    && (forall k :: 0 <= k < |enabled| ==> enabled[k] < |ps| && Enabled(ps[enabled[k]]))
    && (forall k, l :: 0 <= k < l < |enabled| ==> enabled[k] < enabled[l])
    && (forall i :: 0 <= i < |ps| && Enabled(ps[i]) ==> i in enabled)
  }

  method ShapeRefusal(ps: seq<Placement>, enabled: seq<nat>) returns (r: Option<Refusal>)
    requires Lists(ps, enabled)
    ensures r.None? <==> AllShaped(ps)
    ensures r.Some? ==> FirstAtFault(ps, r.value.index)
  {
    for k := 0 to |enabled|
      invariant forall l :: 0 <= l < k ==> Shaped(ps[enabled[l]])
    {
      var p := ps[enabled[k]];
      var snapshot := Snapshot(p.arm, p.row);
      EarlierShaped(ps, enabled, k);
      if snapshot.None? {
        return Some(Refusal(enabled[k], BodiesUnavailable));
      }
      if snapshot.value == [] {
        return Some(Refusal(enabled[k], NoBodies));
      }
    }
    return None;
  }

  predicate PairsClear(ps: seq<Placement>)
    requires AllShaped(ps)
  {
    forall i, j :: 0 <= i < j < |ps| && Enabled(ps[i]) && Enabled(ps[j]) ==> PartsClear(ps[i], ps[j])
  }

  method PairsRefusal(ps: seq<Placement>, enabled: seq<nat>) returns (r: Option<Refusal>)
    requires Lists(ps, enabled) && AllShaped(ps)
    ensures r.None? <==> PairsClear(ps)
    ensures r.Some? ==> FirstAtFault(ps, r.value.index)
  {
    for k := 0 to |enabled|
      invariant forall a, b :: 0 <= a < k && a < b < |enabled| ==> PartsClear(ps[enabled[a]], ps[enabled[b]])
    {
      for l := k + 1 to |enabled|
        invariant forall b :: k < b < l ==> PartsClear(ps[enabled[k]], ps[enabled[b]])
      {
        var reason := PairRefusal(ps[enabled[k]], ps[enabled[l]]);
        if reason.Some? {
          EarlierClear(ps, enabled, k);
          assert enabled[k] < enabled[l];
          return Some(Refusal(enabled[k], reason.value));
        }
      }
    }
    ListedPairsClear(ps, enabled);
    return None;
  }

  lemma EarlierShaped(ps: seq<Placement>, enabled: seq<nat>, k: nat)
    requires Lists(ps, enabled) && k < |enabled| && forall l :: 0 <= l < k ==> Shaped(ps[enabled[l]])
    ensures forall i :: 0 <= i < enabled[k] && Enabled(ps[i]) ==> Shaped(ps[i])
  {
    forall i | 0 <= i < enabled[k] && Enabled(ps[i])
      ensures Shaped(ps[i])
    {
      var l :| 0 <= l < |enabled| && enabled[l] == i;
      assert l < k;
    }
  }

  lemma EarlierClear(ps: seq<Placement>, enabled: seq<nat>, k: nat)
    requires Lists(ps, enabled) && AllShaped(ps) && k < |enabled|
    requires forall a, b :: 0 <= a < k && a < b < |enabled| ==> PartsClear(ps[enabled[a]], ps[enabled[b]])
    ensures forall i :: 0 <= i < enabled[k] ==> !AtFault(ps, i)
  {
    forall i, j | 0 <= i < enabled[k] && Enabled(ps[i]) && i < j < |ps| && Enabled(ps[j])
      ensures PartsClear(ps[i], ps[j])
    {
      var a :| 0 <= a < |enabled| && enabled[a] == i;
      var b :| 0 <= b < |enabled| && enabled[b] == j;
      assert a < k && a < b;
    }
  }

  lemma ListedPairsClear(ps: seq<Placement>, enabled: seq<nat>)
    requires Lists(ps, enabled) && AllShaped(ps)
    requires forall a, b :: 0 <= a < b < |enabled| ==> PartsClear(ps[enabled[a]], ps[enabled[b]])
    ensures PairsClear(ps)
  {
    forall i, j | 0 <= i < j < |ps| && Enabled(ps[i]) && Enabled(ps[j])
      ensures PartsClear(ps[i], ps[j])
    {
      var a :| 0 <= a < |enabled| && enabled[a] == i;
      var b :| 0 <= b < |enabled| && enabled[b] == j;
      assert a < b;
    }
  }

  method PairRefusal(p: Placement, q: Placement) returns (r: Option<Reason>)
    requires Shaped(p) && Shaped(q)
    ensures r.None? <==> PartsClear(p, q)
  {
    if p.arm.frame != q.arm.frame {
      return Some(FramesDiffer);
    }
    var ps, qs := Snapshot(p.arm, p.row).value, Snapshot(q.arm, q.row).value;
    var ignored, margin := p.arm.ignored + q.arm.ignored, Max(p.arm.margin, q.arm.margin);
    for i := 0 to |ps|
      invariant forall a, b :: 0 <= a < i && 0 <= b < |qs| ==> BodyPairClear(p.arm, q.arm, ps[a], qs[b])
    {
      for j := 0 to |qs|
        invariant forall b :: 0 <= b < j ==> BodyPairClear(p.arm, q.arm, ps[i], qs[b])
      {
        if multiset{ps[i].name, qs[j].name} !in ignored && Overlap(ps[i].ball, qs[j].ball, margin) {
          return Some(CrossCollision);
        }
      }
    }
    return None;
  }

  // ----- what acceptance means, and that the order of the parts does not matter

  /** No two points of two bodies that are not declared to be ignored come within the larger margin. */
  lemma CrossClearMeaning(ps: seq<Placement>, i: nat, j: nat, a: nat, b: nat)
    requires CrossClear(ps) && i < |ps| && j < |ps| && i != j && Enabled(ps[i]) && Enabled(ps[j])
    requires a < |Snapshot(ps[i].arm, ps[i].row).value| && b < |Snapshot(ps[j].arm, ps[j].row).value|
    requires ps[i].arm.margin >= 0.0
    ensures var s, t := Snapshot(ps[i].arm, ps[i].row).value[a], Snapshot(ps[j].arm, ps[j].row).value[b];
            && ps[i].arm.frame == ps[j].arm.frame
            && (multiset{s.name, t.name} !in ps[i].arm.ignored + ps[j].arm.ignored ==>
                  Apart(s.ball, t.ball, Max(ps[i].arm.margin, ps[j].arm.margin)))
  {
    var s, t := Snapshot(ps[i].arm, ps[i].row).value[a], Snapshot(ps[j].arm, ps[j].row).value[b];
    if j < i {
      PartsClearSymmetric(ps[j], ps[i]);
    }
    assert PartsClear(ps[i], ps[j]);
    assert BodyPairClear(ps[i].arm, ps[j].arm, s, t);
    ApartMeaning(s, t, Max(ps[i].arm.margin, ps[j].arm.margin));
  }

  /** Acceptance over rows, arms and points alone: every placement that moves and checks collisions has bodies,
  and any two of them are in one frame with all pairs that neither ignores apart by the larger margin. */
  lemma CrossClearIff(ps: seq<Placement>)
    requires forall i :: 0 <= i < |ps| ==> ps[i].arm.margin >= 0.0
    ensures CrossClear(ps) <==>
              && (forall i :: 0 <= i < |ps| && ps[i].row != [] && ps[i].arm.selfCollision ==>
                    Snapshot(ps[i].arm, ps[i].row).Some? && Snapshot(ps[i].arm, ps[i].row).value != [])
              && (forall i, j :: 0 <= i < j < |ps| ==> KeepApart(ps[i], ps[j]))
  {
    if AllShaped(ps) {
      forall i, j | 0 <= i < j < |ps| && Enabled(ps[i]) && Enabled(ps[j])
        ensures PartsClear(ps[i], ps[j]) <==> KeepApart(ps[i], ps[j])
      {
        ClearIsApart(ps[i], ps[j]);
      }
    }
  }

  /** Two placements that move and check collisions are in one frame, their bodies apart. */
  ghost predicate KeepApart(p: Placement, q: Placement) {
    p.row != [] && p.arm.selfCollision && q.row != [] && q.arm.selfCollision ==>
      && p.arm.frame == q.arm.frame && Snapshot(p.arm, p.row).Some? && Snapshot(q.arm, q.row).Some?
      && forall i, j :: 0 <= i < |Snapshot(p.arm, p.row).value| && 0 <= j < |Snapshot(q.arm, q.row).value| ==>
           var s, t := Snapshot(p.arm, p.row).value[i], Snapshot(q.arm, q.row).value[j];
           || multiset{s.name, t.name} in p.arm.ignored || multiset{s.name, t.name} in q.arm.ignored
           || Apart(s.ball, t.ball, if p.arm.margin >= q.arm.margin then p.arm.margin else q.arm.margin)
  }

  lemma ClearIsApart(p: Placement, q: Placement)
    requires Shaped(p) && Shaped(q) && Enabled(p) && Enabled(q) && p.arm.margin >= 0.0 && q.arm.margin >= 0.0
    ensures PartsClear(p, q) <==> KeepApart(p, q)
  {
    var ps, qs := Snapshot(p.arm, p.row).value, Snapshot(q.arm, q.row).value;
    forall i, j | 0 <= i < |ps| && 0 <= j < |qs|
      ensures Overlap(ps[i].ball, qs[j].ball, Max(p.arm.margin, q.arm.margin)) <==>
                !Apart(ps[i].ball, qs[j].ball, Max(p.arm.margin, q.arm.margin))
    {
      ApartMeaning(ps[i], qs[j], Max(p.arm.margin, q.arm.margin));
    }
  }

  /** A refusal names a placement that moves and checks collisions, and for a reason of its own: it has no bodies,
  or it is not apart from a later one. */
  lemma FaultMeans(ps: seq<Placement>, i: nat)
    requires FirstAtFault(ps, i) && forall k :: 0 <= k < |ps| ==> ps[k].arm.margin >= 0.0
    ensures i < |ps| && ps[i].row != [] && ps[i].arm.selfCollision
    ensures || Snapshot(ps[i].arm, ps[i].row).None? || Snapshot(ps[i].arm, ps[i].row).value == []
            || exists j :: i < j < |ps| && !KeepApart(ps[i], ps[j])
  {
    if AllShaped(ps) {
      var j :| i < j < |ps| && Enabled(ps[j]) && !PartsClear(ps[i], ps[j]);
      ClearIsApart(ps[i], ps[j]);
    }
  }

  lemma OverlapSymmetric(a: Ball, b: Ball, margin: real)
    ensures Overlap(a, b, margin) == Overlap(b, a, margin)
  {
    var r := a.radius + b.radius + margin;
    assert b.radius + a.radius + margin == r;
    if Overlap(a, b, margin) {
      WithinSymmetric(a.center, b.center, r);
    }
    if Overlap(b, a, margin) {
      WithinSymmetric(b.center, a.center, r);
    }
  }

  lemma PartsClearSymmetric(p: Placement, q: Placement)
    requires Shaped(p) && Shaped(q) && PartsClear(p, q)
    ensures PartsClear(q, p)
  {
    var ps, qs := Snapshot(p.arm, p.row).value, Snapshot(q.arm, q.row).value;
    forall i, j | 0 <= i < |qs| && 0 <= j < |ps|
      ensures BodyPairClear(q.arm, p.arm, qs[i], ps[j])
    {
      assert BodyPairClear(p.arm, q.arm, ps[j], qs[i]);
      assert multiset{ps[j].name, qs[i].name} == multiset{qs[i].name, ps[j].name};
      assert Max(p.arm.margin, q.arm.margin) == Max(q.arm.margin, p.arm.margin);
      OverlapSymmetric(ps[j].ball, qs[i].ball, Max(p.arm.margin, q.arm.margin));
    }
  }

  /** `b` lists what `a` lists, in another order: `to` sends positions of `b` to positions of `a`,
  and `back` undoes it. */
  ghost predicate Reordered(a: seq<Placement>, b: seq<Placement>, to: seq<nat>, back: seq<nat>) {
    && |a| == |b| == |to| == |back|
    && (forall i :: 0 <= i < |to| ==> to[i] < |a| && b[i] == a[to[i]] && back[to[i]] == i)
    && (forall i :: 0 <= i < |back| ==> back[i] < |b| && a[i] == b[back[i]] && to[back[i]] == i)
  }

  lemma ReorderKeepsClear(a: seq<Placement>, b: seq<Placement>, to: seq<nat>, back: seq<nat>)
    requires Reordered(a, b, to, back) && CrossClear(a)
    ensures CrossClear(b)
  {
    forall i, j | 0 <= i < j < |b| && Enabled(b[i]) && Enabled(b[j])
      ensures PartsClear(b[i], b[j])
    {
      if to[i] > to[j] {
        PartsClearSymmetric(a[to[j]], a[to[i]]);
      }
    }
  }

  /** The verdict does not depend on the order in which the parts are listed. */
  lemma OrderIrrelevant(a: seq<Placement>, b: seq<Placement>, to: seq<nat>, back: seq<nat>)
    requires Reordered(a, b, to, back)
    ensures CrossClear(a) <==> CrossClear(b)
  {
    if CrossClear(a) {
      ReorderKeepsClear(a, b, to, back);
    }
    if CrossClear(b) {
      ReorderKeepsClear(b, a, back, to);
    }
  }
}
