/** Resolution of a scene document whose distributions are drawn with one generator. */
module Randomized {
  import opened Wrappers

  /** A string-keyed document; a mapping keeps the order its keys were declared in. */
  datatype Doc =
    | Null
    | Flag(on: bool)
    | Number(value: real)
    | Text(text: string)
    | List(items: seq<Doc>)
    | Dict(entries: seq<(string, Doc)>)

  /** The seeded generator: its `k`-th draw, and what `float` makes of a text. */
  datatype Source = Source(uniform: (nat, real, real) -> real, pick: (nat, nat) -> nat, parse: string -> Option<real>) {
    ghost predicate Valid() {
      && (forall k: nat, lo: real, hi: real {:trigger uniform(k, lo, hi)} :: lo <= hi ==>
          lo <= uniform(k, lo, hi) <= hi)
      && (forall k: nat, n: nat {:trigger pick(k, n)} :: n > 0 ==> pick(k, n) < n)
    }
  }

  type Decisions = map<string, Doc>

  datatype Error = NotASequence | TooFewBounds | NotANumber | LowerExceedsUpper | NothingToChoose

  datatype Outcome = Ok(value: Doc, used: nat, decisions: Decisions) | Fail(error: Error)
  datatype Outcomes = Oks(values: seq<Doc>, used: nat, decisions: Decisions) | Fails(error: Error)

  // ----- documents

  predicate Only(d: Doc, key: string) { d.Dict? && |d.entries| == 1 && d.entries[0].0 == key }

  predicate IsUniform(d: Doc) { Only(d, "uniform") }

  predicate IsChoice(d: Doc) { Only(d, "choice") }

  function Size(d: Doc): nat {
    match d
    case List(items) => |items|
    case Dict(entries) => |entries|
    case _ => 0
  }

  function Child(d: Doc, i: nat): (c: Doc)
    requires i < Size(d)
    ensures c < d
  {
    if d.List? then d.items[i] else d.entries[i].1
  }

  /** The same mapping or list with other children. */
  function Rebuild(d: Doc, values: seq<Doc>): Doc
    requires |values| == Size(d)
  {
    match d
    case List(_) => List(values)
    case Dict(entries) => Dict(seq(|entries|, i requires 0 <= i < |entries| => (entries[i].0, values[i])))
    case _ => d
  }

  /** What the source may index: a list, or a text as its characters. */
  function Items(d: Doc): Option<seq<Doc>> {
    match d
    case List(items) => Some(items)
    case Text(text) => Some(seq(|text|, i requires 0 <= i < |text| => Text([text[i]])))
    case _ => None
  }

  function Float(parse: string -> Option<real>, d: Doc): Option<real> {
    match d
    case Number(x) => Some(x)
    case Flag(on) => Some(if on then 1.0 else 0.0)
    case Text(text) => parse(text)
    case _ => None
  }

  function Bounds(parse: string -> Option<real>, d: Doc): (r: (Option<Error>, real, real))
    requires IsUniform(d)
    ensures r.0.None? ==> r.1 <= r.2
  {
    var bounds := Items(d.entries[0].1);
    if bounds.None? then (Some(NotASequence), 0.0, 0.0)
    else if bounds.value == [] then (Some(TooFewBounds), 0.0, 0.0)
    else
      var lower := Float(parse, bounds.value[0]);
      if lower.None? then (Some(NotANumber), 0.0, 0.0)
      else if |bounds.value| == 1 then (Some(TooFewBounds), 0.0, 0.0)
      else
        var upper := Float(parse, bounds.value[1]);
        if upper.None? then (Some(NotANumber), 0.0, 0.0)
        else if lower.value > upper.value then (Some(LowerExceedsUpper), 0.0, 0.0)
        else (None, lower.value, upper.value)
  }

  /** The alternatives of a choice, none when it is malformed. */
  function Alternatives(d: Doc): (r: seq<Doc>)
    requires IsChoice(d)
    ensures forall i :: 0 <= i < |r| ==> r[i] < d || r[i].Text?
  {
    var items := Items(d.entries[0].1);
    if items.None? then [] else
      assert forall i :: 0 <= i < |items.value| ==> items.value[i] < d || items.value[i].Text?;
      items.value
  }

  // ----- paths

  function Digit(n: nat): char
    requires n < 10
  {
    '0' + (n as char)
  }

  function Decimal(n: nat): string { if n < 10 then [Digit(n)] else Decimal(n / 10) + [Digit(n % 10)] }

  /** `.name` or `[index]` */
  function Label(d: Doc, i: nat): string
    requires i < Size(d)
  {
    if d.List? then "[" + Decimal(i) + "]" else "." + d.entries[i].0
  }

  // ----- the operation

  function Resolve(src: Source, d: Doc, used: nat, decisions: Decisions, path: string): Outcome
    requires src.Valid()
    decreases if d.Text? then 0 else 1, d, Size(d) + 1
  {
    if IsUniform(d) then
      var (error, lower, upper) := Bounds(src.parse, d);
      if error.Some? then Fail(error.value)
      else
        var drawn := Number(src.uniform(used, lower, upper));
        Ok(drawn, used + 1, decisions[path := drawn])
    else if IsChoice(d) then
      if Items(d.entries[0].1).None? then Fail(NotASequence)
      else if Alternatives(d) == [] then Fail(NothingToChoose)
      else
        var selected := Alternatives(d)[src.pick(used, |Alternatives(d)|)];
        match Resolve(src, selected, used + 1, decisions, path)
        case Fail(error) => Fail(error)
        case Ok(value, used', decisions') => Ok(value, used', decisions'[path := value])
    else if d.List? || d.Dict? then
      match ResolveChildren(src, d, Size(d), used, decisions, path)
      case Fails(error) => Fail(error)
      case Oks(values, used', decisions') => Ok(Rebuild(d, values), used', decisions')
    else Ok(d, used, decisions)
  }

  /** The first `n` children, in order. */
  function ResolveChildren(src: Source, d: Doc, n: nat, used: nat, decisions: Decisions, path: string): (r: Outcomes)
    requires src.Valid() && n <= Size(d) && !d.Text?
    ensures r.Oks? ==> |r.values| == n
    decreases 1, d, n
  {
    if n == 0 then Oks([], used, decisions)
    else
      match ResolveChildren(src, d, n - 1, used, decisions, path)
      case Fails(error) => Fails(error)
      case Oks(values, used', decisions') =>
        match Resolve(src, Child(d, n - 1), used', decisions', path + Label(d, n - 1))
        case Fail(error) => Fails(error)
        case Ok(value, used'', decisions'') => Oks(values + [value], used'', decisions'')
  }

  // ----- what a resolved document is

  /** No mapping anywhere inside has `uniform` or `choice` as its only key. */
  predicate Normal(d: Doc) {
    !IsUniform(d) && !IsChoice(d) && forall i :: 0 <= i < Size(d) ==> Normal(Child(d, i))
  }

  predicate SameShape(d: Doc, r: Doc) {
    match d
    case List(items) => r.List? && |r.items| == |items|
    case Dict(entries) => r.Dict? && |r.entries| == |entries| && forall i :: 0 <= i < |entries| ==>
        r.entries[i].0 == entries[i].0
    case _ => r == d
  }

  /** `r` is one of the documents that `d` describes. */
  ghost predicate Instance(src: Source, d: Doc, r: Doc)
    decreases if d.Text? then 0 else 1, d
  {
    if IsUniform(d) then
      var (error, lower, upper) := Bounds(src.parse, d);
      error.None? && r.Number? && lower <= r.value <= upper
    else if IsChoice(d) then
      exists i :: 0 <= i < |Alternatives(d)| && Instance(src, Alternatives(d)[i], r)
    else
      SameShape(d, r) && forall i :: 0 <= i < Size(d) ==> Instance(src, Child(d, i), Child(r, i))
  }

  lemma RebuildShape(d: Doc, values: seq<Doc>)
    requires |values| == Size(d)
    ensures SameShape(d, Rebuild(d, values)) && Size(Rebuild(d, values)) == Size(d)
    ensures forall i :: 0 <= i < Size(d) ==> Child(Rebuild(d, values), i) == values[i]
  {}

  /** Whatever is drawn, the result is one of the documents described. */
  lemma {:induction false} ResolvesToInstance(src: Source, d: Doc, used: nat, decisions: Decisions, path: string)
    requires src.Valid()
    ensures var o := Resolve(src, d, used, decisions, path); o.Ok? ==> Instance(src, d, o.value)
    decreases if d.Text? then 0 else 1, d, Size(d) + 1
  {
    var o := Resolve(src, d, used, decisions, path);
    if IsUniform(d) || o.Fail? {
    } else if IsChoice(d) {
      var i := src.pick(used, |Alternatives(d)|);
      ResolvesToInstance(src, Alternatives(d)[i], used + 1, decisions, path);
      assert Instance(src, Alternatives(d)[i], o.value);
    } else if d.List? || d.Dict? {
      ChildrenInstances(src, d, Size(d), used, decisions, path);
      RebuildShape(d, ResolveChildren(src, d, Size(d), used, decisions, path).values);
    }
  }

  ghost predicate Instances(src: Source, d: Doc, values: seq<Doc>)
    requires |values| <= Size(d)
  {
    forall i :: 0 <= i < |values| ==> Instance(src, Child(d, i), values[i])
  }

  lemma InstancesAppend(src: Source, d: Doc, values: seq<Doc>, value: Doc)
    requires |values| < Size(d) && Instances(src, d, values) && Instance(src, Child(d, |values|), value)
    ensures Instances(src, d, values + [value])
  {}

  lemma {:induction false} ChildrenInstances(src: Source, d: Doc, n: nat, used: nat, decisions: Decisions, path: string)
    requires src.Valid() && n <= Size(d) && !d.Text?
    ensures var o := ResolveChildren(src, d, n, used, decisions, path);
            o.Oks? ==> Instances(src, d, o.values)
    decreases 1, d, n
  {
    if n > 0 {
      ChildrenInstances(src, d, n - 1, used, decisions, path);
      var o := ResolveChildren(src, d, n - 1, used, decisions, path);
      if o.Oks? {
        ResolvesToInstance(src, Child(d, n - 1), o.used, o.decisions, path + Label(d, n - 1));
        var o' := Resolve(src, Child(d, n - 1), o.used, o.decisions, path + Label(d, n - 1));
        if o'.Ok? {
          InstancesAppend(src, d, o.values, o'.value);
        }
      }
    }
  }

  /** Every document described is free of distributions, at any depth. */
  lemma {:induction false} InstanceNormal(src: Source, d: Doc, r: Doc)
    requires Instance(src, d, r)
    ensures Normal(r)
    decreases if d.Text? then 0 else 1, d
  {
    if IsUniform(d) {
    } else if IsChoice(d) {
      var i :| 0 <= i < |Alternatives(d)| && Instance(src, Alternatives(d)[i], r);
      InstanceNormal(src, Alternatives(d)[i], r);
    } else {
      forall i | 0 <= i < Size(r)
        ensures Normal(Child(r, i))
      {
        InstanceNormal(src, Child(d, i), Child(r, i));
      }
    }
  }

  // ----- every document described is reached

  /** One draw of a generator: a number, or a position. */
  datatype Drawn = Real(x: real) | Position(i: nat)

  /** The generator draws these, from draw number `used` on, wherever they are possible draws. */
  ghost predicate Deals(src: Source, used: nat, draws: seq<Drawn>) {
    forall k :: 0 <= k < |draws| ==> DrawsAt(src, used + k, draws[k])
  }

  ghost predicate DrawsAt(src: Source, k: nat, drawn: Drawn) {
    match drawn
    case Real(x) => forall lo: real, hi: real {:trigger src.uniform(k, lo, hi)} :: lo <= x <= hi ==>
        src.uniform(k, lo, hi) == x
    case Position(i) => forall n: nat {:trigger src.pick(k, n)} :: i < n ==> src.pick(k, n) == i
  }

  /** A generator that does. */
  function Playing(parse: string -> Option<real>, draws: seq<Drawn>): (src: Source)
    ensures src.Valid() && src.parse == parse && Deals(src, 0, draws)
  {
    Source(
      (k: nat, lo: real, hi: real) =>
        if k < |draws| && draws[k].Real? && lo <= draws[k].x <= hi then draws[k].x else lo,
      (k: nat, n: nat) => if k < |draws| && draws[k].Position? && draws[k].i < n then draws[k].i else 0,
      parse)
  }

  lemma DealsParts(src: Source, used: nat, a: seq<Drawn>, b: seq<Drawn>)
    requires Deals(src, used, a + b)
    ensures Deals(src, used, a) && Deals(src, used + |a|, b)
  {
    forall k | 0 <= k < |a|
      ensures DrawsAt(src, used + k, a[k])
    {
      assert (a + b)[k] == a[k];
    }
    forall k | 0 <= k < |b|
      ensures DrawsAt(src, used + |a| + k, b[k])
    {
      assert (a + b)[|a| + k] == b[k] && used + (|a| + k) == used + |a| + k;
    }
  }

  /** Whoever draws these gets this document, using up exactly these draws. */
  ghost predicate Gets(parse: string -> Option<real>, d: Doc, draws: seq<Drawn>, r: Doc) {
    forall src: Source, used: nat, decisions: Decisions, path: string
      {:trigger Resolve(src, d, used, decisions, path)} ::
      src.Valid() && src.parse == parse && Deals(src, used, draws) ==>
        var o := Resolve(src, d, used, decisions, path); o.Ok? && o.value == r && o.used == used + |draws|
  }

  ghost predicate GetsBelow(parse: string -> Option<real>, d: Doc, n: nat, draws: seq<Drawn>, values: seq<Doc>)
    requires n <= Size(d) && !d.Text?
  {
    forall src: Source, used: nat, decisions: Decisions, path: string
      {:trigger ResolveChildren(src, d, n, used, decisions, path)} ::
      src.Valid() && src.parse == parse && Deals(src, used, draws) ==>
        var o := ResolveChildren(src, d, n, used, decisions, path);
        o.Oks? && o.values == values && o.used == used + |draws|
  }

  lemma {:induction false} Reach(src: Source, d: Doc, r: Doc) returns (draws: seq<Drawn>)
    requires Instance(src, d, r)
    ensures Gets(src.parse, d, draws, r)
    decreases if d.Text? then 0 else 1, d, Size(d) + 1
  {
    if IsUniform(d) {
      draws := [Real(r.value)];
      NumberGot(src.parse, d, r);
    } else if IsChoice(d) {
      var i :| 0 <= i < |Alternatives(d)| && Instance(src, Alternatives(d)[i], r);
      var more := Reach(src, Alternatives(d)[i], r);
      draws := [Position(i)] + more;
      ChoiceGot(src.parse, d, i, more, r);
    } else if d.List? || d.Dict? {
      var values := Children(r, Size(d));
      draws := ReachBelow(src, d, Size(d), values);
      RebuiltGot(src.parse, d, draws, r);
    } else {
      draws := [];
    }
  }

  lemma NumberGot(parse: string -> Option<real>, d: Doc, r: Doc)
    requires IsUniform(d) && Bounds(parse, d).0.None?
    requires r.Number? && Bounds(parse, d).1 <= r.value <= Bounds(parse, d).2
    ensures Gets(parse, d, [Real(r.value)], r)
  {
    forall src: Source, used: nat, decisions: Decisions, path: string
      | src.Valid() && src.parse == parse && Deals(src, used, [Real(r.value)])
      ensures Resolve(src, d, used, decisions, path) == Ok(r, used + 1, decisions[path := r])
    {
      assert DrawsAt(src, used + 0, [Real(r.value)][0]);
    }
  }

  lemma ChoiceGot(parse: string -> Option<real>, d: Doc, i: nat, more: seq<Drawn>, r: Doc)
    requires IsChoice(d) && i < |Alternatives(d)| && Gets(parse, Alternatives(d)[i], more, r)
    ensures Gets(parse, d, [Position(i)] + more, r)
  {
    var draws := [Position(i)] + more;
    forall src: Source, used: nat, decisions: Decisions, path: string
      | src.Valid() && src.parse == parse && Deals(src, used, draws)
      ensures var o := Resolve(src, d, used, decisions, path); o.Ok? && o.value == r && o.used == used + |draws|
    {
      assert DrawsAt(src, used + 0, draws[0]);
      DealsParts(src, used, [Position(i)], more);
      var o := Resolve(src, Alternatives(d)[i], used + 1, decisions, path);
      assert o.Ok? && o.value == r;
    }
  }

  lemma RebuiltGot(parse: string -> Option<real>, d: Doc, draws: seq<Drawn>, r: Doc)
    requires (d.List? || d.Dict?) && !IsUniform(d) && !IsChoice(d) && SameShape(d, r)
    requires GetsBelow(parse, d, Size(d), draws, Children(r, Size(d)))
    ensures Gets(parse, d, draws, r)
  {
    RebuiltIs(d, r);
    forall src: Source, used: nat, decisions: Decisions, path: string
      | src.Valid() && src.parse == parse && Deals(src, used, draws)
      ensures var o := Resolve(src, d, used, decisions, path); o.Ok? && o.value == r && o.used == used + |draws|
    {
      var o := ResolveChildren(src, d, Size(d), used, decisions, path);
      assert o.Oks? && o.values == Children(r, Size(d));
    }
  }

  lemma RebuiltIs(d: Doc, r: Doc)
    requires (d.List? || d.Dict?) && SameShape(d, r)
    ensures Rebuild(d, Children(r, Size(d))) == r
  {
    var values := Children(r, Size(d));
    match d
    case List(items) => assert values == r.items;
    case Dict(entries) => assert Rebuild(d, values).entries == r.entries;
  }

  lemma {:induction false} ReachBelow(src: Source, d: Doc, n: nat, values: seq<Doc>) returns (draws: seq<Drawn>)
    requires n <= Size(d) && |values| == n && !d.Text?
    requires forall i :: 0 <= i < n ==> Instance(src, Child(d, i), values[i])
    ensures GetsBelow(src.parse, d, n, draws, values)
    decreases 1, d, n
  {
    if n == 0 {
      draws := [];
    } else {
      var a := ReachBelow(src, d, n - 1, values[..n - 1]);
      var b := Reach(src, Child(d, n - 1), values[n - 1]);
      draws := a + b;
      OneMoreGot(src.parse, d, n, a, b, values);
    }
  }

  lemma OneMoreGot(parse: string -> Option<real>, d: Doc, n: nat, a: seq<Drawn>, b: seq<Drawn>, values: seq<Doc>)
    requires 0 < n <= Size(d) && |values| == n && !d.Text?
    requires GetsBelow(parse, d, n - 1, a, values[..n - 1]) && Gets(parse, Child(d, n - 1), b, values[n - 1])
    ensures GetsBelow(parse, d, n, a + b, values)
  {
    forall src: Source, used: nat, decisions: Decisions, path: string
      | src.Valid() && src.parse == parse && Deals(src, used, a + b)
      ensures var o := ResolveChildren(src, d, n, used, decisions, path);
              o.Oks? && o.values == values && o.used == used + |a + b|
    {
      DealsParts(src, used, a, b);
      var o := ResolveChildren(src, d, n - 1, used, decisions, path);
      assert o.Oks? && o.values == values[..n - 1] && o.used == used + |a|;
      var o' := Resolve(src, Child(d, n - 1), o.used, o.decisions, path + Label(d, n - 1));
      assert o'.Ok? && o'.value == values[n - 1];
      assert values == values[..n - 1] + [values[n - 1]];
    }
  }

  lemma {:induction false} SameInstances(a: Source, b: Source, d: Doc, r: Doc)
    requires a.parse == b.parse && Instance(a, d, r)
    ensures Instance(b, d, r)
    decreases if d.Text? then 0 else 1, d
  {
    if IsUniform(d) {
    } else if IsChoice(d) {
      var i :| 0 <= i < |Alternatives(d)| && Instance(a, Alternatives(d)[i], r);
      SameInstances(a, b, Alternatives(d)[i], r);
    } else {
      forall i | 0 <= i < Size(d)
        ensures Instance(b, Child(d, i), Child(r, i))
      {
        SameInstances(a, b, Child(d, i), Child(r, i));
      }
    }
  }

  /** A generator that reads numbers alike gets this document. */
  ghost predicate ResolvesTo(src: Source, other: Source, d: Doc, decisions: Decisions, path: string, r: Doc) {
    && other.Valid() && other.parse == src.parse
    && var o := Resolve(other, d, 0, decisions, path); o.Ok? && o.value == r
  }

  /** A document is among those described if and only if some generator resolves to it. */
  lemma ReachedIff(src: Source, d: Doc, r: Doc, decisions: Decisions, path: string)
    ensures Instance(src, d, r) <==>
              exists other: Source :: ResolvesTo(src, other, d, decisions, path, r)
  {
    if Instance(src, d, r) {
      var draws := Reach(src, d, r);
      var other := Playing(src.parse, draws);
      assert ResolvesTo(src, other, d, decisions, path, r);
    }
    if other: Source :| ResolvesTo(src, other, d, decisions, path, r) {
      ResolvesToInstance(other, d, 0, decisions, path);
      SameInstances(other, src, d, r);
    }
  }

  /** What is described, in full: any number of the range, and any document that an alternative describes. */
  lemma DescribedNumbers(src: Source, lo: real, hi: real, r: Doc)
    requires lo <= hi
    ensures Instance(src, Dict([("uniform", List([Number(lo), Number(hi)]))]), r) <==> r.Number? && lo <= r.value <= hi
  {
    var d := Dict([("uniform", List([Number(lo), Number(hi)]))]);
    assert d.entries[0].1 == List([Number(lo), Number(hi)]);
    assert Items(d.entries[0].1).value[0] == Number(lo) && Items(d.entries[0].1).value[1] == Number(hi);
  }

  lemma DescribedChoices(src: Source, xs: seq<Doc>, r: Doc)
    ensures Instance(src, Dict([("choice", List(xs))]), r) <==> exists i :: 0 <= i < |xs| && Instance(src, xs[i], r)
  {
    var d := Dict([("choice", List(xs))]);
    assert d.entries[0].1 == List(xs) && Alternatives(d) == xs;
  }

  /** A generator that picks position `i` gives that very alternative, resolved on, and records it. */
  lemma ChoiceTaken(src: Source, xs: seq<Doc>, i: nat, used: nat, decisions: Decisions, path: string)
    requires src.Valid() && i < |xs| && src.pick(used, |xs|) == i
    ensures var o := Resolve(src, Dict([("choice", List(xs))]), used, decisions, path);
            var c := Resolve(src, xs[i], used + 1, decisions, path);
            && (o.Ok? <==> c.Ok?)
            && (c.Ok? ==> o == Ok(c.value, c.used, c.decisions[path := c.value]) && Instance(src, xs[i], o.value))
  {
    var d := Dict([("choice", List(xs))]);
    assert d.entries[0].1 == List(xs) && Alternatives(d) == xs;
    ResolvesToInstance(src, xs[i], used + 1, decisions, path);
  }

  // ----- resolving again

  function Children(d: Doc, n: nat): (cs: seq<Doc>)
    requires n <= Size(d)
    ensures |cs| == n
  {
    seq(n, i requires 0 <= i < n => Child(d, i))
  }

  lemma RebuildSame(d: Doc)
    ensures Rebuild(d, Children(d, Size(d))) == d
  {
    var values := Children(d, Size(d));
    match d
    case List(items) => assert values == items;
    case Dict(entries) => assert Rebuild(d, values).entries == entries;
    case _ =>
  }

  lemma {:induction false} NormalFixed(src: Source, d: Doc, used: nat, decisions: Decisions, path: string)
    requires src.Valid() && Normal(d)
    ensures Resolve(src, d, used, decisions, path) == Ok(d, used, decisions)
    decreases d, Size(d) + 1
  {
    if d.List? || d.Dict? {
      NormalChildren(src, d, Size(d), used, decisions, path);
      RebuildSame(d);
    }
  }

  lemma {:induction false} NormalChildren(src: Source, d: Doc, n: nat, used: nat, decisions: Decisions, path: string)
    requires src.Valid() && n <= Size(d) && !d.Text? && Normal(d)
    ensures var o := ResolveChildren(src, d, n, used, decisions, path);
            o == Oks(Children(d, n), used, decisions)
    decreases d, n
  {
    if n > 0 {
      assert Children(d, n) == Children(d, n - 1) + [Child(d, n - 1)];
      NormalChildren(src, d, n - 1, used, decisions, path);
      NormalFixed(src, Child(d, n - 1), used, decisions, path + Label(d, n - 1));
    }
  }

  /** A successful resolution draws nothing exactly when there was nothing to draw. */
  lemma {:induction false} DrawsWhenRandomized(src: Source, d: Doc, used: nat, decisions: Decisions, path: string)
    requires src.Valid()
    ensures var o := Resolve(src, d, used, decisions, path); o.Ok? ==> o.used >= used && (o.used == used <==> Normal(d))
    decreases if d.Text? then 0 else 1, d, Size(d) + 1
  {
    var o := Resolve(src, d, used, decisions, path);
    if IsUniform(d) || o.Fail? {
    } else if IsChoice(d) {
      var i := src.pick(used, |Alternatives(d)|);
      DrawsWhenRandomized(src, Alternatives(d)[i], used + 1, decisions, path);
    } else if d.List? || d.Dict? {
      ChildrenDraw(src, d, Size(d), used, decisions, path);
    }
  }

  predicate NormalBelow(d: Doc, n: nat)
    requires n <= Size(d)
  {
    forall i :: 0 <= i < n ==> Normal(Child(d, i))
  }

  lemma NormalOneMore(d: Doc, n: nat)
    requires 0 < n <= Size(d)
    ensures NormalBelow(d, n) <==> NormalBelow(d, n - 1) && Normal(Child(d, n - 1))
  {}

  lemma {:induction false} ChildrenDraw(src: Source, d: Doc, n: nat, used: nat, decisions: Decisions, path: string)
    requires src.Valid() && n <= Size(d) && !d.Text?
    ensures var o := ResolveChildren(src, d, n, used, decisions, path);
            o.Oks? ==> o.used >= used && (o.used == used <==> NormalBelow(d, n))
    decreases 1, d, n
  {
    if n > 0 {
      ChildrenDraw(src, d, n - 1, used, decisions, path);
      var o := ResolveChildren(src, d, n - 1, used, decisions, path);
      if o.Oks? {
        DrawsWhenRandomized(src, Child(d, n - 1), o.used, o.decisions, path + Label(d, n - 1));
        NormalOneMore(d, n);
      }
    }
  }

  /** The result is in normal form: resolving it again, with any generator, changes nothing, draws
  nothing and records nothing. */
  lemma ResolveTwice(src: Source, d: Doc, used: nat, decisions: Decisions, path: string,
                     again: Source, used': nat, decisions': Decisions, path': string)
    requires src.Valid() && again.Valid()
    ensures var o := Resolve(src, d, used, decisions, path);
            o.Ok? ==>
              Normal(o.value) && Resolve(again, o.value, used', decisions', path') == Ok(o.value, used', decisions')
  {
    var o := Resolve(src, d, used, decisions, path);
    if o.Ok? {
      ResolvesToInstance(src, d, used, decisions, path);
      InstanceNormal(src, d, o.value);
      NormalFixed(again, o.value, used', decisions', path');
    }
  }

  // ----- when it cannot fail

  /** Every distribution inside, also in alternatives that may not be chosen, is well formed. */
  predicate Sound(src: Source, d: Doc)
    decreases if d.Text? then 0 else 1, d
  {
    if IsUniform(d) then Bounds(src.parse, d).0.None?
    else if IsChoice(d) then Alternatives(d) != [] && forall i :: 0 <= i < |Alternatives(d)| ==>
        Sound(src, Alternatives(d)[i])
    else forall i :: 0 <= i < Size(d) ==> Sound(src, Child(d, i))
  }

  lemma {:induction false} SoundResolves(src: Source, d: Doc, used: nat, decisions: Decisions, path: string)
    requires src.Valid() && Sound(src, d)
    ensures Resolve(src, d, used, decisions, path).Ok?
    decreases if d.Text? then 0 else 1, d, Size(d) + 1
  {
    if IsUniform(d) {
    } else if IsChoice(d) {
      SoundResolves(src, Alternatives(d)[src.pick(used, |Alternatives(d)|)], used + 1, decisions, path);
    } else if d.List? || d.Dict? {
      SoundChildren(src, d, Size(d), used, decisions, path);
    }
  }

  lemma {:induction false} SoundChildren(src: Source, d: Doc, n: nat, used: nat, decisions: Decisions, path: string)
    requires src.Valid() && n <= Size(d) && !d.Text? && forall i :: 0 <= i < Size(d) ==> Sound(src, Child(d, i))
    ensures ResolveChildren(src, d, n, used, decisions, path).Oks?
    decreases 1, d, n
  {
    if n > 0 {
      SoundChildren(src, d, n - 1, used, decisions, path);
      var o := ResolveChildren(src, d, n - 1, used, decisions, path);
      SoundResolves(src, Child(d, n - 1), o.used, o.decisions, path + Label(d, n - 1));
    }
  }

  // ----- the record of decisions replays the result

  /** The document with each distribution replaced by what was recorded at its path. */
  function Replay(d: Doc, decisions: Decisions, path: string): Doc
    decreases d, Size(d) + 1
  {
    if IsUniform(d) || IsChoice(d) then (if path in decisions then decisions[path] else Null)
    else Rebuild(d, ReplayChildren(d, Size(d), decisions, path))
  }

  function ReplayChildren(d: Doc, n: nat, decisions: Decisions, path: string): (r: seq<Doc>)
    requires n <= Size(d)
    ensures |r| == n
    decreases d, n
  {
    if n == 0 then []
    else ReplayChildren(d, n - 1, decisions, path) + [Replay(Child(d, n - 1), decisions, path + Label(d, n - 1))]
  }

  predicate Marks(c: char) { c == '.' || c == '[' }

  /** Outside distributions, the keys of each mapping are distinct and free of `.` and `[`. */
  predicate Plain(d: Doc) {
    IsUniform(d) || IsChoice(d) ||
    (&& (d.Dict? ==> forall i, j :: 0 <= i < j < |d.entries| ==> d.entries[i].0 != d.entries[j].0)
     && (d.Dict? ==> forall i :: 0 <= i < |d.entries| ==> NoMarks(d.entries[i].0))
     && forall i :: 0 <= i < Size(d) ==> Plain(Child(d, i)))
  }

  predicate NoMarks(name: string) { forall k :: 0 <= k < |name| ==> !Marks(name[k]) }

  /** `k` is `path` or lies below it. */
  predicate Extends(k: string, path: string) {
    |path| <= |k| && k[..|path|] == path && (|k| > |path| ==> Marks(k[|path|]))
  }

  /** Nothing outside `path` was recorded or changed. */
  ghost predicate Confined(before: Decisions, after: Decisions, path: string) {
    forall k: string {:trigger Extends(k, path)} :: !Extends(k, path) ==> Same(before, after, k)
  }

  predicate Same(a: Decisions, b: Decisions, k: string) { (k in a <==> k in b) && (k in a ==> a[k] == b[k]) }

  lemma ExtendsParent(k: string, path: string, step: string)
    requires step != [] && Marks(step[0]) && Extends(k, path + step)
    ensures Extends(k, path)
  {
    assert k[..|path|] == (path + step)[..|path|] == path;
    assert k[|path|] == (path + step)[|path|];
  }

  // Labels tell siblings apart.

  lemma {:induction false} DecimalPlain(n: nat)
    ensures Decimal(n) != [] && forall k :: 0 <= k < |Decimal(n)| ==> '0' <= Decimal(n)[k] <= '9'
  {
    if n >= 10 {
      DecimalPlain(n / 10);
    }
  }

  lemma {:induction false} DecimalInjective(m: nat, n: nat)
    requires Decimal(m) == Decimal(n)
    ensures m == n
  {
    DecimalPlain(m / 10);
    DecimalPlain(n / 10);
    var s := Decimal(m);
    assert s[|s| - 1] == Digit(m % 10) == Digit(n % 10);
    assert m % 10 == n % 10;
    if m >= 10 {
      assert s[..|s| - 1] == Decimal(m / 10) == Decimal(n / 10);
      DecimalInjective(m / 10, n / 10);
    }
  }

  /** The number a row of decimal digits stands for. */
  function Reads(digits: string): int {
    if digits == [] then 0
    else Reads(digits[..|digits| - 1]) * 10 + (digits[|digits| - 1] as int - '0' as int)
  }

  /** An index is written as the decimal number it is. */
  lemma {:induction false} DecimalReads(n: nat)
    ensures Reads(Decimal(n)) == n
  {
    if n >= 10 {
      DecimalReads(n / 10);
      assert Decimal(n)[..|Decimal(n)| - 1] == Decimal(n / 10);
    } else {
      assert Decimal(n)[..0] == [];
    }
  }

  /** A label without its mark. */
  function Name(d: Doc, i: nat): string
    requires i < Size(d)
  {
    if d.List? then Decimal(i) + "]" else d.entries[i].0
  }

  lemma NamePlain(d: Doc, i: nat)
    requires Plain(d) && !IsUniform(d) && !IsChoice(d) && i < Size(d)
    ensures NoMarks(Name(d, i))
  {
    if d.List? {
      DecimalPlain(i);
    }
  }

  lemma NameInjective(d: Doc, i: nat, j: nat)
    requires Plain(d) && !IsUniform(d) && !IsChoice(d) && i < Size(d) && j < Size(d) && Name(d, i) == Name(d, j)
    ensures i == j
  {
    if d.List? {
      assert Decimal(i) == Name(d, i)[..|Name(d, i)| - 1] == Decimal(j);
      DecimalInjective(i, j);
    }
  }

  lemma Follows(k: string, stem: string, name: string, i: nat)
    requires Extends(k, stem + name) && i < |name|
    ensures k[|stem| + i] == name[i]
  {
    assert k[|stem| + i] == k[..|stem + name|][|stem| + i] == (stem + name)[|stem| + i];
  }

  /** A common extension of two paths that continue one stem by unmarked names gives them one name. */
  lemma SameName(k: string, stem: string, a: string, b: string)
    requires NoMarks(a) && NoMarks(b) && |a| <= |b| && Extends(k, stem + a) && Extends(k, stem + b)
    ensures a == b
  {
    forall i | 0 <= i < |a|
      ensures a[i] == b[i]
    {
      Follows(k, stem, a, i);
      Follows(k, stem, b, i);
    }
    if |a| < |b| {
      Follows(k, stem, b, |a|);
    }
  }

  lemma SameNames(k: string, stem: string, a: string, b: string)
    requires NoMarks(a) && NoMarks(b) && Extends(k, stem + a) && Extends(k, stem + b)
    ensures a == b
  {
    if |a| <= |b| {
      SameName(k, stem, a, b);
    } else {
      SameName(k, stem, b, a);
    }
  }

  /** A path with the mark its children's labels begin with. */
  function Stem(d: Doc, path: string): string { path + if d.List? then "[" else "." }

  lemma LabelSplits(d: Doc, i: nat, path: string)
    requires i < Size(d)
    ensures path + Label(d, i) == Stem(d, path) + Name(d, i)
  {}

  lemma SiblingsSame(d: Doc, i: nat, j: nat, path: string, k: string)
    requires Plain(d) && !IsUniform(d) && !IsChoice(d) && i < Size(d) && j < Size(d)
    requires Extends(k, path + Label(d, i)) && Extends(k, path + Label(d, j))
    ensures i == j
  {
    NamePlain(d, i);
    NamePlain(d, j);
    LabelSplits(d, i, path);
    LabelSplits(d, j, path);
    SameNames(k, Stem(d, path), Name(d, i), Name(d, j));
    NameInjective(d, i, j);
  }

  // ----- the outermost distributions

  /** Where a distribution stands that is not inside another one. */
  datatype Site = Site(path: string, d: Doc)

  function Sites(d: Doc, path: string): seq<Site>
    decreases d, Size(d) + 1
  {
    if IsUniform(d) || IsChoice(d) then [Site(path, d)] else SitesOf(d, Size(d), path)
  }

  /** Those of the first `n` children. */
  function SitesOf(d: Doc, n: nat, path: string): seq<Site>
    requires n <= Size(d)
    decreases d, n
  {
    if n == 0 then [] else SitesOf(d, n - 1, path) + Sites(Child(d, n - 1), path + Label(d, n - 1))
  }

  /** Whether some draw makes resolving `d` at `path` record a decision under `k`. */
  predicate MayRecord(d: Doc, path: string, k: string)
    decreases if d.Text? then 0 else 1, d, Size(d) + 1
  {
    if IsUniform(d) then k == path
    else if IsChoice(d) then
      k == path || exists i :: 0 <= i < |Alternatives(d)| && MayRecord(Alternatives(d)[i], path, k)
    else (d.List? || d.Dict?) && MayRecordBelow(d, Size(d), path, k)
  }

  predicate MayRecordBelow(d: Doc, n: nat, path: string, k: string)
    requires n <= Size(d) && !d.Text?
    decreases 1, d, n
  {
    n > 0 && (MayRecordBelow(d, n - 1, path, k) || MayRecord(Child(d, n - 1), path + Label(d, n - 1), k))
  }

  lemma {:induction false} Recorded(src: Source, d: Doc, used: nat, decisions: Decisions, path: string, k: string)
    requires src.Valid() && !MayRecord(d, path, k)
    ensures var o := Resolve(src, d, used, decisions, path); o.Ok? ==> Same(decisions, o.decisions, k)
    decreases if d.Text? then 0 else 1, d, Size(d) + 1
  {
    if IsUniform(d) {
    } else if IsChoice(d) {
      if Alternatives(d) != [] {
        Recorded(src, Alternatives(d)[src.pick(used, |Alternatives(d)|)], used + 1, decisions, path, k);
      }
    } else if d.List? || d.Dict? {
      RecordedBelow(src, d, Size(d), used, decisions, path, k);
    }
  }

  lemma {:induction false} RecordedBelow(src: Source, d: Doc, n: nat, used: nat, decisions: Decisions, path: string,
                                         k: string)
    requires src.Valid() && n <= Size(d) && !d.Text? && !MayRecordBelow(d, n, path, k)
    ensures var o := ResolveChildren(src, d, n, used, decisions, path); o.Oks? ==> Same(decisions, o.decisions, k)
    decreases 1, d, n
  {
    if n > 0 {
      RecordedBelow(src, d, n - 1, used, decisions, path, k);
      var o := ResolveChildren(src, d, n - 1, used, decisions, path);
      if o.Oks? {
        Recorded(src, Child(d, n - 1), o.used, o.decisions, path + Label(d, n - 1), k);
      }
    }
  }

  /** Some distribution among these may record under `k`. */
  predicate SomeRecords(sites: seq<Site>, k: string) {
    exists i :: 0 <= i < |sites| && MayRecord(sites[i].d, sites[i].path, k)
  }

  lemma SomeRecordsJoin(a: seq<Site>, b: seq<Site>, k: string)
    ensures SomeRecords(a + b, k) <==> SomeRecords(a, k) || SomeRecords(b, k)
  {
    if i :| 0 <= i < |a| && MayRecord(a[i].d, a[i].path, k) {
      assert (a + b)[i] == a[i];
    }
    if i :| 0 <= i < |b| && MayRecord(b[i].d, b[i].path, k) {
      assert (a + b)[|a| + i] == b[i];
    }
  }

  lemma {:induction false} SitesRecord(d: Doc, path: string, k: string)
    ensures MayRecord(d, path, k) <==> SomeRecords(Sites(d, path), k)
    decreases d, Size(d) + 1
  {
    if IsUniform(d) || IsChoice(d) {
      assert Sites(d, path)[0] == Site(path, d);
    } else if d.List? || d.Dict? {
      SitesRecordBelow(d, Size(d), path, k);
    }
  }

  lemma {:induction false} SitesRecordBelow(d: Doc, n: nat, path: string, k: string)
    requires n <= Size(d) && !d.Text?
    ensures MayRecordBelow(d, n, path, k) <==> SomeRecords(SitesOf(d, n, path), k)
    decreases d, n
  {
    if n > 0 {
      SitesRecordBelow(d, n - 1, path, k);
      SitesRecord(Child(d, n - 1), path + Label(d, n - 1), k);
      SomeRecordsJoin(SitesOf(d, n - 1, path), Sites(Child(d, n - 1), path + Label(d, n - 1)), k);
    }
  }

  // ----- when the record replays

  predicate AgreeAt(a: Decisions, b: Decisions, sites: seq<Site>) {
    forall i :: 0 <= i < |sites| ==> Same(a, b, sites[i].path)
  }

  lemma AgreeJoin(a: Decisions, b: Decisions, xs: seq<Site>, ys: seq<Site>)
    ensures AgreeAt(a, b, xs + ys) <==> AgreeAt(a, b, xs) && AgreeAt(a, b, ys)
  {
    if AgreeAt(a, b, xs + ys) {
      assert forall i :: 0 <= i < |xs| ==> (xs + ys)[i] == xs[i];
      assert forall i :: 0 <= i < |ys| ==> (xs + ys)[|xs| + i] == ys[i];
    }
  }

  /** What replays depends only on what is recorded at the sites. */
  lemma {:induction false} ReplayLocal(d: Doc, a: Decisions, b: Decisions, path: string)
    requires AgreeAt(a, b, Sites(d, path))
    ensures Replay(d, a, path) == Replay(d, b, path)
    decreases d, Size(d) + 1
  {
    if IsUniform(d) || IsChoice(d) {
      assert Sites(d, path)[0] == Site(path, d);
    } else {
      ReplayChildrenLocal(d, Size(d), a, b, path);
    }
  }

  lemma {:induction false} ReplayChildrenLocal(d: Doc, n: nat, a: Decisions, b: Decisions, path: string)
    requires n <= Size(d) && AgreeAt(a, b, SitesOf(d, n, path))
    ensures ReplayChildren(d, n, a, path) == ReplayChildren(d, n, b, path)
    decreases d, n
  {
    if n > 0 {
      AgreeJoin(a, b, SitesOf(d, n - 1, path), Sites(Child(d, n - 1), path + Label(d, n - 1)));
      ReplayChildrenLocal(d, n - 1, a, b, path);
      ReplayLocal(Child(d, n - 1), a, b, path + Label(d, n - 1));
    }
  }

  /** No distribution may record, whatever is drawn, at the path of an earlier one. */
  predicate Undisturbed(sites: seq<Site>) {
    forall i, j :: 0 <= i < j < |sites| ==> !MayRecord(sites[j].d, sites[j].path, sites[i].path)
  }

  lemma UndisturbedParts(a: seq<Site>, b: seq<Site>)
    requires Undisturbed(a + b)
    ensures Undisturbed(a) && Undisturbed(b) && forall i :: 0 <= i < |a| ==> !SomeRecords(b, a[i].path)
  {
    var ab := a + b;
    assert forall i :: 0 <= i < |a| ==> ab[i] == a[i];
    assert forall j :: 0 <= j < |b| ==> ab[|a| + j] == b[j];
    forall i, j | 0 <= i < j < |b|
      ensures !MayRecord(b[j].d, b[j].path, b[i].path)
    {
      assert !MayRecord(ab[|a| + j].d, ab[|a| + j].path, ab[|a| + i].path);
    }
    forall i, j | 0 <= i < |a| && 0 <= j < |b|
      ensures !MayRecord(b[j].d, b[j].path, a[i].path)
    {
      assert !MayRecord(ab[|a| + j].d, ab[|a| + j].path, ab[i].path);
    }
  }

  /** The recorded decisions, put back at their paths, give the resolved document: whatever is drawn,
  for every document in which no distribution may record at the path of an earlier one. */
  lemma {:induction false} DecisionsReplay(src: Source, d: Doc, used: nat, decisions: Decisions, path: string)
    requires src.Valid() && Undisturbed(Sites(d, path))
    ensures var o := Resolve(src, d, used, decisions, path); o.Ok? ==> Replay(d, o.decisions, path) == o.value
    decreases d, Size(d) + 1
  {
    if !IsUniform(d) && !IsChoice(d) && (d.List? || d.Dict?) {
      ChildrenReplay(src, d, Size(d), used, decisions, path);
    }
  }

  lemma {:induction false} ChildrenReplay(src: Source, d: Doc, n: nat, used: nat, decisions: Decisions, path: string)
    requires src.Valid() && n <= Size(d) && !d.Text? && Undisturbed(SitesOf(d, n, path))
    ensures var o := ResolveChildren(src, d, n, used, decisions, path);
            o.Oks? ==> ReplayChildren(d, n, o.decisions, path) == o.values
    decreases d, n
  {
    if n > 0 {
      var c, last := Child(d, n - 1), path + Label(d, n - 1);
      UndisturbedParts(SitesOf(d, n - 1, path), Sites(c, last));
      ChildrenReplay(src, d, n - 1, used, decisions, path);
      var o := ResolveChildren(src, d, n - 1, used, decisions, path);
      if o.Oks? {
        DecisionsReplay(src, c, o.used, o.decisions, last);
        var o' := Resolve(src, c, o.used, o.decisions, last);
        if o'.Ok? {
          EarlierUntouched(src, c, o.used, o.decisions, last, SitesOf(d, n - 1, path));
          LastReplays(src, d, n, used, decisions, path);
        }
      }
    }
  }

  lemma LastReplays(src: Source, d: Doc, n: nat, used: nat, decisions: Decisions, path: string)
    requires src.Valid() && 0 < n <= Size(d) && !d.Text? && ResolveChildren(src, d, n - 1, used, decisions, path).Oks?
    requires var o := ResolveChildren(src, d, n - 1, used, decisions, path);
             var c, last := Child(d, n - 1), path + Label(d, n - 1);
             var o' := Resolve(src, c, o.used, o.decisions, last);
             && o'.Ok? && ReplayChildren(d, n - 1, o.decisions, path) == o.values
             && Replay(c, o'.decisions, last) == o'.value
             && AgreeAt(o.decisions, o'.decisions, SitesOf(d, n - 1, path))
    ensures var o := ResolveChildren(src, d, n, used, decisions, path);
            o.Oks? && ReplayChildren(d, n, o.decisions, path) == o.values
  {
    var o := ResolveChildren(src, d, n - 1, used, decisions, path);
    var o' := Resolve(src, Child(d, n - 1), o.used, o.decisions, path + Label(d, n - 1));
    ReplayChildrenLocal(d, n - 1, o.decisions, o'.decisions, path);
  }

  lemma EarlierUntouched(src: Source, c: Doc, used: nat, decisions: Decisions, path: string, earlier: seq<Site>)
    requires src.Valid() && Resolve(src, c, used, decisions, path).Ok?
    requires forall i :: 0 <= i < |earlier| ==> !SomeRecords(Sites(c, path), earlier[i].path)
    ensures AgreeAt(decisions, Resolve(src, c, used, decisions, path).decisions, earlier)
  {
    forall i | 0 <= i < |earlier|
      ensures Same(decisions, Resolve(src, c, used, decisions, path).decisions, earlier[i].path)
    {
      SitesRecord(c, path, earlier[i].path);
      Recorded(src, c, used, decisions, path, earlier[i].path);
    }
  }

  // ----- plain keys are enough

  lemma {:induction false} RecordExtends(d: Doc, path: string, k: string)
    requires MayRecord(d, path, k)
    ensures Extends(k, path)
    decreases if d.Text? then 0 else 1, d, Size(d) + 1
  {
    if IsUniform(d) {
    } else if IsChoice(d) {
      if k != path {
        var i :| 0 <= i < |Alternatives(d)| && MayRecord(Alternatives(d)[i], path, k);
        RecordExtends(Alternatives(d)[i], path, k);
      }
    } else {
      var i := RecordBelowExtends(d, Size(d), path, k);
      ExtendsParent(k, path, Label(d, i));
    }
  }

  lemma {:induction false} RecordBelowExtends(d: Doc, n: nat, path: string, k: string) returns (i: nat)
    requires n <= Size(d) && !d.Text? && MayRecordBelow(d, n, path, k)
    ensures i < n && Extends(k, path + Label(d, i))
    decreases 1, d, n
  {
    if MayRecordBelow(d, n - 1, path, k) {
      i := RecordBelowExtends(d, n - 1, path, k);
    } else {
      RecordExtends(Child(d, n - 1), path + Label(d, n - 1), k);
      i := n - 1;
    }
  }

  /** Resolving a part of a document records at its path and below it, and nowhere else. */
  lemma ResolveConfined(src: Source, d: Doc, used: nat, decisions: Decisions, path: string)
    requires src.Valid()
    ensures var o := Resolve(src, d, used, decisions, path); o.Ok? ==> Confined(decisions, o.decisions, path)
  {
    var o := Resolve(src, d, used, decisions, path);
    forall k: string | o.Ok? && !Extends(k, path)
      ensures Same(decisions, o.decisions, k)
    {
      if MayRecord(d, path, k) {
        RecordExtends(d, path, k);
      } else {
        Recorded(src, d, used, decisions, path, k);
      }
    }
  }

  /** A site of one of the first `n` children lies at or below that child. */
  lemma {:induction false} SiteBelow(d: Doc, n: nat, path: string, s: Site) returns (i: nat)
    requires n <= Size(d) && !d.Text? && s in SitesOf(d, n, path)
    ensures i < n && Extends(s.path, path + Label(d, i))
    decreases d, n
  {
    if s in SitesOf(d, n - 1, path) {
      i := SiteBelow(d, n - 1, path, s);
    } else {
      SiteExtends(Child(d, n - 1), path + Label(d, n - 1), s);
      i := n - 1;
    }
  }

  lemma {:induction false} SiteExtends(d: Doc, path: string, s: Site)
    requires s in Sites(d, path)
    ensures Extends(s.path, path)
    decreases d, Size(d) + 1
  {
    if !IsUniform(d) && !IsChoice(d) {
      var i := SiteBelow(d, Size(d), path, s);
      ExtendsParent(s.path, path, Label(d, i));
    }
  }

  /** Distinct keys without `.` and `[` keep all distributions apart. */
  lemma {:induction false} PlainUndisturbed(d: Doc, path: string)
    requires Plain(d)
    ensures Undisturbed(Sites(d, path))
    decreases d, Size(d) + 1
  {
    if !IsUniform(d) && !IsChoice(d) && !d.Text? {
      PlainUndisturbedBelow(d, Size(d), path);
    }
  }

  lemma {:induction false} PlainUndisturbedBelow(d: Doc, n: nat, path: string)
    requires n <= Size(d) && !d.Text? && Plain(d) && !IsUniform(d) && !IsChoice(d)
    ensures Undisturbed(SitesOf(d, n, path))
    decreases d, n
  {
    if n > 0 {
      var c, last := Child(d, n - 1), path + Label(d, n - 1);
      var a, b := SitesOf(d, n - 1, path), Sites(c, last);
      PlainUndisturbedBelow(d, n - 1, path);
      PlainUndisturbed(c, last);
      forall i, j | 0 <= i < |a| && 0 <= j < |b|
        ensures !MayRecord(b[j].d, b[j].path, a[i].path)
      {
        if MayRecord(b[j].d, b[j].path, a[i].path) {
          assert SomeRecords(b, a[i].path);
          SitesRecord(c, last, a[i].path);
          RecordExtends(c, last, a[i].path);
          var m := SiteBelow(d, n - 1, path, a[i]);
          SiblingsSame(d, m, n - 1, path, a[i].path);
        }
      }
    }
  }

  // ----- exactly when one resolution replays

  function At(decisions: Decisions, k: string): Doc { if k in decisions then decisions[k] else Null }

  /** What each outermost distribution resolved to, in order. */
  function Settled(src: Source, d: Doc, used: nat, before: Decisions, path: string): seq<Doc>
    requires src.Valid() && Resolve(src, d, used, before, path).Ok?
    decreases d, Size(d) + 1
  {
    if IsUniform(d) || IsChoice(d) then [Resolve(src, d, used, before, path).value]
    else if d.List? || d.Dict? then SettledOf(src, d, Size(d), used, before, path)
    else []
  }

  function SettledOf(src: Source, d: Doc, n: nat, used: nat, before: Decisions, path: string): seq<Doc>
    requires src.Valid() && n <= Size(d) && !d.Text? && ResolveChildren(src, d, n, used, before, path).Oks?
    decreases d, n
  {
    if n == 0 then []
    else
      var o := ResolveChildren(src, d, n - 1, used, before, path);
      SettledOf(src, d, n - 1, used, before, path)
      + Settled(src, Child(d, n - 1), o.used, o.decisions, path + Label(d, n - 1))
  }

  /** The record holds, at the path of each of these distributions, what that one resolved to. */
  predicate Kept(sites: seq<Site>, values: seq<Doc>, decisions: Decisions) {
    |sites| == |values| && forall i :: 0 <= i < |sites| ==> At(decisions, sites[i].path) == values[i]
  }

  lemma KeptJoin(a: seq<Site>, b: seq<Site>, va: seq<Doc>, vb: seq<Doc>, decisions: Decisions)
    requires |a| == |va| && |b| == |vb|
    ensures Kept(a + b, va + vb, decisions) <==> Kept(a, va, decisions) && Kept(b, vb, decisions)
  {
    if Kept(a + b, va + vb, decisions) {
      assert forall i :: 0 <= i < |a| ==> (a + b)[i] == a[i] && (va + vb)[i] == va[i];
      assert forall i :: 0 <= i < |b| ==> (a + b)[|a| + i] == b[i] && (va + vb)[|a| + i] == vb[i];
    }
  }

  lemma AppendedIff(a: seq<Doc>, b: seq<Doc>, x: Doc, y: Doc)
    requires |a| == |b|
    ensures a + [x] == b + [y] <==> a == b && x == y
  {
    if a + [x] == b + [y] {
      assert (a + [x])[..|a|] == a && (b + [y])[..|b|] == b && (a + [x])[|a|] == (b + [y])[|b|];
    }
  }

  lemma RebuildIff(d: Doc, a: seq<Doc>, b: seq<Doc>)
    requires |a| == |b| == Size(d) && (d.List? || d.Dict?)
    ensures Rebuild(d, a) == Rebuild(d, b) <==> a == b
  {
    RebuildShape(d, a);
    RebuildShape(d, b);
    if Rebuild(d, a) == Rebuild(d, b) {
      assert forall i :: 0 <= i < |a| ==> a[i] == b[i];
    }
  }

  /** For every document, choices included, and every record: putting it back gives the resolved document if
  and only if it holds, at each outermost distribution's path, what that distribution resolved to. */
  lemma {:induction false} KeptIff(src: Source, d: Doc, used: nat, before: Decisions, path: string,
                                   decisions: Decisions)
    requires src.Valid() && Resolve(src, d, used, before, path).Ok?
    ensures var sites, values := Sites(d, path), Settled(src, d, used, before, path);
            && |sites| == |values|
            && (Replay(d, decisions, path) == Resolve(src, d, used, before, path).value
                <==> Kept(sites, values, decisions))
    decreases d, Size(d) + 1
  {
    if IsUniform(d) || IsChoice(d) {
      assert Sites(d, path)[0].path == path && |Sites(d, path)| == 1;
      assert Settled(src, d, used, before, path)[0] == Resolve(src, d, used, before, path).value;
    } else if d.List? || d.Dict? {
      KeptBelow(src, d, Size(d), used, before, path, decisions);
      RebuildIff(d, ReplayChildren(d, Size(d), decisions, path),
                 ResolveChildren(src, d, Size(d), used, before, path).values);
    }
  }

  lemma {:induction false} KeptBelow(src: Source, d: Doc, n: nat, used: nat, before: Decisions, path: string,
                                     decisions: Decisions)
    requires src.Valid() && n <= Size(d) && !d.Text? && ResolveChildren(src, d, n, used, before, path).Oks?
    ensures var sites, values := SitesOf(d, n, path), SettledOf(src, d, n, used, before, path);
            && |sites| == |values|
            && (ReplayChildren(d, n, decisions, path) == ResolveChildren(src, d, n, used, before, path).values
                <==> Kept(sites, values, decisions))
    decreases d, n
  {
    if n > 0 {
      var o := ResolveChildren(src, d, n - 1, used, before, path);
      var c, last := Child(d, n - 1), path + Label(d, n - 1);
      KeptBelow(src, d, n - 1, used, before, path, decisions);
      KeptIff(src, c, o.used, o.decisions, last, decisions);
      Unfolds(src, d, n, used, before, path);
      KeptJoin(SitesOf(d, n - 1, path), Sites(c, last), SettledOf(src, d, n - 1, used, before, path),
               Settled(src, c, o.used, o.decisions, last), decisions);
      AppendedIff(ReplayChildren(d, n - 1, decisions, path), o.values, Replay(c, decisions, last),
                  Resolve(src, c, o.used, o.decisions, last).value);
    }
  }

  // ----- uniform distributions: exactly when every resolution replays

  /** Every outermost distribution is a uniform one over a well-formed range. */
  predicate Fair(parse: string -> Option<real>, d: Doc) {
    if IsUniform(d) then Bounds(parse, d).0.None?
    else !IsChoice(d) && forall i :: 0 <= i < Size(d) ==> Fair(parse, Child(d, i))
  }

  predicate FairSites(parse: string -> Option<real>, sites: seq<Site>) {
    forall i :: 0 <= i < |sites| ==> IsUniform(sites[i].d) && Bounds(parse, sites[i].d).0.None?
  }

  /** Resolving a fresh scene and replaying its record gives the same document, whatever is drawn. */
  ghost predicate AlwaysReplays(parse: string -> Option<real>, d: Doc, path: string) {
    forall src: Source :: src.Valid() && src.parse == parse ==>
      var o := Resolve(src, d, 0, map[], path); o.Ok? && Replay(d, o.decisions, path) == o.value
  }

  /** What the `i`-th of these distributions draws, when drawing starts at `used`. */
  function Draw(src: Source, sites: seq<Site>, used: nat, i: nat): Doc
    requires i < |sites| && FairSites(src.parse, sites)
  {
    var (_, lower, upper) := Bounds(src.parse, sites[i].d);
    Number(src.uniform(used + i, lower, upper))
  }

  function Draws(src: Source, sites: seq<Site>, used: nat): (r: seq<Doc>)
    requires FairSites(src.parse, sites)
  {
    seq(|sites|, i requires 0 <= i < |sites| => Draw(src, sites, used, i))
  }

  /** The record when the first `n` of these distributions are drawn one after the other. */
  function RecordAll(src: Source, sites: seq<Site>, n: nat, used: nat, before: Decisions): Decisions
    requires n <= |sites| && FairSites(src.parse, sites)
  {
    if n == 0 then before
    else RecordAll(src, sites, n - 1, used, before)[sites[n - 1].path := Draw(src, sites, used, n - 1)]
  }

  /** Where distributions stand: below a list at `[0]`, `[1]`, and below a mapping at a dot and the key. */
  lemma SitesOfTwo(path: string, k: string, a: Doc, l: string, b: Doc)
    requires IsUniform(a) && IsUniform(b)
    ensures Sites(List([a, b]), path) == [Site(path + "[0]", a), Site(path + "[1]", b)]
    ensures Sites(Dict([(k, a), (l, b)]), path) == [Site(path + "." + k, a), Site(path + "." + l, b)]
  {
    var list, dict := List([a, b]), Dict([(k, a), (l, b)]);
    assert Label(list, 0) == "[0]" && Label(list, 1) == "[1]";
    assert Label(dict, 0) == "." + k && Label(dict, 1) == "." + l;
    assert path + ("." + k) == path + "." + k && path + ("." + l) == path + "." + l;
    TwoSites(list, path);
    TwoSites(dict, path);
    TwoNamed(list, path, "[0]", "[1]");
    TwoNamed(dict, path, "." + k, "." + l);
  }

  lemma TwoNamed(d: Doc, path: string, first: string, second: string)
    requires Size(d) == 2 && Label(d, 0) == first && Label(d, 1) == second
    requires Sites(d, path) == [Site(path + Label(d, 0), Child(d, 0)), Site(path + Label(d, 1), Child(d, 1))]
    ensures Sites(d, path) == [Site(path + first, Child(d, 0)), Site(path + second, Child(d, 1))]
  {}

  lemma TwoSites(d: Doc, path: string)
    requires Size(d) == 2 && IsUniform(Child(d, 0)) && IsUniform(Child(d, 1)) && !IsUniform(d) && !IsChoice(d)
    ensures Sites(d, path) == [Site(path + Label(d, 0), Child(d, 0)), Site(path + Label(d, 1), Child(d, 1))]
  {
    assert SitesOf(d, 0, path) == [];
    assert SitesOf(d, 1, path) == [Site(path + Label(d, 0), Child(d, 0))];
    assert Sites(Child(d, 1), path + Label(d, 1)) == [Site(path + Label(d, 1), Child(d, 1))];
    assert SitesOf(d, 2, path) == SitesOf(d, 1, path) + Sites(Child(d, 1), path + Label(d, 1));
  }

  lemma FairJoin(parse: string -> Option<real>, a: seq<Site>, b: seq<Site>)
    requires FairSites(parse, a) && FairSites(parse, b)
    ensures FairSites(parse, a + b)
  {}

  lemma {:induction false} RecordPrefix(src: Source, a: seq<Site>, b: seq<Site>, n: nat, used: nat, before: Decisions)
    requires n <= |a| && FairSites(src.parse, a) && FairSites(src.parse, b) && FairSites(src.parse, a + b)
    ensures RecordAll(src, a + b, n, used, before) == RecordAll(src, a, n, used, before)
  {
    if n > 0 {
      RecordPrefix(src, a, b, n - 1, used, before);
      assert (a + b)[n - 1] == a[n - 1];
    }
  }

  lemma {:induction false} RecordJoin(src: Source, a: seq<Site>, b: seq<Site>, n: nat, used: nat, before: Decisions)
    requires n <= |b| && FairSites(src.parse, a) && FairSites(src.parse, b) && FairSites(src.parse, a + b)
    ensures RecordAll(src, a + b, |a| + n, used, before)
         == RecordAll(src, b, n, used + |a|, RecordAll(src, a, |a|, used, before))
  {
    if n == 0 {
      RecordPrefix(src, a, b, |a|, used, before);
    } else {
      RecordJoin(src, a, b, n - 1, used, before);
      assert (a + b)[|a| + n - 1] == b[n - 1];
    }
  }

  lemma DrawsJoin(src: Source, a: seq<Site>, b: seq<Site>, used: nat)
    requires FairSites(src.parse, a) && FairSites(src.parse, b) && FairSites(src.parse, a + b)
    ensures Draws(src, a + b, used) == Draws(src, a, used) + Draws(src, b, used + |a|)
  {}

  /** What a fair document resolves to. */
  ghost predicate Fairly(src: Source, d: Doc, used: nat, before: Decisions, path: string)
    requires src.Valid()
  {
    var o, sites := Resolve(src, d, used, before, path), Sites(d, path);
    && o.Ok? && FairSites(src.parse, sites) && o.used == used + |sites|
    && Settled(src, d, used, before, path) == Draws(src, sites, used)
    && o.decisions == RecordAll(src, sites, |sites|, used, before)
  }

  /** A fair document draws once at each of its sites, in order, and records each draw there. */
  lemma {:induction false} FairResolves(src: Source, d: Doc, used: nat, before: Decisions, path: string)
    requires src.Valid() && Fair(src.parse, d)
    ensures Fairly(src, d, used, before, path)
    decreases d, Size(d) + 1
  {
    if IsUniform(d) {
      var site := Site(path, d);
      assert Sites(d, path) == [site] && [site][..0] == [];
    } else if d.List? || d.Dict? {
      FairBelow(src, d, Size(d), used, before, path);
    }
  }

  /** The same of the first `n` children. */
  ghost predicate FairlyResolved(src: Source, d: Doc, n: nat, used: nat, before: Decisions, path: string)
    requires src.Valid() && n <= Size(d) && !d.Text?
  {
    var o, sites := ResolveChildren(src, d, n, used, before, path), SitesOf(d, n, path);
    && o.Oks? && FairSites(src.parse, sites) && o.used == used + |sites|
    && SettledOf(src, d, n, used, before, path) == Draws(src, sites, used)
    && o.decisions == RecordAll(src, sites, |sites|, used, before)
  }

  /** One child more. */
  lemma Unfolds(src: Source, d: Doc, n: nat, used: nat, before: Decisions, path: string)
    requires src.Valid() && 0 < n <= Size(d) && !d.Text? && ResolveChildren(src, d, n - 1, used, before, path).Oks?
    requires var o := ResolveChildren(src, d, n - 1, used, before, path);
             Resolve(src, Child(d, n - 1), o.used, o.decisions, path + Label(d, n - 1)).Ok?
    ensures var o := ResolveChildren(src, d, n - 1, used, before, path);
            var c, last := Child(d, n - 1), path + Label(d, n - 1);
            var o', all := Resolve(src, c, o.used, o.decisions, last), ResolveChildren(src, d, n, used, before, path);
            && all.Oks? && all.used == o'.used && all.decisions == o'.decisions
            && SitesOf(d, n, path) == SitesOf(d, n - 1, path) + Sites(c, last)
            && SettledOf(src, d, n, used, before, path)
               == SettledOf(src, d, n - 1, used, before, path) + Settled(src, c, o.used, o.decisions, last)
  {}

  /** Two stretches of draws, one after the other. */
  lemma Paste(src: Source, a: seq<Site>, b: seq<Site>, used: nat, more: nat, before: Decisions, mid: Decisions,
              va: seq<Doc>, vb: seq<Doc>)
    requires FairSites(src.parse, a) && FairSites(src.parse, b) && more == used + |a|
    requires mid == RecordAll(src, a, |a|, used, before) && va == Draws(src, a, used) && vb == Draws(src, b, more)
    ensures FairSites(src.parse, a + b)
    ensures RecordAll(src, a + b, |a + b|, used, before) == RecordAll(src, b, |b|, more, mid)
    ensures Draws(src, a + b, used) == va + vb
  {
    FairJoin(src.parse, a, b);
    assert |a + b| == |a| + |b|;
    RecordJoin(src, a, b, |b|, used, before);
    DrawsJoin(src, a, b, used);
  }

  lemma FairMore(src: Source, d: Doc, n: nat, used: nat, before: Decisions, path: string)
    requires src.Valid() && 0 < n <= Size(d) && !d.Text? && FairlyResolved(src, d, n - 1, used, before, path)
    requires var o := ResolveChildren(src, d, n - 1, used, before, path);
             Fairly(src, Child(d, n - 1), o.used, o.decisions, path + Label(d, n - 1))
    ensures FairlyResolved(src, d, n, used, before, path)
  {
    var o := ResolveChildren(src, d, n - 1, used, before, path);
    var c, last := Child(d, n - 1), path + Label(d, n - 1);
    Unfolds(src, d, n, used, before, path);
    Paste(src, SitesOf(d, n - 1, path), Sites(c, last), used, o.used, before, o.decisions,
          SettledOf(src, d, n - 1, used, before, path), Settled(src, c, o.used, o.decisions, last));
  }

  lemma {:induction false} FairBelow(src: Source, d: Doc, n: nat, used: nat, before: Decisions, path: string)
    requires src.Valid() && Fair(src.parse, d) && !IsUniform(d) && n <= Size(d) && !d.Text?
    ensures FairlyResolved(src, d, n, used, before, path)
    decreases d, n
  {
    if n > 0 {
      var o := ResolveChildren(src, d, n - 1, used, before, path);
      FairBelow(src, d, n - 1, used, before, path);
      FairResolves(src, Child(d, n - 1), o.used, o.decisions, path + Label(d, n - 1));
      FairMore(src, d, n, used, before, path);
    }
  }

  /** Distributions that share a path drew the same. */
  predicate SharedAgree(src: Source, sites: seq<Site>, used: nat)
    requires FairSites(src.parse, sites)
  {
    forall i, j :: 0 <= i < j < |sites| && sites[i].path == sites[j].path ==>
      Draw(src, sites, used, i) == Draw(src, sites, used, j)
  }

  /** The last draw at a path is the one that is found there. */
  lemma {:induction false} LastWins(src: Source, sites: seq<Site>, n: nat, used: nat, before: Decisions, i: nat)
    requires FairSites(src.parse, sites) && SharedAgree(src, sites, used) && i < n <= |sites|
    ensures At(RecordAll(src, sites, n, used, before), sites[i].path) == Draw(src, sites, used, i)
  {
    if i < n - 1 {
      LastWins(src, sites, n - 1, used, before, i);
    }
  }

  lemma AgreeKept(src: Source, sites: seq<Site>, used: nat, before: Decisions)
    requires FairSites(src.parse, sites) && SharedAgree(src, sites, used)
    ensures Kept(sites, Draws(src, sites, used), RecordAll(src, sites, |sites|, used, before))
  {
    forall i | 0 <= i < |sites|
      ensures At(RecordAll(src, sites, |sites|, used, before), sites[i].path) == Draws(src, sites, used)[i]
    {
      LastWins(src, sites, |sites|, used, before, i);
    }
  }

  /** One resolution of a fair document replays from its record if and only if distributions that share a
  path drew the same. */
  lemma FairReplaysIff(src: Source, d: Doc, used: nat, before: Decisions, path: string)
    requires src.Valid() && Fair(src.parse, d)
    ensures var o, sites := Resolve(src, d, used, before, path), Sites(d, path);
            && o.Ok? && FairSites(src.parse, sites)
            && (Replay(d, o.decisions, path) == o.value <==> SharedAgree(src, sites, used))
  {
    var o, sites := Resolve(src, d, used, before, path), Sites(d, path);
    FairResolves(src, d, used, before, path);
    KeptIff(src, d, used, before, path, o.decisions);
    if SharedAgree(src, sites, used) {
      AgreeKept(src, sites, used, before);
    }
    if Kept(sites, Draws(src, sites, used), o.decisions) {
      forall i, j | 0 <= i < j < |sites| && sites[i].path == sites[j].path
        ensures Draw(src, sites, used, i) == Draw(src, sites, used, j)
      {
        assert Draws(src, sites, used)[i] == Draws(src, sites, used)[j];
      }
    }
  }

  /** Distributions that share a path are all over the one same number. */
  predicate SharedConstant(parse: string -> Option<real>, sites: seq<Site>)
    requires FairSites(parse, sites)
  {
    forall i, j :: 0 <= i < j < |sites| && sites[i].path == sites[j].path ==>
      var ((_, a, b), (_, c, d)) := (Bounds(parse, sites[i].d), Bounds(parse, sites[j].d)); a == b == c == d
  }

  /** Draws the lower bound every time but once. */
  function Pinned(parse: string -> Option<real>, n: nat): (src: Source)
    ensures src.Valid() && src.parse == parse
  {
    Source((k: nat, lower: real, upper: real) => if k == n then upper else lower, (k: nat, n: nat) => 0, parse)
  }

  lemma PinnedAgree(parse: string -> Option<real>, d: Doc, path: string, n: nat)
    requires Fair(parse, d) && AlwaysReplays(parse, d, path)
    ensures FairSites(parse, Sites(d, path)) && SharedAgree(Pinned(parse, n), Sites(d, path), 0)
  {
    var src := Pinned(parse, n);
    var o := Resolve(src, d, 0, map[], path);
    assert o.Ok? && Replay(d, o.decisions, path) == o.value;
    FairReplaysIff(src, d, 0, map[], path);
  }

  /** The exact condition: a document of well-formed uniform distributions, whatever its keys, replays from its
  record whatever is drawn, if and only if those that share a path are constants of one value. */
  lemma ReplaysIff(parse: string -> Option<real>, d: Doc, path: string)
    requires Fair(parse, d)
    ensures FairSites(parse, Sites(d, path))
    ensures AlwaysReplays(parse, d, path) <==> SharedConstant(parse, Sites(d, path))
  {
    var sites := Sites(d, path);
    FairResolves(Pinned(parse, 0), d, 0, map[], path);
    if SharedConstant(parse, sites) {
      forall src: Source | src.Valid() && src.parse == parse
        ensures var o := Resolve(src, d, 0, map[], path); o.Ok? && Replay(d, o.decisions, path) == o.value
      {
        FairReplaysIff(src, d, 0, map[], path);
      }
    }
    if AlwaysReplays(parse, d, path) {
      forall i, j | 0 <= i < j < |sites| && sites[i].path == sites[j].path
        ensures var ((_, a, b), (_, c, e)) := (Bounds(parse, sites[i].d), Bounds(parse, sites[j].d)); a == b == c == e
      {
        PinnedAgree(parse, d, path, i);
        PinnedAgree(parse, d, path, j);
        PinnedAgree(parse, d, path, |sites|);
        assert Draw(Pinned(parse, i), sites, 0, i) == Draw(Pinned(parse, i), sites, 0, j);
        assert Draw(Pinned(parse, j), sites, 0, i) == Draw(Pinned(parse, j), sites, 0, j);
        assert Draw(Pinned(parse, |sites|), sites, 0, i) == Draw(Pinned(parse, |sites|), sites, 0, j);
      }
    }
  }

  function Uniform(lo: real, hi: real): Doc { Dict([("uniform", List([Number(lo), Number(hi)]))]) }

  lemma ResolveOne(src: Source, key: string, c: Doc, used: nat, decisions: Decisions, path: string)
    requires src.Valid() && key != "uniform" && key != "choice"
              && Resolve(src, c, used, decisions, path + "." + key).Ok?
    ensures var o := Resolve(src, c, used, decisions, path + "." + key);
            Resolve(src, Dict([(key, c)]), used, decisions, path) == Ok(Dict([(key, o.value)]), o.used, o.decisions)
  {
    var d := Dict([(key, c)]);
    assert path + Label(d, 0) == path + "." + key;
    var o := Resolve(src, c, used, decisions, path + "." + key);
    assert Rebuild(d, [o.value]).entries == [(key, o.value)];
    assert ResolveChildren(src, d, 0, used, decisions, path) == Oks([], used, decisions);
  }

  lemma ResolveTwo(src: Source, k1: string, c1: Doc, k2: string, c2: Doc, used: nat, decisions: Decisions, path: string)
    requires src.Valid()
    requires var o1 := Resolve(src, c1, used, decisions, path + "." + k1);
             o1.Ok? && Resolve(src, c2, o1.used, o1.decisions, path + "." + k2).Ok?
    ensures var o1 := Resolve(src, c1, used, decisions, path + "." + k1);
            var o2 := Resolve(src, c2, o1.used, o1.decisions, path + "." + k2);
            Resolve(src, Dict([(k1, c1), (k2, c2)]), used, decisions, path)
                == Ok(Dict([(k1, o1.value), (k2, o2.value)]), o2.used, o2.decisions)
  {
    var d := Dict([(k1, c1), (k2, c2)]);
    var o1 := Resolve(src, c1, used, decisions, path + "." + k1);
    assert path + Label(d, 0) == path + "." + k1 && path + Label(d, 1) == path + "." + k2;
    ResolveFirst(src, d, used, decisions, path);
    var o2 := Resolve(src, c2, o1.used, o1.decisions, path + "." + k2);
    ResolveSecond(src, d, used, decisions, path, o1.value, o1.used, o1.decisions);
    assert Rebuild(d, [o1.value, o2.value]).entries == [(k1, o1.value), (k2, o2.value)];
  }

  lemma ResolveFirst(src: Source, d: Doc, used: nat, decisions: Decisions, path: string)
    requires src.Valid() && Size(d) > 0 && Resolve(src, Child(d, 0), used, decisions, path + Label(d, 0)).Ok?
    ensures var o := Resolve(src, Child(d, 0), used, decisions, path + Label(d, 0));
            ResolveChildren(src, d, 1, used, decisions, path) == Oks([o.value], o.used, o.decisions)
  {
    assert ResolveChildren(src, d, 0, used, decisions, path) == Oks([], used, decisions);
  }

  lemma ResolveSecond(src: Source, d: Doc, used: nat, decisions: Decisions, path: string, first: Doc, used': nat,
                      decisions': Decisions)
    requires src.Valid() && Size(d) == 2
    requires ResolveChildren(src, d, 1, used, decisions, path) == Oks([first], used', decisions')
    requires Resolve(src, Child(d, 1), used', decisions', path + Label(d, 1)).Ok?
    ensures var o := Resolve(src, Child(d, 1), used', decisions', path + Label(d, 1));
            ResolveChildren(src, d, 2, used, decisions, path) == Oks([first, o.value], o.used, o.decisions)
  {}

  lemma ReplayFirst(d: Doc, decisions: Decisions, path: string)
    requires d.Dict? && Size(d) > 0 && !IsUniform(d) && !IsChoice(d)
    ensures Size(Replay(d, decisions, path)) == Size(d)
    ensures Child(Replay(d, decisions, path), 0) == Replay(Child(d, 0), decisions, path + Label(d, 0))
  {
    FirstReplayed(d, Size(d), decisions, path);
    RebuildShape(d, ReplayChildren(d, Size(d), decisions, path));
  }

  lemma {:induction false} FirstReplayed(d: Doc, n: nat, decisions: Decisions, path: string)
    requires 0 < n <= Size(d)
    ensures ReplayChildren(d, n, decisions, path)[0] == Replay(Child(d, 0), decisions, path + Label(d, 0))
  {
    if n > 1 {
      FirstReplayed(d, n - 1, decisions, path);
    } else {
      assert ReplayChildren(d, 0, decisions, path) == [];
    }
  }

  /** Two distributions, `m` inside `n` and `n.m` beside it. */
  function Colliding(n: string, m: string, u: Doc, v: Doc): Doc { Dict([(n, Dict([(m, u)])), (n + "." + m, v)]) }

  lemma UniformResolves(src: Source, lo: real, hi: real, used: nat, decisions: Decisions, path: string)
    requires src.Valid() && lo <= hi
    ensures var x := Number(src.uniform(used, lo, hi));
            Resolve(src, Uniform(lo, hi), used, decisions, path) == Ok(x, used + 1, decisions[path := x])
  {}

  lemma ResolveColliding(src: Source, n: string, m: string, a: real, b: real, c: real, d: real, decisions: Decisions,
                         path: string)
    requires src.Valid() && a <= b && c <= d && m != "uniform" && m != "choice"
    ensures var x, y := Number(src.uniform(0, a, b)), Number(src.uniform(1, c, d));
            Resolve(src, Colliding(n, m, Uniform(a, b), Uniform(c, d)), 0, decisions, path)
            == Ok(Colliding(n, m, x, y), 2, decisions[path + "." + n + "." + m := y])
  {
    var u, v := Uniform(a, b), Uniform(c, d);
    var x, y := Number(src.uniform(0, a, b)), Number(src.uniform(1, c, d));
    var inner := path + "." + n;
    var at := inner + "." + m;
    assert path + "." + (n + "." + m) == at;
    UniformResolves(src, a, b, 0, decisions, at);
    ResolveOne(src, m, u, 0, decisions, inner);
    UniformResolves(src, c, d, 1, decisions[at := x], at);
    assert decisions[at := x][at := y] == decisions[at := y];
    ResolveTwo(src, n, Dict([(m, u)]), n + "." + m, v, 0, decisions, path);
  }

  lemma ReplayColliding(n: string, m: string, u: Doc, v: Doc, decisions: Decisions, path: string)
    requires m != "uniform" && m != "choice" && IsUniform(u) && path + "." + n + "." + m in decisions
    ensures var r := Replay(Colliding(n, m, u, v), decisions, path);
            Size(r) == 2 && Size(Child(r, 0)) == 1 && Child(Child(r, 0), 0) == decisions[path + "." + n + "." + m]
  {
    var d := Colliding(n, m, u, v);
    var inner := Child(d, 0);
    assert path + Label(d, 0) == path + "." + n;
    assert path + "." + n + Label(inner, 0) == path + "." + n + "." + m;
    ReplayFirst(d, decisions, path);
    ReplayFirst(inner, decisions, path + "." + n);
  }

  /** Without plain keys the record can be overwritten: with two ranges that do not meet, the key
  `n.m` beside an `m` inside `n` leaves one decision for two draws, and the record replays wrong. */
  lemma DottedKeysCollide(src: Source, n: string, m: string, a: real, b: real, c: real, d: real, decisions: Decisions,
                          path: string)
    requires src.Valid() && a <= b < c <= d && m != "uniform" && m != "choice"
    ensures var doc := Colliding(n, m, Uniform(a, b), Uniform(c, d));
            var o := Resolve(src, doc, 0, decisions, path);
            o.Ok? && o.used == 2 && o.decisions.Keys == decisions.Keys + {path + "." + n + "." + m}
            && Replay(doc, o.decisions, path) != o.value
  {
    ResolveColliding(src, n, m, a, b, c, d, decisions, path);
    var x, y := Number(src.uniform(0, a, b)), Number(src.uniform(1, c, d));
    ReplayColliding(n, m, Uniform(a, b), Uniform(c, d), decisions[path + "." + n + "." + m := y], path);
    assert Child(Child(Colliding(n, m, x, y), 0), 0) == x != y;
  }
}
