/** Pairing of colour and depth images by time stamp over two bounded buffers. */
module Pairing {

  /** A stamped image; stamps are nanoseconds. */
  datatype Frame = Frame(stamp: int, image: nat)

  datatype Pair = Pair(rgb: nat, depth: nat)

  datatype Arrival = Rgb(frame: Frame) | Depth(frame: Frame)

  const BUFFER := 8
  const OUTPUT := 2

  /** Everything that ever arrived, how much of either stream has left its buffer, and the pairs
  emitted so far, by arrival position. */
  datatype History = History(rgb: seq<Frame>, depth: seq<Frame>, r: nat, d: nat, emitted: seq<Pair>)

  function Distance(a: int, b: int): nat { if a >= b then a - b else b - a }

  function Gap(h: History, i: nat, j: nat): nat
    requires i < |h.rgb| && j < |h.depth|
  {
    Distance(h.rgb[i].stamp, h.depth[j].stamp)
  }

  predicate Buffered(h: History, i: nat, j: nat) { h.r <= i < |h.rgb| && h.d <= j < |h.depth| }

  /** The closest buffered pair, the earliest in row-major order among equals. */
  ghost predicate IsBest(h: History, i: nat, j: nat) {
    && Buffered(h, i, j)
    && forall a: nat, b: nat :: Buffered(h, a, b) ==>
        Gap(h, i, j) < Gap(h, a, b) || (Gap(h, i, j) == Gap(h, a, b) && (i < a || (i == a && j <= b)))
  }

  /** `deque(maxlen=8).append` drops the oldest frame of a full buffer. */
  function Arrived(h: History, a: Arrival): History {
    match a
    case Rgb(f) => h.(rgb := h.rgb + [f], r := if |h.rgb| + 1 - h.r > BUFFER then h.r + 1 else h.r)
    case Depth(f) => h.(depth := h.depth + [f], d := if |h.depth| + 1 - h.d > BUFFER then h.d + 1 else h.d)
  }

  /** `_match`: nothing while a buffer is empty; otherwise emit the best pair if it is close enough,
  or drop the older of the two heads. */
  ghost predicate Matched(tolerance: nat, h: History, h': History) {
    if h.r >= |h.rgb| || h.d >= |h.depth| then h' == h
    else exists i: nat, j: nat :: IsBest(h, i, j) && h' == Settled(tolerance, h, i, j)
  }

  function Settled(tolerance: nat, h: History, i: nat, j: nat): History
    requires Buffered(h, i, j)
  {
    if Gap(h, i, j) <= tolerance then h.(r := i + 1, d := j + 1, emitted := h.emitted + [Pair(i, j)])
    else if h.rgb[h.r].stamp < h.depth[h.d].stamp then h.(r := h.r + 1)
    else h.(d := h.d + 1)
  }

  /** One callback. */
  ghost predicate Next(tolerance: nat, h: History, a: Arrival, h': History) { Matched(tolerance, Arrived(h, a), h') }

  const EMPTY := History([], [], 0, 0, [])

  /** The states a camera goes through as images arrive. */
  ghost predicate IsRun(tolerance: nat, arrivals: seq<Arrival>, hs: seq<History>) {
    && |hs| == |arrivals| + 1
    && hs[0] == EMPTY
    && forall k :: 0 <= k < |arrivals| ==> Next(tolerance, hs[k], arrivals[k], hs[k + 1])
  }

  // ----- what every run keeps

  predicate WellFormed(h: History) {
    h.r <= |h.rgb| <= h.r + BUFFER && h.d <= |h.depth| <= h.d + BUFFER
  }

  /** No two buffered images are close enough to be a pair. */
  ghost predicate Unpaired(tolerance: nat, h: History) {
    forall i: nat, j: nat :: Buffered(h, i, j) ==> Gap(h, i, j) > tolerance
  }

  /** Every emitted pair is close enough, and positions strictly increase in both streams. */
  ghost predicate Emissions(tolerance: nat, h: History) {
    && (forall k :: 0 <= k < |h.emitted| ==> h.emitted[k].rgb < h.r && h.emitted[k].depth < h.d)
    && (forall k :: 0 <= k < |h.emitted| && h.emitted[k].rgb < |h.rgb| && h.emitted[k].depth < |h.depth| ==>
          Gap(h, h.emitted[k].rgb, h.emitted[k].depth) <= tolerance)
    && (forall k, l :: 0 <= k < l < |h.emitted| ==>
          h.emitted[k].rgb < h.emitted[l].rgb && h.emitted[k].depth < h.emitted[l].depth)
  }

  ghost predicate Inv(tolerance: nat, h: History) { WellFormed(h) && Unpaired(tolerance, h) && Emissions(tolerance, h) }

  lemma ArrivedKeeps(tolerance: nat, h: History, a: Arrival)
    requires Inv(tolerance, h)
    ensures WellFormed(Arrived(h, a)) && Emissions(tolerance, Arrived(h, a))
    ensures forall i: nat, j: nat :: Buffered(Arrived(h, a), i, j) && Gap(Arrived(h, a), i, j) <= tolerance ==>
              if a.Rgb? then i == |h.rgb| else j == |h.depth|
  {
    var g := Arrived(h, a);
    assert forall i: nat, j: nat :: Buffered(g, i, j) && i < |h.rgb| && j < |h.depth| ==>
             Buffered(h, i, j) && Gap(h, i, j) == Gap(g, i, j);
    forall k | 0 <= k < |g.emitted|
      ensures Gap(g, g.emitted[k].rgb, g.emitted[k].depth) <= tolerance
    {
      assert Gap(h, h.emitted[k].rgb, h.emitted[k].depth) <= tolerance;
    }
  }

  /** A callback keeps the invariant; and when it emits, it leaves the stream of the newest image
  with nothing buffered. */
  lemma NextKeeps(tolerance: nat, h: History, a: Arrival, h': History)
    requires Inv(tolerance, h) && Next(tolerance, h, a, h')
    ensures Inv(tolerance, h')
    ensures h'.emitted != h.emitted ==>
              && |h'.emitted| == |h.emitted| + 1 && h.emitted <= h'.emitted
              && if a.Rgb? then h'.r == |h'.rgb| else h'.d == |h'.depth|
  {
    ArrivedKeeps(tolerance, h, a);
    var g := Arrived(h, a);
    if g.r < |g.rgb| && g.d < |g.depth| {
      var i: nat, j: nat :| IsBest(g, i, j) && h' == Settled(tolerance, g, i, j);
      if Gap(g, i, j) <= tolerance {
        assert Gap(h', i, j) <= tolerance;
        EmissionAppends(tolerance, g, i, j);
      } else {
        assert forall x: nat, y: nat :: Buffered(h', x, y) ==> Buffered(g, x, y) && Gap(h', x, y) == Gap(g, x, y);
        DropKeeps(tolerance, g, h');
      }
    }
  }

  lemma EmissionAppends(tolerance: nat, g: History, i: nat, j: nat)
    requires WellFormed(g) && Emissions(tolerance, g) && Buffered(g, i, j) && Gap(g, i, j) <= tolerance
    ensures Emissions(tolerance, g.(r := i + 1, d := j + 1, emitted := g.emitted + [Pair(i, j)]))
  {
    var g' := g.(r := i + 1, d := j + 1, emitted := g.emitted + [Pair(i, j)]);
    forall k | 0 <= k < |g'.emitted|
      ensures Gap(g', g'.emitted[k].rgb, g'.emitted[k].depth) <= tolerance
    {
      if k < |g.emitted| {
        assert Gap(g, g.emitted[k].rgb, g.emitted[k].depth) <= tolerance;
      }
    }
  }

  lemma DropKeeps(tolerance: nat, g: History, h': History)
    requires WellFormed(g) && Emissions(tolerance, g) && g.r < |g.rgb| && g.d < |g.depth|
    requires h' == g.(r := g.r + 1) || h' == g.(d := g.d + 1)
    ensures Emissions(tolerance, h')
  {
    forall k | 0 <= k < |h'.emitted|
      ensures Gap(h', h'.emitted[k].rgb, h'.emitted[k].depth) <= tolerance
    {
      assert Gap(g, g.emitted[k].rgb, g.emitted[k].depth) <= tolerance;
    }
  }

  /** Over every run, whatever arrives in whatever order. */
  lemma {:induction false} RunInv(tolerance: nat, arrivals: seq<Arrival>, hs: seq<History>, k: nat)
    requires IsRun(tolerance, arrivals, hs) && k < |hs|
    ensures Inv(tolerance, hs[k])
  {
    if k > 0 {
      RunInv(tolerance, arrivals, hs, k - 1);
      NextKeeps(tolerance, hs[k - 1], arrivals[k - 1], hs[k - 1 + 1]);
    }
  }

  // ----- nothing worth keeping is dropped

  predicate Ordered(frames: seq<Frame>) { forall i, j :: 0 <= i <= j < |frames| ==> frames[i].stamp <= frames[j].stamp }

  /** With stamps that never go back, an image dropped for being out of tolerance could not be
  paired with any image of the other stream still buffered or yet to come. */
  lemma DroppedNeverMatches(tolerance: nat, h: History, h': History, future: Frame)
    requires WellFormed(h) && Matched(tolerance, h, h') && h'.emitted == h.emitted && h' != h
    requires Ordered(h.rgb) && Ordered(h.depth)
    ensures h' == h.(r := h.r + 1) || h' == h.(d := h.d + 1)
    ensures h' == h.(r := h.r + 1) ==>
              && (forall j :: h.d <= j < |h.depth| ==> Gap(h, h.r, j) > tolerance)
              && (Ordered(h.depth + [future]) ==> Distance(h.rgb[h.r].stamp, future.stamp) > tolerance)
    ensures h' == h.(d := h.d + 1) ==>
              && (forall i :: h.r <= i < |h.rgb| ==> Gap(h, i, h.d) > tolerance)
              && (Ordered(h.rgb + [future]) ==> Distance(future.stamp, h.depth[h.d].stamp) > tolerance)
  {
    var i: nat, j: nat :| IsBest(h, i, j) && h' == Settled(tolerance, h, i, j);
    assert Buffered(h, h.r, h.d);
    assert Gap(h, h.r, h.d) > tolerance;
    if Ordered(h.depth + [future]) {
      assert (h.depth + [future])[h.d].stamp <= (h.depth + [future])[|h.depth|].stamp;
    }
    if Ordered(h.rgb + [future]) {
      assert (h.rgb + [future])[h.r].stamp <= (h.rgb + [future])[|h.rgb|].stamp;
    }
  }

  // ----- one callback, in full

  /** How far apart two stamps are. */
  function Off(f: Frame, g: Frame): int { if f.stamp >= g.stamp then f.stamp - g.stamp else g.stamp - f.stamp }

  /** What is buffered when the search begins: everything, but the oldest of nine. */
  function RgbFrom(h: History, a: Arrival): nat { if a.Rgb? && |h.rgb| == h.r + 8 then h.r + 1 else h.r }

  function DepthFrom(h: History, a: Arrival): nat { if a.Depth? && |h.depth| == h.d + 8 then h.d + 1 else h.d }

  /** The emitted pair is the closest of all that are buffered, the first in row-major order among equals, and
  takes with it exactly what is no newer than itself in either stream. */
  ghost predicate EmitsClosest(h: History, h': History, r0: nat, d0: nat) {
    && |h'.emitted| == |h.emitted| + 1 && h.emitted <= h'.emitted
    && var p := h'.emitted[|h.emitted|];
       && r0 <= p.rgb < |h'.rgb| && d0 <= p.depth < |h'.depth| && h'.r == p.rgb + 1 && h'.d == p.depth + 1
       && forall i, j :: r0 <= i < |h'.rgb| && d0 <= j < |h'.depth| ==>
            var best, other := Off(h'.rgb[p.rgb], h'.depth[p.depth]), Off(h'.rgb[i], h'.depth[j]);
            best < other || (best == other && (p.rgb < i || (p.rgb == i && p.depth <= j)))
  }

  /** A callback: the image joins its stream; a pair is emitted exactly when two buffered images are within
  tolerance; otherwise, with both buffers holding something, the older of the two oldest leaves, and else
  nothing does. */
  lemma CallbackMeans(tolerance: nat, h: History, a: Arrival, h': History)
    requires Inv(tolerance, h) && Next(tolerance, h, a, h')
    ensures h'.rgb == h.rgb + (if a.Rgb? then [a.frame] else [])
    ensures h'.depth == h.depth + (if a.Depth? then [a.frame] else [])
    ensures h'.emitted != h.emitted <==>
              exists i, j :: RgbFrom(h, a) <= i < |h'.rgb| && DepthFrom(h, a) <= j < |h'.depth|
                             && Off(h'.rgb[i], h'.depth[j]) <= tolerance
    ensures h'.emitted != h.emitted ==> EmitsClosest(h, h', RgbFrom(h, a), DepthFrom(h, a))
    ensures var r0, d0 := RgbFrom(h, a), DepthFrom(h, a);
            h'.emitted == h.emitted ==>
              if r0 == |h'.rgb| || d0 == |h'.depth| then h'.r == r0 && h'.d == d0
              else if h'.rgb[r0].stamp < h'.depth[d0].stamp then h'.r == r0 + 1 && h'.d == d0
              else h'.r == r0 && h'.d == d0 + 1
  {
    var g := Arrived(h, a);
    assert g.r == RgbFrom(h, a) && g.d == DepthFrom(h, a);
    if g.r < |g.rgb| && g.d < |g.depth| {
      var i: nat, j: nat :| IsBest(g, i, j) && h' == Settled(tolerance, g, i, j);
      BestOff(g, i, j);
    }
  }

  /** The best pair, in stamps. */
  lemma BestOff(g: History, i: nat, j: nat)
    requires IsBest(g, i, j)
    ensures Gap(g, i, j) == Off(g.rgb[i], g.depth[j])
    ensures forall x, y :: g.r <= x < |g.rgb| && g.d <= y < |g.depth| ==>
              var best, other := Off(g.rgb[i], g.depth[j]), Off(g.rgb[x], g.depth[y]);
              best < other || (best == other && (i < x || (i == x && j <= y)))
  {
    forall x, y | g.r <= x < |g.rgb| && g.d <= y < |g.depth|
      ensures var best, other := Off(g.rgb[i], g.depth[j]), Off(g.rgb[x], g.depth[y]);
              best < other || (best == other && (i < x || (i == x && j <= y)))
    {
      assert Buffered(g, x, y) && Gap(g, x, y) == Off(g.rgb[x], g.depth[y]);
    }
  }

  // ----- the driver

  /** The output queue holds the newest emitted pairs, at most two, from position `taken` on. */
  ghost predicate Queued(h: History, taken: nat, paired: seq<(nat, nat)>) {
    && taken + |paired| == |h.emitted| && |paired| <= OUTPUT
    && forall k :: 0 <= k < |paired| ==> IsImages(h, taken + k, paired[k])
  }

  ghost predicate IsImages(h: History, k: nat, images: (nat, nat))
    requires k < |h.emitted|
  {
    var p := h.emitted[k];
    p.rgb < |h.rgb| && p.depth < |h.depth| && images == (h.rgb[p.rgb].image, h.depth[p.depth].image)
  }

  lemma SettledNext(tolerance: nat, before: History, a: Arrival, i: nat, j: nat)
    requires Inv(tolerance, before) && IsBest(Arrived(before, a), i, j)
    ensures Next(tolerance, before, a, Settled(tolerance, Arrived(before, a), i, j))
    ensures Inv(tolerance, Settled(tolerance, Arrived(before, a), i, j))
  {
    NextKeeps(tolerance, before, a, Settled(tolerance, Arrived(before, a), i, j));
  }

  lemma QueuedGrows(h: History, h': History, taken: nat, paired: seq<(nat, nat)>)
    requires Queued(h, taken, paired) && h.rgb <= h'.rgb && h.depth <= h'.depth && h'.emitted == h.emitted
    ensures Queued(h', taken, paired)
  {
    forall k | 0 <= k < |paired|
      ensures IsImages(h', taken + k, paired[k])
    {
      assert IsImages(h, taken + k, paired[k]);
    }
  }

  lemma QueuedPushes(h: History, h': History, taken: nat, paired: seq<(nat, nat)>, images: (nat, nat))
    requires Queued(h, taken, paired) && h'.rgb == h.rgb && h'.depth == h.depth
    requires |h'.emitted| == |h.emitted| + 1 && h.emitted <= h'.emitted && IsImages(h', |h.emitted|, images)
    ensures |paired| < OUTPUT ==> Queued(h', taken, paired + [images])
    ensures |paired| == OUTPUT ==> Queued(h', taken + 1, (paired + [images])[1..])
  {
    forall k | 0 <= k < |paired|
      ensures IsImages(h', taken + k, paired[k])
    {
      assert IsImages(h, taken + k, paired[k]);
    }
  }

  /** The camera's two input buffers, its output queue, and (ghost) the history they stand for. */
  class CameraDriver {
    const tolerance: nat
    var closing: bool
    var rgb: seq<Frame>
    var depth: seq<Frame>
    var paired: seq<(nat, nat)>
    ghost var history: History
    ghost var taken: nat

    /** The buffers are what is left of the streams; the output holds the newest emitted pairs. */
    ghost predicate Valid()
      reads this
    {
      && Inv(tolerance, history)
      && rgb == history.rgb[history.r..]
      && depth == history.depth[history.d..]
      && Queued(history, taken, paired)
    }

    constructor (tolerance: nat)
      ensures Valid() && this.tolerance == tolerance && !closing && history == EMPTY
    {
      this.tolerance, closing, rgb, depth, paired := tolerance, false, [], [], [];
      history, taken := EMPTY, 0;
    }

    /** A pair that was not taken leaves the output only for newer ones, when there would be more than two. */
    ghost predicate OldestGiveWay(before: nat)
      reads this
    {
      taken == if |history.emitted| > before + 2 then |history.emitted| - 2 else before
    }

    /** `_on_rgb`, for an image that decoded to the declared size. */
    method OnRgb(frame: Frame)
      requires Valid()
      modifies this
      ensures Valid() && closing == old(closing)
      ensures if closing then history == old(history) && paired == old(paired) && taken == old(taken)
              else Next(tolerance, old(history), Rgb(frame), history) && OldestGiveWay(old(taken))
    {
      if closing {
        return;
      }
      ghost var before := history;
      ArrivedKeeps(tolerance, history, Rgb(frame));
      rgb := rgb + [frame];
      if |rgb| > BUFFER {
        rgb := rgb[1..];
      }
      history := Arrived(history, Rgb(frame));
      QueuedGrows(before, history, taken, paired);
      assert rgb == history.rgb[history.r..];
      Match(before, Rgb(frame));
    }

    method OnDepth(frame: Frame)
      requires Valid()
      modifies this
      ensures Valid() && closing == old(closing)
      ensures if closing then history == old(history) && paired == old(paired) && taken == old(taken)
              else Next(tolerance, old(history), Depth(frame), history) && OldestGiveWay(old(taken))
    {
      if closing {
        return;
      }
      ghost var before := history;
      ArrivedKeeps(tolerance, history, Depth(frame));
      depth := depth + [frame];
      if |depth| > BUFFER {
        depth := depth[1..];
      }
      history := Arrived(history, Depth(frame));
      QueuedGrows(before, history, taken, paired);
      assert depth == history.depth[history.d..];
      Match(before, Depth(frame));
    }

    /** The nested search for the closest buffered pair. */
    method Closest() returns (i: nat, j: nat)
      requires history.r <= |history.rgb| && history.d <= |history.depth|
      requires rgb == history.rgb[history.r..] && depth == history.depth[history.d..] && rgb != [] && depth != []
      ensures i < |rgb| && j < |depth| && IsBest(history, history.r + i, history.d + j)
    {
      i, j := 0, 0;
      var best := Distance(rgb[0].stamp, depth[0].stamp);
      for a := 0 to |rgb|
        invariant i < |rgb| && j < |depth| && best == Distance(rgb[i].stamp, depth[j].stamp)
        invariant a == 0 ==> i == 0 && j == 0
        invariant a > 0 ==> i < a
        invariant forall x, y :: 0 <= x < a && 0 <= y < |depth| ==> Beats(best, i, j, x, y)
      {
        for b := 0 to |depth|
          invariant i < |rgb| && j < |depth| && best == Distance(rgb[i].stamp, depth[j].stamp)
          invariant i < a || (i == a && j < b) || (a == 0 && b == 0 && i == 0 && j == 0)
          invariant forall x, y :: 0 <= x < a && 0 <= y < |depth| ==> Beats(best, i, j, x, y)
          invariant forall y :: 0 <= y < b ==> Beats(best, i, j, a, y)
        {
          var gap := Distance(rgb[a].stamp, depth[b].stamp);
          if gap < best {
            forall x, y | 0 <= x <= a && 0 <= y < |depth| && (x == a ==> y <= b)
              ensures Beats(gap, a, b, x, y)
            {
              assert x < a || y < b ==> Beats(best, i, j, x, y);
            }
            i, j, best := a, b, gap;
          }
        }
      }
      forall x: nat, y: nat | Buffered(history, x, y)
        ensures Gap(history, history.r + i, history.d + j) < Gap(history, x, y)
                || (Gap(history, history.r + i, history.d + j) == Gap(history, x, y)
                    && (history.r + i < x || (history.r + i == x && history.d + j <= y)))
      {
        assert Beats(best, i, j, x - history.r, y - history.d);
      }
    }

    /** The pair found so far is closer than (x, y), or as close and not later in row-major order. */
    predicate Beats(best: nat, i: nat, j: nat, x: int, y: int)
      reads this
    {
      0 <= x < |rgb| && 0 <= y < |depth| ==>
        || best < Distance(rgb[x].stamp, depth[y].stamp)
        || (best == Distance(rgb[x].stamp, depth[y].stamp) && (i < x || (i == x && j <= y)))
    }

    method Match(ghost before: History, ghost arrival: Arrival)
      requires Inv(tolerance, before) && history == Arrived(before, arrival) && WellFormed(history)
      requires rgb == history.rgb[history.r..] && depth == history.depth[history.d..] && Queued(history, taken, paired)
      modifies this
      ensures Valid() && closing == old(closing) && Next(tolerance, before, arrival, history)
      ensures OldestGiveWay(old(taken))
    {
      if rgb == [] || depth == [] {
        NextKeeps(tolerance, before, arrival, history);
      } else {
        MatchPair(before, arrival);
      }
    }

    method MatchPair(ghost before: History, ghost arrival: Arrival)
      requires Inv(tolerance, before) && history == Arrived(before, arrival) && WellFormed(history)
      requires rgb == history.rgb[history.r..] && depth == history.depth[history.d..] && Queued(history, taken, paired)
      requires rgb != [] && depth != []
      modifies `rgb, `depth, `paired, `history, `taken
      ensures Valid() && Next(tolerance, before, arrival, history) && OldestGiveWay(old(taken))
    {
      var i, j := Closest();
      SettledNext(tolerance, before, arrival, history.r + i, history.d + j);
      Settle(i, j);
    }

    /** Emit the closest pair, or drop the older of the two oldest images. */
    method Settle(i: nat, j: nat)
      requires history.r <= |history.rgb| && history.d <= |history.depth|
      requires rgb == history.rgb[history.r..] && depth == history.depth[history.d..] && Queued(history, taken, paired)
      requires i < |rgb| && j < |depth|
      modifies `rgb, `depth, `paired, `history, `taken
      ensures history == Settled(tolerance, old(history), old(history.r) + i, old(history.d) + j)
      ensures rgb == history.rgb[history.r..] && depth == history.depth[history.d..] && Queued(history, taken, paired)
      ensures OldestGiveWay(old(taken))
    {
      if Distance(rgb[i].stamp, depth[j].stamp) <= tolerance {
        Push(i, j);
      } else if rgb[0].stamp < depth[0].stamp {
        QueuedGrows(history, history.(r := history.r + 1), taken, paired);
        rgb, history := rgb[1..], history.(r := history.r + 1);
      } else {
        QueuedGrows(history, history.(d := history.d + 1), taken, paired);
        depth, history := depth[1..], history.(d := history.d + 1);
      }
    }

    method Push(i: nat, j: nat)
      requires history.r <= |history.rgb| && history.d <= |history.depth|
      requires rgb == history.rgb[history.r..] && depth == history.depth[history.d..] && Queued(history, taken, paired)
      requires i < |rgb| && j < |depth|
      modifies `rgb, `depth, `paired, `history, `taken
      ensures var x, y := old(history.r) + i, old(history.d) + j;
              history == old(history).(r := x + 1, d := y + 1, emitted := old(history).emitted + [Pair(x, y)])
      ensures rgb == history.rgb[history.r..] && depth == history.depth[history.d..] && Queued(history, taken, paired)
      ensures OldestGiveWay(old(taken))
    {
      ghost var g, x, y := history, history.r + i, history.d + j;
      var images := (rgb[i].image, depth[j].image);
      history := g.(r := x + 1, d := y + 1, emitted := g.emitted + [Pair(x, y)]);
      assert IsImages(history, |g.emitted|, images);
      QueuedPushes(g, history, taken, paired, images);
      rgb, depth := rgb[i + 1..], depth[j + 1..];
      paired := paired + [images];
      if |paired| > OUTPUT {
        paired, taken := paired[1..], taken + 1;
      }
    }

    /** `capture`, once its wait is over: the oldest pair still queued, in emission order. */
    method Capture() returns (pair: (nat, nat))
      requires Valid() && paired != [] && !closing
      modifies this
      ensures Valid() && history == old(history) && taken == old(taken) + 1 && closing == old(closing)
      ensures paired == old(paired)[1..]
      ensures old(taken) < |history.emitted| && IsImages(history, old(taken), pair)
    {
      assert IsImages(history, taken + 0, paired[0]);
      pair := paired[0];
      paired := paired[1..];
      taken := taken + 1;
    }
  }
}
