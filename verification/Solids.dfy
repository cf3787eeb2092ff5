/** Distances, balls and boxes, without square roots.

`norm(p - q) <= r` over the reals is `0 <= r` and `|p - q|^2 <= r^2`. The tests the envelope
performs on centres and radii are tied here to what they mean for the points of the bodies. */
module Solids {
  import opened Rotation
  import opened Wrappers

  datatype Ball = Ball(center: Vec3, radius: real)

  datatype Box = Box(lo: Vec3, hi: Vec3)

  function Minus(p: Vec3, q: Vec3): Vec3 { Vec3(p.x - q.x, p.y - q.y, p.z - q.z) }

  /** `norm(u) <= r` */
  predicate Shorter(u: Vec3, r: real) { r >= 0.0 && Dot(u, u) <= r * r }

  /** `norm(p - q) <= r` */
  predicate Within(p: Vec3, q: Vec3, r: real) { Shorter(Minus(p, q), r) }

  predicate InBall(p: Vec3, b: Ball) { Within(p, b.center, b.radius) }

  predicate InBox(p: Vec3, b: Box) {
    b.lo.x <= p.x <= b.hi.x && b.lo.y <= p.y <= b.hi.y && b.lo.z <= p.z <= b.hi.z
  }

  predicate ValidBox(b: Box) { b.lo.x <= b.hi.x && b.lo.y <= b.hi.y && b.lo.z <= b.hi.z }

  function Min(a: real, b: real): real { if a <= b then a else b }

  function Clip(v: real, lo: real, hi: real): real { Min(Max(v, lo), hi) }

  function Nearest(p: Vec3, b: Box): Vec3 {
    Vec3(Clip(p.x, b.lo.x, b.hi.x), Clip(p.y, b.lo.y, b.hi.y), Clip(p.z, b.lo.z, b.hi.z))
  }

  // ----- lengths

  lemma ProductMonotone(a: real, b: real, c: real, d: real)
    requires 0.0 <= a <= b && 0.0 <= c <= d
    ensures a * c <= b * d
  {
    assert a * c <= b * c;
    assert b * c <= b * d;
  }

  /** A square no larger than another, both roots named. */
  lemma RootMonotone(a: real, b: real)
    requires b >= 0.0 && a * a <= b * b
    ensures a <= b
  {
    if a > b {
      ProductPositive(a - b, a + b, a * a - b * b);
    }
  }

  lemma CauchySchwarz(u: Vec3, v: Vec3)
    ensures Dot(u, v) * Dot(u, v) <= Dot(u, u) * Dot(v, v)
  {
    var c := Cross(u, v);
    Lagrange(u, v);
    SquarePositive(c.x);
    SquarePositive(c.y);
    SquarePositive(c.z);
  }

  lemma DotBound(u: Vec3, v: Vec3, r: real, s: real)
    requires Shorter(u, r) && Shorter(v, s)
    ensures Dot(u, v) <= r * s
  {
    var a, b, d := Dot(u, u), Dot(v, v), Dot(u, v);
    assert a >= 0.0 && b >= 0.0 by {
      SquarePositive(u.x);
      SquarePositive(u.y);
      SquarePositive(u.z);
      SquarePositive(v.x);
      SquarePositive(v.y);
      SquarePositive(v.z);
    }
    CauchySchwarz(u, v);
    ProductMonotone(a, r * r, b, s * s);
    assert (r * r) * (s * s) == (r * s) * (r * s);
    RootMonotone(d, r * s);
  }

  lemma DotAdd(u: Vec3, v: Vec3)
    ensures Dot(Add(u, v), Add(u, v)) == Dot(u, u) + 2.0 * Dot(u, v) + Dot(v, v)
  {
    var (a, b, c, d, e, f) := (u.x, u.y, u.z, v.x, v.y, v.z);
    assert Inner(a + d, b + e, c + f, a + d, b + e, c + f)
        == a * a + b * b + c * c + 2.0 * (a * d + b * e + c * f) + d * d + e * e + f * f;
  }

  lemma SumShorter(u: Vec3, v: Vec3, r: real, s: real)
    requires Shorter(u, r) && Shorter(v, s)
    ensures Shorter(Add(u, v), r + s)
  {
    DotAdd(u, v);
    DotBound(u, v, r, s);
    assert (r + s) * (r + s) == r * r + 2.0 * (r * s) + s * s;
  }

  lemma Triangle(p: Vec3, q: Vec3, t: Vec3, r: real, s: real)
    requires Within(p, q, r) && Within(q, t, s)
    ensures Within(p, t, r + s)
  {
    SumShorter(Minus(p, q), Minus(q, t), r, s);
    assert Add(Minus(p, q), Minus(q, t)) == Minus(p, t);
  }

  lemma WithinSymmetric(p: Vec3, q: Vec3, r: real)
    requires Within(p, q, r)
    ensures Within(q, p, r)
  {
    var u := Minus(p, q);
    assert Minus(q, p) == Vec3(-u.x, -u.y, -u.z);
    assert Inner(-u.x, -u.y, -u.z, -u.x, -u.y, -u.z) == u.x * u.x + u.y * u.y + u.z * u.z;
  }

  lemma ScaleShorter(u: Vec3, k: real, r: real)
    requires Shorter(u, r) && k >= 0.0
    ensures Shorter(Scale(k, u), k * r)
  {
    assert Inner(k * u.x, k * u.y, k * u.z, k * u.x, k * u.y, k * u.z)
        == (k * k) * (u.x * u.x) + (k * k) * (u.y * u.y) + (k * k) * (u.z * u.z);
    var d := Dot(u, u);
    assert (k * k) * d == (k * k) * (u.x * u.x) + (k * k) * (u.y * u.y) + (k * k) * (u.z * u.z);
    SquarePositive(k);
    assert (k * k) * d <= (k * k) * (r * r);
    assert (k * k) * (r * r) == (k * r) * (k * r);
  }

  // ----- what the tests mean for points

  /** `_spheres_overlap` */
  predicate Overlap(a: Ball, b: Ball, margin: real) { Within(a.center, b.center, a.radius + b.radius + margin) }

  /** Some point of the one is within `margin` of some point of the other. */
  ghost predicate Touching(a: Ball, b: Ball, margin: real) {
    exists p, q :: InBall(p, a) && InBall(q, b) && Within(p, q, margin)
  }

  function Along(p: Vec3, d: Vec3, k: real): Vec3 { Add(p, Scale(k, d)) }

  /** A point part of the way along a bounded step is within that part of the bound. */
  lemma AlongWithin(p: Vec3, d: Vec3, j: real, k: real, r: real, s: real)
    requires Shorter(d, r) && 0.0 <= j <= k && s == (k - j) * r
    ensures Within(Along(p, d, k), Along(p, d, j), s)
  {
    ScaleShorter(d, k - j, r);
    assert Minus(Along(p, d, k), Along(p, d, j)) == Scale(k - j, d) by {
      assert k * d.x - j * d.x == (k - j) * d.x;
      assert k * d.y - j * d.y == (k - j) * d.y;
      assert k * d.z - j * d.z == (k - j) * d.z;
    }
  }

  lemma AlongEnds(p: Vec3, q: Vec3)
    ensures Along(p, Minus(q, p), 0.0) == p
    ensures Along(p, Minus(q, p), 1.0) == q
  {}

  lemma Part(a: real, r: real)
    requires r > 0.0
    ensures (a / r) * r == a
    ensures 0.0 <= a <= r ==> 0.0 <= a / r <= 1.0
  {}

  /** Two points that divide a bounded step into three parts of given lengths. */
  lemma Divide(c: Vec3, t: Vec3, a: real, m: real, b: real) returns (p: Vec3, q: Vec3)
    requires a >= 0.0 && m >= 0.0 && b >= 0.0 && a + b + m > 0.0 && Within(c, t, a + b + m)
    ensures Within(p, c, a) && Within(p, q, m) && Within(q, t, b)
  {
    var r := a + b + m;
    var d := Minus(t, c);
    var j, k := a / r, (a + m) / r;
    Part(a, r);
    Part(a + m, r);
    PartMonotone(a, a + m, r);
    p, q := Along(c, d, j), Along(c, d, k);
    WithinSymmetric(c, t, r);
    AlongEnds(c, t);
    DivideLengths(a, m, b, r, j, k);
    assert Within(p, c, a) by { AlongWithin(c, d, 0.0, j, r, a); }
    assert Within(p, q, m) by {
      AlongWithin(c, d, j, k, r, m);
      WithinSymmetric(q, p, m);
    }
    assert Within(q, t, b) by {
      AlongWithin(c, d, k, 1.0, r, b);
      WithinSymmetric(t, q, b);
    }
  }

  lemma DivideLengths(a: real, m: real, b: real, r: real, j: real, k: real)
    requires r == a + b + m && j * r == a && k * r == a + m
    ensures a == (j - 0.0) * r && m == (k - j) * r && b == (1.0 - k) * r
  {}

  /** The overlap test on centres and radii decides whether the solid balls come within the margin. */
  lemma OverlapMeaning(a: Ball, b: Ball, margin: real)
    requires a.radius > 0.0 && b.radius > 0.0 && margin >= 0.0
    ensures Overlap(a, b, margin) <==> Touching(a, b, margin)
  {
    if Overlap(a, b, margin) {
      var p, q := Divide(a.center, b.center, a.radius, margin, b.radius);
      assert InBall(p, a) && InBall(q, b) && Within(p, q, margin);
    }
    if Touching(a, b, margin) {
      var p, q :| InBall(p, a) && InBall(q, b) && Within(p, q, margin);
      ThreeSteps(a.center, p, q, b.center, a.radius, margin, b.radius);
    }
  }

  lemma ThreeSteps(c: Vec3, p: Vec3, q: Vec3, t: Vec3, a: real, m: real, b: real)
    requires Within(p, c, a) && Within(p, q, m) && Within(q, t, b)
    ensures Within(c, t, a + b + m)
  {
    WithinSymmetric(p, c, a);
    Triangle(c, p, q, a, m);
    Triangle(c, q, t, a + m, b);
    assert a + m + b == a + b + m;
  }

  lemma PartMonotone(a: real, b: real, r: real)
    requires r > 0.0 && a <= b
    ensures a / r <= b / r
  {}

  /** The box branch of `_sphere_hits_keepout`. */
  predicate HitsBox(a: Ball, b: Box, margin: real) {
    Within(a.center, Nearest(a.center, b), a.radius + margin)
  }

  ghost predicate TouchingBox(a: Ball, b: Box, margin: real) {
    exists p, q :: InBall(p, a) && InBox(q, b) && Within(p, q, margin)
  }

  lemma SquareMonotone(a: real, b: real)
    requires 0.0 <= a <= b
    ensures Square(a) <= Square(b)
  {
    ProductMonotone(a, b, a, b);
  }

  lemma SquareNegate(a: real)
    ensures Square(-a) == Square(a)
  {}

  lemma ClipNearest(v: real, lo: real, hi: real, t: real)
    requires lo <= t <= hi
    ensures Square(v - Clip(v, lo, hi)) <= Square(v - t)
  {
    SquareNegate(v - lo);
    SquareNegate(v - t);
    if v < lo {
      SquareMonotone(lo - v, t - v);
    } else if v > hi {
      SquareMonotone(v - hi, v - t);
    } else {
      SquarePositive(v - t);
    }
  }

  lemma DotSquares(u: Vec3)
    ensures Dot(u, u) == Square(u.x) + Square(u.y) + Square(u.z)
  {}

  lemma NearestWithin(p: Vec3, b: Box, q: Vec3, r: real)
    requires InBox(q, b) && Within(p, q, r)
    ensures Within(p, Nearest(p, b), r)
  {
    ClipNearest(p.x, b.lo.x, b.hi.x, q.x);
    ClipNearest(p.y, b.lo.y, b.hi.y, q.y);
    ClipNearest(p.z, b.lo.z, b.hi.z, q.z);
    DotSquares(Minus(p, q));
    DotSquares(Minus(p, Nearest(p, b)));
  }

  /** The nearest-point test decides whether the solid ball comes within the margin of the box. */
  lemma HitsBoxMeaning(a: Ball, b: Box, margin: real)
    requires a.radius > 0.0 && margin >= 0.0 && ValidBox(b)
    ensures HitsBox(a, b, margin) <==> TouchingBox(a, b, margin)
  {
    if HitsBox(a, b, margin) {
      var n := Nearest(a.center, b);
      var p, q := Divide(a.center, n, a.radius, margin, 0.0);
      ZeroWithin(q, n);
      assert InBox(n, b);
    }
    if TouchingBox(a, b, margin) {
      var p, q :| InBall(p, a) && InBox(q, b) && Within(p, q, margin);
      WithinSymmetric(p, a.center, a.radius);
      Triangle(a.center, p, q, a.radius, margin);
      NearestWithin(a.center, b, q, a.radius + margin);
    }
  }

  lemma ZeroWithin(p: Vec3, q: Vec3)
    requires Within(p, q, 0.0)
    ensures p == q
  {
    var u := Minus(p, q);
    DotSquares(u);
    SquarePositive(u.x);
    SquarePositive(u.y);
    SquarePositive(u.z);
  }

  /** Metres outside each face of a box: three lower faces, then three upper ones. */
  function Excess(a: Ball, b: Box): (e: seq<real>)
    ensures |e| == 6 && forall i :: 0 <= i < 6 ==> e[i] >= 0.0
  {
    [ Max(b.lo.x - (a.center.x - a.radius), 0.0),
      Max(b.lo.y - (a.center.y - a.radius), 0.0),
      Max(b.lo.z - (a.center.z - a.radius), 0.0),
      Max(a.center.x + a.radius - b.hi.x, 0.0),
      Max(a.center.y + a.radius - b.hi.y, 0.0),
      Max(a.center.z + a.radius - b.hi.z, 0.0) ]
  }

  predicate NoExcess(e: seq<real>) { forall i :: 0 <= i < |e| ==> e[i] <= 0.0 }

  lemma CoordinateBound(u: real, v: real, t: real, r: real)
    requires r >= 0.0 && u * u + v * v + t * t <= r * r
    ensures -r <= u <= r
  {
    SquarePositive(v);
    SquarePositive(t);
    RootMonotone(u, r);
    assert (-u) * (-u) == u * u;
    RootMonotone(-u, r);
  }

  lemma InsideFromExcess(a: Ball, b: Box, p: Vec3)
    requires a.radius >= 0.0 && NoExcess(Excess(a, b)) && InBall(p, a)
    ensures InBox(p, b)
  {
    var e := Excess(a, b);
    assert e[0] <= 0.0 && e[1] <= 0.0 && e[2] <= 0.0 && e[3] <= 0.0 && e[4] <= 0.0 && e[5] <= 0.0;
    var u := Minus(p, a.center);
    CoordinateBound(u.x, u.y, u.z, a.radius);
    CoordinateBound(u.y, u.z, u.x, a.radius);
    CoordinateBound(u.z, u.x, u.y, a.radius);
  }

  /** The six points of a ball furthest along the axes. */
  lemma Extremes(a: Ball, r: real, k: real)
    requires a.radius == r >= 0.0 && (k == r || k == -r)
    ensures InBall(Add(a.center, Vec3(k, 0.0, 0.0)), a)
    ensures InBall(Add(a.center, Vec3(0.0, k, 0.0)), a)
    ensures InBall(Add(a.center, Vec3(0.0, 0.0, k)), a)
  {
    assert k * k == r * r;
    assert Inner(k, 0.0, 0.0, k, 0.0, 0.0) == r * r;
    assert Inner(0.0, k, 0.0, 0.0, k, 0.0) == r * r;
    assert Inner(0.0, 0.0, k, 0.0, 0.0, k) == r * r;
    assert Minus(Add(a.center, Vec3(k, 0.0, 0.0)), a.center) == Vec3(k, 0.0, 0.0);
    assert Minus(Add(a.center, Vec3(0.0, k, 0.0)), a.center) == Vec3(0.0, k, 0.0);
    assert Minus(Add(a.center, Vec3(0.0, 0.0, k)), a.center) == Vec3(0.0, 0.0, k);
  }

  /** No face is exceeded exactly when every point of the ball lies in the box. */
  lemma NoExcessMeaning(a: Ball, b: Box)
    requires a.radius >= 0.0
    ensures NoExcess(Excess(a, b)) <==> forall p :: InBall(p, a) ==> InBox(p, b)
  {
    if NoExcess(Excess(a, b)) {
      forall p | InBall(p, a)
        ensures InBox(p, b)
      {
        InsideFromExcess(a, b, p);
      }
    } else if forall p :: InBall(p, a) ==> InBox(p, b) {
      Extremes(a, a.radius, a.radius);
      Extremes(a, a.radius, -a.radius);
    }
  }

  /** No point of a ball is further beyond a face than that face's excess. */
  lemma ExcessBounds(a: Ball, b: Box, p: Vec3)
    requires a.radius >= 0.0 && InBall(p, a)
    ensures var e := Excess(a, b);
            && b.lo.x - p.x <= e[0] && b.lo.y - p.y <= e[1] && b.lo.z - p.z <= e[2]
            && p.x - b.hi.x <= e[3] && p.y - b.hi.y <= e[4] && p.z - b.hi.z <= e[5]
  {
    var u := Minus(p, a.center);
    CoordinateBound(u.x, u.y, u.z, a.radius);
    CoordinateBound(u.y, u.z, u.x, a.radius);
    CoordinateBound(u.z, u.x, u.y, a.radius);
  }

  /** And where the excess is positive, some point of the ball is that far beyond it. */
  lemma ExcessReached(a: Ball, b: Box) returns (lo: (Vec3, Vec3, Vec3), hi: (Vec3, Vec3, Vec3))
    requires a.radius >= 0.0
    ensures InBall(lo.0, a) && InBall(lo.1, a) && InBall(lo.2, a)
    ensures InBall(hi.0, a) && InBall(hi.1, a) && InBall(hi.2, a)
    ensures var e := Excess(a, b);
            && (e[0] > 0.0 ==> b.lo.x - lo.0.x == e[0]) && (e[3] > 0.0 ==> hi.0.x - b.hi.x == e[3])
            && (e[1] > 0.0 ==> b.lo.y - lo.1.y == e[1]) && (e[4] > 0.0 ==> hi.1.y - b.hi.y == e[4])
            && (e[2] > 0.0 ==> b.lo.z - lo.2.z == e[2]) && (e[5] > 0.0 ==> hi.2.z - b.hi.z == e[5])
  {
    var r, c := a.radius, a.center;
    Extremes(a, r, r);
    Extremes(a, r, -r);
    lo := (Add(c, Vec3(-r, 0.0, 0.0)), Add(c, Vec3(0.0, -r, 0.0)), Add(c, Vec3(0.0, 0.0, -r)));
    hi := (Add(c, Vec3(r, 0.0, 0.0)), Add(c, Vec3(0.0, r, 0.0)), Add(c, Vec3(0.0, 0.0, r)));
  }

  /** Distance, in coordinates. */
  lemma WithinMeans(p: Vec3, q: Vec3, r: real)
    ensures Within(p, q, r) <==>
              && r >= 0.0
              && (p.x - q.x) * (p.x - q.x) + (p.y - q.y) * (p.y - q.y) + (p.z - q.z) * (p.z - q.z) <= r * r
  {}

  /** Clipping gives the nearest number of the range. */
  lemma ClipMeans(v: real, lo: real, hi: real, w: real)
    requires lo <= w <= hi
    ensures var c := Clip(v, lo, hi);
            lo <= c <= hi && (v - c) * (v - c) <= (v - w) * (v - w)
  {
    ClipNearest(v, lo, hi, w);
  }
}
