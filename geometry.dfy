/** Positions, sprite-scaled rectangles and the few numeric library helpers
    (rectangle overlap, clamping, uniform draws, the floating-point remainder)
    that the frame simulation relies on. Coordinates are real numbers: the
    f32 rounding of the game's arithmetic is not modelled. */
module Geometry {

  /** A point on the screen (y grows downwards). */
  datatype Vec2 = Vec2(x: real, y: real)

  /** An axis-aligned rectangle given by its top-left corner and its size. */
  datatype Rect = Rect(x: real, y: real, w: real, h: real)

  /** Only the size of a texture matters to the simulation. */
  datatype Texture = Texture(width: real, height: real)

  /** Width of a texture drawn at the given scale. */
  function ScaleWidth(t: Texture, scale: real): (r: real)
    ensures t.width > 0.0 && scale > 0.0 ==> r > 0.0
    ensures t.width >= 0.0 && 0.0 <= scale <= 1.0 ==> r <= t.width
  {
    t.width * scale
  }

  /** Height of a texture drawn at the given scale. */
  function ScaleHeight(t: Texture, scale: real): (r: real)
    ensures t.height > 0.0 && scale > 0.0 ==> r > 0.0
    ensures t.height >= 0.0 && 0.0 <= scale <= 1.0 ==> r <= t.height
  {
    t.height * scale
  }

  /** The rectangle a sprite at `v` covers: its corner is `v`, its size that
      of the scaled texture (the same quantities ScaleWidth and ScaleHeight give). */
  function DestRec(v: Vec2, t: Texture, scale: real): (r: Rect)
    ensures r.x == v.x && r.y == v.y
    ensures r.w == ScaleWidth(t, scale) && r.h == ScaleHeight(t, scale)
  {
    Rect(v.x, v.y, t.width * scale, t.height * scale)
  }

  /** A point lies in a rectangle, edges included. */
  predicate Within(p: Vec2, a: Rect)
  {
    a.x <= p.x <= a.x + a.w && a.y <= p.y <= a.y + a.h
  }

  /** Closed-rectangle intersection: rectangles that share a point, edges
      included, overlap, and rectangles of non-negative size overlap only
      when they share one. */
  function Overlaps(a: Rect, b: Rect): (r: bool)
    ensures (exists p :: Within(p, a) && Within(p, b)) ==> r
    ensures r && a.w >= 0.0 && a.h >= 0.0 && b.w >= 0.0 && b.h >= 0.0 ==>
            exists p :: Within(p, a) && Within(p, b)
  {
    var corner := Vec2(if a.x < b.x then b.x else a.x, if a.y < b.y then b.y else a.y);
    var r := a.x <= b.x + b.w && a.x + a.w >= b.x && a.y <= b.y + b.h && a.y + a.h >= b.y;
    assert r && a.w >= 0.0 && a.h >= 0.0 && b.w >= 0.0 && b.h >= 0.0 ==> Within(corner, a) && Within(corner, b);
    r
  }

  /** Overlap does not depend on which rectangle asks, and rectangles that
      merely touch along an edge count as overlapping. */
  lemma OverlapsClosedAndSymmetric(a: Rect, b: Rect)
    ensures Overlaps(a, b) == Overlaps(b, a)
    ensures a.w >= 0.0 && a.h >= 0.0 && b.w >= 0.0 && b.h >= 0.0 && b.y == a.y ==>
              Overlaps(a, Rect(a.x + a.w, b.y, b.w, b.h))
  {
  }

  /** The library clamp: `lo` below the range, `hi` above it, `v` otherwise. */
  function Clamp(v: real, lo: real, hi: real): (r: real)
    ensures lo <= hi ==> lo <= r <= hi
    ensures lo <= v <= hi ==> r == v
    ensures v < lo ==> r == lo
    ensures lo <= v && v > hi ==> r == hi
  {
    if v < lo then lo else if v > hi then hi else v
  }

  /** A uniform draw between `lo` and `hi`, given the underlying unit draw `u`. */
  function GenRange(lo: real, hi: real, u: real): (r: real)
    ensures 0.0 <= u <= 1.0 && lo <= hi ==> lo <= r <= hi
  {
    lo + Portion(hi - lo, u)
  }

  /** Every draw of the stream is a unit draw. */
  ghost predicate UnitDraws(rand: nat -> real)
  {
    forall j: nat :: 0.0 <= rand(j) <= 1.0
  }

  /** Rounding toward zero. */
  function Trunc(q: real): (r: int)
    ensures q >= 0.0 ==> r as real <= q < r as real + 1.0
    ensures q < 0.0 ==> r as real - 1.0 < q <= r as real
  {
    if q >= 0.0 then q.Floor else -((-q).Floor)
  }

  /** The game's floating-point remainder `a % b`: the quotient is
      truncated toward zero, so the remainder takes the sign of `a`. */
  function FRem(a: real, b: real): (r: real)
    requires b > 0.0
    ensures a >= 0.0 ==> 0.0 <= r < b
    ensures a < 0.0 ==> -b < r <= 0.0
  {
    var q := a / b;
    var t := Trunc(q) as real;
    if a >= 0.0 then
      RemBelowDivisor(a, b, q, t);
      a - b * t
    else
      RemAboveNegDivisor(a, b, q, t);
      a - b * t
  }

  /** For a positive dividend the truncating remainder is the floor-based one. */
  lemma FRemPositiveIsFloorMod(a: real, b: real)
    requires a > 0.0 && b > 0.0
    ensures FRem(a, b) == a - b * ((a / b).Floor as real)
  {
  }

  /** Adding one period to a non-negative dividend leaves the remainder as it was. */
  lemma FRemPeriodic(a: real, b: real)
    requires a >= 0.0 && b > 0.0
    ensures FRem(a + b, b) == FRem(a, b)
  {
    DivShift(a, b);
    assert ((a + b) / b).Floor == (a / b).Floor + 1;
  }

  // Small facts of real arithmetic that the solver does not find on its own.

  lemma ScaleBetween(c: real, lo: real, v: real, hi: real)
    requires c >= 0.0 && lo <= v <= hi
    ensures c * lo <= c * v <= c * hi
  {
    assert c * v - c * lo == c * (v - lo);
    assert c * hi - c * v == c * (hi - v);
  }

  /** The share `u` of `c`: for a unit `u`, between 0 and `c`. */
  function Portion(c: real, u: real): (r: real)
    ensures c >= 0.0 && 0.0 <= u <= 1.0 ==> 0.0 <= r <= c
  {
    UnitScale(c, u);
    c * u
  }

  lemma UnitScale(c: real, u: real)
    ensures c >= 0.0 && 0.0 <= u <= 1.0 ==> 0.0 <= c * u <= c
  {
    if c >= 0.0 && 0.0 <= u <= 1.0 {
      var rest := 1.0 - u;
      assert c * u >= 0.0;
      assert c * rest >= 0.0;
      assert c - c * u == c * rest;
    }
  }

  lemma MulStrict(c: real, x: real, y: real)
    requires c > 0.0 && x < y
    ensures c * x < c * y
  {
    assert c * y - c * x == c * (y - x);
  }

  lemma MulCancel(c: real, x: real, y: real)
    requires c > 0.0 && c * x == c * y
    ensures x == y
  {
    if x < y {
      MulStrict(c, x, y);
    } else if x > y {
      MulStrict(c, y, x);
    }
  }

  lemma DivShift(a: real, b: real)
    requires b > 0.0
    ensures (a + b) / b == a / b + 1.0
  {
    var q := a / b;
    var r := (a + b) / b;
    assert a == b * q;
    assert a + b == b * r;
    assert b * (q + 1.0) == b * q + b * 1.0;
    MulCancel(b, r, q + 1.0);
  }

  lemma RemBelowDivisor(a: real, b: real, q: real, t: real)
    requires b > 0.0 && a == b * q && t <= q < t + 1.0
    ensures 0.0 <= a - b * t < b
  {
    var d := q - t;
    assert a - b * t == b * d;
    ScaleBetween(b, 0.0, d, 1.0);
    MulStrict(b, d, 1.0);
    assert b * 1.0 == b && b * 0.0 == 0.0;
  }

  lemma RemAboveNegDivisor(a: real, b: real, q: real, t: real)
    requires b > 0.0 && a == b * q && t - 1.0 < q <= t
    ensures -b < a - b * t <= 0.0
  {
    var d := q - t;
    assert a - b * t == b * d;
    ScaleBetween(b, -1.0, d, 0.0);
    MulStrict(b, -1.0, d);
    assert b * -1.0 == -b && b * 0.0 == 0.0;
  }
}
