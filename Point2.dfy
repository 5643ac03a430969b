/**
 * The 2D point contract (`Point2`): for each of the coordinates x, y, in that order, a float
 * getter, an int getter derived from it by default, a float setter and an int setter derived
 * from it by default; the bulk setters `set` and `seti`; and rank 2. Each member takes the
 * receiver `p` explicitly.
 */
module Point2 {
  import opened JavaNum
  import opened PointN

  /** `p` is seen through the 2D contract: a well-formed point of a rank-2 type. */
  ghost predicate IsPoint2(p: Point)
    reads p
  {
    p.Valid() && p.kind.rank == 2
  }

  /** `x()`: the first coordinate, always as a float, whatever `floatingPoint()` says. */
  function X(p: Point): Float
    reads p
    requires IsPoint2(p)
  {
    p.coords[0]
  }

  /** `xi()` by default: `(int) x()`, the first coordinate rounded toward zero and saturated. */
  function Xi(p: Point): (r: Int32)
    reads p
    requires IsPoint2(p)
    ensures NarrowsTo(X(p), r)
  {
    ToInt(X(p))
  }

  /** `x(float)`: a point whose x is `next` and whose other coordinates are those of `p`. */
  method SetX(p: Point, next: Float) returns (q: Point)
    requires IsPoint2(p)
    modifies p
    ensures IsPoint2(q) && X(q) == next
    ensures Y(q) == old(Y(p))
    ensures KeepsPolicy(p, q)
  {
    q := p.SetCoord(0, next);
  }

  /** `xi(int)` by default: `x((float) next)`, which is exact when `next` is float-exact. */
  method SetXi(p: Point, next: Int32) returns (q: Point)
    requires IsPoint2(p)
    modifies p
    ensures IsPoint2(q) && X(q) == FromInt(next)
    ensures Y(q) == old(Y(p))
    ensures KeepsPolicy(p, q)
    ensures IsFloatExact(next) ==> Xi(q) == next
  {
    q := SetX(p, FromInt(next));
    if IsFloatExact(next) {
      ExactRangeRoundTrip(next);
    }
  }

  /** `y()`: the second coordinate, always as a float, whatever `floatingPoint()` says. */
  function Y(p: Point): Float
    reads p
    requires IsPoint2(p)
  {
    p.coords[1]
  }

  /** `yi()` by default: `(int) y()`, the second coordinate rounded toward zero and saturated. */
  function Yi(p: Point): (r: Int32)
    reads p
    requires IsPoint2(p)
    ensures NarrowsTo(Y(p), r)
  {
    ToInt(Y(p))
  }

  /** `y(float)`: a point whose y is `next` and whose other coordinates are those of `p`. */
  method SetY(p: Point, next: Float) returns (q: Point)
    requires IsPoint2(p)
    modifies p
    ensures IsPoint2(q) && Y(q) == next
    ensures X(q) == old(X(p))
    ensures KeepsPolicy(p, q)
  {
    q := p.SetCoord(1, next);
  }

  /** `yi(int)` by default: `y((float) next)`, which is exact when `next` is float-exact. */
  method SetYi(p: Point, next: Int32) returns (q: Point)
    requires IsPoint2(p)
    modifies p
    ensures IsPoint2(q) && Y(q) == FromInt(next)
    ensures X(q) == old(X(p))
    ensures KeepsPolicy(p, q)
    ensures IsFloatExact(next) ==> Yi(q) == next
  {
    q := SetY(p, FromInt(next));
    if IsFloatExact(next) {
      ExactRangeRoundTrip(next);
    }
  }

  /** `set(x, y)`: a point whose coordinates are exactly the arguments, in order. */
  method Set(p: Point, x: Float, y: Float) returns (q: Point)
    requires IsPoint2(p)
    modifies p
    ensures IsPoint2(q) && X(q) == x && Y(q) == y
    ensures KeepsPolicy(p, q)
  {
    q := p.SetCoords([x, y]);
  }

  /** `seti(x, y)` by default: `set` on the arguments widened to float. */
  method SetI(p: Point, x: Int32, y: Int32) returns (q: Point)
    requires IsPoint2(p)
    modifies p
    ensures IsPoint2(q) && X(q) == FromInt(x) && Y(q) == FromInt(y)
    ensures KeepsPolicy(p, q)
    ensures IsFloatExact(x) ==> Xi(q) == x
    ensures IsFloatExact(y) ==> Yi(q) == y
  {
    q := Set(p, FromInt(x), FromInt(y));
    if IsFloatExact(x) {
      ExactRangeRoundTrip(x);
    }
    if IsFloatExact(y) {
      ExactRangeRoundTrip(y);
    }
  }

  /** `rank()` by default: 2, the number of coordinates the contract names. */
  function Rank(p: Point): (r: int)
    reads p
    requires IsPoint2(p)
    ensures r == p.kind.rank && r == |p.coords|
  {
    2
  }
}
