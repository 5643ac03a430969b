/**
 * The 4D point contract (`Point4`): for each of the coordinates x, y, z, w, in that order, a float
 * getter, an int getter derived from it by default, a float setter and an int setter derived
 * from it by default; the bulk setters `set` and `seti`; and rank 4. Each member takes the
 * receiver `p` explicitly.
 */
module Point4 {
  import opened JavaNum
  import opened PointN

  /** `p` is seen through the 4D contract: a well-formed point of a rank-4 type. */
  ghost predicate IsPoint4(p: Point)
    reads p
  {
    p.Valid() && p.kind.rank == 4
  }

  /** `x()`: the first coordinate, always as a float, whatever `floatingPoint()` says. */
  function X(p: Point): Float
    reads p
    requires IsPoint4(p)
  {
    p.coords[0]
  }

  /** `xi()` by default: `(int) x()`, the first coordinate rounded toward zero and saturated. */
  function Xi(p: Point): (r: Int32)
    reads p
    requires IsPoint4(p)
    ensures NarrowsTo(X(p), r)
  {
    ToInt(X(p))
  }

  /** `x(float)`: a point whose x is `next` and whose other coordinates are those of `p`. */
  method SetX(p: Point, next: Float) returns (q: Point)
    requires IsPoint4(p)
    modifies p
    ensures IsPoint4(q) && X(q) == next
    ensures Y(q) == old(Y(p)) && Z(q) == old(Z(p)) && W(q) == old(W(p))
    ensures KeepsPolicy(p, q)
  {
    q := p.SetCoord(0, next);
  }

  /** `xi(int)` by default: `x((float) next)`, which is exact when `next` is float-exact. */
  method SetXi(p: Point, next: Int32) returns (q: Point)
    requires IsPoint4(p)
    modifies p
    ensures IsPoint4(q) && X(q) == FromInt(next)
    ensures Y(q) == old(Y(p)) && Z(q) == old(Z(p)) && W(q) == old(W(p))
    ensures KeepsPolicy(p, q)
    ensures IsFloatExact(next) ==> Xi(q) == next
  {
    q := SetX(p, FromInt(next));
    if IsFloatExact(next) {
      ExactRangeRoundTrip(next);
    }
  }

  /** `y()`: the second coordinate, always as a float, whatever `floatingPoint()` says. */
  function Y(p: Point): Float
    reads p
    requires IsPoint4(p)
  {
    p.coords[1]
  }

  /** `yi()` by default: `(int) y()`, the second coordinate rounded toward zero and saturated. */
  function Yi(p: Point): (r: Int32)
    reads p
    requires IsPoint4(p)
    ensures NarrowsTo(Y(p), r)
  {
    ToInt(Y(p))
  }

  /** `y(float)`: a point whose y is `next` and whose other coordinates are those of `p`. */
  method SetY(p: Point, next: Float) returns (q: Point)
    requires IsPoint4(p)
    modifies p
    ensures IsPoint4(q) && Y(q) == next
    ensures X(q) == old(X(p)) && Z(q) == old(Z(p)) && W(q) == old(W(p))
    ensures KeepsPolicy(p, q)
  {
    q := p.SetCoord(1, next);
  }

  /** `yi(int)` by default: `y((float) next)`, which is exact when `next` is float-exact. */
  method SetYi(p: Point, next: Int32) returns (q: Point)
    requires IsPoint4(p)
    modifies p
    ensures IsPoint4(q) && Y(q) == FromInt(next)
    ensures X(q) == old(X(p)) && Z(q) == old(Z(p)) && W(q) == old(W(p))
    ensures KeepsPolicy(p, q)
    ensures IsFloatExact(next) ==> Yi(q) == next
  {
    q := SetY(p, FromInt(next));
    if IsFloatExact(next) {
      ExactRangeRoundTrip(next);
    }
  }

  /** `z()`: the third coordinate, always as a float, whatever `floatingPoint()` says. */
  function Z(p: Point): Float
    reads p
    requires IsPoint4(p)
  {
    p.coords[2]
  }

  /** `zi()` by default: `(int) z()`, the third coordinate rounded toward zero and saturated. */
  function Zi(p: Point): (r: Int32)
    reads p
    requires IsPoint4(p)
    ensures NarrowsTo(Z(p), r)
  {
    ToInt(Z(p))
  }

  /** `z(float)`: a point whose z is `next` and whose other coordinates are those of `p`. */
  method SetZ(p: Point, next: Float) returns (q: Point)
    requires IsPoint4(p)
    modifies p
    ensures IsPoint4(q) && Z(q) == next
    ensures X(q) == old(X(p)) && Y(q) == old(Y(p)) && W(q) == old(W(p))
    ensures KeepsPolicy(p, q)
  {
    q := p.SetCoord(2, next);
  }

  /** `zi(int)` by default: `z((float) next)`, which is exact when `next` is float-exact. */
  method SetZi(p: Point, next: Int32) returns (q: Point)
    requires IsPoint4(p)
    modifies p
    ensures IsPoint4(q) && Z(q) == FromInt(next)
    ensures X(q) == old(X(p)) && Y(q) == old(Y(p)) && W(q) == old(W(p))
    ensures KeepsPolicy(p, q)
    ensures IsFloatExact(next) ==> Zi(q) == next
  {
    q := SetZ(p, FromInt(next));
    if IsFloatExact(next) {
      ExactRangeRoundTrip(next);
    }
  }

  /** `w()`: the fourth coordinate, always as a float, whatever `floatingPoint()` says. */
  function W(p: Point): Float
    reads p
    requires IsPoint4(p)
  {
    p.coords[3]
  }

  /** `wi()` by default: `(int) w()`, the fourth coordinate rounded toward zero and saturated. */
  function Wi(p: Point): (r: Int32)
    reads p
    requires IsPoint4(p)
    ensures NarrowsTo(W(p), r)
  {
    ToInt(W(p))
  }

  /** `w(float)`: a point whose w is `next` and whose other coordinates are those of `p`. */
  method SetW(p: Point, next: Float) returns (q: Point)
    requires IsPoint4(p)
    modifies p
    ensures IsPoint4(q) && W(q) == next
    ensures X(q) == old(X(p)) && Y(q) == old(Y(p)) && Z(q) == old(Z(p))
    ensures KeepsPolicy(p, q)
  {
    q := p.SetCoord(3, next);
  }

  /** `wi(int)` by default: `w((float) next)`, which is exact when `next` is float-exact. */
  method SetWi(p: Point, next: Int32) returns (q: Point)
    requires IsPoint4(p)
    modifies p
    ensures IsPoint4(q) && W(q) == FromInt(next)
    ensures X(q) == old(X(p)) && Y(q) == old(Y(p)) && Z(q) == old(Z(p))
    ensures KeepsPolicy(p, q)
    ensures IsFloatExact(next) ==> Wi(q) == next
  {
    q := SetW(p, FromInt(next));
    if IsFloatExact(next) {
      ExactRangeRoundTrip(next);
    }
  }

  /** `set(x, y, z, w)`: a point whose coordinates are exactly the arguments, in order. */
  method Set(p: Point, x: Float, y: Float, z: Float, w: Float) returns (q: Point)
    requires IsPoint4(p)
    modifies p
    ensures IsPoint4(q) && X(q) == x && Y(q) == y && Z(q) == z && W(q) == w
    ensures KeepsPolicy(p, q)
  {
    q := p.SetCoords([x, y, z, w]);
  }

  /** `seti(x, y, z, w)` by default: `set` on the arguments widened to float. */
  method SetI(p: Point, x: Int32, y: Int32, z: Int32, w: Int32) returns (q: Point)
    requires IsPoint4(p)
    modifies p
    ensures IsPoint4(q) && X(q) == FromInt(x) && Y(q) == FromInt(y) && Z(q) == FromInt(z) && W(q) == FromInt(w)
    ensures KeepsPolicy(p, q)
    ensures IsFloatExact(x) ==> Xi(q) == x
    ensures IsFloatExact(y) ==> Yi(q) == y
    ensures IsFloatExact(z) ==> Zi(q) == z
    ensures IsFloatExact(w) ==> Wi(q) == w
  {
    q := Set(p, FromInt(x), FromInt(y), FromInt(z), FromInt(w));
    if IsFloatExact(x) {
      ExactRangeRoundTrip(x);
    }
    if IsFloatExact(y) {
      ExactRangeRoundTrip(y);
    }
    if IsFloatExact(z) {
      ExactRangeRoundTrip(z);
    }
    if IsFloatExact(w) {
      ExactRangeRoundTrip(w);
    }
  }

  /** `rank()` by default: 4, the number of coordinates the contract names. */
  function Rank(p: Point): (r: int)
    reads p
    requires IsPoint4(p)
    ensures r == p.kind.rank && r == |p.coords|
  {
    4
  }
}
