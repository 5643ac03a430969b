/**
 * The 6D point contract (`Point6`): for each of the coordinates x, y, z, w, u, v, in that order, a float
 * getter, an int getter derived from it by default, a float setter and an int setter derived
 * from it by default; the bulk setters `set` and `seti`; and rank 6. Each member takes the
 * receiver `p` explicitly.
 */
module Point6 {
  import opened JavaNum
  import opened PointN

  /** `p` is seen through the 6D contract: a well-formed point of a rank-6 type. */
  ghost predicate IsPoint6(p: Point)
    reads p
  {
    p.Valid() && p.kind.rank == 6
  }

  /** `x()`: the first coordinate, always as a float, whatever `floatingPoint()` says. */
  function X(p: Point): Float
    reads p
    requires IsPoint6(p)
  {
    p.coords[0]
  }

  /** `xi()` by default: `(int) x()`, the first coordinate rounded toward zero and saturated. */
  function Xi(p: Point): (r: Int32)
    reads p
    requires IsPoint6(p)
    ensures NarrowsTo(X(p), r)
  {
    ToInt(X(p))
  }

  /** `x(float)`: a point whose x is `next` and whose other coordinates are those of `p`. */
  method SetX(p: Point, next: Float) returns (q: Point)
    requires IsPoint6(p)
    modifies p
    ensures IsPoint6(q) && X(q) == next
    ensures Y(q) == old(Y(p)) && Z(q) == old(Z(p)) && W(q) == old(W(p)) && U(q) == old(U(p)) && V(q) == old(V(p))
    ensures KeepsPolicy(p, q)
  {
    q := p.SetCoord(0, next);
  }

  /** `xi(int)` by default: `x((float) next)`, which is exact when `next` is float-exact. */
  method SetXi(p: Point, next: Int32) returns (q: Point)
    requires IsPoint6(p)
    modifies p
    ensures IsPoint6(q) && X(q) == FromInt(next)
    ensures Y(q) == old(Y(p)) && Z(q) == old(Z(p)) && W(q) == old(W(p)) && U(q) == old(U(p)) && V(q) == old(V(p))
    ensures KeepsPolicy(p, q)
    ensures IsFloatExact(next) ==> Xi(q) == next
  {
    q := SetX(p, FromInt(next));
    if IsFloatExact(next) {
      ExactRangeRoundTrip(next);
    }
  }

  /** `y()`: the second coordinate, always as a float, whatever `floatingPoint()` says. */
  function Y(p: Point): Float
    reads p
    requires IsPoint6(p)
  {
    p.coords[1]
  }

  /** `yi()` by default: `(int) y()`, the second coordinate rounded toward zero and saturated. */
  function Yi(p: Point): (r: Int32)
    reads p
    requires IsPoint6(p)
    ensures NarrowsTo(Y(p), r)
  {
    ToInt(Y(p))
  }

  /** `y(float)`: a point whose y is `next` and whose other coordinates are those of `p`. */
  method SetY(p: Point, next: Float) returns (q: Point)
    requires IsPoint6(p)
    modifies p
    ensures IsPoint6(q) && Y(q) == next
    ensures X(q) == old(X(p)) && Z(q) == old(Z(p)) && W(q) == old(W(p)) && U(q) == old(U(p)) && V(q) == old(V(p))
    ensures KeepsPolicy(p, q)
  {
    q := p.SetCoord(1, next);
  }

  /** `yi(int)` by default: `y((float) next)`, which is exact when `next` is float-exact. */
  method SetYi(p: Point, next: Int32) returns (q: Point)
    requires IsPoint6(p)
    modifies p
    ensures IsPoint6(q) && Y(q) == FromInt(next)
    ensures X(q) == old(X(p)) && Z(q) == old(Z(p)) && W(q) == old(W(p)) && U(q) == old(U(p)) && V(q) == old(V(p))
    ensures KeepsPolicy(p, q)
    ensures IsFloatExact(next) ==> Yi(q) == next
  {
    q := SetY(p, FromInt(next));
    if IsFloatExact(next) {
      ExactRangeRoundTrip(next);
    }
  }

  /** `z()`: the third coordinate, always as a float, whatever `floatingPoint()` says. */
  function Z(p: Point): Float
    reads p
    requires IsPoint6(p)
  {
    p.coords[2]
  }

  /** `zi()` by default: `(int) z()`, the third coordinate rounded toward zero and saturated. */
  function Zi(p: Point): (r: Int32)
    reads p
    requires IsPoint6(p)
    ensures NarrowsTo(Z(p), r)
  {
    ToInt(Z(p))
  }

  /** `z(float)`: a point whose z is `next` and whose other coordinates are those of `p`. */
  method SetZ(p: Point, next: Float) returns (q: Point)
    requires IsPoint6(p)
    modifies p
    ensures IsPoint6(q) && Z(q) == next
    ensures X(q) == old(X(p)) && Y(q) == old(Y(p)) && W(q) == old(W(p)) && U(q) == old(U(p)) && V(q) == old(V(p))
    ensures KeepsPolicy(p, q)
  {
    q := p.SetCoord(2, next);
  }

  /** `zi(int)` by default: `z((float) next)`, which is exact when `next` is float-exact. */
  method SetZi(p: Point, next: Int32) returns (q: Point)
    requires IsPoint6(p)
    modifies p
    ensures IsPoint6(q) && Z(q) == FromInt(next)
    ensures X(q) == old(X(p)) && Y(q) == old(Y(p)) && W(q) == old(W(p)) && U(q) == old(U(p)) && V(q) == old(V(p))
    ensures KeepsPolicy(p, q)
    ensures IsFloatExact(next) ==> Zi(q) == next
  {
    q := SetZ(p, FromInt(next));
    if IsFloatExact(next) {
      ExactRangeRoundTrip(next);
    }
  }

  /** `w()`: the fourth coordinate, always as a float, whatever `floatingPoint()` says. */
  function W(p: Point): Float
    reads p
    requires IsPoint6(p)
  {
    p.coords[3]
  }

  /** `wi()` by default: `(int) w()`, the fourth coordinate rounded toward zero and saturated. */
  function Wi(p: Point): (r: Int32)
    reads p
    requires IsPoint6(p)
    ensures NarrowsTo(W(p), r)
  {
    ToInt(W(p))
  }

  /** `w(float)`: a point whose w is `next` and whose other coordinates are those of `p`. */
  method SetW(p: Point, next: Float) returns (q: Point)
    requires IsPoint6(p)
    modifies p
    ensures IsPoint6(q) && W(q) == next
    ensures X(q) == old(X(p)) && Y(q) == old(Y(p)) && Z(q) == old(Z(p)) && U(q) == old(U(p)) && V(q) == old(V(p))
    ensures KeepsPolicy(p, q)
  {
    q := p.SetCoord(3, next);
  }

  /** `wi(int)` by default: `w((float) next)`, which is exact when `next` is float-exact. */
  method SetWi(p: Point, next: Int32) returns (q: Point)
    requires IsPoint6(p)
    modifies p
    ensures IsPoint6(q) && W(q) == FromInt(next)
    ensures X(q) == old(X(p)) && Y(q) == old(Y(p)) && Z(q) == old(Z(p)) && U(q) == old(U(p)) && V(q) == old(V(p))
    ensures KeepsPolicy(p, q)
    ensures IsFloatExact(next) ==> Wi(q) == next
  {
    q := SetW(p, FromInt(next));
    if IsFloatExact(next) {
      ExactRangeRoundTrip(next);
    }
  }

  /** `u()`: the fifth coordinate, always as a float, whatever `floatingPoint()` says. */
  function U(p: Point): Float
    reads p
    requires IsPoint6(p)
  {
    p.coords[4]
  }

  /** `ui()` by default: `(int) u()`, the fifth coordinate rounded toward zero and saturated. */
  function Ui(p: Point): (r: Int32)
    reads p
    requires IsPoint6(p)
    ensures NarrowsTo(U(p), r)
  {
    ToInt(U(p))
  }

  /** `u(float)`: a point whose u is `next` and whose other coordinates are those of `p`. */
  method SetU(p: Point, next: Float) returns (q: Point)
    requires IsPoint6(p)
    modifies p
    ensures IsPoint6(q) && U(q) == next
    ensures X(q) == old(X(p)) && Y(q) == old(Y(p)) && Z(q) == old(Z(p)) && W(q) == old(W(p)) && V(q) == old(V(p))
    ensures KeepsPolicy(p, q)
  {
    q := p.SetCoord(4, next);
  }

  /** `ui(int)` by default: `u((float) next)`, which is exact when `next` is float-exact. */
  method SetUi(p: Point, next: Int32) returns (q: Point)
    requires IsPoint6(p)
    modifies p
    ensures IsPoint6(q) && U(q) == FromInt(next)
    ensures X(q) == old(X(p)) && Y(q) == old(Y(p)) && Z(q) == old(Z(p)) && W(q) == old(W(p)) && V(q) == old(V(p))
    ensures KeepsPolicy(p, q)
    ensures IsFloatExact(next) ==> Ui(q) == next
  {
    q := SetU(p, FromInt(next));
    if IsFloatExact(next) {
      ExactRangeRoundTrip(next);
    }
  }

  /** `v()`: the sixth coordinate, always as a float, whatever `floatingPoint()` says. */
  function V(p: Point): Float
    reads p
    requires IsPoint6(p)
  {
    p.coords[5]
  }

  /** `vi()` by default: `(int) v()`, the sixth coordinate rounded toward zero and saturated. */
  function Vi(p: Point): (r: Int32)
    reads p
    requires IsPoint6(p)
    ensures NarrowsTo(V(p), r)
  {
    ToInt(V(p))
  }

  /** `v(float)`: a point whose v is `next` and whose other coordinates are those of `p`. */
  method SetV(p: Point, next: Float) returns (q: Point)
    requires IsPoint6(p)
    modifies p
    ensures IsPoint6(q) && V(q) == next
    ensures X(q) == old(X(p)) && Y(q) == old(Y(p)) && Z(q) == old(Z(p)) && W(q) == old(W(p)) && U(q) == old(U(p))
    ensures KeepsPolicy(p, q)
  {
    q := p.SetCoord(5, next);
  }

  /** `vi(int)` by default: `v((float) next)`, which is exact when `next` is float-exact. */
  method SetVi(p: Point, next: Int32) returns (q: Point)
    requires IsPoint6(p)
    modifies p
    ensures IsPoint6(q) && V(q) == FromInt(next)
    ensures X(q) == old(X(p)) && Y(q) == old(Y(p)) && Z(q) == old(Z(p)) && W(q) == old(W(p)) && U(q) == old(U(p))
    ensures KeepsPolicy(p, q)
    ensures IsFloatExact(next) ==> Vi(q) == next
  {
    q := SetV(p, FromInt(next));
    if IsFloatExact(next) {
      ExactRangeRoundTrip(next);
    }
  }

  /** `set(x, y, z, w, u, v)`: a point whose coordinates are exactly the arguments, in order. */
  method Set(p: Point, x: Float, y: Float, z: Float, w: Float, u: Float, v: Float) returns (q: Point)
    requires IsPoint6(p)
    modifies p
    ensures IsPoint6(q) && X(q) == x && Y(q) == y && Z(q) == z && W(q) == w && U(q) == u && V(q) == v
    ensures KeepsPolicy(p, q)
  {
    q := p.SetCoords([x, y, z, w, u, v]);
  }

  /** `seti(x, y, z, w, u, v)` by default: `set` on the arguments widened to float. */
  method SetI(p: Point, x: Int32, y: Int32, z: Int32, w: Int32, u: Int32, v: Int32) returns (q: Point)
    requires IsPoint6(p)
    modifies p
    ensures IsPoint6(q) && X(q) == FromInt(x) && Y(q) == FromInt(y) && Z(q) == FromInt(z) && W(q) == FromInt(w) && U(q) == FromInt(u) && V(q) == FromInt(v)
    ensures KeepsPolicy(p, q)
    ensures IsFloatExact(x) ==> Xi(q) == x
    ensures IsFloatExact(y) ==> Yi(q) == y
    ensures IsFloatExact(z) ==> Zi(q) == z
    ensures IsFloatExact(w) ==> Wi(q) == w
    ensures IsFloatExact(u) ==> Ui(q) == u
    ensures IsFloatExact(v) ==> Vi(q) == v
  {
    q := Set(p, FromInt(x), FromInt(y), FromInt(z), FromInt(w), FromInt(u), FromInt(v));
    if IsFloatExact(x) {
      ExactRangeRoundTrip(x);
    }
    if IsFloatExact(y) {
      ExactRangeRoundTrip(y);
    }
    if IsFloatExact(z) {
      ExactRangeRoundTrip(z);
    }
    if IsFloatExact(w) {
      ExactRangeRoundTrip(w);
    }
    if IsFloatExact(u) {
      ExactRangeRoundTrip(u);
    }
    if IsFloatExact(v) {
      ExactRangeRoundTrip(v);
    }
  }

  /** `rank()` by default: 6, the number of coordinates the contract names. */
  function Rank(p: Point): (r: int)
    reads p
    requires IsPoint6(p)
    ensures r == p.kind.rank && r == |p.coords|
  {
    6
  }
}
