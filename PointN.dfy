/**
 * The rank-polymorphic point contract every per-dimension contract extends: whether the
 * implementing type stores floating-point data, its rank, and copying from another point of
 * the same type. `Point` stands for an object of any implementing type; its setters follow
 * that type's mutability policy, which is fixed per type: a mutable type edits the receiver
 * in place and returns it, an immutable type returns a new point and leaves the receiver alone.
 */
module PointN {
  import opened JavaNum

  /** What the runtime class of a point fixes: its identity, rank and storage policies. */
  datatype PointType = PointType(id: nat, rank: nat, mutable: bool, floatingPoint: bool)

  /** The observable state of a point: its runtime class and its coordinates in order. */
  datatype PointValue = PointValue(kind: PointType, coords: seq<Float>)

  class Point {
    const kind: PointType
    var coords: seq<Float>

    /** A point holds exactly as many coordinates as its type's rank. */
    ghost predicate Valid()
      reads this
    {
      |coords| == kind.rank
    }

    constructor (kind: PointType, coords: seq<Float>)
      requires |coords| == kind.rank
      ensures Valid() && this.kind == kind && this.coords == coords
    {
      this.kind := kind;
      this.coords := coords;
    }

    /** Whether this point's type stores floating-point data; a property of the type. */
    function FloatingPoint(): bool {
      kind.floatingPoint
    }

    function Value(): PointValue
      reads this
    {
      PointValue(kind, coords)
    }

    /** The single-coordinate float setter every per-dimension `x(float)`, `y(float)`, ... is. */
    method SetCoord(i: nat, next: Float) returns (q: Point)
      requires Valid() && i < kind.rank
      modifies this
      ensures q.Valid() && q.coords == SetAt(old(coords), i, next)
      ensures KeepsPolicy(this, q)
    {
      if kind.mutable {
        coords := coords[i := next];
        q := this;
      } else {
        q := new Point(kind, coords[i := next]);
      }
    }

    /** The bulk float setter every per-dimension `set(x, y, ...)` is. */
    method SetCoords(values: seq<Float>) returns (q: Point)
      requires Valid() && |values| == kind.rank
      modifies this
      ensures q.Valid() && q.coords == values
      ensures KeepsPolicy(this, q)
    {
      if kind.mutable {
        coords := values;
        q := this;
      } else {
        q := new Point(kind, values);
      }
    }

    /** `set(P)`: copy every coordinate of a point of the same type. */
    method Set(other: Point) returns (q: Point)
      requires Valid() && other.Valid() && other.kind == kind
      modifies this
      ensures q.Valid() && q.coords == old(other.coords)
      ensures KeepsPolicy(this, q)
    {
      q := SetCoords(other.coords);
    }
  }

  /**
   * `q`, returned by a setter called on `p`, obeys the type's mutability policy: the same
   * object when the type is mutable; otherwise a new object of the same type, `p` untouched.
   */
  twostate predicate KeepsPolicy(p: Point, new q: Point)
    reads p
  {
    q.kind == p.kind &&
    (p.kind.mutable ==> q == p) &&
    (!p.kind.mutable ==> fresh(q) && unchanged(p))
  }

  /** Coordinates `c` with the one at index `i` replaced by `v`. */
  function SetAt(c: seq<Float>, i: nat, v: Float): (r: seq<Float>)
    requires i < |c|
    ensures |r| == |c| && r[i] == v
    ensures forall j :: 0 <= j < |c| && j != i ==> r[j] == c[j]
  {
    c[i := v]
  }

  /** The coordinates after calling the single setters for indices 0 .. k-1, in that order. */
  function SetEachInTurn(c: seq<Float>, values: seq<Float>, k: nat): (r: seq<Float>)
    requires |values| == |c| && k <= |c|
    ensures |r| == |c|
  {
    if k == 0 then c else SetAt(SetEachInTurn(c, values, k - 1), k - 1, values[k - 1])
  }

  /**
   * Calling the single-coordinate setters in turn has replaced exactly the first `k`
   * coordinates; after all of them, the point holds what one bulk `set` would give it.
   */
  lemma {:induction false} SetEachInTurnIsBulkSet(c: seq<Float>, values: seq<Float>, k: nat)
    requires |values| == |c| && k <= |c|
    ensures SetEachInTurn(c, values, k) == values[..k] + c[k..]
    ensures k == |c| ==> SetEachInTurn(c, values, k) == values
  {
    if k > 0 {
      SetEachInTurnIsBulkSet(c, values, k - 1);
      var prev := SetEachInTurn(c, values, k - 1);
      assert prev == values[..k - 1] + c[k - 1..];
      assert SetAt(prev, k - 1, values[k - 1]) == values[..k] + c[k..];
    }
  }
}
