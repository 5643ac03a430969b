/**
 * A pair of two points of the same type, `a` then `b`: a ray (start, direction) or a
 * collision (contact point, normal). The pair is updated by letting each slot's own `set`
 * copy from a replacement point, so for a mutable point type the slots keep their objects.
 * Equality and hashing of the points themselves belong to the point type, which is not part
 * of this model: `Equals` and `HashCode` take them as parameters.
 */
module PointPair {
  import opened JavaNum
  import opened PointN

  /** Java's `31 * h(a) + h(b)` in wrapping `int` arithmetic. */
  function PairHash(ha: Int32, hb: Int32): (r: Int32)
    ensures (r - (31 * ha + hb)) % INT_MODULUS == 0
  {
    Wrap32(31 * ha + hb)
  }

  /**
   * The combination is order-sensitive: swapping the two component hashes leaves the pair
   * hash unchanged exactly when they agree modulo 2^31, that is, when they are equal or lie
   * 2^31 apart.
   */
  lemma PairHashSwap(ha: Int32, hb: Int32)
    ensures PairHash(ha, hb) == PairHash(hb, ha) <==> (ha - hb) % 0x8000_0000 == 0
  {
    var d := ha - hb;
    Wrap32Equal(31 * ha + hb, 31 * hb + ha);
    assert (31 * ha + hb) - (31 * hb + ha) == 30 * d;
    ThirtyTimesVanishes(d);
  }

  /** `30 * d` vanishes modulo 2^32 exactly when `d` vanishes modulo 2^31. */
  lemma ThirtyTimesVanishes(d: int)
    ensures (30 * d) % INT_MODULUS == 0 <==> d % 0x8000_0000 == 0
  {
    if (30 * d) % INT_MODULUS == 0 {
      ThirtyTimesVanishesOnlyIf(d);
    }
    if d % 0x8000_0000 == 0 {
      var k := d / 0x8000_0000;
      assert d == k * 0x8000_0000;
      assert 30 * d == (15 * k) * INT_MODULUS;
    }
  }

  lemma ThirtyTimesVanishesOnlyIf(d: int)
    requires (30 * d) % INT_MODULUS == 0
    ensures d % 0x8000_0000 == 0
  {
    var m := (30 * d) / INT_MODULUS;
    assert 30 * d == m * INT_MODULUS;
    assert 15 * d == m * 0x8000_0000;
    // 15 * 0xEEEE_EEEF == 14 * 2^32 + 1: 15 is invertible modulo 2^32.
    var k := m * 0xEEEE_EEEF - 28 * d;
    assert d == 0x8000_0000 * k;
  }

  class PointPair {
    /** The point type `P` both slots hold. */
    const pointType: PointType
    /** The start of a ray, or the contact point of a collision. */
    var a: Point
    /** The direction of a ray, or the normal of a collision. */
    var b: Point

    ghost predicate Valid()
      reads this, a, b
    {
      a.kind == pointType && b.kind == pointType && a.Valid() && b.Valid()
    }

    constructor (start: Point, end: Point)
      requires start.Valid() && end.Valid() && start.kind == end.kind
      ensures Valid() && a == start && b == end && pointType == start.kind
    {
      pointType := start.kind;
      a := start;
      b := end;
    }

    /**
     * `set(ray)`: `a = a.set(ray.a); b = b.set(ray.b); return this;`. Without shared
     * objects, `a` ends up with `ray.a`'s coordinates and `b` with `ray.b`'s. For a mutable
     * type the slots keep their objects, so the first copy is visible to the second when
     * `ray.b` is the old `a`, and the second overwrites the first when `a` and `b` are one
     * object; an immutable type gets fresh points and no point changes.
     */
    method SetPair(ray: PointPair) returns (r: PointPair)
      requires Valid() && ray.Valid() && ray.pointType == pointType
      modifies this, a, b
      ensures r == this && Valid()
      ensures var second := if pointType.mutable && old(ray.b) == old(a) then old(ray.a.coords) else old(ray.b.coords);
              b.coords == second &&
              a.coords == (if pointType.mutable && old(a) == old(b) then second else old(ray.a.coords))
      ensures pointType.mutable ==> a == old(a) && b == old(b)
      ensures !pointType.mutable ==> fresh(a) && fresh(b) && unchanged(old(a), old(b))
    {
      a := a.Set(ray.a);
      b := b.Set(ray.b);
      r := this;
    }

    /** `set(start, end)`: as `SetPair`, copying from two standalone points. */
    method Set(start: Point, end: Point) returns (r: PointPair)
      requires Valid() && start.Valid() && end.Valid()
      requires start.kind == pointType && end.kind == pointType
      modifies this, a, b
      ensures r == this && Valid()
      ensures var second := if pointType.mutable && end == old(a) then old(start.coords) else old(end.coords);
              b.coords == second &&
              a.coords == (if pointType.mutable && old(a) == old(b) then second else old(start.coords))
      ensures pointType.mutable ==> a == old(a) && b == old(b)
      ensures !pointType.mutable ==> fresh(a) && fresh(b) && unchanged(old(a), old(b))
    {
      a := a.Set(start);
      b := b.Set(end);
      r := this;
    }

    /**
     * `equals(o)`: true for this very object; false for null and for an object of another
     * class; otherwise true exactly when both slots are equal under the point type's equality.
     */
    function Equals(o: object?, pointEquals: (PointValue, PointValue) -> bool): (r: bool)
      reads this, a, b, o
      reads if o is PointPair then {(o as PointPair).a, (o as PointPair).b} else {}
      ensures o == this ==> r
      ensures o == null || !(o is PointPair) ==> !r
      ensures o != this && o is PointPair ==>
                (r <==> pointEquals(a.Value(), (o as PointPair).a.Value()) &&
                        pointEquals(b.Value(), (o as PointPair).b.Value()))
    {
      if o == this then true
      else if !(o is PointPair) then false
      else
        var other := o as PointPair;
        pointEquals(a.Value(), other.a.Value()) && pointEquals(b.Value(), other.b.Value())
    }

    /** `hashCode()`: `31 * a.hashCode() + b.hashCode()`, wrapping as Java `int` does. */
    function HashCode(pointHash: PointValue -> Int32): (r: Int32)
      reads this, a, b
      ensures (r - (31 * pointHash(a.Value()) + pointHash(b.Value()))) % INT_MODULUS == 0
    {
      PairHash(pointHash(a.Value()), pointHash(b.Value()))
    }
  }

  /**
   * Equal pairs hash alike whenever the point type's hash agrees with its equality, and the
   * pair hash depends on nothing but the two component hashes.
   */
  lemma EqualPairsHashAlike(p: PointPair, o: PointPair,
                            pointEquals: (PointValue, PointValue) -> bool, pointHash: PointValue -> Int32)
    requires forall u, v :: pointEquals(u, v) ==> pointHash(u) == pointHash(v)
    requires p.Equals(o, pointEquals)
    ensures p.HashCode(pointHash) == o.HashCode(pointHash)
  {
  }
}
