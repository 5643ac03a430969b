/**
 * Java's primitive `int` and `float` as far as the point contracts use them: the 32-bit
 * range, wrap-around of `int` arithmetic, and the two casts the default methods perform,
 * `(int) f` (narrowing, section 5.1.3 of the Java Language Specification) and the
 * implicit widening of an `int` argument to `float` (section 5.1.2).
 */
module JavaNum {

  const INT_MIN: int := -0x8000_0000
  const INT_MAX: int := 0x7fff_ffff
  /** Number of distinct `int` values; `int` arithmetic is exact modulo this. */
  const INT_MODULUS: int := 0x1_0000_0000
  /** Every integer of magnitude at most 2^24 is exactly a `float` (24-bit significand). */
  const FLOAT_EXACT_LIMIT: int := 0x100_0000

  /** A Java `int`. */
  type Int32 = i: int | INT_MIN <= i <= INT_MAX

  /**
   * A Java `float`. Finite values are kept as exact reals; the sign of zero and the
   * rounding of float arithmetic play no part in the contracts and are not represented.
   */
  datatype Float = Finite(value: real) | PositiveInfinity | NegativeInfinity | NaN

  /** `i` lies in the range where every integer is exactly a `float`. */
  predicate IsFloatExact(i: int) {
    -FLOAT_EXACT_LIMIT <= i <= FLOAT_EXACT_LIMIT
  }

  /**
   * `r` is what `(int) f` yields: NaN gives 0, infinities give the extreme ints, and a
   * finite value is rounded toward zero, saturating at the ends of the `int` range.
   */
  ghost predicate NarrowsTo(f: Float, r: int) {
    match f
    case NaN => r == 0
    case PositiveInfinity => r == INT_MAX
    case NegativeInfinity => r == INT_MIN
    case Finite(v) =>
      if v >= 0.0 then
        0 <= r <= INT_MAX && r as real <= v && (r == INT_MAX || v < r as real + 1.0)
      else
        INT_MIN <= r <= 0 && v <= r as real && (r == INT_MIN || r as real - 1.0 < v)
  }

  /** Rounding toward zero. */
  function Truncate(v: real): (t: int)
    ensures v >= 0.0 ==> 0 <= t && t as real <= v < t as real + 1.0
    ensures v < 0.0 ==> t <= 0 && t as real - 1.0 < v <= t as real
  {
    if v >= 0.0 then v.Floor else -((-v).Floor)
  }

  /** The Java cast `(int) f`. */
  function ToInt(f: Float): (r: Int32)
    ensures NarrowsTo(f, r)
  {
    match f
    case NaN => 0
    case PositiveInfinity => INT_MAX
    case NegativeInfinity => INT_MIN
    case Finite(v) =>
      var t := Truncate(v);
      if t > INT_MAX then INT_MAX else if t < INT_MIN then INT_MIN else t
  }

  /** `NarrowsTo` is a specification of one result: it pins `(int) f` down uniquely. */
  lemma NarrowsToIsFunctional(f: Float, r1: int, r2: int)
    requires NarrowsTo(f, r1) && NarrowsTo(f, r2)
    ensures r1 == r2
  {
  }

  /**
   * The spacing of the floats around a magnitude `n`: 1 below 2^24, and doubling with each
   * further binade, since a float keeps 24 significant bits.
   */
  function Ulp(n: nat): (s: nat)
    ensures s >= 1
  {
    if n < FLOAT_EXACT_LIMIT then 1 else 2 * Ulp(n / 2)
  }

  /**
   * `Ulp(n)` is the spacing of `n`'s binade: counted in units of `Ulp(n)`, `n` has at most 24
   * significant bits, and exactly 24 once the unit is above 1.
   */
  lemma {:induction false} UlpFitsSignificand(n: nat)
    ensures n < FLOAT_EXACT_LIMIT * Ulp(n)
    ensures Ulp(n) > 1 ==> (FLOAT_EXACT_LIMIT / 2) * Ulp(n) <= n
    ensures Ulp(n) == 1 <==> n < FLOAT_EXACT_LIMIT
  {
    if n >= FLOAT_EXACT_LIMIT {
      UlpFitsSignificand(n / 2);
    }
  }

  /** `n` rounded to the nearest multiple of its float spacing, ties to the even multiple. */
  function RoundToFloat(n: nat): nat {
    var s := Ulp(n);
    var q := n / s;
    var rem := n % s;
    if 2 * rem > s || (2 * rem == s && q % 2 == 1) then (q + 1) * s else q * s
  }

  /** Euclidean division by a positive divisor. */
  lemma DivMod(n: nat, s: nat)
    requires s > 0
    ensures n == (n / s) * s + n % s && 0 <= n % s < s
  {
  }

  /** Rounding to a float moves `n` by at most half a spacing, and not at all up to 2^24. */
  lemma RoundToFloatIsNearest(n: nat)
    ensures 2 * (RoundToFloat(n) - n) <= Ulp(n) && 2 * (n - RoundToFloat(n)) <= Ulp(n)
    ensures n <= FLOAT_EXACT_LIMIT ==> RoundToFloat(n) == n
  {
    var s := Ulp(n);
    var q := n / s;
    var rem := n % s;
    DivMod(n, s);
    var low := q * s;
    assert (q + 1) * s == low + s;
    assert RoundToFloat(n) == low || RoundToFloat(n) == low + s;
    if n == FLOAT_EXACT_LIMIT {
      assert Ulp(n) == 2 * Ulp(n / 2) == 2;
    }
  }

  /** The magnitude of an `int`, which for `Integer.MIN_VALUE` lies outside the `int` range. */
  function Magnitude(i: int): nat {
    if i >= 0 then i else -i
  }

  /**
   * `v` is a value a float can hold where the spacing is `s`: a whole number of spacings, at
   * most 2^24 of them, on either side of zero.
   */
  predicate OnFloatGrid(v: real, s: nat)
    requires s >= 1
  {
    var m := if v < 0.0 then -v else v;
    m.Floor as real == m && m.Floor % s == 0 && m.Floor <= FLOAT_EXACT_LIMIT * s
  }

  /** Multiplying by a non-negative factor keeps order. */
  lemma MulMonotone(a: int, b: int, s: int)
    requires b <= a && s >= 0
    ensures b * s <= a * s
  {
    assert a * s - b * s == (a - b) * s;
  }

  /** `m * s` is exactly `m` spacings `s`, with no remainder. */
  lemma MultipleHasNoRemainder(m: nat, s: nat)
    requires s > 0
    ensures (m * s) % s == 0 && (m * s) / s == m
  {
    var d := (m * s) / s;
    var r := (m * s) % s;
    assert m * s == d * s + r && 0 <= r < s;
    assert r == (m - d) * s;
    if m - d >= 1 {
      MulMonotone(m - d, 1, s);
    } else if d - m >= 1 {
      assert (d - m) * s == d * s - m * s;
      MulMonotone(d - m, 1, s);
    }
  }

  /** What rounding to a float yields is a whole number of spacings, at most 2^24 of them. */
  lemma RoundToFloatIsRepresentable(n: nat)
    ensures RoundToFloat(n) % Ulp(n) == 0
    ensures RoundToFloat(n) <= FLOAT_EXACT_LIMIT * Ulp(n)
  {
    var s := Ulp(n);
    var q := n / s;
    DivMod(n, s);
    UlpFitsSignificand(n);
    if q >= FLOAT_EXACT_LIMIT {
      MulMonotone(q, FLOAT_EXACT_LIMIT, s);
    }
    var m := if RoundToFloat(n) == q * s then q else q + 1;
    assert RoundToFloat(n) == m * s;
    MultipleHasNoRemainder(m, s);
    MulMonotone(FLOAT_EXACT_LIMIT, m, s);
  }

  /** How many whole spacings `s` the magnitude of `v` holds. */
  function GridCount(v: real, s: nat): int
    requires s >= 1
  {
    (if v < 0.0 then -v else v).Floor / s
  }

  /**
   * Ties go to the even neighbour: when `n` lies exactly halfway between two multiples of its
   * spacing, the rounded value is an even number of spacings.
   */
  lemma RoundToFloatTiesToEven(n: nat)
    ensures 2 * (RoundToFloat(n) - n) == Ulp(n) || 2 * (n - RoundToFloat(n)) == Ulp(n) ==>
              (RoundToFloat(n) / Ulp(n)) % 2 == 0
  {
    var s := Ulp(n);
    var q := n / s;
    var rem := n % s;
    DivMod(n, s);
    var low := q * s;
    assert (q + 1) * s == low + s;
    var m := if RoundToFloat(n) == low then q else q + 1;
    assert RoundToFloat(n) == m * s;
    MultipleHasNoRemainder(m, s);
    if 2 * (RoundToFloat(n) - n) == s || 2 * (n - RoundToFloat(n)) == s {
      assert 2 * rem == s;
    }
  }

  /** A whole number `k` of spacings `s`, at most 2^24 of them, is on the grid with either sign. */
  lemma SpacingsOnGrid(k: nat, s: nat)
    requires s >= 1 && k % s == 0 && k <= FLOAT_EXACT_LIMIT * s
    ensures OnFloatGrid(k as real, s) && OnFloatGrid(-(k as real), s)
  {
    assert (k as real).Floor == k;
  }

  /**
   * The implicit conversion of an `int` argument to `float`, round to nearest even: a value a
   * float can hold at the spacing of the argument's magnitude, the argument itself up to 2^24,
   * at most half a spacing away from it beyond, and on a tie an even number of spacings.
   */
  function FromInt(i: Int32): (r: Float)
    ensures r.Finite?
    ensures OnFloatGrid(r.value, Ulp(Magnitude(i)))
    ensures IsFloatExact(i) ==> r == Finite(i as real)
    ensures 2.0 * (r.value - i as real) <= Ulp(Magnitude(i)) as real
    ensures 2.0 * (i as real - r.value) <= Ulp(Magnitude(i)) as real
    ensures 2.0 * (r.value - i as real) == Ulp(Magnitude(i)) as real ||
            2.0 * (i as real - r.value) == Ulp(Magnitude(i)) as real ==>
              GridCount(r.value, Ulp(Magnitude(i))) % 2 == 0
  {
    RoundToFloatIsNearest(Magnitude(i));
    RoundToFloatTiesToEven(Magnitude(i));
    RoundToFloatIsRepresentable(Magnitude(i));
    SpacingsOnGrid(RoundToFloat(Magnitude(i)), Ulp(Magnitude(i)));
    if i >= 0 then Finite(RoundToFloat(i) as real) else Finite(-(RoundToFloat(Magnitude(i)) as real))
  }

  /** Within the float-exact range, `(int)(float) i == i`: the int setters lose nothing there. */
  lemma {:induction false} ExactRangeRoundTrip(i: Int32)
    requires IsFloatExact(i)
    ensures ToInt(FromInt(i)) == i
  {
    assert FromInt(i) == Finite(i as real);
    assert Truncate(i as real) == i;
  }

  /** Beyond 2^24 the float spacing is even, so a float there is an even integer. */
  lemma {:induction false} EvenOnWideGrid(k: int, n: nat)
    requires n > FLOAT_EXACT_LIMIT && k % Ulp(n) == 0
    ensures k % 2 == 0
  {
    var s := Ulp(n);
    assert s == 2 * Ulp(n / 2);
    var d := k / s;
    assert k == d * s;
    assert k == 2 * (d * Ulp(n / 2));
  }

  /**
   * Beyond the float-exact range, no odd `int` survives the widening to `float`: it lands on
   * a neighbouring even value, on either side of zero.
   */
  lemma {:induction false} PrecisionLossAboveExactRange(i: Int32)
    requires !IsFloatExact(i) && i % 2 == 1
    ensures FromInt(i) != Finite(i as real)
  {
    var n := Magnitude(i);
    assert n % 2 == 1;
    if FromInt(i) == Finite(i as real) {
      var v := FromInt(i).value;
      var m := if v < 0.0 then -v else v;
      assert m == n as real && m.Floor == n;
      EvenOnWideGrid(n, n);
      assert false;
    }
  }

  /**
   * Reading back an odd `int` beyond the float-exact range gives a different `int`, except for
   * `Integer.MAX_VALUE`, which the narrowing saturates back to itself.
   */
  lemma {:induction false} RoundTripLossAboveExactRange(i: Int32)
    requires !IsFloatExact(i) && i % 2 == 1 && i != INT_MAX
    ensures ToInt(FromInt(i)) != i
  {
    PrecisionLossAboveExactRange(i);
    var v := FromInt(i).value;
    var m := if v < 0.0 then -v else v;
    assert m.Floor as real == m;
  }

  /** `Integer.MAX_VALUE` widens to 2^31, which the narrowing cast saturates back. */
  lemma MaxIntRoundTrip()
    ensures FromInt(INT_MAX) == Finite(0x8000_0000 as real)
    ensures ToInt(FromInt(INT_MAX)) == INT_MAX
  {
    var n := INT_MAX;
    assert Ulp(0xFF_FFFF) == 1;
    assert Ulp(0x1FF_FFFF) == 2;
    assert Ulp(0x3FF_FFFF) == 4;
    assert Ulp(0x7FF_FFFF) == 8;
    assert Ulp(0xFFF_FFFF) == 0x10;
    assert Ulp(0x1FFF_FFFF) == 0x20;
    assert Ulp(0x3FFF_FFFF) == 0x40;
    assert Ulp(0x7FFF_FFFF) == 0x80;
    assert RoundToFloat(n) == 0x8000_0000;
  }

  /** Java's `int` arithmetic: the representative of `x` modulo 2^32 in the `int` range. */
  function Wrap32(x: int): (r: Int32)
    ensures (r - x) % INT_MODULUS == 0
    ensures INT_MIN <= x <= INT_MAX ==> r == x
  {
    (x - INT_MIN) % INT_MODULUS + INT_MIN
  }

  /** Two `int` computations agree exactly when the exact results agree modulo 2^32. */
  lemma Wrap32Equal(x: int, y: int)
    ensures Wrap32(x) == Wrap32(y) <==> (x - y) % INT_MODULUS == 0
  {
    var rx, ry := Wrap32(x), Wrap32(y);
    var kx := (rx - x) / INT_MODULUS;
    var ky := (ry - y) / INT_MODULUS;
    var d, e := (x - y) / INT_MODULUS, (x - y) % INT_MODULUS;
    assert rx - x == kx * INT_MODULUS;
    assert ry - y == ky * INT_MODULUS;
    assert x - y == d * INT_MODULUS + e;
    assert rx - ry == (kx - ky + d) * INT_MODULUS + e;
  }
}
