# crux point contracts in Dafny

This project models the point contracts of the `crux` library. They let generic geometry code
work with unrelated point types from different libraries, whatever their storage.

- `Point2` … `Point6` are per-dimension contracts. Each one has a fixed ordered set of
  coordinates: x, y; then z, w, u and v in turn.
- For each coordinate a contract has a float getter (`x()`) and a float setter (`x(float)`).
  It also has an int getter (`xi()`) and an int setter (`xi(int)`). By default these two are
  derived from the float ones, through Java's `(int)` cast and the int-to-float widening.
- Each contract also has a bulk `set(...)`, a default `seti(...)` and a default `rank()`.
- A setter follows its point type's mutability policy. A mutable type edits the receiver and
  returns it. An immutable type returns a new point and leaves the receiver untouched.
- `PointPair` holds two points, `a` and `b`. It is updated through the slots' own `set`, and
  has component-wise `equals` and an order-sensitive `hashCode`.

Layout:

- `JavaNum.dfy` holds Java's `int` and `float` as the contracts use them. It has the 32-bit
  range and wrap-around, the narrowing cast `(int) f` (section 5.1.3 of the Java Language
  Specification), and the widening of an `int` argument to `float` (section 5.1.2: round to
  nearest, ties to even, 24-bit significand).
- `PointN.dfy` holds the rank-polymorphic contract the others extend.
  - Class `Point` stands for an object of an implementing type that keeps the float each
    setter is given, as every floating-point type does.
  - `const kind: PointType` is its runtime class: an identity, a rank, and the
    mutability and `floatingPoint()` flags.
  - `var coords: seq<Float>` holds its coordinates.
  - Its setters implement both mutability policies. `KeepsPolicy` states them.
- `Point2.dfy` … `Point6.dfy` hold one module per contract. The Java interface methods become
  module-level members that take the receiver `p` explicitly, because Java's overloads need
  distinct names here: `X`/`SetX` for `x()`/`x(float)`, `Xi`/`SetXi` for `xi()`/`xi(int)`,
  `Set`, `SetI` for `seti`, and `Rank`. The defaults delegate exactly as the Java defaults do.
- `PointPair.dfy` holds the pair class and the hash lemmas.
- `Scenarios.dfy` holds client code written only against the contracts: a mutable and an
  immutable ray update, and the int views of a 2D point.

Two facts about `PointPair` that its code fixes:

- `set` rebinds the slots. It assigns `a = a.set(...)`, so a pair of a mutable point type
  keeps its slot objects, and a pair of an immutable point type gets new ones. `SetPair` and
  `Set` state both cases.
- `hashCode` is `31 * h(a) + h(b)`. So `(a, b)` and `(b, a)` hash alike exactly when `h(a)`
  and `h(b)` agree modulo 2^31, for instance whenever `h(a) == h(b)`, even if `a != b`.
  `PairHashSwap` states this condition.

## Model

| member | source | states |
|---|---|---|
| `Point2.Xi` | src/main/java/com/github/tommyettinger/crux/Point2.java:9-23 | the int view of x is `(int) x()`: rounded toward zero, NaN to 0, saturated at the int range |
| `Point2.SetX` | src/main/java/com/github/tommyettinger/crux/Point2.java:25-31 | the returned point has x == next and every other coordinate unchanged; it is `p` edited in place for a mutable type, a fresh point with `p` untouched otherwise |
| `Point2.SetXi` | src/main/java/com/github/tommyettinger/crux/Point2.java:33-42 | behaves exactly as `x((float) next)` (same coordinates, same policy); `xi()` then reads back `next` whenever next is float-exact |
| `Point2.Yi` | src/main/java/com/github/tommyettinger/crux/Point2.java:44-58 | the int view of y is `(int) y()`: rounded toward zero, NaN to 0, saturated at the int range |
| `Point2.SetY` | src/main/java/com/github/tommyettinger/crux/Point2.java:60-66 | the returned point has y == next and every other coordinate unchanged; it is `p` edited in place for a mutable type, a fresh point with `p` untouched otherwise |
| `Point2.SetYi` | src/main/java/com/github/tommyettinger/crux/Point2.java:68-77 | behaves exactly as `y((float) next)` (same coordinates, same policy); `yi()` then reads back `next` whenever next is float-exact |
| `Point2.Set` | src/main/java/com/github/tommyettinger/crux/Point2.java:79-86 | the returned point has exactly the 2 given coordinates, in order; in place for a mutable type, fresh otherwise |
| `Point2.SetI` | src/main/java/com/github/tommyettinger/crux/Point2.java:88-98 | behaves exactly as `set` on the arguments widened to float; each int getter reads back its argument when that is float-exact |
| `Point2.Rank` | src/main/java/com/github/tommyettinger/crux/Point2.java:100-107 | rank is 2, the point type's rank and the number of its coordinates |
| `Point3.Xi` | src/main/java/com/github/tommyettinger/crux/Point3.java:9-23 | the int view of x is `(int) x()`: rounded toward zero, NaN to 0, saturated at the int range |
| `Point3.SetX` | src/main/java/com/github/tommyettinger/crux/Point3.java:25-31 | the returned point has x == next and every other coordinate unchanged; it is `p` edited in place for a mutable type, a fresh point with `p` untouched otherwise |
| `Point3.SetXi` | src/main/java/com/github/tommyettinger/crux/Point3.java:33-42 | behaves exactly as `x((float) next)` (same coordinates, same policy); `xi()` then reads back `next` whenever next is float-exact |
| `Point3.Yi` | src/main/java/com/github/tommyettinger/crux/Point3.java:44-58 | the int view of y is `(int) y()`: rounded toward zero, NaN to 0, saturated at the int range |
| `Point3.SetY` | src/main/java/com/github/tommyettinger/crux/Point3.java:60-66 | the returned point has y == next and every other coordinate unchanged; it is `p` edited in place for a mutable type, a fresh point with `p` untouched otherwise |
| `Point3.SetYi` | src/main/java/com/github/tommyettinger/crux/Point3.java:68-77 | behaves exactly as `y((float) next)` (same coordinates, same policy); `yi()` then reads back `next` whenever next is float-exact |
| `Point3.Zi` | src/main/java/com/github/tommyettinger/crux/Point3.java:79-93 | the int view of z is `(int) z()`: rounded toward zero, NaN to 0, saturated at the int range |
| `Point3.SetZ` | src/main/java/com/github/tommyettinger/crux/Point3.java:95-101 | the returned point has z == next and every other coordinate unchanged; it is `p` edited in place for a mutable type, a fresh point with `p` untouched otherwise |
| `Point3.SetZi` | src/main/java/com/github/tommyettinger/crux/Point3.java:103-112 | behaves exactly as `z((float) next)` (same coordinates, same policy); `zi()` then reads back `next` whenever next is float-exact |
| `Point3.Set` | src/main/java/com/github/tommyettinger/crux/Point3.java:114-122 | the returned point has exactly the 3 given coordinates, in order; in place for a mutable type, fresh otherwise |
| `Point3.SetI` | src/main/java/com/github/tommyettinger/crux/Point3.java:124-135 | behaves exactly as `set` on the arguments widened to float; each int getter reads back its argument when that is float-exact |
| `Point3.Rank` | src/main/java/com/github/tommyettinger/crux/Point3.java:137-144 | rank is 3, the point type's rank and the number of its coordinates |
| `Point4.Xi` | src/main/java/com/github/tommyettinger/crux/Point4.java:13-27 | the int view of x is `(int) x()`: rounded toward zero, NaN to 0, saturated at the int range |
| `Point4.SetX` | src/main/java/com/github/tommyettinger/crux/Point4.java:29-35 | the returned point has x == next and every other coordinate unchanged; it is `p` edited in place for a mutable type, a fresh point with `p` untouched otherwise |
| `Point4.SetXi` | src/main/java/com/github/tommyettinger/crux/Point4.java:37-46 | behaves exactly as `x((float) next)` (same coordinates, same policy); `xi()` then reads back `next` whenever next is float-exact |
| `Point4.Yi` | src/main/java/com/github/tommyettinger/crux/Point4.java:48-62 | the int view of y is `(int) y()`: rounded toward zero, NaN to 0, saturated at the int range |
| `Point4.SetY` | src/main/java/com/github/tommyettinger/crux/Point4.java:64-70 | the returned point has y == next and every other coordinate unchanged; it is `p` edited in place for a mutable type, a fresh point with `p` untouched otherwise |
| `Point4.SetYi` | src/main/java/com/github/tommyettinger/crux/Point4.java:72-81 | behaves exactly as `y((float) next)` (same coordinates, same policy); `yi()` then reads back `next` whenever next is float-exact |
| `Point4.Zi` | src/main/java/com/github/tommyettinger/crux/Point4.java:83-97 | the int view of z is `(int) z()`: rounded toward zero, NaN to 0, saturated at the int range |
| `Point4.SetZ` | src/main/java/com/github/tommyettinger/crux/Point4.java:99-105 | the returned point has z == next and every other coordinate unchanged; it is `p` edited in place for a mutable type, a fresh point with `p` untouched otherwise |
| `Point4.SetZi` | src/main/java/com/github/tommyettinger/crux/Point4.java:107-116 | behaves exactly as `z((float) next)` (same coordinates, same policy); `zi()` then reads back `next` whenever next is float-exact |
| `Point4.Wi` | src/main/java/com/github/tommyettinger/crux/Point4.java:119-133 | the int view of w is `(int) w()`: rounded toward zero, NaN to 0, saturated at the int range |
| `Point4.SetW` | src/main/java/com/github/tommyettinger/crux/Point4.java:135-141 | the returned point has w == next and every other coordinate unchanged; it is `p` edited in place for a mutable type, a fresh point with `p` untouched otherwise |
| `Point4.SetWi` | src/main/java/com/github/tommyettinger/crux/Point4.java:143-152 | behaves exactly as `w((float) next)` (same coordinates, same policy); `wi()` then reads back `next` whenever next is float-exact |
| `Point4.Set` | src/main/java/com/github/tommyettinger/crux/Point4.java:154-163 | the returned point has exactly the 4 given coordinates, in order; in place for a mutable type, fresh otherwise |
| `Point4.SetI` | src/main/java/com/github/tommyettinger/crux/Point4.java:165-177 | behaves exactly as `set` on the arguments widened to float; each int getter reads back its argument when that is float-exact |
| `Point4.Rank` | src/main/java/com/github/tommyettinger/crux/Point4.java:179-186 | rank is 4, the point type's rank and the number of its coordinates |
| `Point5.Xi` | src/main/java/com/github/tommyettinger/crux/Point5.java:15-29 | the int view of x is `(int) x()`: rounded toward zero, NaN to 0, saturated at the int range |
| `Point5.SetX` | src/main/java/com/github/tommyettinger/crux/Point5.java:31-37 | the returned point has x == next and every other coordinate unchanged; it is `p` edited in place for a mutable type, a fresh point with `p` untouched otherwise |
| `Point5.SetXi` | src/main/java/com/github/tommyettinger/crux/Point5.java:39-48 | behaves exactly as `x((float) next)` (same coordinates, same policy); `xi()` then reads back `next` whenever next is float-exact |
| `Point5.Yi` | src/main/java/com/github/tommyettinger/crux/Point5.java:50-64 | the int view of y is `(int) y()`: rounded toward zero, NaN to 0, saturated at the int range |
| `Point5.SetY` | src/main/java/com/github/tommyettinger/crux/Point5.java:66-72 | the returned point has y == next and every other coordinate unchanged; it is `p` edited in place for a mutable type, a fresh point with `p` untouched otherwise |
| `Point5.SetYi` | src/main/java/com/github/tommyettinger/crux/Point5.java:74-83 | behaves exactly as `y((float) next)` (same coordinates, same policy); `yi()` then reads back `next` whenever next is float-exact |
| `Point5.Zi` | src/main/java/com/github/tommyettinger/crux/Point5.java:85-99 | the int view of z is `(int) z()`: rounded toward zero, NaN to 0, saturated at the int range |
| `Point5.SetZ` | src/main/java/com/github/tommyettinger/crux/Point5.java:101-107 | the returned point has z == next and every other coordinate unchanged; it is `p` edited in place for a mutable type, a fresh point with `p` untouched otherwise |
| `Point5.SetZi` | src/main/java/com/github/tommyettinger/crux/Point5.java:109-118 | behaves exactly as `z((float) next)` (same coordinates, same policy); `zi()` then reads back `next` whenever next is float-exact |
| `Point5.Wi` | src/main/java/com/github/tommyettinger/crux/Point5.java:120-134 | the int view of w is `(int) w()`: rounded toward zero, NaN to 0, saturated at the int range |
| `Point5.SetW` | src/main/java/com/github/tommyettinger/crux/Point5.java:136-142 | the returned point has w == next and every other coordinate unchanged; it is `p` edited in place for a mutable type, a fresh point with `p` untouched otherwise |
| `Point5.SetWi` | src/main/java/com/github/tommyettinger/crux/Point5.java:144-153 | behaves exactly as `w((float) next)` (same coordinates, same policy); `wi()` then reads back `next` whenever next is float-exact |
| `Point5.Ui` | src/main/java/com/github/tommyettinger/crux/Point5.java:155-169 | the int view of u is `(int) u()`: rounded toward zero, NaN to 0, saturated at the int range |
| `Point5.SetU` | src/main/java/com/github/tommyettinger/crux/Point5.java:171-177 | the returned point has u == next and every other coordinate unchanged; it is `p` edited in place for a mutable type, a fresh point with `p` untouched otherwise |
| `Point5.SetUi` | src/main/java/com/github/tommyettinger/crux/Point5.java:179-188 | behaves exactly as `u((float) next)` (same coordinates, same policy); `ui()` then reads back `next` whenever next is float-exact |
| `Point5.Set` | src/main/java/com/github/tommyettinger/crux/Point5.java:190-200 | the returned point has exactly the 5 given coordinates, in order; in place for a mutable type, fresh otherwise |
| `Point5.SetI` | src/main/java/com/github/tommyettinger/crux/Point5.java:202-215 | behaves exactly as `set` on the arguments widened to float; each int getter reads back its argument when that is float-exact |
| `Point5.Rank` | src/main/java/com/github/tommyettinger/crux/Point5.java:217-224 | rank is 5, the point type's rank and the number of its coordinates |
| `Point6.Xi` | src/main/java/com/github/tommyettinger/crux/Point6.java:17-31 | the int view of x is `(int) x()`: rounded toward zero, NaN to 0, saturated at the int range |
| `Point6.SetX` | src/main/java/com/github/tommyettinger/crux/Point6.java:33-39 | the returned point has x == next and every other coordinate unchanged; it is `p` edited in place for a mutable type, a fresh point with `p` untouched otherwise |
| `Point6.SetXi` | src/main/java/com/github/tommyettinger/crux/Point6.java:41-50 | behaves exactly as `x((float) next)` (same coordinates, same policy); `xi()` then reads back `next` whenever next is float-exact |
| `Point6.Yi` | src/main/java/com/github/tommyettinger/crux/Point6.java:52-66 | the int view of y is `(int) y()`: rounded toward zero, NaN to 0, saturated at the int range |
| `Point6.SetY` | src/main/java/com/github/tommyettinger/crux/Point6.java:68-74 | the returned point has y == next and every other coordinate unchanged; it is `p` edited in place for a mutable type, a fresh point with `p` untouched otherwise |
| `Point6.SetYi` | src/main/java/com/github/tommyettinger/crux/Point6.java:76-85 | behaves exactly as `y((float) next)` (same coordinates, same policy); `yi()` then reads back `next` whenever next is float-exact |
| `Point6.Zi` | src/main/java/com/github/tommyettinger/crux/Point6.java:87-101 | the int view of z is `(int) z()`: rounded toward zero, NaN to 0, saturated at the int range |
| `Point6.SetZ` | src/main/java/com/github/tommyettinger/crux/Point6.java:103-109 | the returned point has z == next and every other coordinate unchanged; it is `p` edited in place for a mutable type, a fresh point with `p` untouched otherwise |
| `Point6.SetZi` | src/main/java/com/github/tommyettinger/crux/Point6.java:111-120 | behaves exactly as `z((float) next)` (same coordinates, same policy); `zi()` then reads back `next` whenever next is float-exact |
| `Point6.Wi` | src/main/java/com/github/tommyettinger/crux/Point6.java:122-136 | the int view of w is `(int) w()`: rounded toward zero, NaN to 0, saturated at the int range |
| `Point6.SetW` | src/main/java/com/github/tommyettinger/crux/Point6.java:138-144 | the returned point has w == next and every other coordinate unchanged; it is `p` edited in place for a mutable type, a fresh point with `p` untouched otherwise |
| `Point6.SetWi` | src/main/java/com/github/tommyettinger/crux/Point6.java:146-155 | behaves exactly as `w((float) next)` (same coordinates, same policy); `wi()` then reads back `next` whenever next is float-exact |
| `Point6.Ui` | src/main/java/com/github/tommyettinger/crux/Point6.java:157-171 | the int view of u is `(int) u()`: rounded toward zero, NaN to 0, saturated at the int range |
| `Point6.SetU` | src/main/java/com/github/tommyettinger/crux/Point6.java:173-179 | the returned point has u == next and every other coordinate unchanged; it is `p` edited in place for a mutable type, a fresh point with `p` untouched otherwise |
| `Point6.SetUi` | src/main/java/com/github/tommyettinger/crux/Point6.java:181-190 | behaves exactly as `u((float) next)` (same coordinates, same policy); `ui()` then reads back `next` whenever next is float-exact |
| `Point6.Vi` | src/main/java/com/github/tommyettinger/crux/Point6.java:192-206 | the int view of v is `(int) v()`: rounded toward zero, NaN to 0, saturated at the int range |
| `Point6.SetV` | src/main/java/com/github/tommyettinger/crux/Point6.java:208-214 | the returned point has v == next and every other coordinate unchanged; it is `p` edited in place for a mutable type, a fresh point with `p` untouched otherwise |
| `Point6.SetVi` | src/main/java/com/github/tommyettinger/crux/Point6.java:216-225 | behaves exactly as `v((float) next)` (same coordinates, same policy); `vi()` then reads back `next` whenever next is float-exact |
| `Point6.Set` | src/main/java/com/github/tommyettinger/crux/Point6.java:227-238 | the returned point has exactly the 6 given coordinates, in order; in place for a mutable type, fresh otherwise |
| `Point6.SetI` | src/main/java/com/github/tommyettinger/crux/Point6.java:240-254 | behaves exactly as `set` on the arguments widened to float; each int getter reads back its argument when that is float-exact |
| `Point6.Rank` | src/main/java/com/github/tommyettinger/crux/Point6.java:256-263 | rank is 6, the point type's rank and the number of its coordinates |
| `JavaNum.Truncate` | src/main/java/com/github/tommyettinger/crux/Point2.java:21-23 | rounding toward zero: the result lies between 0 and the value, less than 1 away from the value |
| `JavaNum.ToInt` | src/main/java/com/github/tommyettinger/crux/Point2.java:15-23 | the cast `(int) f` meets the relational specification `NarrowsTo`: NaN gives 0, infinities give the extreme ints, finite values round toward zero and saturate |
| `JavaNum.NarrowsToIsFunctional` | src/main/java/com/github/tommyettinger/crux/Point2.java:21-23 | `NarrowsTo` admits one result per float, so every int getter is fully determined by its float getter |
| `JavaNum.FromInt` | src/main/java/com/github/tommyettinger/crux/Point2.java:33-42 | widening an int argument to float gives a finite value a float can hold: a whole number of spacings of the argument, at most 2^24 of them; it is exact for magnitudes up to 2^24, at most half a spacing off otherwise, and on a tie an even number of spacings (ties to even) |
| `JavaNum.RoundToFloatTiesToEven` | src/main/java/com/github/tommyettinger/crux/Point2.java:40-42 | when a magnitude lies halfway between two multiples of its spacing, rounding picks the even multiple |
| `JavaNum.RoundToFloatIsRepresentable` | src/main/java/com/github/tommyettinger/crux/Point2.java:40-42 | rounding a magnitude to a float gives a whole number of spacings, at most 2^24 of them (a 24-bit significand) |
| `JavaNum.UlpFitsSignificand` | src/main/java/com/github/tommyettinger/crux/Point2.java:40-42 | the float spacing used by the widening keeps 24 significant bits: every magnitude is below 2^24 spacings, and at least 2^23 spacings once the spacing exceeds 1 |
| `JavaNum.RoundToFloatIsNearest` | src/main/java/com/github/tommyettinger/crux/Point2.java:40-42 | rounding to a float moves a magnitude by at most half a spacing, and leaves every magnitude up to 2^24 unchanged |
| `JavaNum.ExactRangeRoundTrip` | src/main/java/com/github/tommyettinger/crux/Point2.java:33-42 | for every float-exact int, narrowing the widened value gives the int back |
| `JavaNum.PrecisionLossAboveExactRange` | src/main/java/com/github/tommyettinger/crux/Point2.java:33-42 | for every odd int beyond plus or minus 2^24, the widened float differs from the int, so `xi(int)` stores a different value |
| `JavaNum.RoundTripLossAboveExactRange` | src/main/java/com/github/tommyettinger/crux/Point2.java:33-42 | for every odd int beyond plus or minus 2^24 other than `Integer.MAX_VALUE`, `xi()` after `xi(next)` does not give `next` back |
| `JavaNum.MaxIntRoundTrip` | src/main/java/com/github/tommyettinger/crux/Point2.java:88-98 | `Integer.MAX_VALUE` widens to 2^31, and the narrowing cast saturates it back to `Integer.MAX_VALUE` |
| `JavaNum.Wrap32` | src/main/java/com/github/tommyettinger/crux/PointPair.java:74-78 | Java int arithmetic: the result is in the int range, congruent to the exact value modulo 2^32, and equal to it when it fits |
| `JavaNum.Wrap32Equal` | src/main/java/com/github/tommyettinger/crux/PointPair.java:74-78 | two wrapped results are equal exactly when the exact values agree modulo 2^32 |
| `PointN.SetAt` | src/main/java/com/github/tommyettinger/crux/Point2.java:25-31 | replacing one coordinate sets that index to the new value and keeps the length and every other coordinate |
| `PointN.SetEachInTurnIsBulkSet` | src/main/java/com/github/tommyettinger/crux/Point2.java:79-86 | calling the single-coordinate setters for every index in turn leaves exactly the coordinates that one bulk `set` gives |
| `PointN.Point.SetCoord` | src/main/java/com/github/tommyettinger/crux/Point2.java:25-31 | the generic single-coordinate setter behind `x(float)`, `y(float)`, ...: the result has the one coordinate replaced and the rest kept, under the type's mutability policy |
| `PointN.Point.SetCoords` | src/main/java/com/github/tommyettinger/crux/Point2.java:79-86 | the generic bulk setter behind `set(...)`: the result holds exactly the given coordinates, under the type's mutability policy |
| `Scenarios.SingleSettersMatchBulkSet` | src/main/java/com/github/tommyettinger/crux/Point2.java:25-86 | through the `Point2` contracts alone: `x(float)` then `y(float)` leave the coordinates of the single setters applied in turn, which are those one `set(x, y)` gives |
| `PointN.Point.Set` | src/main/java/com/github/tommyettinger/crux/PointPair.java:46-50 | the `set(P)` each slot calls: the result holds the other point's coordinates; it is the same object for a mutable type, and a fresh one (receiver untouched) otherwise |
| `PointPair.PairHash` | src/main/java/com/github/tommyettinger/crux/PointPair.java:74-78 | the pair hash is in the int range and congruent to `31 * h(a) + h(b)` modulo 2^32 |
| `PointPair.PairHashSwap` | src/main/java/com/github/tommyettinger/crux/PointPair.java:74-78 | swapping the component hashes keeps the pair hash exactly when they agree modulo 2^31 (equal, or 2^31 apart) |
| `PointPair.PointPair.constructor` | src/main/java/com/github/tommyettinger/crux/PointPair.java:28-41 | `a` is `start` and `b` is `end`, both non-null, and the pair's point type is theirs |
| `PointPair.PointPair.SetPair` | src/main/java/com/github/tommyettinger/crux/PointPair.java:43-50 | returns this; `a` and `b` hold the results of their own `set` from `ray.a` and `ray.b`, with shared objects handled as the two statements run in order; a mutable point type keeps the slot objects, an immutable one gets fresh ones and leaves the old points untouched |
| `PointPair.PointPair.Set` | src/main/java/com/github/tommyettinger/crux/PointPair.java:52-60 | as `SetPair`, copying from `start` and `end` |
| `PointPair.PointPair.Equals` | src/main/java/com/github/tommyettinger/crux/PointPair.java:62-71 | true for the same object; false for null or a non-pair; otherwise true exactly when both slots are equal under the point equality |
| `PointPair.PointPair.HashCode` | src/main/java/com/github/tommyettinger/crux/PointPair.java:73-78 | congruent modulo 2^32 to `31 * hash(a) + hash(b)`, so it depends only on the two point hashes |
| `PointPair.EqualPairsHashAlike` | src/main/java/com/github/tommyettinger/crux/PointPair.java:62-78 | equal pairs have equal hash codes whenever the point hash agrees with the point equality |

## Left out

- `PointN.java` is not part of this model. Its members `floatingPoint()`, `rank()` and
  `set(P)` are modelled by `PointN.Point`, whose setters act under the
  type's mutability policy. Point equality and hashing belong to the implementing
  type, which is not modelled; `PointPair.Equals` and `PointPair.HashCode` take them as
  parameters.
- `PointPair.Equals` and `PointPair.HashCode` model point equality and point hash as functions
  of a point's type and coordinates (a `PointValue`). Identity-based `equals`/`hashCode`,
  which a point class gets from `Object` when it does not override them, is not covered: two
  distinct points with the same coordinates always compare equal and hash alike here, and the
  pair hash of a mutable point type changes with the coordinates after `set`.
- Integer-backed storage is not modelled. A type whose `floatingPoint()` is false holds int
  data, and cannot keep the 1.5 given to `x(1.5)`. In the model `floatingPoint()` changes
  nothing: every type keeps the exact float given to `x(float)`, `set(...)` and so on. The
  setters' `X(q) == next` therefore describes floating-point types only.
- The float getters `Point2.X` … `Point6.V` (`x()` … `v()`) and `PointN.Point.FloatingPoint`
  (`floatingPoint()`) are plain observers with no contract of their own. A getter reads one
  coordinate as a `Float` whatever `floatingPoint()` says. What it returns is stated by the
  setters (`X(q) == next`) and by the int getters (`NarrowsTo(X(p), r)`).
- Overrides by implementing types are not modelled. The Java docs invite integer-backed
  types to override `xi()`, `xi(int)` and `seti`. The model gives the default behaviour only.
- Implementing types from other libraries (libGDX `Vector2`, `GridPoint3`, `Vector4`) are
  not in this repository.
- A type that implements two per-dimension contracts at once is not represented. A `Point`
  has a single rank.
- Floats: finite values are exact reals, so float arguments are not rounded to representable
  floats, and the sign of zero is not represented. Only the two casts are modelled
  bit-exactly in their effect.
- Java's self-bounded generic `P` becomes a runtime `PointType`. Both slots of a pair, and
  every point handed to `set`, must have the pair's type. For `getClass()` in `equals`:
  Dafny classes have no subclasses, so "another class" means "not a `PointPair`".
- `PointPair.toString` is debug text that is not meant to be parsed.
- Thread safety: the code has no synchronisation, and the model is sequential.
