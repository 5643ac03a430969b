/**
 * Client code written against the contracts alone: what a caller may conclude about points
 * and pairs without knowing the implementing type beyond its `PointType`.
 */
module Scenarios {
  import opened JavaNum
  import opened PointN
  import Point2
  import opened PointPair

  /** A ray of a mutable 2D type is moved; the pair keeps its slot objects. */
  method MutableRayUpdate() {
    var kind := PointType(0, 2, true, true);
    var origin := new Point(kind, [Finite(0.0), Finite(0.0)]);
    var direction := new Point(kind, [Finite(1.0), Finite(0.0)]);
    var ray := new PointPair(origin, direction);
    var newOrigin := new Point(kind, [Finite(2.0), Finite(2.0)]);
    var newDirection := new Point(kind, [Finite(0.0), Finite(1.0)]);
    var r := ray.Set(newOrigin, newDirection);
    assert r == ray && ray.a == origin && ray.b == direction;
    assert Point2.X(ray.a) == Finite(2.0);
    assert Point2.Xi(ray.b) == 0 && Point2.Yi(ray.b) == 1;
  }

  /** The same update on an immutable type: fresh slots, the old points untouched. */
  method ImmutableRayUpdate() {
    var kind := PointType(1, 2, false, true);
    var origin := new Point(kind, [Finite(0.0), Finite(0.0)]);
    var direction := new Point(kind, [Finite(1.0), Finite(0.0)]);
    var ray := new PointPair(origin, direction);
    var newOrigin := new Point(kind, [Finite(2.0), Finite(2.0)]);
    var newDirection := new Point(kind, [Finite(0.0), Finite(1.0)]);
    var r := ray.Set(newOrigin, newDirection);
    assert ray.a != origin && Point2.X(ray.a) == Finite(2.0);
    assert Point2.X(origin) == Finite(0.0);
  }

  /** Default int setters and getters on a 2D point: `xi(7)` reads back as 7.0, `set(1.5, 2.5)` truncates. */
  method IntViews() {
    var kind := PointType(2, 2, true, true);
    var p := new Point(kind, [Finite(3.0), Finite(4.0)]);
    var q := Point2.SetXi(p, 7);
    assert Point2.X(q) == Finite(7.0) && Point2.Y(q) == Finite(4.0);
    q := Point2.Set(q, Finite(1.5), Finite(-2.5));
    assert Point2.Xi(q) == 1 && Point2.Yi(q) == -2;
  }

  /**
   * `x(float)` then `y(float)` on one point leave exactly the coordinates that one bulk
   * `set(x, y)` gives another point of the same type: the single setters applied in turn.
   */
  method SingleSettersMatchBulkSet(p: Point, twin: Point, x: Float, y: Float)
    returns (single: Point, bulk: Point)
    requires Point2.IsPoint2(p) && Point2.IsPoint2(twin) && p.kind == twin.kind && p != twin
    modifies p, twin
    ensures single.coords == SetEachInTurn(old(p.coords), [x, y], 2) == bulk.coords
  {
    SetEachInTurnIsBulkSet(p.coords, [x, y], 2);
    var q := Point2.SetX(p, x);
    single := Point2.SetY(q, y);
    bulk := Point2.Set(twin, x, y);
    assert single.coords == [x, y];
  }
}
