/**
 * `PolygonPoint`: one vertex of a polygon with per-corner rounding, and the
 * `VectorArithmetic` algebra (zero, scale, `+`, `-`) it provides for SwiftUI
 * animation; nothing in the repository drives that algebra.
 */
module Vertices {
  import opened Wrappers
  import opened CGGeometry

  /** A vertex: its position, whether its corner is rounded, and an
      optional radius overriding the path builder's default. */
  datatype PolygonPoint = PolygonPoint(point: Point, isRounded: bool, customCornerRadius: Option<real>)

  /** `init(point:isRounded:)` with the custom radius left at its default, `nil`. */
  function MakeVertex(point: Point, isRounded: bool): (v: PolygonPoint)
    ensures v.point == point && v.isRounded == isRounded
    ensures v.customCornerRadius.None?
  {
    PolygonPoint(point, isRounded, None)
  }

  /** `init(previousPoint:isRounded:)`: a copy of `previous` with its flag replaced. */
  function WithRounding(previous: PolygonPoint, isRounded: bool): PolygonPoint
  {
    PolygonPoint(previous.point, isRounded, previous.customCornerRadius)
  }

  /** `PolygonPoint.zero`: at the origin, sharp, with a custom radius of 0 (not `nil`). */
  const Zero: PolygonPoint := PolygonPoint(Origin, false, Some(0.0))

  /** A vertex's custom radius with `nil` read as 0, as `+` and `-` read it. */
  function RadiusOrZero(v: PolygonPoint): real
  {
    v.customCornerRadius.GetOr(0.0)
  }

  /** The radius `+` and `-` give their result: always present, and the larger
      of the two operands' radii, each read with `nil` as 0. */
  function CombinedRadius(a: PolygonPoint, b: PolygonPoint): (r: Option<real>)
    ensures r.Some?
    ensures r.value >= RadiusOrZero(a) && r.value >= RadiusOrZero(b)
    ensures r.value == RadiusOrZero(a) || r.value == RadiusOrZero(b)
  {
    Some(Max(RadiusOrZero(a), RadiusOrZero(b)))
  }

  /** `scale(by:)`. The source mutates `self` in place; `PolygonPoint` is a
      value type, so the new value is returned instead. */
  function Scale(v: PolygonPoint, k: real): PolygonPoint
  {
    PolygonPoint(MulScalar(v.point, k), v.isRounded, v.customCornerRadius)
  }

  /** `PolygonPoint + PolygonPoint`: positions add, the result is rounded only
      when both operands are, and its radius is present and the larger of the
      two (each read with `nil` as 0). */
  function Plus(a: PolygonPoint, b: PolygonPoint): (r: PolygonPoint)
    ensures r.point.x == a.point.x + b.point.x && r.point.y == a.point.y + b.point.y
    ensures Sub(r.point, b.point) == a.point
    ensures r.isRounded <==> a.isRounded && b.isRounded
    ensures r.customCornerRadius.Some?
    ensures r.customCornerRadius.value >= RadiusOrZero(a) && r.customCornerRadius.value >= RadiusOrZero(b)
    ensures r.customCornerRadius.value == RadiusOrZero(a) || r.customCornerRadius.value == RadiusOrZero(b)
  {
    PolygonPoint(Add(a.point, b.point), a.isRounded && b.isRounded, CombinedRadius(a, b))
  }

  /** `PolygonPoint - PolygonPoint`: positions subtract, the result is
      rounded when either operand is, and its radius follows the same rule
      as for `+`. */
  function Minus(a: PolygonPoint, b: PolygonPoint): (r: PolygonPoint)
    ensures r.point.x == a.point.x - b.point.x && r.point.y == a.point.y - b.point.y
    ensures Add(r.point, b.point) == a.point
    ensures r.isRounded <==> a.isRounded || b.isRounded
    ensures r.customCornerRadius.Some?
    ensures r.customCornerRadius.value >= RadiusOrZero(a) && r.customCornerRadius.value >= RadiusOrZero(b)
    ensures r.customCornerRadius.value == RadiusOrZero(a) || r.customCornerRadius.value == RadiusOrZero(b)
  {
    PolygonPoint(Sub(a.point, b.point), a.isRounded || b.isRounded, CombinedRadius(a, b))
  }

  /** Copying with a new flag keeps position and radius; copying with the
      vertex's own flag gives the vertex back; the last flag given wins. */
  lemma WithRoundingLaws(v: PolygonPoint, f: bool, g: bool)
    ensures WithRounding(v, f).point == v.point
    ensures WithRounding(v, f).customCornerRadius == v.customCornerRadius
    ensures WithRounding(v, f).isRounded == f
    ensures WithRounding(v, v.isRounded) == v
    ensures WithRounding(WithRounding(v, f), g) == WithRounding(v, g)
  {
  }

  /** Scaling moves only the position; scaling by 1 changes nothing; two
      scalings compose into one by the product of the factors. */
  lemma ScaleLaws(v: PolygonPoint, k: real, j: real)
    ensures Scale(v, k).point == MulScalar(v.point, k)
    ensures Scale(v, k).isRounded == v.isRounded
    ensures Scale(v, k).customCornerRadius == v.customCornerRadius
    ensures Scale(v, 1.0) == v
    ensures Scale(Scale(v, k), j) == Scale(v, k * j)
  {
  }

  /** Positions under `+` and `-` behave as a group: subtracting what was
      added gives the original position back. */
  lemma PositionsFormAGroup(a: PolygonPoint, b: PolygonPoint)
    ensures Plus(a, b).point == Add(a.point, b.point)
    ensures Minus(a, b).point == Sub(a.point, b.point)
    ensures Minus(Plus(a, b), b).point == a.point
    ensures Plus(Minus(a, b), b).point == a.point
  {
  }

  /** Adding `zero` keeps the position but clears the flag and fills in the
      radius: `zero` is an identity only on positions. */
  lemma PlusZero(v: PolygonPoint)
    ensures Plus(v, Zero).point == v.point
    ensures !Plus(v, Zero).isRounded
    ensures Plus(v, Zero).customCornerRadius == Some(Max(RadiusOrZero(v), 0.0))
  {
  }

  /** A rounded vertex without a custom radius witnesses that `zero` is not
      an identity for `+`, and that `(a + b) - b` need not be `a`. The
      witness's position `p` is a parameter only to keep the proof cheap: a
      fully literal witness makes the verifier unfold `+` on constants. Any
      position works. */
  lemma ZeroIsNotAnIdentity(p: Point)
    ensures exists v :: Plus(v, Zero) != v
    ensures exists a, b :: Minus(Plus(a, b), b) != a
  {
    var v := PolygonPoint(p, true, None);
    var sum := Plus(v, Zero);
    assert !sum.isRounded;
    assert sum != v;
    var back := Minus(Plus(v, v), v);
    assert back.customCornerRadius.Some?;
    assert back != v;
  }

  /** `+` is commutative and associative on every field. */
  lemma PlusCommutativeAssociative(a: PolygonPoint, b: PolygonPoint, c: PolygonPoint)
    ensures Plus(a, b) == Plus(b, a)
    ensures Plus(Plus(a, b), c) == Plus(a, Plus(b, c))
  {
  }

  /** The combined radius is never negative when one operand's radius is
      absent or non-negative; in particular `v + zero` and `v - zero` carry a
      non-negative radius. */
  lemma CombinedRadiusNonNegative(a: PolygonPoint, b: PolygonPoint)
    requires RadiusOrZero(a) >= 0.0 || RadiusOrZero(b) >= 0.0
    ensures CombinedRadius(a, b).value >= 0.0
  {
  }
}
