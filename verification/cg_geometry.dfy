/**
 * Core Graphics value types used by the polygon code: `CGPoint` with the
 * arithmetic the repository adds to it, and the few `CGRect` accessors the
 * rectangle factory reads. `CGFloat` and `Double` are modelled as `real`.
 */
module CGGeometry {

  datatype Point = Point(x: real, y: real)

  /** `CGPoint.zero`. */
  const Origin: Point := Point(0.0, 0.0)

  /** `CGPoint + CGPoint`. */
  function Add(p: Point, q: Point): Point
  {
    Point(p.x + q.x, p.y + q.y)
  }

  /** `CGPoint - CGPoint`. */
  function Sub(p: Point, q: Point): Point
  {
    Point(p.x - q.x, p.y - q.y)
  }

  /** `CGPoint * CGPoint`: component-wise product. */
  function Mul(p: Point, q: Point): Point
  {
    Point(p.x * q.x, p.y * q.y)
  }

  /** `CGPoint * Double`: both coordinates times the same factor. */
  function MulScalar(p: Point, k: real): Point
  {
    Point(p.x * k, p.y * k)
  }

  /** Swift's `max(a, b)` (which returns `b` when the two are equal). */
  function Max(a: real, b: real): (r: real)
    ensures r >= a && r >= b
    ensures r == a || r == b
  {
    if b >= a then b else a
  }

  /** With `+`, `-` and `.zero`, points form a commutative group. */
  lemma PointGroupLaws(p: Point, q: Point, s: Point)
    ensures Add(p, q) == Add(q, p)
    ensures Add(Add(p, q), s) == Add(p, Add(q, s))
    ensures Add(p, Origin) == p
    ensures Sub(Add(p, q), q) == p
    ensures Add(Sub(p, q), q) == p
    ensures Sub(p, p) == Origin
  {
  }

  /** Multiplying by a scalar is the component-wise product with `(k, k)`,
      and it distributes over `+`. */
  lemma ScalarProductLaws(p: Point, q: Point, k: real, j: real)
    ensures MulScalar(p, k) == Mul(p, Point(k, k))
    ensures MulScalar(p, 1.0) == p
    ensures MulScalar(MulScalar(p, k), j) == MulScalar(p, k * j)
    ensures MulScalar(Add(p, q), k) == Add(MulScalar(p, k), MulScalar(q, k))
  {
  }

  /**
   * A `CGRect` as origin and size. Width and height may be negative, as
   * Core Graphics allows; `MaxX`/`MaxY` are then taken from the standardized
   * rectangle, as `CGRect.maxX`/`maxY` are.
   */
  datatype Rect = Rect(origin: Point, width: real, height: real) {

    /** `CGRect.maxX`: the largest x-coordinate of the rectangle. */
    function MaxX(): (r: real)
      ensures r >= origin.x && r >= origin.x + width
      ensures r == origin.x || r == origin.x + width
    {
      if width >= 0.0 then origin.x + width else origin.x
    }

    /** `CGRect.maxY`: the largest y-coordinate of the rectangle. */
    function MaxY(): (r: real)
      ensures r >= origin.y && r >= origin.y + height
      ensures r == origin.y || r == origin.y + height
    {
      if height >= 0.0 then origin.y + height else origin.y
    }
  }
}
