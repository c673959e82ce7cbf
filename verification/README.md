# Rounded-corner polygons, modelled in Dafny

This project models the core of RoundedCornerPolygonSwiftUI: building the
closed outline of a polygon in which each vertex is independently a sharp
corner or a rounded one, and the `VectorArithmetic` algebra (zero, scale,
`+`, `-`) that `PolygonPoint` provides for SwiftUI animation. Nothing in the
repository drives that algebra (see "Left out"). The source is
`RoundedCornerPolygonSwiftUI/CustomPolygons.swift`.

- `wrappers.dfy` (`Wrappers`): Swift optionals as `Option`. `GetOr` is the `??` operator.
- `cg_geometry.dfy` (`CGGeometry`): `CGPoint` and the `+`, `-` and both `*` overloads the
  repository adds to it. It also holds the `CGRect` accessors the factory reads.
  `CGFloat` and `Double` are `real`. `CGRect.maxX`/`maxY` come from the standardized
  rectangle, as in Core Graphics.
- `vertices.dfy` (`Vertices`): `PolygonPoint`, both initialisers, `zero`, `scale(by:)`,
  `+` and `-`. Positions combine component-wise. Flags combine by AND for `+` and by OR
  for `-`. The radius of a result is always present: it is the larger operand radius,
  with `nil` read as 0. `scale(by:)` is a `mutating func` on a value type, so the model
  returns the new value.
- `polygon_paths.dfy` (`PolygonPaths`): `buildPolygonPathFrom`.
  - The output is the list of commands sent to the `CGMutablePath`: `MoveTo`,
    `ArcTo(tangent1End, tangent2End, radius)` and `LineTo`.
  - Fewer than three vertices give the `ZeroRect` placeholder.
  - `BuildPolygonPathFrom` is the source's loop. It is proved equal to the specification
    function `PolygonPath`, and the lemmas about the outline are proved about that function.
- `rounded_rects.dfy` (`RoundedRects`): `roundedRectCorners` and `roundedRectPath`.
  A `UIRectCorner` is a set of the four `RectCorner` values.

Behaviour of the code worth knowing:
- The builder falls back to the placeholder for fewer than three vertices.
- Negative radii are passed to the arc command unchanged. They are not clamped to 0.
- `zero` carries a custom radius of `0`, not `nil`.
- The factory reads `origin.x`/`origin.y`, not `minX`/`minY`, beside the standardized
  `maxX`/`maxY`.
  - For a rectangle of negative width, the two top vertices coincide, and so do the two
    bottom ones (`NegativeWidthCollapsesHorizontalEdges`).
  - For a negative height, the two right vertices coincide, and so do the two left ones
    (`NegativeHeightCollapsesVerticalEdges`).

## Model

| member | source | states |
|---|---|---|
| `CGGeometry.PointGroupLaws` | RoundedCornerPolygonSwiftUI/CustomPolygons.swift:60-72 | point `+` is commutative and associative with `.zero` as identity; `-` undoes `+` and `+` undoes `-`; `p - p` is the origin |
| `CGGeometry.ScalarProductLaws` | RoundedCornerPolygonSwiftUI/CustomPolygons.swift:64-69 | `p * k` equals the component-wise product `p * (k, k)`; `p * 1 == p`; two scalings compose by multiplying the factors; scaling distributes over `+` |
| `PolygonPaths.DefaultRadiusOfPlainVertex` | RoundedCornerPolygonSwiftUI/CustomPolygons.swift:16-22 | a vertex made with the defaulted `customCornerRadius: nil` gets the builder's default radius when rounded and 0 when sharp; the sum of two such rounded vertices carries radius 0, so the default no longer applies to it |
| `Vertices.WithRoundingLaws` | RoundedCornerPolygonSwiftUI/CustomPolygons.swift:23-25 | `init(previousPoint:isRounded:)` keeps the position and radius and sets only the flag; re-applying a vertex's own flag returns that vertex; of two successive copies the last flag wins |
| `Vertices.CombinedRadius` | RoundedCornerPolygonSwiftUI/CustomPolygons.swift:44-46 | the radius of a sum or difference is always present, is at least each operand's radius (read with `nil` as 0) and equals one of them |
| `Vertices.Plus` | RoundedCornerPolygonSwiftUI/CustomPolygons.swift:39-48 | the sum's coordinates are the operands' coordinates added, and subtracting `b`'s position gives back `a`'s; it is rounded iff both operands are; its radius is always present, at least each operand's radius (with `nil` read as 0) and equal to one of them |
| `Vertices.Minus` | RoundedCornerPolygonSwiftUI/CustomPolygons.swift:49-57 | the difference's coordinates are the operands' coordinates subtracted, and adding `b`'s position gives back `a`'s; it is rounded iff either operand is; its radius follows the same max rule as for `+` |
| `Vertices.ScaleLaws` | RoundedCornerPolygonSwiftUI/CustomPolygons.swift:31-38 | scaling multiplies only the position and keeps the flag and radius; `scale(by: 1)` changes nothing; scaling by `k` then `j` equals scaling by `k * j` |
| `Vertices.PositionsFormAGroup` | RoundedCornerPolygonSwiftUI/CustomPolygons.swift:39-57 | positions add and subtract component-wise; `((a + b) - b).point == a.point` and `((a - b) + b).point == a.point` |
| `Vertices.PlusZero` | RoundedCornerPolygonSwiftUI/CustomPolygons.swift:29-48 | `v + zero` has `v`'s position, is not rounded, and has radius `max(v.r ?? 0, 0)` |
| `Vertices.ZeroIsNotAnIdentity` | RoundedCornerPolygonSwiftUI/CustomPolygons.swift:29-57 | some vertex `v` has `v + zero != v`, and some `a`, `b` have `(a + b) - b != a`: flags and radii do not invert |
| `Vertices.PlusCommutativeAssociative` | RoundedCornerPolygonSwiftUI/CustomPolygons.swift:39-48 | vertex `+` is commutative and associative on all three fields |
| `Vertices.CombinedRadiusNonNegative` | RoundedCornerPolygonSwiftUI/CustomPolygons.swift:44-56 | if either operand's radius (with `nil` read as 0) is non-negative, the combined radius is non-negative |
| `PolygonPaths.Midpoint` | RoundedCornerPolygonSwiftUI/CustomPolygons.swift:126-128 | the start point is as far from the first vertex as from the last, along the segment between them |
| `PolygonPaths.ArcRadius` | RoundedCornerPolygonSwiftUI/CustomPolygons.swift:136-139 | a sharp vertex gets radius 0 whatever it stores; a rounded vertex gets its custom radius, or the default when it has none |
| `PolygonPaths.PolygonPath` | RoundedCornerPolygonSwiftUI/CustomPolygons.swift:119-147 | the placeholder is returned iff there are fewer than 3 vertices; otherwise there are `n + 2` commands: a move to the start point, `n` arcs, and a line back to the same start point (the outline is closed) |
| `PolygonPaths.ArcsUpToAt` | RoundedCornerPolygonSwiftUI/CustomPolygons.swift:132-141 | after `k` loop iterations exactly `k` arcs have been emitted, the `i`-th of them for vertex `i` |
| `PolygonPaths.BuildPolygonPathFrom` | RoundedCornerPolygonSwiftUI/CustomPolygons.swift:119-147 | the loop appending one arc per vertex produces exactly the outline `PolygonPath` |
| `PolygonPaths.PolygonPathShape` | RoundedCornerPolygonSwiftUI/CustomPolygons.swift:128-144 | command `i + 1` is the arc with `tangent1End == points[i].point`, `tangent2End == points[(i+1) % n].point` and vertex `i`'s resolved radius |
| `PolygonPaths.ArcsChainCyclically` | RoundedCornerPolygonSwiftUI/CustomPolygons.swift:132-140 | each arc heads towards the vertex the next arc (cyclically) turns around; the last arc heads back to the first vertex |
| `PolygonPaths.CornerRadiusResolution` | RoundedCornerPolygonSwiftUI/CustomPolygons.swift:136-140 | in the outline, a sharp vertex's arc has radius 0 even when it stores a radius; a rounded vertex's arc has its custom radius, or the default when it has none |
| `PolygonPaths.CurvedArcsMatchCurvedCorners` | RoundedCornerPolygonSwiftUI/CustomPolygons.swift:132-141 | the outline has exactly as many arcs of non-zero radius as the polygon has vertices with a non-zero resolved radius |
| `PolygonPaths.TriangleOneRoundedCorner` | RoundedCornerPolygonSwiftUI/CustomPolygons.swift:132-140 | take a triangle whose first corner is rounded with radius 20 and whose other two are sharp; its outline has one curved arc, of radius 20, and two zero-radius corners |
| `RoundedRects.RoundedRectCorners` | RoundedCornerPolygonSwiftUI/CustomPolygons.swift:90-97 | exactly 4 vertices; vertex `i` is rounded iff the `i`-th of topLeft, topRight, bottomRight, bottomLeft is selected; every vertex's custom radius is `cornerRadius` |
| `RoundedRects.RectCornerPositions` | RoundedCornerPolygonSwiftUI/CustomPolygons.swift:90-97 | for a rectangle of non-negative size the vertices are `(x, y)`, `(x+w, y)`, `(x+w, y+h)`, `(x, y+h)` |
| `RoundedRects.RectEdgesAxisAligned` | RoundedCornerPolygonSwiftUI/CustomPolygons.swift:90-97 | for every rectangle, every edge of the factory's polygon is axis-aligned, the closing one included |
| `RoundedRects.NegativeWidthCollapsesHorizontalEdges` | RoundedCornerPolygonSwiftUI/CustomPolygons.swift:92-95 | with a negative width, vertices 0 and 1 coincide, and so do vertices 2 and 3, because `origin.x` is read and not `minX` |
| `RoundedRects.NegativeHeightCollapsesVerticalEdges` | RoundedCornerPolygonSwiftUI/CustomPolygons.swift:92-95 | with a negative height, vertices 1 and 2 coincide, and so do vertices 3 and 0, because `origin.y` is read and not `minY` |
| `RoundedRects.RoundedVertexCount` | RoundedCornerPolygonSwiftUI/CustomPolygons.swift:90-97 | the number of rounded vertices equals the number of selected corners |
| `RoundedRects.RoundedRectOutline` | RoundedCornerPolygonSwiftUI/CustomPolygons.swift:109-112 | the rounded-rect outline has 6 commands; it starts and ends at x = `origin.x`, halfway between `origin.y` and `maxY` (halfway down the left edge when the size is non-negative); the arc at each corner has `cornerRadius` if that corner is selected and 0 otherwise |
| `RoundedRects.RoundedRectPath` | RoundedCornerPolygonSwiftUI/CustomPolygons.swift:109-112 | the factory output passed to the builder, with `cornerRadius` as the default, gives that outline |
| `RoundedRects.SquareAllCornersRounded` | RoundedCornerPolygonSwiftUI/PolygonShape.swift:27-33 | the preview's 200×200 square at (100, 100), all corners rounded at radius 30: move to (100, 200); four radius-30 arcs through the corners in order; line back to (100, 200) |
| `RoundedRects.SquareNoCornerRounded` | RoundedCornerPolygonSwiftUI/CustomPolygons.swift:109-112 | the same square with no corner selected: four zero-radius arcs at exactly the corner points, with the same start and end |

## Left out

- The geometry of `CGMutablePath.addArc(tangent1End:tangent2End:radius:)`: it is a Core Graphics primitive, so `ArcTo` is an uninterpreted command. Continuity of the corner as the radius goes to 0 is therefore not stated.
- The contents of the `CGPath(rect: .zero, transform: nil)` placeholder: it is a Core Graphics object, modelled as the single value `ZeroRect`.
- IEEE floating-point behaviour of `CGFloat` and `Double`: all coordinates and radii are exact `real`s.
- `magnitudeSquared`: a stored `var` initialised to `1`, present because the `VectorArithmetic` protocol requires it; nothing in the repository reads or updates it.
- `CGPoint: Hashable` and `hash(into:)`: hashing plumbing. Equality of points and vertices is datatype equality.
- Element-wise interpolation of `[PolygonPoint]` through `animatableData` (PolygonShape.swift:15-18): nothing in the repository performs it. `PolygonShape` conforms only to `View`, not `Animatable`, and `[PolygonPoint]` is not made a `VectorArithmetic`. So no blend function is modelled.
- The SwiftUI views, toggles, previews and app lifecycle (PolygonShape.swift, ContentView.swift, RoundedCornerPolygonSwiftUIApp.swift): they have no logic of their own.
- `scale(by:)` updates a value-type `PolygonPoint` in place; `Vertices.Scale` returns the new value instead. With value semantics there is no aliasing to lose.
