/**
 * `roundedRectCorners` and `roundedRectPath`: a rectangle with a chosen
 * subset of its corners rounded, as a four-vertex polygon and as its outline.
 */
module RoundedRects {
  import opened Wrappers
  import opened CGGeometry
  import opened Vertices
  import opened PolygonPaths

  /** The four options of `UIRectCorner`; a `UIRectCorner` value is a set of them. */
  datatype RectCorner = TopLeft | TopRight | BottomRight | BottomLeft

  /** `UIRectCorner.allCorners`. */
  const AllCorners: set<RectCorner> := {TopLeft, TopRight, BottomRight, BottomLeft}

  /** The corner the factory puts at position `i` of its vertex sequence. */
  function CornerAt(i: nat): RectCorner
    requires i < 4
  {
    [TopLeft, TopRight, BottomRight, BottomLeft][i]
  }

  /** `roundedRectCorners(rect:byRoundingCorners:cornerRadius:)`: four
      vertices, top-left, top-right, bottom-right, bottom-left, each rounded
      exactly when its corner is selected, and all with the given radius. */
  function RoundedRectCorners(rect: Rect, corners: set<RectCorner>, cornerRadius: real): (r: seq<PolygonPoint>)
    ensures |r| == 4
    ensures forall i :: 0 <= i < 4 ==> r[i].isRounded == (CornerAt(i) in corners)
    ensures forall i :: 0 <= i < 4 ==> r[i].customCornerRadius == Some(cornerRadius)
  {
    [ PolygonPoint(rect.origin, TopLeft in corners, Some(cornerRadius)),
      PolygonPoint(Point(rect.MaxX(), rect.origin.y), TopRight in corners, Some(cornerRadius)),
      PolygonPoint(Point(rect.MaxX(), rect.MaxY()), BottomRight in corners, Some(cornerRadius)),
      PolygonPoint(Point(rect.origin.x, rect.MaxY()), BottomLeft in corners, Some(cornerRadius)) ]
  }

  /** Whatever the rectangle, every edge of the factory's polygon, the
      closing one included, is axis-aligned. */
  lemma RectEdgesAxisAligned(rect: Rect, corners: set<RectCorner>, cornerRadius: real)
    ensures var r := RoundedRectCorners(rect, corners, cornerRadius);
      && r[0].point.y == r[1].point.y
      && r[1].point.x == r[2].point.x
      && r[2].point.y == r[3].point.y
      && r[3].point.x == r[0].point.x
  {
  }

  /** For a rectangle of non-negative size the vertices are its four corners,
      in order around it. */
  lemma RectCornerPositions(rect: Rect, corners: set<RectCorner>, cornerRadius: real)
    requires rect.width >= 0.0 && rect.height >= 0.0
    ensures var r := RoundedRectCorners(rect, corners, cornerRadius);
      var x, y, w, h := rect.origin.x, rect.origin.y, rect.width, rect.height;
      && r[0].point == Point(x, y)
      && r[1].point == Point(x + w, y)
      && r[2].point == Point(x + w, y + h)
      && r[3].point == Point(x, y + h)
  {
  }

  /** The factory places the first vertex at `rect.origin` and the others
      from `maxX`/`maxY`, which for a negative width is `origin.x` again: the
      two top vertices then coincide, and so do the two bottom ones. */
  lemma NegativeWidthCollapsesHorizontalEdges(rect: Rect, corners: set<RectCorner>, cornerRadius: real)
    requires rect.width < 0.0
    ensures var r := RoundedRectCorners(rect, corners, cornerRadius);
      r[0].point == r[1].point && r[2].point == r[3].point
  {
  }

  /** Likewise `maxY` is `origin.y` for a negative height: the two right
      vertices then coincide, and so do the two left ones. */
  lemma NegativeHeightCollapsesVerticalEdges(rect: Rect, corners: set<RectCorner>, cornerRadius: real)
    requires rect.height < 0.0
    ensures var r := RoundedRectCorners(rect, corners, cornerRadius);
      r[1].point == r[2].point && r[3].point == r[0].point
  {
  }

  function Indicator(b: bool): nat
  {
    if b then 1 else 0
  }

  /** The number of rounded vertices in a sequence. */
  function RoundedCount(points: seq<PolygonPoint>): nat
  {
    if points == [] then 0 else Indicator(points[0].isRounded) + RoundedCount(points[1..])
  }

  lemma RemoveCorner(s: set<RectCorner>, c: RectCorner)
    ensures |s| == |s - {c}| + Indicator(c in s)
  {
  }

  lemma CornerSetSize(corners: set<RectCorner>)
    ensures |corners| == Indicator(TopLeft in corners) + Indicator(TopRight in corners)
                         + Indicator(BottomRight in corners) + Indicator(BottomLeft in corners)
  {
    var s1 := corners - {TopLeft};
    var s2 := s1 - {TopRight};
    var s3 := s2 - {BottomRight};
    var s4 := s3 - {BottomLeft};
    RemoveCorner(corners, TopLeft);
    RemoveCorner(s1, TopRight);
    RemoveCorner(s2, BottomRight);
    RemoveCorner(s3, BottomLeft);
    forall c: RectCorner ensures c in AllCorners {
      match c
      case TopLeft =>
      case TopRight =>
      case BottomRight =>
      case BottomLeft =>
    }
    assert s4 == corners - AllCorners;
    assert s4 == {};
  }

  /** Exactly as many vertices are rounded as corners were selected. */
  lemma RoundedVertexCount(rect: Rect, corners: set<RectCorner>, cornerRadius: real)
    ensures RoundedCount(RoundedRectCorners(rect, corners, cornerRadius)) == |corners|
  {
    var r := RoundedRectCorners(rect, corners, cornerRadius);
    assert r[3..][1..] == [];
    assert RoundedCount(r[3..]) == Indicator(BottomLeft in corners);
    assert r[2..][1..] == r[3..];
    assert RoundedCount(r[2..]) == Indicator(BottomRight in corners) + Indicator(BottomLeft in corners);
    assert r[1..][1..] == r[2..];
    assert RoundedCount(r[1..]) == Indicator(TopRight in corners) + Indicator(BottomRight in corners) + Indicator(BottomLeft in corners);
    CornerSetSize(corners);
  }

  /** The outline `roundedRectPath` returns for the factory's vertices: six
      commands, starting and ending at x = `origin.x`, halfway between
      `origin.y` and `maxY`, and the arc
      at each corner using `cornerRadius` when that corner is selected and 0
      otherwise. */
  lemma RoundedRectOutline(rect: Rect, corners: set<RectCorner>, cornerRadius: real)
    ensures var path := PolygonPath(RoundedRectCorners(rect, corners, cornerRadius), cornerRadius);
      && path.Commands?
      && |path.cmds| == 6
      && path.cmds[0] == MoveTo(Point(rect.origin.x, (rect.origin.y + rect.MaxY()) / 2.0))
      && path.cmds[5] == LineTo(path.cmds[0].to)
      && forall i :: 0 <= i < 4 ==>
           path.cmds[i + 1].radius == (if CornerAt(i) in corners then cornerRadius else 0.0)
  {
    var points := RoundedRectCorners(rect, corners, cornerRadius);
    PolygonPathShape(points, cornerRadius);
    var cmds := PolygonPath(points, cornerRadius).cmds;
    forall i | 0 <= i < 4
      ensures cmds[i + 1].radius == (if CornerAt(i) in corners then cornerRadius else 0.0)
    {
      assert cmds[i + 1] == CornerArc(points, i, cornerRadius);
    }
  }

  /** `roundedRectPath(rect:byRoundingCorners:cornerRadius:)`: the factory's
      vertices handed to the builder, with the same radius as default. */
  method RoundedRectPath(rect: Rect, corners: set<RectCorner>, cornerRadius: real) returns (path: Path)
    ensures path == PolygonPath(RoundedRectCorners(rect, corners, cornerRadius), cornerRadius)
    ensures path.Commands? && |path.cmds| == 6
    ensures forall i :: 0 <= i < 4 ==>
      path.cmds[i + 1].radius == (if CornerAt(i) in corners then cornerRadius else 0.0)
  {
    var rectCorners := RoundedRectCorners(rect, corners, cornerRadius);
    path := BuildPolygonPathFrom(rectCorners, cornerRadius);
    RoundedRectOutline(rect, corners, cornerRadius);
  }

  /** A 200 by 200 square at (100, 100) with every corner rounded at radius
      30: the outline starts and ends at (100, 200) and has four arcs of
      radius 30, one at each corner. */
  lemma SquareAllCornersRounded()
    ensures var path := PolygonPath(RoundedRectCorners(Rect(Point(100.0, 100.0), 200.0, 200.0), AllCorners, 30.0), 30.0);
      && path.Commands?
      && path.cmds == [
           MoveTo(Point(100.0, 200.0)),
           ArcTo(Point(100.0, 100.0), Point(300.0, 100.0), 30.0),
           ArcTo(Point(300.0, 100.0), Point(300.0, 300.0), 30.0),
           ArcTo(Point(300.0, 300.0), Point(100.0, 300.0), 30.0),
           ArcTo(Point(100.0, 300.0), Point(100.0, 100.0), 30.0),
           LineTo(Point(100.0, 200.0))]
  {
    var points := RoundedRectCorners(Rect(Point(100.0, 100.0), 200.0, 200.0), AllCorners, 30.0);
    PolygonPathShape(points, 30.0);
    var cmds := PolygonPath(points, 30.0).cmds;
    assert cmds[1] == CornerArc(points, 0, 30.0);
    assert cmds[2] == CornerArc(points, 1, 30.0);
    assert cmds[3] == CornerArc(points, 2, 30.0);
    assert cmds[4] == CornerArc(points, 3, 30.0);
  }

  /** The same square with no corner rounded: four zero-radius arcs, i.e.
      sharp corners at exactly the four corner points, and the same start. */
  lemma SquareNoCornerRounded()
    ensures var path := PolygonPath(RoundedRectCorners(Rect(Point(100.0, 100.0), 200.0, 200.0), {}, 30.0), 30.0);
      && path.Commands?
      && path.cmds == [
           MoveTo(Point(100.0, 200.0)),
           ArcTo(Point(100.0, 100.0), Point(300.0, 100.0), 0.0),
           ArcTo(Point(300.0, 100.0), Point(300.0, 300.0), 0.0),
           ArcTo(Point(300.0, 300.0), Point(100.0, 300.0), 0.0),
           ArcTo(Point(100.0, 300.0), Point(100.0, 100.0), 0.0),
           LineTo(Point(100.0, 200.0))]
  {
  }
}
