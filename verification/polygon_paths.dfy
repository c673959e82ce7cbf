/**
 * `buildPolygonPathFrom`: the closed outline of a polygon whose corners are
 * each sharp or rounded. The outline is recorded as the commands sent to the
 * `CGMutablePath`; the tangent-arc geometry of `addArc` is not interpreted.
 */
module PolygonPaths {
  import opened Wrappers
  import opened CGGeometry
  import opened Vertices

  /** The path-building calls the builder makes: `move(to:)`,
      `addArc(tangent1End:tangent2End:radius:)` and `addLine(to:)`. */
  datatype PathCommand =
    | MoveTo(to: Point)
    | ArcTo(tangent1End: Point, tangent2End: Point, radius: real)
    | LineTo(to: Point)

  /** What the builder returns: the zero-rectangle placeholder path, or the
      commands of a polygon outline. */
  datatype Path = ZeroRect | Commands(cmds: seq<PathCommand>)

  /** The point halfway between `p` and `q`. */
  function Midpoint(p: Point, q: Point): (m: Point)
    ensures Sub(m, p) == Sub(q, m)
  {
    Point((p.x + q.x) / 2.0, (p.y + q.y) / 2.0)
  }

  /** Where the outline starts and ends: halfway along the edge from the last
      vertex back to the first. */
  function StartPoint(points: seq<PolygonPoint>): Point
    requires |points| > 0
  {
    Midpoint(points[0].point, points[|points| - 1].point)
  }

  /** The radius the arc at `v` is drawn with: 0 for a sharp corner whatever
      radius it stores, otherwise its custom radius, or the default when it
      has none. */
  function ArcRadius(v: PolygonPoint, defaultCornerRadius: real): (r: real)
    ensures !v.isRounded ==> r == 0.0
    ensures v.isRounded && v.customCornerRadius.Some? ==> r == v.customCornerRadius.value
    ensures v.isRounded && v.customCornerRadius.None? ==> r == defaultCornerRadius
  {
    if v.isRounded then v.customCornerRadius.GetOr(defaultCornerRadius) else 0.0
  }

  /** A vertex made without a custom radius takes the builder's default when
      rounded and 0 when sharp; blending two such rounded vertices fills in a
      radius of 0, so the default no longer applies to the blend. */
  lemma DefaultRadiusOfPlainVertex(p: Point, q: Point, defaultCornerRadius: real)
    ensures ArcRadius(MakeVertex(p, true), defaultCornerRadius) == defaultCornerRadius
    ensures ArcRadius(MakeVertex(p, false), defaultCornerRadius) == 0.0
    ensures ArcRadius(Plus(MakeVertex(p, true), MakeVertex(q, true)), defaultCornerRadius) == 0.0
  {
  }

  /** The arc command for vertex `i`: tangent to the edge into `points[i]` and
      to the edge towards the next vertex, taken cyclically. */
  function CornerArc(points: seq<PolygonPoint>, i: nat, defaultCornerRadius: real): PathCommand
    requires i < |points|
  {
    ArcTo(points[i].point, points[(i + 1) % |points|].point, ArcRadius(points[i], defaultCornerRadius))
  }

  /** The arcs for the first `k` vertices, in order. */
  function ArcsUpTo(points: seq<PolygonPoint>, k: nat, defaultCornerRadius: real): seq<PathCommand>
    requires k <= |points|
  {
    if k == 0 then [] else ArcsUpTo(points, k - 1, defaultCornerRadius) + [CornerArc(points, k - 1, defaultCornerRadius)]
  }

  /** The outline `buildPolygonPathFrom` produces: the placeholder for fewer
      than three vertices, otherwise a move to the start point, one arc per
      vertex and a line back to the start point. */
  function PolygonPath(points: seq<PolygonPoint>, defaultCornerRadius: real): (path: Path)
    ensures path.ZeroRect? <==> |points| < 3
    ensures path.Commands? ==>
      && |path.cmds| == |points| + 2
      && path.cmds[0] == MoveTo(StartPoint(points))
      && path.cmds[|points| + 1] == LineTo(StartPoint(points))
      && forall j :: 0 < j <= |points| ==> path.cmds[j].ArcTo?
  {
    if |points| < 3 then ZeroRect
    else
      var m := StartPoint(points);
      ArcsUpToAt(points, |points|, defaultCornerRadius);
      Commands([MoveTo(m)] + ArcsUpTo(points, |points|, defaultCornerRadius) + [LineTo(m)])
  }

  lemma {:induction false} ArcsUpToAt(points: seq<PolygonPoint>, k: nat, defaultCornerRadius: real)
    requires k <= |points|
    ensures |ArcsUpTo(points, k, defaultCornerRadius)| == k
    ensures forall i :: 0 <= i < k ==> ArcsUpTo(points, k, defaultCornerRadius)[i] == CornerArc(points, i, defaultCornerRadius)
  {
    if k > 0 {
      ArcsUpToAt(points, k - 1, defaultCornerRadius);
    }
  }

  /** The builder, as the source writes it: a loop over the vertices that
      appends one arc command per vertex. */
  method BuildPolygonPathFrom(points: seq<PolygonPoint>, defaultCornerRadius: real) returns (path: Path)
    ensures path == PolygonPath(points, defaultCornerRadius)
  {
    if |points| < 3 {
      return ZeroRect;
    }
    var first := points[0];
    var last := points[|points| - 1];
    var midpoint := Point((first.point.x + last.point.x) / 2.0, (first.point.y + last.point.y) / 2.0);
    var cmds := [MoveTo(midpoint)];
    for index := 0 to |points|
      invariant cmds == [MoveTo(midpoint)] + ArcsUpTo(points, index, defaultCornerRadius)
    {
      var point := points[index];
      var nextIndex := (index + 1) % |points|;
      var nextPoint := points[nextIndex];
      var radius := 0.0;
      if point.isRounded {
        radius := point.customCornerRadius.GetOr(defaultCornerRadius);
      }
      cmds := cmds + [ArcTo(point.point, nextPoint.point, radius)];
    }
    cmds := cmds + [LineTo(midpoint)];
    path := Commands(cmds);
  }

  /** For `n >= 3` vertices: `n + 2` commands, a move to the start point, then
      for each vertex `i` an arc from `points[i]` towards `points[(i+1) % n]`
      with `i`'s resolved radius, then a line back to the start point. */
  lemma PolygonPathShape(points: seq<PolygonPoint>, defaultCornerRadius: real)
    requires |points| >= 3
    ensures var cmds := PolygonPath(points, defaultCornerRadius).cmds;
      forall i :: 0 <= i < |points| ==>
           cmds[i + 1] == ArcTo(points[i].point, points[(i + 1) % |points|].point, ArcRadius(points[i], defaultCornerRadius))
  {
    ArcsUpToAt(points, |points|, defaultCornerRadius);
  }

  /** Adjacent arcs share an edge: each arc heads towards the vertex the next
      arc turns around, and the last arc heads back to the first vertex. */
  lemma ArcsChainCyclically(points: seq<PolygonPoint>, defaultCornerRadius: real, i: nat)
    requires |points| >= 3 && i < |points|
    ensures var cmds := PolygonPath(points, defaultCornerRadius).cmds;
      cmds[i + 1].tangent2End == cmds[(i + 1) % |points| + 1].tangent1End
    ensures var cmds := PolygonPath(points, defaultCornerRadius).cmds;
      cmds[|points|].tangent2End == points[0].point
  {
    var n := |points|;
    var cmds := PolygonPath(points, defaultCornerRadius).cmds;
    PolygonPathShape(points, defaultCornerRadius);
    var j := (i + 1) % n;
    assert cmds[i + 1] == CornerArc(points, i, defaultCornerRadius);
    assert cmds[j + 1] == CornerArc(points, j, defaultCornerRadius);
    assert cmds[n].tangent2End == points[n % n].point;
  }

  /** A sharp vertex's arc has radius 0 whatever custom radius it stores; a
      rounded vertex without one uses the default radius. */
  lemma CornerRadiusResolution(points: seq<PolygonPoint>, defaultCornerRadius: real, i: nat)
    requires |points| >= 3 && i < |points|
    ensures var cmds := PolygonPath(points, defaultCornerRadius).cmds;
      && (!points[i].isRounded ==> cmds[i + 1].radius == 0.0)
      && (points[i].isRounded && points[i].customCornerRadius.None? ==> cmds[i + 1].radius == defaultCornerRadius)
      && (points[i].isRounded && points[i].customCornerRadius.Some? ==> cmds[i + 1].radius == points[i].customCornerRadius.value)
  {
    PolygonPathShape(points, defaultCornerRadius);
    assert PolygonPath(points, defaultCornerRadius).cmds[i + 1].radius == ArcRadius(points[i], defaultCornerRadius);
  }

  /** The number of arc commands with a non-zero radius (true curves, as
      opposed to sharp corners). */
  function CurvedArcCount(cmds: seq<PathCommand>): nat
  {
    if cmds == [] then 0
    else (if cmds[0].ArcTo? && cmds[0].radius != 0.0 then 1 else 0) + CurvedArcCount(cmds[1..])
  }

  /** The number of vertices whose resolved radius is non-zero. */
  function CurvedCornerCount(points: seq<PolygonPoint>, defaultCornerRadius: real): nat
  {
    if points == [] then 0
    else (if ArcRadius(points[0], defaultCornerRadius) != 0.0 then 1 else 0) + CurvedCornerCount(points[1..], defaultCornerRadius)
  }

  lemma {:induction false} CurvedArcCountAppend(a: seq<PathCommand>, b: seq<PathCommand>)
    ensures CurvedArcCount(a + b) == CurvedArcCount(a) + CurvedArcCount(b)
  {
    if a == [] {
      assert a + b == b;
    } else {
      assert (a + b)[1..] == a[1..] + b;
      CurvedArcCountAppend(a[1..], b);
    }
  }

  lemma {:induction false} CurvedCornerCountAppend(a: seq<PolygonPoint>, b: seq<PolygonPoint>, defaultCornerRadius: real)
    ensures CurvedCornerCount(a + b, defaultCornerRadius) == CurvedCornerCount(a, defaultCornerRadius) + CurvedCornerCount(b, defaultCornerRadius)
  {
    if a == [] {
      assert a + b == b;
    } else {
      assert (a + b)[1..] == a[1..] + b;
      CurvedCornerCountAppend(a[1..], b, defaultCornerRadius);
    }
  }

  lemma {:induction false} ArcsUpToCurvedCount(points: seq<PolygonPoint>, k: nat, defaultCornerRadius: real)
    requires k <= |points|
    ensures CurvedArcCount(ArcsUpTo(points, k, defaultCornerRadius)) == CurvedCornerCount(points[..k], defaultCornerRadius)
  {
    if k > 0 {
      ArcsUpToCurvedCount(points, k - 1, defaultCornerRadius);
      var arc := CornerArc(points, k - 1, defaultCornerRadius);
      CurvedArcCountAppend(ArcsUpTo(points, k - 1, defaultCornerRadius), [arc]);
      assert CurvedArcCount([arc]) == (if arc.radius != 0.0 then 1 else 0) by {
        assert [arc][1..] == [];
      }
      assert points[..k] == points[..k - 1] + [points[k - 1]];
      CurvedCornerCountAppend(points[..k - 1], [points[k - 1]], defaultCornerRadius);
      assert [points[k - 1]][1..] == [];
    } else {
      assert points[..0] == [];
    }
  }

  /** The outline has exactly as many curved arcs as the polygon has corners
      whose resolved radius is non-zero; every other corner is a point. */
  lemma CurvedArcsMatchCurvedCorners(points: seq<PolygonPoint>, defaultCornerRadius: real)
    requires |points| >= 3
    ensures CurvedArcCount(PolygonPath(points, defaultCornerRadius).cmds) == CurvedCornerCount(points, defaultCornerRadius)
  {
    var m := StartPoint(points);
    var arcs := ArcsUpTo(points, |points|, defaultCornerRadius);
    CurvedArcCountAppend([MoveTo(m)] + arcs, [LineTo(m)]);
    CurvedArcCountAppend([MoveTo(m)], arcs);
    assert CurvedArcCount([MoveTo(m)]) == 0 by { assert [MoveTo(m)][1..] == []; }
    assert CurvedArcCount([LineTo(m)]) == 0 by { assert [LineTo(m)][1..] == []; }
    ArcsUpToCurvedCount(points, |points|, defaultCornerRadius);
    assert points[..|points|] == points;
  }

  /** A triangle with its first corner rounded at radius 20 and the other
      two sharp, whatever radius they store and whatever the default: one
      curved arc, of radius 20, and two point corners. */
  lemma TriangleOneRoundedCorner(points: seq<PolygonPoint>, defaultCornerRadius: real)
    requires |points| == 3
    requires points[0].isRounded && points[0].customCornerRadius == Some(20.0)
    requires !points[1].isRounded && !points[2].isRounded
    ensures var cmds := PolygonPath(points, defaultCornerRadius).cmds;
      && CurvedArcCount(cmds) == 1
      && cmds[1].radius == 20.0 && cmds[2].radius == 0.0 && cmds[3].radius == 0.0
  {
    var d := defaultCornerRadius;
    var tail1, tail2 := points[1..], points[2..];
    assert tail2[1..] == [];
    assert CurvedCornerCount(tail2, d) == 0;
    assert tail1[1..] == tail2;
    assert CurvedCornerCount(tail1, d) == 0;
    assert CurvedCornerCount(points, d) == 1;
    CurvedArcsMatchCurvedCorners(points, d);
    CornerRadiusResolution(points, d, 0);
    CornerRadiusResolution(points, d, 1);
    CornerRadiusResolution(points, d, 2);
  }
}
