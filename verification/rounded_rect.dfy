/** `create_rounded_rectangle`: a convex rounded rectangle as an SVG `rect`
    with corner radii, or a concave one as an explicit closed path whose four
    corners are scooped inwards by quarter circles centred on the corners of
    the outer box. */
module RoundedRect {
  import opened Shapes
  import opened Paths
  import opened Primitives

  /** Corner k of the box, in the order the contour visits them:
      0 top-right, 1 bottom-right, 2 bottom-left, 3 top-left. */
  function Corner(insert: Point, size: Size, k: nat): Point
    requires k < 4
  {
    if k == 0 then Point(insert.x + size.w, insert.y)
    else if k == 1 then Point(insert.x + size.w, insert.y + size.h)
    else if k == 2 then Point(insert.x, insert.y + size.h)
    else insert
  }

  /** Unit direction of travel along the edge that ends at corner k; the
      contour runs clockwise on a y-down page. */
  function Heading(k: nat): Point
    requires k < 4
  {
    if k == 0 then Point(1.0, 0.0)
    else if k == 1 then Point(0.0, 1.0)
    else if k == 2 then Point(-1.0, 0.0)
    else Point(0.0, -1.0)
  }

  /** The point r before corner k on the edge that runs into it. */
  function Approach(insert: Point, size: Size, r: real, k: nat): Point
    requires k < 4
  {
    Along(Corner(insert, size, k), -r, Heading(k))
  }

  /** The point r past corner k on the edge that leaves it. */
  function Depart(insert: Point, size: Size, r: real, k: nat): Point
    requires k < 4
  {
    Along(Corner(insert, size, k), r, Heading((k + 1) % 4))
  }

  /** Reference description of the inward contour from corner k on: for
      each remaining corner a straight edge up to r before it, then a corner
      arc to r past it (the literal `1 0 0` rotation/large-arc/sweep tokens),
      and finally `Close`. */
  function CornerWalk(insert: Point, size: Size, r: real, k: nat): seq<PathCmd>
    requires k <= 4
    decreases 4 - k
  {
    if k == 4 then [Close]
    else [LineTo(Approach(insert, size, r, k)), ArcTo(r, r, 1.0, false, false, Depart(insert, size, r, k))]
         + CornerWalk(insert, size, r, k + 1)
  }

  /** The concave contour exactly as laser_tools.py spells it out. */
  function ConcavePath(insert: Point, size: Size, r: real): (d: seq<PathCmd>)
    ensures |d| == 10 && d[0] == MoveTo(Point(insert.x + r, insert.y)) && IsClosedContour(d)
    ensures forall i :: 0 <= i < |d| ==> (d[i].LineTo? || d[i].ArcTo? <==> 1 <= i <= 8)
    ensures forall i :: 1 <= i <= 8 ==> (d[i].ArcTo? <==> i % 2 == 0)
    ensures forall i :: 0 <= i < |d| && d[i].ArcTo? ==>
      d[i].rx == r && d[i].ry == r && d[i].rotation == 1.0 && !d[i].largeArc && !d[i].sweep
  {
    var x, y, w, h := insert.x, insert.y, size.w, size.h;
    [ MoveTo(Point(x + r, y)),
      LineTo(Point(x + w - r, y)),
      ArcTo(r, r, 1.0, false, false, Point(x + w, y + r)),
      LineTo(Point(x + w, y + h - r)),
      ArcTo(r, r, 1.0, false, false, Point(x + w - r, y + h)),
      LineTo(Point(x + r, y + h)),
      ArcTo(r, r, 1.0, false, false, Point(x, y + h - r)),
      LineTo(Point(x, y + r)),
      ArcTo(r, r, 1.0, false, false, Point(x + r, y)),
      Close ]
  }

  /** `create_rounded_rectangle`. Not inward: a `rect` at the given insert
      and size with rx = ry = the corner radius and no path. Inward: a
      closed path that starts r along the top edge and visits the corners
      top-right, bottom-right, bottom-left, top-left, each as an edge then a
      corner arc, with exactly four lines and four arcs. */
  function CreateRoundedRectangle(insert: Point, size: Size, cornerRadius: real, outline: string,
                                  strokeWidth: real := 1.0, inward: bool := false): (s: Shape)
    ensures IsOutline(s) && s.style.stroke == outline && s.style.strokeWidth == strokeWidth
    ensures !inward ==> s.Rect? && s.insert == insert && s.size == size
                        && s.radii == Some(Radii(cornerRadius, cornerRadius))
    ensures inward ==> s.Path? && IsClosedContour(s.d)
                       && NumLines(s.d) == 4 && NumArcs(s.d) == 4
                       && s.d[0] == MoveTo(Point(insert.x + cornerRadius, insert.y))
                       && s.d == [MoveTo(Depart(insert, size, cornerRadius, 3))] + CornerWalk(insert, size, cornerRadius, 0)
  {
    if !inward then
      Rect(insert, size, Some(Radii(cornerRadius, cornerRadius)), Outline(outline, strokeWidth))
    else
      ConcaveSegmentCounts(insert, size, cornerRadius);
      ConcavePathIsCornerWalk(insert, size, cornerRadius);
      Path(ConcavePath(insert, size, cornerRadius), Outline(outline, strokeWidth))
  }

  /** The contour as written is the reference corner walk, started r past
      the top-left corner. */
  lemma ConcavePathIsCornerWalk(insert: Point, size: Size, r: real)
    ensures ConcavePath(insert, size, r) == [MoveTo(Depart(insert, size, r, 3))] + CornerWalk(insert, size, r, 0)
  {
    var x, y, w, h := insert.x, insert.y, size.w, size.h;
    var d := ConcavePath(insert, size, r);
    assert Depart(insert, size, r, 3) == Point(x + r, y);
    assert CornerWalk(insert, size, r, 3)
        == [LineTo(Point(x, y + r)), ArcTo(r, r, 1.0, false, false, Point(x + r, y)), Close] == d[7..];
    assert CornerWalk(insert, size, r, 2)
        == [LineTo(Point(x + r, y + h)), ArcTo(r, r, 1.0, false, false, Point(x, y + h - r))] + d[7..] == d[5..];
    assert CornerWalk(insert, size, r, 1)
        == [LineTo(Point(x + w, y + h - r)), ArcTo(r, r, 1.0, false, false, Point(x + w - r, y + h))] + d[5..] == d[3..];
    assert CornerWalk(insert, size, r, 0)
        == [LineTo(Point(x + w - r, y)), ArcTo(r, r, 1.0, false, false, Point(x + w, y + r))] + d[3..] == d[1..];
  }

  /** Four straight edges and four corner arcs, closed back to the start. */
  lemma ConcaveSegmentCounts(insert: Point, size: Size, r: real)
    ensures var d := ConcavePath(insert, size, r);
      IsClosedContour(d) && NumLines(d) == 4 && NumArcs(d) == 4
  {
    var d := ConcavePath(insert, size, r);
    assert d == d[..1] + d[1..3] + d[3..5] + d[5..7] + d[7..9] + d[9..];
    NumLinesAppend(d[..1], d[1..3]);
    NumLinesAppend(d[..1] + d[1..3], d[3..5]);
    NumLinesAppend(d[..1] + d[1..3] + d[3..5], d[5..7]);
    NumLinesAppend(d[..1] + d[1..3] + d[3..5] + d[5..7], d[7..9]);
    NumLinesAppend(d[..1] + d[1..3] + d[3..5] + d[5..7] + d[7..9], d[9..]);
    NumArcsAppend(d[..1], d[1..3]);
    NumArcsAppend(d[..1] + d[1..3], d[3..5]);
    NumArcsAppend(d[..1] + d[1..3] + d[3..5], d[5..7]);
    NumArcsAppend(d[..1] + d[1..3] + d[3..5] + d[5..7], d[7..9]);
    NumArcsAppend(d[..1] + d[1..3] + d[3..5] + d[5..7] + d[7..9], d[9..]);
  }

  /** Corner geometry: arc k joins the two points that lie r along the two
      edges meeting at corner k, and the edge before it ends where the arc
      starts. */
  lemma ConcaveArcsJoinCornerEdges(insert: Point, size: Size, r: real, k: nat)
    requires k < 4
    ensures var d := ConcavePath(insert, size, r);
      && d[2 * k + 1] == LineTo(Approach(insert, size, r, k))
      && d[2 * k + 2] == ArcTo(r, r, 1.0, false, false, Depart(insert, size, r, k))
      && SqDist(Approach(insert, size, r, k), Corner(insert, size, k)) == r * r
      && SqDist(Depart(insert, size, r, k), Corner(insert, size, k)) == r * r
  {
    ConcavePathIsCornerWalk(insert, size, r);
    var d := ConcavePath(insert, size, r);
    AlongDistance(Corner(insert, size, k), -r, Heading(k));
    AlongDistance(Corner(insert, size, k), r, Heading((k + 1) % 4));
    if k == 0 {
      assert d[1] == LineTo(Approach(insert, size, r, 0));
    }
  }

  /** The flags as written (large-arc 0, sweep 0) make SVG centre every
      corner arc on the corner of the outer box, so the arc bulges into the
      rectangle: the scooped, concave corner. */
  lemma ConcaveArcsCentredAtCorners(insert: Point, size: Size, r: real, k: nat)
    requires k < 4
    ensures IsArcCentre(Approach(insert, size, r, k), Depart(insert, size, r, k), r, false, false,
                        Corner(insert, size, k))
  {
    AlongDistance(Corner(insert, size, k), -r, Heading(k));
    AlongDistance(Corner(insert, size, k), r, Heading((k + 1) % 4));
    CornerChordSides(insert, size, r, k);
  }

  /** The flags the comment describes instead (large-arc 1, sweep 0) would
      centre each arc on the point r inside the corner along both edges,
      which for r ≠ 0 is not the corner and lies on the other side of the
      chord, and would draw three quarters of that circle. */
  lemma CommentFlagsCentreInside(insert: Point, size: Size, r: real, k: nat)
    requires k < 4
    ensures var p, q := Approach(insert, size, r, k), Depart(insert, size, r, k);
      var inner := Along(p, r, Heading((k + 1) % 4));
      && IsArcCentre(p, q, r, true, false, inner)
      && ChordSide(p, q, inner) == -ChordSide(p, q, Corner(insert, size, k))
      && (r != 0.0 ==> inner != Corner(insert, size, k))
  {
    CornerChordSides(insert, size, r, k);
  }

  /** Where the corner and the inner point lie relative to the chord of
      corner arc k, and their distances from its ends. */
  lemma CornerChordSides(insert: Point, size: Size, r: real, k: nat)
    requires k < 4
    ensures var p, q := Approach(insert, size, r, k), Depart(insert, size, r, k);
      var inner := Along(p, r, Heading((k + 1) % 4));
      && ChordSide(p, q, Corner(insert, size, k)) == -Square(r)
      && ChordSide(p, q, inner) == Square(r)
      && SqDist(inner, p) == r * r && SqDist(inner, q) == r * r
  {
    var p, q := Approach(insert, size, r, k), Depart(insert, size, r, k);
    var inner := Along(p, r, Heading((k + 1) % 4));
    if k == 0 {
      assert inner == Point(p.x, p.y + r) && q == Point(p.x + r, p.y + r);
    } else if k == 1 {
      assert inner == Point(p.x - r, p.y) && q == Point(p.x - r, p.y + r);
    } else if k == 2 {
      assert inner == Point(p.x, p.y - r) && q == Point(p.x - r, p.y - r);
    } else {
      assert inner == Point(p.x + r, p.y) && q == Point(p.x + r, p.y - r);
    }
  }

  /** When the corner radius fits (0 ≤ r ≤ w and r ≤ h), every vertex of
      the inward contour lies on the boundary of the outer box. */
  lemma ConcaveVerticesOnBoundary(insert: Point, size: Size, r: real)
    requires 0.0 <= r <= size.w && r <= size.h
    ensures var vs := Vertices(ConcavePath(insert, size, r));
      |vs| == 9 && forall i :: 0 <= i < |vs| ==> OnBoxBoundary(vs[i], insert, size)
  {
    var d := ConcavePath(insert, size, r);
    assert d == d[..9] + [Close];
    VerticesAppend(d[..9], [Close]);
    VerticesOfOpenPath(d[..9]);
    assert Vertices([Close]) == [];
  }

  /** With radius 0 each arc ends where it starts (SVG omits such an arc,
      appendix F.6.2 of SVG 1.1) and the edges run corner to corner, so the
      inward contour degenerates to the plain rectangle outline. */
  lemma ConcaveZeroRadius(insert: Point, size: Size, k: nat)
    requires k < 4
    ensures var d := ConcavePath(insert, size, 0.0);
      d[2 * k + 1].to == Corner(insert, size, k) && d[2 * k + 2].to == d[2 * k + 1].to
    ensures ConcavePath(insert, size, 0.0)[0].to == Corner(insert, size, 3)
  {
    ConcaveArcsJoinCornerEdges(insert, size, 0.0, k);
  }

  /** With radius 0 the convex case is the plain rectangle of the same
      insert, size and stroke, except that it states rx = ry = 0. */
  lemma ConvexZeroRadius(insert: Point, size: Size, outline: string, strokeWidth: real)
    ensures var s := CreateRoundedRectangle(insert, size, 0.0, outline, strokeWidth, false);
      s.Rect? && s.(radii := None) == CreateRectangle(insert, size, outline, strokeWidth)
  {
  }
}
