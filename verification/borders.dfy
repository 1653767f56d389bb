/** The border outlines of laser_tools.py: an open polyline around a box
    centred on a point, starting and ending at the middle of its top edge,
    and a variant that leaves a gap in the top edge for a title. */
module Borders {
  import opened Shapes
  import opened Paths
  import opened Primitives

  /** Corners of the w×h box centred at c, in drawing order: top-right,
      bottom-right, bottom-left, top-left. */
  function BoxCorners(c: Point, size: Size): seq<Point>
  {
    [ Point(c.x + size.w / 2.0, c.y - size.h / 2.0),
      Point(c.x + size.w / 2.0, c.y + size.h / 2.0),
      Point(c.x - size.w / 2.0, c.y + size.h / 2.0),
      Point(c.x - size.w / 2.0, c.y - size.h / 2.0) ]
  }

  /** Top-left corner of the w×h box centred at c. */
  function CentredInsert(c: Point, size: Size): Point
  {
    Point(c.x - size.w / 2.0, c.y - size.h / 2.0)
  }

  /** `create_border`: a six-point polyline that starts at the middle of the
      top edge, visits the four corners clockwise from top-right, and comes
      back to where it started. */
  function CreateBorder(centre: Point, borderSize: Size, strokeWidth: real := 0.5): (s: Shape)
    ensures s.Path? && IsOutline(s) && s.style.stroke == "red" && s.style.strokeWidth == strokeWidth
    ensures IsPolyline(s.d) && |s.d| == 6
    ensures var top := Point(centre.x, centre.y - borderSize.h / 2.0);
      Vertices(s.d) == [top] + BoxCorners(centre, borderSize) + [top]
  {
    var cx, cy, w, h := centre.x, centre.y, borderSize.w, borderSize.h;
    var line := [ MoveTo(Point(cx, cy - h / 2.0)),
                  LineTo(Point(cx + w / 2.0, cy - h / 2.0)),
                  LineTo(Point(cx + w / 2.0, cy + h / 2.0)),
                  LineTo(Point(cx - w / 2.0, cy + h / 2.0)),
                  LineTo(Point(cx - w / 2.0, cy - h / 2.0)),
                  LineTo(Point(cx, cy - h / 2.0)) ];
    VerticesOfOpenPath(line);
    Path(line, Outline("red", strokeWidth))
  }

  /** `create_border_with_text`: the title text, centred on the middle of
      the top edge, then the border polyline. The polyline starts `width`
      right of the title's insert point and ends `width` left of it, where
      `width` is the measured title width (`widthOf`, the font-metrics
      lookup), so the gap in the top edge is symmetric about the title. */
  function CreateBorderWithText(insert: Point, content: string, borderSize: Size, widthOf: string -> real,
                                strokeWidth: real := 1.0, fontSize: string := "3pt",
                                fontFamily: string := "Arial"): (items: seq<Shape>)
    ensures |items| == 2
    ensures items[0] == CreateText(Point(insert.x, insert.y - borderSize.h / 2.0), content, "red", strokeWidth,
                                   fontSize, fontFamily)
    ensures items[1].Path? && IsOutline(items[1]) && items[1].style.stroke == "red"
    ensures items[1].style.strokeWidth == strokeWidth
    ensures IsPolyline(items[1].d) && |items[1].d| == 6
    ensures var top, tl := insert.y - borderSize.h / 2.0, widthOf(content);
      Vertices(items[1].d) == [Point(insert.x + tl, top)] + BoxCorners(insert, borderSize) + [Point(insert.x - tl, top)]
    ensures var vs := Vertices(items[1].d);
      && vs[0].y == vs[5].y == items[0].insert.y
      && vs[0].x - items[0].insert.x == items[0].insert.x - vs[5].x
  {
    var x, y, w, h := insert.x, insert.y, borderSize.w, borderSize.h;
    var text := CreateText(Point(x, y - h / 2.0), content, "red", strokeWidth, fontSize, fontFamily);
    var titleLength := widthOf(content);
    var line := [ MoveTo(Point(x + titleLength, y - h / 2.0)),
                  LineTo(Point(x + w / 2.0, y - h / 2.0)),
                  LineTo(Point(x + w / 2.0, y + h / 2.0)),
                  LineTo(Point(x - w / 2.0, y + h / 2.0)),
                  LineTo(Point(x - w / 2.0, y - h / 2.0)),
                  LineTo(Point(x - titleLength, y - h / 2.0)) ];
    VerticesOfOpenPath(line);
    [text, Path(line, Outline("red", strokeWidth))]
  }

  /** For a box of non-negative size every vertex of the border lies on the
      boundary of that box. */
  lemma BorderOnBox(centre: Point, borderSize: Size, strokeWidth: real)
    requires borderSize.w >= 0.0 && borderSize.h >= 0.0
    ensures var vs := Vertices(CreateBorder(centre, borderSize, strokeWidth).d);
      forall i :: 0 <= i < |vs| ==> OnBoxBoundary(vs[i], CentredInsert(centre, borderSize), borderSize)
  {
  }

  /** When the title is no wider than half the box, the gap stays on the
      top edge: every vertex of the bordered outline lies on the boundary of
      the box. */
  lemma BorderWithTextOnBox(insert: Point, content: string, borderSize: Size, widthOf: string -> real,
                            strokeWidth: real, fontSize: string, fontFamily: string)
    requires borderSize.h >= 0.0
    requires 0.0 <= widthOf(content) <= borderSize.w / 2.0
    ensures var vs := Vertices(CreateBorderWithText(insert, content, borderSize, widthOf, strokeWidth,
                                                     fontSize, fontFamily)[1].d);
      forall i :: 0 <= i < |vs| ==> OnBoxBoundary(vs[i], CentredInsert(insert, borderSize), borderSize)
  {
  }

  /** A title of zero width leaves no gap: the outline is then exactly the
      plain border around the same box. */
  lemma BorderWithEmptyTitle(insert: Point, content: string, borderSize: Size, widthOf: string -> real,
                             strokeWidth: real, fontSize: string, fontFamily: string)
    requires widthOf(content) == 0.0
    ensures CreateBorderWithText(insert, content, borderSize, widthOf, strokeWidth, fontSize, fontFamily)[1].d
         == CreateBorder(insert, borderSize).d
  {
  }
}
