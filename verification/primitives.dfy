/** The shape constructors of laser_tools.py: outline circle, rectangle and
    text records, and the circular arc with its SVG elliptical-arc flags. */
module Primitives {
  import opened Shapes
  import opened Paths

  /** `create_circle`: an unfilled circle outline. */
  function CreateCircle(center: Point, radius: real, outline: string, strokeWidth: real := 1.0): (s: Shape)
    ensures s.Circle? && IsOutline(s)
    ensures s.center == center && s.r == radius
    ensures s.style.stroke == outline && s.style.strokeWidth == strokeWidth
  {
    Circle(center, radius, Outline(outline, strokeWidth))
  }

  /** `create_rectangle`: an unfilled rectangle outline with square corners. */
  function CreateRectangle(insert: Point, size: Size, outline: string, strokeWidth: real := 1.0): (s: Shape)
    ensures s.Rect? && IsOutline(s) && s.radii == None
    ensures s.insert == insert && s.size == size
    ensures s.style.stroke == outline && s.style.strokeWidth == strokeWidth
  {
    Rect(insert, size, None, Outline(outline, strokeWidth))
  }

  /** `create_text`: an unfilled text run, vertically centred on its insert
      point; a non-zero rotation turns it about the insert point. */
  function CreateText(insert: Point, content: string, outline: string, strokeWidth: real := 1.0,
                      fontSize: string := "3pt", fontFamily: string := "Arial",
                      anchor: Anchor := Middle, rotation: real := 0.0): (s: Shape)
    ensures s.Text? && IsOutline(s)
    ensures s.insert == insert && s.content == content && s.anchor == anchor
    ensures s.fontSize == fontSize && s.fontFamily == fontFamily && s.baseline == "middle"
    ensures s.style.stroke == outline && s.style.strokeWidth == strokeWidth
    ensures s.transform.Some? <==> rotation != 0.0
    ensures s.transform.Some? ==> s.transform.value == Rotation(rotation, insert)
  {
    var transform := if rotation != 0.0 then Some(Rotation(rotation, insert)) else None;
    Text(insert, content, fontSize, fontFamily, anchor, "middle", transform, Outline(outline, strokeWidth))
  }

  /** Python's `a % 360` on numbers: the residue with the divisor's sign,
      so never negative, and a whole number of turns away from `a`. */
  function Mod360(a: real): (m: real)
    ensures 0.0 <= m < 360.0
    ensures ((a - m) / 360.0).Floor as real * 360.0 == a - m
  {
    a - (a / 360.0).Floor as real * 360.0
  }

  /** The residue is the unique m in [0, 360) that differs from a by a
      whole number of turns. */
  lemma Mod360Unique(a: real, k: int, m: real)
    requires 0.0 <= m < 360.0
    requires a == k as real * 360.0 + m
    ensures Mod360(a) == m
  {
    assert a / 360.0 == k as real + m / 360.0;
    assert (a / 360.0).Floor == k;
  }

  /** Adding whole turns does not change the residue. */
  lemma Mod360Turns(a: real, k: int)
    ensures Mod360(a + k as real * 360.0) == Mod360(a)
  {
    var q := (a / 360.0).Floor;
    Mod360Unique(a + k as real * 360.0, q + k, Mod360(a));
  }

  /** Reversing a delta that is not a whole number of turns gives the
      complementary residue. */
  lemma Mod360Negate(a: real)
    requires Mod360(a) != 0.0
    ensures Mod360(-a) == 360.0 - Mod360(a)
  {
    var q := (a / 360.0).Floor;
    Mod360Unique(-a, -q - 1, 360.0 - Mod360(a));
  }

  /** The SVG large-arc flag `create_arc` emits for an arc drawn clockwise
      from `startAngle` to `endAngle` (degrees): set exactly when the ends
      are distinct directions and the clockwise arc back from `endAngle` to
      `startAngle` is less than half a turn. */
  function LargeArcFlag(startAngle: real, endAngle: real): (large: bool)
    ensures large <==> Mod360(endAngle - startAngle) != 0.0 && Mod360(startAngle - endAngle) < 180.0
  {
    var delta := endAngle - startAngle;
    if Mod360(delta) != 0.0 then
      Mod360Negate(delta);
      assert startAngle - endAngle == -delta;
      Mod360(delta) > 180.0
    else
      Mod360(delta) > 180.0
  }

  /** `create_arc`: a path that moves to the point at `startAngle` on the
      circle and draws one circular arc to the point at `endAngle`, always
      with sweep-flag 1 (clockwise on a y-down page) and x-axis-rotation 0;
      the large-arc flag is set exactly when the clockwise angular delta,
      taken in [0, 360), exceeds 180 degrees. */
  function CreateArc(center: Point, radius: real, startAngle: real, endAngle: real, dir: Direction,
                     outline: string, strokeWidth: real := 1.0): (s: Shape)
    ensures s.Path? && IsOutline(s)
    ensures s.style.stroke == outline && s.style.strokeWidth == strokeWidth
    ensures |s.d| == 2
    ensures s.d[0] == MoveTo(Along(center, radius, dir(startAngle)))
    ensures s.d[1].ArcTo? && s.d[1].rx == radius && s.d[1].ry == radius && s.d[1].rotation == 0.0
    ensures s.d[1].sweep
    ensures s.d[1].largeArc == LargeArcFlag(startAngle, endAngle)
    ensures s.d[1].to == Along(center, radius, dir(endAngle))
  {
    var start := Along(center, radius, dir(startAngle));
    var end := Along(center, radius, dir(endAngle));
    Path([MoveTo(start), ArcTo(radius, radius, 0.0, LargeArcFlag(startAngle, endAngle), true, end)], Outline(outline, strokeWidth))
  }

  /** For a delta already in [0, 360) the flag is just "more than half a turn". */
  lemma LargeArcOnPrincipalDelta(startAngle: real, endAngle: real)
    requires 0.0 <= endAngle - startAngle < 360.0
    ensures LargeArcFlag(startAngle, endAngle) <==> endAngle - startAngle > 180.0
  {
    Mod360Unique(endAngle - startAngle, 0, endAngle - startAngle);
  }

  /** The flag depends only on the directions of the two angles: whole
      turns added to either end do not change it. */
  lemma LargeArcTurns(startAngle: real, endAngle: real, i: int, j: int)
    ensures LargeArcFlag(startAngle + i as real * 360.0, endAngle + j as real * 360.0)
        == LargeArcFlag(startAngle, endAngle)
  {
    var a := endAngle - startAngle;
    assert (endAngle + j as real * 360.0) - (startAngle + i as real * 360.0) == a + (j - i) as real * 360.0;
    Mod360Turns(a, j - i);
  }

  /** The clockwise arcs start→end and end→start together make a full
      circle, so unless the ends coincide or are diametrically opposite
      exactly one of them is the large arc. */
  lemma LargeArcReversed(startAngle: real, endAngle: real)
    requires Mod360(endAngle - startAngle) != 0.0
    requires Mod360(endAngle - startAngle) != 180.0
    ensures LargeArcFlag(startAngle, endAngle) != LargeArcFlag(endAngle, startAngle)
  {
    Mod360Negate(endAngle - startAngle);
    assert startAngle - endAngle == -(endAngle - startAngle);
  }

  /** With a unit direction function both arc end points lie on the circle
      of the given radius about the centre. */
  lemma ArcEndpointsOnCircle(center: Point, radius: real, startAngle: real, endAngle: real, dir: Direction,
                             outline: string, strokeWidth: real)
    requires UnitVector(dir(startAngle)) && UnitVector(dir(endAngle))
    ensures var s := CreateArc(center, radius, startAngle, endAngle, dir, outline, strokeWidth);
      SqDist(s.d[0].to, center) == radius * radius && SqDist(s.d[1].to, center) == radius * radius
  {
    AlongDistance(center, radius, dir(startAngle));
    AlongDistance(center, radius, dir(endAngle));
  }

  /** The flags `create_arc` emits make SVG draw the arc about `center`:
      when `dir` behaves like (cos, sin), so that the sine of the clockwise
      delta is non-negative for deltas up to half a turn and non-positive
      from half a turn on, `center` is the centre SVG selects (SVG 1.1,
      appendix F.6.5) for the ArcTo from the start point to the end point. */
  lemma CreateArcCentred(center: Point, radius: real, startAngle: real, endAngle: real, dir: Direction,
                         outline: string, strokeWidth: real)
    requires UnitVector(dir(startAngle)) && UnitVector(dir(endAngle))
    requires Mod360(endAngle - startAngle) <= 180.0 ==> Det(dir(startAngle), dir(endAngle)) >= 0.0
    requires Mod360(endAngle - startAngle) >= 180.0 ==> Det(dir(startAngle), dir(endAngle)) <= 0.0
    ensures var s := CreateArc(center, radius, startAngle, endAngle, dir, outline, strokeWidth);
      IsArcCentre(s.d[0].to, s.d[1].to, radius, s.d[1].largeArc, s.d[1].sweep, center)
  {
    var u, v := dir(startAngle), dir(endAngle);
    var p, q := Along(center, radius, u), Along(center, radius, v);
    AlongDistance(center, radius, u);
    AlongDistance(center, radius, v);
    assert SqDist(center, p) == SqDist(p, center);
    assert SqDist(center, q) == SqDist(q, center);
    ChordSideOfCircle(center, radius, u, v);
    if LargeArcFlag(startAngle, endAngle) {
      MulNonPos(Square(radius), Det(u, v));
    } else {
      MulNonNeg(Square(radius), Det(u, v));
    }
  }

  /** For two points of the circle of radius r about c, the side of their
      chord that c lies on is the sign of the sine from the first direction
      to the second. */
  lemma ChordSideOfCircle(c: Point, r: real, u: Point, v: Point)
    ensures ChordSide(Along(c, r, u), Along(c, r, v), c) == Square(r) * Det(u, v)
  {
  }

  lemma MulNonNeg(a: real, b: real)
    requires a >= 0.0 && b >= 0.0
    ensures a * b >= 0.0
  {
  }

  lemma MulNonPos(a: real, b: real)
    requires a >= 0.0 && b <= 0.0
    ensures a * b <= 0.0
  {
  }
}
