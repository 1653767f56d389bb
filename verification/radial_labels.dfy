/** The radial ("rotory") label layouts of laser_tools.py: a hole circle
    with labels placed around it at given angles, each joined to the hole
    by a leader line. The "middle" layout draws a straight radial leader;
    the "low" layout draws a leader that ends in an underline as wide as
    the label text. Angles are in degrees, measured clockwise from the
    positive x-axis on a y-down page, and are never normalised. */
module RadialLabels {
  import opened Shapes
  import opened Primitives

  /** The source indexes the angle list by the label's position; a list
      shorter than the label list fails there with an index error. */
  datatype LayoutError = MissingAngle(index: nat)

  datatype Result<+T> = Ok(value: T) | Err(error: LayoutError)

  /** Text-anchor mode of the middle layout: directly above or below the
      hole the text is centred, on the left half it grows leftwards (anchor
      at its right end), otherwise it grows rightwards. */
  function MiddleAnchor(deg: real): (a: Anchor)
    ensures a == Middle <==> deg == 90.0 || deg == 270.0
    ensures a == End <==> 90.0 < deg < 270.0
    ensures a == Start <==> deg < 90.0 || 270.0 < deg
  {
    if deg == 90.0 || deg == 270.0 then Middle
    else if 90.0 < deg < 270.0 then End
    else Start
  }

  /** Text-anchor mode of the low layout: the same left half, but the two
      vertical directions count as right. */
  function LowAnchor(deg: real): (a: Anchor)
    ensures a != Middle
    ensures a == End <==> MiddleAnchor(deg) == End
  {
    if 90.0 < deg < 270.0 then End else Start
  }

  /** Reference classification with the angle first reduced into [0, 360),
      so that every direction gets one anchor however many turns its angle
      includes. */
  function NormalisedAnchor(deg: real): Anchor
  {
    MiddleAnchor(Mod360(deg))
  }

  /** Swaps left and right, as a mirror about the vertical axis does. */
  function Mirrored(a: Anchor): Anchor
  {
    match a
    case Start => End
    case End => Start
    case Middle => Middle
  }

  /** On the principal range [0, 360) the middle layout's anchor is the
      reference classification. */
  lemma MiddleAnchorOnPrincipalRange(deg: real)
    requires 0.0 <= deg < 360.0
    ensures MiddleAnchor(deg) == NormalisedAnchor(deg)
  {
    Mod360Unique(deg, 0, deg);
  }

  /** The reference classification depends only on the direction. */
  lemma NormalisedAnchorTurns(deg: real, k: int)
    ensures NormalisedAnchor(deg + k as real * 360.0) == NormalisedAnchor(deg)
  {
    Mod360Turns(deg, k);
  }

  /** The middle layout does not normalise: -90 degrees points straight up,
      the same direction as 270, yet gets `Start` rather than `Middle`, and
      450 points straight down like 90 yet gets `Start`. */
  lemma MiddleAnchorNotNormalised()
    ensures MiddleAnchor(-90.0) == Start && NormalisedAnchor(-90.0) == Middle
    ensures MiddleAnchor(450.0) == Start && NormalisedAnchor(450.0) == Middle
  {
    Mod360Unique(-90.0, -1, 270.0);
    Mod360Unique(450.0, 1, 90.0);
  }

  /** Exactly where the missing normalisation matters: the middle layout's
      anchor differs from the reference classification if and only if the
      angle lies outside [0, 360) and its direction is vertical or points
      into the left half. */
  lemma MiddleAnchorDiffersFromNormalised(deg: real)
    ensures MiddleAnchor(deg) != NormalisedAnchor(deg)
        <==> (deg < 0.0 || deg >= 360.0) && NormalisedAnchor(deg) != Start
  {
    if 0.0 <= deg < 360.0 {
      MiddleAnchorOnPrincipalRange(deg);
    }
  }

  /** Reflecting a label direction about the vertical axis (θ ↦ 180 − θ,
      reduced into [0, 360)) swaps `Start` and `End` and keeps `Middle`:
      the three-way split is left/right symmetric. */
  lemma MiddleAnchorMirror(deg: real)
    requires 0.0 <= deg < 360.0
    ensures MiddleAnchor(Mod360(180.0 - deg)) == Mirrored(MiddleAnchor(deg))
  {
    if deg <= 180.0 {
      Mod360Unique(180.0 - deg, 0, 180.0 - deg);
    } else {
      Mod360Unique(180.0 - deg, -1, 540.0 - deg);
    }
  }

  /** Leader of the middle layout: one radial segment from the edge of the
      hole to `lineLength` along the label direction. */
  function MiddleLeader(centre: Point, holeRadius: real, lineLength: real, d: Point): (l: seq<PathCmd>)
    ensures |l| == 2 && l[0].MoveTo? && l[1].LineTo?
    ensures l[0].to == Along(centre, holeRadius, d)
    ensures Cross(l[0].to, centre, d) == 0.0 && Cross(l[1].to, centre, d) == 0.0
    ensures l[1].to == Along(l[0].to, lineLength - holeRadius, d)
  {
    [MoveTo(Along(centre, holeRadius, d)), LineTo(Along(centre, lineLength, d))]
  }

  /** With a unit direction the leader starts on the hole's circumference,
      ends at distance `lineLength` from the centre, and is
      `lineLength − holeRadius` long. */
  lemma MiddleLeaderRadial(centre: Point, holeRadius: real, lineLength: real, d: Point)
    requires UnitVector(d)
    ensures var l := MiddleLeader(centre, holeRadius, lineLength, d);
      && SqDist(l[0].to, centre) == holeRadius * holeRadius
      && SqDist(l[1].to, centre) == lineLength * lineLength
      && SqDist(l[1].to, l[0].to) == (lineLength - holeRadius) * (lineLength - holeRadius)
  {
    var start := Along(centre, holeRadius, d);
    AlongDistance(centre, holeRadius, d);
    AlongDistance(centre, lineLength, d);
    assert Along(start, lineLength - holeRadius, d) == Along(centre, lineLength, d);
    AlongDistance(start, lineLength - holeRadius, d);
  }

  /** Both ends of the leader, and the text anchor, lie on the line through
      the centre in the label's direction: their offsets from the centre have
      zero cross product with the direction. */
  lemma MiddleLeaderOnRay(centre: Point, holeRadius: real, lineLength: real, padding: real, d: Point)
    ensures var l := MiddleLeader(centre, holeRadius, lineLength, d);
      && Cross(l[0].to, centre, d) == 0.0 && Cross(l[1].to, centre, d) == 0.0
      && Cross(Along(centre, padding, d), centre, d) == 0.0
  {
  }

  /** With a unit direction, the leader's ends and the text anchor sit at
      signed distances `holeRadius`, `lineLength` and `padding` along the
      direction; so for non-negative values they lie on the label's ray, on
      the side the direction points to, in that order when
      holeRadius ≤ padding ≤ lineLength. */
  lemma MiddleLeaderOutward(centre: Point, holeRadius: real, lineLength: real, padding: real, d: Point)
    requires UnitVector(d)
    ensures var l := MiddleLeader(centre, holeRadius, lineLength, d);
      && Dot(l[0].to, centre, d) == holeRadius
      && Dot(l[1].to, centre, d) == lineLength
      && Dot(Along(centre, padding, d), centre, d) == padding
  {
    AlongProjection(centre, holeRadius, d);
    AlongProjection(centre, lineLength, d);
    AlongProjection(centre, padding, d);
  }

  /** Going t along a unit vector d projects onto d as exactly t. */
  lemma AlongProjection(o: Point, t: real, d: Point)
    requires UnitVector(d)
    ensures Dot(Along(o, t, d), o, d) == t
  {
    calc {
      Dot(Along(o, t, d), o, d);
      (t * d.x) * d.x + (t * d.y) * d.y;
      t * (d.x * d.x + d.y * d.y);
    }
  }

  /** Dot product of (p − o) with d: the signed distance of p from o along
      a unit vector d. */
  function Dot(p: Point, o: Point, d: Point): real
  {
    (p.x - o.x) * d.x + (p.y - o.y) * d.y
  }

  /** Cross product of (p − o) with d: zero exactly when p is on the line
      through o with direction d. */
  function Cross(p: Point, o: Point, d: Point): real
  {
    (p.x - o.x) * d.y - (p.y - o.y) * d.x
  }

  /** Leader of the low layout: from the hole edge to a point 2 below the
      text anchor and 1 behind it (against the text's growth direction),
      then horizontally to `width` past the anchor. The underline is
      horizontal, 2 below the anchor, and for a non-negative width runs in
      the growth direction (leftwards for `End`, rightwards otherwise) over
      width + 1. */
  function LowLeader(centre: Point, holeRadius: real, textPos: Point, anchor: Anchor, width: real, d: Point)
    : (l: seq<PathCmd>)
    ensures |l| == 3 && l[0] == MoveTo(Along(centre, holeRadius, d)) && l[1].LineTo? && l[2].LineTo?
    ensures l[1].to.y == l[2].to.y == textPos.y + 2.0
    ensures l[1].to.x == textPos.x + (if anchor == End then 1.0 else -1.0)
    ensures l[2].to.x == textPos.x + (if anchor == End then -width else width)
    ensures width >= 0.0 && anchor == End ==> l[1].to.x - l[2].to.x == width + 1.0 && l[2].to.x <= textPos.x
    ensures width >= 0.0 && anchor != End ==> l[2].to.x - l[1].to.x == width + 1.0 && l[2].to.x >= textPos.x
  {
    var growth := if anchor == End then -1.0 else 1.0;
    [ MoveTo(Along(centre, holeRadius, d)),
      LineTo(Point(textPos.x - growth, textPos.y + 2.0)),
      LineTo(Point(textPos.x + growth * width, textPos.y + 2.0)) ]
  }

  /** `rotory_labels_middle`: the hole circle, then for each label its text
      at `padding` along the label direction with the middle layout's
      anchor, and its radial leader; fails when an angle is missing. */
  method RotaryLabelsMiddle(centre: Point, holeRadius: real, labels: seq<string>, angles: seq<real>,
                            labelSize: string, padding: real, lineLength: real, strokeWidth: real,
                            dir: Direction)
    returns (res: Result<seq<Shape>>)
    ensures res.Err? <==> |angles| < |labels|
    ensures res.Err? ==> res.error == MissingAngle(|angles|)
    ensures res.Ok? ==> |res.value| == 1 + 2 * |labels|
    ensures res.Ok? ==> res.value[0] == CreateCircle(centre, holeRadius, "black", 0.5)
    ensures res.Ok? ==> forall i :: 0 <= i < |labels| ==>
      res.value[1 + 2 * i] == CreateText(Along(centre, padding, dir(angles[i])), labels[i], "red", strokeWidth,
                                         labelSize, "Arial", MiddleAnchor(angles[i]))
    ensures res.Ok? ==> forall i :: 0 <= i < |labels| ==>
      res.value[2 + 2 * i] == Path(MiddleLeader(centre, holeRadius, lineLength, dir(angles[i])),
                                   Outline("red", strokeWidth))
    ensures res.Ok? ==> forall s :: s in res.value ==> IsOutline(s)
  {
    var items := [CreateCircle(centre, holeRadius, "black", 0.5)];
    var index := 0;
    while index < |labels|
      invariant index <= |labels| && index <= |angles|
      invariant |items| == 1 + 2 * index
      invariant items[0] == CreateCircle(centre, holeRadius, "black", 0.5)
      invariant forall i :: 0 <= i < index ==>
        items[1 + 2 * i] == CreateText(Along(centre, padding, dir(angles[i])), labels[i], "red", strokeWidth,
                                       labelSize, "Arial", MiddleAnchor(angles[i]))
      invariant forall i :: 0 <= i < index ==>
        items[2 + 2 * i] == Path(MiddleLeader(centre, holeRadius, lineLength, dir(angles[i])),
                                 Outline("red", strokeWidth))
      invariant forall s :: s in items ==> IsOutline(s)
    {
      if index >= |angles| {
        return Err(MissingAngle(index));
      }
      var deg := angles[index];
      var textDirection := if deg == 90.0 || deg == 270.0 then Middle
                           else if deg > 90.0 && deg < 270.0 then End
                           else Start;
      var textPos := Along(centre, padding, dir(deg));
      var linePos := Along(centre, lineLength, dir(deg));
      var text := CreateText(textPos, labels[index], "red", strokeWidth, labelSize, "Arial", textDirection);
      var visualLine := [MoveTo(Along(centre, holeRadius, dir(deg))), LineTo(linePos)];
      items := items + [text, Path(visualLine, Outline("red", strokeWidth))];
      index := index + 1;
    }
    return Ok(items);
  }

  /** `rotory_labels_low`: the hole circle, then for each label its text at
      `padding` along the label direction with the low layout's anchor, and
      a leader that ends in an underline as long as the measured width of
      the label (`widthOf`, the font-metrics lookup); fails when an angle is
      missing. */
  method RotaryLabelsLow(centre: Point, holeRadius: real, labels: seq<string>, angles: seq<real>,
                         labelSize: string, padding: real, strokeWidth: real,
                         dir: Direction, widthOf: string -> real)
    returns (res: Result<seq<Shape>>)
    ensures res.Err? <==> |angles| < |labels|
    ensures res.Err? ==> res.error == MissingAngle(|angles|)
    ensures res.Ok? ==> |res.value| == 1 + 2 * |labels|
    ensures res.Ok? ==> res.value[0] == CreateCircle(centre, holeRadius, "black", 0.5)
    ensures res.Ok? ==> forall i :: 0 <= i < |labels| ==>
      res.value[1 + 2 * i] == CreateText(Along(centre, padding, dir(angles[i])), labels[i], "red", strokeWidth,
                                         labelSize, "Arial", LowAnchor(angles[i]))
    ensures res.Ok? ==> forall i :: 0 <= i < |labels| ==>
      res.value[2 + 2 * i] == Path(LowLeader(centre, holeRadius, Along(centre, padding, dir(angles[i])),
                                             LowAnchor(angles[i]), widthOf(labels[i]), dir(angles[i])),
                                   Outline("red", strokeWidth))
    ensures res.Ok? ==> forall s :: s in res.value ==> IsOutline(s)
  {
    var items := [CreateCircle(centre, holeRadius, "black", 0.5)];
    var index := 0;
    while index < |labels|
      invariant index <= |labels| && index <= |angles|
      invariant |items| == 1 + 2 * index
      invariant items[0] == CreateCircle(centre, holeRadius, "black", 0.5)
      invariant forall i :: 0 <= i < index ==>
        items[1 + 2 * i] == CreateText(Along(centre, padding, dir(angles[i])), labels[i], "red", strokeWidth,
                                       labelSize, "Arial", LowAnchor(angles[i]))
      invariant forall i :: 0 <= i < index ==>
        items[2 + 2 * i] == Path(LowLeader(centre, holeRadius, Along(centre, padding, dir(angles[i])),
                                           LowAnchor(angles[i]), widthOf(labels[i]), dir(angles[i])),
                                 Outline("red", strokeWidth))
      invariant forall s :: s in items ==> IsOutline(s)
    {
      if index >= |angles| {
        return Err(MissingAngle(index));
      }
      var deg := angles[index];
      var textDirection, lineOffset, lineDirection;
      if deg > 90.0 && deg < 270.0 {
        textDirection, lineOffset, lineDirection := End, Point(1.0, 2.0), -1.0;
      } else {
        textDirection, lineOffset, lineDirection := Start, Point(-1.0, 2.0), 1.0;
      }
      var textPos := Along(centre, padding, dir(deg));
      var text := CreateText(textPos, labels[index], "red", strokeWidth, labelSize, "Arial", textDirection);
      var lineLength := widthOf(labels[index]) * lineDirection;
      var visualLine := [ MoveTo(Along(centre, holeRadius, dir(deg))),
                          LineTo(Point(textPos.x + lineOffset.x, textPos.y + lineOffset.y)),
                          LineTo(Point(textPos.x + lineLength, textPos.y + lineOffset.y)) ];
      items := items + [text, Path(visualLine, Outline("red", strokeWidth))];
      index := index + 1;
    }
    return Ok(items);
  }
}
