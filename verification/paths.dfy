/** Facts about sequences of path commands: the vertices a path visits, how
    many straight and arc segments it has, and the centre SVG picks for a
    circular arc. */
module Paths {
  import opened Shapes

  /** The points a path visits in order: the end point of every command.
      `Close` draws back to the subpath start and adds no new point. */
  function Vertices(d: seq<PathCmd>): (vs: seq<Point>)
    ensures |vs| <= |d|
    ensures (forall i :: 0 <= i < |d| ==> !d[i].Close?) ==> |vs| == |d|
  {
    if d == [] then []
    else (if d[0].Close? then [] else [d[0].to]) + Vertices(d[1..])
  }

  /** Number of straight `LineTo` segments. */
  function NumLines(d: seq<PathCmd>): (n: nat)
    ensures n <= |d|
  {
    if d == [] then 0 else (if d[0].LineTo? then 1 else 0) + NumLines(d[1..])
  }

  /** Number of `ArcTo` segments. */
  function NumArcs(d: seq<PathCmd>): (n: nat)
    ensures n <= |d|
  {
    if d == [] then 0 else (if d[0].ArcTo? then 1 else 0) + NumArcs(d[1..])
  }

  /** An open polyline: one `MoveTo` followed only by `LineTo`s. */
  predicate IsPolyline(d: seq<PathCmd>)
  {
    |d| >= 1 && d[0].MoveTo? && forall i :: 1 <= i < |d| ==> d[i].LineTo?
  }

  /** A closed contour: it starts with `MoveTo`, ends with `Close`, and its
      last drawn segment already ends back at the start point. */
  predicate IsClosedContour(d: seq<PathCmd>)
  {
    && |d| >= 2
    && d[0].MoveTo?
    && d[|d| - 1].Close?
    && !d[|d| - 2].Close?
    && d[|d| - 2].to == d[0].to
  }

  lemma {:induction false} VerticesAppend(a: seq<PathCmd>, b: seq<PathCmd>)
    ensures Vertices(a + b) == Vertices(a) + Vertices(b)
    decreases |a|
  {
    if a == [] {
      assert a + b == b;
    } else {
      assert (a + b)[1..] == a[1..] + b;
      VerticesAppend(a[1..], b);
    }
  }

  lemma {:induction false} NumLinesAppend(a: seq<PathCmd>, b: seq<PathCmd>)
    ensures NumLines(a + b) == NumLines(a) + NumLines(b)
    decreases |a|
  {
    if a == [] {
      assert a + b == b;
    } else {
      assert (a + b)[1..] == a[1..] + b;
      NumLinesAppend(a[1..], b);
    }
  }

  lemma {:induction false} NumArcsAppend(a: seq<PathCmd>, b: seq<PathCmd>)
    ensures NumArcs(a + b) == NumArcs(a) + NumArcs(b)
    decreases |a|
  {
    if a == [] {
      assert a + b == b;
    } else {
      assert (a + b)[1..] == a[1..] + b;
      NumArcsAppend(a[1..], b);
    }
  }

  /** A path without `Close` visits exactly the end points of its commands,
      one per command, in order. */
  lemma {:induction false} VerticesOfOpenPath(d: seq<PathCmd>)
    requires forall i :: 0 <= i < |d| ==> !d[i].Close?
    ensures |Vertices(d)| == |d|
    ensures forall i :: 0 <= i < |d| ==> Vertices(d)[i] == d[i].to
    decreases |d|
  {
    if d != [] {
      VerticesOfOpenPath(d[1..]);
    }
  }

  /** Centre selection of SVG 1.1, appendix F.6.5 ("Conversion from endpoint
      to center parameterization"), for a circular arc (rx = ry = r) drawn
      from p to q: the centre c is at distance r from both ends and lies on
      the side of the chord chosen by the flags (the F.6.5 sign is + when
      large-arc differs from sweep and − when they are equal). When rx = ry
      the x-axis-rotation is a rigid rotation of the circle about itself and
      does not move the centre. */
  predicate IsArcCentre(p: Point, q: Point, r: real, largeArc: bool, sweep: bool, c: Point)
  {
    && SqDist(c, p) == r * r
    && SqDist(c, q) == r * r
    && (if largeArc != sweep then ChordSide(p, q, c) >= 0.0 else ChordSide(p, q, c) <= 0.0)
  }

  /** Which side of the chord p→q the point c is on: the offset of c from
      the chord's midpoint projected onto the chord turned a quarter turn. */
  function ChordSide(p: Point, q: Point, c: Point): real
  {
    (c.x - (p.x + q.x) / 2.0) * (p.y - q.y) - (c.y - (p.y + q.y) / 2.0) * (p.x - q.x)
  }
}
