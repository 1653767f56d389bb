/** Value types shared by every shape constructor of the laser-cutting utility:
    points in millimetres, presentation attributes, SVG path commands and the
    drawable shape records handed to the document. All of them are immutable. */
module Shapes {

  datatype Option<+T> = None | Some(value: T)

  /** A point, or a vector, in millimetres; y grows downwards as in SVG. */
  datatype Point = Point(x: real, y: real)

  /** `from + t·d`: the point reached by going a signed distance t along d. */
  function Along(from: Point, t: real, d: Point): Point
  {
    Point(from.x + t * d.x, from.y + t * d.y)
  }

  function Square(a: real): real
  {
    a * a
  }

  /** Squared Euclidean distance, so that no square root is needed. */
  function SqDist(p: Point, q: Point): real
  {
    (p.x - q.x) * (p.x - q.x) + (p.y - q.y) * (p.y - q.y)
  }

  /** `d` has length one, as `(cos θ, sin θ)` does. */
  predicate UnitVector(d: Point)
  {
    d.x * d.x + d.y * d.y == 1.0
  }

  /** Going t along a unit vector moves exactly distance |t|. */
  lemma AlongDistance(from: Point, t: real, d: Point)
    requires UnitVector(d)
    ensures SqDist(Along(from, t, d), from) == t * t
  {
    calc {
      SqDist(Along(from, t, d), from);
      (t * d.x) * (t * d.x) + (t * d.y) * (t * d.y);
      t * t * (d.x * d.x + d.y * d.y);
      t * t;
    }
  }

  /** Determinant of the vectors u and v: the sine of the angle from u to v
      when both are unit vectors, positive when v lies clockwise of u on a
      y-down page. */
  function Det(u: Point, v: Point): real
  {
    u.x * v.y - u.y * v.x
  }

  /** Maps an angle in degrees to its direction `(cos θ, sin θ)`.
      Trigonometry is not modelled: every operation that needs it takes
      the direction function as a parameter. */
  type Direction = real -> Point

  /** Overall (width, height) of a rectangle. */
  datatype Size = Size(w: real, h: real)

  /** Presentation attributes every shape carries. */
  datatype Style = Style(fill: string, stroke: string, strokeWidth: real)

  /** The only style the utility emits: an unfilled outline, because the
      drawing drives a cutting/engraving laser rather than a renderer. */
  function Outline(stroke: string, strokeWidth: real): Style
  {
    Style("none", stroke, strokeWidth)
  }

  /** p lies on the boundary of the axis-aligned box [x, x+w] × [y, y+h]
      whose top-left corner is `insert`. */
  predicate OnBoxBoundary(p: Point, insert: Point, size: Size)
  {
    && insert.x <= p.x <= insert.x + size.w
    && insert.y <= p.y <= insert.y + size.h
    && (p.x == insert.x || p.x == insert.x + size.w || p.y == insert.y || p.y == insert.y + size.h)
  }

  /** SVG `text-anchor`: where the insert point sits on the text run. */
  datatype Anchor = Start | Middle | End

  /** SVG `rotate(degrees, pivot.x, pivot.y)` transform. */
  datatype Rotation = Rotation(degrees: real, pivot: Point)

  /** Corner radii of an SVG `rect` (`rx`, `ry`). */
  datatype Radii = Radii(rx: real, ry: real)

  /** One command of an SVG path `d` attribute, absolute coordinates
      (SVG 1.1, section 8.3, "Path data"). `rotation` is the arc's
      x-axis-rotation in degrees. */
  datatype PathCmd =
    | MoveTo(to: Point)
    | LineTo(to: Point)
    | ArcTo(rx: real, ry: real, rotation: real, largeArc: bool, sweep: bool, to: Point)
    | Close

  /** A drawable element. `Rect.radii` is `None` for a plain `rect`;
      `Text.transform` is `None` when the text is not rotated. */
  datatype Shape =
    | Circle(center: Point, r: real, style: Style)
    | Rect(insert: Point, size: Size, radii: Option<Radii>, style: Style)
    | Text(insert: Point, content: string, fontSize: string, fontFamily: string,
           anchor: Anchor, baseline: string, transform: Option<Rotation>, style: Style)
    | Path(d: seq<PathCmd>, style: Style)

  /** The shape is an unfilled outline. */
  predicate IsOutline(s: Shape)
  {
    s.style.fill == "none"
  }
}
