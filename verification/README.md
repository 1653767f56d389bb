# Laser-cutting panel geometry, modelled in Dafny

This project models the pure geometry and path-building layer of the
laser-cutting utility `Laser_cutting_gen_utility/laser_tools.py`. That layer
turns shape requests into SVG shape records for multi-layer laser-cut panels:

- outline circles, rectangles and text runs;
- a circular arc with its SVG elliptical-arc flags;
- convex and concave (inward) rounded rectangles;
- radial ("rotory") label clusters with leader lines, in a "middle" and a
  "low" variant;
- border outlines, with or without a gap for a title.

Every operation is a pure function of its inputs. Coordinates are `real`
millimetres on a y-down page. Shapes are immutable datatypes
(`Shapes.Shape`). Path data is a sequence of structured commands
(`MoveTo`, `LineTo`, `ArcTo(rx, ry, rotation, largeArc, sweep, to)`, `Close`)
instead of a formatted `d` string. Two things come in as parameters:

- Trigonometry: a `Direction` function maps an angle in degrees to
  `(cos θ, sin θ)`. Lemmas that need it to be a unit vector say so in their
  `requires`.
- The font-metrics width of a text: a `widthOf: string -> real` function.

Files and modules:

- `shapes.dfy` (`Shapes`): points, styles, path commands and shape records.
- `paths.dfy` (`Paths`): the vertices of a path, segment counts, and the
  centre SVG chooses for a circular arc (SVG 1.1, appendix F.6.5).
- `primitives.dfy` (`Primitives`): `create_circle`, `create_rectangle`,
  `create_text` and `create_arc`, plus Python's `%` on angles.
- `rounded_rect.dfy` (`RoundedRect`): `create_rounded_rectangle`.
- `radial_labels.dfy` (`RadialLabels`): `rotory_labels_middle` and
  `rotory_labels_low`.
- `borders.dfy` (`Borders`): `create_border` and `create_border_with_text`.

The model follows the code as written. Some of this behaviour is easy to
misread:

- Label angles are never normalised. An angle of −90° gets anchor `start`,
  although it points the same way as 270°, which gets `middle`.
- In the low layout the underline starts 1 unit *behind* the text anchor:
  at `+1` for `end` and at `−1` for `start`.
- The title gap of `create_border_with_text` runs from `x − width` to
  `x + width` around a middle-anchored title. That is twice the title width.
- No operation checks its radii or sizes. Invalid values give degenerate
  geometry, not an error.
- The concave corner arcs use the literal tokens `1 0 0`: x-axis-rotation 1,
  large-arc 0, sweep 0. The comment above that code says large-arc 1 and
  rotation 0. `RoundedRect.ConcaveArcsCentredAtCorners` shows that the code's
  flags centre each arc on the box corner, which is the inward scoop the
  comment intends. `RoundedRect.CommentFlagsCentreInside` shows that the
  comment's flags would centre it on the far side of the chord.

## Model

| member | source | states |
|---|---|---|
| `Primitives.CreateCircle` | Laser_cutting_gen_utility/laser_tools.py:24-27 | an unfilled circle outline with the given centre, radius, stroke colour and stroke width |
| `Primitives.CreateRectangle` | Laser_cutting_gen_utility/laser_tools.py:29-32 | an unfilled rectangle outline at the given insert and size, with no corner radii |
| `Primitives.CreateText` | Laser_cutting_gen_utility/laser_tools.py:54-70 | an unfilled text run with baseline `middle`; it carries a rotation about its insert point exactly when the rotation is non-zero |
| `Primitives.CreateArc` | Laser_cutting_gen_utility/laser_tools.py:34-52 | one MoveTo to the start point on the circle, then one ArcTo with rx = ry = radius, rotation 0 and sweep 1 to the end point, carrying the large-arc flag of `LargeArcFlag` |
| `Primitives.CreateArcCentred` | Laser_cutting_gen_utility/laser_tools.py:34-50 | when the direction function behaves like (cos, sin), the emitted flags make SVG's centre selection put the arc's centre on `center`, so the path is the intended arc of the circle |
| `Primitives.Mod360` | Laser_cutting_gen_utility/laser_tools.py:43 | Python's `% 360` lies in [0, 360) and differs from its argument by a whole number of turns |
| `Primitives.LargeArcFlag` | Laser_cutting_gen_utility/laser_tools.py:43-44 | the flag is set exactly when the two ends are distinct directions and the clockwise arc back from end to start is under half a turn |
| `Primitives.Mod360Unique` | Laser_cutting_gen_utility/laser_tools.py:43 | Python's `% 360` gives the unique residue in [0, 360) that differs from the delta by whole turns |
| `Primitives.LargeArcOnPrincipalDelta` | Laser_cutting_gen_utility/laser_tools.py:43-44 | when the delta is already in [0, 360), the large-arc flag means exactly "delta > 180" |
| `Primitives.LargeArcTurns` | Laser_cutting_gen_utility/laser_tools.py:43-44 | adding whole turns to either angle leaves the large-arc flag unchanged |
| `Primitives.LargeArcReversed` | Laser_cutting_gen_utility/laser_tools.py:43-45 | unless the ends coincide or are opposite, exactly one of the clockwise arcs start→end and end→start is the large arc |
| `Primitives.ArcEndpointsOnCircle` | Laser_cutting_gen_utility/laser_tools.py:35-41 | with a unit direction function, both arc end points lie at distance `radius` from the centre |
| `RoundedRect.CreateRoundedRectangle` | Laser_cutting_gen_utility/laser_tools.py:73-133 | not inward: a `rect` with rx = ry = r and no path; inward: a closed contour from (x+r, y) with exactly 4 lines and 4 arcs, equal to the reference corner walk |
| `RoundedRect.ConcavePath` | Laser_cutting_gen_utility/laser_tools.py:122-132 | the literal inward `d` string: ten commands from (x+r, y), closed back to the start, edges and arcs alternating, every arc with rx = ry = r and the tokens `1 0 0` |
| `RoundedRect.ConcavePathIsCornerWalk` | Laser_cutting_gen_utility/laser_tools.py:122-132 | the inward path is MoveTo, then edge/arc pairs for the corners top-right, bottom-right, bottom-left, top-left (arcs rx = ry = r with tokens 1 0 0), then Close |
| `RoundedRect.ConcaveSegmentCounts` | Laser_cutting_gen_utility/laser_tools.py:122-132 | the inward path is a closed contour (its last arc ends at the start point) with 4 LineTo and 4 ArcTo commands |
| `RoundedRect.ConcaveArcsJoinCornerEdges` | Laser_cutting_gen_utility/laser_tools.py:123-131 | arc k runs from the point r before corner k to the point r past it, both at distance r from the corner, and the edge before it ends at its start |
| `RoundedRect.ConcaveArcsCentredAtCorners` | Laser_cutting_gen_utility/laser_tools.py:125-131 | under SVG's centre selection, the emitted flags (large-arc 0, sweep 0) put every corner arc's centre on the box corner |
| `RoundedRect.CommentFlagsCentreInside` | Laser_cutting_gen_utility/laser_tools.py:112-118 | the flags the comment describes (large-arc 1, sweep 0) would centre the arc r inside the corner, on the opposite side of the chord |
| `RoundedRect.ConcaveVerticesOnBoundary` | Laser_cutting_gen_utility/laser_tools.py:122-132 | when 0 ≤ r ≤ w and r ≤ h, all 9 vertices of the inward path lie on the boundary of [x, x+w] × [y, y+h] |
| `RoundedRect.ConcaveZeroRadius` | Laser_cutting_gen_utility/laser_tools.py:122-132 | with r = 0 every edge ends on a box corner and every arc has zero length, so the contour is the plain rectangle |
| `RoundedRect.ConvexZeroRadius` | Laser_cutting_gen_utility/laser_tools.py:96-106 | with r = 0 the convex shape is `create_rectangle`'s rectangle, except that it states rx = ry = 0 |
| `RadialLabels.MiddleAnchor` | Laser_cutting_gen_utility/laser_tools.py:152-158 | the middle layout's three-way split: `middle` exactly at 90 and 270, `end` exactly strictly between them, `start` everywhere else |
| `RadialLabels.LowAnchor` | Laser_cutting_gen_utility/laser_tools.py:193-200 | the low layout's two-way split never yields `middle`, and it yields `end` exactly when the middle layout does |
| `RadialLabels.MiddleAnchorOnPrincipalRange` | Laser_cutting_gen_utility/laser_tools.py:152-158 | on [0, 360), the middle layout's three-way anchor split equals the classification of the normalised angle |
| `RadialLabels.MiddleAnchorNotNormalised` | Laser_cutting_gen_utility/laser_tools.py:149-158 | angles outside [0, 360) are not normalised: −90 and 450 get `start`, although their directions get `middle` |
| `RadialLabels.MiddleAnchorDiffersFromNormalised` | Laser_cutting_gen_utility/laser_tools.py:149-158 | the anchor differs from the one of the angle reduced into [0, 360) if and only if the angle is outside [0, 360) and its direction does not get `start` |
| `RadialLabels.MiddleAnchorMirror` | Laser_cutting_gen_utility/laser_tools.py:152-158 | reflecting an angle in [0, 360) about the vertical axis swaps `start` and `end` and keeps `middle` |
| `RadialLabels.MiddleLeader` | Laser_cutting_gen_utility/laser_tools.py:172-175 | a MoveTo to the point hole_radius along the direction from the centre, then one LineTo reached from it by going line_length − hole_radius further along the direction; both ends on the line through the centre in that direction |
| `RadialLabels.MiddleLeaderRadial` | Laser_cutting_gen_utility/laser_tools.py:166-175 | with a unit direction, the leader starts on the hole's circumference, ends at line_length from the centre, and is line_length − hole_radius long |
| `RadialLabels.MiddleLeaderOnRay` | Laser_cutting_gen_utility/laser_tools.py:162-175 | both leader ends and the text anchor lie on the line through the centre in the label's direction |
| `RadialLabels.MiddleLeaderOutward` | Laser_cutting_gen_utility/laser_tools.py:162-175 | with a unit direction, the leader ends and the text anchor sit at signed distances hole_radius, line_length and padding along it, so non-negative values put them on the label's ray |
| `RadialLabels.LowLeader` | Laser_cutting_gen_utility/laser_tools.py:195-216 | three points: the hole edge, then a horizontal underline 2 below the text anchor from x + 1 (`end`) or x − 1 (`start`) to x − width or x + width, so it starts 1 behind the anchor and runs width + 1 in the text's growth direction |
| `RadialLabels.RotaryLabelsMiddle` | Laser_cutting_gen_utility/laser_tools.py:142-178 | fails iff an angle is missing; otherwise 1 + 2n outline items: the black 0.5 hole circle, then for each label its text at padding·dir(θ) with the three-way anchor and its radial leader |
| `RadialLabels.RotaryLabelsLow` | Laser_cutting_gen_utility/laser_tools.py:183-219 | fails iff an angle is missing; otherwise 1 + 2n outline items: the hole circle, then for each label its text with the two-way anchor and its three-point underline leader of the measured width |
| `Borders.CreateBorder` | Laser_cutting_gen_utility/laser_tools.py:237-246 | a 6-point polyline from the top-centre through the corners top-right, bottom-right, bottom-left, top-left and back to the top-centre |
| `Borders.CreateBorderWithText` | Laser_cutting_gen_utility/laser_tools.py:222-235 | a title centred on the top-centre, then a 6-point polyline from (x + width, top) round the box corners to (x − width, top): a gap symmetric about the title |
| `Borders.BorderOnBox` | Laser_cutting_gen_utility/laser_tools.py:237-246 | for a non-negative size, every border vertex lies on the boundary of the box |
| `Borders.BorderWithTextOnBox` | Laser_cutting_gen_utility/laser_tools.py:222-234 | when 0 ≤ width ≤ w/2, every vertex of the titled border lies on the boundary of the box |
| `Borders.BorderWithEmptyTitle` | Laser_cutting_gen_utility/laser_tools.py:222-246 | a title of zero width leaves no gap: the outline equals `create_border` around the same box |

## Left out

- `setup` and `img.save()` (laser_tools.py:11-20, 320): creating the svgwrite
  document, its viewbox, the white background and writing the file are I/O
  and library plumbing.
- `get_text_width` (laser_tools.py:136-139): this loads a PIL font and
  measures a bounding box, which is a foreign call. The measured width is a
  parameter (`widthOf`).
- Trigonometry and the degree-to-radian conversion (laser_tools.py:36-41,
  150, 163-168, 173, 190, 204-205, 213): these are passed in as a `Direction`
  function. The code compares float radians exactly with `0.5*pi` and
  `1.5*pi` (laser_tools.py:153, 155, 193). The model compares exact degrees
  with 90 and 270. Float rounding is not modelled.
- Float-to-string formatting of the `d` attribute and of `rect` attributes:
  paths are structured commands. Attributes the code passes as strings, such
  as stroke widths and radii, are modelled as numbers.
- `add_switch` and `add_backlight_text` (laser_tools.py:251-277): the first
  is a document-mutating helper whose text and backlight shapes are built
  and then dropped. The second is an empty stub.
- The `__main__` block (laser_tools.py:283-320) and
  `Laser_cutting_gen_utility/example_panel.py`: these are fixed call-site
  coordinates for one panel design, with no algorithm.
- Input validation: the code accepts any radius or size, and so does the
  model; nothing raises on degenerate geometry.
- `RoundedRect.CommentFlagsCentreInside` shows that the comment's flags put
  the centre on the far side of the chord, at a point other than the corner.
  It does not prove that the corner fails SVG's centre test for those flags,
  because that step needs r² > 0 for r ≠ 0, which this project does not
  prove.
