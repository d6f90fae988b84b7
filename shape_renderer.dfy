/** The shape catalog: how a stall's shape kind and bounding box become the
    outline that is drawn, and how the two cut-corner kinds fold a resize
    into an absolute width and height. */
module ShapeRenderer {
  import opened Common
  import opened Nodes
  import opened StoreTypes

  datatype Point = Point(x: real, y: real)

  /** The rectangle a shape reports for hit-testing and for the handle. */
  datatype ClientRect = ClientRect(x: real, y: real, width: real, height: real)

  datatype Outline =
    | Box(width: real, height: real, cornerRadius: real)
    | CircleOutline(radius: real)
    | EllipseOutline(radiusX: real, radiusY: real)
    | RegularPolygon(sides: nat, radius: real)
      /** A closed path through `vertices`, in drawing order. */
    | CustomPath(vertices: seq<Point>, clientRect: ClientRect)

  /** What is drawn for one stall: its anchor, its fill and its outline. */
  datatype ShapeView = ShapeView(x: real, y: real, fill: string, outline: Outline)

  const RoundedCornerRadius: real := 15.0

  /** Length of the two edges cut off the corner of a custom shape:
      0.7 times the shorter side. */
  function CutSize(width: real, height: real): (c: real)
    ensures 0.0 <= width && 0.0 <= height ==> 0.0 <= c <= width && c <= height
    ensures 0.0 < width && 0.0 < height ==> 0.0 < c < width && c < height
  {
    Min(width, height) * 0.7
  }

  /** custom1: the box with its top-left corner cut off. The path starts at
      the cut point on the top edge and runs round to the cut point on the
      left edge. */
  function Custom1Outline(width: real, height: real): seq<Point> {
    var c := CutSize(width, height);
    [Point(c, 0.0), Point(width, 0.0), Point(width, height), Point(0.0, height), Point(0.0, c)]
  }

  /** custom2: the box with its top-right corner cut off. The path starts at
      the top-left corner. */
  function Custom2Outline(width: real, height: real): seq<Point> {
    var c := CutSize(width, height);
    [Point(0.0, 0.0), Point(width - c, 0.0), Point(width, c), Point(width, height), Point(0.0, height)]
  }

  /** The client rect both custom kinds report: the full box, whatever the cut. */
  function CustomClientRect(width: real, height: real): ClientRect {
    ClientRect(0.0, 0.0, width, height)
  }

  /** Number of sides of the regular-polygon kinds. */
  function PolygonSides(kind: ShapeType): nat {
    match kind
    case Hexagon => 6
    case Triangle => 3
    case Diamond => 4
    case _ => 0
  }

  predicate IsPolygonKind(kind: ShapeType) {
    kind == Hexagon || kind == Triangle || kind == Diamond
  }

  predicate IsCustomKind(kind: ShapeType) {
    kind == Custom1 || kind == Custom2
  }

  /** The outline drawn for each shape kind, from the stall's width and height. */
  function RenderShape(s: Store): (v: ShapeView)
    ensures v.x == s.x && v.y == s.y && v.fill == s.color
  {
    var w, h := s.width, s.height;
    var outline :=
      match s.shapeType
      case Custom1 => CustomPath(Custom1Outline(w, h), CustomClientRect(w, h))
      case Custom2 => CustomPath(Custom2Outline(w, h), CustomClientRect(w, h))
      case Circle => CircleOutline(Min(w, h) / 2.0)
      case Ellipse => EllipseOutline(w / 2.0, h / 2.0)
      case Hexagon => RegularPolygon(6, w / 2.0)
      case Triangle => RegularPolygon(3, w / 2.0)
      case Diamond => RegularPolygon(4, w / 2.0)
      case Rounded => Box(w, h, RoundedCornerRadius)
      case Rect => Box(w, h, 0.0);
    ShapeView(s.x, s.y, s.color, outline)
  }

  // ---------------------------------------------------------------------
  // Bounding box of a vertex list, as an independent reference for the
  // client rect.

  function MinX(ps: seq<Point>): (m: real)
    requires ps != []
    ensures forall i :: 0 <= i < |ps| ==> m <= ps[i].x
    ensures exists i :: 0 <= i < |ps| && m == ps[i].x
  {
    if |ps| == 1 then ps[0].x else Min(ps[0].x, MinX(ps[1..]))
  }

  function MaxX(ps: seq<Point>): (m: real)
    requires ps != []
    ensures forall i :: 0 <= i < |ps| ==> m >= ps[i].x
    ensures exists i :: 0 <= i < |ps| && m == ps[i].x
  {
    if |ps| == 1 then ps[0].x else Max(ps[0].x, MaxX(ps[1..]))
  }

  function MinY(ps: seq<Point>): (m: real)
    requires ps != []
    ensures forall i :: 0 <= i < |ps| ==> m <= ps[i].y
    ensures exists i :: 0 <= i < |ps| && m == ps[i].y
  {
    if |ps| == 1 then ps[0].y else Min(ps[0].y, MinY(ps[1..]))
  }

  function MaxY(ps: seq<Point>): (m: real)
    requires ps != []
    ensures forall i :: 0 <= i < |ps| ==> m >= ps[i].y
    ensures exists i :: 0 <= i < |ps| && m == ps[i].y
  {
    if |ps| == 1 then ps[0].y else Max(ps[0].y, MaxY(ps[1..]))
  }

  /** The smallest axis-aligned rectangle holding every point of `ps`. */
  function BoundingRect(ps: seq<Point>): ClientRect
    requires ps != []
  {
    ClientRect(MinX(ps), MinY(ps), MaxX(ps) - MinX(ps), MaxY(ps) - MinY(ps))
  }

  predicate InBox(p: Point, width: real, height: real) {
    0.0 <= p.x <= width && 0.0 <= p.y <= height
  }

  /** Twice the signed area enclosed by the closed path `ps` (shoelace formula). */
  function TwiceArea(ps: seq<Point>): real
    requires ps != []
  {
    OpenShoelace(ps) + Cross(ps[|ps| - 1], ps[0])
  }

  function Cross(p: Point, q: Point): real {
    p.x * q.y - q.x * p.y
  }

  /** The shoelace sum over the edges ps[i] -> ps[i+1], without the closing edge. */
  function OpenShoelace(ps: seq<Point>): real
    decreases |ps|
  {
    if |ps| <= 1 then 0.0 else Cross(ps[0], ps[1]) + OpenShoelace(ps[1..])
  }

  /** Reflection in the vertical centre line of a box of the given width. */
  function Mirror(p: Point, width: real): Point {
    Point(width - p.x, p.y)
  }

  // ---------------------------------------------------------------------
  // Properties of the catalog.

  /** A vertex list that stays inside the box and touches each of its four
      sides has the box as its bounding rectangle. */
  lemma TouchingOutlineBounds(ps: seq<Point>, w: real, h: real, left: nat, right: nat, top: nat, bottom: nat)
    requires forall i :: 0 <= i < |ps| ==> InBox(ps[i], w, h)
    requires left < |ps| && right < |ps| && top < |ps| && bottom < |ps|
    requires ps[left].x == 0.0 && ps[right].x == w && ps[top].y == 0.0 && ps[bottom].y == h
    ensures BoundingRect(ps) == ClientRect(0.0, 0.0, w, h)
  {
    assert MinX(ps) <= 0.0 && MaxX(ps) >= w && MinY(ps) <= 0.0 && MaxY(ps) >= h;
  }

  /** For a box of non-negative size, every vertex of either custom outline
      lies inside the box, and the reported client rect is exactly the
      bounding box of the vertices: the full box, whatever the cut. */
  lemma CustomOutlineFillsBox(s: Store)
    requires IsCustomKind(s.shapeType)
    requires 0.0 <= s.width && 0.0 <= s.height
    ensures RenderShape(s).outline.CustomPath?
    ensures forall p :: p in RenderShape(s).outline.vertices ==> InBox(p, s.width, s.height)
    ensures |RenderShape(s).outline.vertices| == 5
    ensures BoundingRect(RenderShape(s).outline.vertices) == RenderShape(s).outline.clientRect
    ensures RenderShape(s).outline.clientRect == ClientRect(0.0, 0.0, s.width, s.height)
  {
    var w, h := s.width, s.height;
    var c := CutSize(w, h);
    if s.shapeType == Custom1 {
      var ps := Custom1Outline(w, h);
      assert forall i :: 0 <= i < |ps| ==> InBox(ps[i], w, h);
      TouchingOutlineBounds(ps, w, h, 3, 1, 1, 3);
    } else {
      var ps := Custom2Outline(w, h);
      assert forall i :: 0 <= i < |ps| ==> InBox(ps[i], w, h);
      TouchingOutlineBounds(ps, w, h, 0, 2, 0, 3);
    }
  }

  /** For a box of positive size the cut is proper: the five vertices are
      pairwise distinct, so the outline is a true pentagon. */
  lemma CustomOutlineIsPentagon(s: Store)
    requires IsCustomKind(s.shapeType)
    requires 0.0 < s.width && 0.0 < s.height
    ensures RenderShape(s).outline.CustomPath?
    ensures var ps := RenderShape(s).outline.vertices;
      |ps| == 5 && forall i, j :: 0 <= i < j < 5 ==> ps[i] != ps[j]
  {
    var c := CutSize(s.width, s.height);
    assert 0.0 < c < s.width && c < s.height;
  }

  /** Both custom outlines enclose the box less a right triangle with legs of
      the cut size: twice their area is 2wh - c^2. */
  lemma CustomOutlineArea(s: Store)
    requires IsCustomKind(s.shapeType)
    ensures RenderShape(s).outline.CustomPath?
    ensures var c := CutSize(s.width, s.height);
      TwiceArea(RenderShape(s).outline.vertices) == 2.0 * s.width * s.height - c * c
  {
    var ps := RenderShape(s).outline.vertices;
    assert ps[1..][1..][1..][1..] == [ps[4]];
    assert OpenShoelace([ps[4]]) == 0.0;
    assert OpenShoelace(ps[1..][1..][1..]) == Cross(ps[3], ps[4]);
    assert OpenShoelace(ps[1..][1..]) == Cross(ps[2], ps[3]) + Cross(ps[3], ps[4]);
    assert OpenShoelace(ps[1..]) == Cross(ps[1], ps[2]) + Cross(ps[2], ps[3]) + Cross(ps[3], ps[4]);
  }

  /** custom2 is custom1 reflected left to right: a point is a vertex of the
      custom2 outline exactly when its mirror image is a vertex of custom1. */
  lemma Custom2MirrorsCustom1(w: real, h: real)
    ensures forall p :: p in Custom2Outline(w, h) <==> Mirror(p, w) in Custom1Outline(w, h)
  {
    var c := CutSize(w, h);
    forall p
      ensures p in Custom2Outline(w, h) <==> Mirror(p, w) in Custom1Outline(w, h)
    {
      if Mirror(p, w) in Custom1Outline(w, h) {
        assert p == Mirror(Mirror(p, w), w);
      }
    }
  }

  /** A circle takes the largest radius that fits the box: its diameter is
      the shorter side. An ellipse's diameters are the box's sides. */
  lemma RoundShapesFitBox(s: Store)
    requires s.shapeType == Circle || s.shapeType == Ellipse
    ensures s.shapeType == Circle ==>
      var o := RenderShape(s).outline;
      o.CircleOutline? && 2.0 * o.radius <= s.width && 2.0 * o.radius <= s.height &&
      (2.0 * o.radius == s.width || 2.0 * o.radius == s.height)
    ensures s.shapeType == Ellipse ==>
      var o := RenderShape(s).outline;
      o.EllipseOutline? && 2.0 * o.radiusX == s.width && 2.0 * o.radiusY == s.height
  {
  }

  /** Hexagon, triangle and diamond are regular polygons with 6, 3 and 4
      sides whose diameter is the stall's width; the height plays no part. */
  lemma PolygonsIgnoreHeight(s: Store, otherHeight: real)
    requires IsPolygonKind(s.shapeType)
    ensures RenderShape(s.(height := otherHeight)) == RenderShape(s)
    ensures var o := RenderShape(s).outline;
      o.RegularPolygon? && o.sides == PolygonSides(s.shapeType) && 2.0 * o.radius == s.width
    ensures PolygonSides(s.shapeType) >= 3
  {
  }

  /** `rounded` is the `rect` box with a corner radius of 15; everything else
      about the two outlines is the same. */
  lemma RoundedIsRectWithCorners(s: Store)
    ensures RenderShape(s.(shapeType := Rect)).outline == Box(s.width, s.height, 0.0)
    ensures RenderShape(s.(shapeType := Rounded)).outline
         == RenderShape(s.(shapeType := Rect)).outline.(cornerRadius := RoundedCornerRadius)
  {
  }

  // ---------------------------------------------------------------------
  // Transform end for the two custom kinds.

  /** The size a custom shape takes on transform end: the stall's size times
      the node's scale, each rounded to an integer. */
  function CustomRescaled(size: Size, scaleX: real, scaleY: real): Size {
    Size(Round(size.width * scaleX) as real, Round(size.height * scaleY) as real)
  }

  /** The rescaled size is within half a unit of the exact scaled size. */
  lemma CustomRescaledNear(size: Size, scaleX: real, scaleY: real)
    ensures var r := CustomRescaled(size, scaleX, scaleY);
      && size.width * scaleX - 0.5 < r.width <= size.width * scaleX + 0.5
      && size.height * scaleY - 0.5 < r.height <= size.height * scaleY + 0.5
  {
  }

  /** A size whose width and height are whole numbers. */
  predicate IsWholeSize(size: Size) {
    size.width.Floor as real == size.width && size.height.Floor as real == size.height
  }

  /** The rescaled size always has whole sides. */
  lemma CustomRescaledIsWhole(size: Size, scaleX: real, scaleY: real)
    ensures IsWholeSize(CustomRescaled(size, scaleX, scaleY))
  {
  }

  /** A transform end with no scaling leaves a whole size unchanged. */
  lemma WholeSizeIsFixed(size: Size)
    requires IsWholeSize(size)
    ensures CustomRescaled(size, 1.0, 1.0) == size
  {
    RoundOfInteger(size.width.Floor);
    RoundOfInteger(size.height.Floor);
  }

  /** Once a resize has been folded in, a further transform end with no
      scaling leaves the size where it is: the fold does not drift. */
  lemma CustomRescaleSettles(size: Size, scaleX: real, scaleY: real)
    ensures var r := CustomRescaled(size, scaleX, scaleY);
      CustomRescaled(r, 1.0, 1.0) == r
  {
    CustomRescaledIsWhole(size, scaleX, scaleY);
    WholeSizeIsFixed(CustomRescaled(size, scaleX, scaleY));
  }

  /** The transform-end handler of the custom kinds: set the node's width and
      height to the rounded, scaled size of the stall, reset its scale to 1,
      and only then call the outer handler, which sees the returned state. */
  method CustomTransformEnd(node: Node, s: Store) returns (seen: NodeState)
    modifies node
    ensures Size(node.width, node.height) == CustomRescaled(Size(s.width, s.height), old(node.scaleX), old(node.scaleY))
    ensures node.scaleX == 1.0 && node.scaleY == 1.0
    ensures seen == node.State()
    ensures DisplayedSize(seen) == CustomRescaled(Size(s.width, s.height), old(node.scaleX), old(node.scaleY))
  {
    var scaleX := node.scaleX;
    var scaleY := node.scaleY;
    var newSize := CustomRescaled(Size(s.width, s.height), scaleX, scaleY);
    node.width := newSize.width;
    node.height := newSize.height;
    node.scaleX := 1.0;
    node.scaleY := 1.0;
    seen := node.State();
  }
}
