/** Plane geometry of the diagram: points, the four sides of a module's
    rectangle, and where on a side a port and its marker sit.
    Qt's `qreal` coordinates are modelled as exact reals. */
module Geometry {

  /** A point, in scene coordinates or in a module's own coordinates. */
  datatype Point = Point(x: real, y: real)

  const Origin := Point(0.0, 0.0)

  function Add(p: Point, q: Point): Point
  {
    Point(p.x + q.x, p.y + q.y)
  }

  function Sub(p: Point, q: Point): Point
  {
    Point(p.x - q.x, p.y - q.y)
  }

  /** The midpoint of the segment from p to q, `(p + q) / 2` in Qt. */
  function Midpoint(p: Point, q: Point): Point
  {
    Point((p.x + q.x) / 2.0, (p.y + q.y) / 2.0)
  }

  /** `ModuleItem::PortPosition`, constructors in declaration order. */
  datatype Side = Left | Right | Top | Bottom

  /** The `int` a `PortPosition` constant converts to: its declaration index. */
  function Ordinal(s: Side): (n: int)
    ensures 0 <= n < 4
  {
    match s
    case Left => 0
    case Right => 1
    case Top => 2
    case Bottom => 3
  }

  lemma OrdinalIsDeclarationOrder()
    ensures Ordinal(Left) == 0 && Ordinal(Right) == 1 && Ordinal(Top) == 2 && Ordinal(Bottom) == 3
    ensures forall s: Side, t: Side :: Ordinal(s) == Ordinal(t) ==> s == t
  {
  }

  /** The two corners bounding side `s` of the rectangle (0, 0, w, h). */
  function SideSegment(s: Side, w: real, h: real): (Point, Point)
  {
    match s
    case Left => (Point(0.0, 0.0), Point(0.0, h))
    case Right => (Point(w, 0.0), Point(w, h))
    case Top => (Point(0.0, 0.0), Point(w, 0.0))
    case Bottom => (Point(0.0, h), Point(w, h))
  }

  /** True when `p` lies on the outline of the rectangle (0, 0, w, h). */
  predicate OnOutline(p: Point, w: real, h: real)
  {
    && 0.0 <= p.x <= w && 0.0 <= p.y <= h
    && (p.x == 0.0 || p.x == w || p.y == 0.0 || p.y == h)
  }

  /** The module-local point a port on side `s` resolves to (the switch in
      getPortPos). Its properties are stated by the lemmas below rather than by
      a postcondition, which every caller would otherwise carry along. */
  function SideMidpoint(s: Side, w: real, h: real): Point
  {
    match s
    case Left => Point(0.0, h / 2.0)
    case Right => Point(w, h / 2.0)
    case Top => Point(w / 2.0, 0.0)
    case Bottom => Point(w / 2.0, h)
  }

  /** The point getPortPos picks is the middle of that side of the current
      rectangle. */
  lemma SideMidpointIsMiddle(s: Side, w: real, h: real)
    ensures SideMidpoint(s, w, h) == Midpoint(SideSegment(s, w, h).0, SideSegment(s, w, h).1)
  {
  }

  /** With a non-negative size, a side midpoint lies on the rectangle's outline. */
  lemma SideMidpointOnOutline(s: Side, w: real, h: real)
    requires 0.0 <= w && 0.0 <= h
    ensures OnOutline(SideMidpoint(s, w, h), w, h)
  {
  }

  /** The position updatePortPositions gives a port's marker: 4 units before
      the side midpoint, along the side (up on Left/Right, left on Top/Bottom). */
  function MarkerPos(s: Side, w: real, h: real): Point
  {
    match s
    case Left => Point(0.0, h / 2.0 - 4.0)
    case Right => Point(w, h / 2.0 - 4.0)
    case Top => Point(w / 2.0 - 4.0, 0.0)
    case Bottom => Point(w / 2.0 - 4.0, h)
  }

  /** The marker sits 4 units before the side midpoint, along the side. */
  lemma MarkerPosOffset(s: Side, w: real, h: real)
    ensures (s == Left || s == Right) ==> MarkerPos(s, w, h) == Sub(SideMidpoint(s, w, h), Point(0.0, 4.0))
    ensures (s == Top || s == Bottom) ==> MarkerPos(s, w, h) == Sub(SideMidpoint(s, w, h), Point(4.0, 0.0))
  {
  }

  /** The marker is an 8 x 8 ellipse on the rectangle (-4, -4, 8, 8) around its
      position, so its centre is the marker position itself: the drawn dot is
      4 units away from the point getPortPos reports. */
  lemma MarkerCentreIsOffsetFromPort(s: Side, w: real, h: real)
    ensures var m := MarkerPos(s, w, h);
            var centre := Midpoint(Add(m, Point(-4.0, -4.0)), Add(m, Point(4.0, 4.0)));
            centre == m && centre != SideMidpoint(s, w, h)
  {
  }
}
