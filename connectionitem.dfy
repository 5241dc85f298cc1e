/** `ConnectionItem`: a straight line between two points, fixed when it is
    made. It copies the coordinates and keeps no reference to any module. */
module Connections {
  import opened Geometry
  import opened Styles
  import ModuleItems

  /** The z-value every connection is given, so that lines draw under modules. */
  const ConnectionZ: real := -1.0

  datatype Connection = Connection(p1: Point, p2: Point, pen: Pen, z: real)

  /** The pen a `ConnectionItem` gets when none is passed: `QPen(Qt::darkBlue, 2)`. */
  const DefaultPen := Pen(DarkBlue, 2, SquareCap)

  /** `ConnectionItem(p1, p2, pen)`: the line runs exactly from p1 to p2,
      carries the given pen and lies strictly below every module. */
  function NewConnection(p1: Point, p2: Point, pen: Pen := DefaultPen): (c: Connection)
    ensures c.p1 == p1 && c.p2 == p2 && c.pen == pen
    ensures c.z == ConnectionZ == -1.0
    ensures c.z < ModuleItems.ModuleZ
  {
    Connection(p1, p2, pen, ConnectionZ)
  }

  /** A connection made from a module's port keeps its endpoint when the
      module is later resized: the line holds a copy of the point, and the
      module's port moves away from it whenever the size changes. */
  method ResizeLeavesConnection(w: real, h: real) returns (c: Connection, portAfter: Point)
    ensures c.p1 == Point(100.0, 30.0)
    ensures portAfter == Point(w, h / 2.0)
    ensures c.p1 == portAfter <==> (w == 100.0 && h == 60.0)
  {
    var m := new ModuleItems.ModuleItem("M", 0.0, 0.0);
    var peer := new ModuleItems.ModuleItem("N", 300.0, 0.0);
    c := NewConnection(m.GetPortPos(0), peer.GetPortPos(1));
    m.SetSize(w, h);
    portAfter := m.GetPortPos(0);
  }
}
