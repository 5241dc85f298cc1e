/** `ModuleItem`: a rectangle (0, 0, w, h) placed at `pos`, with an ordered,
    append-only list of ports, each on one side of the rectangle. */
module ModuleItems {
  import opened Geometry
  import opened Styles

  /** The stacking value Qt gives every graphics item; ModuleItem never changes it. */
  const ModuleZ: real := 0.0

  /** A port: the side it belongs to, and the position of its marker (the
      small ellipse drawn as a child of the module). */
  datatype Port = Port(side: Side, marker: Point)

  /** The detail text shown on a click. The constructor generates one from
      the position and size; the diagram replaces it with an authored sheet
      for a module of the given kind and number. */
  datatype InfoText = Generated(x: real, y: real, w: real, h: real) | Sheet(kind: string, index: nat)

  /** A module as the rest of the diagram sees it: name, label text, detail
      text, fill, position, size and the sides of its ports in order. */
  datatype ModuleRecord = ModuleRecord(name: string, labelText: string, info: InfoText, brush: Color,
                                       pos: Point, width: real, height: real, sides: seq<Side>)

  /** The sides of `ports`, in insertion order. */
  function SidesOf(ports: seq<Port>): (sides: seq<Side>)
    ensures |sides| == |ports|
    ensures forall i :: 0 <= i < |ports| ==> sides[i] == ports[i].side
  {
    seq(|ports|, i requires 0 <= i < |ports| => ports[i].side)
  }

  /** getPortPos on plain values: the scene position of port `portId` of a
      module at `pos` with rectangle (0, 0, w, h) whose ports lie on `sides`.
      mapToScene is a translation by `pos` (no module has a parent or a
      transform); an index out of range yields `pos` itself. */
  function PortPos(sides: seq<Side>, pos: Point, w: real, h: real, portId: int): Point
  {
    if 0 <= portId < |sides| then Add(pos, SideMidpoint(sides[portId], w, h)) else pos
  }

  /** An in-range index resolves to a point whose offset from `pos` is its
      side's midpoint; any other index, negative ones included, to `pos`. */
  lemma PortPosCases(sides: seq<Side>, pos: Point, w: real, h: real, portId: int)
    ensures 0 <= portId < |sides| ==> Sub(PortPos(sides, pos, w, h, portId), pos) == SideMidpoint(sides[portId], w, h)
    ensures !(0 <= portId < |sides|) ==> PortPos(sides, pos, w, h, portId) == pos
  {
  }

  /** getPortPos of a module in state `rec`. */
  function RecordPortPos(rec: ModuleRecord, portId: int): Point
  {
    PortPos(rec.sides, rec.pos, rec.width, rec.height, portId)
  }

  /** Appending a port leaves every earlier index resolving as before, and the
      new last index resolves to the midpoint of the new side. */
  lemma PortPosAppend(sides: seq<Side>, s: Side, pos: Point, w: real, h: real)
    ensures forall i :: 0 <= i < |sides| ==> PortPos(sides + [s], pos, w, h, i) == PortPos(sides, pos, w, h, i)
    ensures PortPos(sides, pos, w, h, |sides|) == pos
    ensures PortPos(sides + [s], pos, w, h, |sides|) == Add(pos, SideMidpoint(s, w, h))
  {
  }

  /** Moving a module by `d` moves every resolved port by `d`, the fallback
      to `pos` included. */
  lemma PortPosTranslate(sides: seq<Side>, pos: Point, d: Point, w: real, h: real, portId: int)
    ensures PortPos(sides, Add(pos, d), w, h, portId) == Add(PortPos(sides, pos, w, h, portId), d)
  {
  }

  /** With a non-negative size, every in-range port lies on the outline of the
      module's rectangle placed at `pos`. */
  lemma PortPosOnOutline(sides: seq<Side>, pos: Point, w: real, h: real, portId: int)
    requires 0.0 <= w && 0.0 <= h
    requires 0 <= portId < |sides|
    ensures OnOutline(Sub(PortPos(sides, pos, w, h, portId), pos), w, h)
  {
    SideMidpointOnOutline(sides[portId], w, h);
  }

  /** A side constant passed to the `int` parameter selects a port by
      insertion index, not by side. Every module starts with ports
      [Right, Left], so `Left` (0) resolves to the right side and `Right` (1)
      to the left side, whatever ports come later. */
  lemma EnumConstantSelectsByIndex(sides: seq<Side>, pos: Point, w: real, h: real)
    requires |sides| >= 2 && sides[0] == Right && sides[1] == Left
    ensures PortPos(sides, pos, w, h, Ordinal(Left)) == Add(pos, SideMidpoint(Right, w, h))
    ensures PortPos(sides, pos, w, h, Ordinal(Right)) == Add(pos, SideMidpoint(Left, w, h))
    ensures |sides| <= Ordinal(Top) ==> PortPos(sides, pos, w, h, Ordinal(Top)) == pos
    ensures |sides| <= Ordinal(Bottom) ==> PortPos(sides, pos, w, h, Ordinal(Bottom)) == pos
  {
  }

  class ModuleItem {
    var moduleName: string
    /** The text of the child label item at (10, 10). */
    var labelText: string
    var infoText: InfoText
    var brush: Color
    /** The item position (`pos()`); the rectangle is (0, 0, width, height). */
    var pos: Point
    var width: real
    var height: real
    var ports: seq<Port>

    /** Every port marker sits where updatePortPositions puts it for the
        current rectangle. */
    ghost predicate Valid()
      reads this
    {
      forall i :: 0 <= i < |ports| ==> ports[i].marker == MarkerPos(ports[i].side, width, height)
    }

    function Sides(): (sides: seq<Side>)
      reads this
      ensures |sides| == |ports|
    {
      SidesOf(ports)
    }

    function Record(): ModuleRecord
      reads this
    {
      ModuleRecord(moduleName, labelText, infoText, brush, pos, width, height, Sides())
    }

    /** `getPortsCount()`: the number of ports added so far. */
    function GetPortsCount(): (n: nat)
      reads this
      ensures n == |Sides()|
      ensures forall i :: 0 <= i < n ==> GetPortPos(i) == Add(pos, SideMidpoint(Sides()[i], width, height))
    {
      |ports|
    }

    /** `getPortPos(portId)`: for an index in range, the midpoint of that
        port's side of the CURRENT rectangle, translated by `pos`; otherwise
        `pos` itself. Nothing is cached: the result follows width and height. */
    function GetPortPos(portId: int): (p: Point)
      reads this
      ensures 0 <= portId < |ports| ==> p == Add(pos, SideMidpoint(ports[portId].side, width, height))
      ensures !(0 <= portId < |ports|) ==> p == pos
      ensures p == RecordPortPos(Record(), portId)
    {
      PortPos(Sides(), pos, width, height, portId)
    }

    /** `ModuleItem(name, x, y, w = 100, h = 60)`: gray, labelled with its
        name, and always given a Right port and then a Left port. */
    constructor (name: string, x: real, y: real, w: real := 100.0, h: real := 60.0)
      ensures Valid()
      ensures moduleName == name && labelText == name
      ensures pos == Point(x, y) && width == w && height == h
      ensures Sides() == [Right, Left]
      ensures infoText == Generated(x, y, w, h) && brush == LightGray
    {
      moduleName, labelText := name, name;
      pos := Point(x, y);
      width, height := w, h;
      brush := LightGray;
      infoText := Generated(x, y, w, h);
      ports := [];
      new;
      AddPort(Right);
      AddPort(Left);
    }

    /** `setSize`: replaces the rectangle and moves every marker; the port
        list and the position are kept, and every port now resolves against
        the new size. */
    method SetSize(w: real, h: real)
      modifies this`width, this`height, this`ports
      ensures Valid()
      ensures width == w && height == h
      ensures Sides() == old(Sides())
      ensures forall i :: GetPortPos(i) == PortPos(old(Sides()), old(pos), w, h, i)
    {
      width, height := w, h;
      UpdatePortPositions();
    }

    /** `addPort(side)`: appends one port on `side`; earlier ports keep their
        sides, order and (for a valid module) markers. */
    method AddPort(side: Side)
      modifies this`ports
      ensures Valid()
      ensures Sides() == old(Sides()) + [side]
      ensures old(Valid()) ==> forall i :: 0 <= i < old(|ports|) ==> ports[i] == old(ports[i])
    {
      // a new marker starts at the module's origin until it is positioned
      ports := ports + [Port(side, Origin)];
      UpdatePortPositions();
    }

    /** `updatePortPositions`: puts each marker at its side's marker position
        for the current rectangle, leaving the sides alone. */
    method UpdatePortPositions()
      modifies this`ports
      ensures Valid()
      ensures Sides() == old(Sides())
      ensures forall i :: 0 <= i < |ports| ==> ports[i].marker == MarkerPos(old(ports[i].side), width, height)
    {
      var i := 0;
      while i < |ports|
        invariant 0 <= i <= |ports| == old(|ports|)
        invariant forall j :: 0 <= j < |ports| ==> ports[j].side == old(ports[j].side)
        invariant forall j :: 0 <= j < i ==> ports[j].marker == MarkerPos(ports[j].side, width, height)
      {
        var marker := MarkerPos(ports[i].side, width, height);
        ports := ports[i := ports[i].(marker := marker)];
        i := i + 1;
      }
    }

    /** `setName`: renames the module and its label, nothing else. */
    method SetName(name: string)
      modifies this`moduleName, this`labelText
      ensures moduleName == name && labelText == name
    {
      moduleName := name;
      labelText := name;
    }

    /** `setInfoText`: replaces the detail text, nothing else. */
    method SetInfoText(text: InfoText)
      modifies this`infoText
      ensures infoText == text
    {
      infoText := text;
    }

    /** `setBrush`: forwards to the rectangle item, changing only the fill. */
    method SetBrush(b: Color)
      modifies this`brush
      ensures brush == b
    {
      brush := b;
    }
  }
}
