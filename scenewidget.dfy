/** The `SceneWidget` constructor reduced to what it builds: the module
    objects of the diagram, the connections between their ports, and the
    usage labels of the router mesh, all from literal tables. */
module Scene {
  import opened Geometry
  import opened Styles
  import opened ModuleItems
  import opened Connections

  datatype Option<T> = None | Some(value: T)

  // ---------------------------------------------------------------- colours

  const CpuColor := Rgb(211, 211, 211)
  const L1Color := Rgb(255, 215, 0)
  const L2Color := Rgb(30, 144, 255)
  const L3Color := Rgb(50, 205, 50)
  const MemColor := Rgb(255, 99, 71)
  const RouterColor := Rgb(240, 248, 255)
  const BusyPathColor := Rgb(220, 20, 60)

  // --------------------------------------------------------- literal tables

  const RouterPositions: seq<Point> := [
    Point(700.0, 300.0), Point(900.0, 300.0), Point(900.0, 500.0),
    Point(700.0, 500.0), Point(500.0, 400.0), Point(1100.0, 400.0)]

  const CpuPositions: seq<Point> := [
    Point(200.0, 200.0), Point(200.0, 400.0), Point(200.0, 600.0), Point(200.0, 800.0)]

  const L1Positions: seq<Point> := [
    Point(350.0, 200.0), Point(350.0, 400.0), Point(350.0, 600.0), Point(350.0, 800.0)]

  const L2Positions: seq<Point> := [
    Point(500.0, 200.0), Point(500.0, 400.0), Point(500.0, 600.0), Point(500.0, 800.0)]

  const L3Positions: seq<Point> := [
    Point(700.0, 600.0), Point(900.0, 600.0), Point(900.0, 700.0), Point(700.0, 700.0)]

  const MemoryPosition := Point(500.0, 700.0)

  /** One entry of the router mesh: source and target router, the literal
      utilisation, and the side constants passed to getPortPos. */
  datatype RouterLink = RouterLink(from: int, to: int, usage: real, fromPort: Side, toPort: Side)

  const RouterLinks: seq<RouterLink> := [
    RouterLink(0, 1, 0.0181, Right, Left),
    RouterLink(0, 5, 0.0052, Top, Bottom),
    RouterLink(1, 0, 0.0154, Left, Right),
    RouterLink(1, 2, 0.0161, Bottom, Top),
    RouterLink(2, 1, 0.0163, Top, Bottom),
    RouterLink(2, 3, 0.0145, Left, Right),
    RouterLink(3, 2, 0.0066, Right, Left),
    RouterLink(3, 4, 0.0082, Bottom, Top),
    RouterLink(4, 3, 0.0034, Top, Bottom),
    RouterLink(4, 5, 0.0071, Right, Left),
    RouterLink(5, 0, 0.0071, Bottom, Top),
    RouterLink(5, 4, 0.0052, Left, Right)]

  /** The router table has 12 links, all between the six routers, none a loop. */
  lemma RouterLinksWellFormed()
    ensures |RouterLinks| == 12
    ensures forall l :: l in RouterLinks ==> 0 <= l.from < 6 && 0 <= l.to < 6 && l.from != l.to
  {
  }

  /** The router an L2 cache connects to: core i to router i, except cores 2 and 3. */
  function L2RouterIndex(i: int): (r: int)
    ensures 0 <= i < 4 ==> 0 <= r < 6 && r != 2 && r != 5
    ensures 0 <= i < 2 ==> r == i
  {
    if i == 2 then 3 else if i == 3 then 4 else i
  }

  /** The router an L3 bank connects to; the two overrides restate the default. */
  function L3RouterIndex(i: int): (r: int)
    ensures r == i
  {
    if i == 2 then 2 else if i == 3 then 3 else i
  }

  /** Cores 0..3 go to routers 0, 1, 3 and 4: router 2 gets no core, and
      no two cores share a router. */
  lemma L2RouterMapping()
    ensures L2RouterIndex(0) == 0 && L2RouterIndex(1) == 1 && L2RouterIndex(2) == 3 && L2RouterIndex(3) == 4
    ensures forall i, j :: 0 <= i < j < 4 ==> L2RouterIndex(i) != L2RouterIndex(j)
  {
  }

  /** The L3 mapping is the identity. */
  lemma L3RouterMapping()
    ensures forall i :: L3RouterIndex(i) == i
  {
  }

  // ------------------------------------------------------------------ names

  function DigitChar(i: nat): char
    requires i < 10
  {
    (48 + i) as char
  }

  const IdleSuffix := " (空闲)"

  /** `QString("Router%1").arg(i)`, with the idle suffix on router 5 only. */
  function RouterName(i: nat): string
    requires i < 10
  {
    "Router" + [DigitChar(i)] + (if i == 5 then IdleSuffix else "")
  }

  /** A router's name is "Router" and its digit, and only router 5's goes on,
      with the idle suffix. */
  lemma RouterNameShape(i: nat)
    requires i < 10
    ensures |RouterName(i)| >= 7 && RouterName(i)[..6] == "Router" && RouterName(i)[6] == DigitChar(i)
    ensures i == 5 <==> |RouterName(i)| > 7
    ensures i == 5 ==> RouterName(i)[7..] == IdleSuffix
  {
  }

  // ------------------------------------------------------- expected modules

  /** The port list every router ends with: the constructor's two, then the
      four the scene adds. */
  const RouterSides: seq<Side> := [Right, Left, Left, Right, Top, Bottom]
  const CpuSides: seq<Side> := [Right, Left, Right]
  const CacheSides: seq<Side> := [Right, Left, Left, Right]
  const L3Sides: seq<Side> := [Right, Left, Top]
  const MemorySides: seq<Side> := [Right, Left, Top]

  /** A module as the diagram builds it: its label shows its name. */
  function Expected(name: string, at: Point, w: real, h: real, sides: seq<Side>, color: Color,
                    info: InfoText): ModuleRecord
  {
    ModuleRecord(name, name, info, color, at, w, h, sides)
  }

  function RouterRecord(i: nat): ModuleRecord
    requires i < 6
  {
    var at := RouterPositions[i];
    Expected(RouterName(i), at, 120.0, 70.0, RouterSides, RouterColor,
             if i == 0 then Sheet("Router", 0) else Generated(at.x, at.y, 120.0, 70.0))
  }

  function CpuRecord(i: nat): ModuleRecord
    requires i < 4
  {
    Expected("CPU" + [DigitChar(i)], CpuPositions[i], 120.0, 60.0, CpuSides, CpuColor, Sheet("CPU", i))
  }

  function L1Record(i: nat): ModuleRecord
    requires i < 4
  {
    Expected("L1" + [DigitChar(i)], L1Positions[i], 100.0, 60.0, CacheSides, L1Color, Sheet("L1", i))
  }

  function L2Record(i: nat): ModuleRecord
    requires i < 4
  {
    Expected("L2Cache" + [DigitChar(i)], L2Positions[i], 120.0, 50.0, CacheSides, L2Color, Sheet("L2", i))
  }

  function L3Record(i: nat): ModuleRecord
    requires i < 4
  {
    Expected("L3Cache" + [DigitChar(i)], L3Positions[i], 150.0, 60.0, L3Sides, L3Color, Sheet("L3", i))
  }

  const MemoryRecord := Expected("Memory", MemoryPosition, 200.0, 80.0, MemorySides, MemColor, Sheet("Memory", 0))

  const RouterRecords: seq<ModuleRecord> :=
    [RouterRecord(0), RouterRecord(1), RouterRecord(2), RouterRecord(3), RouterRecord(4), RouterRecord(5)]

  /** `m` is a consistent module whose observable state is `rec`. */
  ghost predicate Built(m: ModuleItem, rec: ModuleRecord)
    reads m
  {
    m.Valid() && m.Record() == rec
  }

  ghost predicate IsRouter(r: ModuleItem, i: nat)
    requires i < 6
    reads r
  {
    Built(r, RouterRecord(i))
  }

  ghost predicate IsCpu(m: ModuleItem, i: nat)
    requires i < 4
    reads m
  {
    Built(m, CpuRecord(i))
  }

  ghost predicate IsL1(m: ModuleItem, i: nat)
    requires i < 4
    reads m
  {
    Built(m, L1Record(i))
  }

  ghost predicate IsL2(m: ModuleItem, i: nat)
    requires i < 4
    reads m
  {
    Built(m, L2Record(i))
  }

  ghost predicate IsL3(m: ModuleItem, i: nat)
    requires i < 4
    reads m
  {
    Built(m, L3Record(i))
  }

  ghost predicate IsMemory(m: ModuleItem)
    reads m
  {
    Built(m, MemoryRecord)
  }

  /** The six routers, in table order. */
  ghost predicate RoutersBuilt(routers: seq<ModuleItem>)
    reads set r | r in routers
  {
    |routers| == 6 && forall i :: 0 <= i < 6 ==> IsRouter(routers[i], i)
  }

  /** The routers' states, as the mesh builder takes them. */
  lemma RouterRecordsOf(routers: seq<ModuleItem>)
    requires RoutersBuilt(routers)
    ensures |routers| == |RouterRecords| == 6
    ensures forall i :: 0 <= i < 6 ==> routers[i].Record() == RouterRecords[i]
  {
  }

  /** Core i's CPU, L1 and L2 modules. */
  ghost predicate CoreBuilt(cpu: ModuleItem, l1: ModuleItem, l2: ModuleItem, i: nat)
    requires i < 4
    reads cpu, l1, l2
  {
    IsCpu(cpu, i) && IsL1(l1, i) && IsL2(l2, i)
  }

  /** The 23 modules of the diagram, each in the state the scene leaves it. */
  ghost predicate NodesBuilt(rs: seq<ModuleItem>, cs: seq<ModuleItem>, l1s: seq<ModuleItem>,
                             l2s: seq<ModuleItem>, l3s: seq<ModuleItem>, mem: ModuleItem)
    reads rs, cs, l1s, l2s, l3s, mem
  {
    && RoutersBuilt(rs)
    && |cs| == 4 && |l1s| == 4 && |l2s| == 4 && |l3s| == 4
    && (forall i :: 0 <= i < 4 ==> CoreBuilt(cs[i], l1s[i], l2s[i], i))
    && (forall i :: 0 <= i < 4 ==> IsL3(l3s[i], i))
    && IsMemory(mem)
  }

  // ------------------------------------------------- busy links and labels

  const BusyThreshold: real := 0.01
  const BusyPen := Pen(BusyPathColor, 4, SquareCap)
  const IdlePen := Pen(DarkBlue, 2, SquareCap)

  predicate IsBusy(usage: real)
  {
    usage > BusyThreshold
  }

  /** The pen of a router link: the busy pen exactly when the usage is
      strictly above the threshold, otherwise the default connection pen. */
  function LinkPen(usage: real): (pen: Pen)
    ensures pen == BusyPen <==> IsBusy(usage)
    ensures !IsBusy(usage) ==> pen == IdlePen == DefaultPen
  {
    if usage > 0.01 then Pen(BusyPathColor, 4, SquareCap) else Pen(DarkBlue, 2, SquareCap)
  }

  /** The comparison is strict: a link at exactly the threshold is idle, and
      being busy is monotone in the usage. */
  lemma BusyThresholdIsStrict(u: real, v: real)
    ensures LinkPen(0.01) == IdlePen
    ensures LinkPen(0.0181) == BusyPen
    ensures u <= v && LinkPen(u) == BusyPen ==> LinkPen(v) == BusyPen
  {
  }

  /** A usage label: the usage it reports, its position and its colour. The
      formatted percentage text is not modelled. */
  datatype UsageLabel = UsageLabel(usage: real, pos: Point, color: Color)

  /** The label a router link gets: one exactly when the usage is positive,
      placed at the midpoint of the line shifted by (-20, -15), and red
      exactly when the line itself is drawn with the busy pen. */
  function UsageLabelFor(usage: real, fromPos: Point, toPos: Point): (tag: Option<UsageLabel>)
    ensures tag.Some? <==> usage > 0.0
    ensures tag.Some? ==> tag.value.usage == usage
    ensures tag.Some? ==> tag.value.pos == Sub(Midpoint(fromPos, toPos), Point(20.0, 15.0))
    ensures tag.Some? ==> (tag.value.color == Red <==> LinkPen(usage) == BusyPen)
  {
    if usage > 0.0 then
      var mid := Midpoint(fromPos, toPos);
      Some(UsageLabel(usage, Point(mid.x - 20.0, mid.y - 15.0), if usage > 0.01 then Red else DarkBlue))
    else
      None
  }

  /** Number of links with a positive usage. */
  function LabelledCount(links: seq<RouterLink>): nat
  {
    if links == [] then 0
    else LabelledCount(links[..|links| - 1]) + (if links[|links| - 1].usage > 0.0 then 1 else 0)
  }

  /** Number of links drawn busy. */
  function BusyCount(links: seq<RouterLink>): nat
  {
    if links == [] then 0
    else BusyCount(links[..|links| - 1]) + (if IsBusy(links[|links| - 1].usage) then 1 else 0)
  }

  /** Number of red labels. */
  function RedCount(labels: seq<UsageLabel>): nat
  {
    if labels == [] then 0
    else RedCount(labels[..|labels| - 1]) + (if labels[|labels| - 1].color == Red then 1 else 0)
  }

  /** Number of connections drawn with `pen`. */
  function PenCount(cs: seq<Connection>, pen: Pen): nat
  {
    if cs == [] then 0
    else PenCount(cs[..|cs| - 1], pen) + (if cs[|cs| - 1].pen == pen then 1 else 0)
  }

  /** The labels of the mesh, in link order, given each link's line. */
  function MeshLabels(links: seq<RouterLink>, edges: seq<Connection>): (labels: seq<UsageLabel>)
    requires |links| == |edges|
    ensures |labels| <= |links|
    ensures forall j :: 0 <= j < |labels| ==> labels[j].usage > 0.0
    decreases |links|
  {
    if links == [] then []
    else
      var n := |links| - 1;
      var rest := MeshLabels(links[..n], edges[..n]);
      match UsageLabelFor(links[n].usage, edges[n].p1, edges[n].p2)
      case None => rest
      case Some(tag) => rest + [tag]
  }

  /** The labels a single link contributes: none or one. */
  function LinkLabels(usage: real, fromPos: Point, toPos: Point): seq<UsageLabel>
  {
    match UsageLabelFor(usage, fromPos, toPos)
    case None => []
    case Some(tag) => [tag]
  }

  /** Extending the mesh by one link extends its labels by that link's own. */
  lemma MeshLabelsSnoc(links: seq<RouterLink>, edges: seq<Connection>, line: Connection, k: nat)
    requires k < |links| && |edges| == k
    ensures MeshLabels(links[..k + 1], edges + [line])
            == MeshLabels(links[..k], edges) + LinkLabels(links[k].usage, line.p1, line.p2)
  {
    assert links[..k + 1][..k] == links[..k];
    assert (edges + [line])[..k] == edges;
  }

  /** Every link with a positive usage gets one label, and the red labels are
      exactly those of the busy links. */
  lemma {:induction false} MeshLabelCounts(links: seq<RouterLink>, edges: seq<Connection>)
    requires |links| == |edges|
    ensures |MeshLabels(links, edges)| == LabelledCount(links)
    ensures RedCount(MeshLabels(links, edges)) == BusyCount(links)
    decreases |links|
  {
    if links != [] {
      var n := |links| - 1;
      MeshLabelCounts(links[..n], edges[..n]);
      var rest := MeshLabels(links[..n], edges[..n]);
      match UsageLabelFor(links[n].usage, edges[n].p1, edges[n].p2)
      case None =>
      case Some(tag) =>
        assert (rest + [tag])[..|rest|] == rest;
    }
  }

  lemma {:induction false} PenCountAppend(a: seq<Connection>, b: seq<Connection>, pen: Pen)
    ensures PenCount(a + b, pen) == PenCount(a, pen) + PenCount(b, pen)
    decreases |b|
  {
    if b == [] {
      assert a + b == a;
    } else {
      var n := |b| - 1;
      assert (a + b)[..|a + b| - 1] == a + b[..n];
      PenCountAppend(a, b[..n], pen);
    }
  }

  /** A mesh whose lines carry their links' pens has as many busy lines as
      busy links. */
  lemma {:induction false} MeshBusyLines(links: seq<RouterLink>, edges: seq<Connection>)
    requires |links| == |edges|
    requires forall j :: 0 <= j < |links| ==> edges[j].pen == LinkPen(links[j].usage)
    ensures PenCount(edges, BusyPen) == BusyCount(links)
    decreases |links|
  {
    if links != [] {
      var n := |links| - 1;
      MeshBusyLines(links[..n], edges[..n]);
    }
  }

  /** One more link adds its own contribution to both counts. */
  lemma CountsSnoc(links: seq<RouterLink>, k: nat)
    requires k < |links|
    ensures LabelledCount(links[..k + 1]) == LabelledCount(links[..k]) + (if links[k].usage > 0.0 then 1 else 0)
    ensures BusyCount(links[..k + 1]) == BusyCount(links[..k]) + (if IsBusy(links[k].usage) then 1 else 0)
  {
    assert links[..k + 1][..k] == links[..k];
  }

  /** With the literal table every link is labelled, and exactly 5 of the 12
      are busy (0.0181, 0.0154, 0.0161, 0.0163 and 0.0145). */
  lemma RouterLinkCounts()
    ensures LabelledCount(RouterLinks) == 12
    ensures BusyCount(RouterLinks) == 5
  {
    var t := RouterLinks;
    assert t[..0] == [];
    CountsSnoc(t, 0); CountsSnoc(t, 1); CountsSnoc(t, 2); CountsSnoc(t, 3);
    CountsSnoc(t, 4); CountsSnoc(t, 5); CountsSnoc(t, 6); CountsSnoc(t, 7);
    CountsSnoc(t, 8); CountsSnoc(t, 9); CountsSnoc(t, 10); CountsSnoc(t, 11);
    assert t[..12] == t;
  }

  // -------------------------------------------------------- the connections

  /** The three lines of core i, in the order they are added: CPU port 0 to
      L1 port 0, L1 port 1 to L2 port 0, and L2 port 1 to the router's port
      `Left` (index 0). */
  function CoreLines(i: nat): (lines: seq<Connection>)
    requires i < 4
    ensures |lines| == 3
  {
    var cpu, l1, l2 := CpuRecord(i), L1Record(i), L2Record(i);
    var router := RouterRecord(L2RouterIndex(i));
    [NewConnection(RecordPortPos(cpu, 0), RecordPortPos(l1, 0), CpuPen),
     NewConnection(RecordPortPos(l1, 1), RecordPortPos(l2, 0), L1Pen),
     NewConnection(RecordPortPos(l2, 1), RecordPortPos(router, Ordinal(Left)), L2Pen)]
  }

  /** The lines of the first n cores, core by core. */
  function CoreEdges(n: nat): (edges: seq<Connection>)
    requires n <= 4
    ensures |edges| == 3 * n
  {
    if n == 0 then [] else CoreEdges(n - 1) + CoreLines(n - 1)
  }

  /** L3 bank i to its router's port `Bottom` (index 3). */
  function L3Line(i: nat): Connection
    requires i < 4
  {
    NewConnection(RecordPortPos(L3Record(i), 0), RecordPortPos(RouterRecord(L3RouterIndex(i)), Ordinal(Bottom)), L3Pen)
  }

  const L3Edges: seq<Connection> := [L3Line(0), L3Line(1), L3Line(2), L3Line(3)]

  /** The memory module to router 2's port `Bottom`. */
  const MemoryLine := NewConnection(RecordPortPos(MemoryRecord, 0), RecordPortPos(RouterRecord(2), Ordinal(Bottom)), MemoryPen)

  predicate LinkInMesh(link: RouterLink)
  {
    0 <= link.from < 6 && 0 <= link.to < 6
  }

  /** The line of a mesh link: between the ports its side constants select,
      with the pen its usage calls for. */
  function MeshLine(link: RouterLink, recs: seq<ModuleRecord>): (c: Connection)
    requires LinkInMesh(link) && |recs| == 6
    ensures c.p1 == RecordPortPos(recs[link.from], Ordinal(link.fromPort))
    ensures c.p2 == RecordPortPos(recs[link.to], Ordinal(link.toPort))
    ensures c.pen == BusyPen <==> IsBusy(link.usage)
    ensures c.z == ConnectionZ
  {
    NewConnection(RecordPortPos(recs[link.from], Ordinal(link.fromPort)),
                  RecordPortPos(recs[link.to], Ordinal(link.toPort)),
                  LinkPen(link.usage))
  }

  /** One line per link, in table order, between routers in states `recs`. */
  function MeshEdges(links: seq<RouterLink>, recs: seq<ModuleRecord>): (edges: seq<Connection>)
    requires forall l :: l in links ==> LinkInMesh(l)
    requires |recs| == 6
    ensures |edges| == |links|
  {
    if links == [] then []
    else
      var n := |links| - 1;
      assert forall l :: l in links[..n] ==> l in links;
      MeshEdges(links[..n], recs) + [MeshLine(links[n], recs)]
  }

  /** The lines joining the cores, the L3 banks and memory to the mesh. */
  function NonMeshEdges(): (cs: seq<Connection>)
    ensures |cs| == 17
  {
    CoreEdges(4) + L3Edges + [MemoryLine]
  }

  /** Every connection of the diagram, in the order the scene adds them. */
  function DiagramConnections(): (cs: seq<Connection>)
  {
    RouterLinksWellFormed();
    NonMeshEdges() + MeshEdges(RouterLinks, RouterRecords)
  }

  /** The usage labels of the diagram. */
  function DiagramLabels(): (labels: seq<UsageLabel>)
  {
    RouterLinksWellFormed();
    MeshLabels(RouterLinks, MeshEdges(RouterLinks, RouterRecords))
  }

  lemma {:induction false} MeshEdgesPens(links: seq<RouterLink>, recs: seq<ModuleRecord>)
    requires forall l :: l in links ==> LinkInMesh(l)
    requires |recs| == 6
    ensures forall j :: 0 <= j < |links| ==> MeshEdges(links, recs)[j].pen == LinkPen(links[j].usage)
    ensures forall c :: c in MeshEdges(links, recs) ==> c.z == ConnectionZ
    decreases |links|
  {
    if links != [] {
      var n := |links| - 1;
      assert forall l :: l in links[..n] ==> l in links;
      MeshEdgesPens(links[..n], recs);
    }
  }

  /** No connection outside the mesh uses the busy pen. */
  lemma {:induction false} PenCountNone(cs: seq<Connection>, pen: Pen)
    requires forall c :: c in cs ==> c.pen != pen
    ensures PenCount(cs, pen) == 0
    decreases |cs|
  {
    if cs != [] {
      var n := |cs| - 1;
      assert forall c :: c in cs[..n] ==> c in cs;
      PenCountNone(cs[..n], pen);
    }
  }

  lemma {:induction false} CoreEdgesPens(n: nat)
    requires n <= 4
    ensures forall c :: c in CoreEdges(n) ==> c.pen in {CpuPen, L1Pen, L2Pen} && c.z == ConnectionZ
  {
    if n > 0 {
      CoreEdgesPens(n - 1);
    }
  }

  /** None of the 17 lines outside the mesh is drawn busy, and all lie below
      the modules. */
  lemma NonMeshEdgesIdle()
    ensures forall c :: c in NonMeshEdges() ==> c.pen != BusyPen && c.z == ConnectionZ
    ensures PenCount(NonMeshEdges(), BusyPen) == 0
  {
    var core := CoreEdges(4);
    CoreEdgesPens(4);
    forall c | c in NonMeshEdges()
      ensures c.pen != BusyPen && c.z == ConnectionZ
    {
      if c in core {
      } else if c in L3Edges {
        assert c.pen == L3Pen;
      } else {
        assert c == MemoryLine;
      }
    }
    PenCountNone(NonMeshEdges(), BusyPen);
  }

  /** All 12 links are drawn and labelled; exactly the 5 busy ones use the
      busy pen and get a red label. */
  lemma MeshCounts()
    ensures forall l :: l in RouterLinks ==> LinkInMesh(l)
    ensures PenCount(MeshEdges(RouterLinks, RouterRecords), BusyPen) == 5
    ensures forall c :: c in MeshEdges(RouterLinks, RouterRecords) ==> c.z == ConnectionZ
    ensures |DiagramLabels()| == 12 && RedCount(DiagramLabels()) == 5
  {
    RouterLinksWellFormed();
    var mesh := MeshEdges(RouterLinks, RouterRecords);
    RouterLinkCounts();
    MeshLabelCounts(RouterLinks, mesh);
    MeshEdgesPens(RouterLinks, RouterRecords);
    MeshBusyLines(RouterLinks, mesh);
  }

  /** The diagram has 29 lines (12 in the cores, 4 to the L3 banks, 1 to
      memory, 12 in the mesh), all below the modules; exactly the 5 busy
      links are drawn with the busy pen; all 12 links are labelled and 5
      labels are red. */
  lemma DiagramCounts()
    ensures |DiagramConnections()| == 29
    ensures forall c :: c in DiagramConnections() ==> c.z < ModuleZ
    ensures PenCount(DiagramConnections(), BusyPen) == 5
    ensures |DiagramLabels()| == 12 && RedCount(DiagramLabels()) == 5
  {
    MeshCounts();
    NonMeshEdgesIdle();
    PenCountAppend(NonMeshEdges(), MeshEdges(RouterLinks, RouterRecords), BusyPen);
  }

  // ------------------------------------------------ where the lines land

  /** Because getPortPos takes an index, a side constant names a router port
      by position in [Right, Left, Left, Right, Top, Bottom]: `Left` and
      `Bottom` land on the router's right side, `Right` and `Top` on its left
      side, and no line ever reaches a router's top or bottom side. */
  lemma RouterSideSelected(s: Side)
    ensures RouterSides[Ordinal(s)] == (if s == Left || s == Bottom then Right else Left)
    ensures RouterSides[Ordinal(s)] != Top && RouterSides[Ordinal(s)] != Bottom
  {
  }

  /** Core i's lines in scene coordinates. Port 0 of every module is its
      right side, so the CPU-to-L1 line ends on the L1's RIGHT side, the
      L1-to-L2 line leaves from the L1's left side, and the L2-to-router line
      leaves from the L2's left side and ends on the router's right side. */
  lemma CoreLineEndpoints(i: nat)
    requires i < 4
    ensures CoreLines(i)[0].p1 == Add(CpuPositions[i], Point(120.0, 30.0))
    ensures CoreLines(i)[0].p2 == Add(L1Positions[i], Point(100.0, 30.0))
    ensures CoreLines(i)[1].p1 == Add(L1Positions[i], Point(0.0, 30.0))
    ensures CoreLines(i)[1].p2 == Add(L2Positions[i], Point(120.0, 25.0))
    ensures CoreLines(i)[2].p1 == Add(L2Positions[i], Point(0.0, 25.0))
    ensures CoreLines(i)[2].p2 == Add(RouterPositions[L2RouterIndex(i)], Point(120.0, 35.0))
  {
    RouterSideSelected(Left);
  }

  /** L3 bank i's line leaves from the bank's right side (its Top port is
      index 2 and never used) and ends on router i's right side. */
  lemma L3LineEndpoints(i: nat)
    requires i < 4
    ensures L3Line(i).p1 == Add(L3Positions[i], Point(150.0, 30.0))
    ensures L3Line(i).p2 == Add(RouterPositions[i], Point(120.0, 35.0))
  {
    RouterSideSelected(Bottom);
  }

  /** The memory line runs from the memory's right side to router 2's right side. */
  lemma MemoryLineEndpoints()
    ensures MemoryLine.p1 == Point(700.0, 740.0)
    ensures MemoryLine.p2 == Point(1020.0, 535.0)
  {
    RouterSideSelected(Bottom);
  }

  /** A mesh line joins the sides its constants select: `Left`/`Bottom` the
      right side, `Right`/`Top` the left side, vertically centred. The first
      link, Router0 `Right` to Router1 `Left`, therefore runs from Router0's
      left side to Router1's right side, across both routers. */
  lemma MeshLineEndpoints(link: RouterLink)
    requires LinkInMesh(link)
    ensures var from, to := RouterPositions[link.from], RouterPositions[link.to];
            var fx := if link.fromPort == Left || link.fromPort == Bottom then 120.0 else 0.0;
            var tx := if link.toPort == Left || link.toPort == Bottom then 120.0 else 0.0;
            MeshLine(link, RouterRecords) == NewConnection(Add(from, Point(fx, 35.0)), Add(to, Point(tx, 35.0)), LinkPen(link.usage))
    ensures link == RouterLinks[0] ==>
              MeshLine(link, RouterRecords).p1 == Point(700.0, 335.0) && MeshLine(link, RouterRecords).p2 == Point(1020.0, 335.0)
  {
    RouterSideSelected(link.fromPort);
    RouterSideSelected(link.toPort);
  }

  // ----------------------------------------------------- the construction

  /** Router i: named, placed from the table, 120 x 70, with ports Left,
      Right, Top and Bottom added after the constructor's two. */
  method MakeRouter(i: nat) returns (router: ModuleItem)
    requires i < 6
    ensures fresh(router) && IsRouter(router, i)
  {
    var name := "Router" + [DigitChar(i)];
    if i == 5 { name := name + IdleSuffix; }
    router := new ModuleItem(name, RouterPositions[i].x, RouterPositions[i].y, 120.0, 70.0);
    router.SetBrush(RouterColor);
    router.AddPort(Left);
    router.AddPort(Right);
    router.AddPort(Top);
    router.AddPort(Bottom);
    if i == 0 {
      router.SetInfoText(Sheet("Router", 0));
    }
    assert router.Sides() == RouterSides;
  }

  /** The six routers, in table order. */
  method BuildRouters() returns (routers: seq<ModuleItem>)
    ensures RoutersBuilt(routers)
  {
    routers := [];
    for i := 0 to |RouterPositions|
      invariant |routers| == i
      invariant forall j :: 0 <= j < i ==> IsRouter(routers[j], j)
    {
      var router := MakeRouter(i);
      routers := routers + [router];
    }
  }

  const CpuPen := Pen(Black, 2, RoundCap)
  const L1Pen := Pen(DarkGray, 2, RoundCap)
  const L2Pen := Pen(Black, 2, RoundCap)
  const L3Pen := Pen(DarkGreen, 2, RoundCap)
  const MemoryPen := Pen(DarkRed, 3, RoundCap)

  method MakeCpu(i: nat) returns (cpu: ModuleItem)
    requires i < 4
    ensures fresh(cpu) && IsCpu(cpu, i)
  {
    cpu := new ModuleItem("CPU" + [DigitChar(i)], CpuPositions[i].x, CpuPositions[i].y, 120.0, 60.0);
    cpu.SetBrush(CpuColor);
    cpu.AddPort(Right);
    cpu.SetInfoText(Sheet("CPU", i));
    assert cpu.Sides() == CpuSides;
  }

  method MakeL1(i: nat) returns (l1: ModuleItem)
    requires i < 4
    ensures fresh(l1) && IsL1(l1, i)
  {
    l1 := new ModuleItem("L1" + [DigitChar(i)], L1Positions[i].x, L1Positions[i].y, 100.0, 60.0);
    l1.SetBrush(L1Color);
    l1.AddPort(Left);
    l1.AddPort(Right);
    l1.SetInfoText(Sheet("L1", i));
    assert l1.Sides() == CacheSides;
  }

  method MakeL2(i: nat) returns (l2: ModuleItem)
    requires i < 4
    ensures fresh(l2) && IsL2(l2, i)
  {
    l2 := new ModuleItem("L2Cache" + [DigitChar(i)], L2Positions[i].x, L2Positions[i].y, 120.0, 50.0);
    l2.SetBrush(L2Color);
    l2.AddPort(Left);
    l2.AddPort(Right);
    l2.SetInfoText(Sheet("L2", i));
    assert l2.Sides() == CacheSides;
  }

  method MakeL3(i: nat) returns (l3: ModuleItem)
    requires i < 4
    ensures fresh(l3) && IsL3(l3, i)
  {
    l3 := new ModuleItem("L3Cache" + [DigitChar(i)], L3Positions[i].x, L3Positions[i].y, 150.0, 60.0);
    l3.SetBrush(L3Color);
    l3.AddPort(Top);
    l3.SetInfoText(Sheet("L3", i));
    assert l3.Sides() == L3Sides;
  }

  /** Core i: its CPU, L1 and L2 modules and the three lines joining them to
      each other and to router L2RouterIndex(i). */
  method MakeCore(i: nat, routers: seq<ModuleItem>) returns (cpu: ModuleItem, l1: ModuleItem, l2: ModuleItem, chain: seq<Connection>)
    requires i < 4 && RoutersBuilt(routers)
    ensures fresh(cpu) && fresh(l1) && fresh(l2)
    ensures CoreBuilt(cpu, l1, l2, i)
    ensures chain == CoreLines(i)
  {
    var routerIndex := i;
    if i == 2 { routerIndex := 3; }
    if i == 3 { routerIndex := 4; }
    cpu := MakeCpu(i);
    l1 := MakeL1(i);
    l2 := MakeL2(i);
    chain := [NewConnection(cpu.GetPortPos(0), l1.GetPortPos(0), CpuPen),
              NewConnection(l1.GetPortPos(1), l2.GetPortPos(0), L1Pen),
              NewConnection(l2.GetPortPos(1), routers[routerIndex].GetPortPos(Ordinal(Left)), L2Pen)];
  }

  /** The four CPU / L1 / L2 chains, each tied to its router. */
  method BuildCoreChains(routers: seq<ModuleItem>)
    returns (cpus: seq<ModuleItem>, l1s: seq<ModuleItem>, l2s: seq<ModuleItem>, edges: seq<Connection>)
    requires RoutersBuilt(routers)
    ensures |cpus| == 4 && |l1s| == 4 && |l2s| == 4
    ensures forall i :: 0 <= i < 4 ==> CoreBuilt(cpus[i], l1s[i], l2s[i], i)
    ensures edges == CoreEdges(4)
  {
    cpus, l1s, l2s, edges := [], [], [], [];
    for i := 0 to 4
      invariant |cpus| == i && |l1s| == i && |l2s| == i
      invariant forall j :: 0 <= j < i ==> CoreBuilt(cpus[j], l1s[j], l2s[j], j)
      invariant edges == CoreEdges(i)
    {
      var cpu, l1, l2, chain := MakeCore(i, routers);
      cpus, l1s, l2s := cpus + [cpu], l1s + [l1], l2s + [l2];
      edges := edges + chain;
    }
  }

  /** The four shared L3 banks, each joined to its router's port `Bottom`. */
  method BuildL3Caches(routers: seq<ModuleItem>) returns (l3s: seq<ModuleItem>, edges: seq<Connection>)
    requires RoutersBuilt(routers)
    ensures |l3s| == 4
    ensures forall i :: 0 <= i < 4 ==> IsL3(l3s[i], i)
    ensures edges == L3Edges
  {
    l3s, edges := [], [];
    for i := 0 to 4
      invariant |l3s| == i && |edges| == i
      invariant forall j :: 0 <= j < i ==> IsL3(l3s[j], j)
      invariant forall j :: 0 <= j < i ==> edges[j] == L3Line(j)
    {
      var l3 := MakeL3(i);
      l3s := l3s + [l3];

      var routerIndex := i;
      if i == 2 { routerIndex := 2; }
      if i == 3 { routerIndex := 3; }
      edges := edges + [NewConnection(l3.GetPortPos(0), routers[routerIndex].GetPortPos(Ordinal(Bottom)), L3Pen)];
    }
  }

  /** The memory module, joined to router 2's port `Bottom`. */
  method BuildMemory(routers: seq<ModuleItem>) returns (memory: ModuleItem, edge: Connection)
    requires RoutersBuilt(routers)
    ensures fresh(memory) && IsMemory(memory)
    ensures edge == MemoryLine
  {
    memory := new ModuleItem("Memory", MemoryPosition.x, MemoryPosition.y, 200.0, 80.0);
    memory.SetBrush(MemColor);
    memory.AddPort(Top);
    memory.SetInfoText(Sheet("Memory", 0));
    assert memory.Sides() == MemorySides;
    edge := NewConnection(memory.GetPortPos(0), routers[2].GetPortPos(Ordinal(Bottom)), MemoryPen);
  }

  /** The router mesh: one line per link, in table order, with the busy pen
      exactly for the busy links, and the usage labels of the positive links. */
  method BuildRouterMesh(routers: seq<ModuleItem>, ghost recs: seq<ModuleRecord>, links: seq<RouterLink>)
    returns (edges: seq<Connection>, labels: seq<UsageLabel>)
    requires |routers| == |recs| == 6 && forall i :: 0 <= i < 6 ==> routers[i].Record() == recs[i]
    requires forall l :: l in links ==> LinkInMesh(l)
    ensures edges == MeshEdges(links, recs)
    ensures labels == MeshLabels(links, edges)
  {
    edges, labels := [], [];
    for k := 0 to |links|
      invariant edges == MeshEdges(links[..k], recs)
      invariant labels == MeshLabels(links[..k], edges)
    {
      var link := links[k];
      assert link in links;
      var fromPos := routers[link.from].GetPortPos(Ordinal(link.fromPort));
      var toPos := routers[link.to].GetPortPos(Ordinal(link.toPort));

      var line := NewConnection(fromPos, toPos, LinkPen(link.usage));
      MeshLabelsSnoc(links, edges, line, k);
      labels := labels + LinkLabels(link.usage, fromPos, toPos);
      assert links[..k + 1][..k] == links[..k];
      edges := edges + [line];
    }
    assert links[..|links|] == links;
  }

  /** Every module of the diagram, and the lines joining the cores, the L3
      banks and memory to the routers, in the order the scene adds them. */
  method BuildNodes()
    returns (rs: seq<ModuleItem>, cs: seq<ModuleItem>, l1s: seq<ModuleItem>, l2s: seq<ModuleItem>,
             l3s: seq<ModuleItem>, mem: ModuleItem, edges: seq<Connection>)
    ensures NodesBuilt(rs, cs, l1s, l2s, l3s, mem)
    ensures edges == NonMeshEdges()
  {
    rs := BuildRouters();
    var coreEdges, l3Edges, memEdge;
    cs, l1s, l2s, coreEdges := BuildCoreChains(rs);
    l3s, l3Edges := BuildL3Caches(rs);
    mem, memEdge := BuildMemory(rs);
    edges := coreEdges + l3Edges + [memEdge];
  }

  /** The router mesh added to a diagram whose modules are all built; the
      modules are left as they are. */
  method AddRouterMesh(rs: seq<ModuleItem>, cs: seq<ModuleItem>, l1s: seq<ModuleItem>, l2s: seq<ModuleItem>,
                       l3s: seq<ModuleItem>, mem: ModuleItem)
    returns (edges: seq<Connection>, labels: seq<UsageLabel>)
    requires NodesBuilt(rs, cs, l1s, l2s, l3s, mem)
    ensures NodesBuilt(rs, cs, l1s, l2s, l3s, mem)
    ensures edges == MeshEdges(RouterLinks, RouterRecords)
    ensures labels == DiagramLabels()
  {
    RouterLinksWellFormed();
    RouterRecordsOf(rs);
    edges, labels := BuildRouterMesh(rs, RouterRecords, RouterLinks);
  }

  /** The `SceneWidget` constructor, as far as the diagram goes: the 23
      modules, then the 29 connections in the order they are added, and the
      usage labels of the mesh. */
  method BuildDiagram()
    returns (rs: seq<ModuleItem>, cs: seq<ModuleItem>, l1s: seq<ModuleItem>, l2s: seq<ModuleItem>,
             l3s: seq<ModuleItem>, mem: ModuleItem, edges: seq<Connection>, labels: seq<UsageLabel>)
    ensures NodesBuilt(rs, cs, l1s, l2s, l3s, mem)
    ensures |rs| + |cs| + |l1s| + |l2s| + |l3s| + 1 == 23
    ensures edges == DiagramConnections()
    ensures labels == DiagramLabels()
    ensures |edges| == 29 && PenCount(edges, BusyPen) == 5
    ensures |labels| == 12 && RedCount(labels) == 5
  {
    var nodeEdges, meshEdges;
    rs, cs, l1s, l2s, l3s, mem, nodeEdges := BuildNodes();
    meshEdges, labels := AddRouterMesh(rs, cs, l1s, l2s, l3s, mem);
    edges := nodeEdges + meshEdges;
    DiagramCounts();
  }
}
