# Memory-hierarchy diagram: modules, ports and connections

The program draws a fixed diagram of a processor memory hierarchy with Qt.
The diagram has six routers, four CPU / L1 / L2 chains, four shared L3 banks
and one memory module. The lines between them are drawn from literal tables,
and the router-mesh lines are coloured by a literal utilisation figure. This
project models the three parts of the program that have behaviour:

- **`ModuleItem`** (module `ModuleItems`, with plane geometry in `Geometry`).
  A module is a rectangle `(0, 0, w, h)` placed at `pos`, with an ordered,
  append-only list of ports, each on one side.
  - It is a Dafny `class` whose methods change its fields under `modifies` frames.
  - `getPortPos(i)` is a function of the current state. It gives the midpoint
    of port `i`'s side, translated by `pos`, or `pos` itself for an index out
    of range.
  - `updatePortPositions` is a loop that moves every port marker.
- **`ConnectionItem`** (module `Connections`). An immutable value: two copied
  endpoints, a pen, and z-value −1, below every module. A lemma-like method
  shows that a line drawn from a port keeps its endpoint when the module is
  later resized.
- **The `SceneWidget` constructor** (module `Scene`). Only the part that builds
  the diagram is modelled.
  - Building the diagram is imperative. `BuildDiagram` and the methods it
    calls create the `ModuleItem` objects, collect them in sequences, and
    append the connections and usage labels in the order the scene adds them.
  - Each method is proved against pure functions that describe what it builds:
    - `RouterRecord`, `CpuRecord`, … give the state each module is left in;
    - `CoreLines`, `L3Line`, `MemoryLine` and `MeshEdges` give the lines;
    - `MeshLabels` gives the labels.
  - Lemmas about those functions give:
    - the totals: 29 lines, 5 busy lines, 12 labels, 5 of them red;
    - where each line actually lands.

`getPortPos` takes an `int`, and the scene passes it side constants
(`ModuleItem::Left`, …). These convert to their declaration index: Left 0,
Right 1, Top 2, Bottom 3. Every module starts with ports `[Right, Left]`, so
the constants select ports by position, not by side.
- Router ports are `[Right, Left, Left, Right, Top, Bottom]`. So `Left` and
  `Bottom` land on a router's right side, and `Right` and `Top` on its left side.
- The model keeps this behaviour and states it:
  - `EnumConstantSelectsByIndex` states it for any module;
  - `RouterSideSelected` states it for routers;
  - the `…Endpoints` lemmas state it for every line of the diagram.

Two facts of the code are easy to misread:
- A router link is busy when its usage is strictly above **0.01**
  (scenewidget.cpp:289). The largest usage in the table is 0.0181, and 5 of
  the 12 links are above the threshold.
- Every module keeps the two ports its constructor adds
  (moduleitem.cpp:45-46). So routers end with **6** ports, although router 0's
  own detail sheet says 4 (scenewidget.cpp:64). CPUs end with 3 ports, L1 and
  L2 caches with 4, and L3 banks and memory with 3.

## Model

| member | source | states |
|---|---|---|
| Geometry.Ordinal | moduleitem.h:14 | a side constant converts to an index in 0..3 |
| Geometry.OrdinalIsDeclarationOrder | moduleitem.h:14 | Left, Right, Top, Bottom convert to 0, 1, 2, 3, and distinct sides give distinct indices |
| Geometry.SideMidpointIsMiddle | moduleitem.cpp:67-72 | `SideMidpoint`, the switch in getPortPos: the point chosen for each side is the midpoint of that side of the rectangle (0, 0, w, h) |
| Geometry.SideMidpointOnOutline | moduleitem.cpp:67-72 | for a non-negative size, that point lies on the rectangle's outline |
| Geometry.MarkerPosOffset | moduleitem.cpp:82-87 | `MarkerPos`, the switch in updatePortPositions: a marker sits 4 units before its side's midpoint, up on Left/Right and left on Top/Bottom |
| Geometry.MarkerCentreIsOffsetFromPort | moduleitem.cpp:54-59 | the 8 x 8 marker ellipse at (-4, -4) is centred on the marker position, which is never the point getPortPos reports |
| ModuleItems.PortPosAppend | moduleitem.cpp:54-59 | appending a port leaves every earlier index resolving as before; the new index resolved to `pos` before and now resolves to the new side's midpoint |
| ModuleItems.PortPosTranslate | moduleitem.cpp:73-75 | mapToScene is a translation: moving a module by d moves each resolved port by d, including the fallback to `pos` for an index out of range |
| ModuleItems.PortPosCases | moduleitem.cpp:61-76 | `PortPos`, getPortPos on plain values: an in-range index resolves to `pos` plus its side's midpoint; any other index, negative ones included, resolves to `pos` |
| ModuleItems.SidesOf | moduleitem.h:36-40 | the sides of a port list, one per port, in insertion order |
| ModuleItems.ModuleItem.Sides | moduleitem.h:40 | the module's port sides, as many as it has ports |
| ModuleItems.PortPosOnOutline | moduleitem.cpp:61-76 | every in-range port of a module with non-negative size lies on the module's outline in scene coordinates |
| ModuleItems.EnumConstantSelectsByIndex | moduleitem.h:14-19 | with ports starting [Right, Left], the constant `Left` resolves to the right side and `Right` to the left side; `Top` and `Bottom` resolve to `pos` when there are too few ports |
| ModuleItems.ModuleItem.GetPortsCount | moduleitem.h:24 | the count is the length of the port list, and each index below it resolves to its side's midpoint |
| ModuleItems.ModuleItem.GetPortPos | moduleitem.cpp:61-76 | in range: `pos` plus the midpoint of that port's side of the current rectangle; out of range, negative included: `pos` |
| ModuleItems.ModuleItem.constructor | moduleitem.cpp:27-47 | name and label are the given name; position (x, y); size w x h, defaulting to 100 x 60; light-gray fill; ports exactly [Right, Left]; markers placed |
| ModuleItems.ModuleItem.SetSize | moduleitem.cpp:49-52 | the new size is set; sides, order and position are kept; every port now resolves against the new size; markers are moved |
| ModuleItems.ModuleItem.AddPort | moduleitem.cpp:54-59 | the sides grow by exactly the new side at the end; earlier ports are unchanged; markers stay placed |
| ModuleItems.ModuleItem.UpdatePortPositions | moduleitem.cpp:78-89 | every marker is at its side's marker position for the current rectangle; only the port list changes, and its sides do not |
| ModuleItems.ModuleItem.SetName | moduleitem.cpp:91-94 | name and label text become the new name; nothing else changes |
| ModuleItems.ModuleItem.SetInfoText | moduleitem.cpp:96-98 | only the detail text changes |
| ModuleItems.ModuleItem.SetBrush | moduleitem.h:27-29 | only the fill changes |
| Connections.NewConnection | connectionitem.cpp:5-10 | the line runs exactly from p1 to p2 with the given pen; its z-value is exactly −1, below the modules' |
| Connections.ResizeLeavesConnection | connectionitem.cpp:5-6 | a line drawn from port 0 of a default module keeps (100, 30) after the module is resized to w x h; the port moves to (w, h/2); they coincide exactly when the size is unchanged |
| Scene.RouterLinksWellFormed | scenewidget.cpp:268-281 | the mesh table has 12 links, each between two distinct routers of 0..5 |
| Scene.L2RouterIndex | scenewidget.cpp:184-186 | the router of core i is a router index in 0..5, never router 2 or 5, and cores 0 and 1 keep their own index |
| Scene.L3RouterIndex | scenewidget.cpp:226-228 | the router of L3 bank i is router i: both overrides restate the default |
| Scene.RouterNameShape | scenewidget.cpp:46-47 | `RouterName(i)` is "Router" followed by the digit i, and only router 5's name is longer: it ends with the idle suffix " (空闲)" |
| Scene.MeshLine | scenewidget.cpp:284-293 | a mesh line joins the ports its two side constants select by index on the two routers, uses the busy pen exactly when the link is busy, and lies at z −1 |
| Scene.MeshLabels | scenewidget.cpp:295-306 | the mesh has at most one label per link, and every label reports a positive usage |
| Scene.L2RouterMapping | scenewidget.cpp:184-186 | cores 0..3 attach to routers 0, 1, 3, 4, all different |
| Scene.L3RouterMapping | scenewidget.cpp:226-228 | L3 bank i attaches to router i |
| Scene.LinkPen | scenewidget.cpp:288-291 | a link gets the busy pen exactly when its usage is strictly above the threshold, otherwise the connection's default dark-blue pen of width 2 |
| Scene.BusyThresholdIsStrict | scenewidget.cpp:289-290 | usage exactly 0.01 is idle, 0.0181 is busy, and busy is monotone in usage |
| Scene.UsageLabelFor | scenewidget.cpp:296-306 | a label exists exactly when usage > 0; it carries the usage, sits at the line's midpoint minus (20, 15), and is red exactly when the line is busy |
| Scene.MeshLabelCounts | scenewidget.cpp:283-307 | the mesh has one label per positive-usage link, and its red labels are as many as its busy links, for any link table |
| Scene.MeshBusyLines | scenewidget.cpp:288-293 | lines that carry their links' pens include as many busy lines as there are busy links |
| Scene.RouterLinkCounts | scenewidget.cpp:268-281 | in the literal table all 12 links have positive usage, and exactly 5 are busy |
| Scene.CoreLines | scenewidget.cpp:170-192 | each core adds exactly three lines |
| Scene.CoreEdges | scenewidget.cpp:113-193 | the first n cores add 3n lines |
| Scene.MeshEdges | scenewidget.cpp:283-293 | the mesh adds one line per link |
| Scene.NonMeshEdges | scenewidget.cpp:170-256 | the cores, L3 banks and memory add 12 + 4 + 1 = 17 lines |
| Scene.MeshEdgesPens | scenewidget.cpp:288-293 | mesh line j has link j's pen, and every mesh line has z-value −1 |
| Scene.CoreEdgesPens | scenewidget.cpp:170-192 | every core line has one of the three core pens and z-value −1 |
| Scene.NonMeshEdgesIdle | scenewidget.cpp:170-256 | no line outside the mesh uses the busy pen, and all lie at z −1 |
| Scene.MeshCounts | scenewidget.cpp:283-307 | the literal mesh draws 5 busy lines at z −1 and 12 labels, 5 of them red |
| Scene.DiagramCounts | scenewidget.cpp:170-307 | the diagram has 29 lines, all below the modules; 5 use the busy pen; 12 labels, 5 red |
| Scene.RouterSideSelected | scenewidget.cpp:54-57 | on a router, `Left`/`Bottom` select a right-side port and `Right`/`Top` a left-side one; no constant reaches the top or bottom side |
| Scene.CoreLineEndpoints | scenewidget.cpp:170-192 | the CPU line ends on the L1's right side; the L1 line leaves from the L1's left side; the router line ends on the router's right side; with exact coordinates |
| Scene.L3LineEndpoints | scenewidget.cpp:230-234 | an L3 line runs from the bank's right side to its router's right side |
| Scene.MemoryLineEndpoints | scenewidget.cpp:252-256 | the memory line runs from (700, 740) to (1020, 535), router 2's right side |
| Scene.MeshLineEndpoints | scenewidget.cpp:283-293 | a mesh line joins the sides its constants select, vertically centred; Router0 `Right` to Router1 `Left` runs from (700, 335) to (1020, 335) |
| Scene.MakeRouter | scenewidget.cpp:46-72 | router i has its name (" (空闲)" on router 5), table position, 120 x 70, router fill, ports [Right, Left, Left, Right, Top, Bottom], and detail sheet on router 0 only |
| Scene.BuildRouters | scenewidget.cpp:45-82 | exactly six routers, in table order, each built as above |
| Scene.MakeCpu | scenewidget.cpp:115-131 | CPU i: name, position, 120 x 60, CPU fill, ports [Right, Left, Right], detail sheet |
| Scene.MakeL1 | scenewidget.cpp:134-148 | L1 i: name, position, 100 x 60, L1 fill, ports [Right, Left, Left, Right] |
| Scene.MakeL2 | scenewidget.cpp:151-167 | L2 i: "L2Cache" name, position, 120 x 50, L2 fill, ports [Right, Left, Left, Right] |
| Scene.MakeL3 | scenewidget.cpp:206-222 | L3 i: "L3Cache" name, position, 150 x 60, L3 fill, ports [Right, Left, Top] |
| Scene.MakeCore | scenewidget.cpp:114-192 | fresh CPU, L1 and L2 modules of core i, and its three lines to router L2RouterIndex(i) |
| Scene.BuildCoreChains | scenewidget.cpp:113-193 | four cores, in order, and their 12 lines, core by core |
| Scene.BuildL3Caches | scenewidget.cpp:205-235 | four L3 banks and one line each to router i's port `Bottom` |
| Scene.BuildMemory | scenewidget.cpp:238-256 | the memory module (500, 700, 200 x 80, ports [Right, Left, Top]) and its line to router 2 |
| Scene.BuildRouterMesh | scenewidget.cpp:283-307 | for any table of in-range links: one line per link in order, between the ports its constants select, with the link's pen, and a label for each positive link |
| Scene.BuildNodes | scenewidget.cpp:45-256 | all 23 modules in their final state, and the 17 non-mesh lines in the order they are added |
| Scene.AddRouterMesh | scenewidget.cpp:283-307 | the literal mesh is added, and the modules stay as built |
| Scene.BuildDiagram | scenewidget.cpp:33-307 | 23 modules; the 29 lines in order, 5 of them busy; the 12 labels, 5 of them red |

## Left out

- `ModuleDetailsDialog` and `mousePressEvent` (moduleitem.cpp:10-25, 100-108): a modal UI with nothing to check.
- ModuleItems.ModuleItem.constructor: the default detail text is Qt string formatting. It is recorded as `Generated(x, y, w, h)`, the values it is formatted from.
- Scene.MakeRouter, Scene.MakeCpu, Scene.MakeL1, Scene.MakeL2, Scene.MakeL3, Scene.BuildMemory: the authored HTML detail sheets are recorded as `Sheet(kind, index)`, not as their text.
- Scene.MakeRouter: router 0's extra "Port1: L3Cache0" text item (scenewidget.cpp:75-81) is not modelled.
- Scene.UsageLabelFor: the label's text (the usage as a percentage with two decimals) and its font are not modelled. The label records the usage it formats.
- The child label item's position (10, 10) and colour, the markers' yellow fill, hover events and render hints: presentation only.
- The ordering between modules and lines in the Qt scene. Modules, lines and labels are collected in separate sequences, each in the order the scene adds them. The interleaving of `addItem` calls, and scene ownership of items, are not modelled.
- The busy-path marker and the NUCA path (scenewidget.cpp:309-344), the performance labels (346-385), the legend (388-411), the title (414-418) and the deferred fit-to-view timer (421-424): drawing and layout only.
- The `SceneWidget` view object itself. Its constructor is modelled as the method `BuildDiagram`, which returns the modules and lines it builds.
- `ConnectionItem::updateEndpoints` is declared at connectionitem.h:10 with no definition, so it is not part of this model.
- mainwindow.cpp is not part of this model: it only sets up the window.
- Floating point: coordinates and usages are exact reals. Every literal in the comparisons (0, 0.01 and the table's usages) is far from the threshold, so rounding cannot change a result.
