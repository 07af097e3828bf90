/**
 * The oil rig topology view: up to eight tank nodes in two rows of four,
 * coloured by level and status, three fixed plant nodes, and a fixed list of
 * eleven edges built by a counting loop.
 *
 * The component takes its tanks as the `fluidLevels` prop. The oil rig
 * control page neither imports nor renders it, so nothing connects the two.
 * The lemmas about mount and breach apply the builder to that page's tank
 * list as an assumed input; its records have the prop's shape.
 */
module OilRigTopology {
  import opened Js
  import opened Ui
  import opened OilRigControl

  const RED_HEX := "#dc2626"
  const YELLOW_HEX := "#eab308"
  const GREEN_HEX := "#16a34a"

  /** A node's label: plain text, or a tank gauge whose level and capacity are printed as numbers. */
  datatype Label = Plain(text: string) | Gauge(name: string, level: real, capacity: real)

  /**
   * A node id, kept as the parts its text is built from: a tank's row and
   * id number, or the fixed name of a plant node. `NodeIdText` renders it.
   */
  datatype NodeId = TankKey(row: Row, n: int) | Fixed(name: string)

  datatype Node = Node(id: NodeId, position: Position, caption: Label, background: string)

  /** An edge id: the control edge to tank `n`, or a fixed name. `EdgeIdText` renders it. */
  datatype EdgeId = ControlToTank(n: int) | FixedEdge(name: string)

  datatype Link = Link(id: EdgeId, source: NodeId, target: NodeId, animated: bool)

  const CONTROL_CENTER := Fixed("control-center")
  const PUMP_STATION := Fixed("pump-station")
  const PROCESSING_UNIT := Fixed("processing-unit")

  /** The two tank rows: the first four tanks on top, the next four below. */
  datatype Row = Top | Bottom

  /** `getTankColor`: a critical tank is red; a warning or a level outside [20, 80] is yellow; the rest green. */
  function TankColor(level: real, status: string): (r: string)
    ensures r in {RED_HEX, YELLOW_HEX, GREEN_HEX}
    ensures r == RED_HEX <==> status == "critical"
    ensures r == YELLOW_HEX <==> status != "critical" && (status == "warning" || level > 80.0 || level < 20.0)
    ensures r == GREEN_HEX <==> status != "critical" && status != "warning" && 20.0 <= level <= 80.0
  {
    if status == "critical" then RED_HEX
    else if status == "warning" || level > 80.0 || level < 20.0 then YELLOW_HEX
    else GREEN_HEX
  }

  function RowPrefix(row: Row): string
  {
    match row
    case Top => "tank-top-"
    case Bottom => "tank-bottom-"
  }

  function RowY(row: Row): real
  {
    match row
    case Top => 50.0
    case Bottom => 250.0
  }

  /** The id text of a node: `tank-top-${id}` or `tank-bottom-${id}` for a tank, the name otherwise. */
  function NodeIdText(id: NodeId): string
  {
    match id
    case TankKey(row, n) => RowPrefix(row) + IntToString(n)
    case Fixed(name) => name
  }

  /** The id text of an edge: `control-to-tank-${i}` for a control edge, the name otherwise. */
  function EdgeIdText(id: EdgeId): string
  {
    match id
    case ControlToTank(n) => "control-to-tank-" + IntToString(n)
    case FixedEdge(name) => name
  }

  /** An edge as React Flow receives it, with its ids rendered to text. */
  function Rendered(link: Link): Edge
  {
    Edge(EdgeIdText(link.id), NodeIdText(link.source), NodeIdText(link.target), link.animated)
  }

  /** The node pushed for the tank at index `k` of its row. */
  function TankNode(tank: FluidLevel, row: Row, k: nat): Node
  {
    Node(TankKey(row, tank.id),
         Position(k as real * 150.0 + 50.0, RowY(row)),
         Gauge(tank.name, tank.level, tank.capacity),
         TankColor(tank.level, tank.status))
  }

  /** The control center, the pumping station and the processing unit, pushed after the tanks. */
  function PlantNodes(): seq<Node>
  {
    [ Node(CONTROL_CENTER, Position(275.0, 150.0),
           Plain("\U{1F3ED}\nControl Center\nMonitoring All Tanks"), "#1e293b"),
      Node(PUMP_STATION, Position(50.0, 400.0),
           Plain("⚙️\nPumping Station\nFluid Transfer"), "#7c2d12"),
      Node(PROCESSING_UNIT, Position(480.0, 400.0),
           Plain("\U{1F52C}\nProcessing Unit\nRefinement"), "#581c87") ]
  }

  /** One row's nodes, in the order of the row's tanks. */
  function RowNodes(tanks: seq<FluidLevel>, row: Row): seq<Node>
  {
    seq(|tanks|, k requires 0 <= k < |tanks| => TankNode(tanks[k], row, k))
  }

  /** The node list the builder returns. */
  function Layout(fluidLevels: seq<FluidLevel>): seq<Node>
  {
    RowNodes(Slice(fluidLevels, 0, 4), Top) + RowNodes(Slice(fluidLevels, 4, 8), Bottom) + PlantNodes()
  }

  /** The number of tanks that get a node: at most eight. */
  function Shown(n: nat): nat
  {
    if n < 8 then n else 8
  }

  /** The layout is the top row, the bottom row and the plant nodes, with `min(n, 8)` tanks in the rows. */
  lemma LayoutParts(fluidLevels: seq<FluidLevel>)
    ensures var top := RowNodes(Slice(fluidLevels, 0, 4), Top);
      var bottom := RowNodes(Slice(fluidLevels, 4, 8), Bottom);
      |top| + |bottom| == Shown(|fluidLevels|) &&
      |top| == (if |fluidLevels| < 4 then |fluidLevels| else 4) &&
      Layout(fluidLevels) == top + bottom + PlantNodes()
  {
  }

  /** The top-row nodes lead the layout. */
  lemma LayoutTop(fluidLevels: seq<FluidLevel>)
    ensures var ns := Layout(fluidLevels);
      forall k :: 0 <= k < Shown(|fluidLevels|) && k < 4 ==> ns[k] == TankNode(fluidLevels[k], Top, k)
  {
    LayoutParts(fluidLevels);
    var ns := Layout(fluidLevels);
    var top := RowNodes(Slice(fluidLevels, 0, 4), Top);
    forall k | 0 <= k < |top|
      ensures ns[k] == TankNode(fluidLevels[k], Top, k)
    {
      assert ns[k] == top[k];
    }
  }

  /** The bottom-row nodes follow the top row. */
  lemma LayoutBottom(fluidLevels: seq<FluidLevel>)
    ensures var ns := Layout(fluidLevels);
      forall k :: 4 <= k < Shown(|fluidLevels|) ==> ns[k] == TankNode(fluidLevels[k], Bottom, k - 4)
  {
    LayoutParts(fluidLevels);
    var ns := Layout(fluidLevels);
    var top := RowNodes(Slice(fluidLevels, 0, 4), Top);
    var bottom := RowNodes(Slice(fluidLevels, 4, 8), Bottom);
    forall k | 4 <= k < Shown(|fluidLevels|)
      ensures ns[k] == TankNode(fluidLevels[k], Bottom, k - 4)
    {
      assert |top| == 4;
      assert ns[k] == bottom[k - 4];
    }
  }

  /** Node `k` of the layout is the node of tank `k`, in its row at its index within the row. */
  lemma LayoutEntries(fluidLevels: seq<FluidLevel>)
    ensures var ns := Layout(fluidLevels);
      var t := Shown(|fluidLevels|);
      |ns| == t + 3 &&
      ns[t..] == PlantNodes() &&
      (forall k :: 0 <= k < t && k < 4 ==> ns[k] == TankNode(fluidLevels[k], Top, k)) &&
      (forall k :: 4 <= k < t ==> ns[k] == TankNode(fluidLevels[k], Bottom, k - 4))
  {
    LayoutParts(fluidLevels);
    LayoutTop(fluidLevels);
    LayoutBottom(fluidLevels);
    var ns := Layout(fluidLevels);
    var t := Shown(|fluidLevels|);
    assert ns[t..] == PlantNodes();
  }

  /**
   * The first `min(n, 8)` nodes are the tanks in order, tank `k` on the top
   * row at x = 150k + 50 when k < 4 and on the bottom row at x = 150(k - 4) + 50
   * otherwise, each id built from the tank's own id; the last three are the
   * plant nodes. Tanks from index 8 on get no node.
   */
  lemma LayoutShape(fluidLevels: seq<FluidLevel>)
    ensures var ns := Layout(fluidLevels);
      var t := Shown(|fluidLevels|);
      |ns| == t + 3 &&
      ns[t..] == PlantNodes() &&
      (forall k :: 0 <= k < t && k < 4 ==>
         ns[k].id == TankKey(Top, fluidLevels[k].id) &&
         ns[k].position == Position(k as real * 150.0 + 50.0, 50.0)) &&
      (forall k :: 4 <= k < t ==>
         ns[k].id == TankKey(Bottom, fluidLevels[k].id) &&
         ns[k].position == Position((k - 4) as real * 150.0 + 50.0, 250.0)) &&
      (forall k :: 0 <= k < t ==>
         ns[k].caption == Gauge(fluidLevels[k].name, fluidLevels[k].level, fluidLevels[k].capacity) &&
         ns[k].background == TankColor(fluidLevels[k].level, fluidLevels[k].status))
  {
    LayoutEntries(fluidLevels);
  }

  /** One `forEach` over a row: push the node of each tank of the row, in order. */
  method PushRow(nodes: seq<Node>, tanks: seq<FluidLevel>, row: Row) returns (pushed: seq<Node>)
    ensures pushed == nodes + RowNodes(tanks, row)
  {
    pushed := nodes;
    var index := 0;
    while index < |tanks|
      invariant 0 <= index <= |tanks|
      invariant |pushed| == |nodes| + index
      invariant pushed[..|nodes|] == nodes
      invariant forall k :: 0 <= k < index ==> pushed[|nodes| + k] == TankNode(tanks[k], row, k)
    {
      pushed := pushed + [TankNode(tanks[index], row, index)];
      index := index + 1;
    }
    assert pushed == nodes + RowNodes(tanks, row);
  }

  /**
   * `initialNodes`: push the top row (tanks 0 to 3), then the bottom row
   * (tanks 4 to 7), then the three plant nodes.
   */
  method BuildNodes(fluidLevels: seq<FluidLevel>) returns (nodes: seq<Node>)
    ensures nodes == Layout(fluidLevels)
  {
    var topTanks := Slice(fluidLevels, 0, 4);
    var bottomTanks := Slice(fluidLevels, 4, 8);
    nodes := PushRow([], topTanks, Top);
    nodes := PushRow(nodes, bottomTanks, Bottom);
    nodes := nodes + PlantNodes();
  }

  /** The edge from the control center to tank `i`: a top tank for i <= 4, a bottom tank otherwise. */
  function ControlEdge(i: int): Link
  {
    Link(ControlToTank(i), CONTROL_CENTER, TankKey(if i <= 4 then Top else Bottom, i), false)
  }

  /** The pump, processing and transfer edges, pushed after the control edges. */
  function PlantEdges(): seq<Link>
  {
    [ Link(FixedEdge("pump-to-tank-5"), PUMP_STATION, TankKey(Bottom, 5), true),
      Link(FixedEdge("tank-1-to-processing"), TankKey(Top, 1), PROCESSING_UNIT, true),
      Link(FixedEdge("tank-transfer-1"), TankKey(Top, 2), TankKey(Bottom, 6), true) ]
  }

  /** The edge list the builder returns. */
  function EdgeList(): seq<Link>
  {
    seq(8, i requires 0 <= i < 8 => ControlEdge(i + 1)) + PlantEdges()
  }

  /**
   * `initialEdges`: eleven edges whatever the tanks are, the control edges
   * for tanks 1 to 8 in order and then the three plant edges.
   */
  method BuildEdges() returns (edges: seq<Link>)
    ensures |edges| == 11
    ensures forall i :: 1 <= i <= 8 ==> edges[i - 1] == ControlEdge(i)
    ensures edges[8..] == PlantEdges()
    ensures edges == EdgeList()
  {
    edges := [];
    for i := 1 to 9
      invariant |edges| == i - 1
      invariant forall j :: 1 <= j < i ==> edges[j - 1] == ControlEdge(j)
    {
      edges := edges + [ControlEdge(i)];
    }
    edges := edges + PlantEdges();
  }

  /** The control edges go from the control center, unanimated, to tanks 1 to 4 on top and 5 to 8 below. */
  lemma ControlEdgesShape()
    ensures forall i :: 0 <= i < 8 ==>
      EdgeList()[i].source == CONTROL_CENTER && !EdgeList()[i].animated &&
      EdgeList()[i].target == TankKey(if i < 4 then Top else Bottom, i + 1)
  {
    var es := EdgeList();
    forall i | 0 <= i < 8
      ensures es[i] == ControlEdge(i + 1)
    {
    }
  }

  /** The node ids, in order. */
  function Ids(nodes: seq<Node>): seq<NodeId>
  {
    seq(|nodes|, k requires 0 <= k < |nodes| => nodes[k].id)
  }

  /** The text of a one-digit number is that digit. */
  lemma OneDigit(i: int)
    requires 0 <= i < 10
    ensures IntToString(i) == ["0123456789"[i]]
  {
  }

  /** The ids a one-digit tank id or a plant node can have. */
  predicate ShortId(id: NodeId)
  {
    match id
    case TankKey(_, n) => 0 <= n < 10
    case Fixed(name) => name in ["control-center", "pump-station", "processing-unit"]
  }

  /** Two one-digit tank ids have the same text exactly when row and number agree. */
  lemma TankTextsDistinct(r1: Row, n1: int, r2: Row, n2: int)
    requires 0 <= n1 < 10 && 0 <= n2 < 10
    ensures NodeIdText(TankKey(r1, n1)) == NodeIdText(TankKey(r2, n2)) <==> r1 == r2 && n1 == n2
  {
    OneDigit(n1);
    OneDigit(n2);
    var x, y := NodeIdText(TankKey(r1, n1)), NodeIdText(TankKey(r2, n2));
    if x == y {
      assert |RowPrefix(r1)| == |RowPrefix(r2)|;
      assert r1 == r2;
      assert x[|x| - 1] == y[|y| - 1];
    }
  }

  /**
   * On one-digit tank ids and the plant names the rendering is one-to-one:
   * two such ids have the same text exactly when they are the same id.
   */
  lemma NodeIdTextInjective(a: NodeId, b: NodeId)
    requires ShortId(a) && ShortId(b)
    ensures NodeIdText(a) == NodeIdText(b) <==> a == b
  {
    if a.TankKey? && b.TankKey? {
      TankTextsDistinct(a.row, a.n, b.row, b.n);
    } else if a.TankKey? {
      assert NodeIdText(a)[0] == 't' != NodeIdText(b)[0];
    } else if b.TankKey? {
      assert NodeIdText(b)[0] == 't' != NodeIdText(a)[0];
    }
  }

  /** The plant edges' ends render to the texts the source writes out. */
  lemma PlantEdgeTexts()
    ensures Rendered(PlantEdges()[0]) == Edge("pump-to-tank-5", "pump-station", "tank-bottom-5", true)
    ensures Rendered(PlantEdges()[1]) == Edge("tank-1-to-processing", "tank-top-1", "processing-unit", true)
    ensures Rendered(PlantEdges()[2]) == Edge("tank-transfer-1", "tank-top-2", "tank-bottom-6", true)
  {
    OneDigit(5);
    OneDigit(1);
    OneDigit(2);
    OneDigit(6);
  }

  /**
   * Applied to the oil rig page's mount tank list (an assumed input), the
   * node ids are tanks 1 to 4 on top, tank 5 below, then the plant nodes.
   */
  lemma MountNodeIds()
    ensures Ids(Layout(MountFluids())) ==
      [ TankKey(Top, 1), TankKey(Top, 2), TankKey(Top, 3), TankKey(Top, 4), TankKey(Bottom, 5),
        CONTROL_CENTER, PUMP_STATION, PROCESSING_UNIT ]
  {
    LayoutEntries(MountFluids());
  }

  /** Over the nodes built from the page's mount tank list (an assumed input), every edge starts at a node. */
  lemma MountEdgeSources()
    ensures forall i :: 0 <= i < |EdgeList()| ==> EdgeList()[i].source in Ids(Layout(MountFluids()))
  {
    MountNodeIds();
    var es := EdgeList();
    forall i | 0 <= i < |es|
      ensures es[i].source in Ids(Layout(MountFluids()))
    {
      if i < 8 {
        assert es[i] == ControlEdge(i + 1);
      } else {
        assert es[i] == PlantEdges()[i - 8];
      }
    }
  }

  /**
   * Over the nodes built from the page's mount tank list (an assumed input),
   * the edges that end at no node are exactly the ones into the absent tanks
   * 6, 7 and 8: three control edges and the tank transfer edge.
   */
  lemma MountEdgesDangle()
    ensures forall i :: 0 <= i < |EdgeList()| ==>
      (EdgeList()[i].target !in Ids(Layout(MountFluids())) <==> 5 <= i < 8 || i == 10)
  {
    MountNodeIds();
    var es := EdgeList();
    forall i | 0 <= i < |es|
      ensures es[i].target !in Ids(Layout(MountFluids())) <==> 5 <= i < 8 || i == 10
    {
      if i < 8 {
        assert es[i] == ControlEdge(i + 1);
      } else {
        assert es[i] == PlantEdges()[i - 8];
      }
    }
  }

  /**
   * Built from the page's mount tank list (an assumed input), the statuses
   * `high` and `low` are not recognised, so only the level decides: Mud
   * Circulation at 88 is yellow and the other four are green.
   */
  lemma MountTankColors()
    ensures var ns := Layout(MountFluids());
      [ns[0].background, ns[1].background, ns[2].background, ns[3].background, ns[4].background] ==
      [GREEN_HEX, GREEN_HEX, GREEN_HEX, YELLOW_HEX, GREEN_HEX]
  {
    LayoutEntries(MountFluids());
  }

  /**
   * Applied to the oil rig page's tank list after a triggered breach poll
   * (an assumed input), the builder gives no green tank.
   */
  lemma BreachTanksNotGreen(p: Page, d: Draws)
    requires Triggered(p)
    ensures var ns := Layout(PollStep(p, d).fluidLevels);
      forall k :: 0 <= k < |ns| - 3 ==> ns[k].background in {RED_HEX, YELLOW_HEX}
  {
    var f := PollStep(p, d).fluidLevels;
    PollCompromises(p, d);
    LayoutEntries(f);
  }
}
