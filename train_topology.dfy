/**
 * The train network topology view: four stations on a circular track, two
 * traffic-light nodes read from the page's first and fourth lights, and one
 * train node placed and labelled from the first train that is en route.
 */
module TrainTopology {
  import opened Js
  import opened Ui
  import opened TrainControl

  const EN_ROUTE := "En Route"
  const GREEN_HEX := "#16a34a"
  const YELLOW_HEX := "#eab308"
  const RED_HEX := "#dc2626"
  const STATION_HEX := "#1e293b"
  const SIGNAL_ICON := "\U{1F6A6}"

  /** A node's label: plain text, or the train caption whose speed is printed as a number. */
  datatype Label = Plain(text: string) | Locomotive(trainId: string, speedKmh: real)

  datatype Node = Node(id: string, position: Position, caption: Label, background: string)

  /** `getTrafficLightColor`: the hex colour of a light; unknown statuses are drawn green. */
  function TrafficLightColor(status: string): (r: string)
    ensures r in {GREEN_HEX, YELLOW_HEX, RED_HEX}
    ensures r == YELLOW_HEX <==> status == "yellow"
    ensures r == RED_HEX <==> status == "red"
    ensures r == GREEN_HEX <==> status != "yellow" && status != "red"
  {
    match status
    case "green" => GREEN_HEX
    case "yellow" => YELLOW_HEX
    case "red" => RED_HEX
    case _ => GREEN_HEX
  }

  /**
   * The index `trains.find(t => t.status === 'En Route')` stops at:
   * the first en-route train, or `|trains|` when there is none.
   */
  function FirstEnRoute(trains: seq<Train>): (r: nat)
    ensures r <= |trains|
    ensures forall j :: 0 <= j < r ==> trains[j].status != EN_ROUTE
    ensures r < |trains| ==> trains[r].status == EN_ROUTE
    decreases |trains|
  {
    if trains == [] then 0
    else if trains[0].status == EN_ROUTE then 0
    else 1 + FirstEnRoute(trains[1..])
  }

  /** `trains.find(t => t.status === 'En Route')`. */
  function FindEnRoute(trains: seq<Train>): Option<Train>
  {
    var i := FirstEnRoute(trains);
    if i < |trains| then Some(trains[i]) else None
  }

  /** `getTrainPosition`: offset from (250, 150) by the en-route train's speed. */
  function TrainPosition(trains: seq<Train>): (r: Position)
    ensures FindEnRoute(trains).None? ==> r == Position(250.0, 150.0)
    ensures FindEnRoute(trains).Some? ==>
      var speed := FindEnRoute(trains).value.speed;
      r == Position(250.0 + speed / 2.0, 150.0 + speed / 4.0)
  {
    match FindEnRoute(trains)
    case Some(moving) =>
      var progress := (moving.speed / 100.0) * 0.5;
      Position(250.0 + progress * 100.0, 150.0 + progress * 50.0)
    case None => Position(250.0, 150.0)
  }

  /** `lights[i]?.status`. */
  function StatusAt(lights: seq<TrafficLight>, i: nat): Option<string>
  {
    if i < |lights| then Some(lights[i].status) else None
  }

  /** The three-line text of a light node: the signal icon, the shown status and the place. */
  function SignalCaption(text: string, place: string): Label
  {
    Plain(SIGNAL_ICON + "\n" + text + "\n" + place)
  }

  /** A traffic-light node: label `lights[i]?.status?.toUpperCase() || upperDefault`, colour of `status || lowerDefault`. */
  function SignalNode(
    lights: seq<TrafficLight>, i: nat, id: string, at: Position,
    lowerDefault: string, upperDefault: string, place: string): Node
  {
    var shown := match StatusAt(lights, i) case Some(s) => ToUpperCase(s) case None => "";
    var drawn := match StatusAt(lights, i) case Some(s) => s case None => "";
    Node(id, at,
         SignalCaption(Or(shown, upperDefault), place),
         TrafficLightColor(Or(drawn, lowerDefault)))
  }

  /** The train node: the en-route train's id and speed, `'T003'` and 80 when absent or falsy. */
  function TrainNode(trains: seq<Train>): Node
  {
    var moving := FindEnRoute(trains);
    var id := match moving case Some(t) => t.id case None => "";
    var speed := match moving case Some(t) => t.speed case None => 0.0;
    Node("train-active", TrainPosition(trains),
         Locomotive(Or(id, "T003"), if speed == 0.0 then 80.0 else speed), RED_HEX)
  }

  function StationNode(id: string, at: Position, text: string): Node
  {
    Node(id, at, Plain(text), STATION_HEX)
  }

  /** `initialNodes`: four stations, the two traffic lights and the train, in that order. */
  function Nodes(lights: seq<TrafficLight>, trains: seq<Train>): seq<Node>
  {
    [ StationNode("station-1", Position(200.0, 50.0), "Platform 1\nNorth Station"),
      StationNode("station-2", Position(400.0, 200.0), "Platform 2\nEast Station"),
      StationNode("station-3", Position(200.0, 350.0), "Platform 3\nSouth Station"),
      StationNode("station-4", Position(0.0, 200.0), "Platform 4\nWest Station"),
      SignalNode(lights, 0, "traffic-1", Position(300.0, 120.0), "green", "GREEN", "Main Junction"),
      SignalNode(lights, 3, "traffic-2", Position(100.0, 280.0), "yellow", "YELLOW", "Depot Exit"),
      TrainNode(trains) ]
  }

  /** `initialEdges`: the circular track. */
  function Edges(): seq<Edge>
  {
    [ Edge("track-1-2", "station-1", "station-2", true),
      Edge("track-2-3", "station-2", "station-3", true),
      Edge("track-3-4", "station-3", "station-4", true),
      Edge("track-4-1", "station-4", "station-1", true) ]
  }

  /** Seven nodes whatever the input: four stations, two lights, one train, with fixed ids. */
  lemma NodesShape(lights: seq<TrafficLight>, trains: seq<Train>)
    ensures var ns := Nodes(lights, trains);
      |ns| == 7 &&
      [ns[0].id, ns[1].id, ns[2].id, ns[3].id] == ["station-1", "station-2", "station-3", "station-4"] &&
      ns[4].id == "traffic-1" && ns[5].id == "traffic-2" && ns[6].id == "train-active" &&
      ns[6].position == TrainPosition(trains)
  {
  }

  /** The track is the cycle station-1, station-2, station-3, station-4, back to station-1. */
  lemma EdgesFormCycle()
    ensures var es := Edges();
      |es| == 4 &&
      [es[0].source, es[1].source, es[2].source, es[3].source] ==
        ["station-1", "station-2", "station-3", "station-4"] &&
      es[0].target == es[1].source && es[1].target == es[2].source &&
      es[2].target == es[3].source && es[3].target == es[0].source
  {
  }

  /** The colour a light node draws: the light's own status, or the default when absent or empty. */
  function ExpectedColor(lights: seq<TrafficLight>, i: nat, lowerDefault: string): string
  {
    if i < |lights| && lights[i].status != "" then TrafficLightColor(lights[i].status)
    else TrafficLightColor(lowerDefault)
  }

  /** The text a light node shows: the upper-cased status, or the default when absent or empty. */
  function ExpectedText(lights: seq<TrafficLight>, i: nat, upperDefault: string): string
  {
    if i < |lights| && lights[i].status != "" then ToUpperCase(lights[i].status) else upperDefault
  }

  /** A light node falls back to its defaults exactly when the entry is missing or its status is empty. */
  lemma SignalNodeFallback(
    lights: seq<TrafficLight>, i: nat, id: string, at: Position,
    lowerDefault: string, upperDefault: string, place: string)
    ensures var n := SignalNode(lights, i, id, at, lowerDefault, upperDefault, place);
      n.id == id && n.position == at &&
      n.background == ExpectedColor(lights, i, lowerDefault) &&
      n.caption == SignalCaption(ExpectedText(lights, i, upperDefault), place)
  {
    if i < |lights| {
      assert |ToUpperCase(lights[i].status)| == |lights[i].status|;
    }
  }

  /**
   * The two light nodes read `lights[0]` and `lights[3]`; a missing entry or
   * an empty status falls back to green and yellow respectively, in both
   * the text and the colour.
   */
  lemma SignalFallbacks(lights: seq<TrafficLight>, trains: seq<Train>)
    ensures var ns := Nodes(lights, trains);
      ns[4].background == ExpectedColor(lights, 0, "green") &&
      ns[4].caption == SignalCaption(ExpectedText(lights, 0, "GREEN"), "Main Junction") &&
      ns[5].background == ExpectedColor(lights, 3, "yellow") &&
      ns[5].caption == SignalCaption(ExpectedText(lights, 3, "YELLOW"), "Depot Exit")
  {
    var ns := Nodes(lights, trains);
    assert ns[4] == SignalNode(lights, 0, "traffic-1", Position(300.0, 120.0), "green", "GREEN", "Main Junction");
    assert ns[5] == SignalNode(lights, 3, "traffic-2", Position(100.0, 280.0), "yellow", "YELLOW", "Depot Exit");
    SignalNodeFallback(lights, 0, "traffic-1", Position(300.0, 120.0), "green", "GREEN", "Main Junction");
    SignalNodeFallback(lights, 3, "traffic-2", Position(100.0, 280.0), "yellow", "YELLOW", "Depot Exit");
  }

  /**
   * The train caption falls back to `'T003'` when no train is en route or
   * its id is empty, and to 80 km/h when no train is en route or its speed is 0.
   */
  lemma TrainCaptionFallbacks(lights: seq<TrafficLight>, trains: seq<Train>)
    ensures var caption := Nodes(lights, trains)[6].caption;
      var i := FirstEnRoute(trains);
      caption.Locomotive? &&
      (i == |trains| ==> caption == Locomotive("T003", 80.0)) &&
      (i < |trains| ==>
         caption.trainId == (if trains[i].id == "" then "T003" else trains[i].id) &&
         caption.speedKmh == (if trains[i].speed == 0.0 then 80.0 else trains[i].speed))
  {
  }

  /** With no train en route the train node sits at (250, 150). */
  lemma PositionWithoutEnRouteTrain(trains: seq<Train>)
    requires forall j :: 0 <= j < |trains| ==> trains[j].status != EN_ROUTE
    ensures TrainPosition(trains) == Position(250.0, 150.0)
  {
  }

  /** Only the first en-route train counts: later en-route trains do not move the node. */
  lemma PositionUsesFirstEnRoute(trains: seq<Train>, i: nat)
    requires i < |trains| && trains[i].status == EN_ROUTE
    requires forall j :: 0 <= j < i ==> trains[j].status != EN_ROUTE
    ensures TrainPosition(trains) == Position(250.0 + trains[i].speed / 2.0, 150.0 + trains[i].speed / 4.0)
  {
  }

  /** At mount the en-route train is T003 at 80 km/h, so the node is drawn at (290, 170). */
  lemma MountPosition()
    ensures TrainPosition(MountTrains()) == Position(290.0, 170.0)
  {
    PositionUsesFirstEnRoute(MountTrains(), 2);
  }

  /**
   * After a train breach no train is en route: in the recomputed node list
   * the train node falls back to (250, 150) and the caption to `'T003'` at
   * 80 km/h, and both light nodes are red or yellow when the page has at
   * least four lights.
   */
  lemma BreachParksTrainNode(p: Page, d: Draws)
    requires Triggered(p)
    ensures var r := PollStep(p, d);
      var ns := Nodes(r.trafficLights, r.trains);
      ns[6].position == Position(250.0, 150.0) &&
      ns[6].caption == Locomotive("T003", 80.0) &&
      (|r.trafficLights| >= 4 ==> ns[4].background != GREEN_HEX && ns[5].background != GREEN_HEX)
  {
    var r := PollStep(p, d);
    PollCompromises(p, d);
    PositionWithoutEnRouteTrain(r.trains);
  }
}
