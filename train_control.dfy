/**
 * The train control page: a once-a-second poll of the `trainBreach` store
 * key that, when it reads `'true'` on an unbreached page, turns every
 * signal red or yellow, stops every train and removes the key; and a
 * reset that writes the baseline literals back.
 */
module TrainControl {
  import opened Browser

  datatype TrafficLight = TrafficLight(id: int, location: string, status: string, lastChange: string)

  datatype Train = Train(
    id: string, route: string, platform: string, status: string, speed: real, nextStop: string)

  const BREACH_KEY := "trainBreach"
  const EMERGENCY_STOP := "Emergency Stop"
  const SIGNAL_FAILURE := "Signal Failure"

  const CLASS_ONLINE := "bg-online text-online-foreground"
  const CLASS_ACCENT := "bg-accent text-accent-foreground"
  const CLASS_WARNING := "bg-warning text-warning-foreground"
  const CLASS_OFFLINE := "bg-offline text-offline-foreground"
  const CLASS_MUTED := "bg-muted text-muted-foreground"

  function MountLights(): seq<TrafficLight>
  {
    [ TrafficLight(1, "Platform 1 Entry", "green", "14:28"),
      TrafficLight(2, "Platform 2 Entry", "green", "14:25"),
      TrafficLight(3, "Main Junction", "red", "14:30"),
      TrafficLight(4, "Depot Exit", "yellow", "14:29"),
      TrafficLight(5, "Bridge Crossing", "green", "14:27") ]
  }

  function MountTrains(): seq<Train>
  {
    [ Train("T001", "North Line", "1", "Arrived", 0.0, "Central Station"),
      Train("T002", "East Line", "3", "Departing", 15.0, "Industrial Zone"),
      Train("T003", "South Line", "2", "En Route", 80.0, "Platform 2"),
      Train("T004", "West Line", "-", "Maintenance", 0.0, "Depot"),
      Train("T005", "Express", "4", "Boarding", 0.0, "Airport Terminal") ]
  }

  /** The light literal that resetting writes (a second copy of the baseline). */
  function ResetLights(): seq<TrafficLight>
  {
    [ TrafficLight(1, "Platform 1 Entry", "green", "14:28"),
      TrafficLight(2, "Platform 2 Entry", "green", "14:25"),
      TrafficLight(3, "Main Junction", "red", "14:30"),
      TrafficLight(4, "Depot Exit", "yellow", "14:29"),
      TrafficLight(5, "Bridge Crossing", "green", "14:27") ]
  }

  /** The train literal that resetting writes (a second copy of the baseline). */
  function ResetTrains(): seq<Train>
  {
    [ Train("T001", "North Line", "1", "Arrived", 0.0, "Central Station"),
      Train("T002", "East Line", "3", "Departing", 15.0, "Industrial Zone"),
      Train("T003", "South Line", "2", "En Route", 80.0, "Platform 2"),
      Train("T004", "West Line", "-", "Maintenance", 0.0, "Depot"),
      Train("T005", "Express", "4", "Boarding", 0.0, "Airport Terminal") ]
  }

  /** The page's state together with the origin's store, which the poll reads and writes. */
  datatype Page = Page(
    isBreached: bool, trafficLights: seq<TrafficLight>, trains: seq<Train>, store: Store)

  function Mounted(store: Store): Page
  {
    Page(false, MountLights(), MountTrains(), store)
  }

  /** A random draw above 0.7 turns the light red, anything else yellow. */
  function CompromiseLight(light: TrafficLight, d: Draw): TrafficLight
  {
    light.(status := if d > 0.7 then "red" else "yellow")
  }

  /** A random draw above 0.5 gives an emergency stop, anything else a signal failure. */
  function CompromiseTrain(train: Train, d: Draw): Train
  {
    train.(status := if d > 0.5 then EMERGENCY_STOP else SIGNAL_FAILURE, speed := 0.0)
  }

  function CompromiseLights(lights: seq<TrafficLight>, draws: nat -> Draw): seq<TrafficLight>
  {
    seq(|lights|, i requires 0 <= i < |lights| => CompromiseLight(lights[i], draws(i)))
  }

  function CompromiseTrains(trains: seq<Train>, draws: nat -> Draw): seq<Train>
  {
    seq(|trains|, i requires 0 <= i < |trains| => CompromiseTrain(trains[i], draws(i)))
  }

  /** The draws one poll consumes, one stream per random field. */
  datatype Draws = Draws(lightStatus: nat -> Draw, trainStatus: nat -> Draw)

  /** The poll would act: the key reads `'true'` and the page is not yet breached. */
  predicate Triggered(p: Page)
  {
    HoldsTrue(p.store, BREACH_KEY) && !p.isBreached
  }

  /** `checkBreach`; light `i` uses `d.lightStatus(i)` and train `i` uses `d.trainStatus(i)`. */
  function PollStep(p: Page, d: Draws): Page
  {
    if Triggered(p) then
      Page(true, CompromiseLights(p.trafficLights, d.lightStatus),
           CompromiseTrains(p.trains, d.trainStatus), RemoveItem(p.store, BREACH_KEY))
    else
      p
  }

  /** `resetSystems`: clear the flag and write the baseline literals; the store is not touched. */
  function ResetStep(p: Page): Page
  {
    p.(isBreached := false, trafficLights := ResetLights(), trains := ResetTrains())
  }

  /** Every light is red or yellow, with id, location and last change kept. */
  predicate LightsCompromised(before: seq<TrafficLight>, after: seq<TrafficLight>)
  {
    |after| == |before| &&
    forall i :: 0 <= i < |before| ==>
      (after[i].status == "red" || after[i].status == "yellow") &&
      after[i].id == before[i].id && after[i].location == before[i].location &&
      after[i].lastChange == before[i].lastChange
  }

  /** Every train is stopped in a failure status, with its other fields kept. */
  predicate TrainsCompromised(before: seq<Train>, after: seq<Train>)
  {
    |after| == |before| &&
    forall i :: 0 <= i < |before| ==>
      (after[i].status == EMERGENCY_STOP || after[i].status == SIGNAL_FAILURE) &&
      after[i].speed == 0.0 &&
      after[i].id == before[i].id && after[i].route == before[i].route &&
      after[i].platform == before[i].platform && after[i].nextStop == before[i].nextStop
  }

  /** Compromising the lights gives red or yellow lights that keep their identity. */
  lemma CompromiseLightsShape(lights: seq<TrafficLight>, draws: nat -> Draw)
    ensures LightsCompromised(lights, CompromiseLights(lights, draws))
  {
    var r := CompromiseLights(lights, draws);
    forall i | 0 <= i < |lights|
      ensures (r[i].status == "red" || r[i].status == "yellow") &&
        r[i].id == lights[i].id && r[i].location == lights[i].location &&
        r[i].lastChange == lights[i].lastChange
    {
      assert r[i] == CompromiseLight(lights[i], draws(i));
    }
  }

  /** Compromising the trains stops them in a failure status and keeps their other fields. */
  lemma CompromiseTrainsShape(trains: seq<Train>, draws: nat -> Draw)
    ensures TrainsCompromised(trains, CompromiseTrains(trains, draws))
  {
    var r := CompromiseTrains(trains, draws);
    forall i | 0 <= i < |trains|
      ensures (r[i].status == EMERGENCY_STOP || r[i].status == SIGNAL_FAILURE) &&
        r[i].speed == 0.0 &&
        r[i].id == trains[i].id && r[i].route == trains[i].route &&
        r[i].platform == trains[i].platform && r[i].nextStop == trains[i].nextStop
    {
      assert r[i] == CompromiseTrain(trains[i], draws(i));
    }
  }

  /** A poll changes the page exactly when it is triggered; otherwise page and store stay as they are. */
  lemma PollActsOnlyWhenTriggered(p: Page, d: Draws)
    ensures PollStep(p, d) != p <==> Triggered(p)
  {
  }

  /** A triggered poll flags the breach, compromises both lists and removes only the breach key. */
  lemma PollCompromises(p: Page, d: Draws)
    requires Triggered(p)
    ensures var r := PollStep(p, d);
      r.isBreached && BREACH_KEY !in r.store &&
      (forall k :: k in p.store && k != BREACH_KEY ==> k in r.store && r.store[k] == p.store[k]) &&
      r.store.Keys == p.store.Keys - {BREACH_KEY} &&
      LightsCompromised(p.trafficLights, r.trafficLights) &&
      TrainsCompromised(p.trains, r.trains)
  {
    CompromiseLightsShape(p.trafficLights, d.lightStatus);
    CompromiseTrainsShape(p.trains, d.trainStatus);
  }

  /** A second poll right after a first never acts again: one write is observed at most once. */
  lemma PollIdempotent(p: Page, d: Draws, d2: Draws)
    ensures PollStep(PollStep(p, d), d2) == PollStep(p, d)
  {
  }

  /** A flag written while the page is breached is not consumed: it stays in the store. */
  lemma FlagPersistsWhileBreached(p: Page, d: Draws)
    requires p.isBreached
    ensures var q := p.(store := SetItem(p.store, BREACH_KEY, "true"));
      PollStep(q, d) == q && HoldsTrue(PollStep(q, d).store, BREACH_KEY)
  {
  }

  /** Such a left-over flag breaches the page again at the first poll after a reset. */
  lemma LeftOverFlagFiresAfterReset(p: Page, d: Draws)
    requires p.isBreached
    ensures var q := p.(store := SetItem(p.store, BREACH_KEY, "true"));
      var r := PollStep(ResetStep(PollStep(q, d)), d);
      r.isBreached && BREACH_KEY !in r.store &&
      LightsCompromised(MountLights(), r.trafficLights)
  {
    var q := p.(store := SetItem(p.store, BREACH_KEY, "true"));
    FlagPersistsWhileBreached(p, d);
    ResetReturnsToMount(q);
    PollCompromises(ResetStep(q), d);
  }

  /** A value other than `'true'` (such as `'trigger'`) is never acted on and never removed. */
  lemma OtherValuesIgnored(p: Page, value: string, d: Draws)
    requires value != "true"
    ensures var q := p.(store := SetItem(p.store, BREACH_KEY, value));
      PollStep(q, d) == q
  {
  }

  /** Resetting gives the mount state over the same store, from any state; it is idempotent. */
  lemma ResetReturnsToMount(p: Page)
    ensures ResetStep(p) == Mounted(p.store)
    ensures ResetStep(ResetStep(p)) == ResetStep(p)
  {
  }

  /**
   * A breach need not change every light: with high draws, the Main
   * Junction light, red at mount, is red again after the breach.
   */
  lemma BreachCanKeepLightColour(store: Store)
    ensures var p := Mounted(SetItem(store, BREACH_KEY, "true"));
      var r := PollStep(p, Draws(_ => 0.9, _ => 0.9));
      r.isBreached && r.trafficLights[2].status == MountLights()[2].status
  {
    var high: nat -> Draw := _ => 0.9;
    var p := Mounted(SetItem(store, BREACH_KEY, "true"));
    assert Triggered(p);
    var lights := CompromiseLights(p.trafficLights, high);
    assert lights[2] == CompromiseLight(MountLights()[2], high(2));
  }

  // The pure classifiers of the markup.

  /** `getLightColor`: online, warning and offline for green, yellow and red; muted otherwise. */
  function LightColor(status: string): (r: string)
    ensures r == "bg-online" <==> status == "green"
    ensures r == "bg-warning" <==> status == "yellow"
    ensures r == "bg-offline" <==> status == "red"
    ensures r == "bg-muted" <==> status != "green" && status != "yellow" && status != "red"
  {
    match status
    case "green" => "bg-online"
    case "yellow" => "bg-warning"
    case "red" => "bg-offline"
    case _ => "bg-muted"
  }

  /** `getStatusColor` for trains. */
  function StatusColor(status: string): (r: string)
    ensures r == CLASS_ONLINE <==> status in {"Arrived", "Departing", "Boarding"}
    ensures r == CLASS_ACCENT <==> status == "En Route"
    ensures r == CLASS_WARNING <==> status == "Maintenance"
    ensures r == CLASS_OFFLINE <==> status in {EMERGENCY_STOP, SIGNAL_FAILURE}
    ensures r == CLASS_MUTED <==>
      status !in {"Arrived", "Departing", "Boarding", "En Route", "Maintenance", EMERGENCY_STOP, SIGNAL_FAILURE}
  {
    match status
    case "Arrived" => CLASS_ONLINE
    case "Departing" => CLASS_ONLINE
    case "Boarding" => CLASS_ONLINE
    case "En Route" => CLASS_ACCENT
    case "Maintenance" => CLASS_WARNING
    case "Emergency Stop" => CLASS_OFFLINE
    case "Signal Failure" => CLASS_OFFLINE
    case _ => CLASS_MUTED
  }

  /** After a triggered poll, every train is drawn offline and no light is drawn green. */
  lemma BreachShownOffline(p: Page, d: Draws)
    requires Triggered(p)
    ensures var r := PollStep(p, d);
      (forall t :: t in r.trains ==> StatusColor(t.status) == CLASS_OFFLINE) &&
      (forall l :: l in r.trafficLights ==> LightColor(l.status) in {"bg-warning", "bg-offline"})
  {
    var r := PollStep(p, d);
    PollCompromises(p, d);
    forall t | t in r.trains
      ensures StatusColor(t.status) == CLASS_OFFLINE
    {
      var i :| 0 <= i < |r.trains| && r.trains[i] == t;
    }
    forall l | l in r.trafficLights
      ensures LightColor(l.status) in {"bg-warning", "bg-offline"}
    {
      var i :| 0 <= i < |r.trafficLights| && r.trafficLights[i] == l;
    }
  }

  // The page itself, with the state it updates in place.

  class TrainControlPage {
    var isBreached: bool
    var trafficLights: seq<TrafficLight>
    var trains: seq<Train>
    var store: Store

    function State(): Page
      reads this
    {
      Page(isBreached, trafficLights, trains, store)
    }

    /** Mounting over whatever the origin's store holds. */
    constructor (initialStore: Store)
      ensures State() == Mounted(initialStore)
    {
      isBreached := false;
      trafficLights := MountLights();
      trains := MountTrains();
      store := initialStore;
    }

    /** One run of the polling interval's callback. */
    method CheckBreach(d: Draws)
      modifies this
      ensures State() == PollStep(old(State()), d)
    {
      if HoldsTrue(store, BREACH_KEY) && !isBreached {
        isBreached := true;
        trafficLights := CompromiseLights(trafficLights, d.lightStatus);
        trains := CompromiseTrains(trains, d.trainStatus);
        store := RemoveItem(store, BREACH_KEY);
      }
    }

    /** The Reset Systems button's handler. */
    method ResetSystems()
      modifies this
      ensures State() == ResetStep(old(State()))
    {
      isBreached := false;
      trafficLights := ResetLights();
      trains := ResetTrains();
    }
  }
}
