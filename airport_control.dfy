/**
 * The airport control page: a once-a-second poll of the `airportBreach`
 * store key that, when it reads `'true'` on an unbreached page, takes every
 * power system offline or to warning with a random load, delays or cancels
 * every flight and removes the key; and a reset that writes the baseline
 * literals back.
 */
module AirportControl {
  import opened Browser

  datatype PowerSystem = PowerSystem(id: int, name: string, status: string, load: real)

  /** A flight; `kind` is the source's `type` field (`Arrival` or `Departure`). */
  datatype Flight = Flight(id: string, kind: string, gate: string, status: string, eta: string)

  const BREACH_KEY := "airportBreach"

  const CLASS_ONLINE := "bg-online text-online-foreground"
  const CLASS_WARNING := "bg-warning text-warning-foreground"
  const CLASS_OFFLINE := "bg-offline text-offline-foreground"
  const CLASS_MUTED := "bg-muted text-muted-foreground"

  function MountSystems(): seq<PowerSystem>
  {
    [ PowerSystem(1, "Terminal A Power", "online", 85.0),
      PowerSystem(2, "Terminal B Power", "online", 72.0),
      PowerSystem(3, "Runway Lighting", "online", 95.0),
      PowerSystem(4, "Control Tower", "online", 60.0),
      PowerSystem(5, "Baggage Systems", "online", 78.0) ]
  }

  function MountFlights(): seq<Flight>
  {
    [ Flight("AA101", "Arrival", "A12", "On Time", "14:30"),
      Flight("UA205", "Departure", "B7", "Boarding", "15:15"),
      Flight("DL342", "Arrival", "A8", "Delayed", "14:45"),
      Flight("SW128", "Departure", "B12", "On Time", "15:45"),
      Flight("BA891", "Arrival", "A15", "Landing", "14:25") ]
  }

  /** The power-system literal that resetting writes (a second copy of the baseline). */
  function ResetSystemsLiteral(): seq<PowerSystem>
  {
    [ PowerSystem(1, "Terminal A Power", "online", 85.0),
      PowerSystem(2, "Terminal B Power", "online", 72.0),
      PowerSystem(3, "Runway Lighting", "online", 95.0),
      PowerSystem(4, "Control Tower", "online", 60.0),
      PowerSystem(5, "Baggage Systems", "online", 78.0) ]
  }

  /** The flight literal that resetting writes (a second copy of the baseline). */
  function ResetFlightsLiteral(): seq<Flight>
  {
    [ Flight("AA101", "Arrival", "A12", "On Time", "14:30"),
      Flight("UA205", "Departure", "B7", "Boarding", "15:15"),
      Flight("DL342", "Arrival", "A8", "Delayed", "14:45"),
      Flight("SW128", "Departure", "B12", "On Time", "15:45"),
      Flight("BA891", "Arrival", "A15", "Landing", "14:25") ]
  }

  /** The page's state together with the origin's store. */
  datatype Page = Page(
    isBreached: bool, powerSystems: seq<PowerSystem>, flights: seq<Flight>, store: Store)

  function Mounted(store: Store): Page
  {
    Page(false, MountSystems(), MountFlights(), store)
  }

  /** One draw above 0.5 takes the system offline, else to warning; another scales to the load. */
  function CompromiseSystem(system: PowerSystem, statusDraw: Draw, loadDraw: Draw): PowerSystem
  {
    system.(status := if statusDraw > 0.5 then "offline" else "warning", load := loadDraw * 100.0)
  }

  /** A draw above 0.5 delays the flight, anything else cancels it. */
  function CompromiseFlight(flight: Flight, d: Draw): Flight
  {
    flight.(status := if d > 0.5 then "Delayed" else "Cancelled")
  }

  function CompromiseSystems(systems: seq<PowerSystem>, statusDraws: nat -> Draw, loadDraws: nat -> Draw)
    : seq<PowerSystem>
  {
    seq(|systems|, i requires 0 <= i < |systems| =>
      CompromiseSystem(systems[i], statusDraws(i), loadDraws(i)))
  }

  function CompromiseFlights(flights: seq<Flight>, draws: nat -> Draw): seq<Flight>
  {
    seq(|flights|, i requires 0 <= i < |flights| => CompromiseFlight(flights[i], draws(i)))
  }

  /** The draws one poll consumes, one stream per random field. */
  datatype Draws = Draws(systemStatus: nat -> Draw, systemLoad: nat -> Draw, flightStatus: nat -> Draw)

  /** The poll would act: the key reads `'true'` and the page is not yet breached. */
  predicate Triggered(p: Page)
  {
    HoldsTrue(p.store, BREACH_KEY) && !p.isBreached
  }

  /** `checkBreach`. */
  function PollStep(p: Page, d: Draws): Page
  {
    if Triggered(p) then
      Page(true, CompromiseSystems(p.powerSystems, d.systemStatus, d.systemLoad),
           CompromiseFlights(p.flights, d.flightStatus), RemoveItem(p.store, BREACH_KEY))
    else
      p
  }

  /** `resetSystems`: clear the flag and write the baseline literals; the store is not touched. */
  function ResetStep(p: Page): Page
  {
    p.(isBreached := false, powerSystems := ResetSystemsLiteral(), flights := ResetFlightsLiteral())
  }

  /** Every system is offline or at warning with a load in [0, 100); id and name are kept. */
  predicate SystemsCompromised(before: seq<PowerSystem>, after: seq<PowerSystem>)
  {
    |after| == |before| &&
    forall i :: 0 <= i < |before| ==>
      (after[i].status == "offline" || after[i].status == "warning") &&
      0.0 <= after[i].load < 100.0 &&
      after[i].id == before[i].id && after[i].name == before[i].name
  }

  /** Every flight is delayed or cancelled; id, type, gate and eta are kept. */
  predicate FlightsCompromised(before: seq<Flight>, after: seq<Flight>)
  {
    |after| == |before| &&
    forall i :: 0 <= i < |before| ==>
      (after[i].status == "Delayed" || after[i].status == "Cancelled") &&
      after[i].id == before[i].id && after[i].kind == before[i].kind &&
      after[i].gate == before[i].gate && after[i].eta == before[i].eta
  }

  lemma CompromiseSystemsShape(systems: seq<PowerSystem>, statusDraws: nat -> Draw, loadDraws: nat -> Draw)
    ensures SystemsCompromised(systems, CompromiseSystems(systems, statusDraws, loadDraws))
  {
    var r := CompromiseSystems(systems, statusDraws, loadDraws);
    forall i | 0 <= i < |systems|
      ensures (r[i].status == "offline" || r[i].status == "warning") &&
        0.0 <= r[i].load < 100.0 &&
        r[i].id == systems[i].id && r[i].name == systems[i].name
    {
      assert r[i] == CompromiseSystem(systems[i], statusDraws(i), loadDraws(i));
    }
  }

  lemma CompromiseFlightsShape(flights: seq<Flight>, draws: nat -> Draw)
    ensures FlightsCompromised(flights, CompromiseFlights(flights, draws))
  {
    var r := CompromiseFlights(flights, draws);
    forall i | 0 <= i < |flights|
      ensures (r[i].status == "Delayed" || r[i].status == "Cancelled") &&
        r[i].id == flights[i].id && r[i].kind == flights[i].kind &&
        r[i].gate == flights[i].gate && r[i].eta == flights[i].eta
    {
      assert r[i] == CompromiseFlight(flights[i], draws(i));
    }
  }

  /** A poll changes the page exactly when it is triggered. */
  lemma PollActsOnlyWhenTriggered(p: Page, d: Draws)
    ensures PollStep(p, d) != p <==> Triggered(p)
  {
  }

  /** A triggered poll flags the breach, compromises both lists and removes only the breach key. */
  lemma PollCompromises(p: Page, d: Draws)
    requires Triggered(p)
    ensures var r := PollStep(p, d);
      r.isBreached && r.store.Keys == p.store.Keys - {BREACH_KEY} &&
      (forall k :: k in r.store ==> r.store[k] == p.store[k]) &&
      SystemsCompromised(p.powerSystems, r.powerSystems) &&
      FlightsCompromised(p.flights, r.flights)
  {
    CompromiseSystemsShape(p.powerSystems, d.systemStatus, d.systemLoad);
    CompromiseFlightsShape(p.flights, d.flightStatus);
  }

  /** The key is removed by a poll only when the poll acts. */
  lemma KeyRemovedOnlyWhenActing(p: Page, d: Draws)
    requires BREACH_KEY in p.store
    ensures BREACH_KEY !in PollStep(p, d).store <==> Triggered(p)
  {
  }

  /** A second poll right after a first never acts again. */
  lemma PollIdempotent(p: Page, d: Draws, d2: Draws)
    ensures PollStep(PollStep(p, d), d2) == PollStep(p, d)
  {
  }

  /** Resetting gives the mount state over the same store, from any state; it is idempotent. */
  lemma ResetReturnsToMount(p: Page)
    ensures ResetStep(p) == Mounted(p.store)
    ensures ResetStep(ResetStep(p)) == ResetStep(p)
  {
  }

  // The pure classifier of the markup.

  /** `getStatusColor`: three groups of labels, and muted for any other label. */
  function StatusColor(status: string): (r: string)
    ensures r == CLASS_ONLINE <==> status in {"online", "On Time", "Boarding", "Landing"}
    ensures r == CLASS_WARNING <==> status in {"warning", "Delayed"}
    ensures r == CLASS_OFFLINE <==> status in {"offline", "Cancelled"}
    ensures r == CLASS_MUTED <==>
      status !in {"online", "On Time", "Boarding", "Landing", "warning", "Delayed", "offline", "Cancelled"}
  {
    match status
    case "online" => CLASS_ONLINE
    case "On Time" => CLASS_ONLINE
    case "Boarding" => CLASS_ONLINE
    case "Landing" => CLASS_ONLINE
    case "warning" => CLASS_WARNING
    case "Delayed" => CLASS_WARNING
    case "offline" => CLASS_OFFLINE
    case "Cancelled" => CLASS_OFFLINE
    case _ => CLASS_MUTED
  }

  /** After a triggered poll, no power system and no flight is drawn with the online class. */
  lemma BreachShownNotOnline(p: Page, d: Draws)
    requires Triggered(p)
    ensures var r := PollStep(p, d);
      (forall s :: s in r.powerSystems ==> StatusColor(s.status) in {CLASS_WARNING, CLASS_OFFLINE}) &&
      (forall f :: f in r.flights ==> StatusColor(f.status) in {CLASS_WARNING, CLASS_OFFLINE})
  {
    var r := PollStep(p, d);
    PollCompromises(p, d);
    forall s | s in r.powerSystems
      ensures StatusColor(s.status) in {CLASS_WARNING, CLASS_OFFLINE}
    {
      var i :| 0 <= i < |r.powerSystems| && r.powerSystems[i] == s;
    }
    forall f | f in r.flights
      ensures StatusColor(f.status) in {CLASS_WARNING, CLASS_OFFLINE}
    {
      var i :| 0 <= i < |r.flights| && r.flights[i] == f;
    }
  }

  // The page itself, with the state it updates in place.

  class AirportControlPage {
    var isBreached: bool
    var powerSystems: seq<PowerSystem>
    var flights: seq<Flight>
    var store: Store

    function State(): Page
      reads this
    {
      Page(isBreached, powerSystems, flights, store)
    }

    constructor (initialStore: Store)
      ensures State() == Mounted(initialStore)
    {
      isBreached := false;
      powerSystems := MountSystems();
      flights := MountFlights();
      store := initialStore;
    }

    /** One run of the polling interval's callback. */
    method CheckBreach(d: Draws)
      modifies this
      ensures State() == PollStep(old(State()), d)
    {
      if HoldsTrue(store, BREACH_KEY) && !isBreached {
        isBreached := true;
        powerSystems := CompromiseSystems(powerSystems, d.systemStatus, d.systemLoad);
        flights := CompromiseFlights(flights, d.flightStatus);
        store := RemoveItem(store, BREACH_KEY);
      }
    }

    /** The Reset Systems button's handler. */
    method ResetSystems()
      modifies this
      ensures State() == ResetStep(old(State()))
    {
      isBreached := false;
      powerSystems := ResetSystemsLiteral();
      flights := ResetFlightsLiteral();
    }
  }
}
