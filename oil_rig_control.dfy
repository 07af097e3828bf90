/**
 * The oil rig control page: a once-a-second poll of the `oilRigBreach`
 * store key that, when it reads `'true'` on an unbreached page, gives every
 * tank a random level and a critical or warning status, fails every well
 * with a random pressure and removes the key; and a reset that writes the
 * baseline literals back.
 */
module OilRigControl {
  import opened Browser

  datatype FluidLevel = FluidLevel(id: int, name: string, level: real, capacity: real, status: string)

  datatype DrillingOp = DrillingOp(
    id: int, well: string, depth: real, target: real, pressure: real, status: string)

  const BREACH_KEY := "oilRigBreach"
  const CRITICAL := "critical"
  const WARNING := "warning"
  const EMERGENCY_STOP := "Emergency Stop"
  const SYSTEM_FAILURE := "System Failure"

  const CLASS_ONLINE := "bg-online text-online-foreground"
  const CLASS_WARNING := "bg-warning text-warning-foreground"
  const CLASS_OFFLINE := "bg-offline text-offline-foreground"
  const CLASS_MUTED := "bg-muted text-muted-foreground"

  function MountFluids(): seq<FluidLevel>
  {
    [ FluidLevel(1, "Crude Oil Tank 1", 78.0, 1000.0, "normal"),
      FluidLevel(2, "Crude Oil Tank 2", 65.0, 1000.0, "normal"),
      FluidLevel(3, "Water Separator", 42.0, 500.0, "normal"),
      FluidLevel(4, "Mud Circulation", 88.0, 800.0, "high"),
      FluidLevel(5, "Fuel Reserve", 35.0, 600.0, "low") ]
  }

  function MountWells(): seq<DrillingOp>
  {
    [ DrillingOp(1, "Well-A1", 2450.0, 3000.0, 2800.0, "Active"),
      DrillingOp(2, "Well-B2", 1875.0, 2500.0, 2200.0, "Active"),
      DrillingOp(3, "Well-C3", 3200.0, 3200.0, 3100.0, "Complete"),
      DrillingOp(4, "Well-D4", 890.0, 2800.0, 1200.0, "Drilling"),
      DrillingOp(5, "Well-E5", 0.0, 2200.0, 0.0, "Standby") ]
  }

  /** The fluid literal that resetting writes (a second copy of the baseline). */
  function ResetFluids(): seq<FluidLevel>
  {
    [ FluidLevel(1, "Crude Oil Tank 1", 78.0, 1000.0, "normal"),
      FluidLevel(2, "Crude Oil Tank 2", 65.0, 1000.0, "normal"),
      FluidLevel(3, "Water Separator", 42.0, 500.0, "normal"),
      FluidLevel(4, "Mud Circulation", 88.0, 800.0, "high"),
      FluidLevel(5, "Fuel Reserve", 35.0, 600.0, "low") ]
  }

  /** The well literal that resetting writes (a second copy of the baseline). */
  function ResetWells(): seq<DrillingOp>
  {
    [ DrillingOp(1, "Well-A1", 2450.0, 3000.0, 2800.0, "Active"),
      DrillingOp(2, "Well-B2", 1875.0, 2500.0, 2200.0, "Active"),
      DrillingOp(3, "Well-C3", 3200.0, 3200.0, 3100.0, "Complete"),
      DrillingOp(4, "Well-D4", 890.0, 2800.0, 1200.0, "Drilling"),
      DrillingOp(5, "Well-E5", 0.0, 2200.0, 0.0, "Standby") ]
  }

  /** The page's state together with the origin's store. */
  datatype Page = Page(
    isBreached: bool, fluidLevels: seq<FluidLevel>, drillingOps: seq<DrillingOp>, store: Store)

  function Mounted(store: Store): Page
  {
    Page(false, MountFluids(), MountWells(), store)
  }

  /** One draw scales to the level; another above 0.6 makes the tank critical, else warning. */
  function CompromiseFluid(fluid: FluidLevel, levelDraw: Draw, statusDraw: Draw): FluidLevel
  {
    fluid.(level := levelDraw * 100.0, status := if statusDraw > 0.6 then CRITICAL else WARNING)
  }

  /** One draw above 0.5 gives an emergency stop, else a system failure; another scales to the pressure. */
  function CompromiseWell(well: DrillingOp, statusDraw: Draw, pressureDraw: Draw): DrillingOp
  {
    well.(status := if statusDraw > 0.5 then EMERGENCY_STOP else SYSTEM_FAILURE,
          pressure := pressureDraw * 4000.0)
  }

  function CompromiseFluids(fluids: seq<FluidLevel>, levelDraws: nat -> Draw, statusDraws: nat -> Draw)
    : seq<FluidLevel>
  {
    seq(|fluids|, i requires 0 <= i < |fluids| =>
      CompromiseFluid(fluids[i], levelDraws(i), statusDraws(i)))
  }

  function CompromiseWells(wells: seq<DrillingOp>, statusDraws: nat -> Draw, pressureDraws: nat -> Draw)
    : seq<DrillingOp>
  {
    seq(|wells|, i requires 0 <= i < |wells| =>
      CompromiseWell(wells[i], statusDraws(i), pressureDraws(i)))
  }

  /** The draws one poll consumes, one stream per random field. */
  datatype Draws = Draws(
    fluidLevel: nat -> Draw, fluidStatus: nat -> Draw, wellStatus: nat -> Draw, wellPressure: nat -> Draw)

  /** The poll would act: the key reads `'true'` and the page is not yet breached. */
  predicate Triggered(p: Page)
  {
    HoldsTrue(p.store, BREACH_KEY) && !p.isBreached
  }

  /** `checkBreach`. */
  function PollStep(p: Page, d: Draws): Page
  {
    if Triggered(p) then
      Page(true, CompromiseFluids(p.fluidLevels, d.fluidLevel, d.fluidStatus),
           CompromiseWells(p.drillingOps, d.wellStatus, d.wellPressure),
           RemoveItem(p.store, BREACH_KEY))
    else
      p
  }

  /** `resetSystems`: clear the flag and write the baseline literals; the store is not touched. */
  function ResetStep(p: Page): Page
  {
    p.(isBreached := false, fluidLevels := ResetFluids(), drillingOps := ResetWells())
  }

  /** Every tank has a level in [0, 100) and a critical or warning status; id, name and capacity are kept. */
  predicate FluidsCompromised(before: seq<FluidLevel>, after: seq<FluidLevel>)
  {
    |after| == |before| &&
    forall i :: 0 <= i < |before| ==>
      0.0 <= after[i].level < 100.0 &&
      (after[i].status == CRITICAL || after[i].status == WARNING) &&
      after[i].id == before[i].id && after[i].name == before[i].name &&
      after[i].capacity == before[i].capacity
  }

  /** Every well has failed with a pressure in [0, 4000); id, well, depth and target are kept. */
  predicate WellsCompromised(before: seq<DrillingOp>, after: seq<DrillingOp>)
  {
    |after| == |before| &&
    forall i :: 0 <= i < |before| ==>
      (after[i].status == EMERGENCY_STOP || after[i].status == SYSTEM_FAILURE) &&
      0.0 <= after[i].pressure < 4000.0 &&
      after[i].id == before[i].id && after[i].well == before[i].well &&
      after[i].depth == before[i].depth && after[i].target == before[i].target
  }

  lemma CompromiseFluidsShape(fluids: seq<FluidLevel>, levelDraws: nat -> Draw, statusDraws: nat -> Draw)
    ensures FluidsCompromised(fluids, CompromiseFluids(fluids, levelDraws, statusDraws))
  {
    var r := CompromiseFluids(fluids, levelDraws, statusDraws);
    forall i | 0 <= i < |fluids|
      ensures 0.0 <= r[i].level < 100.0 &&
        (r[i].status == CRITICAL || r[i].status == WARNING) &&
        r[i].id == fluids[i].id && r[i].name == fluids[i].name &&
        r[i].capacity == fluids[i].capacity
    {
      assert r[i] == CompromiseFluid(fluids[i], levelDraws(i), statusDraws(i));
    }
  }

  lemma CompromiseWellsShape(wells: seq<DrillingOp>, statusDraws: nat -> Draw, pressureDraws: nat -> Draw)
    ensures WellsCompromised(wells, CompromiseWells(wells, statusDraws, pressureDraws))
  {
    var r := CompromiseWells(wells, statusDraws, pressureDraws);
    forall i | 0 <= i < |wells|
      ensures (r[i].status == EMERGENCY_STOP || r[i].status == SYSTEM_FAILURE) &&
        0.0 <= r[i].pressure < 4000.0 &&
        r[i].id == wells[i].id && r[i].well == wells[i].well &&
        r[i].depth == wells[i].depth && r[i].target == wells[i].target
    {
      assert r[i] == CompromiseWell(wells[i], statusDraws(i), pressureDraws(i));
    }
  }

  /** A poll changes the page exactly when it is triggered. */
  lemma PollActsOnlyWhenTriggered(p: Page, d: Draws)
    ensures PollStep(p, d) != p <==> Triggered(p)
  {
  }

  /** A triggered poll flags the breach, compromises both lists and removes only the breach key. */
  lemma PollCompromises(p: Page, d: Draws)
    requires Triggered(p)
    ensures var r := PollStep(p, d);
      r.isBreached && r.store.Keys == p.store.Keys - {BREACH_KEY} &&
      (forall k :: k in r.store ==> r.store[k] == p.store[k]) &&
      FluidsCompromised(p.fluidLevels, r.fluidLevels) &&
      WellsCompromised(p.drillingOps, r.drillingOps)
  {
    CompromiseFluidsShape(p.fluidLevels, d.fluidLevel, d.fluidStatus);
    CompromiseWellsShape(p.drillingOps, d.wellStatus, d.wellPressure);
  }

  /** The key is removed by a poll only when the poll acts. */
  lemma KeyRemovedOnlyWhenActing(p: Page, d: Draws)
    requires BREACH_KEY in p.store
    ensures BREACH_KEY !in PollStep(p, d).store <==> Triggered(p)
  {
  }

  /** A second poll right after a first never acts again. */
  lemma PollIdempotent(p: Page, d: Draws, d2: Draws)
    ensures PollStep(PollStep(p, d), d2) == PollStep(p, d)
  {
  }

  /** Resetting gives the mount state over the same store, from any state; it is idempotent. */
  lemma ResetReturnsToMount(p: Page)
    ensures ResetStep(p) == Mounted(p.store)
    ensures ResetStep(ResetStep(p)) == ResetStep(p)
  {
  }

  // The pure classifiers of the markup.

  /** `getFluidStatusColor`; it has no case for `'warning'`. */
  function FluidStatusColor(status: string): (r: string)
    ensures r == CLASS_ONLINE <==> status == "normal"
    ensures r == CLASS_WARNING <==> status in {"low", "high"}
    ensures r == CLASS_OFFLINE <==> status == CRITICAL
    ensures r == CLASS_MUTED <==> status !in {"normal", "low", "high", CRITICAL}
  {
    match status
    case "normal" => CLASS_ONLINE
    case "low" => CLASS_WARNING
    case "high" => CLASS_WARNING
    case "critical" => CLASS_OFFLINE
    case _ => CLASS_MUTED
  }

  /** `getDrillingStatusColor`. */
  function DrillingStatusColor(status: string): (r: string)
    ensures r == CLASS_ONLINE <==> status in {"Active", "Drilling", "Complete"}
    ensures r == CLASS_WARNING <==> status == "Standby"
    ensures r == CLASS_OFFLINE <==> status in {EMERGENCY_STOP, SYSTEM_FAILURE}
    ensures r == CLASS_MUTED <==>
      status !in {"Active", "Drilling", "Complete", "Standby", EMERGENCY_STOP, SYSTEM_FAILURE}
  {
    match status
    case "Active" => CLASS_ONLINE
    case "Drilling" => CLASS_ONLINE
    case "Complete" => CLASS_ONLINE
    case "Standby" => CLASS_WARNING
    case "Emergency Stop" => CLASS_OFFLINE
    case "System Failure" => CLASS_OFFLINE
    case _ => CLASS_MUTED
  }

  /** `getFluidLevelColor`: critical wins whatever the level; else warning outside [20, 80]. */
  function FluidLevelColor(level: real, status: string): (r: string)
    ensures status == CRITICAL ==> r == "bg-offline"
    ensures status != CRITICAL ==> (r == "bg-warning" <==> level > 80.0 || level < 20.0)
    ensures status != CRITICAL ==> (r == "bg-online" <==> 20.0 <= level <= 80.0)
  {
    if status == CRITICAL then "bg-offline"
    else if level > 80.0 || level < 20.0 then "bg-warning"
    else "bg-online"
  }

  /**
   * After a triggered poll every well is drawn offline; no tank badge is
   * drawn online: critical tanks are offline and warning tanks, which the
   * status switch does not list, fall through to muted.
   */
  lemma BreachShownOffline(p: Page, d: Draws)
    requires Triggered(p)
    ensures var r := PollStep(p, d);
      (forall w :: w in r.drillingOps ==> DrillingStatusColor(w.status) == CLASS_OFFLINE) &&
      (forall f :: f in r.fluidLevels ==>
         FluidStatusColor(f.status) == (if f.status == CRITICAL then CLASS_OFFLINE else CLASS_MUTED)) &&
      (forall f :: f in r.fluidLevels && f.status == CRITICAL ==> FluidLevelColor(f.level, f.status) == "bg-offline")
  {
    var r := PollStep(p, d);
    PollCompromises(p, d);
    forall w | w in r.drillingOps
      ensures DrillingStatusColor(w.status) == CLASS_OFFLINE
    {
      var i :| 0 <= i < |r.drillingOps| && r.drillingOps[i] == w;
    }
    forall f | f in r.fluidLevels
      ensures FluidStatusColor(f.status) == (if f.status == CRITICAL then CLASS_OFFLINE else CLASS_MUTED)
    {
      var i :| 0 <= i < |r.fluidLevels| && r.fluidLevels[i] == f;
    }
  }

  // The page itself, with the state it updates in place.

  class OilRigControlPage {
    var isBreached: bool
    var fluidLevels: seq<FluidLevel>
    var drillingOps: seq<DrillingOp>
    var store: Store

    function State(): Page
      reads this
    {
      Page(isBreached, fluidLevels, drillingOps, store)
    }

    constructor (initialStore: Store)
      ensures State() == Mounted(initialStore)
    {
      isBreached := false;
      fluidLevels := MountFluids();
      drillingOps := MountWells();
      store := initialStore;
    }

    /** One run of the polling interval's callback. */
    method CheckBreach(d: Draws)
      modifies this
      ensures State() == PollStep(old(State()), d)
    {
      if HoldsTrue(store, BREACH_KEY) && !isBreached {
        isBreached := true;
        fluidLevels := CompromiseFluids(fluidLevels, d.fluidLevel, d.fluidStatus);
        drillingOps := CompromiseWells(drillingOps, d.wellStatus, d.wellPressure);
        store := RemoveItem(store, BREACH_KEY);
      }
    }

    /** The Reset Systems button's handler. */
    method ResetSystems()
      modifies this
      ensures State() == ResetStep(old(State()))
    {
      isBreached := false;
      fluidLevels := ResetFluids();
      drillingOps := ResetWells();
    }
  }
}
