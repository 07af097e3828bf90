/**
 * The power-grid SCADA dashboard: a breach countdown that, ten interval
 * ticks after it is armed, shuts every substation and load down, and a
 * restore action that puts the literal baseline back without cancelling
 * the countdown interval.
 */
module PowerGridDashboard {
  import opened Ui

  datatype Substation = Substation(
    id: string, name: string, voltage: real, frequency: real, status: string, load: real)

  /** A consumer; `substation` is the feeding substation, `"A"` or `"B"`. */
  datatype PowerLoad = PowerLoad(
    id: string, name: string, power: real, status: string, substation: string)

  const ONLINE := "online"
  const OFFLINE := "offline"
  const EMERGENCY_SHUTDOWN := "emergency_shutdown"

  /** Length of the countdown, in ticks of one second. */
  const COUNTDOWN := 10

  /** The status union both record types declare. */
  predicate IsGridStatus(status: string)
  {
    status == ONLINE || status == OFFLINE || status == EMERGENCY_SHUTDOWN
  }

  /** The substations the component mounts with. */
  function MountSubstations(): seq<Substation>
  {
    [ Substation("SUB-A", "Substation Alpha", 138000.0, 60.0, ONLINE, 75.0),
      Substation("SUB-B", "Substation Beta", 138000.0, 60.0, ONLINE, 82.0) ]
  }

  /** The loads the component mounts with. */
  function MountLoads(): seq<PowerLoad>
  {
    [ PowerLoad("LOAD-1", "Industrial Complex A", 45.2, ONLINE, "A"),
      PowerLoad("LOAD-2", "Residential Area North", 28.7, ONLINE, "A"),
      PowerLoad("LOAD-3", "Commercial District", 52.1, ONLINE, "B"),
      PowerLoad("LOAD-4", "Hospital & Emergency", 31.8, ONLINE, "B"),
      PowerLoad("LOAD-5", "Water Treatment Plant", 22.5, ONLINE, "A") ]
  }

  /** The substation literal that restoring writes (a second copy of the baseline). */
  function RestoredSubstations(): seq<Substation>
  {
    [ Substation("SUB-A", "Substation Alpha", 138000.0, 60.0, ONLINE, 75.0),
      Substation("SUB-B", "Substation Beta", 138000.0, 60.0, ONLINE, 82.0) ]
  }

  /** The load literal that restoring writes (a second copy of the baseline). */
  function RestoredLoads(): seq<PowerLoad>
  {
    [ PowerLoad("LOAD-1", "Industrial Complex A", 45.2, ONLINE, "A"),
      PowerLoad("LOAD-2", "Residential Area North", 28.7, ONLINE, "A"),
      PowerLoad("LOAD-3", "Commercial District", 52.1, ONLINE, "B"),
      PowerLoad("LOAD-4", "Hospital & Emergency", 31.8, ONLINE, "B"),
      PowerLoad("LOAD-5", "Water Treatment Plant", 22.5, ONLINE, "A") ]
  }

  /** The restore literals are the mount literals, value for value. */
  lemma RestoreLiteralsAreBaseline()
    ensures RestoredSubstations() == MountSubstations()
    ensures RestoredLoads() == MountLoads()
  {
  }

  // The whole-snapshot shutdown of the final tick.

  function ShutDown(s: Substation): Substation
  {
    s.(status := EMERGENCY_SHUTDOWN, voltage := 0.0, frequency := 0.0, load := 0.0)
  }

  function Disconnect(l: PowerLoad): PowerLoad
  {
    l.(status := EMERGENCY_SHUTDOWN, power := 0.0)
  }

  function ShutDownAll(subs: seq<Substation>): seq<Substation>
  {
    seq(|subs|, i requires 0 <= i < |subs| => ShutDown(subs[i]))
  }

  function DisconnectAll(loads: seq<PowerLoad>): seq<PowerLoad>
  {
    seq(|loads|, i requires 0 <= i < |loads| => Disconnect(loads[i]))
  }

  /** `after` is `before` with every substation shut down and its identity kept. */
  predicate IsShutdownOf(before: seq<Substation>, after: seq<Substation>)
  {
    |after| == |before| &&
    forall i :: 0 <= i < |before| ==>
      after[i].id == before[i].id && after[i].name == before[i].name &&
      after[i].status == EMERGENCY_SHUTDOWN &&
      after[i].voltage == 0.0 && after[i].frequency == 0.0 && after[i].load == 0.0
  }

  /** `after` is `before` with every load disconnected and its identity and feed kept. */
  predicate IsDisconnectOf(before: seq<PowerLoad>, after: seq<PowerLoad>)
  {
    |after| == |before| &&
    forall i :: 0 <= i < |before| ==>
      after[i].id == before[i].id && after[i].name == before[i].name &&
      after[i].substation == before[i].substation &&
      after[i].status == EMERGENCY_SHUTDOWN && after[i].power == 0.0
  }

  // The component state, its transitions and the guards of its controls.

  /**
   * The component's state; `liveIntervals` counts the countdown intervals
   * that have been started and not yet cleared.
   */
  datatype Grid = Grid(
    isBreachActive: bool,
    shutdownTimer: int,
    substations: seq<Substation>,
    powerLoads: seq<PowerLoad>,
    liveIntervals: nat)

  function Mounted(): Grid
  {
    Grid(false, 0, MountSubstations(), MountLoads(), 0)
  }

  /** The Simulate Breach button is enabled. */
  predicate BreachEnabled(g: Grid)
  {
    !g.isBreachActive
  }

  /** The Restore System button is enabled (it is disabled when inactive with the timer at 0). */
  predicate RestoreEnabled(g: Grid)
  {
    !(!g.isBreachActive && g.shutdownTimer == 0)
  }

  /** The breach alert card is rendered. */
  predicate AlertShown(g: Grid)
  {
    g.isBreachActive && g.shutdownTimer > 0
  }

  /** `simulateBreach`: arm the countdown and start one more interval. */
  function BreachStep(g: Grid): Grid
  {
    g.(isBreachActive := true, shutdownTimer := COUNTDOWN, liveIntervals := g.liveIntervals + 1)
  }

  /** One firing of a live countdown interval. */
  function TickStep(g: Grid): Grid
    requires g.liveIntervals > 0
  {
    if g.shutdownTimer <= 1 then
      g.(shutdownTimer := 0,
         substations := ShutDownAll(g.substations),
         powerLoads := DisconnectAll(g.powerLoads),
         liveIntervals := g.liveIntervals - 1)
    else
      g.(shutdownTimer := g.shutdownTimer - 1)
  }

  /** `restoreSystem`: clear the flags and write the baseline literals; intervals keep running. */
  function RestoreStep(g: Grid): Grid
  {
    g.(isBreachActive := false, shutdownTimer := 0,
       substations := RestoredSubstations(), powerLoads := RestoredLoads())
  }

  /** `n` successive interval firings; nothing fires once no interval is live. */
  function Ticks(g: Grid, n: nat): Grid
    decreases n
  {
    if n == 0 || g.liveIntervals == 0 then g else Ticks(TickStep(g), n - 1)
  }

  // Properties of one transition.

  /** Arming sets the flag, loads 10 on the timer, starts an interval and leaves the snapshot alone. */
  lemma BreachArmsCountdown(g: Grid)
    ensures var b := BreachStep(g);
      b.isBreachActive && b.shutdownTimer == 10 && b.liveIntervals == g.liveIntervals + 1 &&
      b.substations == g.substations && b.powerLoads == g.powerLoads &&
      AlertShown(b) && !BreachEnabled(b) && RestoreEnabled(b)
  {
  }

  /** A tick above 1 takes exactly one second off and changes nothing else. */
  lemma TickCountsDown(g: Grid)
    requires g.liveIntervals > 0 && g.shutdownTimer > 1
    ensures var t := TickStep(g);
      t.shutdownTimer == g.shutdownTimer - 1 && t.isBreachActive == g.isBreachActive &&
      t.substations == g.substations && t.powerLoads == g.powerLoads &&
      t.liveIntervals == g.liveIntervals
  {
  }

  /**
   * A tick at 1 or below (0 included) clears its interval, zeroes the timer
   * and shuts the whole snapshot down, keeping identities and lengths.
   */
  lemma TickCommitsShutdown(g: Grid)
    requires g.liveIntervals > 0 && g.shutdownTimer <= 1
    ensures var t := TickStep(g);
      t.shutdownTimer == 0 && t.liveIntervals == g.liveIntervals - 1 &&
      t.isBreachActive == g.isBreachActive &&
      IsShutdownOf(g.substations, t.substations) &&
      IsDisconnectOf(g.powerLoads, t.powerLoads) &&
      !AlertShown(t)
  {
  }

  /** Restoring yields the mount snapshot from any state, keeps the intervals, and is idempotent. */
  lemma RestoreYieldsBaseline(g: Grid)
    ensures RestoreStep(g) == Mounted().(liveIntervals := g.liveIntervals)
    ensures RestoreStep(RestoreStep(g)) == RestoreStep(g)
    ensures BreachEnabled(RestoreStep(g)) && !RestoreEnabled(RestoreStep(g))
    ensures !AlertShown(RestoreStep(g))
  {
    RestoreLiteralsAreBaseline();
  }

  /** The restore button's guard and the alert's guard, as the markup computes them. */
  lemma ControlGuards(g: Grid)
    ensures RestoreEnabled(g) <==> g.isBreachActive || g.shutdownTimer != 0
    ensures AlertShown(g) ==> RestoreEnabled(g) && !BreachEnabled(g)
  {
  }

  // Properties of a countdown.

  /** Fewer ticks than the timer shows only count down. */
  lemma {:induction false} CountsDownFor(g: Grid, k: nat)
    requires g.liveIntervals > 0 && k < g.shutdownTimer
    ensures Ticks(g, k) == g.(shutdownTimer := g.shutdownTimer - k)
    decreases k
  {
    if k > 0 {
      TickCountsDown(g);
      CountsDownFor(TickStep(g), k - 1);
    }
  }

  /** As many ticks as the timer shows end in the committed shutdown, not one earlier. */
  lemma CommitsAfter(g: Grid)
    requires g.liveIntervals > 0 && g.shutdownTimer >= 1
    ensures var t := Ticks(g, g.shutdownTimer as nat);
      t.shutdownTimer == 0 && t.liveIntervals == g.liveIntervals - 1 &&
      t.isBreachActive == g.isBreachActive &&
      IsShutdownOf(g.substations, t.substations) &&
      IsDisconnectOf(g.powerLoads, t.powerLoads)
  {
    var n := g.shutdownTimer as nat;
    var last := g.(shutdownTimer := 1);
    CountsDownFor(g, n - 1);
    assert Ticks(g, n) == Ticks(Ticks(g, n - 1), 1) by {
      TicksSplit(g, n - 1, 1);
    }
    TickCommitsShutdown(last);
  }

  /** Running `a` ticks and then `b` ticks is running `a + b` ticks. */
  lemma {:induction false} TicksSplit(g: Grid, a: nat, b: nat)
    ensures Ticks(g, a + b) == Ticks(Ticks(g, a), b)
    decreases a
  {
    if a > 0 && g.liveIntervals > 0 {
      TicksSplit(TickStep(g), a - 1, b);
    } else if a > 0 {
      assert Ticks(g, a + b) == g && Ticks(g, a) == g;
    }
  }

  /**
   * After arming, the first nine ticks leave the snapshot untouched with the
   * alert up, and the tenth commits the shutdown.
   */
  lemma BreachCountdown(g: Grid)
    ensures forall k :: 0 <= k < 10 ==>
      var t := Ticks(BreachStep(g), k);
      t.shutdownTimer == 10 - k && t.substations == g.substations &&
      t.powerLoads == g.powerLoads && AlertShown(t)
    ensures var t := Ticks(BreachStep(g), 10);
      t.shutdownTimer == 0 && t.isBreachActive && t.liveIntervals == g.liveIntervals &&
      IsShutdownOf(g.substations, t.substations) &&
      IsDisconnectOf(g.powerLoads, t.powerLoads) &&
      !AlertShown(t) && RestoreEnabled(t) && !BreachEnabled(t)
  {
    var b := BreachStep(g);
    forall k | 0 <= k < 10
      ensures var t := Ticks(b, k);
        t.shutdownTimer == 10 - k && t.substations == g.substations &&
        t.powerLoads == g.powerLoads && AlertShown(t)
    {
      CountsDownFor(b, k);
    }
    CommitsAfter(b);
  }

  /**
   * Restoring mid-countdown does not clear the interval: its next tick sees 0,
   * shuts the freshly restored baseline down, and leaves both the alert and
   * the restore button off.
   */
  lemma StaleTickAfterRestore(g: Grid)
    requires g.liveIntervals > 0
    ensures var t := TickStep(RestoreStep(g));
      IsShutdownOf(MountSubstations(), t.substations) &&
      IsDisconnectOf(MountLoads(), t.powerLoads) &&
      !t.isBreachActive && t.shutdownTimer == 0 &&
      t.liveIntervals == g.liveIntervals - 1 &&
      !AlertShown(t) && !RestoreEnabled(t) && BreachEnabled(t)
  {
    RestoreYieldsBaseline(g);
    TickCommitsShutdown(RestoreStep(g));
  }

  /**
   * The worked scenario: from mount, arm and wait ten ticks; both substations
   * are shut down with no voltage and no load; restoring gives loads 75 and 82 back.
   */
  lemma MountBreachRestoreScenario()
    ensures var down := Ticks(BreachStep(Mounted()), 10);
      |down.substations| == 2 &&
      (forall s :: s in down.substations ==>
         s.status == EMERGENCY_SHUTDOWN && s.voltage == 0.0 && s.load == 0.0) &&
      var up := RestoreStep(down);
      up.substations[0].load == 75.0 && up.substations[1].load == 82.0 &&
      forall s :: s in up.substations ==> s.status == ONLINE
  {
    BreachCountdown(Mounted());
    RestoreYieldsBaseline(Ticks(BreachStep(Mounted()), 10));
  }

  // A state invariant: the dashboard is in exactly one of three phases.

  /** Every substation and every load is in emergency shutdown with its readings at zero. */
  predicate AllShutDown(g: Grid)
  {
    (forall s :: s in g.substations ==>
       s.status == EMERGENCY_SHUTDOWN && s.voltage == 0.0 && s.frequency == 0.0 && s.load == 0.0) &&
    (forall l :: l in g.powerLoads ==> l.status == EMERGENCY_SHUTDOWN && l.power == 0.0)
  }

  /**
   * The timer is within the countdown; a running timer has the breach flag
   * set and a live interval to drive it; a set flag with the timer at 0
   * means the shutdown has been committed; statuses stay in the union.
   */
  predicate Consistent(g: Grid)
  {
    0 <= g.shutdownTimer <= COUNTDOWN &&
    (g.shutdownTimer > 0 ==> g.isBreachActive && g.liveIntervals > 0) &&
    (g.isBreachActive && g.shutdownTimer == 0 ==> AllShutDown(g)) &&
    (forall s :: s in g.substations ==> IsGridStatus(s.status)) &&
    (forall l :: l in g.powerLoads ==> IsGridStatus(l.status))
  }

  /** The mount state is consistent and every transition keeps consistency. */
  lemma TransitionsKeepConsistent(g: Grid)
    ensures Consistent(Mounted())
    ensures Consistent(g) ==> Consistent(BreachStep(g))
    ensures Consistent(g) && g.liveIntervals > 0 ==> Consistent(TickStep(g))
    ensures Consistent(RestoreStep(g))
  {
    if Consistent(g) && g.liveIntervals > 0 && g.shutdownTimer <= 1 {
      var t := TickStep(g);
      assert forall s :: s in t.substations ==> s.status == EMERGENCY_SHUTDOWN;
      assert forall l :: l in t.powerLoads ==> l.status == EMERGENCY_SHUTDOWN;
      assert AllShutDown(t);
    }
  }

  /**
   * A consistent dashboard is in exactly one of three phases, and each phase
   * has its own controls: idle offers only Simulate Breach; counting down
   * shows the alert, offers only Restore and has a live interval; compromised
   * has every unit shut down at zero readings, offers only Restore and shows
   * no alert.
   */
  lemma ExactlyOnePhase(g: Grid)
    requires Consistent(g)
    ensures var idle := !g.isBreachActive && g.shutdownTimer == 0;
      var counting := AlertShown(g);
      var compromised := g.isBreachActive && g.shutdownTimer == 0;
      (idle || counting || compromised) &&
      !(idle && counting) && !(idle && compromised) && !(counting && compromised) &&
      (idle ==> BreachEnabled(g) && !RestoreEnabled(g) && !AlertShown(g)) &&
      (counting ==> g.liveIntervals > 0 && RestoreEnabled(g) && !BreachEnabled(g)) &&
      (compromised ==> AllShutDown(g) && RestoreEnabled(g) && !BreachEnabled(g) && !AlertShown(g))
  {
  }

  // The pure classifiers of the markup.

  /** `getStatusColor`: one colour per status of the union, grey for anything else. */
  function StatusColor(status: string): (r: string)
    ensures r == "bg-green-500" <==> status == ONLINE
    ensures r == "bg-red-500" <==> status == OFFLINE
    ensures r == "bg-red-600 animate-pulse" <==> status == EMERGENCY_SHUTDOWN
    ensures r == "bg-gray-500" <==> !IsGridStatus(status)
  {
    match status
    case "online" => "bg-green-500"
    case "offline" => "bg-red-500"
    case "emergency_shutdown" => "bg-red-600 animate-pulse"
    case _ => "bg-gray-500"
  }

  /** `getStatusBadge`: one badge per status of the union, an UNKNOWN outline badge otherwise. */
  function StatusBadge(status: string): (r: Badge)
    ensures r.text == "ONLINE" <==> status == ONLINE
    ensures r.text == "OFFLINE" <==> status == OFFLINE
    ensures r.text == "EMERGENCY SHUTDOWN" <==> status == EMERGENCY_SHUTDOWN
    ensures r.text == "UNKNOWN" <==> !IsGridStatus(status)
    ensures r.variant == "default" <==> status == ONLINE
    ensures r.variant == "secondary" <==> status == OFFLINE
    ensures r.variant == "destructive" <==> status == EMERGENCY_SHUTDOWN
    ensures r.variant == "outline" <==> !IsGridStatus(status)
    ensures status == ONLINE ==> r.className == "bg-green-100 text-green-800 hover:bg-green-100"
    ensures status == EMERGENCY_SHUTDOWN ==> r.className == "animate-pulse"
  {
    match status
    case "online" => Badge("default", "bg-green-100 text-green-800 hover:bg-green-100", "ONLINE")
    case "offline" => Badge("secondary", "", "OFFLINE")
    case "emergency_shutdown" => Badge("destructive", "animate-pulse", "EMERGENCY SHUTDOWN")
    case _ => Badge("outline", "", "UNKNOWN")
  }

  /** After the committing tick, every substation and load is drawn as an emergency shutdown. */
  lemma CommittedShownAsShutdown(g: Grid)
    requires g.liveIntervals > 0 && g.shutdownTimer <= 1
    ensures var t := TickStep(g);
      (forall s :: s in t.substations ==>
         StatusColor(s.status) == "bg-red-600 animate-pulse" &&
         StatusBadge(s.status).text == "EMERGENCY SHUTDOWN") &&
      (forall l :: l in t.powerLoads ==>
         StatusColor(l.status) == "bg-red-600 animate-pulse" &&
         StatusBadge(l.status).text == "EMERGENCY SHUTDOWN")
  {
    var t := TickStep(g);
    assert forall s :: s in t.substations ==> s.status == EMERGENCY_SHUTDOWN;
    assert forall l :: l in t.powerLoads ==> l.status == EMERGENCY_SHUTDOWN;
  }

  // The component itself, with the state it updates in place.

  class Dashboard {
    var isBreachActive: bool
    var shutdownTimer: int
    var substations: seq<Substation>
    var powerLoads: seq<PowerLoad>
    var liveIntervals: nat

    function State(): Grid
      reads this
    {
      Grid(isBreachActive, shutdownTimer, substations, powerLoads, liveIntervals)
    }

    /** Mounting: idle, timer 0, the baseline snapshot, no interval. */
    constructor ()
      ensures State() == Mounted()
    {
      isBreachActive := false;
      shutdownTimer := 0;
      substations := MountSubstations();
      powerLoads := MountLoads();
      liveIntervals := 0;
    }

    /**
     * The Simulate Breach button's handler. The button is disabled while a
     * breach is active, but the handler itself arms from any state.
     */
    method SimulateBreach()
      modifies this
      ensures State() == BreachStep(old(State()))
    {
      isBreachActive := true;
      shutdownTimer := COUNTDOWN;
      liveIntervals := liveIntervals + 1;
    }

    /** The callback of one live countdown interval. */
    method Tick()
      requires liveIntervals > 0
      modifies this
      ensures State() == TickStep(old(State()))
    {
      if shutdownTimer <= 1 {
        liveIntervals := liveIntervals - 1;
        substations := ShutDownAll(substations);
        powerLoads := DisconnectAll(powerLoads);
        shutdownTimer := 0;
      } else {
        shutdownTimer := shutdownTimer - 1;
      }
    }

    /** The Restore System button's handler. */
    method RestoreSystem()
      modifies this
      ensures State() == RestoreStep(old(State()))
    {
      isBreachActive := false;
      shutdownTimer := 0;
      substations := RestoredSubstations();
      powerLoads := RestoredLoads();
    }
  }
}
