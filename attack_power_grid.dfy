/**
 * The compromised grid view: constant snapshots in which every substation
 * and every load is in emergency shutdown with its readings at zero, a
 * badge that always reads OFFLINE, and the icon chosen for each load by the
 * first keyword its name contains.
 */
module AttackPowerGrid {
  import opened Js
  import opened Ui

  const EMERGENCY_SHUTDOWN := "emergency_shutdown"

  datatype Substation = Substation(
    id: string, name: string, voltage: real, frequency: real, status: string,
    load: real, temperature: real, efficiency: real)

  datatype PowerLoad = PowerLoad(
    id: string, name: string, power: real, status: string, substation: string, priority: string)

  /** The substation snapshot; the view takes no setter, so it never changes. */
  function Substations(): seq<Substation>
  {
    [ Substation("SUB-A", "Alpha Primary", 0.0, 0.0, EMERGENCY_SHUTDOWN, 0.0, 25.0, 0.0),
      Substation("SUB-B", "Beta Secondary", 0.0, 0.0, EMERGENCY_SHUTDOWN, 0.0, 25.0, 0.0) ]
  }

  /** The load snapshot; it never changes either. */
  function PowerLoads(): seq<PowerLoad>
  {
    [ PowerLoad("LOAD-1", "Metro City Grid", 0.0, EMERGENCY_SHUTDOWN, "A", "high"),
      PowerLoad("LOAD-2", "EV Charging Station", 0.0, EMERGENCY_SHUTDOWN, "B", "normal"),
      PowerLoad("LOAD-3", "Gas Station Complex", 0.0, EMERGENCY_SHUTDOWN, "A", "normal"),
      PowerLoad("LOAD-4", "Central Train Station", 0.0, EMERGENCY_SHUTDOWN, "B", "high"),
      PowerLoad("LOAD-5", "Industrial Factory Plant", 0.0, EMERGENCY_SHUTDOWN, "A", "critical") ]
  }

  const TOTAL_LOAD := 0.0
  const ONLINE_COUNT := 0

  /** Every substation is shut down with voltage, frequency, load and efficiency at zero. */
  lemma SubstationsShutDown()
    ensures |Substations()| == 2
    ensures forall s :: s in Substations() ==>
      s.status == EMERGENCY_SHUTDOWN &&
      s.voltage == 0.0 && s.frequency == 0.0 && s.load == 0.0 && s.efficiency == 0.0
  {
  }

  /** Every load is shut down with no power. */
  lemma LoadsShutDown()
    ensures |PowerLoads()| == 5
    ensures forall l :: l in PowerLoads() ==> l.status == EMERGENCY_SHUTDOWN && l.power == 0.0
  {
  }

  /** The power of a list of loads, summed. */
  function TotalPower(loads: seq<PowerLoad>): real
  {
    if loads == [] then 0.0 else loads[0].power + TotalPower(loads[1..])
  }

  /** How many loads of a list are online. */
  function OnlineLoads(loads: seq<PowerLoad>): nat
  {
    if loads == [] then 0 else (if loads[0].status == "online" then 1 else 0) + OnlineLoads(loads[1..])
  }

  /** How many substations of a list are online. */
  function OnlineSubstations(subs: seq<Substation>): nat
  {
    if subs == [] then 0 else (if subs[0].status == "online" then 1 else 0) + OnlineSubstations(subs[1..])
  }

  /**
   * The constant total load and online count agree with the snapshots:
   * the loads draw no power in total, and no substation or load is online.
   */
  lemma ConstantsMatchSnapshots()
    ensures TOTAL_LOAD == TotalPower(PowerLoads())
    ensures ONLINE_COUNT == OnlineSubstations(Substations())
    ensures ONLINE_COUNT == OnlineLoads(PowerLoads())
  {
  }

  const OFFLINE_BADGE_CLASS :=
    "bg-grid-emergency/20 text-grid-emergency border-grid-emergency/30 animate-pulse hover:bg-grid-emergency/20"

  /** `getStatusBadge`: the argument is ignored; the badge is always the pulsing OFFLINE one. */
  function StatusBadge(status: string): (r: Badge)
    ensures r.text == "⚠ OFFLINE" && r.variant == "default" && r.className == OFFLINE_BADGE_CLASS
  {
    Badge("default", OFFLINE_BADGE_CLASS, "⚠ OFFLINE")
  }

  /** Any two statuses get the same badge. */
  lemma BadgeIgnoresStatus(a: string, b: string)
    ensures StatusBadge(a) == StatusBadge(b)
  {
  }

  /** The icon components `getStationIcon` chooses from. */
  datatype Icon = Building2 | Car | Fuel | Train | Factory | Power

  /** `getStationIcon`: the icon of the first keyword, in the order tested, that the name contains. */
  function StationIcon(stationName: string): Icon
  {
    if Includes(stationName, "City") then Building2
    else if Includes(stationName, "EV") then Car
    else if Includes(stationName, "Gas") then Fuel
    else if Includes(stationName, "Train") then Train
    else if Includes(stationName, "Factory") then Factory
    else Power
  }

  /** The keywords in the order they are tested, and the icon each one selects. */
  const KEYWORDS: seq<string> := ["City", "EV", "Gas", "Train", "Factory"]
  const KEYWORD_ICONS: seq<Icon> := [Building2, Car, Fuel, Train, Factory]

  /** The index of the first keyword the name contains, from `from` on; `|KEYWORDS|` when none does. */
  function FirstKeyword(name: string, from: nat): (r: nat)
    requires from <= |KEYWORDS|
    ensures from <= r <= |KEYWORDS|
    ensures forall j :: from <= j < r ==> !Includes(name, KEYWORDS[j])
    ensures r < |KEYWORDS| ==> Includes(name, KEYWORDS[r])
    decreases |KEYWORDS| - from
  {
    if from == |KEYWORDS| then from
    else if Includes(name, KEYWORDS[from]) then from
    else FirstKeyword(name, from + 1)
  }

  /**
   * The chain of tests agrees with the table reading: the icon is that of the
   * earliest-listed keyword that occurs in the name, and Power when none occurs.
   */
  lemma StationIconIsFirstMatch(name: string)
    ensures var j := FirstKeyword(name, 0);
      StationIcon(name) == if j < |KEYWORDS| then KEYWORD_ICONS[j] else Power
  {
    var j := FirstKeyword(name, 0);
    if j < |KEYWORDS| {
      assert Includes(name, KEYWORDS[j]);
    }
  }

  /** The character `c` occurs nowhere in `s`. */
  predicate Lacks(s: string, c: char)
  {
    forall i :: 0 <= i < |s| ==> s[i] != c
  }

  /** A name with no character of the keyword in it does not contain the keyword. */
  lemma {:induction false} MissingCharExcludes(s: string, sub: string, c: char)
    requires c in sub
    requires Lacks(s, c)
    ensures !Includes(s, sub)
    decreases |s|
  {
    if |s| > 0 {
      var t := s[1..];
      assert forall i :: 0 <= i < |t| ==> t[i] == s[i + 1];
      MissingCharExcludes(t, sub, c);
    }
  }

  /** An occurrence at any index is found by the scan. */
  lemma OccurrenceFound(s: string, sub: string, i: int)
    requires OccursAt(s, sub, i)
    ensures Includes(s, sub)
  {
    IncludesIffOccurs(s, sub);
  }

  /** A name with City and Train in it gets the City icon: the earlier keyword wins. */
  lemma CityBeatsTrain()
    ensures Includes("City Train Depot", "Train")
    ensures StationIcon("City Train Depot") == Building2
  {
    OccurrenceFound("City Train Depot", "Train", 5);
    OccurrenceFound("City Train Depot", "City", 0);
  }

  /**
   * A name gets the icon of keyword `j` when keyword `j` occurs in it and
   * no earlier keyword does.
   */
  lemma IconOfKeyword(name: string, j: nat, at: nat)
    requires j < |KEYWORDS| && OccursAt(name, KEYWORDS[j], at)
    requires forall k :: 0 <= k < j ==> !Includes(name, KEYWORDS[k])
    ensures StationIcon(name) == KEYWORD_ICONS[j]
  {
    OccurrenceFound(name, KEYWORDS[j], at);
    StationIconIsFirstMatch(name);
    var first := FirstKeyword(name, 0);
    assert first == j;
  }

  // The icon of each load, one lemma per load: a character that rules out
  // each earlier keyword, then the occurrence of the load's own keyword.

  lemma CityLoadIcon(name: string)
    requires name == PowerLoads()[0].name
    ensures StationIcon(name) == Building2
  {
    assert name[6..10] == KEYWORDS[0];
    IconOfKeyword(name, 0, 6);
  }

  lemma EvNameLacks(name: string)
    requires name == "EV Charging Station"
    ensures Lacks(name, 'y')
  {
  }

  lemma EvNameExcludes(name: string)
    requires name == "EV Charging Station"
    ensures forall k :: 0 <= k < 1 ==> !Includes(name, KEYWORDS[k])
  {
    EvNameLacks(name);
    MissingCharExcludes(name, KEYWORDS[0], 'y');
  }

  lemma EvLoadIcon(name: string)
    requires name == PowerLoads()[1].name
    ensures StationIcon(name) == Car
  {
    EvNameExcludes(name);
    assert name[0..2] == KEYWORDS[1];
    IconOfKeyword(name, 1, 0);
  }

  lemma GasNameLacks(name: string)
    requires name == "Gas Station Complex"
    ensures Lacks(name, 'y') && Lacks(name, 'V')
  {
  }

  lemma GasNameExcludes(name: string)
    requires name == "Gas Station Complex"
    ensures forall k :: 0 <= k < 2 ==> !Includes(name, KEYWORDS[k])
  {
    GasNameLacks(name);
    MissingCharExcludes(name, KEYWORDS[0], 'y');
    MissingCharExcludes(name, KEYWORDS[1], 'V');
  }

  lemma GasLoadIcon(name: string)
    requires name == PowerLoads()[2].name
    ensures StationIcon(name) == Fuel
  {
    GasNameExcludes(name);
    assert name[0..3] == KEYWORDS[2];
    IconOfKeyword(name, 2, 0);
  }

  lemma TrainNameLacks(name: string)
    requires name == "Central Train Station"
    ensures Lacks(name, 'y') && Lacks(name, 'V') && Lacks(name, 'G')
  {
  }

  lemma TrainNameExcludes(name: string)
    requires name == "Central Train Station"
    ensures forall k :: 0 <= k < 3 ==> !Includes(name, KEYWORDS[k])
  {
    TrainNameLacks(name);
    MissingCharExcludes(name, KEYWORDS[0], 'y');
    MissingCharExcludes(name, KEYWORDS[1], 'V');
    MissingCharExcludes(name, KEYWORDS[2], 'G');
  }

  lemma TrainLoadIcon(name: string)
    requires name == PowerLoads()[3].name
    ensures StationIcon(name) == Train
  {
    TrainNameExcludes(name);
    assert name[8..13] == KEYWORDS[3];
    IconOfKeyword(name, 3, 8);
  }

  lemma FactoryNameLacks(name: string)
    requires name == "Industrial Factory Plant"
    ensures Lacks(name, 'C') && Lacks(name, 'V') && Lacks(name, 'G') && Lacks(name, 'T')
  {
  }

  lemma FactoryNameExcludes(name: string)
    requires name == "Industrial Factory Plant"
    ensures forall k :: 0 <= k < 4 ==> !Includes(name, KEYWORDS[k])
  {
    FactoryNameLacks(name);
    MissingCharExcludes(name, KEYWORDS[0], 'C');
    MissingCharExcludes(name, KEYWORDS[1], 'V');
    MissingCharExcludes(name, KEYWORDS[2], 'G');
    MissingCharExcludes(name, KEYWORDS[3], 'T');
  }

  lemma FactoryLoadIcon(name: string)
    requires name == PowerLoads()[4].name
    ensures StationIcon(name) == Factory
  {
    FactoryNameExcludes(name);
    assert name[11..18] == KEYWORDS[4];
    IconOfKeyword(name, 4, 11);
  }

  /** The five loads get five different icons, one per keyword, in load order. */
  lemma LoadIcons()
    ensures forall i :: 0 <= i < |PowerLoads()| ==> StationIcon(PowerLoads()[i].name) == KEYWORD_ICONS[i]
  {
    forall i | 0 <= i < |PowerLoads()|
      ensures StationIcon(PowerLoads()[i].name) == KEYWORD_ICONS[i]
    {
      if i == 0 {
        CityLoadIcon(PowerLoads()[i].name);
      } else if i == 1 {
        EvLoadIcon(PowerLoads()[i].name);
      } else if i == 2 {
        GasLoadIcon(PowerLoads()[i].name);
      } else if i == 3 {
        TrainLoadIcon(PowerLoads()[i].name);
      } else {
        FactoryLoadIcon(PowerLoads()[i].name);
      }
    }
  }
}
