# Grid Guardian SCADA dashboard — a Dafny model

This project models the logic of a mock SCADA (supervisory control) web
dashboard. The dashboard simulates cyber breaches on four pieces of
infrastructure: a power grid, a railway, an oil rig and an airport.
Each Dafny module below matches one core source file:

- `PowerGridDashboard`: the grid dashboard. Arming a breach starts a
  ten-second countdown on a one-second interval. When the countdown ends,
  every substation and load is shut down. Restoring writes the literal
  baseline back.
- `TrainControl`, `OilRigControl` and `AirportControl`: the three control
  pages. Each polls its own `localStorage` key once a second. When the key
  reads `'true'` and the page is not yet breached, the page swaps in a
  compromised snapshot with random failure values and removes the key.
  Resetting writes the baseline literals back.
- `TrainTopology` and `OilRigTopology`: the node and edge lists that the
  two React Flow network views are built from.
- `AttackPowerGrid`: the static "grid under attack" view. It has constant
  shut-down snapshots, a badge that always reads OFFLINE, and an icon for
  each load, chosen by the first keyword the load's name contains.

Three helper modules stand for the platform:

- `Js`: JavaScript's `||` on strings, `String.prototype.includes`, ASCII
  `toUpperCase`, `Array.prototype.slice`, and integer-to-text conversion.
- `Browser`: `localStorage` as a `map<string, string>`, and `Math.random`
  as a `Draw`, a real in [0, 1).
- `Ui`: positions, edges and badges.

Each stateful component is a `class`:

- Its fields are the component's `useState` variables.
- Its function `State()` collects them into a value.
- Each handler is a method whose `ensures` ties the new state to a pure step
  function of the old state: `BreachStep`, `TickStep`, `RestoreStep`,
  `PollStep` or `ResetStep`.

The properties are proved as lemmas about those step functions.

Each random draw comes from a stream `nat -> Draw`. List element `i` uses
draw `i` of its stream, and every `Math.random()` call site has its own
stream. Each lemma holds for every possible stream.

The dashboard's live countdown intervals are counted in the field
`liveIntervals`.

## Behaviour worth noting

The model follows what the code does, including where that differs from
what the program's own messages suggest:

- **Flag value.** All three pages act only on the literal value `'true'`
  (src/pages/TrainControl.tsx:32 and the same test in the other pages). Any
  other value is left in the store and never acted on
  (`TrainControl.OtherValuesIgnored`).
- **Restore does not cancel the countdown.** The restore toast says all
  power grid systems are back online (src/components/PowerGridDashboard.tsx:133),
  but `restoreSystem` does not clear the countdown interval. That interval's
  next tick sees the timer at 0 and shuts the freshly restored baseline down
  again (`PowerGridDashboard.StaleTickAfterRestore`).
- **The breach flag stays set.** After the shutdown commits,
  `isBreachActive` stays true, so the compromised state is "flag set,
  timer 0" (`PowerGridDashboard.ExactlyOnePhase`).
- **Breach is guarded only by the button.** The Simulate Breach button is
  disabled while a breach is active (src/components/PowerGridDashboard.tsx:167),
  but `simulateBreach` itself arms from any state, restarting the countdown
  at 10 and starting one more interval.
- **A train breach may keep a light's colour.** The code draws red or yellow
  at random for every light, so a light that was already red or yellow can
  keep its colour (`TrainControl.BreachCanKeepLightColour`).
- **A flag written during a breach is not consumed.** It stays in the
  store. It then fires at the first poll after a reset
  (`TrainControl.LeftOverFlagFiresAfterReset`).
- **The oil rig's breach status is shown muted.** After a breach the oil
  rig's fluid statuses are `'warning'` or `'critical'`. The status
  classifier has no `'warning'` case, so those tanks are drawn muted
  (`OilRigControl.BreachShownOffline`).
- **The oil rig topology builder is not wired to the oil rig page.**
  `OilRigTopology` takes its tanks as the `fluidLevels` prop, and
  src/pages/OilRigControl.tsx neither imports nor renders it. The lemmas
  `OilRigTopology.MountNodeIds`, `MountEdgeSources`, `MountEdgesDangle`,
  `MountTankColors` and `BreachTanksNotGreen` apply the builder to the
  page's tank list as an assumed input. Applied to the page's five mount
  tanks, the edge builder still links eight, so the edges into tanks 6, 7
  and 8 end at no node (`OilRigTopology.MountEdgesDangle`).

## Model

| member | source | states |
|---|---|---|
| PowerGridDashboard.RestoreLiteralsAreBaseline | src/components/PowerGridDashboard.tsx:30-55 | the arrays `restoreSystem` writes equal the mount arrays value for value |
| PowerGridDashboard.BreachArmsCountdown | src/components/PowerGridDashboard.tsx:57-59 | arming sets the flag, puts 10 on the timer, starts one more interval and leaves the snapshot alone; the alert then shows, Simulate is disabled and Restore is enabled |
| PowerGridDashboard.TickCountsDown | src/components/PowerGridDashboard.tsx:69-70 | a tick with the timer above 1 takes exactly one off and changes nothing else |
| PowerGridDashboard.TickCommitsShutdown | src/components/PowerGridDashboard.tsx:70-92 | a tick at 1 or below clears its interval, zeroes the timer, shuts every substation down (status, voltage, frequency, load) and disconnects every load (status, power), keeping the ids; the alert is then hidden |
| PowerGridDashboard.RestoreYieldsBaseline | src/components/PowerGridDashboard.tsx:99-129 | from any state, restoring gives the mount state with the live intervals unchanged; it is idempotent and leaves Simulate enabled, Restore disabled and no alert |
| PowerGridDashboard.ControlGuards | src/components/PowerGridDashboard.tsx:167-187 | Restore is enabled exactly when the flag is set or the timer is non-zero; whenever the alert shows, Restore is enabled and Simulate is disabled |
| PowerGridDashboard.CountsDownFor | src/components/PowerGridDashboard.tsx:68-95 | fewer ticks than the timer shows only lower the timer by their number |
| PowerGridDashboard.TicksSplit | src/components/PowerGridDashboard.tsx:68-96 | `a` ticks followed by `b` ticks are `a + b` ticks |
| PowerGridDashboard.CommitsAfter | src/components/PowerGridDashboard.tsx:68-95 | exactly as many ticks as the timer shows end in the committed shutdown, with one interval fewer |
| PowerGridDashboard.BreachCountdown | src/components/PowerGridDashboard.tsx:57-96 | after arming, ticks 0 to 9 keep the snapshot with the alert up and the timer at 10 - k; tick 10 commits the shutdown, with the flag still set and Restore the only enabled control |
| PowerGridDashboard.StaleTickAfterRestore | src/components/PowerGridDashboard.tsx:68-101 | restoring does not cancel a live interval: its next tick shuts the restored baseline down, and the dashboard then shows neither the alert nor an enabled Restore |
| PowerGridDashboard.MountBreachRestoreScenario | src/components/PowerGridDashboard.tsx:30-129 | from mount, arm and wait ten ticks: both substations are shut down with voltage and load 0; restoring brings them back online at loads 75 and 82 |
| PowerGridDashboard.TransitionsKeepConsistent | src/components/PowerGridDashboard.tsx:27-129 | mount is consistent (timer within 0..10; a running timer only with the flag set and a live interval; flag set with timer 0 only when every substation and load is in emergency shutdown at zero readings; statuses within the declared union), and arming, ticking with a live interval and restoring keep it so |
| PowerGridDashboard.ExactlyOnePhase | src/components/PowerGridDashboard.tsx:27-187 | a consistent dashboard is in exactly one of idle, counting down or compromised; idle offers only Simulate Breach and no alert; counting down shows the alert with a live interval and offers only Restore; compromised has every unit shut down, no alert and only Restore |
| PowerGridDashboard.StatusColor | src/components/PowerGridDashboard.tsx:137-144 | each status of the union gets its own colour, and grey is given exactly to statuses outside the union |
| PowerGridDashboard.StatusBadge | src/components/PowerGridDashboard.tsx:146-153 | each status of the union gets its own text and variant (ONLINE/default with the green class, OFFLINE/secondary, EMERGENCY SHUTDOWN/destructive pulsing), and the UNKNOWN outline badge is given exactly to statuses outside the union |
| PowerGridDashboard.CommittedShownAsShutdown | src/components/PowerGridDashboard.tsx:208-266 | after the committing tick every substation and load is drawn with the pulsing red dot and the EMERGENCY SHUTDOWN badge |
| PowerGridDashboard.Dashboard.constructor | src/components/PowerGridDashboard.tsx:27-55 | mounting gives the idle baseline state with no interval |
| PowerGridDashboard.Dashboard.SimulateBreach | src/components/PowerGridDashboard.tsx:57-97 | the handler's new state is `BreachStep` of the old one |
| PowerGridDashboard.Dashboard.Tick | src/components/PowerGridDashboard.tsx:68-96 | one interval callback's new state is `TickStep` of the old one |
| PowerGridDashboard.Dashboard.RestoreSystem | src/components/PowerGridDashboard.tsx:99-135 | the handler's new state is `RestoreStep` of the old one |
| TrainControl.CompromiseLightsShape | src/pages/TrainControl.tsx:35-38 | compromising keeps the number of lights and each light's id, location and last change, and makes every status red or yellow |
| TrainControl.CompromiseTrainsShape | src/pages/TrainControl.tsx:39-43 | compromising keeps every train's id, route, platform and next stop, sets its speed to 0 and its status to Emergency Stop or Signal Failure |
| TrainControl.PollActsOnlyWhenTriggered | src/pages/TrainControl.tsx:30-46 | a poll changes the page, store included, exactly when the key reads `'true'` and the page is not breached |
| TrainControl.PollCompromises | src/pages/TrainControl.tsx:30-46 | a triggered poll sets the breach flag, compromises lights and trains, and removes the breach key while keeping every other key and value |
| TrainControl.PollIdempotent | src/pages/TrainControl.tsx:30-50 | a second poll straight after a first changes nothing: one write is observed at most once |
| TrainControl.FlagPersistsWhileBreached | src/pages/TrainControl.tsx:31-32 | a flag written while the page is breached is neither acted on nor removed |
| TrainControl.LeftOverFlagFiresAfterReset | src/pages/TrainControl.tsx:29-68 | such a left-over flag breaches the page again at the first poll after a reset, and that poll removes it |
| TrainControl.OtherValuesIgnored | src/pages/TrainControl.tsx:31-32 | a key value other than `'true'` leaves the page and the store unchanged |
| TrainControl.ResetReturnsToMount | src/pages/TrainControl.tsx:52-68 | from any state, resetting gives the mount state over the same store; resetting twice is resetting once |
| TrainControl.BreachCanKeepLightColour | src/pages/TrainControl.tsx:35-38 | with draws of 0.9, a breached page has the Main Junction light at its mount colour, red |
| TrainControl.LightColor | src/pages/TrainControl.tsx:70-77 | green, yellow and red map one-to-one to online, warning and offline; exactly the other statuses are muted |
| TrainControl.StatusColor | src/pages/TrainControl.tsx:79-92 | each group of train statuses gets its class, and exactly the unlisted statuses are muted |
| TrainControl.BreachShownOffline | src/pages/TrainControl.tsx:30-46 | after a triggered poll every train badge uses the offline class, and every light is drawn warning or offline |
| TrainControl.TrainControlPage.constructor | src/pages/TrainControl.tsx:12-27 | mounting gives the baseline page, unbreached, over the given store |
| TrainControl.TrainControlPage.CheckBreach | src/pages/TrainControl.tsx:30-46 | one poll's new state is `PollStep` of the old one |
| TrainControl.TrainControlPage.ResetSystems | src/pages/TrainControl.tsx:52-68 | the reset's new state is `ResetStep` of the old one |
| OilRigControl.CompromiseFluidsShape | src/pages/OilRigControl.tsx:34-38 | compromising keeps each tank's id, name and capacity, puts its level in [0, 100) and its status at critical or warning |
| OilRigControl.CompromiseWellsShape | src/pages/OilRigControl.tsx:39-43 | compromising keeps each well's identity, depth and target, sets its status to Emergency Stop or System Failure and its pressure in [0, 4000) |
| OilRigControl.PollActsOnlyWhenTriggered | src/pages/OilRigControl.tsx:29-46 | a poll changes the page exactly when the key reads `'true'` and the page is not breached |
| OilRigControl.PollCompromises | src/pages/OilRigControl.tsx:29-46 | a triggered poll sets the flag, compromises tanks and wells, and removes only the breach key |
| OilRigControl.KeyRemovedOnlyWhenActing | src/pages/OilRigControl.tsx:31-44 | a present key is removed by a poll exactly when the poll acts |
| OilRigControl.PollIdempotent | src/pages/OilRigControl.tsx:29-50 | a second poll straight after a first changes nothing |
| OilRigControl.ResetReturnsToMount | src/pages/OilRigControl.tsx:52-68 | from any state, resetting gives the mount state over the same store; it is idempotent |
| OilRigControl.FluidStatusColor | src/pages/OilRigControl.tsx:70-77 | normal, low/high and critical get the online, warning and offline classes; exactly the other statuses are muted |
| OilRigControl.DrillingStatusColor | src/pages/OilRigControl.tsx:79-90 | each group of well statuses gets its class, and exactly the unlisted statuses are muted |
| OilRigControl.FluidLevelColor | src/pages/OilRigControl.tsx:92-96 | critical is offline whatever the level; otherwise warning exactly outside [20, 80] and online exactly inside it |
| OilRigControl.BreachShownOffline | src/pages/OilRigControl.tsx:29-46 | after a triggered poll every well badge is offline, and a tank badge is offline when critical and muted otherwise |
| OilRigControl.OilRigControlPage.constructor | src/pages/OilRigControl.tsx:11-26 | mounting gives the baseline page, unbreached, over the given store |
| OilRigControl.OilRigControlPage.CheckBreach | src/pages/OilRigControl.tsx:29-46 | one poll's new state is `PollStep` of the old one |
| OilRigControl.OilRigControlPage.ResetSystems | src/pages/OilRigControl.tsx:52-68 | the reset's new state is `ResetStep` of the old one |
| AirportControl.CompromiseSystemsShape | src/pages/AirportControl.tsx:34-38 | compromising keeps each system's id and name, sets its status to offline or warning and its load in [0, 100) |
| AirportControl.CompromiseFlightsShape | src/pages/AirportControl.tsx:39-42 | compromising keeps each flight's id, type, gate and eta and sets its status to Delayed or Cancelled |
| AirportControl.PollActsOnlyWhenTriggered | src/pages/AirportControl.tsx:29-45 | a poll changes the page exactly when the key reads `'true'` and the page is not breached |
| AirportControl.PollCompromises | src/pages/AirportControl.tsx:29-45 | a triggered poll sets the flag, compromises systems and flights, and removes only the breach key |
| AirportControl.KeyRemovedOnlyWhenActing | src/pages/AirportControl.tsx:30-43 | a present key is removed by a poll exactly when the poll acts |
| AirportControl.PollIdempotent | src/pages/AirportControl.tsx:29-49 | a second poll straight after a first changes nothing |
| AirportControl.ResetReturnsToMount | src/pages/AirportControl.tsx:51-67 | from any state, resetting gives the mount state over the same store; it is idempotent |
| AirportControl.StatusColor | src/pages/AirportControl.tsx:69-80 | each group of statuses gets its class, and exactly the unlisted statuses are muted |
| AirportControl.BreachShownNotOnline | src/pages/AirportControl.tsx:29-45 | after a triggered poll no system and no flight is drawn with the online class |
| AirportControl.AirportControlPage.constructor | src/pages/AirportControl.tsx:11-26 | mounting gives the baseline page, unbreached, over the given store |
| AirportControl.AirportControlPage.CheckBreach | src/pages/AirportControl.tsx:29-45 | one poll's new state is `PollStep` of the old one |
| AirportControl.AirportControlPage.ResetSystems | src/pages/AirportControl.tsx:51-67 | the reset's new state is `ResetStep` of the old one |
| TrainTopology.TrafficLightColor | src/components/TrainTopology.tsx:223-230 | yellow and red get their own colours; every other status, the empty one included, is drawn green |
| TrainTopology.FirstEnRoute | src/components/TrainTopology.tsx:233 | the index `find` stops at: no earlier train is en route, and the train there is, or there is none |
| TrainTopology.TrainPosition | src/components/TrainTopology.tsx:232-240 | (250, 150) with no train en route; otherwise offset by half and a quarter of the first en-route train's speed |
| TrainTopology.NodesShape | src/components/TrainTopology.tsx:33-152 | whatever the inputs there are seven nodes: four stations, traffic-1, traffic-2 and the train at its computed position |
| TrainTopology.EdgesFormCycle | src/components/TrainTopology.tsx:154-188 | the four tracks form the cycle station-1, station-2, station-3, station-4, station-1 |
| TrainTopology.SignalNodeFallback | src/components/TrainTopology.tsx:100-133 | a light node shows the upper-cased status and its colour when the entry exists with a non-empty status, and the defaults otherwise |
| TrainTopology.SignalFallbacks | src/components/TrainTopology.tsx:100-133 | the two light nodes read lights 0 and 3 and fall back to GREEN/green and YELLOW/yellow |
| TrainTopology.TrainCaptionFallbacks | src/components/TrainTopology.tsx:135-140 | the train caption is T003 at 80 km/h with no train en route; otherwise the train's id and speed, with an empty id or a speed of 0 replaced by those defaults |
| TrainTopology.PositionWithoutEnRouteTrain | src/components/TrainTopology.tsx:232-239 | with no train en route the node sits at (250, 150) |
| TrainTopology.PositionUsesFirstEnRoute | src/components/TrainTopology.tsx:232-237 | only the first en-route train positions the node |
| TrainTopology.MountPosition | src/components/TrainTopology.tsx:232-237 | with the mount trains the node sits at (290, 170) |
| TrainTopology.BreachParksTrainNode | src/components/TrainTopology.tsx:100-152 | built from a breached page, the train node is back at (250, 150) as T003 at 80 km/h, and with four lights neither light node is green |
| OilRigTopology.TankColor | src/components/OilRigTopology.tsx:225-229 | red exactly for critical; yellow exactly for non-critical tanks that are in warning or outside [20, 80]; green otherwise |
| OilRigTopology.LayoutParts | src/components/OilRigTopology.tsx:26-27 | the layout is the top row, the bottom row and the plant nodes, with `min(n, 8)` tanks over the two rows |
| OilRigTopology.LayoutEntries | src/components/OilRigTopology.tsx:25-135 | node `k` is tank `k`'s node, on the top row at index `k` for `k < 4` and on the bottom row at index `k - 4` otherwise, followed by the plant nodes |
| OilRigTopology.LayoutShape | src/components/OilRigTopology.tsx:25-135 | the first `min(n, 8)` nodes carry the tanks' ids, row positions (x = 150i + 50, y = 50 or 250), gauges and colours; the last three are the plant nodes; tanks from index 8 on get no node |
| OilRigTopology.PushRow | src/components/OilRigTopology.tsx:32-75 | the `forEach` loop appends exactly the row's nodes, in order, after the nodes already pushed |
| OilRigTopology.BuildNodes | src/components/OilRigTopology.tsx:25-135 | the builder returns the layout |
| OilRigTopology.BuildEdges | src/components/OilRigTopology.tsx:137-190 | the builder returns eleven edges whatever the tanks: the control edges for tanks 1 to 8 in order, then the three plant edges |
| OilRigTopology.ControlEdgesShape | src/components/OilRigTopology.tsx:141-157 | every control edge runs, unanimated, from the control center to tank `i`: on the top row for i ≤ 4 and on the bottom row otherwise |
| OilRigTopology.TankTextsDistinct | src/components/OilRigTopology.tsx:34-61 | two one-digit tank ids render to the same text exactly when row and number agree |
| OilRigTopology.NodeIdTextInjective | src/components/OilRigTopology.tsx:34-116 | on one-digit tank ids and the plant names, two ids render alike exactly when they are equal |
| OilRigTopology.PlantEdgeTexts | src/components/OilRigTopology.tsx:159-187 | the plant edges' ids and ends render to the texts the builder writes |
| OilRigTopology.MountNodeIds | src/components/OilRigTopology.tsx:25-135 | applied to the oil rig page's mount tanks as an assumed input, the ids are tanks 1 to 4 on top, tank 5 below, then control center, pumping station and processing unit |
| OilRigTopology.MountEdgeSources | src/components/OilRigTopology.tsx:137-190 | over the nodes built from the page's mount tanks (assumed input), every edge starts at an existing node |
| OilRigTopology.MountEdgesDangle | src/components/OilRigTopology.tsx:137-190 | over the nodes built from the page's mount tanks (assumed input), an edge ends at no node exactly when it is the control edge to tank 6, 7 or 8 or the transfer edge into tank-bottom-6 |
| OilRigTopology.MountTankColors | src/components/OilRigTopology.tsx:225-229 | built from the page's mount tanks (assumed input), the five tanks are green, green, green, yellow (Mud Circulation at 88), green |
| OilRigTopology.BreachTanksNotGreen | src/components/OilRigTopology.tsx:225-229 | applied to the page's tanks after a triggered breach poll (assumed input), the builder gives no green tank |
| AttackPowerGrid.SubstationsShutDown | src/components/AttackPowerGrid.tsx:33-54 | both substations are in emergency shutdown with voltage, frequency, load and efficiency 0 |
| AttackPowerGrid.LoadsShutDown | src/components/AttackPowerGrid.tsx:56-62 | all five loads are in emergency shutdown with no power |
| AttackPowerGrid.ConstantsMatchSnapshots | src/components/AttackPowerGrid.tsx:33-83 | the constant total load 0 is the loads' power summed, and the constant online count 0 is the number of online substations and of online loads |
| AttackPowerGrid.StatusBadge | src/components/AttackPowerGrid.tsx:78-80 | every badge is the pulsing "⚠ OFFLINE" one with the emergency class |
| AttackPowerGrid.BadgeIgnoresStatus | src/components/AttackPowerGrid.tsx:78-80 | any two statuses get the same badge |
| AttackPowerGrid.FirstKeyword | src/components/AttackPowerGrid.tsx:85-92 | the index of the earliest-listed keyword the name contains, or 5 when it contains none |
| AttackPowerGrid.StationIconIsFirstMatch | src/components/AttackPowerGrid.tsx:85-92 | the chain of tests gives the icon of the earliest-listed keyword in the name, and Power when there is none |
| AttackPowerGrid.MissingCharExcludes | src/components/AttackPowerGrid.tsx:86-90 | a name lacking some character of a keyword does not contain that keyword |
| AttackPowerGrid.OccurrenceFound | src/components/AttackPowerGrid.tsx:86-90 | an occurrence of a keyword at any index makes `includes` true |
| AttackPowerGrid.IconOfKeyword | src/components/AttackPowerGrid.tsx:85-92 | a name containing keyword `j` and no earlier keyword gets keyword `j`'s icon |
| AttackPowerGrid.CityBeatsTrain | src/components/AttackPowerGrid.tsx:86-89 | a name containing both City and Train gets the City icon |
| AttackPowerGrid.CityLoadIcon | src/components/AttackPowerGrid.tsx:57-86 | Metro City Grid gets the Building2 icon |
| AttackPowerGrid.EvLoadIcon | src/components/AttackPowerGrid.tsx:58-87 | EV Charging Station gets the Car icon |
| AttackPowerGrid.GasLoadIcon | src/components/AttackPowerGrid.tsx:59-88 | Gas Station Complex gets the Fuel icon |
| AttackPowerGrid.TrainLoadIcon | src/components/AttackPowerGrid.tsx:60-89 | Central Train Station gets the Train icon |
| AttackPowerGrid.FactoryLoadIcon | src/components/AttackPowerGrid.tsx:61-90 | Industrial Factory Plant gets the Factory icon |
| AttackPowerGrid.LoadIcons | src/components/AttackPowerGrid.tsx:56-92 | load `i` gets the icon of keyword `i`, so the five loads show five different icons |
| Js.IncludesIffOccurs | src/components/AttackPowerGrid.tsx:86-90 | the `includes` scan succeeds exactly when the keyword occurs at some index |
| Js.ToUpperCase | src/components/TrainTopology.tsx:105 | upper-casing keeps the length, maps each lower-case ASCII letter to its capital and leaves every other character alone |
| Js.Slice | src/components/OilRigTopology.tsx:26-27 | `slice(start, end)` has `min(end, n) - start` elements (none when past the end) and element `i` is element `start + i` of the list |
| Js.IntToString | src/components/OilRigTopology.tsx:34 | the text of an integer is non-empty and starts with a minus sign exactly for negatives; `IntToStringValue` states the value it denotes |
| Js.NatToString | src/components/OilRigTopology.tsx:34 | the decimal text of a natural number is non-empty, made of digits, and has no leading zero unless it is `0` |
| Js.NatToStringValue | src/components/OilRigTopology.tsx:34 | the digits of a natural number's text denote that number |
| Js.IntToStringValue | src/components/OilRigTopology.tsx:34 | the text of an integer, read back with its sign, is that integer |
| Js.IntToStringInjective | src/components/OilRigTopology.tsx:141-146 | two integers have the same text exactly when they are equal, so ids built from different numbers differ |

## Left out

- Rendering is not modelled: the JSX markup, CSS classes other than those
  the classifiers return, node styles, toasts, lucide icons (kept as an
  `Icon` datatype), and the React Flow view itself (fit, mini-map,
  disabled interaction).
- React Flow's node state is not modelled. `useNodesState(initialNodes)` in
  src/components/TrainTopology.tsx:190 seeds its state once, and nothing
  calls `setNodes`. The node lists modelled here are the recomputed
  `initialNodes` values. `TrainTopology.BreachParksTrainNode` and
  `OilRigTopology.BreachTanksNotGreen` are therefore about those values,
  not about the graph on screen.
- Real timers are not modelled. The one-second intervals are not timed: a
  tick is a call to `Tick` or `CheckBreach`. The attack view's clock
  (src/components/AttackPowerGrid.tsx:64-68, 125) reads the wall clock and
  is left out.
- The effect re-subscription on `isBreached` is not modelled
  (src/pages/TrainControl.tsx:48-50, and the same lines in the other pages).
  Tearing down and starting the poll interval does not change what one poll
  does.
- The shared store is per page. `localStorage` is shared across tabs; each
  page here holds its own copy as a field, so a write by another tab is
  modelled as the `store` argument of the constructor, or as `SetItem`
  applied to the page's state.
- Routing is not modelled: `useNavigate`, src/App.tsx, src/pages/MainPage.tsx
  and the attack view's `restoreSystem`
  (src/components/AttackPowerGrid.tsx:94-96), which only navigates away.
  The external breach-control page that writes the flags is not part of
  this model.
- Number formatting is not modelled: `toFixed(1)` and the template
  rendering of a tank's level and capacity, of the train's speed, and
  `toLocaleString` of the voltage. These numbers are kept as reals in the
  `Gauge` and `Locomotive` labels.
- Floating point is not modelled: JavaScript numbers are reals. A NaN or
  infinite speed or level is not modelled.
- Js.ToUpperCase: upper-cases the 26 ASCII letters only, not the full
  Unicode mapping of `toUpperCase`; the statuses it is applied to are ASCII.
- Random draws are streams. `Math.random()` is a stream of independent
  draws per call site and list element; the model does not fix the
  interleaving of the calls.
- Oil rig node and edge ids are structured values. They are kept as the
  parts they are built from (`TankKey(row, n)`, `ControlToTank(n)`, fixed
  names); `NodeIdText` and `EdgeIdText` give their text. Rendering is proved
  one-to-one for one-digit ids and the plant names, which covers every id
  the source builds at mount. For tank ids of two or more digits only the
  structured ids are compared.
- AttackPowerGrid.StationIcon: carries no contract of its own. Its chain
  of tests is characterised by `StationIconIsFirstMatch` and
  `IconOfKeyword`.
- OilRigTopology.PushRow: appends to an immutable sequence rather than
  pushing onto a shared array, so aliasing of the `nodes` array is not
  modelled.
- The power-grid dashboard's load and substation names in the grid
  topology card (src/components/PowerGridDashboard.tsx:276-339) are fixed
  markup; only their status colours are covered, through
  `PowerGridDashboard.StatusColor`.
