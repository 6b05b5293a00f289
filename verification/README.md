# Boss HP Reorder — placement policy model

A Dafny model of the RuneLite plugin "Boss HP Reorder". The plugin moves two
overlays so they do not overlap: the experience-drop tracker and the boss
health bar. When XP drops are shown, the tracker is centred, and the health
bar sits at the top of the screen, the plugin forces the tracker container
and the health-bar container to the configured bar offset. If the bar is
top-centre, it also pushes the tracker below the bar. In every other
situation it clears the forced positions. It writes the sentinel (-1, -1)
to each of the three managed widgets that is loaded.

Files:

- `wrappers.dfy` — `Option`, which stands for Java's nullable references.
- `widgets.dfy` — the four looked-up widgets. A widget has read-only layout
  (relative x, height) and a forced-position slot. The file also holds
  `resetWidgetPositions` and `resetWidgetForcedPosition`.
- `placement.dfy` — `adjustHealthBarLocation` as a pure function. Its contract
  states the decision table branch by branch. The file also has idempotence,
  statelessness and four concrete scenarios.
- `events.dfy` — the lifecycle hooks and event handlers as one `Dispatch`
  function. It takes an event, the game state and the stored health-bar
  config, and picks an action: nothing, adjust with a given preferred
  position, or reset.
- `plugin.dfy` — event handling over time. `Run` handles a sequence of events
  in order. Lemmas state what holds over any such history.

## Model

| member | source | states |
|---|---|---|
| Widgets.ResetWidgetForcedPosition | src/main/java/thestonedturtle/bosshpreorder/BossHpReorderPlugin.java:243-250 | an absent widget stays absent; a present one keeps its layout and gets the (-1,-1) sentinel |
| Widgets.ResetWidgetPositions | src/main/java/thestonedturtle/bosshpreorder/BossHpReorderPlugin.java:232-241 | each loaded managed widget (tracker container, tracker, health-bar container) is cleared; absent ones are skipped; the health bar and every widget's layout are unchanged |
| Widgets.ResetCharacterized | src/main/java/thestonedturtle/bosshpreorder/BossHpReorderPlugin.java:232-250 | a tree is the reset of t exactly when it has t's layout, t's health bar and all managed widgets cleared (both directions) |
| Widgets.ResetIdempotent | src/main/java/thestonedturtle/bosshpreorder/BossHpReorderPlugin.java:232-241 | resetting twice gives the same widgets as resetting once |
| Widgets.ResetForgetsForcing | src/main/java/thestonedturtle/bosshpreorder/BossHpReorderPlugin.java:232-250 | two trees with the same layout reset to identical managed widgets, whatever was forced before |
| Placement.AdjustHealthBarLocation | src/main/java/thestonedturtle/bosshpreorder/BossHpReorderPlugin.java:170-230 | hidden XP drops or boss-overlay varbit 1, tracker not centred, any of the four widgets missing, or a position other than null/TOP_LEFT/TOP_RIGHT each give exactly the reset state; otherwise both containers go to (their x, barOffset), and the tracker goes to (its x, bar height) for a null position or to (-1,-1) at a top corner; the health bar is never written |
| Placement.AdjustResetsExactlyWhenGuardFails | src/main/java/thestonedturtle/bosshpreorder/BossHpReorderPlugin.java:172-229 | with a bar offset other than -1, adjusting yields the reset state if and only if one of the guards fails |
| Placement.AdjustIdempotent | src/main/java/thestonedturtle/bosshpreorder/BossHpReorderPlugin.java:170-230 | adjusting again with the same inputs changes nothing |
| Placement.AdjustForgetsForcing | src/main/java/thestonedturtle/bosshpreorder/BossHpReorderPlugin.java:204-229 | what adjusting writes depends on varbits, position, offset and layout only, not on earlier forced positions |
| Placement.ScenarioCentredBar | src/main/java/thestonedturtle/bosshpreorder/BossHpReorderPlugin.java:207-219 | default top-centre bar with offset 23: containers at y 23 and the tracker at the bar's height |
| Placement.ScenarioTopRight | src/main/java/thestonedturtle/bosshpreorder/BossHpReorderPlugin.java:207-223 | bar at TOP_RIGHT with offset 23: containers at y 23 and the tracker released |
| Placement.ScenarioMissingContainer | src/main/java/thestonedturtle/bosshpreorder/BossHpReorderPlugin.java:187-194 | health-bar container not loaded: everything loaded is cleared |
| Placement.ScenarioBottomCorner | src/main/java/thestonedturtle/bosshpreorder/BossHpReorderPlugin.java:225-229 | bar at a bottom corner: everything is cleared |
| Events.Dispatch | src/main/java/thestonedturtle/bosshpreorder/BossHpReorderPlugin.java:75-168 | resets exactly on shutDown or on a runelite-group location change to a non-null value; every adjustment uses either the event's new position (runelite position-key change, always adjusts) or the stored position and then only with no location stored; startUp acts iff no location is stored; a varbit event adjusts iff logged in, no location stored and the id is 4702, tracker position or boss overlay; a plugin-group change adjusts iff no location stored; a script event adjusts iff it is script 2102 and no location stored; other groups, other runelite keys and a location change to null do nothing |
| Events.LocationOverrideGates | src/main/java/thestonedturtle/bosshpreorder/BossHpReorderPlugin.java:81-165 | while a dynamic location is stored, no event except a snapped-position change leads to an adjustment |
| Plugin.Perform | src/main/java/thestonedturtle/bosshpreorder/BossHpReorderPlugin.java:86-92 | carrying out an action never writes the health bar nor changes layout; doing nothing leaves the widgets as they were; a reset leaves them cleared |
| Plugin.Run | src/main/java/thestonedturtle/bosshpreorder/BossHpReorderPlugin.java:95-168 | over any sequence of events the health bar's forced slot is never written and no widget's presence or layout changes |
| Plugin.OverrideOnlyClears | src/main/java/thestonedturtle/bosshpreorder/BossHpReorderPlugin.java:103-147 | over a history where a location stays stored and the snapped position never changes, every managed widget keeps its old forced slot or is cleared |
| Plugin.ShutDownClears | src/main/java/thestonedturtle/bosshpreorder/BossHpReorderPlugin.java:89-93 | after shutDown every loaded managed widget is cleared, whatever came before |
| Plugin.PerformForgetsForcing | src/main/java/thestonedturtle/bosshpreorder/BossHpReorderPlugin.java:170-241 | a reset or an adjustment writes the same managed widgets to any two trees of equal layout |
| Plugin.RunForgetsInitialForcing | src/main/java/thestonedturtle/bosshpreorder/BossHpReorderPlugin.java:95-241 | once any event in a history made the plugin act, the final managed widgets no longer depend on the initial forced positions |

Behaviour of the plugin's code that the model keeps as it is:

- The plugin compares the tracker-position varbit with the integer 1.
- Only a null stored position means top-centre. The plugin compares the
  stored string with "TOP_LEFT" and "TOP_RIGHT", so a stored literal
  "TOP_CENTER" resets.
- A runelite-group change of the position key adjusts even while a location
  is stored (lines 137-140 have no location check). `Events.Dispatch` states
  this, and `Plugin.OverrideOnlyClears` excludes such events.
- A runelite-group change of the location key to null does nothing, and so
  does a change of any other runelite-group key. Nothing is re-adjusted until
  the next triggering event.

## Left out

- Dependency injection and `provideConfig` (lines 57-73): host wiring with no logic.
- `clientThread.invoke` deferral: an invoked action runs immediately, against the same client and config state the handler saw.
- The client and the config manager as services: the model takes a snapshot instead. The snapshot holds the game state, the three varbit values, the two runelite-group health-bar entries, the plugin's bar offset and the optional widgets.
- `Varbits.EXPERIENCE_TRACKER_POSITION`, `Varbits.BOSS_HEALTH_OVERLAY` and `BossHpReorderConfig.GROUP_KEY`: their values are defined outside this plugin, so they are parameters (`Events.HostIds`). BossHpReorderConfig.java is not part of this model; `barOffset` is an arbitrary integer.
- Game states other than LOGGED_IN are merged into one value, because the plugin only tests for LOGGED_IN.
- Widget rendering, and what the client does with a forced position during layout, are not modelled. A widget's relative x and height are read-only inputs.
- Plugin.Run: the client loading or unloading widgets between two events is not part of the history model. Every single step still handles any subset of missing widgets.
