/**
 * The plugin's event gating: startUp, shutDown, onVarbitChanged,
 * onConfigChanged and onScriptPostFired each decide to adjust (with some
 * preferred position), to reset, or to do nothing.
 */
module Events {
  import opened Wrappers

  const RuneliteGroup: string := "runelite"
  const HpBarName: string := "HEALTH_OVERLAY_BAR"
  /** The runelite-group key holding the bar's snapped position (null means TOP_CENTER). */
  const PositionKey: string := HpBarName + "_preferredPosition"
  /** The runelite-group key holding a dragged, dynamic location for the bar. */
  const LocationKey: string := HpBarName + "_preferredLocation"
  const XpDropsShownVarbit: int := 4702
  const HpBarTextUpdateScript: int := 2102

  /**
   * Identifiers that belong to the client API and to the plugin's config
   * interface and whose values do not appear in the plugin's own source.
   */
  datatype HostIds = HostIds(
    trackerPositionVarbit: int,    // Varbits.EXPERIENCE_TRACKER_POSITION
    bossHealthOverlayVarbit: int,  // Varbits.BOSS_HEALTH_OVERLAY
    pluginGroup: string)           // BossHpReorderConfig.GROUP_KEY

  /** Only LOGGED_IN matters to the plugin; every other client state is alike. */
  datatype GameState = LoggedIn | NotLoggedIn

  /** The two runelite-group entries for the health bar, as the config store holds them now. */
  datatype HpBarConfig = HpBarConfig(position: Option<string>, location: Option<string>)

  datatype Event =
    | StartUp
    | ShutDown
    | VarbitChanged(varbitId: int)
    | ConfigChanged(group: string, key: string, newValue: Option<string>)
    | ScriptPostFired(scriptId: int)

  /** What a handler asks for: nothing, adjustHealthBarLocation(position), or resetWidgetPositions. */
  datatype Action = NoAction | Adjust(position: Option<string>) | Reset

  /** A varbit whose change can move the overlays. */
  predicate Watched(id: int, ids: HostIds)
  {
    id == XpDropsShownVarbit || id == ids.trackerPositionVarbit || id == ids.bossHealthOverlayVarbit
  }

  /** A change in the runelite group (the plugin's own group is checked first). */
  predicate RuneliteChange(e: Event, ids: HostIds)
  {
    e.ConfigChanged? && e.group != ids.pluginGroup && e.group == RuneliteGroup
  }

  /** A change of the bar's snapped position. */
  predicate PositionChange(e: Event, ids: HostIds)
  {
    RuneliteChange(e, ids) && e.key == PositionKey
  }

  /** The bar was dragged to a dynamic location (a non-null location was stored). */
  predicate LocationSet(e: Event, ids: HostIds)
  {
    RuneliteChange(e, ids) && e.key == LocationKey && e.newValue.Some?
  }

  lemma KeysDiffer()
    ensures PositionKey != LocationKey
  {
    assert PositionKey[|HpBarName| + 1] == 'p';
    assert LocationKey[|HpBarName| + 1] == 'p';
    assert PositionKey[|HpBarName| + 10] == 'P';
    assert LocationKey[|HpBarName| + 10] == 'L';
  }

  /** The handler for event e, given the client's game state and the stored config. */
  function Dispatch(e: Event, game: GameState, cfg: HpBarConfig, ids: HostIds): (a: Action)
    // shutDown always resets; otherwise only dragging the bar to a dynamic location resets
    ensures a.Reset? <==> e.ShutDown? || LocationSet(e, ids)
    // every adjustment uses either the new snapped position of the event,
    // or the stored position and then only while no dynamic location is stored
    ensures a.Adjust? ==>
      || (PositionChange(e, ids) && a.position == e.newValue)
      || (!PositionChange(e, ids) && cfg.location.None? && a.position == cfg.position)
    // a snapped-position change always adjusts with the event's value
    ensures PositionChange(e, ids) ==> a == Adjust(e.newValue)
    ensures e.StartUp? ==> (a.NoAction? <==> cfg.location.Some?)
    ensures e.VarbitChanged? ==>
      (a.Adjust? <==> game == LoggedIn && cfg.location.None? && Watched(e.varbitId, ids))
    ensures e.ConfigChanged? && e.group == ids.pluginGroup ==> (a.Adjust? <==> cfg.location.None?)
    ensures e.ScriptPostFired? ==>
      (a.Adjust? <==> e.scriptId == HpBarTextUpdateScript && cfg.location.None?)
    ensures e.ConfigChanged? && e.group != ids.pluginGroup && e.group != RuneliteGroup ==> a.NoAction?
    // any other runelite-group key, and a location cleared to null, are ignored
    ensures RuneliteChange(e, ids) && e.key != PositionKey && !LocationSet(e, ids) ==> a.NoAction?
  {
    KeysDiffer();
    match e
    case StartUp =>
      if cfg.location.Some? then NoAction else Adjust(cfg.position)
    case ShutDown =>
      Reset
    case VarbitChanged(id) =>
      if game != LoggedIn then NoAction
      else if cfg.location.Some? then NoAction
      else if id == XpDropsShownVarbit || id == ids.trackerPositionVarbit || id == ids.bossHealthOverlayVarbit then
        Adjust(cfg.position)
      else NoAction
    case ConfigChanged(group, key, newValue) =>
      if group == ids.pluginGroup then
        if cfg.location.Some? then NoAction else Adjust(cfg.position)
      else if group != RuneliteGroup then NoAction
      else if key == PositionKey then Adjust(newValue)
      else if key == LocationKey then
        if newValue.Some? then Reset else NoAction
      else NoAction
    case ScriptPostFired(scriptId) =>
      if scriptId != HpBarTextUpdateScript then NoAction
      else if cfg.location.Some? then NoAction
      else Adjust(cfg.position)
  }

  /**
   * While a dynamic location is stored the plugin keeps its hands off: apart
   * from a snapped-position change, no event leads to an adjustment.
   */
  lemma LocationOverrideGates(e: Event, game: GameState, cfg: HpBarConfig, ids: HostIds)
    requires cfg.location.Some?
    requires !PositionChange(e, ids)
    ensures Dispatch(e, game, cfg, ids).NoAction? || Dispatch(e, game, cfg, ids).Reset?
  {
  }
}
