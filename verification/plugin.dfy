/**
 * The plugin over time: each event is dispatched against the client and
 * config state current at that moment, and the chosen action is carried out
 * on the widgets at once (the client-thread deferral is collapsed).
 */
module Plugin {
  import opened Widgets
  import opened Placement
  import opened Events

  /** The client and config state an event is handled against; barOffset is the plugin's own setting. */
  datatype Host = Host(game: GameState, config: HpBarConfig, varbits: Varbits, barOffset: int)

  /** One delivered event together with the state it is handled against. */
  datatype Tick = Tick(event: Event, host: Host)

  /** Carry out a handler's action on the widgets. */
  function Perform(a: Action, h: Host, t: Tree): (r: Tree)
    ensures r.hpBar == t.hpBar
    ensures SameLayout(t, r)
    ensures a.NoAction? ==> r == t
    ensures a.Reset? ==> Cleared(r)
  {
    match a
    case NoAction => t
    case Reset => ResetWidgetPositions(t)
    case Adjust(position) => AdjustHealthBarLocation(t, h.varbits, position, h.barOffset)
  }

  /** The action the handler for tick k chooses. */
  function ActionOf(k: Tick, ids: HostIds): Action
  {
    Dispatch(k.event, k.host.game, k.host.config, ids)
  }

  function Step(k: Tick, t: Tree, ids: HostIds): Tree
  {
    Perform(ActionOf(k, ids), k.host, t)
  }

  /** The widgets after the events of trace were handled in order, starting from t. */
  function Run(trace: seq<Tick>, t: Tree, ids: HostIds): (r: Tree)
    ensures r.hpBar == t.hpBar
    ensures SameLayout(t, r)
    decreases |trace|
  {
    if |trace| == 0 then t
    else Step(trace[|trace| - 1], Run(trace[..|trace| - 1], t, ids), ids)
  }

  /** Each managed widget in `after` is as in `before`, or cleared. */
  predicate OnlyCleared(before: Tree, after: Tree)
  {
    && (after.xpTrackerContainer == before.xpTrackerContainer || IsUnforced(after.xpTrackerContainer))
    && (after.xpTracker == before.xpTracker || IsUnforced(after.xpTracker))
    && (after.hpContainer == before.hpContainer || IsUnforced(after.hpContainer))
  }

  /** A dynamic location is stored when k is handled, and k is not a snapped-position change. */
  predicate Overridden(k: Tick, ids: HostIds)
  {
    k.host.config.location.Some? && !PositionChange(k.event, ids)
  }

  /**
   * As long as a dynamic location stays stored and the bar's snapped position
   * is not changed, the plugin never forces a position: every managed widget
   * keeps its old forced slot or is cleared.
   */
  lemma {:induction false} OverrideOnlyClears(trace: seq<Tick>, t: Tree, ids: HostIds)
    requires forall i :: 0 <= i < |trace| ==> Overridden(trace[i], ids)
    ensures OnlyCleared(t, Run(trace, t, ids))
    decreases |trace|
  {
    if |trace| > 0 {
      var prefix := trace[..|trace| - 1];
      var k := trace[|trace| - 1];
      assert forall i :: 0 <= i < |prefix| ==> prefix[i] == trace[i];
      OverrideOnlyClears(prefix, t, ids);
      var mid := Run(prefix, t, ids);
      LocationOverrideGates(k.event, k.host.game, k.host.config, ids);
      var a := ActionOf(k, ids);
      assert a.NoAction? || a.Reset?;
    }
  }

  /** After shutDown every managed widget that is loaded is cleared. */
  lemma ShutDownClears(trace: seq<Tick>, t: Tree, ids: HostIds)
    requires |trace| > 0 && trace[|trace| - 1].event.ShutDown?
    ensures Cleared(Run(trace, t, ids))
  {
  }

  /** The tick makes the plugin do something. */
  predicate Acts(k: Tick, ids: HostIds)
  {
    !ActionOf(k, ids).NoAction?
  }

  /** Carrying out one action forgets the forced positions of the tree it ran on. */
  lemma PerformForgetsForcing(a: Action, h: Host, t1: Tree, t2: Tree)
    requires SameLayout(t1, t2)
    requires !a.NoAction?
    ensures SameManaged(Perform(a, h, t1), Perform(a, h, t2))
  {
    match a
    case Reset => ResetForgetsForcing(t1, t2);
    case Adjust(position) => AdjustForgetsForcing(t1, t2, h.varbits, position, h.barOffset);
  }

  /**
   * The plugin keeps no state of its own: once any event has made it act,
   * the managed widgets no longer depend on the forced positions the trace
   * started from, only on the layout and on the events.
   */
  lemma {:induction false} RunForgetsInitialForcing(trace: seq<Tick>, t1: Tree, t2: Tree, ids: HostIds)
    requires SameLayout(t1, t2)
    requires exists i :: 0 <= i < |trace| && Acts(trace[i], ids)
    ensures SameManaged(Run(trace, t1, ids), Run(trace, t2, ids))
    decreases |trace|
  {
    var prefix := trace[..|trace| - 1];
    var k := trace[|trace| - 1];
    var m1 := Run(prefix, t1, ids);
    var m2 := Run(prefix, t2, ids);
    assert SameLayout(m1, m2);
    if Acts(k, ids) {
      PerformForgetsForcing(ActionOf(k, ids), k.host, m1, m2);
    } else {
      var i :| 0 <= i < |trace| && Acts(trace[i], ids);
      assert i < |prefix| && prefix[i] == trace[i];
      RunForgetsInitialForcing(prefix, t1, t2, ids);
    }
  }
}
