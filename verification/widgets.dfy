/**
 * The four client widgets the plugin looks up, the forced-position slot each
 * one carries, and the reset operation that clears the three slots the plugin
 * manages (resetWidgetPositions / resetWidgetForcedPosition).
 */
module Widgets {
  import opened Wrappers

  /** A forced-position pair as handed to Widget.setForcedPosition. */
  datatype Pos = Pos(x: int, y: int)

  /** The pair (-1, -1), which the client reads as "no forced position". */
  const Unforced: Pos := Pos(-1, -1)

  /**
   * What the plugin reads from a widget (its relative x and its height) and
   * the forced-position slot it writes. The read attributes are layout the
   * client owns; the plugin never changes them.
   */
  datatype Widget = Widget(relativeX: int, height: int, forced: Pos)

  /**
   * The widgets the plugin asks the client for. A field is None exactly when
   * client.getWidget returns null for it.
   *   hpContainer        - health overlay group, child 4
   *   hpBar              - the health overlay bar itself (only its height is read)
   *   xpTrackerContainer - experience drop group, child 3
   *   xpTracker          - experience drop group, child 4
   */
  datatype Tree = Tree(
    hpContainer: Option<Widget>,
    hpBar: Option<Widget>,
    xpTrackerContainer: Option<Widget>,
    xpTracker: Option<Widget>)

  /** Same presence and the same read-only attributes; forced slots may differ. */
  predicate SameShape(a: Option<Widget>, b: Option<Widget>)
  {
    && a.Some? == b.Some?
    && (a.Some? ==> a.value.relativeX == b.value.relativeX && a.value.height == b.value.height)
  }

  /** Two trees the client would lay out alike: every widget agrees in shape. */
  predicate SameLayout(a: Tree, b: Tree)
  {
    && SameShape(a.hpContainer, b.hpContainer)
    && SameShape(a.hpBar, b.hpBar)
    && SameShape(a.xpTrackerContainer, b.xpTrackerContainer)
    && SameShape(a.xpTracker, b.xpTracker)
  }

  /** The three widgets the plugin writes to hold identical values in both trees. */
  predicate SameManaged(a: Tree, b: Tree)
  {
    && a.xpTrackerContainer == b.xpTrackerContainer
    && a.xpTracker == b.xpTracker
    && a.hpContainer == b.hpContainer
  }

  /** An absent widget, or a present one without a forced position. */
  predicate IsUnforced(w: Option<Widget>)
  {
    w.Some? ==> w.value.forced == Unforced
  }

  /** Every managed widget that is present carries the sentinel. */
  predicate Cleared(t: Tree)
  {
    IsUnforced(t.xpTrackerContainer) && IsUnforced(t.xpTracker) && IsUnforced(t.hpContainer)
  }

  /** Widget.setForcedPosition: only the forced slot changes. */
  function SetForcedPosition(w: Widget, x: int, y: int): (r: Widget)
    ensures r.forced == Pos(x, y)
    ensures SameShape(Some(w), Some(r))
  {
    w.(forced := Pos(x, y))
  }

  /** resetWidgetForcedPosition: a null widget is skipped, a present one gets (-1, -1). */
  function ResetWidgetForcedPosition(w: Option<Widget>): (r: Option<Widget>)
    ensures SameShape(w, r)
    ensures IsUnforced(r)
  {
    match w
    case None => None
    case Some(v) => Some(SetForcedPosition(v, -1, -1))
  }

  /**
   * resetWidgetPositions: clears the tracker container, the tracker and the
   * health-bar container, tolerating any of them being absent. The bar itself
   * is left alone.
   */
  function ResetWidgetPositions(t: Tree): (r: Tree)
    ensures SameLayout(t, r)
    ensures r.hpBar == t.hpBar
    ensures Cleared(r)
  {
    var xpTrackerContainer := ResetWidgetForcedPosition(t.xpTrackerContainer);
    var xpTracker := ResetWidgetForcedPosition(t.xpTracker);
    var hpContainer := ResetWidgetForcedPosition(t.hpContainer);
    t.(xpTrackerContainer := xpTrackerContainer, xpTracker := xpTracker, hpContainer := hpContainer)
  }

  /** Two optional widgets with the same shape and the same forced slot are equal. */
  lemma ShapeAndForcedDetermine(a: Option<Widget>, b: Option<Widget>)
    requires SameShape(a, b)
    requires a.Some? ==> a.value.forced == b.value.forced
    ensures a == b
  {
  }

  /**
   * The reset state is exactly characterised: a tree is the reset of t if and
   * only if it has t's layout, t's health bar untouched, and every managed
   * widget cleared.
   */
  lemma ResetCharacterized(t: Tree, u: Tree)
    ensures u == ResetWidgetPositions(t) <==> (SameLayout(t, u) && u.hpBar == t.hpBar && Cleared(u))
  {
    if SameLayout(t, u) && u.hpBar == t.hpBar && Cleared(u) {
      var r := ResetWidgetPositions(t);
      ShapeAndForcedDetermine(r.xpTrackerContainer, u.xpTrackerContainer);
      ShapeAndForcedDetermine(r.xpTracker, u.xpTracker);
      ShapeAndForcedDetermine(r.hpContainer, u.hpContainer);
    }
  }

  /** Resetting twice leaves the widgets as resetting once does. */
  lemma ResetIdempotent(t: Tree)
    ensures ResetWidgetPositions(ResetWidgetPositions(t)) == ResetWidgetPositions(t)
  {
    var r := ResetWidgetPositions(t);
    ResetCharacterized(r, ResetWidgetPositions(r));
    ResetCharacterized(t, ResetWidgetPositions(r));
  }

  /** The reset state depends only on the layout, not on what was forced before. */
  lemma ResetForgetsForcing(t1: Tree, t2: Tree)
    requires SameLayout(t1, t2)
    ensures SameManaged(ResetWidgetPositions(t1), ResetWidgetPositions(t2))
  {
    var r1 := ResetWidgetPositions(t1);
    var r2 := ResetWidgetPositions(t2);
    ShapeAndForcedDetermine(r1.xpTrackerContainer, r2.xpTrackerContainer);
    ShapeAndForcedDetermine(r1.xpTracker, r2.xpTracker);
    ShapeAndForcedDetermine(r1.hpContainer, r2.hpContainer);
  }
}
