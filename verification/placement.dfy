/**
 * The placement policy of adjustHealthBarLocation: from three varbit values,
 * the health bar's stored preferred position and the plugin's bar offset it
 * either forces the tracker and health-bar containers to the top of the
 * screen, or falls back to resetWidgetPositions.
 */
module Placement {
  import opened Wrappers
  import opened Widgets

  /** The three client varbit values the policy reads. */
  datatype Varbits = Varbits(
    xpDropsShown: int,       // varbit 4702; 0 means XP drops are hidden
    trackerPosition: int,    // EXPERIENCE_TRACKER_POSITION; 1 means centre
    bossHealthOverlay: int)  // BOSS_HEALTH_OVERLAY; 1 disables the adjustment

  /** XP drops are shown and the boss health overlay varbit is not 1. */
  predicate OverlaysShown(v: Varbits)
  {
    v.xpDropsShown != 0 && v.bossHealthOverlay != 1
  }

  /** All four widgets the policy needs are loaded. */
  predicate AllPresent(t: Tree)
  {
    t.hpContainer.Some? && t.hpBar.Some? && t.xpTrackerContainer.Some? && t.xpTracker.Some?
  }

  /**
   * A preferred position at the top of the screen: unset (the client stores
   * the default TOP_CENTER as null), "TOP_LEFT" or "TOP_RIGHT".
   */
  predicate AtTop(newVal: Option<string>)
  {
    newVal.None? || newVal.value == "TOP_RIGHT" || newVal.value == "TOP_LEFT"
  }

  /** Every guard of the policy passes, so it forces positions instead of resetting. */
  predicate Applies(t: Tree, v: Varbits, newVal: Option<string>)
  {
    OverlaysShown(v) && v.trackerPosition == 1 && AllPresent(t) && AtTop(newVal)
  }

  /**
   * adjustHealthBarLocation. The guards run in the plugin's order and each
   * failing guard resets; the writes happen in the plugin's order too.
   */
  function AdjustHealthBarLocation(t: Tree, v: Varbits, newVal: Option<string>, barOffset: int): (r: Tree)
    // the health bar is only read, and no widget's presence or layout changes
    ensures r.hpBar == t.hpBar
    ensures SameLayout(t, r)
    // hidden XP drops, or the boss overlay varbit at 1: reset, whatever else holds
    ensures v.xpDropsShown == 0 || v.bossHealthOverlay == 1 ==> r == ResetWidgetPositions(t)
    // tracker not centred: reset
    ensures v.trackerPosition != 1 ==> r == ResetWidgetPositions(t)
    // any of the four widgets missing: reset
    ensures !AllPresent(t) ==> r == ResetWidgetPositions(t)
    // a preferred position other than the three top ones: reset
    ensures !AtTop(newVal) ==> r == ResetWidgetPositions(t)
    // otherwise both containers go to (their x, barOffset) ...
    ensures Applies(t, v, newVal) ==>
      && r.xpTrackerContainer == Some(t.xpTrackerContainer.value.(forced := Pos(t.xpTrackerContainer.value.relativeX, barOffset)))
      && r.hpContainer == Some(t.hpContainer.value.(forced := Pos(t.hpContainer.value.relativeX, barOffset)))
    // ... and the tracker drops below a centred bar, or is released at a top corner
    ensures Applies(t, v, newVal) && newVal.None? ==>
      r.xpTracker == Some(t.xpTracker.value.(forced := Pos(t.xpTracker.value.relativeX, t.hpBar.value.height)))
    ensures Applies(t, v, newVal) && newVal.Some? ==>
      r.xpTracker == Some(t.xpTracker.value.(forced := Unforced))
  {
    if v.xpDropsShown == 0 || v.bossHealthOverlay == 1 then
      ResetWidgetPositions(t)
    else if v.trackerPosition != 1 then
      ResetWidgetPositions(t)
    else if t.hpContainer.None? || t.hpBar.None? then
      ResetWidgetPositions(t)
    else if t.xpTrackerContainer.None? || t.xpTracker.None? then
      ResetWidgetPositions(t)
    else if newVal.None? || newVal.value == "TOP_RIGHT" || newVal.value == "TOP_LEFT" then
      var xpTrackerContainer := t.xpTrackerContainer.value;
      var hpContainer := t.hpContainer.value;
      var xpTracker := t.xpTracker.value;
      var t1 := t.(xpTrackerContainer := Some(SetForcedPosition(xpTrackerContainer, xpTrackerContainer.relativeX, barOffset)));
      var t2 := t1.(hpContainer := Some(SetForcedPosition(hpContainer, hpContainer.relativeX, barOffset)));
      if newVal.None? then
        t2.(xpTracker := Some(SetForcedPosition(xpTracker, xpTracker.relativeX, t.hpBar.value.height)))
      else
        t2.(xpTracker := Some(SetForcedPosition(xpTracker, -1, -1)))
    else
      ResetWidgetPositions(t)
  }

  /**
   * The policy either resets or forces: when it does not apply the result is
   * the reset state, and when it applies the result is never mistaken for a
   * cleared tree as long as the bar offset is not the sentinel's -1.
   */
  lemma AdjustResetsExactlyWhenGuardFails(t: Tree, v: Varbits, newVal: Option<string>, barOffset: int)
    requires barOffset != -1
    ensures AdjustHealthBarLocation(t, v, newVal, barOffset) == ResetWidgetPositions(t) <==> !Applies(t, v, newVal)
  {
    if Applies(t, v, newVal) {
      var r := AdjustHealthBarLocation(t, v, newVal, barOffset);
      assert r.hpContainer.value.forced.y == barOffset;
      assert ResetWidgetPositions(t).hpContainer.value.forced.y == -1;
    }
  }

  /** Adjusting twice with the same inputs leaves the widgets as adjusting once. */
  lemma AdjustIdempotent(t: Tree, v: Varbits, newVal: Option<string>, barOffset: int)
    ensures var r := AdjustHealthBarLocation(t, v, newVal, barOffset);
      AdjustHealthBarLocation(r, v, newVal, barOffset) == r
  {
    var r := AdjustHealthBarLocation(t, v, newVal, barOffset);
    if !Applies(t, v, newVal) {
      ResetIdempotent(t);
    }
  }

  /**
   * The policy is stateless: what it writes depends on the varbits, the
   * preferred position, the offset and the layout, never on the forced
   * positions left by an earlier run.
   */
  lemma AdjustForgetsForcing(t1: Tree, t2: Tree, v: Varbits, newVal: Option<string>, barOffset: int)
    requires SameLayout(t1, t2)
    ensures SameManaged(AdjustHealthBarLocation(t1, v, newVal, barOffset), AdjustHealthBarLocation(t2, v, newVal, barOffset))
  {
    if !Applies(t1, v, newVal) {
      ResetForgetsForcing(t1, t2);
    }
  }

  /** All four widgets loaded, each still forced to some earlier position. */
  const Loaded: Tree := Tree(
    Some(Widget(200, 30, Pos(7, 7))),
    Some(Widget(0, 18, Pos(7, 7))),
    Some(Widget(210, 40, Pos(7, 7))),
    Some(Widget(5, 20, Pos(7, 7))))

  const Centred: Varbits := Varbits(1, 1, 0)

  /** Default (top-centre) bar, offset 23: containers at y 23, tracker pushed below the bar. */
  lemma ScenarioCentredBar()
    ensures var r := AdjustHealthBarLocation(Loaded, Centred, None, 23);
      && r.xpTrackerContainer.value.forced == Pos(210, 23)
      && r.hpContainer.value.forced == Pos(200, 23)
      && r.xpTracker.value.forced == Pos(5, 18)
  {
  }

  /** Bar snapped top-right: containers at y 23, tracker released. */
  lemma ScenarioTopRight()
    ensures var r := AdjustHealthBarLocation(Loaded, Centred, Some("TOP_RIGHT"), 23);
      && r.xpTrackerContainer.value.forced == Pos(210, 23)
      && r.hpContainer.value.forced == Pos(200, 23)
      && r.xpTracker.value.forced == Unforced
  {
  }

  /** Health-bar container not loaded: reset, and the absent container stays absent. */
  lemma ScenarioMissingContainer()
    ensures var r := AdjustHealthBarLocation(Loaded.(hpContainer := None), Centred, None, 23);
      r.hpContainer.None? && Cleared(r)
  {
  }

  /** Bar snapped to a bottom corner: reset. */
  lemma ScenarioBottomCorner()
    ensures Cleared(AdjustHealthBarLocation(Loaded, Centred, Some("BOTTOM_RIGHT"), 23))
  {
  }
}
