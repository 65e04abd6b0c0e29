/** What the generic rule and controller give for each of the two shells'
    constants. */
module ShellProperties {
  import opened RealMath
  import opened ShellConfig
  import opened ScaleSpace
  import LayoutHash
  import Zoom

  /** koftheuniverse shell: it starts at 6.3 inside [-18, 40], and a wheel
      event is dropped exactly when it comes at most 16 ms after the last
      accepted one (less than one frame at 60 Hz). */
  lemma KOfTheUniverseConstants(last: int, now: int)
    ensures ValidShell(KOfTheUniverse)
    ensures -18.0 <= KOfTheUniverse.initialScale == 6.3 <= 40.0
    ensures Zoom.Throttled(KOfTheUniverse, last, now) <==> now - last <= 16
  {
  }

  /** Explorer shell: it starts at 2 inside [-14, 40], and no wheel event is
      ever dropped. */
  lemma ExplorerConstants(last: int, now: int)
    ensures ValidShell(Explorer)
    ensures -14.0 <= Explorer.initialScale == 2.0 <= 40.0
    ensures !Zoom.Throttled(Explorer, last, now)
  {
  }

  /* ---------------- layout ---------------- */

  /** koftheuniverse shell: x in [15, 84], y in [30, 89]; the empty id sits
      at (15, 30). */
  lemma KOfTheUniversePosition(id: seq<LayoutHash.CodeUnit>)
    ensures var p := LayoutHash.Position(KOfTheUniverse.yOffset, id);
            15 <= p.0 <= 84 && 30 <= p.1 <= 89 &&
            (id == [] ==> p == (15, 30))
  {
  }

  /** Explorer shell: x in [15, 84], y in [10, 69]; the empty id sits at
      (15, 10). */
  lemma ExplorerPosition(id: seq<LayoutHash.CodeUnit>)
    ensures var p := LayoutHash.Position(Explorer.yOffset, id);
            15 <= p.0 <= 84 && 10 <= p.1 <= 69 &&
            (id == [] ==> p == (15, 10))
  {
  }

  /** The shells hash identically: the same id gets the same column in both,
      and rows twenty percent apart. */
  lemma SameColumnInBothShells(id: seq<LayoutHash.CodeUnit>)
    ensures LayoutHash.Position(KOfTheUniverse.yOffset, id).0 == LayoutHash.Position(Explorer.yOffset, id).0
    ensures LayoutHash.Position(KOfTheUniverse.yOffset, id).1 == LayoutHash.Position(Explorer.yOffset, id).1 + 20
  {
  }

  /* ---------------- labels ---------------- */

  /** koftheuniverse shell (threshold 1): a drawn entity is labelled exactly
      when the view is below its magnitude, and then the font size is
      0.5 / scaleFactor, below 0.5, so the 1.5 cap never applies. */
  lemma KOfTheUniverseLabel(log10: real -> real, pow10: real -> real,
                            scale: real, e: Entity)
    requires Pow10Laws(pow10)
    ensures var v := EntityVisual(KOfTheUniverse, log10, pow10, scale, e);
            v.Some? ==>
              (v.value.labelFontSize.Some? <==> Diff(log10, scale, e) < 0.0) &&
              (v.value.labelFontSize.Some? ==>
                v.value.labelFontSize.value == 0.5 / v.value.scaleFactor &&
                v.value.labelFontSize.value < 0.5)
  {
    ScaleFactorAboveOne(pow10, Diff(log10, scale, e));
  }

  /** Explorer shell (threshold 0.2): a label is drawn exactly when the scale
      factor exceeds 0.2; its size lies in (0, 1.5] and is the cap 1.5
      exactly when the scale factor is at most 1/3. */
  lemma ExplorerLabel(log10: real -> real, pow10: real -> real, scale: real, e: Entity)
    ensures var v := EntityVisual(Explorer, log10, pow10, scale, e);
            v.Some? ==>
              (v.value.labelFontSize.Some? <==> v.value.scaleFactor > 0.2) &&
              (v.value.labelFontSize.Some? ==>
                0.0 < v.value.labelFontSize.value <= 1.5 &&
                (v.value.labelFontSize.value == 1.5 <==> v.value.scaleFactor <= 1.0 / 3.0))
  {
  }

  /* ---------------- zoom ---------------- */

  /** koftheuniverse shell: an accepted wheel event moves the view by
      0.01 * deltaY when that stays inside [-18, 40], and clamps otherwise. */
  lemma KOfTheUniverseWheelStep(scale: real, deltaY: real)
    requires -18.0 <= scale <= 40.0
    ensures var next := Zoom.Clamp(KOfTheUniverse.minScale, KOfTheUniverse.maxScale,
                                   scale + deltaY * KOfTheUniverse.wheelSensitivity);
            -18.0 <= next <= 40.0 &&
            (-18.0 <= scale + 0.01 * deltaY <= 40.0 ==> next == scale + 0.01 * deltaY)
  {
  }

  /** Explorer shell: every wheel event moves the view by 0.005 * deltaY,
      clamped to [-14, 40]. */
  lemma ExplorerWheelStep(scale: real, deltaY: real, last: int, now: int)
    ensures !Zoom.Throttled(Explorer, last, now)
    ensures var next := Zoom.Clamp(Explorer.minScale, Explorer.maxScale,
                                   scale + deltaY * Explorer.wheelSensitivity);
            -14.0 <= next <= 40.0 &&
            (-14.0 <= scale + 0.005 * deltaY <= 40.0 ==> next == scale + 0.005 * deltaY)
  {
  }

  /** A session of the koftheuniverse shell: a wheel event within one frame
      of the last accepted one is dropped. */
  method RateLimitedSession()
  {
    var zoom := new Zoom.ZoomController(KOfTheUniverse);
    zoom.HandleWheel(100.0, 1000);
    assert zoom.scale == 7.3 && zoom.lastWheelTime == 1000;
    zoom.HandleWheel(100.0, 1010);
    assert zoom.scale == 7.3 && zoom.lastWheelTime == 1000;
    zoom.HandleWheel(-5000.0, 1017);
    assert zoom.scale == -18.0 && zoom.lastWheelTime == 1017;
    zoom.HandleSliderChange(2.0);
    assert zoom.scale == 2.0;
  }

  /** A session of the Explorer shell: no event is dropped. */
  method UnthrottledSession()
  {
    var zoom := new Zoom.ZoomController(Explorer);
    zoom.HandleWheel(100.0, 1000);
    assert zoom.scale == 2.5;
    zoom.HandleWheel(100.0, 1000);
    assert zoom.scale == 3.0;
    zoom.HandleWheel(100000.0, 1001);
    assert zoom.scale == 40.0;
  }
}
