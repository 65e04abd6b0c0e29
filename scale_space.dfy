/** The per-entity visual rule evaluated inside `entities.map` of both
    shells: from the zoom level (log10 W) and an entity's power, its scale
    factor, opacity (with culling), stacking order, label and position. */
module ScaleSpace {
  import opened RealMath
  import opened ShellConfig
  import LayoutHash

  /** A catalog entry, reduced to what the renderer reads. */
  datatype Entity = Entity(id: seq<LayoutHash.CodeUnit>, name: string, powerWatts: real)

  /** What the renderer produces for an entity that is not culled.
      `labelFontSize` is None when no label is drawn. */
  datatype VisualParams = VisualParams(
    x: int, y: int,
    scaleFactor: real,
    opacity: real,
    zIndex: int,
    labelFontSize: Option<real>)

  /** Orders of magnitude between the view and the entity: positive when the
      user has zoomed out past it. */
  function Diff(log10: real -> real, scale: real, e: Entity): (d: real)
    ensures d + log10(e.powerWatts) == scale
  {
    scale - log10(e.powerWatts)
  }

  /** `Math.pow(10, -diff * 0.3)`. */
  function ScaleFactor(pow10: real -> real, diff: real): (s: real)
    ensures Pow10Laws(pow10) ==> s > 0.0 && (diff == 0.0 ==> s == 1.0)
  {
    pow10(-diff * 0.3)
  }

  /** An entity at the view's own magnitude is drawn at reference size. */
  lemma ScaleFactorAtMatch(pow10: real -> real)
    requires Pow10Laws(pow10)
    ensures ScaleFactor(pow10, 0.0) == 1.0
  {
  }

  /** Zooming out past an entity strictly shrinks it. */
  lemma ScaleFactorDecreasing(pow10: real -> real, a: real, b: real)
    requires Pow10Laws(pow10)
    requires a < b
    ensures 0.0 < ScaleFactor(pow10, b) < ScaleFactor(pow10, a)
  {
  }

  /** A scale factor above 1 means exactly that the view is below the
      entity's magnitude. */
  lemma ScaleFactorAboveOne(pow10: real -> real, diff: real)
    requires Pow10Laws(pow10)
    ensures ScaleFactor(pow10, diff) > 1.0 <==> diff < 0.0
  {
    if diff < 0.0 {
      assert 0.0 < -diff * 0.3;
    } else {
      assert -diff * 0.3 <= 0.0;
    }
  }

  /* ---------------- opacity ---------------- */

  /** The opacity falloff: full inside [-4, 6], fading to 0 over two orders
      of magnitude on either side. */
  function Opacity(diff: real): (o: real)
    ensures 0.0 <= o <= 1.0
    ensures -4.0 <= diff <= 6.0 ==> o == 1.0
    ensures o <= 0.0 <==> diff >= 8.0 || diff <= -6.0
  {
    if diff > 6.0 then Max(0.0, 1.0 - (diff - 6.0) / 2.0)
    else if diff < -4.0 then Max(0.0, 1.0 - (-diff - 4.0) / 2.0)
    else 1.0
  }

  /** The computation as the shells write it: `let opacity = 1` followed by
      two independent fade tests, each overwriting it. */
  method ComputeOpacity(diff: real) returns (opacity: real)
    ensures opacity == Opacity(diff)
  {
    opacity := 1.0;
    if diff > 6.0 {
      opacity := Max(0.0, 1.0 - (diff - 6.0) / 2.0);
    }
    if diff < -4.0 {
      opacity := Max(0.0, 1.0 - (-diff - 4.0) / 2.0);
    }
  }

  /** The two fade tests never both apply, so the order of the two `if`s in
      the shells does not matter. */
  lemma FadeTestsExclusive(diff: real)
    ensures !(diff > 6.0 && diff < -4.0)
  {
  }

  /** The falloff never changes faster than one half per order of magnitude;
      in particular it is continuous, also at the band edges. */
  lemma OpacityLipschitz(a: real, b: real)
    ensures Abs(Opacity(a) - Opacity(b)) <= Abs(a - b) / 2.0
  {
  }

  /** Outside the full band the falloff is monotone: it decreases as the
      view moves further away from the entity on either side. */
  lemma OpacityMonotoneOutsideBand(a: real, b: real)
    ensures 6.0 <= a <= b ==> Opacity(b) <= Opacity(a)
    ensures a <= b <= -4.0 ==> Opacity(a) <= Opacity(b)
  {
  }

  /* ---------------- stacking and label ---------------- */

  /** `Math.floor(100 - diff)`. */
  function ZIndex(diff: real): (z: int)
    ensures z as real <= 100.0 - diff < z as real + 1.0
  {
    (100.0 - diff).Floor
  }

  /** An entity closer to (or below) the view never stacks under one
      further above it. */
  lemma ZIndexNonIncreasing(a: real, b: real)
    requires a <= b
    ensures ZIndex(b) <= ZIndex(a)
  {
    assert ZIndex(b) as real <= 100.0 - b <= 100.0 - a < ZIndex(a) as real + 1.0;
  }

  /** `Math.min(1.5, 0.5 / scaleFactor)`, in rem. */
  function LabelFontSize(scaleFactor: real): (size: real)
    requires scaleFactor > 0.0
    ensures 0.0 < size <= 1.5
    ensures size == 1.5 <==> scaleFactor <= 1.0 / 3.0
    ensures size < 1.5 ==> size * scaleFactor == 0.5
    ensures scaleFactor > 1.0 ==> size < 0.5
  {
    Min(1.5, 0.5 / scaleFactor)
  }

  /** The label of an entity, drawn only above the shell's threshold. */
  function Label(shell: Shell, scaleFactor: real): (l: Option<real>)
    requires ValidShell(shell)
    ensures l.Some? <==> scaleFactor > shell.labelThreshold
    ensures l.Some? ==> 0.0 < l.value <= 1.5
    ensures l.Some? ==> l.value == LabelFontSize(scaleFactor)
  {
    if scaleFactor > shell.labelThreshold then Some(LabelFontSize(scaleFactor)) else None
  }

  /* ---------------- the whole per-entity rule ---------------- */

  /** None when the entity is culled (`return null` in the shells). */
  function EntityVisual(shell: Shell, log10: real -> real, pow10: real -> real,
                        scale: real, e: Entity): (v: Option<VisualParams>)
    requires ValidShell(shell)
    ensures var diff := Diff(log10, scale, e);
            (v.None? <==> diff >= 8.0 || diff <= -6.0) &&
            (v.Some? ==>
              0.0 < v.value.opacity <= 1.0 &&
              v.value.opacity == Opacity(diff) &&
              v.value.zIndex as real <= 100.0 - diff < v.value.zIndex as real + 1.0 &&
              v.value.scaleFactor == ScaleFactor(pow10, diff) &&
              (v.value.labelFontSize.Some? <==> v.value.scaleFactor > shell.labelThreshold) &&
              (v.value.labelFontSize.Some? ==>
                v.value.labelFontSize.value == LabelFontSize(v.value.scaleFactor)) &&
              (v.value.x, v.value.y) == LayoutHash.Position(shell.yOffset, e.id))
  {
    var diff := Diff(log10, scale, e);
    var scaleFactor := ScaleFactor(pow10, diff);
    var opacity := Opacity(diff);
    if opacity <= 0.0 then None
    else
      var pos := LayoutHash.Position(shell.yOffset, e.id);
      Some(VisualParams(pos.0, pos.1, scaleFactor, opacity, ZIndex(diff), Label(shell, scaleFactor)))
  }

  /** The render set: the catalog in order, culled entities left out. */
  function RenderList(shell: Shell, log10: real -> real, pow10: real -> real,
                      scale: real, catalog: seq<Entity>): (r: seq<(Entity, VisualParams)>)
    requires ValidShell(shell)
    ensures |r| <= |catalog|
    ensures forall p :: p in r ==>
              p.0 in catalog && EntityVisual(shell, log10, pow10, scale, p.0) == Some(p.1)
    ensures forall i :: 0 <= i < |catalog| && EntityVisual(shell, log10, pow10, scale, catalog[i]).Some? ==>
              (catalog[i], EntityVisual(shell, log10, pow10, scale, catalog[i]).value) in r
  {
    if catalog == [] then []
    else
      var rest := RenderList(shell, log10, pow10, scale, catalog[1..]);
      match EntityVisual(shell, log10, pow10, scale, catalog[0])
      case None => rest
      case Some(v) => [(catalog[0], v)] + rest
  }

  /** Rendering keeps catalog order: the render list of a concatenation is
      the concatenation of the render lists. */
  lemma {:induction false} RenderListAppend(shell: Shell, log10: real -> real, pow10: real -> real,
                                            scale: real, a: seq<Entity>, b: seq<Entity>)
    requires ValidShell(shell)
    ensures RenderList(shell, log10, pow10, scale, a + b)
            == RenderList(shell, log10, pow10, scale, a) + RenderList(shell, log10, pow10, scale, b)
  {
    if a != [] {
      assert (a + b)[1..] == a[1..] + b;
      RenderListAppend(shell, log10, pow10, scale, a[1..], b);
    } else {
      assert a + b == b;
    }
  }

  /** An entity of the catalog is drawn exactly when it lies strictly within
      eight orders of magnitude below and six above the view. */
  lemma {:induction false} RenderedIff(shell: Shell, log10: real -> real, pow10: real -> real,
                                       scale: real, catalog: seq<Entity>, e: Entity)
    requires ValidShell(shell)
    requires e in catalog
    ensures (exists v :: (e, v) in RenderList(shell, log10, pow10, scale, catalog))
            <==> -6.0 < Diff(log10, scale, e) < 8.0
  {
    var r := RenderList(shell, log10, pow10, scale, catalog);
    var i :| 0 <= i < |catalog| && catalog[i] == e;
    var ev := EntityVisual(shell, log10, pow10, scale, e);
    if ev.Some? {
      assert (e, ev.value) in r;
    }
  }
}
