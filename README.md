# Kardashev scale explorer — verified model of the scale-space core

The application places real-world power sources, from a bacterium to a
galaxy, on one logarithmic zoom axis (log10 of Watts). This project models
its numeric core in Dafny:

- **Derived metrics** (`transformer.dfy`, module `Transformer`): energy per
  minute, the Kardashev index with its negative-infinity sentinel, the
  Bitcoin-mining comparison (a rate, a duration in minutes, hours, days or
  years, or the fixed "more than a billion years" message), and the choice
  between scientific and grouped notation. Each message is a tagged datatype
  value that carries the number the application would print.
- **Layout hash** (`layout_hash.dfy`, module `LayoutHash`): the 32-bit signed
  rolling hash of an entity id over its UTF-16 code units. `<<` and `|0`
  are written out as the ECMAScript int32 wrap. From the hash come bounded
  percentage coordinates. `GetPosition` is the source's loop; `Position` is
  the function it is proved against.
- **Per-entity visual rule** (`scale_space.dfy`, module `ScaleSpace`): diff,
  scale factor, the piecewise-linear opacity falloff and culling, z-index,
  label visibility and font size, and the render set of a catalog.
  `ComputeOpacity` is the source's reassigned `let opacity`; `Opacity` is the
  function it is proved against.
- **Zoom controller** (`zoom.dfy`, module `Zoom`): a class holding `scale`
  and `lastWheelTime`, with the slider and wheel handlers. Time is a
  parameter (`now`), not a clock.
- **The two shells** (`shell_config.dfy`, `shell_properties.dfy`): both
  `koftheuniverse/src/App.tsx` and `src/App.tsx` contain this logic. They
  differ only in constants: zoom range, wheel sensitivity, label threshold,
  vertical offset and rate limiting. One model takes a `Shell` record of
  those constants. It is instantiated as `KOfTheUniverse` and `Explorer`, and
  the properties particular to each are proved in `ShellProperties`.

`Math.log10` and `x ↦ Math.pow(10, x)` are transcendental, so they are
function-typed parameters (`log10`, `pow10`). The laws the proofs need are
stated as predicates in `real_math.dfy` and required where they are used:
`Log10Laws` says log10 maps 10^6 to 6 and is strictly increasing on positive
numbers. `Pow10Laws` says pow10 maps 0 to 1, is positive and is strictly
increasing.

The per-entity code of `src/App.tsx` (lines 48-105) is the same as that of
`koftheuniverse/src/App.tsx` (lines 144-191) except for the label threshold
and the icon markup, which is left out.
Its `getPosition` (lines 12-22) differs only in the y offset. The table
cites the koftheuniverse lines for the shared members.

The slider handler does not clamp: it stores the parsed value as is. The
range comes from the slider's own `min` and `max` attributes
(koftheuniverse/src/App.tsx:250-251), so the model states it as a
precondition of `HandleSliderChange`.

## Model

| member | source | states |
|---|---|---|
| Transformer.WattsToJouleMin | koftheuniverse/src/utils/transformer.ts:3-5 | the result is the energy of one minute: divided by 60 it gives back the power, and it is positive exactly when the power is |
| Transformer.CalculateKardashev | koftheuniverse/src/utils/transformer.ts:7-11 | the sentinel is returned exactly when the power is not positive; otherwise the index k satisfies 10k + 6 = log10(P) |
| Transformer.KardashevOfMegawatt | koftheuniverse/src/utils/transformer.ts:10 | a 10^6 W source is exactly Type 0 |
| Transformer.KardashevIncreasing | koftheuniverse/src/utils/transformer.ts:10 | for 0 < a < b both get an index, and the index of a is strictly lower |
| Transformer.SecondsPerBtc | koftheuniverse/src/utils/transformer.ts:18-19 | seconds per coin times the power is 1.4e12 J; it is positive for positive power |
| Transformer.CalculateBitcoinStats | koftheuniverse/src/utils/transformer.ts:13-37 | zero power gives the billion-years message and negative power a rate; a rate is coins per day (r·1.4e12 = 86400·P) and exceeds 1440 for positive power; minutes lie in [1,60), hours in [1,24), days in [1,365), years in [1,1e9], each with value × unit seconds × P = 1.4e12 |
| Transformer.BitcoinStatBySeconds | koftheuniverse/src/utils/transformer.ts:21-35 | for positive power, each outcome is taken exactly on its interval of seconds per coin: rate below 60 s, minutes [60 s, 1 h), hours [1 h, 1 d), days [1 d, 365 d), years up to 1e9 years, the fixed message beyond |
| Transformer.SecondsPerBtcDecreasing | koftheuniverse/src/utils/transformer.ts:19 | a stronger source needs no more seconds per coin |
| Transformer.MorePowerNeverCoarser | koftheuniverse/src/utils/transformer.ts:21-35 | for 0 < a ≤ b, the outcome for b is never a coarser unit than the outcome for a (rate < minutes < hours < days < years < billion years) |
| Transformer.SixtySecondsIsOneMinute | koftheuniverse/src/utils/transformer.ts:21-28 | at exactly 60 s per coin the result is Minutes(1), not a rate |
| Transformer.BitcoinStatExamples | koftheuniverse/src/utils/transformer.ts:21-35 | 10^18 W gives a rate; 1 W gives a duration in years |
| Transformer.FormatNumber | koftheuniverse/src/utils/transformer.ts:39-44 | the number shown is the input; scientific notation exactly when abs(n) < 0.01 or abs(n) > 10000, grouped exactly when 0.01 ≤ abs(n) ≤ 10000 |
| Transformer.FormatNumberSymmetricAndEdges | koftheuniverse/src/utils/transformer.ts:40 | n and -n get the same notation; ±0.01 and ±10000 are grouped |
| Transformer.FormatNumberExamples | koftheuniverse/src/utils/transformer.ts:40-43 | 0.005 and 50000 are scientific, 100 is grouped |
| LayoutHash.Wrap32 | koftheuniverse/src/App.tsx:38 | the result is an int32 congruent to the input modulo 2^32 |
| LayoutHash.Wrap32Absorbs | koftheuniverse/src/App.tsx:37-38 | wrapping an intermediate sum and wrapping only at the end agree |
| LayoutHash.HashStep | koftheuniverse/src/App.tsx:37-38 | one loop step `(h << 5) - h + c` then `\|0` is an int32 and equals the int32 wrap of 31·h + c |
| LayoutHash.RollingHash | koftheuniverse/src/App.tsx:35-39 | the hash of every id is a signed 32-bit integer |
| LayoutHash.ShiftRight16 | koftheuniverse/src/App.tsx:42 | `h >> 16` of an int32 lies in [-32768, 32767] and is the floor of h / 65536 |
| LayoutHash.HighHalfBound | koftheuniverse/src/App.tsx:42 | the absolute value of `hash >> 16` is at most 32768 |
| LayoutHash.Position | koftheuniverse/src/App.tsx:34-43 | x lies in [15, 84] and y in [yOffset, yOffset + 59]; the empty id is placed at (15, yOffset) |
| LayoutHash.GetPosition | koftheuniverse/src/App.tsx:34-43 | the loop that updates `hash` in place computes exactly Position, and so stays within its bounds |
| ScaleSpace.Diff | koftheuniverse/src/App.tsx:145-146 | diff plus the entity's log10 power is the view scale |
| ScaleSpace.ScaleFactor | koftheuniverse/src/App.tsx:151 | `Math.pow(10, -diff * 0.3)`: under the power-of-ten laws it is positive, and it is 1 when diff is 0 |
| ScaleSpace.ScaleFactorAtMatch | koftheuniverse/src/App.tsx:151 | an entity at the view's own magnitude has scale factor 1 |
| ScaleSpace.ScaleFactorDecreasing | koftheuniverse/src/App.tsx:151 | the scale factor is positive and strictly decreasing in diff |
| ScaleSpace.ScaleFactorAboveOne | koftheuniverse/src/App.tsx:184 | the scale factor exceeds 1 exactly when diff < 0 |
| ScaleSpace.Opacity | koftheuniverse/src/App.tsx:153-155 | opacity lies in [0, 1], is 1 on diff ∈ [-4, 6], and is ≤ 0 exactly when diff ≥ 8 or diff ≤ -6 |
| ScaleSpace.ComputeOpacity | koftheuniverse/src/App.tsx:153-155 | the two sequential fade tests that overwrite `opacity` compute exactly Opacity |
| ScaleSpace.FadeTestsExclusive | koftheuniverse/src/App.tsx:154-155 | the two fade tests never both hold |
| ScaleSpace.OpacityLipschitz | koftheuniverse/src/App.tsx:154-155 | opacity changes by at most half the change of diff, so it is continuous, including at the band edges |
| ScaleSpace.OpacityMonotoneOutsideBand | koftheuniverse/src/App.tsx:154-155 | above diff 6 opacity is non-increasing, below diff -4 it is non-decreasing in diff |
| ScaleSpace.ZIndex | koftheuniverse/src/App.tsx:163 | the z-index is the floor of 100 - diff |
| ScaleSpace.ZIndexNonIncreasing | koftheuniverse/src/App.tsx:163 | a smaller diff never gets a lower z-index |
| ScaleSpace.LabelFontSize | koftheuniverse/src/App.tsx:185 | the size lies in (0, 1.5]; it is the cap 1.5 exactly when the scale factor is at most 1/3; otherwise size × scale factor = 0.5; it is below 0.5 when the scale factor exceeds 1 |
| ScaleSpace.Label | koftheuniverse/src/App.tsx:184-185 | a label is drawn exactly when the scale factor exceeds the shell's threshold, with a size in (0, 1.5] |
| ScaleSpace.EntityVisual | koftheuniverse/src/App.tsx:144-164 | an entity is culled exactly when diff ≥ 8 or diff ≤ -6; a drawn entity has opacity Opacity(diff) in (0, 1], z-index the floor of 100 - diff, scale factor 10^(-0.3·diff), a label of size LabelFontSize exactly above the threshold, and the hashed position |
| ScaleSpace.RenderList | koftheuniverse/src/App.tsx:144-191 | every pair rendered is a catalog entity with its visual parameters, and every catalog entity that is not culled is rendered |
| ScaleSpace.RenderListAppend | koftheuniverse/src/App.tsx:144-191 | rendering keeps catalog order: the render list of a + b is the render list of a followed by that of b |
| ScaleSpace.RenderedIff | koftheuniverse/src/App.tsx:153-157 | a catalog entity appears in the render set exactly when -6 < diff < 8 |
| Zoom.Clamp | koftheuniverse/src/App.tsx:92 | the result lies in [lo, hi], equals the input when the input is in range, and is the nearer bound otherwise |
| Zoom.Throttled | koftheuniverse/src/App.tsx:88-89 | an event is dropped exactly when the shell rate-limits and at most 16 ms (less than 1000/60 ms) have passed since the last accepted event |
| Zoom.ClampIdempotent | koftheuniverse/src/App.tsx:92 | clamping twice is clamping once |
| Zoom.ZoomController.constructor | koftheuniverse/src/App.tsx:22-24 | the controller starts at the shell's initial scale, inside the zoom range, with last wheel time 0 |
| Zoom.ZoomController.HandleSliderChange | koftheuniverse/src/App.tsx:80-82 | the slider value is stored unchanged and the wheel time is untouched |
| Zoom.ZoomController.HandleWheel | koftheuniverse/src/App.tsx:85-94 | a throttled event (rate-limited shell, less than 1000/60 ms since the last accepted one) changes nothing; otherwise the last wheel time becomes `now` (rate-limited shell only) and the scale becomes clamp(scale + sensitivity·deltaY); the scale stays in range |
| ShellProperties.KOfTheUniverseConstants | koftheuniverse/src/App.tsx:22-99 | the constants of this shell: it starts at 6.3 inside [-18, 40] with a positive label threshold, and a wheel event is dropped exactly when it comes at most 16 ms after the last accepted one |
| ShellProperties.ExplorerConstants | src/App.tsx:8-38 | the constants of this shell: it starts at 2 inside [-14, 40] with a positive label threshold, and no wheel event is ever dropped |
| ShellProperties.KOfTheUniversePosition | koftheuniverse/src/App.tsx:34-43 | x in [15, 84], y in [30, 89], empty id at (15, 30) |
| ShellProperties.ExplorerPosition | src/App.tsx:12-21 | x in [15, 84], y in [10, 69], empty id at (15, 10) |
| ShellProperties.SameColumnInBothShells | src/App.tsx:13-20 | the same id gets the same x in both shells and a y exactly 20 lower in this one |
| ShellProperties.KOfTheUniverseLabel | koftheuniverse/src/App.tsx:184-185 | a drawn entity is labelled exactly when diff < 0, and then the size is 0.5 / scaleFactor < 0.5, so the 1.5 cap never applies |
| ShellProperties.ExplorerLabel | src/App.tsx:98-99 | a label is drawn exactly when the scale factor exceeds 0.2; its size lies in (0, 1.5] and is 1.5 exactly when the scale factor is at most 1/3 |
| ShellProperties.KOfTheUniverseWheelStep | koftheuniverse/src/App.tsx:91-92 | an accepted wheel step stays in [-18, 40] and equals scale + 0.01·deltaY when that is in range |
| ShellProperties.ExplorerWheelStep | src/App.tsx:28-33 | no wheel event is throttled; the step stays in [-14, 40] and equals scale + 0.005·deltaY when that is in range |

## Left out

- Rendering: JSX, CSS, the info panel, the draggable panels (`handleDragStart`, `handleDragMove`, `handleDragEnd`), the collage popup, the `isImage` icon heuristic and `console.log`. They are presentation only.
- The starfield: it is drawn from `Math.random` and is not deterministic.
- Printed strings: `toFixed`, `toExponential`, `toLocaleString` and the message templates depend on locale and on float printing. The model keeps which message is chosen and the number it carries.
- IEEE-754 doubles: all values are exact reals. Rounding in the chain of divisions of `calculateBitcoinStats`, NaN, and -0 are not modelled. A zero power is modelled by its +Infinity outcome (the billion-years message).
- Transformer.CalculateKardashev: does not model the value of `Math.log10` itself; it is a parameter, and only the laws in `Log10Laws` are assumed of it.
- ScaleSpace.EntityVisual: does not compute `Math.pow(10, ·)`; it is a parameter, and the lemmas assume only `Pow10Laws` of it. No concrete scale factor (such as the one for 433 W at view 2) is derived.
- Zoom.ZoomController.HandleSliderChange: the value is a real within the slider's range. Parsing the input text with `parseFloat` is not modelled.
- Zoom.ZoomController.HandleWheel: `Date.now()` is the parameter `now`. React's state batching is not modelled: the handler's closure may read a stale `scale` between renders, and the model treats every update as visible to the next event.
- The entity catalog (`koftheuniverse/src/data/entities.ts`) is static data with no logic. It is not part of this model; `RenderList` takes any sequence of entities.
