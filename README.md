# Phantom lightning show: a verified model of the engine state

`PhantomLightningShow` (phantom-animation.js) is a music visualiser. It runs
once per animation frame and keeps a small amount of state:

- it reads a 128-bin byte spectrum from the audio analyser;
- it folds the spectrum into bass, mid, treble and overall band energies;
- it keeps a 10-frame history of each band and detects musical onsets from it;
- on an onset it spawns lightning flashes whose position, lifetime, branch
  shape and colour all depend on the dominant band;
- it ages the flashes and removes the dead ones;
- it lights a phantom portrait by the nearest bright flash, smoothed over
  time.

This project models that state and the per-frame operations on it in Dafny.
It proves what each operation computes and the invariants the engine keeps.

Modules, in dependency order:

- `Common` (common.dfy): `Option`, `Math.min`, and `Newest(s, n)`, which is
  `slice(-n)` after a length check.
- `Bands` (bands.dfy): noise-gated sub-band averages and their weighted
  combination into band energies.
- `Onset` (onset.dfy): the FIFO band histories, the increase signal, the
  weighted recent average, the dead dynamic threshold and the
  `isMusicalPeak` rule.
- `Flashes` (flashes.dfy): band classification, branch random walks,
  palettes, bolt count, and the assembly of one flash from its random draws.
- `Lifecycle` (lifecycle.dfy): ageing and filtering of flashes,
  illumination of the phantom, exponential smoothing.
- `Engine` (engine.dfy): the class `PhantomLightningShow`. It holds the
  engine's fields, the class invariant `Valid()`, and one method per
  state-changing operation.

`Math.random` is a parameter `rand: nat -> real` that is read from a cursor.
`UnitDraws(rand)` says that every draw lies in [0, 1). Every generating
operation returns the cursor after the draws it used. The draws are read in
the order JavaScript evaluates them:

1. the vertical position;
2. the lifetime;
3. the horizontal position;
4. the branch count and the branch length;
5. two draws per branch point, including a final pair that is drawn but
   never used;
6. four alpha draws and then the palette index.

## Model

| member | source | states |
|---|---|---|
| Common.Min | phantom-animation.js:307 | `Math.min`: the result is at most both arguments and is one of them |
| Common.NewestIsTail | phantom-animation.js:423-425 | `slice(-n)` after a length check keeps min(\|s\|, n) elements, and they are the tail of s |
| Common.NewestOfNewest | phantom-animation.js:423-425 | trimming to n, appending and trimming again equals appending first and trimming once, so a list trimmed after every append holds the newest n of everything appended |
| Bands.Gate | phantom-animation.js:316-318 | the gated sample is never negative, is 0 exactly when the sample is at or below the floor, and never exceeds the sample |
| Bands.GatedSum | phantom-animation.js:315-319 | the sum of gated samples lies in [0, \|vals\|·(255 − floor)], and it is 0 exactly when every sample is at or below the floor |
| Bands.CleanAverage | phantom-animation.js:314-321 | the average of a non-empty slice lies in [0, 255 − floor], and it is 0 exactly when the whole slice is at or below the floor |
| Bands.SubBandAverages | phantom-animation.js:236-250 | each of the six fixed slices of a 128-bin spectrum averages into [0, 247] |
| Bands.CombineWithin | phantom-animation.js:253-257 | each weighted combination is a convex combination, so it stays within any range that all the sub-band averages lie in |
| Bands.Combine | phantom-animation.js:253-257 | overall is the mean of bass, mid and treble, and each weight set sums to one: equal sub-band averages c give bass = mid = treble = overall = c |
| Bands.Aggregate | phantom-animation.js:236-257 | bass, mid, treble and overall all lie in [0, 247], and overall is the mean of the other three |
| Bands.SubBandSilent | phantom-animation.js:314-321 | a sub-band average is 0 exactly when every bin of its slice is at or below the noise floor |
| Bands.SilentIffQuiet | phantom-animation.js:236-257 | overall energy is 0 exactly when every one of the 128 bins is at or below the noise floor |
| Onset.Remember | phantom-animation.js:323-336 | one push and at most one shift: the history grows by one until it holds 10 entries, and then keeps its length |
| Onset.RememberShape | phantom-animation.js:323-336 | after a push and the conditional shift, the last entry is the new value, the entries before it are the old history (minus its oldest entry only when the history was full), and a history within capacity stays within capacity |
| Onset.RememberIsNewest | phantom-animation.js:323-336 | one update of a history within capacity keeps exactly the newest 10 of old history ++ [v] |
| Onset.RememberAllKeepsNewest | phantom-animation.js:323-336 | after any number of updates, a history holds exactly the newest 10 values it has seen, oldest first (a FIFO of capacity 10) |
| Onset.LastThreeMean | phantom-animation.js:343-345 | the mean of the newest three entries lies between the smallest and the largest of them |
| Onset.PeakIncrease | phantom-animation.js:338-354 | the result is 0 below three entries; otherwise it is the larger of (current − last entry) and (current − mean of the last three), and it bounds both |
| Onset.IncreaseAfterRemember | phantom-animation.js:260-271 | when the current value has already been pushed, the increase is never negative; it equals max(0, current − mean of the last three), and it is positive exactly when current exceeds the mean of the two entries before it |
| Onset.PeakIncreaseExample | phantom-animation.js:338-354 | history [10, 10, 10] with current value 20 gives an increase of 10 |
| Onset.RecentAverage | phantom-animation.js:356-372 | an empty history gives 50; otherwise the loop returns the weighted sum of the newest ≤ 8 entries (weights 1..k) over the total weight |
| Onset.WeightedSumWithin | phantom-animation.js:365-369 | the weighted sum of entries within [lo, hi] lies between lo and hi times the total weight |
| Onset.WeightedParts | phantom-animation.js:365-371 | for a non-empty window the total weight is positive and the weighted sum lies between lo and hi times it |
| Onset.AverageWithin | phantom-animation.js:356-372 | the weighted mean lies between any bounds all the averaged entries share, in particular between their minimum and maximum |
| Onset.RecentAverageWithin | phantom-animation.js:356-372 | a history within [lo, hi] has its recent average within [lo, hi] |
| Onset.BaseThreshold | phantom-animation.js:275-276 | the base threshold is the minimum threshold scaled by the sensitivity percentage: non-negative for non-negative settings, equal to the minimum at 100%, and at most the minimum below 100% |
| Onset.DynamicThreshold | phantom-animation.js:279-282 | for base ≥ 0 the threshold lies in [base, 2·base]: it is base when 1.15·average is below base, 2·base when 1.15·average is above 2·base, and 1.15·average otherwise |
| Onset.DefaultThresholdRange | phantom-animation.js:32-33 | at sensitivity 100 and minimum threshold 100 the base is 100 and the threshold lies in [100, 200] |
| Onset.IsMusicalPeak | phantom-animation.js:285-295 | the trigger rule: it fires only when some increase is positive and some band carries energy (bass, mid or treble above 12, or overall above 25) |
| Onset.PeakHasEnergy | phantom-animation.js:285-304 | whenever the peak rule fires on non-negative bands, some band exceeds 12, so bass + mid + treble > 0 and the ratio divisions of triggerLightning and getLightningColor are defined |
| Onset.NoPeakWithoutIncrease | phantom-animation.js:285-293 | with no rise in any band nothing fires |
| Flashes.Pick | phantom-animation.js:485 | `Math.floor(Math.random() * n)` is an index below n |
| Flashes.Classify | phantom-animation.js:417-418 | bass exactly when the bass ratio exceeds 0.5; mid exactly when neither the bass ratio exceeds 0.5 nor the treble ratio 0.4; treble otherwise |
| Flashes.ClassOf | phantom-animation.js:376-378 | for a positive total, the class is bass exactly when bass is more than half the total, and treble exactly when bass is not and treble is more than two fifths of it |
| Flashes.ClassifyExamples | phantom-animation.js:417-418 | the ratios (0.6, 0.1), (0.3, 0.5) and (0.3, 0.2) classify as bass, treble and mid |
| Flashes.BranchShape | phantom-animation.js:432-452 | the branch count and length drawn for each class lie in its ranges: bass 2–4 branches of 12–19 points, treble 4–9 of 6–13, mid 3–6 of 8–17 |
| Flashes.Advance | phantom-animation.js:461-462 | with draws in [0, 1), one step of the walk raises y by at least 10 and by less than verticalStep + 10, and moves x by at least −spread/2 and by less than spread/2 |
| Flashes.DrawBranch | phantom-animation.js:455-463 | the inner loop yields exactly the walk over the next 2·segmentCount draws, starting at the origin, and advances the cursor past them |
| Flashes.DrawnBranchIsJagged | phantom-animation.js:455-463 | every step of a drawn branch is jagged as above |
| Flashes.GenerateBranches | phantom-animation.js:428-468 | the branches are the class's count of walks, each drawn from its own consecutive draws; every walk starts at the origin and every step is jagged |
| Flashes.Palette | phantom-animation.js:477-504 | each class has four colours |
| Flashes.LightningColor | phantom-animation.js:470-505 | the colour is one of the class's palette entries, its alpha lies in [0.8, 1), and white only ever comes with alpha ≥ 0.9 |
| Flashes.Ceil | phantom-animation.js:381-383 | `Math.ceil`: x ≤ c < x + 1 |
| Flashes.NumBolts | phantom-animation.js:381-384 | the bolt count is at most 8, never negative for non-negative bands, and at least 1 when any band is positive |
| Flashes.BoltsOnAnalysisPath | phantom-animation.js:381-384 | for band energies in [0, 247] a trigger yields 1 to 6 bolts, so the cap of 8 never takes effect |
| Flashes.Intensity | phantom-animation.js:395-405 | the unclamped intensity is non-negative when volume and the dominant band are |
| Flashes.Place | phantom-animation.js:392-407 | the intensity is the class's (volume + dominant band over 400, 350 or 380), and a lifetime draw in [0, 1) gives a lifetime in [20, 35), [8, 16) or [15, 25) for bass, treble and mid |
| Flashes.PlaceFits | phantom-animation.js:392-407 | the drawn lifetime lies in [20, 35), [8, 16) or [15, 25) and the drawn height in [0.4h, 0.7h), [0, 0.4h) or [0.2h, 0.6h) for bass, treble and mid |
| Flashes.PlacementFits | phantom-animation.js:392-410 | the position and lifetime draws land in the class's ranges, and x lies in [0, width) |
| Flashes.Assemble | phantom-animation.js:409-419 | the pushed record starts at age 0 with intensity at most 1, carries the given branches and the class the ratios select, has a lifetime in its class's range, and a colour from its class's palette with alpha in [0.8, 1) |
| Flashes.AssembledIsSpawned | phantom-animation.js:409-419 | a flash assembled around branches of its class satisfies `Spawned`: one class fixes its type, lifetime range, height band, intensity divisor, branch shape and palette; it starts at age 0 with intensity min(·, 1) |
| Flashes.AssembledIsDrawn | phantom-animation.js:409-419 | a flash assembled around branches of its class's shape drawn from cursor + 3 on, with the colour drawn right after them, is `DrawnFlash` from cursor to five past the colour cursor |
| Flashes.NewFlash | phantom-animation.js:386-419 | one loop iteration is `DrawnFlash`: the flash is the assembly of the draws at cursor, cursor + 1 and cursor + 2, of the branches of its class's shape drawn from cursor + 3 on, and of the five colour draws after them; the returned cursor is just past the last draw; the flash is `Spawned` |
| Flashes.DrawnBranchUnique | phantom-animation.js:455-463 | the draws fix a branch: two walks of the same shape drawn from the same position in the stream are equal |
| Flashes.DrawnFlashUnique | phantom-animation.js:386-419 | the draws fix a flash: two flashes drawn from the same cursor are equal and end at the same cursor |
| Flashes.DrawnFlashesUnique | phantom-animation.js:374-426 | the draws fix a trigger: the same number of flashes drawn in consecutive iterations from the same cursor are the same flashes with the same cursors |
| Flashes.DrawnPointsAgree | phantom-animation.js:455-463 | two walks drawn alike agree at every point, by induction along the walk |
| Lifecycle.SpawnedWellFormed | phantom-animation.js:409-419 | a flash spawned from non-negative energies is live and has intensity in [0, 1] |
| Lifecycle.Aged | phantom-animation.js:510 | the aged flash is live only if the original was, and a well-formed flash that is still live after ageing stays well formed |
| Lifecycle.Survivors | phantom-animation.js:507-513 | the filter keeps at most as many flashes as it is given, and every kept flash is live |
| Lifecycle.SurvivorsAppend | phantom-animation.js:507-513 | the filter works flash by flash: filtering a concatenation concatenates the filtered parts, in order |
| Lifecycle.SurvivorsMember | phantom-animation.js:507-513 | a flash is kept exactly when it is the aged copy (age + 1, every other field unchanged) of some input flash and that copy is still live |
| Lifecycle.FlashLifetime | phantom-animation.js:507-513 | after k updates a live flash is still present with age + k exactly while age + k < maxAge, and gone from then on |
| Lifecycle.LifetimeExample | phantom-animation.js:507-513 | a new flash with maxAge 20 survives 19 updates and is removed by the 20th |
| Lifecycle.Illumination | phantom-animation.js:669-675 | for a well-formed flash within radius 400 the illumination lies in [0, 1], and it is positive exactly when the flash's intensity is |
| Lifecycle.PeakIllumination | phantom-animation.js:657-694 | the level is the largest illumination of any live flash within the radius, or 0; the tint is white when the level is 0, and otherwise the colour of the first flash that attains the level; the level lies in [0, 1] for well-formed flashes |
| Lifecycle.Smooth | phantom-animation.js:697-700 | the gap to the target shrinks by the factor 0.96, so the value moves towards the target and never past it |
| Lifecycle.SmoothUnit | phantom-animation.js:697-700 | smoothing keeps the value in [0, 1], and from 0 with target 1 it reaches 0.04 |
| Lifecycle.SmoothConverges | phantom-animation.js:697-700 | under a fixed target the gap after n frames is 0.96^n times the initial gap |
| Engine.PhantomLightningShow.constructor | phantom-animation.js:26-42 | the initial state is valid, with empty histories and flash list, darkness, sensitivity 100 and minimum threshold 100 |
| Engine.PhantomLightningShow.ResetExperience | phantom-animation.js:204-215 | flashes, glow, illumination and the four histories are cleared; the settings are kept; the state is valid |
| Engine.PhantomLightningShow.UpdateAudioHistory | phantom-animation.js:323-336 | each history becomes `Remember(old history, value)`, and in-range energies keep the engine valid |
| Engine.PhantomLightningShow.TriggerLightning | phantom-animation.js:374-426 | NumBolts spawned flashes are appended in order, flash k being `DrawnFlash` from cursors[k] to cursors[k + 1] with cursors[0] the given cursor and the last one the returned cursor; the list becomes exactly the newest 25 of old list ++ new flashes; the engine stays valid |
| Engine.PhantomLightningShow.RecordAndDetect | phantom-animation.js:260-304 | the histories are updated first; the peak decision is the musical-peak rule on the increases read off the updated histories; a peak implies positive total energy |
| Engine.PhantomLightningShow.CurrentThreshold | phantom-animation.js:274-282 | the threshold is the clamp of 1.15 times the recent overall average (50 on an empty history) into [base, 2·base] |
| Engine.PhantomLightningShow.AnalyzeAudio | phantom-animation.js:230-311 | with no analyser nothing changes; otherwise the histories are updated, lightning fires exactly on a musical peak and then adds 1–6 spawned flashes drawn consecutively from the given cursor as in TriggerLightning, and the glow is set to min(overall/400, 0.6) on every analysed frame; without a trigger no draw is used |
| Engine.PhantomLightningShow.UpdateEffects | phantom-animation.js:507-516 | the flash list becomes `Survivors(old list)` and the glow decays by 0.95; the engine stays valid |
| Engine.PhantomLightningShow.FrameStep | phantom-animation.js:220-228 | one frame runs analysis and then ageing, and the engine stays valid: without a snapshot the histories are unchanged, the list becomes Survivors(old) and the glow decays; with one, each history becomes Remember(old, band energy), and the list becomes Survivors(old) when no peak fires and Survivors(Newest(old ++ added, 25)) when one does, with the added flashes fixed by their draws |
| Engine.PhantomLightningShow.Illuminate | phantom-animation.js:623-700 | nothing changes before the image has loaded; otherwise the peak level and tint are as in PeakIllumination, and the smoothed illumination moves 4% of the way towards min(level, 1) |
| Engine.RememberAllValid | phantom-animation.js:323-336 | pushing in-range energies onto the histories of a valid state leaves it valid |
| Engine.RememberWithin | phantom-animation.js:323-336 | pushing an energy in [0, 247] onto a history within [0, 247] keeps every entry within [0, 247] |
| Engine.AllWellFormed | phantom-animation.js:409-425 | appending well-formed flashes and keeping the newest 25 leaves at most 25 flashes, all well formed |
| Engine.SurvivorsWellFormed | phantom-animation.js:507-513 | ageing keeps intensity, so the survivors of well-formed flashes are well formed |

## Left out

- Canvas sizing, all drawing (`render`, `drawLightning`, `drawAtmosphere`,
  the compositing part of `drawPhantom`), DOM event wiring, buttons and the
  sensitivity slider. These are I/O. The sensitivity and the minimum
  threshold are fields that only the constructor sets; the slider's write
  to the sensitivity (phantom-animation.js:125-128) is left out.
- The `isPlaying` flag and the `requestAnimationFrame` loop. `FrameStep`
  models one frame of `animate` (analyse, then age); `render` is a separate
  call, `Illuminate`.
- Web Audio setup and FFT sampling. The spectrum is an `Option` parameter,
  and `None` stands for the missing analyser.
- `Math.random` is an injected stream of draws; its distribution is not
  modelled.
- The phantom's centre and `Math.sqrt`. `Illuminate` takes the centre and
  one distance per flash. It requires each distance to be non-negative with
  d·d = dx² + dy².
- Colour strings and the regex that reads the tint back. A colour is an
  rgba record, and the tint is its rgb part.
- Floating point. Magnitudes are exact reals, so rounding, NaN and Infinity
  are not modelled. Division by a zero band total is a precondition, and
  `Onset.PeakHasEnergy` shows that it holds on the analysis path.
- `phantomScale` is always 1, so it is not modelled.
- Flash objects are values. `updateEffects` mutates `flash.age` inside
  `filter`; the model builds the aged copy, and no flash is shared, so the
  result is the same.
- Engine.PhantomLightningShow.CurrentThreshold: the threshold is computed
  and never used, as in the source; the model does not read it either.

Four behaviours of the code a reader might not expect:

- `analyzeAudio` pushes the current values onto the histories before it
  calls `detectPeakIncrease`. So the immediate increase (current − last
  entry) is always 0 on that path, and only the mean of the last three
  matters (`Onset.IncreaseAfterRemember`).
- The background glow is set to min(overall/400, 0.6) on every analysed
  frame, not only when lightning fires.
- The dynamic threshold takes no part in the trigger decision.
- The cap of 8 bolts never binds, because band energies never exceed 247
  (`Flashes.BoltsOnAnalysisPath`).
