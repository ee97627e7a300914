# cinematic-3d-particle-christmas-2026 in Dafny

This project models the logic of a single-page 3-D greeting. A pool of
particles tweens between shapes:

- a scattered cloud;
- the current countdown label, rasterised;
- the text "2026";
- a spiral cone tree.

This follows a presentation state machine: INTRO → COUNTDOWN →
TRANSITION_TO_2026 → TREE_ASSEMBLE → INTERACTIVE_TREE. In the interactive
tree a display mode (COMPACT, SCATTERED, PHOTO_FOCUS) lays out ornaments and
user photos. A per-frame layer rotates the scene and draws the particles at
their base position plus a small shimmer.

The modules follow the repository's files:

- `Types` (`types.dfy`) holds the enumerations and the photo record of
  `types.ts`, plus the tree-configuration predicate shared by the effects.
- `MathModel` (`math_model.dfy`) holds three.js's `Vector3` and `MathUtils.lerp`,
  the flat three-entries-per-point buffer layout, and `Math.random` as a
  sequence of draws in [0, 1). `Math.sin`, `Math.cos` and `Math.sqrt` are
  parameters (`MathLib`). `MathLib.Valid` says that sine and cosine lie in
  [-1, 1] and that sqrt maps [0, 1] into [0, 1]. `MathLib.Pythagorean` is the
  identity sin² + cos² = 1, which only the disc bound of the cone assumes.
- `ParticleUtils` (`particle_utils.dfy`) models `utils/particleUtils.ts`.
  - Each generator is a method with the source's loop, proved equal to a
    specification function.
  - The specification functions carry the count, bound and membership lemmas.
  - `getTextPoints` takes the canvas's RGBA image as input. Its nested
    stride-4 scan is proved to collect exactly the lattice pixels whose
    alpha exceeds 128, in row-major order.
- `Experience` (`experience.dfy`) models `components/Experience.tsx`.
  - The target-selection, ornament and photo effects are decision functions.
  - The class `ParticleScene` holds the two `Float32Array` buffers as arrays,
    the size buffer, `rotationState`, and the rotations the frame hook writes.
  - The tween's update callback and the frame hook write the arrays in place.
- `AppComponent` (`app_component.dfy`) models `App.tsx`. It has a class `App`
  with the five `useState` fields and the pending timers, and one method per
  handler or timer callback.
  - Each method is proved to produce the state the pure transition function
    `Next` gives.
  - `Next` applies the callback's setters, then the re-render. The re-render
    re-runs the countdown effect when `appState` or `countdownIndex` changed.
    It also models Experience's scheduling of the TREE_ASSEMBLE callback
    while in TRANSITION_TO_2026.
  - Timers are events:
    - `Tick`: the countdown effect's cleared timer.
    - `Announce`: its uncleared end-of-countdown timer.
    - `TransitionComplete`: Experience's uncleared timer.
    - `DelayElapsed`: the uncleared 3000 ms timer of `handleTransitionComplete`.
  - `Issued` states when each event can occur:
    - start occurs in INTRO;
    - toggle and upload occur in the interactive tree;
    - close occurs in photo focus;
    - select occurs for the id of any uploaded photo, in any phase and mode,
      because both the photo planes (`onPhotoClick`) and the overlay's
      gallery call it;
    - a timer event occurs while its timer is pending.
  - `Inv` describes the reachable states.

The constants module (`PARTICLE_COUNT`, `ORNAMENT_COUNT`,
`COUNTDOWN_SEQUENCE`) is not part of this model. The three constants are
parameters: `count`, `n` and `labels` (or its length `len`).

Behaviours of the code worth knowing:

- **Stale focus.** A focused id that names no photo does not give the
  scattered layout. In PHOTO_FOCUS such an id leaves every photo at the
  origin at scale 1 (`Experience.FocusLayout`).
- **Cone sampling.** The cone generator does not draw one planar radius with
  a square root. It scales x and z by two separate `sqrt(random())` draws,
  and it draws a fifth, unused value per point. Each axis lies within the
  current radius (`ParticleUtils.TreePointAxes`). With sin² + cos² = 1 the
  point also lies in the disc of that radius, x² + z² ≤ currentRadius²
  (`ParticleUtils.TreePointInDisc`).
- **Tween cancellation.** `animateTo` tweens a fresh proxy object each call,
  so a new tween does not cancel one still running. The model returns a
  `Tween` value per call. The scene's buffer holds whatever the last update
  call of any live tween wrote.
- **Select in COMPACT.** `selectPhoto` does not refuse the COMPACT mode. It
  sets PHOTO_FOCUS from any mode.

## Model

| member | source | states |
|---|---|---|
| `MathModel.Lerp` | cinematic-3d-particle-christmas-2026/components/Experience.tsx:65-67 | `MathUtils.lerp` returns its start at t = 0 and its end at t = 1 |
| `MathModel.LerpBetween` | cinematic-3d-particle-christmas-2026/components/Experience.tsx:65-67 | for t in [0, 1] the lerp lies between its two endpoints, in either order |
| `MathModel.Centered` | cinematic-3d-particle-christmas-2026/utils/particleUtils.ts:84-86 | `(random - 0.5) * range` lies in [-range/2, range/2) for a draw in [0, 1) |
| `MathModel.Flatten` | cinematic-3d-particle-christmas-2026/components/Experience.tsx:45-51 | a point list as a buffer has length 3n, and entries 3i, 3i+1, 3i+2 are point i's x, y, z |
| `MathModel.FlattenParticles` | cinematic-3d-particle-christmas-2026/components/Experience.tsx:35-36 | every buffer of 3n entries is the flattening of its own n points |
| `ParticleUtils.SiteOnLattice` | cinematic-3d-particle-christmas-2026/utils/particleUtils.ts:26-27 | the k-th scan site has both coordinates multiples of 4 in [0, 996], and its scan index is k |
| `ParticleUtils.SiteOfIndex` | cinematic-3d-particle-christmas-2026/utils/particleUtils.ts:26-27 | every lattice pixel is the scan site of its own index, and that index lies in [0, 62500) |
| `ParticleUtils.BeforeByIndex` | cinematic-3d-particle-christmas-2026/utils/particleUtils.ts:26-27 | on the lattice, row-major order (y outer, x inner) is the order of scan indices |
| `ParticleUtils.SiteAt` | cinematic-3d-particle-christmas-2026/utils/particleUtils.ts:26-28 | scan index 250·row + col is the pixel (4·col, 4·row) the nested loops visit |
| `ParticleUtils.SortedConcat` | cinematic-3d-particle-christmas-2026/utils/particleUtils.ts:30 | appending a row-major run after an earlier one stays row-major sorted |
| `ParticleUtils.ScanMembers` | cinematic-3d-particle-christmas-2026/utils/particleUtils.ts:25-33 | the first k scan sites contribute exactly the foreground lattice pixels with index below k |
| `ParticleUtils.ScanSorted` | cinematic-3d-particle-christmas-2026/utils/particleUtils.ts:25-33 | a prefix of the scan is in strictly increasing row-major order |
| `ParticleUtils.ForegroundSpec` | cinematic-3d-particle-christmas-2026/utils/particleUtils.ts:25-33 | a pixel is collected if and only if x and y are multiples of 4 in [0, 996] and its alpha exceeds 128; the collection is row-major sorted with no repeats |
| `ParticleUtils.ScanStep` | cinematic-3d-particle-christmas-2026/utils/particleUtils.ts:28-31 | one scan step appends the site exactly when its alpha byte exceeds 128 |
| `ParticleUtils.CollectPixels` | cinematic-3d-particle-christmas-2026/utils/particleUtils.ts:25-33 | the nested stride-4 loops reading byte (y·1000 + x)·4 + 3 collect exactly the foreground sequence |
| `ParticleUtils.SampleIndexInRange` | cinematic-3d-particle-christmas-2026/utils/particleUtils.ts:37 | `floor(r · len)` lies in [0, len) for r in [0, 1) and len > 0, and is 0 when len = 0 |
| `ParticleUtils.GetTextPoints` | cinematic-3d-particle-christmas-2026/utils/particleUtils.ts:7-52 | with no 2-D context the result is empty and draws nothing; otherwise it holds exactly `count` points, sampled with replacement from the collected pixels, consuming 2 draws per point (3 with no pixels) |
| `ParticleUtils.SamplePixels` | cinematic-3d-particle-christmas-2026/utils/particleUtils.ts:36-49 | the sampling loop returns exactly `count` points equal to the sampling specification and reports the draws it used |
| `ParticleUtils.TextPointsFallback` | cinematic-3d-particle-christmas-2026/utils/particleUtils.ts:38-41 | with no collected pixels every point is a fallback with x, y in [-5, 5) and z = 0 |
| `ParticleUtils.TextPointsFromForeground` | cinematic-3d-particle-christmas-2026/utils/particleUtils.ts:44-48 | with pixels, every point is ((px - 500)·0.05, -(py - 500)·0.05, z) for some collected pixel (px, py), with z in [-0.25, 0.25) |
| `ParticleUtils.GetScatteredPoints` | cinematic-3d-particle-christmas-2026/utils/particleUtils.ts:80-90 | the loop returns exactly `count` points, point i built from draws 3i, 3i+1, 3i+2 |
| `ParticleUtils.ScatteredInRange` | cinematic-3d-particle-christmas-2026/utils/particleUtils.ts:80-90 | every scattered coordinate lies in [-range/2, range/2) |
| `ParticleUtils.GetTreePoints` | cinematic-3d-particle-christmas-2026/utils/particleUtils.ts:57-75 | the loop returns exactly `count` points, point i built from draws 5i to 5i+4 |
| `ParticleUtils.TreePointHeight` | cinematic-3d-particle-christmas-2026/utils/particleUtils.ts:62-70 | y = h - height/2 lies in [-height/2, height/2) for a height draw in [0, 1); no condition on the radius |
| `ParticleUtils.TreePointAxes` | cinematic-3d-particle-christmas-2026/utils/particleUtils.ts:65-71 | \|x\| and \|z\| are each at most the current radius at the point's height |
| `ParticleUtils.ConeRadiusRange` | cinematic-3d-particle-christmas-2026/utils/particleUtils.ts:65 | `radius · (1 - h/height)` lies in (0, radius] for h = u·height with u in [0, 1) |
| `ParticleUtils.AxisBound` | cinematic-3d-particle-christmas-2026/utils/particleUtils.ts:69-71 | a trigonometric factor times the radius times a sqrt in [0, 1] lies within ±radius |
| `ParticleUtils.TreePointInCone` | cinematic-3d-particle-christmas-2026/utils/particleUtils.ts:59-72 | each tree point lies in the cone band of its height draw |
| `ParticleUtils.TreePointsInCone` | cinematic-3d-particle-christmas-2026/utils/particleUtils.ts:57-75 | every point of the tree lies in the cone band of its height draw |
| `ParticleUtils.DiscBound` | cinematic-3d-particle-christmas-2026/utils/particleUtils.ts:69-71 | with c² + s² = 1 and both sqrt factors in [0, 1], (c·r·a)² + (s·r·b)² ≤ r² |
| `ParticleUtils.TreePointInDisc` | cinematic-3d-particle-christmas-2026/utils/particleUtils.ts:59-72 | given sin² + cos² = 1, a cone point satisfies x² + z² ≤ currentRadius² at its height |
| `ParticleUtils.TreePointsInDisc` | cinematic-3d-particle-christmas-2026/utils/particleUtils.ts:57-75 | given sin² + cos² = 1, every tree point lies in the disc of the cone radius at its height |
| `Experience.SelectTarget` | cinematic-3d-particle-christmas-2026/components/Experience.tsx:73-102 | COUNTDOWN: text(label) for 0.8 s. TRANSITION: text('2026', 250) for 2 s, with completion scheduled. Tree configuration: tree for 2.5 s. INTERACTIVE+SCATTERED: scatter(20) for 2 s. INTRO and photo focus: no retarget. Autorotation is on exactly when the shape is not text; text is chosen exactly in the two countdown phases |
| `Experience.AutoRotatePolicy` | cinematic-3d-particle-christmas-2026/components/Experience.tsx:75-99 | after the effect autorotation is off in the countdown phases, on in the tree and scattered views, unchanged in INTRO and photo focus |
| `Experience.OrnamentTargets` | cinematic-3d-particle-christmas-2026/components/Experience.tsx:104-119 | one target per ornament, equal to the layout; 3 draws per ornament off the tree and none on it |
| `Experience.OrnamentOnTree` | cinematic-3d-particle-christmas-2026/components/Experience.tsx:110-111 | ornament i of n has h = 10·i/n - 5 in [-5, 5) and r = 4·(1 - i/n) in (0, 4] |
| `Experience.OrnamentTreeTargetBounds` | cinematic-3d-particle-christmas-2026/components/Experience.tsx:110-113 | a tree ornament lies within its radius of the trunk on x and z |
| `Experience.OrnamentLayoutBounds` | cinematic-3d-particle-christmas-2026/components/Experience.tsx:107-116 | on the tree every ornament lies inside the cone band; otherwise every coordinate lies in [-10, 10) |
| `Experience.PhotoTargetFor` | cinematic-3d-particle-christmas-2026/components/Experience.tsx:124-149 | the priority COMPACT (scale 0), then focused ((0,0,8), scale (4,4,1)), then SCATTERED (the orbit, scale (1.5,1.5,1)), then the origin at scale 1; the rotation is reset exactly for the focused photo |
| `Experience.PhotoTargets` | cinematic-3d-particle-christmas-2026/components/Experience.tsx:121-151 | the loop over the photo group gives each photo its layout target |
| `Experience.OrbitBounds` | cinematic-3d-particle-christmas-2026/components/Experience.tsx:136-141 | a scattered photo stays within \|x\| ≤ 10, \|y\| ≤ 8, \|z\| ≤ 8 |
| `Experience.FocusLayout` | cinematic-3d-particle-christmas-2026/components/Experience.tsx:124-149 | in photo focus a photo is enlarged and has its rotation reset exactly when its id is the focused id; an id naming no photo leaves all at the origin at scale 1 |
| `Experience.CompactHidesPhotos` | cinematic-3d-particle-christmas-2026/components/Experience.tsx:129-130 | in COMPACT every photo shrinks to scale 0 at the origin |
| `Experience.InterpolatedAtStart` | cinematic-3d-particle-christmas-2026/components/Experience.tsx:55-69 | at progress 0 the buffer equals the snapshot |
| `Experience.InterpolatedAtEnd` | cinematic-3d-particle-christmas-2026/components/Experience.tsx:55-69 | at progress 1 the buffer equals the target list padded with the origin, flattened |
| `Experience.InterpolatedBetween` | cinematic-3d-particle-christmas-2026/components/Experience.tsx:62-68 | for progress in [0, 1] each entry lies between its snapshot value and its target coordinate; a particle past the list lerps toward 0 |
| `Experience.ShimmerBounded` | cinematic-3d-particle-christmas-2026/components/Experience.tsx:167-172 | every written position is within the intensity of its base entry |
| `Experience.WaveBounded` | cinematic-3d-particle-christmas-2026/components/Experience.tsx:169-171 | each shimmer wave lies in [-1, 1] |
| `Experience.ShimmerIntensity` | cinematic-3d-particle-christmas-2026/components/Experience.tsx:166 | the shimmer amplitude is 0.02 exactly in COUNTDOWN and TRANSITION_TO_2026, and 0.01 in every other phase |
| `Experience.OscillationBounded` | cinematic-3d-particle-christmas-2026/components/Experience.tsx:158 | the oscillation lies within ±0.05 |
| `Experience.OrnamentRotation` | cinematic-3d-particle-christmas-2026/components/Experience.tsx:176-178 | the ornaments turn 1.5 times as far as the particles in the compact interactive tree, and with them otherwise |
| `Experience.PhotoGroupRotation` | cinematic-3d-particle-christmas-2026/components/Experience.tsx:180-192 | the photo group turns half as far as the particles when scattered and is reset to 0 in photo focus; in COMPACT it keeps its previous rotation |
| `Experience.ParticleSize` | cinematic-3d-particle-christmas-2026/components/Experience.tsx:37-41 | `random * 0.12 + 0.05` lies in [0.05, 0.17) |
| `Experience.ParticleScene.constructor` | cinematic-3d-particle-christmas-2026/components/Experience.tsx:33-41 | buffers of 3·count zeros, sizes from the first count draws, rotation state (0, on, 0) |
| `Experience.ParticleScene.Mount` | cinematic-3d-particle-christmas-2026/components/Experience.tsx:43-53 | both buffers become the flattened getScatteredPoints(count, 30) |
| `Experience.ParticleScene.AnimateTo` | cinematic-3d-particle-christmas-2026/components/Experience.tsx:55-58 | the tween's start is a copy of the buffer of length 3·count, taken before any update |
| `Experience.ParticleScene.TweenUpdate` | cinematic-3d-particle-christmas-2026/components/Experience.tsx:62-68 | the update writes the whole buffer as the interpolation of the snapshot toward the target at progress t |
| `Experience.ParticleScene.RetargetEffect` | cinematic-3d-particle-christmas-2026/components/Experience.tsx:73-102 | runs the selected generator, starts a tween from the current buffer toward its points, sets autorotation as selected, and reports whether completion is scheduled |
| `Experience.ParticleScene.WriteShimmer` | cinematic-3d-particle-christmas-2026/components/Experience.tsx:166-172 | the displayed buffer becomes base plus the three waves times the intensity |
| `Experience.ParticleScene.Frame` | cinematic-3d-particle-christmas-2026/components/Experience.tsx:153-193 | rotation advances by delta·0.2, or the oscillation is set. For delta ≥ 0 the rotation never decreases, and with autorotation off the oscillation stays within ±0.05. The effective rotation y + oscillation drives the particles. The ornament and photo groups turn as `OrnamentRotation` and `PhotoGroupRotation` give. The displayed buffer becomes the shimmer of the base buffer at the phase's intensity, and the base buffer is not written |
| `AppComponent.Initial` | cinematic-3d-particle-christmas-2026/App.tsx:11-15 | INTRO, COMPACT, index -1, no photos, no focus, no timer pending |
| `AppComponent.Toggled` | cinematic-3d-particle-christmas-2026/App.tsx:44-56 | COMPACT → SCATTERED, SCATTERED → COMPACT, PHOTO_FOCUS → COMPACT |
| `AppComponent.Apply` | cinematic-3d-particle-christmas-2026/App.tsx:18-65 | only upload changes the photos, appending exactly (id, url). Only start (to 0) and an armed tick (+1) change the index. Only toggle, select and close change the mode or focus. A timer callback with nothing pending changes nothing |
| `AppComponent.Settle` | cinematic-3d-particle-christmas-2026/App.tsx:18-30 | the effects after a render change no state field, only the timers. The cleared increment timer may be re-armed or cancelled. The end-of-countdown timer and the completion callback (Experience.tsx:92) can only gain a pending callback. The delay timer is untouched. With no render nothing changes |
| `AppComponent.Next` | cinematic-3d-particle-christmas-2026/App.tsx:18-65 | the five state fields after an event are those the event's own setters write; the effects that follow only schedule |
| `AppComponent.Issued` | cinematic-3d-particle-christmas-2026/App.tsx:81-106 | start in INTRO, toggle and upload in the interactive tree, close in photo focus, select for the id of any uploaded photo, and each timer callback while pending |
| `AppComponent.Inv` | cinematic-3d-particle-christmas-2026/App.tsx:11-65 | focus is set exactly in photo focus; other modes and photos only in the interactive tree; the index is -1, within the labels, or the last label by phase; one pending timer per timed phase |
| `AppComponent.InitialInv` | cinematic-3d-particle-christmas-2026/App.tsx:11-15 | the initial state is reachable-consistent |
| `AppComponent.NextInv` | cinematic-3d-particle-christmas-2026/App.tsx:18-65 | every deliverable event keeps the invariant. Focus is set exactly in photo focus. Non-compact modes and photos occur only in the interactive tree. The countdown, transition and assembly phases each have exactly one pending timer to leave them. The index is -1, within the labels, or the last label, depending on the phase |
| `AppComponent.PhaseMonotone` | cinematic-3d-particle-christmas-2026/App.tsx:18-42 | the phase never moves back and advances at most one step per event, only through start or a timer callback |
| `AppComponent.StartFromAnywhere` | cinematic-3d-particle-christmas-2026/App.tsx:32-35 | start sets COUNTDOWN and index 0 whatever the prior state, and keeps the mode |
| `AppComponent.ModeCommands` | cinematic-3d-particle-christmas-2026/App.tsx:44-65 | toggle gives (toggled mode, no focus); select gives (PHOTO_FOCUS, id) from any mode; close gives (SCATTERED, no focus); none of them changes phase, photos or index |
| `AppComponent.AddPhotoAppends` | cinematic-3d-particle-christmas-2026/App.tsx:58-60 | exactly the photo (id, url) is appended at the end; the earlier photos, phase, mode, focus and index are unchanged |
| `AppComponent.ModeOnlyByCommands` | cinematic-3d-particle-christmas-2026/App.tsx:37-42 | no event but toggle, select and close changes the mode or the focus |
| `AppComponent.CountdownLabel` | cinematic-3d-particle-christmas-2026/App.tsx:78 | in a reachable COUNTDOWN state the label shown is the label at the index |
| `AppComponent.StartCounts` | cinematic-3d-particle-christmas-2026/App.tsx:18-35 | start from the initial state gives the countdown at index 0, with the increment timer armed (or the transition scheduled when there is one label) |
| `AppComponent.CountdownIssued` | cinematic-3d-particle-christmas-2026/App.tsx:18-30 | during the countdown, below the last label only the increment can happen; at the last, only the transition |
| `AppComponent.TickAdvances` | cinematic-3d-particle-christmas-2026/App.tsx:20-24 | below the last label a tick advances the index by one and stays in COUNTDOWN |
| `AppComponent.RunConcat` | cinematic-3d-particle-christmas-2026/App.tsx:18-65 | running two event sequences one after the other equals running their concatenation |
| `AppComponent.TicksRun` | cinematic-3d-particle-christmas-2026/App.tsx:20-24 | k ticks from index j reach index j + k |
| `AppComponent.CountdownRun` | cinematic-3d-particle-christmas-2026/App.tsx:18-35 | start and then len − 1 increments from the initial state reach the countdown at the last label |
| `AppComponent.FullRun` | cinematic-3d-particle-christmas-2026/App.tsx:18-42 | start, len − 1 increments and the end-of-countdown callback reach TRANSITION_TO_2026; the completion and the 3000 ms delay then reach INTERACTIVE_TREE with the mode still COMPACT and no timer left |
| `AppComponent.App.constructor` | cinematic-3d-particle-christmas-2026/App.tsx:11-15 | the fields start in the initial state |
| `AppComponent.App.Rerender` | cinematic-3d-particle-christmas-2026/App.tsx:18-30 | the re-render re-runs the countdown effect and the completion scheduling as `Settle` describes |
| `AppComponent.App.HandleStart` | cinematic-3d-particle-christmas-2026/App.tsx:32-35 | the fields become `Next(old, Start)` |
| `AppComponent.App.Tick` | cinematic-3d-particle-christmas-2026/App.tsx:21-23 | the fields become `Next(old, Tick)` |
| `AppComponent.App.Announce` | cinematic-3d-particle-christmas-2026/App.tsx:27 | the fields become `Next(old, Announce)` |
| `AppComponent.App.HandleTransitionComplete` | cinematic-3d-particle-christmas-2026/App.tsx:37-42 | the fields become `Next(old, TransitionComplete)` |
| `AppComponent.App.DelayElapsed` | cinematic-3d-particle-christmas-2026/App.tsx:40 | the fields become `Next(old, DelayElapsed)` |
| `AppComponent.App.ToggleTreeMode` | cinematic-3d-particle-christmas-2026/App.tsx:44-56 | the fields become `Next(old, Toggle)` |
| `AppComponent.App.AddPhoto` | cinematic-3d-particle-christmas-2026/App.tsx:58-60 | the fields become `Next(old, AddPhoto(id, url))` |
| `AppComponent.App.SelectPhoto` | cinematic-3d-particle-christmas-2026/App.tsx:62-65 | the fields become `Next(old, SelectPhoto(id))` |
| `AppComponent.App.ClosePhoto` | cinematic-3d-particle-christmas-2026/App.tsx:103-106 | the fields become `Next(old, ClosePhoto)` |

## Left out

- Rendering is not modelled: JSX, lights, materials, fog, the bloom
  composer, the `PhotoPlane` texture loading, and the way the overlay
  renders each control. The overlay only supplies the conditions in
  `AppComponent.Issued`.
- Canvas creation and `fillText` rasterisation are DOM calls. The
  `ImageData` they produce is an input; `None` stands for a missing 2-D
  context.
- gsap is not modelled: easing curves, durations as elapsed time, tween
  scheduling, and how tweens opposing each other interleave. The progress `t` is an
  input to `TweenUpdate`, and the ornament and photo effects are modelled
  by the targets they hand to gsap.
- `setTimeout` durations (1200 ms, 3500 ms, 3000 ms) are not modelled.
  Each timer is an event that is pending or not.
- Rounding the rotation to a multiple of 2π on entering the countdown
  phases is left out. So are `lookAt` toward the camera and IEEE
  double/Float32 rounding. Values are exact reals, and sine, cosine and
  square root are abstract.
- The random photo id is a parameter. The code does not make ids unique.
- `UIOverlay.tsx` (buttons, `FileReader`) is UI plumbing.
- The guards for a ref that is not yet mounted are left out, and the
  refs are taken to be mounted.
- The target-selection effect also depends on `onTransitionComplete`, which
  `App` recreates at each render, so the effect re-runs on every App
  render:
  - `AppComponent.Settle` models this for the TREE_ASSEMBLE callback
    scheduled in TRANSITION_TO_2026.
  - The re-issued tweens in other phases (for example a new scatter after
    an upload) are not tracked in `AppComponent`. `Experience.ParticleScene.RetargetEffect`
    models one run.
- React's strict-mode double effects and batching across separate events
  are not modelled.
- `ParticleUtils.GetTreePoints` requires height ≠ 0, and the cone lemmas
  require height > 0. At height 0 the source computes NaN, which reals
  cannot represent.
- `AppComponent.NextInv` and the other invariant lemmas take
  `COUNTDOWN_SEQUENCE` to be non-empty. The constants module is not part of
  this model. With no labels, start schedules the transition at once,
  which `Next` also models.
- `GetTextPoints`, `GetTreePoints` and `RetargetEffect` take a long
  enough stream of draws as a requirement of the model: 3, 5 and 5 per
  particle at most.
