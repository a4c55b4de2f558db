# Memphis Beauty: the animation rules, in Dafny

Memphis Beauty is a decorative Three.js scene. It has abstract shapes, two balls
that swing from side to side, and a "hairy sphere" of 56 undulating pink lines.
Almost all of `script.js` builds geometry, materials and lights. This project
models the parts that follow rules:

- **The direction latch of `update`** (module `Latch`). The flag
  `hasEnteredRight` is a two-state machine with a dead band [-0.5, 0.5]. A
  pointer sample above 0.5 while the flag is clear sets it and launches the
  "right" ball tween. A sample below -0.5 while it is set clears it and launches
  the "left" tween. Each launch is an event carrying the balls' x targets (±45).
  `Run` folds the latch over a sequence of samples. The lemmas show that
  launches alternate Right, Left, … and that the flag says which side the balls
  settle on.
- **The pointer-driven transforms of `update`** (module `SceneUpdate`, class
  `Scene`). The torus, torus2 and disc2 rotations are written only when all
  three meshes exist. Every box's `scale.x` becomes `1 + 0.06·i·factor·mouseX`
  (`ScaleBoxes`, the `boxes.forEach` loop).
  `Scene.Update` also takes the latch step and records the launch.
- **The line field** (module `HairyLines`, class `Sphere`). The constructor is
  `createLines`. It gives each line a colour, a speed in [520, 720), a radius
  in [22, 27] and 35 dots at x = (j/35)·2r − r. `UpdateDots` is `updateDots`:
  it rewrites only the y of every dot, as `sin(phase)·8·ratio`. The model proves
  ratio = |x|/r and |y| ≤ 8.
- **Face colouring** (module `FaceColors`). `RandomValue` models `randomValue`.
  `ColorVertices` is the toggling loop that gives faces 2k and 2k+1 the same
  palette colour.
- **The camera distance tier** (module `Camera`), chosen from the aspect ratio.

Modelling choices:

- Positions, angles and the pointer are `real`.
- `factor = Math.PI / 2` and `Math.PI` are each the shortest decimal that
  rounds to the double (`1.5707963267948966`, `3.141592653589793`).
- Every `Math.random()` result is a supplied real in [0, 1).
- `Math.sin` is a function argument. The amplitude bound assumes it stays
  within [-1, 1].
- The module-level `mouseX` becomes the argument of `Scene.Update`.
- `update` also reads the globals `torus`, `torus2`, `disc2`, `boxes` and
  `hasEnteredRight`. These become the fields of `Scene`.
- The tweens are recorded as launched directions. `Latch.StartAnimation` gives
  each one's targets and duration. `Latch.Settled` gives where the balls rest
  once the last launched tween has ended.

Where a plain description of the program and the code differ, the model
follows the code:

- The last dot of a line is at `r − 2r/35`, not at `+r` (`HairyLines.DotXLast`).
- The amplitude factor `1 − (r − |x|)/r` equals `|x|/r`. It is therefore 1 at
  the first dot (x = −r) and smallest, 1/35, at the middle dot 17, which still
  moves a little. No dot of a 35-dot line sits at x = 0, and the factor does
  not fall to 0 at the ends (`HairyLines.FirstDotSwingsMost`,
  `HairyLines.SmallestSwing`).
- An aspect of exactly 0.75 gets the nearest camera, not the middle tier (see
  Findings).

## Model

| member | source | states |
|---|---|---|
| Latch.StartAnimation | script.js:490-529 | each tween lasts 1.9 and sends the balls to opposite x of ±45; ball goes to +45 exactly for the right tween |
| Latch.Step | script.js:441-455 | a tween is launched exactly when the latch flips; Right exactly when it goes from clear to set, Left exactly when it goes from set to clear; it flips only for a sample outside [-0.5, 0.5] |
| Latch.EnterRightOnce | script.js:441-445 | from the clear latch a sample > 0.5 sets it and launches Right; a further sample > 0.5 changes nothing and launches nothing |
| Latch.EnterLeftOnce | script.js:446-449 | from the set latch a sample < -0.5 clears it and launches Left; a further sample < -0.5 (now clear) does nothing |
| Latch.DeadZone | script.js:441-455 | any sequence of samples in [-0.5, 0.5] leaves either latch state unchanged and launches nothing |
| Latch.HoldRight | script.js:441-445 | a non-empty run of samples > 0.5 launches exactly one Right from the clear latch and none from the set one, ending set |
| Latch.Run | script.js:441-455 | folding the latch over the samples launches at most one tween per sample, and a run with no launches leaves the latch as it was |
| Latch.Settled | script.js:273-277 | the balls rest at opposite x of ±45, and with no launch at their createMeshes places ball at -45 and ball2 at 45 |
| Latch.RunAlternates | script.js:441-455 | from the initial clear latch, launches over any sample sequence alternate Right, Left, … starting with Right, and the latch is set exactly when their number is odd |
| Latch.LatchCountsLaunches | script.js:441-455 | the latch is set exactly when more Right than Left launches occurred, and #Right = #Left + 1 then, #Right = #Left otherwise |
| Latch.SettledFollowsLatch | script.js:490-529 | once the launched tweens end, ball rests at x = 45 when the latch is set and at -45 otherwise (its createMeshes place), with ball2 always at the opposite x |
| Latch.MirroredTweens | script.js:490-529 | the left tween's targets are the right tween's swapped, with the same 1.9 duration |
| Latch.RunExtend | script.js:441-455 | one more sample extends the run by exactly one latch step from where the earlier samples left it |
| Latch.StepExtendsRun | script.js:441-455 | a call of update from any reachable state yields the state of the extended run, keeps the launches alternating and keeps the settled ball on the latch's side |
| Latch.HysteresisExample | script.js:441-455 | the samples 0, 0.6, 0.6, 0.6, -0.6 launch Right once and then Left once, ending clear |
| SceneUpdate.CentredPointer | script.js:427-439 | with mouseX = 0 every box has scale 1, torus y is 0, torus2 y and z are 1.57, disc2 y and z are 0 |
| SceneUpdate.TorusRotation | script.js:429 | the torus rotation keeps x and z, and for mouseX in [-1, 1] its y lies in [-factor, factor] |
| SceneUpdate.Torus2Rotation | script.js:430-431 | the torus2 rotation keeps x; y and z lie within factor of 1.57 for mouseX in [-1, 1] and move by equal amounts in opposite directions about 1.57 |
| SceneUpdate.Disc2Rotation | script.js:432-433 | the disc2 rotation keeps x; y and z lie in [-factor, factor] for mouseX in [-1, 1] and y = -z |
| SceneUpdate.BoxScaleX | script.js:438 | box 0 and the centred pointer give scale 1; mouseX > 0 stretches a box (scale ≥ 1) and mouseX < 0 shrinks it (scale ≤ 1) |
| SceneUpdate.TorusLinear | script.js:429 | torus y is linear in mouseX with slope factor, giving -factor and +factor at mouseX = -1 and 1 |
| SceneUpdate.BoxScalesOrdered | script.js:437-439 | for mouseX > 0 box scales strictly increase with the index, and for mouseX < 0 they strictly decrease |
| SceneUpdate.BoxScaleBounded | script.js:437-439 | for mouseX in [-1, 1] box i's scale is within 0.06·i·factor of 1, and it is positive for each of the six boxes |
| SceneUpdate.ScaleBoxes | script.js:437-439 | every box i, and no other object, gets scale.x = BoxScaleX(i, mouseX) |
| SceneUpdate.Scene.constructor | script.js:269-328 | the starting state: three rotations (torus2 turned by factor about y), six boxes of scale 1, clear latch, no launches |
| SceneUpdate.Scene.Update | script.js:425-456 | the three rotations are rewritten only when all three meshes exist, and are otherwise unchanged; every box gets its scale; the latch takes one Step and its launch is appended; the launch history stays alternating; settled ball x is 45 exactly when the latch is set |
| HairyLines.LineColor | script.js:371 | a line is hot pink or pink, hot pink exactly when its draw exceeds 0.3 |
| HairyLines.LineSpeed | script.js:372 | a draw in [0, 1) gives a speed in [520, 720) |
| HairyLines.LineRadius | script.js:374 | a draw in [0, 1) gives the floored, ±10% jittered base radius, an integer in [22, 27] |
| HairyLines.DotX | script.js:378 | dot 0 is at -radius, and on a line of positive radius every dot's x lies in [-radius, radius) |
| HairyLines.DotXFirst | script.js:378 | the first dot is at x = -radius |
| HairyLines.DotXLast | script.js:376-382 | the last dot is at radius - 2·radius/dots, short of +radius |
| HairyLines.DotXSpacing | script.js:378 | consecutive dots are 2·radius/dots apart |
| HairyLines.DotXIncreasing | script.js:376-382 | on a line of positive radius the dots' x strictly increase with the index |
| HairyLines.DotXRange | script.js:376-382 | every dot's x lies in [-radius, radius) |
| HairyLines.Ratio | script.js:404 | 1 - (r - abs(x))/r equals abs(x)/r, and it lies in [0, 1] when abs(x) <= r |
| HairyLines.Phase | script.js:405 | with a positive speed and time, dot j's phase is at least 0.15·j |
| HairyLines.PhaseStagger | script.js:405 | the phase advances by exactly 0.15 from one dot to the next |
| HairyLines.DotY | script.js:405 | with the sine in [-1, 1] and the dot on its line, abs(y) <= 8 |
| HairyLines.FirstDotSwingsMost | script.js:404 | the amplitude factor is 1 at the first dot and at most 1 at every dot |
| HairyLines.RatioOfMultiple | script.js:404 | a point c·radius along a line of positive radius has amplitude factor abs(c) |
| HairyLines.SmallestSwing | script.js:404 | on a 35-dot line of positive radius the amplitude factor is at least 1/35 at every dot and exactly 1/35 at the middle dot 17 |
| HairyLines.Sphere.constructor | script.js:368-389 | 56 lines, each with the colour, speed, wave, radius and spin of its draws, and 35 dots at (DotX(j), 0, 0) |
| HairyLines.WaveLine | script.js:401-408 | one line's dots, each with x and z kept and y = sin(a/speed + 0.15·j)·8·ratio |
| HairyLines.Sphere.UpdateDots | script.js:393-414 | every dot (line i, dot j) gets y = sin(a/speed + 0.15·j)·8·ratio; x, z and every other line field stay the same; with sin in [-1, 1], every abs(y) <= 8 |
| FaceColors.DrawIndex | script.js:485 | a draw in [0, 1) picks an index in [0, n) of a non-empty array |
| FaceColors.RandomValue | script.js:483-487 | the draw gives an element exactly when the array is non-empty, and that element belongs to the array |
| FaceColors.EveryElementDrawable | script.js:485 | every element k of a non-empty array is drawn by the random value k/n in [0, 1) |
| FaceColors.PairColor | script.js:536-552 | the colour of face i, from draw i/2, is a palette colour |
| FaceColors.ColorVertices | script.js:531-554 | face i gets the colour of draw i/2, so every face has a palette colour and faces 2k and 2k+1 have the same colour |
| Camera.DistanceZ | script.js:127-141 | z = 187.5 for aspect in (0.75, 1), 312.5 below 0.75, 125 for 1 and above and also for exactly 0.75 |
| Camera.DistanceNotMonotone | script.js:129-141 | as written, aspect 0.75 gets a nearer camera than both 0.74 and 0.76, so distance is not non-increasing in the aspect |
| Camera.IntendedDistanceZ | script.js:127-141 | corrected tiers: 312.5 below 0.75, 187.5 on [0.75, 1), 125 from 1 |
| Camera.IntendedDistanceMonotone | script.js:127-141 | with the corrected tiers a wider window never puts the camera farther away |
| Camera.DistanceAgreesOffBoundary | script.js:129-141 | the written and the corrected tiers agree exactly at every aspect other than 0.75 |

## Left out

- Scene construction is left out: geometries, materials, lights, the renderer and
  `scene.add` (script.js:145-351). It builds objects in a foreign library and has
  no logic to check. Only the initial rotations, scales and ball positions it
  sets are modelled.
- The `render` loop and `requestAnimationFrame` (script.js:416-423) are left out.
  They are host scheduling plus a WebGL draw. `UpdateDots` takes the frame
  time `a` as an argument.
- Event listeners, `onResize`, `onMouseMove` and `onTouch` (script.js:97-99,
  458-481) are left out. They are DOM plumbing, and the pointer sample is an
  argument. `mouseY` is never read by the animation. `onTouch` divides the
  touch y by `innerWidth` where `innerHeight` is evidently meant.
- The constant writes `line.rotation.x = Math.PI` and `line.rotation.z = Math.PI`
  (script.js:384, 386) are left out. They are scene-graph placement that is the
  same for every line, and `Line` has no field for them. Its random y rotation
  is kept as `spin`.
- The renderer flag `line.geometry.verticesNeedUpdate = true` (script.js:410) is
  left out. It is a constant write that only tells the renderer to re-upload.
- Texture loading (script.js:103-114) is left out because it is an asynchronous
  network fetch.
- gsap timelines, elastic easing and the way one tween overrides another
  (script.js:490-529) are left out because they belong to an external library.
  A launch is an event with its targets. `Latch.Settled` assumes only that the
  last launched tween wins.
- IEEE-754 doubles, `Math.sin` and `Math.random` are left out. Arithmetic is
  exact on reals. `sin` is any function, bounded where a property needs it.
  `random` is a supplied value in [0, 1).
- The camera aspect is taken as a given real. The division
  `innerWidth / innerHeight` and a zero-height window are not modelled.
- FaceColors.ColorVertices: requires a non-empty palette. Its only caller passes
  the 10-colour `colors`. With an empty palette, `randomValue` yields
  `undefined` (modelled by `RandomValue` as None), and what `Color.set` does with
  that is library behaviour.
- HairyLines.Sphere.UpdateDots: the lines and their vertices are values in a
  `seq` field, not shared `Vector3` objects. Aliasing between vertices is not
  modelled (the source creates a fresh vector per dot). The inner loop over one
  line's dots (`HairyLines.WaveLine`) returns the rewritten dots, which are then
  stored back into the line.

## Findings

| source | as written | input that shows it | evidently intended | confidence | as-written member | corrected member |
|---|---|---|---|---|---|---|
| script.js:129-141 | `aspect < 1 && aspect > 0.75` then `aspect < 0.75`, so 0.75 itself falls to the near tier (z = 125) | aspect = 0.75 (a 768×1024 portrait window): z = 125, while 0.74 gives 312.5 and 0.76 gives 187.5 | 0.75 belongs to the middle tier [0.75, 1) with z = 187.5, so distance never grows as the window widens | medium, not executed | Camera.DistanceNotMonotone | Camera.IntendedDistanceMonotone |
