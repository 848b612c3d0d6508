# Character controller of the three.js paladin demo

The demo loads an animated paladin model. The keyboard moves the model and
switches between seven animation clips. The model is kept from walking into
ten static boxes. The only logic the demo implements itself is in
`js/main.js`:

- the key tracker (`teclado`), written by the keydown and keyup handlers;
- the animation selector (`gestionarAnimacion`), a fixed priority chain from
  pressed keys to one of seven clips;
- the cross-fade switch (`cambiarAnimacion`), which updates the
  `animacionActiva`/`animacionAnterior` pair;
- the idle bootstrap in the idle clip's load callback;
- the movement block of the frame callback `animarEscena`;
- the collision test `verificarColision`.

This project models that controller in Dafny and proves what it does.

Layout, one module per file:

- `wrappers.dfy`: `Option`, whose `None` stands for `undefined`.
- `geometry.dfy`: vectors and axis-aligned boxes with exact real coordinates.
- `keyboard.dfy`: the key map, lower-casing of key names, and the effect of one key event.
- `collision.dfy`: the early-exit obstacle scan and its "some obstacle overlaps" specification.
- `motion.dfy`: the per-axis displacement, the camera-relative direction, and the pose after one frame.
- `animation.dfy`: the selector, the switch and clip loading. They are pure
  transitions on an animation-state value that holds the loaded slots,
  `active`, `previous`, and the log of calls made on clip actions.
- `controller.dfy`: class `Character`. It holds the demo's module-level
  state as fields. Its methods are the two key handlers, the selector, the
  switch, a clip load, and one frame's movement. Each method's `ensures` ties
  the new state to the pure transition of the other modules.

How the model represents things:

- **Clip handles.** Each slot holds its own action object, so a handle is
  identified by its slot's name. A slot reads as `Some(clip)` once it has
  loaded and as `None` before.
- **Calling a method on an unloaded handle.** `cambiarAnimacion` may call
  `fadeOut` on an `undefined` previous clip, or `reset` on an `undefined`
  target. The model returns `TypeError` in those cases. The assignments
  made before the call are kept, as JavaScript keeps them.
  `KeyBeforeIdleLoads` shows one consequence. If w is pressed after the walk
  clip has loaded but before the idle clip has, walk is marked active but
  never played. When idle then loads, it is only stored. No clip plays until
  the next key event.
- **Clip actions.** The calls made on them (`play`, `reset`, `fadeIn(0.5)`,
  `fadeOut(0.5)`) are recorded in order as `Command`s.
- **Camera.** The camera's rotation is a parameter `toWorld` of the frame
  step.
- **Model box.** The model's bounding box (`Box3.setFromObject`) is a
  parameter of the frame step. It is the box after the model has turned
  toward the step, since the source turns the model before it tests for
  collisions.
- **Box overlap.** `intersectsBox` is the closed overlap of the boxes'
  intervals on all three axes.

## Model

| member | source | states |
|---|---|---|
| Keyboard.LowerChar | js/main.js:236 | lower-casing maps A–Z to a–z, leaves every other character alone (ASCII only), and never yields an upper-case letter |
| Keyboard.LowerKey | js/main.js:236 | the recorded key name has the event key's length, and each character is the lower-cased event character (so "W" and "w" give the same name); it contains no upper-case ASCII letter and keeps every character that was not upper-case |
| Keyboard.LowerKeyIdempotent | js/main.js:236 | lower-casing a recorded name again changes nothing |
| Keyboard.Record | js/main.js:235-244 | after a key event, the lower-cased key reads pressed exactly when the event was a keydown; the key is added to the map; every other entry keeps its value |
| Keyboard.ShiftedKeyReleases | js/main.js:235-244 | "W" and "w" address the same entry, so releasing one clears what pressing the other set |
| Animation.Slot | js/main.js:168-205 | a slot yields its own handle exactly when that clip has loaded, and `undefined` before |
| Animation.SelectIsWinner | js/main.js:247-277 | the selector returns a clip exactly when that clip's key is held and no higher-priority clip's key is held (w/s/a/d > q > e > r > b > t > idle); so exactly one clip is selected for every key map |
| Animation.SelectIgnoresUnboundKeys | js/main.js:248-276 | two key maps that agree on w, s, a, d, q, e, r, b, t select the same clip |
| Animation.MovementOutranksAttack | js/main.js:248-255 | q held together with w selects walk; q alone selects attack1; no key selects idle |
| Animation.SwitchTo | js/main.js:280-288 | switching to the active clip changes nothing; otherwise previous becomes the old active clip and active becomes the target; the switch fails exactly when one of the two handles is `undefined` |
| Animation.CrossFade | js/main.js:280-288 | switching between two different loaded clips completes and appends exactly fadeOut(old, 0.5), reset(new), fadeIn(new, 0.5), play(new) |
| Animation.Manage | js/main.js:247-277 | after the selector runs, the active reference is the selected clip's slot; when it already was, nothing changes |
| Animation.ManageIdempotent | js/main.js:247-288 | running the selector twice on the same keys: the second run changes nothing and issues no call |
| Animation.ManageWhenAllLoaded | js/main.js:247-288 | with every clip loaded and a clip active, the selector never fails; it either changes nothing or performs exactly one cross-fade to the selected clip |
| Animation.UnloadedTargetFails | js/main.js:280-286 | selecting a clip whose slot is still empty fails; it leaves active `undefined` and previous holding the old active clip |
| Animation.Load | js/main.js:168-205 | loading fills the clip's slot; idle becomes active and is played only when it is the idle clip and nothing is active yet; otherwise active and the call log are unchanged |
| Animation.SwitchPreserves | js/main.js:280-288 | a switch to a loaded slot or to `undefined` keeps the invariant: active and previous name only loaded clips, they are never equal unless both are `undefined`, and calls are issued only on loaded clips |
| Animation.ManagePreserves | js/main.js:247-277 | the selector keeps that invariant |
| Animation.LoadPreserves | js/main.js:167-205 | loading a new clip keeps that invariant |
| Animation.KeyBeforeIdleLoads | js/main.js:280-286 | w pressed when only walk has loaded fails with walk active but never played; idle loading afterwards leaves walk active and plays nothing |
| Geometry.SubAddCancels | js/main.js:323-338 | the collision test's translation `candidate - position` is the proposed step |
| Geometry.Translate | js/main.js:338 | translating a box keeps its size and moves both corners by the offset |
| Geometry.IntersectsSymmetric | js/main.js:343 | box overlap is symmetric |
| Collision.BlockedIffSome | js/main.js:341-347 | the scan's verdict is "some obstacle overlaps the moved box" |
| Collision.BlockedOrderFree | js/main.js:341-347 | the verdict depends only on which obstacles exist, not on their order |
| Collision.NoObstaclesNeverBlock | js/main.js:341-347 | with no obstacles nothing blocks |
| Collision.CheckCollision | js/main.js:336-348 | returns true exactly when some obstacle's box overlaps the model's box translated by candidate − current position; it returns at the first overlap |
| Motion.ReadDirectionKeys | js/main.js:300-315 | the four tests, in source order, produce the per-axis displacement; it is non-zero exactly when the frame moves |
| Motion.AxesIndependent | js/main.js:300-315 | x depends only on a/d and z only on w/s; s overrides w and d overrides a; w alone gives z = −d, a alone gives x = −d; the vertical component is 0 |
| Motion.MovingIff | js/main.js:318 | the frame moves exactly when a direction key is held and the frame distance is not zero |
| Motion.DiagonalNotNormalised | js/main.js:300-319 | with a key on each axis, both components have the full distance as magnitude; with keys on the w/s axis only x is 0, with keys on the a/d axis only z is 0, and the held axis has the full distance as magnitude |
| Motion.DiagonalLonger | js/main.js:300-319 | for a non-zero frame distance d with a key on each axis, the step's squared length is 2·d², strictly more than the d² of a single-axis step |
| Motion.Scenarios | js/main.js:294-315 | w alone gives (0, 0, −250·delta); w with a gives (−250·delta, 0, −250·delta); q alone does not move |
| Motion.Direction | js/main.js:319-321 | the world-space step has no vertical component |
| Motion.IdleFrameKeepsPose | js/main.js:318-326 | with no direction key held, position and facing stay as they were, whatever the obstacles |
| Motion.MovingFrame | js/main.js:318-326 | a moving frame always turns the model toward its step; the position becomes position + step exactly when no obstacle overlaps the moved box (or the step is zero); otherwise the position stays |
| Controller.Character.constructor | js/main.js:104-115 | after the model loads, no key is held, no clip is loaded, nothing is active, and the obstacle boxes are fixed |
| Controller.Character.LoadClip | js/main.js:167-205 | a clip's load callback performs `Animation.Load` and keeps the invariant |
| Controller.Character.ChangeAnimation | js/main.js:280-288 | performs `Animation.SwitchTo` on the fields and returns its outcome |
| Controller.Character.ManageAnimation | js/main.js:247-277 | performs `Animation.Manage` on the fields and returns its outcome |
| Controller.Character.KeyDown | js/main.js:235-238 | sets the lower-cased key to pressed, changes no other entry, then runs the selector |
| Controller.Character.KeyUp | js/main.js:241-244 | sets the lower-cased key to released, changes no other entry, then runs the selector |
| Controller.Character.Frame | js/main.js:291-326 | moves the pose exactly as `Motion.Advance` says, using the collision scan |

## Left out

- Scene construction (camera, lights, fog, floor, triangle grid, renderer,
  orbit controls, GUI, instruction text): library and page set-up with no
  behaviour of its own.
- FBX file loading and its asynchronous callbacks: only their effect is
  modelled (`LoadClip` fills a slot, plus the idle bootstrap). Any
  interleaving of loads and key events can be expressed by calling the
  methods in that order.
- The random placement of the obstacle cubes with `Math.random`: the
  obstacles are a given, fixed sequence of boxes.
- `Box3.setFromObject`, quaternion rotation and `lookAt`: floating-point
  library math. The model box and the camera rotation are parameters. The
  facing is recorded as the direction passed to `lookAt`.
- `requestAnimationFrame`, the clock, `AnimationMixer.update` and the
  weights of a fade in progress, rendering, stats, and the resize handler:
  browser scheduling, timing and rendering.
- Floating point: coordinates and the frame time are exact reals. Rounding in
  `position + direction` and in `candidate - position` is not modelled.
- Keyboard.LowerChar: lower-cases the ASCII letters only. JavaScript's
  `toLowerCase` also folds non-ASCII letters.
- Keyboard.LowerKey: lower-cases the ASCII letters only, as LowerChar does.
- Controller.Character.ChangeAnimation: requires its target to be a slot's
  value (a loaded clip or `undefined`), because the selector is its only
  caller and always passes `animaciones.<name>`.
- Controller.Character.LoadClip: requires that the slot was not loaded
  before, because each clip's load callback runs once.
