# Formation choreography and lucky draw — a Dafny model

This project models the choreography engine of an interactive 3D
Christmas-tree display. The decorative ornaments are baubles, gift boxes and
photo cards. Each ornament moves between a scattered "chaos" layout and a
"tree" layout, driven by one shared formation control value (`targetMix`).
A camera rig reacts to a hand-tracking pointer and a mouse wheel. A lucky-draw
state machine (IDLE → PICKING → WINNER → REVEALED → IDLE) picks one
participant's photo card and stages it in front of the camera.

Five modules, following the source files:

- `Common` (common.dfy): `Option`, `Vec3`, `Lerp` (`a + (b - a) * t`, the
  math helper `lerp`), `Clamp`, `MinReal`, `Pi`, and the lerp lemmas the
  smoothing properties rest on.
- `LuckyDraw` (lucky_draw.dfy, App.tsx): the React state becomes an immutable
  `App` record. Each handler is a pure function. Each 3000 ms timer is a
  `DrawTimer` value in a queue of pending callbacks. A `TimerFires(r1, r2)`
  event runs the oldest one, where `r1` and `r2` are the `Math.random()`
  samples. The pointer guards are `Enabled`, and
  `Step`/`Run` form the guarded machine. `Inv` holds in every reachable state.
- `CameraRig` (camera_rig.dfy, `SceneController` in components/Experience.tsx):
  the zoom, smoothed pointer, camera position, formation yaw and idle
  velocity form one `Rig` record, with `Wheel` and `Frame` as pure steps.
- `Layout` (layout.dfy, the layout `useMemo` in components/Ornaments.tsx and
  the groups mounted by `SceneContent`): `OrnamentAt` is the per-index record
  and `Generate` is the loop that builds the list.
- `Poses` (poses.dfy, components/Ornaments.tsx): the photo card's per-frame
  rule (`PhotoFrame`), the box and bauble blends, the card geometry, and
  which photo cards render.

Parameters stand in for what the model cannot compute:

- `Math.sqrt`, `Math.cos` and `Math.sin` are function-valued fields of
  `Layout.Maths`. Lemmas assume only the laws they need: `SqrtLaws`
  (positive, at most 1 on [0, 1], monotone) and `TrigLaws` (cos² + sin² = 1).
- `Math.random` and `randomVector3` are oracles (`Layout.Randomness`,
  `TimerFires` parameters). The scene's three layouts draw from one
  stream in turn, so `Layout.SceneLayouts` takes one oracle per group
  for the stretch of the stream that group consumes.
- The frame time `delta`, wheel deltas and hand samples are inputs.
- `Math.PI` is the decimal constant `Pi`.
- Numbers are `real`, so IEEE rounding is not modelled.

Facts about the code that shape the model:

- Each call of `startLuckyDraw` schedules one more winner-picking callback
  (App.tsx:45-56). The callback does not check the phase, and nothing
  cancels it: neither a reset nor a second start. `UnguardedResetDoesNotCancel`
  and `UnguardedRestartFiresTwice` show that the handlers alone would let a
  stale callback announce a winner. `GuardedResetLeavesNoTimer` shows that,
  under the pointer guards, the reset button is only reachable when no
  callback is pending.
- Only `SceneController` clamps the frame time
  (components/Experience.tsx:50). The PICKING spin
  (components/Experience.tsx:64) and every photo-card lerp use the raw
  `delta`: the approach value (components/Ornaments.tsx:119-120), the winner
  override (components/Ornaments.tsx:124-129) and the flip back
  (components/Ornaments.tsx:142). The no-overshoot lemmas therefore take an
  explicit bound on `delta`.
- The winner's outer rotation is set to identity in one frame
  (components/Ornaments.tsx:126), not eased.

## Model

| member | source | states |
|---|---|---|
| `LuckyDraw.HandleGesture` | App.tsx:25-34 | When gestures are disabled, nothing changes. A detected hand sets the mix to 0 if the hand is open and to 1 otherwise, whatever it was before, and publishes (1.2·x, y, detected). A lost hand only clears the detected flag and keeps x and y. Nothing else changes. |
| `LuckyDraw.StartLuckyDraw` | App.tsx:36-56 | With no participants the state is unchanged. Otherwise the phase becomes PICKING, the winner is cleared and the mix becomes 0. One more callback over the current lists joins the end of the pending queue; the callbacks already pending stay. The prize and everything else are untouched. |
| `LuckyDraw.PickIndex` | App.tsx:47 | The result k is `floor(r·n)`: k ≤ r·n < k + 1. So it is a valid index in [0, n) for any r in [0, 1) and n ≥ 1. |
| `LuckyDraw.FireTimer` | App.tsx:45-56 | The oldest pending callback runs and leaves the queue. It always enters WINNER. The winner is `floor(r1·n)` for the n participants it captured, so it is below n. The prize is none exactly when the captured pool is empty; otherwise it is the pool entry at `floor(r2·m)`. Only the phase, winner, prize and queue change. |
| `LuckyDraw.RevealPrize` | App.tsx:59-61 | Only the phase changes, to REVEALED. |
| `LuckyDraw.ResetLuckyDraw` | App.tsx:63-68 | Sets phase IDLE, winner none, prize none and mix 1. Pending callbacks survive, and nothing else changes. |
| `LuckyDraw.ToggleMix` | App.tsx:150 | The manual toggle maps 1 to 0 and any other value to 1, so the result is always 0 or 1. |
| `LuckyDraw.ToggleMixInvolution` | App.tsx:150 | Toggling twice restores any mix value that is 0 or 1. |
| `LuckyDraw.ToggleGestures` | App.tsx:158 | Flips the gesture switch and changes nothing else. |
| `LuckyDraw.KeepFirst` | App.tsx:75 | Keeps at most 30 files, as an order-preserving prefix of the selection, and keeps all files when there are 30 or fewer. |
| `LuckyDraw.UploadParticipants` | App.tsx:70-82 | An empty selection changes nothing. Otherwise the participants become the first 30 files and the mix ends at 1. |
| `LuckyDraw.UploadPrizes` | App.tsx:84-91 | An empty selection changes nothing. Otherwise the prize pool becomes the whole selection. |
| `LuckyDraw.Enabled` | App.tsx:121-164 | Which events reach their handler by pointer: the side panel (start, uploads, toggles) only in IDLE (App.tsx:139), reveal only in WINNER (App.tsx:125-130), reset only in REVEALED (App.tsx:132-137), a timer only when one is pending, gestures always. Its consequences are stated by `LuckyDraw.StepPreservesInv` and `LuckyDraw.GuardedResetLeavesNoTimer`. |
| `LuckyDraw.Step` | App.tsx:121-164 | One event: a guarded event runs its handler and any other leaves the state unchanged. Described by `LuckyDraw.StepPreservesInv` and `LuckyDraw.StartWithoutParticipantsIsNoOp`. |
| `LuckyDraw.Run` | App.tsx:121-164 | An event sequence applied step by step from a state. Described by `LuckyDraw.RunPreservesInv` and `LuckyDraw.ReachableStates`. |
| `LuckyDraw.InitialInv` | App.tsx:8-23 | The mounted app satisfies the invariant. |
| `LuckyDraw.StepPreservesInv` | App.tsx:121-140 | Under the UI guards, every event preserves the invariant. Start, uploads and toggles are only reachable in IDLE, reveal only in WINNER, reset only in REVEALED, and gestures always. |
| `LuckyDraw.RunPreservesInv` | App.tsx:121-164 | Any event sequence preserves the invariant. The invariant says: the mix is 0 or 1, the winner is null exactly in IDLE and PICKING, at most one callback is pending and one is pending exactly in PICKING, the winner is a participant index, and the prize comes from the pool. |
| `LuckyDraw.ReachableStates` | App.tsx:41-68 | Every reachable state has mix 0 or 1. Its winner is null exactly in IDLE and PICKING, and otherwise is a valid participant index. |
| `LuckyDraw.StartWithoutParticipantsIsNoOp` | App.tsx:37-40 | Starting a draw with zero participants changes no state. |
| `LuckyDraw.UnguardedResetDoesNotCancel` | App.tsx:45-68 | Start, then reset, then the timer firing still yields WINNER: the handlers have no cancellation. |
| `LuckyDraw.UnguardedRestartFiresTwice` | App.tsx:36-56 | Starting twice leaves two callbacks pending. After the first fires, one is still pending, and it announces a winner again. |
| `LuckyDraw.UnguardedUploadOrphansWinner` | App.tsx:70-82 | An upload that bypasses the panel guard while a winner is shown, with no more files than the winner index, leaves WINNER pointing past the end of the new participant list, so the invariant fails. |
| `LuckyDraw.GuardedResetLeavesNoTimer` | App.tsx:132-136 | When the reset button is reachable, no callback is pending, and reset leaves IDLE with an empty queue. |
| `LuckyDraw.FiveParticipantsTwoPrizes` | App.tsx:36-68 | A full round with 5 participants and 2 prizes: PICKING with mix 0; then WINNER with winner in 0..4 and one of the two prizes; then REVEALED with the same winner; then IDLE with no winner, no prize and mix 1. |
| `CameraRig.Wheel` | components/Experience.tsx:41-44 | The zoom becomes zoom + 0.02·deltaY when that lies in [12, 55], 12 when it falls below and 55 when it rises above; so it is always in [12, 55]. Nothing else changes. |
| `CameraRig.WheelAll` | components/Experience.tsx:41-44 | A sequence of wheel events applied in order. Described by `CameraRig.WheelAllKeepsZoomInRange` and `CameraRig.ZoomFromMountStaysInRange`. |
| `CameraRig.WheelAllKeepsZoomInRange` | components/Experience.tsx:43 | Any sequence of wheel deltas keeps an in-range zoom in [12, 55] and leaves the rest of the rig alone. |
| `CameraRig.ZoomFromMountStaysInRange` | components/Experience.tsx:35-44 | Starting from 32, the zoom stays in [12, 55] after any wheel sequence. |
| `CameraRig.SafeDelta` | components/Experience.tsx:50 | The clamped frame time is at most 0.1 and at most delta, and equals one of the two. |
| `CameraRig.SelectMode` | components/Experience.tsx:62-72 | Exactly one yaw mode runs, in fixed priority. Spin exactly in PICKING. Settle exactly in WINNER or REVEALED. Follow exactly when IDLE with a hand. Idle spin exactly when IDLE without a hand. |
| `CameraRig.Round` | components/Experience.tsx:67 | `Math.round` returns the integer k with k − 0.5 ≤ x < k + 0.5. |
| `CameraRig.SettleTarget` | components/Experience.tsx:67 | `Math.round(yaw / 2π) · 2π`. Described by `CameraRig.SettleTargetIsNearestTurn`. |
| `CameraRig.SettleTargetIsNearestTurn` | components/Experience.tsx:67 | The settle target is a whole number of turns and lies within (−π, π] of the current yaw. |
| `CameraRig.Frame` | components/Experience.tsx:49-74 | One frame callback. Described by `CameraRig.FramePointerStep` and `CameraRig.FrameCameraStep` (pointer and camera steps), `CameraRig.SelectMode` (which yaw branch runs), and one lemma per branch: `CameraRig.PickingSpins`, `CameraRig.ResultSettles`, `CameraRig.HandSteers` and `CameraRig.IdleSpinIncreases`. Each of these states that branch's step exactly. |
| `CameraRig.EasingFactorsBounded` | components/Experience.tsx:50-69 | For delta ≥ 0 the easing factors satisfy 4·d ≤ 0.4, 2·d ≤ 0.2 and 6·d ≤ 0.6, all non-negative. |
| `CameraRig.FramePointerStep` | components/Experience.tsx:49-56 | Each smoothed pointer coordinate keeps exactly the fraction 1 − 4·d of its distance to the live pointer, where d = min(delta, 0.1). So it lands between its old value and the live pointer. |
| `CameraRig.FrameCameraAxis` | components/Experience.tsx:59 | One camera axis eased by 4·d keeps exactly the fraction 1 − 4·d of its distance to its goal, and ends between its old value and the goal. |
| `CameraRig.FrameCameraStep` | components/Experience.tsx:55-60 | On each axis the camera keeps exactly the fraction 1 − 4·d of its distance to (4·x̃, 2·ỹ, zoom), where x̃ and ỹ are the freshly smoothed pointer. So it ends between its old position and that point. The camera looks at the origin, and the zoom is untouched. |
| `CameraRig.PickingSpins` | components/Experience.tsx:63-65 | In PICKING the yaw grows by 7.5·delta, using the unclamped delta, and the idle velocity resets to 0.002. |
| `CameraRig.ResultSettles` | components/Experience.tsx:66-67 | In WINNER or REVEALED the yaw keeps exactly the fraction 1 − 2·d of its distance to the nearest whole turn, where d = min(delta, 0.1). So it moves toward that turn without passing it, whatever the hand does. |
| `CameraRig.HandSteers` | components/Experience.tsx:68-69 | In IDLE with a hand, the yaw keeps exactly the fraction 1 − 6·d of its distance to the raw pointer x·π, where d = min(delta, 0.1). So it moves toward it without overshooting. |
| `CameraRig.IdleSpinIncreases` | components/Experience.tsx:70-71 | In IDLE without a hand, a reachable rig's yaw grows by exactly 0.002, so it strictly increases. |
| `CameraRig.RigStepPreservesInv` | components/Experience.tsx:36-73 | Wheel events and frames keep the zoom in [12, 55] and the idle velocity at 0.002. |
| `CameraRig.RigStep` | components/Experience.tsx:41-74 | One wheel event or one frame. Described by `CameraRig.RigStepPreservesInv`. |
| `CameraRig.RigRun` | components/Experience.tsx:41-74 | Wheel events and frames applied in order. Described by `CameraRig.RigRunPreservesInv` and `CameraRig.ReachableRigs`. |
| `CameraRig.RigRunPreservesInv` | components/Experience.tsx:36-73 | Any mix of wheel events and frames preserves that invariant. |
| `CameraRig.ReachableRigs` | components/Experience.tsx:35-73 | Every rig reachable from mount (zoom 32, velocity 0.002) by any mix of wheel events and frames has its zoom in [12, 55] and idle velocity 0.002. |
| `Layout.Denominator` | components/Ornaments.tsx:211 | The fallback `count or 1` is positive, and equals `count` when `count` is positive. |
| `Layout.Generate` | components/Ornaments.tsx:205-233 | The loop yields exactly `count` records, where record i is the per-index record i. An empty list results when count is 0. |
| `Layout.RecordFollowsKind` | components/Ornaments.tsx:215-228 | The target scale is always `scale`. For photos: chaos scale 3.5, chaos radius 12, target pushed out by 1.15. For balls and boxes: chaos scale `scale`, radius 25, push-out 1.05. |
| `Layout.SpiralPoint` | components/Ornaments.tsx:211-213 | The golden-angle spiral point of record i. Described by `Layout.ProgressBounds`, `Layout.TargetHeights` and `Layout.TargetsOnCone`. |
| `Layout.PaletteColor` | components/Ornaments.tsx:221 | White without a palette, an entry of the palette when it is non-empty, and undefined for an empty palette (the index `i % 0` is NaN). A colour built from undefined stays white, and the scene never passes an empty palette. |
| `Layout.OrnamentAt` | components/Ornaments.tsx:210-230 | Record i of the layout. Described by `Layout.RecordFollowsKind`, `Layout.ColorsCycle`, `Layout.TargetsOnCone` and `Layout.PhotosOutsideBalls`. |
| `Layout.ColorsCycle` | components/Ornaments.tsx:221 | Without a palette every record is white. With a palette, record i has entry i for i below its length, and colours repeat with period equal to the palette length. |
| `Layout.ProgressBounds` | components/Ornaments.tsx:211 | Progress `sqrt((i+1)/count)·0.9` lies in (0, 0.9] for every index. |
| `Layout.ProgressMonotone` | components/Ornaments.tsx:211 | Progress never decreases with the index. |
| `Layout.TargetHeights` | components/Ornaments.tsx:208-219 | The height before push-out, `9 − 18·progress`, lies in [−7.2, 9). After push-out it lies in the scaled bounds, and it never rises with the index. |
| `Layout.TargetsOnCone` | components/Ornaments.tsx:207-219 | Every target lies on the cone whose apex is the pushed-out tree top, with horizontal radius growing 7.5 per 18 of descent. |
| `Layout.PhotosOutsideBalls` | components/Ornaments.tsx:219 | A photo's target is the same spiral point as a ball's or box's with equal index and count, scaled by 1.15 instead of 1.05. |
| `Layout.SceneParams` | components/Experience.tsx:78-112 | The scene mounts 70 balls with the ball palette, 12 boxes with the gift palette, and one photo per participant image with no palette and default scale 1. |
| `Layout.SceneLayouts` | components/Experience.tsx:97-112 | The three layouts have lengths 70, 12 and the participant count. Photos are white, scale 3.5 scattered and 1 formed. Balls and boxes keep one size and cycle through their palettes. Each group takes its own random stream, as the three layouts consume draws one after another. |
| `Poses.PhotoFrame` | components/Ornaments.tsx:117-143 | One frame of a photo card. Described by `Poses.ApproachStep`, `Poses.NormalPoseFollowsApproach` and `Poses.WinnerOverride`, which give the step of the approach value, the position, the scale and the flip exactly, and by `Poses.OverrideOnlyForWinner`. |
| `Poses.ApproachStep` | components/Ornaments.tsx:119-120 | In every frame, override or not and for any delta, the approach value keeps exactly the fraction 1 − 2.5·delta of its distance to the mix. |
| `Poses.ApproachNeverOvershoots` | components/Ornaments.tsx:117-121 | For 0 ≤ 2.5·delta ≤ 1 the approach value ends between its old value and the mix, and no farther from the mix. |
| `Poses.ApproachRetains` | components/Ornaments.tsx:117-121 | With the mix held constant, a run of frames of any length leaves exactly the retention (the product of the factors 1 − 2.5·delta) of the distance to the mix. |
| `Poses.ApproachConvergesMonotonically` | components/Ornaments.tsx:117-121 | With the mix held constant and every frame short (2.5·delta ≤ 1), the approach value moves monotonically toward the mix without passing it, and the distance left is the retention of the first. |
| `Poses.Retention` | components/Ornaments.tsx:119-120 | The product of the per-frame factors 1 − 2.5·delta. Described by `Poses.ApproachRetains` and `Poses.RetentionGeometric`. |
| `Poses.RetentionGeometric` | components/Ornaments.tsx:119-120 | When every frame has 2.5·delta in [c, 1], the retention of n frames lies in [0, (1 − c)ⁿ]. |
| `Poses.ApproachAfter` | components/Ornaments.tsx:119-120 | The approach recurrence over a run of (mix, delta) frames. It is tied to real cards by `Poses.PhotoRunApproach`. |
| `Poses.ApproachStaysInUnit` | components/Ornaments.tsx:117-121 | For any run of short frames (0 ≤ 2.5·delta ≤ 1) in which the mix may change from frame to frame but stays in [0, 1], an approach value in [0, 1] stays in [0, 1]. |
| `Poses.ApproachFromMountInUnit` | components/Ornaments.tsx:99-121 | A card mounted with approach value 1 keeps it in [0, 1] through any run of short frames, whatever the draw does. The mix may toggle between 0 and 1, or take any value in [0, 1], from frame to frame. |
| `Poses.PhotoRun` | components/Ornaments.tsx:117-143 | A card's pose after a run of frames. Described by `Poses.PhotoRunApproach`, `Poses.ApproachFromMountInUnit` and `Poses.PhotoRunConverges`. |
| `Poses.PhotoRunApproach` | components/Ornaments.tsx:117-121 | After any run of frames, whatever the winner flag and phase do, a card's approach value is the approach recurrence over the frames' mixes and frame times. |
| `Poses.PhotoRunConverges` | components/Ornaments.tsx:117-121 | With the mix held constant and every frame having 2.5·delta in [c, 1], after n frames the card's distance to the mix is at most (1 − c)ⁿ times its initial distance, whatever the draw does. |
| `Poses.NormalPoseFollowsApproach` | components/Ornaments.tsx:130-143 | Outside the override, position and scale are the chaos→target blend at the new approach value. Facing is Outward iff the approach value > 0.8 and Billboard iff ≤ 0.8. At 1 the card sits on its target; at 0 it sits on its chaos pose. The inner flip keeps exactly the fraction 1 − 2.5·delta of its angle, so for 0 ≤ 2.5·delta ≤ 1 it ends between its old value and 0. |
| `Poses.WinnerOverride` | components/Ornaments.tsx:123-129 | The winner card in WINNER or REVEALED has identity orientation. Its position and scale keep exactly the fraction 1 − 5·delta of their distance to (0, 0, 22) and to 9. Its flip keeps the fraction 1 − 7.5·delta of its distance to π in REVEALED and to 0 in WINNER. These hold for every frame time. Position and scale do not pass their targets when 0 ≤ 5·delta ≤ 1, and the flip does not when 0 ≤ 7.5·delta ≤ 1. |
| `Poses.OverrideOnlyForWinner` | components/Ornaments.tsx:123-143 | Non-winners ignore the draw phase. Outside WINNER and REVEALED the former winner gets exactly the ordinary pose. |
| `Poses.BoxFrame` | components/Ornaments.tsx:183-191 | A gift box's pose for one frame. Described by `Poses.BoxesSnap`. |
| `Poses.BallFrame` | components/Ornaments.tsx:242-251 | One bauble's pose for one frame. Described by `Poses.BallsSnap`. |
| `Poses.BoxesSnap` | components/Ornaments.tsx:183-191 | A box has no smoothing state: it sits on its target at mix 1 and on its chaos position at mix 0. It keeps its record's rotation and the fixed 0.8 scale. |
| `Poses.BallsSnap` | components/Ornaments.tsx:242-251 | A bauble sits on its target at mix 1 and on its chaos position at mix 0, and in between stays within their span. Its scale is the constant `scale`. |
| `Poses.AspectOf` | components/Ornaments.tsx:103 | The aspect is width/height when both are positive. A missing image or zero width falls back to 1, since NaN and 0 are falsy. A positive width over zero height is infinite. Any finite aspect is positive. |
| `Poses.CardLayout` | components/Ornaments.tsx:102-115 | The frame, photo and caption rectangles of a card. Described by `Poses.CardGeometryFits`. |
| `Poses.CardGeometryFits` | components/Ornaments.tsx:102-115 | The photo's longer side is 0.85 and its aspect ratio is kept. The frame adds 0.08 on the sides and top and 0.2 at the bottom. The photo touches the top margin and rests exactly on the caption strip along the bottom edge. |
| `Poses.SlotAt` | components/Ornaments.tsx:256-259 | Card i's render decision. Described by `Poses.PhotoSlots`. |
| `Poses.PhotoSlots` | components/Ornaments.tsx:253-275 | There is one slot per layout record. Card i renders iff `i < userImages.length` and its URL is non-empty. At most one rendered card is the winner: the one at the winner index. A rendered card carries the prize exactly when it is at the winner index, and no prize otherwise. Only the winner's caption is hidden. |
| `Poses.EveryParticipantRendered` | components/Experience.tsx:80-111 | Because the photo count is the participant count, every participant with a URL gets a rendered card. |

## Left out

- Rendering is not modelled: JSX, meshes, materials, lights, `Environment`, `Stars`, `EffectComposer`, and the child scene components (foliage, lights, snow, star).
- The canvas textures (`generatePrizeBackTexture`, `generateSignatureTexture`) are left out; the caption's existence is a boolean input.
- Texture and image loading (`useLoader`, `UserPhotoOrnament`, `ActualPrizeRenderer`) is left out; image sizes enter as `ImageSize`.
- Browser I/O is left out: file inputs, `URL.createObjectURL`/`revokeObjectURL`, `alert`, hand detection in `GestureController`, and registering and unregistering the wheel listener.
- `UploadParticipants` collapses the 50/1200/800 ms timers of `handleFileChange` into their settled outcome. The intermediate `isProcessing` overlay and the temporary mix of 0 are not states of the model, nor are events that interleave with those timers.
- The `showCamera` switch and the `colors`/`signatureText` state are left out: they only feed rendering.
- three.js `lookAt`, `rotateY` and Euler maths are left out. A photo card's orientation is the tag `Billboard`/`Outward`/`Identity`, and the camera's orientation is the point it looks at.
- The ref null checks (`groupRef.current`, `innerRef.current`, `meshRef.current`) are left out. The model describes mounted components.
- Uploading bauble colours into the instance buffer (`useLayoutEffect`, components/Ornaments.tsx:235-240) is rendering. The colours themselves are the records' `color` field.
- `randomVector3` comes from the math utilities, which are not part of this model. Chaos positions are opaque oracle values, so no bound on them is stated.
- `Layout.TargetHeights`, `Layout.ProgressBounds` and `Layout.ProgressMonotone` hold only for a `Math.sqrt` satisfying `SqrtLaws`. `Layout.TargetsOnCone` holds only for trig satisfying `TrigLaws`. The real functions are not defined in the model.
- No claim is made that distinct indices get distinct target positions. That depends on the golden angle's irrationality and on exact trig.
- `Poses.ApproachNeverOvershoots` and `Poses.ApproachConvergesMonotonically` promise no overshoot only for frame times with 2.5·delta ≤ 1. `Poses.WinnerOverride` promises it only when 5·delta ≤ 1 for position and scale, and 7.5·delta ≤ 1 for the flip; its step equations hold for every frame time. The code does not clamp `delta` there, and longer frames can overshoot.
- `Pi` is the shortest decimal that reads back as the double `Math.PI`, not that double's exact value; all arithmetic is exact over `real`. Floating-point rounding is not modelled.
- `LuckyDraw.Enabled` models pointer input only. The side panel's `pointer-events-none` (App.tsx:139) does not stop the keyboard. A button that keeps focus can start a draw or open an upload outside IDLE. A new upload during WINNER can leave the winner index past the end of the participant list. `Inv` and the lemmas built on it hold only for the pointer guards. The handlers themselves are modelled for every phase, and the pending queue is kept for the unguarded case.
