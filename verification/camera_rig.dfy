/** The camera rig and whole-formation yaw controller of the scene
    (`SceneController` in components/Experience.tsx).

    The refs the component keeps across frames (zoom target, idle rotation
    velocity, smoothed pointer) together with the camera position and the
    formation group's yaw form one record, `Rig`. A wheel event and a frame
    callback each become a pure step over that record. The camera's
    `lookAt` is reported as the point it looks at. */
module CameraRig {
  import opened Common
  import LuckyDraw

  /** The four mutually exclusive yaw behaviours, in priority order. */
  datatype Mode = Spin | Settle | Follow | IdleSpin

  datatype Rig = Rig(
    zoom: real,              // `zoomTarget`
    smoothX: real,           // `currentInput.x`
    smoothY: real,           // `currentInput.y`
    camera: Vec3,            // `camera.position`
    yaw: real,               // the formation group's `rotation.y`
    rotationVelocity: real)  // `rotationVelocity`

  /** What one frame produces: the next rig, the yaw behaviour it ran and
      the point the camera was turned toward. */
  datatype FrameResult = FrameResult(rig: Rig, mode: Mode, lookAt: Vec3)

  const InitialZoom: real := 32.0
  const MinZoom: real := 12.0
  const MaxZoom: real := 55.0
  const WheelGain: real := 0.02
  const MaxFrameDelta: real := 0.1
  const InputRate: real := 4.0
  const CameraGainX: real := 4.0
  const CameraGainY: real := 2.0
  const SpinRate: real := 7.5
  const SettleRate: real := 2.0
  const FollowRate: real := 6.0
  const IdleVelocity: real := 0.002

  /** The canvas mounts its camera at (0, 0, 32); the group starts unrotated. */
  const Initial: Rig := Rig(InitialZoom, 0.0, 0.0, Vec3(0.0, 0.0, InitialZoom), 0.0, IdleVelocity)

  /** What every reachable rig satisfies. */
  predicate RigInv(r: Rig) {
    && MinZoom <= r.zoom <= MaxZoom
    && r.rotationVelocity == IdleVelocity
  }

  // ---------------------------------------------------------------------
  // Zoom
  // ---------------------------------------------------------------------

  /** The wheel listener: the zoom target moves by 0.02 per wheel unit and is
      clamped to [12, 55]; nothing else changes. */
  function Wheel(r: Rig, deltaY: real): (r': Rig)
    ensures MinZoom <= r'.zoom <= MaxZoom
    ensures var z := r.zoom + deltaY * WheelGain;
      && (MinZoom <= z <= MaxZoom ==> r'.zoom == z)
      && (z < MinZoom ==> r'.zoom == MinZoom)
      && (MaxZoom < z ==> r'.zoom == MaxZoom)
    ensures r'.(zoom := r.zoom) == r
  {
    r.(zoom := Clamp(r.zoom + deltaY * WheelGain, MinZoom, MaxZoom))
  }

  function WheelAll(r: Rig, deltas: seq<real>): Rig
    decreases |deltas|
  {
    if deltas == [] then r else WheelAll(Wheel(r, deltas[0]), deltas[1..])
  }

  /** Any sequence of wheel events, of any sign or size, keeps a zoom that
      started in range in range, and leaves the rest of the rig alone. */
  lemma {:induction false} WheelAllKeepsZoomInRange(r: Rig, deltas: seq<real>)
    requires MinZoom <= r.zoom <= MaxZoom
    ensures MinZoom <= WheelAll(r, deltas).zoom <= MaxZoom
    ensures WheelAll(r, deltas).(zoom := r.zoom) == r
    decreases |deltas|
  {
    if deltas != [] {
      WheelAllKeepsZoomInRange(Wheel(r, deltas[0]), deltas[1..]);
    }
  }

  /** From the mounted state the zoom never leaves [12, 55]. */
  lemma ZoomFromMountStaysInRange(deltas: seq<real>)
    ensures MinZoom <= WheelAll(Initial, deltas).zoom <= MaxZoom
  {
    WheelAllKeepsZoomInRange(Initial, deltas);
  }

  // ---------------------------------------------------------------------
  // One frame
  // ---------------------------------------------------------------------

  /** `Math.min(delta, 0.1)`: the frame time used by every easing factor. */
  function SafeDelta(delta: real): (d: real)
    ensures d <= MaxFrameDelta && d <= delta
    ensures d == delta || d == MaxFrameDelta
  {
    MinReal(delta, MaxFrameDelta)
  }

  /** Yaw behaviour for the frame, in fixed priority: a running pick spins,
      a shown result settles, a detected hand steers, otherwise idle spin. */
  function SelectMode(phase: LuckyDraw.Phase, handDetected: bool): (m: Mode)
    ensures m == Spin <==> phase.Picking?
    ensures m == Settle <==> phase.Winner? || phase.Revealed?
    ensures m == Follow <==> phase.Idle? && handDetected
    ensures m == IdleSpin <==> phase.Idle? && !handDetected
  {
    if phase.Picking? then Spin
    else if phase.Winner? || phase.Revealed? then Settle
    else if handDetected then Follow
    else IdleSpin
  }

  /** `Math.round`: halves round toward positive infinity. */
  function Round(x: real): (k: int)
    ensures k as real - 0.5 <= x < k as real + 0.5
  {
    (x + 0.5).Floor
  }

  /** `round(yaw / 2π) · 2π`: the whole turn the settle mode eases toward. */
  function SettleTarget(yaw: real): real {
    Round(yaw / TwoPi) as real * TwoPi
  }

  /** `a` is an integer number of full turns. */
  predicate IsWholeTurns(a: real) {
    (a / TwoPi).Floor as real == a / TwoPi
  }

  /** Whole turns divided by a full turn give back the turn count. */
  lemma TurnsRoundTrip(k: int)
    ensures (k as real * TwoPi) / TwoPi == k as real
  {
  }

  /** Less than half a turn either way is less than π either way. */
  lemma HalfTurnBound(d: real)
    requires -0.5 < d <= 0.5
    ensures -Pi < d * TwoPi <= Pi
  {
  }

  /** The settle target is a whole number of turns and lies within half a
      turn of the current yaw. */
  lemma SettleTargetIsNearestTurn(yaw: real)
    ensures IsWholeTurns(SettleTarget(yaw))
    ensures -Pi < SettleTarget(yaw) - yaw <= Pi
  {
    var q := yaw / TwoPi;
    var k := Round(q);
    var d := k as real - q;
    assert SettleTarget(yaw) == k as real * TwoPi;
    TurnsRoundTrip(k);
    assert yaw == q * TwoPi;
    assert SettleTarget(yaw) - yaw == d * TwoPi;
    HalfTurnBound(d);
  }

  /** One frame callback. The pointer is smoothed at rate 4 per second of
      clamped frame time; the camera eases toward the smoothed pointer
      scaled (4, 2) at the zoom depth and looks at the origin; then exactly
      one yaw behaviour runs. The spin uses the raw frame time. */
  function Frame(r: Rig, input: LuckyDraw.HandInput, phase: LuckyDraw.Phase, delta: real): FrameResult {
    var safeDelta := SafeDelta(delta);
    var sx := Lerp(r.smoothX, input.x, InputRate * safeDelta);
    var sy := Lerp(r.smoothY, input.y, InputRate * safeDelta);
    var goal := Vec3(sx * CameraGainX, sy * CameraGainY, r.zoom);
    var camera := LerpVec(r.camera, goal, InputRate * safeDelta);
    var mode := SelectMode(phase, input.isDetected);
    var yaw :=
      match mode
      case Spin => r.yaw + delta * SpinRate
      case Settle => Lerp(r.yaw, SettleTarget(r.yaw), safeDelta * SettleRate)
      case Follow => Lerp(r.yaw, input.x * Pi, FollowRate * safeDelta)
      case IdleSpin => r.yaw + r.rotationVelocity;
    var velocity := if mode == Spin then IdleVelocity else r.rotationVelocity;
    FrameResult(Rig(r.zoom, sx, sy, camera, yaw, velocity), mode, Origin)
  }

  /** For a non-negative frame time every easing factor is a proper
      interpolation factor: 4·d ≤ 0.4, 2·d ≤ 0.2 and 6·d ≤ 0.6. */
  lemma EasingFactorsBounded(delta: real)
    requires 0.0 <= delta
    ensures 0.0 <= InputRate * SafeDelta(delta) <= 0.4
    ensures 0.0 <= SafeDelta(delta) * SettleRate <= 0.2
    ensures 0.0 <= FollowRate * SafeDelta(delta) <= 0.6
  {
  }

  /** The pointer half of a frame: each smoothed coordinate keeps the
      fraction 1 - 4·d of its distance to the live pointer (d the clamped
      frame time), so it ends between its old value and the live pointer. */
  lemma FramePointerStep(r: Rig, input: LuckyDraw.HandInput, phase: LuckyDraw.Phase, delta: real)
    requires 0.0 <= delta
    ensures var f := Frame(r, input, phase, delta);
      && Eased(r.smoothX, f.rig.smoothX, input.x, InputRate * SafeDelta(delta))
      && Eased(r.smoothY, f.rig.smoothY, input.y, InputRate * SafeDelta(delta))
  {
    var t := InputRate * SafeDelta(delta);
    EasingFactorsBounded(delta);
    Ease(r.smoothX, input.x, t);
    Ease(r.smoothY, input.y, t);
  }

  /** The camera half of a frame, one axis at a time: the camera keeps the
      fraction 1 - 4·d of its distance to its goal on that axis. */
  lemma FrameCameraAxis(a: real, goal: real, delta: real)
    requires 0.0 <= delta
    ensures Eased(a, Lerp(a, goal, InputRate * SafeDelta(delta)), goal, InputRate * SafeDelta(delta))
  {
    EasingFactorsBounded(delta);
    Ease(a, goal, InputRate * SafeDelta(delta));
  }

  /** The camera half of a frame: on each axis the camera keeps the
      fraction 1 - 4·d of its distance to the point (4·x̃, 2·ỹ, zoom) built
      from the freshly smoothed pointer (d the clamped frame time), so it
      moves toward that point without passing it; it looks at the origin
      and the zoom is untouched. */
  lemma FrameCameraStep(r: Rig, input: LuckyDraw.HandInput, phase: LuckyDraw.Phase, delta: real)
    requires 0.0 <= delta
    ensures var f := Frame(r, input, phase, delta);
      && var goal := Vec3(f.rig.smoothX * CameraGainX, f.rig.smoothY * CameraGainY, r.zoom);
      && Eased(r.camera.x, f.rig.camera.x, goal.x, InputRate * SafeDelta(delta))
      && Eased(r.camera.y, f.rig.camera.y, goal.y, InputRate * SafeDelta(delta))
      && Eased(r.camera.z, f.rig.camera.z, goal.z, InputRate * SafeDelta(delta))
      && f.lookAt == Origin
      && f.rig.zoom == r.zoom
  {
    var f := Frame(r, input, phase, delta);
    var goal := Vec3(f.rig.smoothX * CameraGainX, f.rig.smoothY * CameraGainY, r.zoom);
    assert f.rig.camera == LerpVec(r.camera, goal, InputRate * SafeDelta(delta));
    FrameCameraAxis(r.camera.x, goal.x, delta);
    FrameCameraAxis(r.camera.y, goal.y, delta);
    FrameCameraAxis(r.camera.z, goal.z, delta);
  }

  /** While a pick runs the formation spins by 7.5 rad per second of raw
      (unclamped) frame time and the idle velocity is reset. */
  lemma PickingSpins(r: Rig, input: LuckyDraw.HandInput, delta: real)
    ensures var f := Frame(r, input, LuckyDraw.Picking, delta);
      && f.mode == Spin
      && f.rig.yaw - r.yaw == SpinRate * delta
      && f.rig.rotationVelocity == IdleVelocity
  {
  }

  /** While a result is shown the yaw eases toward the nearest whole turn,
      keeping the fraction 1 - 2·d of its distance to it (d the clamped
      frame time): it moves toward that turn without passing it, regardless
      of the hand. */
  lemma ResultSettles(r: Rig, input: LuckyDraw.HandInput, phase: LuckyDraw.Phase, delta: real)
    requires phase == LuckyDraw.Winner || phase == LuckyDraw.Revealed
    requires 0.0 <= delta
    ensures var f := Frame(r, input, phase, delta);
      && f.mode == Settle
      && f.rig.yaw - SettleTarget(r.yaw) == (r.yaw - SettleTarget(r.yaw)) * (1.0 - SafeDelta(delta) * SettleRate)
      && Between(r.yaw, f.rig.yaw, SettleTarget(r.yaw))
      && Abs(f.rig.yaw - SettleTarget(r.yaw)) <= Pi
      && f.rig.rotationVelocity == r.rotationVelocity
  {
    var t := SafeDelta(delta) * SettleRate;
    EasingFactorsBounded(delta);
    LerpBetween(r.yaw, SettleTarget(r.yaw), t);
    LerpContracts(r.yaw, SettleTarget(r.yaw), t);
    SettleTargetIsNearestTurn(r.yaw);
  }

  /** With no draw running and a hand detected, the yaw eases toward the
      raw (unsmoothed) pointer x times π, keeping the fraction 1 - 6·d of
      its distance to it. */
  lemma HandSteers(r: Rig, input: LuckyDraw.HandInput, delta: real)
    requires input.isDetected
    requires 0.0 <= delta
    ensures var f := Frame(r, input, LuckyDraw.Idle, delta);
      && f.mode == Follow
      && f.rig.yaw - input.x * Pi == (r.yaw - input.x * Pi) * (1.0 - FollowRate * SafeDelta(delta))
      && Between(r.yaw, f.rig.yaw, input.x * Pi)
      && Abs(f.rig.yaw - input.x * Pi) <= Abs(r.yaw - input.x * Pi)
  {
    var t := FollowRate * SafeDelta(delta);
    EasingFactorsBounded(delta);
    LerpBetween(r.yaw, input.x * Pi, t);
    LerpContracts(r.yaw, input.x * Pi, t);
  }

  /** With no draw running and no hand, a reachable rig's yaw strictly
      increases every frame, by exactly the idle velocity. */
  lemma IdleSpinIncreases(r: Rig, input: LuckyDraw.HandInput, delta: real)
    requires RigInv(r)
    requires !input.isDetected
    ensures var f := Frame(r, input, LuckyDraw.Idle, delta);
      && f.mode == IdleSpin
      && f.rig.yaw == r.yaw + IdleVelocity
      && f.rig.yaw > r.yaw
  {
  }

  // ---------------------------------------------------------------------
  // Event sequences
  // ---------------------------------------------------------------------

  datatype RigEvent =
    | WheelEvent(deltaY: real)
    | FrameEvent(input: LuckyDraw.HandInput, phase: LuckyDraw.Phase, delta: real)

  function RigStep(r: Rig, e: RigEvent): Rig {
    match e
    case WheelEvent(d) => Wheel(r, d)
    case FrameEvent(input, phase, delta) => Frame(r, input, phase, delta).rig
  }

  function RigRun(r: Rig, events: seq<RigEvent>): Rig
    decreases |events|
  {
    if events == [] then r else RigRun(RigStep(r, events[0]), events[1..])
  }

  /** Neither wheel events nor frames take the zoom out of range or change
      the idle velocity. */
  lemma RigStepPreservesInv(r: Rig, e: RigEvent)
    requires RigInv(r)
    ensures RigInv(RigStep(r, e))
  {
  }

  /** Any sequence of wheel events and frames keeps the invariant. */
  lemma {:induction false} RigRunPreservesInv(r: Rig, events: seq<RigEvent>)
    requires RigInv(r)
    ensures RigInv(RigRun(r, events))
    decreases |events|
  {
    if events != [] {
      RigStepPreservesInv(r, events[0]);
      RigRunPreservesInv(RigStep(r, events[0]), events[1..]);
    }
  }

  /** Every rig reachable from mount has its zoom in [12, 55] and idle
      velocity 0.002, so idle frames always turn the formation forward. */
  lemma ReachableRigs(events: seq<RigEvent>)
    ensures var r := RigRun(Initial, events);
      && MinZoom <= r.zoom <= MaxZoom
      && r.rotationVelocity == IdleVelocity
  {
    RigRunPreservesInv(Initial, events);
  }
}
