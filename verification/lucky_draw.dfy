/** The lucky-draw protocol and the formation-control setters of the
    top-level application component (App.tsx).

    The component's React state becomes one immutable record, `App`; every
    handler becomes a pure function from record to record. The 3000 ms
    `setTimeout` of `startLuckyDraw` becomes an explicit pending-timer value
    and a `TimerFires` event that runs the scheduled callback; `Math.random`
    samples arrive as the event's parameters. Every call of `startLuckyDraw`
    schedules one more callback and nothing ever clears one before it runs,
    so the pending callbacks form a queue; all share the same delay, so they
    run in the order they were scheduled. The button panel, the reveal
    button and the reset button only take pointer input in one phase each;
    those guards are the `Enabled` predicate, and a click on a hidden button
    does nothing. */
module LuckyDraw {
  import opened Common

  /** `LuckyDrawStatus`. */
  datatype Phase = Idle | Picking | Winner | Revealed

  /** An object URL of an uploaded image; opaque to the model. */
  type Image = string

  /** The pointing-signal record the app shares with the camera rig through
      `inputRef`. */
  datatype HandInput = HandInput(x: real, y: real, isDetected: bool)

  /** One sample of the hand-gesture source (`HandGesture`). */
  datatype HandGesture = HandGesture(isDetected: bool, isOpen: bool, x: real, y: real)

  /** A callback scheduled by `startLuckyDraw`. A closure captures the
      participant and prize lists of the render in which the draw started,
      so those are what it samples from when it fires. */
  datatype DrawTimer = DrawTimer(participants: seq<Image>, prizes: seq<Image>)

  datatype App = App(
    targetMix: real,
    input: HandInput,
    userImages: seq<Image>,
    prizeImages: seq<Image>,
    gestureEnabled: bool,
    phase: Phase,
    winnerIndex: Option<nat>,
    currentPrize: Option<Image>,
    pending: seq<DrawTimer>)

  /** At most this many participant photos are kept from one upload. */
  const MaxUploads: nat := 30

  /** Gain applied to the hand's x coordinate before it is published. */
  const HandXGain: real := 1.2

  /** State of a freshly mounted app: the formation fully formed, no hand,
      no images, gestures enabled, no draw in progress. */
  const Initial: App :=
    App(1.0, HandInput(0.0, 0.0, false), [], [], true, Idle, None, None, [])

  predicate IsBinary(m: real) {
    m == 0.0 || m == 1.0
  }

  // ---------------------------------------------------------------------
  // Handlers
  // ---------------------------------------------------------------------

  /** `handleGesture`: ignored while gestures are disabled; a detected hand
      requests scatter (0) when open and formation (1) when closed and
      publishes its position with x amplified; a lost hand only clears the
      detection flag. */
  function HandleGesture(s: App, g: HandGesture): (r: App)
    ensures !s.gestureEnabled ==> r == s
    ensures s.gestureEnabled && g.isDetected ==>
      && r.targetMix == (if g.isOpen then 0.0 else 1.0)
      && r.input == HandInput(g.x * HandXGain, g.y, true)
      && r.(targetMix := s.targetMix, input := s.input) == s
    ensures s.gestureEnabled && !g.isDetected ==>
      && !r.input.isDetected
      && r.input.x == s.input.x && r.input.y == s.input.y
      && r.(input := s.input) == s
  {
    if !s.gestureEnabled then s
    else if g.isDetected then
      var newTarget := if g.isOpen then 0.0 else 1.0;
      s.(targetMix := if s.targetMix != newTarget then newTarget else s.targetMix,
         input := HandInput(g.x * HandXGain, g.y, true))
    else
      s.(input := s.input.(isDetected := false))
  }

  /** `startLuckyDraw`: refused without participants (the alert path);
      otherwise enters PICKING, forgets the previous winner, scatters the
      formation and schedules one more winner-picking callback behind any
      still pending. The previous prize is not cleared here. */
  function StartLuckyDraw(s: App): (r: App)
    ensures |s.userImages| == 0 ==> r == s
    ensures |s.userImages| > 0 ==>
      && r.phase == Picking
      && r.winnerIndex == None
      && r.targetMix == 0.0
      && |r.pending| == |s.pending| + 1
      && r.pending[..|s.pending|] == s.pending
      && r.pending[|s.pending|] == DrawTimer(s.userImages, s.prizeImages)
      && r.(phase := s.phase, winnerIndex := s.winnerIndex,
            targetMix := s.targetMix, pending := s.pending) == s
  {
    if |s.userImages| == 0 then s
    else
      s.(phase := Picking, winnerIndex := None, targetMix := 0.0,
         pending := s.pending + [DrawTimer(s.userImages, s.prizeImages)])
  }

  /** `Math.floor(r * n)` for a `Math.random()` sample `r`: a valid index
      of any non-empty list of length `n`. */
  function PickIndex(r: real, n: nat): (k: nat)
    requires 0.0 <= r < 1.0
    ensures k as real <= r * n as real < k as real + 1.0
    ensures n > 0 ==> k < n
    ensures n == 0 ==> k == 0
  {
    var x := r * n as real;
    ScaleByUnit(n as real, r);
    assert n > 0 ==> x < n as real by {
      if n > 0 {
        var gap := 1.0 - r;
        assert n as real - x == gap * n as real;
        PositiveProduct(gap, n as real);
      }
    }
    x.Floor
  }

  /** The oldest pending callback, run when its timer fires and removed
      from the queue. It samples a winner among the participants it
      captured and a prize from the pool it captured (none when the pool is
      empty) and enters WINNER. As written it does not look at the current
      phase. */
  function FireTimer(s: App, r1: real, r2: real): (r: App)
    requires |s.pending| > 0
    requires 0.0 <= r1 < 1.0 && 0.0 <= r2 < 1.0
    ensures var t := s.pending[0];
      && r.phase == Winner
      && r.winnerIndex == Some(PickIndex(r1, |t.participants|))
      && (|t.participants| > 0 ==> r.winnerIndex.value < |t.participants|)
      && (r.currentPrize.None? <==> |t.prizes| == 0)
      && (|t.prizes| > 0 ==> r.currentPrize == Some(t.prizes[PickIndex(r2, |t.prizes|)]))
      && (r.currentPrize.Some? ==> r.currentPrize.value in t.prizes)
    ensures r.pending == s.pending[1..]
    ensures r.(phase := s.phase, winnerIndex := s.winnerIndex,
               currentPrize := s.currentPrize, pending := s.pending) == s
  {
    var t := s.pending[0];
    var randIdx := PickIndex(r1, |t.participants|);
    var randPrize :=
      if |t.prizes| > 0 then Some(t.prizes[PickIndex(r2, |t.prizes|)]) else None;
    s.(winnerIndex := Some(randIdx), currentPrize := randPrize, phase := Winner,
       pending := s.pending[1..])
  }

  /** `revealPrize`: only the phase changes. */
  function RevealPrize(s: App): (r: App)
    ensures r.phase == Revealed
    ensures r.(phase := s.phase) == s
  {
    s.(phase := Revealed)
  }

  /** `resetLuckyDraw`: back to IDLE with winner and prize cleared and the
      formation re-formed. It cancels nothing: a pending timer survives. */
  function ResetLuckyDraw(s: App): (r: App)
    ensures r.phase == Idle && r.winnerIndex == None && r.currentPrize == None
    ensures r.targetMix == 1.0
    ensures r.pending == s.pending
    ensures r.(phase := s.phase, winnerIndex := s.winnerIndex,
               currentPrize := s.currentPrize, targetMix := s.targetMix) == s
  {
    s.(phase := Idle, winnerIndex := None, currentPrize := None, targetMix := 1.0)
  }

  /** The manual scatter/form button: 1 becomes 0, anything else becomes 1. */
  function ToggleMix(s: App): (r: App)
    ensures IsBinary(r.targetMix)
    ensures s.targetMix == 1.0 ==> r.targetMix == 0.0
    ensures s.targetMix != 1.0 ==> r.targetMix == 1.0
    ensures r.(targetMix := s.targetMix) == s
  {
    s.(targetMix := if s.targetMix == 1.0 then 0.0 else 1.0)
  }

  /** The gesture on/off button. */
  function ToggleGestures(s: App): (r: App)
    ensures r.gestureEnabled != s.gestureEnabled
    ensures r.(gestureEnabled := s.gestureEnabled) == s
  {
    s.(gestureEnabled := !s.gestureEnabled)
  }

  /** The first `MaxUploads` files of a selection, in selection order. */
  function KeepFirst(files: seq<Image>): (kept: seq<Image>)
    ensures |kept| <= MaxUploads
    ensures |kept| == |files| || |kept| == MaxUploads
    ensures |files| <= MaxUploads ==> kept == files
    ensures forall i :: 0 <= i < |kept| ==> kept[i] == files[i]
  {
    if |files| <= MaxUploads then files else files[..MaxUploads]
  }

  /** `handleFileChange`, at the point where its timers have settled: an
      empty selection does nothing; otherwise the participant list is
      replaced by the first 30 files and the formation ends re-formed. */
  function UploadParticipants(s: App, files: seq<Image>): (r: App)
    ensures |files| == 0 ==> r == s
    ensures |files| > 0 ==>
      && r.userImages == KeepFirst(files)
      && r.targetMix == 1.0
      && r.(userImages := s.userImages, targetMix := s.targetMix) == s
    ensures |r.userImages| <= MaxUploads || r.userImages == s.userImages
  {
    if |files| == 0 then s
    else s.(userImages := KeepFirst(files), targetMix := 1.0)
  }

  /** `handlePrizeChange`: a non-empty selection replaces the prize pool
      (no cap). */
  function UploadPrizes(s: App, files: seq<Image>): (r: App)
    ensures |files| == 0 ==> r == s
    ensures |files| > 0 ==> r.prizeImages == files && r.(prizeImages := s.prizeImages) == s
  {
    if |files| == 0 then s else s.(prizeImages := files)
  }

  // ---------------------------------------------------------------------
  // The guarded state machine
  // ---------------------------------------------------------------------

  datatype Event =
    | StartDraw
    | TimerFires(r1: real, r2: real)
    | Reveal
    | Reset
    | ToggleMixButton
    | ToggleGestureButton
    | Gesture(g: HandGesture)
    | UploadPhotos(files: seq<Image>)
    | UploadPrizePool(files: seq<Image>)

  /** When an event can reach its handler by pointer. The side panel
      (start, uploads, mix toggle, gesture toggle) ignores pointer events
      outside IDLE; the reveal button exists only in WINNER and the reset
      button only in REVEALED; a timer fires only if one is pending, with
      `Math.random` samples in [0, 1). Gesture samples arrive in every
      phase. */
  predicate Enabled(s: App, e: Event) {
    match e
    case StartDraw => s.phase == Idle
    case ToggleMixButton => s.phase == Idle
    case ToggleGestureButton => s.phase == Idle
    case UploadPhotos(_) => s.phase == Idle
    case UploadPrizePool(_) => s.phase == Idle
    case Reveal => s.phase == Winner
    case Reset => s.phase == Revealed
    case TimerFires(r1, r2) => |s.pending| > 0 && 0.0 <= r1 < 1.0 && 0.0 <= r2 < 1.0
    case Gesture(_) => true
  }

  /** One event; an event that cannot reach its handler leaves the state
      as it is. */
  function Step(s: App, e: Event): App {
    if !Enabled(s, e) then s
    else
      match e
      case StartDraw => StartLuckyDraw(s)
      case TimerFires(r1, r2) => FireTimer(s, r1, r2)
      case Reveal => RevealPrize(s)
      case Reset => ResetLuckyDraw(s)
      case ToggleMixButton => ToggleMix(s)
      case ToggleGestureButton => ToggleGestures(s)
      case Gesture(g) => HandleGesture(s, g)
      case UploadPhotos(files) => UploadParticipants(s, files)
      case UploadPrizePool(files) => UploadPrizes(s, files)
  }

  function Run(s: App, events: seq<Event>): App
    decreases |events|
  {
    if events == [] then s else Run(Step(s, events[0]), events[1..])
  }

  /** What holds in every state the guarded app can reach. */
  predicate Inv(s: App) {
    // the formation control value is always fully scattered or fully formed
    && IsBinary(s.targetMix)
    // a winner is recorded exactly in the two result phases
    && (s.winnerIndex.None? <==> s.phase == Idle || s.phase == Picking)
    // at most one draw timer is pending, exactly while picking, over the
    // current lists
    && |s.pending| <= 1
    && (|s.pending| == 1 <==> s.phase == Picking)
    && (|s.pending| == 1 ==>
          s.pending[0] == DrawTimer(s.userImages, s.prizeImages) && |s.userImages| > 0)
    // the winner is one of the participants
    && (s.winnerIndex.Some? ==> s.winnerIndex.value < |s.userImages|)
    // a prize is recorded only for a winner, and it comes from the pool
    && (s.currentPrize.Some? ==>
          (s.phase == Winner || s.phase == Revealed) && s.currentPrize.value in s.prizeImages)
    && ((s.phase == Winner || s.phase == Revealed) ==>
          (s.currentPrize.None? <==> |s.prizeImages| == 0))
  }

  lemma InitialInv()
    ensures Inv(Initial)
  {
  }

  lemma StepPreservesInv(s: App, e: Event)
    requires Inv(s)
    ensures Inv(Step(s, e))
  {
  }

  /** Every state reached from the initial one by any event sequence
      satisfies the invariant. */
  lemma {:induction false} RunPreservesInv(s: App, events: seq<Event>)
    requires Inv(s)
    ensures Inv(Run(s, events))
    decreases |events|
  {
    if events != [] {
      StepPreservesInv(s, events[0]);
      RunPreservesInv(Step(s, events[0]), events[1..]);
    }
  }

  /** The phase/winner coupling and the binary control value, for every
      reachable state. */
  lemma ReachableStates(events: seq<Event>)
    ensures var s := Run(Initial, events);
      && IsBinary(s.targetMix)
      && (s.winnerIndex.None? <==> s.phase == Idle || s.phase == Picking)
      && (s.winnerIndex.Some? ==> s.winnerIndex.value < |s.userImages|)
  {
    InitialInv();
    RunPreservesInv(Initial, events);
  }

  /** Starting without participants is refused and changes nothing, even
      through the guarded machine. */
  lemma StartWithoutParticipantsIsNoOp(s: App)
    requires |s.userImages| == 0
    ensures Step(s, StartDraw) == s
  {
  }

  /** Toggling twice restores a binary control value. */
  lemma ToggleMixInvolution(s: App)
    requires IsBinary(s.targetMix)
    ensures ToggleMix(ToggleMix(s)) == s
  {
  }

  /** The handler code has no cancellation: without the UI guards, a reset
      during PICKING followed by the timer still produces a winner. */
  lemma UnguardedResetDoesNotCancel(s: App, r1: real, r2: real)
    requires |s.userImages| > 0
    requires 0.0 <= r1 < 1.0 && 0.0 <= r2 < 1.0
    ensures var reset := ResetLuckyDraw(StartLuckyDraw(s));
      && reset.phase == Idle
      && |reset.pending| > 0
      && FireTimer(reset, r1, r2).phase == Winner
  {
  }

  /** Without the UI guards, starting twice schedules two callbacks, and
      after the first has fired the second is still pending: the app
      announces a winner twice. */
  lemma UnguardedRestartFiresTwice(s: App, r1: real, r2: real)
    requires |s.userImages| > 0 && s.pending == []
    requires 0.0 <= r1 < 1.0 && 0.0 <= r2 < 1.0
    ensures var twice := StartLuckyDraw(StartLuckyDraw(s));
      && |twice.pending| == 2
      && var once := FireTimer(twice, r1, r2);
      && once.phase == Winner
      && |once.pending| == 1
      && FireTimer(once, r1, r2).phase == Winner
  {
  }

  /** Without the panel guard, a shorter participant upload while a winner
      is shown leaves the winner index past the end of the new list. */
  lemma UnguardedUploadOrphansWinner(s: App, files: seq<Image>)
    requires Inv(s) && s.phase == Winner
    requires 0 < |files| <= s.winnerIndex.value
    ensures var r := UploadParticipants(s, files);
      && r.phase == Winner
      && r.winnerIndex.value >= |r.userImages|
      && !Inv(r)
  {
  }

  /** With the guards, the reset button is reachable only when no timer is
      pending, so a stale callback can never fire after a reset. */
  lemma GuardedResetLeavesNoTimer(s: App)
    requires Inv(s)
    requires Enabled(s, Reset)
    ensures Step(s, Reset).pending == []
    ensures Step(s, Reset).phase == Idle
  {
  }

  /** A full round with five participants and two prizes: start, let the
      timer fire, reveal, reset. */
  lemma FiveParticipantsTwoPrizes(a: Image, b: Image, c: Image, d: Image, e: Image,
                                  p0: Image, p1: Image, r1: real, r2: real)
    requires 0.0 <= r1 < 1.0 && 0.0 <= r2 < 1.0
    ensures var s0 := Initial.(userImages := [a, b, c, d, e], prizeImages := [p0, p1]);
      var s1 := Step(s0, StartDraw);
      var s2 := Step(s1, TimerFires(r1, r2));
      var s3 := Step(s2, Reveal);
      var s4 := Step(s3, Reset);
      && s1.phase == Picking && s1.targetMix == 0.0
      && s2.phase == Winner
      && s2.winnerIndex.Some? && s2.winnerIndex.value < 5
      && (s2.currentPrize == Some(p0) || s2.currentPrize == Some(p1))
      && s3.phase == Revealed && s3.winnerIndex == s2.winnerIndex
      && s4.phase == Idle && s4.winnerIndex == None && s4.currentPrize == None
      && s4.targetMix == 1.0
  {
  }
}
