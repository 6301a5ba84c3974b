/** Per-frame pose rules of the ornaments (components/Ornaments.tsx): the
    photo card's lagging approach value, chaos/target blend, facing switch
    and lucky-draw override (`PhotoFrameMesh`), the unsmoothed blends of
    gift boxes (`GiftBoxMesh`) and baubles (the instanced `useFrame`), the
    card's frame geometry, and which photo cards are rendered and which
    of them is the winner.

    three.js `lookAt`/`rotateY` maths is abstracted to a facing tag. */
module Poses {
  import opened Common
  import LuckyDraw
  import Layout

  /** The outer orientation a photo card ends a frame with: turned toward
      the camera, turned away from the trunk, or reset to no rotation. */
  datatype Facing = Billboard | Outward | Identity

  /** What a photo card carries from frame to frame: its approach value
      (`currentMixRef`), the outer group's position, uniform scale and
      facing, and the inner group's flip angle about y. */
  datatype PhotoPose = PhotoPose(approach: real, position: Vec3, scale: real, facing: Facing, flip: real)

  const ApproachRate: real := 2.5
  const OutwardThreshold: real := 0.8
  const StagePoint: Vec3 := Vec3(0.0, 0.0, 22.0)
  const StageScale: real := 9.0

  /** A card mounts unmoved, unscaled and unrotated, fully formed. */
  const InitialPhotoPose: PhotoPose := PhotoPose(1.0, Origin, 1.0, Identity, 0.0)

  /** The winner override applies to the winner card while a result shows. */
  predicate InOverride(isWinner: bool, phase: LuckyDraw.Phase) {
    isWinner && (phase.Winner? || phase.Revealed?)
  }

  /** The card shows its back (the prize) once revealed. */
  function FlipTarget(phase: LuckyDraw.Phase): real {
    if phase.Revealed? then Pi else 0.0
  }

  /** One frame of a photo card. The approach value always moves toward the
      control value at 2.5 per second of raw frame time. The winner card,
      while a result shows, eases to the stage point at 9x scale at twice
      that rate, drops its orientation, and flips toward its target at
      three times that rate. Every other card takes the chaos/target
      blend at its approach value, faces outward above 0.8 and the camera
      otherwise, and flips back toward 0. */
  function PhotoFrame(item: Layout.Ornament, pose: PhotoPose, mix: real, delta: real,
                      isWinner: bool, phase: LuckyDraw.Phase): PhotoPose
  {
    var speed := ApproachRate * delta;
    var t := Lerp(pose.approach, mix, speed);
    if InOverride(isWinner, phase) then
      PhotoPose(t,
                LerpVec(pose.position, StagePoint, speed * 2.0),
                Lerp(pose.scale, StageScale, speed * 2.0),
                Identity,
                Lerp(pose.flip, FlipTarget(phase), speed * 3.0))
    else
      PhotoPose(t,
                LerpVec(item.chaosPos, item.targetPos, t),
                Lerp(item.chaosScale, item.targetScale, t),
                if t > OutwardThreshold then Outward else Billboard,
                Lerp(pose.flip, 0.0, speed))
  }

  /** The approach value is updated in every frame, override or not, and
      whatever the frame time: it keeps exactly the fraction 1 - 2.5·delta
      of its distance to the control value. */
  lemma ApproachStep(item: Layout.Ornament, pose: PhotoPose, mix: real, delta: real,
                     isWinner: bool, phase: LuckyDraw.Phase)
    ensures PhotoFrame(item, pose, mix, delta, isWinner, phase).approach - mix
         == (pose.approach - mix) * (1.0 - ApproachRate * delta)
  {
    LerpRemainder(pose.approach, mix, ApproachRate * delta);
  }

  /** For a frame short enough (2.5·delta in [0, 1]) the approach value
      moves toward the control value without passing it. */
  lemma ApproachNeverOvershoots(item: Layout.Ornament, pose: PhotoPose, mix: real, delta: real,
                                isWinner: bool, phase: LuckyDraw.Phase)
    requires 0.0 <= ApproachRate * delta <= 1.0
    ensures var next := PhotoFrame(item, pose, mix, delta, isWinner, phase);
      && Between(pose.approach, next.approach, mix)
      && Abs(next.approach - mix) <= Abs(pose.approach - mix)
  {
    LerpBetween(pose.approach, mix, ApproachRate * delta);
    LerpContracts(pose.approach, mix, ApproachRate * delta);
  }

  /** Outside the override the card's pose is a pure function of its
      approach value: the chaos/target blend, outward-facing exactly when
      the approach value exceeds 0.8 and camera-facing exactly otherwise.
      The inner flip keeps the fraction 1 - 2.5·delta of its angle, so a
      former winner turns its photo side forward again, without passing 0
      for a short frame. */
  lemma NormalPoseFollowsApproach(item: Layout.Ornament, pose: PhotoPose, mix: real, delta: real,
                                  isWinner: bool, phase: LuckyDraw.Phase)
    requires !InOverride(isWinner, phase)
    ensures var next := PhotoFrame(item, pose, mix, delta, isWinner, phase);
      && next.position == LerpVec(item.chaosPos, item.targetPos, next.approach)
      && next.scale == Lerp(item.chaosScale, item.targetScale, next.approach)
      && (next.facing == Outward <==> next.approach > 0.8)
      && (next.facing == Billboard <==> next.approach <= 0.8)
      && (next.approach == 1.0 ==> next.position == item.targetPos && next.scale == item.targetScale)
      && (next.approach == 0.0 ==> next.position == item.chaosPos && next.scale == item.chaosScale)
      && next.flip == pose.flip * (1.0 - ApproachRate * delta)
      && (0.0 <= ApproachRate * delta <= 1.0 ==> Between(pose.flip, next.flip, 0.0))
  {
    LerpRemainder(pose.flip, 0.0, ApproachRate * delta);
    if 0.0 <= ApproachRate * delta <= 1.0 {
      LerpBetween(pose.flip, 0.0, ApproachRate * delta);
    }
  }

  /** The winner card during WINNER or REVEALED, for any frame time: no
      orientation; its position and scale keep the fraction 1 - 5·delta of
      their distance to the stage point and to 9, and its flip the fraction
      1 - 7.5·delta of its distance to 0 in WINNER and π in REVEALED. So
      position and scale move toward their targets without passing them
      when 5·delta lies in [0, 1], and the flip when 7.5·delta does; longer
      frames overshoot. */
  lemma WinnerOverride(item: Layout.Ornament, pose: PhotoPose, mix: real, delta: real,
                       phase: LuckyDraw.Phase)
    requires phase.Winner? || phase.Revealed?
    ensures var next := PhotoFrame(item, pose, mix, delta, true, phase);
      && next.facing == Identity
      && next.position.x - 0.0 == (pose.position.x - 0.0) * (1.0 - ApproachRate * delta * 2.0)
      && next.position.y - 0.0 == (pose.position.y - 0.0) * (1.0 - ApproachRate * delta * 2.0)
      && next.position.z - 22.0 == (pose.position.z - 22.0) * (1.0 - ApproachRate * delta * 2.0)
      && next.scale - 9.0 == (pose.scale - 9.0) * (1.0 - ApproachRate * delta * 2.0)
      && next.flip - FlipTarget(phase) == (pose.flip - FlipTarget(phase)) * (1.0 - ApproachRate * delta * 3.0)
      && (0.0 <= ApproachRate * delta * 2.0 <= 1.0 ==>
            && Between(pose.position.x, next.position.x, 0.0)
            && Between(pose.position.y, next.position.y, 0.0)
            && Between(pose.position.z, next.position.z, 22.0)
            && Between(pose.scale, next.scale, 9.0))
      && (0.0 <= ApproachRate * delta * 3.0 <= 1.0 ==>
            Between(pose.flip, next.flip, if phase.Revealed? then Pi else 0.0))
  {
    var s2 := ApproachRate * delta * 2.0;
    var s3 := ApproachRate * delta * 3.0;
    if 0.0 <= s2 <= 1.0 {
      LerpBetween(pose.position.x, 0.0, s2);
      LerpBetween(pose.position.y, 0.0, s2);
      LerpBetween(pose.position.z, 22.0, s2);
      LerpBetween(pose.scale, 9.0, s2);
    }
    if 0.0 <= s3 <= 1.0 {
      LerpBetween(pose.flip, FlipTarget(phase), s3);
    }
    LerpRemainder(pose.position.x, 0.0, s2);
    LerpRemainder(pose.position.y, 0.0, s2);
    LerpRemainder(pose.position.z, 22.0, s2);
    LerpRemainder(pose.scale, 9.0, s2);
    LerpRemainder(pose.flip, FlipTarget(phase), s3);
  }

  /** A card that is not the winner ignores the draw phase entirely, and
      so does the winner outside WINNER and REVEALED: once the draw is
      reset the former winner resumes the ordinary blended pose. */
  lemma OverrideOnlyForWinner(item: Layout.Ornament, pose: PhotoPose, mix: real, delta: real,
                              isWinner: bool, phase: LuckyDraw.Phase, other: LuckyDraw.Phase)
    requires !InOverride(isWinner, phase)
    ensures PhotoFrame(item, pose, mix, delta, isWinner, phase)
         == PhotoFrame(item, pose, mix, delta, false, other)
  {
  }

  /** One frame as far as the approach value is concerned: the control
      value in force and the raw frame time. */
  datatype Tick = Tick(mix: real, delta: real)

  /** A frame short enough for the approach factor 2.5·delta to lie in
      [0, 1]. */
  predicate ShortFrame(f: Tick) {
    0.0 <= ApproachRate * f.delta <= 1.0
  }

  /** Approach values over a run of frames; the control value may change
      from frame to frame. */
  function ApproachAfter(a: real, frames: seq<Tick>): real
    decreases |frames|
  {
    if frames == [] then a
    else ApproachAfter(Lerp(a, frames[0].mix, ApproachRate * frames[0].delta), frames[1..])
  }

  /** The fraction of the distance to the control value that a run of
      frames leaves: the product of the per-frame factors 1 - 2.5·delta. */
  function Retention(frames: seq<Tick>): real
    decreases |frames|
  {
    if frames == [] then 1.0
    else (1.0 - ApproachRate * frames[0].delta) * Retention(frames[1..])
  }

  function Power(b: real, n: nat): real {
    if n == 0 then 1.0 else b * Power(b, n - 1)
  }

  /** Held at one control value, a run of frames of any length leaves
      exactly the retention of the distance to it. */
  lemma {:induction false} ApproachRetains(a: real, mix: real, frames: seq<Tick>)
    requires forall k :: 0 <= k < |frames| ==> frames[k].mix == mix
    ensures ApproachAfter(a, frames) - mix == (a - mix) * Retention(frames)
    decreases |frames|
  {
    if frames != [] {
      var t := ApproachRate * frames[0].delta;
      var a' := Lerp(a, mix, t);
      LerpRemainder(a, mix, t);
      ApproachRetains(a', mix, frames[1..]);
      var rest := Retention(frames[1..]);
      ScaleTwice(a - mix, 1.0 - t, rest);
      calc {
        ApproachAfter(a, frames) - mix;
        ApproachAfter(a', frames[1..]) - mix;
        (a' - mix) * rest;
        ((a - mix) * (1.0 - t)) * rest;
        (a - mix) * ((1.0 - t) * rest);
        (a - mix) * Retention(frames);
      }
    }
  }

  /** For short frames held at one control value, the approach value moves
      monotonically toward it, never passing it and never moving away, and
      the distance left is exactly the retention of the first one. */
  lemma {:induction false} ApproachConvergesMonotonically(a: real, mix: real, frames: seq<Tick>)
    requires forall k :: 0 <= k < |frames| ==> frames[k].mix == mix && ShortFrame(frames[k])
    ensures ApproachAfter(a, frames) - mix == (a - mix) * Retention(frames)
    ensures Between(a, ApproachAfter(a, frames), mix)
    ensures Abs(ApproachAfter(a, frames) - mix) <= Abs(a - mix)
    decreases |frames|
  {
    ApproachRetains(a, mix, frames);
    if frames != [] {
      var t := ApproachRate * frames[0].delta;
      LerpBetween(a, mix, t);
      LerpContracts(a, mix, t);
      ApproachConvergesMonotonically(Lerp(a, mix, t), mix, frames[1..]);
    }
  }

  /** Scaling by two factors in turn is scaling by their product. */
  lemma ScaleTwice(d: real, u: real, v: real)
    ensures (d * u) * v == d * (u * v)
  {
  }

  /** Products of non-negative factors are monotone in both factors. */
  lemma ProductBound(u: real, v: real, x: real, y: real)
    requires 0.0 <= u <= v && 0.0 <= x <= y
    ensures 0.0 <= u * x <= v * y
  {
    assert v * x - u * x == (v - u) * x;
    assert v * y - v * x == v * (y - x);
  }

  /** Shrinking a distance by a factor at most `p` leaves at most `p` of it. */
  lemma ShrinkBound(d: real, ret: real, p: real)
    requires 0.0 <= ret <= p
    ensures Abs(d * ret) <= Abs(d) * p
  {
    assert Abs(d * ret) == Abs(d) * ret by {
      if d < 0.0 {
        assert d * ret == -(Abs(d) * ret);
      }
    }
    ProductBound(Abs(d), Abs(d), ret, p);
  }

  /** Convergence: when every frame moves the approach value by a factor of
      at least `c` (2.5·delta in [c, 1]), a run of n frames leaves at most
      the fraction (1 - c)^n of the distance to the control value. */
  lemma {:induction false} RetentionGeometric(frames: seq<Tick>, c: real)
    requires 0.0 <= c
    requires forall k :: 0 <= k < |frames| ==> c <= ApproachRate * frames[k].delta <= 1.0
    ensures 0.0 <= Retention(frames) <= Power(1.0 - c, |frames|)
    decreases |frames|
  {
    if frames != [] {
      var t := ApproachRate * frames[0].delta;
      RetentionGeometric(frames[1..], c);
      var rest := Retention(frames[1..]);
      assert Power(1.0 - c, |frames|) == (1.0 - c) * Power(1.0 - c, |frames[1..]|);
      var p := Power(1.0 - c, |frames[1..]|);
      ProductBound(1.0 - t, 1.0 - c, rest, p);
    }
  }

  /** Whatever the control value does, as long as it stays in [0, 1] and
      frames are short, an approach value in [0, 1] stays there. */
  lemma {:induction false} ApproachStaysInUnit(a: real, frames: seq<Tick>)
    requires 0.0 <= a <= 1.0
    requires forall k :: 0 <= k < |frames| ==> 0.0 <= frames[k].mix <= 1.0 && ShortFrame(frames[k])
    ensures 0.0 <= ApproachAfter(a, frames) <= 1.0
    decreases |frames|
  {
    if frames != [] {
      var a' := Lerp(a, frames[0].mix, ApproachRate * frames[0].delta);
      LerpBetween(a, frames[0].mix, ApproachRate * frames[0].delta);
      ApproachStaysInUnit(a', frames[1..]);
    }
  }

  /** What a photo card sees in one frame: the control value, the raw
      frame time, whether it is the winner, and the draw phase. */
  datatype CardFrame = CardFrame(mix: real, delta: real, isWinner: bool, phase: LuckyDraw.Phase)

  function Ticks(frames: seq<CardFrame>): seq<Tick> {
    seq(|frames|, k requires 0 <= k < |frames| => Tick(frames[k].mix, frames[k].delta))
  }

  /** A card's pose after a run of frames. */
  function PhotoRun(item: Layout.Ornament, pose: PhotoPose, frames: seq<CardFrame>): PhotoPose
    decreases |frames|
  {
    if frames == [] then pose
    else
      var f := frames[0];
      PhotoRun(item, PhotoFrame(item, pose, f.mix, f.delta, f.isWinner, f.phase), frames[1..])
  }

  /** Whatever the winner flag and phase do, a card's approach value after
      a run of frames is the approach recurrence over their control values
      and frame times. */
  lemma {:induction false} PhotoRunApproach(item: Layout.Ornament, pose: PhotoPose, frames: seq<CardFrame>)
    ensures PhotoRun(item, pose, frames).approach == ApproachAfter(pose.approach, Ticks(frames))
    decreases |frames|
  {
    if frames != [] {
      var f := frames[0];
      var next := PhotoFrame(item, pose, f.mix, f.delta, f.isWinner, f.phase);
      PhotoRunApproach(item, next, frames[1..]);
      assert Ticks(frames)[1..] == Ticks(frames[1..]);
    }
  }

  /** A card mounts fully formed (approach 1); while the control value is
      toggled between scattered and formed (or anything in [0, 1]) and
      frames are short, its approach value stays in [0, 1] through any
      draw, so the blend never extrapolates past chaos or target. */
  lemma ApproachFromMountInUnit(item: Layout.Ornament, frames: seq<CardFrame>)
    requires forall k :: 0 <= k < |frames| ==>
      0.0 <= frames[k].mix <= 1.0 && 0.0 <= ApproachRate * frames[k].delta <= 1.0
    ensures 0.0 <= PhotoRun(item, InitialPhotoPose, frames).approach <= 1.0
  {
    PhotoRunApproach(item, InitialPhotoPose, frames);
    ApproachStaysInUnit(InitialPhotoPose.approach, Ticks(frames));
  }

  /** A card whose control value stays put converges to it geometrically:
      when every frame has 2.5·delta in [c, 1], after n frames at most the
      fraction (1 - c)^n of the initial distance is left, whatever the draw
      does meanwhile. */
  lemma PhotoRunConverges(item: Layout.Ornament, pose: PhotoPose, mix: real, c: real,
                          frames: seq<CardFrame>)
    requires 0.0 <= c
    requires forall k :: 0 <= k < |frames| ==>
      frames[k].mix == mix && c <= ApproachRate * frames[k].delta <= 1.0
    ensures Abs(PhotoRun(item, pose, frames).approach - mix)
         <= Abs(pose.approach - mix) * Power(1.0 - c, |frames|)
  {
    var ts := Ticks(frames);
    PhotoRunApproach(item, pose, frames);
    ApproachConvergesMonotonically(pose.approach, mix, ts);
    RetentionGeometric(ts, c);
    ShrinkBound(pose.approach - mix, Retention(ts), Power(1.0 - c, |frames|));
  }

  // ---------------------------------------------------------------------
  // Boxes and baubles
  // ---------------------------------------------------------------------

  /** The box group's fixed scale, set once on the element. */
  const BoxScale: real := 0.8

  datatype BoxPose = BoxPose(position: Vec3, rotation: Layout.Euler, scale: real)
  datatype BallPose = BallPose(position: Vec3, scale: real)

  /** `GiftBoxMesh`'s frame: the raw control value blend and the record's
      fixed rotation; no state is carried between frames. */
  function BoxFrame(item: Layout.Ornament, mix: real): BoxPose {
    BoxPose(LerpVec(item.chaosPos, item.targetPos, mix), item.rotation, BoxScale)
  }

  /** One bauble instance: the raw control value blend at the group's
      constant scale. */
  function BallFrame(item: Layout.Ornament, mix: real, scale: real): BallPose {
    BallPose(LerpVec(item.chaosPos, item.targetPos, mix), scale)
  }

  /** Boxes snap: at control value 1 a box sits exactly on its target and
      at 0 exactly on its chaos position, whatever came before, always with
      the record's own rotation and the fixed 0.8 scale. */
  lemma BoxesSnap(item: Layout.Ornament, mix: real)
    ensures mix == 1.0 ==> BoxFrame(item, mix).position == item.targetPos
    ensures mix == 0.0 ==> BoxFrame(item, mix).position == item.chaosPos
    ensures BoxFrame(item, mix).rotation == item.rotation
    ensures BoxFrame(item, mix).scale == 0.8
  {
  }

  /** Baubles snap the same way, at the group's constant scale, and for a
      control value in [0, 1] stay within the box spanned by chaos and
      target positions. */
  lemma BallsSnap(item: Layout.Ornament, mix: real, scale: real)
    ensures mix == 1.0 ==> BallFrame(item, mix, scale).position == item.targetPos
    ensures mix == 0.0 ==> BallFrame(item, mix, scale).position == item.chaosPos
    ensures 0.0 <= mix <= 1.0 ==>
      var q := BallFrame(item, mix, scale).position;
      && Between(item.chaosPos.x, q.x, item.targetPos.x)
      && Between(item.chaosPos.y, q.y, item.targetPos.y)
      && Between(item.chaosPos.z, q.z, item.targetPos.z)
    ensures BallFrame(item, mix, scale).scale == scale
  {
    if 0.0 <= mix <= 1.0 {
      LerpBetween(item.chaosPos.x, item.targetPos.x, mix);
      LerpBetween(item.chaosPos.y, item.targetPos.y, mix);
      LerpBetween(item.chaosPos.z, item.targetPos.z, mix);
    }
  }

  // ---------------------------------------------------------------------
  // Card geometry
  // ---------------------------------------------------------------------

  /** What the loaded texture reports about its image. */
  datatype ImageSize = Unknown | Size(width: nat, height: nat)

  /** `width / height || 1`: a positive ratio, or infinity for a non-zero
      width over a zero height. */
  datatype Aspect = Ratio(r: real) | Unbounded

  function AspectOf(img: ImageSize): (a: Aspect)
    ensures a.Ratio? ==> a.r > 0.0
    ensures img.Unknown? ==> a == Ratio(1.0)
    ensures img.Size? && img.width == 0 ==> a == Ratio(1.0)
    ensures img.Size? && img.width > 0 && img.height == 0 ==> a == Unbounded
    ensures img.Size? && img.width > 0 && img.height > 0 ==>
      a == Ratio(img.width as real / img.height as real)
  {
    match img
    case Unknown => Ratio(1.0)               // undefined / undefined is NaN
    case Size(w, h) =>
      if h == 0 then (if w == 0 then Ratio(1.0) else Unbounded)
      else if w == 0 then Ratio(1.0)         // 0 is falsy
      else Ratio(w as real / h as real)
  }

  datatype CardGeometry = CardGeometry(
    frameW: real, frameH: real,
    photoW: real, photoH: real, photoY: real,
    captionW: real, captionH: real, captionY: real)

  const PhotoBox: real := 0.85
  const SideMargin: real := 0.08
  const TopMargin: real := 0.08
  const BottomMargin: real := 0.20

  /** The frame, photo and caption rectangles of a card (`frameArgs`,
      `photoArgs`/`photoPos`, `textArgs`/`textPos`). */
  function CardLayout(img: ImageSize): CardGeometry {
    var a := AspectOf(img);
    var pw := match a case Unbounded => PhotoBox
                      case Ratio(r) => if r >= 1.0 then PhotoBox else PhotoBox * r;
    var ph := match a case Unbounded => 0.0
                      case Ratio(r) => if r >= 1.0 then PhotoBox / r else PhotoBox;
    var fw := pw + SideMargin * 2.0;
    var fh := ph + TopMargin + BottomMargin;
    CardGeometry(fw, fh, pw, ph, (fh / 2.0) - TopMargin - (ph / 2.0),
                 fw, BottomMargin, -(fh / 2.0) + (BottomMargin / 2.0))
  }

  /** The photo fits a 0.85 square with its longer side exactly 0.85 and
      its aspect ratio kept; the frame adds 0.08 on the sides and top and
      0.2 below; the photo touches the top margin and sits exactly on the
      caption strip, which runs along the bottom edge of the frame. */
  lemma CardGeometryFits(img: ImageSize)
    ensures var g := CardLayout(img);
      && 0.0 < g.photoW <= PhotoBox && 0.0 <= g.photoH <= PhotoBox
      && (g.photoW == PhotoBox || g.photoH == PhotoBox)
      && (AspectOf(img).Ratio? ==> g.photoW == AspectOf(img).r * g.photoH)
      && g.frameW == g.photoW + 0.16 && g.frameH == g.photoH + 0.28
      && g.photoY + g.photoH / 2.0 == g.frameH / 2.0 - TopMargin
      && g.photoY - g.photoH / 2.0 == g.captionY + g.captionH / 2.0
      && g.captionY - g.captionH / 2.0 == -(g.frameH / 2.0)
      && g.captionW == g.frameW
  {
  }

  // ---------------------------------------------------------------------
  // Which photo cards render
  // ---------------------------------------------------------------------

  /** A rendered photo card: its image, whether it is the winner, the prize
      image it carries on its back, and whether its caption shows. */
  datatype PhotoSlot = PhotoSlot(url: LuckyDraw.Image, isWinner: bool,
                                 prize: Option<LuckyDraw.Image>, showCaption: bool)

  /** Card `i` of the PHOTO group: skipped without a (non-empty) image URL;
      the winner iff its index is the winner index; only the winner carries
      the prize; the caption hides on the winner. */
  function SlotAt(i: nat, userImages: seq<LuckyDraw.Image>, winnerIndex: Option<nat>,
                  prize: Option<LuckyDraw.Image>, hasCaption: bool): Option<PhotoSlot>
  {
    var imgSrc := if i < |userImages| then userImages[i] else "";
    var isWinner := winnerIndex.Some? && winnerIndex.value == i;
    if imgSrc == "" then None
    else Some(PhotoSlot(imgSrc, isWinner, if isWinner then prize else None,
                        hasCaption && !isWinner))
  }

  /** The first `count` cards of the PHOTO group. Card `i` renders exactly
      when the participant list has a non-empty URL at `i`; at most one
      rendered card is the winner, and it is the card at the winner index;
      only it carries the prize and it alone has its caption hidden. */
  function PhotoSlots(count: nat, userImages: seq<LuckyDraw.Image>, winnerIndex: Option<nat>,
                      prize: Option<LuckyDraw.Image>, hasCaption: bool): (slots: seq<Option<PhotoSlot>>)
    ensures |slots| == count
    ensures forall i :: 0 <= i < count ==>
      (slots[i].Some? <==> i < |userImages| && userImages[i] != "")
    ensures forall i :: 0 <= i < count && slots[i].Some? ==>
      && slots[i].value.url == userImages[i]
      && (slots[i].value.isWinner <==> winnerIndex == Some(i))
      && slots[i].value.prize == (if winnerIndex == Some(i) then prize else None)
      && (slots[i].value.showCaption <==> hasCaption && winnerIndex != Some(i))
    ensures forall i, j ::
      (0 <= i < count && 0 <= j < count && slots[i].Some? && slots[j].Some? &&
       slots[i].value.isWinner && slots[j].value.isWinner) ==> i == j
  {
    seq(count, (i: int) requires 0 <= i => SlotAt(i, userImages, winnerIndex, prize, hasCaption))
  }

  /** In the scene the PHOTO group has one card per participant, so with
      non-empty URLs every participant's card is rendered. */
  lemma EveryParticipantRendered(userImages: seq<LuckyDraw.Image>, winnerIndex: Option<nat>,
                                 prize: Option<LuckyDraw.Image>, hasCaption: bool, i: nat)
    requires i < |userImages| && userImages[i] != ""
    ensures var p := Layout.SceneParams(Layout.Photo, |userImages|);
      PhotoSlots(p.count, userImages, winnerIndex, prize, hasCaption)[i].Some?
  {
  }
}
