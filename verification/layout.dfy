/** Ornament layout generation (the layout `useMemo` of `Ornaments` in
    components/Ornaments.tsx) and the three ornament groups the scene
    mounts (`SceneContent` in components/Experience.tsx).

    Each record gets a golden-angle target on a cone, a random chaos
    position, a random rotation and tilt, a palette colour and a
    target/chaos scale pair. `Math.sqrt`, `Math.cos` and `Math.sin` are
    parameters (`Maths`); so are the random sources (`Randomness`). */
module Layout {
  import opened Common

  /** The `type` prop of `Ornaments`. */
  datatype Kind = Ball | Box | Photo

  /** A static Euler rotation (x, y, z). */
  datatype Euler = Euler(x: real, y: real, z: real)

  /** The colour a record is created from: a palette entry or white, or
      nothing when the palette is an empty array (`colors[i % 0]` is
      `undefined`). A three.js `Color` built from `undefined` keeps its
      default, white, so an `Undefined` record renders white; no palette
      the scene mounts is empty. */
  datatype Paint = Hex(code: string) | Undefined

  /** `OrnamentData`. Scales are uniform (`setScalar`), so one number each. */
  datatype Ornament = Ornament(
    chaosPos: Vec3,
    targetPos: Vec3,
    rotation: Euler,
    color: Paint,
    targetScale: real,
    chaosScale: real,
    chaosTilt: real)

  /** The floating-point primitives the layout calls. */
  datatype Maths = Maths(sqrt: real -> real, cos: real -> real, sin: real -> real)

  /** The random sources: `randomVector3(radius)` as called for record `i`,
      and the `k`-th direct `Math.random()` call of iteration `i`. */
  datatype Randomness = Randomness(vector: (nat, real) -> Vec3, unit: (nat, nat) -> real)

  /** The props that determine one layout. */
  datatype LayoutParams = LayoutParams(kind: Kind, count: nat, palette: Option<seq<string>>, scale: real)

  const TreeHeight: real := 18.0
  const TreeRadiusBase: real := 7.5
  const ApexY: real := 9.0
  const Spread: real := 0.9
  const White: string := "#ffffff"

  /** The laws of `Math.sqrt` the layout's bounds rely on. */
  ghost predicate SqrtLaws(sqrt: real -> real) {
    && (forall x :: 0.0 < x ==> 0.0 < sqrt(x))
    && (forall x :: 0.0 <= x <= 1.0 ==> sqrt(x) <= 1.0)
    && (forall x, y :: 0.0 <= x <= y ==> sqrt(x) <= sqrt(y))
  }

  /** cos² + sin² = 1. */
  ghost predicate TrigLaws(m: Maths) {
    forall a :: m.cos(a) * m.cos(a) + m.sin(a) * m.sin(a) == 1.0
  }

  // ---------------------------------------------------------------------
  // Per-kind constants
  // ---------------------------------------------------------------------

  /** Photos scatter within a smaller sphere than balls and boxes. */
  function ChaosRadius(kind: Kind): real {
    if kind == Photo then 12.0 else 25.0
  }

  /** Photos are pushed further out of the tree than balls and boxes. */
  function PushOut(kind: Kind): real {
    if kind == Photo then 1.15 else 1.05
  }

  /** Photos are large when scattered; balls and boxes keep their size. */
  function ChaosScale(kind: Kind, scale: real): real {
    if kind == Photo then 3.5 else scale
  }

  /** `count || 1`: never divide by zero. */
  function Denominator(count: nat): (d: nat)
    ensures d > 0
    ensures count > 0 ==> d == count
  {
    if count == 0 then 1 else count
  }

  function GoldenAngle(m: Maths): real {
    Pi * (3.0 - m.sqrt(5.0))
  }

  /** How far down the tree record `i` of `count` hangs. */
  function Progress(m: Maths, i: nat, count: nat): real {
    m.sqrt((i + 1) as real / Denominator(count) as real) * Spread
  }

  /** Record `i` sits `i` golden angles around the trunk. */
  function Azimuth(m: Maths, i: nat): real {
    i as real * GoldenAngle(m)
  }

  /** The spiral point for record `i` before the per-kind push-out. */
  function SpiralPoint(m: Maths, i: nat, count: nat): Vec3 {
    var progress := Progress(m, i, count);
    var r := progress * TreeRadiusBase;
    var y := ApexY - progress * TreeHeight;
    Vec3(r * m.cos(Azimuth(m, i)), y, r * m.sin(Azimuth(m, i)))
  }

  function Scaled(v: Vec3, k: real): Vec3 {
    Vec3(v.x * k, v.y * k, v.z * k)
  }

  /** `colors ? colors[i % colors.length] : '#ffffff'`: white without a
      palette, an entry of the palette otherwise, and undefined for an
      empty palette (the index `i % 0` is NaN). */
  function PaletteColor(palette: Option<seq<string>>, i: nat): (c: Paint)
    ensures palette.None? ==> c == Hex(White)
    ensures palette.Some? && |palette.value| == 0 ==> c == Undefined
    ensures palette.Some? && |palette.value| > 0 ==> c.Hex? && c.code in palette.value
  {
    match palette
    case None => Hex(White)
    case Some(p) => if |p| == 0 then Undefined else Hex(p[i % |p|])
  }

  /** Record `i` of the layout. */
  function OrnamentAt(p: LayoutParams, m: Maths, rnd: Randomness, i: nat): Ornament {
    Ornament(
      rnd.vector(i, ChaosRadius(p.kind)),
      Scaled(SpiralPoint(m, i, p.count), PushOut(p.kind)),
      Euler(rnd.unit(i, 0) * Pi, rnd.unit(i, 1) * Pi, 0.0),
      PaletteColor(p.palette, i),
      p.scale,
      ChaosScale(p.kind, p.scale),
      rnd.unit(i, 2) * 0.5)
  }

  /** The layout loop: one record per index in [0, count), in index order. */
  method Generate(p: LayoutParams, m: Maths, rnd: Randomness) returns (items: seq<Ornament>)
    ensures |items| == p.count
    ensures forall i :: 0 <= i < p.count ==> items[i] == OrnamentAt(p, m, rnd, i)
  {
    items := [];
    var i := 0;
    while i < p.count
      invariant 0 <= i <= p.count
      invariant |items| == i
      invariant forall j :: 0 <= j < i ==> items[j] == OrnamentAt(p, m, rnd, j)
    {
      items := items + [OrnamentAt(p, m, rnd, i)];
      i := i + 1;
    }
  }

  // ---------------------------------------------------------------------
  // Properties of a record
  // ---------------------------------------------------------------------

  /** Every record's scales and chaos radius follow its kind. */
  lemma RecordFollowsKind(p: LayoutParams, m: Maths, rnd: Randomness, i: nat)
    ensures var o := OrnamentAt(p, m, rnd, i);
      && o.targetScale == p.scale
      && (p.kind == Photo ==> o.chaosScale == 3.5 && o.chaosPos == rnd.vector(i, 12.0))
      && (p.kind != Photo ==> o.chaosScale == p.scale && o.chaosPos == rnd.vector(i, 25.0))
      && o.targetPos == Scaled(SpiralPoint(m, i, p.count), if p.kind == Photo then 1.15 else 1.05)
  {
  }

  /** A non-zero multiple of `n` is at least `n` away from 0. */
  lemma NonZeroMultiple(k: int, n: int)
    requires n > 0
    ensures k >= 1 ==> k * n >= n
    ensures k <= -1 ==> k * n <= -n
  {
  }

  lemma ModAddPeriod(i: nat, n: nat)
    requires n > 0
    ensures (i + n) % n == i % n
  {
    var q, r := i / n, i % n;
    var q', r' := (i + n) / n, (i + n) % n;
    assert (q' - q - 1) * n == r - r';
    NonZeroMultiple(q' - q - 1, n);
  }

  /** Colours cycle through the palette with period equal to its length,
      starting at its first entry; without a palette every record is white. */
  lemma ColorsCycle(palette: Option<seq<string>>, i: nat)
    ensures palette.None? ==> PaletteColor(palette, i) == Hex(White)
    ensures palette.Some? && |palette.value| > 0 ==>
      && PaletteColor(palette, i + |palette.value|) == PaletteColor(palette, i)
      && (i < |palette.value| ==> PaletteColor(palette, i) == Hex(palette.value[i]))
  {
    if palette.Some? && |palette.value| > 0 {
      ModAddPeriod(i, |palette.value|);
    }
  }

  /** Progress lies in (0, 0.9] for every index of the layout. */
  lemma ProgressBounds(m: Maths, i: nat, count: nat)
    requires SqrtLaws(m.sqrt)
    requires i < count
    ensures 0.0 < Progress(m, i, count) <= Spread
  {
  }

  /** Later records hang lower: progress never decreases along the layout. */
  lemma ProgressMonotone(m: Maths, i: nat, j: nat, count: nat)
    requires SqrtLaws(m.sqrt)
    requires i <= j < count
    ensures Progress(m, i, count) <= Progress(m, j, count)
  {
    var c := count as real;
    var xi := (i + 1) as real / c;
    var xj := (j + 1) as real / c;
    assert xi <= xj by {
      assert xj - xi == (j - i) as real / c;
    }
    assert 0.0 <= xi;
    assert m.sqrt(xi) <= m.sqrt(xj);
  }

  /** Before the push-out the height lies in [-7.2, 9): every target sits
      below the apex and no lower than 7.2 under the centre. After the
      push-out the bounds scale with it, and heights never rise along the
      layout. */
  lemma TargetHeights(p: LayoutParams, m: Maths, rnd: Randomness, i: nat, j: nat)
    requires SqrtLaws(m.sqrt)
    requires i <= j < p.count
    ensures -7.2 <= SpiralPoint(m, i, p.count).y < ApexY
    ensures var y := OrnamentAt(p, m, rnd, i).targetPos.y;
      PushOut(p.kind) * -7.2 <= y < PushOut(p.kind) * ApexY
    ensures OrnamentAt(p, m, rnd, j).targetPos.y <= OrnamentAt(p, m, rnd, i).targetPos.y
  {
    ProgressBounds(m, i, p.count);
    ProgressMonotone(m, i, j, p.count);
    var pi := Progress(m, i, p.count);
    var pj := Progress(m, j, p.count);
    var h := SpiralPoint(m, i, p.count).y;
    assert h == ApexY - pi * TreeHeight;
    var k := PushOut(p.kind);
    assert k * h - k * -7.2 == k * (h + 7.2);
    assert k * ApexY - k * h == k * (ApexY - h);
    var hj := SpiralPoint(m, j, p.count).y;
    assert k * h - k * hj == k * (TreeHeight * (pj - pi));
  }

  /** Every target lies on the cone whose apex is the pushed-out tree top
      and whose radius grows 7.5 per 18 of descent. */
  lemma TargetsOnCone(p: LayoutParams, m: Maths, rnd: Randomness, i: nat)
    requires TrigLaws(m)
    ensures var t := OrnamentAt(p, m, rnd, i).targetPos;
      var k := PushOut(p.kind);
      var drop := (k * ApexY - t.y) * (TreeRadiusBase / TreeHeight);
      t.x * t.x + t.z * t.z == drop * drop
  {
  }

  /** A photo hangs on the same spiral point as the ball or box with the
      same index and count, pushed out by 1.15 instead of 1.05. */
  lemma PhotosOutsideBalls(m: Maths, rnd: Randomness, count: nat, palette: Option<seq<string>>,
                           scale: real, other: Kind, i: nat)
    requires other != Photo
    ensures var photo := OrnamentAt(LayoutParams(Photo, count, None, 1.0), m, rnd, i).targetPos;
      var ball := OrnamentAt(LayoutParams(other, count, palette, scale), m, rnd, i).targetPos;
      && 1.05 * photo.x == 1.15 * ball.x
      && 1.05 * photo.y == 1.15 * ball.y
      && 1.05 * photo.z == 1.15 * ball.z
  {
  }

  // ---------------------------------------------------------------------
  // The scene's three groups
  // ---------------------------------------------------------------------

  const BallColors: seq<string> :=
    ["#8B0000", "#D32F2F", "#1B5E20", "#D4AF37", "#C0C0C0", "#191970", "#E5E5E5"]
  const GiftColors: seq<string> := ["#A00000", "#1A4D2E", "#0A1D37", "#D4AF37"]

  /** The props the scene passes for each kind: 70 balls of size 0.45,
      12 boxes of size 1.3, and one default-size photo per participant
      image. */
  function SceneParams(kind: Kind, photoCount: nat): (p: LayoutParams)
    ensures p.kind == kind
    ensures kind == Photo ==> p.count == photoCount && p.palette.None? && p.scale == 1.0
    ensures kind == Ball ==> p.count == 70 && p.palette == Some(BallColors)
    ensures kind == Box ==> p.count == 12 && p.palette == Some(GiftColors)
  {
    match kind
    case Ball => LayoutParams(Ball, 70, Some(BallColors), 0.45)
    case Box => LayoutParams(Box, 12, Some(GiftColors), 1.3)
    case Photo => LayoutParams(Photo, photoCount, None, 1.0)
  }

  /** The scene lays out one photo per participant; every photo is white,
      3.5 across when scattered and 1 across on the tree, while balls and
      boxes keep one size and cycle through their palettes. Each group
      draws from its own stretch of the random stream, since the three
      layouts are computed one after another and each consumes draws. */
  method SceneLayouts(m: Maths, ballRnd: Randomness, boxRnd: Randomness, photoRnd: Randomness,
                      participants: nat)
    returns (balls: seq<Ornament>, boxes: seq<Ornament>, photos: seq<Ornament>)
    ensures |balls| == 70 && |boxes| == 12 && |photos| == participants
    ensures forall i :: 0 <= i < |photos| ==>
      photos[i].chaosScale == 3.5 && photos[i].targetScale == 1.0 && photos[i].color == Hex(White)
    ensures forall i :: 0 <= i < |balls| ==>
      balls[i].chaosScale == balls[i].targetScale == 0.45 && balls[i].color == Hex(BallColors[i % 7])
    ensures forall i :: 0 <= i < |boxes| ==>
      boxes[i].chaosScale == boxes[i].targetScale == 1.3 && boxes[i].color == Hex(GiftColors[i % 4])
  {
    balls := Generate(SceneParams(Ball, participants), m, ballRnd);
    boxes := Generate(SceneParams(Box, participants), m, boxRnd);
    photos := Generate(SceneParams(Photo, participants), m, photoRnd);
  }
}
