/** The augmentation part of `__getitem__`: which variants are emitted, in which
    order, and the geometry of each. The pixel content of the resizes and
    rotations is opaque: their results are inputs, constrained only in shape. */
module Augment {
  import opened Grids
  import opened Geometry
  import opened Results

  datatype Transform = Scale | Rotation

  /** `self.transforms` as the constructor sets it: rotation only. */
  const DefaultTransforms: seq<Transform> := [Rotation]

  /** The scale factors 0.80 .. 1.60 in hundredths, so that comparing with 1.0 is exact. */
  const ScalePercents: seq<nat> := [80, 100, 120, 140, 160]

  /** The rotation angles in degrees. */
  const RotationAngles: seq<int> := [-16, -8, 0, 8, 16]

  /** One batch entry: the `k`-th scale factor or the `k`-th rotation angle. */
  datatype VariantKind = Scaled(k: nat) | Rotated(k: nat)

  /** The variants `__getitem__` emits, in emission order. */
  function Plan(transforms: seq<Transform>): (plan: seq<VariantKind>)
    ensures |plan| == (if Scale in transforms then |ScalePercents| else 0)
                    + (if Rotation in transforms then |RotationAngles| else 0)
    ensures forall b :: 0 <= b < |plan| && plan[b].Scaled? ==> Scale in transforms && plan[b].k < |ScalePercents|
    ensures forall b :: 0 <= b < |plan| && plan[b].Rotated? ==> Rotation in transforms && plan[b].k < |RotationAngles|
  {
    (if Scale in transforms then seq(|ScalePercents|, k requires 0 <= k < |ScalePercents| => Scaled(k)) else [])
    + (if Rotation in transforms then seq(|RotationAngles|, k requires 0 <= k < |RotationAngles| => Rotated(k)) else [])
  }

  /** The emission order: every scale variant precedes every rotation, scale
      variants go by increasing factor and rotations by increasing angle; each
      enabled factor and angle appears, and nothing of a disabled family. */
  lemma PlanOrder(transforms: seq<Transform>)
    ensures var plan := Plan(transforms);
      && (forall b, c :: 0 <= b < c < |plan| && plan[b].Rotated? ==> plan[c].Rotated?)
      && (forall b, c :: 0 <= b < c < |plan| && plan[b].Scaled? && plan[c].Scaled? ==>
            ScalePercents[plan[b].k] < ScalePercents[plan[c].k])
      && (forall b, c :: 0 <= b < c < |plan| && plan[b].Rotated? && plan[c].Rotated? ==>
            RotationAngles[plan[b].k] < RotationAngles[plan[c].k])
      && (Scale in transforms <==> forall k :: 0 <= k < |ScalePercents| ==> Scaled(k) in plan)
      && (Rotation in transforms <==> forall k :: 0 <= k < |RotationAngles| ==> Rotated(k) in plan)
  {
    var plan := Plan(transforms);
    var s := if Scale in transforms then |ScalePercents| else 0;
    if Scale in transforms {
      forall k | 0 <= k < |ScalePercents|
        ensures Scaled(k) in plan
      {
        assert plan[k] == Scaled(k);
      }
    } else {
      assert Scaled(0) !in plan;
    }
    if Rotation in transforms {
      forall k | 0 <= k < |RotationAngles|
        ensures Rotated(k) in plan
      {
        assert plan[s + k] == Rotated(k);
      }
    } else {
      assert Rotated(0) !in plan;
    }
  }

  /** The default configuration emits the five rotations, in angle order. */
  lemma DefaultPlan()
    ensures Plan(DefaultTransforms) == [Rotated(0), Rotated(1), Rotated(2), Rotated(3), Rotated(4)]
    ensures forall b :: 0 <= b < 5 ==> RotationAngles[Plan(DefaultTransforms)[b].k] == [-16, -8, 0, 8, 16][b]
  {
    assert Scale !in DefaultTransforms;
  }

  /** An image and its label, transformed alike. */
  datatype Pair<P, L> = Pair(img: Grid<P>, lbl: Grid<L>)

  predicate PairIs<P, L>(v: Pair<P, L>, h: nat, w: nat) {
    IsGrid(v.img, h, w) && IsGrid(v.lbl, h, w)
  }

  /** What one scale factor draws from outside: the scaled size `int(factor * size)`,
      the resized pair, and the two `randint` results of the crop. */
  datatype ScaleDraw<P, L> = ScaleDraw(sH: nat, sW: nat, resized: Pair<P, L>, startx: int, starty: int)

  /** A scaled size shrinks for factors below 1 and grows for factors above 1,
      the resize returns that size, and the `randint` results lie in their
      inclusive ranges. */
  predicate ScaleDrawOk<P, L>(H: nat, W: nat, percent: nat, d: ScaleDraw<P, L>) {
    && PairIs(d.resized, d.sH, d.sW)
    && (percent < 100 ==> d.sH <= H && d.sW <= W)
    && (percent > 100 ==> d.sH >= H && d.sW >= W && 0 <= d.startx <= d.sH - H && 0 <= d.starty <= d.sW - W)
  }

  /** Everything a call draws from outside: the canonical pair, the per-factor
      scale draws, the rotated pairs (one per angle), and the zero border value
      of images and of labels. */
  datatype Sources<P, L> = Sources(base: Pair<P, L>, scaled: seq<ScaleDraw<P, L>>, rotated: seq<Pair<P, L>>, zeroP: P, zeroL: L)

  /** The canonical pair is `H` by `W`, and so is every rotation (the canvas is not resized). */
  predicate SourcesOk<P, L>(transforms: seq<Transform>, H: nat, W: nat, src: Sources<P, L>) {
    && PairIs(src.base, H, W)
    && (Scale in transforms ==>
          |src.scaled| == |ScalePercents|
          && forall k :: 0 <= k < |ScalePercents| ==> ScaleDrawOk(H, W, ScalePercents[k], src.scaled[k]))
    && (Rotation in transforms ==>
          |src.rotated| == |RotationAngles|
          && forall k :: 0 <= k < |RotationAngles| ==> PairIs(src.rotated[k], H, W))
  }

  /** The variant of one scale factor: the pair itself for 1.0, the resized pair
      padded back for factors below 1, a window of it for factors above 1; image
      and label always undergo the same geometry. */
  function ScaleVariant<P, L>(rule: PadRule, H: nat, W: nat, percent: nat, d: ScaleDraw<P, L>, base: Pair<P, L>, zeroP: P, zeroL: L): (v: Pair<P, L>)
    requires PairIs(base, H, W) && ScaleDrawOk(H, W, percent, d)
    ensures percent == 100 ==> v == base
    ensures percent > 100 ==>
      && PairIs(v, H, W)
      && forall i, j :: 0 <= i < H && 0 <= j < W ==>
           && v.img[i][j] == d.resized.img[d.startx + i][d.starty + j]
           && v.lbl[i][j] == d.resized.lbl[d.startx + i][d.starty + j]
    ensures percent < 100 ==>
      var p := PadAmounts(rule, H, W, d.sH, d.sW);
      && PairIs(v, H, p.left + d.sW + p.right)
      && forall i, j :: 0 <= i < H && 0 <= j < p.left + d.sW + p.right ==>
           if p.top <= i < p.top + d.sH && p.left <= j < p.left + d.sW
           then v.img[i][j] == d.resized.img[i - p.top][j - p.left] && v.lbl[i][j] == d.resized.lbl[i - p.top][j - p.left]
           else v.img[i][j] == zeroP && v.lbl[i][j] == zeroL
  {
    if percent == 100 then base
    else if percent < 100 then
      var p := PadAmounts(rule, H, W, d.sH, d.sW);
      Pair(Pad(d.resized.img, d.sH, d.sW, p.top, p.bottom, p.left, p.right, zeroP),
           Pad(d.resized.lbl, d.sH, d.sW, p.top, p.bottom, p.left, p.right, zeroL))
    else
      var win := CropWindow(H, W, d.sH, d.sW, d.startx, d.starty).value;
      Pair(Crop(d.resized.img, d.sH, d.sW, win.startx, win.endx, win.starty, win.endy),
           Crop(d.resized.lbl, d.sH, d.sW, win.startx, win.endx, win.starty, win.endy))
  }

  /** The pair emitted for one entry of the plan. */
  function VariantOf<P, L>(rule: PadRule, transforms: seq<Transform>, H: nat, W: nat, src: Sources<P, L>, kind: VariantKind): Pair<P, L>
    requires SourcesOk(transforms, H, W, src)
    requires kind.Scaled? ==> Scale in transforms && kind.k < |ScalePercents|
    requires kind.Rotated? ==> Rotation in transforms && kind.k < |RotationAngles|
  {
    match kind
    case Scaled(k) => ScaleVariant(rule, H, W, ScalePercents[k], src.scaled[k], src.base, src.zeroP, src.zeroL)
    case Rotated(k) => src.rotated[k]
  }

  /** The two lists `images` and `labels` built by `__getitem__`. */
  datatype Variants<P, L> = Variants(images: seq<Grid<P>>, labels: seq<Grid<L>>)

  function BuildVariants<P, L>(rule: PadRule, transforms: seq<Transform>, H: nat, W: nat, src: Sources<P, L>): (r: Variants<P, L>)
    requires SourcesOk(transforms, H, W, src)
    ensures |r.images| == |Plan(transforms)| && |r.labels| == |Plan(transforms)|
  {
    var plan := Plan(transforms);
    var pairs := seq(|plan|, b requires 0 <= b < |plan| => VariantOf(rule, transforms, H, W, src, plan[b]));
    Variants(seq(|pairs|, b requires 0 <= b < |pairs| => pairs[b].img),
             seq(|pairs|, b requires 0 <= b < |pairs| => pairs[b].lbl))
  }

  /** With the default transforms the lists hold exactly the five rotated pairs,
      in angle order. */
  lemma DefaultVariantsAreRotations<P, L>(rule: PadRule, H: nat, W: nat, src: Sources<P, L>)
    requires SourcesOk(DefaultTransforms, H, W, src)
    ensures var r := BuildVariants(rule, DefaultTransforms, H, W, src);
      && |r.images| == |RotationAngles| && |r.labels| == |RotationAngles|
      && forall b :: 0 <= b < |RotationAngles| ==> r.images[b] == src.rotated[b].img && r.labels[b] == src.rotated[b].lbl
  {
    DefaultPlan();
  }

  /** Entry 0 of the lists (factor 0.8) is the resized pair inside zero borders
      of the `PadAmounts` widths: `H` rows by `left + sW + right` columns, each
      inner pixel shifted by `(top, left)`, the same for image and label. */
  ghost predicate PaddedEntry<P, L>(rule: PadRule, transforms: seq<Transform>, H: nat, W: nat, src: Sources<P, L>, r: Variants<P, L>)
    requires SourcesOk(transforms, H, W, src) && Scale in transforms
    requires |r.images| >= |ScalePercents| && |r.labels| >= |ScalePercents|
  {
    var d := src.scaled[0];
    var p := PadAmounts(rule, H, W, d.sH, d.sW);
    && IsGrid(r.images[0], H, p.left + d.sW + p.right) && IsGrid(r.labels[0], H, p.left + d.sW + p.right)
    && forall i, j :: 0 <= i < H && 0 <= j < p.left + d.sW + p.right ==>
         if p.top <= i < p.top + d.sH && p.left <= j < p.left + d.sW
         then r.images[0][i][j] == d.resized.img[i - p.top][j - p.left] && r.labels[0][i][j] == d.resized.lbl[i - p.top][j - p.left]
         else r.images[0][i][j] == src.zeroP && r.labels[0][i][j] == src.zeroL
  }

  /** Entries 2 to 4 of the lists (factors above 1) are `H` by `W` windows of
      the resized pairs at the drawn offsets, the same for image and label. */
  ghost predicate WindowEntries<P, L>(transforms: seq<Transform>, H: nat, W: nat, src: Sources<P, L>, r: Variants<P, L>)
    requires SourcesOk(transforms, H, W, src) && Scale in transforms
    requires |r.images| >= |ScalePercents| && |r.labels| >= |ScalePercents|
  {
    forall b :: 2 <= b < |ScalePercents| ==>
      var d := src.scaled[b];
      && IsGrid(r.images[b], H, W) && IsGrid(r.labels[b], H, W)
      && forall i, j :: 0 <= i < H && 0 <= j < W ==>
           r.images[b][i][j] == d.resized.img[d.startx + i][d.starty + j]
           && r.labels[b][i][j] == d.resized.lbl[d.startx + i][d.starty + j]
  }

  lemma PaddedVariantFirst<P, L>(rule: PadRule, transforms: seq<Transform>, H: nat, W: nat, src: Sources<P, L>)
    requires SourcesOk(transforms, H, W, src) && Scale in transforms
    ensures var r := BuildVariants(rule, transforms, H, W, src);
      |r.images| >= |ScalePercents| && PaddedEntry(rule, transforms, H, W, src, r)
  {
    var r := BuildVariants(rule, transforms, H, W, src);
    assert Plan(transforms)[0] == Scaled(0);
    var v := ScaleVariant(rule, H, W, ScalePercents[0], src.scaled[0], src.base, src.zeroP, src.zeroL);
    assert r.images[0] == v.img && r.labels[0] == v.lbl;
  }

  lemma WindowVariantsNext<P, L>(rule: PadRule, transforms: seq<Transform>, H: nat, W: nat, src: Sources<P, L>)
    requires SourcesOk(transforms, H, W, src) && Scale in transforms
    ensures var r := BuildVariants(rule, transforms, H, W, src);
      |r.images| >= |ScalePercents| && WindowEntries(transforms, H, W, src, r)
  {
    var plan := Plan(transforms);
    forall b | 2 <= b < |ScalePercents|
      ensures plan[b] == Scaled(b)
    {
    }
  }

  /** With scaling enabled the five scale variants come first: entry 0 (factor
      0.8) is the resized pair inside zero borders, entry 1 (factor 1.0) is the
      unmodified pair, entries 2 to 4 are windows at the drawn offsets, and the
      rotations follow from entry 5 on. */
  lemma ScaleVariantsFirst<P, L>(rule: PadRule, transforms: seq<Transform>, H: nat, W: nat, src: Sources<P, L>)
    requires SourcesOk(transforms, H, W, src) && Scale in transforms
    ensures var r := BuildVariants(rule, transforms, H, W, src);
      && |r.images| >= |ScalePercents|
      && PaddedEntry(rule, transforms, H, W, src, r)
      && r.images[1] == src.base.img && r.labels[1] == src.base.lbl
      && WindowEntries(transforms, H, W, src, r)
      && (forall b :: |ScalePercents| <= b < |r.images| ==>
            r.images[b] == src.rotated[b - |ScalePercents|].img && r.labels[b] == src.rotated[b - |ScalePercents|].lbl)
  {
    var r := BuildVariants(rule, transforms, H, W, src);
    var plan := Plan(transforms);
    PaddedVariantFirst(rule, transforms, H, W, src);
    WindowVariantsNext(rule, transforms, H, W, src);
    assert plan[1] == Scaled(1);
    forall b | |ScalePercents| <= b < |r.images|
      ensures plan[b] == Rotated(b - |ScalePercents|)
    {
    }
  }

  /** Every image and label of the lists is `H` by `W`. */
  predicate AllCanonical<P, L>(v: Variants<P, L>, H: nat, W: nat) {
    |v.images| == |v.labels| && forall b :: 0 <= b < |v.images| ==> IsGrid(v.images[b], H, W) && IsGrid(v.labels[b], H, W)
  }

  /** The height and width deficits of the one shrinking factor (0.8) have equal parity. */
  predicate ParityAgrees<P, L>(transforms: seq<Transform>, H: nat, W: nat, src: Sources<P, L>)
    requires SourcesOk(transforms, H, W, src)
  {
    Scale in transforms ==> (H - src.scaled[0].sH) % 2 == (W - src.scaled[0].sW) % 2
  }

  /** The plan entry at `b` yields an `H` by `W` pair unless it is the padded
      0.8 variant. */
  lemma VariantCanonical<P, L>(rule: PadRule, transforms: seq<Transform>, H: nat, W: nat, src: Sources<P, L>, kind: VariantKind)
    requires SourcesOk(transforms, H, W, src)
    requires kind.Scaled? ==> Scale in transforms && kind.k < |ScalePercents|
    requires kind.Rotated? ==> Rotation in transforms && kind.k < |RotationAngles|
    ensures kind != Scaled(0) ==> PairIs(VariantOf(rule, transforms, H, W, src, kind), H, W)
    ensures kind == Scaled(0) ==>
      var d := src.scaled[0];
      var p := PadAmounts(rule, H, W, d.sH, d.sW);
      PairIs(VariantOf(rule, transforms, H, W, src, kind), H, p.left + d.sW + p.right)
  {
  }

  /** With the intended left border every variant has the canonical size. */
  lemma IntendedVariantsCanonical<P, L>(transforms: seq<Transform>, H: nat, W: nat, src: Sources<P, L>)
    requires SourcesOk(transforms, H, W, src)
    ensures AllCanonical(BuildVariants(Intended, transforms, H, W, src), H, W)
  {
    var r := BuildVariants(Intended, transforms, H, W, src);
    var plan := Plan(transforms);
    forall b | 0 <= b < |r.images|
      ensures IsGrid(r.images[b], H, W) && IsGrid(r.labels[b], H, W)
    {
      VariantCanonical(Intended, transforms, H, W, src, plan[b]);
    }
  }

  /** As written, equal parity of the deficits gives every variant the canonical size. */
  lemma AsWrittenParityCanonical<P, L>(transforms: seq<Transform>, H: nat, W: nat, src: Sources<P, L>)
    requires SourcesOk(transforms, H, W, src) && ParityAgrees(transforms, H, W, src)
    ensures AllCanonical(BuildVariants(AsWritten, transforms, H, W, src), H, W)
  {
    var r := BuildVariants(AsWritten, transforms, H, W, src);
    var plan := Plan(transforms);
    forall b | 0 <= b < |r.images|
      ensures IsGrid(r.images[b], H, W) && IsGrid(r.labels[b], H, W)
    {
      VariantCanonical(AsWritten, transforms, H, W, src, plan[b]);
    }
  }

  /** As written, with scaling enabled and deficits of unequal parity, the first
      (0.8) image is not `W` columns wide. */
  lemma AsWrittenParityMismatch<P, L>(transforms: seq<Transform>, H: nat, W: nat, src: Sources<P, L>)
    requires SourcesOk(transforms, H, W, src) && H > 0 && !ParityAgrees(transforms, H, W, src)
    ensures var r := BuildVariants(AsWritten, transforms, H, W, src);
      |r.images| > 0 && |r.images[0]| == H && |r.images[0][0]| != W
  {
    var plan := Plan(transforms);
    assert plan[0] == Scaled(0);
    VariantCanonical(AsWritten, transforms, H, W, src, plan[0]);
  }

  /** As written, the variants all have the canonical size exactly when scaling
      is off or the 0.8 variant's height and width deficits have equal parity. */
  lemma AsWrittenVariantsCanonical<P, L>(transforms: seq<Transform>, H: nat, W: nat, src: Sources<P, L>)
    requires SourcesOk(transforms, H, W, src) && H > 0
    ensures AllCanonical(BuildVariants(AsWritten, transforms, H, W, src), H, W) <==> ParityAgrees(transforms, H, W, src)
  {
    if ParityAgrees(transforms, H, W, src) {
      AsWrittenParityCanonical(transforms, H, W, src);
    } else {
      AsWrittenParityMismatch(transforms, H, W, src);
    }
  }

  /** Every pixel of `g` satisfies `ok`. */
  predicate GridAll<T>(g: Grid<T>, ok: T -> bool) {
    forall i, j :: 0 <= i < |g| && 0 <= j < |g[i]| ==> ok(g[i][j])
  }

  predicate PairAll<P, L>(v: Pair<P, L>, okP: P -> bool, okL: L -> bool) {
    GridAll(v.img, okP) && GridAll(v.lbl, okL)
  }

  /** Every pixel the enabled families draw from, and both border values, satisfy `okP` / `okL`. */
  predicate SourcesAll<P, L>(transforms: seq<Transform>, src: Sources<P, L>, okP: P -> bool, okL: L -> bool) {
    && PairAll(src.base, okP, okL)
    && okP(src.zeroP) && okL(src.zeroL)
    && (Scale in transforms ==> forall k :: 0 <= k < |src.scaled| ==> PairAll(src.scaled[k].resized, okP, okL))
    && (Rotation in transforms ==> forall k :: 0 <= k < |src.rotated| ==> PairAll(src.rotated[k], okP, okL))
  }

  /** One scale variant takes its pixels from the base pair, the resized pair
      or the border values. */
  lemma ScaleVariantPixels<P, L>(rule: PadRule, H: nat, W: nat, percent: nat, d: ScaleDraw<P, L>, base: Pair<P, L>,
                                 zeroP: P, zeroL: L, okP: P -> bool, okL: L -> bool)
    requires PairIs(base, H, W) && ScaleDrawOk(H, W, percent, d)
    requires PairAll(base, okP, okL) && PairAll(d.resized, okP, okL) && okP(zeroP) && okL(zeroL)
    ensures PairAll(ScaleVariant(rule, H, W, percent, d, base, zeroP, zeroL), okP, okL)
  {
    if percent < 100 {
      var p := PadAmounts(rule, H, W, d.sH, d.sW);
      assert PairIs(d.resized, d.sH, d.sW);
    }
  }

  /** Padding and cropping only move pixels or add border: a property every
      source pixel and the border value have, every variant pixel has. */
  lemma VariantPixelsFromSources<P, L>(rule: PadRule, transforms: seq<Transform>, H: nat, W: nat, src: Sources<P, L>,
                                       okP: P -> bool, okL: L -> bool)
    requires SourcesOk(transforms, H, W, src) && SourcesAll(transforms, src, okP, okL)
    ensures var r := BuildVariants(rule, transforms, H, W, src);
      forall b :: 0 <= b < |r.images| ==> GridAll(r.images[b], okP) && GridAll(r.labels[b], okL)
  {
    var r := BuildVariants(rule, transforms, H, W, src);
    var plan := Plan(transforms);
    forall b | 0 <= b < |r.images|
      ensures GridAll(r.images[b], okP) && GridAll(r.labels[b], okL)
    {
      match plan[b]
      case Rotated(k) =>
      case Scaled(k) =>
        ScaleVariantPixels(rule, H, W, ScalePercents[k], src.scaled[k], src.base, src.zeroP, src.zeroL, okP, okL);
    }
  }
}
