/** `VisDaAugDataset.__getitem__` as a composition: look up the paths, decode
    the label, build the variant lists, stack them. Reading and resizing the
    files, normalising the image and the resizes and rotations of the variants
    are opaque; their results arrive as a `Loaded` value. */
module Loader {
  import opened Results
  import opened Grids
  import opened LabelCodec
  import opened Geometry
  import opened Dataset
  import opened Augment
  import opened Batch

  /** The configuration the loader reads once: canonical height and width
      (`im_size`, whose cv2 form is `(W, H)`), the palette, the ignored ids and
      the enabled transform families. */
  datatype Config = Config(H: nat, W: nat, palette: seq<LabelEntry>, ignore: set<nat>, transforms: seq<Transform>)

  /** The returned pair: an N x C x H x W image batch and an N x H x W label batch. */
  datatype Item<V> = Item(images: Batch4<V>, labels: seq<Grid<int>>)

  /** The results of the opaque calls of one retrieval: the resized, normalised
      image; the resized raw label; per scale factor its scaled size, resized
      pair and crop offsets; the rotated pairs; the zero pixel of the image. */
  datatype Loaded<V> = Loaded(img: Grid<seq<V>>, rawLabel: Grid<Triple>,
                              scaled: seq<ScaleDraw<seq<V>, int>>, rotated: seq<Pair<seq<V>, int>>, zero: seq<V>)

  /** The variant sources of a retrieval: the image and the decoded label, with border value 0. */
  function SourcesOf<V>(cfg: Config, ld: Loaded<V>): Sources<seq<V>, int> {
    Sources(Pair(ld.img, Decode(cfg.palette, cfg.ignore, ld.rawLabel)), ld.scaled, ld.rotated, ld.zero, 0)
  }

  /** The opaque results have the shapes the library calls promise. */
  predicate LoadedOk<V>(cfg: Config, ld: Loaded<V>) {
    IsGrid(ld.rawLabel, cfg.H, cfg.W) && SourcesOk(cfg.transforms, cfg.H, cfg.W, SourcesOf(cfg, ld))
  }

  /** Every image pixel drawn from outside, and the zero pixel, has `C` channels. */
  predicate ChannelsOk<V>(cfg: Config, ld: Loaded<V>, C: nat) {
    SourcesAll(cfg.transforms, SourcesOf(cfg, ld), (p: seq<V>) => |p| == C, (_: int) => true)
  }

  /** Some `cv2.resize` of a retrieval targets a size with a zero side: the
      canonical size itself, or the scaled size of factor 0.8. The factors
      above 1 never shrink a side, so their targets are empty only when the
      canonical size is. */
  predicate ResizeEmpty<V>(cfg: Config, ld: Loaded<V>)
    requires LoadedOk(cfg, ld)
  {
    || cfg.H == 0 || cfg.W == 0
    || (Scale in cfg.transforms && (ld.scaled[0].sH == 0 || ld.scaled[0].sW == 0))
  }

  /** `__getitem__(index)`; the source's left border is `AsWritten`, and
      `Intended` gives the corrected loader. */
  function GetItem<V>(rule: PadRule, cfg: Config, d: Dataset, index: int, ld: Loaded<V>): (r: Result<Item<V>>)
    requires Valid(d) && LoadedOk(cfg, ld)
    ensures Lookup(d, index).Err? ==> r == Err(IndexOutOfRange)
    ensures Lookup(d, index).Ok? ==> (r == Err(EmptyResize) <==> ResizeEmpty(cfg, ld))
    ensures r.Ok? ==> |r.value.images| == |Plan(cfg.transforms)| && |r.value.labels| == |Plan(cfg.transforms)|
  {
    match Lookup(d, index)
    case Err(e) => Err(e)
    case Ok(_) =>
      if ResizeEmpty(cfg, ld) then Err(EmptyResize) else
      var v := BuildVariants(rule, cfg.transforms, cfg.H, cfg.W, SourcesOf(cfg, ld));
      match StackImages(v.images)
      case Err(e) => Err(e)
      case Ok(images) =>
        match StackLabels(v.labels)
        case Err(e) => Err(e)
        case Ok(labels) => Ok(Item(images, labels))
  }

  /** Canonical-size variants whose pixels all have `C` channels stack into an
      N x C x H x W image batch and an N x H x W label batch. */
  lemma StackCanonical<V>(v: Variants<seq<V>, int>, H: nat, W: nat, C: nat)
    requires H > 0 && W > 0 && |v.images| > 0 && AllCanonical(v, H, W)
    requires forall b :: 0 <= b < |v.images| ==> GridAll(v.images[b], (p: seq<V>) => |p| == C)
    ensures StackImages(v.images).Ok? && StackLabels(v.labels) == Ok(v.labels)
    ensures var t := StackImages(v.images).value;
      && IsBatch4(t, |v.images|, C, H, W)
      && forall b, ch, i, j :: 0 <= b < |v.images| && 0 <= ch < C && 0 <= i < H && 0 <= j < W ==>
           t[b][ch][i][j] == v.images[b][i][j][ch]
  {
    forall b | 0 <= b < |v.images|
      ensures IsImage(v.images[b], H, W, C)
    {
      assert GridAll(v.images[b], (p: seq<V>) => |p| == C);
    }
    StackImagesOk(v.images, H, W, C);
  }

  /** In the default configuration an in-range index yields five variants: the
      rotated images, channels first, and the rotated labels, in angle order. */
  lemma GetItemDefault<V>(cfg: Config, d: Dataset, index: int, ld: Loaded<V>, C: nat)
    requires Valid(d) && LoadedOk(cfg, ld) && ChannelsOk(cfg, ld, C)
    requires cfg.transforms == DefaultTransforms
    requires -(Length(d) as int) <= index < Length(d)
    ensures GetItem(AsWritten, cfg, d, index, ld).Ok? <==> cfg.H > 0 && cfg.W > 0
    ensures GetItem(AsWritten, cfg, d, index, ld).Err? ==> GetItem(AsWritten, cfg, d, index, ld).error == EmptyResize
    ensures GetItem(AsWritten, cfg, d, index, ld).Ok? ==>
      var it := GetItem(AsWritten, cfg, d, index, ld).value;
      && IsBatch4(it.images, |RotationAngles|, C, cfg.H, cfg.W)
      && |it.labels| == |RotationAngles|
      && (forall b, ch, i, j :: 0 <= b < |RotationAngles| && 0 <= ch < C && 0 <= i < cfg.H && 0 <= j < cfg.W ==>
            it.images[b][ch][i][j] == ld.rotated[b].img[i][j][ch])
      && (forall b :: 0 <= b < |RotationAngles| ==> it.labels[b] == ld.rotated[b].lbl)
  {
    if cfg.H == 0 || cfg.W == 0 {
      return;
    }
    var src := SourcesOf(cfg, ld);
    var v := BuildVariants(AsWritten, cfg.transforms, cfg.H, cfg.W, src);
    DefaultVariantsAreRotations(AsWritten, cfg.H, cfg.W, src);
    AsWrittenVariantsCanonical(cfg.transforms, cfg.H, cfg.W, src);
    VariantPixelsFromSources(AsWritten, cfg.transforms, cfg.H, cfg.W, src, (p: seq<V>) => |p| == C, (_: int) => true);
    StackCanonical(v, cfg.H, cfg.W, C);
  }

  /** With scaling enabled, as written, an in-range index whose resizes all have
      non-empty targets yields a batch exactly when the 0.8 variant's height and
      width deficits have equal parity; otherwise `np.stack` meets a padded image
      one column too wide or too narrow. When it succeeds, entry 1 holds the
      decoded label itself. */
  lemma GetItemScale<V>(cfg: Config, d: Dataset, index: int, ld: Loaded<V>, C: nat)
    requires Valid(d) && LoadedOk(cfg, ld) && ChannelsOk(cfg, ld, C)
    requires Scale in cfg.transforms
    requires -(Length(d) as int) <= index < Length(d)
    ensures GetItem(AsWritten, cfg, d, index, ld).Ok? <==>
      !ResizeEmpty(cfg, ld) && ParityAgrees(cfg.transforms, cfg.H, cfg.W, SourcesOf(cfg, ld))
    ensures GetItem(AsWritten, cfg, d, index, ld).Err? ==>
      GetItem(AsWritten, cfg, d, index, ld).error == if ResizeEmpty(cfg, ld) then EmptyResize else ShapeMismatch
    ensures GetItem(AsWritten, cfg, d, index, ld).Ok? ==>
      GetItem(AsWritten, cfg, d, index, ld).value.labels[1] == Decode(cfg.palette, cfg.ignore, ld.rawLabel)
  {
    if ResizeEmpty(cfg, ld) {
      return;
    }
    var src := SourcesOf(cfg, ld);
    var v := BuildVariants(AsWritten, cfg.transforms, cfg.H, cfg.W, src);
    ScaleVariantsFirst(AsWritten, cfg.transforms, cfg.H, cfg.W, src);
    if ParityAgrees(cfg.transforms, cfg.H, cfg.W, src) {
      AsWrittenParityCanonical(cfg.transforms, cfg.H, cfg.W, src);
      VariantPixelsFromSources(AsWritten, cfg.transforms, cfg.H, cfg.W, src, (p: seq<V>) => |p| == C, (_: int) => true);
      StackCanonical(v, cfg.H, cfg.W, C);
    } else {
      AsWrittenParityMismatch(cfg.transforms, cfg.H, cfg.W, src);
      assert |v.images[1]| == cfg.H && |v.images[1][0]| == cfg.W;
      StackImagesMismatch(v.images, 1, cfg.H);
    }
  }

  /** With the intended left border, enabling scaling never breaks the stack:
      every in-range index whose resizes all have non-empty targets yields all
      variants, each of the canonical size. */
  lemma IntendedScaleStacks<V>(cfg: Config, d: Dataset, index: int, ld: Loaded<V>, C: nat)
    requires Valid(d) && LoadedOk(cfg, ld) && ChannelsOk(cfg, ld, C)
    requires Scale in cfg.transforms
    requires -(Length(d) as int) <= index < Length(d)
    ensures GetItem(Intended, cfg, d, index, ld).Ok? <==> !ResizeEmpty(cfg, ld)
    ensures GetItem(Intended, cfg, d, index, ld).Err? ==> GetItem(Intended, cfg, d, index, ld).error == EmptyResize
    ensures GetItem(Intended, cfg, d, index, ld).Ok? ==>
      var it := GetItem(Intended, cfg, d, index, ld).value;
      && IsBatch4(it.images, |Plan(cfg.transforms)|, C, cfg.H, cfg.W)
      && |it.labels| == |Plan(cfg.transforms)|
      && (forall b :: 0 <= b < |it.labels| ==> IsGrid(it.labels[b], cfg.H, cfg.W))
      && it.labels[1] == Decode(cfg.palette, cfg.ignore, ld.rawLabel)
  {
    if ResizeEmpty(cfg, ld) {
      return;
    }
    var src := SourcesOf(cfg, ld);
    var v := BuildVariants(Intended, cfg.transforms, cfg.H, cfg.W, src);
    ScaleVariantsFirst(Intended, cfg.transforms, cfg.H, cfg.W, src);
    IntendedVariantsCanonical(cfg.transforms, cfg.H, cfg.W, src);
    VariantPixelsFromSources(Intended, cfg.transforms, cfg.H, cfg.W, src, (p: seq<V>) => |p| == C, (_: int) => true);
    StackCanonical(v, cfg.H, cfg.W, C);
  }
}
