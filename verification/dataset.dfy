/** The dataset index built by the constructor: the globbed image list, its
    optional subsample, the paired label list and the length. */
module Dataset {
  import opened Results
  import opened Paths

  /** `picks` is a draw of `k` distinct positions of a population of size `n`:
      the choice `random.sample` makes, taken here as an input. */
  predicate IsDraw(picks: seq<int>, k: nat, n: nat) {
    && |picks| == k
    && (forall i :: 0 <= i < k ==> 0 <= picks[i] < n)
    && (forall i, j :: 0 <= i < j < k ==> picks[i] != picks[j])
  }

  /** The elements of `xs` at the positions `picks`, in the order of `picks`. */
  function Select<T>(xs: seq<T>, picks: seq<int>): (r: seq<T>)
    requires forall i :: 0 <= i < |picks| ==> 0 <= picks[i] < |xs|
    ensures |r| == |picks|
    ensures forall i :: 0 <= i < |picks| ==> r[i] == xs[picks[i]]
  {
    seq(|picks|, i requires 0 <= i < |picks| => xs[picks[i]])
  }

  /** Dropping the pick of the last position `n`, the remaining picks select
      the remaining elements from the population without its last element. */
  lemma SelectDropLast<T>(xs: seq<T>, picks: seq<int>, q: nat)
    requires |xs| > 0 && IsDraw(picks, |picks|, |xs|)
    requires q < |picks| && picks[q] == |xs| - 1
    ensures IsDraw(picks[..q] + picks[q + 1..], |picks| - 1, |xs| - 1)
    ensures var r := Select(xs, picks);
      Select(xs[..|xs| - 1], picks[..q] + picks[q + 1..]) == r[..q] + r[q + 1..]
  {
    var rest := picks[..q] + picks[q + 1..];
    assert forall i :: 0 <= i < |rest| ==> rest[i] == if i < q then picks[i] else picks[i + 1];
  }

  /** Removing position `q` takes one occurrence of `r[q]` out of the multiset. */
  lemma MultisetRemoveAt<T>(r: seq<T>, q: nat)
    requires q < |r|
    ensures multiset(r) == multiset(r[..q] + r[q + 1..]) + multiset{r[q]}
  {
    assert r == r[..q] + [r[q]] + r[q + 1..];
  }

  /** With no pick of the last position, the picks select from the shorter population. */
  lemma SelectNoLast<T>(xs: seq<T>, picks: seq<int>)
    requires |xs| > 0 && IsDraw(picks, |picks|, |xs|)
    requires forall q :: 0 <= q < |picks| ==> picks[q] != |xs| - 1
    ensures IsDraw(picks, |picks|, |xs| - 1)
    ensures Select(xs[..|xs| - 1], picks) == Select(xs, picks)
  {
  }

  /** Selecting at distinct positions draws without replacement: the selection
      is a sub-multiset of the population. */
  lemma {:induction false} SelectSubMultiset<T>(xs: seq<T>, picks: seq<int>)
    requires IsDraw(picks, |picks|, |xs|)
    ensures multiset(Select(xs, picks)) <= multiset(xs)
    decreases |xs|
  {
    if |picks| > 0 {
      assert picks[0] < |xs|;
      var n := |xs| - 1;
      var init := xs[..n];
      assert xs == init + [xs[n]];
      if q :| 0 <= q < |picks| && picks[q] == n {
        var r := Select(xs, picks);
        SelectDropLast(xs, picks, q);
        SelectSubMultiset(init, picks[..q] + picks[q + 1..]);
        MultisetRemoveAt(r, q);
      } else {
        SelectNoLast(xs, picks);
        SelectSubMultiset(init, picks);
      }
    }
  }

  /** `random.sample(files, samples)` when `samples` is given, `files` itself otherwise. */
  function Subsample(files: seq<Path>, samples: Option<int>, picks: seq<int>): (r: Result<seq<Path>>)
    requires samples.Some? && 0 <= samples.value <= |files| ==> IsDraw(picks, samples.value, |files|)
    ensures samples.None? ==> r == Ok(files)
    ensures samples.Some? ==> (r.Ok? <==> 0 <= samples.value <= |files|)
    ensures r.Err? ==> r.error == SampleSizeInvalid
    ensures r.Ok? && samples.Some? ==> |r.value| == samples.value
  {
    match samples
    case None => Ok(files)
    case Some(k) =>
      if k < 0 || k > |files| then Err(SampleSizeInvalid)
      else Ok(Select(files, picks))
  }

  /** A subsample of `k` is drawn without replacement from the population: as a
      multiset it is contained in it, and a population without repeated paths
      (as glob returns) yields a subsample without repeated paths. */
  lemma SubsampleWithoutReplacement(files: seq<Path>, k: nat, picks: seq<int>)
    requires k <= |files| && IsDraw(picks, k, |files|)
    ensures Subsample(files, Some(k), picks).Ok?
    ensures var s := Subsample(files, Some(k), picks).value;
      && |s| == k
      && multiset(s) <= multiset(files)
      && ((forall i, j :: 0 <= i < j < |files| ==> files[i] != files[j]) ==>
            forall i, j :: 0 <= i < j < |s| ==> s[i] != s[j])
  {
    SelectSubMultiset(files, picks);
  }

  /** The constructed dataset object: image paths, label paths, `num_images`. */
  datatype Dataset = Dataset(imageFiles: seq<Path>, labelFiles: seq<Path>, numImages: nat)

  /** What the constructor establishes: both lists have `num_images` entries and
      the label list is the image list with "images" replaced by "annotations". */
  predicate Valid(d: Dataset) {
    && |d.imageFiles| == d.numImages
    && |d.labelFiles| == d.numImages
    && forall i :: 0 <= i < d.numImages ==> d.labelFiles[i] == LabelPath(d.imageFiles[i])
  }

  /** `VisDaAugDataset.__init__` restricted to its file lists: `globbed` is the
      result of the glob, `samples` the optional sample count, `picks` the
      positions `random.sample` chooses. */
  function NewDataset(globbed: seq<Path>, samples: Option<int>, picks: seq<int>): (r: Result<Dataset>)
    requires samples.Some? && 0 <= samples.value <= |globbed| ==> IsDraw(picks, samples.value, |globbed|)
    ensures r.Ok? <==> samples.None? || 0 <= samples.value <= |globbed|
    ensures r.Err? ==> r.error == SampleSizeInvalid
    ensures r.Ok? ==> Valid(r.value)
    ensures r.Ok? && samples.None? ==> r.value.imageFiles == globbed
    ensures r.Ok? && samples.Some? ==>
      |r.value.imageFiles| == samples.value && multiset(r.value.imageFiles) <= multiset(globbed)
  {
    match Subsample(globbed, samples, picks)
    case Err(e) => Err(e)
    case Ok(images) =>
      if samples.Some? then
        SubsampleWithoutReplacement(globbed, samples.value, picks);
        var labels := seq(|images|, i requires 0 <= i < |images| => LabelPath(images[i]));
        Ok(Dataset(images, labels, |images|))
      else
        var labels := seq(|images|, i requires 0 <= i < |images| => LabelPath(images[i]));
        Ok(Dataset(images, labels, |images|))
  }

  /** `__len__`: the number of image files, which is also the number of label files. */
  function Length(d: Dataset): (n: nat)
    ensures Valid(d) ==> n == |d.imageFiles| && n == |d.labelFiles|
  {
    d.numImages
  }

  /** Lines 52-53 of `__getitem__`: the image and label path at `index`, with
      Python's list indexing, which counts negative indices from the end. */
  function Lookup(d: Dataset, index: int): (r: Result<(Path, Path)>)
    requires Valid(d)
    ensures r.Ok? <==> -(Length(d) as int) <= index < Length(d)
    ensures r.Err? ==> r.error == IndexOutOfRange
    ensures r.Ok? ==> r.value.1 == LabelPath(r.value.0)
    ensures r.Ok? ==> r.value.0 == d.imageFiles[if index < 0 then Length(d) + index else index]
  {
    if 0 <= index < d.numImages then Ok((d.imageFiles[index], d.labelFiles[index]))
    else if -(d.numImages as int) <= index < 0 then Ok((d.imageFiles[d.numImages + index], d.labelFiles[d.numImages + index]))
    else Err(IndexOutOfRange)
  }
}
