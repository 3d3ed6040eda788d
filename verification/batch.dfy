/** Batch assembly at the end of `__getitem__`: `np.stack` of the variant lists,
    and the transposition of the image batch from channels-last to
    channels-first. */
module Batch {
  import opened Grids
  import opened Results

  /** An image array of `h` rows, `w` columns and `c` channels per pixel. */
  predicate IsImage<V>(x: Grid<seq<V>>, h: nat, w: nat, c: nat) {
    && |x| == h
    && (forall i :: 0 <= i < h ==> |x[i]| == w)
    && (forall i, j :: 0 <= i < h && 0 <= j < w ==> |x[i][j]| == c)
  }

  /** Every image of the list has `h` rows, `w` columns and `c` channels. */
  predicate AllImages<V>(xs: seq<Grid<seq<V>>>, h: nat, w: nat, c: nat) {
    forall b :: 0 <= b < |xs| ==> IsImage(xs[b], h, w, c)
  }

  datatype Shape = Shape(h: nat, w: nat, c: nat)

  /** The shape of an image array, read off its first row and first pixel
      (extents behind an empty one read as 0). */
  function ImageShape<V>(x: Grid<seq<V>>): Shape {
    if |x| == 0 then Shape(0, 0, 0)
    else if |x[0]| == 0 then Shape(|x|, 0, 0)
    else Shape(|x|, |x[0]|, |x[0][0]|)
  }

  /** The height and width of a label array, read off its first row. */
  function GridWidth<T>(g: Grid<T>): nat {
    if |g| == 0 then 0 else |g[0]|
  }

  /** A channels-first batch: `t[b][ch][i][j]`. */
  type Batch4<V> = seq<seq<seq<seq<V>>>>

  /** `t` is an `n` x `c` x `h` x `w` array. */
  predicate IsBatch4<V>(t: Batch4<V>, n: nat, c: nat, h: nat, w: nat) {
    |t| == n && forall b :: 0 <= b < n ==> |t[b]| == c && forall ch :: 0 <= ch < c ==> IsGrid(t[b][ch], h, w)
  }

  /** `np.stack(xs, axis=0).transpose((0, 3, 1, 2))` for images of one shape. */
  function ChannelsFirst<V>(xs: seq<Grid<seq<V>>>, h: nat, w: nat, c: nat): (t: Batch4<V>)
    requires AllImages(xs, h, w, c)
    ensures IsBatch4(t, |xs|, c, h, w)
    ensures forall b, ch, i, j :: 0 <= b < |xs| && 0 <= ch < c && 0 <= i < h && 0 <= j < w ==>
      t[b][ch][i][j] == xs[b][i][j][ch]
  {
    seq(|xs|, b requires 0 <= b < |xs| =>
      seq(c, ch requires 0 <= ch < c =>
        seq(h, i requires 0 <= i < h =>
          seq(w, j requires 0 <= j < w => xs[b][i][j][ch]))))
  }

  /** The inverse permutation `(0, 2, 3, 1)`: back to channels-last. */
  function ChannelsLast<V>(t: Batch4<V>, n: nat, c: nat, h: nat, w: nat): (xs: seq<Grid<seq<V>>>)
    requires IsBatch4(t, n, c, h, w)
    ensures |xs| == n && AllImages(xs, h, w, c)
    ensures forall b, ch, i, j :: 0 <= b < n && 0 <= ch < c && 0 <= i < h && 0 <= j < w ==>
      xs[b][i][j][ch] == t[b][ch][i][j]
  {
    seq(n, b requires 0 <= b < n =>
      seq(h, i requires 0 <= i < h =>
        seq(w, j requires 0 <= j < w =>
          seq(c, ch requires 0 <= ch < c => t[b][ch][i][j]))))
  }

  /** The transposition loses nothing: permuting back recovers the stacked images. */
  lemma ChannelsRoundTrip<V>(xs: seq<Grid<seq<V>>>, h: nat, w: nat, c: nat)
    requires AllImages(xs, h, w, c)
    ensures ChannelsLast(ChannelsFirst(xs, h, w, c), |xs|, c, h, w) == xs
  {
    var t := ChannelsFirst(xs, h, w, c);
    var ys := ChannelsLast(t, |xs|, c, h, w);
    forall b | 0 <= b < |xs|
      ensures ys[b] == xs[b]
    {
      forall i | 0 <= i < h
        ensures ys[b][i] == xs[b][i]
      {
        forall j | 0 <= j < w
          ensures ys[b][i][j] == xs[b][i][j]
        {
          assert forall ch :: 0 <= ch < c ==> ys[b][i][j][ch] == xs[b][i][j][ch];
        }
      }
    }
  }

  /** `np.stack(xs, axis=0).transpose((0, 3, 1, 2))`: fails on an empty list and
      on images of different shapes. */
  function StackImages<V>(xs: seq<Grid<seq<V>>>): (r: Result<Batch4<V>>)
    ensures |xs| == 0 ==> r == Err(EmptyStack)
    ensures |xs| > 0 ==>
      var s := ImageShape(xs[0]);
      (r.Ok? <==> AllImages(xs, s.h, s.w, s.c))
    ensures r.Err? ==> r.error == EmptyStack || r.error == ShapeMismatch
    ensures r.Ok? ==>
      var s := ImageShape(xs[0]);
      && IsBatch4(r.value, |xs|, s.c, s.h, s.w)
      && forall b, ch, i, j :: 0 <= b < |xs| && 0 <= ch < s.c && 0 <= i < s.h && 0 <= j < s.w ==>
           r.value[b][ch][i][j] == xs[b][i][j][ch]
  {
    if |xs| == 0 then Err(EmptyStack)
    else
      var s := ImageShape(xs[0]);
      if AllImages(xs, s.h, s.w, s.c) then Ok(ChannelsFirst(xs, s.h, s.w, s.c))
      else Err(ShapeMismatch)
  }

  /** Images that all have one non-degenerate shape stack into an
      `n` x `c` x `h` x `w` batch with `out[b][ch][i][j] == xs[b][i][j][ch]`. */
  lemma StackImagesOk<V>(xs: seq<Grid<seq<V>>>, h: nat, w: nat, c: nat)
    requires |xs| > 0 && h > 0 && w > 0
    requires AllImages(xs, h, w, c)
    ensures StackImages(xs).Ok?
    ensures var t := StackImages(xs).value;
      && IsBatch4(t, |xs|, c, h, w)
      && forall b, ch, i, j :: 0 <= b < |xs| && 0 <= ch < c && 0 <= i < h && 0 <= j < w ==> t[b][ch][i][j] == xs[b][i][j][ch]
  {
    assert ImageShape(xs[0]) == Shape(h, w, c) by {
      assert |xs[0][0][0]| == c;
    }
  }

  /** Two images with rows of different widths cannot be stacked. */
  lemma StackImagesMismatch<V>(xs: seq<Grid<seq<V>>>, b: nat, h: nat)
    requires b < |xs| && h > 0 && |xs[0]| == h && |xs[b]| == h
    requires |xs[b][0]| != |xs[0][0]|
    ensures StackImages(xs) == Err(ShapeMismatch)
  {
    var s := ImageShape(xs[0]);
    assert !IsImage(xs[b], s.h, s.w, s.c) by {
      if |xs[0][0]| == 0 {
        assert |xs[b][0]| != 0;
      }
    }
  }

  /** `np.stack(ys, axis=0)` for label arrays: the list itself when every array
      has the first one's shape; fails on an empty list and on differing shapes. */
  function StackLabels<L>(ys: seq<Grid<L>>): (r: Result<seq<Grid<L>>>)
    ensures |ys| == 0 ==> r == Err(EmptyStack)
    ensures |ys| > 0 ==> (r.Ok? <==> forall b :: 0 <= b < |ys| ==> IsGrid(ys[b], |ys[0]|, GridWidth(ys[0])))
    ensures r.Err? ==> r.error == EmptyStack || r.error == ShapeMismatch
    ensures r.Ok? ==> r.value == ys
  {
    if |ys| == 0 then Err(EmptyStack)
    else if forall b :: 0 <= b < |ys| ==> IsGrid(ys[b], |ys[0]|, GridWidth(ys[0])) then Ok(ys)
    else Err(ShapeMismatch)
  }
}
