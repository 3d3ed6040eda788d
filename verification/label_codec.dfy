/** `transform_labels`: re-encodes a colour-coded label raster into dense class
    ids, one exact colour comparison per pixel, driven by an ordered palette and
    a set of ignored class ids. */
module LabelCodec {
  import opened Grids

  /** A raw label pixel: three channel values in the order the image reader
      produced them (cv2.imread yields BGR); they are compared as read. */
  datatype Triple = Triple(c0: int, c1: int, c2: int)

  /** One palette entry: the colour of a class in raw label images and its dense id. */
  datatype LabelEntry = LabelEntry(color: Triple, trainId: nat)

  /** The decoded raster is a uint8 array: NumPy 1.x stores an integer into it modulo 256. */
  function AsUint8(v: int): (b: int)
    ensures 0 <= b < 256
    ensures 0 <= v < 256 ==> b == v
  {
    v % 256
  }

  /** Entry `e` writes its id into a pixel of colour `p`: its id is not ignored
      and its colour equals the pixel exactly. */
  predicate Writes(e: LabelEntry, ignore: set<nat>, p: Triple) {
    e.trainId !in ignore && e.color == p
  }

  /** Reference decoding of one pixel: the id of the last palette entry that
      writes it, or 0 (background) when no entry does. */
  function DecodePixel(palette: seq<LabelEntry>, ignore: set<nat>, p: Triple): (v: int)
    ensures 0 <= v < 256
  {
    if |palette| == 0 then 0
    else if Writes(palette[|palette| - 1], ignore, p) then AsUint8(palette[|palette| - 1].trainId)
    else DecodePixel(palette[..|palette| - 1], ignore, p)
  }

  /** Entry `k` writes pixel colour `p` and no later entry does. */
  ghost predicate IsLastWriter(palette: seq<LabelEntry>, ignore: set<nat>, p: Triple, k: int) {
    && 0 <= k < |palette|
    && Writes(palette[k], ignore, p)
    && forall j :: k < j < |palette| ==> !Writes(palette[j], ignore, p)
  }

  /** The decoded value is fixed by the palette alone: 0 when no entry writes the
      colour, otherwise the id of the last writer, which then exists. */
  lemma {:induction false} DecodePixelLastWriter(palette: seq<LabelEntry>, ignore: set<nat>, p: Triple)
    ensures (forall k :: 0 <= k < |palette| ==> !Writes(palette[k], ignore, p)) ==> DecodePixel(palette, ignore, p) == 0
    ensures forall k :: IsLastWriter(palette, ignore, p, k) ==> DecodePixel(palette, ignore, p) == AsUint8(palette[k].trainId)
    ensures (exists k :: 0 <= k < |palette| && Writes(palette[k], ignore, p)) ==> exists k :: IsLastWriter(palette, ignore, p, k)
  {
    if |palette| > 0 {
      var n := |palette| - 1;
      var init := palette[..n];
      DecodePixelLastWriter(init, ignore, p);
      if Writes(palette[n], ignore, p) {
        assert IsLastWriter(palette, ignore, p, n);
      } else {
        forall k | IsLastWriter(palette, ignore, p, k)
          ensures IsLastWriter(init, ignore, p, k)
        {
        }
        if exists k :: 0 <= k < |palette| && Writes(palette[k], ignore, p) {
          var k :| 0 <= k < |palette| && Writes(palette[k], ignore, p);
          assert Writes(init[k], ignore, p);
          var m :| IsLastWriter(init, ignore, p, m);
          assert IsLastWriter(palette, ignore, p, m);
        }
      }
    }
  }

  /** Every decoded value is 0 or (the uint8 image of) the id of a non-ignored entry. */
  lemma DecodePixelValue(palette: seq<LabelEntry>, ignore: set<nat>, p: Triple)
    ensures var v := DecodePixel(palette, ignore, p);
      v == 0 || exists k :: 0 <= k < |palette| && palette[k].trainId !in ignore && v == AsUint8(palette[k].trainId)
  {
    DecodePixelLastWriter(palette, ignore, p);
  }

  /** Assuming distinct palette colours and ids that fit a byte, a pixel of a
      palette colour decodes to that entry's id, or to 0 when the id is ignored;
      any other colour decodes to 0. */
  lemma DecodeUniquePalette(palette: seq<LabelEntry>, ignore: set<nat>, p: Triple)
    requires forall i, j :: 0 <= i < j < |palette| ==> palette[i].color != palette[j].color
    requires forall i :: 0 <= i < |palette| ==> palette[i].trainId < 256
    ensures forall k :: 0 <= k < |palette| && palette[k].color == p ==>
      DecodePixel(palette, ignore, p) == if palette[k].trainId in ignore then 0 else palette[k].trainId
    ensures (forall k :: 0 <= k < |palette| ==> palette[k].color != p) ==> DecodePixel(palette, ignore, p) == 0
  {
    DecodePixelLastWriter(palette, ignore, p);
    forall k | 0 <= k < |palette| && palette[k].color == p
      ensures DecodePixel(palette, ignore, p) == if palette[k].trainId in ignore then 0 else palette[k].trainId
    {
      if palette[k].trainId !in ignore {
        assert IsLastWriter(palette, ignore, p, k);
      } else {
        assert forall j :: 0 <= j < |palette| ==> !Writes(palette[j], ignore, p);
      }
    }
  }

  /** The reference decoding of a whole raster, pixel by pixel. */
  function Decode(palette: seq<LabelEntry>, ignore: set<nat>, lbl: Grid<Triple>): (out: Grid<int>)
    ensures |out| == |lbl|
    ensures forall i :: 0 <= i < |lbl| ==> |out[i]| == |lbl[i]|
  {
    seq(|lbl|, i requires 0 <= i < |lbl| =>
      seq(|lbl[i]|, j requires 0 <= j < |lbl[i]| => DecodePixel(palette, ignore, lbl[i][j])))
  }

  /** One masked write of the decoding loop: every pixel whose raw colour
      matches `color` in all three channels is overwritten with `v`, and the
      others keep their value. */
  function Stamp(out: Grid<int>, lbl: Grid<Triple>, h: nat, w: nat, color: Triple, v: int): (r: Grid<int>)
    requires IsGrid(out, h, w) && IsGrid(lbl, h, w)
    ensures IsGrid(r, h, w)
    ensures forall i, j :: 0 <= i < h && 0 <= j < w ==> r[i][j] == if lbl[i][j] == color then v else out[i][j]
  {
    seq(h, i requires 0 <= i < h => seq(w, j requires 0 <= j < w => if lbl[i][j] == color then v else out[i][j]))
  }

  /** `transform_labels`: start from a zero raster and, for each palette entry in
      order whose id is not ignored, overwrite the pixels of its colour. */
  method TransformLabels(lbl: Grid<Triple>, h: nat, w: nat, palette: seq<LabelEntry>, ignore: set<nat>)
    returns (out: Grid<int>)
    requires IsGrid(lbl, h, w)
    ensures IsGrid(out, h, w)
    ensures forall i, j :: 0 <= i < h && 0 <= j < w ==> out[i][j] == DecodePixel(palette, ignore, lbl[i][j])
    ensures out == Decode(palette, ignore, lbl)
  {
    out := Filled(h, w, 0);
    for k := 0 to |palette|
      invariant IsGrid(out, h, w)
      invariant forall i, j :: 0 <= i < h && 0 <= j < w ==> out[i][j] == DecodePixel(palette[..k], ignore, lbl[i][j])
    {
      var e := palette[k];
      assert palette[..k + 1][..k] == palette[..k];
      if e.trainId in ignore {
        continue;
      }
      out := Stamp(out, lbl, h, w, e.color, AsUint8(e.trainId));
    }
    assert palette[..|palette|] == palette;
    var d := Decode(palette, ignore, lbl);
    forall i | 0 <= i < h
      ensures out[i] == d[i]
    {
    }
  }
}
