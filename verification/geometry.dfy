/** The integer arithmetic around the scale variants: how much border a shrunken
    raster gets (factor < 1) and which window of an enlarged raster is kept
    (factor > 1). All sizes are explicit heights `H` and widths `W`; the scaled
    size `(sH, sW)` is an input, as the float product `int(factor * size)` is
    not modelled. */
module Geometry {
  import opened Results

  /** How the left border of a shrunken raster is sized. */
  datatype PadRule =
    | AsWritten   // the loader: the parity of the HEIGHT deficit decides
    | Intended    // the width deficit's own parity decides, as for the top border

  datatype Padding = Padding(top: nat, bottom: nat, left: nat, right: nat)

  /** Border widths for a raster of `sH` rows and `sW` columns to be padded back
      to `H` by `W`. The top border takes the larger half of an odd deficit;
      `int(d/2)` is floor division here because the deficits are non-negative.
      As written, the padded width is one column too many when only the height
      deficit is odd and one too few when only the width deficit is odd. */
  function PadAmounts(rule: PadRule, H: nat, W: nat, sH: nat, sW: nat): (p: Padding)
    requires sH <= H && sW <= W
    ensures p.top + p.bottom == H - sH
    ensures p.top == p.bottom || p.top == p.bottom + 1
    ensures p.top == p.bottom + 1 <==> (H - sH) % 2 == 1
    ensures p.left == p.right || p.left == p.right + 1
    ensures rule == Intended ==> sW + p.left + p.right == W
    ensures rule == AsWritten ==> (sW + p.left + p.right == W <==> (H - sH) % 2 == (W - sW) % 2)
    ensures rule == AsWritten ==> sW + p.left + p.right == W + (H - sH) % 2 - (W - sW) % 2
  {
    var dh := H - sH;
    var dw := W - sW;
    var top := if dh % 2 == 0 then dh / 2 else dh / 2 + 1;
    var bottom := dh / 2;
    var tested := match rule case AsWritten => dh case Intended => dw;
    var left := if tested % 2 == 0 then dw / 2 else dw / 2 + 1;
    var right := dw / 2;
    Padding(top, bottom, left, right)
  }

  /** A canonical size of 5 rows by 10 columns shrunk by 0.8 gives 4 by 8: the
      height deficit 1 is odd, so the even width deficit 2 is padded to 3 and the
      padded raster is 11 columns wide instead of 10. */
  lemma PadWidthQuirk()
    ensures var p := PadAmounts(AsWritten, 5, 10, 4, 8); 8 + p.left + p.right == 11
  {
  }

  /** Rows `[startx, endx)` and columns `[starty, endy)` of the enlarged raster. */
  datatype Window = Window(startx: nat, endx: nat, starty: nat, endy: nat)

  /** The crop of an enlarged `sH` by `sW` raster back to `H` by `W`, given the
      two `randint(0, sH - H)` and `randint(0, sW - W)` results, which lie in
      their inclusive ranges whenever those ranges are non-empty. */
  function CropWindow(H: nat, W: nat, sH: nat, sW: nat, startx: int, starty: int): (r: Result<Window>)
    requires sH >= H ==> 0 <= startx <= sH - H
    requires sW >= W ==> 0 <= starty <= sW - W
    ensures r.Err? <==> sH < H || sW < W
    ensures r.Err? ==> r.error == EmptyRandomRange
    ensures r.Ok? ==> r.value.startx == startx && r.value.starty == starty
    ensures r.Ok? ==> r.value.endx <= sH && r.value.endy <= sW
    ensures r.Ok? ==> r.value.endx - r.value.startx == H && r.value.endy - r.value.starty == W
  {
    if sH < H || sW < W then Err(EmptyRandomRange)
    else Ok(Window(startx, startx + H, starty, starty + W))
  }
}
