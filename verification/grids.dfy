/** Rasters as sequences of rows, and the two index-level operations the loader
    applies to them: constant-border padding and rectangular slicing. */
module Grids {

  /** `g[i][j]` is the pixel at row `i`, column `j`. */
  type Grid<T> = seq<seq<T>>

  /** `g` is an `h` by `w` raster. */
  predicate IsGrid<T>(g: Grid<T>, h: nat, w: nat) {
    |g| == h && forall i :: 0 <= i < h ==> |g[i]| == w
  }

  /** An `h` by `w` raster holding `v` everywhere (`np.zeros` when `v` is 0). */
  function Filled<T>(h: nat, w: nat, v: T): (g: Grid<T>)
    ensures IsGrid(g, h, w)
    ensures forall i, j :: 0 <= i < h && 0 <= j < w ==> g[i][j] == v
  {
    seq(h, _ => seq(w, _ => v))
  }

  /** `cv2.copyMakeBorder(g, top, bottom, left, right, BORDER_CONSTANT, fill)`:
      the raster surrounded by borders of the given widths filled with `fill`. */
  function Pad<T>(g: Grid<T>, h: nat, w: nat, top: nat, bottom: nat, left: nat, right: nat, fill: T): (r: Grid<T>)
    requires IsGrid(g, h, w)
    ensures IsGrid(r, top + h + bottom, left + w + right)
    ensures forall i, j :: 0 <= i < top + h + bottom && 0 <= j < left + w + right ==>
      r[i][j] == if top <= i < top + h && left <= j < left + w then g[i - top][j - left] else fill
  {
    seq(top + h + bottom, i requires 0 <= i < top + h + bottom =>
      if top <= i < top + h then seq(left, _ => fill) + g[i - top] + seq(right, _ => fill)
      else seq(left + w + right, _ => fill))
  }

  /** NumPy slicing `g[x0:x1, y0:y1]` of an in-bounds window: rows `[x0, x1)`, columns `[y0, y1)`. */
  function Crop<T>(g: Grid<T>, h: nat, w: nat, x0: nat, x1: nat, y0: nat, y1: nat): (r: Grid<T>)
    requires IsGrid(g, h, w)
    requires x0 <= x1 <= h && y0 <= y1 <= w
    ensures IsGrid(r, x1 - x0, y1 - y0)
    ensures forall i, j :: 0 <= i < x1 - x0 && 0 <= j < y1 - y0 ==> r[i][j] == g[x0 + i][y0 + j]
  {
    seq(x1 - x0, i requires 0 <= i < x1 - x0 => g[x0 + i][y0..y1])
  }

  /** Cropping the interior back out of a padded raster gives the raster back:
      padding moves every pixel by exactly `(top, left)` and loses none. */
  lemma CropUndoesPad<T>(g: Grid<T>, h: nat, w: nat, top: nat, bottom: nat, left: nat, right: nat, fill: T)
    requires IsGrid(g, h, w)
    ensures Crop(Pad(g, h, w, top, bottom, left, right, fill), top + h + bottom, left + w + right,
                 top, top + h, left, left + w) == g
  {
    var p := Pad(g, h, w, top, bottom, left, right, fill);
    var c := Crop(p, top + h + bottom, left + w + right, top, top + h, left, left + w);
    forall i | 0 <= i < h
      ensures c[i] == g[i]
    {
      forall j | 0 <= j < w
        ensures c[i][j] == g[i][j]
      {
        assert c[i][j] == p[top + i][left + j];
      }
    }
  }
}
