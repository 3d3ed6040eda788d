# VisDa augmentation loader — a Dafny model

This project models the integer and index logic of the VisDa segmentation data
loader (`loaders/visda_aug.py`, class `VisDaAugDataset` and the helper
`transform_labels`). It covers five parts:

- **Label codec** (`LabelCodec`, `transform_labels`). A raw label raster of colour triples becomes a raster of dense class ids. Each pixel is compared exactly, as read, with an ordered palette of `(color, trainId)` entries. Entries whose id is in the ignore set never write. The last writing entry wins, and a pixel that no entry writes stays 0. The output array is `uint8`.
- **Scale geometry** (`Geometry`, `Grids`). For factors below 1 this is the border widths that pad a shrunken raster back to the canonical size. For factors above 1 it is the window cut from an enlarged raster. The scaled size `(sH, sW)` and the two `randint` draws are inputs. The model carries explicit heights `H` and widths `W` instead of the cv2 `(W, H)` tuples.
- **Dataset index** (`Dataset`, `Paths`). This covers the optional subsample without replacement (`random.sample`) and the label path, which is the image path with every `"images"` replaced by `"annotations"`. It also covers `__len__` and Python list indexing in `__getitem__`.
- **Variant list** (`Augment`). This is which variants are emitted and in which order: five scale variants if `"scale"` is enabled, then five rotations if `"rotation"` is enabled. It also states what each variant is in terms of the opaque resize and rotation results.
- **Batch assembly** (`Batch`, `Loader`). `np.stack` fails on an empty list or on different shapes. The image batch is transposed from `(N,H,W,C)` to `(N,C,H,W)`. `Loader.GetItem` composes the whole retrieval.

Random choices, file contents and the results of the cv2/skimage calls are
parameters, constrained only by what those calls promise: output shapes and the
inclusive `randint` ranges.

Notes on the loader's behaviour:

- There is no separate identity variant (loaders/visda_aug.py:48, 117-126). In the default configuration the five rotations are the whole batch, and angle 0 stands in for the identity.
- `__getitem__` accepts negative indices, counted from the end, as Python lists do (loaders/visda_aug.py:52-53). Only indices outside `[-n, n)` fail.
- Ignoring is by class id (loaders/visda_aug.py:147). An id in the ignore set silences every palette entry with that id. There is no per-entry flag.
- A sample count outside `[0, n]` fails with `random.sample`'s `ValueError` (loaders/visda_aug.py:31), modelled as `Err(SampleSizeInvalid)`.
- A `cv2.resize` to a size with a zero side raises (loaders/visda_aug.py:59-60, 82-83). That happens when the canonical height or width is 0, or when a side of 1 shrinks to `int(0.8 * 1) = 0`. It is modelled as `Err(EmptyResize)`.
- The left border is not the ceiling half of the width deficit (loaders/visda_aug.py:93). See Findings.

## Model

| member | source | states |
|---|---|---|
| `LabelCodec.TransformLabels` | loaders/visda_aug.py:143-150 | The output has the input's height and width. Each output pixel is the reference decoding of the input pixel at the same position, so it depends on nothing else. The sequential whole-raster overwrite equals the per-pixel reference `Decode`. |
| `LabelCodec.Stamp` | loaders/visda_aug.py:148 | One masked write keeps the raster's shape. A pixel whose raw colour matches the entry's colour in all channels gets the entry's id, and every other pixel keeps its value. |
| `LabelCodec.DecodePixel` | loaders/visda_aug.py:144-148 | A decoded value always fits the `uint8` output array (0..255). |
| `LabelCodec.AsUint8` | loaders/visda_aug.py:144-148 | Storing an id in the `uint8` array gives a value in 0..255 and keeps ids below 256 unchanged. |
| `LabelCodec.DecodePixelLastWriter` | loaders/visda_aug.py:146-148 | A colour that no non-ignored entry matches decodes to 0. If some entry writes the colour, a last writer exists and the pixel gets that entry's id, so later entries override earlier ones. |
| `LabelCodec.DecodePixelValue` | loaders/visda_aug.py:146-148 | Every decoded value is 0 or the id of a non-ignored palette entry. |
| `LabelCodec.DecodeUniquePalette` | loaders/visda_aug.py:146-148 | With distinct palette colours and ids below 256, a pixel of an entry's colour gets that entry's id, or 0 if the id is ignored. Any other colour gets 0. |
| `Geometry.PadAmounts` | loaders/visda_aug.py:87-94 | `top + bottom` equals the height deficit, and `top` takes the extra row exactly when the deficit is odd. `left` equals `right` or exceeds it by one. With the source's rule the padded width is `W + (dh % 2) - (dw % 2)`: `W` if and only if the two deficits have equal parity, `W + 1` when only the height deficit is odd, and `W - 1` when only the width deficit is odd. With the intended rule it is always `W`. |
| `Geometry.PadWidthQuirk` | loaders/visda_aug.py:93-94 | With canonical size 5x10 shrunk to 4x8, the source's borders give a padded width of 11. |
| `Geometry.CropWindow` | loaders/visda_aug.py:101-105 | The crop fails exactly when a `randint` range is empty. Otherwise the window starts at the drawn offsets, ends inside the enlarged raster, and is exactly `H` by `W`. |
| `Grids.Pad` | loaders/visda_aug.py:96-97 | Padding yields a `(top+h+bottom)` by `(left+w+right)` raster. Each interior pixel is the source pixel shifted by `(top, left)`, and every border pixel is the fill value. |
| `Grids.Crop` | loaders/visda_aug.py:107-108 | Slicing an in-bounds window yields a raster of the window's size whose pixel `(i, j)` is source pixel `(x0+i, y0+j)`. |
| `Grids.CropUndoesPad` | loaders/visda_aug.py:96-97 | Cropping the interior out of a padded raster returns the original raster, so padding loses no pixel. |
| `Paths.ReplaceAllSkipsPrefix` | loaders/visda_aug.py:33 | `ReplaceAll` (Python's `str.replace`) copies unchanged a prefix in which no occurrence of the pattern begins. |
| `Paths.ReplaceAllNoMatch` | loaders/visda_aug.py:33 | `ReplaceAll` leaves a string without any occurrence of the pattern unchanged. |
| `Paths.LabelPathAfterRoot` | loaders/visda_aug.py:33 | In `LabelPath`, after a root free of "images", the directory segment "images" becomes "annotations", and the rest is rewritten independently. |
| `Paths.LabelPathSiblingDir` | loaders/visda_aug.py:28-33 | If neither the root nor the file name contains "images", `LabelPath` of `root/images/name` is `root/annotations/name`. |
| `Paths.LabelPathRewritesRoot` | loaders/visda_aug.py:33 | `LabelPath` rewrites a directory named "images" inside the data root too: `root/images/images/name` pairs with `root/annotations/annotations/name`. |
| `Dataset.Select` | loaders/visda_aug.py:31 | The selection at a list of picks has one entry per pick, and entry `i` is the population element at position `picks[i]`. |
| `Dataset.SelectSubMultiset` | loaders/visda_aug.py:31 | Selecting at distinct positions yields a sub-multiset of the population, i.e. a draw without replacement. |
| `Dataset.Subsample` | loaders/visda_aug.py:30-31 | With no sample count the list is unchanged. With a count `k`, the call succeeds if and only if `0 <= k <= n`, and the result has exactly `k` entries. Otherwise it fails with `SampleSizeInvalid`. |
| `Dataset.SubsampleWithoutReplacement` | loaders/visda_aug.py:30-31 | A `k`-sample has `k` entries and, as a multiset, is contained in the globbed list. A list without repeated paths yields a sample without repeated paths. |
| `Dataset.NewDataset` | loaders/visda_aug.py:28-34 | Construction fails exactly for a sample count outside `[0, n]`. On success the image and label lists both have `num_images` entries, label `i` is the label path of image `i`, and a subsample is drawn without replacement. |
| `Dataset.Length` | loaders/visda_aug.py:137-138 | `__len__` equals the number of image paths and the number of label paths. |
| `Dataset.Lookup` | loaders/visda_aug.py:52-53 | Lookup succeeds if and only if `-n <= index < n`, with negative indices counted from the end. The returned label path is the label path of the returned image path. |
| `Augment.Plan` | loaders/visda_aug.py:75-120 | There are 5 variants per enabled family. Every entry names a factor or angle that exists, from an enabled family. |
| `Augment.PlanOrder` | loaders/visda_aug.py:75-120 | Scale variants precede rotations. Factors are in increasing order, and so are angles. Each factor of an enabled family appears, and so does each angle; a disabled family contributes nothing. |
| `Augment.DefaultPlan` | loaders/visda_aug.py:48 | The default transforms emit exactly the five rotations -16, -8, 0, 8, 16 in that order. |
| `Augment.ScaleVariant` | loaders/visda_aug.py:80-111 | Factor 1.0 returns the pair unchanged. A factor above 1 returns an `H` by `W` window of the resized pair at the drawn offsets, the same for image and label. A factor below 1 returns the resized pair inside a zero border, `H` rows high, with the same geometry for image and label. |
| `Augment.BuildVariants` | loaders/visda_aug.py:72-126 | The image list and the label list always have equal length: one entry per planned variant. |
| `Augment.DefaultVariantsAreRotations` | loaders/visda_aug.py:117-126 | With the default transforms, the lists are exactly the five rotated images and labels, in angle order. |
| `Augment.PaddedVariantFirst` | loaders/visda_aug.py:80-97 | With scaling enabled, entry 0 (factor 0.8) of both lists is `H` rows by `left + sW + right` columns, with the borders of `PadAmounts`. Each pixel inside the borders is the resized pixel shifted by `(top, left)`, the same for image and label, and every border pixel is the zero border value. |
| `Augment.WindowVariantsNext` | loaders/visda_aug.py:99-108 | With scaling enabled, entries 2 to 4 (factors above 1) of both lists are `H` by `W`. Pixel `(i, j)` of each is the resized pixel at `(startx + i, starty + j)`, the same for image and label. |
| `Augment.ScaleVariantsFirst` | loaders/visda_aug.py:75-126 | With scaling enabled, entry 0 (factor 0.8) is the resized pair inside zero borders of the `PadAmounts` widths. Entry 1 (factor 1.0) is the unmodified pair. Entries 2-4 are `H` by `W` windows at the drawn offsets, identical for image and label. The rotations follow from entry 5. |
| `Augment.VariantCanonical` | loaders/visda_aug.py:80-126 | Every variant except the padded 0.8 one is `H` by `W`. The 0.8 one is `H` rows by `left + sW + right` columns. |
| `Augment.AsWrittenVariantsCanonical` | loaders/visda_aug.py:85-97 | As written, all variants are `H` by `W` if and only if scaling is off or the 0.8 variant's height and width deficits have equal parity. |
| `Augment.AsWrittenParityCanonical` | loaders/visda_aug.py:93-97 | As written, when the 0.8 variant's deficits have equal parity, every variant is `H` by `W`. |
| `Augment.AsWrittenParityMismatch` | loaders/visda_aug.py:93-96 | As written, with unequal deficit parities the first image is not `W` columns wide. |
| `Augment.IntendedVariantsCanonical` | loaders/visda_aug.py:90-94 | With the left border chosen by the width deficit's own parity, every variant is `H` by `W`. |
| `Augment.VariantPixelsFromSources` | loaders/visda_aug.py:96-108 | Padding and cropping only move pixels or add border. Any property that all source pixels and the border value have, every variant pixel has. |
| `Augment.ScaleVariantPixels` | loaders/visda_aug.py:80-111 | A scale variant's pixels come from the base pair, the resized pair or the border values. So any property that all of those have, every pixel of the variant has. |
| `Batch.ChannelsFirst` | loaders/visda_aug.py:129 | Same-shape images stack into an `N x C x H x W` array with `out[b][c][h][w] == images[b][h][w][c]`. |
| `Batch.ChannelsRoundTrip` | loaders/visda_aug.py:129 | Transposing back to channels-last recovers the stacked images exactly, so the permutation loses nothing. |
| `Batch.StackImages` | loaders/visda_aug.py:129 | The stack fails on an empty list. Otherwise it succeeds if and only if every image has the first image's shape, and the result is the channels-first batch. |
| `Batch.StackImagesOk` | loaders/visda_aug.py:129 | Images of one non-degenerate shape `h x w x c` stack into an `N x c x h x w` batch. |
| `Batch.StackImagesMismatch` | loaders/visda_aug.py:129 | Images whose rows have different widths cannot be stacked. |
| `Batch.StackLabels` | loaders/visda_aug.py:130 | The label stack fails on an empty list. It succeeds if and only if all label rasters share the first one's shape, and then it is the list itself. |
| `Loader.GetItem` | loaders/visda_aug.py:50-135 | An out-of-range index fails with `IndexOutOfRange`. An in-range index fails with `EmptyResize` if and only if some resize targets a size with a zero side. A result has as many images as labels, one per planned variant. |
| `Loader.StackCanonical` | loaders/visda_aug.py:129-130 | Canonical-size variants with `C`-channel pixels stack into `N x C x H x W` images and `N x H x W` labels. |
| `Loader.GetItemDefault` | loaders/visda_aug.py:117-135 | In the default configuration an in-range index succeeds if and only if `H > 0` and `W > 0`, and otherwise fails with `EmptyResize`. On success it yields a `5 x C x H x W` image batch and 5 labels. These are the rotated images, channels first, and the rotated labels, in angle order. |
| `Loader.GetItemScale` | loaders/visda_aug.py:75-130 | With scaling enabled, as written, an in-range index succeeds if and only if no resize target is empty and the 0.8 variant's deficits have equal parity. It fails with `EmptyResize` when a target is empty, and otherwise with `ShapeMismatch`. On success, label entry 1 is the decoded label. |
| `Loader.IntendedScaleStacks` | loaders/visda_aug.py:90-130 | With the corrected left border, scaling succeeds if and only if no resize target is empty, and it then stacks into a canonical `N x C x H x W` batch. Label entry 1 is the decoded label. |

## Left out

- Reading files (`cv2.imread`) and the glob over the images directory are left out because they are I/O. The globbed list and the loaded rasters are inputs.
- `cv2.resize`, `skimage.transform.rotate` and the `int(factor * size)` float products are left out because they are float interpolation or float arithmetic. Their results are inputs constrained by shape. A scaled size shrinks for factors below 1 and grows for factors above 1.
- Mean/stdev normalisation, `cv2.cvtColor` and `color_mode` are left out because they are floating-point numerics. The image pixel type is opaque.
- The class-weight computation (`-log`, max-normalisation) and `num_classes` are left out for the same reason.
- Torch dtype conversion, `load_args`, `root_dir` and `sys.path` setup are left out because they are library plumbing and global configuration.
- The distribution of `random.sample` and `randint` is not modelled. Only their ranges and distinctness are.
- The rotation at angle 0 equalling its input, and label blending at rotated edges, are properties of the opaque rotate call and are not modelled.
- `Geometry.PadAmounts`: requires `sH <= H` and `sW <= W`, which every factor below 1 gives. For these non-negative deficits `int(d/2)` is floor division. Python's truncation toward zero for negative deficits is not modelled.
- `Grids.Crop`: covers in-bounds windows only. NumPy's clamping of out-of-range slices is never reached, because `Geometry.CropWindow` keeps the window in bounds.
- `Paths.ReplaceAll`: covers a non-empty pattern only, as the loader's pattern is the constant "images".
- `Batch.StackImages`: reads a shape off the first row and first pixel, so an array with zero rows or columns loses its other extents. The stacking lemmas therefore assume `H > 0` and `W > 0`. `Loader.GetItem` never reaches the stack with an empty size, because such a size fails earlier with `EmptyResize`.
- `Augment.AsWrittenVariantsCanonical`: assumes `H > 0`, for the same reason.
- `Augment.BuildVariants` describes the variant geometry for any scaled size, including one with a zero side. The `cv2.resize` failure on such a size is raised by `Loader.GetItem` before the variants are built.
- `LabelCodec.AsUint8`: follows NumPy 1.x, which stores an id of 256 or more modulo 256. NumPy 2 raises `OverflowError` instead.

## Findings

| source | as written | input that shows it | evidently intended | confidence | as-written member | corrected member |
|---|---|---|---|---|---|---|
| loaders/visda_aug.py:93 | `left` tests `dh % 2` (the height deficit) instead of `dw % 2` | Canonical size `(H, W) = (5, 10)` with "scale" enabled. `int(0.8*5) = 4` and `int(0.8*10) = 8`, so `dh = 1` and `dw = 2`. Then `left = 2` and `right = 1`, and the padded raster is 11 columns wide. `np.stack` then raises `ValueError` against the 10-column variants. | `left` takes the ceiling half of `dw`, mirroring `top`, so that the padded width is `W` | not executed; high | `Geometry.PadWidthQuirk`, `Loader.GetItemScale` | `Loader.IntendedScaleStacks` |
