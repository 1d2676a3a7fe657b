# Region sampler

A model of `TypicalCOCOTrainingRegionSampler` and `crop_from_image`. This is the
preprocessing transform of an object-detection training pipeline. It picks one uniform
scale so that the image's shorter edge reaches a drawn target length, unless that would
push the longer edge past a limit. It rescales the bounding boxes by that scale. It then
places the resized image in the top-left corner of a fixed-size canvas and fills the rest
with zero.

Modules:

- `Slicing` gives CPython's normalisation of slice bounds. It also gives, one axis at a
  time, the destination and source slices of the assignment in `crop_from_image`.
- `Cropping` holds `CropFromImage`, an imperative method over `array2`. It allocates a
  zero buffer and copies the overlap with nested loops.
- `Scaling` holds the scale policy, on exact `real`s, and the box rescaling.
- `RegionSampler` holds the following:
  - the validated configuration (`NewSampler`);
  - the sample, a class whose `entries` map stands for the dictionary that the call
    updates in place;
  - the call itself (`Apply`).
- `Results` holds `Result` and `Option`.

The crop is modelled exactly as the code computes it, including where it fails:

- numpy accepts the slice assignment on an axis only when the source extent equals the
  destination extent, or is 1, in which case it is broadcast. `Slicing.BroadcastsIff`
  pins the accepted regions down exactly.
- A region that touches or overlaps the image is always accepted. So is a region past
  the far edge by at least its own size.
- A region just past the far edge is refused. For example, on a 10-row image, row 12
  with height 5 gives a destination of 3 rows and a source of 0, and numpy raises
  `ValueError`.
- A region wholly before the near edge is refused too, unless `y + h + im_h <= 1`. For
  example, on a 10-row image, row -10 with height 5 gives a destination `[10:5]` of 0 rows
  and a source `[0:-5]` of 5 rows, and numpy raises `ValueError`.
- Neither kind of region is zero-filled, although the function's docstring (line 99)
  promises zero-fill for out-of-bounds crops.
- The sampler only ever crops at the origin, and that region always touches. So the
  sampler itself never meets this failure.

The comment at line 77 says the box corners `x` and `y` are rounded down. The code at
line 78 uses `int()`, which truncates toward zero. The two differ for negative
coordinates, and the model follows the code.

## Model

| member | source | states |
|---|---|---|
| `Slicing.AdjustBound` | data_pipeline/sampler/region_sampler.py:114-115 | A slice bound is counted from the end when negative and clamped into [0, n]. |
| `Slicing.PySlice` | data_pipeline/sampler/region_sampler.py:114-115 | A slice selects positions inside the axis. An in-range `[a:b]` selects `b - a` positions from `a`. A non-negative stop at or before the start selects nothing. |
| `Slicing.AxisSlices` | data_pipeline/sampler/region_sampler.py:114-115 | The destination slice lies in the buffer and the source slice lies in the image. |
| `Slicing.TouchingExtentsMatch` | data_pipeline/sampler/region_sampler.py:114-115 | If `y <= im_h` and `y + h >= 0`, both slices have the overlap's length, and the source is the destination shifted by the origin. |
| `Slicing.BroadcastsIff` | data_pipeline/sampler/region_sampler.py:114-115 | numpy accepts an axis exactly when the region touches the image, or lies past the far edge by its own size, or lies so far before the near edge that at most one source row remains. |
| `Slicing.AcceptedAxisCopiesOverlap` | data_pipeline/sampler/region_sampler.py:114-115 | On an accepted axis, the copy is a plain shift by the origin. It writes exactly the destination positions whose source position is inside the image. |
| `Slicing.OriginAxisCopiesPrefix` | data_pipeline/sampler/region_sampler.py:83-84 | The fixed crop origin (0, 0) always touches the image and copies its top-left `min(extent, length)` block. |
| `Slicing.NearEdgeRejected` | data_pipeline/sampler/region_sampler.py:114-115 | For 10 image rows and a region at row -10 of height 5, the slices are `[10:5]`, which is 0 rows, and `[0:-5]`, which is 5 rows, and numpy refuses them. |
| `Slicing.NearFarEdgeRejected` | data_pipeline/sampler/region_sampler.py:114-115 | For 10 image rows and a region at row 12 of height 5, the slices are `[0:-2]`, which is 3 rows, and `[12:10]`, which is 0 rows, and numpy refuses them. |
| `Cropping.CopyBlock` | data_pipeline/sampler/region_sampler.py:114-115 | The slice assignment copies the block and leaves every other cell of the buffer as it was. |
| `Cropping.CropFromImage` | data_pipeline/sampler/region_sampler.py:96-117 | Fails exactly when the source raises: `NegativeDimension` for a negative size, otherwise `ShapeMismatch`. Otherwise it returns a fresh `h` x `w` buffer. A cell whose source `(y+i, x+j)` is inside the image holds that pixel, and every other cell is zero. |
| `Cropping.FarOutsideRegionIsBlank` | data_pipeline/sampler/region_sampler.py:99-115 | A region past the far edge by at least its own size on one axis, and accepted on the other, is accepted, and its crop is all zero. |
| `Scaling.ResizeScale` | data_pipeline/sampler/region_sampler.py:72 | The scale is one of the two ratios. `max(h,w)*s <= limit` and `min(h,w)*s <= target`. The scale is positive when limit and target are. |
| `Scaling.ResizeScaleBindingEdge` | data_pipeline/sampler/region_sampler.py:72 | When `target/min <= limit/max`, the shorter edge lands exactly on the target. Otherwise the longer edge lands exactly on the limit. |
| `Scaling.Trunc` | data_pipeline/sampler/region_sampler.py:78 | `int()` truncates toward zero. For `v >= 0` it gives `t <= v < t+1`. For `v < 0` it gives `t-1 < v <= t`. |
| `Scaling.RescaleBoxes` | data_pipeline/sampler/region_sampler.py:78-79 | The comprehension keeps the number and the order of the boxes. Box k of the output is the rescaled box k of the input. |
| `Scaling.RescaleBox` | data_pipeline/sampler/region_sampler.py:78 | The corner of a rescaled box is the integer truncation of the scaled corner. Its width and height are the scaled ones, raised to 1 when smaller, so each is at least 1. |
| `Scaling.DefaultConfigurationExample` | data_pipeline/sampler/region_sampler.py:72-79 | For a 600 x 1000 image with the defaults, the scale is 1.333, and the box `[100,100,50,50]` becomes `[133,133,66.65,66.65]`. |
| `RegionSampler.SeqMin` | data_pipeline/sampler/region_sampler.py:59 | `min` of the range is a member that no other member is below. |
| `RegionSampler.SeqMax` | data_pipeline/sampler/region_sampler.py:60 | `max` of the range is a member that no other member is above. |
| `RegionSampler.NewSampler` | data_pipeline/sampler/region_sampler.py:50-65 | Construction succeeds iff the range is non-empty and no member exceeds the limit. On success the derived `shorter_min <= shorter_max <= limit` bound the range. `output_size` is returned unchanged, and `num_regions` is 1. |
| `RegionSampler.DefaultSamplerAccepted` | data_pipeline/sampler/region_sampler.py:50 | The default arguments construct a sampler with min = max = 800 and limit 1333. |
| `RegionSampler.SampleScaleBounds` | data_pipeline/sampler/region_sampler.py:71-72 | For every target that `randint` can draw, the longer edge stays within the limit and the shorter edge stays within the top of the range. If the target ratio binds, the shorter edge lands inside the range. |
| `RegionSampler.EarlyError` | data_pipeline/sampler/region_sampler.py:68-80 | The call stops before any change exactly when the image is missing, has no shape or has a zero edge, or when `bboxes` is present and not a box list. A missing image is reported as such. A malformed box list is reported only for a usable image. |
| `RegionSampler.RescaledEntries` | data_pipeline/sampler/region_sampler.py:75-80 | Only `bboxes` is rewritten, and only if present, with the rescaled list. Every other key keeps its value. |
| `RegionSampler.Updated` | data_pipeline/sampler/region_sampler.py:75-87 | The update replaces `image`, rewrites `bboxes` only if present, and sets `resize_scale`. No other key changes. |
| `RegionSampler.Apply` | data_pipeline/sampler/region_sampler.py:67-89 | The early failures (no image, no shape, a zero edge, a malformed box list) leave the sample unchanged. A negative output size fails in the crop after the boxes were rewritten. Otherwise the sample is updated as above. The new image is a fresh canvas of exactly `output_size`, holding the resized image's top-left block and zero elsewhere. The crop never fails on shapes. |

## Left out

- `cv2.resize` (line 74) is a foreign call with an unspecified kernel and rounded output dimensions. `Apply` takes its result as the parameter `resized`, of arbitrary shape.
- `Apply`: `resized` presumes that `cv2.resize` returned. Its failures on a non-positive scale, or on a scale that rounds an edge to 0, are not modelled. The source raises there at line 74, before line 80, and leaves the sample untouched, whereas `Apply` returns `Done`. A zero or negative scale arises only from a non-positive target or limit, which the constructor accepts.
- `random.randint` (line 71) is replaced by the parameter `target`, which is required to lie in `[shorter_min, shorter_max]`. That inclusive interval is exactly what `randint` draws from.
- Floating point: the scale and the box products are exact `real`s, so the bounds hold in the source only up to float rounding.
- numpy dtypes and channel counts: a pixel is a generic value with a given zero. A 2-D image has scalar pixels, and an H x W x 3 image has pixels that are channel triples. The two branches at lines 109-112 therefore coincide.
- The comment at line 77 claims that boxes stay inside the image. The code does not clamp boxes, so no such property is stated.
- `BaseRegionSampler` (lines 15-40) is an interface whose methods only raise `NotImplementedError`. It has no counterpart, and `Sampler` provides the three operations directly.
- `Sampler.NumRegions` and `Sampler.OutputSize` are plain getters. What they return is stated in the contract of `NewSampler`.
- `isinstance(resize_shorter_range, tuple)` (line 56) is enforced by the type `seq<int>`.
- Errors a sample can raise are reduced to their kinds: no image, no shape, a zero edge, a `bboxes` value that is not a box list, and a crop failure. A box list whose entries are not 4-number records cannot be expressed.
