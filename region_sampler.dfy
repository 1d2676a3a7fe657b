/**
 * TypicalCOCOTrainingRegionSampler: validated configuration, the two getters, and the call
 * that rescales a sample's image and boxes and places the image in the top-left corner of a
 * fixed-size zero canvas.
 */
module RegionSampler {
  import opened Results
  import opened Slicing
  import opened Cropping
  import opened Scaling

  /** The immutable configuration fixed by the constructor. */
  datatype Sampler = Sampler(outputSize: (int, int), shorterMin: int, shorterMax: int, longerLimit: int)
  {
    /** Regions produced per sample. */
    function NumRegions(): nat { 1 }

    /** The (height, width) of every output image. */
    function OutputSize(): (int, int) { outputSize }
  }

  datatype ConfigError =
    | EmptyShorterRange  // `max(())` raises ValueError
    | ShorterAboveLimit  // `assert max(resize_shorter_range) <= resize_longer_limit`

  /** Python's `min` over a non-empty tuple. */
  function SeqMin(s: seq<int>): (m: int)
    requires |s| > 0
    ensures m in s && forall x :: x in s ==> m <= x
  {
    if |s| == 1 then s[0]
    else
      var rest := SeqMin(s[1..]);
      assert forall x :: x in s ==> x == s[0] || x in s[1..];
      if s[0] <= rest then s[0] else rest
  }

  /** Python's `max` over a non-empty tuple. */
  function SeqMax(s: seq<int>): (m: int)
    requires |s| > 0
    ensures m in s && forall x :: x in s ==> x <= m
  {
    if |s| == 1 then s[0]
    else
      var rest := SeqMax(s[1..]);
      assert forall x :: x in s ==> x == s[0] || x in s[1..];
      if s[0] >= rest then s[0] else rest
  }

  /**
   * The constructor: fails where its assertions (or `max` of an empty tuple) fail, and otherwise
   * records the output size, the limit and the bounds of the shorter-edge range.
   */
  function NewSampler(outputSize: (int, int), shorterRange: seq<int>, longerLimit: int): (r: Result<Sampler, ConfigError>)
    ensures r.Ok? <==> |shorterRange| > 0 && forall x :: x in shorterRange ==> x <= longerLimit
    ensures |shorterRange| == 0 ==> r == Err(EmptyShorterRange)
    ensures r.Ok? ==>
      && r.value.OutputSize() == outputSize
      && r.value.NumRegions() == 1
      && r.value.longerLimit == longerLimit
      && r.value.shorterMin in shorterRange && r.value.shorterMax in shorterRange
      && (forall x :: x in shorterRange ==> r.value.shorterMin <= x <= r.value.shorterMax)
      && r.value.shorterMin <= r.value.shorterMax <= r.value.longerLimit
  {
    if |shorterRange| == 0 then Err(EmptyShorterRange)
    else if SeqMax(shorterRange) > longerLimit then Err(ShorterAboveLimit)
    else Ok(Sampler(outputSize, SeqMin(shorterRange), SeqMax(shorterRange), longerLimit))
  }

  /** The defaults `output_size=(1333, 1333)`, `resize_shorter_range=(800,)`, `resize_longer_limit=1333` are accepted. */
  lemma DefaultSamplerAccepted()
    ensures NewSampler((1333, 1333), [800], 1333) == Ok(Sampler((1333, 1333), 800, 800, 1333))
  {
  }

  /**
   * For any target the draw can produce, the scaled longer edge stays within the limit and the
   * scaled shorter edge within the top of the range; when the target ratio is the tighter one,
   * the shorter edge lands inside the range itself.
   */
  lemma SampleScaleBounds(sampler: Sampler, imH: nat, imW: nat, target: int)
    requires imH > 0 && imW > 0
    requires sampler.shorterMin <= target <= sampler.shorterMax
    ensures var s, longer, shorter := ResizeScale(imH, imW, sampler.longerLimit, target), Max(imH, imW) as real, Min(imH, imW) as real;
      && longer * s <= sampler.longerLimit as real
      && shorter * s <= sampler.shorterMax as real
      && (target as real / shorter <= sampler.longerLimit as real / longer ==>
            sampler.shorterMin as real <= shorter * s <= sampler.shorterMax as real)
  {
    var s := ResizeScale(imH, imW, sampler.longerLimit, target);
    assert Min(imH, imW) as real * s <= target as real;
    ResizeScaleBindingEdge(imH, imW, sampler.longerLimit, target);
  }

  const IMAGE := "image"
  const BBOXES := "bboxes"
  const RESIZE_SCALE := "resize_scale"

  /** A value held in a sample: an image, a box list, a scale, or anything else the sampler never inspects. */
  datatype Value<P> =
    | ImageValue(pixels: array2<P>)
    | BoxesValue(boxes: seq<Box>)
    | ScaleValue(scale: real)
    | Opaque(tag: nat)

  /** The sample dictionary, which the call updates in place. */
  class Sample<P> {
    var entries: map<string, Value<P>>
  }

  datatype SampleError =
    | MissingImage               // `assert 'image' in sample`
    | NotAnImage                 // the image has no `.shape`
    | EmptyImage                 // a zero edge: ZeroDivisionError in the scale
    | MalformedBoxes             // `bboxes` is not a list of boxes
    | CropFailed(why: CropError) // crop_from_image raised

  datatype Outcome = Done | Failed(error: SampleError)

  /**
   * The error the call stops at before it changes anything: no image, an image without a
   * shape, a zero edge (division by zero in the scale), or a `bboxes` entry that is not a box
   * list. The box list is looked at only once the image is known to be usable.
   */
  function EarlyError<P>(e: map<string, Value<P>>): (r: Option<SampleError>)
    ensures r.None? <==>
      && IMAGE in e && e[IMAGE].ImageValue?
      && e[IMAGE].pixels.Length0 > 0 && e[IMAGE].pixels.Length1 > 0
      && (BBOXES in e ==> e[BBOXES].BoxesValue?)
    ensures r == Some(MissingImage) <==> IMAGE !in e
    ensures r == Some(MalformedBoxes) ==>
      && IMAGE in e && e[IMAGE].ImageValue?
      && e[IMAGE].pixels.Length0 > 0 && e[IMAGE].pixels.Length1 > 0
    ensures r.Some? ==> r.value != CropFailed(NegativeDimension) && r.value != CropFailed(ShapeMismatch)
  {
    if IMAGE !in e then Some(MissingImage)
    else if !e[IMAGE].ImageValue? then Some(NotAnImage)
    else if e[IMAGE].pixels.Length0 == 0 || e[IMAGE].pixels.Length1 == 0 then Some(EmptyImage)
    else if BBOXES in e && !e[BBOXES].BoxesValue? then Some(MalformedBoxes)
    else None
  }

  /** The scale the call picks for the sample's image and the drawn shorter-edge target. */
  function SampleScale<P>(sampler: Sampler, e: map<string, Value<P>>, target: int): real
    requires EarlyError(e).None?
  {
    ResizeScale(e[IMAGE].pixels.Length0, e[IMAGE].pixels.Length1, sampler.longerLimit, target)
  }

  /** The entries after line 80: the box list rescaled, if the sample holds one; nothing else changes. */
  function RescaledEntries<P>(e: map<string, Value<P>>, s: real): (r: map<string, Value<P>>)
    requires BBOXES in e ==> e[BBOXES].BoxesValue?
    ensures r.Keys == e.Keys
    ensures BBOXES in e ==> r[BBOXES] == BoxesValue(RescaleBoxes(e[BBOXES].boxes, s))
    ensures forall k :: k in e && k != BBOXES ==> r[k] == e[k]
  {
    if BBOXES in e then e[BBOXES := BoxesValue(RescaleBoxes(e[BBOXES].boxes, s))] else e
  }

  /**
   * The entries after the whole call. The update touches only `image`, `bboxes` and
   * `resize_scale`: `image` is replaced, `bboxes` is rewritten only when it was present,
   * `resize_scale` is set, and every other key keeps its value.
   */
  function Updated<P>(e: map<string, Value<P>>, s: real, canvas: array2<P>): (u: map<string, Value<P>>)
    requires BBOXES in e ==> e[BBOXES].BoxesValue?
    ensures u.Keys == e.Keys + {IMAGE, RESIZE_SCALE}
    ensures u[IMAGE] == ImageValue(canvas)
    ensures u[RESIZE_SCALE] == ScaleValue(s)
    ensures BBOXES in e ==> u[BBOXES] == BoxesValue(RescaleBoxes(e[BBOXES].boxes, s))
    ensures forall k :: k in e && k != IMAGE && k != BBOXES && k != RESIZE_SCALE ==> u[k] == e[k]
  {
    RescaledEntries(e, s)[IMAGE := ImageValue(canvas)][RESIZE_SCALE := ScaleValue(s)]
  }

  /**
   * The call. `target` stands for the `random.randint` draw and `resized` for what `cv2.resize`
   * returns for the image and the chosen scale, of whatever shape. A call that stops early
   * changes nothing. Otherwise the boxes are rescaled, and then either the crop refuses a
   * negative output size (with the boxes already rewritten) or the image is replaced by a
   * fresh canvas of exactly the output size holding the top-left block of `resized`, padded
   * with zero, and `resize_scale` is recorded. The crop never fails on shapes.
   */
  method Apply<P>(sampler: Sampler, sample: Sample<P>, target: int, resized: array2<P>, zero: P) returns (outcome: Outcome)
    requires sampler.shorterMin <= target <= sampler.shorterMax
    modifies sample
    ensures EarlyError(old(sample.entries)).Some? ==>
      outcome == Failed(EarlyError(old(sample.entries)).value) && sample.entries == old(sample.entries)
    ensures EarlyError(old(sample.entries)).None? ==>
      var e, s := old(sample.entries), SampleScale(sampler, old(sample.entries), target);
      if sampler.outputSize.0 < 0 || sampler.outputSize.1 < 0 then
        outcome == Failed(CropFailed(NegativeDimension)) && sample.entries == RescaledEntries(e, s)
      else
        && outcome == Done
        && IMAGE in sample.entries && sample.entries[IMAGE].ImageValue?
        && var canvas := sample.entries[IMAGE].pixels;
        && sample.entries == Updated(e, s, canvas)
        && fresh(canvas)
        && canvas.Length0 == sampler.outputSize.0 && canvas.Length1 == sampler.outputSize.1
        && forall i, j :: 0 <= i < canvas.Length0 && 0 <= j < canvas.Length1 ==>
             canvas[i, j] == if i < resized.Length0 && j < resized.Length1 then resized[i, j] else zero
  {
    if IMAGE !in sample.entries {
      return Failed(MissingImage);
    }
    var image := sample.entries[IMAGE];
    if !image.ImageValue? {
      return Failed(NotAnImage);
    }
    var imH, imW := image.pixels.Length0, image.pixels.Length1;
    if imH == 0 || imW == 0 {
      return Failed(EmptyImage);
    }
    var scale := ResizeScale(imH, imW, sampler.longerLimit, target);
    if BBOXES in sample.entries {
      var boxes := sample.entries[BBOXES];
      if !boxes.BoxesValue? {
        return Failed(MalformedBoxes);
      }
      sample.entries := sample.entries[BBOXES := BoxesValue(RescaleBoxes(boxes.boxes, scale))];
    }
    var region := Region(0, 0, sampler.outputSize.1, sampler.outputSize.0);
    if region.w >= 0 && region.h >= 0 {
      OriginAxisCopiesPrefix(region.h, resized.Length0);
      OriginAxisCopiesPrefix(region.w, resized.Length1);
    }
    var cropped := CropFromImage(resized, region, zero);
    if cropped.Err? {
      return Failed(CropFailed(cropped.error));
    }
    sample.entries := sample.entries[IMAGE := ImageValue(cropped.value)][RESIZE_SCALE := ScaleValue(scale)];
    return Done;
  }
}
