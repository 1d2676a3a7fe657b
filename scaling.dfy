/**
 * The resize policy of TypicalCOCOTrainingRegionSampler: one uniform scale factor that brings
 * the shorter edge to a target length unless that would push the longer edge past a limit,
 * and the matching rescaling of bounding boxes. Arithmetic is exact (`real`).
 */
module Scaling {
  import opened Slicing

  function MinReal(a: real, b: real): real { if a <= b then a else b }

  function MaxReal(a: real, b: real): real { if a >= b then a else b }

  /**
   * `min(longer_limit / max(h, w), shorter_target / min(h, w))`. Python's `/` on the integer
   * edge lengths is true division; a zero edge raises ZeroDivisionError, hence the requires.
   * The chosen scale is one of the two candidate ratios, keeps the longer edge within the
   * limit and the shorter edge within the target, and is positive when both are.
   */
  function ResizeScale(imH: nat, imW: nat, longerLimit: int, shorterTarget: int): (s: real)
    requires imH > 0 && imW > 0
    ensures var longer, shorter := Max(imH, imW) as real, Min(imH, imW) as real;
      && (s == longerLimit as real / longer || s == shorterTarget as real / shorter)
      && longer * s <= longerLimit as real
      && shorter * s <= shorterTarget as real
      && (longerLimit > 0 && shorterTarget > 0 ==> s > 0.0)
  {
    var longer, shorter := Max(imH, imW) as real, Min(imH, imW) as real;
    var byLonger, byShorter := longerLimit as real / longer, shorterTarget as real / shorter;
    assert longer * byLonger == longerLimit as real;
    assert shorter * byShorter == shorterTarget as real;
    MinReal(byLonger, byShorter)
  }

  /**
   * Whichever constraint is tighter is met exactly: the shorter edge lands on the target when
   * the target ratio is the smaller one, and otherwise the longer edge lands on the limit.
   */
  lemma ResizeScaleBindingEdge(imH: nat, imW: nat, longerLimit: int, shorterTarget: int)
    requires imH > 0 && imW > 0
    ensures var s, longer, shorter := ResizeScale(imH, imW, longerLimit, shorterTarget), Max(imH, imW), Min(imH, imW);
      if shorterTarget as real / shorter as real <= longerLimit as real / longer as real
      then shorter as real * s == shorterTarget as real
      else longer as real * s == longerLimit as real
  {
    var longer, shorter := Max(imH, imW) as real, Min(imH, imW) as real;
    assert longer * (longerLimit as real / longer) == longerLimit as real;
    assert shorter * (shorterTarget as real / shorter) == shorterTarget as real;
  }

  /**
   * Python's `int()` on a number: truncation toward zero. The result is the integer nearest
   * to v on the side of zero.
   */
  function Trunc(v: real): (t: int)
    ensures v >= 0.0 ==> 0 <= t && t as real <= v < t as real + 1.0
    ensures v < 0.0 ==> t <= 0 && t as real - 1.0 < v <= t as real
  {
    if v >= 0.0 then v.Floor else -((-v).Floor)
  }

  /** A bounding box `[x, y, w, h]`: top-left corner, width and height, in pixels. */
  datatype Box = Box(x: real, y: real, w: real, h: real)

  /** t is the truncation toward zero of v: an integer at distance below 1 from v, on the side of zero. */
  predicate TruncatesTo(v: real, t: real)
  {
    && t == t.Floor as real
    && (v >= 0.0 ==> 0.0 <= t <= v < t + 1.0)
    && (v < 0.0 ==> t - 1.0 < v <= t <= 0.0)
  }

  /** A scaled size: the product, raised to one pixel when it is smaller. */
  predicate AtLeastOnePixel(v: real, size: real)
  {
    size >= 1.0 && size >= v && (size == v || size == 1.0)
  }

  /**
   * `[int(x*s), int(y*s), max(w*s, 1), max(h*s, 1)]`: the corner is the scaled corner truncated
   * to an integer toward zero, and the size is the scaled size raised to at least one pixel.
   */
  function RescaleBox(b: Box, s: real): (r: Box)
    ensures TruncatesTo(b.x * s, r.x) && TruncatesTo(b.y * s, r.y)
    ensures AtLeastOnePixel(b.w * s, r.w) && AtLeastOnePixel(b.h * s, r.h)
  {
    var tx, ty := Trunc(b.x * s), Trunc(b.y * s);
    assert (tx as real).Floor == tx && (ty as real).Floor == ty;
    Box(tx as real, ty as real, MaxReal(b.w * s, 1.0), MaxReal(b.h * s, 1.0))
  }

  /**
   * The list comprehension over all boxes: it keeps their number and order, and box k of the
   * result is box k of the input rescaled.
   */
  function RescaleBoxes(boxes: seq<Box>, s: real): (r: seq<Box>)
    ensures |r| == |boxes|
    ensures forall k :: 0 <= k < |boxes| ==> r[k] == RescaleBox(boxes[k], s)
  {
    if boxes == [] then []
    else
      var rest := RescaleBoxes(boxes[1..], s);
      assert forall k :: 1 <= k < |boxes| ==> boxes[1..][k - 1] == boxes[k];
      [RescaleBox(boxes[0], s)] + rest
  }

  /**
   * The default configuration on a 600 x 1000 image: the longer edge binds (1333/1000 is below
   * 800/600), and the box [100, 100, 50, 50] becomes [133, 133, 66.65, 66.65].
   */
  lemma DefaultConfigurationExample()
    ensures ResizeScale(600, 1000, 1333, 800) == 1.333
    ensures RescaleBox(Box(100.0, 100.0, 50.0, 50.0), 1.333) == Box(133.0, 133.0, 66.65, 66.65)
  {
  }
}
