/**
 * The slice arithmetic of crop_from_image: the destination slice of the zero buffer and the
 * source slice of the image, one axis at a time, with Python's normalisation of slice bounds.
 */
module Slicing {

  function Max(a: int, b: int): int { if a >= b then a else b }

  function Min(a: int, b: int): int { if a <= b then a else b }

  /** The positions `start .. start + len - 1` that a slice selects on one axis. */
  datatype Span = Span(start: nat, len: nat)

  /**
   * How CPython adjusts one bound of a step-1 slice against an axis of length n:
   * a negative bound counts from the end, and the result is clamped into [0, n].
   */
  function AdjustBound(v: int, n: nat): (b: nat)
    ensures b <= n
    ensures 0 <= v <= n ==> b == v
    ensures v < 0 && 0 <= v + n ==> b == v + n
    ensures v + n < 0 ==> b == 0
    ensures v > n ==> b == n
  {
    if v < 0 then (if v + n < 0 then 0 else v + n)
    else if v > n then n
    else v
  }

  /** The positions selected by `a[start:stop]` on an axis of length n. */
  function PySlice(start: int, stop: int, n: nat): (s: Span)
    ensures s.start + s.len <= n
    ensures 0 <= start <= stop <= n ==> s == Span(start, stop - start)
    ensures stop <= start && 0 <= stop ==> s.len == 0
  {
    var lo, hi := AdjustBound(start, n), AdjustBound(stop, n);
    Span(lo, if hi > lo then hi - lo else 0)
  }

  /**
   * One axis of the slice assignment in crop_from_image, for a region that starts at `c`
   * and spans `extent` positions over an image axis of length `imLen`.
   */
  datatype AxisCopy = AxisCopy(dst: Span, src: Span)

  function AxisSlices(c: int, extent: nat, imLen: nat): (a: AxisCopy)
    ensures a.dst.start + a.dst.len <= extent
    ensures a.src.start + a.src.len <= imLen
  {
    AxisCopy(PySlice(Max(0, -c), Min(extent, imLen - c), extent),
             PySlice(Max(0, c), Min(imLen, extent + c), imLen))
  }

  /**
   * numpy accepts the assignment on an axis when the source extent equals the destination
   * extent or is 1 (a length-1 axis is broadcast); otherwise it raises ValueError.
   */
  predicate Broadcasts(a: AxisCopy)
  {
    a.src.len == a.dst.len || a.src.len == 1
  }

  /** The region reaches or overlaps the image on this axis. */
  predicate Touches(c: int, extent: nat, imLen: nat)
  {
    c <= imLen && 0 <= c + extent
  }

  /** Destination position r is written by the assignment. */
  predicate Copies(a: AxisCopy, r: int)
  {
    a.dst.start <= r < a.dst.start + a.dst.len
  }

  /**
   * When the region touches the image, the normalised destination and source slices have
   * equal extents, both equal to the overlap of the region with the image, and the source
   * slice is the destination slice shifted by the region's origin.
   */
  lemma TouchingExtentsMatch(c: int, extent: nat, imLen: nat)
    requires Touches(c, extent, imLen)
    ensures var a := AxisSlices(c, extent, imLen);
      && a.dst.len == a.src.len == Max(0, Min(c + extent, imLen) - Max(c, 0))
      && a.src.start == a.dst.start + c
  {
  }

  /**
   * Exactly when numpy accepts one axis of the assignment: the region touches the image, or
   * lies past the far edge by at least its own extent, or lies so far before the near edge
   * that at most one source position is selected.
   */
  lemma BroadcastsIff(c: int, extent: nat, imLen: nat)
    ensures Broadcasts(AxisSlices(c, extent, imLen))
        <==> Touches(c, extent, imLen) || imLen + extent <= c || c + extent + imLen <= 1
  {
  }

  /**
   * Whenever numpy accepts an axis, the assignment writes exactly the destination positions
   * whose source position c + r lies inside the image, and reads each from c + r.
   */
  lemma AcceptedAxisCopiesOverlap(c: int, extent: nat, imLen: nat)
    requires Broadcasts(AxisSlices(c, extent, imLen))
    ensures var a := AxisSlices(c, extent, imLen);
      && (a.dst.len == 0 || (a.dst.len == a.src.len && a.src.start == a.dst.start + c))
      && forall r :: 0 <= r < extent ==> (Copies(a, r) <==> 0 <= c + r < imLen)
  {
  }

  /** A region anchored at the origin always touches the image, and copies its top-left block. */
  lemma OriginAxisCopiesPrefix(extent: nat, imLen: nat)
    ensures Touches(0, extent, imLen)
    ensures AxisSlices(0, extent, imLen) == AxisCopy(Span(0, Min(extent, imLen)), Span(0, Min(extent, imLen)))
  {
  }

  /**
   * A 10-row image and a region at row 12 of height 5: the destination slice `[0:-2]` has
   * three rows and the source slice `[12:10]` none, so numpy rejects the assignment.
   */
  lemma NearFarEdgeRejected()
    ensures AxisSlices(12, 5, 10) == AxisCopy(Span(0, 3), Span(10, 0))
    ensures !Broadcasts(AxisSlices(12, 5, 10))
  {
  }

  /**
   * A 10-row image and a region at row -10 of height 5: the destination slice `[10:5]` has no
   * rows and the source slice `[0:-5]` five, so numpy rejects the assignment.
   */
  lemma NearEdgeRejected()
    ensures AxisSlices(-10, 5, 10) == AxisCopy(Span(5, 0), Span(0, 5))
    ensures !Broadcasts(AxisSlices(-10, 5, 10))
  {
  }
}
