/**
 * crop_from_image: cut a rectangular region out of an image into a fresh zero-filled buffer,
 * tolerating regions that reach outside the image. A pixel is of any type `T` (a scalar for a
 * 2-D image, a channel triple for an H x W x 3 one); `zero` is the buffer's fill value.
 */
module Cropping {
  import opened Results
  import opened Slicing

  /** A crop region `[x, y, w, h]`: top-left corner, width and height, in image coordinates. */
  datatype Region = Region(x: int, y: int, w: int, h: int)

  datatype CropError =
    | NegativeDimension  // numpy.zeros refuses a negative buffer shape
    | ShapeMismatch      // the source slice does not broadcast to the destination slice

  /** numpy accepts the slice assignment for this region on an image of imH rows and imW columns. */
  predicate Accepted(imH: nat, imW: nat, region: Region)
  {
    && region.w >= 0 && region.h >= 0
    && Broadcasts(AxisSlices(region.y, region.h, imH))
    && Broadcasts(AxisSlices(region.x, region.w, imW))
  }

  /** What cell (i, j) of the crop should hold: the image pixel under it, or zero off the image. */
  function CropCell<T>(image: array2<T>, region: Region, zero: T, i: int, j: int): T
    reads image
  {
    var sy, sx := region.y + i, region.x + j;
    if 0 <= sy < image.Length0 && 0 <= sx < image.Length1 then image[sy, sx] else zero
  }

  /** Copy the rows x cols block of src at (si, sj) onto dst at (di, dj); nothing else changes. */
  method CopyBlock<T>(dst: array2<T>, src: array2<T>, di: nat, dj: nat, si: nat, sj: nat, rows: nat, cols: nat)
    requires dst != src
    requires di + rows <= dst.Length0 && dj + cols <= dst.Length1
    requires rows == 0 || cols == 0 || (si + rows <= src.Length0 && sj + cols <= src.Length1)
    modifies dst
    ensures forall i, j :: 0 <= i < dst.Length0 && 0 <= j < dst.Length1 ==>
      dst[i, j] == if di <= i < di + rows && dj <= j < dj + cols then src[si + i - di, sj + j - dj] else old(dst[i, j])
  {
    var r := 0;
    while r < rows
      invariant 0 <= r <= rows
      invariant forall i, j :: 0 <= i < dst.Length0 && 0 <= j < dst.Length1 ==>
        dst[i, j] == if di <= i < di + r && dj <= j < dj + cols then src[si + i - di, sj + j - dj] else old(dst[i, j])
    {
      var k := 0;
      while k < cols
        invariant 0 <= k <= cols
        invariant forall i, j :: 0 <= i < dst.Length0 && 0 <= j < dst.Length1 ==>
          dst[i, j] == if (di <= i < di + r && dj <= j < dj + cols) || (i == di + r && dj <= j < dj + k)
                       then src[si + i - di, sj + j - dj] else old(dst[i, j])
      {
        dst[di + r, dj + k] := src[si + r, sj + k];
        k := k + 1;
      }
      r := r + 1;
    }
  }

  /**
   * crop_from_image as written: allocate a zero buffer of the region's shape, then assign the
   * image slice to the buffer slice with Python-normalised bounds. It fails exactly where the
   * source raises, and otherwise every cell holds the image pixel under it or zero.
   */
  method CropFromImage<T>(image: array2<T>, region: Region, zero: T) returns (r: Result<array2<T>, CropError>)
    ensures r.Err? <==> !Accepted(image.Length0, image.Length1, region)
    ensures r.Err? ==> r.error == if region.w < 0 || region.h < 0 then NegativeDimension else ShapeMismatch
    ensures r.Ok? ==> && fresh(r.value)
                      && r.value.Length0 == region.h && r.value.Length1 == region.w
                      && forall i, j :: 0 <= i < region.h && 0 <= j < region.w ==>
                           r.value[i, j] == CropCell(image, region, zero, i, j)
  {
    if region.w < 0 || region.h < 0 {
      return Err(NegativeDimension);
    }
    var crop := new T[region.h, region.w]((i, j) => zero);
    var rows := AxisSlices(region.y, region.h, image.Length0);
    var cols := AxisSlices(region.x, region.w, image.Length1);
    if !Broadcasts(rows) || !Broadcasts(cols) {
      return Err(ShapeMismatch);
    }
    AcceptedAxisCopiesOverlap(region.y, region.h, image.Length0);
    AcceptedAxisCopiesOverlap(region.x, region.w, image.Length1);
    // A broadcast source axis only ever meets an empty destination axis, so the
    // assignment is a plain block copy.
    CopyBlock(crop, image, rows.dst.start, cols.dst.start, rows.src.start, cols.src.start, rows.dst.len, cols.dst.len);
    forall i, j | 0 <= i < region.h && 0 <= j < region.w
      ensures crop[i, j] == CropCell(image, region, zero, i, j)
    {
      assert Copies(rows, i) <==> 0 <= region.y + i < image.Length0;
      assert Copies(cols, j) <==> 0 <= region.x + j < image.Length1;
    }
    return Ok(crop);
  }

  /**
   * A region that lies past the image's far edge by at least its own size on one axis, and is
   * accepted on the other, is accepted, and every cell of its crop is zero.
   */
  lemma FarOutsideRegionIsBlank<T>(image: array2<T>, region: Region, zero: T)
    requires region.w >= 0 && region.h >= 0
    requires || (image.Length0 + region.h <= region.y && Broadcasts(AxisSlices(region.x, region.w, image.Length1)))
             || (image.Length1 + region.w <= region.x && Broadcasts(AxisSlices(region.y, region.h, image.Length0)))
    ensures Accepted(image.Length0, image.Length1, region)
    ensures forall i, j :: 0 <= i < region.h && 0 <= j < region.w ==> CropCell(image, region, zero, i, j) == zero
  {
    BroadcastsIff(region.y, region.h, image.Length0);
    BroadcastsIff(region.x, region.w, image.Length1);
  }
}
