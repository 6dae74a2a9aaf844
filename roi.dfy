// The region of interest of a camera: the crop rectangle cut out of each
// frame, and the check and adjustment applied when the region is changed.

module Roi {
  import opened Common
  import opened Config

  /** The cached crop rows y1..y2 and columns x1..x2 (end exclusive), as the
      slice frame[y1:y2, x1:x2]. */
  datatype Crop = Crop(y1: int, y2: int, x1: int, x2: int)

  /** The crop of a w-by-h frame: the region's corner pulled inside the
      frame and its far edges cut at the frame's edges. For a non-empty
      frame and a region of non-negative size the crop lies in the frame. */
  function CropOf(roi: Rect, w: int, h: int): (c: Crop)
    ensures w >= 1 && roi.w >= 0 ==> 0 <= c.x1 <= w - 1 && c.x1 <= c.x2 <= w
    ensures h >= 1 && roi.h >= 0 ==> 0 <= c.y1 <= h - 1 && c.y1 <= c.y2 <= h
    ensures c.x2 - c.x1 <= roi.w && c.y2 - c.y1 <= roi.h
  {
    var x1 := Max(0, Min(roi.x, w - 1));
    var y1 := Max(0, Min(roi.y, h - 1));
    Crop(y1, Min(y1 + roi.h, h), x1, Min(x1 + roi.w, w))
  }

  /** A region that lies inside the frame is cut out exactly. */
  lemma CropInside(roi: Rect, w: int, h: int)
    requires 0 <= roi.x && 0 <= roi.w && roi.x + roi.w <= w && roi.x < w
    requires 0 <= roi.y && 0 <= roi.h && roi.y + roi.h <= h && roi.y < h
    ensures CropOf(roi, w, h) == Crop(roi.y, roi.y + roi.h, roi.x, roi.x + roi.w)
  {
  }

  /** The check update_roi applies first: a non-negative corner and a
      positive size. */
  predicate Acceptable(roi: Rect)
  {
    roi.x >= 0 && roi.y >= 0 && roi.w > 0 && roi.h > 0
  }

  /** The adjustment update_roi applies to a region that reaches past the
      right or bottom edge of a w-by-h picture; a region inside is kept. */
  function Adjust(roi: Rect, w: int, h: int): Rect
  {
    if roi.x + roi.w > w || roi.y + roi.h > h then
      var x := Min(roi.x, w - 1);
      var y := Min(roi.y, h - 1);
      Rect(x, y, Min(roi.w, w - x), Min(roi.h, h - y))
    else roi
  }

  /** For an acceptable region and a non-empty picture, the adjusted region
      is acceptable again and fits the picture, and a fitting region is left
      as it was. */
  lemma AdjustFits(roi: Rect, w: int, h: int)
    requires Acceptable(roi) && w >= 1 && h >= 1
    ensures var r := Adjust(roi, w, h);
      && Acceptable(r) && r.x + r.w <= w && r.y + r.h <= h
      && (roi.x + roi.w <= w && roi.y + roi.h <= h ==> r == roi)
  {
  }

  /** Adjustment keeps what it can: the corner only moves when it was outside
      the picture, and the size only shrinks. */
  lemma AdjustKeeps(roi: Rect, w: int, h: int)
    requires Acceptable(roi) && w >= 1 && h >= 1
    ensures var r := Adjust(roi, w, h);
      && r.x <= roi.x && r.y <= roi.y && r.w <= roi.w && r.h <= roi.h
      && (roi.x < w ==> r.x == roi.x) && (roi.y < h ==> r.y == roi.y)
  {
  }

  /** A picture that reports width 0 (the camera property is unknown) turns
      an acceptable region into one with corner x = -1, which the next
      update_roi refuses. */
  lemma AdjustZeroWidth(roi: Rect, h: int)
    requires Acceptable(roi)
    ensures Adjust(roi, 0, h).x == -1 && !Acceptable(Adjust(roi, 0, h))
  {
  }

  /** The crop of an adjusted region is exactly that region. */
  lemma CropOfAdjusted(roi: Rect, w: int, h: int)
    requires Acceptable(roi) && w >= 1 && h >= 1
    ensures var r := Adjust(roi, w, h);
      CropOf(r, w, h) == Crop(r.y, r.y + r.h, r.x, r.x + r.w)
  {
    AdjustFits(roi, w, h);
    CropInside(Adjust(roi, w, h), w, h);
  }
}
