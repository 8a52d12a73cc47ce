/**
  * Integer geometry of a scan cycle: the centred region of interest, the
  * 90-degree clockwise rotation of a crop and the back-map of a polygon
  * found in the rotated crop, and the offset from crop to frame coordinates.
  */
module Geometry {
  import opened Config

  datatype Point = Point(x: int, y: int)

  /** Corners (x0, y0) inclusive and (x1, y1) exclusive. */
  datatype Rect = Rect(x0: int, y0: int, x1: int, y1: int)

  /** The width and height of the crop `frame[y0:y1, x0:x1]`. */
  function Width(r: Rect): int { r.x1 - r.x0 }
  function Height(r: Rect): int { r.y1 - r.y0 }

  /** Whether `p` is a pixel of a `w` by `h` image. */
  predicate InImage(p: Point, w: int, h: int) {
    0 <= p.x < w && 0 <= p.y < h
  }

  predicate InRect(p: Point, r: Rect) {
    r.x0 <= p.x < r.x1 && r.y0 <= p.y < r.y1
  }

  predicate PolygonInImage(poly: seq<Point>, w: int, h: int) {
    forall i :: 0 <= i < |poly| ==> InImage(poly[i], w, h)
  }

  predicate PolygonInRect(poly: seq<Point>, r: Rect) {
    forall i :: 0 <= i < |poly| ==> InRect(poly[i], r)
  }

  /** `_compute_roi_rect`: a rectangle whose height is the integer part of
      35% of the frame height and whose width is the integer part of 90% of
      the frame width, centred in the frame (any odd pixel of slack goes to
      the right or bottom margin). */
  function Roi(w: nat, h: nat): (r: Rect)
    ensures 0 <= r.x0 <= r.x1 <= w && 0 <= r.y0 <= r.y1 <= h
    ensures 100 * (r.x1 - r.x0) <= RoiWidthPercent * w < 100 * (r.x1 - r.x0 + 1)
    ensures 100 * (r.y1 - r.y0) <= RoiHeightPercent * h < 100 * (r.y1 - r.y0 + 1)
    ensures r.x0 <= w - r.x1 <= r.x0 + 1
    ensures r.y0 <= h - r.y1 <= r.y0 + 1
  {
    var roiH := h * RoiHeightPercent / 100;
    var roiW := w * RoiWidthPercent / 100;
    var x0 := (w - roiW) / 2;
    var y0 := (h - roiH) / 2;
    Rect(x0, y0, x0 + roiW, y0 + roiH)
  }

  /** The region is a proper rectangle once the frame is at least 2 pixels
      wide and 3 high; smaller frames give an empty but well-formed one. */
  lemma RoiNonEmpty(w: nat, h: nat)
    requires w >= 2 && h >= 3
    ensures Roi(w, h).x0 < Roi(w, h).x1 && Roi(w, h).y0 < Roi(w, h).y1
  {
  }

  /** Where `cv2.ROTATE_90_CLOCKWISE` moves pixel `p` of a crop `height` rows high. */
  function RotateClockwise(p: Point, height: int): Point {
    Point(height - 1 - p.y, p.x)
  }

  /** The back-map `(x, y) -> (y, W - 1 - x)` from the rotated crop, `w` wide,
      to the original crop. */
  function RotateBack(q: Point, w: int): (p: Point)
    ensures RotateClockwise(p, w) == q
  {
    Point(q.y, w - 1 - q.x)
  }

  /** The back-map undoes the rotation and the rotation undoes the back-map
      (the rotated crop is as wide as the original is high). */
  lemma RotateBackInverts(p: Point, q: Point, height: int)
    ensures RotateBack(RotateClockwise(p, height), height) == p
    ensures RotateClockwise(RotateBack(q, height), height) == q
  {
  }

  /** A pixel of the rotated crop (`w` wide, `h` high) maps back to a pixel of
      the original crop (`h` wide, `w` high). */
  lemma RotateBackInImage(q: Point, w: int, h: int)
    requires InImage(q, w, h)
    ensures InImage(RotateBack(q, w), h, w)
  {
  }

  function RotateBackPolygon(poly: seq<Point>, w: int): (r: seq<Point>)
    ensures |r| == |poly|
    ensures forall i :: 0 <= i < |r| ==> r[i] == RotateBack(poly[i], w)
  {
    seq(|poly|, i requires 0 <= i < |poly| => RotateBack(poly[i], w))
  }

  /** Moves a crop-local polygon into frame coordinates (`+x0`, `+y0`). */
  function OffsetPolygon(poly: seq<Point>, dx: int, dy: int): (r: seq<Point>)
    ensures |r| == |poly|
    ensures forall i :: 0 <= i < |r| ==> r[i] == Point(poly[i].x + dx, poly[i].y + dy)
  {
    seq(|poly|, i requires 0 <= i < |poly| => Point(poly[i].x + dx, poly[i].y + dy))
  }

  /** A polygon inside the crop of the region of interest lands, once offset,
      inside that region and so inside the frame. */
  lemma CropPolygonInFrame(poly: seq<Point>, w: nat, h: nat)
    requires PolygonInImage(poly, Roi(w, h).x1 - Roi(w, h).x0, Roi(w, h).y1 - Roi(w, h).y0)
    ensures PolygonInRect(OffsetPolygon(poly, Roi(w, h).x0, Roi(w, h).y0), Roi(w, h))
    ensures PolygonInImage(OffsetPolygon(poly, Roi(w, h).x0, Roi(w, h).y0), w, h)
  {
  }

  /** The whole rotated-fallback path: a polygon inside the rotated crop of
      the region, mapped back and offset, lies inside the region of the frame. */
  lemma RotatedPolygonInFrame(poly: seq<Point>, w: nat, h: nat)
    requires PolygonInImage(poly, Roi(w, h).y1 - Roi(w, h).y0, Roi(w, h).x1 - Roi(w, h).x0)
    ensures PolygonInRect(OffsetPolygon(RotateBackPolygon(poly, Roi(w, h).y1 - Roi(w, h).y0), Roi(w, h).x0, Roi(w, h).y0), Roi(w, h))
  {
    var r := Roi(w, h);
    var back := RotateBackPolygon(poly, r.y1 - r.y0);
    forall i | 0 <= i < |back|
      ensures InImage(back[i], r.x1 - r.x0, r.y1 - r.y0)
    {
      RotateBackInImage(poly[i], r.y1 - r.y0, r.x1 - r.x0);
    }
    CropPolygonInFrame(back, w, h);
  }
}
