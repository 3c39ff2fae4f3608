// Axis-aligned boxes in XYXY form (src/ir/bbox.rs). Coordinates are reals;
// the `finite` flag stands for "every f64 coordinate is finite", since an
// IEEE NaN or infinity has no real value. The constructor does not require
// min <= max: malformed boxes are representable and reported by validation.
module BBoxes {
  datatype BBox = BBox(xmin: real, ymin: real, xmax: real, ymax: real, finite: bool)

  /** `BBoxXYXY::from_xyxy`: stores the four coordinates as given. */
  function FromXyxy(xmin: real, ymin: real, xmax: real, ymax: real): (b: BBox)
    ensures b.xmin == xmin && b.ymin == ymin && b.xmax == xmax && b.ymax == ymax
    ensures b.finite
  {
    BBox(xmin, ymin, xmax, ymax, true)
  }

  /** May be negative for a malformed box: there is no clamping. */
  function Width(b: BBox): real { b.xmax - b.xmin }

  function Height(b: BBox): real { b.ymax - b.ymin }

  function Area(b: BBox): real { Width(b) * Height(b) }

  predicate IsFinite(b: BBox) { b.finite }

  predicate IsOrdered(b: BBox) { b.xmin <= b.xmax && b.ymin <= b.ymax }

  /** `Default for BBoxXYXY`: the degenerate box at the origin. */
  function Default(): (b: BBox)
    ensures b.finite && IsOrdered(b)
    ensures b.xmin == 0.0 && b.ymin == 0.0 && b.xmax == 0.0 && b.ymax == 0.0
  {
    FromXyxy(0.0, 0.0, 0.0, 0.0)
  }

  /** A box is ordered exactly when neither side is negative. */
  lemma OrderedIffSidesNonNegative(b: BBox)
    ensures IsOrdered(b) <==> Width(b) >= 0.0 && Height(b) >= 0.0
  {
  }

  /** Ordered boxes have non-negative area; a box inverted on exactly one axis has negative area. */
  lemma AreaSign(b: BBox)
    ensures IsOrdered(b) ==> Area(b) >= 0.0
    ensures (b.xmax < b.xmin && b.ymin < b.ymax) ==> Area(b) < 0.0
    ensures (b.xmin < b.xmax && b.ymax < b.ymin) ==> Area(b) < 0.0
  {
    if b.xmax < b.xmin && b.ymin < b.ymax {
      assert Width(b) < 0.0 && Height(b) > 0.0;
    }
    if b.xmin < b.xmax && b.ymax < b.ymin {
      assert Width(b) > 0.0 && Height(b) < 0.0;
    }
  }

  /** `from_xywh`: top-left corner plus size. */
  function FromXywh(x: real, y: real, w: real, h: real): (b: BBox)
    ensures b.xmin == x && b.ymin == y && Width(b) == w && Height(b) == h
    ensures b.finite
  {
    FromXyxy(x, y, x + w, y + h)
  }

  /** `to_xywh`: (xmin, ymin, width, height). */
  function ToXywh(b: BBox): (r: (real, real, real, real))
    ensures r.0 == b.xmin && r.1 == b.ymin && r.0 + r.2 == b.xmax && r.1 + r.3 == b.ymax
  {
    (b.xmin, b.ymin, Width(b), Height(b))
  }

  lemma XywhRoundTrip(b: BBox)
    requires b.finite
    ensures var t := ToXywh(b); FromXywh(t.0, t.1, t.2, t.3) == b
  {
  }

  lemma XywhRoundTripFromParts(x: real, y: real, w: real, h: real)
    ensures ToXywh(FromXywh(x, y, w, h)) == (x, y, w, h)
  {
  }

  /**
   * `to_normalized`: divides x coordinates by the image width and y
   * coordinates by the height. Dividing by a zero dimension gives an IEEE
   * NaN or infinity, so the result is then not finite.
   */
  function ToNormalized(b: BBox, imageWidth: real, imageHeight: real): (n: BBox)
    ensures n.finite <==> b.finite && imageWidth != 0.0 && imageHeight != 0.0
    ensures imageWidth != 0.0 ==> n.xmin * imageWidth == b.xmin && n.xmax * imageWidth == b.xmax
    ensures imageHeight != 0.0 ==> n.ymin * imageHeight == b.ymin && n.ymax * imageHeight == b.ymax
  {
    var sx := if imageWidth != 0.0 then 1.0 / imageWidth else 0.0;
    var sy := if imageHeight != 0.0 then 1.0 / imageHeight else 0.0;
    BBox(b.xmin * sx, b.ymin * sy, b.xmax * sx, b.ymax * sy,
         b.finite && imageWidth != 0.0 && imageHeight != 0.0)
  }

  /** `to_pixel`: multiplies x coordinates by the width and y coordinates by the height. */
  function ToPixel(n: BBox, imageWidth: real, imageHeight: real): (b: BBox)
    ensures b.finite == n.finite
    ensures imageWidth != 0.0 ==> b.xmin / imageWidth == n.xmin && b.xmax / imageWidth == n.xmax
    ensures imageHeight != 0.0 ==> b.ymin / imageHeight == n.ymin && b.ymax / imageHeight == n.ymax
  {
    BBox(n.xmin * imageWidth, n.ymin * imageHeight, n.xmax * imageWidth, n.ymax * imageHeight, n.finite)
  }

  /** Normalizing then scaling back restores the pixel box. */
  lemma PixelRoundTrip(b: BBox, imageWidth: real, imageHeight: real)
    requires b.finite && imageWidth > 0.0 && imageHeight > 0.0
    ensures ToPixel(ToNormalized(b, imageWidth, imageHeight), imageWidth, imageHeight) == b
  {
  }

  lemma NormalizedRoundTrip(n: BBox, imageWidth: real, imageHeight: real)
    requires imageWidth > 0.0 && imageHeight > 0.0
    ensures ToNormalized(ToPixel(n, imageWidth, imageHeight), imageWidth, imageHeight) == n
  {
  }

  /** x coordinates depend on the width only, y coordinates on the height only. */
  lemma NormalizedAxesIndependent(b: BBox, w1: real, h1: real, w2: real, h2: real)
    requires w1 != 0.0 && h1 != 0.0 && w2 != 0.0 && h2 != 0.0
    ensures w1 == w2 ==> ToNormalized(b, w1, h1).xmin == ToNormalized(b, w2, h2).xmin
                         && ToNormalized(b, w1, h1).xmax == ToNormalized(b, w2, h2).xmax
    ensures h1 == h2 ==> ToNormalized(b, w1, h1).ymin == ToNormalized(b, w2, h2).ymin
                         && ToNormalized(b, w1, h1).ymax == ToNormalized(b, w2, h2).ymax
  {
  }
}
