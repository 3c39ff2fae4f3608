// The counting sections of `panlabel stats` (src/stats/mod.rs): the summary,
// the bounding-box checks, the image resolution spread, the annotations per
// image, and the area and aspect-ratio buckets. Each loop of the source is a
// method proved against counts over the annotation list.
module StatsCounts {
  import opened Wrappers
  import opened BBoxes
  import opened Ir
  import opened Seqs
  import opened Numbers

  // ---------------------------------------------------------------------
  // Lookups shared by the sections

  /** `image_dims`: each image ID with its size; a later image with the same ID overrides. */
  function DimsById(images: seq<Image>): (dims: map<nat, (nat, nat)>)
    ensures forall id :: id in dims <==> exists k :: 0 <= k < |images| && images[k].id == id
    ensures |images| > 0 ==> dims[images[|images| - 1].id] == (images[|images| - 1].width, images[|images| - 1].height)
  {
    if |images| == 0 then map[]
    else
      var init, img := images[..|images| - 1], images[|images| - 1];
      var rest := DimsById(init);
      assert forall k :: 0 <= k < |init| ==> init[k] == images[k];
      rest[img.id := (img.width, img.height)]
  }

  // ---------------------------------------------------------------------
  // Summary (`compute_summary`)

  datatype Summary = Summary(images: nat, categories: nat, annotations: nat, licenses: nat, annotatedImages: nat)

  /** The image IDs the annotations refer to, known images or not. */
  function AnnotatedIds(anns: seq<Annotation>): (ids: set<nat>)
    ensures forall id :: id in ids <==> exists k :: 0 <= k < |anns| && anns[k].imageId == id
    ensures |ids| <= |anns|
  {
    if |anns| == 0 then {}
    else
      var init := anns[..|anns| - 1];
      assert forall k :: 0 <= k < |init| ==> init[k] == anns[k];
      AnnotatedIds(init) + {anns[|anns| - 1].imageId}
  }

  /**
   * The summary counts: the four list lengths and the number of distinct
   * image IDs among the annotations, which is at most the number of
   * annotations and zero only when there are none.
   */
  function ComputeSummary(d: Dataset): (s: Summary)
    ensures s.images == |d.images| && s.categories == |d.categories|
    ensures s.annotations == |d.annotations| && s.licenses == |d.licenses|
    ensures s.annotatedImages <= s.annotations
    ensures s.annotatedImages == 0 <==> s.annotations == 0
  {
    var ids := AnnotatedIds(d.annotations);
    assert |d.annotations| > 0 ==> d.annotations[0].imageId in ids;
    Summary(|d.images|, |d.categories|, |d.annotations|, |d.licenses|, |ids|)
  }

  // ---------------------------------------------------------------------
  // Bounding boxes (`compute_bbox_stats`)

  datatype BoxStats = BoxStats(
    total: nat, finite: nat, ordered: nat, degenerateArea: nat,
    oobChecked: nat, outOfBounds: nat, missingImageRef: nat,
    minWidth: Option<real>, maxWidth: Option<real>,
    minHeight: Option<real>, maxHeight: Option<real>)

  predicate FiniteBox(a: Annotation) { a.bbox.finite }

  predicate OrderedBox(a: Annotation) { a.bbox.finite && IsOrdered(a.bbox) }

  predicate DegenerateBox(a: Annotation) { OrderedBox(a) && Area(a.bbox) <= 0.0 }

  /** A box lies outside its image by more than `tolerance` on some side. */
  predicate Outside(b: BBox, size: (nat, nat), tolerance: real) {
    b.xmin < -tolerance || b.ymin < -tolerance
    || b.xmax > size.0 as real + tolerance || b.ymax > size.1 as real + tolerance
  }

  /** Finite boxes on a known image are checked against its bounds. */
  function Checked(dims: map<nat, (nat, nat)>): Annotation -> bool {
    (a: Annotation) => a.bbox.finite && a.imageId in dims
  }

  function OutOfBounds(dims: map<nat, (nat, nat)>, tolerance: real): Annotation -> bool {
    (a: Annotation) => a.bbox.finite && a.imageId in dims && Outside(a.bbox, dims[a.imageId], tolerance)
  }

  function MissingImage(dims: map<nat, (nat, nat)>): Annotation -> bool {
    (a: Annotation) => a.imageId !in dims
  }

  /** Widths of the ordered finite boxes, in list order. */
  function OrderedWidths(anns: seq<Annotation>): (ws: seq<real>)
    ensures |ws| == CountIf(anns, OrderedBox)
  {
    if |anns| == 0 then []
    else
      var a := anns[|anns| - 1];
      OrderedWidths(anns[..|anns| - 1]) + (if OrderedBox(a) then [Width(a.bbox)] else [])
  }

  /** Heights of the ordered finite boxes, in list order. */
  function OrderedHeights(anns: seq<Annotation>): (hs: seq<real>)
    ensures |hs| == CountIf(anns, OrderedBox)
  {
    if |anns| == 0 then []
    else
      var a := anns[|anns| - 1];
      OrderedHeights(anns[..|anns| - 1]) + (if OrderedBox(a) then [Height(a.bbox)] else [])
  }

  function RealMin(a: real, b: real): real { if b < a then b else a }

  function RealMax(a: real, b: real): real { if b > a then b else a }

  /** The least value of a list, none when it is empty. */
  function MinOf(xs: seq<real>): (m: Option<real>)
    ensures m.None? <==> |xs| == 0
    ensures m.Some? ==> m.value in xs && forall k :: 0 <= k < |xs| ==> m.value <= xs[k]
  {
    if |xs| == 0 then None
    else
      var init, x := xs[..|xs| - 1], xs[|xs| - 1];
      assert xs == init + [x];
      match MinOf(init)
      case None => Some(x)
      case Some(m) => Some(RealMin(m, x))
  }

  /** The greatest value of a list, none when it is empty. */
  function MaxOf(xs: seq<real>): (m: Option<real>)
    ensures m.None? <==> |xs| == 0
    ensures m.Some? ==> m.value in xs && forall k :: 0 <= k < |xs| ==> xs[k] <= m.value
  {
    if |xs| == 0 then None
    else
      var init, x := xs[..|xs| - 1], xs[|xs| - 1];
      assert xs == init + [x];
      match MaxOf(init)
      case None => Some(x)
      case Some(m) => Some(RealMax(m, x))
  }

  /** What the bounding-box section reports, stated as counts over the annotations. */
  function BoxStatsOf(anns: seq<Annotation>, dims: map<nat, (nat, nat)>, tolerance: real): BoxStats {
    BoxStats(
      |anns|, CountIf(anns, FiniteBox), CountIf(anns, OrderedBox), CountIf(anns, DegenerateBox),
      CountIf(anns, Checked(dims)), CountIf(anns, OutOfBounds(dims, tolerance)), CountIf(anns, MissingImage(dims)),
      MinOf(OrderedWidths(anns)), MaxOf(OrderedWidths(anns)),
      MinOf(OrderedHeights(anns)), MaxOf(OrderedHeights(anns)))
  }

  /** Counting one more annotation adds one exactly when it satisfies the predicate. */
  lemma CountStep<T>(s: seq<T>, i: nat, p: T -> bool)
    requires i < |s|
    ensures CountIf(s[..i + 1], p) == CountIf(s[..i], p) + (if p(s[i]) then 1 else 0)
  {
    assert s[..i + 1][..i] == s[..i];
  }

  lemma SumStep(s: seq<nat>, i: nat)
    requires i < |s|
    ensures Sum(s[..i + 1]) == Sum(s[..i]) + s[i]
  {
    assert s[..i + 1][..i] == s[..i];
  }

  lemma MinStep(xs: seq<real>, x: real)
    ensures MinOf(xs + [x]) == Narrow(MinOf(xs), x)
  {
    assert (xs + [x])[..|xs|] == xs;
  }

  lemma MaxStep(xs: seq<real>, x: real)
    ensures MaxOf(xs + [x]) == Widen(MaxOf(xs), x)
  {
    assert (xs + [x])[..|xs|] == xs;
  }

  /** The bounding-box section before any annotation is seen. */
  const NO_BOXES := BoxStats(0, 0, 0, 0, 0, 0, 0, None, None, None, None)

  /** One if the condition holds, else zero. */
  function Ind(c: bool): nat { if c then 1 else 0 }

  /** A running least value after one more value. */
  function Narrow(m: Option<real>, x: real): Option<real> {
    Some(if m.None? then x else RealMin(m.value, x))
  }

  /** A running greatest value after one more value. */
  function Widen(m: Option<real>, x: real): Option<real> {
    Some(if m.None? then x else RealMax(m.value, x))
  }

  /** One annotation's contribution to the bounding-box section. */
  function Tally(s: BoxStats, a: Annotation, dims: map<nat, (nat, nat)>, tolerance: real): BoxStats {
    var ordered := OrderedBox(a);
    BoxStats(
      s.total, s.finite + Ind(FiniteBox(a)), s.ordered + Ind(ordered), s.degenerateArea + Ind(DegenerateBox(a)),
      s.oobChecked + Ind(Checked(dims)(a)), s.outOfBounds + Ind(OutOfBounds(dims, tolerance)(a)),
      s.missingImageRef + Ind(MissingImage(dims)(a)),
      if ordered then Narrow(s.minWidth, Width(a.bbox)) else s.minWidth,
      if ordered then Widen(s.maxWidth, Width(a.bbox)) else s.maxWidth,
      if ordered then Narrow(s.minHeight, Height(a.bbox)) else s.minHeight,
      if ordered then Widen(s.maxHeight, Height(a.bbox)) else s.maxHeight)
  }

  /** The annotations tallied in list order (the total is set apart from the loop). */
  function TallyAll(anns: seq<Annotation>, dims: map<nat, (nat, nat)>, tolerance: real): BoxStats {
    if |anns| == 0 then NO_BOXES
    else Tally(TallyAll(anns[..|anns| - 1], dims, tolerance), anns[|anns| - 1], dims, tolerance)
  }

  lemma WidthsStep(anns: seq<Annotation>, i: nat)
    requires i < |anns|
    ensures OrderedBox(anns[i]) ==> OrderedWidths(anns[..i + 1]) == OrderedWidths(anns[..i]) + [Width(anns[i].bbox)]
    ensures OrderedBox(anns[i]) ==> OrderedHeights(anns[..i + 1]) == OrderedHeights(anns[..i]) + [Height(anns[i].bbox)]
    ensures !OrderedBox(anns[i]) ==> OrderedWidths(anns[..i + 1]) == OrderedWidths(anns[..i])
    ensures !OrderedBox(anns[i]) ==> OrderedHeights(anns[..i + 1]) == OrderedHeights(anns[..i])
  {
    assert anns[..i + 1][..i] == anns[..i];
    if !OrderedBox(anns[i]) {
      assert OrderedWidths(anns[..i]) + [] == OrderedWidths(anns[..i]);
      assert OrderedHeights(anns[..i]) + [] == OrderedHeights(anns[..i]);
    }
  }

  lemma {:induction false} TallyCounts(anns: seq<Annotation>, dims: map<nat, (nat, nat)>, tolerance: real)
    ensures var t := TallyAll(anns, dims, tolerance);
            && t.finite == CountIf(anns, FiniteBox) && t.ordered == CountIf(anns, OrderedBox)
            && t.degenerateArea == CountIf(anns, DegenerateBox) && t.oobChecked == CountIf(anns, Checked(dims))
            && t.outOfBounds == CountIf(anns, OutOfBounds(dims, tolerance))
            && t.missingImageRef == CountIf(anns, MissingImage(dims))
  {
    if |anns| > 0 {
      var i := |anns| - 1;
      assert anns[..i + 1] == anns;
      TallyCounts(anns[..i], dims, tolerance);
      CountStep(anns, i, FiniteBox);
      CountStep(anns, i, OrderedBox);
      CountStep(anns, i, DegenerateBox);
      CountStep(anns, i, Checked(dims));
      CountStep(anns, i, OutOfBounds(dims, tolerance));
      CountStep(anns, i, MissingImage(dims));
    }
  }

  lemma {:induction false} TallyWidths(anns: seq<Annotation>, dims: map<nat, (nat, nat)>, tolerance: real)
    ensures TallyAll(anns, dims, tolerance).minWidth == MinOf(OrderedWidths(anns))
    ensures TallyAll(anns, dims, tolerance).maxWidth == MaxOf(OrderedWidths(anns))
  {
    if |anns| > 0 {
      var i := |anns| - 1;
      var a := anns[i];
      assert anns[..i + 1] == anns;
      TallyWidths(anns[..i], dims, tolerance);
      assert TallyAll(anns, dims, tolerance) == Tally(TallyAll(anns[..i], dims, tolerance), a, dims, tolerance);
      WidthsStep(anns, i);
      if OrderedBox(a) {
        MinStep(OrderedWidths(anns[..i]), Width(a.bbox));
        MaxStep(OrderedWidths(anns[..i]), Width(a.bbox));
      }
    }
  }

  lemma {:induction false} TallyHeights(anns: seq<Annotation>, dims: map<nat, (nat, nat)>, tolerance: real)
    ensures TallyAll(anns, dims, tolerance).minHeight == MinOf(OrderedHeights(anns))
    ensures TallyAll(anns, dims, tolerance).maxHeight == MaxOf(OrderedHeights(anns))
  {
    if |anns| > 0 {
      var i := |anns| - 1;
      var a := anns[i];
      assert anns[..i + 1] == anns;
      TallyHeights(anns[..i], dims, tolerance);
      assert TallyAll(anns, dims, tolerance) == Tally(TallyAll(anns[..i], dims, tolerance), a, dims, tolerance);
      WidthsStep(anns, i);
      if OrderedBox(a) {
        MinStep(OrderedHeights(anns[..i]), Height(a.bbox));
        MaxStep(OrderedHeights(anns[..i]), Height(a.bbox));
      }
    }
  }

  /** Tallying the annotations one by one gives the counts and extremes of the section. */
  lemma TallyAllCounts(anns: seq<Annotation>, dims: map<nat, (nat, nat)>, tolerance: real)
    ensures TallyAll(anns, dims, tolerance) == BoxStatsOf(anns, dims, tolerance).(total := 0)
  {
    TallyCounts(anns, dims, tolerance);
    TallyWidths(anns, dims, tolerance);
    TallyHeights(anns, dims, tolerance);
  }

  /**
   * `compute_bbox_stats`: one pass over the annotations counting finite,
   * ordered and zero-area boxes, checking finite boxes on known images
   * against the image bounds widened by `tolerance`, counting annotations
   * on unknown images, and tracking the extreme widths and heights of the
   * ordered boxes.
   */
  method ComputeBoxStats(anns: seq<Annotation>, dims: map<nat, (nat, nat)>, tolerance: real) returns (s: BoxStats)
    ensures s == BoxStatsOf(anns, dims, tolerance)
  {
    var finite, ordered, degenerate, checked, oob, missing := 0, 0, 0, 0, 0, 0;
    var minW, maxW, minH, maxH: Option<real> := None, None, None, None;
    var i := 0;
    while i < |anns|
      invariant i <= |anns|
      invariant BoxStats(0, finite, ordered, degenerate, checked, oob, missing, minW, maxW, minH, maxH)
                == TallyAll(anns[..i], dims, tolerance)
    {
      assert anns[..i + 1][..i] == anns[..i];
      var a := anns[i];
      var b := a.bbox;
      assert TallyAll(anns[..i + 1], dims, tolerance) == Tally(TallyAll(anns[..i], dims, tolerance), a, dims, tolerance);
      if b.finite {
        finite := finite + 1;
        if IsOrdered(b) {
          ordered := ordered + 1;
          var width, height := Width(b), Height(b);
          minW := Narrow(minW, width);
          maxW := Widen(maxW, width);
          minH := Narrow(minH, height);
          maxH := Widen(maxH, height);
          var area := Area(b);
          if area <= 0.0 {
            degenerate := degenerate + 1;
          }
        }
        if a.imageId in dims {
          checked := checked + 1;
          if Outside(b, dims[a.imageId], tolerance) {
            oob := oob + 1;
          }
        } else {
          missing := missing + 1;
        }
      } else if a.imageId !in dims {
        missing := missing + 1;
      }
      i := i + 1;
    }
    assert anns[..i] == anns;
    TallyAllCounts(anns, dims, tolerance);
    s := BoxStats(|anns|, finite, ordered, degenerate, checked, oob, missing, minW, maxW, minH, maxH);
  }

  /**
   * How the bounding-box counts relate: ordered boxes are finite ones,
   * zero-area boxes are ordered ones, boxes out of bounds were checked, a
   * box is checked or on an unknown image but not both, and the extremes
   * exist exactly when some box is ordered, the least below the greatest.
   */
  lemma BoxStatsBounds(anns: seq<Annotation>, dims: map<nat, (nat, nat)>, tolerance: real)
    ensures var s := BoxStatsOf(anns, dims, tolerance);
            && s.degenerateArea <= s.ordered <= s.finite <= s.total
            && s.outOfBounds <= s.oobChecked
            && s.oobChecked + s.missingImageRef <= s.total
            && (s.minWidth.Some? <==> s.ordered > 0) && (s.maxHeight.Some? <==> s.ordered > 0)
            && (s.ordered > 0 ==> s.minWidth.value <= s.maxWidth.value && s.minHeight.value <= s.maxHeight.value)
            && (s.ordered > 0 ==> 0.0 <= s.minWidth.value && 0.0 <= s.minHeight.value)
  {
    CountIfMono(anns, DegenerateBox, OrderedBox);
    CountIfMono(anns, OrderedBox, FiniteBox);
    CountIfMono(anns, OutOfBounds(dims, tolerance), Checked(dims));
    var either := (a: Annotation) => Checked(dims)(a) || MissingImage(dims)(a);
    CountIfDisjoint(anns, Checked(dims), MissingImage(dims), either);
    var ws, hs := OrderedWidths(anns), OrderedHeights(anns);
    if |ws| > 0 {
      OrderedNonNegative(anns);
      assert MinOf(ws).value <= ws[0] <= MaxOf(ws).value;
      assert MinOf(hs).value <= hs[0] <= MaxOf(hs).value;
      assert MinOf(ws).value in ws && MinOf(hs).value in hs;
    }
  }

  /** Ordered boxes have sides of nonnegative length. */
  lemma {:induction false} OrderedNonNegative(anns: seq<Annotation>)
    ensures forall x :: x in OrderedWidths(anns) ==> 0.0 <= x
    ensures forall x :: x in OrderedHeights(anns) ==> 0.0 <= x
  {
    if |anns| > 0 {
      OrderedNonNegative(anns[..|anns| - 1]);
    }
  }

  // ---------------------------------------------------------------------
  // Image resolution (`compute_image_resolution_stats`)

  datatype Resolution = Resolution(minW: nat, maxW: nat, meanW: real, minH: nat, maxH: nat, meanH: real)

  function ImageWidths(images: seq<Image>): (ws: seq<nat>)
    ensures |ws| == |images| && forall k :: 0 <= k < |images| ==> ws[k] == images[k].width
  {
    seq(|images|, k requires 0 <= k < |images| => images[k].width)
  }

  function ImageHeights(images: seq<Image>): (hs: seq<nat>)
    ensures |hs| == |images| && forall k :: 0 <= k < |images| ==> hs[k] == images[k].height
  {
    seq(|images|, k requires 0 <= k < |images| => images[k].height)
  }

  /** `xs` has a least element `lo` (or is `start` when all exceed it) and a greatest `hi`. */
  predicate Spread(xs: seq<nat>, start: nat, lo: nat, hi: nat) {
    (forall k :: 0 <= k < |xs| ==> lo <= xs[k] <= hi)
    && lo <= start && (lo == start || lo in xs)
    && (|xs| > 0 ==> hi in xs)
  }

  /** The running least (from `start`), greatest (from 0) and sum of a list. */
  function Extent(xs: seq<nat>, start: nat): (nat, nat, nat) {
    if |xs| == 0 then (start, 0, 0)
    else
      var e, x := Extent(xs[..|xs| - 1], start), xs[|xs| - 1];
      (if x < e.0 then x else e.0, if x > e.1 then x else e.1, e.2 + x)
  }

  lemma ExtentStep(xs: seq<nat>, i: nat, start: nat)
    requires i < |xs|
    ensures var e, x := Extent(xs[..i], start), xs[i];
            Extent(xs[..i + 1], start) == (if x < e.0 then x else e.0, if x > e.1 then x else e.1, e.2 + x)
  {
    assert xs[..i + 1][..i] == xs[..i];
  }

  /** The running values are the least and greatest element and the sum. */
  lemma ExtentSpread(xs: seq<nat>, start: nat)
    ensures Spread(xs, start, Extent(xs, start).0, Extent(xs, start).1)
    ensures Extent(xs, start).2 == Sum(xs)
  {
    ExtentLow(xs, start);
    ExtentHigh(xs, start);
    ExtentSum(xs, start);
  }

  lemma {:induction false} ExtentLow(xs: seq<nat>, start: nat)
    ensures var lo := Extent(xs, start).0;
      (forall k :: 0 <= k < |xs| ==> lo <= xs[k]) && lo <= start && (lo == start || lo in xs)
  {
    if |xs| > 0 {
      var init := xs[..|xs| - 1];
      ExtentLow(init, start);
      assert xs == init + [xs[|xs| - 1]];
    }
  }

  lemma {:induction false} ExtentHigh(xs: seq<nat>, start: nat)
    ensures var hi := Extent(xs, start).1;
      (forall k :: 0 <= k < |xs| ==> xs[k] <= hi) && (|xs| > 0 ==> hi in xs)
  {
    if |xs| > 0 {
      var init := xs[..|xs| - 1];
      ExtentHigh(init, start);
      assert xs == init + [xs[|xs| - 1]];
      assert |init| == 0 ==> Extent(init, start).1 == 0;
    }
  }

  lemma {:induction false} ExtentSum(xs: seq<nat>, start: nat)
    ensures Extent(xs, start).2 == Sum(xs)
  {
    if |xs| > 0 {
      ExtentSum(xs[..|xs| - 1], start);
    }
  }

  /**
   * `compute_image_resolution_stats`: zeros for no images; otherwise the
   * least width starting from `u32::MAX`, the greatest starting from 0, and
   * the mean as the sum over the count, and the same for heights.
   */
  method ImageResolution(images: seq<Image>) returns (r: Resolution)
    ensures |images| == 0 ==> r == Resolution(0, 0, 0.0, 0, 0, 0.0)
    ensures |images| > 0 ==> Spread(ImageWidths(images), U32_MAX, r.minW, r.maxW)
    ensures |images| > 0 ==> Spread(ImageHeights(images), U32_MAX, r.minH, r.maxH)
    ensures |images| > 0 ==> r.meanW == Mean(Sum(ImageWidths(images)), |images|)
    ensures |images| > 0 ==> r.meanH == Mean(Sum(ImageHeights(images)), |images|)
  {
    if |images| == 0 {
      return Resolution(0, 0, 0.0, 0, 0, 0.0);
    }
    var ws, hs := ImageWidths(images), ImageHeights(images);
    var minW: nat, maxW: nat, sumW: nat := U32_MAX, 0, 0;
    var minH: nat, maxH: nat, sumH: nat := U32_MAX, 0, 0;
    var i := 0;
    while i < |images|
      invariant i <= |images|
      invariant minW == Extent(ws[..i], U32_MAX).0 && maxW == Extent(ws[..i], U32_MAX).1 && sumW == Extent(ws[..i], U32_MAX).2
      invariant minH == Extent(hs[..i], U32_MAX).0 && maxH == Extent(hs[..i], U32_MAX).1 && sumH == Extent(hs[..i], U32_MAX).2
    {
      ExtentStep(ws, i, U32_MAX);
      ExtentStep(hs, i, U32_MAX);
      var image := images[i];
      assert ws[i] == image.width && hs[i] == image.height;
      minW := if image.width < minW then image.width else minW;
      maxW := if image.width > maxW then image.width else maxW;
      sumW := sumW + image.width;
      minH := if image.height < minH then image.height else minH;
      maxH := if image.height > maxH then image.height else maxH;
      sumH := sumH + image.height;
      i := i + 1;
    }
    assert ws[..i] == ws && hs[..i] == hs;
    assert Spread(ws, U32_MAX, minW, maxW) && sumW == Sum(ws) by { ExtentSpread(ws, U32_MAX); }
    assert Spread(hs, U32_MAX, minH, maxH) && sumH == Sum(hs) by { ExtentSpread(hs, U32_MAX); }
    r := Resolution(minW, maxW, Mean(sumW, |images|), minH, maxH, Mean(sumH, |images|));
  }

  /** A sum of values between `lo` and `hi` lies between `n * lo` and `n * hi`. */
  lemma {:induction false} SumBetween(xs: seq<nat>, lo: nat, hi: nat)
    requires forall k :: 0 <= k < |xs| ==> lo <= xs[k] <= hi
    ensures |xs| * lo <= Sum(xs) <= |xs| * hi
  {
    if |xs| > 0 {
      var init := xs[..|xs| - 1];
      assert forall k :: 0 <= k < |init| ==> init[k] == xs[k];
      SumBetween(init, lo, hi);
      MulSucc(|init|, lo);
      MulSucc(|init|, hi);
    }
  }

  lemma MulSucc(n: nat, x: nat)
    ensures (n + 1) * x == n * x + x
  {
  }

  lemma CastMul(a: nat, b: nat)
    ensures (a * b) as real == a as real * b as real
  {
  }

  lemma DivLower(s: real, n: real, l: real)
    requires n > 0.0 && l * n <= s
    ensures l <= s / n
  {
  }

  lemma DivUpper(s: real, n: real, h: real)
    requires n > 0.0 && s <= h * n
    ensures s / n <= h
  {
  }

  /** `sum as f64 / count as f64`. */
  function Mean(sum: nat, count: nat): real
    requires count > 0
  {
    sum as real / count as real
  }

  /** A mean of values between `lo` and `hi` lies between them. */
  lemma MeanBounds(sum: nat, count: nat, lo: nat, hi: nat)
    requires count > 0 && count * lo <= sum <= count * hi
    ensures lo as real <= Mean(sum, count) <= hi as real
  {
    CastMul(count, lo);
    CastMul(count, hi);
    DivLower(sum as real, count as real, lo as real);
    DivUpper(sum as real, count as real, hi as real);
  }

  /** The mean of values spread between `lo` and `hi` lies between them. */
  lemma MeanBetween(xs: seq<nat>, lo: nat, hi: nat)
    requires |xs| > 0 && forall k :: 0 <= k < |xs| ==> lo <= xs[k] <= hi
    ensures lo as real <= Mean(Sum(xs), |xs|) <= hi as real
  {
    SumBetween(xs, lo, hi);
    MeanBounds(Sum(xs), |xs|, lo, hi);
  }

  /**
   * With image sizes within `u32`, the reported least width and height are
   * sizes of actual images, and each mean lies between its least and
   * greatest value.
   */
  lemma ResolutionMeanBetween(images: seq<Image>, r: Resolution)
    requires |images| > 0
    requires forall k :: 0 <= k < |images| ==> images[k].width <= U32_MAX && images[k].height <= U32_MAX
    requires Spread(ImageWidths(images), U32_MAX, r.minW, r.maxW)
    requires Spread(ImageHeights(images), U32_MAX, r.minH, r.maxH)
    requires r.meanW == Mean(Sum(ImageWidths(images)), |images|)
    requires r.meanH == Mean(Sum(ImageHeights(images)), |images|)
    ensures r.minW in ImageWidths(images) && r.minH in ImageHeights(images)
    ensures r.minW as real <= r.meanW <= r.maxW as real
    ensures r.minH as real <= r.meanH <= r.maxH as real
  {
    var ws, hs := ImageWidths(images), ImageHeights(images);
    if r.minW == U32_MAX {
      assert ws[0] <= U32_MAX;
    }
    if r.minH == U32_MAX {
      assert hs[0] <= U32_MAX;
    }
    MeanBetween(ws, r.minW, r.maxW);
    MeanBetween(hs, r.minH, r.maxH);
  }

  // ---------------------------------------------------------------------
  // Annotations per image (`compute_annotation_density`)

  datatype Density = Density(minPerImage: nat, maxPerImage: nat, meanPerImage: real, zeroAnnotationImages: nat)

  /** The distinct image IDs, in first-seen order: the keys of the per-image count map. */
  function DistinctImageIds(images: seq<Image>): (ids: seq<nat>)
    ensures Distinct(ids)
    ensures forall id :: id in ids <==> exists k :: 0 <= k < |images| && images[k].id == id
  {
    if |images| == 0 then []
    else
      var init := images[..|images| - 1];
      var rest := DistinctImageIds(init);
      var id := images[|images| - 1].id;
      assert forall k :: 0 <= k < |init| ==> init[k] == images[k];
      if id in rest then rest
      else
        DistinctSnoc(rest, id);
        rest + [id]
  }

  function OnImage(id: nat): Annotation -> bool {
    (a: Annotation) => a.imageId == id
  }

  /** The number of annotations on image `id`. */
  function PerImage(anns: seq<Annotation>, id: nat): nat {
    CountIf(anns, OnImage(id))
  }

  function PerImageCounts(anns: seq<Annotation>, ids: seq<nat>): (counts: seq<nat>)
    ensures |counts| == |ids| && forall k :: 0 <= k < |ids| ==> counts[k] == PerImage(anns, ids[k])
  {
    seq(|ids|, k requires 0 <= k < |ids| => PerImage(anns, ids[k]))
  }

  function InIds(ids: seq<nat>): Annotation -> bool {
    (a: Annotation) => a.imageId in ids
  }

  /**
   * `compute_annotation_density`: zeros for no images; otherwise a count per
   * distinct image ID of the annotations on it (annotations on unknown
   * images count nowhere), whose least and greatest values, mean and number
   * of zeros are reported.
   */
  method AnnotationDensity(images: seq<Image>, anns: seq<Annotation>) returns (r: Density)
    ensures |images| == 0 ==> r == Density(0, 0, 0.0, 0)
    ensures |images| > 0 ==>
      var ids := DistinctImageIds(images);
      var values := PerImageCounts(anns, ids);
      && (forall k :: 0 <= k < |ids| ==> r.minPerImage <= PerImage(anns, ids[k]) <= r.maxPerImage)
      && r.minPerImage in values && r.maxPerImage in values
      && r.meanPerImage == Mean(Sum(values), |ids|)
      && r.zeroAnnotationImages == CountIf(values, IsZero)
  {
    if |images| == 0 {
      return Density(0, 0, 0.0, 0);
    }
    var ids := DistinctImageIds(images);
    var counts := CountPerImage(anns, ids);
    var values := seq(|ids|, k requires 0 <= k < |ids| => counts[ids[k]]);
    assert values == PerImageCounts(anns, ids);
    r := Density(MinOr0(values), MaxOr0(values), Mean(Sum(values), |values|), CountIf(values, IsZero));
  }

  /** The counting pass of `compute_annotation_density`: one counter per known image. */
  method CountPerImage(anns: seq<Annotation>, ids: seq<nat>) returns (counts: map<nat, nat>)
    ensures forall id :: id in counts <==> id in ids
    ensures forall id :: id in counts ==> counts[id] == PerImage(anns, id)
  {
    counts := map id | id in ids :: 0;
    var i := 0;
    while i < |anns|
      invariant i <= |anns|
      invariant forall id :: id in counts <==> id in ids
      invariant forall id :: id in counts ==> counts[id] == PerImage(anns[..i], id)
    {
      PerImageStep(anns, i);
      if anns[i].imageId in counts {
        counts := counts[anns[i].imageId := counts[anns[i].imageId] + 1];
      }
      i := i + 1;
    }
    assert anns[..i] == anns;
  }

  /** One more annotation adds one to the count of its own image and to no other. */
  lemma PerImageStep(anns: seq<Annotation>, i: nat)
    requires i < |anns|
    ensures forall id :: PerImage(anns[..i + 1], id) == PerImage(anns[..i], id) + (if anns[i].imageId == id then 1 else 0)
  {
    forall id ensures PerImage(anns[..i + 1], id) == PerImage(anns[..i], id) + (if anns[i].imageId == id then 1 else 0) {
      CountStep(anns, i, OnImage(id));
    }
  }

  predicate IsZero(n: nat) { n == 0 }

  /** `iter().min().unwrap_or(0)`. */
  function MinOr0(xs: seq<nat>): (m: nat)
    ensures |xs| == 0 ==> m == 0
    ensures |xs| > 0 ==> m in xs && forall k :: 0 <= k < |xs| ==> m <= xs[k]
  {
    if |xs| == 0 then 0
    else if |xs| == 1 then xs[0]
    else
      var init := xs[..|xs| - 1];
      var m := MinOr0(init);
      assert xs == init + [xs[|xs| - 1]];
      if xs[|xs| - 1] < m then xs[|xs| - 1] else m
  }

  /** `iter().max().unwrap_or(0)`. */
  function MaxOr0(xs: seq<nat>): (m: nat)
    ensures |xs| == 0 ==> m == 0
    ensures |xs| > 0 ==> m in xs && forall k :: 0 <= k < |xs| ==> xs[k] <= m
  {
    if |xs| == 0 then 0
    else if |xs| == 1 then xs[0]
    else
      var init := xs[..|xs| - 1];
      var m := MaxOr0(init);
      assert xs == init + [xs[|xs| - 1]];
      if xs[|xs| - 1] > m then xs[|xs| - 1] else m
  }


  /**
   * The per-image counts add up to the annotations on known images: the
   * annotations on unknown images are the only ones not counted.
   */
  lemma {:induction false} PerImageSum(anns: seq<Annotation>, ids: seq<nat>)
    requires Distinct(ids)
    ensures Sum(PerImageCounts(anns, ids)) == CountIf(anns, InIds(ids))
  {
    if |ids| == 0 {
      CountIfExtremes(anns, InIds(ids));
    } else {
      var init, id := ids[..|ids| - 1], ids[|ids| - 1];
      assert ids == init + [id];
      DistinctSnoc(init, id);
      PerImageSum(anns, init);
      assert PerImageCounts(anns, ids)[..|ids| - 1] == PerImageCounts(anns, init);
      CountIfDisjoint(anns, InIds(init), OnImage(id), InIds(ids));
    }
  }

  /** The mean annotations per image lies between the least and greatest count. */
  lemma DensityMeanBetween(anns: seq<Annotation>, ids: seq<nat>)
    requires |ids| > 0
    ensures var values := PerImageCounts(anns, ids);
            MinOr0(values) as real <= Mean(Sum(values), |ids|) <= MaxOr0(values) as real
  {
    var values := PerImageCounts(anns, ids);
    MeanBetween(values, MinOr0(values), MaxOr0(values));
  }

  // ---------------------------------------------------------------------
  // Area buckets (`compute_area_distribution`)

  datatype AreaBuckets = AreaBuckets(small: nat, medium: nat, large: nat, invalid: nat)

  /** A box with a positive area: finite, ordered, and not flat. */
  predicate HasArea(a: Annotation) { a.bbox.finite && IsOrdered(a.bbox) && Area(a.bbox) > 0.0 }

  /** COCO's area classes: below 32 x 32, below 96 x 96, and the rest. */
  predicate Small(a: Annotation) { HasArea(a) && Area(a.bbox) < 1024.0 }

  predicate Medium(a: Annotation) { HasArea(a) && 1024.0 <= Area(a.bbox) < 9216.0 }

  predicate Large(a: Annotation) { HasArea(a) && 9216.0 <= Area(a.bbox) }

  predicate NoArea(a: Annotation) { !HasArea(a) }

  /** `compute_area_distribution`: each annotation in exactly one COCO area class, or invalid. */
  method AreaDistribution(anns: seq<Annotation>) returns (r: AreaBuckets)
    ensures r == AreaBuckets(CountIf(anns, Small), CountIf(anns, Medium), CountIf(anns, Large), CountIf(anns, NoArea))
  {
    var small, medium, large, invalid := 0, 0, 0, 0;
    var i := 0;
    while i < |anns|
      invariant i <= |anns|
      invariant small == CountIf(anns[..i], Small) && medium == CountIf(anns[..i], Medium)
      invariant large == CountIf(anns[..i], Large) && invalid == CountIf(anns[..i], NoArea)
    {
      CountStep(anns, i, Small);
      CountStep(anns, i, Medium);
      CountStep(anns, i, Large);
      CountStep(anns, i, NoArea);
      var b := anns[i].bbox;
      if !b.finite || !IsOrdered(b) {
        invalid := invalid + 1;
      } else {
        var area := Area(b);
        if area <= 0.0 {
          invalid := invalid + 1;
        } else if area < 1024.0 {
          small := small + 1;
        } else if area < 9216.0 {
          medium := medium + 1;
        } else {
          large := large + 1;
        }
      }
      i := i + 1;
    }
    assert anns[..i] == anns;
    r := AreaBuckets(small, medium, large, invalid);
  }

  /** The four area counts account for every annotation exactly once. */
  lemma {:induction false} AreaBucketsTotal(anns: seq<Annotation>)
    ensures CountIf(anns, Small) + CountIf(anns, Medium) + CountIf(anns, Large) + CountIf(anns, NoArea) == |anns|
  {
    if |anns| > 0 {
      AreaBucketsTotal(anns[..|anns| - 1]);
    }
  }

  // ---------------------------------------------------------------------
  // Aspect-ratio buckets (`compute_aspect_ratio_distribution`)

  datatype AspectBucket = AspectBucket(name: string, count: nat)

  datatype AspectDistribution = AspectDistribution(buckets: seq<AspectBucket>, invalid: nat)

  const ASPECT_NAMES: seq<string> := ["<0.5", "0.5-1", "1-2", "2-5", ">=5"]

  /** The lower edges of buckets 1 to 4. */
  const ASPECT_EDGES: seq<real> := [0.5, 1.0, 2.0, 5.0]

  /** The bucket of a width-to-height ratio: the number of edges it reaches. */
  function BucketIndex(ratio: real): (k: nat)
    ensures k < 5
    ensures k > 0 ==> ASPECT_EDGES[k - 1] <= ratio
    ensures k < 4 ==> ratio < ASPECT_EDGES[k]
  {
    if ratio < 0.5 then 0
    else if ratio < 1.0 then 1
    else if ratio < 2.0 then 2
    else if ratio < 5.0 then 3
    else 4
  }

  /** A box with a ratio: finite, ordered, and positive in both sides. */
  predicate HasRatio(a: Annotation) {
    a.bbox.finite && IsOrdered(a.bbox) && Width(a.bbox) > 0.0 && Height(a.bbox) > 0.0 && Area(a.bbox) > 0.0
  }

  function Ratio(b: BBox): real requires Height(b) != 0.0 { Width(b) / Height(b) }

  function InBucket(k: nat): Annotation -> bool {
    (a: Annotation) => HasRatio(a) && BucketIndex(Ratio(a.bbox)) == k
  }

  predicate NoRatio(a: Annotation) { !HasRatio(a) }

  /** The five bucket counts, in order. */
  function BucketCounts(anns: seq<Annotation>): (counts: seq<nat>)
    ensures |counts| == 5 && forall k :: 0 <= k < 5 ==> counts[k] == CountIf(anns, InBucket(k))
  {
    seq(5, k requires 0 <= k < 5 => CountIf(anns, InBucket(k)))
  }

  /**
   * `compute_aspect_ratio_distribution`: five fixed buckets of width over
   * height, named in order, each with its count, and the annotations whose
   * box has no ratio counted as invalid.
   */
  method AspectRatios(anns: seq<Annotation>) returns (r: AspectDistribution)
    ensures |r.buckets| == 5
    ensures forall k :: 0 <= k < 5 ==> r.buckets[k] == AspectBucket(ASPECT_NAMES[k], CountIf(anns, InBucket(k)))
    ensures r.invalid == CountIf(anns, NoRatio)
  {
    var counts := new nat[5](_ => 0);
    var invalid := 0;
    var i := 0;
    while i < |anns|
      invariant i <= |anns|
      invariant forall k :: 0 <= k < 5 ==> counts[k] == CountIf(anns[..i], InBucket(k))
      invariant invalid == CountIf(anns[..i], NoRatio)
    {
      forall k | 0 <= k < 5 ensures CountIf(anns[..i + 1], InBucket(k)) == CountIf(anns[..i], InBucket(k)) + (if InBucket(k)(anns[i]) then 1 else 0) {
        CountStep(anns, i, InBucket(k));
      }
      CountStep(anns, i, NoRatio);
      var b := anns[i].bbox;
      if !HasRatio(anns[i]) {
        invalid := invalid + 1;
      } else {
        var idx := BucketIndex(Ratio(b));
        counts[idx] := counts[idx] + 1;
      }
      i := i + 1;
    }
    assert anns[..i] == anns;
    r := AspectDistribution(seq(5, k requires 0 <= k < 5 reads counts => AspectBucket(ASPECT_NAMES[k], counts[k])), invalid);
  }

  /** The five buckets and the invalid count account for every annotation exactly once. */
  lemma {:induction false} AspectTotal(anns: seq<Annotation>)
    ensures Sum(BucketCounts(anns)) + CountIf(anns, NoRatio) == |anns|
  {
    Sum5(BucketCounts(anns));
    if |anns| > 0 {
      var init, a := anns[..|anns| - 1], anns[|anns| - 1];
      AspectTotal(init);
      var c, c' := BucketCounts(anns), BucketCounts(init);
      Sum5(c');
      assert c[0] == c'[0] + Ind(InBucket(0)(a)) && c[1] == c'[1] + Ind(InBucket(1)(a));
      assert c[2] == c'[2] + Ind(InBucket(2)(a)) && c[3] == c'[3] + Ind(InBucket(3)(a));
      assert c[4] == c'[4] + Ind(InBucket(4)(a));
      if HasRatio(a) {
        var k := BucketIndex(Ratio(a.bbox));
        assert InBucket(k)(a);
        assert forall j :: 0 <= j < 5 && j != k ==> !InBucket(j)(a);
      } else {
        assert forall j :: 0 <= j < 5 ==> !InBucket(j)(a);
      }
    }
  }

  lemma Sum5(c: seq<nat>)
    requires |c| == 5
    ensures Sum(c) == c[0] + c[1] + c[2] + c[3] + c[4]
  {
    assert Sum(c) == Sum(c[..4]) + c[4];
    assert Sum(c[..4]) == Sum(c[..3]) + c[3] by { assert c[..4][..3] == c[..3]; }
    assert Sum(c[..3]) == Sum(c[..2]) + c[2] by { assert c[..3][..2] == c[..2]; }
    assert Sum(c[..2]) == Sum(c[..1]) + c[1] by { assert c[..2][..1] == c[..1]; }
    assert Sum(c[..1]) == c[0] by { assert c[..1][..0] == []; }
  }
}
