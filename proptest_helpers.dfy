// The property-test support code (tests/proptest_helpers/mod.rs): the
// dataset builder behind the generation strategies, the format-specific
// tolerances, and the check that two datasets carry the same annotations
// up to a tolerance. Random generation itself (the proptest strategies)
// is replaced by its outputs: the image map, the category set and the
// annotation seeds are parameters.
module ProptestHelpers {
  import opened Wrappers
  import opened Ir
  import opened BBoxes
  import StrOrder
  import Sorting

  // ---------------------------------------------------------------------
  // Tolerances
  // ---------------------------------------------------------------------

  const EPS_COCO: real := 0.0000000001
  const EPS_TFOD: real := 0.01
  const EPS_LABEL_STUDIO: real := 0.0001
  const EPS_VOC: real := 0.000000001

  /** `eps_yolo`: a millionth of the larger image side. */
  function EpsYolo(width: nat, height: nat): (eps: real)
    ensures eps == (if width < height then height else width) as real * 0.000001
  {
    (if width < height then height else width) as real * 0.000001
  }

  function Max(a: real, b: real): real { if a < b then b else a }

  /** `eps_yolo_for_dataset`: the largest per-image tolerance, and at least `1e-9`. */
  function EpsYoloForDataset(images: seq<Image>): (eps: real)
    ensures eps >= 0.000000001
    ensures forall img :: img in images ==> EpsYolo(img.width, img.height) <= eps
    ensures eps == 0.000000001 || exists img :: img in images && eps == EpsYolo(img.width, img.height)
  {
    if |images| == 0 then 0.000000001
    else
      var init := images[..|images| - 1];
      var last := images[|images| - 1];
      assert forall img :: img in images <==> img in init || img == last;
      var rest := EpsYoloForDataset(init);
      var e := Max(rest, EpsYolo(last.width, last.height));
      assert rest == 0.000000001 ==> e == 0.000000001 || e == EpsYolo(last.width, last.height);
      e
  }

  // ---------------------------------------------------------------------
  // build_dataset / bbox_from_seed
  // ---------------------------------------------------------------------

  /** `AnnSeed`: image seed, category seed and the four coordinate seeds. */
  datatype AnnSeed = AnnSeed(imageSeed: nat, categorySeed: nat, sx: nat, sy: nat, sw: nat, sh: nat)

  /** `bbox_from_seed` in integers: a corner inside the image, then an extent that stays inside. */
  function SeedCorners(width: nat, height: nat, sx: nat, sy: nat, sw: nat, sh: nat): (r: (nat, nat, nat, nat))
    requires width >= 2 && height >= 2
    ensures 0 <= r.0 < r.2 <= width && 0 <= r.1 < r.3 <= height
    ensures r.0 == sx % (width - 1) && r.1 == sy % (height - 1)
  {
    var xmin := sx % (width - 1);
    var ymin := sy % (height - 1);
    (xmin, ymin, xmin + 1 + sw % (width - xmin), ymin + 1 + sh % (height - ymin))
  }

  /** `bbox_from_seed`: a finite, non-degenerate box in integer pixels inside the image. */
  function BBoxFromSeed(width: nat, height: nat, sx: nat, sy: nat, sw: nat, sh: nat): (b: BBox)
    requires width >= 2 && height >= 2
    ensures b.finite && 0.0 <= b.xmin < b.xmax <= width as real && 0.0 <= b.ymin < b.ymax <= height as real
  {
    var c := SeedCorners(width, height, sx, sy, sw, sh);
    FromXyxy(c.0 as real, c.1 as real, c.2 as real, c.3 as real)
  }

  /** The image at position `i` of the sorted file names. */
  function ImageAt(imageData: map<string, (nat, nat)>, names: seq<string>, i: nat): (img: Image)
    requires i < |names| && names[i] in imageData
    ensures img.id == i + 1 && img.fileName == names[i]
    ensures (img.width, img.height) == imageData[names[i]]
  {
    NewImage(i + 1, names[i], imageData[names[i]].0, imageData[names[i]].1)
  }

  /** The images of `build_dataset`: sorted by file name, IDs from 1, with the drawn dimensions. */
  function ImageRows(imageData: map<string, (nat, nat)>): (images: seq<Image>)
    ensures |images| == |imageData|
    ensures forall i :: 0 <= i < |images| ==> images[i].id == i + 1
                                              && images[i].fileName == StrOrder.SortedKeys(imageData.Keys)[i]
    ensures forall i :: 0 <= i < |images| ==> images[i].fileName in imageData
                                              && (images[i].width, images[i].height) == imageData[images[i].fileName]
    ensures DimsAtLeastTwo(imageData) ==> forall i :: 0 <= i < |images| ==> images[i].width >= 2 && images[i].height >= 2
  {
    var names := StrOrder.SortedKeys(imageData.Keys);
    assert forall k :: 0 <= k < |names| ==> names[k] in imageData;
    var images := seq(|names|, i requires 0 <= i < |names| => ImageAt(imageData, names, i));
    assert forall i :: 0 <= i < |images| ==> images[i] == ImageAt(imageData, names, i);
    images
  }

  /** The categories of `build_dataset`: sorted by name, IDs from 1, exactly the drawn names. */
  function CategoryRows(names: set<string>): (cats: seq<Category>)
    ensures |cats| == |names|
    ensures forall i :: 0 <= i < |cats| ==> cats[i].id == i + 1 && cats[i].name == StrOrder.SortedKeys(names)[i]
  {
    var sorted := StrOrder.SortedKeys(names);
    seq(|sorted|, i requires 0 <= i < |sorted| => NewCategory(i + 1, sorted[i]))
  }

  /** The dimensions every generated image has (the strategies draw from 2..=4096). */
  predicate DimsAtLeastTwo(imageData: map<string, (nat, nat)>) {
    forall name :: name in imageData ==> imageData[name].0 >= 2 && imageData[name].1 >= 2
  }

  /** What `build_dataset` needs: somewhere to put each annotation, and room for a box. */
  predicate Buildable(imageData: map<string, (nat, nat)>, categoryNames: set<string>, seeds: seq<AnnSeed>) {
    DimsAtLeastTwo(imageData) && (|seeds| > 0 ==> |imageData| > 0 && |categoryNames| > 0)
  }

  /** The first `coverage_len` annotations go round-robin over images and categories. */
  function CoverageLen(imageCount: nat, categoryCount: nat, ensureCoverage: bool): (n: nat)
    ensures ensureCoverage ==> n >= imageCount && n >= categoryCount
    ensures !ensureCoverage ==> n == 0
  {
    if ensureCoverage then (if imageCount < categoryCount then categoryCount else imageCount) else 0
  }

  /** The position of the image (or category) the seed at `idx` picks among `count`. */
  function PickIndex(idx: nat, seed: nat, count: nat, coverageLen: nat): (k: nat)
    requires count > 0
    ensures k < count
    ensures idx < coverageLen && idx < count ==> k == idx
  {
    if idx < coverageLen then idx % count else seed % count
  }

  /** The annotation built from the seed at position `idx`. */
  function SeedAnnotation(idx: nat, seed: AnnSeed, images: seq<Image>, categories: seq<Category>, coverageLen: nat): Annotation
    requires |images| > 0 && |categories| > 0
    requires forall i :: 0 <= i < |images| ==> images[i].width >= 2 && images[i].height >= 2
  {
    var image := images[PickIndex(idx, seed.imageSeed, |images|, coverageLen)];
    var category := categories[PickIndex(idx, seed.categorySeed, |categories|, coverageLen)];
    var bbox := BBoxFromSeed(image.width, image.height, seed.sx, seed.sy, seed.sw, seed.sh);
    NewAnnotation(idx + 1, image.id, category.id, bbox)
  }

  /**
   * The annotations of `build_dataset`: IDs 1..m, each on the image and
   * category its seed picks, with a box inside that image.
   */
  function AnnotationRows(seeds: seq<AnnSeed>, images: seq<Image>, categories: seq<Category>, coverageLen: nat)
    : (anns: seq<Annotation>)
    requires |seeds| > 0 ==> |images| > 0 && |categories| > 0
    requires forall i :: 0 <= i < |images| ==> images[i].width >= 2 && images[i].height >= 2
    ensures |anns| == |seeds|
    ensures forall i :: 0 <= i < |anns| ==>
              var img := images[PickIndex(i, seeds[i].imageSeed, |images|, coverageLen)];
              && anns[i].id == i + 1
              && anns[i].imageId == img.id
              && anns[i].categoryId == categories[PickIndex(i, seeds[i].categorySeed, |categories|, coverageLen)].id
              && anns[i].bbox.finite
              && 0.0 <= anns[i].bbox.xmin < anns[i].bbox.xmax <= img.width as real
              && 0.0 <= anns[i].bbox.ymin < anns[i].bbox.ymax <= img.height as real
  {
    seq(|seeds|, idx requires 0 <= idx < |seeds| => SeedAnnotation(idx, seeds[idx], images, categories, coverageLen))
  }

  /** `build_dataset`. */
  function BuildDataset(imageData: map<string, (nat, nat)>, categoryNames: set<string>, seeds: seq<AnnSeed>,
                        ensureCoverage: bool): (d: Dataset)
    requires Buildable(imageData, categoryNames, seeds)
    ensures |d.images| == |imageData| && |d.categories| == |categoryNames| && |d.annotations| == |seeds|
    ensures d.info == DefaultInfo() && d.licenses == []
  {
    var images := ImageRows(imageData);
    var categories := CategoryRows(categoryNames);
    var coverageLen := CoverageLen(|images|, |categories|, ensureCoverage);
    Dataset(DefaultInfo(), [], images, categories, AnnotationRows(seeds, images, categories, coverageLen))
  }

  /** The parts `build_dataset` assembles. */
  lemma BuildDatasetParts(imageData: map<string, (nat, nat)>, categoryNames: set<string>, seeds: seq<AnnSeed>,
                          ensureCoverage: bool)
    requires Buildable(imageData, categoryNames, seeds)
    ensures var d := BuildDataset(imageData, categoryNames, seeds, ensureCoverage);
            && d.images == ImageRows(imageData) && d.categories == CategoryRows(categoryNames)
            && d.annotations == AnnotationRows(seeds, d.images, d.categories, CoverageLen(|d.images|, |d.categories|, ensureCoverage))
  {
  }

  /** Rows numbered from 1, as `build_dataset` makes them. */
  predicate NumberedFromOne(images: seq<Image>, categories: seq<Category>) {
    && (forall i :: 0 <= i < |images| ==> images[i].id == i + 1)
    && (forall i :: 0 <= i < |categories| ==> categories[i].id == i + 1)
  }

  /** Annotation IDs are 1..m and every annotation references an existing image and category (IDs 1..n, 1..k). */
  lemma AnnotationsReferenceRows(seeds: seq<AnnSeed>, images: seq<Image>, categories: seq<Category>, coverageLen: nat)
    requires |seeds| > 0 ==> |images| > 0 && |categories| > 0
    requires forall i :: 0 <= i < |images| ==> images[i].width >= 2 && images[i].height >= 2
    requires NumberedFromOne(images, categories)
    ensures var anns := AnnotationRows(seeds, images, categories, coverageLen);
            forall i :: 0 <= i < |anns| ==>
              && anns[i].id == i + 1
              && 1 <= anns[i].imageId <= |images| && 1 <= anns[i].categoryId <= |categories|
  {
    var anns := AnnotationRows(seeds, images, categories, coverageLen);
    forall i | 0 <= i < |anns|
      ensures 1 <= anns[i].imageId <= |images| && 1 <= anns[i].categoryId <= |categories|
    {
      var k := PickIndex(i, seeds[i].imageSeed, |images|, coverageLen);
      var c := PickIndex(i, seeds[i].categorySeed, |categories|, coverageLen);
      assert anns[i].imageId == images[k].id == k + 1;
      assert anns[i].categoryId == categories[c].id == c + 1;
    }
  }

  /** Every annotation's box is finite, non-degenerate and inside the image it references. */
  lemma AnnotationsInFrame(seeds: seq<AnnSeed>, images: seq<Image>, categories: seq<Category>, coverageLen: nat)
    requires |seeds| > 0 ==> |images| > 0 && |categories| > 0
    requires forall i :: 0 <= i < |images| ==> images[i].width >= 2 && images[i].height >= 2
    requires NumberedFromOne(images, categories)
    ensures var anns := AnnotationRows(seeds, images, categories, coverageLen);
            forall i :: 0 <= i < |anns| ==>
              var a := anns[i];
              && 1 <= a.imageId <= |images|
              && a.bbox.finite && 0.0 <= a.bbox.xmin < a.bbox.xmax <= images[a.imageId - 1].width as real
              && 0.0 <= a.bbox.ymin < a.bbox.ymax <= images[a.imageId - 1].height as real
  {
    var anns := AnnotationRows(seeds, images, categories, coverageLen);
    forall i | 0 <= i < |anns|
      ensures var a := anns[i];
              && 1 <= a.imageId <= |images|
              && a.bbox.finite && 0.0 <= a.bbox.xmin < a.bbox.xmax <= images[a.imageId - 1].width as real
              && 0.0 <= a.bbox.ymin < a.bbox.ymax <= images[a.imageId - 1].height as real
    {
      var k := PickIndex(i, seeds[i].imageSeed, |images|, coverageLen);
      assert anns[i].imageId == images[k].id == k + 1;
    }
  }

  /**
   * With `ensure_coverage` (a coverage length of at least max(n, k)) and at
   * least that many seeds, the i-th annotation is on the i-th image for
   * every image position i.
   */
  lemma AnnotationsCoverImages(seeds: seq<AnnSeed>, images: seq<Image>, categories: seq<Category>, coverageLen: nat)
    requires |seeds| > 0 ==> |images| > 0 && |categories| > 0
    requires forall i :: 0 <= i < |images| ==> images[i].width >= 2 && images[i].height >= 2
    requires coverageLen >= |images| && |seeds| >= |images|
    ensures var anns := AnnotationRows(seeds, images, categories, coverageLen);
            forall i :: 0 <= i < |images| ==> anns[i].imageId == images[i].id
  {
    var anns := AnnotationRows(seeds, images, categories, coverageLen);
    forall i | 0 <= i < |images| ensures anns[i].imageId == images[i].id {
      assert PickIndex(i, seeds[i].imageSeed, |images|, coverageLen) == i;
    }
  }

  /** Likewise the i-th annotation has the i-th category for every category position i. */
  lemma AnnotationsCoverCategories(seeds: seq<AnnSeed>, images: seq<Image>, categories: seq<Category>, coverageLen: nat)
    requires |seeds| > 0 ==> |images| > 0 && |categories| > 0
    requires forall i :: 0 <= i < |images| ==> images[i].width >= 2 && images[i].height >= 2
    requires coverageLen >= |categories| && |seeds| >= |categories|
    ensures var anns := AnnotationRows(seeds, images, categories, coverageLen);
            forall i :: 0 <= i < |categories| ==> anns[i].categoryId == categories[i].id
  {
    var anns := AnnotationRows(seeds, images, categories, coverageLen);
    forall i | 0 <= i < |categories| ensures anns[i].categoryId == categories[i].id {
      assert PickIndex(i, seeds[i].categorySeed, |categories|, coverageLen) == i;
    }
  }

  /** Every image is referenced by some annotation. */
  predicate ImagesCovered(anns: seq<Annotation>, images: seq<Image>) {
    forall img :: img in images ==> exists a :: a in anns && a.imageId == img.id
  }

  /** Every category is referenced by some annotation. */
  predicate CategoriesCovered(anns: seq<Annotation>, categories: seq<Category>) {
    forall c :: c in categories ==> exists a :: a in anns && a.categoryId == c.id
  }

  lemma ImagesCoveredByPosition(anns: seq<Annotation>, images: seq<Image>)
    requires |anns| >= |images| && forall i :: 0 <= i < |images| ==> anns[i].imageId == images[i].id
    ensures ImagesCovered(anns, images)
  {
    forall img | img in images ensures exists a :: a in anns && a.imageId == img.id {
      var i :| 0 <= i < |images| && images[i] == img;
      assert anns[i] in anns;
    }
  }

  lemma CategoriesCoveredByPosition(anns: seq<Annotation>, categories: seq<Category>)
    requires |anns| >= |categories| && forall i :: 0 <= i < |categories| ==> anns[i].categoryId == categories[i].id
    ensures CategoriesCovered(anns, categories)
  {
    forall c | c in categories ensures exists a :: a in anns && a.categoryId == c.id {
      var i :| 0 <= i < |categories| && categories[i] == c;
      assert anns[i] in anns;
    }
  }

  /** The dataset `arb_dataset_annotated` builds references every image and every category. */
  lemma BuiltCoverage(imageData: map<string, (nat, nat)>, categoryNames: set<string>, seeds: seq<AnnSeed>)
    requires Buildable(imageData, categoryNames, seeds)
    requires |seeds| >= |imageData| && |seeds| >= |categoryNames|
    ensures ImagesCovered(BuildDataset(imageData, categoryNames, seeds, true).annotations,
                          BuildDataset(imageData, categoryNames, seeds, true).images)
    ensures CategoriesCovered(BuildDataset(imageData, categoryNames, seeds, true).annotations,
                              BuildDataset(imageData, categoryNames, seeds, true).categories)
  {
    BuildDatasetParts(imageData, categoryNames, seeds, true);
    var images := ImageRows(imageData);
    var categories := CategoryRows(categoryNames);
    var coverageLen := CoverageLen(|images|, |categories|, true);
    var anns := AnnotationRows(seeds, images, categories, coverageLen);
    AnnotationsCoverImages(seeds, images, categories, coverageLen);
    AnnotationsCoverCategories(seeds, images, categories, coverageLen);
    ImagesCoveredByPosition(anns, images);
    CategoriesCoveredByPosition(anns, categories);
  }

  // ---------------------------------------------------------------------
  // ann_semantics
  // ---------------------------------------------------------------------

  /** `AnnSem`: an annotation by image file, category name and corners. */
  datatype AnnSem = AnnSem(imageFile: string, category: string, xmin: real, ymin: real, xmax: real, ymax: real)

  /** The failures the helpers report, by the reason their messages give. */
  datatype CheckError =
    | MissingImage(annotationId: nat, imageId: nat)
    | MissingCategory(annotationId: nat, categoryId: nat)
    | CountMismatch(left: nat, right: nat)
    | NoMatch(wanted: AnnSem, eps: real)

  /** One annotation's semantics; the image and category maps keep the last entry per ID. */
  function SemOf(d: Dataset, a: Annotation): (r: Result<AnnSem, CheckError>)
    ensures r.Ok? <==> a.imageId in ImageIds(d.images) && a.categoryId in CategoryIds(d.categories)
  {
    var image := LookupImage(d.images, a.imageId);
    var category := LookupCategory(d.categories, a.categoryId);
    if image.None? then Err(MissingImage(a.id, a.imageId))
    else if category.None? then Err(MissingCategory(a.id, a.categoryId))
    else Ok(AnnSem(image.value.fileName, category.value.name, a.bbox.xmin, a.bbox.ymin, a.bbox.xmax, a.bbox.ymax))
  }

  /** The semantics of the annotations in order; the first failure stops the loop. */
  function SemList(d: Dataset, anns: seq<Annotation>): (r: Result<seq<AnnSem>, CheckError>)
    ensures r.Ok? <==> forall a :: a in anns ==> SemOf(d, a).Ok?
    ensures r.Ok? ==> |r.value| == |anns| && forall i :: 0 <= i < |anns| ==> r.value[i] == SemOf(d, anns[i]).value
  {
    if |anns| == 0 then Ok([])
    else
      var first := SemOf(d, anns[0]);
      var rest := SemList(d, anns[1..]);
      assert forall a :: a in anns <==> a == anns[0] || a in anns[1..];
      if first.Err? then Err(first.error)
      else if rest.Err? then Err(rest.error)
      else Ok([first.value] + rest.value)
  }

  /** The coordinates compared in turn (`f64::total_cmp` on finite values). */
  predicate CoordsLe(a: AnnSem, b: AnnSem) {
    a.xmin < b.xmin || (a.xmin == b.xmin && (a.ymin < b.ymin || (a.ymin == b.ymin &&
      (a.xmax < b.xmax || (a.xmax == b.xmax && a.ymax <= b.ymax)))))
  }

  /** `ann_sem_cmp`: image file, then category, then the coordinates. */
  predicate AnnSemLe(a: AnnSem, b: AnnSem) {
    StrOrder.Lt(a.imageFile, b.imageFile)
    || (a.imageFile == b.imageFile
        && (StrOrder.Lt(a.category, b.category) || (a.category == b.category && CoordsLe(a, b))))
  }

  /** The order is total, transitive and antisymmetric, so the sorted list is determined by its contents. */
  lemma AnnSemOrder()
    ensures Sorting.TotalPreorder(AnnSemLe)
    ensures forall a, b :: AnnSemLe(a, b) && AnnSemLe(b, a) ==> a == b
  {
    forall a, b ensures AnnSemLe(a, b) || AnnSemLe(b, a) {
      if a.imageFile != b.imageFile { StrOrder.LtTotal(a.imageFile, b.imageFile); }
      else if a.category != b.category { StrOrder.LtTotal(a.category, b.category); }
    }
    forall a, b, c | AnnSemLe(a, b) && AnnSemLe(b, c) ensures AnnSemLe(a, c) {
      if StrOrder.Lt(a.imageFile, b.imageFile) && StrOrder.Lt(b.imageFile, c.imageFile) {
        StrOrder.LtTransitive(a.imageFile, b.imageFile, c.imageFile);
      }
      if StrOrder.Lt(a.category, b.category) && StrOrder.Lt(b.category, c.category) {
        StrOrder.LtTransitive(a.category, b.category, c.category);
      }
    }
    forall a, b | AnnSemLe(a, b) && AnnSemLe(b, a) ensures a == b {
      StrOrder.LtIrreflexive(a.imageFile);
      StrOrder.LtIrreflexive(a.category);
      if StrOrder.Lt(a.imageFile, b.imageFile) { StrOrder.LtAsymmetric(a.imageFile, b.imageFile); }
      if StrOrder.Lt(a.category, b.category) { StrOrder.LtAsymmetric(a.category, b.category); }
    }
  }

  /** `ann_semantics`: every annotation's semantics, sorted; or the first dangling reference. */
  function AnnSemantics(d: Dataset): (r: Result<seq<AnnSem>, CheckError>)
    ensures r.Ok? <==> forall a :: a in d.annotations ==> SemOf(d, a).Ok?
    ensures r.Ok? ==> multiset(r.value) == multiset(SemList(d, d.annotations).value)
    ensures r.Ok? ==> Sorting.SortedBy(r.value, AnnSemLe)
  {
    var list := SemList(d, d.annotations);
    if list.Err? then Err(list.error)
    else
      AnnSemOrder();
      Sorting.SortBySorted(list.value, AnnSemLe);
      Ok(Sorting.SortBy(list.value, AnnSemLe))
  }

  /** Two datasets whose annotation semantics agree as multisets get the same sorted list. */
  lemma AnnSemanticsCanonical(d1: Dataset, d2: Dataset)
    requires AnnSemantics(d1).Ok? && AnnSemantics(d2).Ok?
    requires multiset(SemList(d1, d1.annotations).value) == multiset(SemList(d2, d2.annotations).value)
    ensures AnnSemantics(d1).value == AnnSemantics(d2).value
  {
    AnnSemOrder();
    Sorting.SortedPermutationUnique(AnnSemantics(d1).value, AnnSemantics(d2).value, AnnSemLe);
  }

  /** A dataset whose rows are numbered from 1 and whose references are in range has semantics, one per annotation. */
  lemma NumberedSemantics(d: Dataset)
    requires NumberedFromOne(d.images, d.categories)
    requires forall i :: 0 <= i < |d.annotations| ==>
               1 <= d.annotations[i].imageId <= |d.images| && 1 <= d.annotations[i].categoryId <= |d.categories|
    ensures AnnSemantics(d).Ok? && |AnnSemantics(d).value| == |d.annotations|
  {
    forall a | a in d.annotations ensures SemOf(d, a).Ok? {
      var i :| 0 <= i < |d.annotations| && d.annotations[i] == a;
      assert ImageIds(d.images)[a.imageId - 1] == a.imageId;
      assert CategoryIds(d.categories)[a.categoryId - 1] == a.categoryId;
    }
  }

  /** A dataset from `build_dataset` has no dangling reference, so its semantics exist, one per seed. */
  lemma BuiltSemantics(imageData: map<string, (nat, nat)>, categoryNames: set<string>, seeds: seq<AnnSeed>, ensureCoverage: bool)
    requires Buildable(imageData, categoryNames, seeds)
    ensures var d := BuildDataset(imageData, categoryNames, seeds, ensureCoverage);
            AnnSemantics(d).Ok? && |AnnSemantics(d).value| == |seeds|
  {
    var d := BuildDataset(imageData, categoryNames, seeds, ensureCoverage);
    var images, categories := ImageRows(imageData), CategoryRows(categoryNames);
    assert NumberedFromOne(images, categories);
    var coverageLen := CoverageLen(|images|, |categories|, ensureCoverage);
    AnnotationsReferenceRows(seeds, images, categories, coverageLen);
    assert d == Dataset(DefaultInfo(), [], images, categories, AnnotationRows(seeds, images, categories, coverageLen));
    NumberedSemantics(d);
  }

  // ---------------------------------------------------------------------
  // assert_semantics_subset / assert_annotations_equivalent
  // ---------------------------------------------------------------------

  function Abs(x: real): real { if x < 0.0 then -x else x }

  /** `approx_ann_sem`: same image and category, each corner within `eps`. */
  predicate ApproxAnnSem(l: AnnSem, r: AnnSem, eps: real) {
    l.imageFile == r.imageFile && l.category == r.category
    && Abs(l.xmin - r.xmin) <= eps && Abs(l.ymin - r.ymin) <= eps
    && Abs(l.xmax - r.xmax) <= eps && Abs(l.ymax - r.ymax) <= eps
  }

  /**
   * `m` matches every element of `sub` to an approximately equal element of
   * `sup`, no element of `sup` twice, each to the first one still free.
   */
  ghost predicate FirstFitMatching(sub: seq<AnnSem>, sup: seq<AnnSem>, m: seq<nat>, eps: real) {
    && |m| == |sub|
    && (forall i :: 0 <= i < |m| ==> m[i] < |sup| && ApproxAnnSem(sub[i], sup[m[i]], eps))
    && (forall i, k :: 0 <= i < k < |m| ==> m[i] != m[k])
    && (forall i, j :: 0 <= i < |m| && 0 <= j < m[i] && ApproxAnnSem(sub[i], sup[j], eps) ==> j in m[..i])
  }

  /** An element of `sub` that approximately equals nothing in `sup` rules out every matching. */
  lemma UnmatchableRefused(sub: seq<AnnSem>, sup: seq<AnnSem>, m: seq<nat>, eps: real, i: nat)
    requires i < |sub| && forall j :: 0 <= j < |sup| ==> !ApproxAnnSem(sub[i], sup[j], eps)
    ensures !FirstFitMatching(sub, sup, m, eps)
  {
    if |m| == |sub| && m[i] < |sup| {
      assert !ApproxAnnSem(sub[i], sup[m[i]], eps);
    }
  }

  /** A matching into `sup` uses distinct positions of `sup`, so `sub` is no longer than `sup`. */
  lemma MatchingFits(sub: seq<AnnSem>, sup: seq<AnnSem>, m: seq<nat>, eps: real)
    requires FirstFitMatching(sub, sup, m, eps)
    ensures |sub| <= |sup|
  {
    var used := set i | 0 <= i < |m| :: m[i];
    InjectiveImage(m);
    assert used <= Range(|sup|);
    RangeSize(|sup|);
    SubsetSize(used, Range(|sup|));
  }

  /** The positions below `n`. */
  function Range(n: nat): (r: set<nat>)
    ensures forall x: nat :: x in r <==> x < n
  {
    if n == 0 then {} else Range(n - 1) + {n - 1}
  }

  lemma {:induction false} RangeSize(n: nat)
    ensures |Range(n)| == n
  {
    if n > 0 {
      RangeSize(n - 1);
    }
  }

  lemma {:induction false} SubsetSize(a: set<nat>, b: set<nat>)
    requires a <= b
    ensures |a| <= |b|
  {
    assert b == a + (b - a);
  }

  lemma {:induction false} InjectiveImage(m: seq<nat>)
    requires forall i, k :: 0 <= i < k < |m| ==> m[i] != m[k]
    ensures |set i | 0 <= i < |m| :: m[i]| == |m|
  {
    if |m| > 0 {
      var init := m[..|m| - 1];
      InjectiveImage(init);
      var s0 := set i | 0 <= i < |init| :: init[i];
      var s1 := set i | 0 <= i < |m| :: m[i];
      assert s1 == s0 + {m[|m| - 1]};
      assert m[|m| - 1] !in s0;
    }
  }

  /**
   * `assert_semantics_subset`: each element of `sub` in turn takes the first
   * unused element of `sup` it approximately equals; one without any fails.
   */
  method AssertSemanticsSubset(sub: seq<AnnSem>, sup: seq<AnnSem>, eps: real)
    returns (r: Result<(), CheckError>, ghost m: seq<nat>)
    ensures r.Ok? ==> FirstFitMatching(sub, sup, m, eps)
    ensures r.Err? ==> exists i :: 0 <= i < |sub| && r.error == NoMatch(sub[i], eps)
    ensures r.Err? ==> forall m' :: !FirstFitMatching(sub, sup, m', eps)
  {
    var used := new bool[|sup|](_ => false);
    m := [];
    for i := 0 to |sub|
      invariant used.Length == |sup| && |m| == i
      invariant MatchedSoFar(sub, sup, m, eps, used[..])
    {
      var found := FirstFree(sub[i], sup, used, eps);
      match found {
        case Some(idx) =>
          MatchedSnoc(sub, sup, m, eps, used[..], idx);
          used[idx] := true;
          m := m + [idx];
        case None =>
          forall m' ensures !FirstFitMatching(sub, sup, m', eps) {
            NoMatchRefused(sub, sup, m, eps, used[..], m');
          }
          return Err(NoMatch(sub[i], eps)), m;
      }
    }
    return Ok(()), m;
  }

  /** A first-fit matching of the first `|m|` elements of `sub`, with `used` marking the elements of `sup` taken. */
  ghost predicate MatchedSoFar(sub: seq<AnnSem>, sup: seq<AnnSem>, m: seq<nat>, eps: real, used: seq<bool>) {
    && |used| == |sup| && |m| <= |sub|
    && (forall k :: 0 <= k < |m| ==> m[k] < |sup| && ApproxAnnSem(sub[k], sup[m[k]], eps))
    && (forall k, l :: 0 <= k < l < |m| ==> m[k] != m[l])
    && (forall j :: 0 <= j < |sup| ==> (used[j] <==> j in m))
    && (forall k, j :: 0 <= k < |m| && 0 <= j < m[k] && ApproxAnnSem(sub[k], sup[j], eps) ==> j in m[..k])
  }

  /** Matching the next element of `sub` to the first free element of `sup` it approximately equals. */
  lemma MatchedSnoc(sub: seq<AnnSem>, sup: seq<AnnSem>, m: seq<nat>, eps: real, used: seq<bool>, idx: nat)
    requires MatchedSoFar(sub, sup, m, eps, used) && |m| < |sub|
    requires idx < |sup| && !used[idx] && ApproxAnnSem(sub[|m|], sup[idx], eps)
    requires forall l :: 0 <= l < idx && ApproxAnnSem(sub[|m|], sup[l], eps) ==> used[l]
    ensures MatchedSoFar(sub, sup, m + [idx], eps, used[idx := true])
  {
    var m' := m + [idx];
    assert m'[..|m|] == m;
    forall k, j | 0 <= k < |m'| && 0 <= j < m'[k] && ApproxAnnSem(sub[k], sup[j], eps) ensures j in m'[..k] {
      if k < |m| {
        assert m'[..k] == m[..k];
      }
    }
  }

  /** A first-fit matching repeats the choices of any partial first-fit matching. */
  lemma {:induction false} FirstFitPrefix(sub: seq<AnnSem>, sup: seq<AnnSem>, m: seq<nat>, eps: real, used: seq<bool>,
                                          m': seq<nat>, k: nat)
    requires MatchedSoFar(sub, sup, m, eps, used) && FirstFitMatching(sub, sup, m', eps)
    requires k <= |m|
    ensures m'[..k] == m[..k]
  {
    if k > 0 {
      FirstFitPrefix(sub, sup, m, eps, used, m', k - 1);
      FirstFitStep(sub, sup, m, eps, used, m', k - 1);
      assert m'[..k] == m'[..k - 1] + [m'[k - 1]];
      assert m[..k] == m[..k - 1] + [m[k - 1]];
    }
  }

  /** Two first-fit matchings that agree before position `i` agree at `i`. */
  lemma FirstFitStep(sub: seq<AnnSem>, sup: seq<AnnSem>, m: seq<nat>, eps: real, used: seq<bool>,
                     m': seq<nat>, i: nat)
    requires MatchedSoFar(sub, sup, m, eps, used) && FirstFitMatching(sub, sup, m', eps)
    requires i < |m| && m'[..i] == m[..i]
    ensures m'[i] == m[i]
  {
    var x, y := m[i], m'[i];
    var before := m[..i];
    DistinctFresh(m, i);
    DistinctFresh(m', i);
    assert y < x ==> y in before;
    assert x < y ==> x in before;
  }

  /**
   * When the next element of `sub` approximately equals only elements of
   * `sup` already taken, no first-fit matching of `sub` into `sup` exists.
   */
  lemma NoMatchRefused(sub: seq<AnnSem>, sup: seq<AnnSem>, m: seq<nat>, eps: real, used: seq<bool>, m': seq<nat>)
    requires MatchedSoFar(sub, sup, m, eps, used) && |m| < |sub|
    requires forall l :: 0 <= l < |sup| && ApproxAnnSem(sub[|m|], sup[l], eps) ==> used[l]
    ensures !FirstFitMatching(sub, sup, m', eps)
  {
    assert m[..|m|] == m;
    if FirstFitMatching(sub, sup, m', eps) {
      FirstFitPrefix(sub, sup, m, eps, used, m', |m|);
      DistinctFresh(m', |m|);
      assert false;
    }
  }

  /** In a sequence without repeats, no element occurs before its own position. */
  lemma DistinctFresh(m: seq<nat>, i: nat)
    requires i < |m| && forall k, l :: 0 <= k < l < |m| ==> m[k] != m[l]
    ensures m[i] !in m[..i]
  {
    assert forall k :: 0 <= k < i ==> m[..i][k] == m[k];
  }

  /** The inner search: the first element of `sup` not yet used that approximately equals `x`. */
  method FirstFree(x: AnnSem, sup: seq<AnnSem>, used: array<bool>, eps: real) returns (found: Option<nat>)
    requires used.Length == |sup|
    ensures found.None? ==> forall l :: 0 <= l < |sup| && ApproxAnnSem(x, sup[l], eps) ==> used[l]
    ensures found.Some? ==> found.value < |sup| && !used[found.value] && ApproxAnnSem(x, sup[found.value], eps)
    ensures found.Some? ==> forall l :: 0 <= l < found.value && ApproxAnnSem(x, sup[l], eps) ==> used[l]
  {
    found := None;
    var j := 0;
    while j < |sup| && found.None?
      invariant 0 <= j <= |sup|
      invariant found.None? ==> forall l :: 0 <= l < j && ApproxAnnSem(x, sup[l], eps) ==> used[l]
      invariant found.Some? ==> found.value < |sup| && !used[found.value] && ApproxAnnSem(x, sup[found.value], eps)
      invariant found.Some? ==> forall l :: 0 <= l < found.value && ApproxAnnSem(x, sup[l], eps) ==> used[l]
    {
      if !used[j] && ApproxAnnSem(x, sup[j], eps) {
        found := Some(j);
      }
      j := j + 1;
    }
  }

  /** Both directions of a subset check succeeded, on lists of equal length. */
  ghost predicate Equivalent(left: seq<AnnSem>, right: seq<AnnSem>, fwd: seq<nat>, bwd: seq<nat>, eps: real) {
    |left| == |right| && FirstFitMatching(left, right, fwd, eps) && FirstFitMatching(right, left, bwd, eps)
  }

  /**
   * `assert_annotations_equivalent`: both semantics must exist and have the
   * same length, and each must be a subset of the other.
   */
  method AssertAnnotationsEquivalent(a: Dataset, b: Dataset, eps: real)
    returns (r: Result<(), CheckError>, ghost fwd: seq<nat>, ghost bwd: seq<nat>)
    ensures AnnSemantics(a).Err? ==> r == Err(AnnSemantics(a).error)
    ensures AnnSemantics(a).Ok? && AnnSemantics(b).Err? ==> r == Err(AnnSemantics(b).error)
    ensures AnnSemantics(a).Ok? && AnnSemantics(b).Ok? && |AnnSemantics(a).value| != |AnnSemantics(b).value|
            ==> r == Err(CountMismatch(|AnnSemantics(a).value|, |AnnSemantics(b).value|))
    ensures r.Ok? ==> AnnSemantics(a).Ok? && AnnSemantics(b).Ok?
                      && Equivalent(AnnSemantics(a).value, AnnSemantics(b).value, fwd, bwd, eps)
    ensures r.Err? && AnnSemantics(a).Ok? && AnnSemantics(b).Ok?
            ==> forall f, g :: !Equivalent(AnnSemantics(a).value, AnnSemantics(b).value, f, g, eps)
  {
    fwd, bwd := [], [];
    var left := AnnSemantics(a);
    if left.Err? {
      return Err(left.error), fwd, bwd;
    }
    var right := AnnSemantics(b);
    if right.Err? {
      return Err(right.error), fwd, bwd;
    }
    if |left.value| != |right.value| {
      return Err(CountMismatch(|left.value|, |right.value|)), fwd, bwd;
    }
    var there;
    there, fwd := AssertSemanticsSubset(left.value, right.value, eps);
    if there.Err? {
      return there, fwd, bwd;
    }
    var back;
    back, bwd := AssertSemanticsSubset(right.value, left.value, eps);
    if back.Err? {
      return back, fwd, bwd;
    }
    r := Ok(());
  }

  /** `assert_annotations_subset`: both semantics must exist, and the first be a subset of the second. */
  method AssertAnnotationsSubset(sub: Dataset, sup: Dataset, eps: real)
    returns (r: Result<(), CheckError>, ghost m: seq<nat>)
    ensures AnnSemantics(sub).Err? ==> r == Err(AnnSemantics(sub).error)
    ensures AnnSemantics(sub).Ok? && AnnSemantics(sup).Err? ==> r == Err(AnnSemantics(sup).error)
    ensures r.Ok? ==> AnnSemantics(sub).Ok? && AnnSemantics(sup).Ok?
                      && FirstFitMatching(AnnSemantics(sub).value, AnnSemantics(sup).value, m, eps)
    ensures r.Err? && AnnSemantics(sub).Ok? && AnnSemantics(sup).Ok?
            ==> forall m' :: !FirstFitMatching(AnnSemantics(sub).value, AnnSemantics(sup).value, m', eps)
  {
    m := [];
    var subSem := AnnSemantics(sub);
    if subSem.Err? {
      return Err(subSem.error), m;
    }
    var supSem := AnnSemantics(sup);
    if supSem.Err? {
      return Err(supSem.error), m;
    }
    r, m := AssertSemanticsSubset(subSem.value, supSem.value, eps);
  }
}
