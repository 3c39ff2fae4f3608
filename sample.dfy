// Dataset sampling (src/sample/mod.rs): the option checks, the category
// filter, the target size, the uniform and the category-weighted image
// selection, and the subset that keeps the chosen images with their
// annotations. The random number generator is a pair of draw streams
// (`draws` for index draws, `units` for `f64` draws in [0, 1)), indexed by
// the order in which the source consumes them.
module Sample {
  import opened Wrappers
  import opened Ir
  import opened Seqs
  import Text
  import StrOrder
  import Sorting

  datatype Strategy = Random | Stratified

  datatype CategoryMode = Images | Annotations

  datatype SampleOptions = SampleOptions(
    n: Option<nat>,
    fraction: Option<real>,
    seed: Option<nat>,
    strategy: Strategy,
    categories: seq<string>,
    categoryMode: CategoryMode)

  datatype SampleError = InvalidSampleParams(message: string) | SampleFailed(message: string)

  const MUTUALLY_EXCLUSIVE := "-n and --fraction are mutually exclusive"
  const EXACTLY_ONE := "set exactly one of -n or --fraction"
  const N_POSITIVE := "-n must be greater than 0"
  const FRACTION_RANGE := "--fraction must be in the interval (0.0, 1.0]"
  const NO_CATEGORY := "none of the requested categories were found in the dataset"
  const NO_IMAGES := "no images available after category filtering"

  // ---------------------------------------------------------------------
  // Options
  // ---------------------------------------------------------------------

  /** Exactly one of n and fraction, n positive, fraction in (0, 1]. */
  predicate ValidOptions(opts: SampleOptions) {
    (opts.n.Some? <==> opts.fraction.None?)
    && (opts.n.Some? ==> opts.n.value > 0)
    && (opts.fraction.Some? ==> 0.0 < opts.fraction.value <= 1.0)
  }

  /** `validate_sample_options`: the first failing check names the problem. */
  function ValidateSampleOptions(opts: SampleOptions): (r: Result<(), SampleError>)
    ensures r.Ok? <==> ValidOptions(opts)
    ensures opts.n.Some? && opts.fraction.Some? ==> r == Err(InvalidSampleParams(MUTUALLY_EXCLUSIVE))
    ensures opts.n.None? && opts.fraction.None? ==> r == Err(InvalidSampleParams(EXACTLY_ONE))
    ensures opts.n == Some(0) && opts.fraction.None? ==> r == Err(InvalidSampleParams(N_POSITIVE))
    ensures r.Err? ==> r.error.InvalidSampleParams?
  {
    if opts.n.Some? && opts.fraction.Some? then Err(InvalidSampleParams(MUTUALLY_EXCLUSIVE))
    else if opts.n.None? && opts.fraction.None? then Err(InvalidSampleParams(EXACTLY_ONE))
    else if opts.n.Some? && opts.n.value == 0 then Err(InvalidSampleParams(N_POSITIVE))
    else if opts.fraction.Some? && !(0.0 < opts.fraction.value && opts.fraction.value <= 1.0) then
      Err(InvalidSampleParams(FRACTION_RANGE))
    else Ok(())
  }

  // ---------------------------------------------------------------------
  // Target size
  // ---------------------------------------------------------------------

  /** `f64::ceil`. */
  function Ceil(x: real): (c: int)
    ensures (c - 1) as real < x <= c as real
  {
    -((-x).Floor)
  }

  /** `raw.clamp(1, total)` for `total >= 1`. */
  function Clamp(raw: int, total: nat): (r: nat)
    requires total >= 1
    ensures 1 <= r <= total
    ensures 1 <= raw <= total ==> r == raw
  {
    if raw < 1 then 1 else if raw > total then total else raw
  }

  /**
   * `target_image_count`. The `as usize` cast saturates at zero for a
   * negative ceiling; the clamp then lifts it to one.
   */
  function TargetImageCount(total: nat, n: Option<nat>, fraction: Option<real>): (r: nat)
    ensures r <= total
    ensures total == 0 ==> r == 0
    ensures total > 0 && n.Some? ==> r == if n.value < total then n.value else total
    ensures total > 0 && n.None? && fraction.Some? ==> r >= 1
    ensures n.None? && fraction.None? ==> r == 0
  {
    if total == 0 then 0
    else if n.Some? then (if n.value < total then n.value else total)
    else if fraction.Some? then
      var raw := Ceil(total as real * fraction.value);
      Clamp(if raw < 0 then 0 else raw, total)
    else 0
  }

  /** For a fraction in (0, 1] the target is the ceiling of total times fraction. */
  lemma TargetFromFraction(total: nat, f: real)
    requires total > 0 && 0.0 < f <= 1.0
    ensures var r := TargetImageCount(total, None, Some(f));
      (r - 1) as real < total as real * f <= r as real
  {
    var x := total as real * f;
    assert 0.0 < x;
    assert x <= total as real by {
      assert total as real * f <= total as real * 1.0;
    }
    var raw := Ceil(x);
    assert 1 <= raw <= total;
  }

  /** Validated options and a non-empty dataset give a target between 1 and the total. */
  lemma TargetPositive(total: nat, opts: SampleOptions)
    requires ValidOptions(opts) && total > 0
    ensures 1 <= TargetImageCount(total, opts.n, opts.fraction) <= total
  {
  }

  // ---------------------------------------------------------------------
  // Category filter
  // ---------------------------------------------------------------------

  /** The trimmed, non-blank requested names. */
  function Requested(categories: seq<string>): set<string> {
    if |categories| == 0 then {}
    else
      var c := Text.Trim(categories[|categories| - 1]);
      Requested(categories[..|categories| - 1]) + (if c == "" then {} else {c})
  }

  lemma {:induction false} RequestedMember(categories: seq<string>, name: string)
    ensures name in Requested(categories) <==> name != "" && name in Map(categories, Text.Trim)
  {
    if |categories| > 0 {
      var init := categories[..|categories| - 1];
      RequestedMember(init, name);
      assert Map(categories, Text.Trim) == Map(init, Text.Trim) + [Text.Trim(categories[|categories| - 1])];
    }
  }

  /** IDs of the categories whose name is requested. */
  function SelectedIds(categories: seq<Category>, requested: set<string>): set<nat> {
    if |categories| == 0 then {}
    else
      var c := categories[|categories| - 1];
      SelectedIds(categories[..|categories| - 1], requested) + (if c.name in requested then {c.id} else {})
  }

  lemma {:induction false} SelectedIdsMember(categories: seq<Category>, requested: set<string>, id: nat)
    ensures id in SelectedIds(categories, requested) <==>
      exists k :: 0 <= k < |categories| && categories[k].id == id && categories[k].name in requested
  {
    if |categories| > 0 {
      var init := categories[..|categories| - 1];
      SelectedIdsMember(init, requested, id);
      if exists k :: 0 <= k < |init| && init[k].id == id && init[k].name in requested {
        var k :| 0 <= k < |init| && init[k].id == id && init[k].name in requested;
        assert categories[k] == init[k];
      }
      if exists k :: 0 <= k < |categories| && categories[k].id == id && categories[k].name in requested {
        var k :| 0 <= k < |categories| && categories[k].id == id && categories[k].name in requested;
        if k < |init| {
          assert init[k] == categories[k];
        }
      }
    }
  }

  /** The loop over `dataset.categories` that collects the selected IDs. */
  method SelectCategoryIds(categories: seq<Category>, requested: set<string>) returns (ids: set<nat>)
    ensures ids == SelectedIds(categories, requested)
    ensures ids == {} <==> forall c :: c in categories ==> c.name !in requested
  {
    ids := {};
    var i := 0;
    while i < |categories|
      invariant 0 <= i <= |categories|
      invariant ids == SelectedIds(categories[..i], requested)
    {
      assert categories[..i + 1][..i] == categories[..i];
      if categories[i].name in requested {
        ids := ids + {categories[i].id};
      }
      i := i + 1;
    }
    assert categories[..i] == categories;
    SelectedNone(categories, requested);
  }

  lemma {:induction false} SelectedNone(categories: seq<Category>, requested: set<string>)
    ensures SelectedIds(categories, requested) == {} <==> forall c :: c in categories ==> c.name !in requested
  {
    if |categories| > 0 {
      var init := categories[..|categories| - 1];
      SelectedNone(init, requested);
      assert forall c :: c in categories <==> c in init || c == categories[|categories| - 1];
    }
  }

  /** Image IDs of the annotations whose category is selected. */
  function ImagesWith(anns: seq<Annotation>, selected: set<nat>): set<nat> {
    if |anns| == 0 then {}
    else
      var a := anns[|anns| - 1];
      ImagesWith(anns[..|anns| - 1], selected) + (if a.categoryId in selected then {a.imageId} else {})
  }

  /** Some annotation with a selected category lies on image `id`. */
  predicate HasSelected(anns: seq<Annotation>, selected: set<nat>, id: nat) {
    exists a :: a in anns && a.imageId == id && a.categoryId in selected
  }

  lemma {:induction false} ImagesWithMember(anns: seq<Annotation>, selected: set<nat>, id: nat)
    ensures id in ImagesWith(anns, selected) <==> HasSelected(anns, selected, id)
  {
    if |anns| > 0 {
      var init := anns[..|anns| - 1];
      ImagesWithMember(init, selected, id);
      assert forall a :: a in anns <==> a in init || a == anns[|anns| - 1];
    }
  }

  /** Image IDs referenced by the annotations. */
  function ImageIdsOf(anns: seq<Annotation>): set<nat> {
    if |anns| == 0 then {} else ImageIdsOf(anns[..|anns| - 1]) + {anns[|anns| - 1].imageId}
  }

  lemma {:induction false} ImageIdsOfMember(anns: seq<Annotation>, id: nat)
    ensures id in ImageIdsOf(anns) <==> exists a :: a in anns && a.imageId == id
  {
    if |anns| > 0 {
      var init := anns[..|anns| - 1];
      ImageIdsOfMember(init, id);
      assert forall a :: a in anns <==> a in init || a == anns[|anns| - 1];
    }
  }

  function InCategories(selected: set<nat>): Annotation -> bool {
    (a: Annotation) => a.categoryId in selected
  }

  function OnImage(keep: set<nat>): Annotation -> bool {
    (a: Annotation) => a.imageId in keep
  }

  function Kept(keep: set<nat>): Image -> bool {
    (img: Image) => img.id in keep
  }

  /**
   * Keeping the selected-category annotations and then their images keeps
   * the same images as the images mode does.
   */
  lemma ImagesOfSelected(anns: seq<Annotation>, selected: set<nat>)
    ensures ImageIdsOf(Filter(anns, InCategories(selected))) == ImagesWith(anns, selected)
  {
    var f := Filter(anns, InCategories(selected));
    forall id ensures id in ImageIdsOf(f) <==> id in ImagesWith(anns, selected) {
      ImageIdsOfMember(f, id);
      ImagesWithMember(anns, selected, id);
    }
  }

  /** The filtered dataset for a non-empty selection, in either mode. */
  function Filtered(d: Dataset, selected: set<nat>, mode: CategoryMode): (r: Dataset)
    ensures r.info == d.info && r.licenses == d.licenses && r.categories == d.categories
  {
    match mode
    case Images =>
      var keep := ImagesWith(d.annotations, selected);
      Dataset(d.info, d.licenses, Filter(d.images, Kept(keep)), d.categories,
              Filter(d.annotations, OnImage(keep)))
    case Annotations =>
      var anns := Filter(d.annotations, InCategories(selected));
      var keep := ImageIdsOf(anns);
      Dataset(d.info, d.licenses, Filter(d.images, Kept(keep)), d.categories, anns)
  }

  /**
   * `filter_dataset_by_categories`: an empty or blank request changes
   * nothing, a request naming no category of the dataset fails, and
   * otherwise the mode decides what is kept.
   */
  method FilterDatasetByCategories(d: Dataset, categories: seq<string>, mode: CategoryMode)
    returns (r: Result<Dataset, SampleError>)
    ensures Requested(categories) == {} ==> r == Ok(d)
    ensures r.Err? <==>
      Requested(categories) != {} && forall c :: c in d.categories ==> c.name !in Requested(categories)
    ensures r.Err? ==> r.error == InvalidSampleParams(NO_CATEGORY)
    ensures r.Ok? && Requested(categories) != {} ==>
      r.value == Filtered(d, SelectedIds(d.categories, Requested(categories)), mode)
  {
    if |categories| == 0 {
      assert Requested(categories) == {};
      return Ok(d);
    }
    var requested := Requested(categories);
    if requested == {} {
      return Ok(d);
    }
    var selected := SelectCategoryIds(d.categories, requested);
    if selected == {} {
      return Err(InvalidSampleParams(NO_CATEGORY));
    }
    r := Ok(Filtered(d, selected, mode));
  }

  /** Images mode keeps exactly the images with a selected annotation, and all their annotations. */
  lemma ImagesModeKeeps(d: Dataset, selected: set<nat>, img: Image, a: Annotation)
    ensures img in Filtered(d, selected, Images).images <==>
      img in d.images && HasSelected(d.annotations, selected, img.id)
    ensures a in Filtered(d, selected, Images).annotations <==>
      a in d.annotations && HasSelected(d.annotations, selected, a.imageId)
  {
    ImagesWithMember(d.annotations, selected, img.id);
    ImagesWithMember(d.annotations, selected, a.imageId);
  }

  /**
   * Annotations mode keeps exactly the selected-category annotations and
   * exactly the images that still have one of them.
   */
  lemma AnnotationsModeKeeps(d: Dataset, selected: set<nat>, img: Image, a: Annotation)
    ensures a in Filtered(d, selected, Annotations).annotations <==>
      a in d.annotations && a.categoryId in selected
    ensures img in Filtered(d, selected, Annotations).images <==>
      img in d.images && exists b :: b in Filtered(d, selected, Annotations).annotations && b.imageId == img.id
  {
    var anns := Filter(d.annotations, InCategories(selected));
    ImageIdsOfMember(anns, img.id);
  }

  /** Both modes keep the same images. */
  lemma ModesKeepSameImages(d: Dataset, selected: set<nat>)
    ensures Filtered(d, selected, Images).images == Filtered(d, selected, Annotations).images
  {
    ImagesOfSelected(d.annotations, selected);
  }

  // ---------------------------------------------------------------------
  // Subset
  // ---------------------------------------------------------------------

  /** `subset_by_image_ids`: the images in `keep` and the annotations on them, in order. */
  function SubsetByImageIds(d: Dataset, keep: set<nat>): (r: Dataset)
    ensures r.info == d.info && r.licenses == d.licenses && r.categories == d.categories
    ensures forall img :: img in r.images <==> img in d.images && img.id in keep
    ensures forall a :: a in r.annotations <==> a in d.annotations && a.imageId in keep
  {
    Dataset(d.info, d.licenses, Filter(d.images, Kept(keep)), d.categories,
            Filter(d.annotations, OnImage(keep)))
  }

  lemma {:induction false} FilterFilter<T(!new)>(s: seq<T>, p: T -> bool, q: T -> bool, pq: T -> bool)
    requires forall x :: pq(x) == (p(x) && q(x))
    ensures Filter(Filter(s, p), q) == Filter(s, pq)
  {
    if |s| > 0 {
      var init := s[..|s| - 1];
      var x := s[|s| - 1];
      FilterFilter(init, p, q, pq);
      var f := Filter(init, p);
      if p(x) {
        assert Filter(s, p) == f + [x];
        FilterAppend(f, [x], q);
        assert Filter([x], q) == if q(x) then [x] else [];
        assert Filter(f, q) + [] == Filter(f, q);
      } else {
        assert Filter(s, p) == f;
      }
    }
  }

  function KeptBoth(a: set<nat>, b: set<nat>): Image -> bool {
    (img: Image) => img.id in a && img.id in b
  }

  function OnBoth(a: set<nat>, b: set<nat>): Annotation -> bool {
    (x: Annotation) => x.imageId in a && x.imageId in b
  }

  /** Two subsets in a row are the subset by the intersection, in the same order. */
  lemma SubsetTwice(d: Dataset, a: set<nat>, b: set<nat>)
    ensures SubsetByImageIds(SubsetByImageIds(d, a), b) == SubsetByImageIds(d, a * b)
  {
    FilterFilter(d.images, Kept(a), Kept(b), KeptBoth(a, b));
    FilterFilter(d.images, Kept(a * b), Kept(a * b), Kept(a * b));
    FilterFilter(d.annotations, OnImage(a), OnImage(b), OnBoth(a, b));
    FilterFilter(d.annotations, OnImage(a * b), OnImage(a * b), OnImage(a * b));
    assert forall img :: Kept(a * b)(img) == KeptBoth(a, b)(img);
    assert forall x :: OnImage(a * b)(x) == OnBoth(a, b)(x);
    FilterSame(d.images, Kept(a * b), KeptBoth(a, b));
    FilterSame(d.annotations, OnImage(a * b), OnBoth(a, b));
  }

  lemma {:induction false} FilterSame<T(!new)>(s: seq<T>, p: T -> bool, q: T -> bool)
    requires forall x :: p(x) == q(x)
    ensures Filter(s, p) == Filter(s, q)
  {
    if |s| > 0 {
      FilterSame(s[..|s| - 1], p, q);
    }
  }

  /** Keeping every image ID of the dataset, with every annotation on a listed image, keeps it whole. */
  lemma SubsetAll(d: Dataset, keep: set<nat>)
    requires forall img :: img in d.images ==> img.id in keep
    requires forall a :: a in d.annotations ==> a.imageId in keep
    ensures SubsetByImageIds(d, keep) == d
  {
    FilterAll(d.images, Kept(keep));
    FilterAll(d.annotations, OnImage(keep));
  }

  // ---------------------------------------------------------------------
  // Ordering and uniform selection
  // ---------------------------------------------------------------------

  type Row = (string, nat)

  /** `a.0.cmp(&b.0).then_with(|| a.1.cmp(&b.1))`, as "not after". */
  predicate RowLe(a: Row, b: Row) {
    StrOrder.Lt(a.0, b.0) || (a.0 == b.0 && a.1 <= b.1)
  }

  lemma RowPreorder()
    ensures Sorting.TotalPreorder(RowLe)
  {
    forall a: Row, b: Row ensures RowLe(a, b) || RowLe(b, a) {
      if a.0 != b.0 {
        StrOrder.LtTotal(a.0, b.0);
      }
    }
    forall a: Row, b: Row, c: Row | RowLe(a, b) && RowLe(b, c) ensures RowLe(a, c) {
      if StrOrder.Lt(a.0, b.0) && StrOrder.Lt(b.0, c.0) {
        StrOrder.LtTransitive(a.0, b.0, c.0);
      }
    }
  }

  function RowOf(img: Image): Row { (img.fileName, img.id) }

  function IdOf(row: Row): nat { row.1 }

  function SortedRows(images: seq<Image>): seq<Row> {
    Sorting.SortBy(Map(images, RowOf), RowLe)
  }

  /** `sorted_image_ids`: the image IDs ordered by file name, then ID. */
  function SortedImageIds(images: seq<Image>): (ids: seq<nat>)
    ensures |ids| == |images|
  {
    Map(SortedRows(images), IdOf)
  }

  /** The sorted IDs are the dataset's IDs. */
  lemma SortedImageIdsPermutation(images: seq<Image>)
    ensures multiset(SortedImageIds(images)) == multiset(ImageIds(images))
  {
    var rows := Map(images, RowOf);
    MapPermutation(SortedRows(images), rows, IdOf);
    assert Map(rows, IdOf) == ImageIds(images);
  }

  /** The sorted rows are in (file name, ID) order. */
  lemma SortedRowsOrdered(images: seq<Image>)
    ensures Sorting.SortedBy(SortedRows(images), RowLe)
  {
    RowPreorder();
    Sorting.SortBySorted(Map(images, RowOf), RowLe);
  }

  predicate NatLe(a: nat, b: nat) { a <= b }

  /** `ids.sort()` on image IDs. */
  function SortIds(ids: seq<nat>): (r: seq<nat>)
    ensures |r| == |ids| && multiset(r) == multiset(ids)
    ensures forall i, j :: 0 <= i < j < |r| ==> r[i] <= r[j]
  {
    Sorting.NatKeyPreorder(NatLe, (x: nat) => x);
    Sorting.SortBySorted(ids, NatLe);
    Sorting.SortBy(ids, NatLe)
  }

  function Swap(s: seq<nat>, i: nat, j: nat): (r: seq<nat>)
    requires i < |s| && j < |s|
    ensures |r| == |s| && multiset(r) == multiset(s)
  {
    s[i := s[j]][j := s[i]]
  }

  /**
   * `SliceRandom::shuffle`: Fisher-Yates from the last position down, the
   * `t`-th index draw choosing the partner of position `i` among 0..=i.
   */
  function ShuffleFrom(s: seq<nat>, i: nat, draws: nat -> nat, t: nat): (r: seq<nat>)
    requires i < |s|
    ensures |r| == |s| && multiset(r) == multiset(s)
    decreases i
  {
    if i == 0 then s
    else ShuffleFrom(Swap(s, i, draws(t) % (i + 1)), i - 1, draws, t + 1)
  }

  function Shuffle(s: seq<nat>, draws: nat -> nat): (r: seq<nat>)
    ensures |r| == |s| && multiset(r) == multiset(s)
  {
    if |s| == 0 then s else ShuffleFrom(s, |s| - 1, draws, 0)
  }

  /**
   * `select_image_ids_random`: every ID in name order when `k` covers the
   * dataset, else `k` of them, sorted by ID.
   */
  function SelectImageIdsRandom(d: Dataset, k: nat, draws: nat -> nat): (r: seq<nat>)
    ensures k >= |d.images| ==> r == SortedImageIds(d.images)
    ensures k < |d.images| ==> |r| == k
    ensures k < |d.images| ==> forall i, j :: 0 <= i < j < |r| ==> r[i] <= r[j]
    ensures multiset(r) <= multiset(ImageIds(d.images))
  {
    var ids := SortedImageIds(d.images);
    SortedImageIdsPermutation(d.images);
    if k >= |ids| then ids
    else
      var s := Shuffle(ids, draws);
      TakeSubMultiset(s, k);
      SortIds(s[..k])
  }

  lemma TakeSubMultiset(s: seq<nat>, k: nat)
    requires k <= |s|
    ensures multiset(s[..k]) <= multiset(s)
  {
    assert s == s[..k] + s[k..];
  }

  /** With distinct image IDs, a uniform sample repeats none. */
  lemma RandomDistinct(d: Dataset, k: nat, draws: nat -> nat)
    requires Distinct(ImageIds(d.images))
    ensures Distinct(SelectImageIdsRandom(d, k, draws))
  {
    var r := SelectImageIdsRandom(d, k, draws);
    DistinctMultiset(ImageIds(d.images));
    SubMultisetDistinct(r, ImageIds(d.images));
  }

  /** A sequence whose multiset fits in that of a sequence without repeats has none. */
  lemma SubMultisetDistinct(a: seq<nat>, b: seq<nat>)
    requires multiset(a) <= multiset(b)
    requires forall x :: multiset(b)[x] <= 1
    ensures Distinct(a)
  {
    DistinctMultiset(a);
  }

  // ---------------------------------------------------------------------
  // Category-weighted selection
  // ---------------------------------------------------------------------

  function HasCategoryId(c: nat): Annotation -> bool {
    (a: Annotation) => a.categoryId == c
  }

  /** `category_freq[c]`: annotations of category `c`. */
  function CategoryFreq(anns: seq<Annotation>, c: nat): nat {
    CountIf(anns, HasCategoryId(c))
  }

  /** The category IDs of image `img`, each once, in first-seen order. */
  function ImageCategories(anns: seq<Annotation>, img: nat): (cats: seq<nat>)
    ensures Distinct(cats)
    ensures forall c :: c in cats <==> exists a :: a in anns && a.imageId == img && a.categoryId == c
  {
    if |anns| == 0 then []
    else
      var init := anns[..|anns| - 1];
      var a := anns[|anns| - 1];
      var rest := ImageCategories(init, img);
      assert forall x :: x in anns <==> x in init || x == a;
      if a.imageId == img && a.categoryId !in rest then
        DistinctSnoc(rest, a.categoryId);
        rest + [a.categoryId]
      else rest
  }

  /** `1.0 / freq`, with a missing frequency read as 1. */
  function InverseFreq(anns: seq<Annotation>): nat -> real {
    (c: nat) => var f := CategoryFreq(anns, c); 1.0 / (if f == 0 then 1 else f) as real
  }

  function RealSum(xs: seq<real>): real {
    if |xs| == 0 then 0.0 else RealSum(xs[..|xs| - 1]) + xs[|xs| - 1]
  }

  /** An image's weight: the sum of the inverse frequencies of its categories. */
  function ImageWeight(anns: seq<Annotation>, img: nat): real {
    RealSum(Map(ImageCategories(anns, img), InverseFreq(anns)))
  }

  lemma {:induction false} RealSumPositive(xs: seq<real>)
    requires forall k :: 0 <= k < |xs| ==> xs[k] > 0.0
    ensures |xs| == 0 ==> RealSum(xs) == 0.0
    ensures |xs| > 0 ==> RealSum(xs) > 0.0
  {
    if |xs| > 0 {
      RealSumPositive(xs[..|xs| - 1]);
    }
  }

  /** Rare categories weigh more: an image's weight is positive exactly when it has an annotation. */
  lemma WeightPositive(anns: seq<Annotation>, img: nat)
    ensures ImageWeight(anns, img) >= 0.0
    ensures ImageWeight(anns, img) > 0.0 <==> exists a :: a in anns && a.imageId == img
  {
    var cats := ImageCategories(anns, img);
    var xs := Map(cats, InverseFreq(anns));
    forall k | 0 <= k < |xs| ensures xs[k] > 0.0 {
      var f := CategoryFreq(anns, cats[k]);
      var q := (if f == 0 then 1 else f) as real;
      assert q > 0.0;
      assert xs[k] == 1.0 / q;
    }
    RealSumPositive(xs);
    if exists a :: a in anns && a.imageId == img {
      var a :| a in anns && a.imageId == img;
      assert a.categoryId in cats;
    }
    if |cats| > 0 {
      assert cats[0] in cats;
    }
  }

  type Candidate = (nat, real)

  function CandidateId(c: Candidate): nat { c.0 }

  function Clip(w: real): real { if w < 0.0 then 0.0 else w }

  /** Sum of the clipped weights of the first `n` candidates. */
  function PrefixWeight(cands: seq<Candidate>, n: nat): real
    requires n <= |cands|
  {
    if n == 0 then 0.0 else PrefixWeight(cands, n - 1) + Clip(cands[n - 1].1)
  }

  lemma {:induction false} PrefixWeightMono(cands: seq<Candidate>, m: nat, n: nat)
    requires m <= n <= |cands|
    ensures PrefixWeight(cands, m) <= PrefixWeight(cands, n)
    decreases n - m
  {
    if m < n {
      PrefixWeightMono(cands, m, n - 1);
    }
  }

  /**
   * The scan of the weighted draw: the first candidate whose running
   * weight reaches the draw, or the last candidate when none does.
   */
  method PickWeighted(cands: seq<Candidate>, draw0: real) returns (index: nat)
    requires |cands| > 0
    ensures index < |cands|
    ensures forall j :: 1 <= j <= index ==> PrefixWeight(cands, j) < draw0
    ensures index < |cands| - 1 ==> PrefixWeight(cands, index + 1) >= draw0
  {
    var draw := draw0;
    index := |cands| - 1;
    var i := 0;
    while i < |cands|
      invariant 0 <= i <= |cands|
      invariant draw == draw0 - PrefixWeight(cands, i)
      invariant forall j :: 1 <= j <= i ==> PrefixWeight(cands, j) < draw0
    {
      draw := draw - Clip(cands[i].1);
      if draw <= 0.0 {
        return i;
      }
      i := i + 1;
    }
  }

  /** A positive draw within the total weight never picks a weightless candidate. */
  lemma PickHasWeight(cands: seq<Candidate>, draw0: real, index: nat)
    requires index < |cands|
    requires forall j :: 1 <= j <= index ==> PrefixWeight(cands, j) < draw0
    requires index < |cands| - 1 ==> PrefixWeight(cands, index + 1) >= draw0
    requires 0.0 < draw0 <= PrefixWeight(cands, |cands|)
    ensures Clip(cands[index].1) > 0.0
  {
    if index > 0 {
      assert PrefixWeight(cands, index) < draw0;
    }
  }

  /** `candidates.swap_remove(i)`: the last candidate takes the removed one's place. */
  function SwapRemove(cands: seq<Candidate>, i: nat): (r: seq<Candidate>)
    requires i < |cands|
    ensures |r| == |cands| - 1
    ensures multiset(r) + multiset{cands[i]} == multiset(cands)
  {
    var last := |cands| - 1;
    var moved := cands[i := cands[last]];
    assert moved == moved[..last] + [moved[last]];
    assert multiset(moved) == multiset(cands) - multiset{cands[i]} + multiset{cands[last]};
    moved[..last]
  }

  /**
   * `weighted_sample_without_replacement`: each round removes one
   * candidate and selects it, until `k` are selected or none is left.
   */
  method WeightedSample(cands0: seq<Candidate>, k: nat, draws: nat -> nat, units: nat -> real)
    returns (selected: seq<nat>)
    ensures |selected| == if k < |cands0| then k else |cands0|
    ensures multiset(selected) <= multiset(Map(cands0, CandidateId))
  {
    var cands := cands0;
    selected := [];
    var t := 0;
    while |selected| < k && |cands| > 0
      invariant |selected| + |cands| == |cands0|
      invariant |selected| <= k
      invariant multiset(selected) + multiset(Map(cands, CandidateId)) == multiset(Map(cands0, CandidateId))
      decreases |cands|
    {
      var total := PrefixWeight(cands, |cands|);
      var pick: nat;
      if total <= 0.0 {
        pick := draws(t) % |cands|;
      } else {
        pick := PickWeighted(cands, units(t) * total);
      }
      var c := cands[pick];
      var rest := SwapRemove(cands, pick);
      RemovedId(cands, rest, pick);
      cands := rest;
      selected := selected + [c.0];
      t := t + 1;
    }
  }

  lemma RemovedId(cands: seq<Candidate>, rest: seq<Candidate>, pick: nat)
    requires pick < |cands|
    requires multiset(rest) + multiset{cands[pick]} == multiset(cands)
    ensures multiset(Map(rest, CandidateId)) + multiset{cands[pick].0} == multiset(Map(cands, CandidateId))
  {
    MapPermutation(rest + [cands[pick]], cands, CandidateId);
    assert Map(rest + [cands[pick]], CandidateId) == Map(rest, CandidateId) + [cands[pick].0];
  }

  function CandidateOf(anns: seq<Annotation>): nat -> Candidate {
    (id: nat) => (id, ImageWeight(anns, id))
  }

  /**
   * `select_image_ids_stratified`: every ID in name order when `k` covers
   * the dataset, else `k` of them drawn by weight, sorted by ID.
   */
  method SelectImageIdsStratified(d: Dataset, k: nat, draws: nat -> nat, units: nat -> real)
    returns (r: seq<nat>)
    ensures k >= |d.images| ==> r == SortedImageIds(d.images)
    ensures k < |d.images| ==> |r| == k
    ensures k < |d.images| ==> forall i, j :: 0 <= i < j < |r| ==> r[i] <= r[j]
    ensures multiset(r) <= multiset(ImageIds(d.images))
  {
    var ids := SortedImageIds(d.images);
    SortedImageIdsPermutation(d.images);
    if k >= |ids| {
      return ids;
    }
    var candidates := Map(ids, CandidateOf(d.annotations));
    assert Map(candidates, CandidateId) == ids;
    var selected := WeightedSample(candidates, k, draws, units);
    r := SortIds(selected);
  }

  // ---------------------------------------------------------------------
  // The whole sample
  // ---------------------------------------------------------------------

  /**
   * What either strategy promises of a selection of `k` IDs: every ID in
   * name order when `k` covers the dataset, else `k` IDs sorted ascending;
   * always drawn from the dataset's image IDs.
   */
  predicate IsSelection(d: Dataset, k: nat, s: seq<nat>) {
    && (k >= |d.images| ==> s == SortedImageIds(d.images))
    && (k < |d.images| ==> |s| == k && forall i, j :: 0 <= i < j < |s| ==> s[i] <= s[j])
    && multiset(s) <= multiset(ImageIds(d.images))
  }

  /** The dataset the category filter yields when it succeeds. */
  function CategoryFiltered(d: Dataset, categories: seq<string>, mode: CategoryMode): Dataset {
    if Requested(categories) == {} then d
    else Filtered(d, SelectedIds(d.categories, Requested(categories)), mode)
  }

  /** The category filter succeeds: nothing is requested, or some category has a requested name. */
  predicate FilterSucceeds(d: Dataset, categories: seq<string>) {
    Requested(categories) == {} || exists c :: c in d.categories && c.name in Requested(categories)
  }

  /** Every annotation lies on one of the images. */
  predicate Closed(d: Dataset) {
    forall a :: a in d.annotations ==> exists img :: img in d.images && img.id == a.imageId
  }

  /** `r` keeps exactly the images of some selection of `k` IDs of `f`, with all their annotations. */
  ghost predicate IsSample(f: Dataset, k: nat, r: Dataset) {
    exists selected :: IsSelection(f, k, selected) && r == SubsetByImageIds(f, set x | x in selected)
  }

  /**
   * `sample_dataset`: validate, filter by category, size the sample,
   * select image IDs with the chosen strategy and keep that subset.
   */
  method SampleDataset(d: Dataset, opts: SampleOptions, draws: nat -> nat, units: nat -> real)
    returns (r: Result<Dataset, SampleError>)
    ensures !ValidOptions(opts) ==> r == Err(ValidateSampleOptions(opts).error)
    ensures ValidOptions(opts) && d.images == [] ==> r.Err?
    ensures r.Err? && ValidOptions(opts) ==>
      r.error in {InvalidSampleParams(NO_CATEGORY), SampleFailed(NO_IMAGES)}
    ensures r.Ok? <==> ValidOptions(opts) && FilterSucceeds(d, opts.categories)
                       && |CategoryFiltered(d, opts.categories, opts.categoryMode).images| > 0
    ensures r.Ok? ==>
      var f := CategoryFiltered(d, opts.categories, opts.categoryMode);
      IsSample(f, TargetImageCount(|f.images|, opts.n, opts.fraction), r.value)
    ensures r.Ok? ==> r.value.info == d.info && r.value.licenses == d.licenses && r.value.categories == d.categories
    ensures r.Ok? ==> |r.value.images| > 0
    ensures r.Ok? ==> forall img :: img in r.value.images ==> img in d.images
    ensures r.Ok? ==> forall a :: a in r.value.annotations ==> a in d.annotations
    ensures r.Ok? ==> Closed(r.value)
  {
    var valid := ValidateSampleOptions(opts);
    if valid.Err? {
      return Err(valid.error);
    }
    var filteredOr := FilterDatasetByCategories(d, opts.categories, opts.categoryMode);
    FilterOutcome(d, opts.categories, opts.categoryMode, filteredOr);
    if filteredOr.Err? {
      return Err(filteredOr.error);
    }
    var filtered := filteredOr.value;
    FilteredWithin(d, opts.categories, opts.categoryMode, filtered);
    assert d.images == [] ==> filtered.images == [];
    r := SampleFiltered(filtered, opts, draws, units);
  }

  /** The steps after the filter: size the sample, select image IDs and keep that subset. */
  method SampleFiltered(f: Dataset, opts: SampleOptions, draws: nat -> nat, units: nat -> real)
    returns (r: Result<Dataset, SampleError>)
    requires ValidOptions(opts)
    ensures r.Ok? <==> |f.images| > 0
    ensures r.Err? ==> r.error == SampleFailed(NO_IMAGES)
    ensures r.Ok? ==> IsSample(f, TargetImageCount(|f.images|, opts.n, opts.fraction), r.value)
    ensures r.Ok? ==> r.value.info == f.info && r.value.licenses == f.licenses && r.value.categories == f.categories
    ensures r.Ok? ==> |r.value.images| > 0 && Closed(r.value)
    ensures r.Ok? ==> forall img :: img in r.value.images ==> img in f.images
    ensures r.Ok? ==> forall a :: a in r.value.annotations ==> a in f.annotations
  {
    if |f.images| == 0 {
      return Err(SampleFailed(NO_IMAGES));
    }
    var target := TargetImageCount(|f.images|, opts.n, opts.fraction);
    TargetPositive(|f.images|, opts);
    var selected := SelectImageIds(f, target, opts.strategy, draws, units);
    var keep := set x | x in selected;
    var sample := SubsetByImageIds(f, keep);
    SampleOfSelection(f, target, selected, sample);
    r := Ok(sample);
  }

  /** A subset by the IDs of a selection of at least one ID is a non-empty, closed sample within `f`. */
  lemma SampleOfSelection(f: Dataset, k: nat, selected: seq<nat>, r: Dataset)
    requires 0 < k && |f.images| > 0
    requires IsSelection(f, k, selected) && r == SubsetByImageIds(f, set x | x in selected)
    ensures IsSample(f, k, r)
    ensures r.info == f.info && r.licenses == f.licenses && r.categories == f.categories
    ensures |r.images| > 0 && Closed(r)
    ensures forall img :: img in r.images ==> img in f.images
    ensures forall a :: a in r.annotations ==> a in f.annotations
  {
    SelectedCount(f, k, selected);
    SubsetFacts(f, selected, (set x | x in selected), r);
  }

  /**
   * With distinct image IDs, a sample of `k` IDs, where `k` does not exceed
   * the images, keeps exactly `k` images.
   */
  lemma SampleSize(f: Dataset, k: nat, r: Dataset)
    requires Distinct(ImageIds(f.images)) && k <= |f.images| && IsSample(f, k, r)
    ensures |r.images| == k
  {
    var selected :| IsSelection(f, k, selected) && r == SubsetByImageIds(f, set x | x in selected);
    SortedImageIdsPermutation(f.images);
    assert |selected| == k;
    DistinctMultiset(ImageIds(f.images));
    SubMultisetDistinct(selected, ImageIds(f.images));
    KeptSize(f.images, selected);
  }

  /**
   * Keeping the images whose IDs are listed, without repeats, among distinct
   * image IDs keeps one image per listed ID.
   */
  lemma KeptSize(images: seq<Image>, selected: seq<nat>)
    requires Distinct(ImageIds(images)) && Distinct(selected)
    requires multiset(selected) <= multiset(ImageIds(images))
    ensures |Filter(images, Kept(set x | x in selected))| == |selected|
  {
    var keep := set x | x in selected;
    var ids := ImageIds(images);
    var kept := Filter(images, Kept(keep));
    FilterKeepsDistinctIds(images, Kept(keep));
    var rids := ImageIds(kept);
    forall x | x in selected ensures x in rids {
      assert x in multiset(selected);
      var j :| 0 <= j < |ids| && ids[j] == x;
      assert images[j].id in keep && images[j] in images;
      assert images[j] in kept;
      var m :| 0 <= m < |kept| && kept[m] == images[j];
      assert rids[m] == x;
    }
    forall x | x in rids ensures x in selected {
      var m :| 0 <= m < |rids| && rids[m] == x;
      assert kept[m] in kept;
    }
    DistinctSameSize(rids, selected);
  }

  /** Filtering images with distinct IDs keeps the IDs distinct. */
  lemma {:induction false} FilterKeepsDistinctIds(images: seq<Image>, p: Image -> bool)
    requires Distinct(ImageIds(images))
    ensures Distinct(ImageIds(Filter(images, p)))
  {
    if |images| > 0 {
      var init, last := images[..|images| - 1], images[|images| - 1];
      assert ImageIds(images) == ImageIds(init) + [last.id];
      DistinctSnoc(ImageIds(init), last.id);
      FilterKeepsDistinctIds(init, p);
      var rest := Filter(init, p);
      if p(last) {
        assert Filter(images, p) == rest + [last];
        assert ImageIds(rest + [last]) == ImageIds(rest) + [last.id];
        forall j | 0 <= j < |rest| ensures ImageIds(rest)[j] != last.id {
          assert rest[j] in init;
          var m :| 0 <= m < |init| && init[m] == rest[j];
          assert ImageIds(init)[m] == rest[j].id;
        }
        DistinctSnoc(ImageIds(rest), last.id);
      } else {
        assert Filter(images, p) == rest;
      }
    }
  }

  /** Two lists without repeats and with the same elements have the same length. */
  lemma DistinctSameSize(a: seq<nat>, b: seq<nat>)
    requires Distinct(a) && Distinct(b) && forall x :: x in a <==> x in b
    ensures |a| == |b|
  {
    DistinctMultiset(a);
    DistinctMultiset(b);
    forall x ensures multiset(a)[x] == multiset(b)[x] {
      assert x in a <==> x in multiset(a);
      assert x in b <==> x in multiset(b);
    }
    assert multiset(a) == multiset(b);
  }

  /** The filter's outcome in terms of `FilterSucceeds` and `CategoryFiltered`. */
  lemma FilterOutcome(d: Dataset, categories: seq<string>, mode: CategoryMode, r: Result<Dataset, SampleError>)
    requires Requested(categories) == {} ==> r == Ok(d)
    requires r.Err? <==> Requested(categories) != {} && forall c :: c in d.categories ==> c.name !in Requested(categories)
    requires r.Ok? && Requested(categories) != {} ==> r.value == Filtered(d, SelectedIds(d.categories, Requested(categories)), mode)
    ensures r.Ok? <==> FilterSucceeds(d, categories)
    ensures r.Ok? ==> r.value == CategoryFiltered(d, categories, mode)
  {
  }

  /** The strategy's selection: at least one ID, each an image ID of the dataset. */
  method SelectImageIds(d: Dataset, k: nat, strategy: Strategy, draws: nat -> nat, units: nat -> real)
    returns (selected: seq<nat>)
    requires 0 < k && |d.images| > 0
    ensures strategy == Random ==> selected == SelectImageIdsRandom(d, k, draws)
    ensures IsSelection(d, k, selected)
    ensures |selected| > 0
    ensures forall x :: x in selected ==> x in ImageIds(d.images)
  {
    match strategy {
      case Random => selected := SelectImageIdsRandom(d, k, draws);
      case Stratified => selected := SelectImageIdsStratified(d, k, draws, units);
    }
    SelectedCount(d, k, selected);
  }

  /** A filter result only ever drops images and annotations. */
  lemma FilteredWithin(d: Dataset, categories: seq<string>, mode: CategoryMode, f: Dataset)
    requires Requested(categories) == {} ==> f == d
    requires Requested(categories) != {} ==> f == Filtered(d, SelectedIds(d.categories, Requested(categories)), mode)
    ensures f.info == d.info && f.licenses == d.licenses && f.categories == d.categories
    ensures forall img :: img in f.images ==> img in d.images
    ensures forall a :: a in f.annotations ==> a in d.annotations
  {
  }

  /** Either strategy selects at least one ID when the target is positive. */
  lemma SelectedCount(d: Dataset, target: nat, selected: seq<nat>)
    requires 0 < target && IsSelection(d, target, selected)
    requires |d.images| > 0
    ensures |selected| > 0
    ensures forall x :: x in selected ==> x in ImageIds(d.images)
  {
    forall x | x in selected ensures x in ImageIds(d.images) {
      assert x in multiset(selected);
    }
  }

  /** The subset by selected IDs is non-empty and keeps every annotation's image. */
  lemma SubsetFacts(d: Dataset, selected: seq<nat>, keep: set<nat>, r: Dataset)
    requires |selected| > 0
    requires forall x :: x in selected ==> x in ImageIds(d.images)
    requires keep == set x | x in selected
    requires r == SubsetByImageIds(d, keep)
    ensures |r.images| > 0
    ensures Closed(r)
  {
    var x := selected[0];
    assert x in ImageIds(d.images);
    var k :| 0 <= k < |d.images| && ImageIds(d.images)[k] == x;
    assert d.images[k] in r.images;
    forall a | a in r.annotations ensures exists img :: img in r.images && img.id == a.imageId {
      assert a.imageId in ImageIds(d.images);
      var j :| 0 <= j < |d.images| && ImageIds(d.images)[j] == a.imageId;
      assert d.images[j] in r.images;
    }
  }
}
