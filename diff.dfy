// The semantic diff of two datasets (src/diff/mod.rs): images are paired
// by file name, categories compared by name, and the annotations of each
// shared image matched by annotation ID or greedily by IoU within a
// category. The IoU of two boxes is a parameter (`BBox::iou` is not part
// of this model).
module Diff {
  import opened Wrappers
  import opened Ir
  import opened BBoxes
  import Seqs
  import StrOrder
  import Numbers

  /** `MatchBy`. */
  datatype MatchBy = ById | ByIou

  /** `DiffOptions`. */
  datatype DiffOptions = DiffOptions(matchBy: MatchBy, iouThreshold: real, detail: bool, maxItems: nat, bboxEps: real)

  /** `DiffOptions::default()`. */
  function DefaultOptions(): (o: DiffOptions)
    ensures o.matchBy == ById && o.maxItems == 20 && !o.detail && 0.0 < o.bboxEps
  {
    DiffOptions(ById, 0.5, false, 20, 0.000001)
  }

  /** `DiffCounts`. */
  datatype DiffCounts = DiffCounts(shared: nat, onlyInA: nat, onlyInB: nat)

  /** `DiffAnnotationCounts`. */
  datatype AnnotationCounts = AnnotationCounts(shared: nat, onlyInA: nat, onlyInB: nat, modified: nat)

  function Plus(x: AnnotationCounts, y: AnnotationCounts): AnnotationCounts {
    AnnotationCounts(x.shared + y.shared, x.onlyInA + y.onlyInA, x.onlyInB + y.onlyInB, x.modified + y.modified)
  }

  const NoCounts := AnnotationCounts(0, 0, 0, 0)

  lemma PlusAssociative(x: AnnotationCounts, y: AnnotationCounts, z: AnnotationCounts)
    ensures Plus(Plus(x, y), z) == Plus(x, Plus(y, z))
  {
  }

  /** `ModifiedAnnotation`. */
  datatype ModifiedAnnotation = ModifiedAnnotation(fileName: string, annotationId: nat, reason: string)

  /** `DiffDetail`. */
  datatype DiffDetail = DiffDetail(imagesOnlyInA: seq<string>, imagesOnlyInB: seq<string>,
                                   modifiedAnnotations: seq<ModifiedAnnotation>, maxItems: nat)

  /** `DiffReport`. */
  datatype DiffReport = DiffReport(images: DiffCounts, categories: DiffCounts, annotations: AnnotationCounts,
                                   detail: Option<DiffDetail>)

  // ---------------------------------------------------------------------
  // Lookups
  // ---------------------------------------------------------------------

  function NameSet(images: seq<Image>): set<string> {
    set img | img in images :: img.fileName
  }

  function CategoryNameSet(categories: seq<Category>): set<string> {
    set c | c in categories :: c.name
  }

  /** `image_map_by_name`, looked up: the last image with the file name wins. */
  function ImageByName(images: seq<Image>, name: string): (r: Option<Image>)
    ensures r.Some? <==> name in NameSet(images)
    ensures r.Some? ==> r.value in images && r.value.fileName == name
  {
    if |images| == 0 then None
    else
      var last := images[|images| - 1];
      assert forall img :: img in images <==> img in images[..|images| - 1] || img == last;
      if last.fileName == name then Some(last) else ImageByName(images[..|images| - 1], name)
  }

  /** `annotations_by_image`, looked up: the annotations on the image, in dataset order. */
  function AnnotationsOn(annotations: seq<Annotation>, imageId: nat): (r: seq<Annotation>)
    ensures forall a :: a in r <==> a in annotations && a.imageId == imageId
  {
    Seqs.Filter(annotations, (a: Annotation) => a.imageId == imageId)
  }

  /** `category_name`: the category's name (the last category with the ID wins), else a placeholder. */
  function CategoryName(categories: seq<Category>, id: nat): (name: string)
    ensures LookupCategory(categories, id).Some? ==> name == LookupCategory(categories, id).value.name
    ensures LookupCategory(categories, id).None? ==> name == "<missing cat " + Numbers.NatToString(id) + ">"
  {
    var c := LookupCategory(categories, id);
    if c.Some? then c.value.name else "<missing cat " + Numbers.NatToString(id) + ">"
  }

  function Abs(x: real): real { if x < 0.0 then -x else x }

  /**
   * `bbox_eq_eps`: every coordinate within `eps`. A comparison with a NaN
   * or infinite coordinate is false, so a non-finite box equals nothing.
   */
  predicate BBoxEqEps(a: BBox, b: BBox, eps: real) {
    a.finite && b.finite
    && Abs(a.xmin - b.xmin) <= eps && Abs(a.ymin - b.ymin) <= eps
    && Abs(a.xmax - b.xmax) <= eps && Abs(a.ymax - b.ymax) <= eps
  }

  /** A finite box is within any non-negative tolerance of itself; the relation is symmetric. */
  lemma BBoxEqEpsReflexiveSymmetric(a: BBox, b: BBox, eps: real)
    ensures a.finite && eps >= 0.0 ==> BBoxEqEps(a, a, eps)
    ensures BBoxEqEps(a, b, eps) <==> BBoxEqEps(b, a, eps)
  {
    assert Abs(a.xmin - b.xmin) == Abs(b.xmin - a.xmin);
    assert Abs(a.ymin - b.ymin) == Abs(b.ymin - a.ymin);
    assert Abs(a.xmax - b.xmax) == Abs(b.xmax - a.xmax);
    assert Abs(a.ymax - b.ymax) == Abs(b.ymax - a.ymax);
  }

  // ---------------------------------------------------------------------
  // Sorted ID sets (a BTreeSet<AnnotationId> iterated in order)
  // ---------------------------------------------------------------------

  predicate Increasing(s: seq<nat>) {
    forall i, j :: 0 <= i < j < |s| ==> s[i] < s[j]
  }

  /** `m` is the least member of `s`. */
  predicate LeastOf(s: set<nat>, m: nat) {
    m in s && forall x :: x in s ==> m <= x
  }

  lemma {:induction false} HasLeast(s: set<nat>)
    requires s != {}
    ensures exists m :: LeastOf(s, m)
    decreases s
  {
    var x :| x in s;
    if s != {x} {
      HasLeast(s - {x});
      var m0 :| LeastOf(s - {x}, m0);
      var m := if x < m0 then x else m0;
      forall y | y in s ensures m <= y {
        if y != x { assert y in s - {x}; }
      }
      assert LeastOf(s, m);
    } else {
      assert LeastOf(s, x);
    }
  }

  function LeastId(s: set<nat>): (m: nat)
    requires s != {}
    ensures m in s && forall x :: x in s ==> m <= x
  {
    HasLeast(s);
    var m :| LeastOf(s, m);
    m
  }

  /** The members of `s` in increasing order. */
  function SortedIds(s: set<nat>): (r: seq<nat>)
    ensures Increasing(r) && |r| == |s|
    ensures forall x :: x in r <==> x in s
    decreases s
  {
    if s == {} then []
    else
      var m := LeastId(s);
      var rest := SortedIds(s - {m});
      assert forall k :: 0 <= k < |rest| ==> m < rest[k] by {
        forall k | 0 <= k < |rest| ensures m < rest[k] {
          assert rest[k] in s - {m};
        }
      }
      [m] + rest
  }

  // ---------------------------------------------------------------------
  // diff_annotations_by_id
  // ---------------------------------------------------------------------

  function IdSet(list: seq<Annotation>): set<nat> {
    set a | a in list :: a.id
  }

  /** The `BTreeMap<AnnotationId, _>` of a list, looked up: the last annotation with the ID wins. */
  function WithId(list: seq<Annotation>, id: nat): (r: Option<Annotation>)
    ensures r.Some? <==> id in IdSet(list)
    ensures r.Some? ==> r.value in list && r.value.id == id
  {
    if |list| == 0 then None
    else
      var last := list[|list| - 1];
      assert forall a :: a in list <==> a in list[..|list| - 1] || a == last;
      if last.id == id then Some(last) else WithId(list[..|list| - 1], id)
  }

  /** The two sides being compared, with everything a comparison needs. */
  datatype Sides = Sides(listA: seq<Annotation>, listB: seq<Annotation>, catsA: seq<Category>, catsB: seq<Category>,
                         eps: real)

  predicate CategoryChanged(x: Annotation, y: Annotation, s: Sides) {
    CategoryName(s.catsA, x.categoryId) != CategoryName(s.catsB, y.categoryId)
  }

  predicate BBoxChanged(x: Annotation, y: Annotation, s: Sides) {
    !BBoxEqEps(x.bbox, y.bbox, s.eps)
  }

  /** A shared ID whose annotations differ in category name or in some coordinate by more than `eps`. */
  predicate IsModified(s: Sides, id: nat) {
    var x := WithId(s.listA, id);
    var y := WithId(s.listB, id);
    x.Some? && y.Some? && (CategoryChanged(x.value, y.value, s) || BBoxChanged(x.value, y.value, s))
  }

  /** The reasons, joined with `", "`. */
  function Reason(s: Sides, id: nat): string
    requires IsModified(s, id)
  {
    var x := WithId(s.listA, id).value;
    var y := WithId(s.listB, id).value;
    if CategoryChanged(x, y, s) && BBoxChanged(x, y, s) then "category changed, bbox changed"
    else if CategoryChanged(x, y, s) then "category changed"
    else "bbox changed"
  }

  /** The detail entry of one ID: one when it is modified, none otherwise. */
  function EntryFor(fileName: string, s: Sides, id: nat): (r: seq<ModifiedAnnotation>)
    ensures |r| <= 1
  {
    if IsModified(s, id) then [ModifiedAnnotation(fileName, id, Reason(s, id))] else []
  }

  /** The detail entries for the modified IDs among `ids`, in order. */
  function ModifiedEntries(fileName: string, s: Sides, ids: seq<nat>): (r: seq<ModifiedAnnotation>)
    ensures |r| <= |ids|
  {
    if |ids| == 0 then []
    else ModifiedEntries(fileName, s, ids[..|ids| - 1]) + EntryFor(fileName, s, ids[|ids| - 1])
  }

  lemma EntriesStep(fileName: string, s: Sides, ids: seq<nat>, i: nat)
    requires i < |ids|
    ensures ModifiedEntries(fileName, s, ids[..i + 1]) == ModifiedEntries(fileName, s, ids[..i]) + EntryFor(fileName, s, ids[i])
  {
    assert ids[..i + 1][..i] == ids[..i];
  }

  lemma PushAllStep(d: seq<ModifiedAnnotation>, entries: seq<ModifiedAnnotation>, x: seq<ModifiedAnnotation>, maxItems: nat)
    requires |x| <= 1
    ensures |x| == 0 ==> PushAll(d, entries + x, maxItems) == PushAll(d, entries, maxItems)
    ensures |x| == 1 ==> PushAll(d, entries + x, maxItems) == PushCapped(PushAll(d, entries, maxItems), x[0], maxItems)
  {
    assert |x| == 0 ==> entries + x == entries;
    assert |x| == 1 ==> (entries + x)[..|entries|] == entries;
  }

  /** There is an entry for an ID exactly when it is among `ids` and modified. */
  lemma {:induction false} ModifiedEntriesIff(fileName: string, s: Sides, ids: seq<nat>, id: nat)
    ensures (exists e :: e in ModifiedEntries(fileName, s, ids) && e.annotationId == id)
            <==> id in ids && IsModified(s, id)
  {
    if |ids| > 0 {
      var init := ids[..|ids| - 1];
      ModifiedEntriesIff(fileName, s, init, id);
      assert ids == init + [ids[|ids| - 1]];
      assert forall i :: i in ids <==> i in init || i == ids[|ids| - 1];
      var tail := EntryFor(fileName, s, ids[|ids| - 1]);
      assert ModifiedEntries(fileName, s, ids) == ModifiedEntries(fileName, s, init) + tail;
      assert forall e :: e in ModifiedEntries(fileName, s, ids) <==> e in ModifiedEntries(fileName, s, init) || e in tail;
    }
  }

  /** The IDs on both sides, in increasing order. */
  function SharedIds(s: Sides): seq<nat> {
    SortedIds(IdSet(s.listA) * IdSet(s.listB))
  }

  /** What `diff_annotations_by_id` adds to the counts for one shared image. */
  function ByIdCounts(fileName: string, s: Sides): AnnotationCounts {
    var shared := IdSet(s.listA) * IdSet(s.listB);
    AnnotationCounts(|shared|, |IdSet(s.listA) - IdSet(s.listB)|, |IdSet(s.listB) - IdSet(s.listA)|,
                     |ModifiedEntries(fileName, s, SharedIds(s))|)
  }

  /** One push onto the detail list, unless it is full. */
  function PushCapped(d: seq<ModifiedAnnotation>, x: ModifiedAnnotation, maxItems: nat): seq<ModifiedAnnotation> {
    if |d| < maxItems then d + [x] else d
  }

  /** Every entry pushed in turn. */
  function PushAll(d: seq<ModifiedAnnotation>, entries: seq<ModifiedAnnotation>, maxItems: nat): seq<ModifiedAnnotation> {
    if |entries| == 0 then d
    else PushCapped(PushAll(d, entries[..|entries| - 1], maxItems), entries[|entries| - 1], maxItems)
  }

  /** Pushing with the cap keeps the first `maxItems` entries of everything pushed. */
  lemma {:induction false} PushAllTruncates(d: seq<ModifiedAnnotation>, entries: seq<ModifiedAnnotation>, maxItems: nat)
    requires |d| <= maxItems
    ensures PushAll(d, entries, maxItems) == (d + entries)[..if |d + entries| < maxItems then |d + entries| else maxItems]
  {
    if |entries| > 0 {
      var init := entries[..|entries| - 1];
      PushAllTruncates(d, init, maxItems);
      assert d + entries == (d + init) + [entries[|entries| - 1]];
    }
  }

  /**
   * `diff_annotations_by_id` for one shared image: the counts grow by the
   * ID intersection and differences, the modified count by the shared IDs
   * whose annotations differ, and the detail list (when kept) by their
   * entries in ID order while it is shorter than `maxItems`.
   */
  method DiffAnnotationsById(fileName: string, s: Sides, counts: AnnotationCounts,
                             detail: Option<seq<ModifiedAnnotation>>, maxItems: nat)
    returns (counts': AnnotationCounts, detail': Option<seq<ModifiedAnnotation>>)
    ensures counts' == Plus(counts, ByIdCounts(fileName, s))
    ensures detail'.Some? <==> detail.Some?
    ensures detail.Some? ==> detail'.value
                             == PushAll(detail.value, ModifiedEntries(fileName, s, SharedIds(s)), maxItems)
  {
    var idsA, idsB := IdSet(s.listA), IdSet(s.listB);
    var shared := SharedIds(s);
    var modified;
    modified, detail' := ModifiedPass(fileName, s, shared, detail, maxItems);
    ByIdFinish(fileName, s, shared, |shared|, detail, maxItems, modified, detail');
    counts' := Plus(counts, AnnotationCounts(|idsA * idsB|, |idsA - idsB|, |idsB - idsA|, modified));
  }

  /** The pass of `diff_annotations_by_id` over the shared IDs in order, counting and pushing the modified ones. */
  method ModifiedPass(fileName: string, s: Sides, shared: seq<nat>, detail: Option<seq<ModifiedAnnotation>>,
                      maxItems: nat)
    returns (modified: nat, detail': Option<seq<ModifiedAnnotation>>)
    ensures ByIdDone(fileName, s, shared, |shared|, detail, maxItems, modified, detail')
  {
    modified, detail' := 0, detail;
    var i := 0;
    while i < |shared|
      invariant ByIdDone(fileName, s, shared, i, detail, maxItems, modified, detail')
    {
      var entry := EntryFor(fileName, s, shared[i]);
      var modified2 := modified + |entry|;
      var detail2 := if detail'.Some? && |entry| == 1 then Some(PushCapped(detail'.value, entry[0], maxItems)) else detail';
      ByIdStep(fileName, s, shared, i, detail, maxItems, modified, detail', entry, modified2, detail2);
      modified, detail' := modified2, detail2;
      i := i + 1;
    }
  }

  /** Once every shared ID is done, the counts and the detail list are those of the whole image. */
  lemma ByIdFinish(fileName: string, s: Sides, shared: seq<nat>, i: nat, detail: Option<seq<ModifiedAnnotation>>,
                   maxItems: nat, modified: nat, detail': Option<seq<ModifiedAnnotation>>)
    requires shared == SharedIds(s)
    requires ByIdDone(fileName, s, shared, i, detail, maxItems, modified, detail') && i >= |shared|
    ensures AnnotationCounts(|IdSet(s.listA) * IdSet(s.listB)|, |IdSet(s.listA) - IdSet(s.listB)|,
                             |IdSet(s.listB) - IdSet(s.listA)|, modified) == ByIdCounts(fileName, s)
    ensures detail.Some? ==> detail'.value
                             == PushAll(detail.value, ModifiedEntries(fileName, s, SharedIds(s)), maxItems)
  {
    assert shared[..i] == shared;
  }

  /** The state of `DiffAnnotationsById` after the first `i` shared IDs. */
  predicate ByIdDone(fileName: string, s: Sides, shared: seq<nat>, i: nat, detail: Option<seq<ModifiedAnnotation>>,
                     maxItems: nat, modified: nat, detail': Option<seq<ModifiedAnnotation>>) {
    && i <= |shared|
    && modified == |ModifiedEntries(fileName, s, shared[..i])|
    && (detail'.Some? <==> detail.Some?)
    && (detail.Some? ==> detail'.value == PushAll(detail.value, ModifiedEntries(fileName, s, shared[..i]), maxItems))
  }

  /** Counting the entry of the next shared ID and pushing it (when kept) advances the state by one ID. */
  lemma ByIdStep(fileName: string, s: Sides, shared: seq<nat>, i: nat, detail: Option<seq<ModifiedAnnotation>>,
                 maxItems: nat, modified: nat, detail': Option<seq<ModifiedAnnotation>>,
                 entry: seq<ModifiedAnnotation>, modified2: nat, detail2: Option<seq<ModifiedAnnotation>>)
    requires ByIdDone(fileName, s, shared, i, detail, maxItems, modified, detail') && i < |shared|
    requires entry == EntryFor(fileName, s, shared[i])
    requires modified2 == modified + |entry|
    requires detail2 == if detail'.Some? && |entry| == 1 then Some(PushCapped(detail'.value, entry[0], maxItems)) else detail'
    ensures ByIdDone(fileName, s, shared, i + 1, detail, maxItems, modified2, detail2)
  {
    EntriesStep(fileName, s, shared, i);
    PushAllStep(detail.UnwrapOr([]), ModifiedEntries(fileName, s, shared[..i]), entry, maxItems);
  }

  /** Comparing a list with itself: no ID only on one side, nothing modified (for finite boxes and `eps >= 0`). */
  lemma ByIdIdentical(fileName: string, list: seq<Annotation>, cats: seq<Category>, eps: real)
    requires eps >= 0.0 && forall a :: a in list ==> a.bbox.finite
    ensures var c := ByIdCounts(fileName, Sides(list, list, cats, cats, eps));
            c.onlyInA == 0 && c.onlyInB == 0 && c.modified == 0 && c.shared == |IdSet(list)|
  {
    var s := Sides(list, list, cats, cats, eps);
    var ids := SharedIds(s);
    assert IdSet(list) - IdSet(list) == {};
    assert IdSet(list) * IdSet(list) == IdSet(list);
    forall id ensures !IsModified(s, id) {
      var x := WithId(list, id);
      if x.Some? {
        BBoxEqEpsReflexiveSymmetric(x.value.bbox, x.value.bbox, eps);
      }
    }
    NoEntries(fileName, s, ids);
  }

  lemma {:induction false} NoEntries(fileName: string, s: Sides, ids: seq<nat>)
    requires forall id :: !IsModified(s, id)
    ensures ModifiedEntries(fileName, s, ids) == []
  {
    if |ids| > 0 {
      NoEntries(fileName, s, ids[..|ids| - 1]);
    }
  }

  // ---------------------------------------------------------------------
  // diff_annotations_by_iou
  // ---------------------------------------------------------------------

  /** The IoU of two boxes. */
  type Iou = (BBox, BBox) -> real

  predicate Unmatched(b: bool) { !b }

  lemma {:induction false} CountIfUpdate(s: seq<bool>, k: nat)
    requires k < |s| && !s[k]
    ensures Seqs.CountIf(s[k := true], Unmatched) + 1 == Seqs.CountIf(s, Unmatched)
  {
    var t := s[k := true];
    if k < |s| - 1 {
      CountIfUpdate(s[..|s| - 1], k);
      assert t[..|t| - 1] == s[..|s| - 1][k := true];
    } else {
      assert t[..|t| - 1] == s[..|s| - 1];
    }
  }

  /**
   * The `best_idx` the scan over the first `j` B annotations settles on: a
   * free annotation replaces the current pick only when its IoU is strictly
   * higher, and the first free one replaces none.
   */
  function Pick(a: Annotation, listB: seq<Annotation>, used: seq<bool>, iou: Iou, j: nat): (r: Option<nat>)
    requires j <= |listB| && |used| == |listB|
    ensures r.Some? ==> r.value < j && !used[r.value]
  {
    if j == 0 then None
    else
      var prev := Pick(a, listB, used, iou, j - 1);
      if used[j - 1] then prev
      else if prev.None? || iou(a.bbox, listB[j - 1].bbox) > iou(a.bbox, listB[prev.value].bbox) then Some(j - 1)
      else prev
  }

  /** `k` is a free B annotation among the first `j` of highest IoU with `a`, and no earlier free one ties it. */
  ghost predicate BestFreeUpTo(a: Annotation, listB: seq<Annotation>, used: seq<bool>, iou: Iou, j: nat, k: nat)
    requires j <= |listB| && |used| == |listB|
  {
    && k < j && !used[k]
    && (forall m :: 0 <= m < j && !used[m] ==> iou(a.bbox, listB[m].bbox) <= iou(a.bbox, listB[k].bbox))
    && (forall m :: 0 <= m < k && !used[m] ==> iou(a.bbox, listB[m].bbox) < iou(a.bbox, listB[k].bbox))
  }

  /** The scan picks the first free B annotation of highest IoU, and picks none exactly when none is free. */
  lemma {:induction false} PickIsBest(a: Annotation, listB: seq<Annotation>, used: seq<bool>, iou: Iou, j: nat)
    requires j <= |listB| && |used| == |listB|
    ensures Pick(a, listB, used, iou, j).None? <==> forall m :: 0 <= m < j ==> used[m]
    ensures Pick(a, listB, used, iou, j).Some? ==> BestFreeUpTo(a, listB, used, iou, j, Pick(a, listB, used, iou, j).value)
  {
    if j > 0 {
      PickIsBest(a, listB, used, iou, j - 1);
    }
  }

  /** At most one B annotation is the first free one of highest IoU. */
  lemma BestFreeUnique(a: Annotation, listB: seq<Annotation>, used: seq<bool>, iou: Iou, j: nat, k: nat, k': nat)
    requires j <= |listB| && |used| == |listB|
    requires BestFreeUpTo(a, listB, used, iou, j, k) && BestFreeUpTo(a, listB, used, iou, j, k')
    ensures k == k'
  {
  }

  /** The unmatched B annotation of highest IoU with `a`, the first one on ties. */
  method BestUnmatched(a: Annotation, listB: seq<Annotation>, used: array<bool>, iou: Iou)
    returns (best: Option<nat>, bestIou: real)
    requires used.Length == |listB|
    ensures best == Pick(a, listB, used[..], iou, |listB|)
    ensures best.Some? ==> bestIou == iou(a.bbox, listB[best.value].bbox)
                           && BestFreeUpTo(a, listB, used[..], iou, |listB|, best.value)
    ensures best.None? <==> forall j :: 0 <= j < |listB| ==> used[j]
  {
    best, bestIou := None, 0.0;
    var j := 0;
    while j < |listB|
      invariant 0 <= j <= |listB|
      invariant best == Pick(a, listB, used[..], iou, j)
      invariant best.Some? ==> bestIou == iou(a.bbox, listB[best.value].bbox)
    {
      if !used[j] {
        var v := iou(a.bbox, listB[j].bbox);
        if best.None? || v > bestIou {
          best, bestIou := Some(j), v;
        }
      }
      j := j + 1;
    }
    PickIsBest(a, listB, used[..], iou, |listB|);
  }

  /** The state of a greedy pass: the B annotation each visited A annotation took, if any, and the B annotations taken. */
  datatype Greedy = Greedy(taken: seq<Option<nat>>, used: seq<bool>)

  /**
   * One step of the greedy pass: A annotation `i` takes the scan's pick
   * among the free B annotations when its IoU reaches the threshold, and
   * takes nothing otherwise.
   */
  function Step(listA: seq<Annotation>, listB: seq<Annotation>, iou: Iou, threshold: real, g: Greedy, i: nat): (g': Greedy)
    requires i < |listA| && |g.used| == |listB|
    ensures |g'.taken| == |g.taken| + 1 && |g'.used| == |listB|
  {
    var p := Pick(listA[i], listB, g.used, iou, |listB|);
    if p.Some? && iou(listA[i].bbox, listB[p.value].bbox) >= threshold
    then Greedy(g.taken + [p], g.used[p.value := true])
    else Greedy(g.taken + [None], g.used)
  }

  /** The greedy matching of the first `i` A annotations of a category. */
  function GreedyPass(listA: seq<Annotation>, listB: seq<Annotation>, iou: Iou, threshold: real, i: nat): (g: Greedy)
    requires i <= |listA|
    ensures |g.taken| == i && |g.used| == |listB|
  {
    if i == 0 then Greedy([], seq(|listB|, _ => false))
    else Step(listA, listB, iou, threshold, GreedyPass(listA, listB, iou, threshold, i - 1), i - 1)
  }

  /** The (A index, B index) pairs a pass matched, in A order. */
  function Pairs(taken: seq<Option<nat>>): (r: seq<(nat, nat)>)
    ensures |r| <= |taken|
  {
    if |taken| == 0 then []
    else
      var last := taken[|taken| - 1];
      var rest := Pairs(taken[..|taken| - 1]);
      if last.Some? then rest + [(|taken| - 1, last.value)] else rest
  }

  /** The pairs are exactly the A annotations that took a B annotation, each with the one it took. */
  lemma {:induction false} PairsExact(taken: seq<Option<nat>>)
    ensures forall p :: p in Pairs(taken) ==> p.0 < |taken| && taken[p.0] == Some(p.1)
    ensures forall i :: 0 <= i < |taken| && taken[i].Some? ==> (i, taken[i].value) in Pairs(taken)
  {
    if |taken| > 0 {
      var init := taken[..|taken| - 1];
      PairsExact(init);
      assert forall i :: 0 <= i < |init| ==> init[i] == taken[i];
    }
  }

  /** A step whose A annotation takes B annotation `k`: `k` becomes taken and the pair is appended. */
  lemma StepTakes(listA: seq<Annotation>, listB: seq<Annotation>, iou: Iou, threshold: real, g: Greedy, i: nat, k: nat)
    requires i < |listA| && |g.used| == |listB| && |g.taken| == i
    requires Pick(listA[i], listB, g.used, iou, |listB|) == Some(k) && iou(listA[i].bbox, listB[k].bbox) >= threshold
    ensures var g' := Step(listA, listB, iou, threshold, g, i);
            g'.used == g.used[k := true] && Pairs(g'.taken) == Pairs(g.taken) + [(i, k)]
  {
    var g' := Step(listA, listB, iou, threshold, g, i);
    assert g'.taken[..i] == g.taken;
  }

  /** A step whose A annotation takes nothing leaves the taken B annotations and the pairs as they were. */
  lemma StepSkips(listA: seq<Annotation>, listB: seq<Annotation>, iou: Iou, threshold: real, g: Greedy, i: nat)
    requires i < |listA| && |g.used| == |listB| && |g.taken| == i
    requires var p := Pick(listA[i], listB, g.used, iou, |listB|);
             !(p.Some? && iou(listA[i].bbox, listB[p.value].bbox) >= threshold)
    ensures var g' := Step(listA, listB, iou, threshold, g, i);
            g'.used == g.used && Pairs(g'.taken) == Pairs(g.taken)
  {
    var g' := Step(listA, listB, iou, threshold, g, i);
    assert g'.taken[..i] == g.taken;
  }

  /** One step keeps the matched and the free B annotations making up `listB`. */
  lemma StepCount(listA: seq<Annotation>, listB: seq<Annotation>, iou: Iou, threshold: real, g: Greedy, i: nat)
    requires i < |listA| && |g.used| == |listB| && |g.taken| == i
    requires |Pairs(g.taken)| + Seqs.CountIf(g.used, Unmatched) == |listB|
    ensures var g' := Step(listA, listB, iou, threshold, g, i);
            |Pairs(g'.taken)| + Seqs.CountIf(g'.used, Unmatched) == |listB|
  {
    var p := Pick(listA[i], listB, g.used, iou, |listB|);
    if p.Some? && iou(listA[i].bbox, listB[p.value].bbox) >= threshold {
      StepTakes(listA, listB, iou, threshold, g, i, p.value);
      CountIfUpdate(g.used, p.value);
    } else {
      StepSkips(listA, listB, iou, threshold, g, i);
    }
  }

  /** One step keeps the pairs well formed. */
  lemma StepPairsSoFar(listA: seq<Annotation>, listB: seq<Annotation>, iou: Iou, threshold: real, g: Greedy, i: nat)
    requires i < |listA| && |g.used| == |listB| && |g.taken| == i
    requires PairsSoFar(listA, listB, iou, threshold, Pairs(g.taken), i, g.used)
    ensures var g' := Step(listA, listB, iou, threshold, g, i);
            PairsSoFar(listA, listB, iou, threshold, Pairs(g'.taken), i + 1, g'.used)
  {
    var p := Pick(listA[i], listB, g.used, iou, |listB|);
    if p.Some? && iou(listA[i].bbox, listB[p.value].bbox) >= threshold {
      StepTakes(listA, listB, iou, threshold, g, i, p.value);
      PairsSnoc(listA, listB, iou, threshold, Pairs(g.taken), i, g.used, p.value);
    } else {
      StepSkips(listA, listB, iou, threshold, g, i);
      PairsSkip(listA, listB, iou, threshold, Pairs(g.taken), i, g.used);
    }
  }

  /**
   * Each A annotation of the pass either took the first free B annotation of
   * highest IoU, whose IoU reaches the threshold, or took nothing because
   * every free B annotation falls below the threshold.
   */
  lemma GreedyChoice(listA: seq<Annotation>, listB: seq<Annotation>, iou: Iou, threshold: real, i: nat)
    requires i < |listA|
    ensures var before := GreedyPass(listA, listB, iou, threshold, i).used;
            var t := GreedyPass(listA, listB, iou, threshold, i + 1).taken[i];
            && (t.Some? ==> BestFreeUpTo(listA[i], listB, before, iou, |listB|, t.value)
                            && iou(listA[i].bbox, listB[t.value].bbox) >= threshold)
            && (t.None? ==> forall k :: 0 <= k < |listB| && !before[k] ==> iou(listA[i].bbox, listB[k].bbox) < threshold)
  {
    var before := GreedyPass(listA, listB, iou, threshold, i).used;
    PickIsBest(listA[i], listB, before, iou, |listB|);
  }

  /** A longer pass extends a shorter one: the choices already made stay. */
  lemma {:induction false} GreedyPrefix(listA: seq<Annotation>, listB: seq<Annotation>, iou: Iou, threshold: real,
                                        n: nat, i: nat)
    requires i <= n <= |listA|
    ensures GreedyPass(listA, listB, iou, threshold, n).taken[..i] == GreedyPass(listA, listB, iou, threshold, i).taken
    decreases n
  {
    if i < n {
      GreedyPrefix(listA, listB, iou, threshold, n - 1, i);
      var t := GreedyPass(listA, listB, iou, threshold, n).taken;
      assert t[..n - 1] == GreedyPass(listA, listB, iou, threshold, n - 1).taken;
      assert t[..i] == t[..n - 1][..i];
    } else {
      assert GreedyPass(listA, listB, iou, threshold, n).taken[..n] == GreedyPass(listA, listB, iou, threshold, n).taken;
    }
  }

  /** After `i` steps the pairs are well formed and every matched B annotation is marked taken. */
  lemma {:induction false} GreedyPairs(listA: seq<Annotation>, listB: seq<Annotation>, iou: Iou, threshold: real, i: nat)
    requires i <= |listA|
    ensures var g := GreedyPass(listA, listB, iou, threshold, i);
            PairsSoFar(listA, listB, iou, threshold, Pairs(g.taken), i, g.used)
  {
    if i > 0 {
      var h := GreedyPass(listA, listB, iou, threshold, i - 1);
      GreedyPairs(listA, listB, iou, threshold, i - 1);
      StepPairsSoFar(listA, listB, iou, threshold, h, i - 1);
      assert GreedyPass(listA, listB, iou, threshold, i) == Step(listA, listB, iou, threshold, h, i - 1);
    }
  }

  /** After `i` steps the matched and the free B annotations make up `listB`. */
  lemma {:induction false} GreedyCount(listA: seq<Annotation>, listB: seq<Annotation>, iou: Iou, threshold: real, i: nat)
    requires i <= |listA|
    ensures var g := GreedyPass(listA, listB, iou, threshold, i);
            |Pairs(g.taken)| + Seqs.CountIf(g.used, Unmatched) == |listB|
  {
    if i == 0 {
      CountAllUnmatched(GreedyPass(listA, listB, iou, threshold, 0).used);
    } else {
      var h := GreedyPass(listA, listB, iou, threshold, i - 1);
      GreedyCount(listA, listB, iou, threshold, i - 1);
      StepCount(listA, listB, iou, threshold, h, i - 1);
      assert GreedyPass(listA, listB, iou, threshold, i) == Step(listA, listB, iou, threshold, h, i - 1);
    }
  }

  /** The counts of one category's greedy matching. */
  function CategoryCounts(listA: seq<Annotation>, listB: seq<Annotation>, iou: Iou, threshold: real): (c: AnnotationCounts)
    ensures c.modified == 0 && c.shared + c.onlyInA == |listA| && c.shared + c.onlyInB == |listB|
  {
    var g := GreedyPass(listA, listB, iou, threshold, |listA|);
    GreedyCount(listA, listB, iou, threshold, |listA|);
    var shared := |Pairs(g.taken)|;
    AnnotationCounts(shared, |listA| - shared, Seqs.CountIf(g.used, Unmatched), 0)
  }

  /** One A and one B annotation whose IoU reaches the threshold are matched: one shared, nothing one-sided. */
  lemma SingleMatch(listA: seq<Annotation>, listB: seq<Annotation>, iou: Iou, threshold: real)
    requires |listA| == 1 && |listB| == 1 && iou(listA[0].bbox, listB[0].bbox) >= threshold
    ensures CategoryCounts(listA, listB, iou, threshold) == AnnotationCounts(1, 0, 0, 0)
  {
    var g0 := GreedyPass(listA, listB, iou, threshold, 0);
    assert Pick(listA[0], listB, g0.used, iou, 1) == Some(0);
    var g := GreedyPass(listA, listB, iou, threshold, 1);
    assert g.taken == [Some(0)];
    assert Pairs(g.taken) == [(0, 0)];
    assert g.used == [true];
  }

  /**
   * The greedy matching of one category: each A annotation takes the
   * unmatched B annotation of highest IoU (the first one on ties) when that
   * IoU reaches the threshold. The counts are those of the pass; its pairs
   * join distinct B annotations with IoU at least the threshold.
   */
  method MatchCategory(listA: seq<Annotation>, listB: seq<Annotation>, iou: Iou, threshold: real)
    returns (shared: nat, onlyInA: nat, onlyInB: nat, ghost pairs: seq<(nat, nat)>)
    ensures AnnotationCounts(shared, onlyInA, onlyInB, 0) == CategoryCounts(listA, listB, iou, threshold)
    ensures pairs == Pairs(GreedyPass(listA, listB, iou, threshold, |listA|).taken) && |pairs| == shared
    ensures OneToOne(listA, listB, iou, threshold, pairs)
  {
    var used := new bool[|listB|](_ => false);
    shared, onlyInA, pairs := MatchAll(listA, listB, iou, threshold, used);
    onlyInB := CountUnmatched(used);
    GreedyTotals(listA, listB, iou, threshold);
    GreedyOneToOne(listA, listB, iou, threshold);
  }

  /** The loop over the A annotations of a category, marking in `used` the B annotations taken. */
  method MatchAll(listA: seq<Annotation>, listB: seq<Annotation>, iou: Iou, threshold: real, used: array<bool>)
    returns (shared: nat, onlyInA: nat, ghost pairs: seq<(nat, nat)>)
    requires used[..] == GreedyPass(listA, listB, iou, threshold, 0).used
    modifies used
    ensures var g := GreedyPass(listA, listB, iou, threshold, |listA|);
            used[..] == g.used && pairs == Pairs(g.taken) && shared == |pairs| && shared + onlyInA == |listA|
  {
    ghost var g := GreedyPass(listA, listB, iou, threshold, 0);
    shared, onlyInA, pairs := 0, 0, [];
    var i := 0;
    while i < |listA|
      invariant 0 <= i <= |listA| && used.Length == |listB|
      invariant shared == |pairs| && shared + onlyInA == i
      invariant |g.used| == |listB| && |g.taken| == i
      invariant used[..] == g.used && pairs == Pairs(g.taken)
      invariant g == GreedyPass(listA, listB, iou, threshold, i)
    {
      var best, bestIou := BestUnmatched(listA[i], listB, used, iou);
      assert best == Pick(listA[i], listB, g.used, iou, |listB|);
      ghost var g' := Step(listA, listB, iou, threshold, g, i);
      if best.Some? && bestIou >= threshold {
        var k := best.value;
        StepTakes(listA, listB, iou, threshold, g, i, k);
        used[k] := true;
        pairs := pairs + [(i, k)];
        shared := shared + 1;
      } else {
        StepSkips(listA, listB, iou, threshold, g, i);
        onlyInA := onlyInA + 1;
      }
      g := g';
      i := i + 1;
    }
  }

  /** The counts of a whole pass. */
  lemma GreedyTotals(listA: seq<Annotation>, listB: seq<Annotation>, iou: Iou, threshold: real)
    ensures var g := GreedyPass(listA, listB, iou, threshold, |listA|);
            CategoryCounts(listA, listB, iou, threshold)
            == AnnotationCounts(|Pairs(g.taken)|, |listA| - |Pairs(g.taken)|, Seqs.CountIf(g.used, Unmatched), 0)
  {
  }

  /** The pairs of a whole pass are one-to-one, and each reaches the threshold. */
  lemma GreedyOneToOne(listA: seq<Annotation>, listB: seq<Annotation>, iou: Iou, threshold: real)
    ensures OneToOne(listA, listB, iou, threshold, Pairs(GreedyPass(listA, listB, iou, threshold, |listA|).taken))
  {
    GreedyPairs(listA, listB, iou, threshold, |listA|);
  }

  /**
   * Each pair joins an A and a B annotation whose IoU reaches the
   * threshold; the pairs go in A order and no B annotation is in two.
   */
  ghost predicate OneToOne(listA: seq<Annotation>, listB: seq<Annotation>, iou: Iou, threshold: real, pairs: seq<(nat, nat)>) {
    && (forall p :: p in pairs ==> p.0 < |listA| && p.1 < |listB| && iou(listA[p.0].bbox, listB[p.1].bbox) >= threshold)
    && (forall i, j :: 0 <= i < j < |pairs| ==> pairs[i].0 < pairs[j].0 && pairs[i].1 != pairs[j].1)
  }

  /** The matched pairs after `i` A annotations, with `used` marking the B annotations taken. */
  ghost predicate PairsSoFar(listA: seq<Annotation>, listB: seq<Annotation>, iou: Iou, threshold: real,
                             pairs: seq<(nat, nat)>, i: nat, used: seq<bool>)
  {
    && |used| == |listB| && i <= |listA|
    && (forall p :: p in pairs ==> p.0 < i && p.1 < |listB| && used[p.1]
                                   && iou(listA[p.0].bbox, listB[p.1].bbox) >= threshold)
    && (forall m, n :: 0 <= m < n < |pairs| ==> pairs[m].0 < pairs[n].0 && pairs[m].1 != pairs[n].1)
  }

  /** Matching A annotation `i` to the free B annotation `k` keeps the pairs well formed. */
  lemma PairsSnoc(listA: seq<Annotation>, listB: seq<Annotation>, iou: Iou, threshold: real,
                  pairs: seq<(nat, nat)>, i: nat, used: seq<bool>, k: nat)
    requires PairsSoFar(listA, listB, iou, threshold, pairs, i, used)
    requires i < |listA| && k < |used| && !used[k] && iou(listA[i].bbox, listB[k].bbox) >= threshold
    ensures PairsSoFar(listA, listB, iou, threshold, pairs + [(i, k)], i + 1, used[k := true])
  {
    var pairs' := pairs + [(i, k)];
    forall m, n | 0 <= m < n < |pairs'| ensures pairs'[m].0 < pairs'[n].0 && pairs'[m].1 != pairs'[n].1 {
      if n == |pairs| {
        assert pairs[m] in pairs;
      }
    }
  }

  /** Passing over A annotation `i` without a match keeps the pairs well formed. */
  lemma PairsSkip(listA: seq<Annotation>, listB: seq<Annotation>, iou: Iou, threshold: real,
                  pairs: seq<(nat, nat)>, i: nat, used: seq<bool>)
    requires PairsSoFar(listA, listB, iou, threshold, pairs, i, used) && i < |listA|
    ensures PairsSoFar(listA, listB, iou, threshold, pairs, i + 1, used)
  {
  }

  /** The B annotations the greedy pass left unmatched. */
  method CountUnmatched(used: array<bool>) returns (n: nat)
    ensures n == Seqs.CountIf(used[..], Unmatched)
  {
    n := 0;
    var j := 0;
    while j < used.Length
      invariant 0 <= j <= used.Length
      invariant n == Seqs.CountIf(used[..j], Unmatched)
    {
      assert used[..j + 1][..j] == used[..j];
      if !used[j] {
        n := n + 1;
      }
      j := j + 1;
    }
    assert used[..used.Length] == used[..];
  }

  lemma {:induction false} CountAllUnmatched(s: seq<bool>)
    requires forall k :: 0 <= k < |s| ==> !s[k]
    ensures Seqs.CountIf(s, Unmatched) == |s|
  {
    if |s| > 0 {
      CountAllUnmatched(s[..|s| - 1]);
    }
  }

  /** The annotations of a list whose category name is `name`, in order. */
  function InCategory(list: seq<Annotation>, cats: seq<Category>, name: string): seq<Annotation> {
    Seqs.Filter(list, (a: Annotation) => CategoryName(cats, a.categoryId) == name)
  }

  /** The category names a list's annotations carry. */
  function NamesUsed(list: seq<Annotation>, cats: seq<Category>): set<string> {
    set a | a in list :: CategoryName(cats, a.categoryId)
  }

  /** The total size of the category groups over `names`. */
  function GroupSizes(list: seq<Annotation>, cats: seq<Category>, names: seq<string>): nat {
    if |names| == 0 then 0
    else GroupSizes(list, cats, names[..|names| - 1]) + |InCategory(list, cats, names[|names| - 1])|
  }

  /** The category names `diff_annotations_by_iou` visits: those either side's annotations carry, sorted. */
  function IouNames(s: Sides): seq<string> {
    StrOrder.SortedKeys(NamesUsed(s.listA, s.catsA) + NamesUsed(s.listB, s.catsB))
  }

  /** The greedy counts of the categories in `names`, summed. */
  function IouCounts(s: Sides, iou: Iou, threshold: real, names: seq<string>): AnnotationCounts {
    if |names| == 0 then NoCounts
    else
      var name := names[|names| - 1];
      Plus(IouCounts(s, iou, threshold, names[..|names| - 1]),
           CategoryCounts(InCategory(s.listA, s.catsA, name), InCategory(s.listB, s.catsB, name), iou, threshold))
  }

  /** The counts `diff_annotations_by_iou` adds for one image. */
  function ByIouCounts(s: Sides, iou: Iou, threshold: real): AnnotationCounts {
    IouCounts(s, iou, threshold, IouNames(s))
  }

  lemma IouCountsStep(s: Sides, iou: Iou, threshold: real, names: seq<string>, i: nat)
    requires i < |names|
    ensures IouCounts(s, iou, threshold, names[..i + 1])
            == Plus(IouCounts(s, iou, threshold, names[..i]),
                    CategoryCounts(InCategory(s.listA, s.catsA, names[i]), InCategory(s.listB, s.catsB, names[i]), iou, threshold))
  {
    assert names[..i + 1][..i] == names[..i];
  }

  lemma IouCountsAll(s: Sides, iou: Iou, threshold: real, names: seq<string>)
    ensures IouCounts(s, iou, threshold, names[..|names|]) == IouCounts(s, iou, threshold, names)
  {
    assert names[..|names|] == names;
  }

  lemma {:induction false} IouCountsGroups(s: Sides, iou: Iou, threshold: real, names: seq<string>)
    ensures var c := IouCounts(s, iou, threshold, names);
            && c.modified == 0
            && c.shared + c.onlyInA == GroupSizes(s.listA, s.catsA, names)
            && c.shared + c.onlyInB == GroupSizes(s.listB, s.catsB, names)
  {
    if |names| > 0 {
      IouCountsGroups(s, iou, threshold, names[..|names| - 1]);
    }
  }

  /**
   * By IoU nothing is modified, and every annotation of the image is shared
   * or only on its side.
   */
  lemma ByIouConserves(s: Sides, iou: Iou, threshold: real)
    ensures var c := ByIouCounts(s, iou, threshold);
            c.modified == 0 && c.shared + c.onlyInA == |s.listA| && c.shared + c.onlyInB == |s.listB|
  {
    IouCountsGroups(s, iou, threshold, IouNames(s));
    NamesCover(s);
  }

  /**
   * One annotation on each side, with the same category name and IoU at
   * least the threshold: one shared annotation, none only on a side.
   */
  lemma SingleAnnotationEach(s: Sides, iou: Iou, threshold: real)
    requires |s.listA| == 1 && |s.listB| == 1
    requires CategoryName(s.catsA, s.listA[0].categoryId) == CategoryName(s.catsB, s.listB[0].categoryId)
    requires iou(s.listA[0].bbox, s.listB[0].bbox) >= threshold
    ensures ByIouCounts(s, iou, threshold) == AnnotationCounts(1, 0, 0, 0)
  {
    var name := CategoryName(s.catsA, s.listA[0].categoryId);
    SingleGroup(s.listA, s.catsA, name);
    SingleGroup(s.listB, s.catsB, name);
    var names := IouNames(s);
    assert names == [name] by {
      assert name in names;
    }
    SingleMatch(s.listA, s.listB, iou, threshold);
    assert names[..0] == [];
    assert IouCounts(s, iou, threshold, names[..0]) == NoCounts;
    assert IouCounts(s, iou, threshold, names)
           == Plus(NoCounts, CategoryCounts(InCategory(s.listA, s.catsA, name), InCategory(s.listB, s.catsB, name), iou, threshold));
  }

  /** A one-annotation list has the one category name, and its group is the whole list. */
  lemma SingleGroup(list: seq<Annotation>, cats: seq<Category>, name: string)
    requires |list| == 1 && CategoryName(cats, list[0].categoryId) == name
    ensures NamesUsed(list, cats) == {name} && InCategory(list, cats, name) == list
  {
    assert forall a :: a in list <==> a == list[0];
    var r := InCategory(list, cats, name);
    assert list[0] in r;
    assert r[0] in list;
  }

  /**
   * `diff_annotations_by_iou` for one shared image: the categories of both
   * sides are visited (in sorted order here; the counts are a sum and do
   * not depend on it) and each matched greedily.
   */
  method DiffAnnotationsByIou(s: Sides, counts: AnnotationCounts, iou: Iou, threshold: real)
    returns (counts': AnnotationCounts)
    ensures counts' == Plus(counts, ByIouCounts(s, iou, threshold))
    ensures counts'.modified == counts.modified
    ensures counts'.shared + counts'.onlyInA == counts.shared + counts.onlyInA + |s.listA|
    ensures counts'.shared + counts'.onlyInB == counts.shared + counts.onlyInB + |s.listB|
  {
    var names := IouNames(s);
    counts' := counts;
    assert names[..0] == [];
    assert IouCounts(s, iou, threshold, names[..0]) == NoCounts;
    var i := 0;
    while i < |names|
      invariant 0 <= i <= |names|
      invariant counts' == Plus(counts, IouCounts(s, iou, threshold, names[..i]))
    {
      IouCountsStep(s, iou, threshold, names, i);
      var listA := InCategory(s.listA, s.catsA, names[i]);
      var listB := InCategory(s.listB, s.catsB, names[i]);
      var shared, onlyInA, onlyInB, _ := MatchCategory(listA, listB, iou, threshold);
      PlusAssociative(counts, IouCounts(s, iou, threshold, names[..i]), AnnotationCounts(shared, onlyInA, onlyInB, 0));
      counts' := Plus(counts', AnnotationCounts(shared, onlyInA, onlyInB, 0));
      i := i + 1;
    }
    IouCountsAll(s, iou, threshold, names);
    ByIouConserves(s, iou, threshold);
  }

  /** The category groups of both sides, over the names either side uses, partition each side. */
  lemma NamesCover(s: Sides)
    ensures var names := StrOrder.SortedKeys(NamesUsed(s.listA, s.catsA) + NamesUsed(s.listB, s.catsB));
            GroupSizes(s.listA, s.catsA, names) == |s.listA| && GroupSizes(s.listB, s.catsB, names) == |s.listB|
  {
    var names := StrOrder.SortedKeys(NamesUsed(s.listA, s.catsA) + NamesUsed(s.listB, s.catsB));
    forall m, n | 0 <= m < n < |names| ensures names[m] != names[n] {
      StrOrder.StrictlySortedDistinct(names, m, n);
    }
    GroupsPartition(s.listA, s.catsA, names);
    GroupsPartition(s.listB, s.catsB, names);
  }

  /** The number of `names` equal to `x`. */
  function Occurrences(names: seq<string>, x: string): nat {
    if |names| == 0 then 0
    else Occurrences(names[..|names| - 1], x) + (if names[|names| - 1] == x then 1 else 0)
  }

  lemma {:induction false} OccursOnce(names: seq<string>, x: string)
    requires x in names && forall i, j :: 0 <= i < j < |names| ==> names[i] != names[j]
    ensures Occurrences(names, x) == 1
  {
    var init := names[..|names| - 1];
    if names[|names| - 1] == x {
      assert x !in init by {
        forall i | 0 <= i < |init| ensures init[i] != x {
          assert init[i] == names[i];
        }
      }
      NeverOccurs(init, x);
    } else {
      assert x in init by {
        var k :| 0 <= k < |names| && names[k] == x;
        assert init[k] == x;
      }
      OccursOnce(init, x);
    }
  }

  lemma {:induction false} NeverOccurs(names: seq<string>, x: string)
    requires x !in names
    ensures Occurrences(names, x) == 0
  {
    if |names| > 0 {
      assert names[..|names| - 1] <= names;
      NeverOccurs(names[..|names| - 1], x);
    }
  }

  /** Adding one annotation to the list grows exactly the group of its category name. */
  lemma {:induction false} GroupSizesSnoc(list: seq<Annotation>, a: Annotation, cats: seq<Category>, names: seq<string>)
    ensures GroupSizes(list + [a], cats, names) == GroupSizes(list, cats, names) + Occurrences(names, CategoryName(cats, a.categoryId))
  {
    if |names| > 0 {
      GroupSizesSnoc(list, a, cats, names[..|names| - 1]);
      var n := names[|names| - 1];
      assert (list + [a])[..|list + [a]| - 1] == list;
    }
  }

  /** Over distinct names covering every annotation's category, the groups partition the list. */
  lemma {:induction false} GroupsPartition(list: seq<Annotation>, cats: seq<Category>, names: seq<string>)
    requires forall i, j :: 0 <= i < j < |names| ==> names[i] != names[j]
    requires forall a :: a in list ==> CategoryName(cats, a.categoryId) in names
    ensures GroupSizes(list, cats, names) == |list|
  {
    if |list| == 0 {
      EmptyGroups(cats, names);
    } else {
      var init := list[..|list| - 1];
      var a := list[|list| - 1];
      assert list == init + [a];
      GroupsPartition(init, cats, names);
      GroupSizesSnoc(init, a, cats, names);
      OccursOnce(names, CategoryName(cats, a.categoryId));
    }
  }

  lemma {:induction false} EmptyGroups(cats: seq<Category>, names: seq<string>)
    ensures GroupSizes([], cats, names) == 0
  {
    if |names| > 0 {
      EmptyGroups(cats, names[..|names| - 1]);
    }
  }

  // ---------------------------------------------------------------------
  // diff_datasets
  // ---------------------------------------------------------------------

  /** The annotations on the image a file name picks in a dataset (none when the name is absent). */
  function AnnotationsNamed(d: Dataset, name: string): seq<Annotation> {
    var img := ImageByName(d.images, name);
    if img.Some? then AnnotationsOn(d.annotations, img.value.id) else []
  }

  /** The sides compared for one shared file name. */
  function SidesOf(a: Dataset, b: Dataset, name: string, eps: real): Sides {
    Sides(AnnotationsNamed(a, name), AnnotationsNamed(b, name), a.categories, b.categories, eps)
  }

  /** The by-ID counts summed over the shared names. */
  function ByIdTotals(a: Dataset, b: Dataset, names: seq<string>, eps: real): AnnotationCounts {
    if |names| == 0 then NoCounts
    else
      var name := names[|names| - 1];
      Plus(ByIdTotals(a, b, names[..|names| - 1], eps), ByIdCounts(name, SidesOf(a, b, name, eps)))
  }

  /** The by-IoU counts summed over the shared names. */
  function IouTotals(a: Dataset, b: Dataset, names: seq<string>, eps: real, iou: Iou, threshold: real): AnnotationCounts {
    if |names| == 0 then NoCounts
    else
      var name := names[|names| - 1];
      Plus(IouTotals(a, b, names[..|names| - 1], eps, iou, threshold), ByIouCounts(SidesOf(a, b, name, eps), iou, threshold))
  }

  /** By IoU, nothing is modified and each side's annotations on the named images are shared or only on that side. */
  lemma {:induction false} IouTotalsConserve(a: Dataset, b: Dataset, names: seq<string>, eps: real, iou: Iou, threshold: real)
    ensures var t := IouTotals(a, b, names, eps, iou, threshold);
            && t.modified == 0
            && t.shared + t.onlyInA == AnnotationsOnNames(a, names)
            && t.shared + t.onlyInB == AnnotationsOnNames(b, names)
  {
    if |names| > 0 {
      IouTotalsConserve(a, b, names[..|names| - 1], eps, iou, threshold);
      ByIouConserves(SidesOf(a, b, names[|names| - 1], eps), iou, threshold);
    }
  }

  /** All detail entries of the shared names, in name order. */
  function AllEntries(a: Dataset, b: Dataset, names: seq<string>, eps: real): seq<ModifiedAnnotation> {
    if |names| == 0 then []
    else
      var name := names[|names| - 1];
      var s := SidesOf(a, b, name, eps);
      AllEntries(a, b, names[..|names| - 1], eps) + ModifiedEntries(name, s, SharedIds(s))
  }

  /** The number of annotations on the images of the given names. */
  function AnnotationsOnNames(d: Dataset, names: seq<string>): nat {
    if |names| == 0 then 0
    else AnnotationsOnNames(d, names[..|names| - 1]) + |AnnotationsNamed(d, names[|names| - 1])|
  }

  lemma {:induction false} PushAllAppend(d: seq<ModifiedAnnotation>, e1: seq<ModifiedAnnotation>,
                                         e2: seq<ModifiedAnnotation>, maxItems: nat)
    ensures PushAll(PushAll(d, e1, maxItems), e2, maxItems) == PushAll(d, e1 + e2, maxItems)
  {
    if |e2| > 0 {
      var init := e2[..|e2| - 1];
      var last := e2[|e2| - 1];
      PushAllAppend(d, e1, init, maxItems);
      assert e1 + e2 == (e1 + init) + [last];
      PushAllStep(d, e1 + init, [last], maxItems);
      assert init + [last] == e2;
    } else {
      assert e1 + e2 == e1;
    }
  }

  lemma SharedStep(a: Dataset, b: Dataset, names: seq<string>, i: nat, eps: real, iou: Iou, threshold: real)
    requires i < |names|
    ensures var s := SidesOf(a, b, names[i], eps);
            && ByIdTotals(a, b, names[..i + 1], eps) == Plus(ByIdTotals(a, b, names[..i], eps), ByIdCounts(names[i], s))
            && IouTotals(a, b, names[..i + 1], eps, iou, threshold)
               == Plus(IouTotals(a, b, names[..i], eps, iou, threshold), ByIouCounts(s, iou, threshold))
            && AllEntries(a, b, names[..i + 1], eps)
               == AllEntries(a, b, names[..i], eps) + ModifiedEntries(names[i], s, SharedIds(s))
            && AnnotationsOnNames(a, names[..i + 1]) == AnnotationsOnNames(a, names[..i]) + |s.listA|
            && AnnotationsOnNames(b, names[..i + 1]) == AnnotationsOnNames(b, names[..i]) + |s.listB|
  {
    assert names[..i + 1][..i] == names[..i];
  }

  /** The detail list never grows past `maxItems`. */
  lemma PushAllBounded(entries: seq<ModifiedAnnotation>, maxItems: nat)
    ensures |PushAll([], entries, maxItems)| <= maxItems
  {
    PushAllTruncates([], entries, maxItems);
  }

  /** The loop over the shared file names. */
  method DiffShared(a: Dataset, b: Dataset, shared: seq<string>, opts: DiffOptions, iou: Iou)
    returns (counts: AnnotationCounts, entries: Option<seq<ModifiedAnnotation>>)
    ensures opts.matchBy == ById ==> counts == ByIdTotals(a, b, shared, opts.bboxEps)
    ensures opts.matchBy == ByIou ==> counts == IouTotals(a, b, shared, opts.bboxEps, iou, opts.iouThreshold)
    ensures opts.matchBy == ByIou ==> counts.modified == 0
                                      && counts.shared + counts.onlyInA == AnnotationsOnNames(a, shared)
                                      && counts.shared + counts.onlyInB == AnnotationsOnNames(b, shared)
    ensures entries.Some? <==> opts.detail
    ensures opts.detail && opts.matchBy == ById ==> entries.value == PushAll([], AllEntries(a, b, shared, opts.bboxEps), opts.maxItems)
    ensures opts.detail && opts.matchBy == ByIou ==> entries.value == []
  {
    counts := NoCounts;
    entries := if opts.detail then Some([]) else None;
    assert shared[..0] == [];
    var i := 0;
    while i < |shared|
      invariant 0 <= i <= |shared|
      invariant opts.matchBy == ById ==> counts == ByIdTotals(a, b, shared[..i], opts.bboxEps)
      invariant opts.matchBy == ByIou ==> counts == IouTotals(a, b, shared[..i], opts.bboxEps, iou, opts.iouThreshold)
      invariant entries.Some? <==> opts.detail
      invariant opts.detail && opts.matchBy == ById ==> entries.value == PushAll([], AllEntries(a, b, shared[..i], opts.bboxEps), opts.maxItems)
      invariant opts.detail && opts.matchBy == ByIou ==> entries.value == []
    {
      var name := shared[i];
      SharedStep(a, b, shared, i, opts.bboxEps, iou, opts.iouThreshold);
      var s := SidesOf(a, b, name, opts.bboxEps);
      if opts.matchBy == ById {
        counts, entries := DiffAnnotationsById(name, s, counts, entries, opts.maxItems);
        if opts.detail {
          PushAllAppend([], AllEntries(a, b, shared[..i], opts.bboxEps),
                        ModifiedEntries(name, s, SharedIds(s)), opts.maxItems);
        }
      } else {
        counts := DiffAnnotationsByIou(s, counts, iou, opts.iouThreshold);
      }
      i := i + 1;
    }
    assert shared[..|shared|] == shared;
    IouTotalsConserve(a, b, shared, opts.bboxEps, iou, opts.iouThreshold);
  }

  /** The loop over the file names of one side only: their annotations count as only on that side. */
  method CountOnly(d: Dataset, names: seq<string>) returns (n: nat)
    ensures n == AnnotationsOnNames(d, names)
  {
    n := 0;
    var i := 0;
    while i < |names|
      invariant 0 <= i <= |names|
      invariant n == AnnotationsOnNames(d, names[..i])
    {
      assert names[..i + 1][..i] == names[..i];
      var img := ImageByName(d.images, names[i]);
      if img.Some? {
        n := n + |AnnotationsOn(d.annotations, img.value.id)|;
      }
      i := i + 1;
    }
    assert names[..|names|] == names;
  }

  /**
   * The annotation part of `diff_datasets`: the shared names by the chosen
   * matching, then every annotation of a one-sided image as only on its side.
   */
  method DiffAnnotations(a: Dataset, b: Dataset, shared: seq<string>, onlyA: seq<string>, onlyB: seq<string>,
                         opts: DiffOptions, iou: Iou)
    returns (counts: AnnotationCounts, entries: Option<seq<ModifiedAnnotation>>)
    ensures opts.matchBy == ById ==>
              counts == Plus(ByIdTotals(a, b, shared, opts.bboxEps),
                             AnnotationCounts(0, AnnotationsOnNames(a, onlyA), AnnotationsOnNames(b, onlyB), 0))
    ensures opts.matchBy == ByIou ==>
              counts == Plus(IouTotals(a, b, shared, opts.bboxEps, iou, opts.iouThreshold),
                             AnnotationCounts(0, AnnotationsOnNames(a, onlyA), AnnotationsOnNames(b, onlyB), 0))
    ensures opts.matchBy == ByIou ==>
              (counts.modified == 0
               && counts.shared + counts.onlyInA == AnnotationsOnNames(a, shared) + AnnotationsOnNames(a, onlyA)
               && counts.shared + counts.onlyInB == AnnotationsOnNames(b, shared) + AnnotationsOnNames(b, onlyB))
    ensures entries.Some? <==> opts.detail
    ensures entries.Some? ==> |entries.value| <= opts.maxItems
  {
    counts, entries := DiffShared(a, b, shared, opts, iou);
    if opts.detail && opts.matchBy == ById {
      PushAllBounded(AllEntries(a, b, shared, opts.bboxEps), opts.maxItems);
    }
    var extraA := CountOnly(a, onlyA);
    var extraB := CountOnly(b, onlyB);
    counts := Plus(counts, AnnotationCounts(0, extraA, extraB, 0));
  }

  /**
   * `diff_datasets`: image counts over the file-name sets, category counts
   * over the name sets, annotation counts per shared image by the chosen
   * matching plus every annotation of a one-sided image, and the detail
   * (when asked for) with the one-sided names in order and at most
   * `maxItems` modified annotations.
   */
  method DiffDatasets(a: Dataset, b: Dataset, opts: DiffOptions, iou: Iou) returns (report: DiffReport)
    ensures var na := NameSet(a.images); var nb := NameSet(b.images);
            report.images == DiffCounts(|na * nb|, |na - nb|, |nb - na|)
    ensures var ca := CategoryNameSet(a.categories); var cb := CategoryNameSet(b.categories);
            report.categories == DiffCounts(|ca * cb|, |ca - cb|, |cb - ca|)
    ensures var na := NameSet(a.images); var nb := NameSet(b.images);
            opts.matchBy == ById ==>
              (report.annotations
               == Plus(ByIdTotals(a, b, StrOrder.SortedKeys(na * nb), opts.bboxEps),
                       AnnotationCounts(0, AnnotationsOnNames(a, StrOrder.SortedKeys(na - nb)),
                                        AnnotationsOnNames(b, StrOrder.SortedKeys(nb - na)), 0)))
    ensures var na := NameSet(a.images); var nb := NameSet(b.images);
            opts.matchBy == ByIou ==>
              (report.annotations
               == Plus(IouTotals(a, b, StrOrder.SortedKeys(na * nb), opts.bboxEps, iou, opts.iouThreshold),
                       AnnotationCounts(0, AnnotationsOnNames(a, StrOrder.SortedKeys(na - nb)),
                                        AnnotationsOnNames(b, StrOrder.SortedKeys(nb - na)), 0)))
    ensures var na := NameSet(a.images); var nb := NameSet(b.images);
            opts.matchBy == ByIou ==>
              (report.annotations.modified == 0
               && report.annotations.shared + report.annotations.onlyInA
                  == AnnotationsOnNames(a, StrOrder.SortedKeys(na * nb)) + AnnotationsOnNames(a, StrOrder.SortedKeys(na - nb))
               && report.annotations.shared + report.annotations.onlyInB
                  == AnnotationsOnNames(b, StrOrder.SortedKeys(na * nb)) + AnnotationsOnNames(b, StrOrder.SortedKeys(nb - na)))
    ensures report.detail.Some? <==> opts.detail
    ensures report.detail.Some? ==> report.detail.value.imagesOnlyInA == StrOrder.SortedKeys(NameSet(a.images) - NameSet(b.images))
                                    && report.detail.value.imagesOnlyInB == StrOrder.SortedKeys(NameSet(b.images) - NameSet(a.images))
                                    && |report.detail.value.modifiedAnnotations| <= opts.maxItems
                                    && report.detail.value.maxItems == opts.maxItems
  {
    var na := NameSet(a.images);
    var nb := NameSet(b.images);
    var shared := StrOrder.SortedKeys(na * nb);
    var onlyA := StrOrder.SortedKeys(na - nb);
    var onlyB := StrOrder.SortedKeys(nb - na);
    var ca := CategoryNameSet(a.categories);
    var cb := CategoryNameSet(b.categories);
    var counts, entries := DiffAnnotations(a, b, shared, onlyA, onlyB, opts, iou);
    var detail: Option<DiffDetail> := None;
    if opts.detail {
      detail := Some(DiffDetail(onlyA, onlyB, entries.value, opts.maxItems));
    }
    report := DiffReport(DiffCounts(|shared|, |onlyA|, |onlyB|), DiffCounts(|ca * cb|, |ca - cb|, |cb - ca|),
                         counts, detail);
  }

  /** Identical datasets, matched by ID: no annotation only on one side and none modified. */
  lemma IdenticalDatasets(d: Dataset, eps: real)
    requires eps >= 0.0 && forall a :: a in d.annotations ==> a.bbox.finite
    ensures var t := ByIdTotals(d, d, StrOrder.SortedKeys(NameSet(d.images)), eps);
            t.onlyInA == 0 && t.onlyInB == 0 && t.modified == 0
  {
    IdenticalTotals(d, StrOrder.SortedKeys(NameSet(d.images)), eps);
  }

  lemma {:induction false} IdenticalTotals(d: Dataset, names: seq<string>, eps: real)
    requires eps >= 0.0 && forall a :: a in d.annotations ==> a.bbox.finite
    ensures var t := ByIdTotals(d, d, names, eps);
            t.onlyInA == 0 && t.onlyInB == 0 && t.modified == 0
  {
    if |names| > 0 {
      IdenticalTotals(d, names[..|names| - 1], eps);
      var name := names[|names| - 1];
      ByIdIdentical(name, AnnotationsNamed(d, name), d.categories, eps);
    }
  }
}
