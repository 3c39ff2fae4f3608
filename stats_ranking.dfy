// The ranked sections of `panlabel stats` (src/stats/mod.rs): the label
// histogram, the per-category box areas and the category co-occurrence
// pairs. Each ranks rows by a count, most first, ties broken by name.
module StatsRanking {
  import opened Wrappers
  import opened BBoxes
  import opened Ir
  import opened Seqs
  import opened Numbers
  import opened StrOrder
  import opened Sorting
  import StatsCounts

  // ---------------------------------------------------------------------
  // Category labels
  // ---------------------------------------------------------------------

  /** `category_names`: each category ID's name, a later category with the same ID winning. */
  function CategoryNames(cats: seq<Category>): (names: map<nat, string>)
    ensures forall id :: id in names <==> exists k :: 0 <= k < |cats| && cats[k].id == id
    ensures forall id :: id in names ==> exists k :: 0 <= k < |cats| && cats[k].id == id && cats[k].name == names[id]
    ensures |cats| > 0 ==> names[cats[|cats| - 1].id] == cats[|cats| - 1].name
  {
    if |cats| == 0 then map[]
    else
      var init, c := cats[..|cats| - 1], cats[|cats| - 1];
      var names := CategoryNames(init);
      assert forall k :: 0 <= k < |init| ==> init[k] == cats[k];
      names[c.id := c.name]
  }

  const MISSING_PREFIX := "<missing cat "

  /** The label an annotation is counted under: its category's name, or a placeholder naming the ID. */
  function LabelOf(names: map<nat, string>, id: nat): string {
    if id in names then names[id] else MISSING_PREFIX + NatToString(id) + ">"
  }

  /** Two unknown category IDs never share a placeholder label. */
  lemma MissingLabelsDistinct(names: map<nat, string>, i: nat, j: nat)
    requires i !in names && j !in names && i != j
    ensures LabelOf(names, i) != LabelOf(names, j)
  {
    if LabelOf(names, i) == LabelOf(names, j) {
      var a, b := NatToString(i), NatToString(j);
      var s := LabelOf(names, i);
      assert |a| == |b|;
      assert a == s[|MISSING_PREFIX|..|s| - 1];
      assert b == s[|MISSING_PREFIX|..|s| - 1];
      DigitsValueOfNatToString(i);
      DigitsValueOfNatToString(j);
      assert false;
    }
  }

  function HasLabel(names: map<nat, string>, l: string): Annotation -> bool {
    (a: Annotation) => LabelOf(names, a.categoryId) == l
  }

  /** The number of annotations counted under label `l`. */
  function Count(anns: seq<Annotation>, names: map<nat, string>, l: string): nat {
    CountIf(anns, HasLabel(names, l))
  }

  /** The labels the annotations are counted under. */
  function Labels(anns: seq<Annotation>, names: map<nat, string>): set<string> {
    if |anns| == 0 then {}
    else Labels(anns[..|anns| - 1], names) + {LabelOf(names, anns[|anns| - 1].categoryId)}
  }

  /** A label occurs exactly when something is counted under it. */
  lemma {:induction false} LabelsCount(anns: seq<Annotation>, names: map<nat, string>, l: string)
    ensures l in Labels(anns, names) <==> Count(anns, names, l) > 0
  {
    if |anns| > 0 {
      LabelsCount(anns[..|anns| - 1], names, l);
    }
  }

  lemma {:induction false} LabelsMember(anns: seq<Annotation>, names: map<nat, string>, k: nat)
    requires k < |anns|
    ensures LabelOf(names, anns[k].categoryId) in Labels(anns, names)
  {
    if k < |anns| - 1 {
      LabelsMember(anns[..|anns| - 1], names, k);
    }
  }

  lemma LabelStep(anns: seq<Annotation>, names: map<nat, string>, i: nat)
    requires i < |anns|
    ensures Labels(anns[..i + 1], names) == Labels(anns[..i], names) + {LabelOf(names, anns[i].categoryId)}
    ensures forall l :: (Count(anns[..i + 1], names, l) ==
      Count(anns[..i], names, l) + (if LabelOf(names, anns[i].categoryId) == l then 1 else 0))
  {
    assert anns[..i + 1][..i] == anns[..i];
    forall l ensures Count(anns[..i + 1], names, l) ==
      Count(anns[..i], names, l) + (if LabelOf(names, anns[i].categoryId) == l then 1 else 0)
    {
      assert anns[..i + 1][..i] == anns[..i];
    }
  }

  /** `counts` holds one counter per label of `anns`, each the number counted under it. */
  predicate Tallied(counts: map<string, nat>, anns: seq<Annotation>, names: map<nat, string>) {
    counts.Keys == Labels(anns, names)
    && forall l :: l in counts ==> counts[l] == Count(anns, names, l)
  }

  lemma TallyStep(counts: map<string, nat>, anns: seq<Annotation>, names: map<nat, string>, i: nat)
    requires i < |anns| && Tallied(counts, anns[..i], names)
    ensures Tallied(Bump(counts, LabelOf(names, anns[i].categoryId)), anns[..i + 1], names)
  {
    var lbl := LabelOf(names, anns[i].categoryId);
    LabelStep(anns, names, i);
    LabelsCount(anns[..i], names, lbl);
  }

  /** The counting pass shared by the label sections: one counter per label. */
  method TallyLabels(anns: seq<Annotation>, names: map<nat, string>) returns (counts: map<string, nat>)
    ensures counts.Keys == Labels(anns, names)
    ensures forall l :: l in counts ==> counts[l] == Count(anns, names, l)
  {
    counts := map[];
    var i := 0;
    while i < |anns|
      invariant i <= |anns|
      invariant Tallied(counts, anns[..i], names)
    {
      TallyStep(counts, anns, names, i);
      counts := Bump(counts, LabelOf(names, anns[i].categoryId));
      i := i + 1;
    }
    assert anns[..i] == anns;
  }

  /** `*counts.entry(key).or_insert(0) += 1`. */
  function Bump<K>(counts: map<K, nat>, key: K): (r: map<K, nat>)
    ensures r.Keys == counts.Keys + {key}
    ensures r[key] == (if key in counts then counts[key] else 0) + 1
    ensures forall k :: k in counts && k != key ==> r[k] == counts[k]
  {
    if key in counts then counts[key := counts[key] + 1] else counts[key := 1]
  }

  /** The annotation's label is one of `ls`. */
  function LabelIn(names: map<nat, string>, ls: seq<string>): Annotation -> bool {
    (a: Annotation) => LabelOf(names, a.categoryId) in ls
  }

  /** Sums of counts over distinct labels add up to the annotations counted under any of them. */
  lemma {:induction false} LabelCountSum(anns: seq<Annotation>, names: map<nat, string>, ls: seq<string>)
    requires Distinct(ls)
    ensures Sum(seq(|ls|, k requires 0 <= k < |ls| => Count(anns, names, ls[k]))) ==
      CountIf(anns, LabelIn(names, ls))
  {
    var inLs := LabelIn(names, ls);
    if |ls| == 0 {
      CountIfExtremes(anns, inLs);
    } else {
      var init, l := ls[..|ls| - 1], ls[|ls| - 1];
      assert ls == init + [l];
      DistinctSnoc(init, l);
      LabelCountSum(anns, names, init);
      var inInit := LabelIn(names, init);
      CountIfDisjoint(anns, inInit, HasLabel(names, l), inLs);
      var xs := seq(|ls|, k requires 0 <= k < |ls| => Count(anns, names, ls[k]));
      assert xs[..|ls| - 1] == seq(|init|, k requires 0 <= k < |init| => Count(anns, names, init[k]));
    }
  }

  // ---------------------------------------------------------------------
  // Label histogram
  // ---------------------------------------------------------------------

  datatype LabelCount = LabelCount(name: string, count: nat)

  datatype LabelsSection = LabelsSection(
    topN: nat, totalDistinct: nat, totalAnnotations: nat,
    entries: seq<LabelCount>, otherCount: nat)

  /** Most annotations first, then by label. */
  predicate RankLe(x: LabelCount, y: LabelCount) {
    x.count > y.count || (x.count == y.count && Le(x.name, y.name))
  }

  lemma RankPreorder()
    ensures TotalPreorder(RankLe)
  {
    forall a, b ensures RankLe(a, b) || RankLe(b, a) {
      LeTotal(a.name, b.name);
    }
    forall a, b, c | RankLe(a, b) && RankLe(b, c) ensures RankLe(a, c) {
      if a.count == b.count == c.count {
        LeTransitive(a.name, b.name, c.name);
      }
    }
  }

  function CountOf(x: LabelCount): nat { x.count }

  /** One row per label, in ascending label order. */
  function LabelRows(counts: map<string, nat>): (rows: seq<LabelCount>)
    ensures |rows| == |counts.Keys|
    ensures forall k :: 0 <= k < |rows| ==> rows[k].name in counts && rows[k].count == counts[rows[k].name]
  {
    var ks := SortedKeys(counts.Keys);
    seq(|ks|, k requires 0 <= k < |ks| => LabelCount(ks[k], counts[ks[k]]))
  }

  /** Each label has exactly one row, carrying its count. */
  lemma LabelRowsFacts(counts: map<string, nat>)
    ensures forall x :: x in LabelRows(counts) ==> x.name in counts && x.count == counts[x.name]
    ensures forall l :: l in counts ==> LabelCount(l, counts[l]) in LabelRows(counts)
    ensures Distinct(LabelRows(counts))
  {
    var ks := SortedKeys(counts.Keys);
    var rows := LabelRows(counts);
    forall l | l in counts ensures LabelCount(l, counts[l]) in rows {
      var k :| 0 <= k < |ks| && ks[k] == l;
      assert rows[k] == LabelCount(l, counts[l]);
    }
    forall i, j | 0 <= i < j < |rows| ensures rows[i] != rows[j] {
      StrictlySortedDistinct(ks, i, j);
    }
  }

  /**
   * `compute_labels`: every label with its count, most frequent first and
   * ties by label; the first `top_n` become entries and the rest are summed
   * into `other_count`.
   */
  method ComputeLabels(anns: seq<Annotation>, names: map<nat, string>, topN: nat) returns (sec: LabelsSection)
    ensures sec.topN == topN && sec.totalAnnotations == |anns|
    ensures sec.totalDistinct == |Labels(anns, names)|
    ensures |sec.entries| == if topN < sec.totalDistinct then topN else sec.totalDistinct
    ensures forall e :: e in sec.entries ==> e.name in Labels(anns, names) && e.count == Count(anns, names, e.name)
    ensures forall i, j :: 0 <= i < j < |sec.entries| ==> sec.entries[i].name != sec.entries[j].name
    ensures SortedBy(sec.entries, RankLe)
    ensures forall e, l :: e in sec.entries && l in Labels(anns, names) && l !in Map(sec.entries, (x: LabelCount) => x.name) ==>
      RankLe(e, LabelCount(l, Count(anns, names, l)))
    ensures Sum(Map(sec.entries, CountOf)) + sec.otherCount == |anns|
  {
    var counts := TallyLabels(anns, names);
    var rows := LabelRows(counts);
    var sorted := SortBy(rows, RankLe);
    var entries := TopN(sorted, topN);
    var rest := sorted[|entries|..];
    sec := LabelsSection(topN, |sorted|, |anns|, entries, Sum(Map(rest, CountOf)));
    RankPreorder();
    TopOfSorted(rows, RankLe, topN);
    RankedEntries(anns, names, counts, rows, sorted, entries);
    LabelsTotal(anns, names, counts, sorted, |entries|);
  }

  /** The entries are distinct rows and every label left out ranks after all of them. */
  lemma RankedEntries(anns: seq<Annotation>, names: map<nat, string>, counts: map<string, nat>,
                      rows: seq<LabelCount>, sorted: seq<LabelCount>, entries: seq<LabelCount>)
    requires counts.Keys == Labels(anns, names)
    requires forall l :: l in counts ==> counts[l] == Count(anns, names, l)
    requires rows == LabelRows(counts) && multiset(sorted) == multiset(rows)
    requires |entries| <= |sorted| && entries == sorted[..|entries|]
    requires forall x :: x in entries ==> x in rows
    requires forall x, y :: x in rows && x !in entries && y in entries ==> RankLe(y, x)
    ensures forall i, j :: 0 <= i < j < |entries| ==> entries[i].name != entries[j].name
    ensures forall e, l :: e in entries && l in Labels(anns, names) && l !in Map(entries, (x: LabelCount) => x.name) ==>
      RankLe(e, LabelCount(l, Count(anns, names, l)))
  {
    LabelRowsFacts(counts);
    DistinctPermutation(rows, sorted);
    forall i, j | 0 <= i < j < |entries| ensures entries[i].name != entries[j].name {
      assert entries[i] in rows && entries[j] in rows;
      assert entries[i] == sorted[i] && entries[j] == sorted[j];
    }
    forall e, l | e in entries && l in Labels(anns, names) && l !in Map(entries, (x: LabelCount) => x.name)
      ensures RankLe(e, LabelCount(l, Count(anns, names, l)))
    {
      var x := LabelCount(l, counts[l]);
      assert x in rows;
    }
  }

  /** The counts of all labels add up to every annotation. */
  lemma RowsTotal(anns: seq<Annotation>, names: map<nat, string>, counts: map<string, nat>)
    requires counts.Keys == Labels(anns, names)
    requires forall l :: l in counts ==> counts[l] == Count(anns, names, l)
    ensures Sum(Map(LabelRows(counts), CountOf)) == |anns|
  {
    var ks := SortedKeys(counts.Keys);
    StrictlyDistinct(ks);
    LabelCountSum(anns, names, ks);
    var inKs := (a: Annotation) => LabelOf(names, a.categoryId) in ks;
    assert forall k :: 0 <= k < |anns| ==> inKs(anns[k]) by {
      forall k | 0 <= k < |anns| ensures inKs(anns[k]) {
        LabelsMember(anns, names, k);
      }
    }
    CountIfExtremes(anns, inKs);
    RowCounts(anns, names, counts);
  }

  lemma RowCounts(anns: seq<Annotation>, names: map<nat, string>, counts: map<string, nat>)
    requires forall l :: l in counts ==> counts[l] == Count(anns, names, l)
    ensures var ks := SortedKeys(counts.Keys);
      Map(LabelRows(counts), CountOf) == seq(|ks|, k requires 0 <= k < |ks| => Count(anns, names, ks[k]))
  {
  }

  /** The entries' counts and `other_count` add up to every annotation. */
  lemma LabelsTotal(anns: seq<Annotation>, names: map<nat, string>, counts: map<string, nat>,
                    sorted: seq<LabelCount>, n: nat)
    requires counts.Keys == Labels(anns, names)
    requires forall l :: l in counts ==> counts[l] == Count(anns, names, l)
    requires multiset(sorted) == multiset(LabelRows(counts))
    requires n <= |sorted|
    ensures Sum(Map(sorted[..n], CountOf)) + Sum(Map(sorted[n..], CountOf)) == |anns|
  {
    RowsTotal(anns, names, counts);
    MapPermutation(sorted, LabelRows(counts), CountOf);
    SumPermutation(Map(sorted, CountOf), Map(LabelRows(counts), CountOf));
    SumMapSplit(sorted, n, CountOf);
  }

  lemma StrictlyDistinct(ks: seq<string>)
    requires StrictlySorted(ks)
    ensures Distinct(ks)
  {
    forall i, j | 0 <= i < j < |ks| ensures ks[i] != ks[j] {
      StrictlySortedDistinct(ks, i, j);
    }
  }

  // ---------------------------------------------------------------------
  // Per-category box areas
  // ---------------------------------------------------------------------

  /** The running aggregate kept per category name. */
  datatype Agg = Agg(annotations: nat, validCount: nat, minArea: real, maxArea: real, sumArea: real)

  const EMPTY_AGG := Agg(0, 0, 0.0, 0.0, 0.0)

  /** A box whose area enters the per-category statistics: finite, ordered and of positive area. */
  predicate ValidArea(b: BBox) {
    b.finite && IsOrdered(b) && Area(b) > 0.0
  }

  /** One more annotation of the category, with box `b`. */
  function AggStep(g: Agg, b: BBox): Agg {
    if !ValidArea(b) then g.(annotations := g.annotations + 1)
    else if g.validCount == 0 then Agg(g.annotations + 1, 1, Area(b), Area(b), g.sumArea + Area(b))
    else Agg(g.annotations + 1, g.validCount + 1, StatsCounts.RealMin(g.minArea, Area(b)),
             StatsCounts.RealMax(g.maxArea, Area(b)), g.sumArea + Area(b))
  }

  /** The aggregate of label `l` after the annotations `anns`. */
  function AggOf(anns: seq<Annotation>, names: map<nat, string>, l: string): Agg {
    if |anns| == 0 then EMPTY_AGG
    else
      var g := AggOf(anns[..|anns| - 1], names, l);
      if LabelOf(names, anns[|anns| - 1].categoryId) == l then AggStep(g, anns[|anns| - 1].bbox) else g
  }

  /** The areas of the valid boxes counted under label `l`, in input order. */
  function Areas(anns: seq<Annotation>, names: map<nat, string>, l: string): (xs: seq<real>)
    ensures forall k :: 0 <= k < |xs| ==> xs[k] > 0.0
  {
    if |anns| == 0 then []
    else
      var a := anns[|anns| - 1];
      Areas(anns[..|anns| - 1], names, l) + (if LabelOf(names, a.categoryId) == l && ValidArea(a.bbox) then [Area(a.bbox)] else [])
  }

  function RealSum(xs: seq<real>): real {
    if |xs| == 0 then 0.0 else RealSum(xs[..|xs| - 1]) + xs[|xs| - 1]
  }

  /** `sum / count`, none when nothing was summed. */
  function MeanOf(xs: seq<real>): Option<real> {
    if |xs| == 0 then None else Some(RealSum(xs) / |xs| as real)
  }

  /**
   * The aggregate counts every annotation of the label and holds the least,
   * greatest and total of the valid areas.
   */
  lemma AggFacts(anns: seq<Annotation>, names: map<nat, string>, l: string)
    ensures var g, xs := AggOf(anns, names, l), Areas(anns, names, l);
      && g.annotations == Count(anns, names, l)
      && g.validCount == |xs|
      && g.sumArea == RealSum(xs)
      && (g.validCount > 0 ==> Some(g.minArea) == StatsCounts.MinOf(xs) && Some(g.maxArea) == StatsCounts.MaxOf(xs))
  {
    AggCount(anns, names, l);
    AggSum(anns, names, l);
    AggExtremes(anns, names, l);
  }

  lemma {:induction false} AggCount(anns: seq<Annotation>, names: map<nat, string>, l: string)
    ensures AggOf(anns, names, l).annotations == Count(anns, names, l)
    ensures Count(anns, names, l) == 0 ==> AggOf(anns, names, l) == EMPTY_AGG
  {
    if |anns| > 0 {
      AggCount(anns[..|anns| - 1], names, l);
    }
  }

  lemma {:induction false} AggSum(anns: seq<Annotation>, names: map<nat, string>, l: string)
    ensures AggOf(anns, names, l).validCount == |Areas(anns, names, l)|
    ensures AggOf(anns, names, l).sumArea == RealSum(Areas(anns, names, l))
  {
    if |anns| > 0 {
      var init, a := anns[..|anns| - 1], anns[|anns| - 1];
      AggSum(init, names, l);
      var xs := Areas(init, names, l);
      if LabelOf(names, a.categoryId) == l && ValidArea(a.bbox) {
        assert (xs + [Area(a.bbox)])[..|xs|] == xs;
      } else {
        assert xs + [] == xs;
      }
    }
  }

  lemma {:induction false} AggExtremes(anns: seq<Annotation>, names: map<nat, string>, l: string)
    ensures var g, xs := AggOf(anns, names, l), Areas(anns, names, l);
      g.validCount > 0 ==> Some(g.minArea) == StatsCounts.MinOf(xs) && Some(g.maxArea) == StatsCounts.MaxOf(xs)
  {
    if |anns| > 0 {
      var init, a := anns[..|anns| - 1], anns[|anns| - 1];
      AggExtremes(init, names, l);
      AggSum(init, names, l);
      var xs := Areas(init, names, l);
      if LabelOf(names, a.categoryId) == l && ValidArea(a.bbox) {
        StatsCounts.MinStep(xs, Area(a.bbox));
        StatsCounts.MaxStep(xs, Area(a.bbox));
      } else {
        assert xs + [] == xs;
      }
    }
  }

  lemma RealMulSucc(n: nat, x: real)
    ensures x * (n + 1) as real == x * n as real + x
  {
  }

  /** A sum of values between `lo` and `hi` lies between `n * lo` and `n * hi`. */
  lemma {:induction false} RealSumBetween(xs: seq<real>, lo: real, hi: real)
    requires forall k :: 0 <= k < |xs| ==> lo <= xs[k] <= hi
    ensures lo * |xs| as real <= RealSum(xs) <= hi * |xs| as real
  {
    if |xs| > 0 {
      var init := xs[..|xs| - 1];
      RealSumBetween(init, lo, hi);
      RealMulSucc(|init|, lo);
      RealMulSucc(|init|, hi);
    }
  }

  /** The mean valid area lies between the least and the greatest. */
  lemma MeanAreaBetween(xs: seq<real>)
    requires |xs| > 0
    ensures StatsCounts.MinOf(xs).value <= MeanOf(xs).value <= StatsCounts.MaxOf(xs).value
  {
    RealMeanBetween(xs, StatsCounts.MinOf(xs).value, StatsCounts.MaxOf(xs).value);
  }

  /** A mean of values between `lo` and `hi` lies between them. */
  lemma RealMeanBetween(xs: seq<real>, lo: real, hi: real)
    requires |xs| > 0 && forall k :: 0 <= k < |xs| ==> lo <= xs[k] <= hi
    ensures lo <= MeanOf(xs).value <= hi
  {
    RealSumBetween(xs, lo, hi);
    var n, sum := |xs| as real, RealSum(xs);
    assert lo * n <= sum <= hi * n;
    QuotientBetween(sum, n, lo, hi);
  }

  lemma QuotientBetween(sum: real, n: real, lo: real, hi: real)
    requires n > 0.0 && lo * n <= sum <= hi * n
    ensures lo <= sum / n <= hi
  {
    StatsCounts.DivLower(sum, n, lo);
    StatsCounts.DivUpper(sum, n, hi);
  }

  datatype CategoryBoxStats = CategoryBoxStats(
    category: string, annotations: nat,
    minArea: Option<real>, maxArea: Option<real>, meanArea: Option<real>)

  /** The reported row of a category's aggregate. */
  function RowOf(l: string, g: Agg): CategoryBoxStats {
    CategoryBoxStats(l, g.annotations,
      if g.validCount > 0 then Some(g.minArea) else None,
      if g.validCount > 0 then Some(g.maxArea) else None,
      if g.validCount > 0 then Some(g.sumArea / g.validCount as real) else None)
  }

  /** The rank of a row: its annotation count and category name. */
  function RankOf(r: CategoryBoxStats): LabelCount { LabelCount(r.category, r.annotations) }

  /** Most annotations first, then by category name. */
  predicate CategoryLe(x: CategoryBoxStats, y: CategoryBoxStats) {
    RankLe(RankOf(x), RankOf(y))
  }

  lemma CategoryPreorder()
    ensures TotalPreorder(CategoryLe)
  {
    RankPreorder();
    forall a, b ensures CategoryLe(a, b) || CategoryLe(b, a) {
      assert RankLe(RankOf(a), RankOf(b)) || RankLe(RankOf(b), RankOf(a));
    }
    forall a, b, c | CategoryLe(a, b) && CategoryLe(b, c) ensures CategoryLe(a, c) {
      assert RankLe(RankOf(a), RankOf(b)) && RankLe(RankOf(b), RankOf(c));
    }
  }

  /** `aggs` holds the aggregate of every label of `anns`. */
  predicate AggTallied(aggs: map<string, Agg>, anns: seq<Annotation>, names: map<nat, string>) {
    aggs.Keys == Labels(anns, names)
    && forall l :: l in aggs ==> aggs[l] == AggOf(anns, names, l)
  }

  lemma AggTallyStep(aggs: map<string, Agg>, anns: seq<Annotation>, names: map<nat, string>, i: nat)
    requires i < |anns| && AggTallied(aggs, anns[..i], names)
    ensures var l := LabelOf(names, anns[i].categoryId);
      AggTallied(aggs[l := AggStep(if l in aggs then aggs[l] else EMPTY_AGG, anns[i].bbox)], anns[..i + 1], names)
  {
    var l := LabelOf(names, anns[i].categoryId);
    LabelStep(anns, names, i);
    LabelsCount(anns[..i], names, l);
    assert anns[..i + 1][..i] == anns[..i];
    if l !in aggs {
      AggCount(anns[..i], names, l);
    }
  }

  /** The loop body of the per-category pass: one more annotation with box `b`. */
  method UpdateAgg(entry: Agg, b: BBox) returns (e: Agg)
    ensures e == AggStep(entry, b)
  {
    e := entry.(annotations := entry.annotations + 1);
    if !b.finite || !IsOrdered(b) {
      return;
    }
    var area := Area(b);
    if area <= 0.0 {
      return;
    }
    if e.validCount == 0 {
      e := e.(minArea := area, maxArea := area);
    } else {
      e := e.(minArea := StatsCounts.RealMin(e.minArea, area), maxArea := StatsCounts.RealMax(e.maxArea, area));
    }
    e := e.(validCount := e.validCount + 1, sumArea := e.sumArea + area);
  }

  /** The per-category pass: one aggregate per category name. */
  method TallyAreas(anns: seq<Annotation>, names: map<nat, string>) returns (aggs: map<string, Agg>)
    ensures AggTallied(aggs, anns, names)
  {
    aggs := map[];
    var i := 0;
    while i < |anns|
      invariant i <= |anns|
      invariant AggTallied(aggs, anns[..i], names)
    {
      var category := LabelOf(names, anns[i].categoryId);
      AggTallyStep(aggs, anns, names, i);
      var entry := UpdateAgg(if category in aggs then aggs[category] else EMPTY_AGG, anns[i].bbox);
      aggs := aggs[category := entry];
      i := i + 1;
    }
    assert anns[..i] == anns;
  }

  /** One row per category name, in ascending name order: the iteration order of the `BTreeMap`. */
  function CategoryRows(aggs: map<string, Agg>): (rows: seq<CategoryBoxStats>)
    ensures |rows| == |aggs.Keys|
  {
    var ks := SortedKeys(aggs.Keys);
    seq(|ks|, k requires 0 <= k < |ks| => RowOf(ks[k], aggs[ks[k]]))
  }

  /** The row a label's annotations produce. */
  predicate IsRowFor(r: CategoryBoxStats, anns: seq<Annotation>, names: map<nat, string>) {
    var xs := Areas(anns, names, r.category);
    && r.category in Labels(anns, names)
    && r.annotations == Count(anns, names, r.category)
    && r.minArea == StatsCounts.MinOf(xs)
    && r.maxArea == StatsCounts.MaxOf(xs)
    && r.meanArea == MeanOf(xs)
  }

  lemma CategoryRowsFacts(aggs: map<string, Agg>, anns: seq<Annotation>, names: map<nat, string>)
    requires AggTallied(aggs, anns, names)
    ensures forall r :: r in CategoryRows(aggs) ==> IsRowFor(r, anns, names)
    ensures forall l :: l in Labels(anns, names) ==> RowOf(l, aggs[l]) in CategoryRows(aggs)
    ensures Distinct(CategoryRows(aggs))
  {
    CategoryRowsAreRows(aggs, anns, names);
    CategoryRowsCover(aggs, anns, names);
    CategoryRowsDistinct(aggs);
  }

  lemma CategoryRowsAreRows(aggs: map<string, Agg>, anns: seq<Annotation>, names: map<nat, string>)
    requires AggTallied(aggs, anns, names)
    ensures forall r :: r in CategoryRows(aggs) ==> IsRowFor(r, anns, names)
  {
    var ks := SortedKeys(aggs.Keys);
    var rows := CategoryRows(aggs);
    forall r | r in rows ensures IsRowFor(r, anns, names) {
      var k :| 0 <= k < |rows| && rows[k] == r;
      var l := ks[k];
      assert r == RowOf(l, aggs[l]) && aggs[l] == AggOf(anns, names, l);
      AggFacts(anns, names, l);
    }
  }

  lemma CategoryRowsCover(aggs: map<string, Agg>, anns: seq<Annotation>, names: map<nat, string>)
    requires aggs.Keys == Labels(anns, names)
    ensures forall l :: l in Labels(anns, names) ==> RowOf(l, aggs[l]) in CategoryRows(aggs)
  {
    var ks := SortedKeys(aggs.Keys);
    var rows := CategoryRows(aggs);
    forall l | l in Labels(anns, names) ensures RowOf(l, aggs[l]) in rows {
      var k :| 0 <= k < |ks| && ks[k] == l;
      assert rows[k] == RowOf(l, aggs[l]);
    }
  }

  lemma CategoryRowsDistinct(aggs: map<string, Agg>)
    ensures Distinct(CategoryRows(aggs))
  {
    var ks := SortedKeys(aggs.Keys);
    var rows := CategoryRows(aggs);
    forall i, j | 0 <= i < j < |rows| ensures rows[i] != rows[j] {
      StrictlySortedDistinct(ks, i, j);
      assert rows[i].category == ks[i] && rows[j].category == ks[j];
    }
  }

  /**
   * `compute_per_category_bbox_stats`: one row per category name with its
   * annotation count and the least, greatest and mean valid box area, most
   * annotated first and ties by name, cut to the first `top_n`.
   */
  method PerCategoryBoxStats(anns: seq<Annotation>, names: map<nat, string>, topN: nat) returns (rows: seq<CategoryBoxStats>)
    ensures |rows| == if topN < |Labels(anns, names)| then topN else |Labels(anns, names)|
    ensures forall r :: r in rows ==> IsRowFor(r, anns, names)
    ensures forall i, j :: 0 <= i < j < |rows| ==> rows[i].category != rows[j].category
    ensures SortedBy(rows, CategoryLe)
    ensures forall r, l :: r in rows && l in Labels(anns, names) && l !in Map(rows, (x: CategoryBoxStats) => x.category) ==>
      RankLe(RankOf(r), LabelCount(l, Count(anns, names, l)))
  {
    var aggs := TallyAreas(anns, names);
    var all := CategoryRows(aggs);
    var sorted := SortBy(all, CategoryLe);
    rows := TopN(sorted, topN);
    CategoryPreorder();
    TopOfSorted(all, CategoryLe, topN);
    RankedCategories(anns, names, aggs, all, sorted, rows);
  }

  lemma RankedCategories(anns: seq<Annotation>, names: map<nat, string>, aggs: map<string, Agg>,
                         all: seq<CategoryBoxStats>, sorted: seq<CategoryBoxStats>, rows: seq<CategoryBoxStats>)
    requires AggTallied(aggs, anns, names)
    requires all == CategoryRows(aggs) && multiset(sorted) == multiset(all)
    requires |rows| <= |sorted| && rows == sorted[..|rows|]
    requires forall x :: x in rows ==> x in all
    requires forall x, y :: x in all && x !in rows && y in rows ==> CategoryLe(y, x)
    ensures forall r :: r in rows ==> IsRowFor(r, anns, names)
    ensures forall i, j :: 0 <= i < j < |rows| ==> rows[i].category != rows[j].category
    ensures forall r, l :: r in rows && l in Labels(anns, names) && l !in Map(rows, (x: CategoryBoxStats) => x.category) ==>
      RankLe(RankOf(r), LabelCount(l, Count(anns, names, l)))
  {
    CategoryRowsFacts(aggs, anns, names);
    DistinctPermutation(all, sorted);
    forall i, j | 0 <= i < j < |rows| ensures rows[i].category != rows[j].category {
      assert rows[i] in all && rows[j] in all;
      assert rows[i] == sorted[i] && rows[j] == sorted[j];
      AggFacts(anns, names, rows[i].category);
    }
    forall r, l | r in rows && l in Labels(anns, names) && l !in Map(rows, (x: CategoryBoxStats) => x.category)
      ensures RankLe(RankOf(r), LabelCount(l, Count(anns, names, l)))
    {
      var x := RowOf(l, aggs[l]);
      assert x in all;
      AggFacts(anns, names, l);
      assert CategoryLe(r, x);
    }
  }

  // ---------------------------------------------------------------------
  // Category co-occurrence
  // ---------------------------------------------------------------------

  /** An ordered pair of labels, the key of a co-occurrence counter. */
  type Pair = (string, string)

  /** The image IDs the annotations refer to. */
  function ImageSet(anns: seq<Annotation>): set<nat> {
    if |anns| == 0 then {} else ImageSet(anns[..|anns| - 1]) + {anns[|anns| - 1].imageId}
  }

  /** The annotated image IDs, each once, in the order first seen. */
  function ImagesOf(anns: seq<Annotation>): (ids: seq<nat>)
    ensures Distinct(ids)
    ensures forall id :: id in ids <==> id in ImageSet(anns)
  {
    if |anns| == 0 then []
    else
      var ids := ImagesOf(anns[..|anns| - 1]);
      var id := anns[|anns| - 1].imageId;
      DistinctSnoc(ids, id);
      if id in ids then ids else ids + [id]
  }

  /** The labels of the annotations on image `img`. */
  function ImageLabels(anns: seq<Annotation>, names: map<nat, string>, img: nat): set<string> {
    if |anns| == 0 then {}
    else
      var a := anns[|anns| - 1];
      ImageLabels(anns[..|anns| - 1], names, img) + (if a.imageId == img then {LabelOf(names, a.categoryId)} else {})
  }

  /** Image `img` carries both labels of `p`, the first ordered before the second. */
  function PairOn(anns: seq<Annotation>, names: map<nat, string>, p: Pair): nat -> bool {
    (img: nat) => p.0 in ImageLabels(anns, names, img) && p.1 in ImageLabels(anns, names, img) && Lt(p.0, p.1)
  }

  /** The number of annotated images carrying both labels of `p` (`p.0` before `p.1`). */
  function PairCount(anns: seq<Annotation>, names: map<nat, string>, p: Pair): nat {
    CountIf(ImagesOf(anns), PairOn(anns, names, p))
  }

  /** `per` maps every annotated image to the set of its labels. */
  predicate ImagesTallied(per: map<nat, set<string>>, anns: seq<Annotation>, names: map<nat, string>) {
    per.Keys == ImageSet(anns)
    && forall id :: id in per ==> per[id] == ImageLabels(anns, names, id)
  }

  lemma {:induction false} NoImageLabels(anns: seq<Annotation>, names: map<nat, string>, img: nat)
    requires img !in ImageSet(anns)
    ensures ImageLabels(anns, names, img) == {}
  {
    if |anns| > 0 {
      NoImageLabels(anns[..|anns| - 1], names, img);
    }
  }

  lemma ImageTallyStep(per: map<nat, set<string>>, anns: seq<Annotation>, names: map<nat, string>, i: nat)
    requires i < |anns| && ImagesTallied(per, anns[..i], names)
    ensures var img := anns[i].imageId;
      ImagesTallied(per[img := (if img in per then per[img] else {}) + {LabelOf(names, anns[i].categoryId)}],
                    anns[..i + 1], names)
  {
    var img := anns[i].imageId;
    assert anns[..i + 1][..i] == anns[..i];
    if img !in per {
      NoImageLabels(anns[..i], names, img);
    }
  }

  /** The first pass of `compute_cooccurrence_top_pairs`: each image's set of labels. */
  method TallyImageLabels(anns: seq<Annotation>, names: map<nat, string>) returns (per: map<nat, set<string>>)
    ensures ImagesTallied(per, anns, names)
  {
    per := map[];
    var i := 0;
    while i < |anns|
      invariant i <= |anns|
      invariant ImagesTallied(per, anns[..i], names)
    {
      var category := LabelOf(names, anns[i].categoryId);
      ImageTallyStep(per, anns, names, i);
      var img := anns[i].imageId;
      per := per[img := (if img in per then per[img] else {}) + {category}];
      i := i + 1;
    }
    assert anns[..i] == anns;
  }

  function Pairing(x: string): string -> Pair {
    (y: string) => (x, y)
  }

  /**
   * The pairs `(labels[i], labels[j])` for `i < j`, in the order of the
   * nested index loops over a label set.
   */
  function PairsOf(ls: seq<string>): seq<Pair> {
    if |ls| == 0 then [] else Map(ls[1..], Pairing(ls[0])) + PairsOf(ls[1..])
  }

  function IsPair(p: Pair): Pair -> bool {
    (q: Pair) => q == p
  }

  /** Pairing one label with a list of distinct labels produces `p` at most once. */
  lemma {:induction false} PairingCount(x: string, ys: seq<string>, p: Pair)
    requires Distinct(ys)
    ensures CountIf(Map(ys, Pairing(x)), IsPair(p)) == if p.0 == x && p.1 in ys then 1 else 0
  {
    if |ys| > 0 {
      var init, y := ys[..|ys| - 1], ys[|ys| - 1];
      assert ys == init + [y];
      DistinctSnoc(init, y);
      PairingCount(x, init, p);
      assert Map(ys, Pairing(x))[..|ys| - 1] == Map(init, Pairing(x));
    }
  }

  /** Over a strictly ascending label list, each ordered pair of its labels occurs exactly once. */
  lemma {:induction false} PairsOfCount(ls: seq<string>, p: Pair)
    requires StrictlySorted(ls)
    ensures CountIf(PairsOf(ls), IsPair(p)) == if p.0 in ls && p.1 in ls && Lt(p.0, p.1) then 1 else 0
  {
    if |ls| > 0 {
      var x, rest := ls[0], ls[1..];
      assert StrictlySorted(rest);
      StrictlyDistinct(rest);
      PairsOfCount(rest, p);
      PairingCount(x, rest, p);
      CountIfAppend(Map(rest, Pairing(x)), PairsOf(rest), IsPair(p));
      assert forall z :: z in ls <==> z == x || z in rest;
      assert forall z :: z in rest ==> Lt(x, z);
      if p.0 in rest && p.1 == x {
        LtAsymmetric(x, p.0);
      }
      if p.0 == x && p.1 == x {
        LtIrreflexive(x);
      }
      if p.0 == x {
        assert x !in rest by { LtIrreflexive(x); }
      }
    }
  }

  /** The counter of `p`, zero when absent. */
  function Get0<K>(m: map<K, nat>, p: K): nat {
    if p in m then m[p] else 0
  }

  /** `keys` lists the pairs `counts` holds, once each, and every counter is positive. */
  ghost predicate KeysListed(counts: map<Pair, nat>, keys: seq<Pair>) {
    && Distinct(keys)
    && (forall p :: p in counts <==> p in keys)
    && (forall p :: p in counts ==> counts[p] > 0)
  }

  /** `counts` holds, for every pair, the images of `done` carrying it plus its occurrences in `extra`. */
  ghost predicate PairsCounted(counts: map<Pair, nat>, anns: seq<Annotation>, names: map<nat, string>,
                               done: seq<nat>, extra: seq<Pair>) {
    forall p :: Get0(counts, p) == CountIf(done, PairOn(anns, names, p)) + CountIf(extra, IsPair(p))
  }

  lemma KeysStep(counts: map<Pair, nat>, keys: seq<Pair>, q: Pair)
    requires KeysListed(counts, keys)
    ensures KeysListed(Bump(counts, q), if q in counts then keys else keys + [q])
  {
    DistinctSnoc(keys, q);
  }

  lemma PairTallyStep(counts: map<Pair, nat>, anns: seq<Annotation>, names: map<nat, string>,
                      done: seq<nat>, ps: seq<Pair>, t: nat)
    requires t < |ps| && PairsCounted(counts, anns, names, done, ps[..t])
    ensures PairsCounted(Bump(counts, ps[t]), anns, names, done, ps[..t + 1])
  {
    assert ps[..t + 1][..t] == ps[..t];
  }

  /** Finishing an image's pairs counts the image once for each pair it carries. */
  lemma OnePairDone(anns: seq<Annotation>, names: map<nat, string>, imgs: seq<nat>, k: nat,
                    per: map<nat, set<string>>, p: Pair)
    requires k < |imgs| && imgs[k] in per && per[imgs[k]] == ImageLabels(anns, names, imgs[k])
    ensures CountIf(imgs[..k + 1], PairOn(anns, names, p)) ==
      CountIf(imgs[..k], PairOn(anns, names, p)) + CountIf(PairsOf(SortedKeys(per[imgs[k]])), IsPair(p))
  {
    var ls := SortedKeys(per[imgs[k]]);
    PairsOfCount(ls, p);
    assert imgs[..k + 1][..k] == imgs[..k];
  }

  lemma ImageDoneStep(counts: map<Pair, nat>, anns: seq<Annotation>, names: map<nat, string>,
                      imgs: seq<nat>, k: nat, per: map<nat, set<string>>)
    requires k < |imgs| && imgs[k] in per && per[imgs[k]] == ImageLabels(anns, names, imgs[k])
    requires PairsCounted(counts, anns, names, imgs[..k], PairsOf(SortedKeys(per[imgs[k]])))
    ensures PairsCounted(counts, anns, names, imgs[..k + 1], [])
  {
    forall p ensures Get0(counts, p) == CountIf(imgs[..k + 1], PairOn(anns, names, p)) + CountIf([], IsPair(p)) {
      OnePairDone(anns, names, imgs, k, per, p);
    }
  }

  /** The inner loops of the second pass: counts each pair of one image's label list. */
  method AddPairs(counts0: map<Pair, nat>, keys0: seq<Pair>, ghost anns: seq<Annotation>, names: map<nat, string>,
                  ghost done: seq<nat>, ps: seq<Pair>)
    returns (counts: map<Pair, nat>, keys: seq<Pair>)
    requires KeysListed(counts0, keys0) && PairsCounted(counts0, anns, names, done, [])
    ensures KeysListed(counts, keys) && PairsCounted(counts, anns, names, done, ps)
  {
    counts, keys := counts0, keys0;
    var t := 0;
    while t < |ps|
      invariant t <= |ps|
      invariant KeysListed(counts, keys)
      invariant PairsCounted(counts, anns, names, done, ps[..t])
    {
      PairTallyStep(counts, anns, names, done, ps, t);
      KeysStep(counts, keys, ps[t]);
      if ps[t] !in counts {
        keys := keys + [ps[t]];
      }
      counts := Bump(counts, ps[t]);
      t := t + 1;
    }
    assert ps[..t] == ps;
  }

  /** The second pass: every ordered label pair of every image is counted once for that image. */
  method TallyPairs(anns: seq<Annotation>, names: map<nat, string>, per: map<nat, set<string>>)
    returns (counts: map<Pair, nat>, keys: seq<Pair>)
    requires ImagesTallied(per, anns, names)
    ensures KeysListed(counts, keys)
    ensures PairsCounted(counts, anns, names, ImagesOf(anns), [])
  {
    var imgs := ImagesOf(anns);
    counts, keys := map[], [];
    var k := 0;
    while k < |imgs|
      invariant k <= |imgs|
      invariant KeysListed(counts, keys)
      invariant PairsCounted(counts, anns, names, imgs[..k], [])
    {
      assert imgs[k] in per;
      counts, keys := AddPairs(counts, keys, anns, names, imgs[..k], PairsOf(SortedKeys(per[imgs[k]])));
      ImageDoneStep(counts, anns, names, imgs, k, per);
      k := k + 1;
    }
    assert imgs[..k] == imgs;
  }

  datatype CooccurrencePair = CooccurrencePair(a: string, b: string, count: nat)

  datatype CooccurrenceSection = CooccurrenceSection(topN: nat, pairs: seq<CooccurrencePair>)

  function KeyOf(x: CooccurrencePair): Pair { (x.a, x.b) }

  /** Most images first, then by the first label, then by the second. */
  predicate PairLe(x: CooccurrencePair, y: CooccurrencePair) {
    x.count > y.count
    || (x.count == y.count && (Lt(x.a, y.a) || (x.a == y.a && Le(x.b, y.b))))
  }

  lemma PairPreorder()
    ensures TotalPreorder(PairLe)
  {
    forall x, y ensures PairLe(x, y) || PairLe(y, x) {
      if x.a != y.a {
        LtTotal(x.a, y.a);
      }
      LeTotal(x.b, y.b);
    }
    forall x, y, z | PairLe(x, y) && PairLe(y, z) ensures PairLe(x, z) {
      if x.count == y.count == z.count {
        if Lt(x.a, y.a) && Lt(y.a, z.a) {
          LtTransitive(x.a, y.a, z.a);
        } else if x.a == y.a == z.a {
          LeTransitive(x.b, y.b, z.b);
        }
      }
    }
  }

  /** One row per counted pair, in the order the pairs were first counted. */
  function PairRows(counts: map<Pair, nat>, keys: seq<Pair>): (rows: seq<CooccurrencePair>)
    requires forall k :: 0 <= k < |keys| ==> keys[k] in counts
    ensures |rows| == |keys|
  {
    seq(|keys|, k requires 0 <= k < |keys| => CooccurrencePair(keys[k].0, keys[k].1, counts[keys[k]]))
  }

  /** The number of images with both labels, where the pair is counted. */
  lemma CountedPair(counts: map<Pair, nat>, anns: seq<Annotation>, names: map<nat, string>, p: Pair)
    requires PairsCounted(counts, anns, names, ImagesOf(anns), [])
    ensures Get0(counts, p) == PairCount(anns, names, p)
    ensures PairCount(anns, names, p) > 0 ==> Lt(p.0, p.1)
  {
    assert Get0(counts, p) == CountIf(ImagesOf(anns), PairOn(anns, names, p)) + CountIf([], IsPair(p));
    CountIfExtremes(ImagesOf(anns), PairOn(anns, names, p));
  }

  /** Each pair carried by some image has exactly one row, with its image count. */
  lemma PairRowsFacts(counts: map<Pair, nat>, keys: seq<Pair>, anns: seq<Annotation>, names: map<nat, string>)
    requires KeysListed(counts, keys) && PairsCounted(counts, anns, names, ImagesOf(anns), [])
    ensures forall x :: x in PairRows(counts, keys) ==>
      Lt(x.a, x.b) && x.count == PairCount(anns, names, KeyOf(x)) && x.count > 0
    ensures forall p :: PairCount(anns, names, p) > 0 ==>
      CooccurrencePair(p.0, p.1, PairCount(anns, names, p)) in PairRows(counts, keys)
    ensures Distinct(PairRows(counts, keys))
    ensures forall x, y :: x in PairRows(counts, keys) && y in PairRows(counts, keys) && KeyOf(x) == KeyOf(y) ==> x == y
  {
    PairRowsCounted(counts, keys, anns, names);
    PairRowsCover(counts, keys, anns, names);
    PairRowsKeys(counts, keys);
  }

  lemma PairRowsCounted(counts: map<Pair, nat>, keys: seq<Pair>, anns: seq<Annotation>, names: map<nat, string>)
    requires KeysListed(counts, keys) && PairsCounted(counts, anns, names, ImagesOf(anns), [])
    ensures forall x :: x in PairRows(counts, keys) ==>
      Lt(x.a, x.b) && x.count == PairCount(anns, names, KeyOf(x)) && x.count > 0
  {
    var rows := PairRows(counts, keys);
    forall x | x in rows ensures Lt(x.a, x.b) && x.count == PairCount(anns, names, KeyOf(x)) && x.count > 0 {
      var k :| 0 <= k < |rows| && rows[k] == x;
      assert KeyOf(x) == keys[k];
      CountedPair(counts, anns, names, keys[k]);
    }
  }

  lemma PairRowsCover(counts: map<Pair, nat>, keys: seq<Pair>, anns: seq<Annotation>, names: map<nat, string>)
    requires KeysListed(counts, keys) && PairsCounted(counts, anns, names, ImagesOf(anns), [])
    ensures forall p :: PairCount(anns, names, p) > 0 ==>
      CooccurrencePair(p.0, p.1, PairCount(anns, names, p)) in PairRows(counts, keys)
  {
    var rows := PairRows(counts, keys);
    forall p | PairCount(anns, names, p) > 0 ensures CooccurrencePair(p.0, p.1, PairCount(anns, names, p)) in rows {
      CountedPair(counts, anns, names, p);
      var k :| 0 <= k < |keys| && keys[k] == p;
      assert rows[k] == CooccurrencePair(p.0, p.1, PairCount(anns, names, p));
    }
  }

  lemma PairRowsKeys(counts: map<Pair, nat>, keys: seq<Pair>)
    requires KeysListed(counts, keys)
    ensures Distinct(PairRows(counts, keys))
    ensures forall x, y :: x in PairRows(counts, keys) && y in PairRows(counts, keys) && KeyOf(x) == KeyOf(y) ==> x == y
  {
    var rows := PairRows(counts, keys);
    forall i, j | 0 <= i < j < |rows| ensures rows[i] != rows[j] {
      assert KeyOf(rows[i]) == keys[i] && KeyOf(rows[j]) == keys[j];
    }
    forall x, y | x in rows && y in rows && KeyOf(x) == KeyOf(y) ensures x == y {
      var i :| 0 <= i < |rows| && rows[i] == x;
      var j :| 0 <= j < |rows| && rows[j] == y;
      assert KeyOf(rows[i]) == keys[i] && KeyOf(rows[j]) == keys[j];
    }
  }

  /**
   * `compute_cooccurrence_top_pairs`: nothing when `top_n` is zero;
   * otherwise every pair of distinct labels sharing an image, first label
   * before the second, with the number of images carrying both, most images
   * first and ties by the labels, cut to the first `top_n`.
   */
  method CooccurrenceTopPairs(anns: seq<Annotation>, names: map<nat, string>, topN: nat) returns (r: CooccurrenceSection)
    ensures r.topN == topN && |r.pairs| <= topN
    ensures topN == 0 ==> r.pairs == []
    ensures forall q :: q in r.pairs ==> Lt(q.a, q.b) && q.count == PairCount(anns, names, KeyOf(q)) && q.count > 0
    ensures forall i, j :: 0 <= i < j < |r.pairs| ==> KeyOf(r.pairs[i]) != KeyOf(r.pairs[j])
    ensures SortedBy(r.pairs, PairLe)
    ensures forall q, p :: q in r.pairs && PairCount(anns, names, p) > 0 && p !in Map(r.pairs, KeyOf) ==>
      PairLe(q, CooccurrencePair(p.0, p.1, PairCount(anns, names, p)))
    ensures |r.pairs| < topN ==> forall p :: PairCount(anns, names, p) > 0 ==> p in Map(r.pairs, KeyOf)
  {
    if topN == 0 {
      return CooccurrenceSection(topN, []);
    }
    var per := TallyImageLabels(anns, names);
    var counts, keys := TallyPairs(anns, names, per);
    var rows := PairRows(counts, keys);
    var sorted := SortBy(rows, PairLe);
    r := CooccurrenceSection(topN, TopN(sorted, topN));
    PairPreorder();
    TopOfSorted(rows, PairLe, topN);
    RankedPairs(anns, names, counts, keys, sorted, r.pairs);
  }

  lemma RankedPairs(anns: seq<Annotation>, names: map<nat, string>, counts: map<Pair, nat>, keys: seq<Pair>,
                    sorted: seq<CooccurrencePair>, top: seq<CooccurrencePair>)
    requires KeysListed(counts, keys) && PairsCounted(counts, anns, names, ImagesOf(anns), [])
    requires multiset(sorted) == multiset(PairRows(counts, keys))
    requires |top| <= |sorted| && top == sorted[..|top|]
    requires forall x :: x in top ==> x in PairRows(counts, keys)
    requires forall x, y :: x in PairRows(counts, keys) && x !in top && y in top ==> PairLe(y, x)
    ensures forall q :: q in top ==> Lt(q.a, q.b) && q.count == PairCount(anns, names, KeyOf(q)) && q.count > 0
    ensures forall i, j :: 0 <= i < j < |top| ==> KeyOf(top[i]) != KeyOf(top[j])
    ensures forall q, p :: q in top && PairCount(anns, names, p) > 0 && p !in Map(top, KeyOf) ==>
      PairLe(q, CooccurrencePair(p.0, p.1, PairCount(anns, names, p)))
    ensures |top| == |sorted| ==> forall p :: PairCount(anns, names, p) > 0 ==> p in Map(top, KeyOf)
  {
    PairRowsFacts(counts, keys, anns, names);
    TopKeysDistinct(PairRows(counts, keys), sorted, top);
    PairsOutranked(anns, names, PairRows(counts, keys), top);
    if |top| == |sorted| {
      PairsComplete(anns, names, PairRows(counts, keys), sorted, top);
    }
  }

  /** A pair left out of the top ranks after every pair kept. */
  lemma PairsOutranked(anns: seq<Annotation>, names: map<nat, string>, rows: seq<CooccurrencePair>, top: seq<CooccurrencePair>)
    requires forall p :: PairCount(anns, names, p) > 0 ==> CooccurrencePair(p.0, p.1, PairCount(anns, names, p)) in rows
    requires forall x, y :: x in rows && x !in top && y in top ==> PairLe(y, x)
    ensures forall q, p :: q in top && PairCount(anns, names, p) > 0 && p !in Map(top, KeyOf) ==>
      PairLe(q, CooccurrencePair(p.0, p.1, PairCount(anns, names, p)))
  {
    forall q, p | q in top && PairCount(anns, names, p) > 0 && p !in Map(top, KeyOf)
      ensures PairLe(q, CooccurrencePair(p.0, p.1, PairCount(anns, names, p)))
    {
      var x := CooccurrencePair(p.0, p.1, PairCount(anns, names, p));
      assert KeyOf(x) == p;
    }
  }

  /** When the whole ranking fits, every pair carried by an image is listed. */
  lemma PairsComplete(anns: seq<Annotation>, names: map<nat, string>, rows: seq<CooccurrencePair>,
                      sorted: seq<CooccurrencePair>, top: seq<CooccurrencePair>)
    requires forall p :: PairCount(anns, names, p) > 0 ==> CooccurrencePair(p.0, p.1, PairCount(anns, names, p)) in rows
    requires multiset(sorted) == multiset(rows) && top == sorted
    ensures forall p :: PairCount(anns, names, p) > 0 ==> p in Map(top, KeyOf)
  {
    forall p | PairCount(anns, names, p) > 0 ensures p in Map(top, KeyOf) {
      var x := CooccurrencePair(p.0, p.1, PairCount(anns, names, p));
      assert x in multiset(sorted);
      var k :| 0 <= k < |top| && top[k] == x;
      assert Map(top, KeyOf)[k] == p;
    }
  }

  /** Rows with distinct keys stay distinct in any prefix of a rearrangement. */
  lemma TopKeysDistinct(rows: seq<CooccurrencePair>, sorted: seq<CooccurrencePair>, top: seq<CooccurrencePair>)
    requires Distinct(rows) && multiset(sorted) == multiset(rows)
    requires forall x, y :: x in rows && y in rows && KeyOf(x) == KeyOf(y) ==> x == y
    requires |top| <= |sorted| && top == sorted[..|top|]
    ensures forall i, j :: 0 <= i < j < |top| ==> KeyOf(top[i]) != KeyOf(top[j])
  {
    DistinctPermutation(rows, sorted);
    forall i, j | 0 <= i < j < |top| ensures KeyOf(top[i]) != KeyOf(top[j]) {
      assert top[i] == sorted[i] && top[j] == sorted[j];
      assert top[i] in multiset(rows) && top[j] in multiset(rows);
    }
  }
}
