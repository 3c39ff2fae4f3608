// What the Label Studio reader promises: basenames are clean last path
// segments, percent and pixel boxes convert into each other, the selection
// and result checks, the shared size and names of a task, unique basenames,
// and the numbering of images, categories and annotations.
module LabelStudioFacts {
  import opened Wrappers
  import opened BBoxes
  import opened Ir
  import opened Text
  import opened StrOrder
  import opened Sorting
  import Seqs
  import opened LabelStudio

  // ------------------------------------------------------------ basenames

  /** A last path segment: not empty, with no separator, query or fragment mark. */
  predicate IsSegment(n: string) {
    n != "" && '/' !in n && '\\' !in n && '?' !in n && '#' !in n
  }

  lemma {:induction false} ReplaceCharKeepsAbsent(s: string, c: char, repl: string, d: char)
    requires d != c && d !in repl && d !in s
    ensures d !in ReplaceChar(s, c, repl)
  {
    if |s| > 0 {
      assert d !in s[1..];
      ReplaceCharKeepsAbsent(s[1..], c, repl, d);
    }
  }

  lemma {:induction false} ReplaceCharAbsent(s: string, c: char, repl: string)
    requires c !in s
    ensures ReplaceChar(s, c, repl) == s
  {
    if |s| > 0 {
      ReplaceCharAbsent(s[1..], c, repl);
      assert s == [s[0]] + s[1..];
    }
  }

  /** A derived basename is always a clean last path segment. */
  lemma DerivedNameIsSegment(imageRef: string)
    ensures DeriveImageFileName(imageRef).Some? ==> IsSegment(DeriveImageFileName(imageRef).value)
  {
    var noQuery := BeforeFirst(imageRef, '?');
    var noFragment := BeforeFirst(noQuery, '#');
    assert '?' !in noFragment by {
      forall k | 0 <= k < |noFragment| ensures noFragment[k] != '?' {
        assert noFragment[k] == noQuery[k];
      }
    }
    var normalized := ReplaceChar(noFragment, '\\', "/");
    ReplaceCharKeepsAbsent(noFragment, '\\', "/", '?');
    ReplaceCharKeepsAbsent(noFragment, '\\', "/", '#');
    var candidate := AfterLast(normalized, '/');
    forall k | 0 <= k < |candidate| ensures candidate[k] in normalized {
      if '/' in normalized {
        assert candidate[k] == normalized[LastIndex(normalized, '/') + 1 + k];
      }
    }
  }

  /** A plain file name is its own basename. */
  lemma DerivedPlainName(n: string)
    requires IsSegment(n)
    ensures DeriveImageFileName(n) == Some(n)
  {
    ReplaceCharAbsent(n, '\\', "/");
  }

  /** A path or URL without query or fragment yields the segment after its last slash. */
  lemma DerivedLastSegment(dir: string, n: string)
    requires IsSegment(n) && '?' !in dir && '#' !in dir
    ensures DeriveImageFileName(dir + "/" + n) == Some(n)
  {
    var s := dir + "/" + n;
    assert '?' !in s && '#' !in s;
    NormalizedPath(dir, n);
    var nd := ReplaceChar(dir, '\\', "/");
    var normalized := nd + "/" + n;
    assert normalized[|nd| + 1..] == n;
    LastIndexAt(normalized, '/', |nd|);
  }

  lemma NormalizedPath(dir: string, n: string)
    requires '\\' !in n
    ensures ReplaceChar(dir + "/" + n, '\\', "/") == ReplaceChar(dir, '\\', "/") + "/" + n
  {
    ReplaceCharAppend(dir + "/", n, '\\', "/");
    ReplaceCharAppend(dir, "/", '\\', "/");
    ReplaceCharAbsent(n, '\\', "/");
    ReplaceCharAbsent("/", '\\', "/");
  }

  /** An occurrence of `c` with none before it is the first one. */
  lemma FirstIndexAt(s: string, c: char, i: nat)
    requires i < |s| && s[i] == c && c !in s[..i]
    ensures FirstIndex(s, c) == i
  {
    var j := FirstIndex(s, c);
    assert forall k :: 0 <= k < i ==> s[..i][k] == s[k];
    assert forall k :: 0 <= k < j ==> s[..j][k] == s[k];
  }

  /** An occurrence of `c` with none after it is the last one. */
  lemma LastIndexAt(s: string, c: char, i: nat)
    requires i < |s| && s[i] == c && c !in s[i + 1..]
    ensures LastIndex(s, c) == i
  {
    var j := LastIndex(s, c);
    assert forall k :: i < k < |s| ==> s[i + 1..][k - i - 1] == s[k];
    assert forall k :: j < k < |s| ==> s[j + 1..][k - j - 1] == s[k];
  }

  /** Everything from the first `?` on is ignored. */
  lemma DeriveDropsQuery(p: string, q: string)
    requires '?' !in p
    ensures DeriveImageFileName(p + "?" + q) == DeriveImageFileName(p)
  {
    var s := p + "?" + q;
    assert s[..|p|] == p;
    FirstIndexAt(s, '?', |p|);
  }

  /** Everything from the first `#` on is ignored. */
  lemma DeriveDropsFragment(p: string, f: string)
    requires '?' !in p && '#' !in p && '?' !in f
    ensures DeriveImageFileName(p + "#" + f) == DeriveImageFileName(p)
  {
    var s := p + "#" + f;
    assert '?' !in s;
    assert s[..|p|] == p;
    FirstIndexAt(s, '#', |p|);
  }

  // ------------------------------------------------------------ percent and pixel boxes

  /**
   * Writing a finite box as percentages and reading them back at rotation 0
   * restores the box, for a non-zero image size.
   */
  lemma PercentRoundTrip(b: BBox, imageWidth: nat, imageHeight: nat)
    requires b.finite && imageWidth > 0 && imageHeight > 0
    ensures PixelToPercent(b, imageWidth, imageHeight).Some?
    ensures PercentToPixel(PixelToPercent(b, imageWidth, imageHeight).value.x,
                           PixelToPercent(b, imageWidth, imageHeight).value.y,
                           PixelToPercent(b, imageWidth, imageHeight).value.width,
                           PixelToPercent(b, imageWidth, imageHeight).value.height,
                           imageWidth, imageHeight) == b
  {
    var w, h := imageWidth as real, imageHeight as real;
    var p := PixelToPercent(b, imageWidth, imageHeight).value;
    assert (p.x / 100.0) * w == b.xmin;
    assert ((p.x + p.width) / 100.0) * w == b.xmax;
    assert (p.y / 100.0) * h == b.ymin;
    assert ((p.y + p.height) / 100.0) * h == b.ymax;
  }

  /** Reading percentages at rotation 0 and writing the box back gives the same percentages. */
  lemma PixelRoundTrip(x: real, y: real, width: real, height: real, imageWidth: nat, imageHeight: nat)
    requires imageWidth > 0 && imageHeight > 0
    ensures PixelToPercent(PercentToPixel(x, y, width, height, imageWidth, imageHeight), imageWidth, imageHeight)
            == Some(Percent(x, y, width, height))
  {
    var w, h := imageWidth as real, imageHeight as real;
    var b := PercentToPixel(x, y, width, height, imageWidth, imageHeight);
    assert (b.xmin / w) * 100.0 == x;
    assert ((b.xmax - b.xmin) / w) * 100.0 == width;
    assert (b.ymin / h) * 100.0 == y;
    assert ((b.ymax - b.ymin) / h) * 100.0 == height;
  }

  // ------------------------------------------------------------ result sets

  /**
   * The annotation results: an error when both `annotations` and
   * `completions` are there or the one present holds several sets;
   * otherwise its only set, or nothing.
   */
  lemma SelectAnnotationCases(annotations: Option<seq<ResultSet>>, completions: Option<seq<ResultSet>>, task: nat)
    ensures SelectAnnotationResults(annotations, completions, task).Err? <==>
      || (annotations.Some? && completions.Some?)
      || (annotations.Some? && |annotations.value| > 1)
      || (completions.Some? && |completions.value| > 1)
    ensures annotations.Some? && completions.None? && |annotations.value| == 1 ==>
      SelectAnnotationResults(annotations, completions, task) == Ok(annotations.value[0])
    ensures annotations.None? && completions.Some? && |completions.value| == 1 ==>
      SelectAnnotationResults(annotations, completions, task) == Ok(completions.value[0])
    ensures annotations.None? && completions.None? ==> SelectAnnotationResults(annotations, completions, task) == Ok([])
  {
  }

  /** The prediction results: an error for several sets, otherwise the only set or nothing. */
  lemma SelectPredictionCases(predictions: Option<seq<ResultSet>>, task: nat)
    ensures SelectPredictionResults(predictions, task).Err? <==> predictions.Some? && |predictions.value| > 1
    ensures predictions.Some? && |predictions.value| == 1 ==> SelectPredictionResults(predictions, task) == Ok(predictions.value[0])
    ensures predictions.None? ==> SelectPredictionResults(predictions, task) == Ok([])
  {
  }

  // ------------------------------------------------------------ one result

  /** A result `parse_result` accepts on its own: a one-label rectangle with an original size. */
  predicate Acceptable(res: LsResult) {
    && res.resultType == "rectanglelabels"
    && res.value.Some? && res.value.value.Rect? && |res.value.value.rect.labels| == 1
    && res.originalWidth.Some? && res.originalHeight.Some?
  }

  function SizeOf(res: LsResult): (nat, nat)
    requires res.originalWidth.Some? && res.originalHeight.Some?
  {
    (res.originalWidth.value, res.originalHeight.value)
  }

  /**
   * `row` is what `res` holds: its only label, its score as confidence, and
   * a rotation attribute exactly when rotated.
   */
  predicate RowFrom(row: ParsedRow, res: LsResult) {
    && Acceptable(res)
    && row.labelName == res.value.value.rect.labels[0]
    && row.confidence == res.score
    && ("ls_rotation_deg" in row.attributes <==> res.rotation.Some? && res.rotation.value != 0.0)
  }

  function NameSet(name: Option<string>): set<string> {
    if name.Some? && name.value != "" then {name.value} else {}
  }

  /**
   * A result is accepted exactly when it is a one-label rectangle whose size
   * agrees with the size already seen; it then fixes the size and adds its
   * non-empty names.
   */
  lemma ParseResultCases(res: LsResult, task: nat, source: ResultSource, index: nat, st: ResultState,
                         envelope: Envelope, formatF64: F64Formatter)
    ensures ParseResult(res, task, source, index, st, envelope, formatF64).Ok? <==>
      Acceptable(res) && (st.dims.None? || st.dims.value == SizeOf(res))
    ensures res.resultType != "rectanglelabels" ==>
      ParseResult(res, task, source, index, st, envelope, formatF64) == Err(UnsupportedResultType(task, source, index, res.resultType))
    ensures ParseResult(res, task, source, index, st, envelope, formatF64).Ok? ==>
      && RowFrom(ParseResult(res, task, source, index, st, envelope, formatF64).value.0, res)
      && ParseResult(res, task, source, index, st, envelope, formatF64).value.1
         == ResultState(Some(SizeOf(res)), st.fromNames + NameSet(res.fromName), st.toNames + NameSet(res.toName))
  {
  }

  /** At rotation 0 the row's box is the percent box scaled to the original size. */
  lemma ParseResultUnrotated(res: LsResult, task: nat, source: ResultSource, index: nat, st: ResultState,
                             envelope: Envelope, formatF64: F64Formatter)
    requires ParseResult(res, task, source, index, st, envelope, formatF64).Ok?
    requires res.rotation.None? || res.rotation.value == 0.0
    ensures ParseResult(res, task, source, index, st, envelope, formatF64).value.0.bbox ==
      PercentToPixel(res.value.value.rect.x, res.value.value.rect.y, res.value.value.rect.width,
                     res.value.value.rect.height, res.originalWidth.value, res.originalHeight.value)
  {
  }

  // ------------------------------------------------------------ a result set

  /** The non-empty `from_name`s of `results`. */
  function FromNames(results: seq<LsResult>): set<string> {
    if |results| == 0 then {} else FromNames(results[..|results| - 1]) + NameSet(results[|results| - 1].fromName)
  }

  function ToNames(results: seq<LsResult>): set<string> {
    if |results| == 0 then {} else ToNames(results[..|results| - 1]) + NameSet(results[|results| - 1].toName)
  }

  /** Every result of `results` is acceptable and has size `size`. */
  predicate AllSized(results: seq<LsResult>, size: (nat, nat)) {
    forall k :: 0 <= k < |results| ==> Acceptable(results[k]) && SizeOf(results[k]) == size
  }

  /** What parsing a whole result set from state `st` leaves behind. */
  predicate SetParsed(results: seq<LsResult>, st: ResultState, rows: seq<ParsedRow>, st': ResultState) {
    && |rows| == |results|
    && (forall k :: 0 <= k < |results| ==> RowFrom(rows[k], results[k]))
    && (|results| == 0 ==> st'.dims == st.dims)
    && (st.dims.Some? ==> st'.dims == st.dims)
    && (|results| > 0 ==> st'.dims.Some? && AllSized(results, st'.dims.value))
    && st'.fromNames == st.fromNames + FromNames(results)
    && st'.toNames == st.toNames + ToNames(results)
  }

  /**
   * Parsing a result set turns each result into its row, keeps the size
   * already seen, makes every result share one size, and collects the names.
   */
  lemma {:induction false} ParseResultsFacts(results: seq<LsResult>, st: ResultState, task: nat, source: ResultSource,
                                             envelope: Envelope, formatF64: F64Formatter)
    requires ParseResults(results, st, ResultParserOf(task, source, envelope, formatF64)).Ok?
    ensures SetParsed(results, st, ParseResults(results, st, ResultParserOf(task, source, envelope, formatF64)).value.0,
                      ParseResults(results, st, ResultParserOf(task, source, envelope, formatF64)).value.1)
  {
    var parse := ResultParserOf(task, source, envelope, formatF64);
    if |results| > 0 {
      var i := |results| - 1;
      var pre := results[..i];
      var done := ParseResults(pre, st, parse).value;
      ParseResultsFacts(pre, st, task, source, envelope, formatF64);
      var next := parse(results[i], i, done.1).value;
      ParseResultCases(results[i], task, source, i, done.1, envelope, formatF64);
      assert ParseResults(results, st, parse).value == (done.0 + [next.0], next.1);
      forall k | 0 <= k < |results| ensures RowFrom((done.0 + [next.0])[k], results[k]) {
        if k < i {
          assert pre[k] == results[k];
        }
      }
      if i > 0 {
        assert forall k :: 0 <= k < i ==> pre[k] == results[k];
      }
    }
  }

  // ------------------------------------------------------------ one task

  /** All results of `results` with a non-empty `from_name` carry `name`. */
  predicate NamedAs(names: set<string>, name: Option<string>) {
    forall n :: n in names ==> name == Some(n)
  }

  lemma SmallSetLeast(names: set<string>)
    requires |names| <= 1
    ensures NamedAs(names, FirstName(names))
  {
    if names != {} {
      var m := Least(names);
      assert |names - {m}| == 0;
      assert names == {m};
    }
  }

  /**
   * A parsed task: its rows are its annotation results' rows followed by its
   * prediction results' rows; with any result, every result has the task's
   * size, and otherwise the size is the `data` size; every non-empty
   * `from_name` and `to_name` is the task's own.
   */
  lemma {:induction false} TaskBodyFacts(task: LsTask, idx: nat, envelope: Envelope, formatF64: F64Formatter,
                                         annResults: seq<LsResult>, predResults: seq<LsResult>)
    requires SelectAnnotationResults(task.annotations, task.completions, idx) == Ok(annResults)
    requires SelectPredictionResults(task.predictions, idx) == Ok(predResults)
    requires ParseTaskBody(task, idx, envelope, formatF64).Ok?
    ensures |ParseTaskBody(task, idx, envelope, formatF64).value.rows| == |annResults| + |predResults|
    ensures forall k :: 0 <= k < |annResults| ==>
      RowFrom(ParseTaskBody(task, idx, envelope, formatF64).value.rows[k], annResults[k])
    ensures forall k :: 0 <= k < |predResults| ==>
      RowFrom(ParseTaskBody(task, idx, envelope, formatF64).value.rows[|annResults| + k], predResults[k])
    ensures |annResults| + |predResults| > 0 ==>
      var b := ParseTaskBody(task, idx, envelope, formatF64).value;
      AllSized(annResults, (b.width, b.height)) && AllSized(predResults, (b.width, b.height))
    ensures |annResults| + |predResults| == 0 ==>
      task.dataWidth == Some(ParseTaskBody(task, idx, envelope, formatF64).value.width)
      && task.dataHeight == Some(ParseTaskBody(task, idx, envelope, formatF64).value.height)
    ensures NamedAs(FromNames(annResults) + FromNames(predResults), ParseTaskBody(task, idx, envelope, formatF64).value.fromName)
    ensures NamedAs(ToNames(annResults) + ToNames(predResults), ParseTaskBody(task, idx, envelope, formatF64).value.toName)
  {
    var pa := ResultParserOf(idx, AnnotationResults, envelope, formatF64);
    var pp := ResultParserOf(idx, PredictionResults, envelope, formatF64);
    var a := ParseResults(annResults, EmptyState(), pa).value;
    var p := ParseResults(predResults, a.1, pp).value;
    ParseResultsFacts(annResults, EmptyState(), idx, AnnotationResults, envelope, formatF64);
    ParseResultsFacts(predResults, a.1, idx, PredictionResults, envelope, formatF64);
    assert FinishTask(task, idx, a.0 + p.0, p.1).Ok?;
    SmallSetLeast(p.1.fromNames);
    SmallSetLeast(p.1.toNames);
  }

  /** With every result accepted, a task without results and without `data` size fails. */
  lemma TaskNeedsSize(task: LsTask, idx: nat, rows: seq<ParsedRow>, st: ResultState)
    requires st.dims.None?
    ensures FinishTask(task, idx, rows, st).Ok? <==> task.dataWidth.Some? && task.dataHeight.Some? && |st.fromNames| <= 1 && |st.toNames| <= 1
    ensures task.dataWidth.None? ==> FinishTask(task, idx, rows, st) == Err(NoDimensions(idx))
  {
  }

  /** Two different non-empty `from_name`s in one task are refused. */
  lemma InconsistentFromNames(task: LsTask, idx: nat, rows: seq<ParsedRow>, st: ResultState, n1: string, n2: string)
    requires st.dims.Some? && n1 in st.fromNames && n2 in st.fromNames && n1 != n2
    ensures FinishTask(task, idx, rows, st) == Err(InconsistentFromName(idx))
  {
    assert n2 in st.fromNames - {n1};
    assert |st.fromNames - {n1}| == |st.fromNames| - 1;
  }

  /** Two different non-empty `to_name`s in one task are refused. */
  lemma InconsistentToNames(task: LsTask, idx: nat, rows: seq<ParsedRow>, st: ResultState, n1: string, n2: string)
    requires st.dims.Some? && |st.fromNames| <= 1 && n1 in st.toNames && n2 in st.toNames && n1 != n2
    ensures FinishTask(task, idx, rows, st) == Err(InconsistentToName(idx))
  {
    assert n2 in st.toNames - {n1};
    assert |st.toNames - {n1}| == |st.toNames| - 1;
  }

  // ------------------------------------------------------------ the task pass

  /** Two tasks whose references give the same basename make the read fail. */
  lemma DuplicateBasenameRejected(tasks: seq<LsTask>, i: nat, j: nat, envelope: Envelope, formatF64: F64Formatter)
    requires i < j < |tasks|
    requires TaskHeader(tasks[i], i).Ok? && TaskHeader(tasks[j], j).Ok?
    requires TaskHeader(tasks[i], i).value.1 == TaskHeader(tasks[j], j).value.1
    ensures LsDataset(tasks, envelope, formatF64).Err?
  {
    ScannedName(tasks, i, envelope, formatF64);
    ScannedName(tasks, j, envelope, formatF64);
  }

  /** A successful scan keeps each task's basename at its position. */
  lemma ScannedName(tasks: seq<LsTask>, k: nat, envelope: Envelope, formatF64: F64Formatter)
    requires k < |tasks|
    ensures ScanTasks(tasks, HeaderReaderOf(), BodyReaderOf(envelope, formatF64)).Ok? ==>
      && TaskHeader(tasks[k], k).Ok?
      && TaskNames(ScanTasks(tasks, HeaderReaderOf(), BodyReaderOf(envelope, formatF64)).value)[k] == TaskHeader(tasks[k], k).value.1
  {
  }

  // ------------------------------------------------------------ assembly

  /**
   * Images are numbered 1, 2, … in strictly increasing basename order, one
   * per task, each keeping its task's image reference.
   */
  lemma AssembleImages(parsed: seq<ParsedTask>)
    requires Seqs.Distinct(TaskNames(parsed))
    ensures |Assemble(parsed).images| == |parsed|
    ensures StrictlySorted(ImageFileNames(Assemble(parsed).images))
    ensures multiset(ImageFileNames(Assemble(parsed).images)) == multiset(TaskNames(parsed))
    ensures forall k :: 0 <= k < |parsed| ==> Assemble(parsed).images[k] == ImageOf(k, SortedTasks(parsed)[k])
  {
    SortedTaskNames(parsed);
    assert ImageFileNames(Assemble(parsed).images) == TaskNames(SortedTasks(parsed));
  }

  /** Sorting distinct basenames makes them strictly increasing. */
  lemma SortedTaskNames(parsed: seq<ParsedTask>)
    requires Seqs.Distinct(TaskNames(parsed))
    ensures StrictlySorted(TaskNames(SortedTasks(parsed)))
    ensures multiset(TaskNames(SortedTasks(parsed))) == multiset(TaskNames(parsed))
  {
    var sorted := SortedTasks(parsed);
    var name := (t: ParsedTask) => t.fileName;
    StringKeyPreorder(TaskNameLe, name);
    SortBySorted(parsed, TaskNameLe);
    assert TaskNames(sorted) == Seqs.Map(sorted, name) && TaskNames(parsed) == Seqs.Map(parsed, name);
    Seqs.MapPermutation(sorted, parsed, name);
    Seqs.DistinctPermutation(TaskNames(parsed), TaskNames(sorted));
    forall i, j | 0 <= i < j < |sorted| ensures Lt(TaskNames(sorted)[i], TaskNames(sorted)[j]) {
      assert TaskNameLe(sorted[i], sorted[j]);
    }
  }

  /**
   * The image of the task at position `idx`: ID `idx + 1`, the task's
   * basename and size, its reference, and its names when present.
   */
  lemma ImageOfTask(idx: nat, t: ParsedTask)
    ensures ImageOf(idx, t).id == idx + 1 && ImageOf(idx, t).fileName == t.fileName
    ensures ImageOf(idx, t).width == t.body.width && ImageOf(idx, t).height == t.body.height
    ensures ImageOf(idx, t).attributes["ls_image_ref"] == t.imageRef
    ensures "ls_from_name" in ImageOf(idx, t).attributes <==> t.body.fromName.Some?
    ensures t.body.fromName.Some? ==> ImageOf(idx, t).attributes["ls_from_name"] == t.body.fromName.value
    ensures "ls_to_name" in ImageOf(idx, t).attributes <==> t.body.toName.Some?
    ensures t.body.toName.Some? ==> ImageOf(idx, t).attributes["ls_to_name"] == t.body.toName.value
  {
  }

  /** Categories are numbered 1, 2, … in strictly increasing order of the row labels. */
  lemma AssembleCategories(parsed: seq<ParsedTask>)
    ensures CategoryNames(Assemble(parsed).categories) == CategoryNamesOf(parsed)
    ensures StrictlySorted(CategoryNames(Assemble(parsed).categories))
    ensures forall k :: 0 <= k < |Assemble(parsed).categories| ==> Assemble(parsed).categories[k].id == k + 1
  {
    var names := CategoryNamesOf(parsed);
    assert CategoryNames(LsCategories(names)) == names;
  }

  lemma TaskInSorted(parsed: seq<ParsedTask>, t: ParsedTask)
    requires t in parsed
    ensures t in SortedTasks(parsed)
  {
    assert t in multiset(parsed);
  }

  /** Every row label of every task is a category name. */
  lemma EveryLabelCategory(parsed: seq<ParsedTask>, t: ParsedTask, j: nat)
    requires t in parsed && j < |t.body.rows|
    ensures t.body.rows[j].labelName in CategoryNamesOf(parsed)
  {
    TaskInSorted(parsed, t);
    SortedLabelsKnown(parsed);
    var k :| 0 <= k < |SortedTasks(parsed)| && SortedTasks(parsed)[k] == t;
    assert RowsKnown(SortedTasks(parsed)[k].body.rows, CategoryNamesOf(parsed));
  }

  /** How many rows the tasks from position `idx` on hold together. */
  function RowCount(sorted: seq<ParsedTask>, idx: nat): nat
    requires idx <= |sorted|
    decreases |sorted| - idx
  {
    if idx == |sorted| then 0 else |sorted[idx].body.rows| + RowCount(sorted, idx + 1)
  }

  lemma {:induction false} AnnotationsNumbered(sorted: seq<ParsedTask>, idx: nat, names: seq<string>, firstId: nat)
    requires idx <= |sorted| && LabelsKnown(sorted, names)
    ensures |AnnotationsFrom(sorted, idx, names, firstId)| == RowCount(sorted, idx)
    ensures NumberedFrom(AnnotationsFrom(sorted, idx, names, firstId), firstId, |sorted|, |names|)
    decreases |sorted| - idx
  {
    if idx < |sorted| {
      var t := sorted[idx];
      var head := TaskAnnotations(t, idx + 1, names, firstId);
      var tail := AnnotationsFrom(sorted, idx + 1, names, firstId + |t.body.rows|);
      AnnotationsNumbered(sorted, idx + 1, names, firstId + |t.body.rows|);
      forall j | 0 <= j < |head| ensures 1 <= head[j].categoryId <= |names| {
        assert RowsKnown(t.body.rows, names);
        assert t.body.rows[j].labelName in names;
      }
      NumberedAppend(head, tail, firstId, |sorted|, |names|);
    }
  }

  /**
   * Annotation IDs run 1, 2, … across tasks in basename order, each task's
   * annotation results before its predictions, one per row, and every
   * annotation's image and category exist.
   */
  lemma AssembleAnnotations(parsed: seq<ParsedTask>)
    ensures |Assemble(parsed).annotations| == RowCount(SortedTasks(parsed), 0)
    ensures forall k :: 0 <= k < |Assemble(parsed).annotations| ==> Assemble(parsed).annotations[k].id == k + 1
    ensures forall a :: a in Assemble(parsed).annotations ==>
      a.imageId in ImageIds(Assemble(parsed).images) && a.categoryId in CategoryIds(Assemble(parsed).categories)
  {
    var d := Assemble(parsed);
    SortedLabelsKnown(parsed);
    AnnotationsNumbered(SortedTasks(parsed), 0, CategoryNamesOf(parsed), 1);
    NumberedResolve(d.images, d.categories, d.annotations);
  }

  /** A successful read of at least one task: its tasks have distinct basenames. */
  lemma ReadTasksDistinct(tasks: seq<LsTask>, envelope: Envelope, formatF64: F64Formatter)
    requires |tasks| > 0 && LsDataset(tasks, envelope, formatF64).Ok?
    ensures ScanTasks(tasks, HeaderReaderOf(), BodyReaderOf(envelope, formatF64)).Ok?
    ensures LsDataset(tasks, envelope, formatF64).value
            == Assemble(ScanTasks(tasks, HeaderReaderOf(), BodyReaderOf(envelope, formatF64)).value)
    ensures Seqs.Distinct(TaskNames(ScanTasks(tasks, HeaderReaderOf(), BodyReaderOf(envelope, formatF64)).value))
  {
  }
}
