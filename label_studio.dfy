// The Label Studio reader (src/ir/io_label_studio_json.rs): task-export JSON,
// already deserialized into tasks, becomes an IR dataset. Each task names its
// image by a reference from which a unique basename is derived; its single
// annotation (or completion) set and its single prediction set hold
// `rectanglelabels` results in percent coordinates of the original size.
module LabelStudio {
  import opened Wrappers
  import opened BBoxes
  import opened Ir
  import opened Text
  import opened StrOrder
  import opened Sorting
  import Seqs

  // ------------------------------------------------------------ tasks as deserialized

  /** A result `value` that deserializes as a rectangle. */
  datatype RectValue = RectValue(x: real, y: real, width: real, height: real, labels: seq<string>)

  /** A result `value`: a rectangle, or an object that does not deserialize as one. */
  datatype LsValue = Rect(rect: RectValue) | Malformed

  datatype LsResult = LsResult(
    resultType: string,
    value: Option<LsValue>,
    originalWidth: Option<nat>,
    originalHeight: Option<nat>,
    rotation: Option<real>,
    fromName: Option<string>,
    toName: Option<string>,
    score: Option<real>)

  /** A result set: its `result` list. */
  type ResultSet = seq<LsResult>

  datatype LsTask = LsTask(
    image: Option<string>,
    dataWidth: Option<nat>,
    dataHeight: Option<nat>,
    annotations: Option<seq<ResultSet>>,
    completions: Option<seq<ResultSet>>,
    predictions: Option<seq<ResultSet>>)

  datatype ResultSource = AnnotationResults | PredictionResults

  /** The reader's `LabelStudioJsonInvalid` messages, one constructor per check. */
  datatype LsError =
    | MissingImageRef(task: nat)
    | InvalidImageRef(task: nat, imageRef: string)
    | DuplicateBasename(name: string)
    | AnnotationsAndCompletions(task: nat)
    | TooManyAnnotationSets(task: nat, count: nat)
    | TooManyPredictionSets(task: nat, count: nat)
    | UnsupportedResultType(task: nat, source: ResultSource, index: nat, resultType: string)
    | MissingValue(task: nat, source: ResultSource, index: nat)
    | InvalidValue(task: nat, source: ResultSource, index: nat)
    | LabelCount(task: nat, source: ResultSource, index: nat, count: nat)
    | MissingOriginalWidth(task: nat, source: ResultSource, index: nat)
    | MissingOriginalHeight(task: nat, source: ResultSource, index: nat)
    | InconsistentDimensions(task: nat, existing: (nat, nat), found: (nat, nat))
    | NoDimensions(task: nat)
    | InconsistentFromName(task: nat)
    | InconsistentToName(task: nat)

  /** `rotated_envelope_bbox`: the trigonometric envelope of a rotated box, left abstract. */
  type Envelope = (BBox, real) -> BBox

  /** `f64::to_string`. */
  type F64Formatter = real -> string

  // ------------------------------------------------------------ image references

  /** The first piece of `split(c)`: the text before the first `c`. */
  function BeforeFirst(s: string, c: char): (r: string)
    ensures r <= s && c !in r
    ensures c !in s ==> r == s
  {
    if c in s then s[..FirstIndex(s, c)] else s
  }

  /** The first piece of `rsplit(c)`: the text after the last `c`. */
  function AfterLast(s: string, c: char): (r: string)
    ensures c !in r
    ensures c !in s ==> r == s
  {
    if c in s then s[LastIndex(s, c) + 1..] else s
  }

  /**
   * `derive_image_file_name`: drop the query and the fragment, turn
   * backslashes into slashes and keep the last path segment, if not empty.
   */
  function DeriveImageFileName(imageRef: string): Option<string> {
    var noQuery := BeforeFirst(imageRef, '?');
    var noFragment := BeforeFirst(noQuery, '#');
    var normalized := ReplaceChar(noFragment, '\\', "/");
    var candidate := AfterLast(normalized, '/');
    if candidate == "" then None else Some(candidate)
  }

  // ------------------------------------------------------------ coordinates

  /** `percent_bbox_to_pixel` at rotation 0: percentages of the original size, in pixels. */
  function PercentToPixel(x: real, y: real, width: real, height: real, imageWidth: nat, imageHeight: nat): BBox {
    var w, h := imageWidth as real, imageHeight as real;
    FromXyxy((x / 100.0) * w, (y / 100.0) * h, ((x + width) / 100.0) * w, ((y + height) / 100.0) * h)
  }

  /** `percent_bbox_to_pixel`: a non-zero rotation replaces the box by its rotated envelope. */
  function RectToPixel(v: RectValue, imageWidth: nat, imageHeight: nat, rotation: real, envelope: Envelope): BBox {
    var b := PercentToPixel(v.x, v.y, v.width, v.height, imageWidth, imageHeight);
    if rotation == 0.0 then b else envelope(b, rotation)
  }

  datatype Percent = Percent(x: real, y: real, width: real, height: real)

  /** `pixel_bbox_to_percent`: none for a zero width or height. */
  function PixelToPercent(b: BBox, imageWidth: nat, imageHeight: nat): (r: Option<Percent>)
    ensures r.None? <==> imageWidth == 0 || imageHeight == 0
  {
    if imageWidth == 0 || imageHeight == 0 then None
    else
      var w, h := imageWidth as real, imageHeight as real;
      Some(Percent((b.xmin / w) * 100.0, (b.ymin / h) * 100.0, ((b.xmax - b.xmin) / w) * 100.0,
                   ((b.ymax - b.ymin) / h) * 100.0))
  }

  // ------------------------------------------------------------ result sets

  /**
   * `select_annotation_results`: `annotations` and `completions` are
   * exclusive; the chosen list may hold at most one set.
   */
  function SelectAnnotationResults(annotations: Option<seq<ResultSet>>, completions: Option<seq<ResultSet>>,
                                   task: nat): Result<seq<LsResult>, LsError>
  {
    if annotations.Some? && completions.Some? then Err(AnnotationsAndCompletions(task))
    else
      var selected := if annotations.Some? then annotations else completions;
      match selected
      case None => Ok([])
      case Some(sets) =>
        if |sets| > 1 then Err(TooManyAnnotationSets(task, |sets|))
        else if |sets| == 0 then Ok([])
        else Ok(sets[0])
  }

  /** `select_prediction_results`: at most one prediction set. */
  function SelectPredictionResults(predictions: Option<seq<ResultSet>>, task: nat): Result<seq<LsResult>, LsError> {
    match predictions
    case None => Ok([])
    case Some(sets) =>
      if |sets| > 1 then Err(TooManyPredictionSets(task, |sets|))
      else if |sets| == 0 then Ok([])
      else Ok(sets[0])
  }

  // ------------------------------------------------------------ one result

  /** What `parse_result` updates through `&mut`: the task's size and its name sets. */
  datatype ResultState = ResultState(dims: Option<(nat, nat)>, fromNames: set<string>, toNames: set<string>)

  function EmptyState(): ResultState {
    ResultState(None, {}, {})
  }

  /** Inserts a name into a set unless it is absent or empty. */
  function WithName(names: set<string>, name: Option<string>): set<string> {
    if name.Some? && name.value != "" then names + {name.value} else names
  }

  datatype ParsedRow = ParsedRow(labelName: string, bbox: BBox, confidence: Option<real>, attributes: map<string, string>)

  /**
   * `parse_result`: a `rectanglelabels` result with a rectangle value, one
   * label and its original size, which must match the size already seen.
   */
  function ParseResult(res: LsResult, task: nat, source: ResultSource, index: nat, st: ResultState,
                       envelope: Envelope, formatF64: F64Formatter): Result<(ParsedRow, ResultState), LsError>
  {
    if res.resultType != "rectanglelabels" then Err(UnsupportedResultType(task, source, index, res.resultType))
    else if res.value.None? then Err(MissingValue(task, source, index))
    else if res.value.value.Malformed? then Err(InvalidValue(task, source, index))
    else
      var v := res.value.value.rect;
      if |v.labels| != 1 then Err(LabelCount(task, source, index, |v.labels|))
      else if res.originalWidth.None? then Err(MissingOriginalWidth(task, source, index))
      else if res.originalHeight.None? then Err(MissingOriginalHeight(task, source, index))
      else
        var found := (res.originalWidth.value, res.originalHeight.value);
        if st.dims.Some? && st.dims.value != found then Err(InconsistentDimensions(task, st.dims.value, found))
        else
          var rotation := res.rotation.UnwrapOr(0.0);
          var attrs := if rotation != 0.0 then map["ls_rotation_deg" := formatF64(rotation)] else map[];
          var row := ParsedRow(v.labels[0], RectToPixel(v, found.0, found.1, rotation, envelope), res.score, attrs);
          Ok((row, ResultState(Some(found), WithName(st.fromNames, res.fromName), WithName(st.toNames, res.toName))))
  }

  type ResultParser = (LsResult, nat, ResultState) -> Result<(ParsedRow, ResultState), LsError>

  function ResultParserOf(task: nat, source: ResultSource, envelope: Envelope, formatF64: F64Formatter)
    : (parse: ResultParser)
    ensures forall res, index, st :: parse(res, index, st) == ParseResult(res, task, source, index, st, envelope, formatF64)
  {
    (res: LsResult, index: nat, st: ResultState) => ParseResult(res, task, source, index, st, envelope, formatF64)
  }

  /** The results of one set parsed in order, threading the state; the first failure stops. */
  function ParseResults(results: seq<LsResult>, st: ResultState, parse: ResultParser)
    : (r: Result<(seq<ParsedRow>, ResultState), LsError>)
    ensures r.Ok? ==> |r.value.0| == |results|
  {
    if |results| == 0 then Ok(([], st))
    else
      match ParseResults(results[..|results| - 1], st, parse)
      case Err(e) => Err(e)
      case Ok(done) =>
        match parse(results[|results| - 1], |results| - 1, done.1)
        case Err(e) => Err(e)
        case Ok(next) => Ok((done.0 + [next.0], next.1))
  }

  // ------------------------------------------------------------ one task

  /** A parsed task apart from its image reference and basename. */
  datatype TaskBody = TaskBody(width: nat, height: nat, fromName: Option<string>, toName: Option<string>,
                               rows: seq<ParsedRow>)

  datatype ParsedTask = ParsedTask(fileName: string, imageRef: string, body: TaskBody)

  /** The first member of a `BTreeSet`: its least name. */
  function FirstName(names: set<string>): Option<string> {
    if names == {} then None else Some(Least(names))
  }

  /** The size and names of a task once all its results are parsed. */
  function FinishTask(task: LsTask, idx: nat, rows: seq<ParsedRow>, st: ResultState): Result<TaskBody, LsError> {
    if st.dims.None? && (task.dataWidth.None? || task.dataHeight.None?) then Err(NoDimensions(idx))
    else if |st.fromNames| > 1 then Err(InconsistentFromName(idx))
    else if |st.toNames| > 1 then Err(InconsistentToName(idx))
    else
      var size := if st.dims.Some? then st.dims.value else (task.dataWidth.value, task.dataHeight.value);
      Ok(TaskBody(size.0, size.1, FirstName(st.fromNames), FirstName(st.toNames), rows))
  }

  /** The results of a task: its annotation set first, then its prediction set, sharing one state. */
  function ParseTaskBody(task: LsTask, idx: nat, envelope: Envelope, formatF64: F64Formatter)
    : Result<TaskBody, LsError>
  {
    match SelectAnnotationResults(task.annotations, task.completions, idx)
    case Err(e) => Err(e)
    case Ok(annResults) =>
      match SelectPredictionResults(task.predictions, idx)
      case Err(e) => Err(e)
      case Ok(predResults) =>
        match ParseResults(annResults, EmptyState(), ResultParserOf(idx, AnnotationResults, envelope, formatF64))
        case Err(e) => Err(e)
        case Ok(a) =>
          match ParseResults(predResults, a.1, ResultParserOf(idx, PredictionResults, envelope, formatF64))
          case Err(e) => Err(e)
          case Ok(p) => FinishTask(task, idx, a.0 + p.0, p.1)
  }

  /** A task's image reference and the basename derived from it. */
  function TaskHeader(task: LsTask, idx: nat): Result<(string, string), LsError> {
    match task.image
    case None => Err(MissingImageRef(idx))
    case Some(imageRef) =>
      match DeriveImageFileName(imageRef)
      case None => Err(InvalidImageRef(idx, imageRef))
      case Some(name) => Ok((imageRef, name))
  }

  type HeaderReader = (LsTask, nat) -> Result<(string, string), LsError>
  type BodyReader = (LsTask, nat) -> Result<TaskBody, LsError>

  function HeaderReaderOf(): (read: HeaderReader)
    ensures forall task, idx :: read(task, idx) == TaskHeader(task, idx)
  {
    (task: LsTask, idx: nat) => TaskHeader(task, idx)
  }

  function BodyReaderOf(envelope: Envelope, formatF64: F64Formatter): (read: BodyReader)
    ensures forall task, idx :: read(task, idx) == ParseTaskBody(task, idx, envelope, formatF64)
  {
    (task: LsTask, idx: nat) => ParseTaskBody(task, idx, envelope, formatF64)
  }

  // ------------------------------------------------------------ the task pass

  function TaskNames(parsed: seq<ParsedTask>): (names: seq<string>)
    ensures |names| == |parsed| && forall k :: 0 <= k < |parsed| ==> names[k] == parsed[k].fileName
  {
    seq(|parsed|, k requires 0 <= k < |parsed| => parsed[k].fileName)
  }

  /**
   * Every task read in order: its header, then the basename check against
   * the earlier tasks, then its results; the first failure stops the pass.
   */
  function ScanTasks(tasks: seq<LsTask>, header: HeaderReader, body: BodyReader)
    : (r: Result<seq<ParsedTask>, LsError>)
    ensures r.Ok? ==> |r.value| == |tasks|
    ensures r.Ok? ==> forall k :: 0 <= k < |tasks| ==>
      header(tasks[k], k).Ok? && body(tasks[k], k).Ok?
      && r.value[k] == ParsedTask(header(tasks[k], k).value.1, header(tasks[k], k).value.0, body(tasks[k], k).value)
    ensures r.Ok? ==> Seqs.Distinct(TaskNames(r.value))
  {
    if |tasks| == 0 then Ok([])
    else
      var i := |tasks| - 1;
      assert forall k :: 0 <= k < i ==> tasks[..i][k] == tasks[k];
      match ScanTasks(tasks[..i], header, body)
      case Err(e) => Err(e)
      case Ok(done) =>
        match header(tasks[i], i)
        case Err(e) => Err(e)
        case Ok(h) =>
          if h.1 in TaskNames(done) then Err(DuplicateBasename(h.1))
          else
            match body(tasks[i], i)
            case Err(e) => Err(e)
            case Ok(b) =>
              var p := ParsedTask(h.1, h.0, b);
              assert TaskNames(done + [p]) == TaskNames(done) + [p.fileName];
              Seqs.DistinctSnoc(TaskNames(done), p.fileName);
              Ok(done + [p])
  }

  // ------------------------------------------------------------ assembly

  predicate TaskNameLe(a: ParsedTask, b: ParsedTask) {
    Le(a.fileName, b.fileName)
  }

  /** The tasks in the order they are numbered: by basename. */
  function SortedTasks(parsed: seq<ParsedTask>): seq<ParsedTask> {
    SortBy(parsed, TaskNameLe)
  }

  function RowLabels(rows: seq<ParsedRow>): (labels: seq<string>)
    ensures |labels| == |rows| && forall j :: 0 <= j < |rows| ==> labels[j] == rows[j].labelName
  {
    seq(|rows|, j requires 0 <= j < |rows| => rows[j].labelName)
  }

  /** The row labels of the tasks, task after task. */
  function AllLabels(tasks: seq<ParsedTask>): seq<string> {
    if |tasks| == 0 then [] else AllLabels(tasks[..|tasks| - 1]) + RowLabels(tasks[|tasks| - 1].body.rows)
  }

  /** `category_names`: every row label, sorted and deduplicated. */
  function CategoryNamesOf(parsed: seq<ParsedTask>): seq<string> {
    SortDedup(AllLabels(SortedTasks(parsed)))
  }

  /**
   * The `idx`-th task in basename order as an image, keeping its reference
   * and, when present, its `from_name` and `to_name`.
   */
  function ImageOf(idx: nat, t: ParsedTask): Image {
    var image := NewImage(idx + 1, t.fileName, t.body.width, t.body.height);
    var withRef := image.attributes["ls_image_ref" := t.imageRef];
    var withFrom := if t.body.fromName.Some? then withRef["ls_from_name" := t.body.fromName.value] else withRef;
    var withTo := if t.body.toName.Some? then withFrom["ls_to_name" := t.body.toName.value] else withFrom;
    image.(attributes := withTo)
  }

  function LsImages(sorted: seq<ParsedTask>): (images: seq<Image>)
    ensures |images| == |sorted|
    ensures forall k :: 0 <= k < |sorted| ==> images[k] == ImageOf(k, sorted[k])
  {
    seq(|sorted|, k requires 0 <= k < |sorted| => ImageOf(k, sorted[k]))
  }

  function LsCategories(names: seq<string>): (categories: seq<Category>)
    ensures |categories| == |names|
    ensures forall k :: 0 <= k < |names| ==> categories[k] == NewCategory(k + 1, names[k])
  {
    seq(|names|, k requires 0 <= k < |names| => NewCategory(k + 1, names[k]))
  }

  /** A row as an annotation: its box, score as confidence, and rotation attribute. */
  function AnnotationOf(id: nat, imageId: nat, categoryId: nat, row: ParsedRow): Annotation {
    NewAnnotation(id, imageId, categoryId, row.bbox).(confidence := row.confidence, attributes := row.attributes)
  }

  predicate RowsKnown(rows: seq<ParsedRow>, names: seq<string>) {
    forall j :: 0 <= j < |rows| ==> rows[j].labelName in names
  }

  predicate LabelsKnown(tasks: seq<ParsedTask>, names: seq<string>) {
    forall k :: 0 <= k < |tasks| ==> RowsKnown(tasks[k].body.rows, names)
  }

  /** One task's rows, numbered from `firstId`. */
  function TaskAnnotations(t: ParsedTask, imageId: nat, names: seq<string>, firstId: nat): (anns: seq<Annotation>)
    requires RowsKnown(t.body.rows, names)
    ensures |anns| == |t.body.rows|
    ensures forall j :: 0 <= j < |t.body.rows| ==>
      anns[j] == AnnotationOf(firstId + j, imageId, IndexOf(names, t.body.rows[j].labelName) + 1, t.body.rows[j])
  {
    var rows := t.body.rows;
    seq(|rows|, j requires 0 <= j < |rows| => AnnotationOf(firstId + j, imageId, IndexOf(names, rows[j].labelName) + 1, rows[j]))
  }

  /** The annotations of the tasks in `sorted` from position `idx` on, numbered from `firstId`. */
  function AnnotationsFrom(sorted: seq<ParsedTask>, idx: nat, names: seq<string>, firstId: nat): seq<Annotation>
    requires idx <= |sorted| && LabelsKnown(sorted, names)
    decreases |sorted| - idx
  {
    if idx == |sorted| then []
    else
      TaskAnnotations(sorted[idx], idx + 1, names, firstId)
      + AnnotationsFrom(sorted, idx + 1, names, firstId + |sorted[idx].body.rows|)
  }

  /** Every row label is a category name, in basename order too. */
  lemma SortedLabelsKnown(parsed: seq<ParsedTask>)
    ensures LabelsKnown(SortedTasks(parsed), CategoryNamesOf(parsed))
  {
    var sorted := SortedTasks(parsed);
    forall k, j | 0 <= k < |sorted| && 0 <= j < |sorted[k].body.rows|
      ensures sorted[k].body.rows[j].labelName in CategoryNamesOf(parsed)
    {
      LabelCollected(sorted, k, j);
    }
  }

  lemma {:induction false} LabelCollected(tasks: seq<ParsedTask>, i: nat, j: nat)
    requires i < |tasks| && j < |tasks[i].body.rows|
    ensures tasks[i].body.rows[j].labelName in AllLabels(tasks)
    decreases |tasks|
  {
    var pre := tasks[..|tasks| - 1];
    if i < |tasks| - 1 {
      assert pre[i] == tasks[i];
      LabelCollected(pre, i, j);
    } else {
      assert RowLabels(tasks[i].body.rows)[j] == tasks[i].body.rows[j].labelName;
    }
  }

  function AnnotationList(parsed: seq<ParsedTask>): seq<Annotation> {
    SortedLabelsKnown(parsed);
    AnnotationsFrom(SortedTasks(parsed), 0, CategoryNamesOf(parsed), 1)
  }

  /** The dataset built from the parsed tasks. */
  function Assemble(parsed: seq<ParsedTask>): Dataset {
    Dataset(DefaultInfo(), [], LsImages(SortedTasks(parsed)), LsCategories(CategoryNamesOf(parsed)),
            AnnotationList(parsed))
  }

  /** `ls_to_ir`: no tasks give the default dataset; otherwise scan, then number everything. */
  function LsDataset(tasks: seq<LsTask>, envelope: Envelope, formatF64: F64Formatter): Result<Dataset, LsError> {
    if |tasks| == 0 then Ok(DefaultDataset())
    else
      match ScanTasks(tasks, HeaderReaderOf(), BodyReaderOf(envelope, formatF64))
      case Err(e) => Err(e)
      case Ok(parsed) => Ok(Assemble(parsed))
  }

  // ------------------------------------------------------------ the passes, step by step

  /**
   * `parse_result` updating the task state in place: `dims` is set by the
   * first result, and non-empty names join the name sets.
   */
  method ParseResultInPlace(res: LsResult, task: nat, source: ResultSource, index: nat,
                            dims: Option<(nat, nat)>, fromNames: set<string>, toNames: set<string>,
                            envelope: Envelope, formatF64: F64Formatter)
    returns (r: Result<ParsedRow, LsError>, dims': Option<(nat, nat)>, fromNames': set<string>, toNames': set<string>)
    ensures var spec := ParseResult(res, task, source, index, ResultState(dims, fromNames, toNames), envelope, formatF64);
      && (spec.Err? ==> r == Err(spec.error))
      && (spec.Ok? ==> r == Ok(spec.value.0) && ResultState(dims', fromNames', toNames') == spec.value.1)
  {
    dims', fromNames', toNames' := dims, fromNames, toNames;
    if res.resultType != "rectanglelabels" {
      return Err(UnsupportedResultType(task, source, index, res.resultType)), dims', fromNames', toNames';
    }
    if res.value.None? {
      return Err(MissingValue(task, source, index)), dims', fromNames', toNames';
    }
    if res.value.value.Malformed? {
      return Err(InvalidValue(task, source, index)), dims', fromNames', toNames';
    }
    var v := res.value.value.rect;
    if |v.labels| != 1 {
      return Err(LabelCount(task, source, index, |v.labels|)), dims', fromNames', toNames';
    }
    if res.originalWidth.None? {
      return Err(MissingOriginalWidth(task, source, index)), dims', fromNames', toNames';
    }
    if res.originalHeight.None? {
      return Err(MissingOriginalHeight(task, source, index)), dims', fromNames', toNames';
    }
    var found := (res.originalWidth.value, res.originalHeight.value);
    if dims.Some? {
      if dims.value != found {
        return Err(InconsistentDimensions(task, dims.value, found)), dims', fromNames', toNames';
      }
    } else {
      dims' := Some(found);
    }
    if res.fromName.Some? && res.fromName.value != "" {
      fromNames' := fromNames' + {res.fromName.value};
    }
    if res.toName.Some? && res.toName.value != "" {
      toNames' := toNames' + {res.toName.value};
    }
    var rotation := res.rotation.UnwrapOr(0.0);
    var bbox := RectToPixel(v, found.0, found.1, rotation, envelope);
    var attrs: map<string, string> := map[];
    if rotation != 0.0 {
      attrs := attrs["ls_rotation_deg" := formatF64(rotation)];
    }
    r := Ok(ParsedRow(v.labels[0], bbox, res.score, attrs));
  }

  lemma ResultsStep(results: seq<LsResult>, i: nat, st: ResultState, parse: ResultParser)
    requires i < |results|
    ensures ParseResults(results[..i + 1], st, parse) ==
      match ParseResults(results[..i], st, parse)
      case Err(e) => Err(e)
      case Ok(done) =>
        match parse(results[i], i, done.1)
        case Err(e) => Err(e)
        case Ok(next) => Ok((done.0 + [next.0], next.1))
  {
    assert results[..i + 1][..i] == results[..i];
  }

  lemma {:induction false} ResultsErrPersists(results: seq<LsResult>, i: nat, st: ResultState, parse: ResultParser)
    requires i <= |results| && ParseResults(results[..i], st, parse).Err?
    ensures ParseResults(results, st, parse) == ParseResults(results[..i], st, parse)
    decreases |results|
  {
    if i < |results| {
      var pre := results[..|results| - 1];
      assert pre[..i] == results[..i];
      ResultsErrPersists(pre, i, st, parse);
    } else {
      assert results[..i] == results;
    }
  }

  /** The loop over one result set, threading `dims`, `from_names` and `to_names`. */
  method ParseResultList(results: seq<LsResult>, task: nat, source: ResultSource, st: ResultState,
                         envelope: Envelope, formatF64: F64Formatter)
    returns (r: Result<(seq<ParsedRow>, ResultState), LsError>)
    ensures r == ParseResults(results, st, ResultParserOf(task, source, envelope, formatF64))
  {
    var parse := ResultParserOf(task, source, envelope, formatF64);
    var rows: seq<ParsedRow> := [];
    var dims, fromNames, toNames := st.dims, st.fromNames, st.toNames;
    assert results[..0] == [];
    for i := 0 to |results|
      invariant ParseResults(results[..i], st, parse) == Ok((rows, ResultState(dims, fromNames, toNames)))
    {
      ResultsStep(results, i, st, parse);
      var row;
      row, dims, fromNames, toNames := ParseResultInPlace(results[i], task, source, i, dims, fromNames, toNames,
                                                          envelope, formatF64);
      if row.Err? {
        ResultsErrPersists(results, i + 1, st, parse);
        return Err(row.error);
      }
      rows := rows + [row.value];
    }
    assert results[..|results|] == results;
    return Ok((rows, ResultState(dims, fromNames, toNames)));
  }

  /** One task's results: the annotation set, then the prediction set, then its size and names. */
  method ParseTask(task: LsTask, idx: nat, envelope: Envelope, formatF64: F64Formatter)
    returns (r: Result<TaskBody, LsError>)
    ensures r == ParseTaskBody(task, idx, envelope, formatF64)
  {
    var annResults := SelectAnnotationResults(task.annotations, task.completions, idx);
    if annResults.Err? {
      return Err(annResults.error);
    }
    var predResults := SelectPredictionResults(task.predictions, idx);
    if predResults.Err? {
      return Err(predResults.error);
    }
    var a := ParseResultList(annResults.value, idx, AnnotationResults, EmptyState(), envelope, formatF64);
    if a.Err? {
      return Err(a.error);
    }
    var p := ParseResultList(predResults.value, idx, PredictionResults, a.value.1, envelope, formatF64);
    if p.Err? {
      return Err(p.error);
    }
    r := FinishTask(task, idx, a.value.0 + p.value.0, p.value.1);
  }

  lemma ScanStep(tasks: seq<LsTask>, i: nat, header: HeaderReader, body: BodyReader)
    requires i < |tasks|
    ensures ScanTasks(tasks[..i + 1], header, body) ==
      match ScanTasks(tasks[..i], header, body)
      case Err(e) => Err(e)
      case Ok(done) =>
        match header(tasks[i], i)
        case Err(e) => Err(e)
        case Ok(h) =>
          if h.1 in TaskNames(done) then Err(DuplicateBasename(h.1))
          else
            match body(tasks[i], i)
            case Err(e) => Err(e)
            case Ok(b) => Ok(done + [ParsedTask(h.1, h.0, b)])
  {
    assert tasks[..i + 1][..i] == tasks[..i];
  }

  lemma {:induction false} ScanErrPersists(tasks: seq<LsTask>, i: nat, header: HeaderReader, body: BodyReader)
    requires i <= |tasks| && ScanTasks(tasks[..i], header, body).Err?
    ensures ScanTasks(tasks, header, body) == ScanTasks(tasks[..i], header, body)
    decreases |tasks|
  {
    if i < |tasks| {
      var pre := tasks[..|tasks| - 1];
      assert pre[..i] == tasks[..i];
      ScanErrPersists(pre, i, header, body);
    } else {
      assert tasks[..i] == tasks;
    }
  }

  /** A task whose header fails ends the scan with that error. */
  lemma ScanHeaderErr(tasks: seq<LsTask>, i: nat, header: HeaderReader, body: BodyReader, parsed: seq<ParsedTask>)
    requires i < |tasks| && ScanTasks(tasks[..i], header, body) == Ok(parsed) && header(tasks[i], i).Err?
    ensures ScanTasks(tasks, header, body) == Err(header(tasks[i], i).error)
  {
    ScanStep(tasks, i, header, body);
    ScanErrPersists(tasks, i + 1, header, body);
  }

  /** A task whose basename was seen before ends the scan with a duplicate error. */
  lemma ScanDuplicate(tasks: seq<LsTask>, i: nat, header: HeaderReader, body: BodyReader, parsed: seq<ParsedTask>)
    requires i < |tasks| && ScanTasks(tasks[..i], header, body) == Ok(parsed) && header(tasks[i], i).Ok?
    requires header(tasks[i], i).value.1 in TaskNames(parsed)
    ensures ScanTasks(tasks, header, body) == Err(DuplicateBasename(header(tasks[i], i).value.1))
  {
    ScanStep(tasks, i, header, body);
    ScanErrPersists(tasks, i + 1, header, body);
  }

  /** A new task whose results fail ends the scan with that error. */
  lemma ScanBodyErr(tasks: seq<LsTask>, i: nat, header: HeaderReader, body: BodyReader, parsed: seq<ParsedTask>)
    requires i < |tasks| && ScanTasks(tasks[..i], header, body) == Ok(parsed) && header(tasks[i], i).Ok?
    requires header(tasks[i], i).value.1 !in TaskNames(parsed) && body(tasks[i], i).Err?
    ensures ScanTasks(tasks, header, body) == Err(body(tasks[i], i).error)
  {
    ScanStep(tasks, i, header, body);
    ScanErrPersists(tasks, i + 1, header, body);
  }

  /** A new task whose results parse is appended, and its basename joins the seen names. */
  lemma ScanTaskOk(tasks: seq<LsTask>, i: nat, header: HeaderReader, body: BodyReader, parsed: seq<ParsedTask>,
                   p: ParsedTask)
    requires i < |tasks| && ScanTasks(tasks[..i], header, body) == Ok(parsed) && header(tasks[i], i).Ok?
    requires header(tasks[i], i).value.1 !in TaskNames(parsed) && body(tasks[i], i).Ok?
    requires p == ParsedTask(header(tasks[i], i).value.1, header(tasks[i], i).value.0, body(tasks[i], i).value)
    ensures ScanTasks(tasks[..i + 1], header, body) == Ok(parsed + [p])
    ensures TaskNames(parsed + [p]) == TaskNames(parsed) + [p.fileName]
  {
    ScanStep(tasks, i, header, body);
  }

  /** The loop over the tasks, refusing a basename already in `seen_file_names`. */
  method ScanTaskList(tasks: seq<LsTask>, envelope: Envelope, formatF64: F64Formatter)
    returns (r: Result<seq<ParsedTask>, LsError>)
    ensures r == ScanTasks(tasks, HeaderReaderOf(), BodyReaderOf(envelope, formatF64))
  {
    var header, body := HeaderReaderOf(), BodyReaderOf(envelope, formatF64);
    var parsed: seq<ParsedTask> := [];
    var seen: set<string> := {};
    assert tasks[..0] == [];
    for i := 0 to |tasks|
      invariant ScanTasks(tasks[..i], header, body) == Ok(parsed)
      invariant forall n :: n in seen <==> n in TaskNames(parsed)
    {
      var h := TaskHeader(tasks[i], i);
      assert header(tasks[i], i) == h;
      if h.Err? {
        ScanHeaderErr(tasks, i, header, body, parsed);
        return Err(h.error);
      }
      var (imageRef, fileName) := h.value;
      if fileName in seen {
        ScanDuplicate(tasks, i, header, body, parsed);
        return Err(DuplicateBasename(fileName));
      }
      seen := seen + {fileName};
      var b := ParseTask(tasks[i], i, envelope, formatF64);
      assert body(tasks[i], i) == b;
      if b.Err? {
        ScanBodyErr(tasks, i, header, body, parsed);
        return Err(b.error);
      }
      var p := ParsedTask(fileName, imageRef, b.value);
      ScanTaskOk(tasks, i, header, body, parsed, p);
      parsed := parsed + [p];
    }
    assert tasks[..|tasks|] == tasks;
    return Ok(parsed);
  }

  lemma AllLabelsSnoc(tasks: seq<ParsedTask>, t: ParsedTask)
    ensures AllLabels(tasks + [t]) == AllLabels(tasks) + RowLabels(t.body.rows)
  {
    assert (tasks + [t])[..|tasks|] == tasks;
  }

  lemma AllLabelsStep(tasks: seq<ParsedTask>, i: nat)
    requires i < |tasks|
    ensures AllLabels(tasks[..i + 1]) == AllLabels(tasks[..i]) + RowLabels(tasks[i].body.rows)
  {
    assert tasks[..i + 1] == tasks[..i] + [tasks[i]];
    AllLabelsSnoc(tasks[..i], tasks[i]);
  }

  /** `category_names.insert` for each row of one task. */
  method InsertRowLabels(names: seq<string>, rows: seq<ParsedRow>, ghost before: seq<string>)
    returns (r: seq<string>)
    requires names == SortDedup(before)
    ensures r == SortDedup(before + RowLabels(rows))
  {
    r := names;
    assert before + RowLabels(rows[..0]) == before;
    for j := 0 to |rows|
      invariant r == SortDedup(before + RowLabels(rows[..j]))
    {
      var next := InsertUnique(r, rows[j].labelName);
      InsertLabelStep(before, rows, j, r, next);
      r := next;
    }
    assert rows[..|rows|] == rows;
  }

  lemma InsertLabelStep(before: seq<string>, rows: seq<ParsedRow>, j: nat, r: seq<string>, next: seq<string>)
    requires j < |rows| && r == SortDedup(before + RowLabels(rows[..j]))
    requires next == InsertUnique(r, rows[j].labelName)
    ensures next == SortDedup(before + RowLabels(rows[..j + 1]))
  {
    var x := rows[j].labelName;
    RowLabelsSnoc(rows, j);
    Seqs.AppendAssoc(before, RowLabels(rows[..j]), [x]);
    StrOrder.SortDedupSnoc(before + RowLabels(rows[..j]), x);
  }

  lemma RowLabelsSnoc(rows: seq<ParsedRow>, j: nat)
    requires j < |rows|
    ensures RowLabels(rows[..j + 1]) == RowLabels(rows[..j]) + [rows[j].labelName]
  {
  }

  /** The category pass over the sorted tasks. */
  method CollectCategoryNames(sorted: seq<ParsedTask>) returns (names: seq<string>)
    ensures names == SortDedup(AllLabels(sorted))
  {
    names := [];
    assert sorted[..0] == [];
    for i := 0 to |sorted|
      invariant names == SortDedup(AllLabels(sorted[..i]))
    {
      names := InsertRowLabels(names, sorted[i].body.rows, AllLabels(sorted[..i]));
      AllLabelsStep(sorted, i);
    }
    assert sorted[..|sorted|] == sorted;
  }

  /** The image list, one `Image` per task in basename order. */
  method BuildImages(sorted: seq<ParsedTask>) returns (images: seq<Image>)
    ensures images == LsImages(sorted)
  {
    images := [];
    for idx := 0 to |sorted|
      invariant |images| == idx
      invariant forall k :: 0 <= k < idx ==> images[k] == ImageOf(k, sorted[k])
    {
      images := images + [ImageOf(idx, sorted[idx])];
    }
  }

  /** One task's rows become annotations, numbered on from `firstId`. */
  method TaskAnnotationList(t: ParsedTask, imageId: nat, names: seq<string>, firstId: nat)
    returns (anns: seq<Annotation>, nextId: nat)
    requires RowsKnown(t.body.rows, names)
    ensures anns == TaskAnnotations(t, imageId, names, firstId)
    ensures nextId == firstId + |t.body.rows|
  {
    var rows := t.body.rows;
    anns := [];
    nextId := firstId;
    for j := 0 to |rows|
      invariant nextId == firstId + j && |anns| == j
      invariant forall q :: 0 <= q < j ==>
        anns[q] == AnnotationOf(firstId + q, imageId, IndexOf(names, rows[q].labelName) + 1, rows[q])
    {
      anns := anns + [AnnotationOf(nextId, imageId, IndexOf(names, rows[j].labelName) + 1, rows[j])];
      nextId := nextId + 1;
    }
  }

  /** The annotation pass: task after task in basename order, with one running ID. */
  method AssembleAnnotations(sorted: seq<ParsedTask>, names: seq<string>) returns (anns: seq<Annotation>)
    requires LabelsKnown(sorted, names)
    ensures anns == AnnotationsFrom(sorted, 0, names, 1)
  {
    anns := [];
    var nextId := 1;
    for i := 0 to |sorted|
      invariant anns + AnnotationsFrom(sorted, i, names, nextId) == AnnotationsFrom(sorted, 0, names, 1)
    {
      var taskAnns, next := TaskAnnotationList(sorted[i], i + 1, names, nextId);
      Seqs.AppendAssoc(anns, taskAnns, AnnotationsFrom(sorted, i + 1, names, next));
      anns, nextId := anns + taskAnns, next;
    }
  }

  /** `ls_to_ir`. */
  method LsToIr(tasks: seq<LsTask>, envelope: Envelope, formatF64: F64Formatter) returns (r: Result<Dataset, LsError>)
    ensures r == LsDataset(tasks, envelope, formatF64)
  {
    if |tasks| == 0 {
      return Ok(DefaultDataset());
    }
    var scanned := ScanTaskList(tasks, envelope, formatF64);
    if scanned.Err? {
      return Err(scanned.error);
    }
    var sorted := SortedTasks(scanned.value);
    var names := CollectCategoryNames(sorted);
    var categories := LsCategories(names);
    var images := BuildImages(sorted);
    SortedLabelsKnown(scanned.value);
    var annotations := AssembleAnnotations(sorted, names);
    return Ok(Dataset(DefaultInfo(), [], images, categories, annotations));
  }
}
