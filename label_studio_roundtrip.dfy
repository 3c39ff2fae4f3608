// Reading back what the Label Studio writer produces
// (src/ir/io_label_studio_json.rs, `write_then_read_roundtrip_semantic`):
// a written task deserializes as a task the reader accepts, with the same
// size, one row per written result, and each unrotated finite box restored.
module LabelStudioRoundTrip {
  import opened Wrappers
  import opened BBoxes
  import opened Ir
  import LS = LabelStudio
  import LSF = LabelStudioFacts
  import opened LabelStudioWrite
  import LSWF = LabelStudioWriteFacts
  import Seqs
  import opened Grouping

  // ------------------------------------------------------------ serialized output as input

  /** A written result as the reader deserializes it: every field the writer emits is present. */
  function AsInput(r: ResultOut): LS.LsResult {
    LS.LsResult(ResultType, Some(LS.Rect(LS.RectValue(r.x, r.y, r.width, r.height, r.labels))),
                Some(r.originalWidth), Some(r.originalHeight), r.rotation, Some(r.fromName), Some(r.toName), r.score)
  }

  function AsInputs(results: seq<ResultOut>): (rs: seq<LS.LsResult>)
    ensures |rs| == |results| && forall k :: 0 <= k < |results| ==> rs[k] == AsInput(results[k])
  {
    seq(|results|, k requires 0 <= k < |results| => AsInput(results[k]))
  }

  /** A list of result sets; an empty list is not serialized and reads back as absent. */
  function SetsIn(sets: seq<seq<ResultOut>>): Option<seq<LS.ResultSet>> {
    if |sets| == 0 then None else Some(seq(|sets|, k requires 0 <= k < |sets| => AsInputs(sets[k])))
  }

  /** A written task as the reader deserializes it; the writer never emits `completions`. */
  function AsTask(t: TaskOut): LS.LsTask {
    LS.LsTask(Some(t.image), Some(t.width), Some(t.height), SetsIn(t.annotations), None, SetsIn(t.predictions))
  }

  // ------------------------------------------------------------ one result

  /**
   * A written one-label result whose size agrees with the size already seen
   * is accepted; its row keeps the label and the score, and unrotated its
   * box is the percent box scaled back to the original size.
   */
  lemma ResultReadsBack(r: ResultOut, task: nat, source: LS.ResultSource, index: nat, st: LS.ResultState,
                        envelope: LS.Envelope, formatF64: LS.F64Formatter)
    requires |r.labels| == 1
    requires st.dims.None? || st.dims.value == (r.originalWidth, r.originalHeight)
    ensures LS.ParseResult(AsInput(r), task, source, index, st, envelope, formatF64).Ok?
    ensures LS.ParseResult(AsInput(r), task, source, index, st, envelope, formatF64).value.0.labelName == r.labels[0]
    ensures LS.ParseResult(AsInput(r), task, source, index, st, envelope, formatF64).value.0.confidence == r.score
    ensures LS.ParseResult(AsInput(r), task, source, index, st, envelope, formatF64).value.1.dims
            == Some((r.originalWidth, r.originalHeight))
    ensures r.rotation.None? || r.rotation.value == 0.0 ==>
      LS.ParseResult(AsInput(r), task, source, index, st, envelope, formatF64).value.0.bbox
      == LS.PercentToPixel(r.x, r.y, r.width, r.height, r.originalWidth, r.originalHeight)
  {
    LSF.ParseResultCases(AsInput(r), task, source, index, st, envelope, formatF64);
  }

  /**
   * The result written for an annotation of an image of non-zero size reads
   * back as a row with the category name and the confidence, and, when no
   * rotation is written, with the annotation's own box.
   */
  lemma AnnotationReadsBack(a: Annotation, labelName: string, image: Image, fromName: string, toName: string,
                            parseF64: F64Parser, task: nat, source: LS.ResultSource, index: nat, st: LS.ResultState,
                            envelope: LS.Envelope, formatF64: LS.F64Formatter)
    requires image.width > 0 && image.height > 0 && a.bbox.finite
    requires st.dims.None? || st.dims.value == (image.width, image.height)
    requires RotationOf(a, parseF64).None? || RotationOf(a, parseF64).value == 0.0
    ensures LS.PixelToPercent(a.bbox, image.width, image.height).Some?
    ensures LS.ParseResult(AsInput(ResultOf(a, labelName, LS.PixelToPercent(a.bbox, image.width, image.height).value,
                                            image, fromName, toName, parseF64)),
                           task, source, index, st, envelope, formatF64)
            == Ok((LS.ParsedRow(labelName, a.bbox, a.confidence, map[]),
                   LS.ResultState(Some((image.width, image.height)), LS.WithName(st.fromNames, Some(fromName)),
                                  LS.WithName(st.toNames, Some(toName)))))
  {
    LSF.PercentRoundTrip(a.bbox, image.width, image.height);
    var r := ResultOf(a, labelName, LS.PixelToPercent(a.bbox, image.width, image.height).value,
                      image, fromName, toName, parseF64);
    ResultReadsBack(r, task, source, index, st, envelope, formatF64);
  }

  // ------------------------------------------------------------ a result set

  /**
   * `rows` are, one for one, the rows the reader gives for `results` each
   * read on its own from a fresh state.
   */
  predicate ReadAlone(rows: seq<LS.ParsedRow>, results: seq<ResultOut>, task: nat, source: LS.ResultSource,
                      envelope: LS.Envelope, formatF64: LS.F64Formatter)
  {
    && |rows| == |results|
    && forall k :: 0 <= k < |results| ==>
      && LS.ParseResult(AsInput(results[k]), task, source, k, LS.EmptyState(), envelope, formatF64).Ok?
      && rows[k] == LS.ParseResult(AsInput(results[k]), task, source, k, LS.EmptyState(), envelope, formatF64).value.0
  }

  /** The row a result gives does not depend on the state it is read in. */
  lemma RowIgnoresState(res: LS.LsResult, task: nat, source: LS.ResultSource, index: nat, st: LS.ResultState,
                        envelope: LS.Envelope, formatF64: LS.F64Formatter)
    requires LS.ParseResult(res, task, source, index, st, envelope, formatF64).Ok?
    ensures LS.ParseResult(res, task, source, index, LS.EmptyState(), envelope, formatF64).Ok?
    ensures LS.ParseResult(res, task, source, index, st, envelope, formatF64).value.0
            == LS.ParseResult(res, task, source, index, LS.EmptyState(), envelope, formatF64).value.0
  {
    LSF.ParseResultCases(res, task, source, index, st, envelope, formatF64);
    LSF.ParseResultCases(res, task, source, index, LS.EmptyState(), envelope, formatF64);
  }

  /**
   * Reading `results` from state `st` succeeds, gives each result's own
   * row, and leaves the state alone for no results and otherwise fixes the
   * image's size and adds the control names.
   */
  predicate SetRead(r: Result<(seq<LS.ParsedRow>, LS.ResultState), LS.LsError>, results: seq<ResultOut>,
                    st: LS.ResultState, image: Image, fromName: string, toName: string, task: nat,
                    source: LS.ResultSource, envelope: LS.Envelope, formatF64: LS.F64Formatter)
  {
    && r.Ok?
    && ReadAlone(r.value.0, results, task, source, envelope, formatF64)
    && (|results| == 0 ==> r.value.1 == st)
    && (|results| > 0 ==>
          r.value.1 == LS.ResultState(Some((image.width, image.height)), LS.WithName(st.fromNames, Some(fromName)),
                                      LS.WithName(st.toNames, Some(toName))))
  }

  /**
   * A set of results written for one image with one pair of control names
   * is accepted from any state that has not seen another size: each result
   * gives its own row, the set fixes the image's size and adds the names.
   */
  lemma {:induction false} ResultsReadBack(results: seq<ResultOut>, st: LS.ResultState, image: Image,
                                           fromName: string, toName: string, task: nat, source: LS.ResultSource,
                                           envelope: LS.Envelope, formatF64: LS.F64Formatter)
    requires LSWF.WrittenFor(results, image, fromName, toName)
    requires st.dims.None? || st.dims.value == (image.width, image.height)
    ensures SetRead(LS.ParseResults(AsInputs(results), st, LS.ResultParserOf(task, source, envelope, formatF64)),
                    results, st, image, fromName, toName, task, source, envelope, formatF64)
    decreases |results|
  {
    if |results| > 0 {
      var parse := LS.ResultParserOf(task, source, envelope, formatF64);
      var i := |results| - 1;
      var pre := results[..i];
      assert LSWF.WrittenFor(pre, image, fromName, toName) by {
        assert forall k :: 0 <= k < i ==> pre[k] == results[k];
      }
      ResultsReadBack(pre, st, image, fromName, toName, task, source, envelope, formatF64);
      assert AsInputs(results)[..i] == AsInputs(pre);
      var done := LS.ParseResults(AsInputs(pre), st, parse).value;
      ResultReadsBack(results[i], task, source, i, done.1, envelope, formatF64);
      RowIgnoresState(AsInput(results[i]), task, source, i, done.1, envelope, formatF64);
      var next := parse(AsInput(results[i]), i, done.1).value;
      assert LS.ParseResults(AsInputs(results), st, parse).value.0 == done.0 + [next.0];
      ReadAloneSnoc(done.0, results, next.0, task, source, envelope, formatF64);
    }
  }

  lemma ReadAloneSnoc(rows: seq<LS.ParsedRow>, results: seq<ResultOut>, row: LS.ParsedRow,
                      task: nat, source: LS.ResultSource, envelope: LS.Envelope, formatF64: LS.F64Formatter)
    requires |results| > 0 && ReadAlone(rows, results[..|results| - 1], task, source, envelope, formatF64)
    requires LS.ParseResult(AsInput(results[|results| - 1]), task, source, |results| - 1, LS.EmptyState(),
                            envelope, formatF64).Ok?
    requires row == LS.ParseResult(AsInput(results[|results| - 1]), task, source, |results| - 1, LS.EmptyState(),
                                   envelope, formatF64).value.0
    ensures ReadAlone(rows + [row], results, task, source, envelope, formatF64)
  {
    var rows', pre := rows + [row], results[..|results| - 1];
    forall k | 0 <= k < |results|
      ensures LS.ParseResult(AsInput(results[k]), task, source, k, LS.EmptyState(), envelope, formatF64).Ok?
      ensures rows'[k] == LS.ParseResult(AsInput(results[k]), task, source, k, LS.EmptyState(), envelope, formatF64).value.0
    {
      if k < |pre| {
        assert pre[k] == results[k] && rows'[k] == rows[k];
      }
    }
  }


  // ------------------------------------------------------------ one task

  /** The control name the reader settles on for a task whose results all carry `name`. */
  function NameBack(count: nat, name: string): Option<string> {
    if count > 0 && name != "" then Some(name) else None
  }

  /** A written result list is what the reader selects from the written sets. */
  lemma SelectWritten(annResults: seq<ResultOut>, predResults: seq<ResultOut>, task: nat)
    ensures LS.SelectAnnotationResults(SetsIn(SetsOf(annResults)), None, task) == Ok(AsInputs(annResults))
    ensures LS.SelectPredictionResults(SetsIn(SetsOf(predResults)), task) == Ok(AsInputs(predResults))
  {
    if annResults == [] {
      assert AsInputs(annResults) == [];
    }
    if predResults == [] {
      assert AsInputs(predResults) == [];
    }
  }

  /** The least name of a set of at most one name is that name. */
  lemma FirstNameOf(names: set<string>, name: Option<string>)
    requires names == LS.WithName({}, name)
    ensures LS.FirstName(names) == (if name.Some? && name.value != "" then name else None)
  {
    LSF.SmallSetLeast(names);
  }

  /**
   * A task written for an image from unscored results `annResults` and
   * scored results `predResults`, each carrying the image's size and one
   * pair of control names, is accepted by the reader: the task keeps the
   * image's size and its control names, and its rows are the annotation
   * results' rows followed by the prediction results' rows.
   */
  lemma TaskReadsBack(idx: nat, image: Image, imageRef: string, annResults: seq<ResultOut>, predResults: seq<ResultOut>,
                      fromName: string, toName: string, task: nat, envelope: LS.Envelope, formatF64: LS.F64Formatter)
    requires LSWF.WrittenFor(annResults, image, fromName, toName) && LSWF.WrittenFor(predResults, image, fromName, toName)
    ensures LS.ParseTaskBody(AsTask(TaskOf(idx, image, imageRef, (annResults, predResults))), task, envelope, formatF64).Ok?
    ensures BodyRead(LS.ParseTaskBody(AsTask(TaskOf(idx, image, imageRef, (annResults, predResults))), task, envelope,
                                      formatF64).value,
                     image, annResults, predResults, fromName, toName, task, envelope, formatF64)
  {
    var t := TaskOf(idx, image, imageRef, (annResults, predResults));
    var pa := LS.ResultParserOf(task, LS.AnnotationResults, envelope, formatF64);
    var pp := LS.ResultParserOf(task, LS.PredictionResults, envelope, formatF64);
    SelectWritten(annResults, predResults, task);
    ResultsReadBack(annResults, LS.EmptyState(), image, fromName, toName, task, LS.AnnotationResults, envelope, formatF64);
    var a := LS.ParseResults(AsInputs(annResults), LS.EmptyState(), pa).value;
    ResultsReadBack(predResults, a.1, image, fromName, toName, task, LS.PredictionResults, envelope, formatF64);
    var p := LS.ParseResults(AsInputs(predResults), a.1, pp).value;
    FinishRead(AsTask(t), a, p, image, annResults, predResults, fromName, toName, task, envelope, formatF64);
  }

  /** The last step of reading a written task: its size and names settle and its rows are joined. */
  lemma FinishRead(lt: LS.LsTask, a: (seq<LS.ParsedRow>, LS.ResultState), p: (seq<LS.ParsedRow>, LS.ResultState),
                   image: Image, annResults: seq<ResultOut>, predResults: seq<ResultOut>,
                   fromName: string, toName: string, task: nat, envelope: LS.Envelope, formatF64: LS.F64Formatter)
    requires lt.dataWidth == Some(image.width) && lt.dataHeight == Some(image.height)
    requires SetRead(Ok(a), annResults, LS.EmptyState(), image, fromName, toName, task, LS.AnnotationResults,
                     envelope, formatF64)
    requires SetRead(Ok(p), predResults, a.1, image, fromName, toName, task, LS.PredictionResults, envelope, formatF64)
    ensures LS.FinishTask(lt, task, a.0 + p.0, p.1).Ok?
    ensures BodyRead(LS.FinishTask(lt, task, a.0 + p.0, p.1).value, image, annResults, predResults, fromName, toName,
                     task, envelope, formatF64)
  {
    var count := |annResults| + |predResults|;
    assert p.1.fromNames == (if count > 0 then LS.WithName({}, Some(fromName)) else {});
    assert p.1.toNames == (if count > 0 then LS.WithName({}, Some(toName)) else {});
    FirstNameOf(p.1.fromNames, if count > 0 then Some(fromName) else None);
    FirstNameOf(p.1.toNames, if count > 0 then Some(toName) else None);
    var rows := a.0 + p.0;
    assert rows[..|annResults|] == a.0;
    assert rows[|annResults|..] == p.0;
  }

  /**
   * What a written task reads back as: the image's size, the annotation
   * results' rows then the prediction results' rows, and the control names.
   */
  predicate BodyRead(body: LS.TaskBody, image: Image, annResults: seq<ResultOut>, predResults: seq<ResultOut>,
                     fromName: string, toName: string, task: nat, envelope: LS.Envelope, formatF64: LS.F64Formatter)
  {
    && body.width == image.width && body.height == image.height
    && |body.rows| == |annResults| + |predResults|
    && ReadAlone(body.rows[..|annResults|], annResults, task, LS.AnnotationResults, envelope, formatF64)
    && ReadAlone(body.rows[|annResults|..], predResults, task, LS.PredictionResults, envelope, formatF64)
    && body.fromName == NameBack(|annResults| + |predResults|, fromName)
    && body.toName == NameBack(|annResults| + |predResults|, toName)
  }

  // ------------------------------------------------------------ the writer's tasks

  /** No rotation is written for `a`: its attribute is absent, does not parse, or parses as 0. */
  predicate Unrotated(a: Annotation, parseF64: F64Parser) {
    RotationOf(a, parseF64).None? || RotationOf(a, parseF64).value == 0.0
  }

  /**
   * `rows` read back `anns` one for one: each row has its annotation's
   * category name and confidence, and an unrotated finite box comes back
   * unchanged.
   */
  predicate RowsBack(rows: seq<LS.ParsedRow>, anns: seq<Annotation>, names: map<nat, string>, parseF64: F64Parser) {
    && |rows| == |anns|
    && forall k :: 0 <= k < |anns| && anns[k].categoryId in names ==>
      && rows[k].labelName == names[anns[k].categoryId]
      && rows[k].confidence == anns[k].confidence
      && (anns[k].bbox.finite && Unrotated(anns[k], parseF64) ==> rows[k].bbox == anns[k].bbox)
  }

  lemma RowsBackFromResults(rows: seq<LS.ParsedRow>, results: seq<ResultOut>, anns: seq<Annotation>, image: Image,
                            fromName: string, toName: string, names: map<nat, string>, parseF64: F64Parser,
                            task: nat, source: LS.ResultSource, envelope: LS.Envelope, formatF64: LS.F64Formatter)
    requires image.width > 0 && image.height > 0
    requires ReadAlone(rows, results, task, source, envelope, formatF64)
    requires LSWF.ResultsFrom(results, anns, image, names, ResultMakerOf(image, fromName, toName, parseF64))
    ensures RowsBack(rows, anns, names, parseF64)
  {
    forall k | 0 <= k < |anns| && anns[k].categoryId in names
      ensures rows[k].labelName == names[anns[k].categoryId]
      ensures rows[k].confidence == anns[k].confidence
      ensures anns[k].bbox.finite && Unrotated(anns[k], parseF64) ==> rows[k].bbox == anns[k].bbox
    {
      var a := anns[k];
      assert results[k] == ResultOf(a, names[a.categoryId], LS.PixelToPercent(a.bbox, image.width, image.height).value,
                                    image, fromName, toName, parseF64);
      ResultReadsBack(results[k], task, source, k, LS.EmptyState(), envelope, formatF64);
      if a.bbox.finite && Unrotated(a, parseF64) {
        AnnotationReadsBack(a, names[a.categoryId], image, fromName, toName, parseF64, task, source, k, LS.EmptyState(),
                            envelope, formatF64);
      }
    }
  }

  /**
   * What the task written for `image` from its annotations `group` reads
   * back as: the image's size, one row per annotation, the unscored
   * annotations' rows first and then the scored ones', each read back as
   * `RowsBack` says, and the image's control names.
   */
  predicate ImageReadBack(body: LS.TaskBody, image: Image, group: seq<Annotation>, names: map<nat, string>,
                          parseF64: F64Parser)
  {
    && body.width == image.width && body.height == image.height
    && |body.rows| == |group|
    && |Seqs.Filter(group, LSWF.Unscored())| <= |group|
    && RowsBack(body.rows[..|Seqs.Filter(group, LSWF.Unscored())|], Seqs.Filter(group, LSWF.Unscored()), names, parseF64)
    && RowsBack(body.rows[|Seqs.Filter(group, LSWF.Unscored())|..], Seqs.Filter(group, LSWF.Scored()), names, parseF64)
    && body.fromName == NameBack(|group|, FromNameOf(image))
    && body.toName == NameBack(|group|, ToNameOf(image))
  }

  /**
   * A task the writer produces for an image is accepted by the reader and
   * reads back as `ImageReadBack` says.
   */
  lemma WrittenTaskReadsBack(idx: nat, image: Image, byImage: map<nat, seq<Annotation>>, refs: map<nat, string>,
                             names: map<nat, string>, parseF64: F64Parser, task: nat, envelope: LS.Envelope,
                             formatF64: LS.F64Formatter)
    requires LSWF.NamesKnown(GroupOf(image, byImage), names)
    requires TaskFor(idx, image, byImage, refs, names, parseF64).Ok?
    ensures LS.ParseTaskBody(AsTask(TaskFor(idx, image, byImage, refs, names, parseF64).value), task, envelope, formatF64).Ok?
    ensures ImageReadBack(LS.ParseTaskBody(AsTask(TaskFor(idx, image, byImage, refs, names, parseF64).value), task,
                                           envelope, formatF64).value,
                          image, GroupOf(image, byImage), names, parseF64)
  {
    var group := GroupOf(image, byImage);
    var fromName, toName := FromNameOf(image), ToNameOf(image);
    var mk := ResultMakerOf(image, fromName, toName, parseF64);
    var split := SplitResults(group, image, names, mk).value;
    assert TaskFor(idx, image, byImage, refs, names, parseF64).value == TaskOf(idx, image, refs[image.id], split);
    LSWF.SplitShape(group, image, names, fromName, toName, parseF64);
    TaskReadsBack(idx, image, refs[image.id], split.0, split.1, fromName, toName, task, envelope, formatF64);
    var body := LS.ParseTaskBody(AsTask(TaskOf(idx, image, refs[image.id], split)), task, envelope, formatF64).value;
    if |group| > 0 {
      SplitRowsBack(body.rows, group, image, names, parseF64, task, envelope, formatF64);
    }
  }

  /** The rows read back from a non-empty group's split are its unscored annotations' rows, then its scored ones'. */
  lemma SplitRowsBack(rows: seq<LS.ParsedRow>, group: seq<Annotation>, image: Image, names: map<nat, string>,
                      parseF64: F64Parser, task: nat, envelope: LS.Envelope, formatF64: LS.F64Formatter)
    requires |group| > 0 && LSWF.NamesKnown(group, names)
    requires SplitResults(group, image, names, ResultMakerOf(image, FromNameOf(image), ToNameOf(image), parseF64)).Ok?
    requires var split := SplitResults(group, image, names, ResultMakerOf(image, FromNameOf(image), ToNameOf(image), parseF64)).value;
      && |rows| == |split.0| + |split.1|
      && ReadAlone(rows[..|split.0|], split.0, task, LS.AnnotationResults, envelope, formatF64)
      && ReadAlone(rows[|split.0|..], split.1, task, LS.PredictionResults, envelope, formatF64)
    ensures |Seqs.Filter(group, LSWF.Unscored())| <= |rows|
    ensures RowsBack(rows[..|Seqs.Filter(group, LSWF.Unscored())|], Seqs.Filter(group, LSWF.Unscored()), names, parseF64)
    ensures RowsBack(rows[|Seqs.Filter(group, LSWF.Unscored())|..], Seqs.Filter(group, LSWF.Scored()), names, parseF64)
  {
    var fromName, toName := FromNameOf(image), ToNameOf(image);
    var mk := ResultMakerOf(image, fromName, toName, parseF64);
    var split := SplitResults(group, image, names, mk).value;
    LSWF.SplitCases(group, image, names, mk);
    LSWF.SplitContents(group, image, names, mk);
    RowsBackFromResults(rows[..|split.0|], split.0, Seqs.Filter(group, LSWF.Unscored()), image, fromName, toName,
                        names, parseF64, task, LS.AnnotationResults, envelope, formatF64);
    RowsBackFromResults(rows[|split.0|..], split.1, Seqs.Filter(group, LSWF.Scored()), image, fromName, toName,
                        names, parseF64, task, LS.PredictionResults, envelope, formatF64);
  }
}
