// The Label Studio writer (src/ir/io_label_studio_json.rs, `ir_to_ls`): an
// IR dataset becomes one task per image, in file-name order, each result
// holding its box in percent of the image size; scored annotations become
// predictions, the others annotations.
module LabelStudioWrite {
  import opened Wrappers
  import opened BBoxes
  import opened Ir
  import opened Sorting
  import opened Grouping
  import LS = LabelStudio

  /** `str::parse::<f64>`, left abstract: `None` for text that is not a number. */
  type F64Parser = string -> Option<real>

  /** The writer's `LabelStudioJsonInvalid` messages, one constructor per check. */
  datatype LsWriteError =
    | Reference(error: WriteError)
    | InvalidImageRef(fileName: string, imageRef: string)
    | DuplicateOutputBasename(basename: string)
    | InternalMissingRef(imageId: nat)
    | InternalMissingCategory(categoryId: nat)
    | ZeroDimensions(fileName: string, annotationId: nat)

  /** Every result is written with type `rectanglelabels`. */
  const ResultType: string := "rectanglelabels"

  /** A written result: its rectangle in percent, its one label, the image size and the control names. */
  datatype ResultOut = ResultOut(
    x: real, y: real, width: real, height: real,
    labels: seq<string>,
    originalWidth: nat,
    originalHeight: nat,
    fromName: string,
    toName: string,
    rotation: Option<real>,
    score: Option<real>)

  /** A written task; an empty list of result sets is left out of the JSON. */
  datatype TaskOut = TaskOut(id: nat, image: string, width: nat, height: nat,
                             annotations: seq<seq<ResultOut>>, predictions: seq<seq<ResultOut>>)

  // ------------------------------------------------------------ image references

  /** The image reference written for `image`: its `ls_image_ref`, or else its file name. */
  function ImageRef(image: Image): string {
    if "ls_image_ref" in image.attributes then image.attributes["ls_image_ref"] else image.fileName
  }

  /** Derives an image's basename; stands for `BasenameOf` inside the pass. */
  type Namer = Image -> Option<string>

  /** The basename of an image's reference. */
  function BasenameOf(image: Image): Option<string> {
    LS.DeriveImageFileName(ImageRef(image))
  }

  function NamerOf(): (basename: Namer)
    ensures forall image :: basename(image) == BasenameOf(image)
  {
    (image: Image) => BasenameOf(image)
  }

  /**
   * The basename pass over the images in dataset order: each reference must
   * give a basename, no two the same. Yields the reference by image ID
   * (a later image with the same ID overwrites) and the basenames seen.
   */
  function ScanRefs(images: seq<Image>, basename: Namer): Result<(map<nat, string>, set<string>), LsWriteError> {
    if |images| == 0 then Ok((map[], {}))
    else
      match ScanRefs(images[..|images| - 1], basename)
      case Err(e) => Err(e)
      case Ok(done) =>
        var image := images[|images| - 1];
        var imageRef := ImageRef(image);
        match basename(image)
        case None => Err(InvalidImageRef(image.fileName, imageRef))
        case Some(basename) =>
          if basename in done.1 then Err(DuplicateOutputBasename(basename))
          else Ok((done.0[image.id := imageRef], done.1 + {basename}))
  }

  // ------------------------------------------------------------ results

  /** The attribute `key`, or `default` when absent. */
  function AttrOr(attrs: map<string, string>, key: string, default: string): string {
    if key in attrs then attrs[key] else default
  }

  function FromNameOf(image: Image): string { AttrOr(image.attributes, "ls_from_name", "label") }

  function ToNameOf(image: Image): string { AttrOr(image.attributes, "ls_to_name", "image") }

  /** The rotation written: the `ls_rotation_deg` attribute when it parses as a number. */
  function RotationOf(a: Annotation, parseF64: F64Parser): Option<real> {
    if "ls_rotation_deg" in a.attributes then parseF64(a.attributes["ls_rotation_deg"]) else None
  }

  /** One annotation as a result, given its category name and its box in percent. */
  function ResultOf(a: Annotation, labelName: string, p: LS.Percent, image: Image, fromName: string, toName: string,
                    parseF64: F64Parser): ResultOut
  {
    ResultOut(p.x, p.y, p.width, p.height, [labelName], image.width, image.height, fromName, toName,
              RotationOf(a, parseF64), a.confidence)
  }

  type ResultMaker = (Annotation, string, LS.Percent) -> ResultOut

  function ResultMakerOf(image: Image, fromName: string, toName: string, parseF64: F64Parser): (mk: ResultMaker)
    ensures forall a, labelName, p :: mk(a, labelName, p) == ResultOf(a, labelName, p, image, fromName, toName, parseF64)
  {
    (a: Annotation, labelName: string, p: LS.Percent) => ResultOf(a, labelName, p, image, fromName, toName, parseF64)
  }

  /**
   * An image's annotations as results, in order, split into the annotation
   * results (no confidence) and the prediction results (a confidence). A
   * category without a name is an internal error; an image of zero width or
   * height cannot hold a box in percent.
   */
  function SplitResults(group: seq<Annotation>, image: Image, names: map<nat, string>, mk: ResultMaker)
    : (r: Result<(seq<ResultOut>, seq<ResultOut>), LsWriteError>)
    ensures r.Ok? ==> |r.value.0| + |r.value.1| == |group|
  {
    if |group| == 0 then Ok(([], []))
    else
      match SplitResults(group[..|group| - 1], image, names, mk)
      case Err(e) => Err(e)
      case Ok(done) =>
        var a := group[|group| - 1];
        if a.categoryId !in names then Err(InternalMissingCategory(a.categoryId))
        else
          match LS.PixelToPercent(a.bbox, image.width, image.height)
          case None => Err(ZeroDimensions(image.fileName, a.id))
          case Some(p) =>
            var res := mk(a, names[a.categoryId], p);
            if a.confidence.Some? then Ok((done.0, done.1 + [res])) else Ok((done.0 + [res], done.1))
  }

  // ------------------------------------------------------------ tasks

  /** A list of results as a list of result sets: none when empty, otherwise one. */
  function SetsOf(results: seq<ResultOut>): (sets: seq<seq<ResultOut>>)
    ensures results == [] ==> sets == []
    ensures results != [] ==> sets == [results]
  {
    if results == [] then [] else [results]
  }

  /** The `idx`-th image in file-name order as task `idx + 1`. */
  function TaskOf(idx: nat, image: Image, imageRef: string, split: (seq<ResultOut>, seq<ResultOut>)): TaskOut {
    TaskOut(idx + 1, imageRef, image.width, image.height, SetsOf(split.0), SetsOf(split.1))
  }

  /** One task: its reference, then its results from the image's group, taken by ascending ID. */
  function TaskFor(idx: nat, image: Image, byImage: map<nat, seq<Annotation>>, refs: map<nat, string>,
                   names: map<nat, string>, parseF64: F64Parser): Result<TaskOut, LsWriteError>
  {
    if image.id !in refs then Err(InternalMissingRef(image.id))
    else
      match SplitResults(GroupOf(image, byImage), image, names,
                         ResultMakerOf(image, FromNameOf(image), ToNameOf(image), parseF64))
      case Err(e) => Err(e)
      case Ok(split) => Ok(TaskOf(idx, image, refs[image.id], split))
  }

  type TaskMaker = (nat, Image, map<nat, seq<Annotation>>) -> Result<TaskOut, LsWriteError>

  function TaskMakerOf(refs: map<nat, string>, names: map<nat, string>, parseF64: F64Parser): (mk: TaskMaker)
    ensures forall idx, image, byImage :: mk(idx, image, byImage) == TaskFor(idx, image, byImage, refs, names, parseF64)
  {
    (idx: nat, image: Image, byImage: map<nat, seq<Annotation>>) => TaskFor(idx, image, byImage, refs, names, parseF64)
  }

  /** `xs` followed by the list of `r`, or the error of `r`. */
  function Prepend<T>(xs: seq<T>, r: Result<seq<T>, LsWriteError>): Result<seq<T>, LsWriteError> {
    match r
    case Err(e) => Err(e)
    case Ok(rest) => Ok(xs + rest)
  }

  /**
   * The tasks of `images`, numbered from `idx`. Each image takes its group
   * out of the map (`remove`), so a later image with the same ID gets no
   * results.
   */
  function TasksFrom(images: seq<Image>, idx: nat, byImage: map<nat, seq<Annotation>>, mk: TaskMaker)
    : (r: Result<seq<TaskOut>, LsWriteError>)
    ensures r.Ok? ==> |r.value| == |images|
    decreases |images|
  {
    if |images| == 0 then Ok([])
    else
      match mk(idx, images[0], byImage)
      case Err(e) => Err(e)
      case Ok(task) => Prepend([task], TasksFrom(images[1..], idx + 1, Taken(byImage, images[0].id), mk))
  }

  /** `ir_to_ls`: the reference check while grouping, the basename pass, then one task per image. */
  function LsOutput(d: Dataset, parseF64: F64Parser): Result<seq<TaskOut>, LsWriteError> {
    var names := CategoryNameById(d.categories);
    match FirstRefError(d.annotations, ImageIds(d.images), names.Keys)
    case Some(e) => Err(Reference(e))
    case None =>
      match ScanRefs(d.images, NamerOf())
      case Err(e) => Err(e)
      case Ok(scan) => TasksFrom(SortedImages(d), 0, Group(d.annotations), TaskMakerOf(scan.0, names, parseF64))
  }

  // ------------------------------------------------------------ the writer's loops

  lemma ScanStep(images: seq<Image>, i: nat, basename: Namer)
    requires i < |images|
    ensures ScanRefs(images[..i + 1], basename) ==
      match ScanRefs(images[..i], basename)
      case Err(e) => Err(e)
      case Ok(done) =>
        match basename(images[i])
        case None => Err(InvalidImageRef(images[i].fileName, ImageRef(images[i])))
        case Some(basename) =>
          if basename in done.1 then Err(DuplicateOutputBasename(basename))
          else Ok((done.0[images[i].id := ImageRef(images[i])], done.1 + {basename}))
  {
    assert images[..i + 1][..i] == images[..i];
  }

  lemma {:induction false} ScanErrPersists(images: seq<Image>, i: nat, basename: Namer)
    requires i <= |images| && ScanRefs(images[..i], basename).Err?
    ensures ScanRefs(images, basename) == ScanRefs(images[..i], basename)
    decreases |images|
  {
    if i < |images| {
      var pre := images[..|images| - 1];
      assert pre[..i] == images[..i];
      ScanErrPersists(pre, i, basename);
    } else {
      assert images[..i] == images;
    }
  }

  /** The loop filling `image_ref_by_id` and `seen_basenames`. */
  method CollectImageRefs(images: seq<Image>) returns (r: Result<(map<nat, string>, set<string>), LsWriteError>)
    ensures r == ScanRefs(images, NamerOf())
  {
    ghost var basename := NamerOf();
    var refs: map<nat, string> := map[];
    var seen: set<string> := {};
    assert images[..0] == [];
    for i := 0 to |images|
      invariant ScanRefs(images[..i], basename) == Ok((refs, seen))
    {
      ScanStep(images, i, basename);
      var image := images[i];
      var imageRef := ImageRef(image);
      var derived := LS.DeriveImageFileName(imageRef);
      if derived.None? {
        ScanErrPersists(images, i + 1, basename);
        return Err(InvalidImageRef(image.fileName, imageRef));
      }
      if derived.value in seen {
        ScanErrPersists(images, i + 1, basename);
        return Err(DuplicateOutputBasename(derived.value));
      }
      seen := seen + {derived.value};
      refs := refs[image.id := imageRef];
    }
    assert images[..|images|] == images;
    return Ok((refs, seen));
  }

  lemma SplitStep(group: seq<Annotation>, i: nat, image: Image, names: map<nat, string>, mk: ResultMaker)
    requires i < |group|
    ensures SplitResults(group[..i + 1], image, names, mk) ==
      match SplitResults(group[..i], image, names, mk)
      case Err(e) => Err(e)
      case Ok(done) =>
        if group[i].categoryId !in names then Err(InternalMissingCategory(group[i].categoryId))
        else
          match LS.PixelToPercent(group[i].bbox, image.width, image.height)
          case None => Err(ZeroDimensions(image.fileName, group[i].id))
          case Some(p) =>
            var res := mk(group[i], names[group[i].categoryId], p);
            if group[i].confidence.Some? then Ok((done.0, done.1 + [res])) else Ok((done.0 + [res], done.1))
  {
    assert group[..i + 1][..i] == group[..i];
  }

  lemma {:induction false} SplitErrPersists(group: seq<Annotation>, i: nat, image: Image, names: map<nat, string>,
                                            mk: ResultMaker)
    requires i <= |group| && SplitResults(group[..i], image, names, mk).Err?
    ensures SplitResults(group, image, names, mk) == SplitResults(group[..i], image, names, mk)
    decreases |group|
  {
    if i < |group| {
      var pre := group[..|group| - 1];
      assert pre[..i] == group[..i];
      SplitErrPersists(pre, i, image, names, mk);
    } else {
      assert group[..i] == group;
    }
  }

  /** The loop over one image's annotations, pushing each result onto one of two lists. */
  method WriteResults(group: seq<Annotation>, image: Image, fromName: string, toName: string,
                      names: map<nat, string>, parseF64: F64Parser)
    returns (r: Result<(seq<ResultOut>, seq<ResultOut>), LsWriteError>)
    ensures r == SplitResults(group, image, names, ResultMakerOf(image, fromName, toName, parseF64))
  {
    ghost var mk := ResultMakerOf(image, fromName, toName, parseF64);
    var annotationResults: seq<ResultOut> := [];
    var predictionResults: seq<ResultOut> := [];
    assert group[..0] == [];
    for i := 0 to |group|
      invariant SplitResults(group[..i], image, names, mk) == Ok((annotationResults, predictionResults))
    {
      SplitStep(group, i, image, names, mk);
      var a := group[i];
      if a.categoryId !in names {
        SplitErrPersists(group, i + 1, image, names, mk);
        return Err(InternalMissingCategory(a.categoryId));
      }
      var rotation := RotationOf(a, parseF64);
      var percent := LS.PixelToPercent(a.bbox, image.width, image.height);
      if percent.None? {
        SplitErrPersists(group, i + 1, image, names, mk);
        return Err(ZeroDimensions(image.fileName, a.id));
      }
      var p := percent.value;
      var result := ResultOut(p.x, p.y, p.width, p.height, [names[a.categoryId]], image.width, image.height,
                              fromName, toName, rotation, a.confidence);
      if a.confidence.Some? {
        predictionResults := predictionResults + [result];
      } else {
        annotationResults := annotationResults + [result];
      }
    }
    assert group[..|group|] == group;
    return Ok((annotationResults, predictionResults));
  }

  /** One task from its image and the groups not yet taken. */
  method WriteTask(idx: nat, image: Image, byImage: map<nat, seq<Annotation>>, refs: map<nat, string>,
                   names: map<nat, string>, parseF64: F64Parser)
    returns (r: Result<TaskOut, LsWriteError>)
    ensures r == TaskFor(idx, image, byImage, refs, names, parseF64)
  {
    if image.id !in refs {
      return Err(InternalMissingRef(image.id));
    }
    var imageRef := refs[image.id];
    var fromName := AttrOr(image.attributes, "ls_from_name", "label");
    var toName := AttrOr(image.attributes, "ls_to_name", "image");
    var group := GroupOf(image, byImage);
    var split := WriteResults(group, image, fromName, toName, names, parseF64);
    if split.Err? {
      return Err(split.error);
    }
    var annotations := if split.value.0 == [] then [] else [split.value.0];
    var predictions := if split.value.1 == [] then [] else [split.value.1];
    return Ok(TaskOut(idx + 1, imageRef, image.width, image.height, annotations, predictions));
  }

  lemma TasksFromStep(images: seq<Image>, i: nat, byImage: map<nat, seq<Annotation>>, mk: TaskMaker, task: TaskOut)
    requires i < |images| && mk(i, images[i], byImage) == Ok(task)
    ensures TasksFrom(images[i..], i, byImage, mk) ==
            Prepend([task], TasksFrom(images[i + 1..], i + 1, Taken(byImage, images[i].id), mk))
  {
    assert images[i..][0] == images[i] && images[i..][1..] == images[i + 1..];
  }

  lemma TasksFromFails(images: seq<Image>, i: nat, byImage: map<nat, seq<Annotation>>, mk: TaskMaker)
    requires i < |images| && mk(i, images[i], byImage).Err?
    ensures TasksFrom(images[i..], i, byImage, mk) == Err(mk(i, images[i], byImage).error)
  {
    assert images[i..][0] == images[i];
  }

  lemma PrependTwice(xs: seq<TaskOut>, x: TaskOut, r: Result<seq<TaskOut>, LsWriteError>)
    ensures Prepend(xs, Prepend([x], r)) == Prepend(xs + [x], r)
  {
    if r.Ok? {
      assert xs + ([x] + r.value) == (xs + [x]) + r.value;
    }
  }

  lemma PrependEmpty(r: Result<seq<TaskOut>, LsWriteError>)
    ensures Prepend([], r) == r
  {
    if r.Ok? {
      assert [] + r.value == r.value;
    }
  }

  /** The task loop: each image in file-name order takes its group out of the map. */
  method WriteTasks(images: seq<Image>, byImage: map<nat, seq<Annotation>>, refs: map<nat, string>,
                    names: map<nat, string>, parseF64: F64Parser)
    returns (r: Result<seq<TaskOut>, LsWriteError>)
    ensures r == TasksFrom(images, 0, byImage, TaskMakerOf(refs, names, parseF64))
  {
    ghost var mk := TaskMakerOf(refs, names, parseF64);
    var tasks: seq<TaskOut> := [];
    var remaining := byImage;
    assert images[0..] == images;
    PrependEmpty(TasksFrom(images, 0, byImage, mk));
    for i := 0 to |images|
      invariant Prepend(tasks, TasksFrom(images[i..], i, remaining, mk)) == TasksFrom(images, 0, byImage, mk)
    {
      var image := images[i];
      var task := WriteTask(i, image, remaining, refs, names, parseF64);
      if task.Err? {
        TasksFromFails(images, i, remaining, mk);
        return Err(task.error);
      }
      TasksFromStep(images, i, remaining, mk, task.value);
      PrependTwice(tasks, task.value, TasksFrom(images[i + 1..], i + 1, Taken(remaining, image.id), mk));
      tasks := tasks + [task.value];
      remaining := Taken(remaining, image.id);
    }
    assert images[|images|..] == [];
    assert tasks + [] == tasks;
    return Ok(tasks);
  }

  /** `ir_to_ls`: group with the reference check, collect the references, then write the tasks. */
  method IrToLs(d: Dataset, parseF64: F64Parser) returns (r: Result<seq<TaskOut>, LsWriteError>)
    ensures r == LsOutput(d, parseF64)
  {
    var names := CategoryNameById(d.categories);
    var grouped := GroupAnnotations(d.annotations, ImageIds(d.images), names.Keys);
    if grouped.Err? {
      return Err(Reference(grouped.error));
    }
    var scan := CollectImageRefs(d.images);
    if scan.Err? {
      return Err(scan.error);
    }
    r := WriteTasks(SortedImages(d), grouped.value, scan.value.0, names, parseF64);
  }
}
