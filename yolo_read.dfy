// `read_yolo_dir` (src/ir/io_yolo.rs): images listed from `images/` get IDs
// 1..n in relative-path order, class names become categories 1..k, and the
// label files, in relative-path order, become annotations numbered from 1.
// Walking the directories, reading image headers and locating the image
// beside each label file are file-system work: their results are inputs.
// `from_cxcywh` is not part of this model; it is the parameter `fromCxcywh`.
module YoloRead {
  import opened Wrappers
  import opened BBoxes
  import opened Ir
  import opened StrOrder
  import opened Sorting
  import opened YoloLabels
  import Seqs

  /** An image file found under `images/`: its relative path and pixel size. */
  datatype ImageFile = ImageFile(rel: string, width: nat, height: nat)

  /** A label file: its relative path, the image found for it (if any) and its lines. */
  datatype LabelFile = LabelFile(rel: string, image: Option<string>, lines: seq<string>)

  datatype ImageMeta = ImageMeta(id: nat, width: nat, height: nat)

  datatype YoloError =
    | ImageNotFound(lf: string)
    | LabelParse(lf: string, line: nat, error: LineError)
    | ClassIdOutOfRange(lf: string, line: nat, classId: nat, classCount: nat)

  /** How one line of a label file is read; the reader uses `ParseLabelLine`. */
  type LineParser = string -> Result<Option<LabelRow>, LineError>

  /** `parse_label_line` with the number parser fixed. */
  function LabelLineParser(parseF64: string -> Option<real>): (parse: LineParser)
    ensures forall line :: parse(line) == ParseLabelLine(line, parseF64)
  {
    line => ParseLabelLine(line, parseF64)
  }

  predicate ImageRelLe(a: ImageFile, b: ImageFile) { Le(a.rel, b.rel) }

  predicate LabelRelLe(a: LabelFile, b: LabelFile) { Le(a.rel, b.rel) }

  /** Image `k` of the sorted listing gets ID `k + 1`. */
  function ImagesOf(sorted: seq<ImageFile>): (images: seq<Image>)
    ensures |images| == |sorted|
    ensures forall k :: 0 <= k < |sorted| ==>
      images[k] == NewImage(k + 1, sorted[k].rel, sorted[k].width, sorted[k].height)
  {
    seq(|sorted|, k requires 0 <= k < |sorted| => NewImage(k + 1, sorted[k].rel, sorted[k].width, sorted[k].height))
  }

  /** The `BTreeMap` from relative path to image: a later path overwrites an earlier one. */
  function LookupOf(sorted: seq<ImageFile>): map<string, ImageMeta> {
    if |sorted| == 0 then map[]
    else
      var last := sorted[|sorted| - 1];
      LookupOf(sorted[..|sorted| - 1])[last.rel := ImageMeta(|sorted|, last.width, last.height)]
  }

  /** Every looked-up image is the listed image its ID names. */
  lemma {:induction false} LookupOfSound(sorted: seq<ImageFile>, rel: string)
    requires rel in LookupOf(sorted)
    ensures 1 <= LookupOf(sorted)[rel].id <= |sorted|
    ensures var m := LookupOf(sorted)[rel];
      sorted[m.id - 1] == ImageFile(rel, m.width, m.height)
  {
    if sorted[|sorted| - 1].rel != rel {
      var pre := sorted[..|sorted| - 1];
      LookupOfSound(pre, rel);
      assert sorted[LookupOf(pre)[rel].id - 1] == pre[LookupOf(pre)[rel].id - 1];
    }
  }

  /** Class name `i` becomes category `i + 1`. */
  function CategoriesOf(names: seq<string>): (categories: seq<Category>)
    ensures |categories| == |names|
    ensures forall i :: 0 <= i < |names| ==> categories[i] == NewCategory(i + 1, names[i])
  {
    seq(|names|, i requires 0 <= i < |names| => NewCategory(i + 1, names[i]))
  }

  /**
   * Line `j` of a label file: skipped when blank, an error when it does not
   * parse or names a class outside the class map, else annotation `id` on
   * the label's image, with category `class_id + 1`.
   */
  function LineStep(lf: string, j: nat, line: string, meta: ImageMeta, classCount: nat, id: nat,
                    parse: LineParser,
                    fromCxcywh: (real, real, real, real) -> BBox): (r: Result<Option<Annotation>, YoloError>)
  {
    match parse(line)
    case Err(e) => Err(LabelParse(lf, j + 1, e))
    case Ok(None) => Ok(None)
    case Ok(Some(row)) =>
      if row.classId >= classCount then Err(ClassIdOutOfRange(lf, j + 1, row.classId, classCount))
      else
        var normalized := fromCxcywh(row.cx, row.cy, row.w, row.h);
        Ok(Some(NewAnnotation(id, meta.id, row.classId + 1,
                              ToPixel(normalized, meta.width as real, meta.height as real))))
  }

  /** A class index at or beyond the number of names is an error; otherwise the category is `class_id + 1`. */
  lemma ClassIdRule(lf: string, j: nat, line: string, meta: ImageMeta, classCount: nat, id: nat,
                    parse: LineParser, fromCxcywh: (real, real, real, real) -> BBox)
    requires parse(line).Ok? && parse(line).value.Some?
    ensures var row := parse(line).value.value;
      row.classId >= classCount ==>
        LineStep(lf, j, line, meta, classCount, id, parse, fromCxcywh)
          == Err(ClassIdOutOfRange(lf, j + 1, row.classId, classCount))
    ensures var row := parse(line).value.value;
      row.classId < classCount ==>
        LineStep(lf, j, line, meta, classCount, id, parse, fromCxcywh).Ok?
        && LineStep(lf, j, line, meta, classCount, id, parse, fromCxcywh).value.Some?
        && LineStep(lf, j, line, meta, classCount, id, parse, fromCxcywh).value.value.categoryId
          == row.classId + 1
  {
  }

  /** The annotations of the first `|lines|` lines of a label file, numbered from `firstId`. */
  function ReadLines(lf: string, lines: seq<string>, meta: ImageMeta, classCount: nat, firstId: nat,
                     parse: LineParser,
                     fromCxcywh: (real, real, real, real) -> BBox): Result<seq<Annotation>, YoloError>
  {
    if |lines| == 0 then Ok([])
    else
      match ReadLines(lf, lines[..|lines| - 1], meta, classCount, firstId, parse, fromCxcywh)
      case Err(e) => Err(e)
      case Ok(prev) =>
        match LineStep(lf, |lines| - 1, lines[|lines| - 1], meta, classCount, firstId + |prev|, parse, fromCxcywh)
        case Err(e) => Err(e)
        case Ok(None) => Ok(prev)
        case Ok(Some(a)) => Ok(prev + [a])
  }

  /** Once a prefix of the lines fails, the whole file fails with the same error. */
  lemma {:induction false} ReadLinesErr(lf: string, lines: seq<string>, j: nat, meta: ImageMeta, classCount: nat,
                                        firstId: nat, parse: LineParser,
                                        fromCxcywh: (real, real, real, real) -> BBox)
    requires j <= |lines| && ReadLines(lf, lines[..j], meta, classCount, firstId, parse, fromCxcywh).Err?
    ensures ReadLines(lf, lines, meta, classCount, firstId, parse, fromCxcywh)
      == ReadLines(lf, lines[..j], meta, classCount, firstId, parse, fromCxcywh)
    decreases |lines|
  {
    if j < |lines| {
      assert lines[..|lines| - 1][..j] == lines[..j];
      ReadLinesErr(lf, lines[..|lines| - 1], j, meta, classCount, firstId, parse, fromCxcywh);
    } else {
      assert lines[..j] == lines;
    }
  }

  /** Consecutive IDs from `firstId`, all on image `imageId`, categories in `1..=classCount`. */
  predicate LinesShaped(anns: seq<Annotation>, firstId: nat, imageId: nat, classCount: nat) {
    forall k :: 0 <= k < |anns| ==>
      anns[k].id == firstId + k && anns[k].imageId == imageId && 1 <= anns[k].categoryId <= classCount
  }

  /**
   * The lines of one label file produce annotations with consecutive IDs
   * from `firstId`, all on the label's image, with categories in
   * `1..=classCount`.
   */
  lemma {:induction false} ReadLinesShape(lf: string, lines: seq<string>, meta: ImageMeta, classCount: nat,
                                          firstId: nat, parse: LineParser,
                                          fromCxcywh: (real, real, real, real) -> BBox)
    requires ReadLines(lf, lines, meta, classCount, firstId, parse, fromCxcywh).Ok?
    ensures LinesShaped(ReadLines(lf, lines, meta, classCount, firstId, parse, fromCxcywh).value,
                        firstId, meta.id, classCount)
  {
    if |lines| > 0 {
      ReadLinesShape(lf, lines[..|lines| - 1], meta, classCount, firstId, parse, fromCxcywh);
    }
  }

  /** The image a label file annotates, or `ImageNotFound`. */
  function LabelImage(lf: LabelFile, lookup: map<string, ImageMeta>): (r: Result<ImageMeta, YoloError>)
    ensures r.Ok? <==> lf.image.Some? && lf.image.value in lookup
    ensures r.Ok? ==> r.value == lookup[lf.image.value]
    ensures r.Err? ==> r.error == ImageNotFound(lf.rel)
  {
    if lf.image.Some? && lf.image.value in lookup then Ok(lookup[lf.image.value])
    else Err(ImageNotFound(lf.rel))
  }

  /** The annotations of the first `|labels|` label files, numbered from 1 across files. */
  function ReadLabels(labels: seq<LabelFile>, lookup: map<string, ImageMeta>, classCount: nat,
                      parse: LineParser,
                      fromCxcywh: (real, real, real, real) -> BBox): Result<seq<Annotation>, YoloError>
  {
    if |labels| == 0 then Ok([])
    else
      match ReadLabels(labels[..|labels| - 1], lookup, classCount, parse, fromCxcywh)
      case Err(e) => Err(e)
      case Ok(prev) => ReadLabelFile(prev, labels[|labels| - 1], lookup, classCount, parse, fromCxcywh)
  }

  /** One label file after the annotations `prev`: its image is looked up and its lines numbered on. */
  function ReadLabelFile(prev: seq<Annotation>, lf: LabelFile, lookup: map<string, ImageMeta>, classCount: nat,
                         parse: LineParser,
                         fromCxcywh: (real, real, real, real) -> BBox): Result<seq<Annotation>, YoloError>
  {
    match LabelImage(lf, lookup)
    case Err(e) => Err(e)
    case Ok(meta) =>
      match ReadLines(lf.rel, lf.lines, meta, classCount, |prev| + 1, parse, fromCxcywh)
      case Err(e) => Err(e)
      case Ok(more) => Ok(prev + more)
  }

  lemma ReadLabelsSnoc(labels: seq<LabelFile>, i: nat, lookup: map<string, ImageMeta>, classCount: nat,
                       parse: LineParser, fromCxcywh: (real, real, real, real) -> BBox,
                       prev: seq<Annotation>)
    requires i < |labels| && ReadLabels(labels[..i], lookup, classCount, parse, fromCxcywh) == Ok(prev)
    ensures ReadLabels(labels[..i + 1], lookup, classCount, parse, fromCxcywh)
      == ReadLabelFile(prev, labels[i], lookup, classCount, parse, fromCxcywh)
  {
    assert labels[..i + 1][..i] == labels[..i];
  }

  lemma {:induction false} ReadLabelsErr(labels: seq<LabelFile>, i: nat, lookup: map<string, ImageMeta>,
                                         classCount: nat, parse: LineParser,
                                         fromCxcywh: (real, real, real, real) -> BBox)
    requires i <= |labels| && ReadLabels(labels[..i], lookup, classCount, parse, fromCxcywh).Err?
    ensures ReadLabels(labels, lookup, classCount, parse, fromCxcywh)
      == ReadLabels(labels[..i], lookup, classCount, parse, fromCxcywh)
    decreases |labels|
  {
    if i < |labels| {
      assert labels[..|labels| - 1][..i] == labels[..i];
      ReadLabelsErr(labels[..|labels| - 1], i, lookup, classCount, parse, fromCxcywh);
    } else {
      assert labels[..i] == labels;
    }
  }

  /** IDs `1..=m`, images among `1..=imageCount`, categories among `1..=classCount`. */
  predicate LabelsShaped(anns: seq<Annotation>, imageCount: nat, classCount: nat) {
    forall k :: 0 <= k < |anns| ==>
      anns[k].id == k + 1 && 1 <= anns[k].imageId <= imageCount && 1 <= anns[k].categoryId <= classCount
  }

  /** Every image in the lookup has an ID among `1..=imageCount`. */
  predicate LookupBounded(lookup: map<string, ImageMeta>, imageCount: nat) {
    forall rel :: rel in lookup ==> 1 <= lookup[rel].id <= imageCount
  }

  /**
   * Across all label files the annotation IDs are exactly `1..=m`, each
   * annotation's image is one the lookup holds and its category is in
   * `1..=classCount`.
   */
  lemma {:induction false} ReadLabelsShape(labels: seq<LabelFile>, lookup: map<string, ImageMeta>, imageCount: nat,
                                           classCount: nat, parse: LineParser,
                                           fromCxcywh: (real, real, real, real) -> BBox)
    requires LookupBounded(lookup, imageCount)
    requires ReadLabels(labels, lookup, classCount, parse, fromCxcywh).Ok?
    ensures LabelsShaped(ReadLabels(labels, lookup, classCount, parse, fromCxcywh).value, imageCount, classCount)
  {
    if |labels| > 0 {
      var pre := labels[..|labels| - 1];
      ReadLabelsShape(pre, lookup, imageCount, classCount, parse, fromCxcywh);
      var prev := ReadLabels(pre, lookup, classCount, parse, fromCxcywh).value;
      var lf := labels[|labels| - 1];
      var meta := LabelImage(lf, lookup).value;
      ReadLinesShape(lf.rel, lf.lines, meta, classCount, |prev| + 1, parse, fromCxcywh);
      var more := ReadLines(lf.rel, lf.lines, meta, classCount, |prev| + 1, parse, fromCxcywh).value;
      ShapedAppend(prev, more, imageCount, classCount, meta.id);
    }
  }

  lemma ShapedAppend(prev: seq<Annotation>, more: seq<Annotation>, imageCount: nat, classCount: nat, imageId: nat)
    requires LabelsShaped(prev, imageCount, classCount)
    requires LinesShaped(more, |prev| + 1, imageId, classCount) && 1 <= imageId <= imageCount
    ensures LabelsShaped(prev + more, imageCount, classCount)
  {
    var anns := prev + more;
    forall k | 0 <= k < |anns|
      ensures anns[k].id == k + 1 && 1 <= anns[k].imageId <= imageCount && 1 <= anns[k].categoryId <= classCount
    {
      if k < |prev| {
        assert anns[k] == prev[k];
      } else {
        assert anns[k] == more[k - |prev|];
      }
    }
  }

  /** Image files in ascending order of relative path, as `sort_by` leaves them. */
  function SortedImages(imageFiles: seq<ImageFile>): seq<ImageFile> {
    SortBy(imageFiles, ImageRelLe)
  }

  /** The whole of `read_yolo_dir` as a value: images, categories, then annotations. */
  function YoloToIr(imageFiles: seq<ImageFile>, classNames: seq<string>, labelFiles: seq<LabelFile>,
                    parse: LineParser,
                    fromCxcywh: (real, real, real, real) -> BBox): Result<Dataset, YoloError>
  {
    var sorted := SortedImages(imageFiles);
    match ReadLabels(SortBy(labelFiles, LabelRelLe), LookupOf(sorted), |classNames|, parse, fromCxcywh)
    case Err(e) => Err(e)
    case Ok(anns) => Ok(Dataset(DefaultInfo(), [], ImagesOf(sorted), CategoriesOf(classNames), anns))
  }

  /** Steps one label file's lines, numbering rows from `firstId`. */
  method ReadLabelLines(lf: LabelFile, meta: ImageMeta, classCount: nat, firstId: nat,
                        parse: LineParser, fromCxcywh: (real, real, real, real) -> BBox)
    returns (r: Result<seq<Annotation>, YoloError>)
    ensures r == ReadLines(lf.rel, lf.lines, meta, classCount, firstId, parse, fromCxcywh)
  {
    var annotations: seq<Annotation> := [];
    var nextId := firstId;
    for j := 0 to |lf.lines|
      invariant ReadLines(lf.rel, lf.lines[..j], meta, classCount, firstId, parse, fromCxcywh)
        == Ok(annotations)
      invariant nextId == firstId + |annotations|
    {
      assert lf.lines[..j + 1][..j] == lf.lines[..j];
      var step := LineStep(lf.rel, j, lf.lines[j], meta, classCount, nextId, parse, fromCxcywh);
      if step.Err? {
        ReadLinesErr(lf.rel, lf.lines, j + 1, meta, classCount, firstId, parse, fromCxcywh);
        return Err(step.error);
      }
      if step.value.Some? {
        annotations := annotations + [step.value.value];
        nextId := nextId + 1;
      }
    }
    assert lf.lines[..|lf.lines|] == lf.lines;
    return Ok(annotations);
  }

  /** Numbers the sorted images from 1 and records each by relative path. */
  method ListImages(sorted: seq<ImageFile>) returns (images: seq<Image>, lookup: map<string, ImageMeta>)
    ensures images == ImagesOf(sorted) && lookup == LookupOf(sorted)
  {
    images := [];
    lookup := map[];
    for index := 0 to |sorted|
      invariant images == ImagesOf(sorted[..index])
      invariant lookup == LookupOf(sorted[..index])
    {
      var file := sorted[index];
      assert sorted[..index + 1][..index] == sorted[..index];
      images := images + [NewImage(index + 1, file.rel, file.width, file.height)];
      lookup := lookup[file.rel := ImageMeta(index + 1, file.width, file.height)];
    }
    assert sorted[..|sorted|] == sorted;
  }

  /** Walks the sorted label files with a running annotation ID; the first failure is the result. */
  method ReadLabelFiles(labels: seq<LabelFile>, lookup: map<string, ImageMeta>, classCount: nat,
                        parse: LineParser, fromCxcywh: (real, real, real, real) -> BBox)
    returns (r: Result<seq<Annotation>, YoloError>)
    ensures r == ReadLabels(labels, lookup, classCount, parse, fromCxcywh)
  {
    var annotations: seq<Annotation> := [];
    var nextId := 1;
    for i := 0 to |labels|
      invariant ReadLabels(labels[..i], lookup, classCount, parse, fromCxcywh) == Ok(annotations)
      invariant nextId == |annotations| + 1
    {
      ReadLabelsSnoc(labels, i, lookup, classCount, parse, fromCxcywh, annotations);
      var lf := labels[i];
      if lf.image.None? || lf.image.value !in lookup {
        ReadLabelsErr(labels, i + 1, lookup, classCount, parse, fromCxcywh);
        return Err(ImageNotFound(lf.rel));
      }
      var meta := lookup[lf.image.value];
      var more := ReadLabelLines(lf, meta, classCount, nextId, parse, fromCxcywh);
      if more.Err? {
        ReadLabelsErr(labels, i + 1, lookup, classCount, parse, fromCxcywh);
        return Err(more.error);
      }
      annotations := annotations + more.value;
      nextId := nextId + |more.value|;
    }
    assert labels[..|labels|] == labels;
    return Ok(annotations);
  }

  /**
   * `read_yolo_dir`: numbers the sorted images and records them by path,
   * turns class names into categories, then reads the sorted label files.
   */
  method ReadYoloDir(imageFiles: seq<ImageFile>, classNames: seq<string>, labelFiles: seq<LabelFile>,
                     parseF64: string -> Option<real>, fromCxcywh: (real, real, real, real) -> BBox)
    returns (r: Result<Dataset, YoloError>)
    ensures r == YoloToIr(imageFiles, classNames, labelFiles, LabelLineParser(parseF64), fromCxcywh)
  {
    var images, lookup := ListImages(SortedImages(imageFiles));
    var categories := CategoriesOf(classNames);
    var annotations := ReadLabelFiles(SortBy(labelFiles, LabelRelLe), lookup, |classNames|,
                                      LabelLineParser(parseF64), fromCxcywh);
    if annotations.Err? {
      return Err(annotations.error);
    }
    return Ok(Dataset(DefaultInfo(), [], images, categories, annotations.value));
  }

  /** The relative paths of a listing, in its order. */
  function Rels(files: seq<ImageFile>): seq<string> {
    Seqs.Map(files, (f: ImageFile) => f.rel)
  }

  /**
   * The images are the listed files, each once, in ascending path order,
   * with IDs `1..=n`.
   */
  lemma SortedImagesOrder(imageFiles: seq<ImageFile>)
    ensures |ImagesOf(SortedImages(imageFiles))| == |imageFiles|
    ensures multiset(ImageFileNames(ImagesOf(SortedImages(imageFiles)))) == multiset(Rels(imageFiles))
    ensures SortedBy(ImageFileNames(ImagesOf(SortedImages(imageFiles))), Le)
    ensures forall k :: 0 <= k < |imageFiles| ==> ImagesOf(SortedImages(imageFiles))[k].id == k + 1
  {
    var sorted := SortedImages(imageFiles);
    StringKeyPreorder(ImageRelLe, (f: ImageFile) => f.rel);
    SortBySorted(imageFiles, ImageRelLe);
    var names := ImageFileNames(ImagesOf(sorted));
    assert names == Rels(sorted);
    Seqs.MapPermutation(sorted, imageFiles, (f: ImageFile) => f.rel);
  }

  /**
   * A successful read holds the listed images in path order with IDs
   * `1..=n`, and the class names as categories `1..=k` in class-index order.
   */
  lemma YoloImagesAndCategories(imageFiles: seq<ImageFile>, classNames: seq<string>, labelFiles: seq<LabelFile>,
                                parse: LineParser, fromCxcywh: (real, real, real, real) -> BBox)
    requires YoloToIr(imageFiles, classNames, labelFiles, parse, fromCxcywh).Ok?
    ensures multiset(ImageFileNames(YoloToIr(imageFiles, classNames, labelFiles, parse, fromCxcywh).value.images))
      == multiset(Rels(imageFiles))
    ensures SortedBy(ImageFileNames(YoloToIr(imageFiles, classNames, labelFiles, parse, fromCxcywh).value.images), Le)
    ensures |YoloToIr(imageFiles, classNames, labelFiles, parse, fromCxcywh).value.images| == |imageFiles|
    ensures forall k :: 0 <= k < |imageFiles| ==>
      YoloToIr(imageFiles, classNames, labelFiles, parse, fromCxcywh).value.images[k].id == k + 1
    ensures forall i :: 0 <= i < |classNames| ==>
      YoloToIr(imageFiles, classNames, labelFiles, parse, fromCxcywh).value.categories[i]
        == NewCategory(i + 1, classNames[i])
    ensures |YoloToIr(imageFiles, classNames, labelFiles, parse, fromCxcywh).value.categories| == |classNames|
  {
    var d := YoloToIr(imageFiles, classNames, labelFiles, parse, fromCxcywh).value;
    assert d.images == ImagesOf(SortedImages(imageFiles));
    assert d.categories == CategoriesOf(classNames);
    SortedImagesOrder(imageFiles);
  }

  /**
   * The annotations are numbered `1..=m`, each on one of the dataset's
   * images and with a category among `1..=k`.
   */
  lemma YoloAnnotationsResolve(imageFiles: seq<ImageFile>, classNames: seq<string>, labelFiles: seq<LabelFile>,
                               parse: LineParser, fromCxcywh: (real, real, real, real) -> BBox)
    requires YoloToIr(imageFiles, classNames, labelFiles, parse, fromCxcywh).Ok?
    ensures AnnotationsResolve(YoloToIr(imageFiles, classNames, labelFiles, parse, fromCxcywh).value)
  {
    var sorted := SortedImages(imageFiles);
    var lookup := LookupOf(sorted);
    forall rel | rel in lookup ensures 1 <= lookup[rel].id <= |sorted| {
      LookupOfSound(sorted, rel);
    }
    ReadLabelsShape(SortBy(labelFiles, LabelRelLe), lookup, |sorted|, |classNames|, parse, fromCxcywh);
    var d := YoloToIr(imageFiles, classNames, labelFiles, parse, fromCxcywh).value;
    ShapedResolves(d);
  }

  /** Annotation `k` has ID `k + 1` and refers to an image and a category the dataset holds. */
  predicate AnnotationsResolve(d: Dataset) {
    forall k :: 0 <= k < |d.annotations| ==>
      d.annotations[k].id == k + 1 && HasImage(d, d.annotations[k].imageId)
      && HasCategory(d, d.annotations[k].categoryId)
  }

  lemma ShapedResolves(d: Dataset)
    requires LabelsShaped(d.annotations, |d.images|, |d.categories|)
    requires forall k :: 0 <= k < |d.images| ==> d.images[k].id == k + 1
    requires forall k :: 0 <= k < |d.categories| ==> d.categories[k].id == k + 1
    ensures AnnotationsResolve(d)
  {
    forall k | 0 <= k < |d.annotations|
      ensures HasImage(d, d.annotations[k].imageId) && HasCategory(d, d.annotations[k].categoryId)
    {
      var id := d.annotations[k].imageId;
      assert ImageIds(d.images)[id - 1] == id;
      var c := d.annotations[k].categoryId;
      assert CategoryIds(d.categories)[c - 1] == c;
    }
  }
}
