// The Hugging Face ImageFolder adapter, writing side
// (src/ir/io_hf_imagefolder.rs, `write_hf_imagefolder_with_options`): after
// the reference check, one `metadata.jsonl` row per image in file-name
// order, each holding its annotations in ascending ID order as parallel
// `bbox` and `categories` arrays. Printing the JSON text is not modelled;
// a row is given as the JSON value that is printed.
module HfImagefolderWrite {
  import opened Wrappers
  import opened BBoxes
  import opened Ir
  import opened Sorting
  import opened Grouping
  import opened JsonValue
  import Hf = HfImagefolder

  /**
   * A box as written: its four numbers in the target format. A box with a
   * coordinate that is not finite is `None`: `serde_json` prints such a
   * coordinate as `null`.
   */
  type Written = Option<(real, real, real, real)>

  /** One row before it is printed. */
  datatype RowOut = RowOut(fileName: string, width: nat, height: nat, bboxes: seq<Written>, categories: seq<string>)

  /** A box's four numbers in the target format: `to_xywh`, or the corners. */
  function BoxValues(b: BBox, f: Hf.BboxFormat): (r: (real, real, real, real))
    ensures f.Xyxy? ==> r == (b.xmin, b.ymin, b.xmax, b.ymax)
    ensures f.Xywh? ==> r.0 == b.xmin && r.1 == b.ymin && r.0 + r.2 == b.xmax && r.1 + r.3 == b.ymax
  {
    match f
    case Xywh => ToXywh(b)
    case Xyxy => (b.xmin, b.ymin, b.xmax, b.ymax)
  }

  function WrittenBox(b: BBox, f: Hf.BboxFormat): Written {
    if b.finite then Some(BoxValues(b, f)) else None
  }

  /**
   * The objects of one image's group, annotation after annotation: its box
   * and its category's name. A category without a name is an error.
   */
  function ObjectsOf(group: seq<Annotation>, names: map<nat, string>, f: Hf.BboxFormat)
    : (r: Result<(seq<Written>, seq<string>), WriteError>)
    ensures r.Ok? ==> |r.value.0| == |group| && |r.value.1| == |group|
  {
    if |group| == 0 then Ok(([], []))
    else
      match ObjectsOf(group[..|group| - 1], names, f)
      case Err(e) => Err(e)
      case Ok(done) =>
        var a := group[|group| - 1];
        if a.categoryId !in names then Err(MissingCategory(a.id, a.categoryId))
        else Ok((done.0 + [WrittenBox(a.bbox, f)], done.1 + [names[a.categoryId]]))
  }

  /** The row of one image, from its group (taken by ascending ID). */
  function RowFor(image: Image, byImage: map<nat, seq<Annotation>>, names: map<nat, string>, f: Hf.BboxFormat)
    : Result<RowOut, WriteError>
  {
    match ObjectsOf(GroupOf(image, byImage), names, f)
    case Err(e) => Err(e)
    case Ok(objects) => Ok(RowOut(image.fileName, image.width, image.height, objects.0, objects.1))
  }

  /** `xs` followed by the list of `r`, or the error of `r`. */
  function Prepend(xs: seq<RowOut>, r: Result<seq<RowOut>, WriteError>): Result<seq<RowOut>, WriteError> {
    match r
    case Err(e) => Err(e)
    case Ok(rest) => Ok(xs + rest)
  }

  /**
   * The rows of `images` in turn. Each image takes its group out of the map
   * (`remove`), so a later image with the same ID has no objects.
   */
  function RowsFrom(images: seq<Image>, byImage: map<nat, seq<Annotation>>, names: map<nat, string>, f: Hf.BboxFormat)
    : (r: Result<seq<RowOut>, WriteError>)
    ensures r.Ok? ==> |r.value| == |images|
    decreases |images|
  {
    if |images| == 0 then Ok([])
    else
      match RowFor(images[0], byImage, names, f)
      case Err(e) => Err(e)
      case Ok(row) => Prepend([row], RowsFrom(images[1..], Taken(byImage, images[0].id), names, f))
  }

  /** The rows written for `d`: the reference check while grouping, then one row per image in file-name order. */
  function HfOutput(d: Dataset, f: Hf.BboxFormat): Result<seq<RowOut>, WriteError> {
    var names := CategoryNameById(d.categories);
    match FirstRefError(d.annotations, ImageIds(d.images), names.Keys)
    case Some(e) => Err(e)
    case None => RowsFrom(SortedImages(d), Group(d.annotations), names, f)
  }

  // ------------------------------------------------------------ the printed value

  /** A written number: `Value::from(f64)`. */
  function BoxJson(w: Written): Value {
    match w
    case None => Array([Null, Null, Null, Null])
    case Some(v) => Array([Num(Float(v.0)), Num(Float(v.1)), Num(Float(v.2)), Num(Float(v.3))])
  }

  function BoxesJson(bboxes: seq<Written>): (items: seq<Value>)
    ensures |items| == |bboxes| && forall k :: 0 <= k < |bboxes| ==> items[k] == BoxJson(bboxes[k])
  {
    seq(|bboxes|, k requires 0 <= k < |bboxes| => BoxJson(bboxes[k]))
  }

  function NamesJson(categories: seq<string>): (items: seq<Value>)
    ensures |items| == |categories| && forall k :: 0 <= k < |categories| ==> items[k] == Str(categories[k])
  {
    seq(|categories|, k requires 0 <= k < |categories| => Str(categories[k]))
  }

  /** The row as the JSON object printed on its line; a `Map` keeps its keys in ascending order. */
  function RowJson(row: RowOut): Value {
    Object([("file_name", Str(row.fileName)),
            ("height", Num(Int(row.height))),
            ("objects", Object([("bbox", Array(BoxesJson(row.bboxes))), ("categories", Array(NamesJson(row.categories)))])),
            ("width", Num(Int(row.width)))])
  }

  // ------------------------------------------------------------ the writer's loops

  lemma ObjectsStep(group: seq<Annotation>, i: nat, names: map<nat, string>, f: Hf.BboxFormat)
    requires i < |group|
    ensures ObjectsOf(group[..i + 1], names, f) ==
      match ObjectsOf(group[..i], names, f)
      case Err(e) => Err(e)
      case Ok(done) =>
        if group[i].categoryId !in names then Err(MissingCategory(group[i].id, group[i].categoryId))
        else Ok((done.0 + [WrittenBox(group[i].bbox, f)], done.1 + [names[group[i].categoryId]]))
  {
    assert group[..i + 1][..i] == group[..i];
  }

  lemma {:induction false} ObjectsErrPersists(group: seq<Annotation>, i: nat, names: map<nat, string>, f: Hf.BboxFormat)
    requires i <= |group| && ObjectsOf(group[..i], names, f).Err?
    ensures ObjectsOf(group, names, f) == ObjectsOf(group[..i], names, f)
    decreases |group|
  {
    if i < |group| {
      var pre := group[..|group| - 1];
      assert pre[..i] == group[..i];
      ObjectsErrPersists(pre, i, names, f);
    } else {
      assert group[..i] == group;
    }
  }

  /** The loop over one image's annotations, pushing onto `bbox_values` and `category_values`. */
  method ObjectLists(group: seq<Annotation>, names: map<nat, string>, f: Hf.BboxFormat)
    returns (r: Result<(seq<Written>, seq<string>), WriteError>)
    ensures r == ObjectsOf(group, names, f)
  {
    var bboxValues: seq<Written> := [];
    var categoryValues: seq<string> := [];
    assert group[..0] == [];
    for i := 0 to |group|
      invariant ObjectsOf(group[..i], names, f) == Ok((bboxValues, categoryValues))
    {
      ObjectsStep(group, i, names, f);
      var a := group[i];
      if a.categoryId !in names {
        ObjectsErrPersists(group, i + 1, names, f);
        return Err(MissingCategory(a.id, a.categoryId));
      }
      var box := if a.bbox.finite then Some(BoxValues(a.bbox, f)) else None;
      bboxValues := bboxValues + [box];
      categoryValues := categoryValues + [names[a.categoryId]];
    }
    assert group[..|group|] == group;
    return Ok((bboxValues, categoryValues));
  }

  lemma RowsFromStep(images: seq<Image>, i: nat, byImage: map<nat, seq<Annotation>>, names: map<nat, string>,
                     f: Hf.BboxFormat, row: RowOut)
    requires i < |images| && RowFor(images[i], byImage, names, f) == Ok(row)
    ensures RowsFrom(images[i..], byImage, names, f) ==
            Prepend([row], RowsFrom(images[i + 1..], Taken(byImage, images[i].id), names, f))
  {
    assert images[i..][0] == images[i] && images[i..][1..] == images[i + 1..];
  }

  lemma RowsFromFails(images: seq<Image>, i: nat, byImage: map<nat, seq<Annotation>>, names: map<nat, string>,
                      f: Hf.BboxFormat)
    requires i < |images| && RowFor(images[i], byImage, names, f).Err?
    ensures RowsFrom(images[i..], byImage, names, f) == Err(RowFor(images[i], byImage, names, f).error)
  {
    assert images[i..][0] == images[i];
  }

  lemma PrependTwice(xs: seq<RowOut>, x: RowOut, r: Result<seq<RowOut>, WriteError>)
    ensures Prepend(xs, Prepend([x], r)) == Prepend(xs + [x], r)
  {
    if r.Ok? {
      assert xs + ([x] + r.value) == (xs + [x]) + r.value;
    }
  }

  lemma PrependEmpty(r: Result<seq<RowOut>, WriteError>)
    ensures Prepend([], r) == r
  {
    if r.Ok? {
      assert [] + r.value == r.value;
    }
  }

  /** The row loop: each image in file-name order removes its group from the map and sorts it by ID. */
  method WriteRows(images: seq<Image>, byImage: map<nat, seq<Annotation>>, names: map<nat, string>, f: Hf.BboxFormat)
    returns (r: Result<seq<RowOut>, WriteError>)
    ensures r == RowsFrom(images, byImage, names, f)
  {
    var rows: seq<RowOut> := [];
    var remaining: map<nat, seq<Annotation>> := byImage;
    assert images[0..] == images;
    PrependEmpty(RowsFrom(images, byImage, names, f));
    for i := 0 to |images|
      invariant Prepend(rows, RowsFrom(images[i..], remaining, names, f)) == RowsFrom(images, byImage, names, f)
    {
      var image := images[i];
      var anns := if image.id in remaining then remaining[image.id] else [];
      anns := SortBy(anns, AnnotationIdLe);
      var objects := ObjectLists(anns, names, f);
      if objects.Err? {
        RowsFromFails(images, i, remaining, names, f);
        return Err(objects.error);
      }
      var row := RowOut(image.fileName, image.width, image.height, objects.value.0, objects.value.1);
      RowsFromStep(images, i, remaining, names, f, row);
      PrependTwice(rows, row, RowsFrom(images[i + 1..], Taken(remaining, image.id), names, f));
      rows := rows + [row];
      remaining := Taken(remaining, image.id);
    }
    assert images[|images|..] == [];
    assert rows + [] == rows;
    return Ok(rows);
  }

  /** `write_hf_imagefolder_with_options` up to printing: group with the reference check, sort, write the rows. */
  method WriteHfImagefolder(d: Dataset, f: Hf.BboxFormat) returns (r: Result<seq<RowOut>, WriteError>)
    ensures r == HfOutput(d, f)
  {
    var names := CategoryNameById(d.categories);
    var grouped := GroupAnnotations(d.annotations, ImageIds(d.images), names.Keys);
    if grouped.Err? {
      return Err(grouped.error);
    }
    r := WriteRows(SortedImages(d), grouped.value, names, f);
  }
}
