// `build_cvat_xml` (src/ir/io_cvat_xml.rs): the reference check, the label
// list of used categories, and one `<image>` per image in file-name order
// with its boxes in ascending annotation ID order. The document is first
// described as a value (`CvatDoc`) and then rendered line by line; the
// methods follow the source's loops and are proved to produce exactly
// those lines.
module CvatWrite {
  import opened Wrappers
  import opened Ir
  import opened BBoxes
  import opened Text
  import opened Numbers
  import opened StrOrder
  import opened Sorting
  import opened XmlTree
  import opened Grouping
  import Seqs
  import CvatXml

  /** Rust's `{}` formatting of an `f64`; the formatter is a parameter. */
  type F64Formatter = real -> string

  datatype CvatWriteError =
    | Reference(error: WriteError)
    | InternalMissingCategory(categoryId: nat)

  /** One `<box>` as written: label, occluded flag, box, z order, source and `<attribute>` entries. */
  datatype BoxOut = BoxOut(labelName: string, occluded: string, bbox: BBox, zOrder: int, source: string,
                           attributes: seq<(string, string)>)

  /** One `<image>` as written: its position in file-name order, name, size and boxes. */
  datatype ImageOut = ImageOut(index: nat, fileName: string, width: nat, height: nat, boxes: seq<BoxOut>)

  datatype CvatDoc = CvatDoc(labels: seq<string>, images: seq<ImageOut>)

  // ------------------------------------------------------------ labels

  /** `used_category_ids`: the category IDs the annotations refer to. */
  function UsedCategoryIds(d: Dataset): set<nat> {
    set a | a in d.annotations :: a.categoryId
  }

  function IsUsed(used: set<nat>): Category -> bool {
    (c: Category) => c.id in used
  }

  predicate CategoryNameLe(a: Category, b: Category) { StrOrder.Le(a.name, b.name) }

  /** The categories listed as `<label>`s: the used ones, stably sorted by name. */
  function LabelCategories(d: Dataset): seq<Category> {
    SortBy(Seqs.Filter(d.categories, IsUsed(UsedCategoryIds(d))), CategoryNameLe)
  }

  function LabelNames(d: Dataset): seq<string> {
    CategoryNames(LabelCategories(d))
  }

  // ------------------------------------------------------------ the values a box is written with

  /** `occluded`: the stored flag normalised, `0` when absent or not a recognised spelling. */
  function OccludedOut(attrs: map<string, string>): (o: string)
    ensures o == "0" || o == "1"
  {
    if "occluded" in attrs && NormalizeBoolAttr(attrs["occluded"]).Some? then NormalizeBoolAttr(attrs["occluded"]).value
    else "0"
  }

  /** `z_order`: the stored value trimmed and read as an `i32`, `0` when absent or unreadable. */
  function ZOrderOut(attrs: map<string, string>): (z: int)
    ensures I32_MIN <= z <= I32_MAX
  {
    if "z_order" in attrs && ParseI32(Trim(attrs["z_order"])).Some? then ParseI32(Trim(attrs["z_order"])).value
    else 0
  }

  /** `source`: the stored value trimmed, `manual` when absent or blank. */
  function SourceOut(attrs: map<string, string>): (s: string)
    ensures s != "" && Trim(s) == s
  {
    if "source" in attrs && Trim(attrs["source"]) != "" then
      TrimIdempotent(attrs["source"]);
      Trim(attrs["source"])
    else
      TrimUnpadded("manual");
      "manual"
  }

  /** The `<attribute>` name a key is written under: its `cvat_attr_` suffix, trimmed, when not empty. */
  function AttrName(key: string): (n: Option<string>)
    ensures n.Some? ==> n.value != "" && Trim(n.value) == n.value
  {
    if CvatXml.AttrPrefix <= key && Trim(key[|CvatXml.AttrPrefix|..]) != "" then
      TrimIdempotent(key[|CvatXml.AttrPrefix|..]);
      Some(Trim(key[|CvatXml.AttrPrefix|..]))
    else None
  }

  /** The entry one key contributes: none unless it carries the prefix and a name. */
  function EntryOf(attrs: map<string, string>, key: string): seq<(string, string)>
    requires key in attrs
  {
    match AttrName(key)
    case Some(n) => [(n, attrs[key])]
    case None => []
  }

  /** The entries of `keys`, in order. */
  function EntriesOf(attrs: map<string, string>, keys: seq<string>): seq<(string, string)>
    requires forall k :: k in keys ==> k in attrs
  {
    if |keys| == 0 then []
    else EntriesOf(attrs, keys[..|keys| - 1]) + EntryOf(attrs, keys[|keys| - 1])
  }

  /** The `<attribute>` entries of a box: its keys in ascending order (`BTreeMap` iteration). */
  function AttributeEntries(attrs: map<string, string>): seq<(string, string)> {
    EntriesOf(attrs, SortedKeys(attrs.Keys))
  }

  /** One annotation as a `<box>` under label `labelName`. */
  function BoxOf(a: Annotation, labelName: string): BoxOut {
    BoxOut(labelName, OccludedOut(a.attributes), a.bbox, ZOrderOut(a.attributes), SourceOut(a.attributes),
           AttributeEntries(a.attributes))
  }

  /**
   * Builds a box from an annotation and its label. The writer only ever
   * uses `BoxOf`; the proofs about lists of boxes take it as a parameter.
   */
  type BoxMaker = (Annotation, string) -> BoxOut

  function BoxMakerOf(): (mk: BoxMaker)
    ensures forall a, labelName :: mk(a, labelName) == BoxOf(a, labelName)
  {
    (a: Annotation, labelName: string) => BoxOf(a, labelName)
  }

  /** Annotation `k` of `anns` has a category name. */
  predicate Named(anns: seq<Annotation>, k: int, names: map<nat, string>) {
    0 <= k < |anns| && anns[k].categoryId in names
  }

  /** The boxes of an image's group, in order; a category without a name is an internal error. */
  function BoxesOf(anns: seq<Annotation>, names: map<nat, string>, mk: BoxMaker): (r: Result<seq<BoxOut>, CvatWriteError>)
    ensures r.Ok? <==> forall k :: 0 <= k < |anns| ==> Named(anns, k, names)
    ensures r.Ok? ==> |r.value| == |anns|
    ensures r.Ok? ==> forall k :: 0 <= k < |anns| ==>
                        anns[k].categoryId in names && r.value[k] == mk(anns[k], names[anns[k].categoryId])
    ensures r.Err? ==> r.error.InternalMissingCategory?
  {
    if |anns| == 0 then Ok([])
    else
      var pre, a := anns[..|anns| - 1], anns[|anns| - 1];
      assert forall k :: 0 <= k < |pre| ==> pre[k] == anns[k] && Named(pre, k, names) == Named(anns, k, names);
      match BoxesOf(pre, names, mk)
      case Err(e) => Err(e)
      case Ok(boxes) =>
        if a.categoryId !in names then
          assert !Named(anns, |anns| - 1, names);
          Err(InternalMissingCategory(a.categoryId))
        else
          assert Named(anns, |anns| - 1, names);
          Ok(boxes + [mk(a, names[a.categoryId])])
  }

  // ------------------------------------------------------------ images

  function ImageOutOf(index: nat, image: Image, boxes: seq<BoxOut>): ImageOut {
    ImageOut(index, image.fileName, image.width, image.height, boxes)
  }

  /** `xs` followed by the list of `r`, or the error of `r`. */
  function Prepend<T>(xs: seq<T>, r: Result<seq<T>, CvatWriteError>): Result<seq<T>, CvatWriteError> {
    match r
    case Err(e) => Err(e)
    case Ok(rest) => Ok(xs + rest)
  }

  /**
   * The `<image>`s of `images`, numbered from `index`. Each image takes its
   * group out of the map (`remove`), so a later image with the same ID gets
   * no boxes.
   */
  function ImagesFrom(images: seq<Image>, index: nat, byImage: map<nat, seq<Annotation>>, names: map<nat, string>,
                      mk: BoxMaker)
    : Result<seq<ImageOut>, CvatWriteError>
    decreases |images|
  {
    if |images| == 0 then Ok([])
    else
      match BoxesOf(GroupOf(images[0], byImage), names, mk)
      case Err(e) => Err(e)
      case Ok(boxes) =>
        Prepend([ImageOutOf(index, images[0], boxes)],
                ImagesFrom(images[1..], index + 1, Taken(byImage, images[0].id), names, mk))
  }

  /** The whole document as a value: the reference check, the labels, then the images. */
  function BuildDoc(d: Dataset): Result<CvatDoc, CvatWriteError> {
    var names := CategoryNameById(d.categories);
    match FirstRefError(d.annotations, ImageIds(d.images), names.Keys)
    case Some(e) => Err(Reference(e))
    case None =>
      match ImagesFrom(SortedImages(d), 0, Group(d.annotations), names, BoxMakerOf())
      case Err(e) => Err(e)
      case Ok(images) => Ok(CvatDoc(LabelNames(d), images))
  }

  // ------------------------------------------------------------ lines

  const XmlDecl: string := "<?xml version=\"1.0\" encoding=\"utf-8\"?>"

  function LabelLines(labels: seq<string>): seq<string> {
    if |labels| == 0 then []
    else
      LabelLines(labels[..|labels| - 1])
      + ["        <label>", "          <name>" + XmlEscape(labels[|labels| - 1]) + "</name>", "        </label>"]
  }

  function HeaderStart(imageCount: nat): seq<string> {
    [XmlDecl, "<annotations>", "  <version>1.1</version>", "  <meta>", "    <task>",
     "      <name>panlabel export</name>", "      <size>" + NatToString(imageCount) + "</size>",
     "      <mode>annotation</mode>", "      <labels>"]
  }

  const HeaderEnd: seq<string> := ["      </labels>", "    </task>", "  </meta>"]

  function HeaderLines(labels: seq<string>, imageCount: nat): seq<string> {
    HeaderStart(imageCount) + LabelLines(labels) + HeaderEnd
  }

  function AttrLine(entry: (string, string)): string {
    "      <attribute name=\"" + XmlEscape(entry.0) + "\">" + XmlEscape(entry.1) + "</attribute>"
  }

  function AttrLines(entries: seq<(string, string)>): seq<string> {
    Seqs.Map(entries, AttrLine)
  }

  function BoxOpenLine(b: BoxOut, formatF64: F64Formatter): string {
    "    <box label=\"" + XmlEscape(b.labelName) + "\" occluded=\"" + b.occluded
    + "\" xtl=\"" + formatF64(b.bbox.xmin) + "\" ytl=\"" + formatF64(b.bbox.ymin)
    + "\" xbr=\"" + formatF64(b.bbox.xmax) + "\" ybr=\"" + formatF64(b.bbox.ymax)
    + "\" z_order=\"" + IntToString(b.zOrder) + "\" source=\"" + XmlEscape(b.source) + "\">"
  }

  function BoxLines(b: BoxOut, formatF64: F64Formatter): seq<string> {
    [BoxOpenLine(b, formatF64)] + AttrLines(b.attributes) + ["    </box>"]
  }

  function BoxesLines(boxes: seq<BoxOut>, formatF64: F64Formatter): seq<string> {
    if |boxes| == 0 then []
    else BoxesLines(boxes[..|boxes| - 1], formatF64) + BoxLines(boxes[|boxes| - 1], formatF64)
  }

  function ImageOpenLine(img: ImageOut): string {
    "  <image id=\"" + NatToString(img.index) + "\" name=\"" + XmlEscape(img.fileName)
    + "\" width=\"" + NatToString(img.width) + "\" height=\"" + NatToString(img.height) + "\">"
  }

  function ImageLines(img: ImageOut, formatF64: F64Formatter): seq<string> {
    [ImageOpenLine(img)] + BoxesLines(img.boxes, formatF64) + ["  </image>"]
  }

  function ImagesLines(images: seq<ImageOut>, formatF64: F64Formatter): seq<string> {
    if |images| == 0 then []
    else ImagesLines(images[..|images| - 1], formatF64) + ImageLines(images[|images| - 1], formatF64)
  }

  function DocLines(doc: CvatDoc, formatF64: F64Formatter): seq<string> {
    HeaderLines(doc.labels, |doc.images|) + ImagesLines(doc.images, formatF64) + ["</annotations>"]
  }

  /** The text `build_cvat_xml` returns, one string per line. */
  function CvatText(d: Dataset, formatF64: F64Formatter): Result<seq<string>, CvatWriteError> {
    match BuildDoc(d)
    case Err(e) => Err(e)
    case Ok(doc) => Ok(DocLines(doc, formatF64))
  }

  // ------------------------------------------------------------ the writer, line by line

  /** The `<attribute>` lines of one box, key by key in ascending order. */
  method WriteAttributes(attrs: map<string, string>) returns (lines: seq<string>)
    ensures lines == AttrLines(AttributeEntries(attrs))
  {
    var keys := SortedKeys(attrs.Keys);
    lines := [];
    for i := 0 to |keys|
      invariant lines == AttrLines(EntriesOf(attrs, keys[..i]))
    {
      var key := keys[i];
      var n := AttrName(key);
      if n.Some? {
        lines := lines + [AttrLine((n.value, attrs[key]))];
      }
      EntriesStep(attrs, keys, i, lines);
    }
    assert keys[..|keys|] == keys;
  }

  lemma EntriesStep(attrs: map<string, string>, keys: seq<string>, i: nat, lines: seq<string>)
    requires i < |keys| && forall k :: k in keys ==> k in attrs
    requires AttrName(keys[i]).Some? ==>
      lines == AttrLines(EntriesOf(attrs, keys[..i])) + [AttrLine((AttrName(keys[i]).value, attrs[keys[i]]))]
    requires AttrName(keys[i]).None? ==> lines == AttrLines(EntriesOf(attrs, keys[..i]))
    ensures lines == AttrLines(EntriesOf(attrs, keys[..i + 1]))
  {
    assert keys[..i + 1][..i] == keys[..i] && keys[..i + 1][i] == keys[i];
    var before := EntriesOf(attrs, keys[..i]);
    assert EntriesOf(attrs, keys[..i + 1]) == before + EntryOf(attrs, keys[i]);
    assert AttrLines(before + EntryOf(attrs, keys[i])) == AttrLines(before) + AttrLines(EntryOf(attrs, keys[i]));
  }

  /** One `<box>`: its opening line, its attribute lines and its closing line. */
  method WriteBox(a: Annotation, labelName: string, formatF64: F64Formatter) returns (lines: seq<string>)
    ensures lines == BoxLines(BoxOf(a, labelName), formatF64)
  {
    var occluded := "0";
    if "occluded" in a.attributes && NormalizeBoolAttr(a.attributes["occluded"]).Some? {
      occluded := NormalizeBoolAttr(a.attributes["occluded"]).value;
    }
    var zOrder := 0;
    if "z_order" in a.attributes && ParseI32(Trim(a.attributes["z_order"])).Some? {
      zOrder := ParseI32(Trim(a.attributes["z_order"])).value;
    }
    var source := "manual";
    if "source" in a.attributes && Trim(a.attributes["source"]) != "" {
      source := Trim(a.attributes["source"]);
    }
    var b := BoxOut(labelName, occluded, a.bbox, zOrder, source, AttributeEntries(a.attributes));
    assert b == BoxOf(a, labelName);
    var attributeLines := WriteAttributes(a.attributes);
    lines := [BoxOpenLine(b, formatF64)] + attributeLines + ["    </box>"];
  }

  lemma BoxesOfErrPersists(anns: seq<Annotation>, i: nat, names: map<nat, string>, mk: BoxMaker)
    requires i <= |anns| && BoxesOf(anns[..i], names, mk).Err?
    ensures BoxesOf(anns, names, mk) == BoxesOf(anns[..i], names, mk)
    decreases |anns|
  {
    if i < |anns| {
      assert anns[..|anns| - 1][..i] == anns[..i];
      BoxesOfErrPersists(anns[..|anns| - 1], i, names, mk);
    } else {
      assert anns[..i] == anns;
    }
  }

  lemma BoxesOfStep(anns: seq<Annotation>, i: nat, names: map<nat, string>, mk: BoxMaker, boxes: seq<BoxOut>)
    requires i < |anns| && anns[i].categoryId in names && BoxesOf(anns[..i], names, mk) == Ok(boxes)
    ensures BoxesOf(anns[..i + 1], names, mk) == Ok(boxes + [mk(anns[i], names[anns[i].categoryId])])
  {
    assert anns[..i + 1][..i] == anns[..i] && anns[..i + 1][i] == anns[i];
  }

  lemma BoxesOfFailsAt(anns: seq<Annotation>, i: nat, names: map<nat, string>, mk: BoxMaker)
    requires i < |anns| && anns[i].categoryId !in names && BoxesOf(anns[..i], names, mk).Ok?
    ensures BoxesOf(anns, names, mk) == Err(InternalMissingCategory(anns[i].categoryId))
  {
    assert anns[..i + 1][..i] == anns[..i] && anns[..i + 1][i] == anns[i];
    BoxesOfErrPersists(anns, i + 1, names, mk);
  }

  lemma BoxesLinesStep(boxes: seq<BoxOut>, b: BoxOut, formatF64: F64Formatter)
    ensures BoxesLines(boxes + [b], formatF64) == BoxesLines(boxes, formatF64) + BoxLines(b, formatF64)
  {
    assert (boxes + [b])[..|boxes|] == boxes;
  }

  /** The lines of one `<image>`, or the internal error of its first box without a category name. */
  function ImageText(index: nat, image: Image, group: seq<Annotation>, names: map<nat, string>, mk: BoxMaker,
                     formatF64: F64Formatter): Result<seq<string>, CvatWriteError>
  {
    match BoxesOf(group, names, mk)
    case Err(e) => Err(e)
    case Ok(boxes) => Ok(ImageLines(ImageOutOf(index, image, boxes), formatF64))
  }

  /** One `<image>`: its opening line, each box of its group in turn, its closing line. */
  method WriteImage(index: nat, image: Image, group: seq<Annotation>, names: map<nat, string>,
                    formatF64: F64Formatter)
    returns (r: Result<seq<string>, CvatWriteError>)
    ensures r == ImageText(index, image, group, names, BoxMakerOf(), formatF64)
  {
    var body := WriteBoxes(group, names, formatF64);
    if body.Err? {
      return Err(body.error);
    }
    ghost var boxes := BoxesOf(group, names, BoxMakerOf()).value;
    var head := ImageOpenLine(ImageOutOf(index, image, []));
    assert head == ImageOpenLine(ImageOutOf(index, image, boxes));
    r := Ok([head] + body.value + ["  </image>"]);
  }

  /** The box lines of a group, or the internal error of its first box without a category name. */
  function BoxesText(group: seq<Annotation>, names: map<nat, string>, mk: BoxMaker, formatF64: F64Formatter)
    : Result<seq<string>, CvatWriteError>
  {
    match BoxesOf(group, names, mk)
    case Err(e) => Err(e)
    case Ok(boxes) => Ok(BoxesLines(boxes, formatF64))
  }

  /** The boxes of one `<image>`, each in turn. */
  method WriteBoxes(group: seq<Annotation>, names: map<nat, string>, formatF64: F64Formatter)
    returns (r: Result<seq<string>, CvatWriteError>)
    ensures r == BoxesText(group, names, BoxMakerOf(), formatF64)
  {
    ghost var mk := BoxMakerOf();
    var lines: seq<string> := [];
    ghost var boxes: seq<BoxOut> := [];
    for i := 0 to |group|
      invariant BoxesDone(group, i, names, mk, formatF64, boxes, lines)
    {
      var a := group[i];
      if a.categoryId !in names {
        BoxesOfFailsAt(group, i, names, mk);
        return Err(InternalMissingCategory(a.categoryId));
      }
      var boxLines := WriteBox(a, names[a.categoryId], formatF64);
      BoxesDoneStep(group, i, names, mk, formatF64, boxes, lines, boxLines);
      boxes := boxes + [mk(a, names[a.categoryId])];
      lines := lines + boxLines;
    }
    BoxesDoneAll(group, names, mk, formatF64, boxes, lines);
    r := Ok(lines);
  }

  /** The state of `WriteBoxes` after the first `i` annotations of the group. */
  predicate BoxesDone(group: seq<Annotation>, i: nat, names: map<nat, string>, mk: BoxMaker, formatF64: F64Formatter,
                      boxes: seq<BoxOut>, lines: seq<string>)
  {
    i <= |group| && BoxesOf(group[..i], names, mk) == Ok(boxes) && lines == BoxesLines(boxes, formatF64)
  }

  lemma BoxesDoneStep(group: seq<Annotation>, i: nat, names: map<nat, string>, mk: BoxMaker, formatF64: F64Formatter,
                      boxes: seq<BoxOut>, lines: seq<string>, boxLines: seq<string>)
    requires BoxesDone(group, i, names, mk, formatF64, boxes, lines) && i < |group| && group[i].categoryId in names
    requires boxLines == BoxLines(mk(group[i], names[group[i].categoryId]), formatF64)
    ensures BoxesDone(group, i + 1, names, mk, formatF64, boxes + [mk(group[i], names[group[i].categoryId])],
                      lines + boxLines)
  {
    BoxesOfStep(group, i, names, mk, boxes);
    BoxesLinesStep(boxes, mk(group[i], names[group[i].categoryId]), formatF64);
  }

  lemma BoxesDoneAll(group: seq<Annotation>, names: map<nat, string>, mk: BoxMaker, formatF64: F64Formatter,
                     boxes: seq<BoxOut>, lines: seq<string>)
    requires BoxesDone(group, |group|, names, mk, formatF64, boxes, lines)
    ensures BoxesText(group, names, mk, formatF64) == Ok(lines)
  {
    assert group[..|group|] == group;
  }

  /** The `<label>` lines, one category at a time. */
  method WriteLabels(labels: seq<string>) returns (lines: seq<string>)
    ensures lines == LabelLines(labels)
  {
    lines := [];
    for i := 0 to |labels|
      invariant lines == LabelLines(labels[..i])
    {
      assert labels[..i + 1][..i] == labels[..i] && labels[..i + 1][i] == labels[i];
      lines := lines + ["        <label>", "          <name>" + XmlEscape(labels[i]) + "</name>", "        </label>"];
    }
    assert labels[..|labels|] == labels;
  }

  lemma ImagesFromStep(images: seq<Image>, i: nat, byImage: map<nat, seq<Annotation>>, names: map<nat, string>,
                       mk: BoxMaker, boxes: seq<BoxOut>)
    requires i < |images| && BoxesOf(GroupOf(images[i], byImage), names, mk) == Ok(boxes)
    ensures ImagesFrom(images[i..], i, byImage, names, mk)
      == Prepend([ImageOutOf(i, images[i], boxes)],
                 ImagesFrom(images[i + 1..], i + 1, Taken(byImage, images[i].id), names, mk))
  {
    assert images[i..][0] == images[i] && images[i..][1..] == images[i + 1..];
  }

  lemma ImagesLinesStep(outs: seq<ImageOut>, img: ImageOut, formatF64: F64Formatter)
    ensures ImagesLines(outs + [img], formatF64) == ImagesLines(outs, formatF64) + ImageLines(img, formatF64)
  {
    assert (outs + [img])[..|outs|] == outs;
  }

  lemma PrependEmpty(r: Result<seq<ImageOut>, CvatWriteError>)
    ensures Prepend([], r) == r
  {
    if r.Ok? {
      assert [] + r.value == r.value;
    }
  }

  lemma PrependTwice(xs: seq<ImageOut>, x: ImageOut, r: Result<seq<ImageOut>, CvatWriteError>)
    ensures Prepend(xs, Prepend([x], r)) == Prepend(xs + [x], r)
  {
    if r.Ok? {
      assert xs + ([x] + r.value) == (xs + [x]) + r.value;
    }
  }

  /** The lines of the `<image>`s of `images`, numbered from `index`, or the first internal error. */
  function ImagesText(images: seq<Image>, index: nat, byImage: map<nat, seq<Annotation>>, names: map<nat, string>,
                      formatF64: F64Formatter): Result<seq<string>, CvatWriteError>
  {
    match ImagesFrom(images, index, byImage, names, BoxMakerOf())
    case Err(e) => Err(e)
    case Ok(imgs) => Ok(ImagesLines(imgs, formatF64))
  }

  /** Each image in turn, taking its group out of the map as it is written. */
  method WriteImages(images: seq<Image>, byImage: map<nat, seq<Annotation>>, names: map<nat, string>,
                     formatF64: F64Formatter)
    returns (r: Result<seq<string>, CvatWriteError>)
    ensures r == ImagesText(images, 0, byImage, names, formatF64)
  {
    var lines: seq<string> := [];
    var remaining := byImage;
    ghost var outs: seq<ImageOut> := [];
    ghost var mk := BoxMakerOf();
    ImagesDoneStart(images, byImage, names, mk, formatF64);
    for i := 0 to |images|
      invariant ImagesDone(images, i, byImage, remaining, names, mk, formatF64, outs, lines)
    {
      var image := images[i];
      var group := SortBy(Get(remaining, image.id), AnnotationIdLe);
      var imageText := WriteImage(i, image, group, names, formatF64);
      if imageText.Err? {
        ImagesDoneErr(images, i, byImage, remaining, names, mk, formatF64, outs, lines);
        return Err(imageText.error);
      }
      ghost var img := ImageOutOf(i, image, BoxesOf(group, names, mk).value);
      ImagesDoneStep(images, i, byImage, remaining, names, mk, formatF64, outs, lines, imageText.value);
      outs := outs + [img];
      remaining := Taken(remaining, image.id);
      lines := lines + imageText.value;
    }
    ImagesDoneAll(images, byImage, remaining, names, mk, formatF64, outs, lines);
    return Ok(lines);
  }

  /** The state of `WriteImages` after the first `i` images. */
  predicate ImagesDone(images: seq<Image>, i: nat, byImage: map<nat, seq<Annotation>>,
                       remaining: map<nat, seq<Annotation>>, names: map<nat, string>, mk: BoxMaker,
                       formatF64: F64Formatter, outs: seq<ImageOut>, lines: seq<string>)
  {
    && i <= |images|
    && Prepend(outs, ImagesFrom(images[i..], i, remaining, names, mk)) == ImagesFrom(images, 0, byImage, names, mk)
    && lines == ImagesLines(outs, formatF64)
  }

  lemma ImagesDoneStart(images: seq<Image>, byImage: map<nat, seq<Annotation>>, names: map<nat, string>,
                        mk: BoxMaker, formatF64: F64Formatter)
    ensures ImagesDone(images, 0, byImage, byImage, names, mk, formatF64, [], [])
  {
    assert images[0..] == images;
    PrependEmpty(ImagesFrom(images, 0, byImage, names, mk));
  }

  lemma ImagesDoneStep(images: seq<Image>, i: nat, byImage: map<nat, seq<Annotation>>,
                       remaining: map<nat, seq<Annotation>>, names: map<nat, string>, mk: BoxMaker,
                       formatF64: F64Formatter, outs: seq<ImageOut>, lines: seq<string>, text: seq<string>)
    requires mk == BoxMakerOf()
    requires ImagesDone(images, i, byImage, remaining, names, mk, formatF64, outs, lines) && i < |images|
    requires ImageText(i, images[i], GroupOf(images[i], remaining), names, mk, formatF64) == Ok(text)
    ensures BoxesOf(GroupOf(images[i], remaining), names, mk).Ok?
    ensures ImagesDone(images, i + 1, byImage, Taken(remaining, images[i].id), names, mk, formatF64,
                       outs + [ImageOutOf(i, images[i], BoxesOf(GroupOf(images[i], remaining), names, mk).value)],
                       lines + text)
  {
    var boxes := BoxesOf(GroupOf(images[i], remaining), names, mk).value;
    var img := ImageOutOf(i, images[i], boxes);
    ImagesFromStep(images, i, remaining, names, mk, boxes);
    PrependTwice(outs, img, ImagesFrom(images[i + 1..], i + 1, Taken(remaining, images[i].id), names, mk));
    ImagesLinesStep(outs, img, formatF64);
  }

  lemma ImagesDoneErr(images: seq<Image>, i: nat, byImage: map<nat, seq<Annotation>>,
                      remaining: map<nat, seq<Annotation>>, names: map<nat, string>, mk: BoxMaker,
                      formatF64: F64Formatter, outs: seq<ImageOut>, lines: seq<string>)
    requires mk == BoxMakerOf()
    requires ImagesDone(images, i, byImage, remaining, names, mk, formatF64, outs, lines) && i < |images|
    requires ImageText(i, images[i], GroupOf(images[i], remaining), names, mk, formatF64).Err?
    ensures ImagesText(images, 0, byImage, names, formatF64).Err?
    ensures ImagesText(images, 0, byImage, names, formatF64).error
            == ImageText(i, images[i], GroupOf(images[i], remaining), names, mk, formatF64).error
  {
    var group := GroupOf(images[i], remaining);
    assert BoxesOf(group, names, mk).Err?;
    ImagesFromFails(images, i, remaining, names, mk);
    PrependErr(outs, ImagesFrom(images[i..], i, remaining, names, mk));
    assert ImagesFrom(images, 0, byImage, names, mk) == Err(BoxesOf(group, names, mk).error);
  }

  lemma ImagesDoneAll(images: seq<Image>, byImage: map<nat, seq<Annotation>>,
                      remaining: map<nat, seq<Annotation>>, names: map<nat, string>, mk: BoxMaker,
                      formatF64: F64Formatter, outs: seq<ImageOut>, lines: seq<string>)
    requires mk == BoxMakerOf()
    requires ImagesDone(images, |images|, byImage, remaining, names, mk, formatF64, outs, lines)
    ensures ImagesText(images, 0, byImage, names, formatF64) == Ok(lines)
  {
    assert images[|images|..] == [];
    assert outs + [] == outs;
  }

  lemma ImagesFromFails(images: seq<Image>, i: nat, byImage: map<nat, seq<Annotation>>, names: map<nat, string>,
                        mk: BoxMaker)
    requires i < |images| && BoxesOf(GroupOf(images[i], byImage), names, mk).Err?
    ensures ImagesFrom(images[i..], i, byImage, names, mk) == Err(BoxesOf(GroupOf(images[i], byImage), names, mk).error)
  {
    assert images[i..][0] == images[i];
  }

  lemma PrependErr(xs: seq<ImageOut>, r: Result<seq<ImageOut>, CvatWriteError>)
    requires r.Err?
    ensures Prepend(xs, r) == r
  {
  }

  /**
   * `build_cvat_xml`: the reference check while grouping, the header with
   * one `<label>` per used category, then each image in file-name order
   * taking its group out of the map, then the closing tag.
   */
  method BuildCvatXml(d: Dataset, formatF64: F64Formatter) returns (r: Result<seq<string>, CvatWriteError>)
    ensures r == CvatText(d, formatF64)
  {
    var names := CategoryNameById(d.categories);
    var grouped := GroupAnnotations(d.annotations, ImageIds(d.images), names.Keys);
    if grouped.Err? {
      return Err(Reference(grouped.error));
    }
    var sorted := SortedImages(d);
    var labelLines := WriteLabels(LabelNames(d));
    var imageLines := WriteImages(sorted, grouped.value, names, formatF64);
    if imageLines.Err? {
      return Err(imageLines.error);
    }
    ghost var images := ImagesFrom(sorted, 0, Group(d.annotations), names, BoxMakerOf()).value;
    assert |images| == |sorted| by {
      ImagesFromLength(sorted, 0, Group(d.annotations), names, BoxMakerOf());
    }
    r := Ok(HeaderStart(|sorted|) + labelLines + HeaderEnd + imageLines.value + ["</annotations>"]);
  }

  lemma {:induction false} ImagesFromLength(images: seq<Image>, index: nat, byImage: map<nat, seq<Annotation>>,
                                            names: map<nat, string>, mk: BoxMaker)
    requires ImagesFrom(images, index, byImage, names, mk).Ok?
    ensures |ImagesFrom(images, index, byImage, names, mk).value| == |images|
    decreases |images|
  {
    if |images| > 0 {
      ImagesFromLength(images[1..], index + 1, Taken(byImage, images[0].id), names, mk);
    }
  }
}
