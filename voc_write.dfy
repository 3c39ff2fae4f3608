// `write_voc_dir` and `write_voc_xml` (src/ir/io_voc_xml.rs): every
// annotation must name an existing image and category; then each image, in
// file-name order, gets one document listing its annotations in ID order.
// A document is the element tree `VocTree`; its text is that tree rendered
// line by line with `xml_escape` applied to every text (`XmlTree.Render`).
// The f64 formatter (`Display for f64`) is the parameter `formatF64`.
// Creating directories, the `.xml` path swap and the `JPEGImages/README.txt`
// file are file-system work left out.
module VocWrite {
  import opened Wrappers
  import opened BBoxes
  import opened Ir
  import opened Sorting
  import opened Text
  import opened Numbers
  import opened XmlTree
  import opened Grouping
  import Seqs

  type F64Formatter = real -> string

  const XmlDecl: string := "<?xml version=\"1.0\" encoding=\"utf-8\"?>"

  /** The boolean attributes written as `0`/`1` children, in writing order. */
  const FlagKeys: seq<string> := ["truncated", "difficult", "occluded"]

  /** One written document: the image it is for and its lines. */
  datatype VocFile = VocFile(imageFileName: string, lines: seq<string>)

  // ------------------------------------------------------------ one document

  /** `depth` is written when the image's `depth` attribute, trimmed, is a `u32`. */
  function DepthOf(image: Image): Option<nat> {
    if "depth" in image.attributes then ParseU32(Trim(image.attributes["depth"])) else None
  }

  function SizeElement(image: Image): Element {
    var depth := match DepthOf(image) case Some(d) => [Leaf("depth", NatToString(d))] case None => [];
    Element("size", map[], None, [Leaf("width", NatToString(image.width)), Leaf("height", NatToString(image.height))] + depth)
  }

  /** `<pose>` holds the trimmed `pose` attribute, and is written only when that is not blank. */
  function PoseChildren(attrs: map<string, string>): seq<Element> {
    if "pose" in attrs && Trim(attrs["pose"]) != "" then [Leaf("pose", Trim(attrs["pose"]))] else []
  }

  /** A flag is written, as `0` or `1`, only when its attribute normalises. */
  function FlagChild(attrs: map<string, string>, key: string): seq<Element> {
    if key in attrs && NormalizeBoolAttr(attrs[key]).Some? then [Leaf(key, NormalizeBoolAttr(attrs[key]).value)]
    else []
  }

  /** The flag elements for `keys`, in that order. */
  function FlagsOf(attrs: map<string, string>, keys: seq<string>): seq<Element> {
    if |keys| == 0 then [] else FlagChild(attrs, keys[0]) + FlagsOf(attrs, keys[1..])
  }

  function FlagChildren(attrs: map<string, string>): seq<Element> {
    FlagsOf(attrs, FlagKeys)
  }

  function BndBoxElement(b: BBox, formatF64: F64Formatter): Element {
    Element("bndbox", map[], None, [Leaf("xmin", formatF64(b.xmin)), Leaf("ymin", formatF64(b.ymin)),
                                    Leaf("xmax", formatF64(b.xmax)), Leaf("ymax", formatF64(b.ymax))])
  }

  /** One `<object>`: category name, pose, flags, then the box corners. */
  function ObjectElement(a: Annotation, name: string, formatF64: F64Formatter): Element {
    Element("object", map[], None,
            [Leaf("name", name)] + PoseChildren(a.attributes) + FlagChildren(a.attributes)
            + [BndBoxElement(a.bbox, formatF64)])
  }

  /**
   * A flag element appears exactly when its attribute normalises, and then
   * it holds `0` or `1`; the flag list holds nothing else.
   */
  lemma FlagsWritten(attrs: map<string, string>, key: string)
    requires key in FlagKeys
    ensures (exists c :: c in FlagChildren(attrs) && c.tag == key) <==> key in attrs && NormalizeBoolAttr(attrs[key]).Some?
    ensures forall c :: c in FlagChildren(attrs) ==>
      c.tag in FlagKeys && c.tag in attrs && (c.text == Some("0") || c.text == Some("1")) && c.children == []
  {
    FlagKeysDistinct();
    FlagsOfWritten(attrs, FlagKeys, key);
  }

  lemma {:induction false} FlagsOfWritten(attrs: map<string, string>, keys: seq<string>, key: string)
    requires Seqs.Distinct(keys) && key in keys
    ensures (exists c :: c in FlagsOf(attrs, keys) && c.tag == key) <==> key in attrs && NormalizeBoolAttr(attrs[key]).Some?
    ensures forall c :: c in FlagsOf(attrs, keys) ==>
      c.tag in keys && c.tag in attrs && (c.text == Some("0") || c.text == Some("1")) && c.children == []
    decreases |keys|
  {
    FlagChildFacts(attrs, keys[0]);
    FlagsOfTags(attrs, keys[1..]);
    if key == keys[0] {
      assert forall c :: c in FlagsOf(attrs, keys) && c.tag == key ==> c in FlagChild(attrs, key);
    } else {
      assert Seqs.Distinct(keys[1..]);
      FlagsOfWritten(attrs, keys[1..], key);
    }
  }

  /** Every flag element is a normalised `0`/`1` leaf for one of `keys`. */
  lemma {:induction false} FlagsOfTags(attrs: map<string, string>, keys: seq<string>)
    ensures forall c :: c in FlagsOf(attrs, keys) ==>
      c.tag in keys && c.tag in attrs && (c.text == Some("0") || c.text == Some("1")) && c.children == []
    decreases |keys|
  {
    if |keys| > 0 {
      FlagChildFacts(attrs, keys[0]);
      FlagsOfTags(attrs, keys[1..]);
    }
  }

  lemma FlagKeysDistinct()
    ensures Seqs.Distinct(FlagKeys)
  {
    assert FlagKeys[0][0] != FlagKeys[1][0] && FlagKeys[0][0] != FlagKeys[2][0] && FlagKeys[1][0] != FlagKeys[2][0];
  }

  lemma FlagChildFacts(attrs: map<string, string>, key: string)
    ensures forall c :: c in FlagChild(attrs, key) ==>
      c.tag == key && key in attrs && (c.text == Some("0") || c.text == Some("1")) && c.children == []
    ensures (exists c :: c in FlagChild(attrs, key)) <==> key in attrs && NormalizeBoolAttr(attrs[key]).Some?
  {
    if key in attrs && NormalizeBoolAttr(attrs[key]).Some? {
      assert FlagChild(attrs, key)[0] in FlagChild(attrs, key);
    }
  }

  /** The pose element appears exactly when the pose is not blank, and holds it trimmed. */
  lemma PoseWritten(attrs: map<string, string>)
    ensures |PoseChildren(attrs)| <= 1
    ensures |PoseChildren(attrs)| == 1 <==> "pose" in attrs && Trim(attrs["pose"]) != ""
    ensures forall c :: c in PoseChildren(attrs) ==> c == Leaf("pose", Trim(attrs["pose"])) && c.text.value != ""
  {
  }

  /** Annotation `k` is the first whose category has no name, and `e` is its error. */
  predicate FirstMissingAt(anns: seq<Annotation>, k: int, names: map<nat, string>, e: WriteError) {
    && 0 <= k < |anns| && anns[k].categoryId !in names
    && e == MissingCategory(anns[k].id, anns[k].categoryId)
    && forall j :: 0 <= j < k ==> anns[j].categoryId in names
  }

  /** The error of the first annotation whose category has no name. */
  function FirstMissingCategory(anns: seq<Annotation>, names: map<nat, string>): (r: Option<WriteError>)
    ensures r.None? <==> forall k :: 0 <= k < |anns| ==> anns[k].categoryId in names
    ensures r.Some? ==> exists k :: FirstMissingAt(anns, k, names, r.value)
  {
    if |anns| == 0 then None
    else if anns[0].categoryId !in names then
      assert FirstMissingAt(anns, 0, names, MissingCategory(anns[0].id, anns[0].categoryId));
      Some(MissingCategory(anns[0].id, anns[0].categoryId))
    else
      var r := FirstMissingCategory(anns[1..], names);
      assert forall k :: 1 <= k < |anns| ==> anns[k] == anns[1..][k - 1];
      if r.Some? then
        var k :| FirstMissingAt(anns[1..], k, names, r.value);
        assert FirstMissingAt(anns, k + 1, names, r.value);
        r
      else r
  }

  /** The `<object>` elements of `anns`, in order. */
  function ObjectElements(anns: seq<Annotation>, names: map<nat, string>, formatF64: F64Formatter): (objs: seq<Element>)
    requires forall k :: 0 <= k < |anns| ==> anns[k].categoryId in names
    ensures |objs| == |anns|
    ensures forall k :: 0 <= k < |anns| ==> objs[k] == ObjectElement(anns[k], names[anns[k].categoryId], formatF64)
  {
    seq(|anns|, k requires 0 <= k < |anns| => ObjectElement(anns[k], names[anns[k].categoryId], formatF64))
  }

  function HeaderChildren(image: Image): seq<Element> {
    [Leaf("folder", "JPEGImages"), Leaf("filename", image.fileName), SizeElement(image)]
  }

  /** The document of one image: folder, file name, size, then one `<object>` per annotation. */
  function VocTree(image: Image, objects: seq<Element>): Element {
    Element("annotation", map[], None, HeaderChildren(image) + objects)
  }

  /** `write_voc_xml` as a value: the first annotation without a category name fails the document. */
  function VocText(image: Image, anns: seq<Annotation>, names: map<nat, string>, formatF64: F64Formatter)
    : Result<seq<string>, WriteError>
  {
    match FirstMissingCategory(anns, names)
    case Some(e) => Err(e)
    case None => Ok([XmlDecl] + Render(VocTree(image, ObjectElements(anns, names, formatF64)), ""))
  }

  /** The rendered document: declaration, root, header lines, object lines, closing root. */
  lemma VocTextLines(image: Image, anns: seq<Annotation>, names: map<nat, string>, formatF64: F64Formatter)
    requires forall k :: 0 <= k < |anns| ==> anns[k].categoryId in names
    ensures [XmlDecl] + Render(VocTree(image, ObjectElements(anns, names, formatF64)), "")
      == [XmlDecl, OpenTag("", "annotation")] + RenderAll(HeaderChildren(image), "  ")
         + RenderAll(ObjectElements(anns, names, formatF64), "  ") + [CloseTag("", "annotation")]
  {
    RenderDocument(XmlDecl, "annotation", HeaderChildren(image), ObjectElements(anns, names, formatF64));
  }

  /** `write_voc_xml`: header lines, then each annotation's `<object>` lines, then the closing tag. */
  method WriteVocXml(image: Image, anns: seq<Annotation>, names: map<nat, string>, formatF64: F64Formatter)
    returns (r: Result<seq<string>, WriteError>)
    ensures r == VocText(image, anns, names, formatF64)
  {
    var lines := [XmlDecl, OpenTag("", "annotation")] + RenderAll(HeaderChildren(image), "  ");
    var objectLines := ObjectLines(anns, names, formatF64);
    if objectLines.Err? {
      return Err(objectLines.error);
    }
    lines := lines + objectLines.value + [CloseTag("", "annotation")];
    VocTextLines(image, anns, names, formatF64);
    return Ok(lines);
  }

  /** The `<object>` lines of each annotation in turn; a category without a name stops the document. */
  method ObjectLines(anns: seq<Annotation>, names: map<nat, string>, formatF64: F64Formatter)
    returns (r: Result<seq<string>, WriteError>)
    ensures r.Err? <==> FirstMissingCategory(anns, names).Some?
    ensures r.Err? ==> r.error == FirstMissingCategory(anns, names).value
    ensures r.Ok? ==> FirstMissingCategory(anns, names).None?
    ensures r.Ok? ==> r.value == RenderAll(ObjectElements(anns, names, formatF64), "  ")
  {
    var lines: seq<string> := [];
    for i := 0 to |anns|
      invariant forall k :: 0 <= k < i ==> anns[k].categoryId in names
      invariant lines == RenderAll(ObjectElements(anns[..i], names, formatF64), "  ")
    {
      var a := anns[i];
      if a.categoryId !in names {
        return Err(MissingCategory(a.id, a.categoryId));
      }
      var obj := ObjectElement(a, names[a.categoryId], formatF64);
      ObjectElementsStep(anns, i, names, formatF64);
      lines := lines + Render(obj, "  ");
    }
    assert anns[..|anns|] == anns;
    return Ok(lines);
  }

  lemma ObjectElementsStep(anns: seq<Annotation>, i: nat, names: map<nat, string>, formatF64: F64Formatter)
    requires i < |anns| && forall k :: 0 <= k <= i ==> anns[k].categoryId in names
    ensures RenderAll(ObjectElements(anns[..i + 1], names, formatF64), "  ")
      == RenderAll(ObjectElements(anns[..i], names, formatF64), "  ")
         + Render(ObjectElement(anns[i], names[anns[i].categoryId], formatF64), "  ")
  {
    var obj := ObjectElement(anns[i], names[anns[i].categoryId], formatF64);
    assert ObjectElements(anns[..i + 1], names, formatF64) == ObjectElements(anns[..i], names, formatF64) + [obj];
    RenderAllAppend(ObjectElements(anns[..i], names, formatF64), [obj], "  ");
    assert RenderAll([obj], "  ") == Render(obj, "  ") + RenderAll([], "  ");
  }

  // ------------------------------------------------------------ the directory

  /** `files` followed by the documents of `r`, or the error of `r`. */
  function Prepend(files: seq<VocFile>, r: Result<seq<VocFile>, WriteError>): Result<seq<VocFile>, WriteError> {
    match r
    case Err(e) => Err(e)
    case Ok(rest) => Ok(files + rest)
  }

  /**
   * The documents of `images` in order. Each image takes its group out of
   * the map (`remove`), so a later image with the same ID gets no objects;
   * the first document that fails fails the whole.
   */
  function FilesFrom(images: seq<Image>, byImage: map<nat, seq<Annotation>>, names: map<nat, string>,
                     formatF64: F64Formatter): Result<seq<VocFile>, WriteError>
    decreases |images|
  {
    if |images| == 0 then Ok([])
    else
      match VocText(images[0], GroupOf(images[0], byImage), names, formatF64)
      case Err(e) => Err(e)
      case Ok(lines) =>
        Prepend([VocFile(images[0].fileName, lines)],
                FilesFrom(images[1..], Taken(byImage, images[0].id), names, formatF64))
  }

  /** The whole of `write_voc_dir` as a value. */
  function WriteVoc(d: Dataset, formatF64: F64Formatter): Result<seq<VocFile>, WriteError> {
    var names := CategoryNameById(d.categories);
    match FirstRefError(d.annotations, ImageIds(d.images), names.Keys)
    case Some(e) => Err(e)
    case None => FilesFrom(SortedImages(d), Group(d.annotations), names, formatF64)
  }

  /** Writes one document per image in order, taking each image's group out of the map. */
  method WriteFiles(images: seq<Image>, byImage: map<nat, seq<Annotation>>, names: map<nat, string>,
                    formatF64: F64Formatter)
    returns (r: Result<seq<VocFile>, WriteError>)
    ensures r == FilesFrom(images, byImage, names, formatF64)
  {
    var files: seq<VocFile> := [];
    var remaining := byImage;
    assert images[0..] == images;
    PrependEmpty(FilesFrom(images, byImage, names, formatF64));
    for i := 0 to |images|
      invariant Prepend(files, FilesFrom(images[i..], remaining, names, formatF64))
        == FilesFrom(images, byImage, names, formatF64)
    {
      var image := images[i];
      var group := SortBy(Get(remaining, image.id), AnnotationIdLe);
      var lines := WriteVocXml(image, group, names, formatF64);
      FilesFromStep(images, i, remaining, names, formatF64);
      if lines.Err? {
        return Err(lines.error);
      }
      var next := Taken(remaining, image.id);
      PrependTwice(files, VocFile(image.fileName, lines.value), FilesFrom(images[i + 1..], next, names, formatF64));
      files := files + [VocFile(image.fileName, lines.value)];
      remaining := next;
    }
    assert images[|images|..] == [] && files + [] == files;
    return Ok(files);
  }

  lemma FilesFromStep(images: seq<Image>, i: nat, byImage: map<nat, seq<Annotation>>, names: map<nat, string>,
                      formatF64: F64Formatter)
    requires i < |images|
    ensures VocText(images[i], GroupOf(images[i], byImage), names, formatF64).Err? ==>
      FilesFrom(images[i..], byImage, names, formatF64) == Err(VocText(images[i], GroupOf(images[i], byImage), names, formatF64).error)
    ensures VocText(images[i], GroupOf(images[i], byImage), names, formatF64).Ok? ==>
      FilesFrom(images[i..], byImage, names, formatF64)
        == Prepend([VocFile(images[i].fileName, VocText(images[i], GroupOf(images[i], byImage), names, formatF64).value)],
                   FilesFrom(images[i + 1..], Taken(byImage, images[i].id), names, formatF64))
  {
    assert images[i..][0] == images[i];
    assert images[i..][1..] == images[i + 1..];
  }

  lemma PrependEmpty(r: Result<seq<VocFile>, WriteError>)
    ensures Prepend([], r) == r
  {
    if r.Ok? {
      assert [] + r.value == r.value;
    }
  }

  lemma PrependTwice(files: seq<VocFile>, f: VocFile, r: Result<seq<VocFile>, WriteError>)
    ensures Prepend(files, Prepend([f], r)) == Prepend(files + [f], r)
  {
    if r.Ok? {
      Seqs.AppendAssoc(files, [f], r.value);
    }
  }

  /** `write_voc_dir`: checks and groups the annotations, then writes each image's document in file-name order. */
  method WriteVocDir(d: Dataset, formatF64: F64Formatter) returns (r: Result<seq<VocFile>, WriteError>)
    ensures r == WriteVoc(d, formatF64)
  {
    var names := CategoryNameById(d.categories);
    var grouped := GroupAnnotations(d.annotations, ImageIds(d.images), names.Keys);
    if grouped.Err? {
      return Err(grouped.error);
    }
    r := WriteFiles(SortedImages(d), grouped.value, names, formatF64);
  }

  // ------------------------------------------------------------ properties

  /** With every category named, every document is written, one per image and under its file name. */
  lemma {:induction false} FilesFromOk(images: seq<Image>, byImage: map<nat, seq<Annotation>>,
                                       names: map<nat, string>, formatF64: F64Formatter)
    requires KnownGroups(byImage, names)
    ensures FilesFrom(images, byImage, names, formatF64).Ok?
    ensures |FilesFrom(images, byImage, names, formatF64).value| == |images|
    ensures forall i :: 0 <= i < |images| ==>
      FilesFrom(images, byImage, names, formatF64).value[i].imageFileName == images[i].fileName
    decreases |images|
  {
    if |images| > 0 {
      var image := images[0];
      GroupOfKnown(image, byImage, names);
      var taken := Taken(byImage, image.id);
      TakenKnown(byImage, image.id, names);
      FilesFromOk(images[1..], taken, names, formatF64);
    }
  }

  /**
   * The writer fails exactly when some annotation names a missing image or
   * category, and the error is that of the first such annotation, image
   * checked before category.
   */
  lemma WriteVocErrors(d: Dataset, formatF64: F64Formatter)
    ensures WriteVoc(d, formatF64).Ok? <==>
      forall k :: 0 <= k < |d.annotations| ==>
        HasImage(d, d.annotations[k].imageId) && HasCategory(d, d.annotations[k].categoryId)
    ensures WriteVoc(d, formatF64).Err? ==>
      exists k :: FailsFirstAt(d.annotations, k, WriteVoc(d, formatF64).error, ImageIds(d.images),
                               CategoryNameById(d.categories).Keys)
  {
    var names := CategoryNameById(d.categories);
    FirstRefErrorSound(d.annotations, ImageIds(d.images), names.Keys);
    forall id ensures id in names.Keys <==> id in CategoryIds(d.categories) {
      CategoryNameByIdSound(d.categories, id);
    }
    if FirstRefError(d.annotations, ImageIds(d.images), names.Keys).None? {
      GroupKnown(d.annotations, names);
      FilesFromOk(SortedImages(d), Group(d.annotations), names, formatF64);
    }
  }

  /** The image file names of a list of documents. */
  function FileNames(files: seq<VocFile>): seq<string> {
    Seqs.Map(files, (f: VocFile) => f.imageFileName)
  }

  /**
   * Every image gets exactly one document, in ascending file-name order,
   * annotated or not.
   */
  lemma WriteVocFiles(d: Dataset, formatF64: F64Formatter)
    requires WriteVoc(d, formatF64).Ok?
    ensures |WriteVoc(d, formatF64).value| == |d.images|
    ensures multiset(FileNames(WriteVoc(d, formatF64).value)) == multiset(ImageFileNames(d.images))
    ensures SortedBy(FileNames(WriteVoc(d, formatF64).value), StrOrder.Le)
  {
    var sorted := SortedImages(d);
    var names := CategoryNameById(d.categories);
    WriteVocErrors(d, formatF64);
    FirstRefErrorSound(d.annotations, ImageIds(d.images), names.Keys);
    GroupKnown(d.annotations, names);
    FilesFromOk(sorted, Group(d.annotations), names, formatF64);
    assert FileNames(WriteVoc(d, formatF64).value) == ImageFileNames(sorted);
    SortedImageNames(d);
  }

  /** With distinct image IDs, each image's document is built from its whole group. */
  lemma {:induction false} FilesFromDistinct(images: seq<Image>, byImage: map<nat, seq<Annotation>>,
                                             names: map<nat, string>, formatF64: F64Formatter)
    requires Seqs.Distinct(ImageIds(images)) && KnownGroups(byImage, names)
    ensures FilesFrom(images, byImage, names, formatF64).Ok?
    ensures |FilesFrom(images, byImage, names, formatF64).value| == |images|
    ensures forall i :: 0 <= i < |images| ==>
      VocText(images[i], GroupOf(images[i], byImage), names, formatF64)
        == Ok(FilesFrom(images, byImage, names, formatF64).value[i].lines)
    decreases |images|
  {
    FilesFromOk(images, byImage, names, formatF64);
    if |images| > 0 {
      var rest, taken := images[1..], Taken(byImage, images[0].id);
      TakenKnown(byImage, images[0].id, names);
      assert Seqs.Distinct(ImageIds(rest)) by {
        assert ImageIds(rest) == ImageIds(images)[1..];
      }
      FilesFromDistinct(rest, taken, names, formatF64);
      var whole := FilesFrom(images, byImage, names, formatF64).value;
      var tail := FilesFrom(rest, taken, names, formatF64).value;
      var head := VocText(images[0], GroupOf(images[0], byImage), names, formatF64);
      assert head.Ok? && whole == [VocFile(images[0].fileName, head.value)] + tail;
      forall i | 0 <= i < |images|
        ensures VocText(images[i], GroupOf(images[i], byImage), names, formatF64) == Ok(whole[i].lines)
      {
        if i > 0 {
          GroupAfterTaken(images, byImage, i);
          assert whole[i] == tail[i - 1] && images[i] == rest[i - 1];
        }
      }
    }
  }

  /** Taking the first image's group out leaves the group of every other image of distinct ID alone. */
  lemma GroupAfterTaken(images: seq<Image>, byImage: map<nat, seq<Annotation>>, i: nat)
    requires Seqs.Distinct(ImageIds(images)) && 0 < i < |images|
    ensures GroupOf(images[i], Taken(byImage, images[0].id)) == GroupOf(images[i], byImage)
  {
    assert ImageIds(images)[i] != ImageIds(images)[0];
  }

  /**
   * When image IDs are distinct, the document of the `i`-th image in
   * file-name order lists exactly that image's annotations in ascending ID
   * order.
   */
  lemma WriteVocDocuments(d: Dataset, formatF64: F64Formatter, i: nat)
    requires WriteVoc(d, formatF64).Ok? && Seqs.Distinct(ImageIds(d.images))
    requires i < |d.images|
    ensures |WriteVoc(d, formatF64).value| == |d.images|
    ensures VocText(SortedImages(d)[i], ImageAnnotations(d, SortedImages(d)[i]), CategoryNameById(d.categories),
                    formatF64) == Ok(WriteVoc(d, formatF64).value[i].lines)
  {
    var sorted := SortedImages(d);
    var names := CategoryNameById(d.categories);
    WriteVocErrors(d, formatF64);
    FirstRefErrorSound(d.annotations, ImageIds(d.images), names.Keys);
    GroupKnown(d.annotations, names);
    SortedImageIdsDistinct(d);
    FilesFromDistinct(sorted, Group(d.annotations), names, formatF64);
    GroupOfGrouped(d, sorted[i]);
  }
}
