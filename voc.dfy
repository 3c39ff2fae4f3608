// The Pascal VOC adapter (src/ir/io_voc_xml.rs): one XML document per image
// under `Annotations/`. Reading parses every document, rejects a file name
// that two documents share, and numbers images and categories in
// lexicographic order and annotations in document order. Writing checks every
// annotation's references and then emits one document per image in file-name
// order. Documents are element trees (`XmlTree.Element`); the f64 parser and
// formatter are parameters.
module VocXml {
  import opened Wrappers
  import opened BBoxes
  import opened Ir
  import opened StrOrder
  import opened Sorting
  import opened Text
  import opened Numbers
  import opened XmlTree
  import opened Grouping
  import Seqs

  /** `ParsedVocObject`: one `<object>`. */
  datatype VocObject = VocObject(name: string, xmin: real, ymin: real, xmax: real, ymax: real,
                                 attrs: map<string, string>)

  /** `ParsedVocAnnotation`: one document. */
  datatype ParsedVoc = ParsedVoc(filename: string, width: nat, height: nat, depth: Option<nat>,
                                 objects: seq<VocObject>)

  /** Why a document is rejected (the message of `PanlabelError::VocXmlParse`). */
  datatype ParseError =
    | MissingRoot
    | MissingChild(tag: string, context: string)
    | InvalidU32(tag: string, raw: string)
    | InvalidF64(tag: string, raw: string)

  /** `str::parse::<f64>` on a finite value. */
  type F64Parser = string -> Option<real>

  /** The attributes an `<object>` may carry, in the order they are read. */
  const AttrKeys: seq<string> := ["pose", "truncated", "difficult", "occluded"]

  // ------------------------------------------------------------ one document

  function RequiredChildElement(e: Element, tag: string, context: string): Result<Element, ParseError> {
    match ChildElement(e, tag)
    case None => Err(MissingChild(tag, context))
    case Some(child) => Ok(child)
  }

  function RequiredChildText(e: Element, tag: string, context: string): Result<string, ParseError> {
    match OptionalChildText(e, tag)
    case None => Err(MissingChild(tag, context))
    case Some(text) => Ok(text)
  }

  function ParseRequiredU32(e: Element, tag: string, context: string): Result<nat, ParseError> {
    match RequiredChildText(e, tag, context)
    case Err(err) => Err(err)
    case Ok(raw) =>
      match ParseU32(raw)
      case None => Err(InvalidU32(tag, raw))
      case Some(v) => Ok(v)
  }

  function ParseRequiredF64(e: Element, tag: string, context: string, parseF64: F64Parser): Result<real, ParseError> {
    match RequiredChildText(e, tag, context)
    case Err(err) => Err(err)
    case Ok(raw) =>
      match parseF64(raw)
      case None => Err(InvalidF64(tag, raw))
      case Some(v) => Ok(v)
  }

  /** The attributes of an `<object>`: each of `keys` whose child holds non-blank text, trimmed. */
  function ObjectAttrs(obj: Element, keys: seq<string>): (attrs: map<string, string>)
    ensures forall k :: k in attrs <==> k in keys && OptionalChildText(obj, k).Some?
    ensures forall k :: k in attrs ==> attrs[k] == OptionalChildText(obj, k).value
  {
    if |keys| == 0 then map[]
    else
      var rest := ObjectAttrs(obj, keys[..|keys| - 1]);
      var key := keys[|keys| - 1];
      assert forall k :: k in keys <==> k in keys[..|keys| - 1] || k == key;
      match OptionalChildText(obj, key)
      case None => rest
      case Some(v) => rest[key := v]
  }

  /** One `<object>`: its name, its `<bndbox>` corners and its attributes. */
  function ParseObject(obj: Element, parseF64: F64Parser): (r: Result<VocObject, ParseError>)
    ensures r.Ok? ==> r.value.name != "" && r.value.name == Trim(r.value.name)
    ensures r.Ok? ==> forall k :: k in r.value.attrs ==> k in AttrKeys && r.value.attrs[k] != ""
  {
    match RequiredChildText(obj, "name", "<object>")
    case Err(e) => Err(e)
    case Ok(name) =>
      match RequiredChildElement(obj, "bndbox", "<object>")
      case Err(e) => Err(e)
      case Ok(bndbox) =>
        match ParseRequiredF64(bndbox, "xmin", "<bndbox>", parseF64)
        case Err(e) => Err(e)
        case Ok(xmin) =>
          match ParseRequiredF64(bndbox, "ymin", "<bndbox>", parseF64)
          case Err(e) => Err(e)
          case Ok(ymin) =>
            match ParseRequiredF64(bndbox, "xmax", "<bndbox>", parseF64)
            case Err(e) => Err(e)
            case Ok(xmax) =>
              match ParseRequiredF64(bndbox, "ymax", "<bndbox>", parseF64)
              case Err(e) => Err(e)
              case Ok(ymax) => Ok(VocObject(name, xmin, ymin, xmax, ymax, ObjectAttrs(obj, AttrKeys)))
  }

  type ObjectParser = Element -> Result<VocObject, ParseError>

  function ObjectParserOf(parseF64: F64Parser): (parse: ObjectParser)
    ensures forall obj :: parse(obj) == ParseObject(obj, parseF64)
  {
    (obj: Element) => ParseObject(obj, parseF64)
  }

  /** The `<object>` children parsed in document order; the first failure is the result. */
  function ParseObjects(objs: seq<Element>, parse: ObjectParser): (r: Result<seq<VocObject>, ParseError>)
    ensures r.Ok? <==> forall k :: 0 <= k < |objs| ==> parse(objs[k]).Ok?
    ensures r.Ok? ==> |r.value| == |objs|
    ensures r.Ok? ==> forall k :: 0 <= k < |objs| ==> r.value[k] == parse(objs[k]).value
  {
    if |objs| == 0 then Ok([])
    else
      var pre := objs[..|objs| - 1];
      assert forall k :: 0 <= k < |pre| ==> pre[k] == objs[k];
      match ParseObjects(pre, parse)
      case Err(e) => Err(e)
      case Ok(done) =>
        match parse(objs[|objs| - 1])
        case Err(e) => Err(e)
        case Ok(o) => Ok(done + [o])
  }

  /** `<size>`: the required width and height and the optional depth, each a `u32`. */
  function ParseSize(size: Element): (r: Result<(nat, nat, Option<nat>), ParseError>)
    ensures r.Ok? ==> r.value.0 <= U32_MAX && r.value.1 <= U32_MAX
    ensures r.Ok? && r.value.2.Some? ==> r.value.2.value <= U32_MAX
  {
    match ParseRequiredU32(size, "width", "<size>")
    case Err(e) => Err(e)
    case Ok(width) =>
      match ParseRequiredU32(size, "height", "<size>")
      case Err(e) => Err(e)
      case Ok(height) =>
        match OptionalChildText(size, "depth")
        case None => Ok((width, height, None))
        case Some(raw) =>
          match ParseU32(raw)
          case None => Err(InvalidU32("depth", raw))
          case Some(depth) => Ok((width, height, Some(depth)))
  }

  /** The root must be `<annotation>`, with a non-blank `<filename>` and a `<size>`. */
  function ParseHeader(root: Element): (r: Result<(string, (nat, nat, Option<nat>)), ParseError>)
    ensures root.tag != "annotation" ==> r == Err(MissingRoot)
    ensures r.Ok? ==> r.value.0 != "" && r.value.0 == Trim(r.value.0)
  {
    if root.tag != "annotation" then Err(MissingRoot)
    else
      match RequiredChildText(root, "filename", "<annotation>")
      case Err(e) => Err(e)
      case Ok(filename) =>
        match RequiredChildElement(root, "size", "<annotation>")
        case Err(e) => Err(e)
        case Ok(size) =>
          match ParseSize(size)
          case Err(e) => Err(e)
          case Ok(dims) => Ok((filename, dims))
  }

  /** `parse_voc_xml_str` on a parsed document tree. */
  function ParseVoc(root: Element, parseF64: F64Parser): (r: Result<ParsedVoc, ParseError>)
    ensures root.tag != "annotation" ==> r == Err(MissingRoot)
    ensures r.Ok? ==> r.value.filename != "" && r.value.filename == Trim(r.value.filename)
    ensures r.Ok? ==> |r.value.objects| == |ChildrenWithTag(root, "object")|
  {
    match ParseHeader(root)
    case Err(e) => Err(e)
    case Ok((filename, (width, height, depth))) =>
      match ParseObjects(ChildrenWithTag(root, "object"), ObjectParserOf(parseF64))
      case Err(e) => Err(e)
      case Ok(objects) => Ok(ParsedVoc(filename, width, height, depth, objects))
  }

  /**
   * A parsed document has one object per `<object>` child, in order, each
   * named and carrying only the `pose`, `truncated`, `difficult` and
   * `occluded` attributes.
   */
  lemma ParseVocObjects(root: Element, parseF64: F64Parser)
    requires ParseVoc(root, parseF64).Ok?
    ensures var objs, parsed := ChildrenWithTag(root, "object"), ParseVoc(root, parseF64).value.objects;
      forall k :: 0 <= k < |parsed| ==> ParseObject(objs[k], parseF64) == Ok(parsed[k])
    ensures forall o :: o in ParseVoc(root, parseF64).value.objects ==>
      o.name != "" && forall key :: key in o.attrs ==> key in AttrKeys
  {
  }

  /** `parse_voc_xml_str`: the header, then each `<object>` in turn. */
  method ParseVocXmlStr(root: Element, parseF64: F64Parser) returns (r: Result<ParsedVoc, ParseError>)
    ensures r == ParseVoc(root, parseF64)
  {
    var header := ParseHeader(root);
    if header.Err? {
      return Err(header.error);
    }
    var (filename, (width, height, depth)) := header.value;
    var objects := ParseObjectList(ChildrenWithTag(root, "object"), ObjectParserOf(parseF64));
    if objects.Err? {
      return Err(objects.error);
    }
    return Ok(ParsedVoc(filename, width, height, depth, objects.value));
  }

  /** The loop over the `<object>` children, stopping at the first failure. */
  method ParseObjectList(objs: seq<Element>, parse: ObjectParser) returns (r: Result<seq<VocObject>, ParseError>)
    ensures r == ParseObjects(objs, parse)
  {
    var objects: seq<VocObject> := [];
    assert objs[..0] == [];
    for i := 0 to |objs|
      invariant ParseObjects(objs[..i], parse) == Ok(objects)
    {
      var o := parse(objs[i]);
      assert objs[..i + 1][..i] == objs[..i];
      if o.Err? {
        ParseObjectsErrPersists(objs, i + 1, parse);
        return Err(o.error);
      }
      objects := objects + [o.value];
    }
    assert objs[..|objs|] == objs;
    return Ok(objects);
  }

  /** A failure within a prefix is the failure of the whole list. */
  lemma {:induction false} ParseObjectsErrPersists(objs: seq<Element>, i: nat, parse: ObjectParser)
    requires i <= |objs| && ParseObjects(objs[..i], parse).Err?
    ensures ParseObjects(objs, parse) == ParseObjects(objs[..i], parse)
    decreases |objs|
  {
    if i < |objs| {
      var pre := objs[..|objs| - 1];
      assert pre[..i] == objs[..i];
      ParseObjectsErrPersists(pre, i, parse);
    } else {
      assert objs[..i] == objs;
    }
  }

  // ------------------------------------------------------------ the directory

  /** One file of `Annotations/`: its path relative to that directory and its document tree. */
  datatype XmlFile = XmlFile(rel: string, root: Element)

  /** Why `read_voc_dir` fails. */
  datatype ReadError =
    | ParseFailed(rel: string, error: ParseError)
    | DuplicateFilename(rel: string, filename: string)

  type VocParser = Element -> Result<ParsedVoc, ParseError>

  function VocParserOf(parseF64: F64Parser): (parse: VocParser)
    ensures forall root :: parse(root) == ParseVoc(root, parseF64)
  {
    (root: Element) => ParseVoc(root, parseF64)
  }

  /** The order the files are read in: by relative path. */
  predicate XmlRelLe(a: XmlFile, b: XmlFile) {
    Le(a.rel, b.rel)
  }

  function SortedFiles(files: seq<XmlFile>): seq<XmlFile> {
    SortBy(files, XmlRelLe)
  }

  /** Every file parsed in order; the first failure is the result. */
  function ParseAll(files: seq<XmlFile>, parse: VocParser): (r: Result<seq<ParsedVoc>, ReadError>)
    ensures r.Ok? <==> forall k :: 0 <= k < |files| ==> parse(files[k].root).Ok?
    ensures r.Ok? ==> |r.value| == |files|
    ensures r.Ok? ==> forall k :: 0 <= k < |files| ==> parse(files[k].root) == Ok(r.value[k])
  {
    if |files| == 0 then Ok([])
    else
      var pre := files[..|files| - 1];
      assert forall k :: 0 <= k < |pre| ==> pre[k] == files[k];
      var last := files[|files| - 1];
      match ParseAll(pre, parse)
      case Err(e) => Err(e)
      case Ok(done) =>
        match parse(last.root)
        case Err(e) => Err(ParseFailed(last.rel, e))
        case Ok(p) => Ok(done + [p])
  }

  lemma ParseAllStep(files: seq<XmlFile>, i: nat, parse: VocParser)
    requires i < |files|
    ensures ParseAll(files[..i + 1], parse) ==
      match ParseAll(files[..i], parse)
      case Err(e) => Err(e)
      case Ok(done) =>
        match parse(files[i].root)
        case Err(e) => Err(ParseFailed(files[i].rel, e))
        case Ok(p) => Ok(done + [p])
  {
    assert files[..i + 1][..i] == files[..i];
  }

  lemma {:induction false} ParseAllErrPersists(files: seq<XmlFile>, i: nat, parse: VocParser)
    requires i <= |files| && ParseAll(files[..i], parse).Err?
    ensures ParseAll(files, parse) == ParseAll(files[..i], parse)
    decreases |files|
  {
    if i < |files| {
      var pre := files[..|files| - 1];
      assert pre[..i] == files[..i];
      ParseAllErrPersists(pre, i, parse);
    } else {
      assert files[..i] == files;
    }
  }

  function FileNamesOf(parsed: seq<ParsedVoc>): (names: seq<string>)
    ensures |names| == |parsed| && forall k :: 0 <= k < |parsed| ==> names[k] == parsed[k].filename
  {
    seq(|parsed|, k requires 0 <= k < |parsed| => parsed[k].filename)
  }

  function ObjectNames(objects: seq<VocObject>): (names: seq<string>)
    ensures |names| == |objects| && forall k :: 0 <= k < |objects| ==> names[k] == objects[k].name
  {
    seq(|objects|, k requires 0 <= k < |objects| => objects[k].name)
  }

  /** Every object name, file by file (what `category_names` receives). */
  function AllObjectNames(parsed: seq<ParsedVoc>): seq<string> {
    if |parsed| == 0 then []
    else AllObjectNames(parsed[..|parsed| - 1]) + ObjectNames(parsed[|parsed| - 1].objects)
  }

  /** Every object's name is collected. */
  lemma {:induction false} ObjectNameCollected(parsed: seq<ParsedVoc>, k: nat, j: nat)
    requires k < |parsed| && j < |parsed[k].objects|
    ensures parsed[k].objects[j].name in AllObjectNames(parsed)
    decreases |parsed|
  {
    var pre := parsed[..|parsed| - 1];
    if k < |parsed| - 1 {
      assert pre[k] == parsed[k];
      ObjectNameCollected(pre, k, j);
    } else {
      assert ObjectNames(parsed[k].objects)[j] == parsed[k].objects[j].name;
    }
  }

  /** Only objects' names are collected. */
  lemma {:induction false} CollectedNameOfObject(parsed: seq<ParsedVoc>, n: string)
    requires n in AllObjectNames(parsed)
    ensures exists k, j :: 0 <= k < |parsed| && 0 <= j < |parsed[k].objects| && parsed[k].objects[j].name == n
    decreases |parsed|
  {
    var pre, last := parsed[..|parsed| - 1], parsed[|parsed| - 1];
    if n in AllObjectNames(pre) {
      CollectedNameOfObject(pre, n);
      var k, j :| 0 <= k < |pre| && 0 <= j < |pre[k].objects| && pre[k].objects[j].name == n;
      assert parsed[k] == pre[k];
    } else {
      var j :| 0 <= j < |last.objects| && ObjectNames(last.objects)[j] == n;
      assert parsed[|parsed| - 1].objects[j].name == n;
    }
  }

  /**
   * The first file whose `<filename>` an earlier file already had: the
   * files before it have distinct names, and there is none exactly when
   * all names are distinct.
   */
  function FirstDuplicate(parsed: seq<ParsedVoc>): (r: Option<nat>)
    ensures r.Some? ==> r.value < |parsed| && parsed[r.value].filename in FileNamesOf(parsed[..r.value])
    ensures r.Some? ==> Seqs.Distinct(FileNamesOf(parsed[..r.value]))
    ensures r.None? <==> Seqs.Distinct(FileNamesOf(parsed))
  {
    if |parsed| == 0 then None
    else
      var pre, last := parsed[..|parsed| - 1], parsed[|parsed| - 1];
      assert FileNamesOf(parsed) == FileNamesOf(pre) + [last.filename];
      Seqs.DistinctSnoc(FileNamesOf(pre), last.filename);
      match FirstDuplicate(pre)
      case Some(i) =>
        assert parsed[..i] == pre[..i];
        Some(i)
      case None =>
        if last.filename in FileNamesOf(pre) then Some(|parsed| - 1) else None
  }

  lemma {:induction false} FirstDuplicatePersists(parsed: seq<ParsedVoc>, i: nat)
    requires i <= |parsed| && FirstDuplicate(parsed[..i]).Some?
    ensures FirstDuplicate(parsed) == FirstDuplicate(parsed[..i])
    decreases |parsed|
  {
    if i < |parsed| {
      var pre := parsed[..|parsed| - 1];
      assert pre[..i] == parsed[..i];
      FirstDuplicatePersists(pre, i);
    } else {
      assert parsed[..i] == parsed;
    }
  }

  /** `image_defs`: each file's size under its file name (the last file wins). */
  function DefsOf(parsed: seq<ParsedVoc>): (defs: map<string, ParsedVoc>)
    ensures forall n :: n in defs <==> n in FileNamesOf(parsed)
  {
    if |parsed| == 0 then map[]
    else
      var pre, last := parsed[..|parsed| - 1], parsed[|parsed| - 1];
      assert FileNamesOf(parsed) == FileNamesOf(pre) + [last.filename];
      DefsOf(pre)[last.filename := last]
  }

  /** With distinct file names, each name's definition is its own file's. */
  lemma {:induction false} DefsOfDistinct(parsed: seq<ParsedVoc>, k: nat)
    requires Seqs.Distinct(FileNamesOf(parsed)) && k < |parsed|
    ensures DefsOf(parsed)[parsed[k].filename] == parsed[k]
    decreases |parsed|
  {
    var pre, last := parsed[..|parsed| - 1], parsed[|parsed| - 1];
    assert FileNamesOf(parsed) == FileNamesOf(pre) + [last.filename];
    Seqs.DistinctSnoc(FileNamesOf(pre), last.filename);
    if k < |parsed| - 1 {
      assert pre[k] == parsed[k];
      DefsOfDistinct(pre, k);
      assert parsed[k].filename in FileNamesOf(pre);
    }
  }

  /** The `idx`-th image in file-name order, with its size and the `depth` attribute when present. */
  function ImageOf(idx: nat, p: ParsedVoc): Image {
    var image := NewImage(idx + 1, p.filename, p.width, p.height);
    match p.depth
    case None => image
    case Some(depth) => image.(attributes := image.attributes["depth" := NatToString(depth)])
  }

  function VocImages(imageNames: seq<string>, defs: map<string, ParsedVoc>): (images: seq<Image>)
    requires forall n :: n in imageNames ==> n in defs
    ensures |images| == |imageNames|
    ensures forall k :: 0 <= k < |imageNames| ==> images[k] == ImageOf(k, defs[imageNames[k]])
  {
    seq(|imageNames|, k requires 0 <= k < |imageNames| => ImageOf(k, defs[imageNames[k]]))
  }

  function VocCategories(categoryNames: seq<string>): (categories: seq<Category>)
    ensures |categories| == |categoryNames|
    ensures forall k :: 0 <= k < |categoryNames| ==> categories[k] == NewCategory(k + 1, categoryNames[k])
  {
    seq(|categoryNames|, k requires 0 <= k < |categoryNames| => NewCategory(k + 1, categoryNames[k]))
  }

  /** The annotation for one object: its box as parsed and its attributes. */
  function AnnotationOf(id: nat, imageId: nat, categoryId: nat, o: VocObject): Annotation {
    NewAnnotation(id, imageId, categoryId, FromXyxy(o.xmin, o.ymin, o.xmax, o.ymax)).(attributes := o.attrs)
  }

  /** Every object's name is among `categoryNames`. */
  predicate ObjectsKnown(objects: seq<VocObject>, categoryNames: seq<string>) {
    forall j :: 0 <= j < |objects| ==> objects[j].name in categoryNames
  }

  /** Every file's name and every object's name has been collected. */
  predicate NamesKnown(parsed: seq<ParsedVoc>, imageNames: seq<string>, categoryNames: seq<string>) {
    forall k :: 0 <= k < |parsed| ==> parsed[k].filename in imageNames && ObjectsKnown(parsed[k].objects, categoryNames)
  }

  /** One file's annotations, numbered from `firstId` in `<object>` order. */
  function FileAnnotations(p: ParsedVoc, imageId: nat, categoryNames: seq<string>, firstId: nat): (anns: seq<Annotation>)
    requires ObjectsKnown(p.objects, categoryNames)
    ensures |anns| == |p.objects|
    ensures forall j :: 0 <= j < |p.objects| ==>
      anns[j] == AnnotationOf(firstId + j, imageId, IndexOf(categoryNames, p.objects[j].name) + 1, p.objects[j])
  {
    seq(|p.objects|, j requires 0 <= j < |p.objects| =>
      AnnotationOf(firstId + j, imageId, IndexOf(categoryNames, p.objects[j].name) + 1, p.objects[j]))
  }

  /** The annotations of `parsed`, file after file, numbered from `firstId`. */
  function AnnotationsFrom(parsed: seq<ParsedVoc>, imageNames: seq<string>, categoryNames: seq<string>,
                           firstId: nat): seq<Annotation>
    requires NamesKnown(parsed, imageNames, categoryNames)
    decreases |parsed|
  {
    if |parsed| == 0 then []
    else
      var p := parsed[0];
      assert NamesKnown(parsed[1..], imageNames, categoryNames) by {
        assert forall k :: 0 <= k < |parsed| - 1 ==> parsed[1..][k] == parsed[k + 1];
      }
      FileAnnotations(p, IndexOf(imageNames, p.filename) + 1, categoryNames, firstId)
      + AnnotationsFrom(parsed[1..], imageNames, categoryNames, firstId + |p.objects|)
  }

  /** The whole of `read_voc_dir` over the files of `Annotations/`. */
  function ReadVoc(files: seq<XmlFile>, parse: VocParser): (r: Result<Dataset, ReadError>)
    ensures ParseAll(SortedFiles(files), parse).Err? ==> r == Err(ParseAll(SortedFiles(files), parse).error)
    ensures ParseAll(SortedFiles(files), parse).Ok? ==>
      (r.Err? <==> !Seqs.Distinct(FileNamesOf(ParseAll(SortedFiles(files), parse).value)))
    ensures r.Ok? ==> r.value == Assemble(ParseAll(SortedFiles(files), parse).value)
  {
    var sorted := SortedFiles(files);
    match ParseAll(sorted, parse)
    case Err(e) => Err(e)
    case Ok(parsed) =>
      match FirstDuplicate(parsed)
      case Some(i) => Err(DuplicateFilename(sorted[i].rel, parsed[i].filename))
      case None => Ok(Assemble(parsed))
  }

  /** The dataset built from documents with distinct file names. */
  function Assemble(parsed: seq<ParsedVoc>): Dataset {
    Dataset(DefaultInfo(), [], ImageList(parsed), CategoryList(parsed), AnnotationList(parsed))
  }

  /** One image per collected file name, in name order. */
  function ImageList(parsed: seq<ParsedVoc>): seq<Image> {
    DefsCoverNames(parsed);
    VocImages(SortDedup(FileNamesOf(parsed)), DefsOf(parsed))
  }

  /** One category per collected object name, in name order. */
  function CategoryList(parsed: seq<ParsedVoc>): seq<Category> {
    VocCategories(SortDedup(AllObjectNames(parsed)))
  }

  /** One annotation per object, numbered from 1. */
  function AnnotationList(parsed: seq<ParsedVoc>): seq<Annotation> {
    CollectedNamesKnown(parsed);
    AnnotationsFrom(parsed, SortDedup(FileNamesOf(parsed)), SortDedup(AllObjectNames(parsed)), 1)
  }

  /** `image_defs` holds every collected file name, each under its own document. */
  lemma {:induction false} DefsCoverNames(parsed: seq<ParsedVoc>)
    ensures forall n :: n in SortDedup(FileNamesOf(parsed)) ==> n in DefsOf(parsed)
    ensures forall n :: n in DefsOf(parsed) ==> DefsOf(parsed)[n].filename == n
    decreases |parsed|
  {
    if |parsed| > 0 {
      DefsCoverNames(parsed[..|parsed| - 1]);
    }
  }

  /** Every file name and object name is among the collected ones. */
  lemma CollectedNamesKnown(parsed: seq<ParsedVoc>)
    ensures NamesKnown(parsed, SortDedup(FileNamesOf(parsed)), SortDedup(AllObjectNames(parsed)))
  {
    forall k | 0 <= k < |parsed|
      ensures parsed[k].filename in FileNamesOf(parsed)
      ensures ObjectsKnown(parsed[k].objects, AllObjectNames(parsed))
    {
      assert FileNamesOf(parsed)[k] == parsed[k].filename;
      forall j | 0 <= j < |parsed[k].objects| ensures parsed[k].objects[j].name in AllObjectNames(parsed) {
        ObjectNameCollected(parsed, k, j);
      }
    }
  }

  lemma NamesKnownSuffix(parsed: seq<ParsedVoc>, i: nat, imageNames: seq<string>, categoryNames: seq<string>)
    requires NamesKnown(parsed, imageNames, categoryNames) && i <= |parsed|
    ensures NamesKnown(parsed[i..], imageNames, categoryNames)
  {
    assert forall k :: 0 <= k < |parsed| - i ==> parsed[i..][k] == parsed[i + k];
  }

  /** `parse_voc_xml` on every file in turn, stopping at the first failure. */
  method ParseFiles(files: seq<XmlFile>, parseF64: F64Parser) returns (r: Result<seq<ParsedVoc>, ReadError>)
    ensures r == ParseAll(files, VocParserOf(parseF64))
  {
    var parse := VocParserOf(parseF64);
    var parsed: seq<ParsedVoc> := [];
    assert files[..0] == [];
    for i := 0 to |files|
      invariant ParseAll(files[..i], parse) == Ok(parsed)
    {
      var p := ParseVocXmlStr(files[i].root, parseF64);
      ParseAllStep(files, i, parse);
      if p.Err? {
        ParseAllErrPersists(files, i + 1, parse);
        return Err(ParseFailed(files[i].rel, p.error));
      }
      parsed := parsed + [p.value];
    }
    assert files[..|files|] == files;
    return Ok(parsed);
  }

  /** `category_names.insert` for each object of one file. */
  method InsertObjectNames(names: seq<string>, objects: seq<VocObject>, ghost before: seq<string>)
    returns (r: seq<string>)
    requires names == SortDedup(before)
    ensures r == SortDedup(before + ObjectNames(objects))
  {
    r := names;
    assert before + ObjectNames(objects[..0]) == before;
    for j := 0 to |objects|
      invariant r == SortDedup(before + ObjectNames(objects[..j]))
    {
      var next := InsertUnique(r, objects[j].name);
      InsertNameStep(before, objects, j, r, next);
      r := next;
    }
    assert objects[..|objects|] == objects;
  }

  /** One turn of the name-insertion loop keeps its invariant. */
  lemma InsertNameStep(before: seq<string>, objects: seq<VocObject>, j: nat, r: seq<string>, next: seq<string>)
    requires j < |objects| && r == SortDedup(before + ObjectNames(objects[..j]))
    requires next == InsertUnique(r, objects[j].name)
    ensures next == SortDedup(before + ObjectNames(objects[..j + 1]))
  {
    var name := objects[j].name;
    ObjectNamesSnoc(objects, j);
    Seqs.AppendAssoc(before, ObjectNames(objects[..j]), [name]);
    SortDedupSnoc(before + ObjectNames(objects[..j]), name);
  }

  lemma ObjectNamesSnoc(objects: seq<VocObject>, j: nat)
    requires j < |objects|
    ensures ObjectNames(objects[..j + 1]) == ObjectNames(objects[..j]) + [objects[j].name]
  {
    assert objects[..j + 1][..j] == objects[..j];
  }

  /**
   * The pass over the parsed files: the duplicate `<filename>` check, and the
   * image definitions and category names collected on the way.
   */
  method IndexFiles(files: seq<XmlFile>, parsed: seq<ParsedVoc>)
    returns (r: Result<(seq<string>, map<string, ParsedVoc>, seq<string>), ReadError>)
    requires |files| == |parsed|
    ensures r.Err? <==> FirstDuplicate(parsed).Some?
    ensures r.Err? ==> r.error == DuplicateFilename(files[FirstDuplicate(parsed).value].rel,
                                                    parsed[FirstDuplicate(parsed).value].filename)
    ensures r.Ok? ==> r.value == (SortDedup(FileNamesOf(parsed)), DefsOf(parsed), SortDedup(AllObjectNames(parsed)))
  {
    var imageNames: seq<string> := [];
    var defs: map<string, ParsedVoc> := map[];
    var categoryNames: seq<string> := [];
    assert parsed[..0] == [];
    for i := 0 to |parsed|
      invariant Indexed(parsed[..i], imageNames, defs, categoryNames)
    {
      var p := parsed[i];
      if p.filename in defs {
        DuplicateAt(parsed, i, imageNames, defs, categoryNames);
        return Err(DuplicateFilename(files[i].rel, p.filename));
      }
      var names := InsertObjectNames(categoryNames, p.objects, AllObjectNames(parsed[..i]));
      var images := InsertUnique(imageNames, p.filename);
      IndexAdvance(parsed, i, imageNames, defs, categoryNames, images, names);
      imageNames, defs, categoryNames := images, defs[p.filename := p], names;
    }
    assert parsed[..|parsed|] == parsed;
    return Ok((imageNames, defs, categoryNames));
  }

  /** What the pass has collected after the files of `pre`, none of them a duplicate. */
  predicate Indexed(pre: seq<ParsedVoc>, imageNames: seq<string>, defs: map<string, ParsedVoc>,
                    categoryNames: seq<string>) {
    && FirstDuplicate(pre).None?
    && imageNames == SortDedup(FileNamesOf(pre))
    && defs == DefsOf(pre)
    && categoryNames == SortDedup(AllObjectNames(pre))
  }

  /** One turn of the indexing pass over a file that is not a duplicate keeps its invariant. */
  lemma IndexAdvance(parsed: seq<ParsedVoc>, i: nat, imageNames: seq<string>, defs: map<string, ParsedVoc>,
                     categoryNames: seq<string>, images: seq<string>, names: seq<string>)
    requires i < |parsed| && Indexed(parsed[..i], imageNames, defs, categoryNames)
    requires parsed[i].filename !in defs
    requires images == InsertUnique(imageNames, parsed[i].filename)
    requires names == SortDedup(AllObjectNames(parsed[..i]) + ObjectNames(parsed[i].objects))
    ensures Indexed(parsed[..i + 1], images, defs[parsed[i].filename := parsed[i]], names)
  {
    IndexStep(parsed, i);
    SortDedupSnoc(FileNamesOf(parsed[..i]), parsed[i].filename);
  }

  /** A file whose name the pass has already defined is the first duplicate. */
  lemma DuplicateAt(parsed: seq<ParsedVoc>, i: nat, imageNames: seq<string>, defs: map<string, ParsedVoc>,
                    categoryNames: seq<string>)
    requires i < |parsed| && Indexed(parsed[..i], imageNames, defs, categoryNames)
    requires parsed[i].filename in defs
    ensures FirstDuplicate(parsed) == Some(i)
  {
    IndexStep(parsed, i);
    FirstDuplicatePersists(parsed, i + 1);
  }

  /** How the collected values grow by one file. */
  lemma IndexStep(parsed: seq<ParsedVoc>, i: nat)
    requires i < |parsed| && FirstDuplicate(parsed[..i]).None?
    ensures var pre, p := parsed[..i], parsed[i];
      && FileNamesOf(parsed[..i + 1]) == FileNamesOf(pre) + [p.filename]
      && DefsOf(parsed[..i + 1]) == DefsOf(pre)[p.filename := p]
      && AllObjectNames(parsed[..i + 1]) == AllObjectNames(pre) + ObjectNames(p.objects)
      && FirstDuplicate(parsed[..i + 1]) == (if p.filename in DefsOf(pre) then Some(i) else None)
  {
    var pre, p := parsed[..i], parsed[i];
    assert parsed[..i + 1][..i] == pre && parsed[..i + 1][i] == p;
    assert FileNamesOf(parsed[..i + 1]) == FileNamesOf(pre) + [p.filename];
  }

  /** One file's objects become annotations, numbered on from `firstId`. */
  method FileAnnotationList(p: ParsedVoc, imageId: nat, categoryNames: seq<string>, firstId: nat)
    returns (anns: seq<Annotation>, nextId: nat)
    requires ObjectsKnown(p.objects, categoryNames)
    ensures anns == FileAnnotations(p, imageId, categoryNames, firstId)
    ensures nextId == firstId + |p.objects|
  {
    anns := [];
    nextId := firstId;
    for j := 0 to |p.objects|
      invariant nextId == firstId + j && |anns| == j
      invariant forall t :: 0 <= t < j ==>
        anns[t] == AnnotationOf(firstId + t, imageId, IndexOf(categoryNames, p.objects[t].name) + 1, p.objects[t])
    {
      var o := p.objects[j];
      anns := anns + [AnnotationOf(nextId, imageId, IndexOf(categoryNames, o.name) + 1, o)];
      nextId := nextId + 1;
    }
  }

  /** The annotation pass: file after file, object after object, with one running ID. */
  method AssembleAnnotations(parsed: seq<ParsedVoc>, imageNames: seq<string>, categoryNames: seq<string>)
    returns (anns: seq<Annotation>)
    requires NamesKnown(parsed, imageNames, categoryNames)
    ensures anns == AnnotationsFrom(parsed, imageNames, categoryNames, 1)
  {
    anns := [];
    var nextId := 1;
    ghost var whole := AnnotationsFrom(parsed, imageNames, categoryNames, 1);
    assert parsed[0..] == parsed;
    for i := 0 to |parsed|
      invariant NamesKnown(parsed[i..], imageNames, categoryNames)
      invariant anns + AnnotationsFrom(parsed[i..], imageNames, categoryNames, nextId) == whole
    {
      var p := parsed[i];
      AnnotationsFromStep(parsed, i, imageNames, categoryNames, nextId);
      var fileAnns, next := FileAnnotationList(p, IndexOf(imageNames, p.filename) + 1, categoryNames, nextId);
      AssembleStep(parsed, i, imageNames, categoryNames, nextId, anns, whole, fileAnns, next);
      anns, nextId := anns + fileAnns, next;
    }
  }

  /** One turn of the annotation pass keeps its invariant. */
  lemma AssembleStep(parsed: seq<ParsedVoc>, i: nat, imageNames: seq<string>, categoryNames: seq<string>,
                     nextId: nat, anns: seq<Annotation>, whole: seq<Annotation>,
                     fileAnns: seq<Annotation>, next: nat)
    requires i < |parsed| && NamesKnown(parsed[i..], imageNames, categoryNames)
    requires anns + AnnotationsFrom(parsed[i..], imageNames, categoryNames, nextId) == whole
    requires parsed[i].filename in imageNames && ObjectsKnown(parsed[i].objects, categoryNames)
    requires fileAnns == FileAnnotations(parsed[i], IndexOf(imageNames, parsed[i].filename) + 1, categoryNames, nextId)
    requires next == nextId + |parsed[i].objects|
    ensures NamesKnown(parsed[i + 1..], imageNames, categoryNames)
    ensures (anns + fileAnns) + AnnotationsFrom(parsed[i + 1..], imageNames, categoryNames, next) == whole
  {
    assert parsed[i..][1..] == parsed[i + 1..];
    NamesKnownSuffix(parsed[i..], 1, imageNames, categoryNames);
    AnnotationsFromStep(parsed, i, imageNames, categoryNames, nextId);
    Seqs.AppendAssoc(anns, fileAnns, AnnotationsFrom(parsed[i + 1..], imageNames, categoryNames, next));
  }

  lemma AnnotationsFromStep(parsed: seq<ParsedVoc>, i: nat, imageNames: seq<string>, categoryNames: seq<string>,
                            nextId: nat)
    requires i < |parsed| && NamesKnown(parsed[i..], imageNames, categoryNames)
    ensures parsed[i].filename in imageNames && ObjectsKnown(parsed[i].objects, categoryNames)
    ensures NamesKnown(parsed[i + 1..], imageNames, categoryNames)
    ensures AnnotationsFrom(parsed[i..], imageNames, categoryNames, nextId)
      == FileAnnotations(parsed[i], IndexOf(imageNames, parsed[i].filename) + 1, categoryNames, nextId)
         + AnnotationsFrom(parsed[i + 1..], imageNames, categoryNames, nextId + |parsed[i].objects|)
  {
    assert parsed[i..][0] == parsed[i];
    assert parsed[i..][1..] == parsed[i + 1..];
    NamesKnownSuffix(parsed[i..], 1, imageNames, categoryNames);
  }

  /** `read_voc_dir`: parse every file in path order, index them, then assemble the dataset. */
  method ReadVocDir(files: seq<XmlFile>, parseF64: F64Parser) returns (r: Result<Dataset, ReadError>)
    ensures r == ReadVoc(files, VocParserOf(parseF64))
  {
    var sorted := SortedFiles(files);
    var parsed := ParseFiles(sorted, parseF64);
    if parsed.Err? {
      return Err(parsed.error);
    }
    var index := IndexFiles(sorted, parsed.value);
    if index.Err? {
      return Err(index.error);
    }
    var (imageNames, defs, categoryNames) := index.value;
    CollectedNamesKnown(parsed.value);
    var annotations := AssembleAnnotations(parsed.value, imageNames, categoryNames);
    return Ok(Dataset(DefaultInfo(), [], VocImages(imageNames, defs), VocCategories(categoryNames), annotations));
  }
}
