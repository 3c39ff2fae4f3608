// The CVAT "for images" adapter, reading side (src/ir/io_cvat_xml.rs): one
// `annotations.xml` whose `<annotations>` root holds an optional
// `<meta><task><labels>` block and one `<image>` per image with `<box>`
// children. Images are numbered in name order, categories in lexicographic
// order of their names, annotations in image order and then `<box>` order.
// The document is an element tree (`XmlTree.Element`); the f64 parser is a
// parameter.
module CvatXml {
  import opened Wrappers
  import opened BBoxes
  import opened Ir
  import opened StrOrder
  import opened Sorting
  import opened Text
  import opened Numbers
  import opened XmlTree
  import Seqs

  /** `ParsedBox`: one `<box>`. */
  datatype ParsedBox = ParsedBox(labelName: string, bbox: BBox, occluded: bool, zOrder: Option<int>,
                                 source: Option<string>, attributes: map<string, string>)

  /** `ParsedImage`: one `<image>`. */
  datatype ParsedImage = ParsedImage(name: string, width: nat, height: nat, cvatId: Option<nat>,
                                     boxes: seq<ParsedBox>)

  /**
   * `MetaLabels`: the names of every declared label, and of those whose type
   * is `bbox` or absent, in declaration order (they stand for the two
   * `BTreeSet`s, of which only membership is used).
   */
  datatype MetaLabels = MetaLabels(all: seq<string>, bboxOrUnknown: seq<string>)

  /** Why a document is rejected (the message of `PanlabelError::CvatXmlParse`). */
  datatype CvatError =
    | WrongRoot
    | ProjectExport
    | MissingAttribute(attr: string, context: string)
    | MissingChildText(tag: string, context: string)
    | InvalidU32(attr: string, raw: string)
    | InvalidImageId(raw: string)
    | InvalidF64(image: string, attr: string, raw: string)
    | InvalidOccluded(image: string, raw: string)
    | InvalidZOrder(image: string, raw: string)
    | UnsupportedType(image: string, tag: string)
    | UnknownLabel(image: string, labelName: string)
    | EmptyAttributeName(image: string)
    | DuplicateImage(name: string)

  /** `str::parse::<f64>` on a finite value. */
  type F64Parser = string -> Option<real>

  /** The key prefix under which a box's `<attribute>` children are stored. */
  const AttrPrefix: string := "cvat_attr_"

  // ------------------------------------------------------------ attribute helpers

  function RequiredAttr(e: Element, attr: string, context: string): (r: Result<string, CvatError>)
    ensures r.Ok? <==> attr in e.attributes
    ensures r.Ok? ==> r.value == e.attributes[attr]
  {
    if attr in e.attributes then Ok(e.attributes[attr]) else Err(MissingAttribute(attr, context))
  }

  /** `parse_required_u32_attr`: the attribute, trimmed, as a `u32`. */
  function ParseRequiredU32Attr(e: Element, attr: string, context: string): (r: Result<nat, CvatError>)
    ensures r.Ok? ==> r.value <= U32_MAX
  {
    match RequiredAttr(e, attr, context)
    case Err(err) => Err(err)
    case Ok(raw) =>
      match ParseU32(Trim(raw))
      case None => Err(InvalidU32(attr, raw))
      case Some(v) => Ok(v)
  }

  /** `parse_required_f64_attr`: the attribute, trimmed, as an `f64`. */
  function ParseRequiredF64Attr(e: Element, attr: string, context: string, imageName: string,
                                parseF64: F64Parser): Result<real, CvatError> {
    match RequiredAttr(e, attr, context)
    case Err(err) => Err(err)
    case Ok(raw) =>
      match parseF64(Trim(raw))
      case None => Err(InvalidF64(imageName, attr, raw))
      case Some(v) => Ok(v)
  }

  /** An optional attribute, trimmed, when it is not blank. */
  function OptionalTrimmed(e: Element, attr: string): (r: Option<string>)
    ensures r.Some? <==> attr in e.attributes && Trim(e.attributes[attr]) != ""
    ensures r.Some? ==> r.value == Trim(e.attributes[attr]) && r.value == Trim(r.value)
  {
    if attr in e.attributes && Trim(e.attributes[attr]) != "" then
      TrimIdempotent(e.attributes[attr]);
      Some(Trim(e.attributes[attr]))
    else None
  }

  /** `occluded`: absent or blank is false, `0` false, `1` true, anything else an error. */
  function ParseOccluded(e: Element, imageName: string): (r: Result<bool, CvatError>)
    ensures r.Err? <==> OptionalTrimmed(e, "occluded").Some? && OptionalTrimmed(e, "occluded").value != "0"
                        && OptionalTrimmed(e, "occluded").value != "1"
    ensures r.Ok? ==> (r.value <==> OptionalTrimmed(e, "occluded") == Some("1"))
  {
    match OptionalTrimmed(e, "occluded")
    case None => Ok(false)
    case Some(raw) =>
      if raw == "0" then Ok(false)
      else if raw == "1" then Ok(true)
      else Err(InvalidOccluded(imageName, raw))
  }

  /** `z_order`: absent or blank is none, otherwise it must be an `i32`. */
  function ParseZOrder(e: Element, imageName: string): (r: Result<Option<int>, CvatError>)
    ensures r.Ok? && r.value.Some? ==> I32_MIN <= r.value.value <= I32_MAX
    ensures r.Ok? && r.value.None? <==> OptionalTrimmed(e, "z_order").None?
  {
    match OptionalTrimmed(e, "z_order")
    case None => Ok(None)
    case Some(raw) =>
      match ParseI32(raw)
      case None => Err(InvalidZOrder(imageName, raw))
      case Some(z) => Ok(Some(z))
  }

  /** `<image id>`: absent or blank is none, otherwise it must be a `u64`. */
  function ParseCvatId(e: Element): (r: Result<Option<nat>, CvatError>)
    ensures r.Ok? && r.value.Some? ==> r.value.value <= U64_MAX
  {
    match OptionalTrimmed(e, "id")
    case None => Ok(None)
    case Some(raw) =>
      match ParseU64(raw)
      case None => Err(InvalidImageId(raw))
      case Some(v) => Ok(Some(v))
  }

  /** A key of the box attribute map: the prefix and a trimmed, non-empty name. */
  predicate IsAttrKey(k: string) {
    |k| > |AttrPrefix| && k[..|AttrPrefix|] == AttrPrefix
    && k[|AttrPrefix|..] != "" && Trim(k[|AttrPrefix|..]) == k[|AttrPrefix|..]
  }

  /** One `<attribute name=n>`: stored under `cvat_attr_n` with its trimmed text. */
  function AttrEntry(node: Element, imageName: string): (r: Result<(string, string), CvatError>)
    ensures r.Ok? ==> IsAttrKey(r.value.0)
  {
    match RequiredAttr(node, "name", "<attribute>")
    case Err(err) => Err(err)
    case Ok(raw) =>
      var name := Trim(raw);
      if name == "" then Err(EmptyAttributeName(imageName))
      else
        TrimIdempotent(raw);
        var key := AttrPrefix + name;
        assert key[..|AttrPrefix|] == AttrPrefix && key[|AttrPrefix|..] == name;
        Ok((key, if node.text.Some? then Trim(node.text.value) else ""))
  }

  /**
   * An `<attribute>` is refused exactly when its name is missing or blank;
   * otherwise its key is the prefix and the trimmed name, its value the
   * trimmed text or empty.
   */
  lemma AttrEntryFacts(node: Element, imageName: string)
    ensures AttrEntry(node, imageName).Err? <==> "name" !in node.attributes || Trim(node.attributes["name"]) == ""
    ensures AttrEntry(node, imageName).Ok? ==>
      AttrEntry(node, imageName).value.0 == AttrPrefix + Trim(node.attributes["name"])
      && AttrEntry(node, imageName).value.1 == (if node.text.Some? then Trim(node.text.value) else "")
  {
  }

  type AttrParser = Element -> Result<(string, string), CvatError>

  function AttrParserOf(imageName: string): (parse: AttrParser)
    ensures forall node :: parse(node) == AttrEntry(node, imageName)
  {
    (node: Element) => AttrEntry(node, imageName)
  }

  /** Every entry `parse` yields has an attribute key. */
  ghost predicate KeysOk(parse: AttrParser) {
    forall node :: parse(node).Ok? ==> IsAttrKey(parse(node).value.0)
  }

  /** The `<attribute>` children in document order; a later one with the same name wins. */
  function BoxAttributes(nodes: seq<Element>, parse: AttrParser): (r: Result<map<string, string>, CvatError>)
    ensures r.Ok? <==> forall k :: 0 <= k < |nodes| ==> parse(nodes[k]).Ok?
    ensures r.Ok? && KeysOk(parse) ==> forall key :: key in r.value ==> IsAttrKey(key)
  {
    if |nodes| == 0 then Ok(map[])
    else
      var pre := nodes[..|nodes| - 1];
      assert forall k :: 0 <= k < |pre| ==> pre[k] == nodes[k];
      match BoxAttributes(pre, parse)
      case Err(e) => Err(e)
      case Ok(attrs) =>
        match parse(nodes[|nodes| - 1])
        case Err(e) => Err(e)
        case Ok(entry) => Ok(attrs[entry.0 := entry.1])
  }

  // ------------------------------------------------------------ boxes and images

  /** `parse_box_element`. */
  function ParseBox(node: Element, imageName: string, meta: Option<MetaLabels>, parseF64: F64Parser)
    : (r: Result<ParsedBox, CvatError>)
    ensures r.Ok? ==> "label" in node.attributes && r.value.labelName == node.attributes["label"]
    ensures r.Ok? && meta.Some? ==> r.value.labelName in meta.value.all
    ensures "label" in node.attributes && meta.Some? && node.attributes["label"] !in meta.value.all
      ==> r == Err(UnknownLabel(imageName, node.attributes["label"]))
  {
    match RequiredAttr(node, "label", "<box>")
    case Err(e) => Err(e)
    case Ok(labelName) =>
      if meta.Some? && labelName !in meta.value.all then Err(UnknownLabel(imageName, labelName))
      else
        match ParseRequiredF64Attr(node, "xtl", "<box>", imageName, parseF64)
        case Err(e) => Err(e)
        case Ok(xtl) =>
          match ParseRequiredF64Attr(node, "ytl", "<box>", imageName, parseF64)
          case Err(e) => Err(e)
          case Ok(ytl) =>
            match ParseRequiredF64Attr(node, "xbr", "<box>", imageName, parseF64)
            case Err(e) => Err(e)
            case Ok(xbr) =>
              match ParseRequiredF64Attr(node, "ybr", "<box>", imageName, parseF64)
              case Err(e) => Err(e)
              case Ok(ybr) =>
                match ParseOccluded(node, imageName)
                case Err(e) => Err(e)
                case Ok(occluded) =>
                  match ParseZOrder(node, imageName)
                  case Err(e) => Err(e)
                  case Ok(zOrder) =>
                    match BoxAttributes(FilterTag(node.children, "attribute"), AttrParserOf(imageName))
                    case Err(e) => Err(e)
                    case Ok(attrs) =>
                      Ok(ParsedBox(labelName, FromXyxy(xtl, ytl, xbr, ybr), occluded, zOrder,
                                   OptionalTrimmed(node, "source"), attrs))
  }

  type BoxParser = Element -> Result<ParsedBox, CvatError>

  function BoxParserOf(imageName: string, meta: Option<MetaLabels>, parseF64: F64Parser): (parse: BoxParser)
    ensures forall node :: parse(node) == ParseBox(node, imageName, meta, parseF64)
  {
    (node: Element) => ParseBox(node, imageName, meta, parseF64)
  }

  /** Child `k` is `<box>` and parses. */
  predicate BoxOk(children: seq<Element>, k: int, parse: BoxParser) {
    0 <= k < |children| && children[k].tag == "box" && parse(children[k]).Ok?
  }

  /**
   * The child elements of an `<image>` in document order: each must be a
   * `<box>` that parses; the first that is not decides the error.
   */
  function ParseBoxes(children: seq<Element>, imageName: string, parse: BoxParser)
    : (r: Result<seq<ParsedBox>, CvatError>)
    ensures r.Ok? <==> forall k :: 0 <= k < |children| ==> BoxOk(children, k, parse)
    ensures r.Ok? ==> |r.value| == |children|
    ensures r.Ok? ==> forall k :: 0 <= k < |children| ==> parse(children[k]) == Ok(r.value[k])
  {
    if |children| == 0 then Ok([])
    else
      var pre, last := children[..|children| - 1], children[|children| - 1];
      assert forall k :: 0 <= k < |pre| ==> pre[k] == children[k] && BoxOk(pre, k, parse) == BoxOk(children, k, parse);
      match ParseBoxes(pre, imageName, parse)
      case Err(e) => Err(e)
      case Ok(done) =>
        if last.tag != "box" then
          assert !BoxOk(children, |children| - 1, parse);
          Err(UnsupportedType(imageName, last.tag))
        else
          match parse(last)
          case Err(e) =>
            assert !BoxOk(children, |children| - 1, parse);
            Err(e)
          case Ok(b) =>
            assert BoxOk(children, |children| - 1, parse);
            Ok(done + [b])
  }

  /** `parse_image_element`. */
  function ParseImage(node: Element, meta: Option<MetaLabels>, parseF64: F64Parser)
    : (r: Result<ParsedImage, CvatError>)
    ensures r.Ok? ==> "name" in node.attributes && r.value.name == node.attributes["name"]
    ensures r.Ok? ==> r.value.width <= U32_MAX && r.value.height <= U32_MAX
  {
    match RequiredAttr(node, "name", "<image>")
    case Err(e) => Err(e)
    case Ok(name) =>
      match ParseRequiredU32Attr(node, "width", "<image>")
      case Err(e) => Err(e)
      case Ok(width) =>
        match ParseRequiredU32Attr(node, "height", "<image>")
        case Err(e) => Err(e)
        case Ok(height) =>
          match ParseCvatId(node)
          case Err(e) => Err(e)
          case Ok(cvatId) =>
            match ParseBoxes(node.children, name, BoxParserOf(name, meta, parseF64))
            case Err(e) => Err(e)
            case Ok(boxes) => Ok(ParsedImage(name, width, height, cvatId, boxes))
  }

  type ImageParser = Element -> Result<ParsedImage, CvatError>

  function ImageParserOf(meta: Option<MetaLabels>, parseF64: F64Parser): (parse: ImageParser)
    ensures forall node :: parse(node) == ParseImage(node, meta, parseF64)
  {
    (node: Element) => ParseImage(node, meta, parseF64)
  }

  // ------------------------------------------------------------ meta labels

  /** One `<label>`: its required name, and its type (`bbox` when absent). */
  function LabelOf(node: Element): (r: Result<(string, bool), CvatError>)
    ensures r.Ok? ==> r.value.0 != ""
    ensures r.Err? <==> OptionalChildText(node, "name").None?
  {
    match OptionalChildText(node, "name")
    case None => Err(MissingChildText("name", "<label>"))
    case Some(name) =>
      var typ := match OptionalChildText(node, "type") case Some(t) => t case None => "bbox";
      Ok((name, EqIgnoreAsciiCase(Trim(typ), "bbox")))
  }

  type LabelParser = Element -> Result<(string, bool), CvatError>

  function LabelParserOf(): (parse: LabelParser)
    ensures forall node :: parse(node) == LabelOf(node)
  {
    (node: Element) => LabelOf(node)
  }

  /** The `<label>` elements in document order; the first without a name is the error. */
  function LabelsFrom(nodes: seq<Element>, parse: LabelParser): (r: Result<MetaLabels, CvatError>)
    ensures r.Ok? <==> forall k :: 0 <= k < |nodes| ==> parse(nodes[k]).Ok?
    ensures r.Ok? ==> |r.value.all| == |nodes|
    ensures r.Ok? ==> forall k :: 0 <= k < |nodes| ==> r.value.all[k] == parse(nodes[k]).value.0
  {
    if |nodes| == 0 then Ok(MetaLabels([], []))
    else
      var pre, last := nodes[..|nodes| - 1], nodes[|nodes| - 1];
      assert forall k :: 0 <= k < |pre| ==> pre[k] == nodes[k];
      match LabelsFrom(pre, parse)
      case Err(e) => Err(e)
      case Ok(m) =>
        match parse(last)
        case Err(e) => Err(e)
        case Ok(l) =>
          Ok(MetaLabels(m.all + [l.0], if l.1 then m.bboxOrUnknown + [l.0] else m.bboxOrUnknown))
  }

  /**
   * `extract_meta_labels`: none without `<meta><task><labels>`; a project
   * export (`<meta><project>`) is refused.
   */
  function ExtractMetaLabels(root: Element): (r: Result<Option<MetaLabels>, CvatError>)
    ensures ChildElement(root, "meta").None? ==> r == Ok(None)
    ensures ChildElement(root, "meta").Some? && ChildElement(ChildElement(root, "meta").value, "project").Some?
      ==> r == Err(ProjectExport)
  {
    match ChildElement(root, "meta")
    case None => Ok(None)
    case Some(meta) =>
      if ChildElement(meta, "project").Some? then Err(ProjectExport)
      else
        match ChildElement(meta, "task")
        case None => Ok(None)
        case Some(task) =>
          match ChildElement(task, "labels")
          case None => Ok(None)
          case Some(labels) =>
            match LabelsFrom(FilterTag(labels.children, "label"), LabelParserOf())
            case Err(e) => Err(e)
            case Ok(m) => Ok(Some(m))
  }

  // ------------------------------------------------------------ the image pass

  function NamesOf(parsed: seq<ParsedImage>): (names: seq<string>)
    ensures |names| == |parsed| && forall k :: 0 <= k < |parsed| ==> names[k] == parsed[k].name
  {
    seq(|parsed|, k requires 0 <= k < |parsed| => parsed[k].name)
  }

  /**
   * Every `<image>` parsed in document order; a parse failure, or a name an
   * earlier image already had, stops the pass.
   */
  function ScanImages(nodes: seq<Element>, parse: ImageParser): (r: Result<seq<ParsedImage>, CvatError>)
    ensures r.Ok? ==> |r.value| == |nodes|
    ensures r.Ok? ==> forall k :: 0 <= k < |nodes| ==> parse(nodes[k]) == Ok(r.value[k])
    ensures r.Ok? ==> Seqs.Distinct(NamesOf(r.value))
  {
    if |nodes| == 0 then Ok([])
    else
      var pre, last := nodes[..|nodes| - 1], nodes[|nodes| - 1];
      assert forall k :: 0 <= k < |pre| ==> pre[k] == nodes[k];
      match ScanImages(pre, parse)
      case Err(e) => Err(e)
      case Ok(done) =>
        match parse(last)
        case Err(e) => Err(e)
        case Ok(p) =>
          if p.name in NamesOf(done) then Err(DuplicateImage(p.name))
          else
            assert NamesOf(done + [p]) == NamesOf(done) + [p.name];
            Seqs.DistinctSnoc(NamesOf(done), p.name);
            Ok(done + [p])
  }

  /** The box labels of `parsed`, image after image. */
  function ReferencedLabels(parsed: seq<ParsedImage>): seq<string> {
    if |parsed| == 0 then []
    else ReferencedLabels(parsed[..|parsed| - 1]) + BoxLabels(parsed[|parsed| - 1].boxes)
  }

  function BoxLabels(boxes: seq<ParsedBox>): (labels: seq<string>)
    ensures |labels| == |boxes| && forall j :: 0 <= j < |boxes| ==> labels[j] == boxes[j].labelName
  {
    seq(|boxes|, j requires 0 <= j < |boxes| => boxes[j].labelName)
  }

  /** The labels declared as boxes (or untyped) in the meta block, if there is one. */
  function MetaBase(meta: Option<MetaLabels>): seq<string> {
    match meta case None => [] case Some(m) => m.bboxOrUnknown
  }

  /** `category_names`: the meta block's box labels together with every referenced label, sorted. */
  function CategoryNamesOf(meta: Option<MetaLabels>, parsed: seq<ParsedImage>): seq<string> {
    SortDedup(MetaBase(meta) + ReferencedLabels(parsed))
  }

  /** The images in the order they are numbered: by name. */
  predicate ImageNameLe(a: ParsedImage, b: ParsedImage) {
    Le(a.name, b.name)
  }

  function SortedImages(parsed: seq<ParsedImage>): seq<ParsedImage> {
    SortBy(parsed, ImageNameLe)
  }

  /** The `idx`-th image in name order, with `cvat_image_id` when the `<image>` had an ID. */
  function ImageOf(idx: nat, p: ParsedImage): Image {
    var image := NewImage(idx + 1, p.name, p.width, p.height);
    match p.cvatId
    case None => image
    case Some(id) => image.(attributes := image.attributes["cvat_image_id" := NatToString(id)])
  }

  function CvatImages(sorted: seq<ParsedImage>): (images: seq<Image>)
    ensures |images| == |sorted|
    ensures forall k :: 0 <= k < |sorted| ==> images[k] == ImageOf(k, sorted[k])
  {
    seq(|sorted|, k requires 0 <= k < |sorted| => ImageOf(k, sorted[k]))
  }

  function CvatCategories(names: seq<string>): (categories: seq<Category>)
    ensures |categories| == |names|
    ensures forall k :: 0 <= k < |names| ==> categories[k] == NewCategory(k + 1, names[k])
  {
    seq(|names|, k requires 0 <= k < |names| => NewCategory(k + 1, names[k]))
  }

  /**
   * A box's attributes as stored: its `cvat_attr_` entries, `occluded` = `1`
   * only when occluded, `z_order` only when non-zero, and `source` only when
   * not blank, trimmed.
   */
  function BoxAttrs(b: ParsedBox): map<string, string> {
    var withOccluded := if b.occluded then b.attributes["occluded" := "1"] else b.attributes;
    var withZ :=
      if b.zOrder.Some? && b.zOrder.value != 0 then withOccluded["z_order" := IntToString(b.zOrder.value)]
      else withOccluded;
    if b.source.Some? && Trim(b.source.value) != "" then withZ["source" := Trim(b.source.value)] else withZ
  }

  function AnnotationOf(id: nat, imageId: nat, categoryId: nat, b: ParsedBox): Annotation {
    NewAnnotation(id, imageId, categoryId, b.bbox).(attributes := BoxAttrs(b))
  }

  /** Every box's label is among `names`. */
  predicate BoxesKnown(boxes: seq<ParsedBox>, names: seq<string>) {
    forall j :: 0 <= j < |boxes| ==> boxes[j].labelName in names
  }

  predicate LabelsKnown(parsed: seq<ParsedImage>, names: seq<string>) {
    forall k :: 0 <= k < |parsed| ==> BoxesKnown(parsed[k].boxes, names)
  }

  /** One image's boxes, numbered from `firstId`. */
  function ImageAnnotations(p: ParsedImage, imageId: nat, names: seq<string>, firstId: nat): (anns: seq<Annotation>)
    requires BoxesKnown(p.boxes, names)
    ensures |anns| == |p.boxes|
    ensures forall j :: 0 <= j < |p.boxes| ==>
      anns[j] == AnnotationOf(firstId + j, imageId, IndexOf(names, p.boxes[j].labelName) + 1, p.boxes[j])
  {
    seq(|p.boxes|, j requires 0 <= j < |p.boxes| =>
      AnnotationOf(firstId + j, imageId, IndexOf(names, p.boxes[j].labelName) + 1, p.boxes[j]))
  }

  /** The annotations of the images in `sorted` from position `idx` on, numbered from `firstId`. */
  function AnnotationsFrom(sorted: seq<ParsedImage>, idx: nat, names: seq<string>, firstId: nat): seq<Annotation>
    requires idx <= |sorted| && LabelsKnown(sorted, names)
    decreases |sorted| - idx
  {
    if idx == |sorted| then []
    else
      ImageAnnotations(sorted[idx], idx + 1, names, firstId)
      + AnnotationsFrom(sorted, idx + 1, names, firstId + |sorted[idx].boxes|)
  }

  // ------------------------------------------------------------ the whole document

  /** `parse_cvat_xml_str` on a parsed document tree. */
  function ParseCvat(root: Element, parseF64: F64Parser): (r: Result<Dataset, CvatError>)
    ensures root.tag != "annotations" ==> r == Err(WrongRoot)
    ensures root.tag == "annotations" && ExtractMetaLabels(root).Err? ==> r == Err(ExtractMetaLabels(root).error)
    ensures r.Ok? ==>
              && root.tag == "annotations" && ExtractMetaLabels(root).Ok?
              && ScanImages(FilterTag(root.children, "image"), ImageParserOf(ExtractMetaLabels(root).value, parseF64)).Ok?
              && r.value == Assemble(ExtractMetaLabels(root).value,
                                     ScanImages(FilterTag(root.children, "image"),
                                                ImageParserOf(ExtractMetaLabels(root).value, parseF64)).value)
  {
    if root.tag != "annotations" then Err(WrongRoot)
    else
      match ExtractMetaLabels(root)
      case Err(e) => Err(e)
      case Ok(meta) =>
        match ScanImages(FilterTag(root.children, "image"), ImageParserOf(meta, parseF64))
        case Err(e) => Err(e)
        case Ok(parsed) => Ok(Assemble(meta, parsed))
  }

  /** The dataset built from the parsed images. */
  function Assemble(meta: Option<MetaLabels>, parsed: seq<ParsedImage>): Dataset {
    Dataset(DefaultInfo(), [], CvatImages(SortedImages(parsed)), CvatCategories(CategoryNamesOf(meta, parsed)),
            AnnotationList(meta, parsed))
  }

  function AnnotationList(meta: Option<MetaLabels>, parsed: seq<ParsedImage>): seq<Annotation> {
    SortedLabelsKnown(meta, parsed);
    AnnotationsFrom(SortedImages(parsed), 0, CategoryNamesOf(meta, parsed), 1)
  }

  /** Every box label is a category name, also after sorting the images. */
  lemma SortedLabelsKnown(meta: Option<MetaLabels>, parsed: seq<ParsedImage>)
    ensures LabelsKnown(SortedImages(parsed), CategoryNamesOf(meta, parsed))
  {
    var sorted := SortedImages(parsed);
    forall k, j | 0 <= k < |sorted| && 0 <= j < |sorted[k].boxes|
      ensures sorted[k].boxes[j].labelName in CategoryNamesOf(meta, parsed)
    {
      assert sorted[k] in multiset(parsed);
      var i :| 0 <= i < |parsed| && parsed[i] == sorted[k];
      LabelReferenced(parsed, i, j);
    }
  }

  /** Box `j` of image `i` contributes its label. */
  lemma {:induction false} LabelReferenced(parsed: seq<ParsedImage>, i: nat, j: nat)
    requires i < |parsed| && j < |parsed[i].boxes|
    ensures parsed[i].boxes[j].labelName in ReferencedLabels(parsed)
    decreases |parsed|
  {
    var pre := parsed[..|parsed| - 1];
    if i < |parsed| - 1 {
      assert pre[i] == parsed[i];
      LabelReferenced(pre, i, j);
    } else {
      assert BoxLabels(parsed[i].boxes)[j] == parsed[i].boxes[j].labelName;
    }
  }

  // ------------------------------------------------------------ the passes, step by step

  lemma ScanStep(nodes: seq<Element>, i: nat, parse: ImageParser)
    requires i < |nodes|
    ensures ScanImages(nodes[..i + 1], parse) ==
      match ScanImages(nodes[..i], parse)
      case Err(e) => Err(e)
      case Ok(done) =>
        match parse(nodes[i])
        case Err(e) => Err(e)
        case Ok(p) => if p.name in NamesOf(done) then Err(DuplicateImage(p.name)) else Ok(done + [p])
  {
    assert nodes[..i + 1][..i] == nodes[..i];
  }

  lemma {:induction false} ScanErrPersists(nodes: seq<Element>, i: nat, parse: ImageParser)
    requires i <= |nodes| && ScanImages(nodes[..i], parse).Err?
    ensures ScanImages(nodes, parse) == ScanImages(nodes[..i], parse)
    decreases |nodes|
  {
    if i < |nodes| {
      var pre := nodes[..|nodes| - 1];
      assert pre[..i] == nodes[..i];
      ScanErrPersists(pre, i, parse);
    } else {
      assert nodes[..i] == nodes;
    }
  }

  lemma ReferencedSnoc(parsed: seq<ParsedImage>, p: ParsedImage)
    ensures ReferencedLabels(parsed + [p]) == ReferencedLabels(parsed) + BoxLabels(p.boxes)
  {
    assert (parsed + [p])[..|parsed|] == parsed;
  }

  /** `referenced_labels.insert` for each box of one image. */
  method InsertLabels(names: seq<string>, boxes: seq<ParsedBox>, ghost before: seq<string>)
    returns (r: seq<string>)
    requires names == SortDedup(before)
    ensures r == SortDedup(before + BoxLabels(boxes))
  {
    r := names;
    assert before + BoxLabels(boxes[..0]) == before;
    for j := 0 to |boxes|
      invariant r == SortDedup(before + BoxLabels(boxes[..j]))
    {
      var next := InsertUnique(r, boxes[j].labelName);
      InsertLabelStep(before, boxes, j, r, next);
      r := next;
    }
    assert boxes[..|boxes|] == boxes;
  }

  lemma InsertLabelStep(before: seq<string>, boxes: seq<ParsedBox>, j: nat, r: seq<string>, next: seq<string>)
    requires j < |boxes| && r == SortDedup(before + BoxLabels(boxes[..j]))
    requires next == InsertUnique(r, boxes[j].labelName)
    ensures next == SortDedup(before + BoxLabels(boxes[..j + 1]))
  {
    var x := boxes[j].labelName;
    assert BoxLabels(boxes[..j + 1]) == BoxLabels(boxes[..j]) + [x];
    Seqs.AppendAssoc(before, BoxLabels(boxes[..j]), [x]);
    assert (before + BoxLabels(boxes[..j]) + [x])[..|before + BoxLabels(boxes[..j])|] == before + BoxLabels(boxes[..j]);
  }

  /** What the image pass holds after the images of `parsed`. */
  ghost predicate Scanned(parsed: seq<ParsedImage>, seen: set<string>, referenced: seq<string>) {
    && (forall n :: n in seen <==> n in NamesOf(parsed))
    && referenced == SortDedup(ReferencedLabels(parsed))
  }

  /**
   * The pass over the `<image>` elements: parse each, refuse a name already
   * seen, and collect the referenced labels.
   */
  method ScanImageNodes(nodes: seq<Element>, meta: Option<MetaLabels>, parseF64: F64Parser)
    returns (r: Result<(seq<ParsedImage>, seq<string>), CvatError>)
    ensures ScanImages(nodes, ImageParserOf(meta, parseF64)).Err? ==>
      r == Err(ScanImages(nodes, ImageParserOf(meta, parseF64)).error)
    ensures ScanImages(nodes, ImageParserOf(meta, parseF64)).Ok? ==>
      r == Ok((ScanImages(nodes, ImageParserOf(meta, parseF64)).value,
               SortDedup(ReferencedLabels(ScanImages(nodes, ImageParserOf(meta, parseF64)).value))))
  {
    var parse := ImageParserOf(meta, parseF64);
    var parsed: seq<ParsedImage> := [];
    var seen: set<string> := {};
    var referenced: seq<string> := [];
    assert nodes[..0] == [];
    for i := 0 to |nodes|
      invariant ScanImages(nodes[..i], parse) == Ok(parsed)
      invariant Scanned(parsed, seen, referenced)
    {
      var p := ParseImage(nodes[i], meta, parseF64);
      ScanStep(nodes, i, parse);
      if p.Err? {
        ScanErrPersists(nodes, i + 1, parse);
        return Err(p.error);
      }
      if p.value.name in seen {
        ScanErrPersists(nodes, i + 1, parse);
        return Err(DuplicateImage(p.value.name));
      }
      var labels := InsertLabels(referenced, p.value.boxes, ReferencedLabels(parsed));
      ScanAdvance(parsed, seen, referenced, p.value, labels);
      parsed, seen, referenced := parsed + [p.value], seen + {p.value.name}, labels;
    }
    assert nodes[..|nodes|] == nodes;
    return Ok((parsed, referenced));
  }

  lemma ScanAdvance(parsed: seq<ParsedImage>, seen: set<string>, referenced: seq<string>, p: ParsedImage,
                    labels: seq<string>)
    requires Scanned(parsed, seen, referenced)
    requires labels == SortDedup(ReferencedLabels(parsed) + BoxLabels(p.boxes))
    ensures Scanned(parsed + [p], seen + {p.name}, labels)
  {
    ReferencedSnoc(parsed, p);
    assert NamesOf(parsed + [p]) == NamesOf(parsed) + [p.name];
  }

  /** The image list, one `Image` per parsed image in name order. */
  method BuildImages(sorted: seq<ParsedImage>) returns (images: seq<Image>)
    ensures images == CvatImages(sorted)
  {
    images := [];
    for idx := 0 to |sorted|
      invariant |images| == idx
      invariant forall k :: 0 <= k < idx ==> images[k] == ImageOf(k, sorted[k])
    {
      images := images + [ImageOf(idx, sorted[idx])];
    }
  }

  /** One image's boxes become annotations, numbered on from `firstId`. */
  method ImageAnnotationList(p: ParsedImage, imageId: nat, names: seq<string>, firstId: nat)
    returns (anns: seq<Annotation>, nextId: nat)
    requires BoxesKnown(p.boxes, names)
    ensures anns == ImageAnnotations(p, imageId, names, firstId)
    ensures nextId == firstId + |p.boxes|
  {
    anns := [];
    nextId := firstId;
    for j := 0 to |p.boxes|
      invariant nextId == firstId + j && |anns| == j
      invariant forall t :: 0 <= t < j ==>
        anns[t] == AnnotationOf(firstId + t, imageId, IndexOf(names, p.boxes[t].labelName) + 1, p.boxes[t])
    {
      var b := p.boxes[j];
      anns := anns + [AnnotationOf(nextId, imageId, IndexOf(names, b.labelName) + 1, b)];
      nextId := nextId + 1;
    }
  }

  /** The annotation pass: image after image in name order, with one running ID. */
  method AssembleAnnotations(sorted: seq<ParsedImage>, names: seq<string>) returns (anns: seq<Annotation>)
    requires LabelsKnown(sorted, names)
    ensures anns == AnnotationsFrom(sorted, 0, names, 1)
  {
    anns := [];
    var nextId := 1;
    for i := 0 to |sorted|
      invariant anns + AnnotationsFrom(sorted, i, names, nextId) == AnnotationsFrom(sorted, 0, names, 1)
    {
      var imageAnns, next := ImageAnnotationList(sorted[i], i + 1, names, nextId);
      Seqs.AppendAssoc(anns, imageAnns, AnnotationsFrom(sorted, i + 1, names, next));
      anns, nextId := anns + imageAnns, next;
    }
  }

  /** A set and a sorted copy of a second collection give the same union as the two together. */
  lemma UnionSorted(a: seq<string>, b: seq<string>)
    ensures SortDedup(a + SortDedup(b)) == SortDedup(a + b)
  {
    StrictlySortedUnique(SortDedup(a + SortDedup(b)), SortDedup(a + b));
  }

  /** `parse_cvat_xml_str`: check the root, read the labels, scan the images, then number everything. */
  method ParseCvatXmlStr(root: Element, parseF64: F64Parser) returns (r: Result<Dataset, CvatError>)
    ensures r == ParseCvat(root, parseF64)
  {
    if root.tag != "annotations" {
      return Err(WrongRoot);
    }
    var meta := ExtractMetaLabels(root);
    if meta.Err? {
      return Err(meta.error);
    }
    var scanned := ScanImageNodes(FilterTag(root.children, "image"), meta.value, parseF64);
    if scanned.Err? {
      return Err(scanned.error);
    }
    var (parsed, referenced) := scanned.value;
    UnionSorted(MetaBase(meta.value), ReferencedLabels(parsed));
    var names := SortDedup(MetaBase(meta.value) + referenced);
    var categories := CvatCategories(names);
    var sorted := SortedImages(parsed);
    var images := BuildImages(sorted);
    SortedLabelsKnown(meta.value, parsed);
    var annotations := AssembleAnnotations(sorted, names);
    return Ok(Dataset(DefaultInfo(), [], images, categories, annotations));
  }
}
