// The Hugging Face ImageFolder adapter, reading side
// (src/ir/io_hf_imagefolder.rs). Every non-blank line of `metadata.jsonl`
// is a JSON object naming an image file and its size, with an object
// container holding parallel `bbox` and category arrays. Rows are keyed by
// file name. Images are numbered in name order, categories in lexicographic
// order of their resolved names, and annotations in image order, then in
// array order. The JSON text parser and the image-size probe are parameters.
module HfImagefolder {
  import opened Wrappers
  import opened BBoxes
  import opened Ir
  import opened StrOrder
  import opened Numbers
  import opened JsonValue
  import Seqs

  /** `HfBboxFormat`: how the four numbers of a box are read and written. */
  datatype BboxFormat = Xywh | Xyxy

  /** `HfBboxFormat::as_str`. */
  function FormatName(f: BboxFormat): string {
    match f
    case Xywh => "xywh"
    case Xyxy => "xyxy"
  }

  /** `HfReadOptions`; the `split` option only chooses directories, which are not modelled. */
  datatype ReadOptions = ReadOptions(bboxFormat: BboxFormat, objectsColumn: Option<string>,
                                     categoryMap: map<int, string>, provenance: map<string, string>)

  datatype ParsedCategory = CategoryId(id: int) | CategoryName(name: string)

  /** One object: its four numbers as written, and its category. */
  datatype ParsedAnn = ParsedAnn(bbox: (real, real, real, real), category: ParsedCategory)

  /** `ParsedRow` once parsed: its size is always known by then. */
  datatype ParsedRow = ParsedRow(fileName: string, width: nat, height: nat, anns: seq<ParsedAnn>)

  /** Why one line is refused (the message of `PanlabelError::HfJsonlParse`). */
  datatype RowProblem =
    | NotAnObject
    | MissingFileName
    | NotUnsigned(field: string)
    | OutOfRangeU32(field: string, number: nat)
    | ContainerNotFound(userKey: string, available: seq<string>)
    | NoContainer
    | ContainerNotObject(key: string)
    | MissingBbox(key: string)
    | NoCategoryField(key: string)
    | CategoryNotArray(key: string, field: string)
    | LengthMismatch(key: string, bboxCount: nat, field: string, categoryCount: nat)
    | BboxNotArray(annIndex: nat)
    | BboxArity(annIndex: nat, found: nat)
    | BboxElementNotNumber(annIndex: nat, element: nat)
    | BadCategory(annIndex: nat)
    | SizeUnreadable(fileName: string)

  datatype HfError =
    | JsonlParse(line: nat, problem: RowProblem)
    | DuplicateFileName(name: string)

  /** `imagesize::size` on the file a row names: its width and height, or none when unreadable. */
  type SizeProbe = string -> Option<(nat, nat)>

  const U32_MODULUS: nat := U32_MAX + 1

  // ------------------------------------------------------------ fields of a row

  /** `parse_optional_u32`: an absent field is none; a present one must be an integer in the `u32` range. */
  function ParseOptionalU32(v: Option<Value>, field: string): (r: Result<Option<nat>, RowProblem>)
    ensures v.None? ==> r == Ok(None)
    ensures v.Some? ==> (r.Ok? <==> v.value.Num? && v.value.n.Int? && 0 <= v.value.n.i <= U32_MAX)
    ensures v.Some? && r.Ok? ==> r.value == Some(v.value.n.i as nat)
  {
    match v
    case None => Ok(None)
    case Some(value) =>
      match AsU64(value)
      case None => Err(NotUnsigned(field))
      case Some(number) => if number <= U32_MAX then Ok(Some(number)) else Err(OutOfRangeU32(field, number))
  }

  /**
   * `resolve_objects_key`: the container named by the option, which must be
   * present; otherwise `objects`, else `faces`.
   */
  function ResolveObjectsKey(members: seq<(string, Value)>, objectsColumn: Option<string>)
    : (r: Result<string, RowProblem>)
    ensures r.Ok? ==> Has(members, r.value)
    ensures objectsColumn.Some? ==> (r.Ok? <==> Has(members, objectsColumn.value))
    ensures objectsColumn.Some? && r.Ok? ==> r.value == objectsColumn.value
    ensures objectsColumn.None? && Has(members, "objects") ==> r == Ok("objects")
    ensures objectsColumn.None? && !Has(members, "objects") && Has(members, "faces") ==> r == Ok("faces")
    ensures objectsColumn.None? ==> (r.Err? <==> !Has(members, "objects") && !Has(members, "faces"))
  {
    match objectsColumn
    case Some(userKey) =>
      if Has(members, userKey) then Ok(userKey) else Err(ContainerNotFound(userKey, Keys(members)))
    case None =>
      if Has(members, "objects") then Ok("objects")
      else if Has(members, "faces") then Ok("faces")
      else Err(NoContainer)
  }

  /** The category field of a container: `categories` when present, else `category`. */
  function CategoryField(objects: seq<(string, Value)>, key: string): (r: Result<string, RowProblem>)
    ensures r.Ok? ==> Has(objects, r.value)
    ensures r.Err? <==> !Has(objects, "categories") && !Has(objects, "category")
    ensures Has(objects, "categories") ==> r == Ok("categories")
    ensures !Has(objects, "categories") && Has(objects, "category") ==> r == Ok("category")
  {
    if Has(objects, "categories") then Ok("categories")
    else if Has(objects, "category") then Ok("category")
    else Err(NoCategoryField(key))
  }

  /** The items as numbers, or the 1-based position of the first that is not one. */
  function AsNumbers(items: seq<Value>): (r: Result<seq<real>, nat>)
    ensures r.Ok? <==> forall i :: 0 <= i < |items| ==> items[i].Num?
    ensures r.Ok? ==> |r.value| == |items| && forall i :: 0 <= i < |items| ==> AsF64(items[i]) == Some(r.value[i])
    ensures r.Err? ==> 1 <= r.error <= |items| && !items[r.error - 1].Num?
                       && forall i :: 0 <= i < r.error - 1 ==> items[i].Num?
  {
    if |items| == 0 then Ok([])
    else
      match AsF64(items[0])
      case None => Err(1)
      case Some(x) =>
        match AsNumbers(items[1..])
        case Err(i) => Err(i + 1)
        case Ok(rest) => Ok([x] + rest)
  }

  /** `parse_bbox_array`: exactly four numbers. */
  function ParseBboxArray(v: Value, annIndex: nat): (r: Result<(real, real, real, real), RowProblem>)
    ensures r.Ok? <==> v.Array? && |v.items| == 4 && forall i :: 0 <= i < 4 ==> v.items[i].Num?
    ensures r.Ok? ==> AsF64(v.items[0]) == Some(r.value.0) && AsF64(v.items[1]) == Some(r.value.1)
                      && AsF64(v.items[2]) == Some(r.value.2) && AsF64(v.items[3]) == Some(r.value.3)
    ensures v.Array? && |v.items| != 4 ==> r == Err(BboxArity(annIndex, |v.items|))
  {
    if !v.Array? then Err(BboxNotArray(annIndex))
    else if |v.items| != 4 then Err(BboxArity(annIndex, |v.items|))
    else
      match AsNumbers(v.items)
      case Err(i) => Err(BboxElementNotNumber(annIndex, i))
      case Ok(xs) => Ok((xs[0], xs[1], xs[2], xs[3]))
  }

  predicate Integral(x: real) {
    x == x.Floor as real
  }

  /** `as i64` on an integral value: saturating at the `i64` bounds. */
  function SaturateI64(i: int): (r: int)
    ensures I64_MIN <= r <= I64_MAX
    ensures I64_MIN <= i <= I64_MAX ==> r == i
    ensures i < I64_MIN ==> r == I64_MIN
    ensures i > I64_MAX ==> r == I64_MAX
  {
    if i < I64_MIN then I64_MIN else if i > I64_MAX then I64_MAX else i
  }

  /**
   * `parse_category_value`: a string is a label; a number with no
   * fractional part is an ID (an `i64` as is, any other through a
   * saturating cast); anything else is refused.
   */
  function ParseCategoryValue(v: Value, annIndex: nat): (r: Result<ParsedCategory, RowProblem>)
    ensures v.Str? ==> r == Ok(CategoryName(v.s))
    ensures r.Ok? <==> v.Str? || (v.Num? && Integral(AsF64(v).value))
    ensures v.Num? && Integral(AsF64(v).value) ==> r == Ok(CategoryId(SaturateI64(AsF64(v).value.Floor)))
    ensures r.Ok? && r.value.CategoryId? ==> I64_MIN <= r.value.id <= I64_MAX
  {
    match AsStr(v)
    case Some(name) => Ok(CategoryName(name))
    case None =>
      match AsI64(v)
      case Some(integer) => Ok(CategoryId(integer))
      case None =>
        match AsF64(v)
        case Some(float) => if Integral(float) then Ok(CategoryId(SaturateI64(float.Floor))) else Err(BadCategory(annIndex))
        case None => Err(BadCategory(annIndex))
  }

  /** `bboxes.iter().zip(categories.iter())`: the two arrays side by side. */
  function Zip(bboxes: seq<Value>, cats: seq<Value>): (pairs: seq<(Value, Value)>)
    requires |bboxes| == |cats|
    ensures |pairs| == |bboxes| && forall k :: 0 <= k < |bboxes| ==> pairs[k] == (bboxes[k], cats[k])
  {
    seq(|bboxes|, k requires 0 <= k < |bboxes| => (bboxes[k], cats[k]))
  }

  /** Object `k` has a valid box and a valid category. */
  predicate AnnOk(pairs: seq<(Value, Value)>, k: int) {
    0 <= k < |pairs| && ParseBboxArray(pairs[k].0, k + 1).Ok? && ParseCategoryValue(pairs[k].1, k + 1).Ok?
  }

  /** The object at position `k`, once both its parts parse. */
  function AnnAt(pairs: seq<(Value, Value)>, k: int): ParsedAnn
    requires AnnOk(pairs, k)
  {
    ParsedAnn(ParseBboxArray(pairs[k].0, k + 1).value, ParseCategoryValue(pairs[k].1, k + 1).value)
  }

  /** The objects, box then category at each position in turn; the first failure is the error. */
  function ParseAnns(pairs: seq<(Value, Value)>): (r: Result<seq<ParsedAnn>, RowProblem>)
    ensures r.Ok? <==> forall k :: 0 <= k < |pairs| ==> AnnOk(pairs, k)
    ensures r.Ok? ==> |r.value| == |pairs| && forall k :: 0 <= k < |pairs| ==> r.value[k] == AnnAt(pairs, k)
  {
    if |pairs| == 0 then Ok([])
    else
      var n := |pairs| - 1;
      var pre := pairs[..n];
      assert forall k :: 0 <= k < n ==> pre[k] == pairs[k];
      assert forall k :: 0 <= k < n ==> AnnOk(pre, k) == AnnOk(pairs, k);
      match ParseAnns(pre)
      case Err(e) => Err(e)
      case Ok(done) =>
        match ParseBboxArray(pairs[n].0, n + 1)
        case Err(e) =>
          assert !AnnOk(pairs, n);
          Err(e)
        case Ok(b) =>
          match ParseCategoryValue(pairs[n].1, n + 1)
          case Err(e) =>
            assert !AnnOk(pairs, n);
            Err(e)
          case Ok(c) =>
            assert forall k :: 0 <= k < n ==> AnnAt(pre, k) == AnnAt(pairs, k);
            Ok(done + [ParsedAnn(b, c)])
  }

  /** The container's key, its category field, and the two arrays. */
  datatype ObjectArrays = ObjectArrays(key: string, field: string, bboxes: seq<Value>, cats: seq<Value>)

  /** The container of a row holds these two arrays under `bbox` and under its category field. */
  predicate ArraysOf(members: seq<(string, Value)>, a: ObjectArrays) {
    && Get(members, a.key).Some? && Get(members, a.key).value.Object?
    && Get(Get(members, a.key).value.members, "bbox") == Some(Array(a.bboxes))
    && Get(Get(members, a.key).value.members, a.field) == Some(Array(a.cats))
    && (a.field == "categories" || a.field == "category")
  }

  /** The container and its arrays, with the checks made before their lengths are compared. */
  function FindArrays(members: seq<(string, Value)>, options: ReadOptions): (r: Result<ObjectArrays, RowProblem>)
    ensures r.Ok? ==> ArraysOf(members, r.value)
    ensures r.Ok? ==> ResolveObjectsKey(members, options.objectsColumn) == Ok(r.value.key)
  {
    match ResolveObjectsKey(members, options.objectsColumn)
    case Err(e) => Err(e)
    case Ok(key) =>
      match AsObject(Get(members, key).value)
      case None => Err(ContainerNotObject(key))
      case Some(objects) =>
        var bboxValue := Get(objects, "bbox");
        if bboxValue.None? || !bboxValue.value.Array? then Err(MissingBbox(key))
        else
          match CategoryField(objects, key)
          case Err(e) => Err(e)
          case Ok(field) =>
            var catValue := Get(objects, field).value;
            if !catValue.Array? then Err(CategoryNotArray(key, field))
            else Ok(ObjectArrays(key, field, bboxValue.value.items, catValue.items))
  }

  /**
   * The objects of a row: the container and its arrays, which must have the
   * same length, then every position parsed.
   */
  function ParseObjects(members: seq<(string, Value)>, options: ReadOptions): (r: Result<seq<ParsedAnn>, RowProblem>)
    ensures r.Ok? <==> FindArrays(members, options).Ok?
                       && |FindArrays(members, options).value.bboxes| == |FindArrays(members, options).value.cats|
                       && forall k :: 0 <= k < |FindArrays(members, options).value.bboxes| ==>
                            AnnOk(Zip(FindArrays(members, options).value.bboxes, FindArrays(members, options).value.cats), k)
    ensures FindArrays(members, options).Ok?
            && |FindArrays(members, options).value.bboxes| != |FindArrays(members, options).value.cats| ==>
              r == Err(LengthMismatch(FindArrays(members, options).value.key, |FindArrays(members, options).value.bboxes|,
                                      FindArrays(members, options).value.field, |FindArrays(members, options).value.cats|))
    ensures r.Ok? ==> |r.value| == |FindArrays(members, options).value.bboxes|
    ensures r.Ok? ==> forall k :: 0 <= k < |r.value| ==>
      r.value[k] == AnnAt(Zip(FindArrays(members, options).value.bboxes, FindArrays(members, options).value.cats), k)
  {
    match FindArrays(members, options)
    case Err(e) => Err(e)
    case Ok(a) =>
      if |a.bboxes| != |a.cats| then Err(LengthMismatch(a.key, |a.bboxes|, a.field, |a.cats|))
      else ParseAnns(Zip(a.bboxes, a.cats))
  }

  /**
   * `ensure_dimensions`: a size given in the row is kept; when either is
   * missing the image file is probed, and its size is cast to `u32`.
   */
  function EnsureDimensions(width: Option<nat>, height: Option<nat>, fileName: string, probe: SizeProbe)
    : (r: Result<(nat, nat), RowProblem>)
    ensures width.Some? && height.Some? ==> r == Ok((width.value, height.value))
    ensures r.Err? <==> (width.None? || height.None?) && probe(fileName).None?
    ensures r.Ok? ==> r.value.0 == if width.Some? then width.value else probe(fileName).value.0 % U32_MODULUS
    ensures r.Ok? ==> r.value.1 == if height.Some? then height.value else probe(fileName).value.1 % U32_MODULUS
  {
    if width.Some? && height.Some? then Ok((width.value, height.value))
    else
      match probe(fileName)
      case None => Err(SizeUnreadable(fileName))
      case Some(size) =>
        Ok((width.UnwrapOr(size.0 % U32_MODULUS), height.UnwrapOr(size.1 % U32_MODULUS)))
  }

  /** The required `file_name` string. */
  function FileNameField(members: seq<(string, Value)>): (r: Result<string, RowProblem>)
    ensures r.Ok? <==> Get(members, "file_name").Some? && Get(members, "file_name").value.Str?
    ensures r.Ok? ==> Get(members, "file_name") == Some(Str(r.value))
  {
    match Get(members, "file_name")
    case None => Err(MissingFileName)
    case Some(v) => if v.Str? then Ok(v.s) else Err(MissingFileName)
  }

  /** The checks of one row object, in the order they are made. */
  function RowFrom(members: seq<(string, Value)>, options: ReadOptions, probe: SizeProbe)
    : (r: Result<ParsedRow, RowProblem>)
    ensures r.Ok? ==> FileNameField(members) == Ok(r.value.fileName)
    ensures r.Ok? ==> ParseObjects(members, options) == Ok(r.value.anns)
    ensures r.Ok? ==> ParseOptionalU32(Get(members, "width"), "width").Ok?
                      && ParseOptionalU32(Get(members, "height"), "height").Ok?
    ensures r.Ok? && Get(members, "width").Some? ==> r.value.width == Get(members, "width").value.n.i
    ensures r.Ok? && Get(members, "height").Some? ==> r.value.height == Get(members, "height").value.n.i
    ensures r.Ok? ==> r.value.width <= U32_MAX && r.value.height <= U32_MAX
  {
    match FileNameField(members)
    case Err(e) => Err(e)
    case Ok(fileName) =>
      match ParseOptionalU32(Get(members, "width"), "width")
      case Err(e) => Err(e)
      case Ok(width) =>
        match ParseOptionalU32(Get(members, "height"), "height")
        case Err(e) => Err(e)
        case Ok(height) =>
          match ParseObjects(members, options)
          case Err(e) => Err(e)
          case Ok(anns) =>
            match EnsureDimensions(width, height, fileName, probe)
            case Err(e) => Err(e)
            case Ok(size) => Ok(ParsedRow(fileName, size.0, size.1, anns))
  }

  /** `parse_jsonl_row` on the parsed JSON value of line `line`. */
  function JsonlRow(value: Value, line: nat, options: ReadOptions, probe: SizeProbe): (r: Result<ParsedRow, HfError>)
    ensures !value.Object? ==> r == Err(JsonlParse(line, NotAnObject))
    ensures value.Object? ==> (r.Ok? <==> RowFrom(value.members, options, probe).Ok?)
    ensures r.Ok? ==> value.Object? && r.value == RowFrom(value.members, options, probe).value
    ensures r.Err? ==> r.error.JsonlParse? && r.error.line == line
  {
    match AsObject(value)
    case None => Err(JsonlParse(line, NotAnObject))
    case Some(members) =>
      match RowFrom(members, options, probe)
      case Err(e) => Err(JsonlParse(line, e))
      case Ok(row) => Ok(row)
  }

  // ------------------------------------------------------------ rows to a dataset

  function FileNames(rows: seq<ParsedRow>): (names: seq<string>)
    ensures |names| == |rows| && forall k :: 0 <= k < |rows| ==> names[k] == rows[k].fileName
  {
    seq(|rows|, k requires 0 <= k < |rows| => rows[k].fileName)
  }

  /** The file name of the first row that repeats an earlier row's. */
  function FirstDuplicate(rows: seq<ParsedRow>): Option<string> {
    if |rows| == 0 then None
    else
      var pre, last := rows[..|rows| - 1], rows[|rows| - 1];
      var earlier := FirstDuplicate(pre);
      if earlier.Some? then earlier
      else if last.fileName in FileNames(pre) then Some(last.fileName)
      else None
  }

  /** `by_file`: every row under its file name. */
  function ByFile(rows: seq<ParsedRow>): (byFile: map<string, ParsedRow>)
    ensures forall n :: n in byFile <==> n in FileNames(rows)
  {
    if |rows| == 0 then map[]
    else
      var pre, last := rows[..|rows| - 1], rows[|rows| - 1];
      assert FileNames(rows) == FileNames(pre) + [last.fileName];
      ByFile(pre)[last.fileName := last]
  }

  /** The rows in ascending order of their keys. */
  function RowsAt(keys: seq<string>, byFile: map<string, ParsedRow>): (rows: seq<ParsedRow>)
    requires forall n :: n in keys ==> n in byFile
    ensures |rows| == |keys| && forall k :: 0 <= k < |keys| ==> rows[k] == byFile[keys[k]]
  {
    seq(|keys|, k requires 0 <= k < |keys| => byFile[keys[k]])
  }

  /** The category name of an object: its label, or its ID through the category map, else the ID in decimal. */
  function CategoryNameOf(c: ParsedCategory, categoryMap: map<int, string>): string {
    match c
    case CategoryName(n) => n
    case CategoryId(id) => if id in categoryMap then categoryMap[id] else IntToString(id)
  }

  function AnnNames(anns: seq<ParsedAnn>, categoryMap: map<int, string>): (names: seq<string>)
    ensures |names| == |anns| && forall j :: 0 <= j < |anns| ==> names[j] == CategoryNameOf(anns[j].category, categoryMap)
  {
    seq(|anns|, j requires 0 <= j < |anns| => CategoryNameOf(anns[j].category, categoryMap))
  }

  /** The category names of every object, row after row. */
  function ReferencedNames(rows: seq<ParsedRow>, categoryMap: map<int, string>): seq<string> {
    if |rows| == 0 then []
    else ReferencedNames(rows[..|rows| - 1], categoryMap) + AnnNames(rows[|rows| - 1].anns, categoryMap)
  }

  /** `category_names_set`. */
  function CategoryNamesOf(rows: seq<ParsedRow>, categoryMap: map<int, string>): seq<string> {
    SortDedup(ReferencedNames(rows, categoryMap))
  }

  /** A box read in the configured format. */
  function BoxOf(v: (real, real, real, real), f: BboxFormat): BBox {
    match f
    case Xywh => FromXywh(v.0, v.1, v.2, v.3)
    case Xyxy => FromXyxy(v.0, v.1, v.2, v.3)
  }

  function HfCategories(names: seq<string>): (categories: seq<Category>)
    ensures |categories| == |names|
    ensures forall k :: 0 <= k < |names| ==> categories[k] == NewCategory(k + 1, names[k])
  {
    seq(|names|, k requires 0 <= k < |names| => NewCategory(k + 1, names[k]))
  }

  function HfImages(keys: seq<string>, rows: seq<ParsedRow>): (images: seq<Image>)
    requires |rows| == |keys|
    ensures |images| == |keys|
    ensures forall k :: 0 <= k < |keys| ==> images[k] == NewImage(k + 1, keys[k], rows[k].width, rows[k].height)
  {
    seq(|keys|, k requires 0 <= k < |keys| => NewImage(k + 1, keys[k], rows[k].width, rows[k].height))
  }

  /** Every object's category name is among `names`. */
  predicate AnnsKnown(anns: seq<ParsedAnn>, names: seq<string>, categoryMap: map<int, string>) {
    forall j :: 0 <= j < |anns| ==> CategoryNameOf(anns[j].category, categoryMap) in names
  }

  predicate RowsKnown(rows: seq<ParsedRow>, names: seq<string>, categoryMap: map<int, string>) {
    forall k :: 0 <= k < |rows| ==> AnnsKnown(rows[k].anns, names, categoryMap)
  }

  function AnnotationOf(id: nat, imageId: nat, ann: ParsedAnn, names: seq<string>, options: ReadOptions): Annotation
    requires CategoryNameOf(ann.category, options.categoryMap) in names
  {
    NewAnnotation(id, imageId, IndexOf(names, CategoryNameOf(ann.category, options.categoryMap)) + 1,
                  BoxOf(ann.bbox, options.bboxFormat))
  }

  /** One row's objects, numbered from `firstId`. */
  function RowAnnotations(row: ParsedRow, imageId: nat, names: seq<string>, options: ReadOptions, firstId: nat)
    : (anns: seq<Annotation>)
    requires AnnsKnown(row.anns, names, options.categoryMap)
    ensures |anns| == |row.anns|
    ensures forall j :: 0 <= j < |row.anns| ==> anns[j] == AnnotationOf(firstId + j, imageId, row.anns[j], names, options)
  {
    seq(|row.anns|, j requires 0 <= j < |row.anns| => AnnotationOf(firstId + j, imageId, row.anns[j], names, options))
  }

  /** The annotations of the rows from position `idx` on, numbered from `firstId`. */
  function AnnotationsFrom(rows: seq<ParsedRow>, idx: nat, names: seq<string>, options: ReadOptions, firstId: nat)
    : seq<Annotation>
    requires idx <= |rows| && RowsKnown(rows, names, options.categoryMap)
    decreases |rows| - idx
  {
    if idx == |rows| then []
    else
      RowAnnotations(rows[idx], idx + 1, names, options, firstId)
      + AnnotationsFrom(rows, idx + 1, names, options, firstId + |rows[idx].anns|)
  }

  /** The provenance attributes, with `hf_bbox_format` added unless already there. */
  function InfoAttributes(options: ReadOptions): map<string, string> {
    if "hf_bbox_format" in options.provenance then options.provenance
    else options.provenance["hf_bbox_format" := FormatName(options.bboxFormat)]
  }

  /** The dataset built from rows keyed by file name. */
  function Assemble(byFile: map<string, ParsedRow>, options: ReadOptions): Dataset {
    var keys := SortedKeys(byFile.Keys);
    var rows := RowsAt(keys, byFile);
    var names := CategoryNamesOf(rows, options.categoryMap);
    RowsNamesKnown(rows, options.categoryMap);
    Dataset(DefaultInfo().(attributes := InfoAttributes(options)), [], HfImages(keys, rows), HfCategories(names),
            AnnotationsFrom(rows, 0, names, options, 1))
  }

  /** `dataset_from_rows`: a repeated file name is refused; otherwise the rows are numbered. */
  function HfDataset(rows: seq<ParsedRow>, options: ReadOptions): Result<Dataset, HfError> {
    match FirstDuplicate(rows)
    case Some(name) => Err(DuplicateFileName(name))
    case None => Ok(Assemble(ByFile(rows), options))
  }

  /** Object `j` of row `i` contributes its category name. */
  lemma {:induction false} NameReferenced(rows: seq<ParsedRow>, i: nat, j: nat, categoryMap: map<int, string>)
    requires i < |rows| && j < |rows[i].anns|
    ensures CategoryNameOf(rows[i].anns[j].category, categoryMap) in ReferencedNames(rows, categoryMap)
    decreases |rows|
  {
    var pre := rows[..|rows| - 1];
    if i < |rows| - 1 {
      assert pre[i] == rows[i];
      NameReferenced(pre, i, j, categoryMap);
    } else {
      assert AnnNames(rows[i].anns, categoryMap)[j] == CategoryNameOf(rows[i].anns[j].category, categoryMap);
    }
  }

  /** Every object's name is a category. */
  lemma RowsNamesKnown(rows: seq<ParsedRow>, categoryMap: map<int, string>)
    ensures RowsKnown(rows, CategoryNamesOf(rows, categoryMap), categoryMap)
  {
    forall k, j | 0 <= k < |rows| && 0 <= j < |rows[k].anns|
      ensures CategoryNameOf(rows[k].anns[j].category, categoryMap) in CategoryNamesOf(rows, categoryMap)
    {
      NameReferenced(rows, k, j, categoryMap);
    }
  }

  // ------------------------------------------------------------ the loops, step by step

  lemma {:induction false} ParseAnnsErrPersists(pairs: seq<(Value, Value)>, i: nat)
    requires i <= |pairs| && ParseAnns(pairs[..i]).Err?
    ensures ParseAnns(pairs) == ParseAnns(pairs[..i])
    decreases |pairs|
  {
    if i < |pairs| {
      var pre := pairs[..|pairs| - 1];
      assert pre[..i] == pairs[..i];
      ParseAnnsErrPersists(pre, i);
    } else {
      assert pairs[..i] == pairs;
    }
  }

  /** The loop of `parse_jsonl_row` over the two arrays side by side. */
  method ParseAnnList(pairs: seq<(Value, Value)>) returns (r: Result<seq<ParsedAnn>, RowProblem>)
    ensures r == ParseAnns(pairs)
  {
    var anns: seq<ParsedAnn> := [];
    assert pairs[..0] == [];
    for idx := 0 to |pairs|
      invariant ParseAnns(pairs[..idx]) == Ok(anns)
    {
      assert pairs[..idx + 1][..idx] == pairs[..idx] && pairs[..idx + 1][idx] == pairs[idx];
      var (bboxValue, categoryValue) := pairs[idx];
      var bbox := ParseBboxArray(bboxValue, idx + 1);
      if bbox.Err? {
        ParseAnnsErrPersists(pairs, idx + 1);
        return Err(bbox.error);
      }
      var category := ParseCategoryValue(categoryValue, idx + 1);
      if category.Err? {
        ParseAnnsErrPersists(pairs, idx + 1);
        return Err(category.error);
      }
      anns := anns + [ParsedAnn(bbox.value, category.value)];
    }
    assert pairs[..|pairs|] == pairs;
    return Ok(anns);
  }

  /** `parse_jsonl_row`: the checks in order, then the objects, then the size. */
  method ParseJsonlRow(value: Value, line: nat, options: ReadOptions, probe: SizeProbe)
    returns (r: Result<ParsedRow, HfError>)
    ensures r == JsonlRow(value, line, options, probe)
  {
    if !value.Object? {
      return Err(JsonlParse(line, NotAnObject));
    }
    var members := value.members;
    var fileName := FileNameField(members);
    if fileName.Err? {
      return Err(JsonlParse(line, fileName.error));
    }
    var width := ParseOptionalU32(Get(members, "width"), "width");
    if width.Err? {
      return Err(JsonlParse(line, width.error));
    }
    var height := ParseOptionalU32(Get(members, "height"), "height");
    if height.Err? {
      return Err(JsonlParse(line, height.error));
    }
    var arrays := FindArrays(members, options);
    if arrays.Err? {
      return Err(JsonlParse(line, arrays.error));
    }
    var a := arrays.value;
    if |a.bboxes| != |a.cats| {
      return Err(JsonlParse(line, LengthMismatch(a.key, |a.bboxes|, a.field, |a.cats|)));
    }
    var anns := ParseAnnList(Zip(a.bboxes, a.cats));
    if anns.Err? {
      return Err(JsonlParse(line, anns.error));
    }
    var size := EnsureDimensions(width.value, height.value, fileName.value, probe);
    if size.Err? {
      return Err(JsonlParse(line, size.error));
    }
    return Ok(ParsedRow(fileName.value, size.value.0, size.value.1, anns.value));
  }

  lemma {:induction false} FirstDuplicatePersists(rows: seq<ParsedRow>, i: nat)
    requires i <= |rows| && FirstDuplicate(rows[..i]).Some?
    ensures FirstDuplicate(rows) == FirstDuplicate(rows[..i])
    decreases |rows|
  {
    if i < |rows| {
      assert rows[..|rows| - 1][..i] == rows[..i];
      FirstDuplicatePersists(rows[..|rows| - 1], i);
    } else {
      assert rows[..i] == rows;
    }
  }

  /** The first loop of `dataset_from_rows`: each row under its file name, refusing a name seen before. */
  method CollectRows(rows: seq<ParsedRow>) returns (r: Result<map<string, ParsedRow>, HfError>)
    ensures FirstDuplicate(rows).Some? ==> r == Err(DuplicateFileName(FirstDuplicate(rows).value))
    ensures FirstDuplicate(rows).None? ==> r == Ok(ByFile(rows))
  {
    var byFile: map<string, ParsedRow> := map[];
    for i := 0 to |rows|
      invariant FirstDuplicate(rows[..i]).None?
      invariant byFile == ByFile(rows[..i])
    {
      var row := rows[i];
      assert rows[..i + 1][..i] == rows[..i] && rows[..i + 1][i] == row;
      if row.fileName in byFile {
        FirstDuplicatePersists(rows, i + 1);
        return Err(DuplicateFileName(row.fileName));
      }
      byFile := byFile[row.fileName := row];
    }
    assert rows[..|rows|] == rows;
    return Ok(byFile);
  }

  lemma ReferencedSnoc(rows: seq<ParsedRow>, row: ParsedRow, categoryMap: map<int, string>)
    ensures ReferencedNames(rows + [row], categoryMap) == ReferencedNames(rows, categoryMap) + AnnNames(row.anns, categoryMap)
  {
    assert (rows + [row])[..|rows|] == rows;
  }

  /** The inner loop of the category pass: each object's name pushed and inserted into the set. */
  method RowCategories(set0: seq<string>, anns: seq<ParsedAnn>, categoryMap: map<int, string>, ghost before: seq<string>)
    returns (set1: seq<string>, annCategories: seq<string>)
    requires set0 == SortDedup(before)
    ensures set1 == SortDedup(before + AnnNames(anns, categoryMap))
    ensures annCategories == AnnNames(anns, categoryMap)
  {
    set1, annCategories := set0, [];
    assert before + annCategories == before;
    for j := 0 to |anns|
      invariant annCategories == AnnNames(anns[..j], categoryMap)
      invariant set1 == SortDedup(before + annCategories)
    {
      var name := CategoryNameOf(anns[j].category, categoryMap);
      RowCategoryStep(anns, j, categoryMap);
      InsertStep(before, annCategories, name);
      set1 := InsertUnique(set1, name);
      annCategories := annCategories + [name];
    }
    assert anns[..|anns|] == anns;
  }

  lemma RowCategoryStep(anns: seq<ParsedAnn>, j: nat, categoryMap: map<int, string>)
    requires j < |anns|
    ensures AnnNames(anns[..j + 1], categoryMap) == AnnNames(anns[..j], categoryMap) + [CategoryNameOf(anns[j].category, categoryMap)]
  {
  }

  /** `BTreeSet::insert` of one more name. */
  lemma InsertStep(before: seq<string>, done: seq<string>, name: string)
    ensures InsertUnique(SortDedup(before + done), name) == SortDedup(before + (done + [name]))
  {
    Seqs.AppendAssoc(before, done, [name]);
    assert (before + done + [name])[..|before + done|] == before + done;
  }

  /** `file_ann_categories` holds, for each of the first `i` keys, the category names of its row. */
  predicate AnnCategoriesFor(keys: seq<string>, i: nat, byFile: map<string, ParsedRow>,
                             fileAnnCategories: map<string, seq<string>>, categoryMap: map<int, string>)
    requires i <= |keys| && forall n :: n in keys ==> n in byFile
  {
    forall k :: 0 <= k < i ==>
      keys[k] in fileAnnCategories && fileAnnCategories[keys[k]] == AnnNames(byFile[keys[k]].anns, categoryMap)
  }

  /**
   * The second loop: for each file name in order, the category names of its
   * objects, kept per file and collected into one sorted set.
   */
  method CategoryPass(keys: seq<string>, byFile: map<string, ParsedRow>, categoryMap: map<int, string>)
    returns (names: seq<string>, fileAnnCategories: map<string, seq<string>>)
    requires StrictlySorted(keys) && forall n :: n in keys ==> n in byFile
    ensures names == CategoryNamesOf(RowsAt(keys, byFile), categoryMap)
    ensures AnnCategoriesFor(keys, |keys|, byFile, fileAnnCategories, categoryMap)
  {
    names, fileAnnCategories := [], map[];
    for i := 0 to |keys|
      invariant CategoriesSoFar(keys, i, byFile, categoryMap, names)
      invariant AnnCategoriesFor(keys, i, byFile, fileAnnCategories, categoryMap)
    {
      var row := byFile[keys[i]];
      var annCategories;
      names, annCategories := RowCategories(names, row.anns, categoryMap,
                                            ReferencedNames(RowsAt(keys[..i], byFile), categoryMap));
      CategoryPassStep(keys, i, byFile, categoryMap);
      AnnCategoriesStep(keys, i, byFile, fileAnnCategories, categoryMap);
      fileAnnCategories := fileAnnCategories[keys[i] := annCategories];
    }
    assert keys[..|keys|] == keys;
  }

  /** The sorted set of category names after the first `i` files. */
  predicate CategoriesSoFar(keys: seq<string>, i: nat, byFile: map<string, ParsedRow>, categoryMap: map<int, string>,
                            names: seq<string>)
    requires forall n :: n in keys ==> n in byFile
  {
    i <= |keys| && names == CategoryNamesOf(RowsAt(keys[..i], byFile), categoryMap)
  }

  lemma CategoryPassStep(keys: seq<string>, i: nat, byFile: map<string, ParsedRow>, categoryMap: map<int, string>)
    requires i < |keys| && forall n :: n in keys ==> n in byFile
    ensures ReferencedNames(RowsAt(keys[..i + 1], byFile), categoryMap) ==
            ReferencedNames(RowsAt(keys[..i], byFile), categoryMap) + AnnNames(byFile[keys[i]].anns, categoryMap)
    ensures CategoryNamesOf(RowsAt(keys[..i + 1], byFile), categoryMap) ==
            SortDedup(ReferencedNames(RowsAt(keys[..i], byFile), categoryMap) + AnnNames(byFile[keys[i]].anns, categoryMap))
  {
    var done := RowsAt(keys[..i], byFile);
    assert RowsAt(keys[..i + 1], byFile) == done + [byFile[keys[i]]];
    ReferencedSnoc(done, byFile[keys[i]], categoryMap);
  }

  lemma AnnCategoriesStep(keys: seq<string>, i: nat, byFile: map<string, ParsedRow>,
                          fileAnnCategories: map<string, seq<string>>, categoryMap: map<int, string>)
    requires i < |keys| && StrictlySorted(keys) && forall n :: n in keys ==> n in byFile
    requires AnnCategoriesFor(keys, i, byFile, fileAnnCategories, categoryMap)
    ensures AnnCategoriesFor(keys, i + 1, byFile,
                             fileAnnCategories[keys[i] := AnnNames(byFile[keys[i]].anns, categoryMap)], categoryMap)
  {
    forall k | 0 <= k < i ensures keys[k] != keys[i] {
      StrictlySortedDistinct(keys, k, i);
    }
  }

  lemma AnnCategoriesAt(keys: seq<string>, i: nat, byFile: map<string, ParsedRow>,
                        fileAnnCategories: map<string, seq<string>>, categoryMap: map<int, string>)
    requires i < |keys| && forall n :: n in keys ==> n in byFile
    requires AnnCategoriesFor(keys, |keys|, byFile, fileAnnCategories, categoryMap)
    ensures keys[i] in fileAnnCategories && fileAnnCategories[keys[i]] == AnnNames(byFile[keys[i]].anns, categoryMap)
  {
  }

  /** The third loop: one image per file name, numbered from 1. */
  method BuildImages(keys: seq<string>, byFile: map<string, ParsedRow>) returns (images: seq<Image>)
    requires forall n :: n in keys ==> n in byFile
    ensures images == HfImages(keys, RowsAt(keys, byFile))
  {
    images := [];
    for idx := 0 to |keys|
      invariant |images| == idx
      invariant forall k :: 0 <= k < idx ==>
        images[k] == NewImage(k + 1, keys[k], byFile[keys[k]].width, byFile[keys[k]].height)
    {
      var row := byFile[keys[idx]];
      images := images + [NewImage(idx + 1, keys[idx], row.width, row.height)];
    }
  }

  /** One row's objects become annotations, numbered on from `firstId`. */
  method RowAnnotationList(row: ParsedRow, imageId: nat, annCategories: seq<string>, names: seq<string>,
                           options: ReadOptions, firstId: nat)
    returns (anns: seq<Annotation>, nextId: nat)
    requires AnnsKnown(row.anns, names, options.categoryMap)
    requires annCategories == AnnNames(row.anns, options.categoryMap)
    ensures anns == RowAnnotations(row, imageId, names, options, firstId)
    ensures nextId == firstId + |row.anns|
  {
    anns, nextId := [], firstId;
    for j := 0 to |row.anns|
      invariant nextId == firstId + j && |anns| == j
      invariant forall t :: 0 <= t < j ==> anns[t] == AnnotationOf(firstId + t, imageId, row.anns[t], names, options)
    {
      var categoryId := IndexOf(names, annCategories[j]) + 1;
      anns := anns + [NewAnnotation(nextId, imageId, categoryId, BoxOf(row.anns[j].bbox, options.bboxFormat))];
      nextId := nextId + 1;
    }
  }

  /** The last loop: file after file in name order, with one running annotation ID. */
  method AssembleAnnotations(keys: seq<string>, byFile: map<string, ParsedRow>,
                             fileAnnCategories: map<string, seq<string>>, names: seq<string>, options: ReadOptions)
    returns (anns: seq<Annotation>)
    requires forall n :: n in keys ==> n in byFile
    requires RowsKnown(RowsAt(keys, byFile), names, options.categoryMap)
    requires AnnCategoriesFor(keys, |keys|, byFile, fileAnnCategories, options.categoryMap)
    ensures anns == AnnotationsFrom(RowsAt(keys, byFile), 0, names, options, 1)
  {
    ghost var rows := RowsAt(keys, byFile);
    ghost var total := AnnotationsFrom(rows, 0, names, options, 1);
    anns := [];
    var nextId: nat := 1;
    for i := 0 to |keys|
      invariant anns + AnnotationsFrom(rows, i, names, options, nextId) == total
    {
      var row := byFile[keys[i]];
      assert row == rows[i] && AnnsKnown(rows[i].anns, names, options.categoryMap);
      AnnCategoriesAt(keys, i, byFile, fileAnnCategories, options.categoryMap);
      var rowAnns, next := RowAnnotationList(row, i + 1, fileAnnCategories[keys[i]], names, options, nextId);
      AnnotationsStep(rows, i, names, options, nextId, anns, rowAnns, total);
      anns, nextId := anns + rowAnns, next;
    }
  }

  lemma AnnotationsStep(rows: seq<ParsedRow>, i: nat, names: seq<string>, options: ReadOptions, nextId: nat,
                        anns: seq<Annotation>, rowAnns: seq<Annotation>, total: seq<Annotation>)
    requires i < |rows| && RowsKnown(rows, names, options.categoryMap)
    requires anns + AnnotationsFrom(rows, i, names, options, nextId) == total
    requires rowAnns == RowAnnotations(rows[i], i + 1, names, options, nextId)
    ensures (anns + rowAnns) + AnnotationsFrom(rows, i + 1, names, options, nextId + |rows[i].anns|) == total
  {
    Seqs.AppendAssoc(anns, rowAnns, AnnotationsFrom(rows, i + 1, names, options, nextId + |rows[i].anns|));
  }

  /** `dataset_from_rows`: key the rows, sort the names, then the category, image and annotation passes. */
  method DatasetFromRows(rows: seq<ParsedRow>, options: ReadOptions) returns (r: Result<Dataset, HfError>)
    ensures r == HfDataset(rows, options)
  {
    var collected := CollectRows(rows);
    if collected.Err? {
      return Err(collected.error);
    }
    var byFile := collected.value;
    var keys := SortedKeys(byFile.Keys);
    var names, fileAnnCategories := CategoryPass(keys, byFile, options.categoryMap);
    var categories := HfCategories(names);
    var images := BuildImages(keys, byFile);
    RowsNamesKnown(RowsAt(keys, byFile), options.categoryMap);
    var annotations := AssembleAnnotations(keys, byFile, fileAnnCategories, names, options);
    var attributes := options.provenance;
    if "hf_bbox_format" !in attributes {
      attributes := attributes["hf_bbox_format" := FormatName(options.bboxFormat)];
    }
    return Ok(Dataset(DefaultInfo().(attributes := attributes), [], images, categories, annotations));
  }
}
