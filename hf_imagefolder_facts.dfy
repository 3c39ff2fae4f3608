// What the HF ImageFolder reader promises about the rows it accepts and the
// dataset it builds: the first failing object decides a row's error, a
// repeated file name is refused, and images, categories and annotations are
// numbered in file-name order, name order and array order.
module HfImagefolderFacts {
  import opened Wrappers
  import opened BBoxes
  import opened Ir
  import opened StrOrder
  import opened Numbers
  import opened JsonValue
  import Seqs
  import opened HfImagefolder

  // ------------------------------------------------------------ one row

  /**
   * When every object before position `k` parses and object `k` does not,
   * the row's error is that object's: its box is checked before its category.
   */
  lemma FirstBadObject(pairs: seq<(Value, Value)>, k: nat)
    requires k < |pairs| && !AnnOk(pairs, k)
    requires forall j :: 0 <= j < k ==> AnnOk(pairs, j)
    ensures ParseBboxArray(pairs[k].0, k + 1).Err? ==> ParseAnns(pairs) == Err(ParseBboxArray(pairs[k].0, k + 1).error)
    ensures ParseBboxArray(pairs[k].0, k + 1).Ok? ==> ParseAnns(pairs) == Err(ParseCategoryValue(pairs[k].1, k + 1).error)
  {
    var pre := pairs[..k];
    assert forall j :: 0 <= j < k ==> pre[j] == pairs[j] && AnnOk(pre, j) == AnnOk(pairs, j);
    assert pairs[..k + 1][..k] == pre && pairs[..k + 1][k] == pairs[k];
    ParseAnnsErrPersists(pairs, k + 1);
  }

  /** A box array of the wrong length is refused with its length, whatever its items. */
  lemma BboxArityRefused(items: seq<Value>, annIndex: nat)
    requires |items| != 4
    ensures ParseBboxArray(Array(items), annIndex) == Err(BboxArity(annIndex, |items|))
    ensures forall c: Value :: ParseAnns([(Array(items), c)]).Err?
  {
    forall c: Value ensures ParseAnns([(Array(items), c)]).Err? {
      assert !AnnOk([(Array(items), c)], 0);
    }
  }

  /**
   * An integral number names a category by ID. A number that fits in `i64`
   * is that ID, one above or below the range saturates, and a number with a
   * fractional part is refused.
   */
  lemma CategoryIdCases(n: Number, annIndex: nat)
    ensures n.Int? && I64_MIN <= n.i <= I64_MAX ==> ParseCategoryValue(Num(n), annIndex) == Ok(CategoryId(n.i))
    ensures n.Int? && n.i > I64_MAX ==> ParseCategoryValue(Num(n), annIndex) == Ok(CategoryId(I64_MAX))
    ensures n.Float? && Integral(n.f) && I64_MIN <= n.f.Floor <= I64_MAX ==>
      ParseCategoryValue(Num(n), annIndex) == Ok(CategoryId(n.f.Floor))
    ensures n.Float? && !Integral(n.f) ==> ParseCategoryValue(Num(n), annIndex) == Err(BadCategory(annIndex))
  {
    if n.Int? {
      assert AsF64(Num(n)) == Some(n.i as real) && (n.i as real).Floor == n.i;
    }
  }

  /** Booleans, nulls, arrays and objects are never categories. */
  lemma CategoryRefused(v: Value, annIndex: nat)
    requires !v.Str? && !v.Num?
    ensures ParseCategoryValue(v, annIndex) == Err(BadCategory(annIndex))
  {
  }

  // ------------------------------------------------------------ duplicate file names

  /** Rows `i` and `j` name the same file. */
  predicate SameFile(rows: seq<ParsedRow>, i: int, j: int) {
    0 <= i < j < |rows| && rows[i].fileName == rows[j].fileName
  }

  /**
   * The rows are refused exactly when two of them name the same file, and
   * the name reported is such a shared name.
   */
  lemma {:induction false} DuplicateRefused(rows: seq<ParsedRow>)
    ensures FirstDuplicate(rows).None? <==> Seqs.Distinct(FileNames(rows))
    ensures FirstDuplicate(rows).Some? ==> exists i, j :: SameFile(rows, i, j) && rows[j].fileName == FirstDuplicate(rows).value
  {
    if |rows| > 0 {
      var pre, last := rows[..|rows| - 1], rows[|rows| - 1];
      DuplicateRefused(pre);
      assert FileNames(rows) == FileNames(pre) + [last.fileName];
      Seqs.DistinctSnoc(FileNames(pre), last.fileName);
      if FirstDuplicate(pre).Some? {
        var i, j :| SameFile(pre, i, j) && pre[j].fileName == FirstDuplicate(pre).value;
        assert SameFile(rows, i, j);
      } else if last.fileName in FileNames(pre) {
        var i :| 0 <= i < |pre| && FileNames(pre)[i] == last.fileName;
        assert SameFile(rows, i, |rows| - 1);
      }
    }
  }

  /** With distinct file names, row `k` is stored under its own name. */
  lemma {:induction false} ByFileAt(rows: seq<ParsedRow>, k: nat)
    requires Seqs.Distinct(FileNames(rows)) && k < |rows|
    ensures rows[k].fileName in ByFile(rows) && ByFile(rows)[rows[k].fileName] == rows[k]
    decreases |rows|
  {
    var pre, last := rows[..|rows| - 1], rows[|rows| - 1];
    assert FileNames(rows) == FileNames(pre) + [last.fileName];
    Seqs.DistinctSnoc(FileNames(pre), last.fileName);
    if k < |rows| - 1 {
      assert pre[k] == rows[k];
      assert FileNames(pre)[k] == rows[k].fileName;
      ByFileAt(pre, k);
    }
  }

  /** With distinct file names, one entry is stored per row. */
  lemma {:induction false} ByFileSize(rows: seq<ParsedRow>)
    requires Seqs.Distinct(FileNames(rows))
    ensures |ByFile(rows).Keys| == |rows|
    decreases |rows|
  {
    if |rows| > 0 {
      var pre, last := rows[..|rows| - 1], rows[|rows| - 1];
      assert FileNames(rows) == FileNames(pre) + [last.fileName];
      Seqs.DistinctSnoc(FileNames(pre), last.fileName);
      ByFileSize(pre);
      assert last.fileName !in ByFile(pre);
      assert ByFile(rows).Keys == ByFile(pre).Keys + {last.fileName};
    }
  }

  /** The rows in file-name order. */
  function SortedRows(rows: seq<ParsedRow>): (sorted: seq<ParsedRow>)
    ensures |sorted| == |SortedKeys(ByFile(rows).Keys)|
  {
    RowsAt(SortedKeys(ByFile(rows).Keys), ByFile(rows))
  }

  /** Every row in file-name order is one of the rows. */
  lemma SortedRowIsRow(rows: seq<ParsedRow>, j: nat) returns (k: nat)
    requires Seqs.Distinct(FileNames(rows)) && j < |SortedRows(rows)|
    ensures k < |rows| && SortedRows(rows)[j] == rows[k]
    ensures SortedKeys(ByFile(rows).Keys)[j] == rows[k].fileName
  {
    var keys := SortedKeys(ByFile(rows).Keys);
    assert keys[j] in FileNames(rows);
    k :| 0 <= k < |rows| && FileNames(rows)[k] == keys[j];
    ByFileAt(rows, k);
  }

  /** Every row has its place in file-name order. */
  lemma RowIsSortedRow(rows: seq<ParsedRow>, k: nat) returns (j: nat)
    requires Seqs.Distinct(FileNames(rows)) && k < |rows|
    ensures j < |SortedRows(rows)| && SortedRows(rows)[j] == rows[k]
    ensures SortedKeys(ByFile(rows).Keys)[j] == rows[k].fileName
  {
    var keys := SortedKeys(ByFile(rows).Keys);
    ByFileAt(rows, k);
    assert rows[k].fileName in ByFile(rows).Keys;
    j :| 0 <= j < |keys| && keys[j] == rows[k].fileName;
  }

  // ------------------------------------------------------------ the dataset

  /** An image built from a row: same name and size, no license, date or attributes. */
  predicate ImageFromRow(image: Image, row: ParsedRow) {
    image == NewImage(image.id, row.fileName, row.width, row.height)
  }

  /** Some image is built from `row`. */
  ghost predicate HasImage(images: seq<Image>, row: ParsedRow) {
    exists j :: 0 <= j < |images| && ImageFromRow(images[j], row)
  }

  /** `image` is built from some row. */
  ghost predicate HasRow(rows: seq<ParsedRow>, image: Image) {
    exists k :: 0 <= k < |rows| && ImageFromRow(image, rows[k])
  }

  /** The images of distinct rows, in the order the reader builds them. */
  lemma ImagesOfRows(rows: seq<ParsedRow>, options: ReadOptions)
    requires FirstDuplicate(rows).None?
    ensures Seqs.Distinct(FileNames(rows))
    ensures HfDataset(rows, options).value.images
         == HfImagefolder.HfImages(SortedKeys(ByFile(rows).Keys), SortedRows(rows))
  {
    DuplicateRefused(rows);
  }

  /** Position `j` of file-name order holds row `k`. */
  predicate Placed(rows: seq<ParsedRow>, keys: seq<string>, sorted: seq<ParsedRow>, j: int, k: int) {
    0 <= j < |keys| && j < |sorted| && 0 <= k < |rows| && sorted[j] == rows[k] && keys[j] == rows[k].fileName
  }

  /** `keys` and `sorted` rearrange the rows: each position holds a row and each row has a position. */
  ghost predicate Rearranged(rows: seq<ParsedRow>, keys: seq<string>, sorted: seq<ParsedRow>) {
    && (forall j :: 0 <= j < |keys| ==> HoldsRow(rows, keys, sorted, j))
    && (forall k :: 0 <= k < |rows| ==> HasPlace(rows, keys, sorted, k))
  }

  ghost predicate HoldsRow(rows: seq<ParsedRow>, keys: seq<string>, sorted: seq<ParsedRow>, j: int) {
    exists k :: Placed(rows, keys, sorted, j, k)
  }

  ghost predicate HasPlace(rows: seq<ParsedRow>, keys: seq<string>, sorted: seq<ParsedRow>, k: int) {
    exists j :: Placed(rows, keys, sorted, j, k)
  }

  /** File-name order is a rearrangement of the rows. */
  lemma SortedRowsPlaced(rows: seq<ParsedRow>)
    requires Seqs.Distinct(FileNames(rows))
    ensures Rearranged(rows, SortedKeys(ByFile(rows).Keys), SortedRows(rows))
  {
    var keys, sorted := SortedKeys(ByFile(rows).Keys), SortedRows(rows);
    forall j | 0 <= j < |keys| ensures HoldsRow(rows, keys, sorted, j) {
      var k := SortedRowIsRow(rows, j);
      assert Placed(rows, keys, sorted, j, k);
    }
    forall k | 0 <= k < |rows| ensures HasPlace(rows, keys, sorted, k) {
      var j := RowIsSortedRow(rows, k);
      assert Placed(rows, keys, sorted, j, k);
    }
  }

  /** Images built in a rearranged order still match the rows one to one. */
  lemma ImagesMatchRows(rows: seq<ParsedRow>, keys: seq<string>, sorted: seq<ParsedRow>, images: seq<Image>)
    requires |sorted| == |keys| == |rows| && images == HfImagefolder.HfImages(keys, sorted)
    requires Rearranged(rows, keys, sorted)
    ensures forall k :: 0 <= k < |rows| ==> HasImage(images, rows[k])
    ensures forall j :: 0 <= j < |images| ==> HasRow(rows, images[j])
  {
    forall k | 0 <= k < |rows| ensures HasImage(images, rows[k]) {
      assert HasPlace(rows, keys, sorted, k);
      var j :| Placed(rows, keys, sorted, j, k);
      assert ImageFromRow(images[j], rows[k]);
    }
    forall j | 0 <= j < |images| ensures HasRow(rows, images[j]) {
      assert HoldsRow(rows, keys, sorted, j);
      var k :| Placed(rows, keys, sorted, j, k);
      assert ImageFromRow(images[j], rows[k]);
    }
  }

  /**
   * Images are numbered 1, 2, … in strictly increasing file-name order, one
   * per row, each with that row's name and size.
   */
  lemma HfImages(rows: seq<ParsedRow>, options: ReadOptions)
    requires HfDataset(rows, options).Ok?
    ensures |HfDataset(rows, options).value.images| == |rows|
    ensures StrictlySorted(ImageFileNames(HfDataset(rows, options).value.images))
    ensures forall k :: 0 <= k < |rows| ==> HfDataset(rows, options).value.images[k].id == k + 1
    ensures forall k :: 0 <= k < |rows| ==> HasImage(HfDataset(rows, options).value.images, rows[k])
    ensures forall j :: 0 <= j < |rows| ==> HasRow(rows, HfDataset(rows, options).value.images[j])
  {
    ImagesOfRows(rows, options);
    var images := HfDataset(rows, options).value.images;
    ByFileSize(rows);
    SortedRowsPlaced(rows);
    ImagesMatchRows(rows, SortedKeys(ByFile(rows).Keys), SortedRows(rows), images);
    assert ImageFileNames(images) == SortedKeys(ByFile(rows).Keys);
  }

  /** Some object of some row resolves to category name `n`. */
  predicate Referenced(rows: seq<ParsedRow>, n: string, categoryMap: map<int, string>) {
    exists i, j :: 0 <= i < |rows| && 0 <= j < |rows[i].anns| && CategoryNameOf(rows[i].anns[j].category, categoryMap) == n
  }

  /** A referenced name is the name of some object. */
  lemma {:induction false} ReferencedNameOf(rows: seq<ParsedRow>, n: string, categoryMap: map<int, string>)
    requires n in ReferencedNames(rows, categoryMap)
    ensures Referenced(rows, n, categoryMap)
    decreases |rows|
  {
    var pre, last := rows[..|rows| - 1], rows[|rows| - 1];
    if n in ReferencedNames(pre, categoryMap) {
      ReferencedNameOf(pre, n, categoryMap);
      var i, j :| 0 <= i < |pre| && 0 <= j < |pre[i].anns| && CategoryNameOf(pre[i].anns[j].category, categoryMap) == n;
      assert rows[i] == pre[i];
    } else {
      var j :| 0 <= j < |last.anns| && AnnNames(last.anns, categoryMap)[j] == n;
      assert rows[|rows| - 1].anns[j] == last.anns[j];
    }
  }

  /** The rows in file-name order are the same rows, so they reference the same names. */
  lemma SortedRowsReferenced(rows: seq<ParsedRow>, n: string, categoryMap: map<int, string>)
    requires Seqs.Distinct(FileNames(rows))
    ensures Referenced(SortedRows(rows), n, categoryMap) <==> Referenced(rows, n, categoryMap)
  {
    var sorted := SortedRows(rows);
    if Referenced(sorted, n, categoryMap) {
      var i, j :| 0 <= i < |sorted| && 0 <= j < |sorted[i].anns| && CategoryNameOf(sorted[i].anns[j].category, categoryMap) == n;
      var k := SortedRowIsRow(rows, i);
      assert 0 <= j < |rows[k].anns| && CategoryNameOf(rows[k].anns[j].category, categoryMap) == n;
    }
    if Referenced(rows, n, categoryMap) {
      var k, j :| 0 <= k < |rows| && 0 <= j < |rows[k].anns| && CategoryNameOf(rows[k].anns[j].category, categoryMap) == n;
      var i := RowIsSortedRow(rows, k);
      assert 0 <= j < |sorted[i].anns| && CategoryNameOf(sorted[i].anns[j].category, categoryMap) == n;
    }
  }

  /**
   * Categories are numbered 1, 2, … in strictly increasing name order, and
   * their names are exactly the names the objects resolve to: a label as
   * written, an ID through the category map, or else the ID in decimal.
   */
  lemma HfCategories(rows: seq<ParsedRow>, options: ReadOptions)
    requires HfDataset(rows, options).Ok?
    ensures StrictlySorted(CategoryNames(HfDataset(rows, options).value.categories))
    ensures forall k :: 0 <= k < |HfDataset(rows, options).value.categories| ==>
      HfDataset(rows, options).value.categories[k].id == k + 1
    ensures forall n :: n in CategoryNames(HfDataset(rows, options).value.categories) <==>
      Referenced(rows, n, options.categoryMap)
  {
    DuplicateRefused(rows);
    var names := CategoryNamesOf(SortedRows(rows), options.categoryMap);
    assert CategoryNames(HfDataset(rows, options).value.categories) == names;
    forall n ensures n in names <==> Referenced(rows, n, options.categoryMap) {
      NamesReferenced(rows, n, options.categoryMap);
    }
  }

  /** A name is collected exactly when some object resolves to it. */
  lemma NamesReferenced(rows: seq<ParsedRow>, n: string, categoryMap: map<int, string>)
    requires Seqs.Distinct(FileNames(rows))
    ensures n in CategoryNamesOf(SortedRows(rows), categoryMap) <==> Referenced(rows, n, categoryMap)
  {
    var sorted := SortedRows(rows);
    SortedRowsReferenced(rows, n, categoryMap);
    if n in ReferencedNames(sorted, categoryMap) {
      ReferencedNameOf(sorted, n, categoryMap);
    }
    if Referenced(sorted, n, categoryMap) {
      var i, j :| 0 <= i < |sorted| && 0 <= j < |sorted[i].anns|
                  && CategoryNameOf(sorted[i].anns[j].category, categoryMap) == n;
      NameReferenced(sorted, i, j, categoryMap);
    }
  }

  /** How many objects the rows from position `idx` on hold together. */
  function ObjectCount(rows: seq<ParsedRow>, idx: nat): nat
    requires idx <= |rows|
    decreases |rows| - idx
  {
    if idx == |rows| then 0 else |rows[idx].anns| + ObjectCount(rows, idx + 1)
  }

  /** The annotation pass numbers every object once, consecutively, with resolvable references. */
  lemma {:induction false} AnnotationsNumbered(rows: seq<ParsedRow>, idx: nat, names: seq<string>, options: ReadOptions,
                                               firstId: nat)
    requires idx <= |rows| && RowsKnown(rows, names, options.categoryMap)
    ensures |AnnotationsFrom(rows, idx, names, options, firstId)| == ObjectCount(rows, idx)
    ensures NumberedFrom(AnnotationsFrom(rows, idx, names, options, firstId), firstId, |rows|, |names|)
    decreases |rows| - idx
  {
    if idx < |rows| {
      var row := rows[idx];
      var head := RowAnnotations(row, idx + 1, names, options, firstId);
      var tail := AnnotationsFrom(rows, idx + 1, names, options, firstId + |row.anns|);
      AnnotationsNumbered(rows, idx + 1, names, options, firstId + |row.anns|);
      forall j | 0 <= j < |head| ensures 1 <= head[j].categoryId <= |names| {
        assert AnnsKnown(row.anns, names, options.categoryMap);
        assert CategoryNameOf(row.anns[j].category, options.categoryMap) in names;
      }
      NumberedAppend(head, tail, firstId, |rows|, |names|);
    }
  }

  /**
   * Annotation IDs run 1, 2, … in file-name order and then array order, one
   * per object, and every annotation's image and category exist.
   */
  lemma HfAnnotations(rows: seq<ParsedRow>, options: ReadOptions)
    requires HfDataset(rows, options).Ok?
    ensures var d := HfDataset(rows, options).value;
            |d.annotations| == ObjectCount(SortedRows(rows), 0)
    ensures var d := HfDataset(rows, options).value;
            forall k :: 0 <= k < |d.annotations| ==> d.annotations[k].id == k + 1
    ensures var d := HfDataset(rows, options).value;
            forall a :: a in d.annotations ==> a.imageId in ImageIds(d.images) && a.categoryId in CategoryIds(d.categories)
  {
    var d := HfDataset(rows, options).value;
    var sorted := SortedRows(rows);
    var names := CategoryNamesOf(sorted, options.categoryMap);
    RowsNamesKnown(sorted, options.categoryMap);
    assert d.annotations == AnnotationsFrom(sorted, 0, names, options, 1);
    assert |d.images| == |sorted| && d.categories == HfImagefolder.HfCategories(names);
    AnnotationsNumbered(sorted, 0, names, options, 1);
    NumberedResolve(d.images, d.categories, d.annotations);
  }

  /**
   * Each object becomes an annotation with its box read in the configured
   * format, on its row's image, in the category its name resolves to.
   */
  lemma RowAnnotationsRead(row: ParsedRow, imageId: nat, names: seq<string>, options: ReadOptions, firstId: nat)
    requires AnnsKnown(row.anns, names, options.categoryMap)
    ensures forall j :: 0 <= j < |row.anns| ==>
      var a := RowAnnotations(row, imageId, names, options, firstId)[j];
      && a.id == firstId + j && a.imageId == imageId
      && 1 <= a.categoryId <= |names| && names[a.categoryId - 1] == CategoryNameOf(row.anns[j].category, options.categoryMap)
      && a.bbox == BoxOf(row.anns[j].bbox, options.bboxFormat)
      && a.confidence.None? && a.attributes == map[]
  {
  }

  // ------------------------------------------------------------ boxes and provenance

  /**
   * Reading a box is undone by writing it in the same format: XYWH boxes
   * give back their corner and size, XYXY boxes their corners.
   */
  lemma BoxOfInverse(v: (real, real, real, real), f: BboxFormat)
    ensures f.Xywh? ==> ToXywh(BoxOf(v, f)) == v
    ensures f.Xyxy? ==> var b := BoxOf(v, f); (b.xmin, b.ymin, b.xmax, b.ymax) == v
    ensures BoxOf(v, f).finite
  {
    if f.Xywh? {
      XywhRoundTripFromParts(v.0, v.1, v.2, v.3);
    }
  }

  /**
   * The dataset's attributes are the provenance map with `hf_bbox_format`
   * added: the configured format's name when absent, the given value
   * otherwise, and every other entry unchanged.
   */
  lemma ProvenanceKept(options: ReadOptions)
    ensures "hf_bbox_format" in InfoAttributes(options)
    ensures "hf_bbox_format" in options.provenance ==>
      InfoAttributes(options)["hf_bbox_format"] == options.provenance["hf_bbox_format"]
    ensures "hf_bbox_format" !in options.provenance ==>
      InfoAttributes(options)["hf_bbox_format"] == FormatName(options.bboxFormat)
    ensures forall key :: key != "hf_bbox_format" ==>
      (key in InfoAttributes(options) <==> key in options.provenance)
    ensures forall key :: key != "hf_bbox_format" && key in options.provenance ==>
      InfoAttributes(options)[key] == options.provenance[key]
  {
  }
}
