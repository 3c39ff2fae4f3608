// The TFOD CSV adapter (src/ir/io_tfod_csv.rs), conversion half. A row is one
// box of one image with coordinates normalized to the image size; the CSV
// syntax itself (the `csv` crate) is left abstract, so the reader starts from
// parsed rows and the writer ends with rows.
module TfodCsv {
  import opened Wrappers
  import opened BBoxes
  import opened Ir
  import opened StrOrder
  import opened Sorting

  /** One CSV record: `filename,width,height,class,xmin,ymin,xmax,ymax`. */
  datatype TfodRow = TfodRow(
    filename: string,
    width: nat,
    height: nat,
    className: string,
    xmin: real,
    ymin: real,
    xmax: real,
    ymax: real)

  /** The `TfodCsvInvalid` errors, by cause. */
  datatype TfodError =
    | InconsistentDimensions(filename: string)
    | MissingImage(annotationId: nat, imageId: nat)
    | MissingCategory(annotationId: nat, categoryId: nat)

  // ---- reading: rows -> IR ----------------------------------------------

  /** All rows naming the same file agree on its width and height. */
  predicate DimsConsistent(rows: seq<TfodRow>) {
    forall i, j :: 0 <= i < j < |rows| && rows[i].filename == rows[j].filename ==>
      rows[i].width == rows[j].width && rows[i].height == rows[j].height
  }

  /** The `image_dims` map: each filename with the dimensions of its first row. */
  function FirstDims(rows: seq<TfodRow>): map<string, (nat, nat)> {
    if |rows| == 0 then map[]
    else
      var m := FirstDims(rows[..|rows| - 1]);
      var row := rows[|rows| - 1];
      if row.filename in m then m else m[row.filename := (row.width, row.height)]
  }

  /** The keys of `FirstDims` are exactly the filenames of the rows. */
  lemma {:induction false} FirstDimsKeys(rows: seq<TfodRow>, f: string)
    ensures f in FirstDims(rows) <==> exists k :: 0 <= k < |rows| && rows[k].filename == f
  {
    if |rows| > 0 {
      var init := rows[..|rows| - 1];
      FirstDimsKeys(init, f);
      assert forall k :: 0 <= k < |init| ==> init[k] == rows[k];
    }
  }

  /** With consistent rows, the map holds every row's own dimensions. */
  lemma {:induction false} FirstDimsValue(rows: seq<TfodRow>, k: nat)
    requires DimsConsistent(rows) && k < |rows|
    ensures rows[k].filename in FirstDims(rows)
    ensures FirstDims(rows)[rows[k].filename] == (rows[k].width, rows[k].height)
  {
    var init := rows[..|rows| - 1];
    assert forall j :: 0 <= j < |init| ==> init[j] == rows[j];
    assert DimsConsistent(init);
    if k < |rows| - 1 {
      FirstDimsValue(init, k);
    } else {
      var f := rows[k].filename;
      if f in FirstDims(init) {
        FirstDimsKeys(init, f);
        var j :| 0 <= j < |init| && init[j].filename == f;
        FirstDimsValue(init, j);
      }
    }
  }

  /** Consistency of a prefix extended by one row. */
  lemma ConsistentSnoc(rows: seq<TfodRow>, i: nat)
    requires i < |rows|
    ensures DimsConsistent(rows[..i + 1]) <==>
      DimsConsistent(rows[..i])
      && forall k :: 0 <= k < i && rows[k].filename == rows[i].filename ==>
           rows[k].width == rows[i].width && rows[k].height == rows[i].height
  {
    var p, q := rows[..i], rows[..i + 1];
    assert forall k :: 0 <= k < i ==> p[k] == rows[k] && q[k] == rows[k];
    assert q[i] == rows[i];
  }

  /**
   * The loop over the rows that fills `image_dims`: the first row of each
   * filename fixes its dimensions, and a later row of the same filename
   * with other dimensions is an error.
   */
  method CollectImageDims(rows: seq<TfodRow>) returns (r: Result<map<string, (nat, nat)>, TfodError>)
    ensures r.Ok? <==> DimsConsistent(rows)
    ensures r.Ok? ==> r.value == FirstDims(rows)
    ensures r.Err? ==> exists k :: 0 <= k < |rows| && r.error == InconsistentDimensions(rows[k].filename)
  {
    var dims: map<string, (nat, nat)> := map[];
    for i := 0 to |rows|
      invariant dims == FirstDims(rows[..i])
      invariant DimsConsistent(rows[..i])
    {
      var row := rows[i];
      ConsistentSnoc(rows, i);
      assert rows[..i + 1][..i] == rows[..i];
      if row.filename in dims {
        FirstDimsKeys(rows[..i], row.filename);
        var j :| 0 <= j < i && rows[..i][j].filename == row.filename;
        FirstDimsValue(rows[..i], j);
        if dims[row.filename].0 != row.width || dims[row.filename].1 != row.height {
          assert rows[j].filename == row.filename;
          assert !DimsConsistent(rows[..i + 1]);
          assert forall a, b :: 0 <= a < b < i + 1 ==> rows[..i + 1][a] == rows[a] && rows[..i + 1][b] == rows[b];
          return Err(InconsistentDimensions(row.filename));
        }
        forall k | 0 <= k < i && rows[k].filename == row.filename
          ensures rows[k].width == row.width && rows[k].height == row.height
        {
          FirstDimsValue(rows[..i], k);
        }
      } else {
        forall k | 0 <= k < i ensures rows[k].filename != row.filename {
          FirstDimsKeys(rows[..i], row.filename);
          assert rows[..i][k] == rows[k];
        }
        dims := dims[row.filename := (row.width, row.height)];
      }
    }
    assert rows[..|rows|] == rows;
    return Ok(dims);
  }

  function Filenames(rows: seq<TfodRow>): (names: seq<string>)
    ensures |names| == |rows| && forall k :: 0 <= k < |rows| ==> names[k] == rows[k].filename
  {
    seq(|rows|, k requires 0 <= k < |rows| => rows[k].filename)
  }

  function ClassNames(rows: seq<TfodRow>): (names: seq<string>)
    ensures |names| == |rows| && forall k :: 0 <= k < |rows| ==> names[k] == rows[k].className
  {
    seq(|rows|, k requires 0 <= k < |rows| => rows[k].className)
  }

  /** Image `k` (0-based) of the sorted filenames, with ID `k + 1`. */
  function ImagesOf(names: seq<string>, dims: map<string, (nat, nat)>): seq<Image>
    requires forall k :: 0 <= k < |names| ==> names[k] in dims
  {
    seq(|names|, k requires 0 <= k < |names| => NewImage(k + 1, names[k], dims[names[k]].0, dims[names[k]].1))
  }

  function CategoriesOf(names: seq<string>): seq<Category> {
    seq(|names|, k requires 0 <= k < |names| => NewCategory(k + 1, names[k]))
  }

  /** The pixel box of a row: its normalized corners scaled by the row's own dimensions. */
  function RowBox(row: TfodRow): BBox {
    ToPixel(FromXyxy(row.xmin, row.ymin, row.xmax, row.ymax), row.width as real, row.height as real)
  }

  /** Row `index` (0-based) becomes annotation `index + 1` on its file's image and its class's category. */
  function RowAnnotation(row: TfodRow, index: nat, fileNames: seq<string>, classNames: seq<string>): Annotation
    requires row.filename in fileNames && row.className in classNames
  {
    NewAnnotation(index + 1, IndexOf(fileNames, row.filename) + 1, IndexOf(classNames, row.className) + 1, RowBox(row))
  }

  /** Every row's names are among the sorted names. */
  lemma RowNamesListed(rows: seq<TfodRow>)
    ensures forall k :: 0 <= k < |rows| ==> rows[k].filename in SortDedup(Filenames(rows))
    ensures forall k :: 0 <= k < |rows| ==> rows[k].className in SortDedup(ClassNames(rows))
  {
    forall k | 0 <= k < |rows|
      ensures rows[k].filename in SortDedup(Filenames(rows)) && rows[k].className in SortDedup(ClassNames(rows))
    {
      assert Filenames(rows)[k] == rows[k].filename;
      assert ClassNames(rows)[k] == rows[k].className;
    }
  }

  /** Every sorted filename has dimensions. */
  lemma NamesHaveDims(rows: seq<TfodRow>, dims: map<string, (nat, nat)>)
    requires forall k :: 0 <= k < |rows| ==> rows[k].filename in dims
    ensures forall k :: 0 <= k < |SortDedup(Filenames(rows))| ==> SortDedup(Filenames(rows))[k] in dims
  {
    var names := Filenames(rows);
    var fileNames := SortDedup(names);
    forall k | 0 <= k < |fileNames| ensures fileNames[k] in dims {
      assert fileNames[k] in names;
      var j :| 0 <= j < |names| && names[j] == fileNames[k];
    }
  }

  /** The dataset built from the rows once `image_dims` is known. */
  function Assemble(rows: seq<TfodRow>, dims: map<string, (nat, nat)>): Dataset
    requires forall k :: 0 <= k < |rows| ==> rows[k].filename in dims
  {
    var fileNames := SortDedup(Filenames(rows));
    var classNames := SortDedup(ClassNames(rows));
    RowNamesListed(rows);
    NamesHaveDims(rows, dims);
    Dataset(
      DefaultInfo(), [],
      ImagesOf(fileNames, dims),
      CategoriesOf(classNames),
      seq(|rows|, k requires 0 <= k < |rows| => RowAnnotation(rows[k], k, fileNames, classNames)))
  }

  /** What `tfod_to_ir` returns for rows with consistent dimensions. */
  function ReadDataset(rows: seq<TfodRow>): Dataset {
    forall k | 0 <= k < |rows| ensures rows[k].filename in FirstDims(rows) {
      FirstDimsKeys(rows, rows[k].filename);
    }
    Assemble(rows, FirstDims(rows))
  }

  /** `tfod_to_ir`: fails exactly on inconsistent dimensions, else builds the dataset. */
  method TfodToIr(rows: seq<TfodRow>) returns (r: Result<Dataset, TfodError>)
    ensures r.Ok? <==> DimsConsistent(rows)
    ensures r.Ok? ==> r.value == ReadDataset(rows)
    ensures r.Err? ==> r.error.InconsistentDimensions?
  {
    var dims := CollectImageDims(rows);
    if dims.Err? {
      return Err(dims.error);
    }
    forall k | 0 <= k < |rows| ensures rows[k].filename in dims.value {
      FirstDimsKeys(rows, rows[k].filename);
    }
    return Ok(Assemble(rows, dims.value));
  }

  /** The image list is built from the sorted, deduplicated filenames (the keys of `image_dims`). */
  lemma ReadImageList(rows: seq<TfodRow>)
    ensures ImageFileNames(ReadDataset(rows).images) == SortDedup(Filenames(rows))
    ensures forall k :: 0 <= k < |ReadDataset(rows).images| ==> ReadDataset(rows).images[k].id == k + 1
  {
  }

  /**
   * Images: one per distinct filename, in ascending name order with IDs
   * 1..n, each carrying the dimensions its rows agree on.
   */
  lemma ReadImages(rows: seq<TfodRow>)
    requires DimsConsistent(rows)
    ensures forall k :: 0 <= k < |ReadDataset(rows).images| ==> ReadDataset(rows).images[k].id == k + 1
    ensures StrictlySorted(ImageFileNames(ReadDataset(rows).images))
    ensures forall f :: f in ImageFileNames(ReadDataset(rows).images) <==> f in Filenames(rows)
    ensures forall i, k :: 0 <= i < |ReadDataset(rows).images| && 0 <= k < |rows|
                           && ReadDataset(rows).images[i].fileName == rows[k].filename ==>
                           ReadDataset(rows).images[i].width == rows[k].width
                           && ReadDataset(rows).images[i].height == rows[k].height
  {
    ReadImageList(rows);
    var images := ReadDataset(rows).images;
    var names := SortDedup(Filenames(rows));
    forall i, k | 0 <= i < |images| && 0 <= k < |rows| && images[i].fileName == rows[k].filename
      ensures images[i].width == rows[k].width && images[i].height == rows[k].height
    {
      FirstDimsValue(rows, k);
      assert names[i] == rows[k].filename;
    }
  }

  /** Categories: one per distinct class name, in ascending name order with IDs 1..k. */
  lemma ReadCategories(rows: seq<TfodRow>)
    ensures forall k :: 0 <= k < |ReadDataset(rows).categories| ==> ReadDataset(rows).categories[k].id == k + 1
    ensures CategoryNames(ReadDataset(rows).categories) == SortDedup(ClassNames(rows))
    ensures StrictlySorted(CategoryNames(ReadDataset(rows).categories))
    ensures forall c :: c in CategoryNames(ReadDataset(rows).categories) <==> c in ClassNames(rows)
  {
  }

  /** Annotation `a` of `d` lies on the row's image and category and has the row's pixel box. */
  predicate ReadsRow(d: Dataset, a: Annotation, row: TfodRow) {
    && 1 <= a.imageId <= |d.images| && d.images[a.imageId - 1].fileName == row.filename
    && 1 <= a.categoryId <= |d.categories| && d.categories[a.categoryId - 1].name == row.className
    && a.bbox == RowBox(row)
  }

  /**
   * Annotations: row `k` becomes annotation `k + 1`, on the image with the
   * row's filename and the category with the row's class name, with the
   * row's corners scaled back to pixels.
   */
  lemma ReadAnnotations(rows: seq<TfodRow>)
    ensures |ReadDataset(rows).annotations| == |rows|
    ensures forall k :: 0 <= k < |rows| ==> ReadDataset(rows).annotations[k].id == k + 1
    ensures forall k :: 0 <= k < |rows| ==> ReadsRow(ReadDataset(rows), ReadDataset(rows).annotations[k], rows[k])
  {
    forall k | 0 <= k < |rows| ensures ReadsRow(ReadDataset(rows), ReadDataset(rows).annotations[k], rows[k]) {
      ReadRow(rows, k);
    }
  }

  lemma ReadRow(rows: seq<TfodRow>, k: nat)
    requires k < |rows|
    ensures ReadsRow(ReadDataset(rows), ReadDataset(rows).annotations[k], rows[k])
  {
    ReadRowImage(rows, k);
    ReadRowCategory(rows, k);
  }

  lemma ReadRowImage(rows: seq<TfodRow>, k: nat)
    requires k < |rows|
    ensures 1 <= ReadDataset(rows).annotations[k].imageId <= |ReadDataset(rows).images|
    ensures ReadDataset(rows).images[ReadDataset(rows).annotations[k].imageId - 1].fileName == rows[k].filename
  {
    var fileNames := SortDedup(Filenames(rows));
    RowNamesListed(rows);
    var i := IndexOf(fileNames, rows[k].filename);
    assert ReadDataset(rows).annotations[k].imageId == i + 1;
    ReadImageList(rows);
    assert ImageFileNames(ReadDataset(rows).images)[i] == fileNames[i];
  }

  lemma ReadRowCategory(rows: seq<TfodRow>, k: nat)
    requires k < |rows|
    ensures 1 <= ReadDataset(rows).annotations[k].categoryId <= |ReadDataset(rows).categories|
    ensures ReadDataset(rows).categories[ReadDataset(rows).annotations[k].categoryId - 1].name == rows[k].className
  {
    var classNames := SortDedup(ClassNames(rows));
    RowNamesListed(rows);
    var c := IndexOf(classNames, rows[k].className);
    assert ReadDataset(rows).annotations[k].categoryId == c + 1;
    ReadCategories(rows);
    assert CategoryNames(ReadDataset(rows).categories)[c] == classNames[c];
  }

  // ---- writing: IR -> rows ----------------------------------------------

  /** Why an annotation cannot be written: its image is looked up first, then its category. */
  function MissingRef(a: Annotation, d: Dataset): (e: Option<TfodError>)
    ensures e.None? <==> HasImage(d, a.imageId) && HasCategory(d, a.categoryId)
  {
    if !HasImage(d, a.imageId) then Some(MissingImage(a.id, a.imageId))
    else if !HasCategory(d, a.categoryId) then Some(MissingCategory(a.id, a.categoryId))
    else None
  }

  predicate RefsResolve(d: Dataset) {
    forall k :: 0 <= k < |d.annotations| ==> MissingRef(d.annotations[k], d).None?
  }

  /** The row for an annotation: its image's name and size, its category's name, the box normalized. */
  function ToRow(a: Annotation, img: Image, cat: Category): TfodRow {
    var n := ToNormalized(a.bbox, img.width as real, img.height as real);
    TfodRow(img.fileName, img.width, img.height, cat.name, n.xmin, n.ymin, n.xmax, n.ymax)
  }

  /** The `(annotation ID, row)` pair pushed for an annotation, through the last-wins lookups. */
  function RowPair(a: Annotation, d: Dataset): (nat, TfodRow)
    requires MissingRef(a, d).None?
  {
    (a.id, ToRow(a, LookupImage(d.images, a.imageId).value, LookupCategory(d.categories, a.categoryId).value))
  }

  function RowPairs(d: Dataset): (pairs: seq<(nat, TfodRow)>)
    requires RefsResolve(d)
    ensures |pairs| == |d.annotations|
  {
    seq(|d.annotations|, k requires 0 <= k < |d.annotations| => RowPair(d.annotations[k], d))
  }

  /** The `sort_by_key` comparator: by annotation ID. */
  predicate IdLe(p: (nat, TfodRow), q: (nat, TfodRow)) {
    p.0 <= q.0
  }

  function Rows(pairs: seq<(nat, TfodRow)>): (rows: seq<TfodRow>)
    ensures |rows| == |pairs| && forall k :: 0 <= k < |pairs| ==> rows[k] == pairs[k].1
  {
    seq(|pairs|, k requires 0 <= k < |pairs| => pairs[k].1)
  }

  /** The pairs in output order: stably sorted by annotation ID. */
  function SortedPairs(d: Dataset): seq<(nat, TfodRow)>
    requires RefsResolve(d)
  {
    SortBy(RowPairs(d), IdLe)
  }

  /**
   * `ir_to_tfod`: one row per annotation, pushed in list order and then
   * sorted by annotation ID. The first annotation whose image or category
   * is missing stops the conversion with that error.
   */
  method IrToTfod(d: Dataset) returns (r: Result<seq<TfodRow>, TfodError>)
    ensures r.Ok? <==> RefsResolve(d)
    ensures r.Ok? ==> r.value == Rows(SortedPairs(d))
    ensures r.Err? ==> exists i :: 0 <= i < |d.annotations| && MissingRef(d.annotations[i], d) == Some(r.error)
                        && forall j :: 0 <= j < i ==> MissingRef(d.annotations[j], d).None?
  {
    var pairs: seq<(nat, TfodRow)> := [];
    for i := 0 to |d.annotations|
      invariant |pairs| == i
      invariant forall k :: 0 <= k < i ==> MissingRef(d.annotations[k], d).None?
      invariant forall k :: 0 <= k < i ==> pairs[k] == RowPair(d.annotations[k], d)
    {
      var a := d.annotations[i];
      var image := LookupImage(d.images, a.imageId);
      if image.None? {
        return Err(MissingImage(a.id, a.imageId));
      }
      var category := LookupCategory(d.categories, a.categoryId);
      if category.None? {
        return Err(MissingCategory(a.id, a.categoryId));
      }
      pairs := pairs + [(a.id, ToRow(a, image.value, category.value))];
    }
    assert pairs == RowPairs(d);
    return Ok(Rows(SortBy(pairs, IdLe)));
  }

  /** The written rows are exactly the annotations' rows, each once, in ascending ID order. */
  lemma WrittenRowsOrder(d: Dataset)
    requires RefsResolve(d)
    ensures |Rows(SortedPairs(d))| == |d.annotations|
    ensures multiset(SortedPairs(d)) == multiset(RowPairs(d))
    ensures forall i, j :: 0 <= i < j < |SortedPairs(d)| ==> SortedPairs(d)[i].0 <= SortedPairs(d)[j].0
  {
    assert TotalPreorder(IdLe);
    SortBySorted(RowPairs(d), IdLe);
  }

  /** The file name of each annotation's image, in annotation order. */
  function UsedFileNames(d: Dataset): (names: seq<string>)
    requires RefsResolve(d)
    ensures |names| == |d.annotations|
    ensures forall k :: 0 <= k < |d.annotations| ==> names[k] == LookupImage(d.images, d.annotations[k].imageId).value.fileName
  {
    seq(|d.annotations|, k requires 0 <= k < |d.annotations| => LookupImage(d.images, d.annotations[k].imageId).value.fileName)
  }

  /** Writing divides by the image size and reading multiplies back: the pixel box is restored. */
  lemma RowBoxRoundTrip(a: Annotation, img: Image, cat: Category)
    requires a.bbox.finite && img.width > 0 && img.height > 0
    ensures RowBox(ToRow(a, img, cat)) == a.bbox
  {
    PixelRoundTrip(a.bbox, img.width as real, img.height as real);
  }

  /** Writing the dataset and reading the rows back. */
  function WriteRead(d: Dataset): Dataset
    requires RefsResolve(d)
  {
    ReadDataset(Rows(SortedPairs(d)))
  }

  /**
   * Reading back what was written: when the annotations are listed in ID
   * order, annotation `k` comes back as ID `k + 1`, with its own box
   * (finite, on an image of nonzero size), its image's file name and its
   * category's name.
   */
  lemma WriteReadAnnotations(d: Dataset)
    requires RefsResolve(d)
    requires forall i, j :: 0 <= i < j < |d.annotations| ==> d.annotations[i].id <= d.annotations[j].id
    requires forall k :: 0 <= k < |d.annotations| ==> d.annotations[k].bbox.finite
    requires forall k :: 0 <= k < |d.images| ==> d.images[k].width > 0 && d.images[k].height > 0
    ensures |WriteRead(d).annotations| == |d.annotations|
    ensures forall k :: 0 <= k < |d.annotations| ==>
              && WriteRead(d).annotations[k].id == k + 1
              && WriteRead(d).annotations[k].bbox == d.annotations[k].bbox
              && ReadsRow(WriteRead(d), WriteRead(d).annotations[k], RowPair(d.annotations[k], d).1)
  {
    SortedInputRows(d);
    ReadAnnotations(Rows(RowPairs(d)));
    forall k | 0 <= k < |d.annotations|
      ensures && WriteRead(d).annotations[k].id == k + 1
              && WriteRead(d).annotations[k].bbox == d.annotations[k].bbox
              && ReadsRow(WriteRead(d), WriteRead(d).annotations[k], RowPair(d.annotations[k], d).1)
    {
      WriteReadAt(d, k);
    }
  }

  /** Annotations already in ID order are written in that order. */
  lemma SortedInputRows(d: Dataset)
    requires RefsResolve(d)
    requires forall i, j :: 0 <= i < j < |d.annotations| ==> d.annotations[i].id <= d.annotations[j].id
    ensures SortedPairs(d) == RowPairs(d)
  {
    assert SortedBy(RowPairs(d), IdLe);
    SortBySortedInput(RowPairs(d), IdLe);
  }

  lemma WriteReadAt(d: Dataset, k: nat)
    requires RefsResolve(d)
    requires forall i, j :: 0 <= i < j < |d.annotations| ==> d.annotations[i].id <= d.annotations[j].id
    requires k < |d.annotations| && d.annotations[k].bbox.finite
    requires forall k :: 0 <= k < |d.images| ==> d.images[k].width > 0 && d.images[k].height > 0
    ensures k < |WriteRead(d).annotations|
    ensures WriteRead(d).annotations[k].id == k + 1
    ensures WriteRead(d).annotations[k].bbox == d.annotations[k].bbox
    ensures ReadsRow(WriteRead(d), WriteRead(d).annotations[k], RowPair(d.annotations[k], d).1)
  {
    var rows := Rows(RowPairs(d));
    assert WriteRead(d) == ReadDataset(rows) by {
      SortedInputRows(d);
    }
    assert |ReadDataset(rows).annotations| == |rows| && ReadDataset(rows).annotations[k].id == k + 1 by {
      ReadAnnotations(rows);
    }
    ReadRow(rows, k);
    assert rows[k] == RowPair(d.annotations[k], d).1;
    RowPairBox(d, k);
  }

  /** The row written for a finite box on an image of nonzero size reads back as that box. */
  lemma RowPairBox(d: Dataset, k: nat)
    requires RefsResolve(d)
    requires k < |d.annotations| && d.annotations[k].bbox.finite
    requires forall k :: 0 <= k < |d.images| ==> d.images[k].width > 0 && d.images[k].height > 0
    ensures RowBox(RowPair(d.annotations[k], d).1) == d.annotations[k].bbox
  {
    var a := d.annotations[k];
    assert MissingRef(a, d).None?;
    var img := LookupImage(d.images, a.imageId).value;
    var cat := LookupCategory(d.categories, a.categoryId).value;
    var j :| 0 <= j < |d.images| && d.images[j] == img;
    RowBoxRoundTrip(a, img, cat);
  }

  /**
   * After a write-then-read round trip that succeeds, the image names are
   * exactly the file names of the images some annotation uses: images
   * without annotations are dropped.
   */
  lemma WriteReadImageNames(d: Dataset)
    requires RefsResolve(d)
    requires DimsConsistent(Rows(SortedPairs(d)))
    ensures forall f :: f in ImageFileNames(WriteRead(d).images) <==> f in UsedFileNames(d)
  {
    ReadImages(Rows(SortedPairs(d)));
    forall f ensures f in Filenames(Rows(SortedPairs(d))) <==> f in UsedFileNames(d) {
      if f in Filenames(Rows(SortedPairs(d))) {
        WrittenNameUsed(d, f);
      }
      if f in UsedFileNames(d) {
        UsedNameWritten(d, f);
      }
    }
  }

  lemma WrittenNameUsed(d: Dataset, f: string)
    requires RefsResolve(d)
    requires f in Filenames(Rows(SortedPairs(d)))
    ensures f in UsedFileNames(d)
  {
    var sorted, pairs := SortedPairs(d), RowPairs(d);
    var k :| 0 <= k < |sorted| && Filenames(Rows(sorted))[k] == f;
    assert sorted[k] in multiset(pairs);
    var j :| 0 <= j < |pairs| && pairs[j] == sorted[k];
    assert UsedFileNames(d)[j] == f;
  }

  lemma UsedNameWritten(d: Dataset, f: string)
    requires RefsResolve(d)
    requires f in UsedFileNames(d)
    ensures f in Filenames(Rows(SortedPairs(d)))
  {
    var sorted, pairs := SortedPairs(d), RowPairs(d);
    var j :| 0 <= j < |d.annotations| && UsedFileNames(d)[j] == f;
    assert pairs[j] in multiset(sorted);
    var k :| 0 <= k < |sorted| && sorted[k] == pairs[j];
    assert Filenames(Rows(sorted))[k] == f;
  }
}
