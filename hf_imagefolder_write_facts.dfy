// What the HF ImageFolder writer promises: it fails exactly on a dangling
// reference; otherwise it writes one row per image in file-name order,
// with parallel box and category arrays holding the image's annotations in
// ascending ID order. Reading such a row back gives the same file, size,
// boxes and category names.
module HfImagefolderWriteFacts {
  import opened Wrappers
  import opened BBoxes
  import opened Ir
  import opened Grouping
  import opened JsonValue
  import opened Numbers
  import Seqs
  import Hf = HfImagefolder
  import opened HfImagefolderWrite

  // ------------------------------------------------------------ one image

  /** Every annotation of the group has a named category. */
  predicate Named(group: seq<Annotation>, names: map<nat, string>) {
    forall j :: 0 <= j < |group| ==> group[j].categoryId in names
  }

  /** Object `j` of the lists is annotation `j`'s box and category name. */
  predicate ObjectsMatch(group: seq<Annotation>, names: map<nat, string>, f: Hf.BboxFormat,
                         objects: (seq<Written>, seq<string>))
    requires Named(group, names)
  {
    && |objects.0| == |group| && |objects.1| == |group|
    && forall j :: 0 <= j < |group| ==>
         objects.0[j] == WrittenBox(group[j].bbox, f) && objects.1[j] == names[group[j].categoryId]
  }

  /**
   * The object lists are built exactly when every category is named, and
   * then hold each annotation's box and name at its own position.
   */
  lemma {:induction false} ObjectsContents(group: seq<Annotation>, names: map<nat, string>, f: Hf.BboxFormat)
    ensures ObjectsOf(group, names, f).Ok? <==> Named(group, names)
    ensures ObjectsOf(group, names, f).Ok? ==> ObjectsMatch(group, names, f, ObjectsOf(group, names, f).value)
  {
    if |group| > 0 {
      var pre := group[..|group| - 1];
      ObjectsContents(pre, names, f);
      assert forall j :: 0 <= j < |pre| ==> pre[j] == group[j];
    }
  }

  /** Taking out another image's group leaves a row as it was. */
  lemma RowForTaken(image: Image, byImage: map<nat, seq<Annotation>>, other: nat, names: map<nat, string>,
                    f: Hf.BboxFormat)
    requires other != image.id
    ensures RowFor(image, Taken(byImage, other), names, f) == RowFor(image, byImage, names, f)
  {
    assert GroupOf(image, Taken(byImage, other)) == GroupOf(image, byImage);
  }

  /** With every grouped category named, an image's row is written with its name, size and group. */
  lemma RowForKnown(image: Image, byImage: map<nat, seq<Annotation>>, names: map<nat, string>, f: Hf.BboxFormat)
    requires KnownGroups(byImage, names)
    ensures Named(GroupOf(image, byImage), names)
    ensures RowFor(image, byImage, names, f).Ok?
    ensures var row := RowFor(image, byImage, names, f).value;
            && row.fileName == image.fileName && row.width == image.width && row.height == image.height
            && ObjectsMatch(GroupOf(image, byImage), names, f, (row.bboxes, row.categories))
  {
    GroupOfKnown(image, byImage, names);
    ObjectsContents(GroupOf(image, byImage), names, f);
  }

  /** Row `k` carries the name and size of image `k`. */
  predicate SameImage(rows: seq<RowOut>, images: seq<Image>, k: int) {
    0 <= k < |rows| && k < |images|
    && rows[k].fileName == images[k].fileName && rows[k].width == images[k].width && rows[k].height == images[k].height
  }

  /** With every grouped category named, the row loop succeeds, one row per image with its name and size. */
  lemma {:induction false} RowsFromKnown(images: seq<Image>, byImage: map<nat, seq<Annotation>>, names: map<nat, string>,
                                         f: Hf.BboxFormat)
    requires KnownGroups(byImage, names)
    ensures RowsFrom(images, byImage, names, f).Ok?
    ensures forall k :: 0 <= k < |images| ==> SameImage(RowsFrom(images, byImage, names, f).value, images, k)
    decreases |images|
  {
    if |images| > 0 {
      var rest, taken := images[1..], Taken(byImage, images[0].id);
      var first := RowFor(images[0], byImage, names, f);
      assert first.Ok? && SameImage([first.value], images, 0) by {
        RowForKnown(images[0], byImage, names, f);
      }
      TakenKnown(byImage, images[0].id, names);
      RowsFromKnown(rest, taken, names, f);
      var rows := RowsFrom(images, byImage, names, f).value;
      var tail := RowsFrom(rest, taken, names, f).value;
      assert rows == [first.value] + tail;
      assert SameImage(rows, images, 0);
      forall k | 0 < k < |images| ensures SameImage(rows, images, k) {
        assert SameImage(tail, rest, k - 1);
        assert rows[k] == tail[k - 1] && images[k] == rest[k - 1];
      }
    }
  }

  /** With distinct image IDs, each row is built from its image's group as first grouped. */
  lemma {:induction false} RowsFromEach(images: seq<Image>, byImage: map<nat, seq<Annotation>>, names: map<nat, string>,
                                        f: Hf.BboxFormat)
    requires Seqs.Distinct(ImageIds(images)) && RowsFrom(images, byImage, names, f).Ok?
    ensures forall k :: 0 <= k < |images| ==>
      RowFor(images[k], byImage, names, f).Ok? &&
      RowsFrom(images, byImage, names, f).value[k] == RowFor(images[k], byImage, names, f).value
    decreases |images|
  {
    if |images| > 0 {
      var rest, taken := images[1..], Taken(byImage, images[0].id);
      assert forall k :: 0 <= k < |rest| ==> ImageIds(rest)[k] == ImageIds(images)[k + 1];
      RowsFromEach(rest, taken, names, f);
      var tail := RowsFrom(rest, taken, names, f).value;
      assert RowsFrom(images, byImage, names, f).value == [RowFor(images[0], byImage, names, f).value] + tail;
      forall k | 0 < k < |images|
        ensures RowFor(images[k], byImage, names, f) == RowFor(rest[k - 1], taken, names, f)
      {
        assert ImageIds(images)[0] != ImageIds(images)[k];
        assert images[k] == rest[k - 1];
        RowForTaken(images[k], byImage, images[0].id, names, f);
      }
    }
  }

  // ------------------------------------------------------------ the whole output

  /** After a clean reference check every grouped annotation's category has a name. */
  lemma CheckedGroupsKnown(d: Dataset)
    requires FirstRefError(d.annotations, ImageIds(d.images), CategoryNameById(d.categories).Keys).None?
    ensures KnownGroups(Group(d.annotations), CategoryNameById(d.categories))
  {
    var names := CategoryNameById(d.categories);
    FirstRefErrorSound(d.annotations, ImageIds(d.images), names.Keys);
    assert forall k :: 0 <= k < |d.annotations| ==> RefError(d.annotations[k], ImageIds(d.images), names.Keys).None?;
    GroupKnown(d.annotations, names);
  }

  /**
   * The writer fails exactly when some annotation references a missing
   * image or category, with the error of the first such annotation;
   * otherwise row `k` carries the name and size of the `k`-th image in
   * file-name order.
   */
  lemma HfOutputRows(d: Dataset, f: Hf.BboxFormat)
    ensures HfOutput(d, f).Err? <==>
      FirstRefError(d.annotations, ImageIds(d.images), CategoryNameById(d.categories).Keys).Some?
    ensures HfOutput(d, f).Err? ==>
      HfOutput(d, f).error == FirstRefError(d.annotations, ImageIds(d.images), CategoryNameById(d.categories).Keys).value
    ensures HfOutput(d, f).Ok? ==>
      && |HfOutput(d, f).value| == |d.images|
      && forall k :: 0 <= k < |d.images| ==> SameImage(HfOutput(d, f).value, SortedImages(d), k)
  {
    if FirstRefError(d.annotations, ImageIds(d.images), CategoryNameById(d.categories).Keys).None? {
      CheckedGroupsKnown(d);
      RowsFromKnown(SortedImages(d), Group(d.annotations), CategoryNameById(d.categories), f);
      SortedImageNames(d);
    }
  }

  /**
   * With distinct image IDs, the row of the `k`-th image in file-name order
   * holds exactly that image's annotations in ascending ID order: box `j`
   * and category `j` are annotation `j`'s box in the target format and its
   * category's name.
   */
  lemma HfOutputObjects(d: Dataset, f: Hf.BboxFormat, k: nat)
    requires HfOutput(d, f).Ok? && Seqs.Distinct(ImageIds(d.images)) && k < |d.images|
    ensures HfOutputRowsLength(d, f)
    ensures Named(ImageAnnotations(d, SortedImages(d)[k]), CategoryNameById(d.categories))
    ensures ObjectsMatch(ImageAnnotations(d, SortedImages(d)[k]), CategoryNameById(d.categories), f,
                         (HfOutput(d, f).value[k].bboxes, HfOutput(d, f).value[k].categories))
  {
    var names := CategoryNameById(d.categories);
    var sorted := SortedImages(d);
    HfOutputRows(d, f);
    CheckedGroupsKnown(d);
    SortedImageIdsDistinct(d);
    SortedImageNames(d);
    RowsFromEach(sorted, Group(d.annotations), names, f);
    RowForKnown(sorted[k], Group(d.annotations), names, f);
    GroupOfGrouped(d, sorted[k]);
  }

  predicate HfOutputRowsLength(d: Dataset, f: Hf.BboxFormat) {
    HfOutput(d, f).Ok? && |HfOutput(d, f).value| == |d.images|
  }

  // ------------------------------------------------------------ reading a written row back

  /** The objects a reader gets back from the written lists: each box's numbers, each name as a label. */
  function ReadBack(bboxes: seq<Written>, categories: seq<string>): (anns: seq<Hf.ParsedAnn>)
    requires |bboxes| == |categories| && forall j :: 0 <= j < |bboxes| ==> bboxes[j].Some?
    ensures |anns| == |bboxes|
    ensures forall j :: 0 <= j < |bboxes| ==> anns[j] == Hf.ParsedAnn(bboxes[j].value, Hf.CategoryName(categories[j]))
  {
    seq(|bboxes|, j requires 0 <= j < |bboxes| => Hf.ParsedAnn(bboxes[j].value, Hf.CategoryName(categories[j])))
  }

  /** Every box of the row is finite, the arrays have one length, and the size fits in `u32`. */
  predicate Readable(row: RowOut) {
    && |row.bboxes| == |row.categories|
    && (forall j :: 0 <= j < |row.bboxes| ==> row.bboxes[j].Some?)
    && row.width <= U32_MAX && row.height <= U32_MAX
  }

  /** A member whose name no earlier member has is what `get` finds for that name. */
  lemma {:induction false} GetAt(members: seq<(string, Value)>, k: nat)
    requires k < |members| && forall i :: 0 <= i < k ==> members[i].0 != members[k].0
    ensures JsonValue.Get(members, members[k].0) == Some(members[k].1)
    decreases k
  {
    if k > 0 {
      var rest := members[1..];
      assert rest[k - 1] == members[k];
      GetAt(rest, k - 1);
    }
  }

  /** The members of a written row, as the reader looks them up. */
  lemma RowMembers(row: RowOut)
    ensures var m := RowJson(row).members;
            && JsonValue.Get(m, "file_name") == Some(Str(row.fileName))
            && JsonValue.Get(m, "width") == Some(Num(Int(row.width)))
            && JsonValue.Get(m, "height") == Some(Num(Int(row.height)))
            && JsonValue.Get(m, "objects") == Some(RowJson(row).members[2].1)
  {
    var m := RowJson(row).members;
    GetAt(m, 0);
    GetAt(m, 1);
    GetAt(m, 2);
    GetAt(m, 3);
  }

  /** The members of a written row's object container. */
  lemma ContainerMembers(row: RowOut)
    ensures var o := RowJson(row).members[2].1.members;
            && JsonValue.Get(o, "bbox") == Some(Array(BoxesJson(row.bboxes)))
            && JsonValue.Get(o, "categories") == Some(Array(NamesJson(row.categories)))
  {
    var o := RowJson(row).members[2].1.members;
    GetAt(o, 0);
    GetAt(o, 1);
  }

  /** The written objects parse back to their numbers and names. */
  lemma ObjectsReadBack(bboxes: seq<Written>, categories: seq<string>)
    requires |bboxes| == |categories| && forall j :: 0 <= j < |bboxes| ==> bboxes[j].Some?
    ensures Hf.ParseAnns(Hf.Zip(BoxesJson(bboxes), NamesJson(categories))) == Ok(ReadBack(bboxes, categories))
  {
    var pairs := Hf.Zip(BoxesJson(bboxes), NamesJson(categories));
    var back := ReadBack(bboxes, categories);
    forall j | 0 <= j < |pairs|
      ensures Hf.AnnOk(pairs, j) && Hf.AnnAt(pairs, j) == back[j]
    {
      ObjectReadBack(bboxes, categories, j);
    }
    var r := Hf.ParseAnns(pairs);
    assert r.Ok?;
    assert r.value == back;
  }

  /** Object `j` of the written lists parses back to its numbers and its name. */
  lemma ObjectReadBack(bboxes: seq<Written>, categories: seq<string>, j: nat)
    requires |bboxes| == |categories| && forall j :: 0 <= j < |bboxes| ==> bboxes[j].Some?
    requires j < |bboxes|
    ensures var pairs := Hf.Zip(BoxesJson(bboxes), NamesJson(categories));
            Hf.AnnOk(pairs, j) && Hf.AnnAt(pairs, j) == ReadBack(bboxes, categories)[j]
  {
    var pairs := Hf.Zip(BoxesJson(bboxes), NamesJson(categories));
    var v := bboxes[j].value;
    assert pairs[j].0 == Array([Num(Float(v.0)), Num(Float(v.1)), Num(Float(v.2)), Num(Float(v.3))]);
    assert Hf.ParseBboxArray(pairs[j].0, j + 1) == Ok(v);
    assert Hf.ParseCategoryValue(pairs[j].1, j + 1) == Ok(Hf.CategoryName(categories[j]));
  }

  /** The reader finds the written container under `objects`, with its `categories` field. */
  lemma ContainerFound(row: RowOut, options: Hf.ReadOptions)
    requires options.objectsColumn.None?
    ensures Hf.FindArrays(RowJson(row).members, options)
         == Ok(Hf.ObjectArrays("objects", "categories", BoxesJson(row.bboxes), NamesJson(row.categories)))
  {
    var m := RowJson(row).members;
    var o := m[2].1.members;
    RowMembers(row);
    ContainerMembers(row);
    ArraysFound(m, options, "objects", o, "categories", BoxesJson(row.bboxes), NamesJson(row.categories));
  }

  /** The container lookup, step by step: key, object, `bbox` array, category field, its array. */
  lemma ArraysFound(m: seq<(string, Value)>, options: Hf.ReadOptions, key: string, o: seq<(string, Value)>,
                    field: string, bboxes: seq<Value>, cats: seq<Value>)
    requires Hf.ResolveObjectsKey(m, options.objectsColumn) == Ok(key)
    requires JsonValue.Get(m, key) == Some(Object(o))
    requires JsonValue.Get(o, "bbox") == Some(Array(bboxes))
    requires Hf.CategoryField(o, key) == Ok(field)
    requires JsonValue.Get(o, field) == Some(Array(cats))
    ensures Hf.FindArrays(m, options) == Ok(Hf.ObjectArrays(key, field, bboxes, cats))
  {
  }

  /** The written objects are read back, container and arrays first. */
  lemma ObjectsFound(row: RowOut, options: Hf.ReadOptions)
    requires Readable(row) && options.objectsColumn.None?
    ensures Hf.ParseObjects(RowJson(row).members, options) == Ok(ReadBack(row.bboxes, row.categories))
  {
    ContainerFound(row, options);
    ObjectsReadBack(row.bboxes, row.categories);
  }

  /**
   * Reading a written row (with the default container lookup) gives back
   * its file name, its size and, position by position, its box numbers and
   * its category names as labels; the size probe is never consulted.
   */
  lemma RowRoundTrip(row: RowOut, line: nat, options: Hf.ReadOptions, probe: Hf.SizeProbe)
    requires Readable(row) && options.objectsColumn.None?
    ensures Hf.JsonlRow(RowJson(row), line, options, probe)
         == Ok(Hf.ParsedRow(row.fileName, row.width, row.height, ReadBack(row.bboxes, row.categories)))
  {
    RowFromWritten(row, options, probe);
  }

  /** The row checks pass on a written row's members, in their order. */
  lemma RowFromWritten(row: RowOut, options: Hf.ReadOptions, probe: Hf.SizeProbe)
    requires Readable(row) && options.objectsColumn.None?
    ensures Hf.RowFrom(RowJson(row).members, options, probe)
         == Ok(Hf.ParsedRow(row.fileName, row.width, row.height, ReadBack(row.bboxes, row.categories)))
  {
    FieldsRead(row);
    ObjectsFound(row, options);
  }

  /** The file name and the size of a written row are read back as they were written. */
  lemma FieldsRead(row: RowOut)
    requires row.width <= U32_MAX && row.height <= U32_MAX
    ensures var m := RowJson(row).members;
            && Hf.FileNameField(m) == Ok(row.fileName)
            && Hf.ParseOptionalU32(JsonValue.Get(m, "width"), "width") == Ok(Some(row.width))
            && Hf.ParseOptionalU32(JsonValue.Get(m, "height"), "height") == Ok(Some(row.height))
  {
    var m := RowJson(row).members;
    assert Hf.FileNameField(m) == Ok(row.fileName) by {
      GetAt(m, 0);
    }
    assert Hf.ParseOptionalU32(JsonValue.Get(m, "height"), "height") == Ok(Some(row.height)) by {
      GetAt(m, 1);
    }
    assert Hf.ParseOptionalU32(JsonValue.Get(m, "width"), "width") == Ok(Some(row.width)) by {
      GetAt(m, 3);
    }
  }

  /** A finite box written in either format is read back as the same box. */
  lemma BoxRoundTrip(b: BBox, f: Hf.BboxFormat)
    requires b.finite
    ensures WrittenBox(b, f).Some? && Hf.BoxOf(WrittenBox(b, f).value, f) == b
  {
    if f.Xywh? {
      XywhRoundTrip(b);
    }
  }

  // ------------------------------------------------------------ the dataset back

  /** Every box of the group is finite. */
  predicate FiniteBoxes(group: seq<Annotation>) {
    forall j :: 0 <= j < |group| ==> group[j].bbox.finite
  }

  /**
   * Writing a dataset with distinct image IDs and reading row `k` back (the
   * default container lookup) gives the `k`-th image in file-name order: its
   * file name and size, and for each of its annotations in ascending ID
   * order the same box and its category's name.
   */
  lemma WriteThenRead(d: Dataset, f: Hf.BboxFormat, k: nat, line: nat, options: Hf.ReadOptions, probe: Hf.SizeProbe)
    requires HfOutput(d, f).Ok? && Seqs.Distinct(ImageIds(d.images)) && k < |d.images|
    requires SortedImages(d)[k].width <= U32_MAX && SortedImages(d)[k].height <= U32_MAX
    requires FiniteBoxes(ImageAnnotations(d, SortedImages(d)[k]))
    requires options.objectsColumn.None?
    ensures HfOutputRowsLength(d, f)
    ensures var image := SortedImages(d)[k];
            var group := ImageAnnotations(d, image);
            var read := Hf.JsonlRow(RowJson(HfOutput(d, f).value[k]), line, options, probe);
            && read.Ok?
            && read.value.fileName == image.fileName
            && read.value.width == image.width && read.value.height == image.height
            && |read.value.anns| == |group|
            && forall j :: 0 <= j < |group| ==>
                 && Hf.BoxOf(read.value.anns[j].bbox, f) == group[j].bbox
                 && group[j].categoryId in CategoryNameById(d.categories)
                 && read.value.anns[j].category == Hf.CategoryName(CategoryNameById(d.categories)[group[j].categoryId])
  {
    var names := CategoryNameById(d.categories);
    var image := SortedImages(d)[k];
    var group := ImageAnnotations(d, image);
    HfOutputObjects(d, f, k);
    HfOutputRows(d, f);
    var row := HfOutput(d, f).value[k];
    assert SameImage(HfOutput(d, f).value, SortedImages(d), k);
    forall j | 0 <= j < |group| ensures row.bboxes[j] == WrittenBox(group[j].bbox, f) && row.bboxes[j].Some? {
      BoxRoundTrip(group[j].bbox, f);
    }
    RowRoundTrip(row, line, options, probe);
    var back := ReadBack(row.bboxes, row.categories);
    forall j | 0 <= j < |group|
      ensures Hf.BoxOf(back[j].bbox, f) == group[j].bbox
    {
      BoxRoundTrip(group[j].bbox, f);
    }
  }
}
