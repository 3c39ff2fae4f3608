// `write_yolo_dir` and `write_data_yaml` (src/ir/io_yolo.rs): every
// annotation must name an existing image and category; categories in
// ascending ID order give the class indices; each image, in file-name order,
// gets one label file whose lines are its annotations in ID order; and
// `data.yaml` lists the quoted category names by class index.
// Creating directories and files, the label path's extension swap and the
// `{:.6}` number formatting are file-system and text work left out; the
// label files are values. `to_cxcywh` is not part of this model; it is the
// parameter `toCxcywh`.
module YoloWrite {
  import opened Wrappers
  import opened BBoxes
  import opened Ir
  import opened StrOrder
  import opened Sorting
  import opened YoloLabels
  import opened Text
  import Seqs
  import opened Grouping

  /** One line of a label file: class index and normalised centre box. */
  datatype YoloLine = YoloLine(classIndex: nat, cx: real, cy: real, w: real, h: real)

  /** The label file written for one image. */
  datatype LabelEntry = LabelEntry(imageFileName: string, lines: seq<YoloLine>)

  /** The written dataset: label files in writing order and the `data.yaml` name entries by class index. */
  datatype YoloOutput = YoloOutput(labels: seq<LabelEntry>, dataYamlNames: seq<string>)

  type CxcywhOf = BBox -> (real, real, real, real)

  /**
   * `category_to_class`: category ID to its position in ID order. Built by
   * `collect()`, so when an ID repeats the last position wins.
   */
  function ClassMapOf(sorted: seq<Category>): map<nat, nat> {
    if |sorted| == 0 then map[]
    else ClassMapOf(sorted[..|sorted| - 1])[sorted[|sorted| - 1].id := |sorted| - 1]
  }

  /**
   * A category ID has a class index exactly when some category has it; the
   * index names the last such category.
   */
  lemma {:induction false} ClassMapSound(sorted: seq<Category>, id: nat)
    ensures id in ClassMapOf(sorted) <==> id in CategoryIds(sorted)
    ensures id in ClassMapOf(sorted) ==>
      ClassMapOf(sorted)[id] < |sorted| && sorted[ClassMapOf(sorted)[id]].id == id
    ensures id in ClassMapOf(sorted) ==>
      forall k :: ClassMapOf(sorted)[id] < k < |sorted| ==> sorted[k].id != id
  {
    if |sorted| > 0 {
      var pre := sorted[..|sorted| - 1];
      ClassMapSound(pre, id);
      assert CategoryIds(sorted) == CategoryIds(pre) + [sorted[|sorted| - 1].id];
      if sorted[|sorted| - 1].id != id && id in ClassMapOf(pre) {
        assert sorted[ClassMapOf(pre)[id]] == pre[ClassMapOf(pre)[id]];
        assert forall k :: ClassMapOf(pre)[id] < k < |pre| ==> sorted[k] == pre[k];
      }
    }
  }

  /** The label line for annotation `a` on `image`: class index, then the normalised centre box. */
  function LineOf(a: Annotation, image: Image, classMap: map<nat, nat>, toCxcywh: CxcywhOf): YoloLine {
    var normalized := ToNormalized(a.bbox, image.width as real, image.height as real);
    var (cx, cy, w, h) := toCxcywh(normalized);
    // the checks before writing leave no annotation without a class index
    YoloLine(if a.categoryId in classMap then classMap[a.categoryId] else 0, cx, cy, w, h)
  }

  /** The label file of `image`: its grouped annotations sorted by ID, one line each. */
  function EntryOf(image: Image, byImage: map<nat, seq<Annotation>>, classMap: map<nat, nat>,
                   toCxcywh: CxcywhOf): LabelEntry {
    LabelEntry(image.fileName,
               Seqs.Map(SortBy(Get(byImage, image.id), AnnotationIdLe), LineFor(image, classMap, toCxcywh)))
  }

  function LineFor(image: Image, classMap: map<nat, nat>, toCxcywh: CxcywhOf): Annotation -> YoloLine {
    (a: Annotation) => LineOf(a, image, classMap, toCxcywh)
  }

  /**
   * The label files of `images` in order. Each image takes its group out of
   * the map (`remove`), so a later image with the same ID gets an empty file.
   */
  function EntriesFrom(images: seq<Image>, byImage: map<nat, seq<Annotation>>, classMap: map<nat, nat>,
                       toCxcywh: CxcywhOf): seq<LabelEntry>
    decreases |images|
  {
    if |images| == 0 then []
    else [EntryOf(images[0], byImage, classMap, toCxcywh)]
         + EntriesFrom(images[1..], Taken(byImage, images[0].id), classMap, toCxcywh)
  }

  /** `data.yaml`'s entries: entry `i` is the quoted name of the category with class index `i`. */
  function DataYamlNames(sorted: seq<Category>): (names: seq<string>)
    ensures |names| == |sorted|
    ensures forall i :: 0 <= i < |sorted| ==> names[i] == YamlSingleQuoted(sorted[i].name)
  {
    Seqs.Map(sorted, (c: Category) => YamlSingleQuoted(c.name))
  }

  function SortedCategories(d: Dataset): (sorted: seq<Category>)
    ensures |sorted| == |d.categories|
  {
    SortBy(d.categories, CategoryIdLe)
  }

  /** The whole of `write_yolo_dir` as a value. */
  function WriteYolo(d: Dataset, toCxcywh: CxcywhOf): Result<YoloOutput, WriteError> {
    var classMap := ClassMapOf(SortedCategories(d));
    match FirstRefError(d.annotations, ImageIds(d.images), classMap.Keys)
    case Some(e) => Err(e)
    case None =>
      Ok(YoloOutput(EntriesFrom(SortedImages(d), Group(d.annotations), classMap, toCxcywh),
                    DataYamlNames(SortedCategories(d))))
  }

  /** Writes one label file per image in order, taking each image's group out of the map. */
  method WriteEntries(images: seq<Image>, byImage: map<nat, seq<Annotation>>, classMap: map<nat, nat>,
                      toCxcywh: CxcywhOf)
    returns (entries: seq<LabelEntry>)
    ensures entries == EntriesFrom(images, byImage, classMap, toCxcywh)
  {
    entries := [];
    var remaining := byImage;
    assert images[0..] == images;
    assert entries + EntriesFrom(images[0..], remaining, classMap, toCxcywh) == EntriesFrom(images, byImage, classMap, toCxcywh);
    for i := 0 to |images|
      invariant entries + EntriesFrom(images[i..], remaining, classMap, toCxcywh)
        == EntriesFrom(images, byImage, classMap, toCxcywh)
    {
      var image := images[i];
      var entry := EntryOf(image, remaining, classMap, toCxcywh);
      var next := Taken(remaining, image.id);
      EntriesFromStep(images, i, remaining, classMap, toCxcywh);
      Seqs.AppendAssoc(entries, [entry], EntriesFrom(images[i + 1..], next, classMap, toCxcywh));
      entries := entries + [entry];
      remaining := next;
    }
  }

  lemma EntriesFromStep(images: seq<Image>, i: nat, byImage: map<nat, seq<Annotation>>, classMap: map<nat, nat>,
                        toCxcywh: CxcywhOf)
    requires i < |images|
    ensures EntriesFrom(images[i..], byImage, classMap, toCxcywh)
      == [EntryOf(images[i], byImage, classMap, toCxcywh)]
         + EntriesFrom(images[i + 1..], Taken(byImage, images[i].id), classMap, toCxcywh)
  {
    assert images[i..][1..] == images[i + 1..];
  }

  /** `write_yolo_dir`: checks and groups the annotations, then writes the label files and `data.yaml`. */
  method WriteYoloDir(d: Dataset, toCxcywh: CxcywhOf) returns (r: Result<YoloOutput, WriteError>)
    ensures r == WriteYolo(d, toCxcywh)
  {
    var categories := SortedCategories(d);
    var classMap := ClassMapOf(categories);
    var grouped := GroupAnnotations(d.annotations, ImageIds(d.images), classMap.Keys);
    if grouped.Err? {
      return Err(grouped.error);
    }
    var entries := WriteEntries(SortedImages(d), grouped.value, classMap, toCxcywh);
    return Ok(YoloOutput(entries, DataYamlNames(categories)));
  }

  // Properties of the written dataset.

  /** Sorting keeps the set of category IDs. */
  lemma SortedCategoryIds(d: Dataset)
    ensures forall id :: id in CategoryIds(SortedCategories(d)) <==> id in CategoryIds(d.categories)
  {
    var sorted := SortedCategories(d);
    var f := (c: Category) => c.id;
    SortBySorted(d.categories, CategoryIdLe);
    Seqs.MapPermutation(sorted, d.categories, f);
    assert CategoryIds(sorted) == Seqs.Map(sorted, f);
    assert CategoryIds(d.categories) == Seqs.Map(d.categories, f);
    forall id ensures id in CategoryIds(sorted) <==> id in CategoryIds(d.categories) {
      assert id in CategoryIds(sorted) <==> id in multiset(CategoryIds(sorted));
      assert id in CategoryIds(d.categories) <==> id in multiset(CategoryIds(d.categories));
    }
  }

  /**
   * The writer fails exactly when some annotation names a missing image or
   * category, and the error is that of the first such annotation, image
   * checked before category.
   */
  lemma WriteYoloErrors(d: Dataset, toCxcywh: CxcywhOf)
    ensures WriteYolo(d, toCxcywh).Ok? <==>
      forall k :: 0 <= k < |d.annotations| ==>
        HasImage(d, d.annotations[k].imageId) && HasCategory(d, d.annotations[k].categoryId)
    ensures WriteYolo(d, toCxcywh).Err? ==>
      exists k :: FailsFirstAt(d.annotations, k, WriteYolo(d, toCxcywh).error, ImageIds(d.images),
                               ClassMapOf(SortedCategories(d)).Keys)
  {
    var classMap := ClassMapOf(SortedCategories(d));
    FirstRefErrorSound(d.annotations, ImageIds(d.images), classMap.Keys);
    SortedCategoryIds(d);
    forall id ensures id in classMap <==> id in CategoryIds(d.categories) {
      ClassMapSound(SortedCategories(d), id);
    }
  }

  /** The class index of an annotation whose category exists is that category's position in ID order. */
  lemma LineClassIndex(d: Dataset, a: Annotation, image: Image, toCxcywh: CxcywhOf)
    requires HasCategory(d, a.categoryId)
    ensures LineOf(a, image, ClassMapOf(SortedCategories(d)), toCxcywh).classIndex < |d.categories|
    ensures SortedCategories(d)[LineOf(a, image, ClassMapOf(SortedCategories(d)), toCxcywh).classIndex].id
      == a.categoryId
    ensures SortedBy(SortedCategories(d), CategoryIdLe)
  {
    SortedCategoryIds(d);
    ClassMapSound(SortedCategories(d), a.categoryId);
    NatKeyPreorder(CategoryIdLe, (c: Category) => c.id);
    SortBySorted(d.categories, CategoryIdLe);
  }

  /** The file names of a list of label files. */
  function EntryNames(entries: seq<LabelEntry>): seq<string> {
    Seqs.Map(entries, (e: LabelEntry) => e.imageFileName)
  }

  lemma {:induction false} EntriesFromNames(images: seq<Image>, byImage: map<nat, seq<Annotation>>,
                                            classMap: map<nat, nat>, toCxcywh: CxcywhOf)
    ensures EntryNames(EntriesFrom(images, byImage, classMap, toCxcywh)) == ImageFileNames(images)
    decreases |images|
  {
    if |images| > 0 {
      EntriesFromNames(images[1..], Taken(byImage, images[0].id), classMap, toCxcywh);
    }
  }

  /**
   * Every image gets exactly one label file, in ascending file-name order,
   * annotated or not.
   */
  lemma WriteYoloEntries(d: Dataset, toCxcywh: CxcywhOf)
    requires WriteYolo(d, toCxcywh).Ok?
    ensures |WriteYolo(d, toCxcywh).value.labels| == |d.images|
    ensures multiset(EntryNames(WriteYolo(d, toCxcywh).value.labels)) == multiset(ImageFileNames(d.images))
    ensures SortedBy(EntryNames(WriteYolo(d, toCxcywh).value.labels), Le)
  {
    var sorted := SortedImages(d);
    var classMap := ClassMapOf(SortedCategories(d));
    var labels := WriteYolo(d, toCxcywh).value.labels;
    assert labels == EntriesFrom(sorted, Group(d.annotations), classMap, toCxcywh);
    EntriesFromNames(sorted, Group(d.annotations), classMap, toCxcywh);
    SortedImageNames(d);
  }

  /** The images in writing order carry the same file names, now ascending. */
  lemma SortedImageNames(d: Dataset)
    ensures |ImageFileNames(SortedImages(d))| == |d.images|
    ensures multiset(ImageFileNames(SortedImages(d))) == multiset(ImageFileNames(d.images))
    ensures SortedBy(ImageFileNames(SortedImages(d)), Le)
  {
    var sorted := SortedImages(d);
    StringKeyPreorder(ImageFileNameLe, (i: Image) => i.fileName);
    SortBySorted(d.images, ImageFileNameLe);
    var f := (i: Image) => i.fileName;
    Seqs.MapPermutation(sorted, d.images, f);
    assert ImageFileNames(sorted) == Seqs.Map(sorted, f);
    assert ImageFileNames(d.images) == Seqs.Map(d.images, f);
  }

  /** With distinct image IDs, each image's label file is built from its whole group. */
  lemma {:induction false} EntriesFromDistinct(images: seq<Image>, byImage: map<nat, seq<Annotation>>,
                                               classMap: map<nat, nat>, toCxcywh: CxcywhOf)
    requires Seqs.Distinct(ImageIds(images))
    ensures |EntriesFrom(images, byImage, classMap, toCxcywh)| == |images|
    ensures forall i :: 0 <= i < |images| ==>
      EntriesFrom(images, byImage, classMap, toCxcywh)[i] == EntryOf(images[i], byImage, classMap, toCxcywh)
    decreases |images|
  {
    if |images| > 0 {
      var rest, taken := images[1..], Taken(byImage, images[0].id);
      assert ImageIds(rest) == ImageIds(images)[1..];
      EntriesFromDistinct(rest, taken, classMap, toCxcywh);
      forall i | 1 <= i < |images|
        ensures EntryOf(images[i], taken, classMap, toCxcywh) == EntryOf(images[i], byImage, classMap, toCxcywh)
      {
        assert ImageIds(images)[i] != ImageIds(images)[0];
        assert Get(taken, images[i].id) == Get(byImage, images[i].id);
      }
    }
  }

  /**
   * When image IDs are distinct, the label file of the `i`-th image in
   * file-name order holds one line per annotation on that image, in
   * ascending annotation ID order.
   */
  lemma WriteYoloLines(d: Dataset, toCxcywh: CxcywhOf, i: nat)
    requires WriteYolo(d, toCxcywh).Ok? && Seqs.Distinct(ImageIds(d.images))
    requires i < |d.images|
    ensures |WriteYolo(d, toCxcywh).value.labels| == |d.images|
    ensures WriteYolo(d, toCxcywh).value.labels[i].imageFileName == SortedImages(d)[i].fileName
    ensures WriteYolo(d, toCxcywh).value.labels[i].lines
      == Seqs.Map(ImageAnnotations(d, SortedImages(d)[i]),
                  LineFor(SortedImages(d)[i], ClassMapOf(SortedCategories(d)), toCxcywh))
  {
    var sorted := SortedImages(d);
    var classMap := ClassMapOf(SortedCategories(d));
    SortedImageIdsDistinct(d);
    EntriesFromDistinct(sorted, Group(d.annotations), classMap, toCxcywh);
    GroupIsFilter(d.annotations, sorted[i].id);
  }

  /** The `data.yaml` entries read back through `YamlUnquote`, keyed by class index. */
  function ReadBack(names: seq<string>): map<nat, string>
    requires forall i :: 0 <= i < |names| ==> |names[i]| >= 2
  {
    map i: nat | i < |names| :: YamlUnquote(names[i])
  }

  /**
   * `data.yaml` has one entry per category, and reading it back names
   * class `i` after the `i`-th category in ID order, unless that name is
   * blank, when the reader falls back to `class_<i>`.
   */
  /** The class names the written `data.yaml` reads back as. */
  function ReadBackNames(d: Dataset): map<nat, string> {
    ReadBack(DataYamlNames(SortedCategories(d)))
  }

  lemma DataYamlRoundTrip(d: Dataset, i: nat)
    requires i < |d.categories|
    ensures |DataYamlNames(SortedCategories(d))| == |d.categories|
    ensures !IsBlank(SortedCategories(d)[i].name) ==> MappedName(ReadBackNames(d), i) == SortedCategories(d)[i].name
    ensures IsBlank(SortedCategories(d)[i].name) ==> MappedName(ReadBackNames(d), i) == ClassName(i)
  {
    var sorted := SortedCategories(d);
    YamlQuoteRoundTrip(sorted[i].name);
    assert ReadBack(DataYamlNames(sorted))[i] == sorted[i].name;
  }
}
