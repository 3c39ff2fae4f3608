// What the writers share: the annotations grouped by image in list order
// (`annotations_by_image`), each image taking its group out of the map as it
// is written, and the images in file-name order.
module Grouping {
  import opened Wrappers
  import opened Ir
  import opened Sorting
  import StrOrder
  import Seqs

  /** The annotations grouped so far for one image; none when the image has no entry. */
  function Get(byImage: map<nat, seq<Annotation>>, id: nat): seq<Annotation> {
    if id in byImage then byImage[id] else []
  }

  /** `annotations_by_image`: each annotation appended to its image's list, in list order. */
  function Group(anns: seq<Annotation>): map<nat, seq<Annotation>> {
    if |anns| == 0 then map[]
    else
      var g := Group(anns[..|anns| - 1]);
      var a := anns[|anns| - 1];
      g[a.imageId := Get(g, a.imageId) + [a]]
  }

  function OnImage(id: nat): Annotation -> bool {
    (a: Annotation) => a.imageId == id
  }

  /** An image's group holds exactly its annotations, in their original order. */
  lemma {:induction false} GroupIsFilter(anns: seq<Annotation>, id: nat)
    ensures Get(Group(anns), id) == Seqs.Filter(anns, OnImage(id))
  {
    if |anns| > 0 {
      var pre, a := anns[..|anns| - 1], anns[|anns| - 1];
      GroupIsFilter(pre, id);
      Seqs.FilterAppend(pre, [a], OnImage(id));
      assert anns == pre + [a];
    }
  }

  /** The map after `remove(&id)`. */
  function Taken(byImage: map<nat, seq<Annotation>>, id: nat): (m: map<nat, seq<Annotation>>)
    ensures forall other :: other != id ==> Get(m, other) == Get(byImage, other)
    ensures Get(m, id) == []
  {
    var drop: set<nat> := {id};
    byImage - drop
  }

  /** The images in the order the writers emit them: by file name, stably. */
  function SortedImages(d: Dataset): seq<Image> {
    SortBy(d.images, ImageFileNameLe)
  }

  /** The annotations written for `image`: those on it, in ascending ID order. */
  function ImageAnnotations(d: Dataset, image: Image): seq<Annotation> {
    SortBy(Seqs.Filter(d.annotations, OnImage(image.id)), AnnotationIdLe)
  }

  /** Those annotations are exactly the image's own, sorted by ID. */
  lemma ImageAnnotationsOrder(d: Dataset, image: Image)
    ensures multiset(ImageAnnotations(d, image)) == multiset(Seqs.Filter(d.annotations, OnImage(image.id)))
    ensures SortedBy(ImageAnnotations(d, image), AnnotationIdLe)
    ensures forall a :: a in ImageAnnotations(d, image) <==> a in d.annotations && a.imageId == image.id
  {
    var own := Seqs.Filter(d.annotations, OnImage(image.id));
    NatKeyPreorder(AnnotationIdLe, (a: Annotation) => a.id);
    SortBySorted(own, AnnotationIdLe);
    forall a ensures a in ImageAnnotations(d, image) <==> a in own {
      assert a in ImageAnnotations(d, image) <==> a in multiset(ImageAnnotations(d, image));
    }
  }

  /** The images in writing order: ascending file names, the same names as the dataset's. */
  lemma SortedImageNames(d: Dataset)
    ensures |SortedImages(d)| == |d.images|
    ensures SortedBy(ImageFileNames(SortedImages(d)), StrOrder.Le)
    ensures multiset(ImageFileNames(SortedImages(d))) == multiset(ImageFileNames(d.images))
  {
    var sorted := SortedImages(d);
    var f := (i: Image) => i.fileName;
    StringKeyPreorder(ImageFileNameLe, f);
    SortBySorted(d.images, ImageFileNameLe);
    Seqs.MapPermutation(sorted, d.images, f);
    assert ImageFileNames(sorted) == Seqs.Map(sorted, f);
    assert ImageFileNames(d.images) == Seqs.Map(d.images, f);
    forall i, j | 0 <= i < j < |sorted| ensures StrOrder.Le(ImageFileNames(sorted)[i], ImageFileNames(sorted)[j]) {
      assert ImageFileNameLe(sorted[i], sorted[j]);
    }
  }

  /** Sorting by file name keeps image IDs distinct. */
  lemma SortedImageIdsDistinct(d: Dataset)
    requires Seqs.Distinct(ImageIds(d.images))
    ensures Seqs.Distinct(ImageIds(SortedImages(d)))
  {
    var sorted := SortedImages(d);
    var f := (img: Image) => img.id;
    Seqs.MapPermutation(d.images, sorted, f);
    assert ImageIds(sorted) == Seqs.Map(sorted, f);
    assert ImageIds(d.images) == Seqs.Map(d.images, f);
    Seqs.DistinctPermutation(ImageIds(d.images), ImageIds(sorted));
  }
  /** An image's written group: what the map holds for its ID, sorted by annotation ID. */
  function GroupOf(image: Image, byImage: map<nat, seq<Annotation>>): seq<Annotation> {
    SortBy(Get(byImage, image.id), AnnotationIdLe)
  }

  /** Before anything is taken out of the map, an image's group is exactly `ImageAnnotations`. */
  lemma GroupOfGrouped(d: Dataset, image: Image)
    ensures GroupOf(image, Group(d.annotations)) == ImageAnnotations(d, image)
  {
    GroupIsFilter(d.annotations, image.id);
  }

  // The reference check the writers make before writing anything.

  datatype WriteError =
    | MissingImage(annotationId: nat, imageId: nat)
    | MissingCategory(annotationId: nat, categoryId: nat)

  /** The reference check on one annotation: its image first, then its category. */
  function RefError(a: Annotation, imageIds: seq<nat>, categoryIds: set<nat>): (e: Option<WriteError>)
    ensures e.None? <==> a.imageId in imageIds && a.categoryId in categoryIds
  {
    if a.imageId !in imageIds then Some(MissingImage(a.id, a.imageId))
    else if a.categoryId !in categoryIds then Some(MissingCategory(a.id, a.categoryId))
    else None
  }

  /** The error of the first annotation (in list order) that fails its check. */
  function FirstRefError(anns: seq<Annotation>, imageIds: seq<nat>, categoryIds: set<nat>): Option<WriteError> {
    if |anns| == 0 then None
    else
      var earlier := FirstRefError(anns[..|anns| - 1], imageIds, categoryIds);
      if earlier.Some? then earlier else RefError(anns[|anns| - 1], imageIds, categoryIds)
  }

  /** Annotation `k` fails its check, and every annotation before it passes. */
  predicate FailsFirstAt(anns: seq<Annotation>, k: int, e: WriteError, imageIds: seq<nat>, categoryIds: set<nat>) {
    0 <= k < |anns| && RefError(anns[k], imageIds, categoryIds) == Some(e)
    && forall j :: 0 <= j < k ==> RefError(anns[j], imageIds, categoryIds).None?
  }

  /**
   * There is no error exactly when every annotation passes its check, and
   * an error is the one of the first failing annotation.
   */
  lemma {:induction false} FirstRefErrorSound(anns: seq<Annotation>, imageIds: seq<nat>, categoryIds: set<nat>)
    ensures FirstRefError(anns, imageIds, categoryIds).None? <==>
      forall k :: 0 <= k < |anns| ==> RefError(anns[k], imageIds, categoryIds).None?
    ensures FirstRefError(anns, imageIds, categoryIds).Some? ==>
      exists k :: FailsFirstAt(anns, k, FirstRefError(anns, imageIds, categoryIds).value, imageIds, categoryIds)
  {
    if |anns| > 0 {
      var pre := anns[..|anns| - 1];
      FirstRefErrorSound(pre, imageIds, categoryIds);
      assert forall k :: 0 <= k < |pre| ==> pre[k] == anns[k];
      var e := FirstRefError(anns, imageIds, categoryIds);
      if FirstRefError(pre, imageIds, categoryIds).Some? {
        var k :| FailsFirstAt(pre, k, e.value, imageIds, categoryIds);
        assert FailsFirstAt(anns, k, e.value, imageIds, categoryIds);
      } else if e.Some? {
        assert FailsFirstAt(anns, |anns| - 1, e.value, imageIds, categoryIds);
      }
    }
  }

  lemma {:induction false} FirstRefErrorPersists(anns: seq<Annotation>, i: nat, imageIds: seq<nat>, categoryIds: set<nat>)
    requires i <= |anns| && FirstRefError(anns[..i], imageIds, categoryIds).Some?
    ensures FirstRefError(anns, imageIds, categoryIds) == FirstRefError(anns[..i], imageIds, categoryIds)
    decreases |anns|
  {
    if i < |anns| {
      assert anns[..|anns| - 1][..i] == anns[..i];
      FirstRefErrorPersists(anns[..|anns| - 1], i, imageIds, categoryIds);
    } else {
      assert anns[..i] == anns;
    }
  }

  /** Checks each annotation's references and groups it under its image; the first failure is the result. */
  method GroupAnnotations(anns: seq<Annotation>, imageIds: seq<nat>, categoryIds: set<nat>)
    returns (r: Result<map<nat, seq<Annotation>>, WriteError>)
    ensures r.Err? <==> FirstRefError(anns, imageIds, categoryIds).Some?
    ensures r.Err? ==> r.error == FirstRefError(anns, imageIds, categoryIds).value
    ensures r.Ok? ==> r.value == Group(anns)
  {
    var byImage: map<nat, seq<Annotation>> := map[];
    for i := 0 to |anns|
      invariant FirstRefError(anns[..i], imageIds, categoryIds).None?
      invariant byImage == Group(anns[..i])
    {
      assert anns[..i + 1][..i] == anns[..i];
      var a := anns[i];
      if a.imageId !in imageIds {
        FirstRefErrorPersists(anns, i + 1, imageIds, categoryIds);
        return Err(MissingImage(a.id, a.imageId));
      }
      if a.categoryId !in categoryIds {
        FirstRefErrorPersists(anns, i + 1, imageIds, categoryIds);
        return Err(MissingCategory(a.id, a.categoryId));
      }
      var group := if a.imageId in byImage then byImage[a.imageId] else [];
      byImage := byImage[a.imageId := group + [a]];
    }
    assert anns[..|anns|] == anns;
    return Ok(byImage);
  }

  // Category names by ID, as both XML writers look them up.

  /**
   * `category_name_by_id`: category ID to name, built by `collect()`, so
   * when an ID repeats the last category wins.
   */
  function CategoryNameById(categories: seq<Category>): map<nat, string> {
    if |categories| == 0 then map[]
    else
      var last := categories[|categories| - 1];
      CategoryNameById(categories[..|categories| - 1])[last.id := last.name]
  }

  /**
   * A category ID has a name exactly when some category has that ID; the
   * name is that of the last such category.
   */
  lemma {:induction false} CategoryNameByIdSound(categories: seq<Category>, id: nat)
    ensures id in CategoryNameById(categories) <==> id in CategoryIds(categories)
    ensures id in CategoryNameById(categories) ==>
      exists k :: LastWithId(categories, k, id) && CategoryNameById(categories)[id] == categories[k].name
  {
    if |categories| > 0 {
      var pre, last := categories[..|categories| - 1], categories[|categories| - 1];
      CategoryNameByIdSound(pre, id);
      assert CategoryIds(categories) == CategoryIds(pre) + [last.id];
      if last.id == id {
        assert LastWithId(categories, |categories| - 1, id);
      } else if id in CategoryNameById(pre) {
        var k :| LastWithId(pre, k, id) && CategoryNameById(pre)[id] == pre[k].name;
        assert LastWithId(categories, k, id);
      }
    }
  }

  /** `categories[k]` is the last category with ID `id`. */
  predicate LastWithId(categories: seq<Category>, k: int, id: nat) {
    0 <= k < |categories| && categories[k].id == id
    && forall j :: k < j < |categories| ==> categories[j].id != id
  }

  // Every grouped annotation's category named: what the writers rely on after the reference check.

  /** Every grouped annotation's category has a name. */
  predicate KnownGroups(byImage: map<nat, seq<Annotation>>, names: map<nat, string>) {
    forall id, k :: id in byImage && 0 <= k < |byImage[id]| ==> byImage[id][k].categoryId in names
  }

  /** Before any group is taken, every annotation's category has a name when every category ID does. */
  lemma GroupKnown(anns: seq<Annotation>, names: map<nat, string>)
    requires forall k :: 0 <= k < |anns| ==> anns[k].categoryId in names
    ensures KnownGroups(Group(anns), names)
  {
    forall id, k | id in Group(anns) && 0 <= k < |Group(anns)[id]| ensures Group(anns)[id][k].categoryId in names {
      GroupIsFilter(anns, id);
      assert Group(anns)[id][k] in Seqs.Filter(anns, OnImage(id));
    }
  }

  /** Taking a group out keeps the remaining groups' categories named. */
  lemma TakenKnown(byImage: map<nat, seq<Annotation>>, id: nat, names: map<nat, string>)
    requires KnownGroups(byImage, names)
    ensures KnownGroups(Taken(byImage, id), names)
  {
    forall other | other in Taken(byImage, id) ensures Taken(byImage, id)[other] == byImage[other] {
      assert Get(Taken(byImage, id), other) == Get(byImage, other);
    }
  }

  /** An image's written group names only named categories. */
  lemma GroupOfKnown(image: Image, byImage: map<nat, seq<Annotation>>, names: map<nat, string>)
    requires KnownGroups(byImage, names)
    ensures forall k :: 0 <= k < |GroupOf(image, byImage)| ==> GroupOf(image, byImage)[k].categoryId in names
  {
    var group := GroupOf(image, byImage);
    forall k | 0 <= k < |group| ensures group[k].categoryId in names {
      assert group[k] in multiset(Get(byImage, image.id));
      var j :| 0 <= j < |Get(byImage, image.id)| && Get(byImage, image.id)[j] == group[k];
    }
  }
}
