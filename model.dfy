// The intermediate representation (src/ir/model.rs): a dataset of images,
// categories and annotations with pixel-space XYXY boxes. Typed IDs are
// folded into `nat`; `u32` sizes are `nat` values that the readers bound.
module Ir {
  import opened Wrappers
  import opened BBoxes
  import StrOrder

  datatype DatasetInfo = DatasetInfo(
    name: Option<string>,
    version: Option<string>,
    description: Option<string>,
    url: Option<string>,
    year: Option<nat>,
    contributor: Option<string>,
    dateCreated: Option<string>,
    attributes: map<string, string>)

  datatype License = License(id: nat, name: string, url: Option<string>)

  datatype Image = Image(
    id: nat,
    fileName: string,
    width: nat,
    height: nat,
    licenseId: Option<nat>,
    dateCaptured: Option<string>,
    attributes: map<string, string>)

  datatype Category = Category(id: nat, name: string, supercategory: Option<string>)

  datatype Annotation = Annotation(
    id: nat,
    imageId: nat,
    categoryId: nat,
    bbox: BBox,
    confidence: Option<real>,
    attributes: map<string, string>)

  datatype Dataset = Dataset(
    info: DatasetInfo,
    licenses: seq<License>,
    images: seq<Image>,
    categories: seq<Category>,
    annotations: seq<Annotation>)

  /** `DatasetInfo::default()`: every field absent. */
  function DefaultInfo(): (info: DatasetInfo)
    ensures info.name.None? && info.version.None? && info.description.None? && info.url.None?
    ensures info.year.None? && info.contributor.None? && info.dateCreated.None?
    ensures info.attributes == map[]
  {
    DatasetInfo(None, None, None, None, None, None, None, map[])
  }

  /** `Dataset::default()`: empty lists and default info. */
  function DefaultDataset(): (d: Dataset)
    ensures d.info == DefaultInfo()
    ensures d.licenses == [] && d.images == [] && d.categories == [] && d.annotations == []
  {
    Dataset(DefaultInfo(), [], [], [], [])
  }

  function NewLicense(id: nat, name: string): (l: License)
    ensures l.id == id && l.name == name && l.url.None?
  {
    License(id, name, None)
  }

  function LicenseWithUrl(id: nat, name: string, url: string): (l: License)
    ensures l.id == id && l.name == name && l.url == Some(url)
  {
    License(id, name, Some(url))
  }

  /** `Image::new`: no license, no capture date, no attributes. */
  function NewImage(id: nat, fileName: string, width: nat, height: nat): (img: Image)
    ensures img.id == id && img.fileName == fileName && img.width == width && img.height == height
    ensures img.licenseId.None? && img.dateCaptured.None? && img.attributes == map[]
  {
    Image(id, fileName, width, height, None, None, map[])
  }

  /** `Image::with_license`: sets the license and nothing else. */
  function WithLicense(img: Image, licenseId: nat): (r: Image)
    ensures r.licenseId == Some(licenseId)
    ensures r.(licenseId := img.licenseId) == img
  {
    img.(licenseId := Some(licenseId))
  }

  /** `Image::with_date_captured`: sets the capture date and nothing else. */
  function WithDateCaptured(img: Image, date: string): (r: Image)
    ensures r.dateCaptured == Some(date)
    ensures r.(dateCaptured := img.dateCaptured) == img
  {
    img.(dateCaptured := Some(date))
  }

  /** `Category::new`: no supercategory. */
  function NewCategory(id: nat, name: string): (c: Category)
    ensures c.id == id && c.name == name && c.supercategory.None?
  {
    Category(id, name, None)
  }

  /** `Category::with_supercategory`: a category whose supercategory is set. */
  function CategoryWithSupercategory(id: nat, name: string, supercategory: string): (c: Category)
    ensures c.id == id && c.name == name && c.supercategory == Some(supercategory)
  {
    Category(id, name, Some(supercategory))
  }

  /** `Annotation::new`: no confidence and an empty attribute map. */
  function NewAnnotation(id: nat, imageId: nat, categoryId: nat, bbox: BBox): (a: Annotation)
    ensures a.id == id && a.imageId == imageId && a.categoryId == categoryId && a.bbox == bbox
    ensures a.confidence.None? && a.attributes == map[]
  {
    Annotation(id, imageId, categoryId, bbox, None, map[])
  }

  /** `Annotation::with_confidence`: sets the confidence and nothing else. */
  function WithConfidence(a: Annotation, confidence: real): (r: Annotation)
    ensures r.confidence == Some(confidence)
    ensures r.(confidence := a.confidence) == a
  {
    a.(confidence := Some(confidence))
  }

  /** `Annotation::with_attribute`: inserts or overwrites exactly one key. */
  function WithAttribute(a: Annotation, key: string, value: string): (r: Annotation)
    ensures key in r.attributes && r.attributes[key] == value
    ensures forall k :: k != key ==> (k in r.attributes <==> k in a.attributes)
    ensures forall k :: k != key && k in a.attributes ==> r.attributes[k] == a.attributes[k]
    ensures |r.attributes| == if key in a.attributes then |a.attributes| else |a.attributes| + 1
    ensures r.(attributes := a.attributes) == a
  {
    a.(attributes := a.attributes[key := value])
  }

  /** Two distinct keys added to a fresh annotation give two attributes. */
  lemma TwoAttributes(id: nat, imageId: nat, categoryId: nat, bbox: BBox, k1: string, v1: string, k2: string, v2: string)
    requires k1 != k2
    ensures var a := WithAttribute(WithAttribute(NewAnnotation(id, imageId, categoryId, bbox), k1, v1), k2, v2);
            |a.attributes| == 2 && a.attributes[k1] == v1 && a.attributes[k2] == v2
  {
  }

  // Lookups shared by the readers, writers and analysers.

  /** The image IDs, in list order. */
  function ImageIds(images: seq<Image>): (ids: seq<nat>)
    ensures |ids| == |images| && forall k :: 0 <= k < |images| ==> ids[k] == images[k].id
  {
    seq(|images|, k requires 0 <= k < |images| => images[k].id)
  }

  function CategoryIds(categories: seq<Category>): (ids: seq<nat>)
    ensures |ids| == |categories| && forall k :: 0 <= k < |categories| ==> ids[k] == categories[k].id
  {
    seq(|categories|, k requires 0 <= k < |categories| => categories[k].id)
  }

  function ImageFileNames(images: seq<Image>): (names: seq<string>)
    ensures |names| == |images| && forall k :: 0 <= k < |images| ==> names[k] == images[k].fileName
  {
    seq(|images|, k requires 0 <= k < |images| => images[k].fileName)
  }

  function CategoryNames(categories: seq<Category>): (names: seq<string>)
    ensures |names| == |categories| && forall k :: 0 <= k < |categories| ==> names[k] == categories[k].name
  {
    seq(|categories|, k requires 0 <= k < |categories| => categories[k].name)
  }

  predicate HasImage(d: Dataset, id: nat) {
    id in ImageIds(d.images)
  }

  predicate HasCategory(d: Dataset, id: nat) {
    id in CategoryIds(d.categories)
  }

  /**
   * The value a `collect()` into a map keyed by image ID returns for `id`:
   * when an ID repeats, the last image with it wins.
   */
  function LookupImage(images: seq<Image>, id: nat): (r: Option<Image>)
    ensures r.Some? <==> id in ImageIds(images)
    ensures r.Some? ==> r.value in images && r.value.id == id
  {
    if |images| == 0 then None
    else
      assert ImageIds(images) == ImageIds(images[..|images| - 1]) + [images[|images| - 1].id];
      if images[|images| - 1].id == id then Some(images[|images| - 1])
      else LookupImage(images[..|images| - 1], id)
  }

  /** As `LookupImage`, for categories: the last category with the ID wins. */
  function LookupCategory(categories: seq<Category>, id: nat): (r: Option<Category>)
    ensures r.Some? <==> id in CategoryIds(categories)
    ensures r.Some? ==> r.value in categories && r.value.id == id
  {
    if |categories| == 0 then None
    else
      assert CategoryIds(categories) == CategoryIds(categories[..|categories| - 1]) + [categories[|categories| - 1].id];
      if categories[|categories| - 1].id == id then Some(categories[|categories| - 1])
      else LookupCategory(categories[..|categories| - 1], id)
  }

  // Orders the writers sort by (`sort_by_key(|x| x.id)`, `file_name.cmp`).

  predicate CategoryIdLe(a: Category, b: Category) { a.id <= b.id }

  predicate AnnotationIdLe(a: Annotation, b: Annotation) { a.id <= b.id }

  predicate ImageIdLe(a: Image, b: Image) { a.id <= b.id }

  predicate ImageFileNameLe(a: Image, b: Image) { StrOrder.Le(a.fileName, b.fileName) }

  // Numbered lists, as the readers produce them.

  /** Annotation `k` has ID `firstId + k` and points into the image and category lists. */
  predicate NumberedFrom(anns: seq<Annotation>, firstId: nat, imageCount: nat, categoryCount: nat) {
    forall k :: 0 <= k < |anns| ==>
      && anns[k].id == firstId + k
      && 1 <= anns[k].imageId <= imageCount
      && 1 <= anns[k].categoryId <= categoryCount
  }

  lemma NumberedAppend(head: seq<Annotation>, tail: seq<Annotation>, firstId: nat, imageCount: nat,
                       categoryCount: nat)
    requires NumberedFrom(head, firstId, imageCount, categoryCount)
    requires NumberedFrom(tail, firstId + |head|, imageCount, categoryCount)
    ensures NumberedFrom(head + tail, firstId, imageCount, categoryCount)
  {
    forall k | |head| <= k < |head| + |tail| ensures (head + tail)[k] == tail[k - |head|] { }
  }

  /** With images and categories numbered 1, 2, …, numbered annotations resolve. */
  lemma NumberedResolve(images: seq<Image>, categories: seq<Category>, anns: seq<Annotation>)
    requires forall k :: 0 <= k < |images| ==> images[k].id == k + 1
    requires forall k :: 0 <= k < |categories| ==> categories[k].id == k + 1
    requires NumberedFrom(anns, 1, |images|, |categories|)
    ensures forall a :: a in anns ==> a.imageId in ImageIds(images) && a.categoryId in CategoryIds(categories)
  {
    forall a | a in anns ensures a.imageId in ImageIds(images) && a.categoryId in CategoryIds(categories) {
      assert ImageIds(images)[a.imageId - 1] == a.imageId;
      assert CategoryIds(categories)[a.categoryId - 1] == a.categoryId;
    }
  }
}
