// The COCO JSON adapter (src/ir/io_coco_json.rs), conversion half: the
// parsed COCO document as datatypes, `coco_to_ir` and `ir_to_coco`. JSON
// parsing and printing are not modelled. The two f64 text conversions that
// carry `area` through an attribute (`{:.6}` formatting on read, `parse` on
// write) are parameters, since their rounding is IEEE behaviour.
module CocoJson {
  import opened Wrappers
  import opened BBoxes
  import opened Ir
  import opened Numbers
  import opened Sorting

  /** A `u8` as JSON decoding produces it. */
  type U8 = n: nat | n <= 255

  datatype CocoInfo = CocoInfo(
    year: Option<nat>,
    version: Option<string>,
    description: Option<string>,
    contributor: Option<string>,
    url: Option<string>,
    dateCreated: Option<string>)

  datatype CocoLicense = CocoLicense(id: nat, name: string, url: Option<string>)

  datatype CocoImage = CocoImage(
    id: nat,
    width: nat,
    height: nat,
    fileName: string,
    license: Option<nat>,
    dateCaptured: Option<string>)

  datatype CocoCategory = CocoCategory(id: nat, name: string, supercategory: Option<string>)

  /** `bbox` is `[x, y, width, height]`; segmentation is accepted and ignored, so it is absent. */
  datatype CocoAnnotation = CocoAnnotation(
    id: nat,
    imageId: nat,
    categoryId: nat,
    bbox: (real, real, real, real),
    area: Option<real>,
    iscrowd: Option<U8>,
    score: Option<real>)

  datatype CocoDataset = CocoDataset(
    info: Option<CocoInfo>,
    licenses: seq<CocoLicense>,
    images: seq<CocoImage>,
    annotations: seq<CocoAnnotation>,
    categories: seq<CocoCategory>)

  const IscrowdKey: string := "iscrowd"
  const AreaKey: string := "area"

  // ---------------------------------------------------------------- reading

  /** COCO has no dataset name: `name` is always absent after reading. */
  function ReadInfo(info: Option<CocoInfo>): (r: DatasetInfo)
    ensures r.name.None?
    ensures info.None? ==> r == DefaultInfo()
    ensures info.Some? ==> r == DatasetInfo(None, info.value.version, info.value.description, info.value.url,
                                            info.value.year, info.value.contributor, info.value.dateCreated, map[])
  {
    match info
    case None => DefaultInfo()
    case Some(i) => DatasetInfo(None, i.version, i.description, i.url, i.year, i.contributor, i.dateCreated, map[])
  }

  function ReadLicense(l: CocoLicense): License {
    License(l.id, l.name, l.url)
  }

  function ReadImage(img: CocoImage): Image {
    Image(img.id, img.fileName, img.width, img.height, img.license, img.dateCaptured, map[])
  }

  function ReadCategory(c: CocoCategory): Category {
    Category(c.id, c.name, c.supercategory)
  }

  /**
   * One annotation: the box from `[x, y, w, h]`, the score as confidence,
   * `iscrowd` as its decimal text and `area` through `formatArea` as
   * attributes, each only when present.
   */
  function ReadAnnotation(ann: CocoAnnotation, formatArea: real -> string): (a: Annotation)
    ensures a.id == ann.id && a.imageId == ann.imageId && a.categoryId == ann.categoryId
    ensures a.confidence == ann.score
    ensures IscrowdKey in a.attributes <==> ann.iscrowd.Some?
    ensures ann.iscrowd.Some? ==> a.attributes[IscrowdKey] == NatToString(ann.iscrowd.value)
    ensures AreaKey in a.attributes <==> ann.area.Some?
    ensures ann.area.Some? ==> a.attributes[AreaKey] == formatArea(ann.area.value)
    ensures |a.attributes| <= 2
  {
    var bbox := FromXywh(ann.bbox.0, ann.bbox.1, ann.bbox.2, ann.bbox.3);
    var crowd: map<string, string> :=
      if ann.iscrowd.Some? then map[IscrowdKey := NatToString(ann.iscrowd.value)] else map[];
    var attrs := if ann.area.Some? then crowd[AreaKey := formatArea(ann.area.value)] else crowd;
    Annotation(ann.id, ann.imageId, ann.categoryId, bbox, ann.score, attrs)
  }

  function ReadLicenses(ls: seq<CocoLicense>): (r: seq<License>)
    ensures |r| == |ls| && forall k :: 0 <= k < |ls| ==> r[k] == ReadLicense(ls[k])
  {
    seq(|ls|, k requires 0 <= k < |ls| => ReadLicense(ls[k]))
  }

  function ReadImages(imgs: seq<CocoImage>): (r: seq<Image>)
    ensures |r| == |imgs| && forall k :: 0 <= k < |imgs| ==> r[k] == ReadImage(imgs[k])
  {
    seq(|imgs|, k requires 0 <= k < |imgs| => ReadImage(imgs[k]))
  }

  function ReadCategories(cats: seq<CocoCategory>): (r: seq<Category>)
    ensures |r| == |cats| && forall k :: 0 <= k < |cats| ==> r[k] == ReadCategory(cats[k])
  {
    seq(|cats|, k requires 0 <= k < |cats| => ReadCategory(cats[k]))
  }

  function ReadAnnotations(anns: seq<CocoAnnotation>, formatArea: real -> string): (r: seq<Annotation>)
    ensures |r| == |anns| && forall k :: 0 <= k < |anns| ==> r[k] == ReadAnnotation(anns[k], formatArea)
  {
    seq(|anns|, k requires 0 <= k < |anns| => ReadAnnotation(anns[k], formatArea))
  }

  /** `coco_to_ir`: every list mapped element by element, in document order. */
  function CocoToIr(c: CocoDataset, formatArea: real -> string): Dataset {
    Dataset(ReadInfo(c.info), ReadLicenses(c.licenses), ReadImages(c.images),
            ReadCategories(c.categories), ReadAnnotations(c.annotations, formatArea))
  }

  /** Reading keeps every list's length, order and IDs, and never sets a dataset name. */
  lemma ReadKeepsIds(c: CocoDataset, formatArea: real -> string)
    ensures CocoToIr(c, formatArea).info.name.None?
    ensures |CocoToIr(c, formatArea).licenses| == |c.licenses|
    ensures |CocoToIr(c, formatArea).images| == |c.images|
    ensures |CocoToIr(c, formatArea).categories| == |c.categories|
    ensures |CocoToIr(c, formatArea).annotations| == |c.annotations|
    ensures forall k :: 0 <= k < |c.licenses| ==> CocoToIr(c, formatArea).licenses[k].id == c.licenses[k].id
    ensures forall k :: 0 <= k < |c.images| ==> CocoToIr(c, formatArea).images[k].id == c.images[k].id
    ensures forall k :: 0 <= k < |c.categories| ==> CocoToIr(c, formatArea).categories[k].id == c.categories[k].id
    ensures forall k :: 0 <= k < |c.annotations| ==> CocoToIr(c, formatArea).annotations[k].id == c.annotations[k].id
  {
  }

  /** `[x, y, w, h]` is read as the corners `(x, y, x + w, y + h)`. */
  lemma ReadBoxCorners(ann: CocoAnnotation, formatArea: real -> string)
    ensures ReadAnnotation(ann, formatArea).bbox
      == FromXyxy(ann.bbox.0, ann.bbox.1, ann.bbox.0 + ann.bbox.2, ann.bbox.1 + ann.bbox.3)
  {
  }

  // ---------------------------------------------------------------- writing

  /** The info block is always written, with every field but the name. */
  function WriteInfo(info: DatasetInfo): (r: CocoInfo)
    ensures ReadInfo(Some(r)) == info.(name := None, attributes := map[])
  {
    CocoInfo(info.year, info.version, info.description, info.contributor, info.url, info.dateCreated)
  }

  function WriteLicense(l: License): (r: CocoLicense)
    ensures ReadLicense(r) == l
  {
    CocoLicense(l.id, l.name, l.url)
  }

  /** Image attributes have no COCO field and are dropped. */
  function WriteImage(img: Image): (r: CocoImage)
    ensures ReadImage(r) == img.(attributes := map[])
  {
    CocoImage(img.id, img.width, img.height, img.fileName, img.licenseId, img.dateCaptured)
  }

  function WriteCategory(c: Category): (r: CocoCategory)
    ensures ReadCategory(r) == c
  {
    CocoCategory(c.id, c.name, c.supercategory)
  }

  /** The `iscrowd` attribute when it parses as a `u8`, else 0. */
  function StoredIscrowd(attributes: map<string, string>): (n: U8)
    ensures IscrowdKey !in attributes ==> n == 0
  {
    if IscrowdKey in attributes && ParseU8(attributes[IscrowdKey]).Some? then ParseU8(attributes[IscrowdKey]).value
    else 0
  }

  /** The `area` attribute when `parseF64` accepts it, else the box area. */
  function StoredArea(a: Annotation, parseF64: string -> Option<real>): (area: real)
    ensures AreaKey !in a.attributes ==> area == Area(a.bbox)
  {
    if AreaKey in a.attributes && parseF64(a.attributes[AreaKey]).Some? then parseF64(a.attributes[AreaKey]).value
    else Area(a.bbox)
  }

  /** One annotation: `bbox = (xmin, ymin, width, height)`, `confidence` as `score`, area and iscrowd always set. */
  function WriteAnnotation(a: Annotation, parseF64: string -> Option<real>): (r: CocoAnnotation)
    ensures r.id == a.id && r.imageId == a.imageId && r.categoryId == a.categoryId
    ensures r.bbox.0 == a.bbox.xmin && r.bbox.1 == a.bbox.ymin
    ensures r.bbox.0 + r.bbox.2 == a.bbox.xmax && r.bbox.1 + r.bbox.3 == a.bbox.ymax
    ensures r.score == a.confidence
    ensures r.area.Some? && r.iscrowd.Some?
  {
    CocoAnnotation(a.id, a.imageId, a.categoryId, ToXywh(a.bbox),
                   Some(StoredArea(a, parseF64)), Some(StoredIscrowd(a.attributes)), a.confidence)
  }

  predicate LicenseIdLe(p: CocoLicense, q: CocoLicense) { p.id <= q.id }
  predicate ImageIdLe(p: CocoImage, q: CocoImage) { p.id <= q.id }
  predicate CategoryIdLe(p: CocoCategory, q: CocoCategory) { p.id <= q.id }
  predicate AnnotationIdLe(p: CocoAnnotation, q: CocoAnnotation) { p.id <= q.id }

  function WriteLicenses(ls: seq<License>): (r: seq<CocoLicense>)
    ensures |r| == |ls| && forall k :: 0 <= k < |ls| ==> r[k] == WriteLicense(ls[k])
  {
    seq(|ls|, k requires 0 <= k < |ls| => WriteLicense(ls[k]))
  }

  function WriteImages(imgs: seq<Image>): (r: seq<CocoImage>)
    ensures |r| == |imgs| && forall k :: 0 <= k < |imgs| ==> r[k] == WriteImage(imgs[k])
  {
    seq(|imgs|, k requires 0 <= k < |imgs| => WriteImage(imgs[k]))
  }

  function WriteCategories(cats: seq<Category>): (r: seq<CocoCategory>)
    ensures |r| == |cats| && forall k :: 0 <= k < |cats| ==> r[k] == WriteCategory(cats[k])
  {
    seq(|cats|, k requires 0 <= k < |cats| => WriteCategory(cats[k]))
  }

  function WriteAnnotations(anns: seq<Annotation>, parseF64: string -> Option<real>): (r: seq<CocoAnnotation>)
    ensures |r| == |anns| && forall k :: 0 <= k < |anns| ==> r[k] == WriteAnnotation(anns[k], parseF64)
  {
    seq(|anns|, k requires 0 <= k < |anns| => WriteAnnotation(anns[k], parseF64))
  }

  /** `ir_to_coco`: each list mapped in order, then stably sorted by ID. */
  function IrToCoco(d: Dataset, parseF64: string -> Option<real>): CocoDataset {
    CocoDataset(
      Some(WriteInfo(d.info)),
      SortBy(WriteLicenses(d.licenses), LicenseIdLe),
      SortBy(WriteImages(d.images), ImageIdLe),
      SortBy(WriteAnnotations(d.annotations, parseF64), AnnotationIdLe),
      SortBy(WriteCategories(d.categories), CategoryIdLe))
  }

  /** Each written list is a permutation of the mapped input list, in ascending ID order. */
  lemma WriteSortedById(d: Dataset, parseF64: string -> Option<real>)
    ensures IrToCoco(d, parseF64).info.Some?
    ensures multiset(IrToCoco(d, parseF64).licenses) == multiset(WriteLicenses(d.licenses))
    ensures multiset(IrToCoco(d, parseF64).images) == multiset(WriteImages(d.images))
    ensures multiset(IrToCoco(d, parseF64).categories) == multiset(WriteCategories(d.categories))
    ensures multiset(IrToCoco(d, parseF64).annotations) == multiset(WriteAnnotations(d.annotations, parseF64))
    ensures SortedBy(IrToCoco(d, parseF64).licenses, LicenseIdLe)
    ensures SortedBy(IrToCoco(d, parseF64).images, ImageIdLe)
    ensures SortedBy(IrToCoco(d, parseF64).categories, CategoryIdLe)
    ensures SortedBy(IrToCoco(d, parseF64).annotations, AnnotationIdLe)
  {
    assert TotalPreorder(LicenseIdLe);
    assert TotalPreorder(ImageIdLe);
    assert TotalPreorder(CategoryIdLe);
    assert TotalPreorder(AnnotationIdLe);
    SortBySorted(WriteLicenses(d.licenses), LicenseIdLe);
    SortBySorted(WriteImages(d.images), ImageIdLe);
    SortBySorted(WriteCategories(d.categories), CategoryIdLe);
    SortBySorted(WriteAnnotations(d.annotations, parseF64), AnnotationIdLe);
  }

  /** Written `iscrowd` is the stored attribute when it is a `u8`, else 0; area likewise falls back to the box area. */
  lemma WriteAttributeDefaults(a: Annotation, parseF64: string -> Option<real>)
    ensures var r := WriteAnnotation(a, parseF64);
      r.iscrowd == Some(if IscrowdKey in a.attributes && ParseU8(a.attributes[IscrowdKey]).Some?
                        then ParseU8(a.attributes[IscrowdKey]).value else 0)
    ensures var r := WriteAnnotation(a, parseF64);
      r.area == Some(if AreaKey in a.attributes && parseF64(a.attributes[AreaKey]).Some?
                     then parseF64(a.attributes[AreaKey]).value else Area(a.bbox))
  {
  }

  // ------------------------------------------------------------ round trips

  /**
   * COCO -> IR -> COCO for one annotation: the box, score and IDs come back
   * unchanged, a missing `iscrowd` becomes 0, a missing `area` becomes
   * `w * h`, and a given `area` comes back through its six-decimal text.
   */
  lemma {:induction false} CocoAnnotationRoundTrip(ann: CocoAnnotation, formatArea: real -> string,
                                                   parseF64: string -> Option<real>)
    ensures WriteAnnotation(ReadAnnotation(ann, formatArea), parseF64).id == ann.id
    ensures WriteAnnotation(ReadAnnotation(ann, formatArea), parseF64).imageId == ann.imageId
    ensures WriteAnnotation(ReadAnnotation(ann, formatArea), parseF64).categoryId == ann.categoryId
    ensures WriteAnnotation(ReadAnnotation(ann, formatArea), parseF64).bbox == ann.bbox
    ensures WriteAnnotation(ReadAnnotation(ann, formatArea), parseF64).score == ann.score
    ensures WriteAnnotation(ReadAnnotation(ann, formatArea), parseF64).iscrowd
      == Some(if ann.iscrowd.Some? then ann.iscrowd.value else 0)
    ensures ann.area.None? ==>
      WriteAnnotation(ReadAnnotation(ann, formatArea), parseF64).area == Some(ann.bbox.2 * ann.bbox.3)
    ensures ann.area.Some? && parseF64(formatArea(ann.area.value)).Some? ==>
      WriteAnnotation(ReadAnnotation(ann, formatArea), parseF64).area == parseF64(formatArea(ann.area.value))
  {
    var a := ReadAnnotation(ann, formatArea);
    XywhRoundTripFromParts(ann.bbox.0, ann.bbox.1, ann.bbox.2, ann.bbox.3);
    assert Width(a.bbox) == ann.bbox.2 && Height(a.bbox) == ann.bbox.3;
    if ann.area.None? {
      assert StoredArea(a, parseF64) == Area(a.bbox) == ann.bbox.2 * ann.bbox.3;
    }
    if ann.iscrowd.Some? {
      ParseUnsignedNatToString(ann.iscrowd.value, U8_MAX);
      assert ParseU8(a.attributes[IscrowdKey]) == Some(ann.iscrowd.value);
    }
  }

  /**
   * IR -> COCO -> IR for one annotation: IDs, finite box and confidence come
   * back unchanged.
   */
  lemma IrAnnotationRoundTrip(a: Annotation, formatArea: real -> string, parseF64: string -> Option<real>)
    requires a.bbox.finite
    ensures ReadAnnotation(WriteAnnotation(a, parseF64), formatArea).id == a.id
    ensures ReadAnnotation(WriteAnnotation(a, parseF64), formatArea).imageId == a.imageId
    ensures ReadAnnotation(WriteAnnotation(a, parseF64), formatArea).categoryId == a.categoryId
    ensures ReadAnnotation(WriteAnnotation(a, parseF64), formatArea).bbox == a.bbox
    ensures ReadAnnotation(WriteAnnotation(a, parseF64), formatArea).confidence == a.confidence
  {
    XywhRoundTrip(a.bbox);
  }

  /** Licenses already in ascending ID order are written in that order and read back unchanged. */
  lemma IrRoundTripLicenses(d: Dataset, formatArea: real -> string, parseF64: string -> Option<real>)
    requires forall i, j :: 0 <= i < j < |d.licenses| ==> d.licenses[i].id <= d.licenses[j].id
    ensures CocoToIr(IrToCoco(d, parseF64), formatArea).licenses == d.licenses
  {
    var written := WriteLicenses(d.licenses);
    assert SortedBy(written, LicenseIdLe);
    SortBySortedInput(written, LicenseIdLe);
    assert CocoToIr(IrToCoco(d, parseF64), formatArea).licenses == ReadLicenses(written);
  }

  /** Categories already in ascending ID order are written in that order and read back unchanged. */
  lemma IrRoundTripCategories(d: Dataset, formatArea: real -> string, parseF64: string -> Option<real>)
    requires forall i, j :: 0 <= i < j < |d.categories| ==> d.categories[i].id <= d.categories[j].id
    ensures CocoToIr(IrToCoco(d, parseF64), formatArea).categories == d.categories
  {
    var written := WriteCategories(d.categories);
    assert SortedBy(written, CategoryIdLe);
    SortBySortedInput(written, CategoryIdLe);
    assert CocoToIr(IrToCoco(d, parseF64), formatArea).categories == ReadCategories(written);
  }

  /** Images already in ascending ID order come back in that order, without their attributes. */
  lemma IrRoundTripImages(d: Dataset, formatArea: real -> string, parseF64: string -> Option<real>)
    requires forall i, j :: 0 <= i < j < |d.images| ==> d.images[i].id <= d.images[j].id
    ensures |CocoToIr(IrToCoco(d, parseF64), formatArea).images| == |d.images|
    ensures forall k :: 0 <= k < |d.images| ==>
      CocoToIr(IrToCoco(d, parseF64), formatArea).images[k] == d.images[k].(attributes := map[])
  {
    var written := WriteImages(d.images);
    assert SortedBy(written, ImageIdLe);
    SortBySortedInput(written, ImageIdLe);
    assert CocoToIr(IrToCoco(d, parseF64), formatArea).images == ReadImages(written);
  }

  /**
   * Annotations already in ascending ID order come back in that order with
   * their IDs, finite boxes and confidences.
   */
  lemma IrRoundTripAnnotations(d: Dataset, formatArea: real -> string, parseF64: string -> Option<real>)
    requires forall i, j :: 0 <= i < j < |d.annotations| ==> d.annotations[i].id <= d.annotations[j].id
    requires forall k :: 0 <= k < |d.annotations| ==> d.annotations[k].bbox.finite
    ensures |CocoToIr(IrToCoco(d, parseF64), formatArea).annotations| == |d.annotations|
    ensures forall k :: 0 <= k < |d.annotations| ==>
      CocoToIr(IrToCoco(d, parseF64), formatArea).annotations[k].id == d.annotations[k].id
    ensures forall k :: 0 <= k < |d.annotations| ==>
      CocoToIr(IrToCoco(d, parseF64), formatArea).annotations[k].bbox == d.annotations[k].bbox
    ensures forall k :: 0 <= k < |d.annotations| ==>
      CocoToIr(IrToCoco(d, parseF64), formatArea).annotations[k].confidence == d.annotations[k].confidence
  {
    var written := WriteAnnotations(d.annotations, parseF64);
    assert SortedBy(written, AnnotationIdLe);
    SortBySortedInput(written, AnnotationIdLe);
    var back := CocoToIr(IrToCoco(d, parseF64), formatArea).annotations;
    assert back == ReadAnnotations(written, formatArea);
    forall k | 0 <= k < |d.annotations|
      ensures back[k].id == d.annotations[k].id
      ensures back[k].bbox == d.annotations[k].bbox
      ensures back[k].confidence == d.annotations[k].confidence
    {
      IrAnnotationRoundTrip(d.annotations[k], formatArea, parseF64);
    }
  }
}
