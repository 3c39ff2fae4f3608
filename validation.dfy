// Dataset validation (src/validation/mod.rs). Three passes over images,
// categories and annotations push issues onto one report. Each pass is a
// method whose loop is proved to produce the issue list given by a
// specification function; the properties are lemmas about those functions.
module Validation {
  import opened Wrappers
  import opened BBoxes
  import opened Ir
  import opened ValidationReports
  import opened Seqs

  /** The bounds tolerance, in pixels, on every side of the image. */
  const TOLERANCE: real := 0.5

  /** Which codes the validator reports as warnings; all others are errors. */
  function SeverityOf(code: IssueCode): Severity {
    match code
    case EmptyFileName => Warning
    case EmptyCategoryName => Warning
    case DuplicateCategoryName => Warning
    case InvalidBBoxArea => Warning
    case _ => Error
  }

  /** Some issue in the list has the given code. */
  predicate HasCode(issues: seq<ValidationIssue>, code: IssueCode) {
    |issues| > 0 && (issues[0].code == code || HasCode(issues[1..], code))
  }

  /** Issues whose severity is the one their code calls for. */
  predicate WellGraded(issues: seq<ValidationIssue>) {
    forall k :: 0 <= k < |issues| ==> issues[k].severity == SeverityOf(issues[k].code)
  }

  /** Every issue is about `ctx`. */
  predicate AllAbout(issues: seq<ValidationIssue>, ctx: IssueContext) {
    forall k :: 0 <= k < |issues| ==> issues[k].context == ctx
  }

  /** The issue when `cond` holds, else nothing: the `if cond { report.add(..) }` shape. */
  function When(cond: bool, issue: ValidationIssue): (r: seq<ValidationIssue>)
    ensures forall code :: HasCode(r, code) <==> cond && issue.code == code
    ensures |r| <= 1
  {
    if cond then
      var r := [issue];
      assert r[1..] == [];
      r
    else []
  }

  lemma {:induction false} HasCodeConcat(a: seq<ValidationIssue>, b: seq<ValidationIssue>, code: IssueCode)
    ensures HasCode(a + b, code) <==> HasCode(a, code) || HasCode(b, code)
  {
    if |a| > 0 {
      assert (a + b)[1..] == a[1..] + b;
      HasCodeConcat(a[1..], b, code);
    } else {
      assert a + b == b;
    }
  }

  /** Grading and context are properties of each issue, so they split over `+`. */
  lemma ShapeConcat(a: seq<ValidationIssue>, b: seq<ValidationIssue>, ctx: IssueContext)
    ensures WellGraded(a + b) <==> WellGraded(a) && WellGraded(b)
    ensures AllAbout(a + b, ctx) <==> AllAbout(a, ctx) && AllAbout(b, ctx)
  {
    assert forall k :: 0 <= k < |a| ==> (a + b)[k] == a[k];
    assert forall k :: 0 <= k < |b| ==> (a + b)[k + |a|] == b[k];
  }

  // ---- images ----------------------------------------------------------

  /** The issues for one image; `repeated` says its ID was seen earlier. */
  function ImageIssuesAt(img: Image, repeated: bool): seq<ValidationIssue> {
    var ctx := ImageContext(img.id);
    When(repeated, ErrorIssue(DuplicateImageId, ctx))
    + When(img.width == 0 || img.height == 0, ErrorIssue(InvalidImageDimensions, ctx))
    + When(img.fileName == "", WarningIssue(EmptyFileName, ctx))
  }

  /** The codes one image is reported with. */
  function ImageCodes(img: Image, repeated: bool): set<IssueCode> {
    (if repeated then {DuplicateImageId} else {})
    + (if img.width == 0 || img.height == 0 then {InvalidImageDimensions} else {})
    + (if img.fileName == "" then {EmptyFileName} else {})
  }

  /**
   * A repeated ID gives DuplicateImageId, a zero side gives
   * InvalidImageDimensions and an empty file name gives EmptyFileName (a
   * warning); nothing else is reported, and every issue is about the image.
   */
  lemma ImageIssuesAtFacts(img: Image, repeated: bool)
    ensures var r := ImageIssuesAt(img, repeated);
      && (forall code :: HasCode(r, code) <==> code in ImageCodes(img, repeated))
      && WellGraded(r) && AllAbout(r, ImageContext(img.id))
  {
    var ctx := ImageContext(img.id);
    var a := When(repeated, ErrorIssue(DuplicateImageId, ctx));
    var b := When(img.width == 0 || img.height == 0, ErrorIssue(InvalidImageDimensions, ctx));
    var c := When(img.fileName == "", WarningIssue(EmptyFileName, ctx));
    forall code ensures HasCode(a + b + c, code) <==> code in ImageCodes(img, repeated) {
      HasCodeConcat(a, b, code);
      HasCodeConcat(a + b, c, code);
    }
    ShapeConcat(a, b, ctx);
    ShapeConcat(a + b, c, ctx);
  }

  /** The issues of `validate_images`, image by image. */
  function ImageIssues(images: seq<Image>): seq<ValidationIssue>
  {
    if |images| == 0 then []
    else
      var init := images[..|images| - 1];
      var img := images[|images| - 1];
      ImageIssues(init) + ImageIssuesAt(img, img.id in ImageIds(init))
  }

  /** One more image extends the issue list by that image's issues. */
  lemma ImageIssuesStep(images: seq<Image>, i: nat)
    requires i < |images|
    ensures ImageIssues(images[..i + 1])
         == ImageIssues(images[..i]) + ImageIssuesAt(images[i], images[i].id in ImageIds(images[..i]))
    ensures ImageIds(images[..i + 1]) == ImageIds(images[..i]) + [images[i].id]
  {
    var pre := images[..i + 1];
    assert pre[..i] == images[..i];
    assert pre[i] == images[i];
    assert ImageIds(pre) == ImageIds(images[..i]) + [images[i].id];
  }

  /** One image: the ID check against `earlier`, the IDs before it, then the dimension and name checks. */
  method CheckImage(image: Image, index: nat, seenIds: map<nat, nat>, ghost earlier: seq<nat>,
                    report: ValidationReport)
      returns (seen: map<nat, nat>)
    requires forall id :: id in seenIds <==> id in earlier
    modifies report
    ensures forall id :: id in seen <==> id in earlier + [image.id]
    ensures report.issues == old(report.issues) + ImageIssuesAt(image, image.id in earlier)
  {
    var id := image.id;
    var ctx := ImageContext(id);
    seen := seenIds;
    if id in seenIds {
      report.Add(ErrorIssue(DuplicateImageId, ctx));
    } else {
      seen := seenIds[id := index];
    }
    if image.width == 0 || image.height == 0 {
      report.Add(ErrorIssue(InvalidImageDimensions, ctx));
    }
    if image.fileName == "" {
      report.Add(WarningIssue(EmptyFileName, ctx));
    }
  }

  /** `validate_images`: appends `ImageIssues(d.images)` to the report. */
  method ValidateImages(d: Dataset, report: ValidationReport)
    modifies report
    ensures report.issues == old(report.issues) + ImageIssues(d.images)
  {
    ghost var start := report.issues;
    ghost var done: seq<ValidationIssue> := [];
    var seenIds: map<nat, nat> := map[];
    for i := 0 to |d.images|
      invariant forall id :: id in seenIds <==> id in ImageIds(d.images[..i])
      invariant done == ImageIssues(d.images[..i])
      invariant report.issues == start + done
    {
      ImageIssuesStep(d.images, i);
      ghost var step := ImageIssuesAt(d.images[i], d.images[i].id in ImageIds(d.images[..i]));
      seenIds := CheckImage(d.images[i], i, seenIds, ImageIds(d.images[..i]), report);
      AppendAssoc(start, done, step);
      done := done + step;
    }
    assert d.images[..|d.images|] == d.images;
  }

  // ---- categories ------------------------------------------------------

  /**
   * The issues for one category. `repeatedId` says its ID was seen before;
   * `repeatedName` says an earlier category has the same name.
   */
  function CategoryIssuesAt(c: Category, repeatedId: bool, repeatedName: bool): seq<ValidationIssue> {
    When(repeatedId, ErrorIssue(DuplicateCategoryId, CategoryContext(c.id))) + NameIssues(c, repeatedName)
  }

  /** The name check of one category: an empty name is never looked up. */
  function NameIssues(c: Category, repeatedName: bool): seq<ValidationIssue> {
    var ctx := CategoryContext(c.id);
    if c.name == "" then [WarningIssue(EmptyCategoryName, ctx)]
    else When(repeatedName, WarningIssue(DuplicateCategoryName, ctx))
  }

  /** The codes one category is reported with: an empty name is never a duplicate. */
  function CategoryCodes(c: Category, repeatedId: bool, repeatedName: bool): set<IssueCode> {
    (if repeatedId then {DuplicateCategoryId} else {})
    + (if c.name == "" then {EmptyCategoryName}
       else if repeatedName then {DuplicateCategoryName} else {})
  }

  /**
   * A repeated ID gives DuplicateCategoryId (an error); an empty name gives
   * EmptyCategoryName and a repeated non-empty name DuplicateCategoryName
   * (both warnings); nothing else is reported.
   */
  lemma CategoryIssuesAtFacts(c: Category, repeatedId: bool, repeatedName: bool)
    ensures var r := CategoryIssuesAt(c, repeatedId, repeatedName);
      && (forall code :: HasCode(r, code) <==> code in CategoryCodes(c, repeatedId, repeatedName))
      && WellGraded(r) && AllAbout(r, CategoryContext(c.id))
  {
    var ctx := CategoryContext(c.id);
    var a := When(repeatedId, ErrorIssue(DuplicateCategoryId, ctx));
    var b := if c.name == "" then When(true, WarningIssue(EmptyCategoryName, ctx))
             else When(repeatedName, WarningIssue(DuplicateCategoryName, ctx));
    assert CategoryIssuesAt(c, repeatedId, repeatedName) == a + b;
    forall code ensures HasCode(a + b, code) <==> code in CategoryCodes(c, repeatedId, repeatedName) {
      HasCodeConcat(a, b, code);
    }
    ShapeConcat(a, b, ctx);
  }

  /** The issues of `validate_categories`, category by category. */
  function CategoryIssues(categories: seq<Category>): seq<ValidationIssue>
  {
    if |categories| == 0 then []
    else
      var init := categories[..|categories| - 1];
      var c := categories[|categories| - 1];
      CategoryIssues(init) + CategoryIssuesAt(c, c.id in CategoryIds(init), c.name in CategoryNames(init))
  }

  /** One more category extends the issue list by that category's issues. */
  lemma CategoryIssuesStep(categories: seq<Category>, i: nat)
    requires i < |categories|
    ensures CategoryIssues(categories[..i + 1])
         == CategoryIssues(categories[..i])
          + CategoryIssuesAt(categories[i], categories[i].id in CategoryIds(categories[..i]),
                             categories[i].name in CategoryNames(categories[..i]))
    ensures CategoryIds(categories[..i + 1]) == CategoryIds(categories[..i]) + [categories[i].id]
    ensures CategoryNames(categories[..i + 1]) == CategoryNames(categories[..i]) + [categories[i].name]
  {
    var pre := categories[..i + 1];
    assert pre[..i] == categories[..i];
    assert pre[i] == categories[i];
    assert CategoryIds(pre) == CategoryIds(categories[..i]) + [categories[i].id];
    assert CategoryNames(pre) == CategoryNames(categories[..i]) + [categories[i].name];
  }

  /**
   * One category: the ID check against `earlierIds`, then the name check
   * against `earlierNames`; `seenNames` holds the earlier non-empty names.
   */
  method CheckCategory(c: Category, index: nat, seenIds: map<nat, nat>, seenNames: map<string, nat>,
                       ghost earlierIds: seq<nat>, ghost earlierNames: seq<string>, report: ValidationReport)
      returns (ids: map<nat, nat>, names: map<string, nat>)
    requires forall id :: id in seenIds <==> id in earlierIds
    requires forall n :: n in seenNames <==> n != "" && n in earlierNames
    modifies report
    ensures forall id :: id in ids <==> id in earlierIds + [c.id]
    ensures forall n :: n in names <==> n != "" && n in earlierNames + [c.name]
    ensures report.issues == old(report.issues) + CategoryIssuesAt(c, c.id in earlierIds, c.name in earlierNames)
  {
    var ctx := CategoryContext(c.id);
    ids, names := seenIds, seenNames;
    if c.id in seenIds {
      report.Add(ErrorIssue(DuplicateCategoryId, ctx));
    } else {
      ids := seenIds[c.id := index];
    }
    ghost var idPart := When(c.id in earlierIds, ErrorIssue(DuplicateCategoryId, ctx));
    assert report.issues == old(report.issues) + idPart;
    if c.name == "" {
      report.Add(WarningIssue(EmptyCategoryName, ctx));
    } else {
      if c.name in seenNames {
        report.Add(WarningIssue(DuplicateCategoryName, ctx));
      } else {
        names := seenNames[c.name := c.id];
      }
    }
    AppendAssoc(old(report.issues), idPart, NameIssues(c, c.name in earlierNames));
  }

  /** `validate_categories`: appends `CategoryIssues(d.categories)` to the report. */
  method ValidateCategories(d: Dataset, report: ValidationReport)
    modifies report
    ensures report.issues == old(report.issues) + CategoryIssues(d.categories)
  {
    ghost var start := report.issues;
    ghost var done: seq<ValidationIssue> := [];
    var seenIds: map<nat, nat> := map[];
    var seenNames: map<string, nat> := map[];
    for i := 0 to |d.categories|
      invariant forall id :: id in seenIds <==> id in CategoryIds(d.categories[..i])
      invariant forall n :: n in seenNames <==> n != "" && n in CategoryNames(d.categories[..i])
      invariant done == CategoryIssues(d.categories[..i])
      invariant report.issues == start + done
    {
      CategoryIssuesStep(d.categories, i);
      var c := d.categories[i];
      ghost var ids, names := CategoryIds(d.categories[..i]), CategoryNames(d.categories[..i]);
      ghost var step := CategoryIssuesAt(c, c.id in ids, c.name in names);
      seenIds, seenNames := CheckCategory(c, i, seenIds, seenNames, ids, names, report);
      AppendAssoc(start, done, step);
      done := done + step;
    }
    assert d.categories[..|d.categories|] == d.categories;
  }

  // ---- annotations -----------------------------------------------------

  /** The box lies more than the tolerance outside a `width` x `height` image. */
  predicate OutOfBounds(b: BBox, width: nat, height: nat) {
    b.xmin < -TOLERANCE || b.ymin < -TOLERANCE
    || b.xmax > width as real + TOLERANCE || b.ymax > height as real + TOLERANCE
  }

  /**
   * The geometric checks of one box. `image` is the image its annotation
   * refers to, when that ID exists (the last image with the ID, as a map
   * built by `collect()` keeps).
   */
  function BoxIssues(b: BBox, image: Option<Image>, ctx: IssueContext): seq<ValidationIssue> {
    if !b.finite then [ErrorIssue(BBoxNotFinite, ctx)]
    else FiniteBoxIssues(!IsOrdered(b), Area(b) <= 0.0,
                         image.Some? && OutOfBounds(b, image.value.width, image.value.height), ctx)
  }

  /** The checks of a finite box, given the outcome of each test, in the order they run. */
  function FiniteBoxIssues(inverted: bool, degenerate: bool, outside: bool, ctx: IssueContext): seq<ValidationIssue> {
    When(inverted, ErrorIssue(InvalidBBoxOrdering, ctx))
    + When(degenerate, WarningIssue(InvalidBBoxArea, ctx))
    + When(outside, ErrorIssue(BBoxOutOfBounds, ctx))
  }

  /**
   * The codes one box is reported with: a non-finite box gives BBoxNotFinite
   * alone; a finite one is checked for ordering, area and, only when its
   * image exists, bounds.
   */
  function BoxCodes(b: BBox, image: Option<Image>): set<IssueCode> {
    if !b.finite then {BBoxNotFinite}
    else FiniteBoxCodes(!IsOrdered(b), Area(b) <= 0.0,
                        image.Some? && OutOfBounds(b, image.value.width, image.value.height))
  }

  function FiniteBoxCodes(inverted: bool, degenerate: bool, outside: bool): set<IssueCode> {
    (if inverted then {InvalidBBoxOrdering} else {})
    + (if degenerate then {InvalidBBoxArea} else {})
    + (if outside then {BBoxOutOfBounds} else {})
  }

  /** Each failed test of a finite box is reported with its own code, severity and the box's context. */
  lemma FiniteBoxIssuesFacts(inverted: bool, degenerate: bool, outside: bool, ctx: IssueContext)
    ensures var r := FiniteBoxIssues(inverted, degenerate, outside, ctx);
      && (forall code :: HasCode(r, code) <==> code in FiniteBoxCodes(inverted, degenerate, outside))
      && WellGraded(r) && AllAbout(r, ctx)
  {
    var p := When(inverted, ErrorIssue(InvalidBBoxOrdering, ctx));
    var q := When(degenerate, WarningIssue(InvalidBBoxArea, ctx));
    var o := When(outside, ErrorIssue(BBoxOutOfBounds, ctx));
    forall code ensures HasCode(p + q + o, code) <==> code in FiniteBoxCodes(inverted, degenerate, outside) {
      HasCodeConcat(p, q, code);
      HasCodeConcat(p + q, o, code);
    }
    ShapeConcat(p, q, ctx);
    ShapeConcat(p + q, o, ctx);
  }

  lemma BoxIssuesFacts(b: BBox, image: Option<Image>, ctx: IssueContext)
    ensures forall code :: HasCode(BoxIssues(b, image, ctx), code) <==> code in BoxCodes(b, image)
    ensures !b.finite ==> |BoxIssues(b, image, ctx)| == 1
    ensures WellGraded(BoxIssues(b, image, ctx)) && AllAbout(BoxIssues(b, image, ctx), ctx)
  {
    if !b.finite {
      assert BoxIssues(b, image, ctx) == When(true, ErrorIssue(BBoxNotFinite, ctx));
    } else {
      FiniteBoxIssuesFacts(!IsOrdered(b), Area(b) <= 0.0,
                           image.Some? && OutOfBounds(b, image.value.width, image.value.height), ctx);
    }
  }

  /**
   * The identity and reference checks of one annotation; `repeated` says
   * its ID was seen earlier.
   */
  function ReferenceIssues(a: Annotation, repeated: bool, d: Dataset): seq<ValidationIssue> {
    var ctx := AnnotationContext(a.id);
    When(repeated, ErrorIssue(DuplicateAnnotationId, ctx))
    + When(!HasImage(d, a.imageId), ErrorIssue(MissingImageRef, ctx))
    + When(!HasCategory(d, a.categoryId), ErrorIssue(MissingCategoryRef, ctx))
  }

  /** The codes of the identity and reference checks. */
  function ReferenceCodes(a: Annotation, repeated: bool, d: Dataset): set<IssueCode> {
    (if repeated then {DuplicateAnnotationId} else {})
    + (if !HasImage(d, a.imageId) then {MissingImageRef} else {})
    + (if !HasCategory(d, a.categoryId) then {MissingCategoryRef} else {})
  }

  lemma ReferenceIssuesFacts(a: Annotation, repeated: bool, d: Dataset)
    ensures var r := ReferenceIssues(a, repeated, d);
      && (forall code :: HasCode(r, code) <==> code in ReferenceCodes(a, repeated, d))
      && WellGraded(r) && AllAbout(r, AnnotationContext(a.id))
  {
    var ctx := AnnotationContext(a.id);
    var p := When(repeated, ErrorIssue(DuplicateAnnotationId, ctx));
    var q := When(!HasImage(d, a.imageId), ErrorIssue(MissingImageRef, ctx));
    var c := When(!HasCategory(d, a.categoryId), ErrorIssue(MissingCategoryRef, ctx));
    forall code ensures HasCode(p + q + c, code) <==> code in ReferenceCodes(a, repeated, d) {
      HasCodeConcat(p, q, code);
      HasCodeConcat(p + q, c, code);
    }
    ShapeConcat(p, q, ctx);
    ShapeConcat(p + q, c, ctx);
  }

  /** The issues for one annotation: its references, then its box. */
  function AnnotationIssuesAt(a: Annotation, repeated: bool, d: Dataset): seq<ValidationIssue> {
    ReferenceIssues(a, repeated, d) + BoxIssues(a.bbox, LookupImage(d.images, a.imageId), AnnotationContext(a.id))
  }

  /**
   * A repeated ID, a missing image and a missing category each give their
   * error, followed by the box codes.
   */
  lemma AnnotationIssuesAtFacts(a: Annotation, repeated: bool, d: Dataset)
    ensures var r := AnnotationIssuesAt(a, repeated, d);
      && (forall code :: HasCode(r, code) <==>
            code in ReferenceCodes(a, repeated, d) + BoxCodes(a.bbox, LookupImage(d.images, a.imageId)))
      && WellGraded(r) && AllAbout(r, AnnotationContext(a.id))
  {
    var ctx := AnnotationContext(a.id);
    var image := LookupImage(d.images, a.imageId);
    var refs := ReferenceIssues(a, repeated, d);
    var box := BoxIssues(a.bbox, image, ctx);
    ReferenceIssuesFacts(a, repeated, d);
    BoxIssuesFacts(a.bbox, image, ctx);
    forall code ensures HasCode(refs + box, code) <==> code in ReferenceCodes(a, repeated, d) + BoxCodes(a.bbox, image) {
      HasCodeConcat(refs, box, code);
    }
    ShapeConcat(refs, box, ctx);
  }

  /** Bounds are checked only against an image that exists. */
  lemma BoundsNeedImage(a: Annotation, repeated: bool, d: Dataset)
    ensures HasCode(AnnotationIssuesAt(a, repeated, d), BBoxOutOfBounds) ==> HasImage(d, a.imageId)
  {
    var ctx := AnnotationContext(a.id);
    var image := LookupImage(d.images, a.imageId);
    var refs := ReferenceIssues(a, repeated, d);
    var box := BoxIssues(a.bbox, image, ctx);
    ReferenceIssuesFacts(a, repeated, d);
    BoxIssuesFacts(a.bbox, image, ctx);
    HasCodeConcat(refs, box, BBoxOutOfBounds);
    assert !HasCode(refs, BBoxOutOfBounds);
    if HasCode(box, BBoxOutOfBounds) {
      assert BBoxOutOfBounds in BoxCodes(a.bbox, image);
    }
  }

  function AnnotationIds(annotations: seq<Annotation>): (ids: seq<nat>)
    ensures |ids| == |annotations| && forall k :: 0 <= k < |annotations| ==> ids[k] == annotations[k].id
  {
    seq(|annotations|, k requires 0 <= k < |annotations| => annotations[k].id)
  }

  /** The issues of `validate_annotations` for the first annotations `anns`. */
  function AnnotationIssues(anns: seq<Annotation>, d: Dataset): seq<ValidationIssue>
  {
    if |anns| == 0 then []
    else
      var init := anns[..|anns| - 1];
      var a := anns[|anns| - 1];
      AnnotationIssues(init, d) + AnnotationIssuesAt(a, a.id in AnnotationIds(init), d)
  }

  /** One more annotation extends the issue list by that annotation's issues. */
  lemma AnnotationIssuesStep(anns: seq<Annotation>, i: nat, d: Dataset)
    requires i < |anns|
    ensures AnnotationIssues(anns[..i + 1], d)
         == AnnotationIssues(anns[..i], d) + AnnotationIssuesAt(anns[i], anns[i].id in AnnotationIds(anns[..i]), d)
    ensures AnnotationIds(anns[..i + 1]) == AnnotationIds(anns[..i]) + [anns[i].id]
  {
    var pre := anns[..i + 1];
    assert pre[..i] == anns[..i];
    assert pre[i] == anns[i];
    assert AnnotationIds(pre) == AnnotationIds(anns[..i]) + [anns[i].id];
  }

  /** The box checks of one annotation; a non-finite box stops after its error. */
  method CheckBox(bbox: BBox, image: Option<Image>, ctx: IssueContext, report: ValidationReport)
    modifies report
    ensures report.issues == old(report.issues) + BoxIssues(bbox, image, ctx)
  {
    if !bbox.finite {
      report.Add(ErrorIssue(BBoxNotFinite, ctx));
      return;
    }
    var inverted := !IsOrdered(bbox);
    var degenerate := Area(bbox) <= 0.0;
    var outside := image.Some? && OutOfBounds(bbox, image.value.width, image.value.height);
    if inverted {
      report.Add(ErrorIssue(InvalidBBoxOrdering, ctx));
    }
    ghost var o1 := When(inverted, ErrorIssue(InvalidBBoxOrdering, ctx));
    assert report.issues == old(report.issues) + o1;
    if degenerate {
      report.Add(WarningIssue(InvalidBBoxArea, ctx));
    }
    ghost var o2 := When(degenerate, WarningIssue(InvalidBBoxArea, ctx));
    assert report.issues == old(report.issues) + o1 + o2;
    if outside {
      report.Add(ErrorIssue(BBoxOutOfBounds, ctx));
    }
    AppendAssoc(old(report.issues), o1, o2);
    AppendAssoc(old(report.issues), o1 + o2, When(outside, ErrorIssue(BBoxOutOfBounds, ctx)));
  }

  /**
   * One annotation: the ID check against `earlier`, the IDs before it, the
   * two reference checks against the ID sets, then the box checks.
   */
  method CheckAnnotation(annotation: Annotation, index: nat, seenIds: map<nat, nat>, ghost earlier: seq<nat>,
                         d: Dataset, imageIds: set<nat>, categoryIds: set<nat>, report: ValidationReport)
      returns (seen: map<nat, nat>)
    requires forall id :: id in seenIds <==> id in earlier
    requires forall id :: id in imageIds <==> HasImage(d, id)
    requires forall id :: id in categoryIds <==> HasCategory(d, id)
    modifies report
    ensures forall id :: id in seen <==> id in earlier + [annotation.id]
    ensures report.issues == old(report.issues) + AnnotationIssuesAt(annotation, annotation.id in earlier, d)
  {
    var id := annotation.id;
    var ctx := AnnotationContext(id);
    seen := seenIds;
    if id in seenIds {
      report.Add(ErrorIssue(DuplicateAnnotationId, ctx));
    } else {
      seen := seenIds[id := index];
    }
    if annotation.imageId !in imageIds {
      report.Add(ErrorIssue(MissingImageRef, ctx));
    }
    if annotation.categoryId !in categoryIds {
      report.Add(ErrorIssue(MissingCategoryRef, ctx));
    }
    ghost var refs := ReferenceIssues(annotation, id in earlier, d);
    assert report.issues == old(report.issues) + refs;
    var image := LookupImage(d.images, annotation.imageId);
    CheckBox(annotation.bbox, image, ctx, report);
    AppendAssoc(old(report.issues), refs, BoxIssues(annotation.bbox, image, ctx));
  }

  /** `validate_annotations`: appends `AnnotationIssues(d.annotations, d)` to the report. */
  method ValidateAnnotations(d: Dataset, imageIds: set<nat>, categoryIds: set<nat>, report: ValidationReport)
    requires forall id :: id in imageIds <==> HasImage(d, id)
    requires forall id :: id in categoryIds <==> HasCategory(d, id)
    modifies report
    ensures report.issues == old(report.issues) + AnnotationIssues(d.annotations, d)
  {
    ghost var start := report.issues;
    ghost var done: seq<ValidationIssue> := [];
    var seenIds: map<nat, nat> := map[];
    for i := 0 to |d.annotations|
      invariant forall id :: id in seenIds <==> id in AnnotationIds(d.annotations[..i])
      invariant done == AnnotationIssues(d.annotations[..i], d)
      invariant report.issues == start + done
    {
      AnnotationIssuesStep(d.annotations, i, d);
      var a := d.annotations[i];
      ghost var ids := AnnotationIds(d.annotations[..i]);
      ghost var step := AnnotationIssuesAt(a, a.id in ids, d);
      seenIds := CheckAnnotation(a, i, seenIds, ids, d, imageIds, categoryIds, report);
      AppendAssoc(start, done, step);
      done := done + step;
    }
    assert d.annotations[..|d.annotations|] == d.annotations;
  }

  // ---- whole dataset ---------------------------------------------------

  /** Every issue `validate_dataset` reports, in order. */
  function DatasetIssues(d: Dataset): seq<ValidationIssue> {
    ImageIssues(d.images) + CategoryIssues(d.categories) + AnnotationIssues(d.annotations, d)
  }

  /** `validate_dataset`: a fresh report holding exactly `DatasetIssues(d)`. */
  method ValidateDataset(d: Dataset) returns (report: ValidationReport)
    ensures fresh(report)
    ensures report.issues == DatasetIssues(d)
    ensures report.IsClean() <==> DatasetClean(d)
  {
    report := new ValidationReport();
    var imageIds := set id | id in ImageIds(d.images);
    var categoryIds := set id | id in CategoryIds(d.categories);
    ValidateImages(d, report);
    assert report.issues == ImageIssues(d.images);
    ValidateCategories(d, report);
    assert report.issues == ImageIssues(d.images) + CategoryIssues(d.categories);
    assert forall id :: id in imageIds <==> HasImage(d, id);
    assert forall id :: id in categoryIds <==> HasCategory(d, id);
    ValidateAnnotations(d, imageIds, categoryIds, report);
    NoIssuesIffClean(d);
  }

  // ---- properties --------------------------------------------------------

  /** The number of issues with the given code. */
  function CountCode(issues: seq<ValidationIssue>, code: IssueCode): (n: nat)
    ensures n <= |issues|
    ensures n == 0 <==> !HasCode(issues, code)
  {
    if |issues| == 0 then 0
    else
      var m := CountCode(issues[1..], code);
      m + if issues[0].code == code then 1 else 0
  }

  lemma {:induction false} CountCodeAppend(a: seq<ValidationIssue>, b: seq<ValidationIssue>, code: IssueCode)
    ensures CountCode(a + b, code) == CountCode(a, code) + CountCode(b, code)
  {
    if |a| == 0 {
      assert a + b == b;
    } else {
      assert (a + b)[1..] == a[1..] + b;
      CountCodeAppend(a[1..], b, code);
    }
  }

  /** The distinct IDs among `ids`. */
  function IdSet(ids: seq<nat>): (r: set<nat>)
    ensures forall id :: id in r <==> id in ids
  {
    set id | id in ids
  }

  /** One more ID adds one distinct ID exactly when it is new. */
  lemma IdSetSnoc(ids: seq<nat>, x: nat)
    ensures |IdSet(ids + [x])| == |IdSet(ids)| + if x in ids then 0 else 1
  {
    assert IdSet(ids + [x]) == IdSet(ids) + {x};
  }

  /** One image gives a DuplicateImageId error exactly when its ID is repeated. */
  lemma DuplicateImageIdAt(img: Image, repeated: bool)
    ensures CountCode(ImageIssuesAt(img, repeated), DuplicateImageId) == if repeated then 1 else 0
  {
    var ctx := ImageContext(img.id);
    var a := When(repeated, ErrorIssue(DuplicateImageId, ctx));
    var b := When(img.width == 0 || img.height == 0, ErrorIssue(InvalidImageDimensions, ctx));
    var c := When(img.fileName == "", WarningIssue(EmptyFileName, ctx));
    CountCodeAppend(a + b, c, DuplicateImageId);
    CountCodeAppend(a, b, DuplicateImageId);
  }

  /**
   * Each image whose ID appeared earlier gives exactly one DuplicateImageId
   * error and the first occurrence gives none, so the errors number the
   * images minus the distinct IDs.
   */
  lemma {:induction false} DuplicateImageIdCount(images: seq<Image>)
    ensures CountCode(ImageIssues(images), DuplicateImageId) == |images| - |IdSet(ImageIds(images))|
  {
    if |images| == 0 {
      assert IdSet(ImageIds(images)) == {};
    } else {
      var n := |images| - 1;
      var init := images[..n];
      var img := images[n];
      var repeated := img.id in ImageIds(init);
      DuplicateImageIdCount(init);
      ImageIssuesStep(images, n);
      assert images[..n + 1] == images;
      CountCodeAppend(ImageIssues(init), ImageIssuesAt(img, repeated), DuplicateImageId);
      DuplicateImageIdAt(img, repeated);
      IdSetSnoc(ImageIds(init), img.id);
    }
  }

  /** An image that passes every per-image check. */
  predicate ImageOk(img: Image) {
    img.width > 0 && img.height > 0 && img.fileName != ""
  }

  predicate AllImagesOk(images: seq<Image>) {
    forall k :: 0 <= k < |images| ==> ImageOk(images[k])
  }

  lemma AllImagesOkSnoc(images: seq<Image>, n: nat)
    requires n == |images| - 1
    ensures AllImagesOk(images) <==> AllImagesOk(images[..n]) && ImageOk(images[n])
  {
    assert forall k :: 0 <= k < n ==> images[..n][k] == images[k];
  }

  lemma ImageIssuesAtEmpty(img: Image, repeated: bool)
    ensures ImageIssuesAt(img, repeated) == [] <==> !repeated && ImageOk(img)
  {
  }

  /** `validate_images` reports nothing iff the IDs are unique and every image passes. */
  lemma {:induction false} ImageIssuesEmpty(images: seq<Image>)
    ensures ImageIssues(images) == [] <==> Distinct(ImageIds(images)) && AllImagesOk(images)
  {
    if |images| > 0 {
      var n := |images| - 1;
      var repeated := images[n].id in ImageIds(images[..n]);
      ImageIssuesEmpty(images[..n]);
      ImageIssuesStep(images, n);
      assert images[..n + 1] == images;
      assert ImageIssues(images) == ImageIssues(images[..n]) + ImageIssuesAt(images[n], repeated);
      ImageIssuesAtEmpty(images[n], repeated);
      DistinctSnoc(ImageIds(images[..n]), images[n].id);
      AllImagesOkSnoc(images, n);
    }
  }

  /** Every category has a non-empty name. */
  predicate AllCategoriesNamed(categories: seq<Category>) {
    forall k :: 0 <= k < |categories| ==> categories[k].name != ""
  }

  lemma AllCategoriesNamedSnoc(categories: seq<Category>, n: nat)
    requires n == |categories| - 1
    ensures AllCategoriesNamed(categories) <==> AllCategoriesNamed(categories[..n]) && categories[n].name != ""
  {
    assert forall k :: 0 <= k < n ==> categories[..n][k] == categories[k];
  }

  lemma CategoryIssuesAtEmpty(c: Category, repeatedId: bool, repeatedName: bool)
    ensures CategoryIssuesAt(c, repeatedId, repeatedName) == [] <==> !repeatedId && c.name != "" && !repeatedName
  {
  }

  /** `validate_categories` reports nothing iff IDs and names are unique and no name is empty. */
  lemma {:induction false} CategoryIssuesEmpty(categories: seq<Category>)
    ensures CategoryIssues(categories) == [] <==>
      Distinct(CategoryIds(categories)) && Distinct(CategoryNames(categories)) && AllCategoriesNamed(categories)
  {
    if |categories| > 0 {
      var n := |categories| - 1;
      var c := categories[n];
      var repeatedId := c.id in CategoryIds(categories[..n]);
      var repeatedName := c.name in CategoryNames(categories[..n]);
      CategoryIssuesEmpty(categories[..n]);
      CategoryIssuesStep(categories, n);
      assert categories[..n + 1] == categories;
      assert CategoryIssues(categories) == CategoryIssues(categories[..n]) + CategoryIssuesAt(c, repeatedId, repeatedName);
      CategoryIssuesAtEmpty(c, repeatedId, repeatedName);
      DistinctSnoc(CategoryIds(categories[..n]), c.id);
      DistinctSnoc(CategoryNames(categories[..n]), c.name);
      AllCategoriesNamedSnoc(categories, n);
    }
  }

  /** A box that passes the geometric checks against `image`. */
  predicate BoxOk(b: BBox, image: Option<Image>) {
    b.finite && IsOrdered(b) && Area(b) > 0.0
    && !(image.Some? && OutOfBounds(b, image.value.width, image.value.height))
  }

  /** An annotation whose references resolve and whose box passes against its image. */
  predicate AnnotationOk(a: Annotation, d: Dataset) {
    HasImage(d, a.imageId) && HasCategory(d, a.categoryId)
    && BoxOk(a.bbox, LookupImage(d.images, a.imageId))
  }

  predicate AllAnnotationsOk(anns: seq<Annotation>, d: Dataset) {
    forall k :: 0 <= k < |anns| ==> AnnotationOk(anns[k], d)
  }

  lemma AllAnnotationsOkSnoc(anns: seq<Annotation>, n: nat, d: Dataset)
    requires n == |anns| - 1
    ensures AllAnnotationsOk(anns, d) <==> AllAnnotationsOk(anns[..n], d) && AnnotationOk(anns[n], d)
  {
    assert forall k :: 0 <= k < n ==> anns[..n][k] == anns[k];
  }

  lemma AnnotationIssuesAtEmpty(a: Annotation, repeated: bool, d: Dataset)
    ensures AnnotationIssuesAt(a, repeated, d) == [] <==> !repeated && AnnotationOk(a, d)
  {
    var ctx := AnnotationContext(a.id);
    var image := LookupImage(d.images, a.imageId);
    assert |AnnotationIssuesAt(a, repeated, d)| == |ReferenceIssues(a, repeated, d)| + |BoxIssues(a.bbox, image, ctx)|;
  }

  /** `validate_annotations` reports nothing iff the IDs are unique and every annotation passes. */
  lemma {:induction false} AnnotationIssuesEmpty(anns: seq<Annotation>, d: Dataset)
    ensures AnnotationIssues(anns, d) == [] <==> Distinct(AnnotationIds(anns)) && AllAnnotationsOk(anns, d)
  {
    if |anns| > 0 {
      var n := |anns| - 1;
      var repeated := anns[n].id in AnnotationIds(anns[..n]);
      AnnotationIssuesEmpty(anns[..n], d);
      AnnotationIssuesStep(anns, n, d);
      assert anns[..n + 1] == anns;
      assert AnnotationIssues(anns, d) == AnnotationIssues(anns[..n], d) + AnnotationIssuesAt(anns[n], repeated, d);
      AnnotationIssuesAtEmpty(anns[n], repeated, d);
      DistinctSnoc(AnnotationIds(anns[..n]), anns[n].id);
      AllAnnotationsOkSnoc(anns, n, d);
    }
  }

  /**
   * A dataset with unique IDs and names, positive dimensions, non-empty
   * names, resolved references and finite, ordered, positive-area,
   * in-bounds boxes.
   */
  predicate DatasetClean(d: Dataset) {
    && Distinct(ImageIds(d.images)) && AllImagesOk(d.images)
    && Distinct(CategoryIds(d.categories)) && Distinct(CategoryNames(d.categories))
    && AllCategoriesNamed(d.categories)
    && Distinct(AnnotationIds(d.annotations)) && AllAnnotationsOk(d.annotations, d)
  }

  /** Validation reports no issue at all exactly for a clean dataset. */
  lemma NoIssuesIffClean(d: Dataset)
    ensures DatasetIssues(d) == [] <==> DatasetClean(d)
  {
    ImageIssuesEmpty(d.images);
    CategoryIssuesEmpty(d.categories);
    AnnotationIssuesEmpty(d.annotations, d);
  }

  /** Every issue of `validate_images` has the severity its code calls for. */
  lemma {:induction false} ImageIssuesWellGraded(images: seq<Image>)
    ensures WellGraded(ImageIssues(images))
  {
    if |images| > 0 {
      var n := |images| - 1;
      ImageIssuesWellGraded(images[..n]);
      ImageIssuesAtFacts(images[n], images[n].id in ImageIds(images[..n]));
      ShapeConcat(ImageIssues(images[..n]), ImageIssuesAt(images[n], images[n].id in ImageIds(images[..n])), DatasetContext);
    }
  }

  lemma {:induction false} CategoryIssuesWellGraded(categories: seq<Category>)
    ensures WellGraded(CategoryIssues(categories))
  {
    if |categories| > 0 {
      var n := |categories| - 1;
      var c := categories[n];
      CategoryIssuesWellGraded(categories[..n]);
      CategoryIssuesAtFacts(c, c.id in CategoryIds(categories[..n]), c.name in CategoryNames(categories[..n]));
      ShapeConcat(CategoryIssues(categories[..n]),
                  CategoryIssuesAt(c, c.id in CategoryIds(categories[..n]), c.name in CategoryNames(categories[..n])),
                  DatasetContext);
    }
  }

  lemma {:induction false} AnnotationIssuesWellGraded(anns: seq<Annotation>, d: Dataset)
    ensures WellGraded(AnnotationIssues(anns, d))
  {
    if |anns| > 0 {
      var n := |anns| - 1;
      AnnotationIssuesWellGraded(anns[..n], d);
      AnnotationIssuesAtFacts(anns[n], anns[n].id in AnnotationIds(anns[..n]), d);
      ShapeConcat(AnnotationIssues(anns[..n], d), AnnotationIssuesAt(anns[n], anns[n].id in AnnotationIds(anns[..n]), d),
                  DatasetContext);
    }
  }

  /**
   * Severity follows the code across the whole report: EmptyFileName,
   * EmptyCategoryName, DuplicateCategoryName and InvalidBBoxArea are
   * warnings, every other issue an error.
   */
  lemma DatasetIssuesWellGraded(d: Dataset)
    ensures WellGraded(DatasetIssues(d))
  {
    ImageIssuesWellGraded(d.images);
    CategoryIssuesWellGraded(d.categories);
    AnnotationIssuesWellGraded(d.annotations, d);
    ShapeConcat(ImageIssues(d.images), CategoryIssues(d.categories), DatasetContext);
    ShapeConcat(ImageIssues(d.images) + CategoryIssues(d.categories), AnnotationIssues(d.annotations, d), DatasetContext);
  }
}
