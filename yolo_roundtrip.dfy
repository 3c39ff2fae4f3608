// One YOLO label line written for an annotation and read back
// (src/ir/io_yolo.rs). `to_cxcywh` and `from_cxcywh` are not part of this
// model: the round trip holds under the stated law that `from_cxcywh` undoes
// `to_cxcywh` on finite boxes, and for a number parser that reads the
// written numbers back as the same values.
module YoloRoundTrip {
  import opened Wrappers
  import opened BBoxes
  import opened Ir
  import opened Text
  import opened YoloLabels
  import opened YoloRead
  import opened YoloWrite

  /** The stated law: `from_cxcywh` undoes `to_cxcywh` on every finite box. */
  ghost predicate CxcywhInverse(toCxcywh: CxcywhOf, fromCxcywh: (real, real, real, real) -> BBox) {
    forall b: BBox :: b.finite ==> fromCxcywh(toCxcywh(b).0, toCxcywh(b).1, toCxcywh(b).2, toCxcywh(b).3) == b
  }

  /** The text of a label line parses back to the row it was written from. */
  predicate ReadsLine(parse: LineParser, text: string, line: YoloLine) {
    parse(text) == Ok(Some(LabelRow(line.classIndex, line.cx, line.cy, line.w, line.h)))
  }

  /**
   * An annotation with a finite box on an image of nonzero size, written as a
   * label line and read back against the same image and the written class
   * list, comes back with its pixel box, on the image the reader assigned,
   * with the category whose position in ID order is the written class index.
   */
  lemma LineRoundTrip(d: Dataset, a: Annotation, image: Image, toCxcywh: CxcywhOf,
                      fromCxcywh: (real, real, real, real) -> BBox, parse: LineParser, text: string,
                      lf: string, j: nat, meta: ImageMeta, id: nat)
    requires CxcywhInverse(toCxcywh, fromCxcywh)
    requires HasCategory(d, a.categoryId) && a.bbox.finite
    requires image.width > 0 && image.height > 0 && meta.width == image.width && meta.height == image.height
    requires ReadsLine(parse, text, LineOf(a, image, ClassMapOf(SortedCategories(d)), toCxcywh))
    ensures var index := LineOf(a, image, ClassMapOf(SortedCategories(d)), toCxcywh).classIndex;
            && index < |d.categories| && SortedCategories(d)[index].id == a.categoryId
            && LineStep(lf, j, text, meta, |d.categories|, id, parse, fromCxcywh)
                 == Ok(Some(NewAnnotation(id, meta.id, index + 1, a.bbox)))
  {
    LineClassIndex(d, a, image, toCxcywh);
    var n := ToNormalized(a.bbox, image.width as real, image.height as real);
    assert fromCxcywh(toCxcywh(n).0, toCxcywh(n).1, toCxcywh(n).2, toCxcywh(n).3) == n;
    PixelRoundTrip(a.bbox, image.width as real, image.height as real);
  }

  /**
   * The category the reader gives that annotation, `index + 1`, is named
   * from `data.yaml` after the annotation's own category, unless that name
   * is blank, when it becomes `class_<index>`.
   */
  lemma LineCategoryName(d: Dataset, a: Annotation, image: Image, toCxcywh: CxcywhOf)
    requires HasCategory(d, a.categoryId)
    ensures var index := LineOf(a, image, ClassMapOf(SortedCategories(d)), toCxcywh).classIndex;
            && index < |d.categories| && SortedCategories(d)[index].id == a.categoryId
            && (!IsBlank(SortedCategories(d)[index].name) ==> MappedName(ReadBackNames(d), index) == SortedCategories(d)[index].name)
            && (IsBlank(SortedCategories(d)[index].name) ==> MappedName(ReadBackNames(d), index) == ClassName(index))
  {
    LineClassIndex(d, a, image, toCxcywh);
    var index := LineOf(a, image, ClassMapOf(SortedCategories(d)), toCxcywh).classIndex;
    DataYamlRoundTrip(d, index);
  }
}
