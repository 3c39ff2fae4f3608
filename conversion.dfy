// The lossiness analyser (src/conversion/mod.rs). For a dataset and a
// source/target format pair it records input and output counts, one warning
// per kind of information the target cannot hold, and info notes for the
// reader's and the writer's policies. Each `analyze_to_*`/`add_*_policy`
// function is a method appending to the report; the list it appends is given
// by a specification function, and the properties are lemmas about those.
//
// `DatasetInfo::is_empty` is not part of this model: it is the parameter
// `isEmpty`, about which nothing is assumed.
module Conversion {
  import opened Wrappers
  import opened Ir
  import opened Seqs
  import opened Text
  import opened Numbers
  import opened ConversionReports

  datatype Format = IrJson | Coco | Cvat | LabelStudio | Tfod | Yolo | Voc | HfImagefolder

  datatype IrLossiness = Lossless | Conditional | Lossy

  /** `Format::name`: the name recorded in a report; distinct formats have distinct names. */
  function Name(f: Format): (n: string)
    ensures |n| > 0
  {
    match f
    case IrJson => "ir-json"
    case Coco => "coco"
    case Cvat => "cvat"
    case LabelStudio => "label-studio"
    case Tfod => "tfod"
    case Yolo => "yolo"
    case Voc => "voc"
    case HfImagefolder => "hf"
  }

  lemma NameInjective(f: Format, g: Format)
    requires Name(f) == Name(g)
    ensures f == g
  {
    assert Name(f)[0] == Name(g)[0];
    if f.Cvat? || f.Coco? {
      assert |Name(f)| == |Name(g)|;
      assert Name(f)[1] == Name(g)[1];
    }
  }

  /** `lossiness_relative_to_ir`: only IR JSON is lossless and only COCO conditional. */
  function LossinessRelativeToIr(f: Format): (l: IrLossiness)
    ensures l == Lossless <==> f == IrJson
    ensures l == Conditional <==> f == Coco
  {
    match f
    case IrJson => Lossless
    case Coco => Conditional
    case _ => Lossy
  }

  // ---- what each analysis looks at -----------------------------------------

  /** The single issue `issue` when `cond` holds, else nothing. */
  function Note(cond: bool, issue: ConversionIssue): seq<ConversionIssue> {
    if cond then [issue] else []
  }

  predicate HasLicenseOrDate(img: Image) {
    img.licenseId.Some? || img.dateCaptured.Some?
  }

  /** VOC keeps only a `depth` attribute that trims to a `u32`. */
  predicate HasVocUnrepresentableMetadata(img: Image) {
    HasLicenseOrDate(img)
    || exists k :: k in img.attributes && (k != "depth" || ParseU32(Trim(img.attributes[k])).None?)
  }

  predicate HasAnyImageMetadata(img: Image) {
    HasLicenseOrDate(img) || |img.attributes| > 0
  }

  predicate HasSupercategory(c: Category) {
    c.supercategory.Some?
  }

  predicate HasConfidence(a: Annotation) {
    a.confidence.Some?
  }

  predicate HasAttributes(a: Annotation) {
    |a.attributes| > 0
  }

  /** Some attribute key is not one that `keeps` accepts. */
  predicate HasKeyOutside(a: Annotation, keeps: string -> bool) {
    exists k :: k in a.attributes && !keeps(k)
  }

  predicate VocKey(k: string) {
    k == "pose" || k == "truncated" || k == "difficult" || k == "occluded"
  }

  predicate LabelStudioKey(k: string) {
    k == "ls_rotation_deg"
  }

  predicate CocoKey(k: string) {
    k == "area" || k == "iscrowd"
  }

  predicate CvatKey(k: string) {
    k == "occluded" || k == "z_order" || k == "source" || StartsWith(k, "cvat_attr_")
  }

  /** The IDs of the images some annotation refers to (a `HashSet` of them). */
  function AnnotatedImageIds(d: Dataset): set<nat> {
    set k | 0 <= k < |d.annotations| :: d.annotations[k].imageId
  }

  function UsedCategoryIds(d: Dataset): set<nat> {
    set k | 0 <= k < |d.annotations| :: d.annotations[k].categoryId
  }

  /**
   * The six drop warnings of the TFOD, YOLO, VOC, Label Studio and CVAT
   * analyses, in the order they are checked; each flag says whether its check
   * found something. The targets differ only in what each check looks for.
   */
  function DropNotes(info: bool, licenses: bool, imageMetadata: bool, supercategories: bool,
                     confidences: bool, annotationAttributes: bool): seq<ConversionIssue> {
    Note(info, WarningIssue(DropDatasetInfo))
    + Note(licenses, WarningIssue(DropLicenses))
    + Note(imageMetadata, WarningIssue(DropImageMetadata))
    + Note(supercategories, WarningIssue(DropCategorySupercategory))
    + Note(confidences, WarningIssue(DropAnnotationConfidence))
    + Note(annotationAttributes, WarningIssue(DropAnnotationAttributes))
  }

  /** The five HF checks; info and licenses share one check, and two codes are used twice. */
  function HfNotes(infoOrLicenses: bool, imageMetadata: bool, supercategories: bool,
                   confidences: bool, annotationAttributes: bool): seq<ConversionIssue> {
    Note(infoOrLicenses, WarningIssue(HfMetadataLost))
    + Note(imageMetadata, WarningIssue(HfAttributesLost))
    + Note(supercategories, WarningIssue(HfMetadataLost))
    + Note(confidences, WarningIssue(HfConfidenceLost))
    + Note(annotationAttributes, WarningIssue(HfAttributesLost))
  }

  /**
   * The outcome of every dataset check the analyses and policies run, one flag
   * each ("some item matched"). Each target consults its own selection of them.
   */
  datatype Checks = Checks(
    infoNonEmpty: bool, hasLicenses: bool, hasName: bool,
    licenseOrDate: bool, vocImageMetadata: bool, anyImageMetadata: bool, unannotatedImages: bool,
    supercategories: bool, confidences: bool, attributes: bool,
    nonVocKeys: bool, nonLabelStudioKeys: bool, nonCocoKeys: bool, nonCvatKeys: bool,
    nonRgbDepth: bool, rotation: bool, fromToDefaults: bool)

  /** The checks evaluated on a dataset, as the analyses count (`filter(..).count() > 0`). */
  function ChecksOf(d: Dataset, isEmpty: DatasetInfo -> bool): Checks {
    var annotated := AnnotatedImageIds(d);
    Checks(
      !isEmpty(d.info), |d.licenses| > 0, d.info.name.Some?,
      CountIf(d.images, HasLicenseOrDate) > 0,
      CountIf(d.images, HasVocUnrepresentableMetadata) > 0,
      CountIf(d.images, HasAnyImageMetadata) > 0,
      CountIf(d.images, (img: Image) => img.id !in annotated) > 0,
      CountIf(d.categories, HasSupercategory) > 0,
      CountIf(d.annotations, HasConfidence) > 0,
      CountIf(d.annotations, HasAttributes) > 0,
      CountIf(d.annotations, (a: Annotation) => HasKeyOutside(a, VocKey)) > 0,
      CountIf(d.annotations, (a: Annotation) => HasKeyOutside(a, LabelStudioKey)) > 0,
      CountIf(d.annotations, (a: Annotation) => HasKeyOutside(a, CocoKey)) > 0,
      CountIf(d.annotations, (a: Annotation) => HasKeyOutside(a, CvatKey)) > 0,
      HasNonRgbDepth(d), HasRotation(d), UsesFromToDefaults(d))
  }

  /** The six plain checks, as the TFOD and YOLO analyses run them. */
  function PlainDrops(c: Checks): seq<ConversionIssue> {
    DropNotes(c.infoNonEmpty, c.hasLicenses, c.licenseOrDate, c.supercategories, c.confidences, c.attributes)
  }

  /** What `analyze_to_tfod` appends: the plain checks, then images no annotation refers to. */
  function TfodIssues(c: Checks): seq<ConversionIssue> {
    PlainDrops(c) + Note(c.unannotatedImages, WarningIssue(DropImagesWithoutAnnotations))
  }

  /** What `analyze_to_voc` appends: a `depth` that parses and four annotation keys survive. */
  function VocIssues(c: Checks): seq<ConversionIssue> {
    DropNotes(c.infoNonEmpty, c.hasLicenses, c.vocImageMetadata, c.supercategories, c.confidences, c.nonVocKeys)
  }

  /** What `analyze_to_label_studio` appends: there is no confidence check. */
  function LabelStudioIssues(c: Checks): seq<ConversionIssue> {
    DropNotes(c.infoNonEmpty, c.hasLicenses, c.licenseOrDate, c.supercategories, false, c.nonLabelStudioKeys)
  }

  /** What `analyze_to_coco` appends: only the name and unusual attributes are at risk. */
  function CocoIssues(c: Checks): seq<ConversionIssue> {
    Note(c.hasName, WarningIssue(DropDatasetInfoName))
    + Note(c.nonCocoKeys, WarningIssue(CocoAttributesMayNotBePreserved))
  }

  /** What `analyze_to_hf` appends: its own codes, info and licenses sharing one check. */
  function HfIssues(c: Checks): seq<ConversionIssue> {
    HfNotes(c.infoNonEmpty || c.hasLicenses, c.anyImageMetadata, c.supercategories, c.confidences, c.attributes)
  }

  /** What `analyze_to_cvat` appends: image attributes count as metadata. */
  function CvatIssues(c: Checks): seq<ConversionIssue> {
    DropNotes(c.infoNonEmpty, c.hasLicenses, c.anyImageMetadata, c.supercategories, c.confidences, c.nonCvatKeys)
  }

  /** The warnings the target analysis of `build_conversion_report` appends, per target format. */
  function TargetIssues(c: Checks, to: Format): seq<ConversionIssue> {
    match to
    case Tfod => TfodIssues(c)
    case Yolo => PlainDrops(c)
    case Voc => VocIssues(c)
    case LabelStudio => LabelStudioIssues(c)
    case Coco => CocoIssues(c)
    case IrJson => []
    case HfImagefolder => HfIssues(c)
    case Cvat => CvatIssues(c)
  }

  function InputCounts(d: Dataset): ConversionCounts {
    ConversionCounts(|d.images|, |d.categories|, |d.annotations|)
  }

  /** The output counts: TFOD writes only annotated images and used categories; every other target keeps all. */
  function OutputCounts(d: Dataset, to: Format): ConversionCounts {
    if to == Tfod then ConversionCounts(|AnnotatedImageIds(d)|, |UsedCategoryIds(d)|, |d.annotations|)
    else InputCounts(d)
  }

  /** A VOC image whose `depth` attribute parses (untrimmed) to a `u32` other than 3. */
  predicate HasNonRgbDepth(d: Dataset) {
    exists k :: 0 <= k < |d.images| && "depth" in d.images[k].attributes
      && var v := ParseU32(d.images[k].attributes["depth"]); v.Some? && v.value != 3
  }

  predicate HasRotation(d: Dataset) {
    exists k :: 0 <= k < |d.annotations| && "ls_rotation_deg" in d.annotations[k].attributes
  }

  /** Some image lacks `ls_from_name` or `ls_to_name`, so the writer falls back to its defaults. */
  predicate UsesFromToDefaults(d: Dataset) {
    exists k :: 0 <= k < |d.images|
      && ("ls_from_name" !in d.images[k].attributes || "ls_to_name" !in d.images[k].attributes)
  }

  /** The notes `add_*_reader_policy` appends for a source format. */
  function ReaderPolicy(from: Format, c: Checks): seq<ConversionIssue> {
    match from
    case Tfod => [InfoIssue(TfodReaderIdAssignment)]
    case Yolo => [InfoIssue(YoloReaderIdAssignment), InfoIssue(YoloReaderClassMapSource)]
    case Voc =>
      [InfoIssue(VocReaderIdAssignment), InfoIssue(VocReaderAttributeMapping), InfoIssue(VocReaderCoordinatePolicy)]
      + Note(c.nonRgbDepth, InfoIssue(VocReaderDepthHandling))
    case LabelStudio =>
      [InfoIssue(LabelStudioReaderIdAssignment), InfoIssue(LabelStudioReaderImageRefPolicy)]
      + Note(c.rotation, WarningIssue(LabelStudioRotationDropped))
    case Cvat => [InfoIssue(CvatReaderIdAssignment), InfoIssue(CvatReaderAttributePolicy)]
    case HfImagefolder => [InfoIssue(HfReaderCategoryResolution)]
    case Coco => []
    case IrJson => []
  }

  /** The notes `add_*_writer_policy` appends for a target format. */
  function WriterPolicy(to: Format, c: Checks): seq<ConversionIssue> {
    match to
    case Tfod => [InfoIssue(TfodWriterRowOrder)]
    case Yolo => [InfoIssue(YoloWriterClassOrder), InfoIssue(YoloWriterEmptyLabelFiles), InfoIssue(YoloWriterFloatPrecision)]
    case Voc => [InfoIssue(VocWriterFileLayout), InfoIssue(VocWriterNoImageCopy), InfoIssue(VocWriterBoolNormalization)]
    case LabelStudio => Note(c.fromToDefaults, InfoIssue(LabelStudioWriterFromToDefaults))
    case Cvat => [InfoIssue(CvatWriterMetaDefaults)]
    case HfImagefolder => [InfoIssue(HfWriterDeterministicOrder)]
    case Coco => []
    case IrJson => []
  }

  /** Every issue `build_conversion_report` records, in order. */
  function ReportIssues(c: Checks, from: Format, to: Format): seq<ConversionIssue> {
    TargetIssues(c, to) + (ReaderPolicy(from, c) + WriterPolicy(to, c))
  }

  // ---- the imperative analysers --------------------------------------------

  /** `if cond { report.add(issue) }`, tracked against the issues appended since `start`. */
  method AddIf(report: ConversionReport, cond: bool, issue: ConversionIssue,
               ghost start: seq<ConversionIssue>, ghost before: seq<ConversionIssue>)
      returns (ghost after: seq<ConversionIssue>)
    requires report.issues == start + before
    modifies report`issues
    ensures after == before + Note(cond, issue)
    ensures before == [] ==> after == Note(cond, issue)
    ensures report.issues == start + after
  {
    if cond {
      report.Add(issue);
    }
    after := before + Note(cond, issue);
    assert before == [] ==> after == Note(cond, issue);
    AppendAssoc(start, before, Note(cond, issue));
  }

  /** The six `if <check found something> { report.add(warning) }` steps of the drop analyses. */
  method AddDropNotes(report: ConversionReport, info: bool, licenses: bool, imageMetadata: bool,
                      supercategories: bool, confidences: bool, annotationAttributes: bool)
    modifies report`issues
    ensures report.issues
         == old(report.issues) + DropNotes(info, licenses, imageMetadata, supercategories, confidences, annotationAttributes)
  {
    ghost var start := report.issues;
    ghost var done := AddIf(report, info, WarningIssue(DropDatasetInfo), start, []);
    done := AddIf(report, licenses, WarningIssue(DropLicenses), start, done);
    done := AddIf(report, imageMetadata, WarningIssue(DropImageMetadata), start, done);
    done := AddIf(report, supercategories, WarningIssue(DropCategorySupercategory), start, done);
    done := AddIf(report, confidences, WarningIssue(DropAnnotationConfidence), start, done);
    done := AddIf(report, annotationAttributes, WarningIssue(DropAnnotationAttributes), start, done);
  }

  /** The six plain checks, as `analyze_to_tfod` and `analyze_to_yolo` run them. */
  method AddPlainDrops(d: Dataset, isEmpty: DatasetInfo -> bool, report: ConversionReport)
    modifies report`issues
    ensures report.issues == old(report.issues) + PlainDrops(ChecksOf(d, isEmpty))
  {
    var imagesWithMetadata := CountIf(d.images, HasLicenseOrDate);
    var catsWithSupercategory := CountIf(d.categories, HasSupercategory);
    var annsWithConfidence := CountIf(d.annotations, HasConfidence);
    var annsWithAttributes := CountIf(d.annotations, HasAttributes);
    AddDropNotes(report, !isEmpty(d.info), |d.licenses| > 0, imagesWithMetadata > 0, catsWithSupercategory > 0,
                 annsWithConfidence > 0, annsWithAttributes > 0);
  }

  /** `analyze_to_tfod`: the plain checks, the unannotated-image check, then the reduced output counts. */
  method AnalyzeToTfod(d: Dataset, isEmpty: DatasetInfo -> bool, report: ConversionReport)
    modifies report`issues, report`output
    ensures report.issues == old(report.issues) + TfodIssues(ChecksOf(d, isEmpty))
    ensures report.output == OutputCounts(d, Tfod)
  {
    var imageIdsWithAnnotations := AnnotatedImageIds(d);
    report.output := ConversionCounts(|imageIdsWithAnnotations|, |UsedCategoryIds(d)|, |d.annotations|);
    ghost var start := report.issues;
    AddPlainDrops(d, isEmpty, report);
    var imagesWithoutAnnotations := CountIf(d.images, (img: Image) => img.id !in imageIdsWithAnnotations);
    ghost var done := AddIf(report, imagesWithoutAnnotations > 0, WarningIssue(DropImagesWithoutAnnotations),
                            start, PlainDrops(ChecksOf(d, isEmpty)));
  }

  /** `analyze_to_yolo`: the plain checks; all counts are kept. */
  method AnalyzeToYolo(d: Dataset, isEmpty: DatasetInfo -> bool, report: ConversionReport)
    modifies report`issues, report`output
    ensures report.issues == old(report.issues) + PlainDrops(ChecksOf(d, isEmpty))
    ensures report.output == old(report.input)
  {
    report.output := report.input;
    AddPlainDrops(d, isEmpty, report);
  }

  /** `analyze_to_voc`: a `depth` image attribute and the pose/truncated/difficult/occluded keys survive. */
  method AnalyzeToVoc(d: Dataset, isEmpty: DatasetInfo -> bool, report: ConversionReport)
    modifies report`issues, report`output
    ensures report.issues == old(report.issues) + VocIssues(ChecksOf(d, isEmpty))
    ensures report.output == old(report.input)
  {
    report.output := report.input;
    var imagesWithMetadata := CountIf(d.images, HasVocUnrepresentableMetadata);
    var catsWithSupercategory := CountIf(d.categories, HasSupercategory);
    var annsWithConfidence := CountIf(d.annotations, HasConfidence);
    var annsWithOtherAttrs := CountIf(d.annotations, (a: Annotation) => HasKeyOutside(a, VocKey));
    AddDropNotes(report, !isEmpty(d.info), |d.licenses| > 0, imagesWithMetadata > 0, catsWithSupercategory > 0,
                 annsWithConfidence > 0, annsWithOtherAttrs > 0);
  }

  /** `analyze_to_label_studio`: confidences survive; of the attributes only `ls_rotation_deg` does. */
  method AnalyzeToLabelStudio(d: Dataset, isEmpty: DatasetInfo -> bool, report: ConversionReport)
    modifies report`issues, report`output
    ensures report.issues == old(report.issues) + LabelStudioIssues(ChecksOf(d, isEmpty))
    ensures report.output == old(report.input)
  {
    report.output := report.input;
    var imagesWithMetadata := CountIf(d.images, HasLicenseOrDate);
    var catsWithSupercategory := CountIf(d.categories, HasSupercategory);
    var annsWithOtherAttrs := CountIf(d.annotations, (a: Annotation) => HasKeyOutside(a, LabelStudioKey));
    AddDropNotes(report, !isEmpty(d.info), |d.licenses| > 0, imagesWithMetadata > 0, catsWithSupercategory > 0,
                 false, annsWithOtherAttrs > 0);
  }

  /** `analyze_to_coco`: only the dataset name and attributes other than area/iscrowd are at risk. */
  method AnalyzeToCoco(d: Dataset, isEmpty: DatasetInfo -> bool, report: ConversionReport)
    modifies report`issues, report`output
    ensures report.issues == old(report.issues) + CocoIssues(ChecksOf(d, isEmpty))
    ensures report.output == old(report.input)
  {
    report.output := report.input;
    ghost var start := report.issues;
    ghost var done := AddIf(report, d.info.name.Some?, WarningIssue(DropDatasetInfoName), start, []);
    var annsWithOtherAttrs := CountIf(d.annotations, (a: Annotation) => HasKeyOutside(a, CocoKey));
    done := AddIf(report, annsWithOtherAttrs > 0, WarningIssue(CocoAttributesMayNotBePreserved), start, done);
  }

  /** `analyze_to_ir_json`: nothing is lost. */
  method AnalyzeToIrJson(d: Dataset, report: ConversionReport)
    modifies report`issues, report`output
    ensures report.issues == old(report.issues)
    ensures report.output == old(report.input)
  {
    report.output := report.input;
  }

  /** The five `if <check found something> { report.add(warning) }` steps of the HF analysis. */
  method AddHfNotes(report: ConversionReport, infoOrLicenses: bool, imageMetadata: bool, supercategories: bool,
                    confidences: bool, annotationAttributes: bool)
    modifies report`issues
    ensures report.issues
         == old(report.issues) + HfNotes(infoOrLicenses, imageMetadata, supercategories, confidences, annotationAttributes)
  {
    ghost var start := report.issues;
    ghost var done := AddIf(report, infoOrLicenses, WarningIssue(HfMetadataLost), start, []);
    done := AddIf(report, imageMetadata, WarningIssue(HfAttributesLost), start, done);
    done := AddIf(report, supercategories, WarningIssue(HfMetadataLost), start, done);
    done := AddIf(report, confidences, WarningIssue(HfConfidenceLost), start, done);
    done := AddIf(report, annotationAttributes, WarningIssue(HfAttributesLost), start, done);
  }

  /** `analyze_to_hf`: the HF-specific codes, info and licenses sharing one check. */
  method AnalyzeToHf(d: Dataset, isEmpty: DatasetInfo -> bool, report: ConversionReport)
    modifies report`issues, report`output
    ensures report.issues == old(report.issues) + HfIssues(ChecksOf(d, isEmpty))
    ensures report.output == old(report.input)
  {
    report.output := report.input;
    var imagesWithAttrs := CountIf(d.images, HasAnyImageMetadata);
    var catsWithSupercategory := CountIf(d.categories, HasSupercategory);
    var annsWithConfidence := CountIf(d.annotations, HasConfidence);
    var annsWithAttributes := CountIf(d.annotations, HasAttributes);
    AddHfNotes(report, !isEmpty(d.info) || |d.licenses| > 0, imagesWithAttrs > 0, catsWithSupercategory > 0,
               annsWithConfidence > 0, annsWithAttributes > 0);
  }

  /** `analyze_to_cvat`: occluded, z_order, source and `cvat_attr_*` keys survive. */
  method AnalyzeToCvat(d: Dataset, isEmpty: DatasetInfo -> bool, report: ConversionReport)
    modifies report`issues, report`output
    ensures report.issues == old(report.issues) + CvatIssues(ChecksOf(d, isEmpty))
    ensures report.output == old(report.input)
  {
    report.output := report.input;
    var imagesWithMetadata := CountIf(d.images, HasAnyImageMetadata);
    var catsWithSupercategory := CountIf(d.categories, HasSupercategory);
    var annsWithConfidence := CountIf(d.annotations, HasConfidence);
    var annsWithOtherAttrs := CountIf(d.annotations, (a: Annotation) => HasKeyOutside(a, CvatKey));
    AddDropNotes(report, !isEmpty(d.info), |d.licenses| > 0, imagesWithMetadata > 0, catsWithSupercategory > 0,
                 annsWithConfidence > 0, annsWithOtherAttrs > 0);
  }

  /** `add_tfod_reader_policy`. */
  method AddTfodReaderPolicy(report: ConversionReport)
    modifies report`issues
    ensures report.issues == old(report.issues) + [InfoIssue(TfodReaderIdAssignment)]
  {
    report.Add(InfoIssue(TfodReaderIdAssignment));
  }

  /** `add_yolo_reader_policy`. */
  method AddYoloReaderPolicy(report: ConversionReport)
    modifies report`issues
    ensures report.issues == old(report.issues) + [InfoIssue(YoloReaderIdAssignment), InfoIssue(YoloReaderClassMapSource)]
  {
    report.Add(InfoIssue(YoloReaderIdAssignment));
    report.Add(InfoIssue(YoloReaderClassMapSource));
  }

  /** `add_voc_reader_policy`: three notes, and a fourth when some `depth` parses to a value other than 3. */
  method AddVocReaderPolicy(d: Dataset, report: ConversionReport)
    modifies report`issues
    ensures report.issues == old(report.issues)
      + ([InfoIssue(VocReaderIdAssignment), InfoIssue(VocReaderAttributeMapping), InfoIssue(VocReaderCoordinatePolicy)]
         + Note(HasNonRgbDepth(d), InfoIssue(VocReaderDepthHandling)))
  {
    ghost var start := report.issues;
    report.Add(InfoIssue(VocReaderIdAssignment));
    report.Add(InfoIssue(VocReaderAttributeMapping));
    report.Add(InfoIssue(VocReaderCoordinatePolicy));
    ghost var done := [InfoIssue(VocReaderIdAssignment), InfoIssue(VocReaderAttributeMapping),
                       InfoIssue(VocReaderCoordinatePolicy)];
    assert report.issues == start + done;
    var hasNonRgbDepth := HasNonRgbDepth(d);
    done := AddIf(report, hasNonRgbDepth, InfoIssue(VocReaderDepthHandling), start, done);
  }

  /** `add_label_studio_reader_policy`: two notes, and a warning when some box was rotated. */
  method AddLabelStudioReaderPolicy(d: Dataset, report: ConversionReport)
    modifies report`issues
    ensures report.issues == old(report.issues)
      + ([InfoIssue(LabelStudioReaderIdAssignment), InfoIssue(LabelStudioReaderImageRefPolicy)]
         + Note(HasRotation(d), WarningIssue(LabelStudioRotationDropped)))
  {
    ghost var start := report.issues;
    report.Add(InfoIssue(LabelStudioReaderIdAssignment));
    report.Add(InfoIssue(LabelStudioReaderImageRefPolicy));
    ghost var done := [InfoIssue(LabelStudioReaderIdAssignment), InfoIssue(LabelStudioReaderImageRefPolicy)];
    assert report.issues == start + done;
    var hasRotation := HasRotation(d);
    done := AddIf(report, hasRotation, WarningIssue(LabelStudioRotationDropped), start, done);
  }

  /** `add_cvat_reader_policy`. */
  method AddCvatReaderPolicy(report: ConversionReport)
    modifies report`issues
    ensures report.issues == old(report.issues) + [InfoIssue(CvatReaderIdAssignment), InfoIssue(CvatReaderAttributePolicy)]
  {
    report.Add(InfoIssue(CvatReaderIdAssignment));
    report.Add(InfoIssue(CvatReaderAttributePolicy));
  }

  /** `add_hf_reader_policy`. */
  method AddHfReaderPolicy(report: ConversionReport)
    modifies report`issues
    ensures report.issues == old(report.issues) + [InfoIssue(HfReaderCategoryResolution)]
  {
    report.Add(InfoIssue(HfReaderCategoryResolution));
  }

  /** The reader-policy match of `build_conversion_report` (nothing for COCO and IR JSON). */
  method AddReaderPolicy(d: Dataset, from: Format, ghost c: Checks, report: ConversionReport)
    requires c.nonRgbDepth == HasNonRgbDepth(d) && c.rotation == HasRotation(d)
    modifies report`issues
    ensures report.issues == old(report.issues) + ReaderPolicy(from, c)
  {
    match from {
      case Tfod => AddTfodReaderPolicy(report);
      case Yolo => AddYoloReaderPolicy(report);
      case Voc => AddVocReaderPolicy(d, report);
      case LabelStudio => AddLabelStudioReaderPolicy(d, report);
      case Cvat => AddCvatReaderPolicy(report);
      case HfImagefolder => AddHfReaderPolicy(report);
      case Coco => assert old(report.issues) + [] == report.issues;
      case IrJson => assert old(report.issues) + [] == report.issues;
    }
  }

  /** `add_tfod_writer_policy`. */
  method AddTfodWriterPolicy(report: ConversionReport)
    modifies report`issues
    ensures report.issues == old(report.issues) + [InfoIssue(TfodWriterRowOrder)]
  {
    report.Add(InfoIssue(TfodWriterRowOrder));
  }

  /** `add_yolo_writer_policy`. */
  method AddYoloWriterPolicy(report: ConversionReport)
    modifies report`issues
    ensures report.issues == old(report.issues)
      + [InfoIssue(YoloWriterClassOrder), InfoIssue(YoloWriterEmptyLabelFiles), InfoIssue(YoloWriterFloatPrecision)]
  {
    report.Add(InfoIssue(YoloWriterClassOrder));
    report.Add(InfoIssue(YoloWriterEmptyLabelFiles));
    report.Add(InfoIssue(YoloWriterFloatPrecision));
  }

  /** `add_voc_writer_policy`. */
  method AddVocWriterPolicy(report: ConversionReport)
    modifies report`issues
    ensures report.issues == old(report.issues)
      + [InfoIssue(VocWriterFileLayout), InfoIssue(VocWriterNoImageCopy), InfoIssue(VocWriterBoolNormalization)]
  {
    report.Add(InfoIssue(VocWriterFileLayout));
    report.Add(InfoIssue(VocWriterNoImageCopy));
    report.Add(InfoIssue(VocWriterBoolNormalization));
  }

  /** `add_label_studio_writer_policy`: a note only when some image lacks its from/to names. */
  method AddLabelStudioWriterPolicy(d: Dataset, report: ConversionReport)
    modifies report`issues
    ensures report.issues == old(report.issues) + Note(UsesFromToDefaults(d), InfoIssue(LabelStudioWriterFromToDefaults))
  {
    var usedDefaults := UsesFromToDefaults(d);
    if usedDefaults {
      report.Add(InfoIssue(LabelStudioWriterFromToDefaults));
    }
  }

  /** `add_cvat_writer_policy`. */
  method AddCvatWriterPolicy(report: ConversionReport)
    modifies report`issues
    ensures report.issues == old(report.issues) + [InfoIssue(CvatWriterMetaDefaults)]
  {
    report.Add(InfoIssue(CvatWriterMetaDefaults));
  }

  /** `add_hf_writer_policy`. */
  method AddHfWriterPolicy(report: ConversionReport)
    modifies report`issues
    ensures report.issues == old(report.issues) + [InfoIssue(HfWriterDeterministicOrder)]
  {
    report.Add(InfoIssue(HfWriterDeterministicOrder));
  }

  /** The writer-policy match of `build_conversion_report` (nothing for COCO and IR JSON). */
  method AddWriterPolicy(d: Dataset, to: Format, ghost c: Checks, report: ConversionReport)
    requires c.fromToDefaults == UsesFromToDefaults(d)
    modifies report`issues
    ensures report.issues == old(report.issues) + WriterPolicy(to, c)
  {
    match to {
      case Tfod => AddTfodWriterPolicy(report);
      case Yolo => AddYoloWriterPolicy(report);
      case Voc => AddVocWriterPolicy(report);
      case LabelStudio => AddLabelStudioWriterPolicy(d, report);
      case Cvat => AddCvatWriterPolicy(report);
      case HfImagefolder => AddHfWriterPolicy(report);
      case Coco => assert old(report.issues) + [] == report.issues;
      case IrJson => assert old(report.issues) + [] == report.issues;
    }
  }

  /** The target-lossiness analysis: the match in `build_conversion_report`. */
  method AnalyzeTarget(d: Dataset, to: Format, isEmpty: DatasetInfo -> bool, report: ConversionReport)
    requires report.input == InputCounts(d) && report.issues == []
    modifies report`issues, report`output
    ensures report.issues == TargetIssues(ChecksOf(d, isEmpty), to)
    ensures report.output == OutputCounts(d, to)
  {
    match to {
      case Tfod => AnalyzeToTfod(d, isEmpty, report);
      case Yolo => AnalyzeToYolo(d, isEmpty, report);
      case Voc => AnalyzeToVoc(d, isEmpty, report);
      case LabelStudio => AnalyzeToLabelStudio(d, isEmpty, report);
      case Coco => AnalyzeToCoco(d, isEmpty, report);
      case Cvat => AnalyzeToCvat(d, isEmpty, report);
      case IrJson => AnalyzeToIrJson(d, report);
      case HfImagefolder => AnalyzeToHf(d, isEmpty, report);
    }
  }

  /** After the target analysis: the reader-policy notes for `from`, then the writer-policy notes for `to`. */
  method AddPolicies(d: Dataset, from: Format, to: Format, ghost c: Checks, report: ConversionReport)
    requires c.nonRgbDepth == HasNonRgbDepth(d) && c.rotation == HasRotation(d)
    requires c.fromToDefaults == UsesFromToDefaults(d)
    requires report.issues == TargetIssues(c, to)
    modifies report`issues
    ensures report.issues == ReportIssues(c, from, to)
  {
    ghost var start := report.issues;
    AddReaderPolicy(d, from, c, report);
    AddWriterPolicy(d, to, c, report);
    AppendAssoc(start, ReaderPolicy(from, c), WriterPolicy(to, c));
  }

  /** `build_conversion_report`: a fresh report for `from` -> `to`. */
  method BuildConversionReport(d: Dataset, from: Format, to: Format, isEmpty: DatasetInfo -> bool)
      returns (report: ConversionReport)
    ensures fresh(report)
    ensures report.from == Name(from) && report.to == Name(to)
    ensures report.input == InputCounts(d)
    ensures report.output == OutputCounts(d, to)
    ensures report.issues == ReportIssues(ChecksOf(d, isEmpty), from, to)
  {
    ghost var c := ChecksOf(d, isEmpty);
    assert c.nonRgbDepth == HasNonRgbDepth(d) && c.rotation == HasRotation(d);
    assert c.fromToDefaults == UsesFromToDefaults(d);
    report := new ConversionReport(Name(from), Name(to));
    report.input := InputCounts(d);
    AnalyzeTarget(d, to, isEmpty, report);
    AddPolicies(d, from, to, c, report);
  }

  // ---- properties of the analysis -------------------------------------------

  /** Every issue in `issues` has severity `severity`. */
  predicate AllOf(issues: seq<ConversionIssue>, severity: ConversionSeverity) {
    forall i :: i in issues ==> i.severity == severity
  }

  /** A list of one severity counts whole under it. */
  lemma {:induction false} CountAllOf(issues: seq<ConversionIssue>, severity: ConversionSeverity)
    requires AllOf(issues, severity)
    ensures CountSeverity(issues, severity) == |issues|
  {
    if |issues| > 0 {
      var init := issues[..|issues| - 1];
      assert forall i :: i in init ==> i in issues;
      CountAllOf(init, severity);
      assert issues[|issues| - 1] in issues;
    }
  }

  /** Exactly the warnings whose checks fired, each with its own code. */
  lemma DropNotesMembers(info: bool, licenses: bool, imageMetadata: bool, supercategories: bool,
                         confidences: bool, annotationAttributes: bool)
    ensures forall i :: (i in DropNotes(info, licenses, imageMetadata, supercategories, confidences, annotationAttributes)
      <==> i.severity == Warning
           && ((i.code == DropDatasetInfo && info) || (i.code == DropLicenses && licenses)
               || (i.code == DropImageMetadata && imageMetadata)
               || (i.code == DropCategorySupercategory && supercategories)
               || (i.code == DropAnnotationConfidence && confidences)
               || (i.code == DropAnnotationAttributes && annotationAttributes)))
  {
    forall i
      ensures i in DropNotes(info, licenses, imageMetadata, supercategories, confidences, annotationAttributes)
        <==> (i == WarningIssue(DropDatasetInfo) && info) || (i == WarningIssue(DropLicenses) && licenses)
             || (i == WarningIssue(DropImageMetadata) && imageMetadata)
             || (i == WarningIssue(DropCategorySupercategory) && supercategories)
             || (i == WarningIssue(DropAnnotationConfidence) && confidences)
             || (i == WarningIssue(DropAnnotationAttributes) && annotationAttributes)
    {
      NoteMember(info, WarningIssue(DropDatasetInfo), i);
      NoteMember(licenses, WarningIssue(DropLicenses), i);
      NoteMember(imageMetadata, WarningIssue(DropImageMetadata), i);
      NoteMember(supercategories, WarningIssue(DropCategorySupercategory), i);
      NoteMember(confidences, WarningIssue(DropAnnotationConfidence), i);
      NoteMember(annotationAttributes, WarningIssue(DropAnnotationAttributes), i);
    }
  }

  /** A conditional note holds its issue exactly when the condition holds. */
  lemma NoteMember(cond: bool, issue: ConversionIssue, i: ConversionIssue)
    ensures i in Note(cond, issue) <==> cond && i == issue
  {
  }

  /** HF records a metadata warning when info, licenses or supercategories are lost, and so on. */
  lemma HfNotesMembers(infoOrLicenses: bool, imageMetadata: bool, supercategories: bool,
                       confidences: bool, annotationAttributes: bool)
    ensures forall i :: (i in HfNotes(infoOrLicenses, imageMetadata, supercategories, confidences, annotationAttributes)
      <==> i.severity == Warning
           && ((i.code == HfMetadataLost && (infoOrLicenses || supercategories))
               || (i.code == HfAttributesLost && (imageMetadata || annotationAttributes))
               || (i.code == HfConfidenceLost && confidences)))
  {
    forall i
      ensures i in HfNotes(infoOrLicenses, imageMetadata, supercategories, confidences, annotationAttributes)
        <==> (i == WarningIssue(HfMetadataLost) && (infoOrLicenses || supercategories))
             || (i == WarningIssue(HfAttributesLost) && (imageMetadata || annotationAttributes))
             || (i == WarningIssue(HfConfidenceLost) && confidences)
    {
      NoteMember(infoOrLicenses, WarningIssue(HfMetadataLost), i);
      NoteMember(imageMetadata, WarningIssue(HfAttributesLost), i);
      NoteMember(supercategories, WarningIssue(HfMetadataLost), i);
      NoteMember(confidences, WarningIssue(HfConfidenceLost), i);
      NoteMember(annotationAttributes, WarningIssue(HfAttributesLost), i);
    }
  }

  lemma DropNotesAreWarnings(info: bool, licenses: bool, imageMetadata: bool, supercategories: bool,
                             confidences: bool, annotationAttributes: bool)
    ensures AllOf(DropNotes(info, licenses, imageMetadata, supercategories, confidences, annotationAttributes), Warning)
  {
    AllOfAppend(Note(info, WarningIssue(DropDatasetInfo)), Note(licenses, WarningIssue(DropLicenses)), Warning);
    var notes := Note(info, WarningIssue(DropDatasetInfo)) + Note(licenses, WarningIssue(DropLicenses));
    AllOfAppend(notes, Note(imageMetadata, WarningIssue(DropImageMetadata)), Warning);
    notes := notes + Note(imageMetadata, WarningIssue(DropImageMetadata));
    AllOfAppend(notes, Note(supercategories, WarningIssue(DropCategorySupercategory)), Warning);
    notes := notes + Note(supercategories, WarningIssue(DropCategorySupercategory));
    AllOfAppend(notes, Note(confidences, WarningIssue(DropAnnotationConfidence)), Warning);
    notes := notes + Note(confidences, WarningIssue(DropAnnotationConfidence));
    AllOfAppend(notes, Note(annotationAttributes, WarningIssue(DropAnnotationAttributes)), Warning);
  }

  lemma HfNotesAreWarnings(infoOrLicenses: bool, imageMetadata: bool, supercategories: bool,
                           confidences: bool, annotationAttributes: bool)
    ensures AllOf(HfNotes(infoOrLicenses, imageMetadata, supercategories, confidences, annotationAttributes), Warning)
  {
    HfNotesMembers(infoOrLicenses, imageMetadata, supercategories, confidences, annotationAttributes);
  }

  /** Two lists of one severity concatenate to one. */
  lemma AllOfAppend(a: seq<ConversionIssue>, b: seq<ConversionIssue>, severity: ConversionSeverity)
    requires AllOf(a, severity) && AllOf(b, severity)
    ensures AllOf(a + b, severity)
  {
  }

  /** The target analysis only ever records warnings. */
  lemma TargetIssuesAreWarnings(c: Checks, to: Format)
    ensures AllOf(TargetIssues(c, to), Warning)
  {
    var issues := TargetIssues(c, to);
    match to {
      case Tfod =>
        assert issues == TfodIssues(c);
        TfodIssuesAreWarnings(c);
      case Yolo =>
        assert issues == PlainDrops(c);
        DropNotesAreWarnings(c.infoNonEmpty, c.hasLicenses, c.licenseOrDate, c.supercategories, c.confidences, c.attributes);
      case Voc =>
        assert issues == VocIssues(c);
        DropNotesAreWarnings(c.infoNonEmpty, c.hasLicenses, c.vocImageMetadata, c.supercategories, c.confidences, c.nonVocKeys);
      case LabelStudio =>
        assert issues == LabelStudioIssues(c);
        DropNotesAreWarnings(c.infoNonEmpty, c.hasLicenses, c.licenseOrDate, c.supercategories, false, c.nonLabelStudioKeys);
      case Cvat =>
        assert issues == CvatIssues(c);
        DropNotesAreWarnings(c.infoNonEmpty, c.hasLicenses, c.anyImageMetadata, c.supercategories, c.confidences, c.nonCvatKeys);
      case HfImagefolder =>
        assert issues == HfIssues(c);
        HfNotesAreWarnings(c.infoNonEmpty || c.hasLicenses, c.anyImageMetadata, c.supercategories, c.confidences, c.attributes);
      case Coco =>
        assert issues == CocoIssues(c);
        AllOfAppend(Note(c.hasName, WarningIssue(DropDatasetInfoName)),
                    Note(c.nonCocoKeys, WarningIssue(CocoAttributesMayNotBePreserved)), Warning);
      case IrJson =>
    }
  }

  lemma TfodIssuesAreWarnings(c: Checks)
    ensures AllOf(TfodIssues(c), Warning)
  {
    DropNotesAreWarnings(c.infoNonEmpty, c.hasLicenses, c.licenseOrDate, c.supercategories, c.confidences, c.attributes);
    AllOfAppend(PlainDrops(c), Note(c.unannotatedImages, WarningIssue(DropImagesWithoutAnnotations)), Warning);
  }

  /** The writer notes hold no warning. */
  lemma WriterWarningCount(to: Format, c: Checks)
    ensures CountSeverity(WriterPolicy(to, c), Warning) == 0
  {
    var w := WriterPolicy(to, c);
    assert AllOf(w, Info);
    NoWarningAmongInfos(w);
  }

  /** A list of info notes holds no warning. */
  lemma NoWarningAmongInfos(issues: seq<ConversionIssue>)
    requires AllOf(issues, Info)
    ensures CountSeverity(issues, Warning) == 0
  {
    assert forall k :: 0 <= k < |issues| ==> issues[k] in issues;
  }

  /** A conditional note counts once under its own severity when its condition holds. */
  lemma NoteCount(cond: bool, issue: ConversionIssue)
    ensures CountSeverity(Note(cond, issue), issue.severity) == if cond then 1 else 0
  {
    if cond {
      assert Note(cond, issue)[..0] == [];
    }
  }

  /** The Label Studio reader notes: one warning exactly when a rotated box was dropped. */
  lemma LabelStudioReaderWarningCount(c: Checks)
    ensures CountSeverity(ReaderPolicy(LabelStudio, c), Warning) == if c.rotation then 1 else 0
  {
    TwoInfosThenNote(InfoIssue(LabelStudioReaderIdAssignment), InfoIssue(LabelStudioReaderImageRefPolicy),
                     c.rotation, WarningIssue(LabelStudioRotationDropped));
  }

  lemma TwoInfosThenNote(a: ConversionIssue, b: ConversionIssue, cond: bool, w: ConversionIssue)
    requires a.severity == Info && b.severity == Info && w.severity == Warning
    ensures CountSeverity([a, b] + Note(cond, w), Warning) == if cond then 1 else 0
  {
    CountSeverityAppend([a, b], Note(cond, w), Warning);
    assert [a, b][0] == a && [a, b][1] == b;
    NoteCount(cond, w);
  }

  /** The other readers record info notes only. */
  lemma OtherReaderWarningCount(from: Format, c: Checks)
    requires from != LabelStudio
    ensures CountSeverity(ReaderPolicy(from, c), Warning) == 0
  {
    var r := ReaderPolicy(from, c);
    assert AllOf(r, Info);
    NoWarningAmongInfos(r);
  }

  /** Reader notes are info notes, except the Label Studio warning about rotated boxes. */
  lemma ReaderWarningCount(from: Format, c: Checks)
    ensures CountSeverity(ReaderPolicy(from, c), Warning) == if from == LabelStudio && c.rotation then 1 else 0
  {
    if from == LabelStudio {
      LabelStudioReaderWarningCount(c);
    } else {
      OtherReaderWarningCount(from, c);
    }
  }

  /**
   * The number of warnings in a full report: every target issue, plus one
   * when a Label Studio source carries rotated boxes.
   */
  lemma ReportWarningCount(c: Checks, from: Format, to: Format)
    ensures CountSeverity(ReportIssues(c, from, to), Warning)
         == |TargetIssues(c, to)| + (if from == LabelStudio && c.rotation then 1 else 0)
  {
    var t, r, w := TargetIssues(c, to), ReaderPolicy(from, c), WriterPolicy(to, c);
    CountSeverityAppend(t, r + w, Warning);
    CountSeverityAppend(r, w, Warning);
    TargetIssuesAreWarnings(c, to);
    CountAllOf(t, Warning);
    ReaderWarningCount(from, c);
    WriterWarningCount(to, c);
  }

  /**
   * A conversion is lossy exactly when the target analysis found something,
   * or a Label Studio source had rotated boxes; policy notes alone never are.
   */
  lemma LossyIff(c: Checks, from: Format, to: Format)
    ensures HasWarning(ReportIssues(c, from, to))
        <==> TargetIssues(c, to) != [] || (from == LabelStudio && c.rotation)
  {
    ReportWarningCount(c, from, to);
  }

  /** Converting to IR JSON keeps every count and records nothing; from COCO the report is empty. */
  lemma IrJsonTargetIsLossless(d: Dataset, c: Checks, from: Format)
    ensures TargetIssues(c, IrJson) == [] && WriterPolicy(IrJson, c) == []
    ensures OutputCounts(d, IrJson) == InputCounts(d)
    ensures ReportIssues(c, from, IrJson) == ReaderPolicy(from, c)
    ensures from == Coco ==> ReportIssues(c, from, IrJson) == []
  {
    assert [] + (ReaderPolicy(from, c) + []) == ReaderPolicy(from, c);
  }

  /** A TFOD source always brings its ID-assignment note and a TFOD target its row-order note. */
  lemma TfodPolicyNotes(c: Checks, from: Format, to: Format)
    ensures from == Tfod ==> InfoIssue(TfodReaderIdAssignment) in ReportIssues(c, from, to)
    ensures to == Tfod ==> InfoIssue(TfodWriterRowOrder) in ReportIssues(c, from, to)
  {
    var t, r, w := TargetIssues(c, to), ReaderPolicy(from, c), WriterPolicy(to, c);
    assert ReportIssues(c, from, to) == t + (r + w);
    if from == Tfod { assert r[0] == InfoIssue(TfodReaderIdAssignment); assert r[0] in t + (r + w); }
    if to == Tfod { assert w[0] == InfoIssue(TfodWriterRowOrder); assert w[0] in t + (r + w); }
  }

  // ---- what the checks mean -------------------------------------------------

  /** A count of matches is positive exactly when some element matches. */
  lemma CountIfPositive<T>(s: seq<T>, p: T -> bool)
    ensures CountIf(s, p) > 0 <==> exists k :: 0 <= k < |s| && p(s[k])
  {
    CountIfExtremes(s, p);
  }

  /** Each image check fires exactly when some image matches it. */
  lemma ImageChecksMeaning(d: Dataset, isEmpty: DatasetInfo -> bool)
    ensures var c := ChecksOf(d, isEmpty);
      && (c.licenseOrDate <==> exists k :: 0 <= k < |d.images| && HasLicenseOrDate(d.images[k]))
      && (c.vocImageMetadata <==> exists k :: 0 <= k < |d.images| && HasVocUnrepresentableMetadata(d.images[k]))
      && (c.anyImageMetadata <==> exists k :: 0 <= k < |d.images| && HasAnyImageMetadata(d.images[k]))
  {
    CountIfPositive(d.images, HasLicenseOrDate);
    CountIfPositive(d.images, HasVocUnrepresentableMetadata);
    CountIfPositive(d.images, HasAnyImageMetadata);
  }

  /** The TFOD image check fires exactly when some image is referenced by no annotation. */
  lemma UnannotatedCheckMeaning(d: Dataset, isEmpty: DatasetInfo -> bool)
    ensures ChecksOf(d, isEmpty).unannotatedImages
        <==> exists k :: 0 <= k < |d.images| && d.images[k].id !in AnnotatedImageIds(d)
  {
    var annotated := AnnotatedImageIds(d);
    CountIfPositive(d.images, (img: Image) => img.id !in annotated);
  }

  /** Each category and annotation check fires exactly when some item matches it. */
  lemma AnnotationChecksMeaning(d: Dataset, isEmpty: DatasetInfo -> bool)
    ensures var c := ChecksOf(d, isEmpty);
      && (c.supercategories <==> exists k :: 0 <= k < |d.categories| && HasSupercategory(d.categories[k]))
      && (c.confidences <==> exists k :: 0 <= k < |d.annotations| && HasConfidence(d.annotations[k]))
      && (c.attributes <==> exists k :: 0 <= k < |d.annotations| && HasAttributes(d.annotations[k]))
  {
    CountIfPositive(d.categories, HasSupercategory);
    CountIfPositive(d.annotations, HasConfidence);
    CountIfPositive(d.annotations, HasAttributes);
  }

  /** The VOC and Label Studio key checks fire exactly when some annotation has a key the target drops. */
  lemma VocLabelStudioKeyChecksMeaning(d: Dataset, isEmpty: DatasetInfo -> bool)
    ensures var c := ChecksOf(d, isEmpty);
      && (c.nonVocKeys <==> exists k :: 0 <= k < |d.annotations| && HasKeyOutside(d.annotations[k], VocKey))
      && (c.nonLabelStudioKeys <==> exists k :: 0 <= k < |d.annotations| && HasKeyOutside(d.annotations[k], LabelStudioKey))
  {
    CountIfPositive(d.annotations, (a: Annotation) => HasKeyOutside(a, VocKey));
    CountIfPositive(d.annotations, (a: Annotation) => HasKeyOutside(a, LabelStudioKey));
  }

  /** The COCO and CVAT key checks fire exactly when some annotation has a key the target may drop. */
  lemma CocoCvatKeyChecksMeaning(d: Dataset, isEmpty: DatasetInfo -> bool)
    ensures var c := ChecksOf(d, isEmpty);
      && (c.nonCocoKeys <==> exists k :: 0 <= k < |d.annotations| && HasKeyOutside(d.annotations[k], CocoKey))
      && (c.nonCvatKeys <==> exists k :: 0 <= k < |d.annotations| && HasKeyOutside(d.annotations[k], CvatKey))
  {
    CountIfPositive(d.annotations, (a: Annotation) => HasKeyOutside(a, CocoKey));
    CountIfPositive(d.annotations, (a: Annotation) => HasKeyOutside(a, CvatKey));
  }

  /** TFOD warns about dropped images exactly when some image is referenced by no annotation. */
  lemma TfodUnannotatedWarningIff(d: Dataset, isEmpty: DatasetInfo -> bool)
    ensures WarningIssue(DropImagesWithoutAnnotations) in TfodIssues(ChecksOf(d, isEmpty))
        <==> exists k :: 0 <= k < |d.images| && d.images[k].id !in AnnotatedImageIds(d)
  {
    TfodUnannotatedNote(ChecksOf(d, isEmpty));
    UnannotatedCheckMeaning(d, isEmpty);
  }

  lemma TfodUnannotatedNote(c: Checks)
    ensures WarningIssue(DropImagesWithoutAnnotations) in TfodIssues(c) <==> c.unannotatedImages
  {
    DropNotesMembers(c.infoNonEmpty, c.hasLicenses, c.licenseOrDate, c.supercategories, c.confidences, c.attributes);
  }

  /** COCO warns about the dataset name exactly when there is one. */
  lemma CocoNameWarningIff(d: Dataset, isEmpty: DatasetInfo -> bool)
    ensures WarningIssue(DropDatasetInfoName) in CocoIssues(ChecksOf(d, isEmpty)) <==> d.info.name.Some?
  {
    CocoNameNote(ChecksOf(d, isEmpty));
  }

  lemma CocoNameNote(c: Checks)
    ensures WarningIssue(DropDatasetInfoName) in CocoIssues(c) <==> c.hasName
  {
  }

  /** VOC warns about annotation attributes exactly when one has a key VOC does not keep. */
  lemma VocAttributeWarningIff(d: Dataset, isEmpty: DatasetInfo -> bool)
    ensures WarningIssue(DropAnnotationAttributes) in VocIssues(ChecksOf(d, isEmpty))
        <==> exists k :: 0 <= k < |d.annotations| && HasKeyOutside(d.annotations[k], VocKey)
  {
    var c := ChecksOf(d, isEmpty);
    DropNotesMembers(c.infoNonEmpty, c.hasLicenses, c.vocImageMetadata, c.supercategories, c.confidences, c.nonVocKeys);
    VocLabelStudioKeyChecksMeaning(d, isEmpty);
  }

  /** The IDs of the images of `d`. */
  function ImageIdSet(d: Dataset): (ids: set<nat>)
    ensures forall id :: id in ids <==> exists k :: 0 <= k < |d.images| && d.images[k].id == id
  {
    set k | 0 <= k < |d.images| :: d.images[k].id
  }

  /** A set of IDs each found among `ids` is no larger than `ids` is long. */
  lemma {:induction false} IdSetBound(ids: seq<nat>, s: set<nat>)
    requires forall x :: x in s ==> x in ids
    ensures |s| <= |ids|
  {
    if |ids| == 0 {
      assert s == {};
    } else {
      var init := ids[..|ids| - 1];
      var last := ids[|ids| - 1];
      forall x | x in s - {last} ensures x in init {
        var k :| 0 <= k < |ids| && ids[k] == x;
        assert init[k] == x;
      }
      IdSetBound(init, s - {last});
    }
  }

  /**
   * TFOD keeps every annotation and writes at most one image and one category
   * per annotation; when every annotation refers to an image of the dataset it
   * writes at most as many images as there are.
   */
  lemma TfodOutputBounds(d: Dataset)
    ensures OutputCounts(d, Tfod).annotations == |d.annotations|
    ensures OutputCounts(d, Tfod).images <= |d.annotations|
    ensures OutputCounts(d, Tfod).categories <= |d.annotations|
    ensures (forall k :: 0 <= k < |d.annotations| ==> d.annotations[k].imageId in ImageIdSet(d))
            ==> OutputCounts(d, Tfod).images <= |d.images|
  {
    var anns := d.annotations;
    var imageRefs := seq(|anns|, k requires 0 <= k < |anns| => anns[k].imageId);
    var categoryRefs := seq(|anns|, k requires 0 <= k < |anns| => anns[k].categoryId);
    forall x | x in AnnotatedImageIds(d) ensures x in imageRefs {
      var k :| 0 <= k < |anns| && anns[k].imageId == x;
      assert imageRefs[k] == x;
    }
    forall x | x in UsedCategoryIds(d) ensures x in categoryRefs {
      var k :| 0 <= k < |anns| && anns[k].categoryId == x;
      assert categoryRefs[k] == x;
    }
    IdSetBound(imageRefs, AnnotatedImageIds(d));
    IdSetBound(categoryRefs, UsedCategoryIds(d));
    if forall k :: 0 <= k < |anns| ==> anns[k].imageId in ImageIdSet(d) {
      var imageIds := seq(|d.images|, k requires 0 <= k < |d.images| => d.images[k].id);
      forall x | x in AnnotatedImageIds(d) ensures x in imageIds {
        var k :| 0 <= k < |anns| && anns[k].imageId == x;
        var j :| 0 <= j < |d.images| && d.images[j].id == x;
        assert imageIds[j] == x;
      }
      IdSetBound(imageIds, AnnotatedImageIds(d));
    }
  }
}
