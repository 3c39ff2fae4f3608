// The conversion report (src/conversion/report.rs): the source and target
// format names, input and output counts, and an append-only list of issues,
// each a warning (information is lost) or an info note (a policy decision).
// Message texts are not modelled; an issue is its severity and code.
module ConversionReports {
  datatype ConversionSeverity = Warning | Info

  /**
   * The stable issue codes. The enum as declared lacks the codes that the
   * analysers also emit (the HF, VOC, Label Studio and CVAT ones); they are
   * added here from their uses.
   */
  datatype ConversionIssueCode =
    | DropDatasetInfo
    | DropLicenses
    | DropImageMetadata
    | DropCategorySupercategory
    | DropAnnotationConfidence
    | DropAnnotationAttributes
    | DropImagesWithoutAnnotations
    | DropDatasetInfoName
    | CocoAttributesMayNotBePreserved
    | TfodReaderIdAssignment
    | TfodWriterRowOrder
    | YoloReaderIdAssignment
    | YoloReaderClassMapSource
    | YoloWriterClassOrder
    | YoloWriterEmptyLabelFiles
    | YoloWriterFloatPrecision
    | VocReaderIdAssignment
    | VocReaderAttributeMapping
    | VocReaderCoordinatePolicy
    | VocReaderDepthHandling
    | VocWriterFileLayout
    | VocWriterNoImageCopy
    | VocWriterBoolNormalization
    | LabelStudioReaderIdAssignment
    | LabelStudioReaderImageRefPolicy
    | LabelStudioRotationDropped
    | LabelStudioWriterFromToDefaults
    | CvatReaderIdAssignment
    | CvatReaderAttributePolicy
    | CvatWriterMetaDefaults
    | HfMetadataLost
    | HfAttributesLost
    | HfConfidenceLost
    | HfReaderCategoryResolution
    | HfWriterDeterministicOrder

  datatype ConversionCounts = ConversionCounts(images: nat, categories: nat, annotations: nat)

  datatype ConversionIssue = ConversionIssue(severity: ConversionSeverity, code: ConversionIssueCode)

  /** `ConversionIssue::warning`. */
  function WarningIssue(code: ConversionIssueCode): (i: ConversionIssue)
    ensures i.severity == Warning && i.code == code
  {
    ConversionIssue(Warning, code)
  }

  /** `ConversionIssue::info`. */
  function InfoIssue(code: ConversionIssueCode): (i: ConversionIssue)
    ensures i.severity == Info && i.code == code
  {
    ConversionIssue(Info, code)
  }

  /** The number of issues with the given severity (`filter(..).count()`). */
  function CountSeverity(issues: seq<ConversionIssue>, severity: ConversionSeverity): (n: nat)
    ensures n <= |issues|
    ensures n == 0 <==> forall k :: 0 <= k < |issues| ==> issues[k].severity != severity
  {
    if |issues| == 0 then 0
    else
      var m := CountSeverity(issues[..|issues| - 1], severity);
      assert forall k :: 0 <= k < |issues| - 1 ==> issues[..|issues| - 1][k] == issues[k];
      m + if issues[|issues| - 1].severity == severity then 1 else 0
  }

  /** Every issue is either a warning or an info note. */
  lemma {:induction false} SeveritiesPartition(issues: seq<ConversionIssue>)
    ensures CountSeverity(issues, Warning) + CountSeverity(issues, Info) == |issues|
  {
    if |issues| > 0 { SeveritiesPartition(issues[..|issues| - 1]); }
  }

  lemma {:induction false} CountSeverityAppend(a: seq<ConversionIssue>, b: seq<ConversionIssue>,
                                               severity: ConversionSeverity)
    ensures CountSeverity(a + b, severity) == CountSeverity(a, severity) + CountSeverity(b, severity)
    decreases |b|
  {
    if |b| == 0 {
      assert a + b == a;
    } else {
      assert (a + b)[..|a + b| - 1] == a + b[..|b| - 1];
      CountSeverityAppend(a, b[..|b| - 1], severity);
    }
  }

  /** Some issue in the list is a warning. */
  predicate HasWarning(issues: seq<ConversionIssue>) {
    exists k :: 0 <= k < |issues| && issues[k].severity == Warning
  }

  class ConversionReport {
    const from: string
    const to: string
    var input: ConversionCounts
    var output: ConversionCounts
    var issues: seq<ConversionIssue>

    /** `ConversionReport::new`: the two names, zero counts and no issues. */
    constructor (from: string, to: string)
      ensures this.from == from && this.to == to
      ensures input == ConversionCounts(0, 0, 0) && output == ConversionCounts(0, 0, 0)
      ensures issues == []
    {
      this.from := from;
      this.to := to;
      input := ConversionCounts(0, 0, 0);
      output := ConversionCounts(0, 0, 0);
      issues := [];
    }

    /** `add`: appends exactly one issue; everything else is unchanged. */
    method Add(issue: ConversionIssue)
      modifies this`issues
      ensures issues == old(issues) + [issue]
    {
      issues := issues + [issue];
    }

    function WarningCount(): (n: nat)
      reads this
      ensures n <= |issues|
      ensures n == 0 <==> !HasWarning(issues)
    {
      CountSeverity(issues, Warning)
    }

    function InfoCount(): (n: nat)
      reads this
      ensures n <= |issues|
      ensures n == 0 <==> forall k :: 0 <= k < |issues| ==> issues[k].severity == Warning
    {
      CountSeverity(issues, Info)
    }

    /** `is_lossy`: some warning was recorded; info notes alone never make a report lossy. */
    predicate IsLossy()
      reads this
      ensures IsLossy() <==> HasWarning(issues)
    {
      WarningCount() > 0
    }
  }

  /** The two counts of a report add up to its length. */
  lemma CountsPartitionReport(r: ConversionReport)
    ensures r.WarningCount() + r.InfoCount() == |r.issues|
  {
    SeveritiesPartition(r.issues);
  }
}
