// The validation report (src/validation/report.rs): an append-only list of
// issues, each with a severity, a stable code and a context. Message texts
// are not modelled.
module ValidationReports {
  datatype Severity = Warning | Error

  datatype IssueCode =
    | DuplicateImageId
    | DuplicateAnnotationId
    | DuplicateCategoryId
    | MissingImageRef
    | MissingCategoryRef
    | InvalidImageDimensions
    | EmptyFileName
    | EmptyCategoryName
    | DuplicateCategoryName
    | BBoxNotFinite
    | InvalidBBoxOrdering
    | BBoxOutOfBounds
    | InvalidBBoxArea

  datatype IssueContext = DatasetContext | ImageContext(id: nat) | AnnotationContext(id: nat) | CategoryContext(id: nat)

  datatype ValidationIssue = ValidationIssue(severity: Severity, code: IssueCode, context: IssueContext)

  /** `ValidationIssue::error`. */
  function ErrorIssue(code: IssueCode, context: IssueContext): (i: ValidationIssue)
    ensures i.severity == Error && i.code == code && i.context == context
  {
    ValidationIssue(Error, code, context)
  }

  /** `ValidationIssue::warning`. */
  function WarningIssue(code: IssueCode, context: IssueContext): (i: ValidationIssue)
    ensures i.severity == Warning && i.code == code && i.context == context
  {
    ValidationIssue(Warning, code, context)
  }

  /** The number of issues with the given severity (`filter(..).count()`). */
  function CountSeverity(issues: seq<ValidationIssue>, severity: Severity): (n: nat)
    ensures n <= |issues|
    ensures n == 0 <==> forall k :: 0 <= k < |issues| ==> issues[k].severity != severity
  {
    if |issues| == 0 then 0
    else
      var m := CountSeverity(issues[..|issues| - 1], severity);
      assert forall k :: 0 <= k < |issues| - 1 ==> issues[..|issues| - 1][k] == issues[k];
      m + if issues[|issues| - 1].severity == severity then 1 else 0
  }

  /** Every issue is either an error or a warning. */
  lemma {:induction false} SeveritiesPartition(issues: seq<ValidationIssue>)
    ensures CountSeverity(issues, Error) + CountSeverity(issues, Warning) == |issues|
  {
    if |issues| > 0 { SeveritiesPartition(issues[..|issues| - 1]); }
  }

  lemma {:induction false} CountSeverityAppend(a: seq<ValidationIssue>, b: seq<ValidationIssue>, severity: Severity)
    ensures CountSeverity(a + b, severity) == CountSeverity(a, severity) + CountSeverity(b, severity)
    decreases |b|
  {
    if |b| == 0 {
      assert a + b == a;
    } else {
      assert (a + b)[..|a + b| - 1] == a + b[..|b| - 1];
      CountSeverityAppend(a, b[..|b| - 1], severity);
    }
  }

  class ValidationReport {
    var issues: seq<ValidationIssue>

    /** `ValidationReport::new`: no issues. */
    constructor ()
      ensures issues == []
    {
      issues := [];
    }

    /** `add`: appends one issue at the end; earlier issues are unchanged. */
    method Add(issue: ValidationIssue)
      modifies this
      ensures issues == old(issues) + [issue]
    {
      issues := issues + [issue];
    }

    function ErrorCount(): (n: nat)
      reads this
      ensures n <= |issues|
      ensures n == 0 <==> forall k :: 0 <= k < |issues| ==> issues[k].severity == Warning
    {
      CountSeverity(issues, Error)
    }

    function WarningCount(): (n: nat)
      reads this
      ensures n <= |issues|
      ensures n == 0 <==> forall k :: 0 <= k < |issues| ==> issues[k].severity == Error
    {
      CountSeverity(issues, Warning)
    }

    /** `is_ok`: no issue is an error. */
    predicate IsOk()
      reads this
      ensures IsOk() <==> forall k :: 0 <= k < |issues| ==> issues[k].severity == Warning
    {
      ErrorCount() == 0
    }

    /** `is_clean`: no issues at all, neither errors nor warnings. */
    predicate IsClean()
      reads this
      ensures IsClean() <==> ErrorCount() == 0 && WarningCount() == 0
    {
      SeveritiesPartition(issues);
      |issues| == 0
    }

    /** `is_ok_strict`: passes when warnings count as failures too. */
    predicate IsOkStrict()
      reads this
      ensures IsOkStrict() <==> IsOk() && WarningCount() == 0
    {
      SeveritiesPartition(issues);
      |issues| == 0
    }
  }

  /** The two counts of a report add up to its length. */
  lemma CountsPartitionReport(r: ValidationReport)
    ensures r.ErrorCount() + r.WarningCount() == |r.issues|
  {
    SeveritiesPartition(r.issues);
  }
}
