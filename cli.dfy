// The pure decisions of the command-line front end (src/lib.rs): the
// `--categories` list, the HF flag checks, the unique-file-name check the
// diff command runs, split-hint normalisation, directory and JSON format
// detection, and the exit rules of `validate`, `convert` and `sample`.
// Argument parsing, file probes and printing are not modelled: the probes'
// answers (does `labels/` hold `.txt` files, …) are inputs here.
module Cli {
  import opened Wrappers
  import opened Seqs
  import opened Text
  import opened Ir
  import opened JsonValue
  import Conversion
  import ValidationReports
  import ConversionReports

  /** `ConvertFromFormat`: a concrete source format, or `auto`. */
  datatype ConvertFromFormat =
    | Auto | FromIrJson | FromCoco | FromCvat | FromLabelStudio | FromTfod | FromYolo | FromVoc | FromHfImagefolder

  /** The errors these decisions raise (`PanlabelError` variants), without their message text. */
  datatype CliError =
    | HfFlagsWithoutHf
    | HfRepoWithoutFromHf
    | RevisionOrConfigWithoutRepo
    | FromHfWithoutSource
    | DuplicateImageFileName(fileName: string, side: string)
    | AmbiguousLayout(first: Conversion.Format, second: Conversion.Format)
    | UnrecognizedLayout
    | ArrayRootNotLabelStudio
    | MissingAnnotationsArray
    | EmptyAnnotationsArray
    | FirstAnnotationWithoutBBox
    | BBoxArrayNotXywh(length: nat)
    | BBoxObjectNotIr
    | BBoxUnexpectedType
    | ValidationFailed(errorCount: nat, warningCount: nat)
    | LossyConversionBlocked(from: string, to: string)

  // ---------------------------------------------------------------------
  // ConvertFromFormat::as_concrete
  // ---------------------------------------------------------------------

  /** `as_concrete`: `auto` has no concrete format; every other choice names its own. */
  function AsConcrete(f: ConvertFromFormat): (r: Option<Conversion.Format>)
    ensures r.None? <==> f.Auto?
  {
    match f
    case Auto => None
    case FromIrJson => Some(Conversion.IrJson)
    case FromCoco => Some(Conversion.Coco)
    case FromCvat => Some(Conversion.Cvat)
    case FromLabelStudio => Some(Conversion.LabelStudio)
    case FromTfod => Some(Conversion.Tfod)
    case FromYolo => Some(Conversion.Yolo)
    case FromVoc => Some(Conversion.Voc)
    case FromHfImagefolder => Some(Conversion.HfImagefolder)
  }

  /** Every concrete format is reached by exactly one choice. */
  lemma AsConcreteBijective(f: ConvertFromFormat, g: ConvertFromFormat, target: Conversion.Format)
    ensures AsConcrete(f) == AsConcrete(g) && !f.Auto? ==> f == g
    ensures exists h :: AsConcrete(h) == Some(target)
  {
    match target
    case IrJson => assert AsConcrete(FromIrJson) == Some(target);
    case Coco => assert AsConcrete(FromCoco) == Some(target);
    case Cvat => assert AsConcrete(FromCvat) == Some(target);
    case LabelStudio => assert AsConcrete(FromLabelStudio) == Some(target);
    case Tfod => assert AsConcrete(FromTfod) == Some(target);
    case Yolo => assert AsConcrete(FromYolo) == Some(target);
    case Voc => assert AsConcrete(FromVoc) == Some(target);
    case HfImagefolder => assert AsConcrete(FromHfImagefolder) == Some(target);
  }

  // ---------------------------------------------------------------------
  // parse_categories_arg
  // ---------------------------------------------------------------------

  predicate NonEmpty(s: string) { s != "" }

  /** `parse_categories_arg`: split on commas, trim each piece, drop the empty ones. */
  function ParseCategoriesArg(raw: Option<string>): (items: seq<string>)
    ensures raw.None? ==> items == []
    ensures forall x :: x in items ==> x != ""
  {
    Filter(Map(Split(raw.UnwrapOr(""), ','), Trim), NonEmpty)
  }

  /** An item is kept exactly when it is the non-empty trim of some comma-separated piece, and it is trimmed. */
  lemma CategoriesArgMembers(raw: string, x: string)
    ensures x in ParseCategoriesArg(Some(raw)) <==> x != "" && exists p :: p in Split(raw, ',') && Trim(p) == x
    ensures x in ParseCategoriesArg(Some(raw)) ==> Trim(x) == x
  {
    var pieces := Split(raw, ',');
    var trimmed := Map(pieces, Trim);
    assert x in ParseCategoriesArg(Some(raw)) <==> x in trimmed && NonEmpty(x);
    TrimmedMember(pieces, x);
    if x in trimmed {
      var p :| p in pieces && Trim(p) == x;
      TrimIdempotent(p);
    }
  }

  /** A trimmed piece is the trim of some piece, and conversely. */
  lemma TrimmedMember(pieces: seq<string>, x: string)
    ensures x in Map(pieces, Trim) <==> exists p :: p in pieces && Trim(p) == x
  {
    var trimmed := Map(pieces, Trim);
    if x in trimmed {
      var k :| 0 <= k < |trimmed| && trimmed[k] == x;
      assert pieces[k] in pieces;
    }
    if exists p :: p in pieces && Trim(p) == x {
      var p :| p in pieces && Trim(p) == x;
      var k :| 0 <= k < |pieces| && pieces[k] == p;
      assert trimmed[k] == x;
    }
  }

  /** Joining trimmed, comma-free, non-empty names with commas and parsing gives them back. */
  lemma CategoriesArgRoundTrip(names: seq<string>)
    requires |names| >= 1
    requires forall k :: 0 <= k < |names| ==> names[k] != "" && ',' !in names[k] && Trim(names[k]) == names[k]
    ensures ParseCategoriesArg(Some(Join(names, ','))) == names
  {
    SplitJoin(names, ',');
    assert Map(names, Trim) == names;
    FilterAll(names, NonEmpty);
  }

  // ---------------------------------------------------------------------
  // validate_hf_flag_usage
  // ---------------------------------------------------------------------

  /** The `convert` arguments that bear on the HF checks. */
  datatype ConvertArgs = ConvertArgs(
    to: Conversion.Format,
    hasInput: bool,
    hfRepo: Option<string>,
    hfObjectsColumn: Option<string>,
    hfCategoryMap: Option<string>,
    split: Option<string>,
    revision: Option<string>,
    config: Option<string>,
    bboxFormatIsXywh: bool)

  predicate HfInvolved(args: ConvertArgs, from: Conversion.Format) {
    from == Conversion.HfImagefolder || args.to == Conversion.HfImagefolder
  }

  /** Some HF-only flag is set (a non-default `--hf-bbox-format` counts). */
  predicate HfFlagsUsed(args: ConvertArgs) {
    args.hfRepo.Some? || args.hfObjectsColumn.Some? || args.hfCategoryMap.Some? || args.split.Some?
    || args.revision.Some? || args.config.Some? || !args.bboxFormatIsXywh
  }

  /** The four rules the source enforces, all at once. */
  predicate HfFlagsConsistent(args: ConvertArgs, from: Conversion.Format) {
    && (HfFlagsUsed(args) ==> HfInvolved(args, from))
    && (args.hfRepo.Some? ==> from == Conversion.HfImagefolder)
    && (args.hfRepo.None? ==> args.revision.None? && args.config.None?)
    && (from == Conversion.HfImagefolder ==> args.hfRepo.Some? || args.hasInput)
  }

  /** `validate_hf_flag_usage`: accepts exactly the consistent flag sets; reports the first rule broken. */
  function ValidateHfFlagUsage(args: ConvertArgs, from: Conversion.Format): (r: Result<(), CliError>)
    ensures r.Ok? <==> HfFlagsConsistent(args, from)
    ensures HfFlagsUsed(args) && !HfInvolved(args, from) ==> r == Err(HfFlagsWithoutHf)
    ensures HfInvolved(args, from) && args.hfRepo.Some? && from != Conversion.HfImagefolder ==>
      r == Err(HfRepoWithoutFromHf)
    ensures HfInvolved(args, from) && args.hfRepo.None? && (args.revision.Some? || args.config.Some?) ==>
      r == Err(RevisionOrConfigWithoutRepo)
  {
    if HfFlagsUsed(args) && !HfInvolved(args, from) then Err(HfFlagsWithoutHf)
    else if args.hfRepo.Some? && from != Conversion.HfImagefolder then Err(HfRepoWithoutFromHf)
    else if args.hfRepo.None? && (args.revision.Some? || args.config.Some?) then Err(RevisionOrConfigWithoutRepo)
    else if from == Conversion.HfImagefolder && args.hfRepo.None? && !args.hasInput then Err(FromHfWithoutSource)
    else Ok(())
  }

  // ---------------------------------------------------------------------
  // ensure_unique_image_file_names
  // ---------------------------------------------------------------------

  /**
   * `ensure_unique_image_file_names`: walks the images with a `seen` set
   * and fails on the first name met a second time.
   */
  method EnsureUniqueImageFileNames(images: seq<Image>, side: string) returns (r: Result<(), CliError>)
    ensures r.Ok? <==> Distinct(ImageFileNames(images))
    ensures r.Err? ==> r.error.DuplicateImageFileName? && r.error.side == side
    ensures r.Err? ==> exists i, j :: 0 <= i < j < |images| && images[i].fileName == images[j].fileName
                                      && images[j].fileName == r.error.fileName
  {
    var seen: set<string> := {};
    var i := 0;
    while i < |images|
      invariant 0 <= i <= |images|
      invariant seen == set k | 0 <= k < i :: images[k].fileName
      invariant Distinct(ImageFileNames(images[..i]))
    {
      var name := images[i].fileName;
      if name in seen {
        var k :| 0 <= k < i && images[k].fileName == name;
        assert ImageFileNames(images)[k] == ImageFileNames(images)[i];
        return Err(DuplicateImageFileName(name, side));
      }
      assert ImageFileNames(images[..i + 1]) == ImageFileNames(images[..i]) + [name];
      DistinctSnoc(ImageFileNames(images[..i]), name);
      seen := seen + {name};
      i := i + 1;
    }
    assert images[..i] == images;
    return Ok(());
  }

  // ---------------------------------------------------------------------
  // normalize_split_hint
  // ---------------------------------------------------------------------

  predicate ValidationAlias(lower: string) {
    lower == "val" || lower == "valid" || lower == "validation"
  }

  /** `normalize_split_hint`: the validation aliases become "validation"; anything else is lowercased. */
  function NormalizeSplitHint(value: string): (r: string)
    ensures ValidationAlias(AsciiLower(value)) ==> r == "validation"
    ensures !ValidationAlias(AsciiLower(value)) ==> r == AsciiLower(value)
  {
    var lower := AsciiLower(value);
    if lower == "val" || lower == "valid" then "validation"
    else if lower == "validation" then "validation"
    else if lower == "train" then "train"
    else if lower == "test" then "test"
    else if lower == "dev" then "dev"
    else lower
  }

  lemma AsciiLowerIdempotent(s: string)
    ensures AsciiLower(AsciiLower(s)) == AsciiLower(s)
  {
  }

  /** Normalising twice changes nothing, and the result never holds an ASCII capital. */
  lemma NormalizeSplitHintIdempotent(value: string)
    ensures NormalizeSplitHint(NormalizeSplitHint(value)) == NormalizeSplitHint(value)
    ensures forall k :: 0 <= k < |NormalizeSplitHint(value)| ==> !('A' <= NormalizeSplitHint(value)[k] <= 'Z')
  {
    var lower := AsciiLower(value);
    AsciiLowerIdempotent(value);
    if ValidationAlias(lower) {
      assert AsciiLower("validation") == "validation";
    }
  }

  // ---------------------------------------------------------------------
  // detect_dir_format (the decision once the probes have answered)
  // ---------------------------------------------------------------------

  /** The four layout probes of `detect_dir_format`. */
  datatype DirLayout = DirLayout(isYolo: bool, isVoc: bool, isCvat: bool, isHf: bool)

  function Matches(layout: DirLayout): (n: nat) {
    (if layout.isYolo then 1 else 0) + (if layout.isVoc then 1 else 0)
    + (if layout.isCvat then 1 else 0) + (if layout.isHf then 1 else 0)
  }

  predicate LayoutOf(layout: DirLayout, f: Conversion.Format) {
    match f
    case Yolo => layout.isYolo
    case Voc => layout.isVoc
    case Cvat => layout.isCvat
    case HfImagefolder => layout.isHf
    case _ => false
  }

  /**
   * `detect_dir_format`: fails when two layouts match (naming the first
   * pair checked), succeeds with the only match, and fails when none does.
   */
  function DetectDirFormat(layout: DirLayout): (r: Result<Conversion.Format, CliError>)
    ensures r.Ok? <==> Matches(layout) == 1
    ensures r.Ok? ==> LayoutOf(layout, r.value)
    ensures Matches(layout) >= 2 ==> r.Err? && r.error.AmbiguousLayout?
    ensures r.Err? && r.error.AmbiguousLayout? ==>
      LayoutOf(layout, r.error.first) && LayoutOf(layout, r.error.second) && r.error.first != r.error.second
    ensures Matches(layout) == 0 ==> r == Err(UnrecognizedLayout)
  {
    if layout.isYolo && layout.isVoc then Err(AmbiguousLayout(Conversion.Yolo, Conversion.Voc))
    else if layout.isYolo && layout.isCvat then Err(AmbiguousLayout(Conversion.Yolo, Conversion.Cvat))
    else if layout.isVoc && layout.isCvat then Err(AmbiguousLayout(Conversion.Voc, Conversion.Cvat))
    else if layout.isHf && layout.isYolo then Err(AmbiguousLayout(Conversion.HfImagefolder, Conversion.Yolo))
    else if layout.isHf && layout.isVoc then Err(AmbiguousLayout(Conversion.HfImagefolder, Conversion.Voc))
    else if layout.isHf && layout.isCvat then Err(AmbiguousLayout(Conversion.HfImagefolder, Conversion.Cvat))
    else if layout.isYolo then Ok(Conversion.Yolo)
    else if layout.isVoc then Ok(Conversion.Voc)
    else if layout.isCvat then Ok(Conversion.Cvat)
    else if layout.isHf then Ok(Conversion.HfImagefolder)
    else Err(UnrecognizedLayout)
  }

  // ---------------------------------------------------------------------
  // detect_json_format / is_likely_label_studio_task
  // ---------------------------------------------------------------------

  /** `is_likely_label_studio_task`: an object whose `data` object has a string `image`. */
  predicate IsLikelyLabelStudioTask(v: Value) {
    && Field(v, "data").Some? && Field(v, "data").value.Object?
    && Field(Field(v, "data").value, "image").Some?
    && Field(Field(v, "data").value, "image").value.Str?
  }

  /** The first annotation of an object root, when it has an `annotations` array with one. */
  function FirstAnnotation(v: Value): Option<Value> {
    var anns := Field(v, "annotations");
    if anns.Some? && anns.value.Array? && |anns.value.items| > 0 then Some(anns.value.items[0]) else None
  }

  predicate AllNumbers(items: seq<Value>) {
    forall k :: 0 <= k < |items| ==> items[k].Num?
  }

  /** A COCO box: exactly four numbers. */
  predicate IsCocoBBox(b: Value) {
    b.Array? && |b.items| == 4 && AllNumbers(b.items)
  }

  /** An IR box: an object with `min` and `max`, or with the four flat corner keys. */
  predicate IsIrBBox(b: Value) {
    b.Object? && (
      (Has(b.members, "min") && Has(b.members, "max"))
      || (Has(b.members, "xmin") && Has(b.members, "ymin") && Has(b.members, "xmax") && Has(b.members, "ymax")))
  }

  /** The object-root heuristic: the shape of the first annotation's `bbox`. */
  function DetectObjectRoot(v: Value): (r: Result<Conversion.Format, CliError>)
    ensures r.Ok? ==> r.value == Conversion.Coco || r.value == Conversion.IrJson
  {
    var anns := Field(v, "annotations");
    if anns.None? || !anns.value.Array? then Err(MissingAnnotationsArray)
    else if |anns.value.items| == 0 then Err(EmptyAnnotationsArray)
    else
      var bbox := Field(anns.value.items[0], "bbox");
      if bbox.None? then Err(FirstAnnotationWithoutBBox)
      else if bbox.value.Array? then
        if |bbox.value.items| == 4 && AllNumbers(bbox.value.items) then Ok(Conversion.Coco)
        else Err(BBoxArrayNotXywh(|bbox.value.items|))
      else if bbox.value.Object? then
        if Has(bbox.value.members, "min") && Has(bbox.value.members, "max") then Ok(Conversion.IrJson)
        else if Has(bbox.value.members, "xmin") && Has(bbox.value.members, "ymin")
             && Has(bbox.value.members, "xmax") && Has(bbox.value.members, "ymax") then Ok(Conversion.IrJson)
        else Err(BBoxObjectNotIr)
      else Err(BBoxUnexpectedType)
  }

  /**
   * `detect_json_format` once the file is parsed: an array root is a Label
   * Studio export when it is empty or its first task looks like one; an
   * object root is told apart by its first annotation's box.
   */
  function DetectJsonFormat(v: Value): (r: Result<Conversion.Format, CliError>)
    ensures v.Array? ==> (r.Ok? <==> |v.items| == 0 || IsLikelyLabelStudioTask(v.items[0]))
    ensures v.Array? && r.Ok? ==> r.value == Conversion.LabelStudio
    ensures !v.Array? ==> r == DetectObjectRoot(v)
  {
    if v.Array? then
      if |v.items| == 0 then Ok(Conversion.LabelStudio)
      else if IsLikelyLabelStudioTask(v.items[0]) then Ok(Conversion.LabelStudio)
      else Err(ArrayRootNotLabelStudio)
    else DetectObjectRoot(v)
  }

  /** An object root is COCO exactly when its first annotation's box is four numbers. */
  lemma DetectCocoIff(v: Value)
    requires !v.Array?
    ensures DetectJsonFormat(v) == Ok(Conversion.Coco) <==>
      FirstAnnotation(v).Some? && Field(FirstAnnotation(v).value, "bbox").Some?
      && IsCocoBBox(Field(FirstAnnotation(v).value, "bbox").value)
  {
  }

  /** An object root is IR JSON exactly when its first annotation's box has the IR corner keys. */
  lemma DetectIrJsonIff(v: Value)
    requires !v.Array?
    ensures DetectJsonFormat(v) == Ok(Conversion.IrJson) <==>
      FirstAnnotation(v).Some? && Field(FirstAnnotation(v).value, "bbox").Some?
      && IsIrBBox(Field(FirstAnnotation(v).value, "bbox").value)
  {
  }

  /** JSON detection only ever answers Label Studio, COCO or IR JSON. */
  lemma DetectJsonFormats(v: Value)
    ensures DetectJsonFormat(v).Ok? ==>
      DetectJsonFormat(v).value in {Conversion.LabelStudio, Conversion.Coco, Conversion.IrJson}
  {
  }

  // ---------------------------------------------------------------------
  // Exit rules of run_validate / run_convert / run_sample
  // ---------------------------------------------------------------------

  /**
   * The exit rule of `validate` (and of `convert`'s validation step): fail
   * on any error, and on any warning when `--strict` is given.
   */
  function ValidationGate(report: ValidationReports.ValidationReport, strict: bool): (r: Result<(), CliError>)
    reads report
    ensures r.Ok? <==> report.IsOk() && (strict ==> report.IsClean())
    ensures r.Err? ==> r.error == ValidationFailed(report.ErrorCount(), report.WarningCount())
  {
    if report.ErrorCount() > 0 || (strict && report.WarningCount() > 0) then
      Err(ValidationFailed(report.ErrorCount(), report.WarningCount()))
    else Ok(())
  }

  /** The lossiness rule of `convert` and `sample`: a report with a warning blocks unless `--allow-lossy`. */
  function LossyGate(report: ConversionReports.ConversionReport, allowLossy: bool, from: string, to: string)
    : (r: Result<(), CliError>)
    reads report
    ensures r.Ok? <==> allowLossy || forall k :: 0 <= k < |report.issues| ==> report.issues[k].severity.Info?
    ensures r.Err? ==> r.error == LossyConversionBlocked(from, to)
  {
    if report.IsLossy() && !allowLossy then Err(LossyConversionBlocked(from, to)) else Ok(())
  }
}
