// The text side of the YOLO adapter (src/ir/io_yolo.rs): one label line,
// the three sources of the class-name list (data.yaml, classes.txt,
// inference from the class IDs seen) and the single-quoted YAML scalar the
// writer emits. Lines are given already split; float parsing is the
// parameter `parseF64`, since it is IEEE behaviour.
module YoloLabels {
  import opened Wrappers
  import opened Text
  import opened Numbers

  /** One parsed label row: a class index and a normalized centre-size box. */
  datatype LabelRow = LabelRow(classId: nat, cx: real, cy: real, w: real, h: real)

  datatype LineError =
    | TooFewTokens(found: nat)
    | SegmentationOrPose
    | InvalidClassId(token: string)
    | InvalidNumber(field: string, token: string)

  /** At most the first six tokens are looked at. */
  function TakeTokens(tokens: seq<string>): (r: seq<string>)
    ensures r <= tokens && |r| == if |tokens| > 6 then 6 else |tokens|
  {
    if |tokens| > 6 then tokens[..6] else tokens
  }

  function ParseField(token: string, field: string, parseF64: string -> Option<real>): (r: Result<real, LineError>)
    ensures r.Ok? <==> parseF64(token).Some?
    ensures r.Ok? ==> r.value == parseF64(token).value
    ensures r.Err? ==> r.error == InvalidNumber(field, token)
  {
    match parseF64(token)
    case Some(v) => Ok(v)
    case None => Err(InvalidNumber(field, token))
  }

  /** The class index and four numbers of exactly five tokens. */
  function ParseTokens(t: seq<string>, parseF64: string -> Option<real>): (r: Result<LabelRow, LineError>)
    requires |t| == 5
  {
    match ParseU64(t[0])
    case None => Err(InvalidClassId(t[0]))
    case Some(classId) =>
      match ParseField(t[1], "x_center", parseF64)
      case Err(e) => Err(e)
      case Ok(cx) =>
        match ParseField(t[2], "y_center", parseF64)
        case Err(e) => Err(e)
        case Ok(cy) =>
          match ParseField(t[3], "width", parseF64)
          case Err(e) => Err(e)
          case Ok(w) =>
            match ParseField(t[4], "height", parseF64)
            case Err(e) => Err(e)
            case Ok(h) => Ok(LabelRow(classId, cx, cy, w, h))
  }

  /** `parse_label_line`: a blank line is skipped; otherwise exactly five tokens are required. */
  function ParseLabelLine(line: string, parseF64: string -> Option<real>): Result<Option<LabelRow>, LineError> {
    var trimmed := Trim(line);
    if trimmed == "" then Ok(None)
    else
      var tokens := TakeTokens(SplitWhitespace(trimmed));
      if |tokens| < 5 then Err(TooFewTokens(|tokens|))
      else if |tokens| > 5 then Err(SegmentationOrPose)
      else
        match ParseTokens(tokens, parseF64)
        case Err(e) => Err(e)
        case Ok(row) => Ok(Some(row))
  }

  /** A line is skipped exactly when it is empty or white space only. */
  lemma SkippedIffBlank(line: string, parseF64: string -> Option<real>)
    ensures ParseLabelLine(line, parseF64) == Ok(None) <==> AllWhitespace(line)
  {
    BlankIffAllWhitespace(line);
  }

  /**
   * A non-blank line with fewer than five tokens is a count error, one
   * with more is a segmentation/pose error, and a row comes only from five
   * tokens whose first is an unsigned integer and the rest numbers.
   */
  lemma TokenCountRules(line: string, parseF64: string -> Option<real>)
    requires !AllWhitespace(line)
    ensures var t := SplitWhitespace(Trim(line));
      (|t| < 5 ==> ParseLabelLine(line, parseF64) == Err(TooFewTokens(|t|)))
      && (|t| > 5 ==> ParseLabelLine(line, parseF64) == Err(SegmentationOrPose))
    ensures var t := SplitWhitespace(Trim(line));
      ParseLabelLine(line, parseF64).Ok? <==>
        |t| == 5 && ParseU64(t[0]).Some? && parseF64(t[1]).Some? && parseF64(t[2]).Some?
        && parseF64(t[3]).Some? && parseF64(t[4]).Some?
    ensures var t := SplitWhitespace(Trim(line));
      ParseLabelLine(line, parseF64).Ok? ==>
        ParseLabelLine(line, parseF64).value
          == Some(LabelRow(ParseU64(t[0]).value, parseF64(t[1]).value, parseF64(t[2]).value,
                           parseF64(t[3]).value, parseF64(t[4]).value))
  {
    BlankIffAllWhitespace(line);
  }

  // ---------------------------------------------------------- class names

  /** The placeholder name of class `i`: `class_<i>`. */
  function ClassName(i: nat): (s: string)
    ensures |s| > 6 && s[..6] == "class_"
  {
    "class_" + NatToString(i)
  }

  /** Placeholder names are distinct for distinct indices. */
  lemma ClassNameInjective(i: nat, j: nat)
    requires ClassName(i) == ClassName(j)
    ensures i == j
  {
    assert NatToString(i) == ClassName(i)[6..];
    NatToStringInjective(i, j);
  }

  /** The class IDs of the rows among `lines`. */
  function SeenClassIds(lines: seq<string>, parseF64: string -> Option<real>): set<nat> {
    if |lines| == 0 then {}
    else
      var last := ParseLabelLine(lines[|lines| - 1], parseF64);
      SeenClassIds(lines[..|lines| - 1], parseF64)
        + if last.Ok? && last.value.Some? then {last.value.value.classId} else {}
  }

  /** Every line parses (possibly as a skipped blank line). */
  predicate AllParse(lines: seq<string>, parseF64: string -> Option<real>) {
    |lines| == 0
    || (AllParse(lines[..|lines| - 1], parseF64) && ParseLabelLine(lines[|lines| - 1], parseF64).Ok?)
  }

  /** Line `k` is the first that does not parse, with error `e`. */
  predicate FirstFailure(lines: seq<string>, k: int, e: LineError, parseF64: string -> Option<real>) {
    0 <= k < |lines| && ParseLabelLine(lines[k], parseF64) == Err(e) && AllParse(lines[..k], parseF64)
  }

  lemma SeenClassIdsStep(lines: seq<string>, i: nat, parseF64: string -> Option<real>)
    requires i < |lines|
    ensures var p := ParseLabelLine(lines[i], parseF64);
      SeenClassIds(lines[..i + 1], parseF64)
        == SeenClassIds(lines[..i], parseF64) + if p.Ok? && p.value.Some? then {p.value.value.classId} else {}
  {
    var pre := lines[..i + 1];
    assert pre[..i] == lines[..i];
    assert pre[i] == lines[i];
    assert |pre| - 1 == i;
  }

  lemma AllParseStep(lines: seq<string>, i: nat, parseF64: string -> Option<real>)
    requires i < |lines|
    ensures AllParse(lines[..i + 1], parseF64) <==>
      AllParse(lines[..i], parseF64) && ParseLabelLine(lines[i], parseF64).Ok?
  {
    var pre := lines[..i + 1];
    assert pre[..i] == lines[..i];
    assert pre[i] == lines[i];
  }

  /** A failing line makes every longer prefix fail. */
  lemma {:induction false} AllParsePrefix(lines: seq<string>, j: nat, parseF64: string -> Option<real>)
    requires j <= |lines| && AllParse(lines, parseF64)
    ensures AllParse(lines[..j], parseF64)
    decreases |lines|
  {
    if j < |lines| {
      assert lines[..|lines| - 1][..j] == lines[..j];
      AllParsePrefix(lines[..|lines| - 1], j, parseF64);
    } else {
      assert lines[..j] == lines;
    }
  }

  /** The largest element of a non-empty set (`Iterator::max`). */
  method MaxOf(s: set<nat>) returns (m: nat)
    requires s != {}
    ensures m in s && forall x :: x in s ==> x <= m
  {
    m :| m in s;
    var rest := s - {m};
    while rest != {}
      invariant rest <= s && m in s
      invariant forall x :: x in s && x !in rest ==> x <= m
      decreases rest
    {
      var x :| x in rest;
      if x > m {
        m := x;
      }
      rest := rest - {x};
    }
  }

  /**
   * `infer_class_map`: the class IDs of every row are collected into a
   * set; the names are `class_0..=class_max`, or none when no row exists.
   * The first line that does not parse is the error.
   */
  method InferClassMap(lines: seq<string>, parseF64: string -> Option<real>)
    returns (r: Result<seq<string>, LineError>)
    ensures r.Ok? <==> AllParse(lines, parseF64)
    ensures r.Ok? && SeenClassIds(lines, parseF64) == {} ==> r.value == []
    ensures r.Ok? && SeenClassIds(lines, parseF64) != {} ==>
      |r.value| - 1 in SeenClassIds(lines, parseF64)
      && forall id :: id in SeenClassIds(lines, parseF64) ==> id < |r.value|
    ensures r.Ok? ==> forall i :: 0 <= i < |r.value| ==> r.value[i] == ClassName(i)
    ensures r.Err? ==> exists k :: FirstFailure(lines, k, r.error, parseF64)
  {
    var classIds: set<nat> := {};
    for i := 0 to |lines|
      invariant classIds == SeenClassIds(lines[..i], parseF64)
      invariant AllParse(lines[..i], parseF64)
    {
      var parsed := ParseLabelLine(lines[i], parseF64);
      SeenClassIdsStep(lines, i, parseF64);
      AllParseStep(lines, i, parseF64);
      if parsed.Err? {
        assert FirstFailure(lines, i, parsed.error, parseF64);
        if AllParse(lines, parseF64) {
          AllParsePrefix(lines, i + 1, parseF64);
        }
        return Err(parsed.error);
      }
      if parsed.value.Some? {
        classIds := classIds + {parsed.value.value.classId};
      }
    }
    assert lines[..|lines|] == lines;
    if classIds == {} {
      return Ok([]);
    }
    var maxId := MaxOf(classIds);
    var names := seq(maxId + 1, i requires 0 <= i <= maxId => ClassName(i));
    return Ok(names);
  }

  /** Where the class names come from. */
  datatype ClassMapSource = DataYamlFile | ClassesTxtFile | Inferred

  /**
   * `data.yaml` beside the dataset wins over `classes.txt`; with neither,
   * the class map is inferred from the labels.
   */
  function ClassMapSourceOf(hasDataYaml: bool, hasClassesTxt: bool): (source: ClassMapSource)
    ensures hasDataYaml ==> source == DataYamlFile
    ensures source == ClassesTxtFile <==> !hasDataYaml && hasClassesTxt
    ensures source == Inferred <==> !hasDataYaml && !hasClassesTxt
  {
    if hasDataYaml then DataYamlFile
    else if hasClassesTxt then ClassesTxtFile
    else Inferred
  }

  datatype DataYamlNames = Sequence(names: seq<string>) | Mapping(entries: map<nat, string>)

  /** The name a mapping gives class `i`: its entry unless missing or blank, else `class_<i>`. */
  function MappedName(entries: map<nat, string>, i: nat): string {
    if i in entries && !IsBlank(entries[i]) then entries[i] else ClassName(i)
  }

  /**
   * `read_data_yaml_names`: a list is taken as is; a mapping fills a
   * `max + 1` vector in place and then names every gap or blank entry
   * `class_<i>`.
   */
  method DataYamlClassNames(yaml: DataYamlNames) returns (names: seq<string>)
    ensures yaml.Sequence? ==> names == yaml.names
    ensures yaml.Mapping? && yaml.entries == map[] ==> names == []
    ensures yaml.Mapping? && yaml.entries != map[] ==>
      |names| - 1 in yaml.entries && forall i :: i in yaml.entries ==> i < |names|
    ensures yaml.Mapping? ==> forall i :: 0 <= i < |names| ==> names[i] == MappedName(yaml.entries, i)
  {
    match yaml
    case Sequence(list) =>
      names := list;
    case Mapping(entries) =>
      if entries == map[] {
        names := [];
        return;
      }
      var maxIndex := MaxOf(entries.Keys);
      var slots := new string[maxIndex + 1](_ => "");
      FillSlots(slots, entries);
      NameBlankSlots(slots, entries);
      names := slots[..];
  }

  /** `names[index] = name` for every entry of the mapping. */
  method FillSlots(slots: array<string>, entries: map<nat, string>)
    requires forall i :: i in entries ==> i < slots.Length
    requires forall i :: 0 <= i < slots.Length ==> slots[i] == ""
    modifies slots
    ensures forall i :: 0 <= i < slots.Length ==> slots[i] == if i in entries then entries[i] else ""
  {
    var rest := entries.Keys;
    while rest != {}
      invariant rest <= entries.Keys
      invariant forall i :: 0 <= i < slots.Length ==>
        slots[i] == if i in entries && i !in rest then entries[i] else ""
      decreases rest
    {
      var index :| index in rest;
      slots[index] := entries[index];
      rest := rest - {index};
    }
  }

  /** Every slot whose name is blank becomes `class_<i>`. */
  method NameBlankSlots(slots: array<string>, entries: map<nat, string>)
    requires forall i :: 0 <= i < slots.Length ==> slots[i] == if i in entries then entries[i] else ""
    modifies slots
    ensures forall i :: 0 <= i < slots.Length ==> slots[i] == MappedName(entries, i)
  {
    assert IsBlank("") by { assert Trim("") == ""; }
    for i := 0 to slots.Length
      invariant forall j :: 0 <= j < i ==> slots[j] == MappedName(entries, j)
      invariant forall j :: i <= j < slots.Length ==> slots[j] == old(slots[j])
    {
      if IsBlank(slots[i]) {
        slots[i] := ClassName(i);
      }
    }
  }

  /**
   * `read_classes_txt`: one trimmed name per line; the first blank line is
   * an error naming its 1-based number.
   */
  method ReadClassesTxt(lines: seq<string>) returns (r: Result<seq<string>, nat>)
    ensures r.Ok? <==> forall k :: 0 <= k < |lines| ==> !IsBlank(lines[k])
    ensures r.Ok? ==> |r.value| == |lines| && forall k :: 0 <= k < |lines| ==> r.value[k] == Trim(lines[k])
    ensures r.Ok? ==> forall k :: 0 <= k < |lines| ==> r.value[k] != ""
    ensures r.Err? ==> 1 <= r.error <= |lines| && IsBlank(lines[r.error - 1])
    ensures r.Err? ==> forall k :: 0 <= k < r.error - 1 ==> !IsBlank(lines[k])
  {
    var names: seq<string> := [];
    for i := 0 to |lines|
      invariant |names| == i && forall k :: 0 <= k < i ==> names[k] == Trim(lines[k]) && !IsBlank(lines[k])
    {
      var trimmed := Trim(lines[i]);
      if trimmed == "" {
        return Err(i + 1);
      }
      names := names + [trimmed];
    }
    return Ok(names);
  }

  // ------------------------------------------------------------ data.yaml

  /** `yaml_single_quoted`: wrapped in `'`, every inner `'` doubled. */
  function YamlSingleQuoted(raw: string): (s: string)
    ensures |s| >= 2 && s[0] == '\'' && s[|s| - 1] == '\''
  {
    "'" + ReplaceChar(raw, '\'', "''") + "'"
  }

  /** How a YAML reader undoes the escaping inside a single-quoted scalar: `''` becomes `'`. */
  function CollapseQuotes(s: string): string
    decreases |s|
  {
    if |s| >= 2 && s[0] == '\'' && s[1] == '\'' then "'" + CollapseQuotes(s[2..])
    else if |s| == 0 then ""
    else [s[0]] + CollapseQuotes(s[1..])
  }

  /** The value of a single-quoted YAML scalar. */
  function YamlUnquote(s: string): string
    requires |s| >= 2
  {
    CollapseQuotes(s[1..|s| - 1])
  }

  lemma {:induction false} CollapseDoubled(raw: string)
    ensures CollapseQuotes(ReplaceChar(raw, '\'', "''")) == raw
  {
    if |raw| > 0 {
      var rest := ReplaceChar(raw[1..], '\'', "''");
      CollapseDoubled(raw[1..]);
      if raw[0] == '\'' {
        assert ReplaceChar(raw, '\'', "''") == "''" + rest;
        assert ("''" + rest)[2..] == rest;
      } else {
        assert ReplaceChar(raw, '\'', "''") == [raw[0]] + rest;
        assert ([raw[0]] + rest)[1..] == rest;
      }
      assert raw == [raw[0]] + raw[1..];
    }
  }

  /** Reading the quoted name back gives the original name. */
  lemma YamlQuoteRoundTrip(raw: string)
    ensures YamlUnquote(YamlSingleQuoted(raw)) == raw
  {
    var q := YamlSingleQuoted(raw);
    assert q[1..|q| - 1] == ReplaceChar(raw, '\'', "''");
    CollapseDoubled(raw);
  }
}
