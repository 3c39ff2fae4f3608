// The best-effort look at a Hugging Face dataset through the dataset
// viewer API before downloading it (src/hf/preflight.rs): its splits and
// configs, its features, the column holding the objects, the class-label
// names, the license and description, and the split to use. The HTTP
// requests are left out: their answers, already parsed as JSON, are inputs.
module HfPreflight {
  import opened Wrappers
  import opened JsonValue
  import StrOrder
  import Text

  /** `HfPreflight`. */
  datatype Preflight = Preflight(
    splits: seq<string>,
    configs: seq<string>,
    features: Option<Value>,
    detectedObjectsColumn: Option<string>,
    categoryLabels: Option<seq<string>>,
    license: Option<string>,
    description: Option<string>,
    selectedSplit: Option<string>)

  /** A string member of an object. */
  function FieldStr(v: Value, key: string): Option<string> {
    var f := Field(v, key);
    if f.Some? && f.value.Str? then Some(f.value.s) else None
  }

  // ---------------------------------------------------------------------
  // The `info` answer
  // ---------------------------------------------------------------------

  /** `extract_features`: `dataset_info.features`, else a top-level `features`. */
  function ExtractFeatures(info: Value): (r: Option<Value>)
    ensures Field(info, "dataset_info").Some? && Field(Field(info, "dataset_info").value, "features").Some?
            ==> r == Field(Field(info, "dataset_info").value, "features")
    ensures r.None? <==> (Field(info, "dataset_info").None?
                           || Field(Field(info, "dataset_info").value, "features").None?)
                          && Field(info, "features").None?
  {
    var nested := Field(info, "dataset_info");
    var inner := if nested.Some? then Field(nested.value, "features") else None;
    if inner.Some? then inner else Field(info, "features")
  }

  /**
   * `extract_license` and `extract_description`: the string under `key` in
   * `dataset_info`, else the top-level string under `key`.
   */
  function InfoString(info: Value, key: string): (r: Option<string>)
    ensures r.Some? <==> (Field(info, "dataset_info").Some? && FieldStr(Field(info, "dataset_info").value, key).Some?)
                         || FieldStr(info, key).Some?
    ensures Field(info, "dataset_info").Some? && FieldStr(Field(info, "dataset_info").value, key).Some?
            ==> r == FieldStr(Field(info, "dataset_info").value, key)
  {
    var nested := Field(info, "dataset_info");
    var inner := if nested.Some? then FieldStr(nested.value, key) else None;
    if inner.Some? then inner else FieldStr(info, key)
  }

  // ---------------------------------------------------------------------
  // The `splits` answer
  // ---------------------------------------------------------------------

  /** The entries of the `splits` array. */
  function SplitItems(splitsJson: Value): seq<Value> {
    var items := Field(splitsJson, "splits");
    if items.Some? && items.value.Array? then items.value.items else []
  }

  /** The strings found under `key` in the given entries. */
  function Listed(items: seq<Value>, key: string): set<string> {
    set item | item in items && FieldStr(item, key).Some? :: FieldStr(item, key).value
  }

  /** The names under `key` of the `splits` entries, sorted and without repeats (a `BTreeSet` drained in order). */
  method CollectNames(splitsJson: Value, key: string) returns (names: seq<string>)
    ensures names == StrOrder.SortedKeys(Listed(SplitItems(splitsJson), key))
  {
    var items := SplitItems(splitsJson);
    names := [];
    var i := 0;
    while i < |items|
      invariant 0 <= i <= |items|
      invariant StrOrder.StrictlySorted(names)
      invariant forall y :: y in names <==> y in Listed(items[..i], key)
    {
      assert forall it :: it in items[..i + 1] <==> it in items[..i] || it == items[i];
      var name := FieldStr(items[i], key);
      if name.Some? {
        names := StrOrder.InsertUnique(names, name.value);
      }
      i := i + 1;
    }
    assert items[..|items|] == items;
    StrOrder.StrictlySortedUnique(names, StrOrder.SortedKeys(Listed(items, key)));
  }

  /** `extract_split_names`. */
  method ExtractSplitNames(splitsJson: Value) returns (names: seq<string>)
    ensures StrOrder.StrictlySorted(names)
    ensures forall n :: n in names <==> n in Listed(SplitItems(splitsJson), "split")
  {
    names := CollectNames(splitsJson, "split");
  }

  /** `extract_config_names`. */
  method ExtractConfigNames(splitsJson: Value) returns (names: seq<string>)
    ensures StrOrder.StrictlySorted(names)
    ensures forall n :: n in names <==> n in Listed(SplitItems(splitsJson), "config")
  {
    names := CollectNames(splitsJson, "config");
  }

  // ---------------------------------------------------------------------
  // The objects column
  // ---------------------------------------------------------------------

  /** `objects` if present, else `faces`. */
  function ObjectsColumnOf(members: seq<(string, Value)>): (r: Option<string>)
    ensures r == Some("objects") <==> Has(members, "objects")
    ensures r == Some("faces") <==> !Has(members, "objects") && Has(members, "faces")
    ensures r.None? <==> !Has(members, "objects") && !Has(members, "faces")
  {
    if Has(members, "objects") then Some("objects")
    else if Has(members, "faces") then Some("faces")
    else None
  }

  /** `detect_objects_column_from_features`. */
  function DetectObjectsColumnFromFeatures(features: Value): (r: Option<string>)
    ensures !features.Object? ==> r.None?
    ensures features.Object? ==> r == ObjectsColumnOf(features.members)
  {
    if features.Object? then ObjectsColumnOf(features.members) else None
  }

  /** The `row` object of the first entry of `rows`. */
  function FirstRow(firstRows: Value): Option<seq<(string, Value)>> {
    var rows := Field(firstRows, "rows");
    if rows.None? || !rows.value.Array? || |rows.value.items| == 0 then None
    else
      var row := Field(rows.value.items[0], "row");
      if row.Some? && row.value.Object? then Some(row.value.members) else None
  }

  /** `detect_objects_column_from_first_rows`. */
  function DetectObjectsColumnFromFirstRows(firstRows: Value): (r: Option<string>)
    ensures FirstRow(firstRows).None? ==> r.None?
    ensures FirstRow(firstRows).Some? ==> r == ObjectsColumnOf(FirstRow(firstRows).value)
  {
    var row := FirstRow(firstRows);
    if row.Some? then ObjectsColumnOf(row.value) else None
  }

  // ---------------------------------------------------------------------
  // Class-label names
  // ---------------------------------------------------------------------

  /** The string entries of a `names` array. */
  function Strings(values: seq<Value>): (r: seq<string>)
    ensures |r| <= |values|
  {
    if |values| == 0 then []
    else
      var rest := Strings(values[..|values| - 1]);
      var last := values[|values| - 1];
      if last.Str? then rest + [last.s] else rest
  }

  /** A `ClassLabel` node (`_type` in any ASCII case) and the string names it lists. */
  function OwnLabels(v: Value): Option<seq<string>> {
    var t := FieldStr(v, "_type");
    if t.Some? && Text.EqIgnoreAsciiCase(t.value, "ClassLabel") then
      var names := Field(v, "names");
      Some(if names.Some? && names.value.Array? then Strings(names.value.items) else [])
    else None
  }

  /** `find_classlabel_names_in_value`: a depth-first search for a `ClassLabel` node with names. */
  function FindLabels(v: Value): (r: Option<seq<string>>)
    ensures r.Some? ==> |r.value| > 0
    decreases v, 1
  {
    if !v.Object? then None
    else
      var own := OwnLabels(v);
      if own.Some? && |own.value| > 0 then own
      else
        var inChildren := FindInChildren(v, 0);
        if inChildren.Some? then inChildren
        else
          var feature := Get(v.members, "feature");
          if feature.Some? then
            var k :| 0 <= k < |v.members| && v.members[k] == ("feature", feature.value);
            assert v.members[k].1 < v;
            FindLabels(feature.value)
          else None
  }

  /** The first member value, from index `i`, in which the search finds names. */
  function FindInChildren(v: Value, i: nat): (r: Option<seq<string>>)
    requires v.Object?
    ensures r.Some? ==> |r.value| > 0
    decreases v, 0, |v.members| - i
  {
    if i >= |v.members| then None
    else
      assert v.members[i].1 < v;
      var found := FindLabels(v.members[i].1);
      if found.Some? && |found.value| > 0 then found else FindInChildren(v, i + 1)
  }

  /** Somewhere in `v` is a `ClassLabel` node listing at least one name. */
  predicate HasLabels(v: Value)
    decreases v, 1
  {
    v.Object? && ((OwnLabels(v).Some? && |OwnLabels(v).value| > 0) || HasLabelsFrom(v, 0))
  }

  predicate HasLabelsFrom(v: Value, i: nat)
    requires v.Object?
    decreases v, 0, |v.members| - i
  {
    i < |v.members| && (assert v.members[i].1 < v; HasLabels(v.members[i].1) || HasLabelsFrom(v, i + 1))
  }

  /** The search finds names exactly when there is a labelled `ClassLabel` node. */
  lemma {:induction false} FindLabelsComplete(v: Value)
    ensures FindLabels(v).Some? <==> HasLabels(v)
    decreases v, 1
  {
    if v.Object? {
      FindInChildrenComplete(v, 0);
      var own := OwnLabels(v);
      if !(own.Some? && |own.value| > 0) && FindInChildren(v, 0).None? {
        var feature := Get(v.members, "feature");
        if feature.Some? {
          var k :| 0 <= k < |v.members| && v.members[k] == ("feature", feature.value);
          assert v.members[k].1 < v;
          FindLabelsComplete(feature.value);
          ChildWithoutLabels(v, 0, k);
        }
      }
    }
  }

  lemma {:induction false} FindInChildrenComplete(v: Value, i: nat)
    requires v.Object?
    ensures FindInChildren(v, i).Some? <==> HasLabelsFrom(v, i)
    decreases v, 0, |v.members| - i
  {
    if i < |v.members| {
      assert v.members[i].1 < v;
      FindLabelsComplete(v.members[i].1);
      FindInChildrenComplete(v, i + 1);
    }
  }

  /** When no member from `i` on holds labels, member `k` (at or after `i`) does not either. */
  lemma {:induction false} ChildWithoutLabels(v: Value, i: nat, k: nat)
    requires v.Object? && i <= k < |v.members| && !HasLabelsFrom(v, i)
    ensures !HasLabels(v.members[k].1)
    decreases k - i
  {
    if i < k {
      ChildWithoutLabels(v, i + 1, k);
    }
  }

  /** The names found are those of a `ClassLabel` node inside `v`. */
  ghost predicate LabelsIn(v: Value, names: seq<string>)
    decreases v
  {
    v.Object?
    && (OwnLabels(v) == Some(names)
        || exists k :: 0 <= k < |v.members| && (assert v.members[k].1 < v; LabelsIn(v.members[k].1, names)))
  }

  lemma {:induction false} FindLabelsSound(v: Value)
    ensures FindLabels(v).Some? ==> LabelsIn(v, FindLabels(v).value)
    decreases v, 1
  {
    if v.Object? {
      var own := OwnLabels(v);
      if !(own.Some? && |own.value| > 0) {
        var inChildren := FindInChildren(v, 0);
        if inChildren.Some? {
          FindInChildrenSound(v, 0);
        } else {
          var feature := Get(v.members, "feature");
          if feature.Some? {
            var k :| 0 <= k < |v.members| && v.members[k] == ("feature", feature.value);
            assert v.members[k].1 < v;
            FindLabelsSound(feature.value);
          }
        }
      }
    }
  }

  lemma {:induction false} FindInChildrenSound(v: Value, i: nat)
    requires v.Object?
    ensures FindInChildren(v, i).Some?
            ==> exists k :: i <= k < |v.members| && LabelsIn(v.members[k].1, FindInChildren(v, i).value)
    decreases v, 0, |v.members| - i
  {
    if i < |v.members| {
      assert v.members[i].1 < v;
      FindLabelsSound(v.members[i].1);
      FindInChildrenSound(v, i + 1);
    }
  }

  /** `extract_classlabel_names_from_features`: the `objects` container first, then `faces`, then every feature. */
  function ExtractClassLabelNames(features: Value): (r: Option<seq<string>>)
    ensures r.Some? ==> |r.value| > 0
  {
    if features.Object? then
      var fromObjects := FromContainer(features, "objects");
      if fromObjects.Some? then fromObjects
      else
        var fromFaces := FromContainer(features, "faces");
        if fromFaces.Some? then fromFaces
        else
          var fromAny := FindInChildren(features, 0);
          if fromAny.Some? then fromAny else FindLabels(features)
    else FindLabels(features)
  }

  /** The search run on one named member. */
  function FromContainer(features: Value, container: string): Option<seq<string>> {
    var inner := Field(features, container);
    if inner.Some? then FindLabels(inner.value) else None
  }

  /** Names are found exactly when some `ClassLabel` node of the features lists one. */
  lemma ExtractClassLabelNamesComplete(features: Value)
    ensures ExtractClassLabelNames(features).Some? <==> HasLabels(features)
  {
    FindLabelsComplete(features);
    if features.Object? {
      ContainerHasLabels(features, "objects");
      ContainerHasLabels(features, "faces");
    }
  }

  lemma ContainerHasLabels(features: Value, container: string)
    requires features.Object?
    ensures FromContainer(features, container).Some? ==> HasLabels(features)
  {
    var inner := Field(features, container);
    if inner.Some? {
      var k :| 0 <= k < |features.members| && features.members[k] == (container, inner.value);
      FindLabelsComplete(inner.value);
      if HasLabels(inner.value) {
        LabelsFromChild(features, 0, k);
      }
    }
  }

  /** A member with labels makes every earlier starting point find some. */
  lemma {:induction false} LabelsFromChild(v: Value, i: nat, k: nat)
    requires v.Object? && i <= k < |v.members| && HasLabels(v.members[k].1)
    ensures HasLabelsFrom(v, i)
    decreases k - i
  {
    if i < k {
      LabelsFromChild(v, i + 1, k);
    }
  }

  /** Labels under `objects` win over everything else. */
  lemma ObjectsLabelsPreferred(features: Value, objects: Value)
    requires features.Object? && Field(features, "objects") == Some(objects) && HasLabels(objects)
    ensures ExtractClassLabelNames(features) == FindLabels(objects)
  {
    FindLabelsComplete(objects);
    assert FromContainer(features, "objects") == FindLabels(objects);
  }

  // ---------------------------------------------------------------------
  // run_preflight
  // ---------------------------------------------------------------------

  /** The split used: the requested one, else `train` when listed, else the first listed. */
  function SelectSplit(requested: Option<string>, splits: seq<string>): (r: Option<string>)
    ensures requested.Some? ==> r == requested
    ensures requested.None? && "train" in splits ==> r == Some("train")
    ensures requested.None? ==> (r.Some? <==> |splits| > 0)
    ensures requested.None? && r.Some? ==> r.value in splits
  {
    if requested.Some? then requested
    else if "train" in splits then Some("train")
    else if |splits| > 0 then Some(splits[0])
    else None
  }

  /**
   * `run_preflight`, given the viewer's answers: `info` (nothing when that
   * request failed), `splits` and the `first-rows` answer for a split.
   */
  method RunPreflight(requestedSplit: Option<string>, info: Option<Value>, splitsJson: Option<Value>,
                      firstRows: string -> Option<Value>) returns (r: Option<Preflight>)
    ensures r.None? <==> info.None?
    ensures r.Some? ==> r.value.features == ExtractFeatures(info.value)
    ensures r.Some? ==> r.value.splits == (if splitsJson.Some? then StrOrder.SortedKeys(Listed(SplitItems(splitsJson.value), "split")) else [])
    ensures r.Some? ==> r.value.configs == (if splitsJson.Some? then StrOrder.SortedKeys(Listed(SplitItems(splitsJson.value), "config")) else [])
    ensures r.Some? ==> r.value.selectedSplit == SelectSplit(requestedSplit, r.value.splits)
    ensures r.Some? && r.value.features.Some? && DetectObjectsColumnFromFeatures(r.value.features.value).Some?
            ==> r.value.detectedObjectsColumn == DetectObjectsColumnFromFeatures(r.value.features.value)
    ensures r.Some? && (r.value.features.None? || DetectObjectsColumnFromFeatures(r.value.features.value).None?)
            ==> r.value.detectedObjectsColumn
                == (if r.value.selectedSplit.Some? && firstRows(r.value.selectedSplit.value).Some?
                    then DetectObjectsColumnFromFirstRows(firstRows(r.value.selectedSplit.value).value)
                    else None)
    ensures r.Some? ==> r.value.categoryLabels
                        == (if r.value.features.Some? then ExtractClassLabelNames(r.value.features.value) else None)
    ensures r.Some? ==> r.value.license == InfoString(info.value, "license")
                        && r.value.description == InfoString(info.value, "description")
  {
    if info.None? {
      return None;
    }
    var features := ExtractFeatures(info.value);
    var fromFeatures := if features.Some? then DetectObjectsColumnFromFeatures(features.value) else None;
    var labels := if features.Some? then ExtractClassLabelNames(features.value) else None;
    var splits: seq<string> := [];
    var configs: seq<string> := [];
    if splitsJson.Some? {
      splits := CollectNames(splitsJson.value, "split");
      configs := CollectNames(splitsJson.value, "config");
    }
    var selected := SelectSplit(requestedSplit, splits);
    var column := fromFeatures;
    if column.None? && selected.Some? {
      var rows := firstRows(selected.value);
      if rows.Some? {
        column := DetectObjectsColumnFromFirstRows(rows.value);
      }
    }
    r := Some(Preflight(splits, configs, features, column, labels, InfoString(info.value, "license"),
                        InfoString(info.value, "description"), selected));
  }
}
