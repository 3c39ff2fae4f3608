// Choosing which files of a Hugging Face dataset repository to download
// (src/hf/acquire.rs): the annotation file (a metadata.jsonl, a
// metadata.parquet or a split's parquet shards), the split it belongs to,
// and the images or sibling shards that go with it. The hub API, the
// downloads and the file reads are left out; the repository listing and
// the metadata lines are inputs.
//
// Repository paths are hub paths: `/`-separated, no empty, `.` or `..`
// segment, no leading or trailing `/`. On such paths `std::path::Path`'s
// file name, parent, components and extension are the ones written below.
module HfAcquire {
  import opened Wrappers
  import opened Text
  import opened JsonValue
  import StrOrder
  import Seqs
  import Sorting

  /** `HfMetadataFormat`. */
  datatype MetadataFormat = Jsonl | Parquet

  /** `MetadataCandidate`. */
  datatype Candidate = Candidate(path: string, format: MetadataFormat, splitName: Option<string>, depth: nat,
                                 isMetadataFile: bool)

  // ---------------------------------------------------------------------
  // Paths
  // ---------------------------------------------------------------------

  /** `path.split('/').count()`. */
  function Depth(path: string): (d: nat)
    ensures d >= 1
  {
    |Split(path, '/')|
  }

  /** A path of depth one is a bare file name. */
  lemma DepthOneIffNoSlash(path: string)
    ensures Depth(path) == 1 <==> '/' !in path
  {
  }

  /** The last component: what follows the last `/`. */
  function FileName(path: string): (name: string)
    ensures '/' !in name
  {
    if '/' in path then path[LastIndex(path, '/') + 1..] else path
  }

  /** `Path::parent`: nothing for the empty path, `""` for a bare file name. */
  function Parent(path: string): (r: Option<string>)
    ensures r.Some? <==> path != ""
    ensures r.Some? && '/' in path ==> r.value + "/" + FileName(path) == path
  {
    if path == "" then None
    else if '/' !in path then Some("")
    else
      var i := LastIndex(path, '/');
      assert path == path[..i] + "/" + path[i + 1..];
      Some(path[..i])
  }

  /** The only occurrence of `c` past index `i` is at `i` itself: `i` is the last index. */
  lemma LastIndexAt(s: string, c: char, i: nat)
    requires i < |s| && s[i] == c && c !in s[i + 1..]
    ensures LastIndex(s, c) == i
  {
    var l := LastIndex(s, c);
    assert forall j :: i < j < |s| ==> s[j] != c by {
      forall j | i < j < |s| ensures s[j] != c {
        assert s[i + 1..][j - i - 1] == s[j];
      }
    }
    assert forall j :: l < j < |s| ==> s[j] != c by {
      forall j | l < j < |s| ensures s[j] != c {
        assert s[l + 1..][j - l - 1] == s[j];
      }
    }
  }

  /** The file name of `dir/name`. */
  lemma FileNameOfJoin(dir: string, name: string)
    requires '/' !in name
    ensures FileName(dir + "/" + name) == name
  {
    var path := dir + "/" + name;
    assert path[|dir|] == '/';
    assert path[|dir| + 1..] == name;
    LastIndexAt(path, '/', |dir|);
  }

  /** `Path::extension`: what follows the last dot of the file name, unless that dot starts it. */
  function Extension(path: string): (r: Option<string>)
    ensures r.Some? ==> '.' !in r.value && '/' !in r.value
  {
    var name := FileName(path);
    if '.' in name && LastIndex(name, '.') > 0 then Some(name[LastIndex(name, '.') + 1..])
    else None
  }

  // ---------------------------------------------------------------------
  // Split names
  // ---------------------------------------------------------------------

  /** The canonical split names. */
  predicate IsCanonicalSplit(s: string) {
    s == "train" || s == "test" || s == "validation" || s == "dev"
  }

  /** `normalize_split_name`: the canonical name of a split, in any ASCII case, with `valid`/`val` as `validation`. */
  function NormalizeSplitName(name: string): (r: Option<string>)
    ensures r.Some? ==> IsCanonicalSplit(r.value)
  {
    var lower := AsciiLower(name);
    if lower == "train" then Some("train")
    else if lower == "test" then Some("test")
    else if lower == "validation" || lower == "valid" || lower == "val" then Some("validation")
    else if lower == "dev" then Some("dev")
    else None
  }

  /** Normalising is idempotent. */
  lemma NormalizeSplitNameIdempotent(name: string)
    requires NormalizeSplitName(name).Some?
    ensures NormalizeSplitName(NormalizeSplitName(name).value) == NormalizeSplitName(name)
  {
    var r := NormalizeSplitName(name).value;
    if r == "train" {
      assert AsciiLower("train") == "train";
    } else if r == "test" {
      assert AsciiLower("test") == "test";
    } else if r == "validation" {
      assert AsciiLower("validation") == "validation";
    } else {
      assert AsciiLower("dev") == "dev";
    }
  }

  /** The nearest component, from the end, that names a split. */
  function LastSplitComponent(components: seq<string>): (r: Option<string>)
    ensures r.Some? ==> IsCanonicalSplit(r.value)
  {
    if |components| == 0 then None
    else
      var own := NormalizeSplitName(components[|components| - 1]);
      if own.Some? then own else LastSplitComponent(components[..|components| - 1])
  }

  /**
   * `infer_split_from_parquet_path`: the lower-cased file name's part
   * before its first `-`, else its stem before `.parquet`, else the
   * nearest path component naming a split.
   */
  function InferSplit(path: string): (r: Option<string>)
    ensures r.Some? ==> IsCanonicalSplit(r.value)
  {
    var name := AsciiLower(FileName(path));
    var byPrefix := if '-' in name then NormalizeSplitName(name[..FirstIndex(name, '-')]) else None;
    if byPrefix.Some? then byPrefix
    else
      var byStem := if EndsWith(name, ".parquet") then NormalizeSplitName(name[..|name| - 8]) else None;
      if byStem.Some? then byStem
      else LastSplitComponent(Split(path, '/'))
  }

  /** When the lower-cased file name's part before its first `-` names a split, that is the split. */
  lemma InferSplitByPrefix(path: string, i: nat)
    requires var name := AsciiLower(FileName(path)); '-' in name && i == FirstIndex(name, '-')
    requires NormalizeSplitName(AsciiLower(FileName(path))[..i]).Some?
    ensures InferSplit(path) == NormalizeSplitName(AsciiLower(FileName(path))[..i])
  {
  }

  /** A shard named `<split>-<rest>` belongs to that split. */
  lemma ShardPrefixNamesSplit(dir: string, split: string, rest: string)
    requires IsCanonicalSplit(split) && '/' !in rest
    ensures InferSplit(dir + "/" + split + "-" + rest) == Some(split)
  {
    CanonicalLower(split);
    NormalizeCanonical(split);
    PrefixNamesSplit(dir, split, rest);
  }

  lemma PrefixNamesSplit(dir: string, split: string, rest: string)
    requires AsciiLower(split) == split && '-' !in split && '/' !in split && '/' !in rest
    requires NormalizeSplitName(split) == Some(split)
    ensures InferSplit(dir + "/" + split + "-" + rest) == Some(split)
  {
    var path := dir + "/" + split + "-" + rest;
    var name := split + "-" + rest;
    assert path == dir + "/" + name;
    FileNameOfJoin(dir, name);
    LowerPrefix(split, rest);
    LowerFirstDash(AsciiLower(name), |split|);
    InferSplitByPrefix(path, |split|);
  }

  lemma LowerPrefix(split: string, rest: string)
    requires AsciiLower(split) == split && '-' !in split
    ensures var lower := AsciiLower(split + "-" + rest);
            |split| < |lower| && lower[..|split|] == split && lower[|split|] == '-' && '-' !in lower[..|split|]
  {
    var name := split + "-" + rest;
    var lower := AsciiLower(name);
    forall k | 0 <= k < |split| ensures lower[k] == split[k] {
      assert name[k] == split[k];
      assert AsciiLower(split)[k] == AsciiLowerChar(split[k]);
    }
    assert name[|split|] == '-';
    assert lower[..|split|] == split;
  }

  lemma CanonicalLower(split: string)
    requires IsCanonicalSplit(split)
    ensures AsciiLower(split) == split && '-' !in split && '/' !in split
  {
  }

  lemma NormalizeCanonical(split: string)
    requires IsCanonicalSplit(split)
    ensures NormalizeSplitName(split) == Some(split)
  {
    CanonicalLower(split);
  }

  lemma LowerFirstDash(s: string, i: nat)
    requires i < |s| && s[i] == '-' && '-' !in s[..i]
    ensures FirstIndex(s, '-') == i
  {
    var f := FirstIndex(s, '-');
    assert forall j :: 0 <= j < i ==> s[j] != '-' by {
      forall j | 0 <= j < i ensures s[j] != '-' {
        assert s[..i][j] == s[j];
      }
    }
    assert forall j :: 0 <= j < f ==> s[j] != '-' by {
      forall j | 0 <= j < f ensures s[j] != '-' {
        assert s[..f][j] == s[j];
      }
    }
  }

  // ---------------------------------------------------------------------
  // Candidates
  // ---------------------------------------------------------------------

  /** The format a `metadata.*` path announces, if it is one. */
  function MetadataFormatOf(path: string): Option<MetadataFormat> {
    if EndsWith(path, "/metadata.jsonl") || path == "metadata.jsonl" then Some(Jsonl)
    else if EndsWith(path, "/metadata.parquet") || path == "metadata.parquet" then Some(Parquet)
    else None
  }

  /** A parquet shard: a `.parquet` file that is not a metadata file. */
  predicate IsShardPath(path: string) {
    EndsWith(path, ".parquet") && !EndsWith(path, "metadata.parquet")
  }

  /** Listed in the metadata-file pass (`metadata == true`) or the shard pass. */
  predicate Listed(path: string, metadata: bool) {
    if metadata then MetadataFormatOf(path).Some? else IsShardPath(path)
  }

  /** The candidate a listed path becomes. */
  function CandidateOf(path: string, metadata: bool): (c: Candidate)
    requires Listed(path, metadata)
    ensures c.path == path && c.isMetadataFile == metadata
  {
    Candidate(path, if metadata then MetadataFormatOf(path).value else Parquet, InferSplit(path), Depth(path), metadata)
  }

  /** The candidates of one pass over the listing, in listing order. */
  function Candidates(paths: seq<string>, metadata: bool): (r: seq<Candidate>)
    ensures |r| <= |paths|
  {
    if |paths| == 0 then []
    else
      var path := paths[|paths| - 1];
      Candidates(paths[..|paths| - 1], metadata) + CandidateIfListed(path, metadata)
  }

  /** The candidate of one path, when the pass lists it. */
  function CandidateIfListed(path: string, metadata: bool): seq<Candidate> {
    if Listed(path, metadata) then [CandidateOf(path, metadata)] else []
  }

  /** A candidate is exactly a listed path's candidate. */
  lemma {:induction false} CandidatesMembers(paths: seq<string>, metadata: bool, c: Candidate)
    ensures c in Candidates(paths, metadata)
            <==> exists p :: p in paths && Listed(p, metadata) && c == CandidateOf(p, metadata)
  {
    if |paths| > 0 {
      var init := paths[..|paths| - 1];
      var last := paths[|paths| - 1];
      CandidatesMembers(init, metadata, c);
      assert paths == init + [last];
      if c in Candidates(paths, metadata) {
        if c in Candidates(init, metadata) {
          var p :| p in init && Listed(p, metadata) && c == CandidateOf(p, metadata);
          assert p in paths;
        } else {
          assert c in CandidateIfListed(last, metadata);
          assert last in paths;
        }
      }
      if exists p :: p in paths && Listed(p, metadata) && c == CandidateOf(p, metadata) {
        var p :| p in paths && Listed(p, metadata) && c == CandidateOf(p, metadata);
        if p != last {
          assert p in init;
        }
      }
    }
  }

  /** `metadata_candidates` (`metadata == true`) and `parquet_shard_candidates` (`metadata == false`). */
  method CollectCandidates(paths: seq<string>, metadata: bool) returns (cands: seq<Candidate>)
    ensures cands == Candidates(paths, metadata)
  {
    cands := [];
    var i := 0;
    while i < |paths|
      invariant 0 <= i <= |paths|
      invariant cands == Candidates(paths[..i], metadata)
    {
      var path := paths[i];
      var next := cands + CandidateIfListed(path, metadata);
      CandidatesStep(paths, i, metadata, cands, next);
      cands := next;
      i := i + 1;
    }
    assert paths[..|paths|] == paths;
  }

  lemma CandidatesStep(paths: seq<string>, i: nat, metadata: bool, cands: seq<Candidate>, next: seq<Candidate>)
    requires i < |paths| && cands == Candidates(paths[..i], metadata)
    requires next == cands + CandidateIfListed(paths[i], metadata)
    ensures next == Candidates(paths[..i + 1], metadata)
  {
    assert paths[..i + 1][..i] == paths[..i];
  }

  // ---------------------------------------------------------------------
  // select_metadata_path
  // ---------------------------------------------------------------------

  /** The order `select_metadata_path` sorts by: JSONL first, then shallower, then by path. */
  predicate CandidateLe(a: Candidate, b: Candidate) {
    if a.format != b.format then a.format == Jsonl
    else a.depth < b.depth || (a.depth == b.depth && StrOrder.Le(a.path, b.path))
  }

  lemma CandidateLePreorder()
    ensures Sorting.TotalPreorder(CandidateLe)
  {
    forall a, b ensures CandidateLe(a, b) || CandidateLe(b, a) {
      StrOrder.LeTotal(a.path, b.path);
    }
    forall a, b, c | CandidateLe(a, b) && CandidateLe(b, c) ensures CandidateLe(a, c) {
      if a.format == b.format == c.format && a.depth == b.depth == c.depth {
        StrOrder.LeTransitive(a.path, b.path, c.path);
      }
    }
  }

  /** Two candidates that sort level have the same format, depth and path. */
  lemma CandidateLeAntisymmetric(a: Candidate, b: Candidate)
    requires CandidateLe(a, b) && CandidateLe(b, a)
    ensures a.format == b.format && a.depth == b.depth && a.path == b.path
  {
    StrOrder.LeAntisymmetric(a.path, b.path);
  }

  /** The candidates considered: the metadata files, or the shards when there are none. */
  function Listing(paths: seq<string>): seq<Candidate> {
    var files := Candidates(paths, true);
    if |files| > 0 then files else Candidates(paths, false)
  }

  predicate InSplit(c: Candidate, split: string) {
    c.splitName == Some(split)
  }

  /** The split a `--split` value selects: its canonical name, or itself when it has none. */
  function RequestedSplit(split: string): string {
    NormalizeSplitName(split).UnwrapOr(split)
  }

  /** The candidates left after the requested split's filter. */
  function Pool(paths: seq<string>, requested: Option<string>): (r: seq<Candidate>)
    ensures requested.Some? ==> forall c :: c in r ==> InSplit(c, RequestedSplit(requested.value))
  {
    var listing := Listing(paths);
    if requested.None? then listing
    else
      var split := RequestedSplit(requested.value);
      Seqs.Filter(listing, c => InSplit(c, split))
  }

  predicate RootJsonl(c: Candidate) { c.depth == 1 && c.format == Jsonl }
  predicate RootParquet(c: Candidate) { c.depth == 1 && c.format == Parquet }
  predicate TrainSplit(c: Candidate) { c.splitName == Some("train") }
  predicate AnyCandidate(c: Candidate) { true }

  predicate Some_(pool: seq<Candidate>, p: Candidate -> bool) {
    exists c :: c in pool && p(c)
  }

  /** What the choice prefers without a requested split: a root JSONL, a root parquet, the train split, anything. */
  function Preferred(pool: seq<Candidate>, requested: Option<string>): Candidate -> bool {
    if requested.Some? then AnyCandidate
    else if Some_(pool, RootJsonl) then RootJsonl
    else if Some_(pool, RootParquet) then RootParquet
    else if Some_(pool, TrainSplit) then TrainSplit
    else AnyCandidate
  }

  /** `x` is a first candidate of `pool` satisfying `p` in the sort order. */
  predicate LeastWhere(pool: seq<Candidate>, p: Candidate -> bool, x: Candidate) {
    x in pool && p(x) && forall c :: c in pool && p(c) ==> CandidateLe(x, c)
  }

  /** The index of the first element satisfying `p`, or `|s|`. */
  method FindFirst(s: seq<Candidate>, p: Candidate -> bool) returns (i: nat)
    ensures i <= |s|
    ensures i < |s| ==> p(s[i])
    ensures forall j :: 0 <= j < i ==> !p(s[j])
  {
    i := 0;
    while i < |s| && !p(s[i])
      invariant i <= |s|
      invariant forall j :: 0 <= j < i ==> !p(s[j])
    {
      i := i + 1;
    }
  }

  /** In a sorted list, the first element satisfying `p` is a least one. */
  lemma FirstIsLeast(s: seq<Candidate>, p: Candidate -> bool, i: nat)
    requires Sorting.SortedBy(s, CandidateLe)
    requires i < |s| && p(s[i]) && forall j :: 0 <= j < i ==> !p(s[j])
    ensures LeastWhere(s, p, s[i])
  {
    CandidateLePreorder();
    forall c | c in s && p(c) ensures CandidateLe(s[i], c) {
      var j :| 0 <= j < |s| && s[j] == c;
      assert j >= i;
    }
  }

  /** The candidates `select_metadata_path` chooses among, before sorting. */
  method CollectPool(paths: seq<string>, requested: Option<string>) returns (cands: seq<Candidate>)
    ensures cands == Pool(paths, requested)
  {
    cands := CollectCandidates(paths, true);
    if |cands| == 0 {
      cands := CollectCandidates(paths, false);
    }
    if requested.Some? {
      var split := RequestedSplit(requested.value);
      cands := Seqs.Filter(cands, c => InSplit(c, split));
    }
  }

  /** The preference searches over the sorted candidates. */
  method ChoosePreferred(sorted: seq<Candidate>, requested: Option<string>) returns (r: Candidate)
    requires |sorted| > 0 && Sorting.SortedBy(sorted, CandidateLe)
    ensures LeastWhere(sorted, Preferred(sorted, requested), r)
  {
    if requested.None? {
      var i := FindFirst(sorted, RootJsonl);
      if i < |sorted| {
        FirstIsLeast(sorted, RootJsonl, i);
        return sorted[i];
      }
      i := FindFirst(sorted, RootParquet);
      if i < |sorted| {
        FirstIsLeast(sorted, RootParquet, i);
        return sorted[i];
      }
      i := FindFirst(sorted, TrainSplit);
      if i < |sorted| {
        FirstIsLeast(sorted, TrainSplit, i);
        return sorted[i];
      }
    }
    FirstIsLeast(sorted, AnyCandidate, 0);
    return sorted[0];
  }

  /** The choice depends only on which candidates there are, not on their order. */
  lemma SameMembersChoice(a: seq<Candidate>, b: seq<Candidate>, requested: Option<string>, x: Candidate)
    requires forall c :: c in a <==> c in b
    requires LeastWhere(a, Preferred(a, requested), x)
    ensures LeastWhere(b, Preferred(b, requested), x)
  {
    assert Some_(a, RootJsonl) == Some_(b, RootJsonl);
    assert Some_(a, RootParquet) == Some_(b, RootParquet);
    assert Some_(a, TrainSplit) == Some_(b, TrainSplit);
    assert Preferred(a, requested) == Preferred(b, requested);
  }

  /** `select_metadata_path`: nothing when the pool is empty, else its least preferred candidate. */
  method SelectMetadataPath(paths: seq<string>, requested: Option<string>) returns (r: Option<Candidate>)
    ensures r.None? <==> |Pool(paths, requested)| == 0
    ensures r.Some? ==> LeastWhere(Pool(paths, requested), Preferred(Pool(paths, requested), requested), r.value)
  {
    var cands := CollectPool(paths, requested);
    if |cands| == 0 {
      return None;
    }
    CandidateLePreorder();
    var sorted := Sorting.SortBy(cands, CandidateLe);
    Sorting.SortBySorted(cands, CandidateLe);
    assert forall c :: c in sorted <==> c in cands by {
      forall c ensures c in sorted <==> c in cands {
        assert c in sorted <==> c in multiset(sorted);
        assert c in cands <==> c in multiset(cands);
      }
    }
    var chosen := ChoosePreferred(sorted, requested);
    SameMembersChoice(sorted, cands, requested, chosen);
    return Some(chosen);
  }

  /** The least candidate is unique: the selection does not depend on the listing's order. */
  lemma LeastWhereUnique(paths: seq<string>, requested: Option<string>, p: Candidate -> bool, x: Candidate, y: Candidate)
    requires LeastWhere(Pool(paths, requested), p, x) && LeastWhere(Pool(paths, requested), p, y)
    ensures x == y
  {
    CandidateLeAntisymmetric(x, y);
    var listing := Listing(paths);
    assert x in listing && y in listing;
    var meta := |Candidates(paths, true)| > 0;
    assert listing == Candidates(paths, meta);
    CandidatesMembers(paths, meta, x);
    CandidatesMembers(paths, meta, y);
  }

  /** A bare JSONL metadata path is the root `metadata.jsonl`. */
  lemma BareJsonlMetadata(p: string)
    requires '/' !in p && MetadataFormatOf(p) == Some(Jsonl)
    ensures p == "metadata.jsonl"
  {
    SlashSuffix(p, "/metadata.jsonl");
  }

  lemma SlashSuffix(p: string, suffix: string)
    requires |suffix| > 0 && suffix[0] == '/'
    ensures EndsWith(p, suffix) ==> '/' in p
  {
    if EndsWith(p, suffix) {
      assert p[|p| - |suffix|..][0] == '/';
    }
  }

  /** A root `metadata.jsonl` is always chosen when no split is requested. */
  lemma RootJsonlChosen(paths: seq<string>, x: Candidate)
    requires "metadata.jsonl" in paths
    requires LeastWhere(Pool(paths, None), Preferred(Pool(paths, None), None), x)
    ensures x.path == "metadata.jsonl" && x.format == Jsonl
  {
    var root := RootJsonlCandidate();
    CandidatesMembers(paths, true, root);
    assert root in Pool(paths, None);
    assert Some_(Pool(paths, None), RootJsonl);
    assert RootJsonl(x);
    CandidatesMembers(paths, true, x);
    var p :| p in paths && Listed(p, true) && x == CandidateOf(p, true);
    DepthOneIffNoSlash(p);
    BareJsonlMetadata(p);
  }

  /** The candidate a root `metadata.jsonl` becomes. */
  lemma RootJsonlCandidate() returns (c: Candidate)
    ensures Listed("metadata.jsonl", true) && c == CandidateOf("metadata.jsonl", true)
    ensures RootJsonl(c) && c.path == "metadata.jsonl"
  {
    var p := "metadata.jsonl";
    assert '/' !in p;
    assert MetadataFormatOf(p) == Some(Jsonl);
    BareCandidate(p);
    c := CandidateOf(p, true);
  }

  lemma BareCandidate(p: string)
    requires '/' !in p && MetadataFormatOf(p) == Some(Jsonl)
    ensures RootJsonl(CandidateOf(p, true))
  {
    DepthOneIffNoSlash(p);
  }

  // ---------------------------------------------------------------------
  // select_related_parquet_shards
  // ---------------------------------------------------------------------

  /** The split the shards must belong to: the requested one if it is canonical, else the selected candidate's. */
  function TargetSplit(selected: Candidate, requested: Option<string>): Option<string> {
    if requested.Some? && NormalizeSplitName(requested.value).Some? then NormalizeSplitName(requested.value)
    else selected.splitName
  }

  /** A shard in the selected candidate's directory and of the target split. */
  predicate RelatedShard(path: string, selected: Candidate, requested: Option<string>) {
    var parent := Parent(selected.path);
    var target := TargetSplit(selected, requested);
    IsShardPath(path)
    && (parent.None? || Parent(path).UnwrapOr("") == parent.value)
    && (target.None? || InferSplit(path) == target)
  }

  function RelatedShards(paths: seq<string>, selected: Candidate, requested: Option<string>): set<string> {
    set p | p in paths && RelatedShard(p, selected, requested)
  }

  /** `select_related_parquet_shards`: the related shards, or the selected file alone when there are none. */
  method SelectRelatedParquetShards(paths: seq<string>, selected: Candidate, requested: Option<string>)
    returns (r: set<string>)
    ensures var related := RelatedShards(paths, selected, requested);
            r == if related == {} then {selected.path} else related
  {
    r := {};
    var i := 0;
    while i < |paths|
      invariant 0 <= i <= |paths|
      invariant r == set p | p in paths[..i] && RelatedShard(p, selected, requested)
    {
      assert forall p :: p in paths[..i + 1] <==> p in paths[..i] || p == paths[i];
      if RelatedShard(paths[i], selected, requested) {
        r := r + {paths[i]};
      }
      i := i + 1;
    }
    assert paths[..|paths|] == paths;
    if r == {} {
      r := {selected.path};
    }
  }

  /** A shard candidate chosen without a requested split is among the shards fetched with it. */
  lemma SelectedShardIsRelated(paths: seq<string>, selected: Candidate)
    requires selected in Candidates(paths, false)
    ensures selected.path in RelatedShards(paths, selected, None)
  {
    CandidatesMembers(paths, false, selected);
  }

  // ---------------------------------------------------------------------
  // The download plan
  // ---------------------------------------------------------------------

  /** `resolve_remote_image_path`: the file name under the metadata directory, else at the root, if listed. */
  function ResolveRemoteImagePath(dir: string, fileName: string, siblings: set<string>): (r: Option<string>)
    ensures r.Some? ==> r.value in siblings
    ensures r.None? <==> (if dir == "" then fileName else dir + "/" + fileName) !in siblings && fileName !in siblings
    ensures (if dir == "" then fileName else dir + "/" + fileName) in siblings
            ==> r == Some(if dir == "" then fileName else dir + "/" + fileName)
  {
    var joined := if dir == "" then fileName else dir + "/" + fileName;
    if joined in siblings then Some(joined)
    else if fileName in siblings then Some(fileName)
    else None
  }

  /** The extensions `is_image_file` accepts, lower-cased. */
  predicate IsImageExtension(ext: string) {
    ext == "jpg" || ext == "jpeg" || ext == "png" || ext == "bmp" || ext == "webp" || ext == "gif"
    || ext == "tif" || ext == "tiff"
  }

  /** `is_image_file`: the extension, in any ASCII case, is an image one. */
  function IsImageFile(path: string): (b: bool)
    ensures b ==> Extension(path).Some?
  {
    var ext := Extension(path);
    ext.Some? && IsImageExtension(AsciiLower(ext.value))
  }

  /** A file name without a dot past its first character is never an image. */
  lemma NoDotNoImage(path: string)
    requires |FileName(path)| == 0 || '.' !in FileName(path)[1..]
    ensures !IsImageFile(path)
  {
    var name := FileName(path);
    assert forall i :: 0 < i < |name| ==> name[i] != '.' by {
      forall i | 0 < i < |name| ensures name[i] != '.' {
        assert name[1..][i - 1] == name[i];
      }
    }
  }

  /** `read_jsonl_file_names` over the lines already read: the `file_name` string of every line that parses. */
  function JsonlFileNames(lines: seq<string>, parse: string -> Option<Value>): (names: seq<string>)
    ensures |names| <= |lines|
  {
    if |lines| == 0 then []
    else JsonlFileNames(lines[..|lines| - 1], parse) + LineFileName(lines[|lines| - 1], parse)
  }

  /** What one line contributes: nothing when blank or unparsable or without a `file_name` string. */
  function LineFileName(line: string, parse: string -> Option<Value>): (r: seq<string>)
    ensures |r| <= 1
  {
    var value := if IsBlank(line) then None else parse(line);
    var name := if value.None? then None else FileNameOf(value.value);
    if name.Some? then [name.value] else []
  }

  /** The string under `file_name` of an object. */
  function FileNameOf(v: Value): Option<string> {
    if v.Object? then
      (match Get(v.members, "file_name")
       case Some(Str(s)) => Some(s)
       case _ => None)
    else None
  }

  lemma JsonlStep(lines: seq<string>, parse: string -> Option<Value>, i: nat)
    requires i < |lines|
    ensures JsonlFileNames(lines[..i + 1], parse) == JsonlFileNames(lines[..i], parse) + LineFileName(lines[i], parse)
  {
    assert lines[..i + 1][..i] == lines[..i];
  }

  /** The loop of `read_jsonl_file_names`: blank lines are skipped, unparsable ones ignored. */
  method ReadJsonlFileNames(lines: seq<string>, parse: string -> Option<Value>) returns (names: seq<string>)
    ensures names == JsonlFileNames(lines, parse)
  {
    names := [];
    var i := 0;
    while i < |lines|
      invariant 0 <= i <= |lines|
      invariant names == JsonlFileNames(lines[..i], parse)
    {
      JsonlStep(lines, parse, i);
      names := names + LineFileName(lines[i], parse);
      i := i + 1;
    }
    assert lines[..|lines|] == lines;
  }

  /** The directory the metadata file sits in, `""` at the root. */
  function MetadataDir(selected: Candidate): string {
    Parent(selected.path).UnwrapOr("")
  }

  /** The images under the metadata directory, for a `metadata.parquet`. */
  predicate ImageUnder(path: string, dir: string) {
    IsImageFile(path) && (dir == "" || StartsWith(path, dir + "/"))
  }

  /**
   * The files `acquire` fetches besides the metadata file: the images a
   * JSONL names, the images beside a `metadata.parquet`, or the related
   * shards, never the metadata file itself.
   */
  function DownloadPlan(paths: seq<string>, selected: Candidate, requested: Option<string>, referenced: seq<string>)
    : (r: set<string>)
    ensures selected.path !in r
    ensures forall p :: p in r ==> p in paths
  {
    var siblings := set p | p in paths;
    var dir := MetadataDir(selected);
    var files :=
      if selected.format == Jsonl then
        set n | n in referenced && ResolveRemoteImagePath(dir, n, siblings).Some?
          :: ResolveRemoteImagePath(dir, n, siblings).value
      else if selected.isMetadataFile then
        set p | p in paths && ImageUnder(p, dir)
      else
        var related := RelatedShards(paths, selected, requested);
        if related == {} then {selected.path} else related;
    files - {selected.path}
  }
}
