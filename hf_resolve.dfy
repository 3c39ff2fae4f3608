// Resolution of a Hugging Face dataset reference (src/hf/resolve.rs): a
// repo ID `namespace/dataset` or a dataset URL, with the revision taken
// from `--revision` or from a `/tree/<rev>` URL suffix. URL parsing itself
// (the `url` crate) is a parameter: it yields the host and the raw path
// segments, or nothing for text that is not a URL.
module HfResolve {
  import opened Wrappers
  import opened Text
  import Seqs

  /** What the `url` crate gives back: `host_str()` and `path_segments()`. */
  datatype Url = Url(host: Option<string>, pathSegments: Option<seq<string>>)

  type UrlParser = string -> Option<Url>

  /** `HfRepoRef`. */
  datatype HfRepoRef = HfRepoRef(repoId: string, revision: Option<string>, config: Option<string>,
                                 split: Option<string>)

  /** `HfResolveError`, by the reason its message gives. */
  datatype ResolveError =
    | InvalidUrl
    | MissingHost
    | WrongHost(host: string)
    | NotDatasetUrl
    | BadRepoId(input: string)
    | ConflictingRevisions(argument: string, fromUrl: string)

  const HF_HOST := "huggingface.co"

  // ---------------------------------------------------------------------
  // validate_repo_id
  // ---------------------------------------------------------------------

  /** Exactly two non-empty `/`-separated parts. */
  predicate IsRepoId(s: string) {
    var parts := Split(s, '/');
    |parts| == 2 && parts[0] != "" && parts[1] != ""
  }

  /** `validate_repo_id`: the trimmed input, when it is `namespace/dataset` with both parts non-empty. */
  function ValidateRepoId(repoId: string): (r: Result<string, ResolveError>)
    ensures r.Ok? <==> IsRepoId(Trim(repoId))
    ensures r.Ok? ==> r.value == Trim(repoId)
    ensures r.Err? ==> r.error == BadRepoId(repoId)
  {
    var trimmed := Trim(repoId);
    var parts := Split(trimmed, '/');
    var namespace := parts[0];
    var dataset := if |parts| >= 2 then parts[1] else "";
    if namespace == "" || dataset == "" || |parts| >= 3 then Err(BadRepoId(repoId))
    else Ok(trimmed)
  }

  /** A namespace and a dataset name, neither blank-edged nor holding `/`, join into a valid repo ID. */
  lemma RepoIdAccepted(namespace: string, dataset: string)
    requires namespace != "" && dataset != ""
    requires '/' !in namespace && '/' !in dataset
    requires !IsWhitespace(namespace[0]) && !IsWhitespace(dataset[|dataset| - 1])
    ensures ValidateRepoId(namespace + "/" + dataset) == Ok(namespace + "/" + dataset)
  {
    var s := namespace + "/" + dataset;
    assert s == Join([namespace, dataset], '/');
    assert s[0] == namespace[0] && s[|s| - 1] == dataset[|dataset| - 1];
    TrimUnpadded(s);
    SplitJoin([namespace, dataset], '/');
  }

  /** A third part is refused. */
  lemma RepoIdThreePartsRefused(a: string, b: string, c: string)
    requires '/' !in a && '/' !in b && '/' !in c
    requires a != "" && !IsWhitespace(a[0]) && c != "" && !IsWhitespace(c[|c| - 1])
    ensures ValidateRepoId(a + "/" + b + "/" + c).Err?
  {
    var s := a + "/" + b + "/" + c;
    assert Join([b, c], '/') == b + "/" + c;
    assert [a, b, c][1..] == [b, c];
    assert s == Join([a, b, c], '/');
    assert s[0] == a[0] && s[|s| - 1] == c[|c| - 1];
    TrimUnpadded(s);
    SplitJoin([a, b, c], '/');
  }

  // ---------------------------------------------------------------------
  // parse_repo_id_from_url
  // ---------------------------------------------------------------------

  predicate NonEmpty(s: string) { s != "" }

  /** The non-empty path segments. */
  function Segments(url: Url): (segs: seq<string>)
    ensures forall s :: s in segs ==> s != ""
  {
    Seqs.Filter(url.pathSegments.UnwrapOr([]), NonEmpty)
  }

  /** The revision a `/tree/<rev>` suffix after `namespace/dataset` names. */
  function TreeRevision(segs: seq<string>): (r: Option<string>)
    ensures r.Some? <==> |segs| >= 5 && segs[3] == "tree"
    ensures r.Some? ==> r.value == segs[4]
  {
    if |segs| >= 4 && segs[3] == "tree" then (if |segs| >= 5 then Some(segs[4]) else None) else None
  }

  /**
   * `parse_repo_id_from_url`: the host must be huggingface.co (in any
   * case), the path `datasets/<namespace>/<dataset>[...]`.
   */
  function ParseRepoIdFromUrl(url: Url): (r: Result<(string, Option<string>), ResolveError>)
    ensures r.Ok? <==> url.host.Some? && AsciiLower(url.host.value) == HF_HOST
                       && |Segments(url)| >= 3 && Segments(url)[0] == "datasets"
                       && IsRepoId(Trim(Segments(url)[1] + "/" + Segments(url)[2]))
    ensures r.Ok? ==> r.value.0 == Trim(Segments(url)[1] + "/" + Segments(url)[2])
    ensures r.Ok? ==> r.value.1 == TreeRevision(Segments(url))
    ensures url.host.None? ==> r == Err(MissingHost)
  {
    if url.host.None? then Err(MissingHost)
    else
      var host := AsciiLower(url.host.value);
      if host != HF_HOST then Err(WrongHost(host))
      else
        var segs := Segments(url);
        if |segs| < 3 || segs[0] != "datasets" then Err(NotDatasetUrl)
        else
          var repoId := ValidateRepoId(segs[1] + "/" + segs[2]);
          if repoId.Err? then Err(repoId.error)
          else Ok((repoId.value, TreeRevision(segs)))
  }

  // ---------------------------------------------------------------------
  // parse_hf_input
  // ---------------------------------------------------------------------

  predicate IsUrlInput(input: string) {
    StartsWith(input, "http://") || StartsWith(input, "https://")
  }

  /** The revision merge: a disagreeing pair is an error, the argument wins otherwise, else the URL's. */
  function MergeRevision(argument: Option<string>, fromUrl: Option<string>): (r: Result<Option<string>, ResolveError>)
    ensures r.Err? <==> argument.Some? && fromUrl.Some? && argument.value != fromUrl.value
    ensures r.Ok? && argument.Some? ==> r.value == argument
    ensures r.Ok? && argument.None? ==> r.value == fromUrl
  {
    if argument.Some? && fromUrl.Some? && argument.value != fromUrl.value then
      Err(ConflictingRevisions(argument.value, fromUrl.value))
    else if argument.Some? then Ok(argument)
    else Ok(fromUrl)
  }

  /** `parse_hf_input`: a URL goes through the URL rules, anything else is a bare repo ID. */
  function ParseHfInput(input: string, revision: Option<string>, config: Option<string>, split: Option<string>,
                        parseUrl: UrlParser): (r: Result<HfRepoRef, ResolveError>)
    ensures !IsUrlInput(input) ==> (r.Ok? <==> IsRepoId(Trim(input)))
    ensures !IsUrlInput(input) && r.Ok? ==> r.value == HfRepoRef(Trim(input), revision, config, split)
    ensures IsUrlInput(input) && parseUrl(input).None? ==> r == Err(InvalidUrl)
    ensures r.Ok? ==> r.value.config == config && r.value.split == split
    ensures r.Ok? && revision.Some? ==> r.value.revision == revision
  {
    var parsed :=
      if IsUrlInput(input) then
        (match parseUrl(input)
         case None => Err(InvalidUrl)
         case Some(url) => ParseRepoIdFromUrl(url))
      else
        (match ValidateRepoId(input)
         case Err(e) => Err(e)
         case Ok(id) => Ok((id, None)));
    if parsed.Err? then Err(parsed.error)
    else
      var merged := MergeRevision(revision, parsed.value.1);
      if merged.Err? then Err(merged.error)
      else Ok(HfRepoRef(parsed.value.0, merged.value, config, split))
  }

  /** A dataset URL with a `/tree/<rev>` suffix and no `--revision` resolves to that revision. */
  lemma UrlTreeRevision(input: string, url: Url, config: Option<string>, split: Option<string>, parseUrl: UrlParser)
    requires IsUrlInput(input) && parseUrl(input) == Some(url)
    requires ParseRepoIdFromUrl(url).Ok?
    requires |Segments(url)| >= 5 && Segments(url)[3] == "tree"
    ensures ParseHfInput(input, None, config, split, parseUrl).Ok?
    ensures ParseHfInput(input, None, config, split, parseUrl).value.revision == Some(Segments(url)[4])
  {
  }

  /** A `--revision` that disagrees with the URL's `/tree/<rev>` is refused. */
  lemma ConflictingRevisionRefused(input: string, url: Url, revision: string, config: Option<string>,
                                   split: Option<string>, parseUrl: UrlParser)
    requires IsUrlInput(input) && parseUrl(input) == Some(url)
    requires ParseRepoIdFromUrl(url).Ok?
    requires |Segments(url)| >= 5 && Segments(url)[3] == "tree" && Segments(url)[4] != revision
    ensures ParseHfInput(input, Some(revision), config, split, parseUrl)
            == Err(ConflictingRevisions(revision, Segments(url)[4]))
  {
  }
}
