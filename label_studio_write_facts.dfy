// What the Label Studio writer promises: the basename pass accepts exactly
// images whose references give distinct basenames, each image's annotations
// are split by confidence in order, a written result or task reads back as
// the same label, size and box, and the tasks follow the images in
// file-name order.
module LabelStudioWriteFacts {
  import opened Wrappers
  import opened BBoxes
  import opened Ir
  import opened Sorting
  import opened Grouping
  import Seqs
  import LS = LabelStudio
  import LSF = LabelStudioFacts
  import opened LabelStudioWrite

  // ------------------------------------------------------------ basenames

  /** Every image's reference gives a basename. */
  predicate RefsValid(images: seq<Image>, basename: Namer) {
    forall k :: 0 <= k < |images| ==> basename(images[k]).Some?
  }

  /** No two images give the same basename. */
  predicate BasenamesDistinct(images: seq<Image>, basename: Namer) {
    forall i, j :: 0 <= i < j < |images| ==> basename(images[i]) != basename(images[j])
  }

  /** The basenames of `images` that exist. */
  function Basenames(images: seq<Image>, basename: Namer): set<string> {
    if |images| == 0 then {}
    else
      var b := basename(images[|images| - 1]);
      Basenames(images[..|images| - 1], basename) + (if b.Some? then {b.value} else {})
  }

  lemma {:induction false} BasenamesMembers(images: seq<Image>, basename: Namer, n: string)
    ensures n in Basenames(images, basename) <==> exists k :: 0 <= k < |images| && basename(images[k]) == Some(n)
  {
    if |images| > 0 {
      var pre := images[..|images| - 1];
      BasenamesMembers(pre, basename, n);
      assert forall k :: 0 <= k < |pre| ==> pre[k] == images[k];
      if n in Basenames(pre, basename) {
        var k :| 0 <= k < |pre| && basename(pre[k]) == Some(n);
        assert basename(images[k]) == Some(n);
      }
    }
  }

  /** A successful pass has seen every basename and holds a reference for every image ID. */
  lemma {:induction false} ScanRefsSeen(images: seq<Image>, basename: Namer)
    ensures ScanRefs(images, basename).Ok? ==> ScanRefs(images, basename).value.1 == Basenames(images, basename)
    ensures ScanRefs(images, basename).Ok? ==> forall k :: 0 <= k < |images| ==> images[k].id in ScanRefs(images, basename).value.0
  {
    if |images| > 0 {
      var pre := images[..|images| - 1];
      ScanRefsSeen(pre, basename);
      assert forall k :: 0 <= k < |pre| ==> pre[k] == images[k];
    }
  }

  /** Valid and distinct basenames, one image at a time. */
  lemma ValidDistinctSnoc(images: seq<Image>, basename: Namer)
    requires |images| > 0
    ensures RefsValid(images, basename) && BasenamesDistinct(images, basename) <==>
      && RefsValid(images[..|images| - 1], basename) && BasenamesDistinct(images[..|images| - 1], basename)
      && basename(images[|images| - 1]).Some?
      && basename(images[|images| - 1]).value !in Basenames(images[..|images| - 1], basename)
  {
    var pre, last := images[..|images| - 1], images[|images| - 1];
    assert forall k :: 0 <= k < |pre| ==> pre[k] == images[k];
    if basename(last).Some? {
      BasenamesMembers(pre, basename, basename(last).value);
      if basename(last).value in Basenames(pre, basename) {
        var k :| 0 <= k < |pre| && basename(pre[k]) == basename(last);
        assert basename(images[k]) == basename(images[|images| - 1]);
      }
    }
  }

  /**
   * The basename pass succeeds exactly when every reference gives a
   * basename and no two basenames agree.
   */
  lemma {:induction false} ScanRefsCases(images: seq<Image>, basename: Namer)
    ensures ScanRefs(images, basename).Ok? <==> RefsValid(images, basename) && BasenamesDistinct(images, basename)
  {
    if |images| > 0 {
      var pre := images[..|images| - 1];
      ScanRefsCases(pre, basename);
      ScanRefsSeen(pre, basename);
      ValidDistinctSnoc(images, basename);
    }
  }

  /** With distinct image IDs the pass keeps each image's own reference. */
  lemma {:induction false} ScanRefsOwn(images: seq<Image>, basename: Namer)
    requires Seqs.Distinct(ImageIds(images)) && ScanRefs(images, basename).Ok?
    ensures forall k :: 0 <= k < |images| ==>
      images[k].id in ScanRefs(images, basename).value.0 && ScanRefs(images, basename).value.0[images[k].id] == ImageRef(images[k])
  {
    if |images| > 0 {
      var pre, last := images[..|images| - 1], images[|images| - 1];
      assert ImageIds(pre) == ImageIds(images)[..|pre|];
      assert forall k :: 0 <= k < |pre| ==> pre[k] == images[k] && images[k].id != last.id by {
        assert forall k :: 0 <= k < |pre| ==> ImageIds(images)[k] == images[k].id;
        assert ImageIds(images)[|pre|] == last.id;
      }
      ScanRefsOwn(pre, basename);
    }
  }

  // ------------------------------------------------------------ the confidence split

  /** Every annotation of `group` has a category name. */
  predicate NamesKnown(group: seq<Annotation>, names: map<nat, string>) {
    forall k :: 0 <= k < |group| ==> group[k].categoryId in names
  }

  /**
   * With every category named, an image's results fail exactly when it has
   * an annotation and a zero width or height, at its first annotation.
   */
  lemma {:induction false} SplitCases(group: seq<Annotation>, image: Image, names: map<nat, string>, mk: ResultMaker)
    requires NamesKnown(group, names)
    ensures SplitResults(group, image, names, mk).Err? <==> |group| > 0 && (image.width == 0 || image.height == 0)
    ensures SplitResults(group, image, names, mk).Err? ==>
      SplitResults(group, image, names, mk).error == ZeroDimensions(image.fileName, group[0].id)
  {
    if |group| > 0 {
      var pre := group[..|group| - 1];
      assert forall k :: 0 <= k < |pre| ==> pre[k] == group[k];
      SplitCases(pre, image, names, mk);
    }
  }

  function Unscored(): Annotation -> bool { (a: Annotation) => a.confidence.None? }

  function Scored(): Annotation -> bool { (a: Annotation) => a.confidence.Some? }

  /** `results` are the results of `anns`, one for one and in order. */
  predicate ResultsFrom(results: seq<ResultOut>, anns: seq<Annotation>, image: Image, names: map<nat, string>,
                        mk: ResultMaker)
  {
    && |results| == |anns|
    && forall k :: 0 <= k < |anns| ==>
      && anns[k].categoryId in names
      && LS.PixelToPercent(anns[k].bbox, image.width, image.height).Some?
      && results[k] == mk(anns[k], names[anns[k].categoryId], LS.PixelToPercent(anns[k].bbox, image.width, image.height).value)
  }

  lemma ResultsFromSnoc(results: seq<ResultOut>, anns: seq<Annotation>, image: Image, names: map<nat, string>,
                        mk: ResultMaker, a: Annotation)
    requires ResultsFrom(results, anns, image, names, mk)
    requires a.categoryId in names && LS.PixelToPercent(a.bbox, image.width, image.height).Some?
    ensures ResultsFrom(results + [mk(a, names[a.categoryId], LS.PixelToPercent(a.bbox, image.width, image.height).value)],
                        anns + [a], image, names, mk)
  {
  }

  /**
   * For an image of non-zero size whose categories are named, the
   * annotation results are the results of its unscored annotations and the
   * prediction results those of its scored ones, each in group order.
   */
  lemma {:induction false} SplitContents(group: seq<Annotation>, image: Image, names: map<nat, string>, mk: ResultMaker)
    requires NamesKnown(group, names) && image.width > 0 && image.height > 0
    ensures SplitResults(group, image, names, mk).Ok?
    ensures ResultsFrom(SplitResults(group, image, names, mk).value.0, Seqs.Filter(group, Unscored()), image, names, mk)
    ensures ResultsFrom(SplitResults(group, image, names, mk).value.1, Seqs.Filter(group, Scored()), image, names, mk)
  {
    SplitCases(group, image, names, mk);
    if |group| > 0 {
      var pre, a := group[..|group| - 1], group[|group| - 1];
      assert forall k :: 0 <= k < |pre| ==> pre[k] == group[k];
      SplitContents(pre, image, names, mk);
      if a.confidence.Some? {
        ResultsFromSnoc(SplitResults(pre, image, names, mk).value.1, Seqs.Filter(pre, Scored()), image, names, mk, a);
      } else {
        ResultsFromSnoc(SplitResults(pre, image, names, mk).value.0, Seqs.Filter(pre, Unscored()), image, names, mk, a);
      }
    }
  }

  // ------------------------------------------------------------ tasks

  /** Each result of `results` is written for `image`: one label, the image's size and the control names. */
  predicate WrittenFor(results: seq<ResultOut>, image: Image, fromName: string, toName: string) {
    forall k :: 0 <= k < |results| ==>
      && |results[k].labels| == 1
      && results[k].originalWidth == image.width && results[k].originalHeight == image.height
      && results[k].fromName == fromName && results[k].toName == toName
  }

  /** Every annotation result is unscored and every prediction result scored. */
  predicate ScoreSplit(split: (seq<ResultOut>, seq<ResultOut>)) {
    && (forall k :: 0 <= k < |split.0| ==> split.0[k].score.None?)
    && (forall k :: 0 <= k < |split.1| ==> split.1[k].score.Some?)
  }

  /**
   * The results of an image carry its size and control names, with the
   * unscored ones among the annotations and the scored ones among the
   * predictions.
   */
  lemma {:induction false} SplitShape(group: seq<Annotation>, image: Image, names: map<nat, string>,
                                      fromName: string, toName: string, parseF64: F64Parser)
    requires SplitResults(group, image, names, ResultMakerOf(image, fromName, toName, parseF64)).Ok?
    ensures WrittenFor(SplitResults(group, image, names, ResultMakerOf(image, fromName, toName, parseF64)).value.0,
                       image, fromName, toName)
    ensures WrittenFor(SplitResults(group, image, names, ResultMakerOf(image, fromName, toName, parseF64)).value.1,
                       image, fromName, toName)
    ensures ScoreSplit(SplitResults(group, image, names, ResultMakerOf(image, fromName, toName, parseF64)).value)
  {
    if |group| > 0 {
      SplitShape(group[..|group| - 1], image, names, fromName, toName, parseF64);
    }
  }

  /** Taking out another image's group leaves a task as it was. */
  lemma TaskForTaken(idx: nat, image: Image, byImage: map<nat, seq<Annotation>>, other: nat,
                     refs: map<nat, string>, names: map<nat, string>, parseF64: F64Parser)
    requires other != image.id
    ensures TaskFor(idx, image, Taken(byImage, other), refs, names, parseF64) == TaskFor(idx, image, byImage, refs, names, parseF64)
  {
    assert GroupOf(image, Taken(byImage, other)) == GroupOf(image, byImage);
  }

  /** A task depends on the groups only through its own image's group. */
  ghost predicate OwnGroupOnly(mk: TaskMaker) {
    forall idx: nat, image: Image, byImage: map<nat, seq<Annotation>>, other: nat ::
      other != image.id ==> mk(idx, image, Taken(byImage, other)) == mk(idx, image, byImage)
  }

  lemma TaskMakerOwnGroup(refs: map<nat, string>, names: map<nat, string>, parseF64: F64Parser)
    ensures OwnGroupOnly(TaskMakerOf(refs, names, parseF64))
  {
    forall idx: nat, image: Image, byImage: map<nat, seq<Annotation>>, other: nat | other != image.id
      ensures TaskFor(idx, image, Taken(byImage, other), refs, names, parseF64) == TaskFor(idx, image, byImage, refs, names, parseF64)
    {
      TaskForTaken(idx, image, byImage, other, refs, names, parseF64);
    }
  }

  /** The same loop one image later, with that image's group taken out. */
  lemma TasksFromRest(images: seq<Image>, idx: nat, byImage: map<nat, seq<Annotation>>, mk: TaskMaker)
    requires |images| > 0 && Seqs.Distinct(ImageIds(images)) && OwnGroupOnly(mk)
    ensures Seqs.Distinct(ImageIds(images[1..]))
    ensures forall k :: 0 <= k < |images| - 1 ==>
      mk(idx + 1 + k, images[1..][k], Taken(byImage, images[0].id)) == mk(idx + (k + 1), images[k + 1], byImage)
  {
    var rest := images[1..];
    assert forall k :: 0 <= k < |rest| ==> ImageIds(rest)[k] == ImageIds(images)[k + 1];
    forall k | 0 <= k < |rest|
      ensures mk(idx + 1 + k, rest[k], Taken(byImage, images[0].id)) == mk(idx + (k + 1), images[k + 1], byImage)
    {
      assert ImageIds(images)[0] != ImageIds(images)[k + 1];
      assert mk(idx + 1 + k, rest[k], Taken(byImage, images[0].id)) == mk(idx + 1 + k, rest[k], byImage);
    }
  }

  /** With distinct image IDs, the task loop succeeds exactly when every image's task does. */
  lemma {:induction false} TasksFromOk(images: seq<Image>, idx: nat, byImage: map<nat, seq<Annotation>>, mk: TaskMaker)
    requires Seqs.Distinct(ImageIds(images)) && OwnGroupOnly(mk)
    ensures TasksFrom(images, idx, byImage, mk).Ok? <==> forall k :: 0 <= k < |images| ==> mk(idx + k, images[k], byImage).Ok?
    decreases |images|
  {
    if |images| > 0 {
      TasksFromRest(images, idx, byImage, mk);
      var rest, taken := images[1..], Taken(byImage, images[0].id);
      TasksFromOk(rest, idx + 1, taken, mk);
      forall k | 0 < k < |images|
        ensures mk(idx + k, images[k], byImage) == mk(idx + 1 + (k - 1), rest[k - 1], taken)
      {
        assert images[k] == rest[k - 1];
      }
    }
  }

  /** Each task of a successful loop is built from the groups as first grouped. */
  lemma {:induction false} TasksFromEach(images: seq<Image>, idx: nat, byImage: map<nat, seq<Annotation>>, mk: TaskMaker)
    requires Seqs.Distinct(ImageIds(images)) && OwnGroupOnly(mk)
    requires TasksFrom(images, idx, byImage, mk).Ok?
    ensures forall k :: 0 <= k < |images| ==>
      mk(idx + k, images[k], byImage).Ok? &&
      TasksFrom(images, idx, byImage, mk).value[k] == mk(idx + k, images[k], byImage).value
    decreases |images|
  {
    if |images| > 0 {
      var rest, taken := images[1..], Taken(byImage, images[0].id);
      TasksFromRest(images, idx, byImage, mk);
      TasksFromEach(rest, idx + 1, taken, mk);
      var first := mk(idx, images[0], byImage);
      var tail := TasksFrom(rest, idx + 1, taken, mk);
      assert TasksFrom(images, idx, byImage, mk).value == [first.value] + tail.value;
      assert forall k :: 0 < k < |images| ==> images[k] == rest[k - 1];
    }
  }

  /** The results of a list of result sets, set after set. */
  function Flat(sets: seq<seq<ResultOut>>): seq<ResultOut> {
    if |sets| == 0 then [] else Flat(sets[..|sets| - 1]) + sets[|sets| - 1]
  }

  lemma FlatSetsOf(results: seq<ResultOut>)
    ensures Flat(SetsOf(results)) == results
  {
    if results != [] {
      assert SetsOf(results)[..0] == [];
    }
  }

  /** No result set of `sets` is empty. */
  predicate NoEmptySet(sets: seq<seq<ResultOut>>) {
    |sets| <= 1 && forall k :: 0 <= k < |sets| ==> sets[k] != []
  }

  /**
   * A task built from a split: task `idx + 1` with the image's reference and
   * size, at most one non-empty set of each kind, and every result of the
   * split in the set of its kind.
   */
  lemma TaskOfFacts(idx: nat, image: Image, imageRef: string, split: (seq<ResultOut>, seq<ResultOut>))
    ensures TaskOf(idx, image, imageRef, split).id == idx + 1
    ensures TaskOf(idx, image, imageRef, split).image == imageRef
    ensures TaskOf(idx, image, imageRef, split).width == image.width
    ensures TaskOf(idx, image, imageRef, split).height == image.height
    ensures NoEmptySet(TaskOf(idx, image, imageRef, split).annotations)
    ensures NoEmptySet(TaskOf(idx, image, imageRef, split).predictions)
    ensures Flat(TaskOf(idx, image, imageRef, split).annotations) == split.0
    ensures Flat(TaskOf(idx, image, imageRef, split).predictions) == split.1
  {
    FlatSetsOf(split.0);
    FlatSetsOf(split.1);
  }

  /**
   * With the image's reference and category names at hand, a task fails
   * exactly when its image has annotations and a zero width or height;
   * otherwise it is built from a split of all the group's annotations by
   * score.
   */
  lemma TaskForFacts(idx: nat, image: Image, byImage: map<nat, seq<Annotation>>, refs: map<nat, string>,
                     names: map<nat, string>, parseF64: F64Parser)
    requires image.id in refs && NamesKnown(GroupOf(image, byImage), names)
    ensures TaskFor(idx, image, byImage, refs, names, parseF64).Ok? <==>
      |GroupOf(image, byImage)| == 0 || (image.width > 0 && image.height > 0)
    ensures TaskFor(idx, image, byImage, refs, names, parseF64).Ok? ==>
      exists split :: 
        && TaskFor(idx, image, byImage, refs, names, parseF64).value == TaskOf(idx, image, refs[image.id], split)
        && |split.0| + |split.1| == |GroupOf(image, byImage)| && ScoreSplit(split)
  {
    var group := GroupOf(image, byImage);
    var mk := ResultMakerOf(image, FromNameOf(image), ToNameOf(image), parseF64);
    SplitCases(group, image, names, mk);
    var split := SplitResults(group, image, names, mk);
    if split.Ok? {
      SplitShape(group, image, names, FromNameOf(image), ToNameOf(image), parseF64);
    }
  }

  // ------------------------------------------------------------ the whole output

  /** After a clean reference check every grouped annotation's category has a name. */
  lemma CheckedGroupsKnown(d: Dataset)
    requires FirstRefError(d.annotations, ImageIds(d.images), CategoryNameById(d.categories).Keys).None?
    ensures KnownGroups(Group(d.annotations), CategoryNameById(d.categories))
  {
    var names := CategoryNameById(d.categories);
    FirstRefErrorSound(d.annotations, ImageIds(d.images), names.Keys);
    assert forall k :: 0 <= k < |d.annotations| ==> RefError(d.annotations[k], ImageIds(d.images), names.Keys).None?;
    GroupKnown(d.annotations, names);
  }

  /** With distinct IDs, the reference of each image in file-name order is its own. */
  lemma SortedRefs(d: Dataset)
    requires Seqs.Distinct(ImageIds(d.images)) && ScanRefs(d.images, NamerOf()).Ok?
    ensures forall k :: 0 <= k < |SortedImages(d)| ==>
      SortedImages(d)[k].id in ScanRefs(d.images, NamerOf()).value.0
      && ScanRefs(d.images, NamerOf()).value.0[SortedImages(d)[k].id] == ImageRef(SortedImages(d)[k])
  {
    var sorted := SortedImages(d);
    var refs := ScanRefs(d.images, NamerOf()).value.0;
    ScanRefsOwn(d.images, NamerOf());
    forall k | 0 <= k < |sorted| ensures sorted[k].id in refs && refs[sorted[k].id] == ImageRef(sorted[k]) {
      assert sorted[k] in multiset(d.images);
      var j :| 0 <= j < |d.images| && d.images[j] == sorted[k];
    }
  }

  /** An image in file-name order has annotations to write. */
  predicate NeedsSize(d: Dataset, k: int) {
    0 <= k < |SortedImages(d)| && |ImageAnnotations(d, SortedImages(d)[k])| > 0
  }

  /** The `k`-th image in file-name order can be written: it has no annotations or a non-zero size. */
  predicate Writable(d: Dataset, k: int) {
    NeedsSize(d, k) ==> SortedImages(d)[k].width > 0 && SortedImages(d)[k].height > 0
  }

  /**
   * `t` is task `k + 1` for `image`: the image's reference and size, and
   * `count` results, unscored ones as annotations, scored ones as predictions.
   */
  predicate WrittenTask(t: TaskOut, k: nat, image: Image, count: nat) {
    && t.id == k + 1 && t.image == ImageRef(image) && t.width == image.width && t.height == image.height
    && |Flat(t.annotations)| + |Flat(t.predictions)| == count
    && ScoreSplit((Flat(t.annotations), Flat(t.predictions)))
  }

  /** Once the references check out, the output is the task loop over the images in file-name order. */
  lemma LsOutputIsTasks(d: Dataset, parseF64: F64Parser)
    requires FirstRefError(d.annotations, ImageIds(d.images), CategoryNameById(d.categories).Keys).None?
    requires ScanRefs(d.images, NamerOf()).Ok?
    ensures LsOutput(d, parseF64) ==
      TasksFrom(SortedImages(d), 0, Group(d.annotations),
                TaskMakerOf(ScanRefs(d.images, NamerOf()).value.0, CategoryNameById(d.categories), parseF64))
  {
  }

  /**
   * The task for an image holding its own reference and naming its
   * categories: it fails exactly when the image's group is not empty and
   * the image has a zero width or height, and is otherwise written for it.
   */
  lemma ImageTask(k: nat, image: Image, byImage: map<nat, seq<Annotation>>, refs: map<nat, string>,
                  names: map<nat, string>, parseF64: F64Parser)
    requires image.id in refs && refs[image.id] == ImageRef(image) && NamesKnown(GroupOf(image, byImage), names)
    ensures TaskFor(k, image, byImage, refs, names, parseF64).Ok? <==>
      |GroupOf(image, byImage)| == 0 || (image.width > 0 && image.height > 0)
    ensures TaskFor(k, image, byImage, refs, names, parseF64).Ok? ==>
      WrittenTask(TaskFor(k, image, byImage, refs, names, parseF64).value, k, image, |GroupOf(image, byImage)|)
  {
    TaskForFacts(k, image, byImage, refs, names, parseF64);
    var r := TaskFor(k, image, byImage, refs, names, parseF64);
    if r.Ok? {
      var split :| && r.value == TaskOf(k, image, refs[image.id], split)
                   && |split.0| + |split.1| == |GroupOf(image, byImage)| && ScoreSplit(split);
      TaskOfFacts(k, image, refs[image.id], split);
    }
  }

  /**
   * The task `mk` makes for the `k`-th image in file-name order from the
   * groups as first grouped fails exactly when the image is not writable,
   * and is otherwise written for it.
   */
  predicate ImageTaskOk(d: Dataset, mk: TaskMaker, k: int) {
    && 0 <= k < |SortedImages(d)|
    && (mk(k, SortedImages(d)[k], Group(d.annotations)).Ok? <==> Writable(d, k))
    && (mk(k, SortedImages(d)[k], Group(d.annotations)).Ok? ==>
          WrittenTask(mk(k, SortedImages(d)[k], Group(d.annotations)).value, k, SortedImages(d)[k],
                      |ImageAnnotations(d, SortedImages(d)[k])|))
  }

  lemma SortedImageTask(d: Dataset, parseF64: F64Parser, refs: map<nat, string>, k: nat)
    requires k < |SortedImages(d)|
    requires KnownGroups(Group(d.annotations), CategoryNameById(d.categories))
    requires SortedImages(d)[k].id in refs && refs[SortedImages(d)[k].id] == ImageRef(SortedImages(d)[k])
    ensures ImageTaskOk(d, TaskMakerOf(refs, CategoryNameById(d.categories), parseF64), k)
  {
    var image, byImage := SortedImages(d)[k], Group(d.annotations);
    var names := CategoryNameById(d.categories);
    var r := TaskFor(k, image, byImage, refs, names, parseF64);
    assert GroupOf(image, byImage) == ImageAnnotations(d, image) by {
      GroupOfGrouped(d, image);
    }
    assert (r.Ok? <==> Writable(d, k)) && (r.Ok? ==> WrittenTask(r.value, k, image, |ImageAnnotations(d, image)|)) by {
      GroupOfKnown(image, byImage, names);
      ImageTask(k, image, byImage, refs, names, parseF64);
    }
    assert TaskMakerOf(refs, names, parseF64)(k, image, byImage) == r;
  }

  /** The tasks of all images in file-name order, each from the groups as first grouped. */
  lemma SortedImageTasks(d: Dataset, parseF64: F64Parser, refs: map<nat, string>)
    requires KnownGroups(Group(d.annotations), CategoryNameById(d.categories))
    requires forall k :: 0 <= k < |SortedImages(d)| ==>
      SortedImages(d)[k].id in refs && refs[SortedImages(d)[k].id] == ImageRef(SortedImages(d)[k])
    ensures forall k :: 0 <= k < |SortedImages(d)| ==> ImageTaskOk(d, TaskMakerOf(refs, CategoryNameById(d.categories), parseF64), k)
  {
    forall k | 0 <= k < |SortedImages(d)|
      ensures ImageTaskOk(d, TaskMakerOf(refs, CategoryNameById(d.categories), parseF64), k)
    {
      SortedImageTask(d, parseF64, refs, k);
    }
  }

  /**
   * For a dataset whose references check out, whose images have distinct IDs
   * and give distinct basenames: the output fails exactly when an image with
   * annotations has a zero width or height; otherwise task `k + 1` is
   * written for the `k`-th image in file-name order.
   */
  lemma LsOutputTasks(d: Dataset, parseF64: F64Parser)
    requires FirstRefError(d.annotations, ImageIds(d.images), CategoryNameById(d.categories).Keys).None?
    requires Seqs.Distinct(ImageIds(d.images))
    requires RefsValid(d.images, NamerOf()) && BasenamesDistinct(d.images, NamerOf())
    ensures LsOutput(d, parseF64).Ok? <==> forall k :: 0 <= k < |d.images| ==> Writable(d, k)
    ensures LsOutput(d, parseF64).Ok? ==>
      && |LsOutput(d, parseF64).value| == |d.images|
      && forall k :: 0 <= k < |d.images| ==>
        WrittenTask(LsOutput(d, parseF64).value[k], k, SortedImages(d)[k], |ImageAnnotations(d, SortedImages(d)[k])|)
  {
    ScanRefsCases(d.images, NamerOf());
    var mk := TaskMakerOf(ScanRefs(d.images, NamerOf()).value.0, CategoryNameById(d.categories), parseF64);
    TaskLoopReady(d, parseF64);
    SortedImageNames(d);
    LsOutputIsTasks(d, parseF64);
    TaskLoopOutcome(d, mk);
  }

  /** Once the references check out, the task loop's maker meets what `TaskLoopOutcome` asks of it. */
  lemma TaskLoopReady(d: Dataset, parseF64: F64Parser)
    requires FirstRefError(d.annotations, ImageIds(d.images), CategoryNameById(d.categories).Keys).None?
    requires Seqs.Distinct(ImageIds(d.images)) && ScanRefs(d.images, NamerOf()).Ok?
    ensures Seqs.Distinct(ImageIds(SortedImages(d)))
    ensures OwnGroupOnly(TaskMakerOf(ScanRefs(d.images, NamerOf()).value.0, CategoryNameById(d.categories), parseF64))
    ensures forall k :: 0 <= k < |SortedImages(d)| ==>
      ImageTaskOk(d, TaskMakerOf(ScanRefs(d.images, NamerOf()).value.0, CategoryNameById(d.categories), parseF64), k)
  {
    var refs := ScanRefs(d.images, NamerOf()).value.0;
    CheckedGroupsKnown(d);
    SortedRefs(d);
    SortedImageIdsDistinct(d);
    TaskMakerOwnGroup(refs, CategoryNameById(d.categories), parseF64);
    SortedImageTasks(d, parseF64, refs);
  }

  /** The task loop over the images in file-name order, for any maker that makes each image's task as `ImageTaskOk` says. */
  lemma TaskLoopOutcome(d: Dataset, mk: TaskMaker)
    requires Seqs.Distinct(ImageIds(SortedImages(d))) && OwnGroupOnly(mk)
    requires forall k :: 0 <= k < |SortedImages(d)| ==> ImageTaskOk(d, mk, k)
    ensures TasksFrom(SortedImages(d), 0, Group(d.annotations), mk).Ok? <==>
      forall k :: 0 <= k < |SortedImages(d)| ==> Writable(d, k)
    ensures TasksFrom(SortedImages(d), 0, Group(d.annotations), mk).Ok? ==>
      && |TasksFrom(SortedImages(d), 0, Group(d.annotations), mk).value| == |SortedImages(d)|
      && forall k :: 0 <= k < |SortedImages(d)| ==>
        WrittenTask(TasksFrom(SortedImages(d), 0, Group(d.annotations), mk).value[k], k, SortedImages(d)[k],
                    |ImageAnnotations(d, SortedImages(d)[k])|)
  {
    var sorted, byImage := SortedImages(d), Group(d.annotations);
    var r := TasksFrom(sorted, 0, byImage, mk);
    TasksFromOk(sorted, 0, byImage, mk);
    forall k | 0 <= k < |sorted| ensures mk(0 + k, sorted[k], byImage).Ok? <==> Writable(d, k) {
      assert ImageTaskOk(d, mk, k);
    }
    if r.Ok? {
      TasksFromEach(sorted, 0, byImage, mk);
      forall k | 0 <= k < |sorted|
        ensures WrittenTask(r.value[k], k, sorted[k], |ImageAnnotations(d, sorted[k])|)
      {
        assert ImageTaskOk(d, mk, k);
        assert r.value[k] == mk(0 + k, sorted[k], byImage).value;
      }
    }
  }

  /**
   * Two images whose references give the same basename, or a reference that
   * gives none, make the output fail once the references check out.
   */
  lemma DuplicateBasenameRejected(d: Dataset, parseF64: F64Parser, i: nat, j: nat)
    requires FirstRefError(d.annotations, ImageIds(d.images), CategoryNameById(d.categories).Keys).None?
    requires i < j < |d.images| && BasenameOf(d.images[i]) == BasenameOf(d.images[j])
    ensures LsOutput(d, parseF64).Err?
    ensures LsOutput(d, parseF64).error.InvalidImageRef? || LsOutput(d, parseF64).error.DuplicateOutputBasename?
  {
    ScanRefsCases(d.images, NamerOf());
    assert !BasenamesDistinct(d.images, NamerOf()) by {
      assert NamerOf()(d.images[i]) == NamerOf()(d.images[j]);
    }
    ScanRefsErrors(d.images, NamerOf());
  }

  /** The basename pass fails only with a missing or repeated basename. */
  lemma {:induction false} ScanRefsErrors(images: seq<Image>, basename: Namer)
    ensures ScanRefs(images, basename).Err? ==>
      ScanRefs(images, basename).error.InvalidImageRef? || ScanRefs(images, basename).error.DuplicateOutputBasename?
  {
    if |images| > 0 {
      ScanRefsErrors(images[..|images| - 1], basename);
    }
  }
}
