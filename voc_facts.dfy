// What `read_voc_dir` promises about the dataset it assembles: image IDs in
// file-name order, category IDs in name order, annotation IDs in file then
// `<object>` order, every reference resolved, and the duplicate check.
module VocFacts {
  import opened Wrappers
  import opened Ir
  import opened StrOrder
  import Seqs
  import opened VocXml

  /** How many `<object>`s the documents hold together. */
  function ObjectCount(parsed: seq<ParsedVoc>): nat {
    if |parsed| == 0 then 0 else |parsed[0].objects| + ObjectCount(parsed[1..])
  }

  /** The annotation pass numbers every object once, consecutively, with resolvable references. */
  lemma {:induction false} AnnotationsNumbered(parsed: seq<ParsedVoc>, imageNames: seq<string>,
                                               categoryNames: seq<string>, firstId: nat)
    requires NamesKnown(parsed, imageNames, categoryNames)
    ensures |AnnotationsFrom(parsed, imageNames, categoryNames, firstId)| == ObjectCount(parsed)
    ensures NumberedFrom(AnnotationsFrom(parsed, imageNames, categoryNames, firstId), firstId,
                         |imageNames|, |categoryNames|)
    decreases |parsed|
  {
    if |parsed| > 0 {
      var p := parsed[0];
      NamesKnownSuffix(parsed, 1, imageNames, categoryNames);
      var head := FileAnnotations(p, IndexOf(imageNames, p.filename) + 1, categoryNames, firstId);
      var tail := AnnotationsFrom(parsed[1..], imageNames, categoryNames, firstId + |p.objects|);
      AnnotationsNumbered(parsed[1..], imageNames, categoryNames, firstId + |p.objects|);
      assert AnnotationsFrom(parsed, imageNames, categoryNames, firstId) == head + tail;
      forall k | 0 <= k < |head| ensures 1 <= head[k].categoryId <= |categoryNames| {
        assert p.objects[k].name in categoryNames;
      }
      NumberedAppend(head, tail, firstId, |imageNames|, |categoryNames|);
    }
  }

  /**
   * Annotation IDs run 1, 2, … in sorted-file order and then `<object>`
   * order, one per object, and every annotation's image and category exist.
   */
  lemma AssembleAnnotationsResolve(parsed: seq<ParsedVoc>)
    ensures |AnnotationList(parsed)| == ObjectCount(parsed)
    ensures forall k :: 0 <= k < |AnnotationList(parsed)| ==> AnnotationList(parsed)[k].id == k + 1
    ensures forall a :: a in AnnotationList(parsed) ==>
      a.imageId in ImageIds(ImageList(parsed)) && a.categoryId in CategoryIds(CategoryList(parsed))
  {
    ListsNumbered(parsed);
    NumberedResolve(ImageList(parsed), CategoryList(parsed), AnnotationList(parsed));
  }

  /** The three lists of the assembled dataset, each numbered from 1. */
  lemma ListsNumbered(parsed: seq<ParsedVoc>)
    ensures forall k :: 0 <= k < |ImageList(parsed)| ==> ImageList(parsed)[k].id == k + 1
    ensures forall k :: 0 <= k < |CategoryList(parsed)| ==> CategoryList(parsed)[k].id == k + 1
    ensures |AnnotationList(parsed)| == ObjectCount(parsed)
    ensures NumberedFrom(AnnotationList(parsed), 1, |ImageList(parsed)|, |CategoryList(parsed)|)
  {
    CollectedNamesKnown(parsed);
    AnnotationsNumbered(parsed, SortDedup(FileNamesOf(parsed)), SortDedup(AllObjectNames(parsed)), 1);
  }

  /**
   * Images are numbered 1, 2, … in strictly increasing file-name order, one
   * per document, each with its document's size and `depth` attribute.
   */
  lemma AssembleImages(parsed: seq<ParsedVoc>)
    requires Seqs.Distinct(FileNamesOf(parsed))
    ensures |ImageList(parsed)| == |parsed|
    ensures StrictlySorted(ImageFileNames(ImageList(parsed)))
    ensures forall k :: 0 <= k < |ImageList(parsed)| ==> ImageList(parsed)[k].id == k + 1
    ensures forall i :: 0 <= i < |parsed| ==> ImageOfFile(parsed, i)
  {
    var names := SortDedup(FileNamesOf(parsed));
    SortDedupDistinct(FileNamesOf(parsed));
    ImagesNamed(parsed);
    forall i | 0 <= i < |parsed| ensures ImageOfFile(parsed, i) {
      FileImage(parsed, i);
    }
  }

  /** The image list's file names are the collected file names. */
  lemma ImagesNamed(parsed: seq<ParsedVoc>)
    ensures ImageFileNames(ImageList(parsed)) == SortDedup(FileNamesOf(parsed))
  {
    var names := SortDedup(FileNamesOf(parsed));
    DefsCoverNames(parsed);
    forall k | 0 <= k < |names| ensures ImageFileNames(ImageList(parsed))[k] == names[k] {
      assert ImageList(parsed)[k] == ImageOf(k, DefsOf(parsed)[names[k]]);
    }
  }

  /** Document `i` has an image of its file name, at the name's place, with the document's size. */
  predicate ImageOfFile(parsed: seq<ParsedVoc>, i: nat)
    requires i < |parsed|
  {
    var names := ImageFileNames(ImageList(parsed));
    && parsed[i].filename in names
    && ImageList(parsed)[IndexOf(names, parsed[i].filename)] == ImageOf(IndexOf(names, parsed[i].filename), parsed[i])
  }

  lemma FileImage(parsed: seq<ParsedVoc>, i: nat)
    requires Seqs.Distinct(FileNamesOf(parsed)) && i < |parsed|
    ensures ImageOfFile(parsed, i)
  {
    var names := SortDedup(FileNamesOf(parsed));
    ImagesNamed(parsed);
    DefsCoverNames(parsed);
    assert FileNamesOf(parsed)[i] == parsed[i].filename;
    var k := IndexOf(names, parsed[i].filename);
    assert ImageList(parsed)[k] == ImageOf(k, DefsOf(parsed)[names[k]]);
    DefsOfDistinct(parsed, i);
  }

  /**
   * Categories are numbered 1, 2, … in strictly increasing name order, and
   * their names are exactly the object names of the documents.
   */
  lemma AssembleCategories(parsed: seq<ParsedVoc>)
    ensures StrictlySorted(CategoryNames(CategoryList(parsed)))
    ensures forall k :: 0 <= k < |CategoryList(parsed)| ==> CategoryList(parsed)[k].id == k + 1
    ensures forall n :: n in CategoryNames(CategoryList(parsed)) <==>
      exists i, j :: 0 <= i < |parsed| && 0 <= j < |parsed[i].objects| && parsed[i].objects[j].name == n
  {
    var names := SortDedup(AllObjectNames(parsed));
    assert CategoryNames(CategoryList(parsed)) == names;
    forall n ensures n in names <==>
      exists i, j :: 0 <= i < |parsed| && 0 <= j < |parsed[i].objects| && parsed[i].objects[j].name == n
    {
      if n in names {
        CollectedNameOfObject(parsed, n);
      }
      if exists i, j :: 0 <= i < |parsed| && 0 <= j < |parsed[i].objects| && parsed[i].objects[j].name == n {
        var i, j :| 0 <= i < |parsed| && 0 <= j < |parsed[i].objects| && parsed[i].objects[j].name == n;
        ObjectNameCollected(parsed, i, j);
      }
    }
  }

}
