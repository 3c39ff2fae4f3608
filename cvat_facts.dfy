// What `parse_cvat_xml_str` promises about the documents it accepts and the
// dataset it assembles: the duplicate-name and child-type checks, the label
// set, the attribute map of each box, and the numbering of images,
// categories and annotations.
module CvatFacts {
  import opened Wrappers
  import opened Ir
  import opened StrOrder
  import opened Sorting
  import opened Text
  import opened Numbers
  import opened XmlTree
  import Seqs
  import opened CvatXml

  // ------------------------------------------------------------ the image pass

  /** Every `<image>` parses. */
  predicate ParsesAll(nodes: seq<Element>, parse: ImageParser) {
    forall k :: 0 <= k < |nodes| ==> parse(nodes[k]).Ok?
  }

  /** Images `i` and `j` both parse, to the same name. */
  predicate NamesClash(nodes: seq<Element>, parse: ImageParser, i: int, j: int) {
    && 0 <= i < j < |nodes| && parse(nodes[i]).Ok? && parse(nodes[j]).Ok?
    && parse(nodes[i]).value.name == parse(nodes[j]).value.name
  }

  /** The image pass succeeds exactly when every image parses and no two share a name. */
  lemma {:induction false} ScanImagesErrors(nodes: seq<Element>, parse: ImageParser)
    ensures ScanImages(nodes, parse).Ok? <==> ParsesAll(nodes, parse) && !exists i, j :: NamesClash(nodes, parse, i, j)
    decreases |nodes|
  {
    if |nodes| > 0 {
      var pre, last := nodes[..|nodes| - 1], nodes[|nodes| - 1];
      ScanImagesErrors(pre, parse);
      assert forall k :: 0 <= k < |pre| ==> pre[k] == nodes[k];
      assert forall i, j :: NamesClash(pre, parse, i, j) ==> NamesClash(nodes, parse, i, j);
      var r := ScanImages(nodes, parse);
      if r.Ok? {
        forall i, j | 0 <= i < j < |nodes| ensures !NamesClash(nodes, parse, i, j) {
          assert NamesOf(r.value)[i] != NamesOf(r.value)[j];
        }
      } else if ScanImages(pre, parse).Ok? && parse(last).Ok? {
        var done := ScanImages(pre, parse).value;
        assert parse(last).value.name in NamesOf(done);
        var i :| 0 <= i < |done| && NamesOf(done)[i] == parse(last).value.name;
        assert NamesClash(nodes, parse, i, |nodes| - 1);
      } else if ScanImages(pre, parse).Err? {
        if ParsesAll(pre, parse) {
          var i, j :| NamesClash(pre, parse, i, j);
          assert NamesClash(nodes, parse, i, j);
        }
      }
    }
  }

  // ------------------------------------------------------------ the children of an image

  lemma {:induction false} ParseBoxesErrPersists(children: seq<Element>, i: nat, imageName: string, parse: BoxParser)
    requires i <= |children| && ParseBoxes(children[..i], imageName, parse).Err?
    ensures ParseBoxes(children, imageName, parse) == ParseBoxes(children[..i], imageName, parse)
    decreases |children|
  {
    if i < |children| {
      var pre := children[..|children| - 1];
      assert pre[..i] == children[..i];
      ParseBoxesErrPersists(pre, i, imageName, parse);
    } else {
      assert children[..i] == children;
    }
  }

  /**
   * The first child that is not a `<box>`, when every child before it is a
   * box that parses, is reported as an unsupported annotation type.
   */
  lemma FirstUnsupportedChild(children: seq<Element>, k: nat, imageName: string, parse: BoxParser)
    requires k < |children| && children[k].tag != "box"
    requires forall j :: 0 <= j < k ==> BoxOk(children, j, parse)
    ensures ParseBoxes(children, imageName, parse) == Err(UnsupportedType(imageName, children[k].tag))
  {
    var pre := children[..k];
    forall j | 0 <= j < k ensures BoxOk(pre, j, parse) {
      assert pre[j] == children[j] && BoxOk(children, j, parse);
    }
    assert children[..k + 1][..k] == pre && children[..k + 1][k] == children[k];
    ParseBoxesErrPersists(children, k + 1, imageName, parse);
  }

  // ------------------------------------------------------------ labels and categories

  /** The meta block's box labels are exactly the names of the `<label>`s typed `bbox` or untyped. */
  lemma {:induction false} LabelsFromBoxLabels(nodes: seq<Element>, parse: LabelParser)
    requires LabelsFrom(nodes, parse).Ok?
    ensures forall n :: n in LabelsFrom(nodes, parse).value.bboxOrUnknown <==>
      exists k :: 0 <= k < |nodes| && parse(nodes[k]).value == (n, true)
    decreases |nodes|
  {
    if |nodes| > 0 {
      var pre := nodes[..|nodes| - 1];
      assert forall k :: 0 <= k < |pre| ==> pre[k] == nodes[k];
      LabelsFromBoxLabels(pre, parse);
    }
  }

  /** The default label type, `bbox`, is a box type. */
  lemma DefaultTypeIsBox()
    ensures EqIgnoreAsciiCase(Trim("bbox"), "bbox")
  {
    TrimUnpadded("bbox");
  }

  /** A label's type counts as a box type exactly when it is absent or, trimmed, `bbox` in any case. */
  lemma LabelTypeBox(node: Element)
    requires LabelOf(node).Ok?
    ensures LabelOf(node).value.1 <==>
      OptionalChildText(node, "type").None? || EqIgnoreAsciiCase(Trim(OptionalChildText(node, "type").value), "bbox")
  {
    var name := OptionalChildText(node, "name").value;
    match OptionalChildText(node, "type")
    case None =>
      DefaultTypeIsBox();
      assert LabelOf(node) == Ok((name, EqIgnoreAsciiCase(Trim("bbox"), "bbox")));
    case Some(t) =>
      assert LabelOf(node) == Ok((name, EqIgnoreAsciiCase(Trim(t), "bbox")));
  }

  /** A referenced label is the label of some box. */
  lemma {:induction false} ReferencedLabelOf(parsed: seq<ParsedImage>, n: string)
    requires n in ReferencedLabels(parsed)
    ensures exists i, j :: 0 <= i < |parsed| && 0 <= j < |parsed[i].boxes| && parsed[i].boxes[j].labelName == n
    decreases |parsed|
  {
    var pre, last := parsed[..|parsed| - 1], parsed[|parsed| - 1];
    if n in ReferencedLabels(pre) {
      ReferencedLabelOf(pre, n);
      var i, j :| 0 <= i < |pre| && 0 <= j < |pre[i].boxes| && pre[i].boxes[j].labelName == n;
      assert parsed[i] == pre[i];
    } else {
      assert n in BoxLabels(last.boxes);
      var j :| 0 <= j < |last.boxes| && BoxLabels(last.boxes)[j] == n;
      assert parsed[|parsed| - 1].boxes[j].labelName == n;
    }
  }

  /** Some box of some image has label `n`. */
  predicate Referenced(parsed: seq<ParsedImage>, n: string) {
    exists i, j :: 0 <= i < |parsed| && 0 <= j < |parsed[i].boxes| && parsed[i].boxes[j].labelName == n
  }

  /**
   * Categories are numbered 1, 2, … in strictly increasing name order, and
   * their names are the meta block's box labels together with every label a
   * box references.
   */
  lemma AssembleCategories(meta: Option<MetaLabels>, parsed: seq<ParsedImage>)
    ensures StrictlySorted(CategoryNames(Assemble(meta, parsed).categories))
    ensures forall k :: 0 <= k < |Assemble(meta, parsed).categories| ==> Assemble(meta, parsed).categories[k].id == k + 1
    ensures forall n :: n in CategoryNames(Assemble(meta, parsed).categories) <==>
      n in MetaBase(meta) || Referenced(parsed, n)
  {
    var names := CategoryNamesOf(meta, parsed);
    assert CategoryNames(Assemble(meta, parsed).categories) == names;
    forall n ensures n in names <==> n in MetaBase(meta) || Referenced(parsed, n) {
      if n in ReferencedLabels(parsed) {
        ReferencedLabelOf(parsed, n);
      }
      if Referenced(parsed, n) {
        var i, j :| 0 <= i < |parsed| && 0 <= j < |parsed[i].boxes| && parsed[i].boxes[j].labelName == n;
        LabelReferenced(parsed, i, j);
      }
    }
  }

  // ------------------------------------------------------------ images and annotations

  /**
   * Images are numbered 1, 2, … in strictly increasing name order, one per
   * `<image>`, each with that element's name and size.
   */
  lemma AssembleImages(meta: Option<MetaLabels>, parsed: seq<ParsedImage>)
    requires Seqs.Distinct(NamesOf(parsed))
    ensures |Assemble(meta, parsed).images| == |parsed|
    ensures StrictlySorted(ImageFileNames(Assemble(meta, parsed).images))
    ensures multiset(ImageFileNames(Assemble(meta, parsed).images)) == multiset(NamesOf(parsed))
    ensures forall k :: 0 <= k < |parsed| ==> Assemble(meta, parsed).images[k] == ImageOf(k, SortedImages(parsed)[k])
  {
    var sorted := SortedImages(parsed);
    var images := Assemble(meta, parsed).images;
    var name := (p: ParsedImage) => p.name;
    StringKeyPreorder(ImageNameLe, name);
    SortBySorted(parsed, ImageNameLe);
    assert ImageFileNames(images) == NamesOf(sorted);
    assert NamesOf(sorted) == Seqs.Map(sorted, name) && NamesOf(parsed) == Seqs.Map(parsed, name);
    Seqs.MapPermutation(sorted, parsed, name);
    Seqs.DistinctPermutation(NamesOf(parsed), NamesOf(sorted));
    forall i, j | 0 <= i < j < |sorted| ensures Lt(NamesOf(sorted)[i], NamesOf(sorted)[j]) {
      assert ImageNameLe(sorted[i], sorted[j]);
    }
  }

  /** How many `<box>`es the images from position `idx` on hold together. */
  function BoxCount(sorted: seq<ParsedImage>, idx: nat): nat
    requires idx <= |sorted|
    decreases |sorted| - idx
  {
    if idx == |sorted| then 0 else |sorted[idx].boxes| + BoxCount(sorted, idx + 1)
  }

  /** The annotation pass numbers every box once, consecutively, with resolvable references. */
  lemma {:induction false} AnnotationsNumbered(sorted: seq<ParsedImage>, idx: nat, names: seq<string>, firstId: nat)
    requires idx <= |sorted| && LabelsKnown(sorted, names)
    ensures |AnnotationsFrom(sorted, idx, names, firstId)| == BoxCount(sorted, idx)
    ensures NumberedFrom(AnnotationsFrom(sorted, idx, names, firstId), firstId, |sorted|, |names|)
    decreases |sorted| - idx
  {
    if idx < |sorted| {
      var p := sorted[idx];
      var head := ImageAnnotations(p, idx + 1, names, firstId);
      var tail := AnnotationsFrom(sorted, idx + 1, names, firstId + |p.boxes|);
      AnnotationsNumbered(sorted, idx + 1, names, firstId + |p.boxes|);
      forall j | 0 <= j < |head| ensures 1 <= head[j].categoryId <= |names| {
        assert BoxesKnown(p.boxes, names);
        assert p.boxes[j].labelName in names;
      }
      NumberedAppend(head, tail, firstId, |sorted|, |names|);
    }
  }

  /**
   * Annotation IDs run 1, 2, … in image-name order and then `<box>` order,
   * one per box, and every annotation's image and category exist.
   */
  lemma AssembleAnnotations(meta: Option<MetaLabels>, parsed: seq<ParsedImage>)
    ensures |Assemble(meta, parsed).annotations| == BoxCount(SortedImages(parsed), 0)
    ensures forall k :: 0 <= k < |Assemble(meta, parsed).annotations| ==> Assemble(meta, parsed).annotations[k].id == k + 1
    ensures forall a :: a in Assemble(meta, parsed).annotations ==>
      a.imageId in ImageIds(Assemble(meta, parsed).images) && a.categoryId in CategoryIds(Assemble(meta, parsed).categories)
  {
    var d := Assemble(meta, parsed);
    SortedLabelsKnown(meta, parsed);
    AnnotationsNumbered(SortedImages(parsed), 0, CategoryNamesOf(meta, parsed), 1);
    NumberedResolve(d.images, d.categories, d.annotations);
  }

  // ------------------------------------------------------------ the attributes of a box

  /**
   * The keys a box sets itself: `occluded` is `1` exactly when the box is
   * occluded, `z_order` is there exactly when non-zero, and `source` exactly
   * when not blank, trimmed.
   */
  lemma BoxAttrsDefaults(b: ParsedBox)
    requires forall key :: key in b.attributes ==> IsAttrKey(key)
    ensures "occluded" in BoxAttrs(b) <==> b.occluded
    ensures b.occluded ==> BoxAttrs(b)["occluded"] == "1"
    ensures "z_order" in BoxAttrs(b) <==> b.zOrder.Some? && b.zOrder.value != 0
    ensures "z_order" in BoxAttrs(b) ==> BoxAttrs(b)["z_order"] == IntToString(b.zOrder.value)
    ensures "source" in BoxAttrs(b) <==> b.source.Some? && Trim(b.source.value) != ""
    ensures "source" in BoxAttrs(b) ==> BoxAttrs(b)["source"] == Trim(b.source.value)
  {
    ReservedKeys();
  }

  /** None of the keys a box sets itself looks like a `cvat_attr_` key. */
  lemma ReservedKeys()
    ensures !IsAttrKey("occluded") && !IsAttrKey("z_order") && !IsAttrKey("source")
  {
    assert |"occluded"| == 8 && |"z_order"| == 7 && |"source"| == 6;
  }

  lemma NotReserved(key: string)
    requires IsAttrKey(key)
    ensures key != "occluded" && key != "z_order" && key != "source"
  {
    assert |key| > |AttrPrefix| == 10;
  }

  /** Every `cvat_attr_` entry of the box is stored unchanged, and no other. */
  lemma BoxAttrsKeepsAttributes(b: ParsedBox, key: string)
    requires IsAttrKey(key)
    ensures key in BoxAttrs(b) <==> key in b.attributes
    ensures key in b.attributes ==> BoxAttrs(b)[key] == b.attributes[key]
  {
    NotReserved(key);
  }

  /** Entry `k` is the last of `nodes` whose key is `key`. */
  predicate LastEntry(nodes: seq<Element>, parse: AttrParser, k: int, key: string)
    requires forall t :: 0 <= t < |nodes| ==> parse(nodes[t]).Ok?
  {
    && 0 <= k < |nodes| && parse(nodes[k]).value.0 == key
    && forall t :: k < t < |nodes| ==> parse(nodes[t]).value.0 != key
  }

  /** Some `<attribute>` of `nodes` yields `key`. */
  predicate HasEntry(nodes: seq<Element>, parse: AttrParser, key: string)
    requires forall t :: 0 <= t < |nodes| ==> parse(nodes[t]).Ok?
  {
    exists k :: 0 <= k < |nodes| && parse(nodes[k]).value.0 == key
  }

  /** The attribute map holds a key exactly when some `<attribute>` yields it. */
  lemma {:induction false} BoxAttributesKeys(nodes: seq<Element>, parse: AttrParser, key: string)
    requires BoxAttributes(nodes, parse).Ok?
    ensures key in BoxAttributes(nodes, parse).value <==> HasEntry(nodes, parse, key)
    decreases |nodes|
  {
    if |nodes| > 0 {
      var pre, n := nodes[..|nodes| - 1], |nodes| - 1;
      assert forall k :: 0 <= k < |pre| ==> pre[k] == nodes[k];
      BoxAttributesKeys(pre, parse, key);
      if HasEntry(pre, parse, key) {
        var k :| 0 <= k < |pre| && parse(pre[k]).value.0 == key;
        assert parse(nodes[k]).value.0 == key;
      }
      if HasEntry(nodes, parse, key) && parse(nodes[n]).value.0 != key {
        var k :| 0 <= k < |nodes| && parse(nodes[k]).value.0 == key;
        assert parse(pre[k]).value.0 == key;
      }
    }
  }

  /** A key the attribute map holds carries the value of the last `<attribute>` that yields it. */
  lemma {:induction false} BoxAttributesLastWins(nodes: seq<Element>, parse: AttrParser, key: string)
    requires BoxAttributes(nodes, parse).Ok? && key in BoxAttributes(nodes, parse).value
    ensures exists k :: LastEntry(nodes, parse, k, key) && BoxAttributes(nodes, parse).value[key] == parse(nodes[k]).value.1
    decreases |nodes|
  {
    var pre, n := nodes[..|nodes| - 1], |nodes| - 1;
    assert forall k :: 0 <= k < |pre| ==> pre[k] == nodes[k];
    var entry := parse(nodes[n]).value;
    if key == entry.0 {
      assert LastEntry(nodes, parse, n, key);
    } else {
      BoxAttributesLastWins(pre, parse, key);
      var k :| LastEntry(pre, parse, k, key) && BoxAttributes(pre, parse).value[key] == parse(pre[k]).value.1;
      assert LastEntry(nodes, parse, k, key);
    }
  }
}
