// What `build_cvat_xml` promises about the document it writes: it fails
// only on a dangling reference, lists the used categories by name, writes
// one `<image>` per image in file-name order with that image's boxes in ID
// order, and writes each box so that a box the reader stored comes back
// with the same flags, z order, source and attributes.
module CvatWriteFacts {
  import opened Wrappers
  import opened Ir
  import opened Text
  import opened Numbers
  import opened StrOrder
  import opened Sorting
  import opened XmlTree
  import opened Grouping
  import Seqs
  import CvatXml
  import CvatFacts
  import opened CvatWrite

  // ------------------------------------------------------------ images and errors

  /** With every grouped category named, every image is written, in order, numbered from `index`. */
  lemma {:induction false} ImagesFromOk(images: seq<Image>, index: nat, byImage: map<nat, seq<Annotation>>,
                                        names: map<nat, string>, mk: BoxMaker)
    requires KnownGroups(byImage, names)
    ensures ImagesFrom(images, index, byImage, names, mk).Ok?
    ensures |ImagesFrom(images, index, byImage, names, mk).value| == |images|
    ensures forall k :: 0 <= k < |images| ==>
      var img := ImagesFrom(images, index, byImage, names, mk).value[k];
      img.index == index + k && img.fileName == images[k].fileName
      && img.width == images[k].width && img.height == images[k].height
    decreases |images|
  {
    if |images| > 0 {
      GroupOfKnown(images[0], byImage, names);
      TakenKnown(byImage, images[0].id, names);
      ImagesFromOk(images[1..], index + 1, Taken(byImage, images[0].id), names, mk);
    }
  }

  /** With distinct image IDs, each image's boxes are built from its whole group. */
  lemma {:induction false} ImagesFromDistinct(images: seq<Image>, index: nat, byImage: map<nat, seq<Annotation>>,
                                              names: map<nat, string>, mk: BoxMaker)
    requires Seqs.Distinct(ImageIds(images)) && KnownGroups(byImage, names)
    ensures ImagesFrom(images, index, byImage, names, mk).Ok?
    ensures |ImagesFrom(images, index, byImage, names, mk).value| == |images|
    ensures forall k :: 0 <= k < |images| ==>
      BoxesOf(GroupOf(images[k], byImage), names, mk) == Ok(ImagesFrom(images, index, byImage, names, mk).value[k].boxes)
    decreases |images|
  {
    ImagesFromOk(images, index, byImage, names, mk);
    if |images| > 0 {
      var rest, taken := images[1..], Taken(byImage, images[0].id);
      TakenKnown(byImage, images[0].id, names);
      GroupOfKnown(images[0], byImage, names);
      assert Seqs.Distinct(ImageIds(rest)) by {
        assert ImageIds(rest) == ImageIds(images)[1..];
      }
      ImagesFromDistinct(rest, index + 1, taken, names, mk);
      var whole := ImagesFrom(images, index, byImage, names, mk).value;
      var tail := ImagesFrom(rest, index + 1, taken, names, mk).value;
      var head := BoxesOf(GroupOf(images[0], byImage), names, mk);
      assert head.Ok? && whole == [ImageOutOf(index, images[0], head.value)] + tail;
      forall k | 0 <= k < |images|
        ensures BoxesOf(GroupOf(images[k], byImage), names, mk) == Ok(whole[k].boxes)
      {
        if k > 0 {
          assert ImageIds(images)[k] != ImageIds(images)[0];
          assert GroupOf(images[k], taken) == GroupOf(images[k], byImage);
          assert whole[k] == tail[k - 1] && images[k] == rest[k - 1];
        }
      }
    }
  }

  /** The category IDs that have a name are exactly the categories' IDs. */
  lemma NamedIds(d: Dataset)
    ensures forall id :: id in CategoryNameById(d.categories).Keys <==> id in CategoryIds(d.categories)
  {
    forall id ensures id in CategoryNameById(d.categories).Keys <==> id in CategoryIds(d.categories) {
      CategoryNameByIdSound(d.categories, id);
    }
  }

  /**
   * The writer fails exactly when some annotation names a missing image or
   * category; the error is that of the first such annotation, image checked
   * before category, and the internal missing-name error never occurs.
   */
  lemma CvatWriteErrors(d: Dataset)
    ensures BuildDoc(d).Ok? <==>
      forall k :: 0 <= k < |d.annotations| ==>
        HasImage(d, d.annotations[k].imageId) && HasCategory(d, d.annotations[k].categoryId)
    ensures BuildDoc(d).Err? ==> BuildDoc(d).error.Reference?
    ensures BuildDoc(d).Err? ==>
      exists k :: FailsFirstAt(d.annotations, k, BuildDoc(d).error.error, ImageIds(d.images),
                               CategoryNameById(d.categories).Keys)
  {
    var names := CategoryNameById(d.categories);
    FirstRefErrorSound(d.annotations, ImageIds(d.images), names.Keys);
    NamedIds(d);
    if FirstRefError(d.annotations, ImageIds(d.images), names.Keys).None? {
      GroupKnown(d.annotations, names);
      ImagesFromOk(SortedImages(d), 0, Group(d.annotations), names, BoxMakerOf());
    }
  }

  /**
   * One `<image>` per image, numbered 0, 1, … in ascending file-name order,
   * with that image's name and size.
   */
  lemma CvatImagesWritten(d: Dataset)
    requires BuildDoc(d).Ok?
    ensures |BuildDoc(d).value.images| == |d.images|
    ensures forall k :: 0 <= k < |d.images| ==>
      var img := BuildDoc(d).value.images[k];
      img.index == k && img.fileName == SortedImages(d)[k].fileName
      && img.width == SortedImages(d)[k].width && img.height == SortedImages(d)[k].height
    ensures SortedBy(ImageFileNames(SortedImages(d)), StrOrder.Le)
    ensures multiset(ImageFileNames(SortedImages(d))) == multiset(ImageFileNames(d.images))
  {
    var names := CategoryNameById(d.categories);
    var sorted := SortedImages(d);
    FirstRefErrorSound(d.annotations, ImageIds(d.images), names.Keys);
    GroupKnown(d.annotations, names);
    ImagesFromOk(sorted, 0, Group(d.annotations), names, BoxMakerOf());
    SortedImageNames(d);
  }

  /**
   * When image IDs are distinct, the `k`-th `<image>` holds one box per
   * annotation of that image, in ascending annotation ID order.
   */
  lemma CvatBoxesWritten(d: Dataset, k: nat)
    requires BuildDoc(d).Ok? && Seqs.Distinct(ImageIds(d.images)) && k < |d.images|
    ensures |BuildDoc(d).value.images| == |d.images|
    ensures var anns := ImageAnnotations(d, SortedImages(d)[k]);
      var boxes := BuildDoc(d).value.images[k].boxes;
      |boxes| == |anns| &&
      forall j :: 0 <= j < |anns| ==>
        anns[j].categoryId in CategoryNameById(d.categories)
        && boxes[j] == BoxOf(anns[j], CategoryNameById(d.categories)[anns[j].categoryId])
  {
    var names := CategoryNameById(d.categories);
    var sorted := SortedImages(d);
    FirstRefErrorSound(d.annotations, ImageIds(d.images), names.Keys);
    GroupKnown(d.annotations, names);
    SortedImageIdsDistinct(d);
    ImagesFromDistinct(sorted, 0, Group(d.annotations), names, BoxMakerOf());
    GroupOfGrouped(d, sorted[k]);
  }

  // ------------------------------------------------------------ labels

  /** Category `c` is used by some annotation. */
  predicate Used(d: Dataset, c: Category) {
    exists a :: a in d.annotations && a.categoryId == c.id
  }

  /** The `<label>`s are the used categories, each once per category, in ascending name order. */
  lemma CvatLabelsSorted(d: Dataset)
    ensures SortedBy(LabelNames(d), StrOrder.Le)
    ensures multiset(LabelCategories(d)) == multiset(Seqs.Filter(d.categories, IsUsed(UsedCategoryIds(d))))
  {
    var used := Seqs.Filter(d.categories, IsUsed(UsedCategoryIds(d)));
    var cats := LabelCategories(d);
    StringKeyPreorder(CategoryNameLe, (c: Category) => c.name);
    SortBySorted(used, CategoryNameLe);
    forall i, j | 0 <= i < j < |cats| ensures StrOrder.Le(LabelNames(d)[i], LabelNames(d)[j]) {
      assert CategoryNameLe(cats[i], cats[j]);
    }
  }

  /** A name is listed as a `<label>` exactly when some used category has it. */
  lemma CvatLabelsMembers(d: Dataset, n: string)
    ensures n in LabelNames(d) <==> exists c :: c in d.categories && c.name == n && Used(d, c)
  {
    var used := Seqs.Filter(d.categories, IsUsed(UsedCategoryIds(d)));
    var cats := LabelCategories(d);
    assert multiset(cats) == multiset(used);
    if n in LabelNames(d) {
      var i :| 0 <= i < |cats| && LabelNames(d)[i] == n;
      assert cats[i] in multiset(used);
      assert cats[i] in used;
      assert IsUsed(UsedCategoryIds(d))(cats[i]);
      assert cats[i].id in UsedCategoryIds(d);
      var a :| a in d.annotations && a.categoryId == cats[i].id;
      assert Used(d, cats[i]);
    }
    if exists c :: c in d.categories && c.name == n && Used(d, c) {
      var c :| c in d.categories && c.name == n && Used(d, c);
      var a :| a in d.annotations && a.categoryId == c.id;
      assert c.id in UsedCategoryIds(d);
      assert c in used;
      assert c in multiset(cats);
      var i :| 0 <= i < |cats| && cats[i] == c;
      assert LabelNames(d)[i] == n;
    }
  }

  // ------------------------------------------------------------ attributes

  /** Key `key` of `attrs` is written as the entry `e`. */
  predicate WrittenAs(attrs: map<string, string>, key: string, e: (string, string)) {
    key in attrs && AttrName(key) == Some(e.0) && attrs[key] == e.1
  }

  lemma {:induction false} EntriesOfMembers(attrs: map<string, string>, keys: seq<string>, e: (string, string))
    requires forall k :: k in keys ==> k in attrs
    ensures e in EntriesOf(attrs, keys) <==> exists key :: key in keys && WrittenAs(attrs, key, e)
    decreases |keys|
  {
    if |keys| > 0 {
      var pre, last := keys[..|keys| - 1], keys[|keys| - 1];
      assert keys == pre + [last];
      assert forall x :: x in keys <==> x in pre || x == last;
      EntriesOfMembers(attrs, pre, e);
      assert EntriesOf(attrs, keys) == EntriesOf(attrs, pre) + EntryOf(attrs, last);
      if e in EntriesOf(attrs, keys) && e !in EntriesOf(attrs, pre) {
        assert e in EntryOf(attrs, last);
        assert WrittenAs(attrs, last, e);
      }
      if exists key :: key in keys && WrittenAs(attrs, key, e) {
        var key :| key in keys && WrittenAs(attrs, key, e);
        if key == last {
          assert EntryOf(attrs, last) == [e];
        } else {
          assert key in pre;
        }
      }
    }
  }

  /**
   * A box's `<attribute>`s are exactly its `cvat_attr_` keys with a
   * non-blank name, the name trimmed and the value kept.
   */
  lemma AttributeEntriesMembers(attrs: map<string, string>, e: (string, string))
    ensures e in AttributeEntries(attrs) <==> exists key :: WrittenAs(attrs, key, e)
  {
    EntriesOfMembers(attrs, SortedKeys(attrs.Keys), e);
  }

  // ------------------------------------------------------------ what the reader stored comes back

  lemma NormalizeOne()
    ensures NormalizeBoolAttr("1") == Some("1")
  {
    TrimUnpadded("1");
    assert AsciiLower("1") == "1";
  }

  lemma ZOrderReadBack(z: int)
    requires I32_MIN <= z <= I32_MAX
    ensures ParseI32(Trim(IntToString(z))) == Some(z)
  {
    var s := IntToString(z);
    assert !IsWhitespace(s[0]) && !IsWhitespace(s[|s| - 1]) by {
      if z < 0 {
        assert s[1..] == NatToString(-z);
        assert s[|s| - 1] == NatToString(-z)[|NatToString(-z)| - 1];
      }
    }
    TrimUnpadded(s);
    ParseSignedIntToString(z, I32_MIN, I32_MAX);
  }

  /** An attribute key the reader stores is written under the name it was read from. */
  lemma AttrKeyName(key: string)
    requires CvatXml.IsAttrKey(key)
    ensures AttrName(key) == Some(key[|CvatXml.AttrPrefix|..])
    ensures key == CvatXml.AttrPrefix + key[|CvatXml.AttrPrefix|..]
  {
  }

  /** Of the keys a reader-stored box carries, only its `cvat_attr_` ones have an attribute name. */
  lemma StoredKeyWritten(b: CvatXml.ParsedBox, key: string)
    requires key in CvatXml.BoxAttrs(b) && AttrName(key).Some?
    ensures key in b.attributes
  {
    assert |CvatXml.AttrPrefix| == 10 && CvatXml.AttrPrefix <= key;
    assert |"occluded"| == 8 && |"z_order"| == 7 && |"source"| == 6;
  }

  /**
   * A box as the reader stores it is written back with the same occluded
   * flag, z order (0 when absent), source (`manual` when absent) and, for
   * every stored `cvat_attr_n`, an `<attribute name=n>` with its value.
   */
  lemma ReaderBoxWrittenBack(b: CvatXml.ParsedBox)
    requires forall key :: key in b.attributes ==> CvatXml.IsAttrKey(key)
    requires b.zOrder.Some? ==> I32_MIN <= b.zOrder.value <= I32_MAX
    ensures OccludedOut(CvatXml.BoxAttrs(b)) == if b.occluded then "1" else "0"
    ensures ZOrderOut(CvatXml.BoxAttrs(b)) == if b.zOrder.Some? then b.zOrder.value else 0
    ensures SourceOut(CvatXml.BoxAttrs(b)) ==
      if b.source.Some? && Trim(b.source.value) != "" then Trim(b.source.value) else "manual"
    ensures forall e :: e in AttributeEntries(CvatXml.BoxAttrs(b)) <==>
      CvatXml.AttrPrefix + e.0 in b.attributes && b.attributes[CvatXml.AttrPrefix + e.0] == e.1
  {
    ReaderBoxFlagsWrittenBack(b);
    ReaderBoxAttributesWrittenBack(b);
  }

  lemma ReaderBoxFlagsWrittenBack(b: CvatXml.ParsedBox)
    requires forall key :: key in b.attributes ==> CvatXml.IsAttrKey(key)
    requires b.zOrder.Some? ==> I32_MIN <= b.zOrder.value <= I32_MAX
    ensures OccludedOut(CvatXml.BoxAttrs(b)) == if b.occluded then "1" else "0"
    ensures ZOrderOut(CvatXml.BoxAttrs(b)) == if b.zOrder.Some? then b.zOrder.value else 0
    ensures SourceOut(CvatXml.BoxAttrs(b)) ==
      if b.source.Some? && Trim(b.source.value) != "" then Trim(b.source.value) else "manual"
  {
    CvatFacts.BoxAttrsDefaults(b);
    if b.occluded {
      NormalizeOne();
    }
    if b.zOrder.Some? && b.zOrder.value != 0 {
      ZOrderReadBack(b.zOrder.value);
    }
    if b.source.Some? && Trim(b.source.value) != "" {
      TrimIdempotent(b.source.value);
    }
  }

  lemma ReaderBoxAttributesWrittenBack(b: CvatXml.ParsedBox)
    requires forall key :: key in b.attributes ==> CvatXml.IsAttrKey(key)
    ensures forall e :: e in AttributeEntries(CvatXml.BoxAttrs(b)) <==>
      CvatXml.AttrPrefix + e.0 in b.attributes && b.attributes[CvatXml.AttrPrefix + e.0] == e.1
  {
    var stored := CvatXml.BoxAttrs(b);
    forall e ensures e in AttributeEntries(stored) <==>
      CvatXml.AttrPrefix + e.0 in b.attributes && b.attributes[CvatXml.AttrPrefix + e.0] == e.1
    {
      AttributeEntriesMembers(stored, e);
      var full := CvatXml.AttrPrefix + e.0;
      if exists key :: WrittenAs(stored, key, e) {
        var key :| WrittenAs(stored, key, e);
        StoredKeyWritten(b, key);
        AttrKeyName(key);
        CvatFacts.BoxAttrsKeepsAttributes(b, key);
      }
      if full in b.attributes && b.attributes[full] == e.1 {
        AttrKeyName(full);
        assert full[|CvatXml.AttrPrefix|..] == e.0;
        CvatFacts.BoxAttrsKeepsAttributes(b, full);
        assert WrittenAs(stored, full, e);
      }
    }
  }
}
