// The synthetic COCO/TFOD fixture generator (scripts/dataset_generator.py).
// Python's `random` is replaced by its draws: for the j-th annotation, four
// uniform units (box width, box height, x, y) and the index `random.choice`
// picks, as a function of j. The wall-clock timestamps are left out.
module DatasetGenerator {
  import opened Wrappers
  import Numbers
  import Seqs

  /** The generator's settings (`DatasetGenerator.__init__`). */
  datatype Config = Config(numImages: nat, annotationsPerImage: nat, imageWidth: nat, imageHeight: nat)

  /** What `random` yields for one annotation. */
  datatype AnnDraw = AnnDraw(uWidth: real, uHeight: real, uX: real, uY: real, pick: nat)

  type Draws = nat -> AnnDraw

  predicate InUnit(u: real) { 0.0 <= u <= 1.0 }

  /** `random.uniform` draws in [0, 1] once scaled (the upper end is reachable through rounding). */
  predicate UnitDraw(d: AnnDraw) {
    InUnit(d.uWidth) && InUnit(d.uHeight) && InUnit(d.uX) && InUnit(d.uY)
  }

  /** A COCO category entry. */
  datatype GenCategory = GenCategory(id: nat, name: string, supercategory: string)

  /** The five fixed categories. */
  const CATEGORIES: seq<GenCategory> := [
    GenCategory(1, "person", "living"),
    GenCategory(2, "car", "vehicle"),
    GenCategory(3, "dog", "animal"),
    GenCategory(4, "bicycle", "vehicle"),
    GenCategory(5, "chair", "furniture")
  ]

  /** A COCO `[x, y, width, height]` box. */
  datatype CocoBox = CocoBox(x: real, y: real, w: real, h: real)

  datatype CocoImage = CocoImage(id: nat, width: nat, height: nat, fileName: string, license: nat)

  datatype CocoAnnotation = CocoAnnotation(id: nat, imageId: nat, categoryId: nat, bbox: CocoBox, area: real, iscrowd: nat)

  datatype CocoLicense = CocoLicense(id: nat, name: string, url: string)

  datatype CocoDict = CocoDict(images: seq<CocoImage>, annotations: seq<CocoAnnotation>,
                               categories: seq<GenCategory>, licenses: seq<CocoLicense>)

  /** A TFOD CSV row. */
  datatype TfodRow = TfodRow(filename: string, width: nat, height: nat, className: string,
                             xmin: real, ymin: real, xmax: real, ymax: real)

  /** The `KeyError`s the CSV step can raise, by the missing key. */
  datatype GenError = MissingImage(imageId: nat) | MissingCategory(categoryId: nat)

  // ---------------------------------------------------------------------
  // generate_bbox / coco_to_tfod_bbox
  // ---------------------------------------------------------------------

  /** `random.uniform(a, b)` for the unit draw `u`. */
  function Uniform(a: real, b: real, u: real): real { a + (b - a) * u }

  lemma UniformBounds(a: real, b: real, u: real)
    requires a <= b && InUnit(u)
    ensures a <= Uniform(a, b, u) <= b
  {
    MulNonneg(b - a, u);
    MulNonneg(b - a, 1.0 - u);
    assert (b - a) * u + (b - a) * (1.0 - u) == b - a;
  }

  lemma MulNonneg(x: real, y: real)
    requires 0.0 <= x && 0.0 <= y
    ensures 0.0 <= x * y
  {
  }

  /**
   * `generate_bbox`: a width in [0.1W, 0.3W] and a height in [0.1H, 0.3H],
   * then a corner that keeps the box inside the image.
   */
  function GenerateBBox(cfg: Config, d: AnnDraw): (b: CocoBox)
    ensures UnitDraw(d) ==>
              && 0.1 * cfg.imageWidth as real <= b.w <= 0.3 * cfg.imageWidth as real
              && 0.1 * cfg.imageHeight as real <= b.h <= 0.3 * cfg.imageHeight as real
              && 0.0 <= b.x && b.x + b.w <= cfg.imageWidth as real
              && 0.0 <= b.y && b.y + b.h <= cfg.imageHeight as real
  {
    var imageW := cfg.imageWidth as real;
    var imageH := cfg.imageHeight as real;
    var w := Uniform(0.1 * imageW, 0.3 * imageW, d.uWidth);
    var h := Uniform(0.1 * imageH, 0.3 * imageH, d.uHeight);
    var x := Uniform(0.0, imageW - w, d.uX);
    var y := Uniform(0.0, imageH - h, d.uY);
    if UnitDraw(d) then
      UniformBounds(0.1 * imageW, 0.3 * imageW, d.uWidth);
      UniformBounds(0.1 * imageH, 0.3 * imageH, d.uHeight);
      UniformBounds(0.0, imageW - w, d.uX);
      UniformBounds(0.0, imageH - h, d.uY);
      CocoBox(x, y, w, h)
    else CocoBox(x, y, w, h)
  }

  /** The image sides are positive, so the normalisation divides by non-zero values. */
  predicate PositiveDims(cfg: Config) { cfg.imageWidth > 0 && cfg.imageHeight > 0 }

  /** `coco_to_tfod_bbox`: `[ymin, xmin, ymax, xmax]`, each divided by the matching image side. */
  function CocoToTfodBBox(cfg: Config, b: CocoBox): (r: (real, real, real, real))
    requires PositiveDims(cfg)
  {
    var imageW := cfg.imageWidth as real;
    var imageH := cfg.imageHeight as real;
    (b.y / imageH, b.x / imageW, (b.y + b.h) / imageH, (b.x + b.w) / imageW)
  }

  /** Scaling the normalised corners back by the image sides gives the COCO box's corners. */
  lemma TfodBBoxInverse(cfg: Config, b: CocoBox)
    requires PositiveDims(cfg)
    ensures var r := CocoToTfodBBox(cfg, b);
            && r.1 * cfg.imageWidth as real == b.x && r.0 * cfg.imageHeight as real == b.y
            && r.3 * cfg.imageWidth as real == b.x + b.w && r.2 * cfg.imageHeight as real == b.y + b.h
  {
  }

  /** A box inside the image has its normalised corners in [0, 1], min before max. */
  lemma TfodBBoxInUnitSquare(cfg: Config, b: CocoBox)
    requires PositiveDims(cfg)
    requires 0.0 <= b.x && 0.0 <= b.w && b.x + b.w <= cfg.imageWidth as real
    requires 0.0 <= b.y && 0.0 <= b.h && b.y + b.h <= cfg.imageHeight as real
    ensures var r := CocoToTfodBBox(cfg, b);
            0.0 <= r.1 <= r.3 <= 1.0 && 0.0 <= r.0 <= r.2 <= 1.0
  {
    var imageW := cfg.imageWidth as real;
    var imageH := cfg.imageHeight as real;
    DivMonotone(b.x, b.x + b.w, imageW);
    DivMonotone(b.x + b.w, imageW, imageW);
    DivMonotone(b.y, b.y + b.h, imageH);
    DivMonotone(b.y + b.h, imageH, imageH);
    DivMonotone(0.0, b.x, imageW);
    DivMonotone(0.0, b.y, imageH);
  }

  lemma DivMonotone(a: real, b: real, d: real)
    requires d > 0.0 && a <= b
    ensures a / d <= b / d
  {
    assert b / d - a / d == (b - a) / d;
  }

  // ---------------------------------------------------------------------
  // generate_coco_dataset
  // ---------------------------------------------------------------------

  /** `f"{n:06d}"`: the decimal digits, left-padded with zeros to six. */
  function Pad6(s: string): (r: string)
    ensures |r| == if |s| < 6 then 6 else |s|
  {
    if |s| >= 6 then s else seq(6 - |s|, _ => '0') + s
  }

  /** `f"image_{id:06d}.jpg"`. */
  function ImageName(id: nat): string {
    "image_" + Pad6(Numbers.NatToString(id)) + ".jpg"
  }

  lemma {:induction false} ZerosValue(z: string, s: string)
    requires forall k :: 0 <= k < |z| ==> z[k] == '0'
    requires Numbers.AllDigits(s)
    ensures Numbers.AllDigits(z + s) && Numbers.DigitsValue(z + s) == Numbers.DigitsValue(s)
  {
    if |s| == 0 {
      assert z + s == z;
      ZerosOnly(z);
    } else {
      var init := s[..|s| - 1];
      ZerosValue(z, init);
      assert (z + s)[..|z + s| - 1] == z + init;
    }
  }

  lemma {:induction false} ZerosOnly(z: string)
    requires forall k :: 0 <= k < |z| ==> z[k] == '0'
    ensures Numbers.AllDigits(z) && Numbers.DigitsValue(z) == 0
  {
    if |z| > 0 {
      ZerosOnly(z[..|z| - 1]);
    }
  }

  /** The image number reads back from the padded digits, so distinct IDs give distinct file names. */
  lemma ImageNameNumber(id: nat)
    ensures var digits := ImageName(id)[6..|ImageName(id)| - 4];
            Numbers.AllDigits(digits) && Numbers.DigitsValue(digits) == id
  {
    var s := Numbers.NatToString(id);
    var name := ImageName(id);
    assert name[6..|name| - 4] == Pad6(s);
    if |s| < 6 {
      ZerosValue(seq(6 - |s|, _ => '0'), s);
    }
    Numbers.DigitsValueOfNatToString(id);
  }

  lemma ImageNamesDistinct(a: nat, b: nat)
    requires a != b
    ensures ImageName(a) != ImageName(b)
  {
    ImageNameNumber(a);
    ImageNameNumber(b);
  }

  /** The image of the j-th annotation: `k` annotations per image, in order. */
  function OwnerImage(j: nat, k: nat): nat {
    if k == 0 then 0 else j / k + 1
  }

  /** The j-th annotation the generator emits. */
  function GeneratedAnnotation(cfg: Config, draws: Draws, j: nat): CocoAnnotation {
    var b := GenerateBBox(cfg, draws(j));
    CocoAnnotation(j + 1, OwnerImage(j, cfg.annotationsPerImage), CATEGORIES[draws(j).pick % |CATEGORIES|].id,
                   b, b.w * b.h, 0)
  }

  /** The image entry for an ID. */
  function GeneratedImage(cfg: Config, id: nat): CocoImage {
    CocoImage(id, cfg.imageWidth, cfg.imageHeight, ImageName(id), 1)
  }

  /** What `generate_coco_dataset` returns. */
  ghost predicate Generated(cfg: Config, draws: Draws, coco: CocoDict) {
    && |coco.images| == cfg.numImages
    && (forall i :: 0 <= i < |coco.images| ==> coco.images[i] == GeneratedImage(cfg, i + 1))
    && |coco.annotations| == cfg.numImages * cfg.annotationsPerImage
    && (forall j :: 0 <= j < |coco.annotations| ==> coco.annotations[j] == GeneratedAnnotation(cfg, draws, j))
    && coco.categories == CATEGORIES
    && coco.licenses == [CocoLicense(1, "dummy_license", "")]
  }

  lemma {:induction false} DivOfMulAdd(q: nat, k: nat, n: nat)
    requires n < k
    ensures (q * k + n) / k == q
  {
    var j := q * k + n;
    var d := j / k;
    assert j == d * k + j % k;
    if d < q {
      MulLe(d + 1, q, k);
    } else if d > q {
      MulLe(q + 1, d, k);
    }
  }

  lemma MulLe(a: nat, b: nat, k: nat)
    requires a <= b
    ensures a * k <= b * k
  {
  }

  /**
   * `generate_coco_dataset`: images 1..N named `image_%06d.jpg`, and for
   * each image in turn `annotations_per_image` annotations with the running
   * ID, a generated box, its area and a chosen category.
   */
  method GenerateCocoDataset(cfg: Config, draws: Draws) returns (coco: CocoDict)
    ensures Generated(cfg, draws, coco)
  {
    var k := cfg.annotationsPerImage;
    var images: seq<CocoImage> := [];
    var annotations: seq<CocoAnnotation> := [];
    var imgId := 1;
    while imgId <= cfg.numImages
      invariant 1 <= imgId <= cfg.numImages + 1
      invariant |images| == imgId - 1
      invariant forall i :: 0 <= i < |images| ==> images[i] == GeneratedImage(cfg, i + 1)
      invariant |annotations| == (imgId - 1) * k && GeneratedPrefix(cfg, draws, annotations)
    {
      images := images + [CocoImage(imgId, cfg.imageWidth, cfg.imageHeight, ImageName(imgId), 1)];
      annotations := AnnotateImage(cfg, draws, imgId, annotations);
      imgId := imgId + 1;
    }
    coco := CocoDict(images, annotations, CATEGORIES, [CocoLicense(1, "dummy_license", "")]);
  }

  /** The annotations emitted so far are the first ones the generator emits. */
  predicate GeneratedPrefix(cfg: Config, draws: Draws, annotations: seq<CocoAnnotation>) {
    forall j :: 0 <= j < |annotations| ==> annotations[j] == GeneratedAnnotation(cfg, draws, j)
  }

  /** The inner loop: the `annotations_per_image` annotations of image `imgId`, with the running ID. */
  method AnnotateImage(cfg: Config, draws: Draws, imgId: nat, annotations: seq<CocoAnnotation>)
    returns (r: seq<CocoAnnotation>)
    requires 1 <= imgId && |annotations| == (imgId - 1) * cfg.annotationsPerImage
    requires GeneratedPrefix(cfg, draws, annotations)
    ensures |r| == imgId * cfg.annotationsPerImage && GeneratedPrefix(cfg, draws, r)
  {
    var k := cfg.annotationsPerImage;
    r := annotations;
    var annId := |r| + 1;
    var n := 0;
    while n < k
      invariant 0 <= n <= k
      invariant annId == |r| + 1 && |r| == (imgId - 1) * k + n
      invariant GeneratedPrefix(cfg, draws, r)
    {
      var bbox := GenerateBBox(cfg, draws(annId - 1));
      var categoryId := CATEGORIES[draws(annId - 1).pick % |CATEGORIES|].id;
      var area := bbox.w * bbox.h;
      DivOfMulAdd(imgId - 1, k, n);
      r := r + [CocoAnnotation(annId, imgId, categoryId, bbox, area, 0)];
      annId := annId + 1;
      n := n + 1;
    }
    assert (imgId - 1) * k + k == imgId * k;
  }

  /**
   * The generated annotations: IDs 1..N·k in order, the j-th on image
   * j/k + 1 (so every image gets exactly k), area = w·h, not a crowd, a
   * category among 1..5, and (for unit draws) a box inside the image.
   */
  lemma GeneratedAnnotations(cfg: Config, draws: Draws, coco: CocoDict)
    requires Generated(cfg, draws, coco)
    ensures forall j :: 0 <= j < |coco.annotations| ==>
              var a := coco.annotations[j];
              && a.id == j + 1
              && 1 <= a.imageId <= cfg.numImages
              && a.area == a.bbox.w * a.bbox.h && a.iscrowd == 0
              && 1 <= a.categoryId <= 5
              && (UnitDraw(draws(j)) ==> 0.0 <= a.bbox.x && a.bbox.x + a.bbox.w <= cfg.imageWidth as real
                                         && 0.0 <= a.bbox.y && a.bbox.y + a.bbox.h <= cfg.imageHeight as real)
  {
    var k := cfg.annotationsPerImage;
    forall j | 0 <= j < |coco.annotations| ensures 1 <= OwnerImage(j, k) <= cfg.numImages {
      DivBelow(j, k, cfg.numImages);
    }
  }

  lemma DivBelow(j: nat, k: nat, n: nat)
    requires j < n * k
    ensures k > 0 && j / k < n
  {
  }

  lemma DivRange(j: nat, k: nat, q: nat)
    requires k > 0
    ensures j / k == q <==> q * k <= j < (q + 1) * k
  {
    if q * k <= j < (q + 1) * k {
      DivOfMulAdd(q, k, j - q * k);
    }
  }

  /** Image i (from 1) owns exactly the annotations at positions (i-1)·k up to i·k. */
  lemma OwnedBlock(cfg: Config, draws: Draws, coco: CocoDict, i: nat, j: nat)
    requires Generated(cfg, draws, coco) && 1 <= i && j < |coco.annotations|
    ensures coco.annotations[j].imageId == i
            <==> (i - 1) * cfg.annotationsPerImage <= j < i * cfg.annotationsPerImage
  {
    var k := cfg.annotationsPerImage;
    DivBelow(j, k, cfg.numImages);
    DivRange(j, k, i - 1);
    assert coco.annotations[j].imageId == j / k + 1;
  }

  /** The image IDs are 1..N and the file names distinct. */
  lemma GeneratedImages(cfg: Config, draws: Draws, coco: CocoDict)
    requires Generated(cfg, draws, coco)
    ensures forall i :: 0 <= i < |coco.images| ==> coco.images[i].id == i + 1
    ensures forall i, j :: 0 <= i < j < |coco.images| ==> coco.images[i].fileName != coco.images[j].fileName
  {
    forall i, j | 0 <= i < j < |coco.images| ensures coco.images[i].fileName != coco.images[j].fileName {
      ImageNamesDistinct(i + 1, j + 1);
    }
  }

  // ---------------------------------------------------------------------
  // generate_tfod_csv
  // ---------------------------------------------------------------------

  /** `img_id_to_name`: a dict built from the images, so the last image with an ID wins. */
  function FileNameOf(images: seq<CocoImage>, id: nat): (r: Option<string>)
    ensures r.Some? <==> exists img :: img in images && img.id == id
  {
    if |images| == 0 then None
    else
      var last := images[|images| - 1];
      assert forall img :: img in images <==> img in images[..|images| - 1] || img == last;
      if last.id == id then Some(last.fileName) else FileNameOf(images[..|images| - 1], id)
  }

  /** `cat_id_to_name`. */
  function CategoryNameOf(id: nat): (r: Option<string>)
    ensures r.Some? <==> 1 <= id <= 5
  {
    if 1 <= id <= 5 then Some(CATEGORIES[id - 1].name) else None
  }

  /** The image IDs in the order they are first met. */
  function FirstSeen(anns: seq<CocoAnnotation>): (order: seq<nat>)
    ensures forall id :: id in order <==> exists a :: a in anns && a.imageId == id
    ensures forall i, j :: 0 <= i < j < |order| ==> order[i] != order[j]
  {
    if |anns| == 0 then []
    else
      var init := anns[..|anns| - 1];
      var last := anns[|anns| - 1];
      assert forall a :: a in anns <==> a in init || a == last;
      var prev := FirstSeen(init);
      if last.imageId in prev then prev else prev + [last.imageId]
  }

  /** `annotations_by_image[id]`: the image's annotations in their original order. */
  function GroupOf(anns: seq<CocoAnnotation>, id: nat): (g: seq<CocoAnnotation>)
    ensures forall a :: a in g <==> a in anns && a.imageId == id
  {
    Seqs.Filter(anns, (a: CocoAnnotation) => a.imageId == id)
  }

  /** One CSV row: the TFOD corners reordered to xmin, ymin, xmax, ymax. */
  function RowOf(cfg: Config, filename: string, className: string, a: CocoAnnotation): TfodRow
    requires PositiveDims(cfg)
  {
    var t := CocoToTfodBBox(cfg, a.bbox);
    TfodRow(filename, cfg.imageWidth, cfg.imageHeight, className, t.1, t.0, t.3, t.2)
  }

  /** The rows of one image's group, stopping at the first unknown category. */
  function GroupRows(cfg: Config, filename: string, group: seq<CocoAnnotation>): Result<seq<TfodRow>, GenError>
    requires PositiveDims(cfg)
  {
    if |group| == 0 then Ok([])
    else
      var prev := GroupRows(cfg, filename, group[..|group| - 1]);
      var last := group[|group| - 1];
      if prev.Err? then prev
      else
        var className := CategoryNameOf(last.categoryId);
        if className.None? then Err(MissingCategory(last.categoryId))
        else Ok(prev.value + [RowOf(cfg, filename, className.value, last)])
  }

  /** The rows of the groups of `order`, in that order, stopping at the first missing key. */
  function RowsFor(cfg: Config, coco: CocoDict, order: seq<nat>): Result<seq<TfodRow>, GenError>
    requires PositiveDims(cfg)
  {
    if |order| == 0 then Ok([])
    else
      var prev := RowsFor(cfg, coco, order[..|order| - 1]);
      var id := order[|order| - 1];
      if prev.Err? then prev
      else
        var filename := FileNameOf(coco.images, id);
        if filename.None? then Err(MissingImage(id))
        else
          var rows := GroupRows(cfg, filename.value, GroupOf(coco.annotations, id));
          if rows.Err? then rows else Ok(prev.value + rows.value)
  }

  /** What `generate_tfod_csv` returns: rows grouped by image in first-seen order. */
  function TfodRows(cfg: Config, coco: CocoDict): Result<seq<TfodRow>, GenError>
    requires PositiveDims(cfg)
  {
    RowsFor(cfg, coco, FirstSeen(coco.annotations))
  }

  lemma GroupOfSnoc(anns: seq<CocoAnnotation>, a: CocoAnnotation, id: nat)
    ensures GroupOf(anns + [a], id) == GroupOf(anns, id) + (if a.imageId == id then [a] else [])
  {
    assert (anns + [a])[..|anns|] == anns;
  }

  lemma GroupOfAbsent(anns: seq<CocoAnnotation>, id: nat)
    requires id !in FirstSeen(anns)
    ensures GroupOf(anns, id) == []
  {
  }

  lemma FirstSeenSnoc(anns: seq<CocoAnnotation>, a: CocoAnnotation)
    ensures FirstSeen(anns + [a]) == if a.imageId in FirstSeen(anns) then FirstSeen(anns) else FirstSeen(anns) + [a.imageId]
  {
    assert (anns + [a])[..|anns|] == anns;
  }

  lemma GroupRowsStep(cfg: Config, filename: string, group: seq<CocoAnnotation>, n: nat)
    requires PositiveDims(cfg) && n < |group|
    ensures GroupRows(cfg, filename, group[..n + 1])
            == var prev := GroupRows(cfg, filename, group[..n]);
               if prev.Err? then prev
               else if CategoryNameOf(group[n].categoryId).None? then Err(MissingCategory(group[n].categoryId))
               else Ok(prev.value + [RowOf(cfg, filename, CategoryNameOf(group[n].categoryId).value, group[n])])
  {
    assert group[..n + 1][..n] == group[..n];
  }

  lemma RowsForStep(cfg: Config, coco: CocoDict, order: seq<nat>, g: nat)
    requires PositiveDims(cfg) && g < |order|
    ensures RowsFor(cfg, coco, order[..g + 1])
            == var prev := RowsFor(cfg, coco, order[..g]);
               if prev.Err? then prev
               else if FileNameOf(coco.images, order[g]).None? then Err(MissingImage(order[g]))
               else
                 var rows := GroupRows(cfg, FileNameOf(coco.images, order[g]).value, GroupOf(coco.annotations, order[g]));
                 if rows.Err? then rows else Ok(prev.value + rows.value)
  {
    assert order[..g + 1][..g] == order[..g];
  }

  lemma {:induction false} GroupRowsErrPersists(cfg: Config, filename: string, group: seq<CocoAnnotation>, n: nat)
    requires PositiveDims(cfg) && n <= |group| && GroupRows(cfg, filename, group[..n]).Err?
    ensures GroupRows(cfg, filename, group) == GroupRows(cfg, filename, group[..n])
    decreases |group| - n
  {
    if n < |group| {
      GroupRowsStep(cfg, filename, group, n);
      GroupRowsErrPersists(cfg, filename, group, n + 1);
    } else {
      assert group[..n] == group;
    }
  }

  lemma {:induction false} RowsForErrPersists(cfg: Config, coco: CocoDict, order: seq<nat>, g: nat)
    requires PositiveDims(cfg) && g <= |order| && RowsFor(cfg, coco, order[..g]).Err?
    ensures RowsFor(cfg, coco, order) == RowsFor(cfg, coco, order[..g])
    decreases |order| - g
  {
    if g < |order| {
      RowsForStep(cfg, coco, order, g);
      RowsForErrPersists(cfg, coco, order, g + 1);
    } else {
      assert order[..g] == order;
    }
  }

  /** The groups of `prefix` are those of `groups`; after one more annotation, appending it to its group keeps them so. */
  lemma GroupsStep(prefix: seq<CocoAnnotation>, a: CocoAnnotation, groups: map<nat, seq<CocoAnnotation>>)
    requires a.imageId in groups
    requires forall id :: id in groups ==> groups[id] == GroupOf(prefix, id)
    ensures var next := groups[a.imageId := groups[a.imageId] + [a]];
            forall id :: id in next ==> next[id] == GroupOf(prefix + [a], id)
  {
    var next := groups[a.imageId := groups[a.imageId] + [a]];
    forall id | id in next ensures next[id] == GroupOf(prefix + [a], id) {
      GroupOfSnoc(prefix, a, id);
    }
  }

  /** The first loop: the dict of groups, keyed in first-seen order. */
  method GroupByImage(anns: seq<CocoAnnotation>) returns (order: seq<nat>, groups: map<nat, seq<CocoAnnotation>>)
    ensures order == FirstSeen(anns)
    ensures groups.Keys == set id | id in order
    ensures forall id :: id in groups ==> groups[id] == GroupOf(anns, id)
  {
    order, groups := [], map[];
    for i := 0 to |anns|
      invariant order == FirstSeen(anns[..i])
      invariant groups.Keys == set id | id in order
      invariant forall id :: id in groups ==> groups[id] == GroupOf(anns[..i], id)
    {
      var a := anns[i];
      ghost var prefix := anns[..i];
      assert anns[..i + 1] == prefix + [a];
      FirstSeenSnoc(prefix, a);
      if a.imageId !in groups {
        GroupOfAbsent(prefix, a.imageId);
        order := order + [a.imageId];
        groups := groups[a.imageId := []];
      }
      GroupsStep(prefix, a, groups);
      groups := groups[a.imageId := groups[a.imageId] + [a]];
    }
    assert anns[..|anns|] == anns;
  }

  /** The inner loop of the CSV step: one image's rows, or the first unknown category. */
  method GroupCsvRows(cfg: Config, filename: string, group: seq<CocoAnnotation>) returns (r: Result<seq<TfodRow>, GenError>)
    requires PositiveDims(cfg)
    ensures r == GroupRows(cfg, filename, group)
  {
    var rows: seq<TfodRow> := [];
    for n := 0 to |group|
      invariant GroupRows(cfg, filename, group[..n]) == Ok(rows)
    {
      var ann := group[n];
      GroupRowsStep(cfg, filename, group, n);
      var className := CategoryNameOf(ann.categoryId);
      if className.None? {
        GroupRowsErrPersists(cfg, filename, group, n + 1);
        return Err(MissingCategory(ann.categoryId));
      }
      rows := rows + [RowOf(cfg, filename, className.value, ann)];
    }
    assert group[..|group|] == group;
    r := Ok(rows);
  }

  /**
   * `generate_tfod_csv`: the annotations grouped by image in first-seen
   * order, each group's rows in annotation order; a missing image or
   * category ID raises, modelled as the error.
   */
  method GenerateTfodCsv(cfg: Config, coco: CocoDict) returns (r: Result<seq<TfodRow>, GenError>)
    requires PositiveDims(cfg)
    ensures r == TfodRows(cfg, coco)
  {
    var order, groups := GroupByImage(coco.annotations);
    var rows: seq<TfodRow> := [];
    for g := 0 to |order|
      invariant RowsFor(cfg, coco, order[..g]) == Ok(rows)
    {
      var imgId := order[g];
      RowsForStep(cfg, coco, order, g);
      var filename := FileNameOf(coco.images, imgId);
      if filename.None? {
        RowsForErrPersists(cfg, coco, order, g + 1);
        return Err(MissingImage(imgId));
      }
      assert imgId in groups;
      var groupRows := GroupCsvRows(cfg, filename.value, groups[imgId]);
      if groupRows.Err? {
        RowsForErrPersists(cfg, coco, order, g + 1);
        return groupRows;
      }
      rows := rows + groupRows.value;
    }
    assert order[..|order|] == order;
    r := Ok(rows);
  }

  // ---------------------------------------------------------------------
  // Row order
  // ---------------------------------------------------------------------

  /** Every annotation's image and category are known. */
  predicate Resolvable(coco: CocoDict, anns: seq<CocoAnnotation>) {
    forall a :: a in anns ==> FileNameOf(coco.images, a.imageId).Some? && CategoryNameOf(a.categoryId).Some?
  }

  /** The row of one annotation, its lookups succeeding. */
  function AnnRow(cfg: Config, coco: CocoDict, a: CocoAnnotation): TfodRow
    requires PositiveDims(cfg)
    requires FileNameOf(coco.images, a.imageId).Some? && CategoryNameOf(a.categoryId).Some?
  {
    RowOf(cfg, FileNameOf(coco.images, a.imageId).value, CategoryNameOf(a.categoryId).value, a)
  }

  /** The rows of `anns`, one per annotation, in order. */
  function MapRows(cfg: Config, coco: CocoDict, anns: seq<CocoAnnotation>): (rows: seq<TfodRow>)
    requires PositiveDims(cfg) && Resolvable(coco, anns)
    ensures |rows| == |anns|
  {
    if |anns| == 0 then []
    else
      assert anns[|anns| - 1] in anns;
      MapRows(cfg, coco, anns[..|anns| - 1]) + [AnnRow(cfg, coco, anns[|anns| - 1])]
  }

  lemma {:induction false} MapRowsAt(cfg: Config, coco: CocoDict, anns: seq<CocoAnnotation>, j: nat)
    requires PositiveDims(cfg) && Resolvable(coco, anns) && j < |anns|
    ensures MapRows(cfg, coco, anns)[j] == AnnRow(cfg, coco, anns[j])
  {
    if j < |anns| - 1 {
      assert anns[..|anns| - 1][j] == anns[j];
      MapRowsAt(cfg, coco, anns[..|anns| - 1], j);
    }
  }

  lemma {:induction false} MapRowsAppend(cfg: Config, coco: CocoDict, a: seq<CocoAnnotation>, b: seq<CocoAnnotation>)
    requires PositiveDims(cfg) && Resolvable(coco, a) && Resolvable(coco, b)
    ensures Resolvable(coco, a + b) && MapRows(cfg, coco, a + b) == MapRows(cfg, coco, a) + MapRows(cfg, coco, b)
  {
    if |b| > 0 {
      var init := b[..|b| - 1];
      MapRowsAppend(cfg, coco, a, init);
      assert (a + b)[..|a + b| - 1] == a + init;
    } else {
      assert a + b == a;
    }
  }

  /** The groups of `order` laid end to end. */
  function Flatten(anns: seq<CocoAnnotation>, order: seq<nat>): seq<CocoAnnotation> {
    if |order| == 0 then [] else Flatten(anns, order[..|order| - 1]) + GroupOf(anns, order[|order| - 1])
  }

  lemma {:induction false} GroupRowsResolved(cfg: Config, coco: CocoDict, id: nat, group: seq<CocoAnnotation>)
    requires PositiveDims(cfg) && Resolvable(coco, group) && FileNameOf(coco.images, id).Some?
    requires forall a :: a in group ==> a.imageId == id
    ensures GroupRows(cfg, FileNameOf(coco.images, id).value, group) == Ok(MapRows(cfg, coco, group))
  {
    if |group| > 0 {
      assert group[|group| - 1] in group;
      GroupRowsResolved(cfg, coco, id, group[..|group| - 1]);
    }
  }

  /** With every lookup succeeding, the rows are the groups' annotations in group order, each mapped to its row. */
  lemma {:induction false} RowsForResolved(cfg: Config, coco: CocoDict, order: seq<nat>)
    requires PositiveDims(cfg) && Resolvable(coco, coco.annotations)
    requires forall id :: id in order ==> FileNameOf(coco.images, id).Some?
    ensures Resolvable(coco, Flatten(coco.annotations, order))
    ensures RowsFor(cfg, coco, order) == Ok(MapRows(cfg, coco, Flatten(coco.annotations, order)))
  {
    if |order| > 0 {
      var init := order[..|order| - 1];
      var id := order[|order| - 1];
      assert id in order;
      RowsForResolved(cfg, coco, init);
      var group := GroupOf(coco.annotations, id);
      GroupRowsResolved(cfg, coco, id, group);
      MapRowsAppend(cfg, coco, Flatten(coco.annotations, init), group);
    }
  }

  /** Annotations of one image stand together. */
  predicate Contiguous(anns: seq<CocoAnnotation>) {
    forall i, j, l :: 0 <= i < j < l < |anns| && anns[i].imageId == anns[l].imageId ==> anns[j].imageId == anns[i].imageId
  }

  lemma ContiguousPrefix(anns: seq<CocoAnnotation>, n: nat)
    requires Contiguous(anns) && n <= |anns|
    ensures Contiguous(anns[..n])
  {
    var p := anns[..n];
    forall x, y, z | 0 <= x < y < z < |p| && p[x].imageId == p[z].imageId
      ensures p[y].imageId == p[x].imageId
    {
      assert anns[x] == p[x] && anns[y] == p[y] && anns[z] == p[z];
    }
  }

  /** Under contiguity, an image met again is the image just before. */
  lemma RepeatIsAdjacent(anns: seq<CocoAnnotation>)
    requires Contiguous(anns) && |anns| > 0
    requires anns[|anns| - 1].imageId in FirstSeen(anns[..|anns| - 1])
    ensures |anns| >= 2 && anns[|anns| - 2].imageId == anns[|anns| - 1].imageId
  {
    var init := anns[..|anns| - 1];
    var i := SeenAt(init, anns[|anns| - 1].imageId);
    assert anns[i] == init[i];
  }

  /** A first-seen image ID is the image of some annotation, at an index. */
  lemma SeenAt(anns: seq<CocoAnnotation>, id: nat) returns (i: nat)
    requires id in FirstSeen(anns)
    ensures i < |anns| && anns[i].imageId == id
  {
    var a :| a in anns && a.imageId == id;
    i :| i < |anns| && anns[i] == a;
  }

  lemma {:induction false} FlattenOthers(anns: seq<CocoAnnotation>, a: CocoAnnotation, order: seq<nat>)
    requires a.imageId !in order
    ensures Flatten(anns + [a], order) == Flatten(anns, order)
  {
    if |order| > 0 {
      FlattenOthers(anns, a, order[..|order| - 1]);
      GroupOfSnoc(anns, a, order[|order| - 1]);
    }
  }

  /** Under contiguity, the most recent new image is the image of the last annotation. */
  lemma {:induction false} FirstSeenEndsWithLast(anns: seq<CocoAnnotation>)
    requires |anns| > 0 && Contiguous(anns)
    ensures |FirstSeen(anns)| > 0 && FirstSeen(anns)[|FirstSeen(anns)| - 1] == anns[|anns| - 1].imageId
  {
    var init := anns[..|anns| - 1];
    var a := anns[|anns| - 1];
    assert anns == init + [a];
    FirstSeenSnoc(init, a);
    if a.imageId in FirstSeen(init) {
      RepeatIsAdjacent(anns);
      ContiguousPrefix(anns, |anns| - 1);
      FirstSeenEndsWithLast(init);
      assert init[|init| - 1] == anns[|anns| - 2];
      assert FirstSeen(anns) == FirstSeen(init);
    } else {
      assert FirstSeen(anns) == FirstSeen(init) + [a.imageId];
    }
  }

  /** An annotation on the image seen last extends that image's group, which is the last one. */
  lemma FlattenSnocRepeat(init: seq<CocoAnnotation>, a: CocoAnnotation)
    requires |FirstSeen(init)| > 0 && FirstSeen(init)[|FirstSeen(init)| - 1] == a.imageId
    ensures Flatten(init + [a], FirstSeen(init + [a])) == Flatten(init, FirstSeen(init)) + [a]
  {
    var order := FirstSeen(init);
    assert a.imageId in order;
    FirstSeenSnoc(init, a);
    var front := order[..|order| - 1];
    assert forall k :: 0 <= k < |front| ==> front[k] == order[k];
    assert a.imageId !in front;
    FlattenOthers(init, a, front);
    GroupOfSnoc(init, a, a.imageId);
    assert Flatten(init + [a], order) == Flatten(init + [a], front) + GroupOf(init + [a], a.imageId);
    assert Flatten(init, order) == Flatten(init, front) + GroupOf(init, a.imageId);
  }

  /** An annotation on an image not seen before opens a new group at the end. */
  lemma FlattenSnocNew(init: seq<CocoAnnotation>, a: CocoAnnotation)
    requires a.imageId !in FirstSeen(init)
    ensures Flatten(init + [a], FirstSeen(init + [a])) == Flatten(init, FirstSeen(init)) + [a]
  {
    var order := FirstSeen(init);
    FirstSeenSnoc(init, a);
    FlattenOthers(init, a, order);
    GroupOfAbsent(init, a.imageId);
    GroupOfSnoc(init, a, a.imageId);
    var full := order + [a.imageId];
    assert full[..|full| - 1] == order;
  }

  /** Grouping contiguous annotations and laying the groups end to end in first-seen order changes nothing. */
  lemma {:induction false} GroupedFlatten(anns: seq<CocoAnnotation>)
    requires Contiguous(anns)
    ensures Flatten(anns, FirstSeen(anns)) == anns
  {
    if |anns| > 0 {
      var init := anns[..|anns| - 1];
      var a := anns[|anns| - 1];
      assert anns == init + [a];
      ContiguousPrefix(anns, |anns| - 1);
      GroupedFlatten(init);
      if a.imageId in FirstSeen(init) {
        FirstSeenSnoc(init, a);
        FirstSeenEndsWithLast(anns);
        FlattenSnocRepeat(init, a);
      } else {
        FlattenSnocNew(init, a);
      }
    }
  }

  /**
   * For annotations already grouped by image with every lookup succeeding,
   * the CSV has one row per annotation, in annotation order.
   */
  lemma ContiguousRows(cfg: Config, coco: CocoDict)
    requires PositiveDims(cfg) && Resolvable(coco, coco.annotations) && Contiguous(coco.annotations)
    ensures TfodRows(cfg, coco) == Ok(MapRows(cfg, coco, coco.annotations))
  {
    var order := FirstSeen(coco.annotations);
    forall id | id in order ensures FileNameOf(coco.images, id).Some? {
      var a :| a in coco.annotations && a.imageId == id;
    }
    RowsForResolved(cfg, coco, order);
    GroupedFlatten(coco.annotations);
  }

  lemma OwnerMonotone(x: nat, y: nat, k: nat)
    requires x <= y
    ensures OwnerImage(x, k) <= OwnerImage(y, k)
  {
    if k > 0 {
      var qx, qy := x / k, y / k;
      assert x == qx * k + x % k && y == qy * k + y % k;
      if qx > qy {
        MulLe(qy + 1, qx, k);
      }
    }
  }

  lemma {:induction false} FileNameOfNumbered(cfg: Config, images: seq<CocoImage>, id: nat)
    requires forall i :: 0 <= i < |images| ==> images[i] == GeneratedImage(cfg, i + 1)
    requires 1 <= id <= |images|
    ensures FileNameOf(images, id) == Some(ImageName(id))
  {
    if id < |images| {
      FileNameOfNumbered(cfg, images[..|images| - 1], id);
    }
  }

  /** The generator's annotations stand grouped by image and every lookup of the CSV step succeeds. */
  lemma GeneratedGrouped(cfg: Config, draws: Draws, coco: CocoDict)
    requires Generated(cfg, draws, coco)
    ensures Contiguous(coco.annotations) && Resolvable(coco, coco.annotations)
  {
    var anns := coco.annotations;
    GeneratedAnnotations(cfg, draws, coco);
    forall a | a in anns ensures FileNameOf(coco.images, a.imageId) == Some(ImageName(a.imageId)) {
      FileNameOfNumbered(cfg, coco.images, a.imageId);
    }
    forall x, y, z | 0 <= x < y < z < |anns| && anns[x].imageId == anns[z].imageId
      ensures anns[y].imageId == anns[x].imageId
    {
      OwnerMonotone(x, y, cfg.annotationsPerImage);
      OwnerMonotone(y, z, cfg.annotationsPerImage);
    }
  }

  /** On the generator's own output the CSV rows follow the annotations one to one. */
  lemma GeneratedCsvRows(cfg: Config, draws: Draws, coco: CocoDict)
    requires PositiveDims(cfg) && Generated(cfg, draws, coco)
    ensures Resolvable(coco, coco.annotations)
    ensures TfodRows(cfg, coco) == Ok(MapRows(cfg, coco, coco.annotations))
  {
    GeneratedGrouped(cfg, draws, coco);
    ContiguousRows(cfg, coco);
  }

  /**
   * On the generator's own output the CSV has one row per annotation, in
   * annotation order: row j names annotation j's image file and category,
   * carries the image size, and its corners are the TFOD corners of
   * annotation j's box (which `TfodBBoxInverse` scales back).
   */
  lemma GeneratedCsvRow(cfg: Config, draws: Draws, coco: CocoDict, j: nat)
    requires PositiveDims(cfg) && Generated(cfg, draws, coco) && j < |coco.annotations|
    ensures TfodRows(cfg, coco).Ok? && |TfodRows(cfg, coco).value| == |coco.annotations|
    ensures var row := TfodRows(cfg, coco).value[j];
            && row.filename == ImageName(coco.annotations[j].imageId)
            && row.className == CATEGORIES[draws(j).pick % |CATEGORIES|].name
            && row.width == cfg.imageWidth && row.height == cfg.imageHeight
            && (row.ymin, row.xmin, row.ymax, row.xmax) == CocoToTfodBBox(cfg, coco.annotations[j].bbox)
  {
    GeneratedCsvRows(cfg, draws, coco);
    MapRowsAt(cfg, coco, coco.annotations, j);
    var a := coco.annotations[j];
    assert a in coco.annotations;
    GeneratedCategory(cfg, draws, coco, j);
    OwnerInRange(cfg, draws, coco, j);
    FileNameOfNumbered(cfg, coco.images, a.imageId);
  }

  lemma GeneratedCategory(cfg: Config, draws: Draws, coco: CocoDict, j: nat)
    requires Generated(cfg, draws, coco) && j < |coco.annotations|
    ensures CategoryNameOf(coco.annotations[j].categoryId) == Some(CATEGORIES[draws(j).pick % |CATEGORIES|].name)
  {
    assert coco.annotations[j].categoryId == CATEGORIES[draws(j).pick % |CATEGORIES|].id;
  }

  lemma OwnerInRange(cfg: Config, draws: Draws, coco: CocoDict, j: nat)
    requires Generated(cfg, draws, coco) && j < |coco.annotations|
    ensures 1 <= coco.annotations[j].imageId <= |coco.images|
  {
    DivBelow(j, cfg.annotationsPerImage, cfg.numImages);
    assert coco.annotations[j] == GeneratedAnnotation(cfg, draws, j);
  }

}
