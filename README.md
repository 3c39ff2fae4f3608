# panlabel in Dafny

panlabel converts object-detection annotation datasets between formats.
Every format is read into one intermediate representation (IR). The IR
holds dataset info, licenses, images, categories and annotations, with
pixel-space `xyxy` boxes. Every writer starts from the IR. Around the
readers and writers sit:

- dataset validation;
- the lossiness report that gates a conversion;
- dataset statistics;
- subset sampling;
- a semantic dataset diff;
- the command-line decisions;
- the Hugging Face acquisition helpers.

This project models that core in Dafny and proves properties of the model.
It also models the property-test helpers that build and compare datasets,
and the Python script that generates a synthetic COCO/TFOD fixture.

Layout, by module:

- `Ir` (model.dfy) and `BBoxes` (bbox.dfy): the IR and the bounding-box algebra.
- `CocoJson`, `TfodCsv`, `YoloLabels`/`YoloRead`/`YoloWrite`/`YoloRoundTrip`, `VocXml`/`VocFacts`/`VocWrite`, `CvatXml`/`CvatFacts`/`CvatWrite`/`CvatWriteFacts`, `LabelStudio`/`LabelStudioFacts`/`LabelStudioWrite`/`LabelStudioWriteFacts`/`LabelStudioRoundTrip` and `HfImagefolder`/`HfImagefolderFacts`/`HfImagefolderWrite`/`HfImagefolderWriteFacts`: one reader and one writer per format, with their facts.
- `Grouping`: the per-image grouping shared by the VOC and YOLO writers.
- `XmlTree` and `JsonValue`: the parsed XML and JSON trees the adapters walk.
- `Validation`, `ValidationReports`, `Conversion` and `ConversionReports`: the validation issues and the conversion lossiness report.
- `StatsCounts`, `StatsRanking` and `StatsFormat`: statistics and their text formatting.
- `Sample`: subset sampling.
- `Diff`: the semantic diff.
- `Cli`: format detection and the gates in the command-line driver.
- `HfResolve`, `HfAcquire` and `HfPreflight`: the Hugging Face helpers.
- `ProptestHelpers`: the property-test dataset builder and semantic comparison.
- `DatasetGenerator`: the synthetic fixture generator.
- `Numbers`, `Seqs`, `Sorting`, `StrOrder`, `Text` and `Wrappers`: shared utilities.

The models take the source's own form:

- Loops that fill a list or a report become methods with loop invariants. Each is proved equal to a specification function.
- The properties the source promises are lemmas about those functions. Examples are round trips, orderings, error conditions and counts.
- The validation and conversion reports are classes whose methods append issues.

The source depends on things that cannot be modelled: the file system, the clock, the random number generator, float parsing and formatting, and the IoU computation. These enter as function parameters. So do a few helpers whose source is not part of this model: `from_cxcywh`/`to_cxcywh`, `DatasetInfo::is_empty` and `iou`. The lemmas that need a law about such a parameter take it as a `requires`; for example, `YoloRoundTrip.LineRoundTrip` requires `CxcywhInverse`. Floating-point values (`f64`) are modelled as `real`, with a `finite` flag on boxes standing for NaN and infinity.

## Model

| member | source | states |
|---|---|---|
| BBoxes.FromXyxy | src/ir/bbox.rs:30-37 | the box holds the four coordinates exactly as given |
| BBoxes.Default | src/ir/bbox.rs:111-115 | the default box is the finite, ordered, degenerate box at the origin |
| BBoxes.OrderedIffSidesNonNegative | src/ir/bbox.rs:63-98 | a box is ordered exactly when neither its width nor its height is negative |
| BBoxes.AreaSign | src/ir/bbox.rs:80-86 | an ordered box has non-negative area; a box inverted on exactly one axis has negative area (no clamping) |
| BBoxes.FromXywh | src/ir/bbox.rs:148-154 | the box starts at the given corner and has exactly the given width and height |
| BBoxes.ToXywh | src/ir/bbox.rs:156-160 | corner plus size; adding the size to the corner gives the max corner |
| BBoxes.XywhRoundTrip | src/ir/bbox.rs:238-245 | XYXY to XYWH and back restores the box |
| BBoxes.XywhRoundTripFromParts | src/ir/bbox.rs:148-160 | XYWH to XYXY and back restores the four numbers |
| BBoxes.ToNormalized | src/ir/bbox.rs:166-180 | each x is divided by the width and each y by the height; the result is finite exactly when the box is finite and neither side is zero |
| BBoxes.ToPixel | src/ir/bbox.rs:182-196 | each x is multiplied by the width and each y by the height; finiteness is kept |
| BBoxes.PixelRoundTrip | src/ir/bbox.rs:166-196 | for non-zero image sides, normalising then scaling back restores the pixel box |
| BBoxes.NormalizedRoundTrip | src/ir/bbox.rs:166-196 | for non-zero image sides, scaling then normalising restores the normalised box |
| BBoxes.NormalizedAxesIndependent | src/ir/bbox.rs:172-179 | x coordinates depend only on the width and y coordinates only on the height |
| Ir.DefaultInfo | src/ir/model.rs:39-70 | the default dataset info has every field absent |
| Ir.DefaultDataset | src/ir/model.rs:18-37 | the default dataset has default info and empty license, image, category and annotation lists |
| Ir.NewLicense | src/ir/model.rs:85-94 | a license with the given ID and name and no URL |
| Ir.LicenseWithUrl | src/ir/model.rs:95-108 | a license with the given ID, name and URL |
| Ir.NewImage | src/ir/model.rs:133-149 | an image with the given ID, file name and size, and no license, capture date or attributes |
| Ir.WithLicense | src/ir/model.rs:151-155 | sets the license and changes nothing else |
| Ir.WithDateCaptured | src/ir/model.rs:157-161 | sets the capture date and changes nothing else |
| Ir.NewCategory | src/ir/model.rs:184-192 | a category with the given ID and name and no supercategory |
| Ir.CategoryWithSupercategory | src/ir/model.rs:194-205 | a category with the given ID, name and supercategory |
| Ir.NewAnnotation | src/ir/model.rs:238-254 | an annotation with the given IDs and box, no confidence and no attributes |
| Ir.WithConfidence | src/ir/model.rs:256-260 | sets the confidence and changes nothing else |
| Ir.WithAttribute | src/ir/model.rs:262-266 | inserts or overwrites exactly one key; every other key keeps its value; the size grows by one exactly when the key is new |
| Ir.TwoAttributes | src/ir/model.rs:302-316 | two distinct keys added to a fresh annotation leave two attributes, each with its value |
| Ir.LookupImage | src/ir/io_tfod_csv.rs:306-307 | an ID-keyed map of the images has an entry exactly for the IDs present; the entry is an image with that ID |
| Ir.LookupCategory | src/ir/io_tfod_csv.rs:309-310 | an ID-keyed map of the categories has an entry exactly for the IDs present; the entry is a category with that ID |
| CocoJson.ReadInfo | src/ir/io_coco_json.rs:216-229 | the info block is copied field by field with no dataset name; a missing block gives the default info |
| CocoJson.ReadAnnotation | src/ir/io_coco_json.rs:267-303 | IDs and score are kept; `iscrowd` becomes an attribute exactly when present, printed as decimal; `area` becomes an attribute exactly when present, in six-decimal form |
| CocoJson.ReadLicenses | src/ir/io_coco_json.rs:231-240 | licenses are mapped one by one in document order |
| CocoJson.ReadImages | src/ir/io_coco_json.rs:242-254 | images are mapped one by one in document order |
| CocoJson.ReadCategories | src/ir/io_coco_json.rs:256-265 | categories are mapped one by one in document order |
| CocoJson.ReadAnnotations | src/ir/io_coco_json.rs:267-305 | annotations are mapped one by one in document order |
| CocoJson.ReadKeepsIds | src/ir/io_coco_json.rs:215-313 | reading keeps every list's length, order and IDs and never sets a dataset name |
| CocoJson.ReadBoxCorners | src/ir/io_coco_json.rs:272-273 | `[x, y, w, h]` is read as the corners `(x, y, x + w, y + h)` |
| CocoJson.WriteInfo | src/ir/io_coco_json.rs:319-327 | the info block is always written; reading it back gives the info without its name and attributes |
| CocoJson.WriteLicense | src/ir/io_coco_json.rs:330-338 | reading a written license gives it back |
| CocoJson.WriteImage | src/ir/io_coco_json.rs:341-353 | reading a written image gives it back without its attributes |
| CocoJson.WriteCategory | src/ir/io_coco_json.rs:356-364 | reading a written category gives it back |
| CocoJson.StoredIscrowd | src/ir/io_coco_json.rs:376-381 | the written `iscrowd` is 0 when the attribute is absent |
| CocoJson.StoredArea | src/ir/io_coco_json.rs:369-374 | the written area is the box area when the `area` attribute is absent |
| CocoJson.WriteAnnotation | src/ir/io_coco_json.rs:366-395 | IDs and confidence kept; the box is written as corner plus size whose sum is the max corner; area and iscrowd are always set |
| CocoJson.WriteLicenses | src/ir/io_coco_json.rs:330-338 | licenses are mapped one by one before sorting |
| CocoJson.WriteImages | src/ir/io_coco_json.rs:341-353 | images are mapped one by one before sorting |
| CocoJson.WriteCategories | src/ir/io_coco_json.rs:356-364 | categories are mapped one by one before sorting |
| CocoJson.WriteAnnotations | src/ir/io_coco_json.rs:366-395 | annotations are mapped one by one before sorting |
| CocoJson.WriteSortedById | src/ir/io_coco_json.rs:318-405 | each written list is a permutation of the mapped input list, in ascending ID order |
| CocoJson.WriteAttributeDefaults | src/ir/io_coco_json.rs:367-381 | the written `iscrowd` is the stored attribute when it parses as a u8, else 0; the area is the stored attribute when it parses, else the box area |
| CocoJson.CocoAnnotationRoundTrip | src/ir/io_coco_json.rs:610-636 | a COCO annotation read then written keeps its IDs, box and score; a given `iscrowd` is kept and a missing one becomes 0; a missing area becomes `w * h`, and a given area comes back as its six-decimal text parsed again |
| CocoJson.IrAnnotationRoundTrip | src/ir/io_coco_json.rs:522-542 | an IR annotation written then read keeps its IDs, box and confidence |
| CocoJson.IrRoundTripLicenses | src/ir/io_coco_json.rs:522-542 | licenses already in ascending ID order come back unchanged |
| CocoJson.IrRoundTripCategories | src/ir/io_coco_json.rs:522-542 | categories already in ascending ID order come back unchanged |
| CocoJson.IrRoundTripImages | src/ir/io_coco_json.rs:522-542 | images already in ascending ID order come back in that order, unchanged but for their attributes |
| CocoJson.IrRoundTripAnnotations | src/ir/io_coco_json.rs:522-542 | annotations already in ascending ID order come back in that order with their IDs, box and confidence |
| TfodCsv.FirstDimsKeys | src/ir/io_tfod_csv.rs:209-226 | the keys of `image_dims` are exactly the filenames of the rows |
| TfodCsv.FirstDimsValue | src/ir/io_tfod_csv.rs:211-225 | with consistent rows, the map holds every row's own width and height |
| TfodCsv.CollectImageDims | src/ir/io_tfod_csv.rs:209-226 | fails exactly when two rows for one file disagree on its size, naming a row; otherwise returns the first-seen sizes |
| TfodCsv.TfodToIr | src/ir/io_tfod_csv.rs:206-297 | fails exactly on inconsistent dimensions; otherwise returns the dataset built from the rows |
| TfodCsv.ReadImageList | src/ir/io_tfod_csv.rs:240-256 | the image list is the sorted, deduplicated filenames, with IDs 1..n |
| TfodCsv.ReadImages | src/ir/io_tfod_csv.rs:240-256 | images are numbered 1..n in strictly ascending filename order, one per filename, each with the size of its rows |
| TfodCsv.ReadCategories | src/ir/io_tfod_csv.rs:228-265 | one category per distinct class name, in ascending name order, with IDs 1..k |
| TfodCsv.ReadAnnotations | src/ir/io_tfod_csv.rs:267-288 | one annotation per row in row order, row k getting ID k+1, on its file's image and its class's category, with its normalised box scaled by the row's size |
| TfodCsv.ReadRowImage | src/ir/io_tfod_csv.rs:272 | a row's annotation points at the image carrying the row's filename |
| TfodCsv.ReadRowCategory | src/ir/io_tfod_csv.rs:273 | a row's annotation points at the category carrying the row's class name |
| TfodCsv.MissingRef | src/ir/io_tfod_csv.rs:316-341 | an annotation fails to write exactly when its image or its category is missing, the image being checked first |
| TfodCsv.RowPairs | src/ir/io_tfod_csv.rs:313-362 | one (annotation ID, row) pair per annotation |
| TfodCsv.IrToTfod | src/ir/io_tfod_csv.rs:304-368 | fails exactly when some annotation has a missing reference; otherwise returns the rows of the pairs stably sorted by annotation ID |
| TfodCsv.WrittenRowsOrder | src/ir/io_tfod_csv.rs:364-367 | the written rows are exactly the annotations' rows, each once, in ascending annotation ID order |
| TfodCsv.UsedFileNames | src/ir/io_tfod_csv.rs:318-350 | the file name of each annotation's image, in annotation order |
| TfodCsv.RowBoxRoundTrip | src/ir/io_tfod_csv.rs:343-345 | writing divides by the image size and reading multiplies back, so a finite box on an image of nonzero size is restored |
| TfodCsv.WriteReadAnnotations | src/ir/io_tfod_csv.rs:442-460 | written then read back, annotations sorted by ID keep their count and order and get IDs 1..n, with the same boxes, images and categories |
| TfodCsv.SortedInputRows | src/ir/io_tfod_csv.rs:364-367 | annotations already in ID order are written in that order |
| TfodCsv.WriteReadAt | src/ir/io_tfod_csv.rs:442-460 | the k-th annotation read back has ID k+1 and the box of the k-th annotation written |
| TfodCsv.RowPairBox | src/ir/io_tfod_csv.rs:343-356 | the row written for a finite box on an image of nonzero size reads back as that box |
| TfodCsv.WriteReadImageNames | src/ir/io_tfod_csv.rs:463-472 | after a round trip the image file names are exactly those of the images that had annotations |
| TfodCsv.ReadRow | src/ir/io_tfod_csv.rs:267-288 | row `k`'s annotation points at the image with the row's filename and the category with its class name, with the row's box |
| TfodCsv.NamesHaveDims | src/ir/io_tfod_csv.rs:240-256 | every sorted filename has dimensions in the `image_dims` map |
| TfodCsv.WrittenNameUsed | src/ir/io_tfod_csv.rs:343-356 | every filename in the written rows is the file name of an annotation's image |
| TfodCsv.UsedNameWritten | src/ir/io_tfod_csv.rs:343-356 | every annotation's image file name appears in the written rows |
| YoloLabels.TakeTokens | src/ir/io_yolo.rs:516-517 | only the first six whitespace-separated tokens are kept, in order |
| YoloLabels.ParseField | src/ir/io_yolo.rs:568-580 | a number token parses exactly when the float parser accepts it; otherwise the error names the field and the raw token |
| YoloLabels.SkippedIffBlank | src/ir/io_yolo.rs:511-514 | a label line is skipped (no row, no error) exactly when it is empty or white space |
| YoloLabels.TokenCountRules | src/ir/io_yolo.rs:516-560 | fewer than five tokens is a too-few-tokens error carrying the count; more than five is the segmentation/pose error; the line parses exactly when it has five tokens, an unsigned class index and four numbers, and the row holds them in order |
| YoloLabels.ClassName | src/ir/io_yolo.rs:367 | the placeholder name begins with `class_` followed by the index digits (with line 432) |
| YoloLabels.ClassNameInjective | src/ir/io_yolo.rs:432 | distinct class indices get distinct placeholder names |
| YoloLabels.MaxOf | src/ir/io_yolo.rs:429 | the result is in the set and no element exceeds it |
| YoloLabels.InferClassMap | src/ir/io_yolo.rs:414-438 | succeeds exactly when every label line parses; no rows gives no names; otherwise one `class_<i>` name for each index from 0 to the largest class index seen; a failure is the first line that does not parse |
| YoloLabels.ClassMapSourceOf | src/ir/io_yolo.rs:310-316 | `data.yaml` wins whenever present; `classes.txt` is used exactly when only it exists; names are inferred exactly when neither exists |
| YoloLabels.DataYamlClassNames | src/ir/io_yolo.rs:355-375 | a list is taken as is; an empty mapping gives no names; otherwise there are largest-key-plus-one names, each the mapped name unless missing or blank, when it is `class_<i>` |
| YoloLabels.FillSlots | src/ir/io_yolo.rs:362-364 | every slot holds its mapping entry, or the empty name when the index is not a key |
| YoloLabels.NameBlankSlots | src/ir/io_yolo.rs:365-369 | every blank slot becomes `class_<i>` and every other slot is kept |
| YoloLabels.ReadClassesTxt | src/ir/io_yolo.rs:396-412 | succeeds exactly when no line is blank, with one trimmed non-empty name per line in order; otherwise the error is the 1-based number of the first blank line |
| YoloLabels.YamlSingleQuoted | src/ir/io_yolo.rs:392-394 | the result starts and ends with a single quote |
| YoloLabels.CollapseDoubled | src/ir/io_yolo.rs:392-394 | collapsing doubled quotes undoes the quote doubling |
| YoloLabels.YamlQuoteRoundTrip | src/ir/io_yolo.rs:392-394 | reading a single-quoted name back gives the original name, quotes included |
| YoloRead.LabelLineParser | src/ir/io_yolo.rs:506-562 | the reader's line parser is `parse_label_line` with the number parser fixed |
| YoloRead.ImagesOf | src/ir/io_yolo.rs:35-49 | one image per listed file, in listing order, the `k`-th with ID `k + 1` and its file's path and size |
| YoloRead.LookupOfSound | src/ir/io_yolo.rs:35-49 | every path in the lookup maps to an ID among 1..=n, and that listed image has this path and size |
| YoloRead.CategoriesOf | src/ir/io_yolo.rs:51-56 | class name `i` becomes category `i + 1` with that name, one per name |
| YoloRead.ClassIdRule | src/ir/io_yolo.rs:99-120 | a class index at or past the number of names fails with out-of-range on that line; otherwise the annotation's category is index plus one |
| YoloRead.ReadLinesErr | src/ir/io_yolo.rs:93-97 | once a line fails, the whole label file fails with that error |
| YoloRead.ReadLinesShape | src/ir/io_yolo.rs:93-122 | a label file's annotations have consecutive IDs from the running counter, all on the file's image, with categories in 1..=class count |
| YoloRead.LabelImage | src/ir/io_yolo.rs:75-90 | a label file resolves exactly when its image was found and is listed; otherwise it is an image-not-found error for that label |
| YoloRead.ReadLabelsErr | src/ir/io_yolo.rs:61-123 | once a label file fails, the whole read fails with that error |
| YoloRead.ReadLabelsShape | src/ir/io_yolo.rs:58-123 | annotation IDs run 1..=m across all label files, each on a listed image and with a category in 1..=class count |
| YoloRead.ShapedAppend | src/ir/io_yolo.rs:114-121 | appending a file's annotations keeps the IDs consecutive and every reference in range |
| YoloRead.ReadLabelLines | src/ir/io_yolo.rs:93-122 | the loop over one file's lines yields exactly the specified annotations or first error |
| YoloRead.ListImages | src/ir/io_yolo.rs:32-49 | the loop over the sorted image files builds exactly the specified image list and path lookup |
| YoloRead.ReadLabelFiles | src/ir/io_yolo.rs:58-123 | the loop over the sorted label files, with its running ID, yields exactly the specified annotations or first error |
| YoloRead.ReadYoloDir | src/ir/io_yolo.rs:25-131 | the whole directory read equals the value-level reading: images, categories, then annotations |
| YoloRead.SortedImagesOrder | src/ir/io_yolo.rs:29-49 | the images are exactly the listed files, in ascending path order, with IDs 1..=n |
| YoloRead.YoloImagesAndCategories | src/ir/io_yolo.rs:25-131 | a successful read holds every image file once, in path order, numbered from 1, and one category per class name numbered from 1 |
| YoloRead.YoloAnnotationsResolve | src/ir/io_yolo.rs:25-131 | in a successful read annotation `k` has ID `k + 1` and refers to an image and a category the dataset holds |
| YoloRead.ShapedResolves | src/ir/io_yolo.rs:114-120 | annotations whose IDs and references are in range resolve against the read images and categories |
| YoloWrite.ClassMapSound | src/ir/io_yolo.rs:149-156 | a category ID has a class index exactly when it is a category; the index is its position in ID order |
| YoloWrite.DataYamlNames | src/ir/io_yolo.rs:378-390 | `data.yaml` has one entry per category, entry `i` the quoted name of the `i`-th category in ID order |
| YoloWrite.WriteEntries | src/ir/io_yolo.rs:191-221 | the loop over the images writes exactly the specified label files |
| YoloWrite.WriteYoloDir | src/ir/io_yolo.rs:138-226 | the whole directory write equals the value-level writing |
| YoloWrite.SortedCategoryIds | src/ir/io_yolo.rs:149-150 | sorting by ID keeps the set of category IDs |
| YoloWrite.WriteYoloErrors | src/ir/io_yolo.rs:158-186 | the write succeeds exactly when every annotation's image and category exist; a failure is the first annotation with a missing image, then category |
| YoloWrite.LineClassIndex | src/ir/io_yolo.rs:149-156 | the class index written for an annotation is its category's position in ID order (with lines 207-212) |
| YoloWrite.EntriesFromNames | src/ir/io_yolo.rs:191-221 | the label files are named after the images, one each, in the given order |
| YoloWrite.WriteYoloEntries | src/ir/io_yolo.rs:188-221 | one label file per image, empty files included, in ascending file-name order |
| YoloWrite.EntriesFromDistinct | src/ir/io_yolo.rs:191-205 | with distinct image IDs every image's label file is built from that image's whole annotation group |
| YoloWrite.WriteYoloLines | src/ir/io_yolo.rs:188-221 | with distinct image IDs the `i`-th label file holds one line per annotation on the `i`-th image in file-name order, in ascending annotation ID order |
| YoloWrite.DataYamlRoundTrip | src/ir/io_yolo.rs:355-390 | reading `data.yaml` back names class `i` after the `i`-th category in ID order, or `class_<i>` when that name is blank |
| YoloRoundTrip.LineRoundTrip | src/ir/io_yolo.rs:99-120 | assuming the centre/size conversions are inverse, a written line read back on an image of nonzero size yields the annotation's pixel box, the reader's image, and category index plus one, the index being the original category's position (with lines 207-216) |
| YoloRoundTrip.LineCategoryName | src/ir/io_yolo.rs:51-56 | the category the reader gives that line is named after the annotation's own category, or `class_<index>` when that name is blank (with lines 149-156, 378-390) |
| XmlTree.FirstWithTag | src/ir/io_voc_xml.rs:467-470 | the position found is the first child with the tag, or the end when none has it |
| XmlTree.ChildElement | src/ir/io_voc_xml.rs:467-470 | a child is found exactly when some child has the tag, and it is such a child |
| XmlTree.OptionalChildText | src/ir/io_voc_xml.rs:472-478 | present text is trimmed and non-empty |
| XmlTree.ChildrenWithTag | src/ir/io_voc_xml.rs:371-374 | exactly the children with the tag are kept |
| XmlTree.FilterTag | src/ir/io_voc_xml.rs:371-374 | exactly the nodes with the tag are kept |
| XmlTree.ReplaceCharAbsent | src/ir/io_voc_xml.rs:556-562 | replacing a character the text lacks changes nothing |
| XmlTree.ReplaceCharSingle | src/ir/io_voc_xml.rs:556-562 | on a single character, replacement gives the replacement text or the character |
| XmlTree.XmlEscapeChar | src/ir/io_voc_xml.rs:556-562 | the five chained replacements escape a single character as its entity, or leave it |
| XmlTree.NoMarkupPassesFrom | src/ir/io_voc_xml.rs:556-562 | the later replacements leave an already-produced entity untouched |
| XmlTree.EscapeAmpersand | src/ir/io_voc_xml.rs:557 | `&` becomes `&amp;` |
| XmlTree.EscapeLess | src/ir/io_voc_xml.rs:558 | `<` becomes `&lt;` |
| XmlTree.EscapeGreater | src/ir/io_voc_xml.rs:559 | `>` becomes `&gt;` |
| XmlTree.EscapeQuote | src/ir/io_voc_xml.rs:560 | `"` becomes `&quot;` |
| XmlTree.EscapeApostrophe | src/ir/io_voc_xml.rs:561 | `'` becomes `&apos;` |
| XmlTree.EscapePlain | src/ir/io_voc_xml.rs:556-562 | any other character is kept |
| XmlTree.XmlEscapeEach | src/ir/io_voc_xml.rs:556-562 | the chained replacements equal escaping character by character, so `&` is never escaped twice |
| XmlTree.XmlEscapeAppend | src/ir/io_voc_xml.rs:556-562 | escaping distributes over concatenation |
| XmlTree.XmlEscapeNoMarkup | src/ir/io_voc_xml.rs:556-562 | escaped text contains no `<`, `>`, `"` or `'` |
| XmlTree.EscapeEachNoMarkup | src/ir/io_voc_xml.rs:556-562 | character-wise escaping leaves no markup character |
| XmlTree.XmlEscapeRoundTrip | src/ir/io_voc_xml.rs:556-562 | an XML reader's entity decoding gives back the original text |
| XmlTree.UnescapeEach | src/ir/io_voc_xml.rs:556-562 | decoding undoes character-wise escaping |
| XmlTree.UnescapeHead | src/ir/io_voc_xml.rs:556-562 | decoding one escaped character and a rest gives the character before the decoded rest |
| XmlTree.NormalizeBoolAttr | src/ir/io_voc_xml.rs:564-570 | a recognised flag is written as `1` or `0` |
| XmlTree.NormalizeBoolAttrSpellings | src/ir/io_voc_xml.rs:564-570 | `1` exactly for trimmed, lower-cased `true`/`yes`/`1`; `0` exactly for `false`/`no`/`0`; nothing else is recognised |
| XmlTree.RenderAllAppend | src/ir/io_voc_xml.rs:480-554 | rendering a list of elements distributes over concatenation |
| XmlTree.EscapeInert | src/ir/io_voc_xml.rs:556-562 | text without `&`, `<`, `>`, `"`, `'` is unchanged by escaping |
| XmlTree.RenderDocument | src/ir/io_voc_xml.rs:487-552 | a document is the declaration, the opening root line, the header and object lines, and the closing root line |
| VocXml.ObjectAttrs | src/ir/io_voc_xml.rs:389-394 | an attribute is kept exactly when its key is one of the four and the child's text is present, with that text |
| VocXml.ParseObject | src/ir/io_voc_xml.rs:375-402 | a parsed object has a trimmed non-empty name and only the four attribute keys with non-empty values |
| VocXml.ObjectParserOf | src/ir/io_voc_xml.rs:375-402 | the reader's object parser is the one with the number parser fixed |
| VocXml.ParseObjects | src/ir/io_voc_xml.rs:371-403 | the objects parse exactly when each does, giving one object per `<object>` in order |
| VocXml.ParseSize | src/ir/io_voc_xml.rs:361-369 | width, height and any depth fit in 32 bits |
| VocXml.ParseHeader | src/ir/io_voc_xml.rs:353-360 | a root other than `<annotation>` is the missing-root error; the file name is trimmed and non-empty |
| VocXml.ParseVoc | src/ir/io_voc_xml.rs:347-412 | a root other than `<annotation>` is the missing-root error; a parsed document has a trimmed non-empty file name and one object per `<object>` child |
| VocXml.ParseVocObjects | src/ir/io_voc_xml.rs:371-403 | each parsed object is its `<object>` element parsed, with a non-empty name and only the four attribute keys |
| VocXml.ParseVocXmlStr | src/ir/io_voc_xml.rs:347-412 | the parsing routine equals the value-level parse |
| VocXml.ParseObjectList | src/ir/io_voc_xml.rs:371-403 | the loop over `<object>` children equals the value-level parse, stopping at the first error |
| VocXml.ParseObjectsErrPersists | src/ir/io_voc_xml.rs:371-403 | once an object fails, the whole list fails with that error |
| VocXml.VocParserOf | src/ir/io_voc_xml.rs:342-345 | the reader's document parser is the value-level parse with the number parser fixed |
| VocXml.ParseAll | src/ir/io_voc_xml.rs:30-34 | all files parse exactly when each does, giving one document per file in order |
| VocXml.ParseAllErrPersists | src/ir/io_voc_xml.rs:30-34 | once a file fails, the whole read fails with that error |
| VocXml.FileNamesOf | src/ir/io_voc_xml.rs:39-53 | one file name per document, in order |
| VocXml.ObjectNames | src/ir/io_voc_xml.rs:55-57 | one name per object, in order |
| VocXml.ObjectNameCollected | src/ir/io_voc_xml.rs:55-57 | every object's name is among the collected names |
| VocXml.CollectedNameOfObject | src/ir/io_voc_xml.rs:55-57 | every collected name is some object's name |
| VocXml.FirstDuplicate | src/ir/io_voc_xml.rs:39-48 | there is no duplicate exactly when the file names are distinct; a reported duplicate is the first document whose name an earlier one already has |
| VocXml.FirstDuplicatePersists | src/ir/io_voc_xml.rs:39-48 | a duplicate within a prefix is the duplicate of the whole |
| VocXml.DefsOf | src/ir/io_voc_xml.rs:36-53 | the definitions are keyed by exactly the documents' file names |
| VocXml.DefsOfDistinct | src/ir/io_voc_xml.rs:50-53 | with distinct names, each name's definition is its own document |
| VocXml.VocImages | src/ir/io_voc_xml.rs:71-83 | one image per name, the `k`-th numbered `k + 1` with its document's size and `depth` attribute |
| VocXml.VocCategories | src/ir/io_voc_xml.rs:60-64 | one category per name, the `k`-th numbered `k + 1` |
| VocXml.FileAnnotations | src/ir/io_voc_xml.rs:104-127 | one annotation per object with consecutive IDs, the document's image, the object's category by name, its box and its attributes |
| VocXml.ReadVoc | src/ir/io_voc_xml.rs:25-134 | a parse failure is the result; otherwise the read fails exactly when two documents share a file name, and succeeds with the assembled dataset |
| VocXml.DefsCoverNames | src/ir/io_voc_xml.rs:71-94 | every sorted file name has a definition, carrying that name |
| VocXml.CollectedNamesKnown | src/ir/io_voc_xml.rs:93-115 | every document's image name and object names are found in the sorted name lists, so the lookups at 94 and 105 never fail |
| VocXml.NamesKnownSuffix | src/ir/io_voc_xml.rs:93-115 | known names stay known for the remaining documents |
| VocXml.ParseFiles | src/ir/io_voc_xml.rs:30-34 | the loop over the files equals the value-level parse of them all |
| VocXml.InsertObjectNames | src/ir/io_voc_xml.rs:55-57 | inserting a document's object names gives the sorted, duplicate-free union |
| VocXml.IndexFiles | src/ir/io_voc_xml.rs:36-58 | fails exactly when a file name repeats, naming the first repeat's file; otherwise yields the sorted names, the definitions and the sorted object names |
| VocXml.IndexAdvance | src/ir/io_voc_xml.rs:50-57 | recording one more document keeps the index in step |
| VocXml.DuplicateAt | src/ir/io_voc_xml.rs:39-48 | a name already indexed at document `i` is the first duplicate |
| VocXml.IndexStep | src/ir/io_voc_xml.rs:39-57 | one step of the indexing loop either finds the first duplicate or extends the index |
| VocXml.FileAnnotationList | src/ir/io_voc_xml.rs:104-127 | the loop over a document's objects equals the value-level annotations, and the running ID advances by the object count |
| VocXml.AssembleAnnotations | src/ir/io_voc_xml.rs:90-128 | the loop over the documents equals the value-level annotations numbered from 1 |
| VocXml.AssembleStep | src/ir/io_voc_xml.rs:90-128 | one step of the annotation loop keeps the remaining documents' names known and the collected list in step |
| VocXml.AnnotationsFromStep | src/ir/io_voc_xml.rs:90-128 | the annotations of documents `i..` are document `i`'s followed by the rest's |
| VocXml.ReadVocDir | src/ir/io_voc_xml.rs:25-134 | the directory read equals the value-level read |
| VocFacts.AnnotationsNumbered | src/ir/io_voc_xml.rs:90-128 | one annotation per object, numbered consecutively, with references among the images and categories |
| VocFacts.AssembleAnnotationsResolve | src/ir/io_voc_xml.rs:90-128 | annotation `k` has ID `k + 1`, one per object, and refers to an image and a category the dataset holds |
| VocFacts.ListsNumbered | src/ir/io_voc_xml.rs:60-128 | images and categories are numbered from 1 and the annotations are numbered consecutively with resolvable references |
| VocFacts.AssembleImages | src/ir/io_voc_xml.rs:71-83 | one image per document, in strictly increasing file-name order, numbered from 1, each with its document's size |
| VocFacts.ImagesNamed | src/ir/io_voc_xml.rs:71-83 | the image names are the sorted document file names |
| VocFacts.FileImage | src/ir/io_voc_xml.rs:71-83 | each document has an image of its name with its size |
| VocFacts.AssembleCategories | src/ir/io_voc_xml.rs:55-64 | categories are numbered from 1 in strictly increasing name order and are exactly the object names |
| VocWrite.FlagsWritten | src/ir/io_voc_xml.rs:528-534 | a flag child is written exactly for a flag key whose value is a recognised boolean, normalised |
| VocWrite.FlagsOfWritten | src/ir/io_voc_xml.rs:528-534 | the same, for any list of flag keys |
| VocWrite.FlagsOfTags | src/ir/io_voc_xml.rs:528-534 | every written flag child is tagged with one of the keys |
| VocWrite.FlagKeysDistinct | src/ir/io_voc_xml.rs:528 | the three flag keys are distinct |
| VocWrite.FlagChildFacts | src/ir/io_voc_xml.rs:529-533 | one key's child exists exactly when its value is recognised, and holds `1` or `0` |
| VocWrite.PoseWritten | src/ir/io_voc_xml.rs:518-526 | at most one `<pose>`, written exactly when the trimmed pose is non-empty, holding the trimmed text |
| VocWrite.FirstMissingCategory | src/ir/io_voc_xml.rs:506-515 | no error exactly when every annotation's category is named; otherwise the error of the first that is not |
| VocWrite.ObjectElements | src/ir/io_voc_xml.rs:505-544 | one `<object>` per annotation, in order, named after its category |
| VocWrite.VocTextLines | src/ir/io_voc_xml.rs:487-546 | the document is the declaration, `<annotation>`, the header lines, the object lines and `</annotation>` |
| VocWrite.WriteVocXml | src/ir/io_voc_xml.rs:480-554 | the writing routine equals the value-level document |
| VocWrite.ObjectLines | src/ir/io_voc_xml.rs:505-544 | the loop over annotations fails exactly at the first one without a category name, else renders every object |
| VocWrite.ObjectElementsStep | src/ir/io_voc_xml.rs:505-544 | rendering one more annotation appends its lines |
| VocWrite.WriteFiles | src/ir/io_voc_xml.rs:193-212 | the loop over the sorted images equals the value-level documents |
| VocWrite.PrependEmpty | src/ir/io_voc_xml.rs:193-212 | prepending no documents changes nothing |
| VocWrite.PrependTwice | src/ir/io_voc_xml.rs:193-212 | prepending in two steps equals prepending once |
| VocWrite.WriteVocDir | src/ir/io_voc_xml.rs:142-215 | the directory write equals the value-level writing |
| VocWrite.FilesFromOk | src/ir/io_voc_xml.rs:193-212 | with every category named, one document is written per image, under its file name |
| VocWrite.WriteVocErrors | src/ir/io_voc_xml.rs:160-188 | the write succeeds exactly when every annotation's image and category exist; a failure is the first annotation with a missing image, then category |
| VocWrite.WriteVocFiles | src/ir/io_voc_xml.rs:190-212 | one document per image, annotated or not, in ascending file-name order |
| VocWrite.FilesFromDistinct | src/ir/io_voc_xml.rs:193-212 | with distinct image IDs each document is built from its image's whole group |
| VocWrite.WriteVocDocuments | src/ir/io_voc_xml.rs:190-212 | with distinct image IDs, document `i` is the `i`-th image in file-name order with all its annotations in ascending ID order |
| CvatXml.RequiredAttr | src/ir/io_cvat_xml.rs:633-644 | present exactly when the attribute exists, with its raw value; otherwise the missing-attribute error |
| CvatXml.ParseRequiredU32Attr | src/ir/io_cvat_xml.rs:646-659 | a parsed size fits in 32 bits |
| CvatXml.OptionalTrimmed | src/ir/io_cvat_xml.rs:236-239 | present exactly when the attribute's trimmed value is non-empty, and then that trimmed value (with lines 305-308) |
| CvatXml.ParseOccluded | src/ir/io_cvat_xml.rs:294-311 | fails exactly when a non-empty value other than `0`/`1` is given; the flag is set exactly for `1` |
| CvatXml.ParseZOrder | src/ir/io_cvat_xml.rs:313-326 | absent exactly when the trimmed value is empty; a present value is a 32-bit signed integer |
| CvatXml.ParseCvatId | src/ir/io_cvat_xml.rs:235-245 | a present image ID fits in 64 bits |
| CvatXml.AttrEntry | src/ir/io_cvat_xml.rs:340-354 | a stored attribute key carries the `cvat_attr_` prefix |
| CvatXml.AttrEntryFacts | src/ir/io_cvat_xml.rs:340-354 | an `<attribute>` fails exactly when its name is missing or blank; otherwise it is stored under `cvat_attr_<trimmed name>` with its trimmed text, or empty |
| CvatXml.BoxAttributes | src/ir/io_cvat_xml.rs:335-355 | the attributes parse exactly when each `<attribute>` does, and every stored key has the prefix |
| CvatXml.ParseBox | src/ir/io_cvat_xml.rs:272-362 | a parsed box has the `label` attribute as its label; with a label list, an unlisted label is the unknown-label error, so a parsed label is always listed |
| CvatXml.ParseBoxes | src/ir/io_cvat_xml.rs:247-260 | an image's children parse exactly when each is a `<box>` that parses, giving one box per child in order |
| CvatXml.ParseImage | src/ir/io_cvat_xml.rs:227-270 | a parsed image carries its `name` attribute and 32-bit width and height |
| CvatXml.LabelOf | src/ir/io_cvat_xml.rs:390-399 | a label fails exactly when its `<name>` text is missing, and a parsed name is non-empty |
| CvatXml.LabelsFrom | src/ir/io_cvat_xml.rs:385-400 | the labels parse exactly when each does, with every label's name listed in order |
| CvatXml.ExtractMetaLabels | src/ir/io_cvat_xml.rs:364-406 | no `<meta>` gives no label list; a `<project>` under `<meta>` is the project-export error |
| CvatXml.NamesOf | src/ir/io_cvat_xml.rs:102-125 | one name per parsed image, in order |
| CvatXml.ScanImages | src/ir/io_cvat_xml.rs:102-125 | a successful scan has one parsed image per `<image>` element, in document order, with distinct names |
| CvatXml.BoxLabels | src/ir/io_cvat_xml.rs:120-122 | one label per box, in order |
| CvatXml.CvatImages | src/ir/io_cvat_xml.rs:146-163 | one image per parsed image in name order, the `k`-th numbered `k + 1` |
| CvatXml.CvatCategories | src/ir/io_cvat_xml.rs:136-140 | one category per name, the `k`-th numbered `k + 1` |
| CvatXml.ImageAnnotations | src/ir/io_cvat_xml.rs:180-219 | one annotation per box, with consecutive IDs, the image's ID, the label's category, the box and the stored attributes |
| CvatXml.ParseCvat | src/ir/io_cvat_xml.rs:86-225 | a root other than `<annotations>` is the wrong-root error; a label-list error is the result; a success is the assembly of the scanned images |
| CvatXml.SortedLabelsKnown | src/ir/io_cvat_xml.rs:166-192 | every box's label is among the category names, so the lookup at 181-192 never fails |
| CvatXml.LabelReferenced | src/ir/io_cvat_xml.rs:120-122 | every box's label is among the referenced labels |
| CvatXml.ScanErrPersists | src/ir/io_cvat_xml.rs:102-125 | once an image fails, the scan fails with that error |
| CvatXml.InsertLabels | src/ir/io_cvat_xml.rs:120-122 | inserting a parsed image's box labels gives the sorted, duplicate-free union |
| CvatXml.ScanImageNodes | src/ir/io_cvat_xml.rs:102-125 | the loop over `<image>` elements equals the value-level scan, with the sorted referenced labels |
| CvatXml.BuildImages | src/ir/io_cvat_xml.rs:146-163 | the loop over the sorted images equals the value-level image list |
| CvatXml.ImageAnnotationList | src/ir/io_cvat_xml.rs:180-219 | the loop over one image's boxes equals the value-level annotations, and the running ID advances by the box count |
| CvatXml.AssembleAnnotations | src/ir/io_cvat_xml.rs:165-220 | the loop over the sorted images equals the value-level annotations numbered from 1 |
| CvatXml.UnionSorted | src/ir/io_cvat_xml.rs:127-134 | extending a sorted set with more names equals sorting the union |
| CvatXml.ParseCvatXmlStr | src/ir/io_cvat_xml.rs:86-225 | the parsing routine equals the value-level parse |
| CvatFacts.ScanImagesErrors | src/ir/io_cvat_xml.rs:102-125 | the scan succeeds exactly when every `<image>` parses and no two share a name |
| CvatFacts.ParseBoxesErrPersists | src/ir/io_cvat_xml.rs:247-260 | once a child fails, the image fails with that error |
| CvatFacts.FirstUnsupportedChild | src/ir/io_cvat_xml.rs:247-258 | the first non-`<box>` child after good boxes is the unsupported-type error naming its tag |
| CvatFacts.LabelsFromBoxLabels | src/ir/io_cvat_xml.rs:390-399 | a name is a box-or-unknown label exactly when some `<label>` with that name has box type |
| CvatFacts.DefaultTypeIsBox | src/ir/io_cvat_xml.rs:395-396 | the default type `bbox` counts as a box type |
| CvatFacts.LabelTypeBox | src/ir/io_cvat_xml.rs:395-398 | a label counts as a box type exactly when its type is absent or, trimmed, `bbox` in any letter case |
| CvatFacts.ReferencedLabelOf | src/ir/io_cvat_xml.rs:120-122 | every referenced label is some box's label |
| CvatFacts.AssembleCategories | src/ir/io_cvat_xml.rs:127-140 | categories are numbered from 1 in strictly increasing name order and are exactly the referenced labels plus, with a label list, its box-type labels |
| CvatFacts.AssembleImages | src/ir/io_cvat_xml.rs:146-163 | one image per `<image>`, in strictly increasing name order, numbered from 1 |
| CvatFacts.AnnotationsNumbered | src/ir/io_cvat_xml.rs:165-220 | one annotation per box, numbered consecutively, with references among the images and categories |
| CvatFacts.AssembleAnnotations | src/ir/io_cvat_xml.rs:165-220 | annotation `k` has ID `k + 1`, one per box, and refers to an image and a category the dataset holds |
| CvatFacts.BoxAttrsDefaults | src/ir/io_cvat_xml.rs:201-210 | `occluded=1` is stored exactly when occluded; `z_order` exactly when present and non-zero; `source` exactly when its trimmed value is non-empty, trimmed |
| CvatFacts.ReservedKeys | src/ir/io_cvat_xml.rs:201-210 | the three reserved keys never carry the `cvat_attr_` prefix (with line 353) |
| CvatFacts.NotReserved | src/ir/io_cvat_xml.rs:201-210 | a prefixed key is none of the reserved keys (with line 353) |
| CvatFacts.BoxAttrsKeepsAttributes | src/ir/io_cvat_xml.rs:200-212 | every `<attribute>` entry is kept unchanged among the stored attributes |
| CvatFacts.BoxAttributesKeys | src/ir/io_cvat_xml.rs:335-355 | a key is stored exactly when some `<attribute>` produces it |
| CvatFacts.BoxAttributesLastWins | src/ir/io_cvat_xml.rs:353 | for a repeated name, the last `<attribute>` wins |
| CvatWrite.OccludedOut | src/ir/io_cvat_xml.rs:507-511 | the written occluded flag is `0` or `1` |
| CvatWrite.ZOrderOut | src/ir/io_cvat_xml.rs:513-517 | the written z order is a 32-bit signed integer |
| CvatWrite.SourceOut | src/ir/io_cvat_xml.rs:519-524 | the written source is trimmed and non-empty |
| CvatWrite.AttrName | src/ir/io_cvat_xml.rs:540-546 | a written attribute name is trimmed and non-empty |
| CvatWrite.BoxMakerOf | src/ir/io_cvat_xml.rs:496-538 | the writer's box maker is the value-level box |
| CvatWrite.BoxesOf | src/ir/io_cvat_xml.rs:495-558 | succeeds exactly when every annotation's category is named, giving one box per annotation in order; the only failure is the internal missing-category error |
| CvatWrite.WriteAttributes | src/ir/io_cvat_xml.rs:540-556 | the loop over the attributes writes exactly the `<attribute>` lines of the prefixed keys |
| CvatWrite.WriteBox | src/ir/io_cvat_xml.rs:526-559 | the writing of one box equals its value-level lines |
| CvatWrite.BoxesOfErrPersists | src/ir/io_cvat_xml.rs:495-505 | once an annotation fails, the image fails with that error |
| CvatWrite.BoxesOfFailsAt | src/ir/io_cvat_xml.rs:496-505 | the first annotation without a name gives the internal missing-category error |
| CvatWrite.WriteImage | src/ir/io_cvat_xml.rs:485-563 | the writing of one `<image>` equals its value-level text |
| CvatWrite.WriteBoxes | src/ir/io_cvat_xml.rs:497-560 | the loop over one image's annotations gives the lines of all its boxes, or the internal error of the first annotation whose category has no name |
| CvatWrite.WriteLabels | src/ir/io_cvat_xml.rs:474-478 | the loop over the used categories writes exactly their `<label>` lines |
| CvatWrite.WriteImages | src/ir/io_cvat_xml.rs:485-563 | the loop over the sorted images equals the value-level text of all `<image>`s |
| CvatWrite.ImagesFromFails | src/ir/io_cvat_xml.rs:495-505 | a failing image makes the whole write fail with its error |
| CvatWrite.BuildCvatXml | src/ir/io_cvat_xml.rs:408-568 | the writing routine equals the value-level document |
| CvatWrite.ImagesFromLength | src/ir/io_cvat_xml.rs:485-563 | a successful write has one `<image>` per image |
| CvatWriteFacts.ImagesFromOk | src/ir/io_cvat_xml.rs:485-563 | with every category named, one `<image>` per image, numbered in order |
| CvatWriteFacts.ImagesFromDistinct | src/ir/io_cvat_xml.rs:485-563 | with distinct image IDs, each `<image>` is built from its image's whole group |
| CvatWriteFacts.NamedIds | src/ir/io_cvat_xml.rs:457-461 | a category ID has a name exactly when it is a category's |
| CvatWriteFacts.CvatWriteErrors | src/ir/io_cvat_xml.rs:414-441 | the write succeeds exactly when every annotation's image and category exist; a failure is the first missing image, then category; the internal error never happens (with lines 496-505) |
| CvatWriteFacts.CvatImagesWritten | src/ir/io_cvat_xml.rs:463-492 | one `<image>` per image, numbered 0, 1, … in ascending file-name order, with the image's name and size |
| CvatWriteFacts.CvatBoxesWritten | src/ir/io_cvat_xml.rs:443-446 | with distinct image IDs, the `k`-th `<image>` holds one box per annotation on that image, in ascending annotation ID order, labelled with its category name (with lines 494-559) |
| CvatWriteFacts.CvatLabelsSorted | src/ir/io_cvat_xml.rs:448-455 | the `<label>`s are exactly the used categories, in ascending name order |
| CvatWriteFacts.CvatLabelsMembers | src/ir/io_cvat_xml.rs:448-455 | a name is listed exactly when some used category has it; unused categories are dropped |
| CvatWriteFacts.EntriesOfMembers | src/ir/io_cvat_xml.rs:540-556 | an `<attribute>` line is written exactly for a key that yields that name and value |
| CvatWriteFacts.AttributeEntriesMembers | src/ir/io_cvat_xml.rs:540-556 | the same over all keys of the annotation |
| CvatWriteFacts.NormalizeOne | src/ir/io_cvat_xml.rs:688-694 | the stored flag `1` normalises to `1` |
| CvatWriteFacts.ZOrderReadBack | src/ir/io_cvat_xml.rs:205 | a 32-bit z order printed and parsed back is itself (with lines 513-517) |
| CvatWriteFacts.AttrKeyName | src/ir/io_cvat_xml.rs:353 | a stored key is written under the name it was read from (with lines 541-546) |
| CvatWriteFacts.StoredKeyWritten | src/ir/io_cvat_xml.rs:201-210 | of a read box's keys, only the `cvat_attr_` ones are written as `<attribute>` (with line 541) |
| CvatWriteFacts.ReaderBoxWrittenBack | src/ir/io_cvat_xml.rs:201-210 | a box as the reader stores it is written back with its occluded flag, z order (0 when absent), source (`manual` when absent) and each `cvat_attr_<n>` as `<attribute name=n>` with its value (with lines 507-556) |
| LabelStudio.BeforeFirst | src/ir/io_label_studio_json.rs:797-798 | the part before the first separator: a prefix free of it, the whole text when absent |
| LabelStudio.AfterLast | src/ir/io_label_studio_json.rs:800 | the part after the last separator, free of it, the whole text when absent |
| LabelStudio.PixelToPercent | src/ir/io_label_studio_json.rs:867-887 | no percentages exactly when the image width or height is zero |
| LabelStudio.ResultParserOf | src/ir/io_label_studio_json.rs:481-583 | the reader's result parser is the value-level parse with the envelope and number formatter fixed |
| LabelStudio.ParseResults | src/ir/io_label_studio_json.rs:259-283 | a successful pass yields one row per result |
| LabelStudio.HeaderReaderOf | src/ir/io_label_studio_json.rs:223-245 | the reader's task header is the value-level header |
| LabelStudio.BodyReaderOf | src/ir/io_label_studio_json.rs:248-322 | the reader's task body is the value-level body |
| LabelStudio.TaskNames | src/ir/io_label_studio_json.rs:314-322 | one basename per parsed task, in order |
| LabelStudio.ScanTasks | src/ir/io_label_studio_json.rs:222-325 | a successful pass has one parsed task per task, each its header and body, with distinct basenames |
| LabelStudio.RowLabels | src/ir/io_label_studio_json.rs:329-334 | one label per row, in order |
| LabelStudio.LsImages | src/ir/io_label_studio_json.rs:345-369 | one image per parsed task in basename order, the `k`-th numbered `k + 1` |
| LabelStudio.LsCategories | src/ir/io_label_studio_json.rs:336-340 | one category per name, the `k`-th numbered `k + 1` |
| LabelStudio.TaskAnnotations | src/ir/io_label_studio_json.rs:386-414 | one annotation per row with consecutive IDs, the task's image, the label's category, the box, the confidence and the attributes |
| LabelStudio.SortedLabelsKnown | src/ir/io_label_studio_json.rs:329-414 | every row's label is a category name, so the lookup at 387-398 never fails |
| LabelStudio.LabelCollected | src/ir/io_label_studio_json.rs:329-334 | every row's label is among the collected labels |
| LabelStudio.ParseResultInPlace | src/ir/io_label_studio_json.rs:481-583 | updating the size and name sets in place gives the value-level row and new state |
| LabelStudio.ResultsErrPersists | src/ir/io_label_studio_json.rs:259-283 | once a result fails, the task fails with that error |
| LabelStudio.ParseResultList | src/ir/io_label_studio_json.rs:259-283 | the loop over a result set equals the value-level pass |
| LabelStudio.ParseTask | src/ir/io_label_studio_json.rs:248-322 | the parsing of one task body equals the value-level body |
| LabelStudio.ScanErrPersists | src/ir/io_label_studio_json.rs:222-325 | once a task fails, the read fails with that error |
| LabelStudio.ScanTaskList | src/ir/io_label_studio_json.rs:222-325 | the loop over the tasks equals the value-level pass |
| LabelStudio.InsertRowLabels | src/ir/io_label_studio_json.rs:329-334 | inserting a task's labels gives the sorted, duplicate-free union |
| LabelStudio.CollectCategoryNames | src/ir/io_label_studio_json.rs:329-334 | the loop yields the sorted, duplicate-free labels of all rows |
| LabelStudio.BuildImages | src/ir/io_label_studio_json.rs:345-369 | the loop over the sorted tasks equals the value-level image list |
| LabelStudio.TaskAnnotationList | src/ir/io_label_studio_json.rs:386-414 | the loop over a task's rows equals the value-level annotations, and the running ID advances by the row count |
| LabelStudio.AssembleAnnotations | src/ir/io_label_studio_json.rs:371-415 | the loop over the sorted tasks equals the value-level annotations numbered from 1 |
| LabelStudio.LsToIr | src/ir/io_label_studio_json.rs:214-425 | the whole read equals the value-level dataset, the empty dataset for no tasks |
| LabelStudioFacts.ReplaceCharKeepsAbsent | src/ir/io_label_studio_json.rs:799 | replacing a character by text without another character keeps that character absent |
| LabelStudioFacts.ReplaceCharAbsent | src/ir/io_label_studio_json.rs:799 | replacing a character the text lacks changes nothing |
| LabelStudioFacts.DerivedNameIsSegment | src/ir/io_label_studio_json.rs:796-805 | a derived basename is non-empty and holds no `/`, `\`, `?` or `#` |
| LabelStudioFacts.DerivedPlainName | src/ir/io_label_studio_json.rs:796-805 | a plain segment is its own basename |
| LabelStudioFacts.DerivedLastSegment | src/ir/io_label_studio_json.rs:796-805 | a path's basename is its last segment |
| LabelStudioFacts.NormalizedPath | src/ir/io_label_studio_json.rs:799 | normalising backslashes leaves a trailing plain segment intact |
| LabelStudioFacts.FirstIndexAt | src/ir/io_label_studio_json.rs:797-798 | the first separator is found at its first occurrence |
| LabelStudioFacts.LastIndexAt | src/ir/io_label_studio_json.rs:800 | the last separator is found at its last occurrence |
| LabelStudioFacts.DeriveDropsQuery | src/ir/io_label_studio_json.rs:797 | a query string does not change the basename |
| LabelStudioFacts.DeriveDropsFragment | src/ir/io_label_studio_json.rs:798 | a fragment does not change the basename |
| LabelStudioFacts.PercentRoundTrip | src/ir/io_label_studio_json.rs:807-829 | on an image of nonzero size, a pixel box converted to percentages and back is itself (with lines 867-887) |
| LabelStudioFacts.PixelRoundTrip | src/ir/io_label_studio_json.rs:807-829 | on an image of nonzero size, a percent box converted to pixels and back is itself (with lines 867-887) |
| LabelStudioFacts.SelectAnnotationCases | src/ir/io_label_studio_json.rs:428-457 | fails exactly when both keys are present or the chosen key holds more than one set; a single set gives its results; neither key gives none |
| LabelStudioFacts.SelectPredictionCases | src/ir/io_label_studio_json.rs:459-479 | fails exactly when more than one set is present; one set gives its results; none gives none |
| LabelStudioFacts.ParseResultCases | src/ir/io_label_studio_json.rs:481-583 | a result is accepted exactly when it is a one-label rectangle with both sizes agreeing with any size seen; another type is the unsupported-type error; an accepted result fixes the size and adds its non-empty names |
| LabelStudioFacts.ParseResultUnrotated | src/ir/io_label_studio_json.rs:563-571 | at rotation 0 the row's box is the percent box scaled to the original size (with lines 807-829) |
| LabelStudioFacts.ParseResultsFacts | src/ir/io_label_studio_json.rs:259-283 | each result becomes its row, all share one size, and the names are collected |
| LabelStudioFacts.SmallSetLeast | src/ir/io_label_studio_json.rs:310-311 | the one name of a set of at most one is the one taken |
| LabelStudioFacts.TaskBodyFacts | src/ir/io_label_studio_json.rs:248-322 | the rows are the annotation results' rows then the prediction results'; with any result every result has the task's size, otherwise the `data` size is used; the control names are the task's own |
| LabelStudioFacts.TaskNeedsSize | src/ir/io_label_studio_json.rs:285-308 | without results a task is accepted exactly when `data` has both sizes and at most one name of each kind; a missing `data` width is the no-dimensions error |
| LabelStudioFacts.InconsistentFromNames | src/ir/io_label_studio_json.rs:299-303 | two different `from_name`s give the inconsistent-from-name error |
| LabelStudioFacts.InconsistentToNames | src/ir/io_label_studio_json.rs:305-309 | two different `to_name`s give the inconsistent-to-name error |
| LabelStudioFacts.DuplicateBasenameRejected | src/ir/io_label_studio_json.rs:237-245 | two tasks whose references give the same basename make the read fail |
| LabelStudioFacts.ScannedName | src/ir/io_label_studio_json.rs:228-245 | a successful pass keeps each task's basename at its position |
| LabelStudioFacts.AssembleImages | src/ir/io_label_studio_json.rs:327-369 | one image per task, in strictly increasing basename order, numbered from 1 |
| LabelStudioFacts.SortedTaskNames | src/ir/io_label_studio_json.rs:327 | sorting the tasks orders their distinct basenames strictly and keeps them all |
| LabelStudioFacts.ImageOfTask | src/ir/io_label_studio_json.rs:348-366 | an image has the task's number, basename and size, `ls_image_ref`, and `ls_from_name`/`ls_to_name` exactly when the task has them |
| LabelStudioFacts.AssembleCategories | src/ir/io_label_studio_json.rs:329-340 | categories are the sorted distinct row labels, numbered from 1 |
| LabelStudioFacts.TaskInSorted | src/ir/io_label_studio_json.rs:327 | sorting keeps every task |
| LabelStudioFacts.EveryLabelCategory | src/ir/io_label_studio_json.rs:329-334 | every row's label is a category name |
| LabelStudioFacts.AnnotationsNumbered | src/ir/io_label_studio_json.rs:371-415 | one annotation per row, numbered consecutively, with references among the images and categories |
| LabelStudioFacts.AssembleAnnotations | src/ir/io_label_studio_json.rs:371-415 | annotation `k` has ID `k + 1`, one per row, and refers to an image and a category the dataset holds |
| LabelStudioFacts.ReadTasksDistinct | src/ir/io_label_studio_json.rs:214-425 | a successful read of at least one task assembles the scanned tasks, whose basenames are distinct |
| LabelStudioRoundTrip.AsInputs | src/ir/io_label_studio_json.rs:45-69 | each written result is read as the matching input result (with lines 98-124) |
| LabelStudioRoundTrip.ResultReadsBack | src/ir/io_label_studio_json.rs:481-583 | a written one-label result with an agreeing size is accepted with its label and score and fixes the size; unrotated, its box is the percent box scaled back (with lines 721-737) |
| LabelStudioRoundTrip.AnnotationReadsBack | src/ir/io_label_studio_json.rs:710-746 | the result written for an annotation on an image of nonzero size reads back with the category name, the confidence and, unrotated, the annotation's own box (with lines 481-583) |
| LabelStudioRoundTrip.RowIgnoresState | src/ir/io_label_studio_json.rs:481-583 | the row read from a result does not depend on the state carried in |
| LabelStudioRoundTrip.ResultsReadBack | src/ir/io_label_studio_json.rs:259-283 | a written result set is read back result by result |
| LabelStudioRoundTrip.SelectWritten | src/ir/io_label_studio_json.rs:428-479 | the written annotation and prediction sets are selected back as the written results (with lines 762-775) |
| LabelStudioRoundTrip.FirstNameOf | src/ir/io_label_studio_json.rs:310-311 | a single non-empty control name is the one read back |
| LabelStudioRoundTrip.TaskReadsBack | src/ir/io_label_studio_json.rs:248-322 | a task written from results carrying the image's size and one pair of control names is accepted, keeping the size and names, with the annotation rows before the prediction rows (with lines 755-776) |
| LabelStudioRoundTrip.FinishRead | src/ir/io_label_studio_json.rs:285-322 | finishing a written task keeps its size and control names |
| LabelStudioRoundTrip.RowsBackFromResults | src/ir/io_label_studio_json.rs:697-752 | rows read from the written results correspond one to one to the annotations |
| LabelStudioRoundTrip.WrittenTaskReadsBack | src/ir/io_label_studio_json.rs:672-780 | a task the writer produces for an image is accepted and reads back with the image's size, its control names, and one row per annotation (with lines 248-322) |
| LabelStudioRoundTrip.SplitRowsBack | src/ir/io_label_studio_json.rs:748-752 | the rows read back split into the unscored annotations' rows followed by the scored ones' |
| LabelStudioWrite.NamerOf | src/ir/io_label_studio_json.rs:636-648 | the writer names an image by the basename of its `ls_image_ref`, else of its file name |
| LabelStudioWrite.ResultMakerOf | src/ir/io_label_studio_json.rs:710-746 | the writer's result maker is the value-level result |
| LabelStudioWrite.SplitResults | src/ir/io_label_studio_json.rs:697-752 | a successful split places every annotation of the image in exactly one of the two lists |
| LabelStudioWrite.SetsOf | src/ir/io_label_studio_json.rs:762-775 | no results give no set; otherwise one set of all of them |
| LabelStudioWrite.TaskMakerOf | src/ir/io_label_studio_json.rs:672-780 | the writer's task maker is the value-level task |
| LabelStudioWrite.TasksFrom | src/ir/io_label_studio_json.rs:672-780 | a successful pass has one task per image |
| LabelStudioWrite.ScanErrPersists | src/ir/io_label_studio_json.rs:634-664 | once an image's reference fails, the write fails with that error |
| LabelStudioWrite.CollectImageRefs | src/ir/io_label_studio_json.rs:634-664 | the loop over the images equals the value-level reference pass |
| LabelStudioWrite.SplitErrPersists | src/ir/io_label_studio_json.rs:697-752 | once an annotation fails, the image fails with that error |
| LabelStudioWrite.WriteResults | src/ir/io_label_studio_json.rs:697-752 | the loop over an image's annotations equals the value-level split |
| LabelStudioWrite.WriteTask | src/ir/io_label_studio_json.rs:672-778 | the writing of one task equals the value-level task |
| LabelStudioWrite.TasksFromFails | src/ir/io_label_studio_json.rs:672-780 | a failing image makes the whole write fail with its error |
| LabelStudioWrite.WriteTasks | src/ir/io_label_studio_json.rs:672-780 | the loop over the sorted images equals the value-level tasks |
| LabelStudioWrite.IrToLs | src/ir/io_label_studio_json.rs:589-783 | the whole write equals the value-level output |
| LabelStudioWriteFacts.BasenamesMembers | src/ir/io_label_studio_json.rs:634-664 | a name is collected exactly when some image's reference gives it |
| LabelStudioWriteFacts.ScanRefsSeen | src/ir/io_label_studio_json.rs:634-664 | a successful pass sees every image's basename and records every image |
| LabelStudioWriteFacts.ScanRefsCases | src/ir/io_label_studio_json.rs:634-664 | the pass succeeds exactly when every reference gives a basename and no two agree |
| LabelStudioWriteFacts.ScanRefsOwn | src/ir/io_label_studio_json.rs:634-664 | with distinct image IDs each image keeps its own reference |
| LabelStudioWriteFacts.SplitCases | src/ir/io_label_studio_json.rs:710-721 | with every category named, an image's results fail exactly when it has annotations and a zero side, at its first annotation |
| LabelStudioWriteFacts.SplitContents | src/ir/io_label_studio_json.rs:697-752 | the annotation results come from the unscored annotations and the prediction results from the scored ones, each in order |
| LabelStudioWriteFacts.SplitShape | src/ir/io_label_studio_json.rs:723-752 | every result carries the image's size and control names, and the split is by score |
| LabelStudioWriteFacts.TaskForTaken | src/ir/io_label_studio_json.rs:695 | removing another image's group does not change this image's task |
| LabelStudioWriteFacts.TaskMakerOwnGroup | src/ir/io_label_studio_json.rs:695 | each task depends only on its own image's group |
| LabelStudioWriteFacts.TasksFromRest | src/ir/io_label_studio_json.rs:672-780 | after the first image, the remaining tasks are made as before |
| LabelStudioWriteFacts.TasksFromOk | src/ir/io_label_studio_json.rs:672-780 | the pass succeeds exactly when every image's task does |
| LabelStudioWriteFacts.TasksFromEach | src/ir/io_label_studio_json.rs:672-780 | task `k` of a successful pass is the `k`-th image's task |
| LabelStudioWriteFacts.FlatSetsOf | src/ir/io_label_studio_json.rs:762-775 | flattening the written sets gives back the results |
| LabelStudioWriteFacts.TaskOfFacts | src/ir/io_label_studio_json.rs:755-776 | a task has ID `idx + 1`, the reference, the image's size, no empty set, and its sets flatten to the split results |
| LabelStudioWriteFacts.TaskForFacts | src/ir/io_label_studio_json.rs:672-778 | a task fails exactly when the image has annotations and a zero side; otherwise it is built from a score split of all its annotations |
| LabelStudioWriteFacts.CheckedGroupsKnown | src/ir/io_label_studio_json.rs:600-627 | once references check out, every grouped annotation's category is named |
| LabelStudioWriteFacts.SortedRefs | src/ir/io_label_studio_json.rs:667-680 | every sorted image has a recorded reference, so the lookup at 673-681 never fails |
| LabelStudioWriteFacts.LsOutputIsTasks | src/ir/io_label_studio_json.rs:589-783 | once references and basenames check out, the output is the task pass over the sorted images |
| LabelStudioWriteFacts.ImageTask | src/ir/io_label_studio_json.rs:672-778 | the task of an image fails exactly when it has annotations and a zero side, otherwise has the expected shape |
| LabelStudioWriteFacts.SortedImageTask | src/ir/io_label_studio_json.rs:672-778 | the `k`-th image in file-name order gets its task as `ImageTask` says |
| LabelStudioWriteFacts.SortedImageTasks | src/ir/io_label_studio_json.rs:672-778 | every image in file-name order does |
| LabelStudioWriteFacts.LsOutputTasks | src/ir/io_label_studio_json.rs:589-783 | with checked references, distinct image IDs and distinct basenames, the output fails exactly when an annotated image has a zero side; otherwise task `k + 1` is the `k`-th image in file-name order |
| LabelStudioWriteFacts.TaskLoopReady | src/ir/io_label_studio_json.rs:667-780 | the task loop's preconditions hold for the sorted images |
| LabelStudioWriteFacts.TaskLoopOutcome | src/ir/io_label_studio_json.rs:672-780 | the task loop succeeds exactly when every image is writable, with one task per image in order |
| LabelStudioWriteFacts.DuplicateBasenameRejected | src/ir/io_label_studio_json.rs:641-661 | two images whose references give the same basename make the output fail with a basename or reference error |
| LabelStudioWriteFacts.ScanRefsErrors | src/ir/io_label_studio_json.rs:641-661 | the reference pass fails only with a missing or repeated basename |
| HfImagefolder.ParseOptionalU32 | src/ir/io_hf_imagefolder.rs:494-517 | an absent field is `None`; a present one is accepted exactly when it is an integer in `0..=u32::MAX`, and then is that integer |
| HfImagefolder.ResolveObjectsKey | src/ir/io_hf_imagefolder.rs:457-492 | a configured container is used exactly when the row has it; otherwise `objects`, else `faces`, else the error; the key found is always a member of the row |
| HfImagefolder.CategoryField | src/ir/io_hf_imagefolder.rs:397-411 | `categories` when present, else `category`, and an error exactly when neither is present |
| HfImagefolder.AsNumbers | src/ir/io_hf_imagefolder.rs:542-549 | succeeds exactly when every element is a number, keeping each value in order; otherwise names the first offending element |
| HfImagefolder.ParseBboxArray | src/ir/io_hf_imagefolder.rs:519-555 | accepted exactly when it is an array of four numbers, in order; an array of another length is the arity error with its length |
| HfImagefolder.SaturateI64 | src/ir/io_hf_imagefolder.rs:570 | the `f64 as i64` cast: within the `i64` range the value itself, below or above it the nearest bound |
| HfImagefolder.ParseCategoryValue | src/ir/io_hf_imagefolder.rs:557-585 | a string is a name; a number with no fractional part is an ID in the `i64` range; anything else is the bad-category error |
| HfImagefolder.Zip | src/ir/io_hf_imagefolder.rs:440 | pairs the `k`-th box with the `k`-th category |
| HfImagefolder.ParseAnns | src/ir/io_hf_imagefolder.rs:439-444 | succeeds exactly when every box and category parse, giving one object per pair in order |
| HfImagefolder.FindArrays | src/ir/io_hf_imagefolder.rs:375-437 | the arrays found sit under the resolved container key |
| HfImagefolder.ParseObjects | src/ir/io_hf_imagefolder.rs:375-444 | fails when the arrays cannot be found; otherwise has one object per box |
| HfImagefolder.EnsureDimensions | src/ir/io_hf_imagefolder.rs:587-615 | both sizes given are kept; a missing one is taken from the probed image, cut to 32 bits by `as u32`; an error exactly when one is missing and the probe fails |
| HfImagefolder.FileNameField | src/ir/io_hf_imagefolder.rs:362-370 | accepted exactly when `file_name` is present and a string, and then is that string |
| HfImagefolder.RowFrom | src/ir/io_hf_imagefolder.rs:362-454 | a row read keeps the file name and objects parsed, and any given width and height, each within `u32` |
| HfImagefolder.JsonlRow | src/ir/io_hf_imagefolder.rs:347-360 | a value that is not an object is the not-an-object error for its line; an object row is the row read from its members; every error names the line |
| HfImagefolder.FileNames | src/ir/io_hf_imagefolder.rs:621-631 | one file name per row, in order |
| HfImagefolder.ByFile | src/ir/io_hf_imagefolder.rs:621-631 | keyed by exactly the rows' file names |
| HfImagefolder.RowsAt | src/ir/io_hf_imagefolder.rs:637-640 | the row of each key, in key order |
| HfImagefolder.AnnNames | src/ir/io_hf_imagefolder.rs:643-654 | one resolved name per object: its label, or the `category_map` entry of its ID, else the ID in decimal |
| HfImagefolder.HfCategories | src/ir/io_hf_imagefolder.rs:658-662 | one category per name, the `k`-th numbered `k + 1` |
| HfImagefolder.HfImages | src/ir/io_hf_imagefolder.rs:669-684 | one image per key, the `k`-th numbered `k + 1` with the row's size |
| HfImagefolder.RowAnnotations | src/ir/io_hf_imagefolder.rs:695-712 | one annotation per object, numbered consecutively from the running ID |
| HfImagefolder.NameReferenced | src/ir/io_hf_imagefolder.rs:635-656 | every object's resolved name is among the collected names |
| HfImagefolder.RowsNamesKnown | src/ir/io_hf_imagefolder.rs:708-709 | every object's resolved name is a category, so the lookup at 709 never fails |
| HfImagefolder.ParseAnnsErrPersists | src/ir/io_hf_imagefolder.rs:439-444 | once an object fails, the row fails with that error |
| HfImagefolder.ParseAnnList | src/ir/io_hf_imagefolder.rs:439-444 | the loop over the pairs equals the value-level parse |
| HfImagefolder.ParseJsonlRow | src/ir/io_hf_imagefolder.rs:347-455 | the parsing of one row equals the value-level row |
| HfImagefolder.FirstDuplicatePersists | src/ir/io_hf_imagefolder.rs:621-630 | once a file name repeats, the pass fails with that name |
| HfImagefolder.CollectRows | src/ir/io_hf_imagefolder.rs:621-630 | fails with the first repeated file name, otherwise gives the rows keyed by file name |
| HfImagefolder.RowCategories | src/ir/io_hf_imagefolder.rs:643-654 | a row's names are resolved in order and added to the sorted, duplicate-free set |
| HfImagefolder.CategoryPass | src/ir/io_hf_imagefolder.rs:635-656 | the loop yields the sorted, duplicate-free resolved names of all rows and records each file's names |
| HfImagefolder.BuildImages | src/ir/io_hf_imagefolder.rs:669-684 | the loop equals the value-level images |
| HfImagefolder.RowAnnotationList | src/ir/io_hf_imagefolder.rs:695-712 | the loop over one row equals the value-level annotations, and the running ID advances by the object count |
| HfImagefolder.AssembleAnnotations | src/ir/io_hf_imagefolder.rs:686-713 | the loop over the sorted rows equals the value-level annotations numbered from 1 |
| HfImagefolder.DatasetFromRows | src/ir/io_hf_imagefolder.rs:617-731 | the whole assembly equals the value-level dataset |
| HfImagefolderFacts.FirstBadObject | src/ir/io_hf_imagefolder.rs:439-444 | when every earlier object parses, the row fails with object `k`'s box error, else its category error |
| HfImagefolderFacts.BboxArityRefused | src/ir/io_hf_imagefolder.rs:529-539 | a box array without exactly four entries is the arity error and fails its row |
| HfImagefolderFacts.CategoryIdCases | src/ir/io_hf_imagefolder.rs:562-572 | an integer ID in range is kept; one beyond `i64::MAX` saturates; a whole float is truncated to its ID; a fractional float is the bad-category error |
| HfImagefolderFacts.CategoryRefused | src/ir/io_hf_imagefolder.rs:575-584 | anything neither a string nor a number is the bad-category error |
| HfImagefolderFacts.DuplicateRefused | src/ir/io_hf_imagefolder.rs:621-630 | no duplicate is found exactly when the file names are distinct; a duplicate found is some name shared by two rows |
| HfImagefolderFacts.ByFileAt | src/ir/io_hf_imagefolder.rs:621-630 | with distinct names, each row is found under its own file name |
| HfImagefolderFacts.ByFileSize | src/ir/io_hf_imagefolder.rs:621-630 | with distinct names, there is one key per row |
| HfImagefolderFacts.SortedRows | src/ir/io_hf_imagefolder.rs:632-633 | one row per sorted key |
| HfImagefolderFacts.SortedRowIsRow | src/ir/io_hf_imagefolder.rs:632-633 | every sorted row is one of the rows, at its file name's sorted position |
| HfImagefolderFacts.RowIsSortedRow | src/ir/io_hf_imagefolder.rs:632-633 | every row appears among the sorted rows at its file name's position |
| HfImagefolderFacts.ImagesOfRows | src/ir/io_hf_imagefolder.rs:617-731 | a successful assembly has distinct file names, and its images are those of the sorted rows |
| HfImagefolderFacts.SortedRowsPlaced | src/ir/io_hf_imagefolder.rs:632-640 | the sorted rows are a rearrangement of the rows that follows the sorted names |
| HfImagefolderFacts.ImagesMatchRows | src/ir/io_hf_imagefolder.rs:669-684 | every row has an image with its name and size, and every image comes from a row |
| HfImagefolderFacts.HfImages | src/ir/io_hf_imagefolder.rs:632-684 | one image per row, in strictly increasing file-name order, numbered from 1, matching the rows both ways |
| HfImagefolderFacts.ReferencedNameOf | src/ir/io_hf_imagefolder.rs:643-654 | a collected name is the resolved name of some object |
| HfImagefolderFacts.SortedRowsReferenced | src/ir/io_hf_imagefolder.rs:632-656 | sorting the rows does not change which names are referenced |
| HfImagefolderFacts.HfCategories | src/ir/io_hf_imagefolder.rs:635-662 | categories are in strictly increasing name order, numbered from 1, and named exactly by the resolved names of the objects |
| HfImagefolderFacts.NamesReferenced | src/ir/io_hf_imagefolder.rs:635-656 | a name is collected exactly when some object resolves to it |
| HfImagefolderFacts.AnnotationsNumbered | src/ir/io_hf_imagefolder.rs:686-713 | one annotation per object, numbered consecutively, with references in range |
| HfImagefolderFacts.HfAnnotations | src/ir/io_hf_imagefolder.rs:686-713 | one annotation per object, annotation `k` numbered `k + 1`, each referring to an existing image and category |
| HfImagefolderFacts.RowAnnotationsRead | src/ir/io_hf_imagefolder.rs:695-712 | each object becomes an annotation on its row's image, in the category of its resolved name, with its box read in the configured format, no score and no attributes |
| HfImagefolderFacts.BoxOfInverse | src/ir/io_hf_imagefolder.rs:699-706 | reading four numbers as a box and writing them back in the same format gives the numbers back |
| HfImagefolderFacts.ProvenanceKept | src/ir/io_hf_imagefolder.rs:715-718 | the attributes are the provenance map with `hf_bbox_format` added when absent as the configured format's name; every other entry unchanged |
| HfImagefolderWrite.BoxValues | src/ir/io_hf_imagefolder.rs:173-186 | XYXY writes the corners; XYWH writes the corner and a size that adds back to the far corner |
| HfImagefolderWrite.ObjectsOf | src/ir/io_hf_imagefolder.rs:158-187 | a successful pass gives one box and one category per annotation |
| HfImagefolderWrite.RowsFrom | src/ir/io_hf_imagefolder.rs:154-209 | a successful pass gives one row per image |
| HfImagefolderWrite.BoxesJson | src/ir/io_hf_imagefolder.rs:187 | one JSON array per box, in order |
| HfImagefolderWrite.NamesJson | src/ir/io_hf_imagefolder.rs:188 | one JSON string per category name, in order |
| HfImagefolderWrite.ObjectsErrPersists | src/ir/io_hf_imagefolder.rs:161-171 | once an annotation's category is missing, the image fails with that error |
| HfImagefolderWrite.ObjectLists | src/ir/io_hf_imagefolder.rs:158-188 | the loop over one image's annotations equals the value-level lists |
| HfImagefolderWrite.RowsFromFails | src/ir/io_hf_imagefolder.rs:154-209 | a failing image makes the whole write fail with its error |
| HfImagefolderWrite.WriteRows | src/ir/io_hf_imagefolder.rs:154-209 | the loop over the sorted images equals the value-level rows |
| HfImagefolderWrite.WriteHfImagefolder | src/ir/io_hf_imagefolder.rs:104-213 | the whole write equals the value-level rows |
| HfImagefolderWriteFacts.ObjectsContents | src/ir/io_hf_imagefolder.rs:158-188 | the lists are produced exactly when every category is named, and then hold each annotation's box in the target format and its category's name |
| HfImagefolderWriteFacts.RowForTaken | src/ir/io_hf_imagefolder.rs:155 | removing another image's group does not change this image's row |
| HfImagefolderWriteFacts.RowForKnown | src/ir/io_hf_imagefolder.rs:154-209 | with every category named, an image's row is produced with its file name and size |
| HfImagefolderWriteFacts.RowsFromKnown | src/ir/io_hf_imagefolder.rs:154-209 | with every category named, the pass succeeds and row `k` carries the `k`-th image's name and size |
| HfImagefolderWriteFacts.RowsFromEach | src/ir/io_hf_imagefolder.rs:154-209 | row `k` of a successful pass is the `k`-th image's row |
| HfImagefolderWriteFacts.CheckedGroupsKnown | src/ir/io_hf_imagefolder.rs:123-146 | once references check out, every grouped annotation's category is named |
| HfImagefolderWriteFacts.HfOutputRows | src/ir/io_hf_imagefolder.rs:104-213 | fails exactly when an annotation references a missing image or category, with the first such error; otherwise row `k` has the name and size of the `k`-th image in file-name order |
| HfImagefolderWriteFacts.HfOutputObjects | src/ir/io_hf_imagefolder.rs:154-188 | with distinct image IDs, row `k` holds exactly its image's annotations in ascending ID order, each as its box and its category's name |
| HfImagefolderWriteFacts.ReadBack | src/ir/io_hf_imagefolder.rs:439-444 | the objects a reader gets from written lists: each box's numbers with its name as a label |
| HfImagefolderWriteFacts.GetAt | src/ir/io_hf_imagefolder.rs:362-437 | a member is found under its own key when keys are distinct |
| HfImagefolderWriteFacts.RowMembers | src/ir/io_hf_imagefolder.rs:193-200 | a written row has the members `file_name`, `width`, `height` and `objects`, in that order |
| HfImagefolderWriteFacts.ContainerMembers | src/ir/io_hf_imagefolder.rs:189-191 | the written container has the members `bbox` and `categories` |
| HfImagefolderWriteFacts.ObjectsReadBack | src/ir/io_hf_imagefolder.rs:439-444 | the written arrays parse back to the written boxes and names (with lines 187-188) |
| HfImagefolderWriteFacts.ObjectReadBack | src/ir/io_hf_imagefolder.rs:439-444 | each written pair parses back to its box and name (with lines 187-188) |
| HfImagefolderWriteFacts.ContainerFound | src/ir/io_hf_imagefolder.rs:375-437 | the reader finds the written `objects` container and its arrays (with lines 189-200) |
| HfImagefolderWriteFacts.ArraysFound | src/ir/io_hf_imagefolder.rs:375-437 | a container with `bbox` and `categories` arrays of equal length is found as those arrays |
| HfImagefolderWriteFacts.ObjectsFound | src/ir/io_hf_imagefolder.rs:375-444 | the objects of a written row read back as the written boxes and names |
| HfImagefolderWriteFacts.RowRoundTrip | src/ir/io_hf_imagefolder.rs:347-455 | a written row is read back with its file name, size and objects (with lines 189-200) |
| HfImagefolderWriteFacts.RowFromWritten | src/ir/io_hf_imagefolder.rs:362-454 | the members of a written row read back as that row |
| HfImagefolderWriteFacts.FieldsRead | src/ir/io_hf_imagefolder.rs:362-373 | the written file name, width and height are read back as given |
| HfImagefolderWriteFacts.BoxRoundTrip | src/ir/io_hf_imagefolder.rs:173-186 | a finite box written in a format and read back in that format is itself (with lines 699-706) |
| HfImagefolderWriteFacts.WriteThenRead | src/ir/io_hf_imagefolder.rs:104-213 | with distinct image IDs, row `k` of the output reads back as the `k`-th image in file-name order: its name, its size, and each of its annotations' boxes and category names in ID order (with lines 347-455) |
| HfAcquire.Depth | src/hf/acquire.rs:260 | a path has at least one `/`-separated component |
| HfAcquire.DepthOneIffNoSlash | src/hf/acquire.rs:223-260 | depth one means exactly that the path holds no `/` |
| HfAcquire.FileName | src/hf/acquire.rs:303-306 | the file name holds no `/` |
| HfAcquire.Parent | src/hf/acquire.rs:103-106 | a parent exists exactly for a non-empty path; for a nested path, parent, `/` and file name make the path back (with lines 353-355) |
| HfAcquire.FileNameOfJoin | src/hf/acquire.rs:303-306 | the file name of `dir/name` is `name` |
| HfAcquire.Extension | src/hf/acquire.rs:431-433 | an extension holds no `.` and no `/` |
| HfAcquire.NormalizeSplitName | src/hf/acquire.rs:333-341 | a normalised name is one of `train`, `test`, `validation`, `dev` |
| HfAcquire.NormalizeSplitNameIdempotent | src/hf/acquire.rs:333-341 | normalising a normalised name gives it back |
| HfAcquire.LastSplitComponent | src/hf/acquire.rs:321-328 | a split found among the components is a canonical one |
| HfAcquire.InferSplit | src/hf/acquire.rs:301-331 | an inferred split is a canonical one |
| HfAcquire.InferSplitByPrefix | src/hf/acquire.rs:308-313 | when the lower-cased file name's part before its first `-` names a split, that split is inferred |
| HfAcquire.ShardPrefixNamesSplit | src/hf/acquire.rs:301-331 | a shard named `<split>-<rest>` in any directory belongs to that split |
| HfAcquire.NormalizeCanonical | src/hf/acquire.rs:333-341 | a canonical split name normalises to itself |
| HfAcquire.CandidateOf | src/hf/acquire.rs:263-295 | a listed path's candidate keeps the path and records which pass found it |
| HfAcquire.Candidates | src/hf/acquire.rs:248-299 | one pass yields at most one candidate per path |
| HfAcquire.CandidatesMembers | src/hf/acquire.rs:248-299 | a candidate is exactly the candidate of some path the pass lists |
| HfAcquire.CollectCandidates | src/hf/acquire.rs:248-299 | the loops of `metadata_candidates` and `parquet_shard_candidates` equal the value-level passes |
| HfAcquire.CandidateLePreorder | src/hf/acquire.rs:214-218 | the candidate order (JSONL before parquet, then depth, then path) is a total preorder |
| HfAcquire.CandidateLeAntisymmetric | src/hf/acquire.rs:214-218 | candidates ordered both ways agree on format, depth and path |
| HfAcquire.Pool | src/hf/acquire.rs:192-212 | with a requested split, every candidate left belongs to that split, normalised when it can be |
| HfAcquire.FindFirst | src/hf/acquire.rs:221-242 | the index found is the first satisfying the test, or the end when none does |
| HfAcquire.FirstIsLeast | src/hf/acquire.rs:214-242 | in a sorted list the first candidate passing a test is a least one passing it |
| HfAcquire.CollectPool | src/hf/acquire.rs:192-212 | the loop equals the value-level pool: metadata files, else shards, filtered by split |
| HfAcquire.ChoosePreferred | src/hf/acquire.rs:220-245 | the choice is a least candidate of the preferred kind: a root JSONL, else a root parquet, else the train split, else any |
| HfAcquire.SameMembersChoice | src/hf/acquire.rs:214-245 | the choice depends only on which candidates there are |
| HfAcquire.SelectMetadataPath | src/hf/acquire.rs:188-246 | nothing exactly when no candidate is left; otherwise a least candidate of the preferred kind |
| HfAcquire.LeastWhereUnique | src/hf/acquire.rs:214-218 | that least candidate is unique, so the choice does not depend on listing order |
| HfAcquire.BareJsonlMetadata | src/hf/acquire.rs:252 | a JSONL metadata path without `/` is `metadata.jsonl` |
| HfAcquire.RootJsonlChosen | src/hf/acquire.rs:220-227 | with no requested split, a listed root `metadata.jsonl` is always chosen |
| HfAcquire.RootJsonlCandidate | src/hf/acquire.rs:252-269 | the root `metadata.jsonl` is listed as a depth-one JSONL candidate |
| HfAcquire.SelectRelatedParquetShards | src/hf/acquire.rs:343-386 | the shards in the selected file's directory and of the target split, or the selected file alone when there are none |
| HfAcquire.SelectedShardIsRelated | src/hf/acquire.rs:343-386 | a shard chosen without a requested split is among the shards fetched with it |
| HfAcquire.ResolveRemoteImagePath | src/hf/acquire.rs:409-428 | the name under the metadata directory when listed, else the bare name when listed, else nothing; the result is always listed |
| HfAcquire.IsImageFile | src/hf/acquire.rs:430-441 | an image file has an extension |
| HfAcquire.NoDotNoImage | src/hf/acquire.rs:430-441 | a file name with no dot after its first character is never an image |
| HfAcquire.JsonlFileNames | src/hf/acquire.rs:388-407 | at most one name per line |
| HfAcquire.ReadJsonlFileNames | src/hf/acquire.rs:393-404 | the loop equals the value-level names: blank and unparsable lines skipped |
| HfAcquire.DownloadPlan | src/hf/acquire.rs:101-147 | the files fetched besides the metadata file are all listed in the repository and never the metadata file itself |
| HfResolve.ValidateRepoId | src/hf/resolve.rs:90-105 | accepted exactly when the trimmed text is two non-empty `/`-separated parts, and then is the trimmed text |
| HfResolve.RepoIdAccepted | src/hf/resolve.rs:90-105 | `namespace/dataset` with non-empty parts free of `/` and whitespace is accepted unchanged |
| HfResolve.RepoIdThreePartsRefused | src/hf/resolve.rs:95-102 | a reference with three parts is refused |
| HfResolve.Segments | src/hf/resolve.rs:63-66 | the path segments kept are non-empty |
| HfResolve.TreeRevision | src/hf/resolve.rs:81-85 | a revision exactly when segment 3 is `tree` and a segment 4 exists, and then it is segment 4 |
| HfResolve.ParseRepoIdFromUrl | src/hf/resolve.rs:42-88 | a URL without a host is refused; an accepted URL has host `huggingface.co` in any case, its repo ID is segments 1 and 2, and its revision is the tree revision |
| HfResolve.MergeRevision | src/hf/resolve.rs:19-32 | fails exactly when both revisions are given and differ; otherwise the argument wins, else the URL's |
| HfResolve.ParseHfInput | src/hf/resolve.rs:6-40 | a non-URL input is accepted exactly when it is a valid repo ID; text that fails to parse as a URL is refused; config and split are carried; a given revision is kept |
| HfResolve.UrlTreeRevision | src/hf/resolve.rs:19-32 | a dataset URL with a `/tree/<rev>` suffix and no `--revision` resolves to that revision (with lines 81-85) |
| HfResolve.ConflictingRevisionRefused | src/hf/resolve.rs:19-28 | a `--revision` that differs from the URL's is refused |
| HfPreflight.ExtractFeatures | src/hf/preflight.rs:112-118 | `dataset_info.features` when present, else the top-level `features`; nothing exactly when both are missing |
| HfPreflight.InfoString | src/hf/preflight.rs:232-258 | the string under the key in `dataset_info` when present, else the top-level string; nothing exactly when neither is a string |
| HfPreflight.CollectNames | src/hf/preflight.rs:120-142 | the loop yields the sorted, duplicate-free strings under the key of the `splits` items |
| HfPreflight.ExtractSplitNames | src/hf/preflight.rs:120-130 | strictly sorted, holding exactly the `split` strings listed |
| HfPreflight.ExtractConfigNames | src/hf/preflight.rs:132-142 | strictly sorted, holding exactly the `config` strings listed |
| HfPreflight.ObjectsColumnOf | src/hf/preflight.rs:146-167 | `objects` exactly when present; `faces` exactly when it is present and `objects` is not; otherwise nothing |
| HfPreflight.DetectObjectsColumnFromFeatures | src/hf/preflight.rs:144-153 | nothing for a non-object; otherwise the container found among its members |
| HfPreflight.DetectObjectsColumnFromFirstRows | src/hf/preflight.rs:155-168 | nothing without a first row object; otherwise the container found in it |
| HfPreflight.Strings | src/hf/preflight.rs:206-212 | at most one name per entry |
| HfPreflight.FindLabels | src/hf/preflight.rs:194-230 | names found are never empty |
| HfPreflight.FindInChildren | src/hf/preflight.rs:219-223 | names found are never empty |
| HfPreflight.FindLabelsComplete | src/hf/preflight.rs:194-230 | names are found exactly when some `ClassLabel` node inside lists at least one |
| HfPreflight.FindInChildrenComplete | src/hf/preflight.rs:219-223 | the member search finds names exactly when some member from there on holds them |
| HfPreflight.ChildWithoutLabels | src/hf/preflight.rs:219-227 | when no member from a point on holds names, none of those members does |
| HfPreflight.FindLabelsSound | src/hf/preflight.rs:194-230 | the names found are those of a `ClassLabel` node inside the value |
| HfPreflight.FindInChildrenSound | src/hf/preflight.rs:219-223 | names found by the member search come from one of those members |
| HfPreflight.ExtractClassLabelNames | src/hf/preflight.rs:170-192 | names found are never empty |
| HfPreflight.ExtractClassLabelNamesComplete | src/hf/preflight.rs:170-192 | names are found exactly when some `ClassLabel` node of the features lists at least one |
| HfPreflight.ContainerHasLabels | src/hf/preflight.rs:173-181 | names found in a container are names of the features |
| HfPreflight.LabelsFromChild | src/hf/preflight.rs:184-188 | a member holding names makes the member search succeed from any earlier point |
| HfPreflight.ObjectsLabelsPreferred | src/hf/preflight.rs:173-181 | names under `objects` win over every other place |
| HfPreflight.SelectSplit | src/hf/preflight.rs:43-49 | the requested split, else `train` when listed, else the first listed; a split chosen without a request is listed |
| HfPreflight.RunPreflight | src/hf/preflight.rs:22-70 | nothing exactly when `info` failed; otherwise the features, sorted splits and configs, chosen split, objects column from the features when found there and otherwise from the chosen split's `first-rows` answer (none when there is no split or no answer), class-label names, license and description each as their extractors give them |
| Validation.When | src/validation/mod.rs:58-90 | a conditional report holds the issue's code exactly when the condition holds, and at most one issue |
| Validation.HasCodeConcat | src/validation/mod.rs:51-92 | a code is in joined lists exactly when it is in either |
| Validation.ShapeConcat | src/validation/mod.rs:51-92 | joined lists are well graded and about one entity exactly when both parts are |
| Validation.ImageIssuesAtFacts | src/validation/mod.rs:58-90 | an image is reported with DuplicateImageId exactly when its ID was seen, InvalidImageDimensions exactly when a side is zero, EmptyFileName (a warning) exactly when its name is empty, and nothing else, all about that image |
| Validation.ImageIssuesStep | src/validation/mod.rs:54-91 | one more image extends the issues by that image's own |
| Validation.CheckImage | src/validation/mod.rs:55-90 | adds the image's issues to the report and records its ID as seen |
| Validation.ValidateImages | src/validation/mod.rs:51-92 | adds exactly the issues of all images, in order |
| Validation.CategoryIssuesAtFacts | src/validation/mod.rs:103-137 | a category is reported with DuplicateCategoryId (an error) exactly when its ID was seen, EmptyCategoryName when its name is empty, DuplicateCategoryName when a non-empty name was seen (both warnings), and nothing else |
| Validation.CategoryIssuesStep | src/validation/mod.rs:99-138 | one more category extends the issues by that category's own |
| Validation.CheckCategory | src/validation/mod.rs:100-137 | adds the category's issues and records its ID, and its name when non-empty, as seen |
| Validation.ValidateCategories | src/validation/mod.rs:95-139 | adds exactly the issues of all categories, in order |
| Validation.FiniteBoxIssuesFacts | src/validation/mod.rs:215-259 | a finite box gets InvalidBBoxOrdering (error), InvalidBBoxArea (warning) and BBoxOutOfBounds (error) each exactly when its test fails |
| Validation.BoxIssuesFacts | src/validation/mod.rs:196-260 | a box that is not finite is reported with BBoxNotFinite alone; a finite one with its ordering, area and, when its image exists, bounds codes; all well graded and about the annotation |
| Validation.ReferenceIssuesFacts | src/validation/mod.rs:161-193 | DuplicateAnnotationId, MissingImageRef and MissingCategoryRef each exactly when the ID was seen, the image or the category is missing |
| Validation.AnnotationIssuesAtFacts | src/validation/mod.rs:157-261 | an annotation's codes are its reference codes and its box codes, and nothing else |
| Validation.BoundsNeedImage | src/validation/mod.rs:240-260 | bounds are reported only for an annotation whose image exists |
| Validation.AnnotationIds | src/validation/mod.rs:157-172 | one ID per annotation, in order |
| Validation.AnnotationIssuesStep | src/validation/mod.rs:157-261 | one more annotation extends the issues by that annotation's own |
| Validation.CheckBox | src/validation/mod.rs:196-260 | adds exactly the box's issues |
| Validation.CheckAnnotation | src/validation/mod.rs:158-260 | adds the annotation's issues and records its ID as seen |
| Validation.ValidateAnnotations | src/validation/mod.rs:142-262 | adds exactly the issues of all annotations, in order |
| Validation.ValidateDataset | src/validation/mod.rs:31-48 | a new report holding the image, category and annotation issues in that order; it is clean exactly when the dataset is |
| Validation.CountCode | src/validation/mod.rs:51-262 | a count of a code is zero exactly when the code is absent |
| Validation.CountCodeAppend | src/validation/mod.rs:51-262 | counts add over joined lists |
| Validation.IdSet | src/validation/mod.rs:52 | the set of IDs seen holds exactly the listed IDs |
| Validation.IdSetSnoc | src/validation/mod.rs:58-69 | one more ID grows the set by one exactly when it is new |
| Validation.DuplicateImageIdAt | src/validation/mod.rs:58-66 | an image adds one DuplicateImageId exactly when its ID was seen |
| Validation.DuplicateImageIdCount | src/validation/mod.rs:51-92 | DuplicateImageId is reported once per image beyond the first with each ID |
| Validation.ImageIssuesAtEmpty | src/validation/mod.rs:58-90 | an image has no issues exactly when its ID is new, both sides are positive and its name is non-empty |
| Validation.ImageIssuesEmpty | src/validation/mod.rs:51-92 | no image issues exactly when image IDs are distinct and every image is sound |
| Validation.CategoryIssuesAtEmpty | src/validation/mod.rs:103-137 | a category has no issues exactly when its ID is new and its name is non-empty and new |
| Validation.CategoryIssuesEmpty | src/validation/mod.rs:95-139 | no category issues exactly when IDs and names are distinct and every name is non-empty |
| Validation.AnnotationIssuesAtEmpty | src/validation/mod.rs:157-261 | an annotation has no issues exactly when its ID is new and its references and box are sound |
| Validation.AnnotationIssuesEmpty | src/validation/mod.rs:142-262 | no annotation issues exactly when IDs are distinct and every annotation is sound |
| Validation.NoIssuesIffClean | src/validation/mod.rs:31-48 | a dataset has no issues exactly when it is clean |
| Validation.ImageIssuesWellGraded | src/validation/mod.rs:51-92 | every image issue has its code's severity |
| Validation.CategoryIssuesWellGraded | src/validation/mod.rs:95-139 | every category issue has its code's severity |
| Validation.AnnotationIssuesWellGraded | src/validation/mod.rs:142-262 | every annotation issue has its code's severity |
| Validation.DatasetIssuesWellGraded | src/validation/mod.rs:31-48 | every issue has its code's severity |
| ValidationReports.ErrorIssue | src/validation/report.rs:115-118 | an error with the given code and context |
| ValidationReports.WarningIssue | src/validation/report.rs:120-123 | a warning with the given code and context |
| ValidationReports.CountSeverity | src/validation/report.rs:29-43 | zero exactly when no issue has that severity |
| ValidationReports.SeveritiesPartition | src/validation/report.rs:29-43 | errors and warnings add up to all issues |
| ValidationReports.CountSeverityAppend | src/validation/report.rs:29-43 | counts add over joined lists |
| ValidationReports.ValidationReport.constructor | src/validation/report.rs:19-22 | a new report has no issues |
| ValidationReports.ValidationReport.Add | src/validation/report.rs:24-27 | the issue is appended and nothing else changes |
| ValidationReports.ValidationReport.ErrorCount | src/validation/report.rs:29-35 | zero exactly when every issue is a warning |
| ValidationReports.ValidationReport.WarningCount | src/validation/report.rs:37-43 | zero exactly when every issue is an error |
| ValidationReports.ValidationReport.IsOk | src/validation/report.rs:45-48 | ok exactly when there is no error |
| ValidationReports.ValidationReport.IsClean | src/validation/report.rs:50-53 | clean exactly when there are no errors and no warnings |
| ValidationReports.ValidationReport.IsOkStrict | src/validation/report.rs:55-58 | strictly ok exactly when ok and without warnings |
| ValidationReports.CountsPartitionReport | src/validation/report.rs:29-43 | a report's error and warning counts add up to its issues |
| Conversion.Name | src/conversion/mod.rs:44-63 | every format has a non-empty name |
| Conversion.NameInjective | src/conversion/mod.rs:44-63 | distinct formats have distinct names |
| Conversion.LossinessRelativeToIr | src/conversion/mod.rs:65-76 | lossless exactly for IR JSON, conditional exactly for COCO, lossy otherwise |
| Conversion.AddIf | src/conversion/mod.rs:135-148 | adds the issue exactly when its condition holds |
| Conversion.AddDropNotes | src/conversion/mod.rs:133-212 | adds the six drop warnings whose checks fired, in order |
| Conversion.AddPlainDrops | src/conversion/mod.rs:133-212 | adds the drop warnings of the six counting checks |
| Conversion.AnalyzeToTfod | src/conversion/mod.rs:133-244 | adds the TFOD warnings, including dropped unannotated images, and sets the TFOD output counts |
| Conversion.AnalyzeToYolo | src/conversion/mod.rs:246-330 | adds the YOLO warnings and keeps the input counts as output |
| Conversion.AnalyzeToVoc | src/conversion/mod.rs:332-423 | adds the VOC warnings and keeps the input counts as output |
| Conversion.AnalyzeToLabelStudio | src/conversion/mod.rs:425-491 | adds the Label Studio warnings and keeps the input counts as output |
| Conversion.AnalyzeToCoco | src/conversion/mod.rs:493-521 | adds the COCO warnings and keeps the input counts as output |
| Conversion.AnalyzeToIrJson | src/conversion/mod.rs:523-526 | adds nothing and keeps the input counts as output |
| Conversion.AddHfNotes | src/conversion/mod.rs:529-602 | adds the five HF warnings whose checks fired, in order |
| Conversion.AnalyzeToHf | src/conversion/mod.rs:529-602 | adds the HF warnings and keeps the input counts as output |
| Conversion.AnalyzeToCvat | src/conversion/mod.rs:604-690 | adds the CVAT warnings and keeps the input counts as output |
| Conversion.AddTfodReaderPolicy | src/conversion/mod.rs:692-700 | adds the TFOD ID-assignment note |
| Conversion.AddYoloReaderPolicy | src/conversion/mod.rs:710-720 | adds the YOLO ID-assignment and class-map-source notes |
| Conversion.AddVocReaderPolicy | src/conversion/mod.rs:738-767 | adds the VOC reader notes, with the depth note when some image has a non-3 depth |
| Conversion.AddLabelStudioReaderPolicy | src/conversion/mod.rs:787-807 | adds the Label Studio reader notes and the rotation warning when some annotation has `ls_rotation_deg` |
| Conversion.AddCvatReaderPolicy | src/conversion/mod.rs:825-835 | adds the CVAT ID-assignment and attribute notes |
| Conversion.AddHfReaderPolicy | src/conversion/mod.rs:845-852 | adds the HF category-resolution note |
| Conversion.AddReaderPolicy | src/conversion/mod.rs:107-116 | adds the source format's reader notes |
| Conversion.AddTfodWriterPolicy | src/conversion/mod.rs:702-708 | adds the TFOD row-order note |
| Conversion.AddYoloWriterPolicy | src/conversion/mod.rs:722-736 | adds the YOLO writer notes |
| Conversion.AddVocWriterPolicy | src/conversion/mod.rs:769-785 | adds the VOC writer notes |
| Conversion.AddLabelStudioWriterPolicy | src/conversion/mod.rs:810-823 | adds the from/to-defaults note exactly when some image lacks `ls_from_name` or `ls_to_name` |
| Conversion.AddCvatWriterPolicy | src/conversion/mod.rs:837-843 | adds the CVAT meta-defaults note |
| Conversion.AddHfWriterPolicy | src/conversion/mod.rs:854-862 | adds the HF deterministic-order note |
| Conversion.AddWriterPolicy | src/conversion/mod.rs:118-127 | adds the target format's writer notes |
| Conversion.AnalyzeTarget | src/conversion/mod.rs:95-105 | adds the target's warnings and sets its output counts |
| Conversion.AddPolicies | src/conversion/mod.rs:107-127 | adds the reader notes, then the writer notes |
| Conversion.BuildConversionReport | src/conversion/mod.rs:85-130 | a new report named for both formats, with the input counts, the target's output counts, and the target warnings followed by the reader and writer notes |
| Conversion.CountAllOf | src/conversion/report.rs:43-59 | a list of one severity counts whole under it |
| Conversion.DropNotesMembers | src/conversion/mod.rs:133-212 | exactly the warnings whose checks fired, each with its own code |
| Conversion.HfNotesMembers | src/conversion/mod.rs:529-602 | a metadata warning when info, licenses or supercategories are lost, an attributes warning when image metadata or annotation attributes are, a confidence warning when confidences are, and nothing else |
| Conversion.DropNotesAreWarnings | src/conversion/mod.rs:133-212 | the drop notes are all warnings |
| Conversion.HfNotesAreWarnings | src/conversion/mod.rs:529-602 | the HF notes are all warnings |
| Conversion.TargetIssuesAreWarnings | src/conversion/mod.rs:133-690 | the target analyses record warnings only |
| Conversion.WriterWarningCount | src/conversion/mod.rs:702-862 | the writer notes hold no warning |
| Conversion.NoteCount | src/conversion/mod.rs:135-140 | a conditional note counts once under its severity exactly when its condition holds |
| Conversion.LabelStudioReaderWarningCount | src/conversion/mod.rs:787-807 | the Label Studio reader notes hold one warning exactly when a rotated box is present |
| Conversion.OtherReaderWarningCount | src/conversion/mod.rs:692-852 | the other readers' notes hold no warning |
| Conversion.ReaderWarningCount | src/conversion/mod.rs:692-852 | reader notes hold a warning only for a rotated Label Studio box |
| Conversion.ReportWarningCount | src/conversion/mod.rs:85-130 | the warnings are the target's warnings plus one for a rotated Label Studio box |
| Conversion.LossyIff | src/conversion/mod.rs:85-130 | a report is lossy exactly when the target analysis warns or a rotated Label Studio box is present |
| Conversion.IrJsonTargetIsLossless | src/conversion/mod.rs:523-526 | converting to IR JSON keeps every count and records only reader notes; from COCO nothing at all |
| Conversion.TfodPolicyNotes | src/conversion/mod.rs:692-708 | a TFOD source always brings its ID-assignment note and a TFOD target its row-order note |
| Conversion.CountIfPositive | src/conversion/mod.rs:151-156 | a count of matches is positive exactly when something matches |
| Conversion.ImageChecksMeaning | src/conversion/mod.rs:151-156 | each image check fires exactly when some image matches it |
| Conversion.UnannotatedCheckMeaning | src/conversion/mod.rs:215-221 | the unannotated-image check fires exactly when some image is referenced by no annotation |
| Conversion.AnnotationChecksMeaning | src/conversion/mod.rs:167-203 | the supercategory, confidence and attribute checks fire exactly when some item has one |
| Conversion.VocLabelStudioKeyChecksMeaning | src/conversion/mod.rs:332-491 | the VOC and Label Studio key checks fire exactly when some annotation has a key the target drops |
| Conversion.CocoCvatKeyChecksMeaning | src/conversion/mod.rs:493-690 | the COCO and CVAT key checks fire exactly when some annotation has a key the target may drop |
| Conversion.TfodUnannotatedWarningIff | src/conversion/mod.rs:214-230 | TFOD warns about dropped images exactly when some image has no annotation |
| Conversion.CocoNameWarningIff | src/conversion/mod.rs:493-521 | COCO warns about the dataset name exactly when there is one |
| Conversion.VocAttributeWarningIff | src/conversion/mod.rs:332-423 | VOC warns about annotation attributes exactly when one has a key VOC does not keep |
| Conversion.ImageIdSet | src/conversion/mod.rs:234 | holds exactly the image IDs of the dataset |
| Conversion.IdSetBound | src/conversion/mod.rs:234-244 | a set of IDs drawn from a list is no larger than the list |
| Conversion.TfodOutputBounds | src/conversion/mod.rs:232-244 | the TFOD output keeps every annotation and has no more images or categories than annotations, and no more images than the input when references are sound |
| ConversionReports.WarningIssue | src/conversion/report.rs:144-151 | a warning with the given code |
| ConversionReports.InfoIssue | src/conversion/report.rs:153-160 | an info note with the given code |
| ConversionReports.CountSeverity | src/conversion/report.rs:43-59 | zero exactly when no issue has that severity |
| ConversionReports.SeveritiesPartition | src/conversion/report.rs:43-59 | warnings and info notes add up to all issues |
| ConversionReports.CountSeverityAppend | src/conversion/report.rs:43-59 | counts add over joined lists |
| ConversionReports.ConversionReport.constructor | src/conversion/report.rs:29-36 | a new report has the two names, zero counts and no issues |
| ConversionReports.ConversionReport.Add | src/conversion/report.rs:38-41 | the issue is appended and nothing else changes |
| ConversionReports.ConversionReport.WarningCount | src/conversion/report.rs:43-49 | zero exactly when there is no warning |
| ConversionReports.ConversionReport.InfoCount | src/conversion/report.rs:51-59 | zero exactly when every issue is a warning |
| ConversionReports.ConversionReport.IsLossy | src/conversion/report.rs:61-64 | lossy exactly when some issue is a warning |
| ConversionReports.CountsPartitionReport | src/conversion/report.rs:43-59 | a report's warning and info counts add up to its issues |
| StatsCounts.DimsById | src/stats/mod.rs:44-48 | the size map holds exactly the ids of the images; a repeated id keeps the last image's size |
| StatsCounts.AnnotatedIds | src/stats/mod.rs:84-85 | the annotated ids are exactly the image ids that some annotation refers to, and there are no more of them than annotations |
| StatsCounts.ComputeSummary | src/stats/mod.rs:83-94 | the image, category, annotation and license counts are the list lengths; the annotated-image count is at most the annotation count and is zero exactly when there are no annotations |
| StatsCounts.OrderedWidths | src/stats/mod.rs:170-178 | one width per finite, ordered box |
| StatsCounts.OrderedHeights | src/stats/mod.rs:170-180 | one height per finite, ordered box |
| StatsCounts.MinOf | src/stats/mod.rs:177-179 | none exactly for no values; otherwise a value of the list that no element undercuts |
| StatsCounts.MaxOf | src/stats/mod.rs:178-180 | none exactly for no values; otherwise a value of the list that no element exceeds |
| StatsCounts.TallyCounts | src/stats/mod.rs:156-208 | the loop's counters are the numbers of finite, ordered, degenerate, bounds-checked, out-of-bounds and missing-image annotations |
| StatsCounts.TallyWidths | src/stats/mod.rs:177-211 | the loop's running width minimum and maximum are those of the ordered boxes' widths |
| StatsCounts.TallyHeights | src/stats/mod.rs:179-213 | the loop's running height minimum and maximum are those of the ordered boxes' heights |
| StatsCounts.TallyAllCounts | src/stats/mod.rs:146-215 | the fold over the annotations equals the counting definition of the box statistics |
| StatsCounts.ComputeBoxStats | src/stats/mod.rs:141-216 | the method's statistics equal the counting definition: total, finite, ordered, degenerate, checked, out-of-bounds, missing-image counts and the width and height extremes |
| StatsCounts.BoxStatsBounds | src/stats/mod.rs:141-216 | degenerate ≤ ordered ≤ finite ≤ total, out-of-bounds ≤ checked, checked + missing ≤ total, the extremes exist exactly when a box is ordered, and then min ≤ max and both minima are nonnegative |
| StatsCounts.OrderedNonNegative | src/stats/mod.rs:170-175 | every width and height of an ordered box is nonnegative |
| StatsCounts.ImageWidths | src/stats/mod.rs:232-235 | the widths of the images, in order |
| StatsCounts.ImageHeights | src/stats/mod.rs:232-239 | the heights of the images, in order |
| StatsCounts.ExtentSpread | src/stats/mod.rs:224-240 | the running minimum, maximum and sum end as the spread and the sum of the values |
| StatsCounts.ExtentLow | src/stats/mod.rs:224-233 | the running minimum is at most every value and the start, and is the start or one of the values |
| StatsCounts.ExtentHigh | src/stats/mod.rs:225-234 | the running maximum is at least every value and, for a non-empty list, one of them |
| StatsCounts.ExtentSum | src/stats/mod.rs:226-235 | the running sum is the sum of the values |
| StatsCounts.ImageResolution | src/stats/mod.rs:219-251 | all zero for no images; otherwise the minimum and maximum width and height over the images and the means as sum over count |
| StatsCounts.MeanBetween | src/stats/mod.rs:242-249 | a mean lies between a lower and an upper bound of all its values |
| StatsCounts.ResolutionMeanBetween | src/stats/mod.rs:219-251 | for images within u32, the minima are sizes of some image and each mean lies between its minimum and maximum |
| StatsCounts.DistinctImageIds | src/stats/mod.rs:259-263 | the ids of the images, each once |
| StatsCounts.PerImageCounts | src/stats/mod.rs:265-271 | one count per image id: the annotations on that image |
| StatsCounts.AnnotationDensity | src/stats/mod.rs:254-284 | all zero for no images; otherwise min and max per image are counts of some image and bound every image's count, the mean is the sum over the number of distinct images, and the zero count is the number of images without annotations |
| StatsCounts.CountPerImage | src/stats/mod.rs:259-269 | a counter for exactly the known images, each equal to the annotations on it; annotations on unknown images are skipped |
| StatsCounts.MinOr0 | src/stats/mod.rs:272 | zero for no values; otherwise a value of the list that no element undercuts |
| StatsCounts.MaxOr0 | src/stats/mod.rs:273 | zero for no values; otherwise a value of the list that no element exceeds |
| StatsCounts.PerImageSum | src/stats/mod.rs:265-274 | the per-image counts sum to the annotations on known images |
| StatsCounts.DensityMeanBetween | src/stats/mod.rs:272-275 | the mean per image lies between the least and the greatest count |
| StatsCounts.AreaDistribution | src/stats/mod.rs:287-313 | small, medium and large count the valid boxes with area below 1024, below 9216 and at least 9216; invalid counts the non-finite, unordered or zero-area boxes |
| StatsCounts.AreaBucketsTotal | src/stats/mod.rs:287-313 | the four area buckets partition the annotations |
| StatsCounts.BucketIndex | src/stats/mod.rs:349-359 | the bucket is one of five and the ratio lies between its lower edge and its upper edge |
| StatsCounts.BucketCounts | src/stats/mod.rs:318-361 | five counts, each the annotations whose ratio falls in that bucket |
| StatsCounts.AspectRatios | src/stats/mod.rs:316-375 | five buckets named `<0.5` to `>=5` in order, each counting the boxes whose ratio falls there, and invalid counting the boxes without a positive width, height and area |
| StatsCounts.AspectTotal | src/stats/mod.rs:316-375 | the five bucket counts and the invalid count add up to the annotations |
| StatsFormat.WithoutCommas | src/stats/report.rs:752-762 | the characters other than commas, with no comma left |
| StatsFormat.GroupedLength | src/stats/report.rs:755-760 | a non-empty digit string gains one comma per complete group of three after its first digit |
| StatsFormat.GroupedUngrouped | src/stats/report.rs:755-760 | removing the commas gives the digits back |
| StatsFormat.GroupedCommas | src/stats/report.rs:755-760 | counting from the right, exactly every fourth character is a comma |
| StatsFormat.FormatNumber | src/stats/report.rs:752-762 | the result is the grouped decimal digits of `n`: they come back when the commas are removed, and exactly every fourth character from the right is a comma |
| StatsFormat.PushGroups | src/stats/report.rs:755-760 | the loop builds the grouped digits reversed, a comma before every third character from the right |
| StatsFormat.FmtPercent | src/stats/report.rs:765-771 | `n/a` exactly for a zero denominator; otherwise the numerator's share times 100, within 0 to 100 when the numerator is at most the denominator |
| StatsFormat.PercentTenths | src/stats/report.rs:769 | the shown tenths of a percent are the exact value rounded down or up |
| StatsFormat.PercentTenthsError | src/stats/report.rs:769 | the shown tenths are off by at most half a tenth |
| StatsFormat.PercentTenthsNearest | src/stats/report.rs:769 | no other number of tenths is closer to the exact percentage |
| StatsFormat.PercentTenthsBound | src/stats/report.rs:769 | a share of at most the whole shows at most 100.0 |
| StatsFormat.FmtPercentText | src/stats/report.rs:765-771 | the text is `n/a` exactly for a zero denominator; otherwise it ends in a digit after a point and a `%` sign |
| StatsFormat.PercentTextWithin | src/stats/report.rs:769 | the shown percentage is within 0.05 of the exact one |
| StatsFormat.Repeat | src/stats/report.rs:781 | `n` copies of the character |
| StatsFormat.RenderBar | src/stats/report.rs:774-782 | empty for a zero maximum or width; otherwise `width` cells, cell `i` full exactly when `count` reaches `(i + 1) / width` of the maximum, the others light |
| StatsFormat.BarExtremes | src/stats/report.rs:779-781 | a count at or over the maximum fills every cell; a zero count fills none |
| StatsFormat.BarMonotone | src/stats/report.rs:779-781 | a larger count fills every cell a smaller one fills |
| StatsFormat.PadBar | src/stats/report.rs:785-789 | the bar followed by spaces up to `width + 2` characters, or the bar alone when it is longer |
| StatsFormat.PaddedBarWidth | src/stats/report.rs:774-789 | every padded bar is exactly `width + 2` characters, so the columns align |
| StatsFormat.CharBytes | src/stats/report.rs:793 | a character takes one to four bytes in UTF-8 |
| StatsFormat.CharsWithin | src/stats/report.rs:796 | the longest run of whole leading characters that fits in the byte budget |
| StatsFormat.TruncateLabelAsWritten | src/stats/report.rs:792-797 | a label within `max_len` bytes is kept; a longer one succeeds exactly when byte `max_len - 1` is a character boundary, and `max_len = 0` underflows |
| StatsFormat.TwoBytePanics | src/stats/report.rs:796 | a label of two-byte characters over the limit panics whenever `max_len - 1` is odd |
| StatsFormat.TruncateLabelPanics | src/stats/report.rs:796 | `ééééééééé` at `max_len = 16` panics |
| StatsFormat.TruncateLabel | src/stats/report.rs:792-797 | a label within `max_len` bytes is kept; a longer one becomes its longest whole-character prefix under `max_len` bytes followed by an ellipsis |
| StatsFormat.TruncateLabelAgrees | src/stats/report.rs:792-797 | wherever the code as written does not panic, it gives the boundary-safe label |
| StatsFormat.AsciiTruncation | src/stats/report.rs:792-797 | on an ASCII label the code as written never panics for `max_len ≥ 1` and shows at most `max_len` characters |
| StatsRanking.CategoryNames | src/stats/mod.rs:50-54 | the name map holds exactly the category ids, each with the name of a category of that id, the last one winning |
| StatsRanking.MissingLabelsDistinct | src/stats/mod.rs:105-108 | two unknown category ids never share a `<missing cat N>` label |
| StatsRanking.LabelsCount | src/stats/mod.rs:104-111 | a label occurs exactly when some annotation is counted under it |
| StatsRanking.LabelsMember | src/stats/mod.rs:104-111 | every annotation's label is among the counted labels |
| StatsRanking.TallyLabels | src/stats/mod.rs:102-111 | one counter for exactly the labels of the annotations, each the number counted under it |
| StatsRanking.Bump | src/stats/mod.rs:110 | the key's counter goes up by one, starting from zero; every other counter is unchanged |
| StatsRanking.LabelCountSum | src/stats/mod.rs:113-129 | the counts of distinct labels add up to the annotations counted under any of them |
| StatsRanking.RankPreorder | src/stats/mod.rs:114 | count descending then name ascending is a total preorder |
| StatsRanking.LabelRows | src/stats/mod.rs:113 | one row per label, carrying its counter |
| StatsRanking.LabelRowsFacts | src/stats/mod.rs:113 | every row carries its label's count, every label has a row, and the rows are distinct |
| StatsRanking.ComputeLabels | src/stats/mod.rs:97-138 | the entries are the first `min(top_n, distinct)` labels with their counts, distinct, sorted by count descending then name, every label left out ranks after them, and the entry counts plus `other_count` equal the annotation count |
| StatsRanking.RankedEntries | src/stats/mod.rs:113-127 | a prefix of the sorted rows has distinct labels and every label outside it ranks after all of it |
| StatsRanking.RowsTotal | src/stats/mod.rs:113-129 | the counts of all label rows add up to the annotation count |
| StatsRanking.LabelsTotal | src/stats/mod.rs:119-129 | for any cut point of a rearrangement of the rows, the counts before it and after it add up to the annotation count |
| StatsRanking.Areas | src/stats/mod.rs:403-421 | the valid areas counted under a label, each positive |
| StatsRanking.AggFacts | src/stats/mod.rs:394-422 | a label's aggregate has its annotation count, one valid count per valid area, their sum, and their minimum and maximum |
| StatsRanking.AggCount | src/stats/mod.rs:400-401 | the aggregate counts every annotation under the label, and stays empty for an unused label |
| StatsRanking.AggSum | src/stats/mod.rs:413-421 | the valid count and sum are those of the label's valid areas |
| StatsRanking.AggExtremes | src/stats/mod.rs:413-419 | once a valid area was seen, the aggregate's minimum and maximum are those of the valid areas |
| StatsRanking.MeanAreaBetween | src/stats/mod.rs:439-443 | the mean valid area lies between the least and the greatest |
| StatsRanking.CategoryPreorder | src/stats/mod.rs:447-451 | annotation count descending then category name is a total preorder |
| StatsRanking.UpdateAgg | src/stats/mod.rs:400-421 | the loop body performs one step of the aggregate definition |
| StatsRanking.TallyAreas | src/stats/mod.rs:392-422 | one aggregate for exactly the labels of the annotations, each equal to the aggregate definition |
| StatsRanking.CategoryRows | src/stats/mod.rs:424-445 | one row per category name |
| StatsRanking.CategoryRowsFacts | src/stats/mod.rs:424-445 | every row is the row of its label's annotations, every label has its row, and the rows are distinct |
| StatsRanking.PerCategoryBoxStats | src/stats/mod.rs:378-458 | `min(top_n, labels)` rows, each the row of its label's annotations (min, max and mean none exactly when no valid area), distinct categories, sorted by count descending then name, every category left out ranking after them |
| StatsRanking.RankedCategories | src/stats/mod.rs:447-457 | a prefix of the sorted rows has distinct categories and every category outside it ranks after all of it |
| StatsRanking.ImagesOf | src/stats/mod.rs:473-485 | the annotated image ids, each once |
| StatsRanking.NoImageLabels | src/stats/mod.rs:473-485 | an image no annotation refers to has no labels |
| StatsRanking.TallyImageLabels | src/stats/mod.rs:473-485 | every annotated image is mapped to exactly the set of its labels |
| StatsRanking.PairsOfCount | src/stats/mod.rs:490-496 | over a strictly ascending label list, each ordered pair of its labels occurs exactly once |
| StatsRanking.AddPairs | src/stats/mod.rs:491-496 | counts each pair of one image's label list once more and lists the new keys |
| StatsRanking.TallyPairs | src/stats/mod.rs:487-497 | every pair's counter is the number of images carrying both labels |
| StatsRanking.PairPreorder | src/stats/mod.rs:504-509 | count descending, then first label, then second label is a total preorder |
| StatsRanking.PairRows | src/stats/mod.rs:499-502 | one row per counted pair |
| StatsRanking.CountedPair | src/stats/mod.rs:487-497 | a pair's counter is its image count, and a pair carried by an image has its first label before the second |
| StatsRanking.PairRowsFacts | src/stats/mod.rs:499-502 | every row carries its pair's image count, every carried pair has a row, and no two rows share a pair |
| StatsRanking.CooccurrenceTopPairs | src/stats/mod.rs:461-516 | empty when `top_n` is zero; otherwise at most `top_n` distinct pairs with `a < b`, each with the number of images carrying both, sorted by count then labels, every pair left out ranking after them, and all pairs listed when fewer than `top_n` are shown |
| StatsRanking.RankedPairs | src/stats/mod.rs:504-513 | a prefix of the sorted rows keeps the counted pairs distinct, every pair left out ranks after them, and the whole ranking lists every pair |
| StatsRanking.PairsOutranked | src/stats/mod.rs:511-513 | a pair cut from the top ranks after every pair kept |
| StatsRanking.PairsComplete | src/stats/mod.rs:511-513 | when nothing is cut, every pair carried by an image is listed |
| Sample.ValidateSampleOptions | src/sample/mod.rs:40-72 | succeeds exactly for options with one of `n` and `fraction`, `n` positive and `fraction` in (0, 1]; both, neither and `n = 0` each fail with their own message |
| Sample.Ceil | src/sample/mod.rs:201 | the least integer not below the value |
| Sample.Clamp | src/sample/mod.rs:202 | the value forced into `1..=total`, unchanged when already inside |
| Sample.TargetImageCount | src/sample/mod.rs:192-207 | never above the total; zero for an empty dataset or no size; `min(n, total)` for a count; at least one for a fraction |
| Sample.TargetFromFraction | src/sample/mod.rs:200-203 | a fraction in (0, 1] gives the ceiling of total times fraction |
| Sample.TargetPositive | src/sample/mod.rs:192-207 | validated options and a non-empty dataset give a target between 1 and the total |
| Sample.RequestedMember | src/sample/mod.rs:110-115 | a name is requested exactly when it is the non-blank trim of a given category |
| Sample.SelectedIdsMember | src/sample/mod.rs:121-126 | an id is selected exactly when some category with that id has a requested name |
| Sample.SelectCategoryIds | src/sample/mod.rs:121-126 | the loop collects exactly the selected ids, which are empty exactly when no category name is requested |
| Sample.SelectedNone | src/sample/mod.rs:121-132 | no id is selected exactly when no category name is requested |
| Sample.ImagesWithMember | src/sample/mod.rs:136-141 | an image is kept in images mode exactly when it carries a selected-category annotation |
| Sample.ImageIdsOfMember | src/sample/mod.rs:166-167 | the image ids are exactly those the annotations refer to |
| Sample.ImagesOfSelected | src/sample/mod.rs:135-176 | the images of the selected annotations are the images with a selected annotation |
| Sample.Filtered | src/sample/mod.rs:135-188 | the filtered dataset keeps info, licenses and categories |
| Sample.FilterDatasetByCategories | src/sample/mod.rs:102-189 | an empty or blank request returns the dataset unchanged; it fails exactly when no category has a requested name; otherwise it is the filter of the mode |
| Sample.ImagesModeKeeps | src/sample/mod.rs:135-158 | images mode keeps exactly the images with a selected annotation and every annotation on them |
| Sample.AnnotationsModeKeeps | src/sample/mod.rs:159-178 | annotations mode keeps exactly the selected-category annotations and the images that still have one |
| Sample.ModesKeepSameImages | src/sample/mod.rs:135-178 | both modes keep the same images |
| Sample.SubsetByImageIds | src/sample/mod.rs:325-347 | keeps info, licenses and categories, and exactly the images and annotations whose image id is kept, in order |
| Sample.FilterFilter | src/sample/mod.rs:325-347 | filtering twice is filtering once by both conditions |
| Sample.SubsetTwice | src/sample/mod.rs:325-347 | taking two subsets in turn is the subset of the intersection of the kept ids |
| Sample.FilterSame | src/sample/mod.rs:325-347 | conditions that agree on the list filter it alike |
| Sample.SubsetAll | src/sample/mod.rs:325-347 | keeping every image id referred to leaves the dataset unchanged |
| Sample.RowPreorder | src/sample/mod.rs:216 | (file name, id) order is a total preorder |
| Sample.SortedImageIds | src/sample/mod.rs:209-218 | one id per image |
| Sample.SortedImageIdsPermutation | src/sample/mod.rs:209-218 | the sorted ids are a permutation of the dataset's image ids |
| Sample.SortedRowsOrdered | src/sample/mod.rs:216 | the rows are in (file name, id) order |
| Sample.SortIds | src/sample/mod.rs:237 | a sorted permutation of the ids |
| Sample.Swap | src/sample/mod.rs:228-234 | a swap of two positions is a permutation |
| Sample.ShuffleFrom | src/sample/mod.rs:228-234 | a shuffle pass is a permutation |
| Sample.Shuffle | src/sample/mod.rs:228-234 | the shuffle is a permutation |
| Sample.SelectImageIdsRandom | src/sample/mod.rs:221-239 | all ids in name order when `k` covers the dataset; otherwise `k` ids sorted ascending; always drawn from the dataset's ids |
| Sample.TakeSubMultiset | src/sample/mod.rs:236 | a truncated list holds a part of the original |
| Sample.RandomDistinct | src/sample/mod.rs:221-239 | for distinct image ids, the random selection has no repeats |
| Sample.SubMultisetDistinct | src/sample/mod.rs:221-239 | part of a list without repeats has no repeats |
| Sample.ImageCategories | src/sample/mod.rs:254-261 | each image's category ids, each once, exactly those of its annotations |
| Sample.RealSumPositive | src/sample/mod.rs:263-277 | a sum of positive weights is positive, and zero when empty |
| Sample.WeightPositive | src/sample/mod.rs:263-279 | an image's weight is nonnegative, and positive exactly when the image has an annotation |
| Sample.PrefixWeightMono | src/sample/mod.rs:306-313 | the running weight never decreases |
| Sample.PickWeighted | src/sample/mod.rs:303-315 | the pick is the first candidate whose running weight reaches the draw, or the last candidate when none does |
| Sample.PickHasWeight | src/sample/mod.rs:303-315 | a positive draw within the total weight never picks a weightless candidate |
| Sample.SwapRemove | src/sample/mod.rs:319 | removes exactly the picked candidate, one shorter |
| Sample.WeightedSample | src/sample/mod.rs:293-322 | selects `min(k, candidates)` ids, each removed from the candidates, so none twice |
| Sample.RemovedId | src/sample/mod.rs:319-320 | the selected id plus the remaining candidates' ids are the candidates' ids before the round |
| Sample.SelectImageIdsStratified | src/sample/mod.rs:242-291 | all ids in name order when `k` covers the dataset; otherwise `k` ids sorted ascending; always drawn from the dataset's ids |
| Sample.SampleDataset | src/sample/mod.rs:74-98 | invalid options fail with their validation error; otherwise it succeeds exactly when the category filter finds a requested category (or none is requested) and leaves an image, and fails only with a missing category or no images; a success is the subset by image ID of a selection of the target size from the filtered dataset: it keeps info, licenses and categories, is non-empty, takes only images and annotations of the dataset, and every annotation's image is in it |
| Sample.SampleFiltered | src/sample/mod.rs:78-98 | fails exactly when no image survives the filter, with that message; otherwise the subset by image ID of a selection of the target size, keeping info, licenses and categories; the zero-size failure of lines 85-89 cannot arise once the options are valid (`TargetPositive`) |
| Sample.FilterOutcome | src/sample/mod.rs:77 | the category filter succeeds exactly when no category is requested or some category has a requested name, and then yields the filtered dataset of the mode |
| Sample.SelectImageIds | src/sample/mod.rs:91-94 | for either strategy: all ids in name order when the target covers the dataset; otherwise exactly that many ids, sorted ascending, drawn from the dataset's ids; Random is `SelectImageIdsRandom` |
| Sample.FilteredWithin | src/sample/mod.rs:102-189 | a filter result keeps info, licenses and categories and only drops images and annotations |
| Sample.SelectedCount | src/sample/mod.rs:91-94 | a selection of a positive target from a non-empty dataset holds at least one id, each an image id of the dataset |
| Sample.SubsetFacts | src/sample/mod.rs:97-98 | the subset by selected ids is non-empty and every annotation's image is in it |
| Sample.SampleOfSelection | src/sample/mod.rs:97-98 | keeping the ids of a selection of a positive target gives a sample: non-empty, within the dataset, keeping info, licenses and categories, every annotation's image kept |
| Sample.SampleSize | src/sample/mod.rs:91-98 | with distinct image ids and a target not above the image count, a sample holds exactly the target number of images |
| Sample.KeptSize | src/sample/mod.rs:325-347 | keeping the images whose ids a repeat-free part of the distinct image ids lists keeps one image per listed id |
| Sample.FilterKeepsDistinctIds | src/sample/mod.rs:325-347 | filtering images with distinct ids keeps the ids distinct |
| Sample.DistinctSameSize | src/sample/mod.rs:96 | two repeat-free id lists with the same members have the same length |
| Diff.DefaultOptions | src/diff/mod.rs:30-40 | the defaults match by id, keep no detail, cap the detail at 20 items and use a positive box tolerance |
| Diff.ImageByName | src/diff/mod.rs:140-146 | an image is found exactly when some image has that file name, and it is one of them |
| Diff.AnnotationsOn | src/diff/mod.rs:148-154 | exactly the annotations on the image, in order |
| Diff.CategoryName | src/diff/mod.rs:156-161 | the category's name when the id is known, else `<missing cat N>` |
| Diff.BBoxEqEpsReflexiveSymmetric | src/diff/mod.rs:163-172 | a finite box is within any nonnegative tolerance of itself, and the relation is symmetric |
| Diff.HasLeast | src/diff/mod.rs:190-193 | a non-empty id set has a least element |
| Diff.LeastId | src/diff/mod.rs:190-193 | the least id of a non-empty set |
| Diff.SortedIds | src/diff/mod.rs:190-193 | the ids of a set in strictly increasing order, each once |
| Diff.WithId | src/diff/mod.rs:185-188 | an annotation is found exactly when one has that id, and it has the id |
| Diff.ModifiedEntries | src/diff/mod.rs:197-230 | at most one detail entry per shared id |
| Diff.EntriesStep | src/diff/mod.rs:197-230 | one more shared id adds its own entry, if any, at the end |
| Diff.PushAllStep | src/diff/mod.rs:220-228 | one more entry is pushed when the list is not full |
| Diff.ModifiedEntriesIff | src/diff/mod.rs:207-229 | an id has a detail entry exactly when it is shared and its category name differs or some coordinate differs by more than `eps` |
| Diff.PushAllTruncates | src/diff/mod.rs:220-228 | pushing with the cap keeps the first `max_items` entries of everything pushed |
| Diff.DiffAnnotationsById | src/diff/mod.rs:175-234 | the counts grow by the id intersection and the two differences, and the modified count by the shared ids that differ; the detail list grows by their entries in id order while it is shorter than `max_items` |
| Diff.ModifiedPass | src/diff/mod.rs:197-231 | after the loop over the shared ids, the modified count is the number of entries for the modified ones and the detail list (when kept) is those entries pushed in id order under the cap |
| Diff.ByIdIdentical | src/diff/mod.rs:175-234 | comparing a list of finite boxes with itself leaves nothing only on one side and nothing modified |
| Diff.NoEntries | src/diff/mod.rs:207-229 | ids whose annotations agree give no entries |
| Diff.CountIfUpdate | src/diff/mod.rs:282-292 | marking an unmatched B annotation as used lowers the unmatched count by one |
| Diff.Pick | src/diff/mod.rs:266-280 | the scanned candidate, if any, is an unmatched B annotation before the scan position |
| Diff.PickIsBest | src/diff/mod.rs:266-280 | the scan finds nothing exactly when every B annotation so far is matched; otherwise it finds an unmatched one whose IoU no other unmatched one exceeds and that every earlier unmatched one falls strictly below (the first maximum wins ties) |
| Diff.BestFreeUnique | src/diff/mod.rs:266-280 | the first unmatched B annotation of highest IoU is unique |
| Diff.BestUnmatched | src/diff/mod.rs:266-280 | the loop returns the scan's candidate: none exactly when every B annotation is matched, otherwise the first unmatched one of highest IoU, together with its IoU |
| Diff.Step | src/diff/mod.rs:264-290 | one A annotation appends one entry to the greedy record and keeps the flag list's length |
| Diff.GreedyPass | src/diff/mod.rs:262-290 | after `i` A annotations the greedy record has `i` entries and one flag per B annotation |
| Diff.GreedyChoice | src/diff/mod.rs:264-290 | the `i`-th A annotation is matched to the first unmatched B annotation of highest IoU when that IoU reaches the threshold, and is left unmatched only when every unmatched B annotation falls below the threshold |
| Diff.GreedyPrefix | src/diff/mod.rs:264-290 | later A annotations never revise an earlier choice |
| Diff.Pairs | src/diff/mod.rs:281-284 | at most one matched pair per A annotation |
| Diff.PairsExact | src/diff/mod.rs:281-284 | the pairs are exactly the A annotations the greedy record matched, each with its B annotation |
| Diff.StepTakes | src/diff/mod.rs:281-284 | a match at or above the threshold flags its B annotation and appends that one pair |
| Diff.StepSkips | src/diff/mod.rs:285-290 | no candidate, or one below the threshold, leaves the flags and the pairs unchanged |
| Diff.StepCount | src/diff/mod.rs:281-292 | one step keeps matched pairs plus unmatched B annotations equal to the B annotations |
| Diff.StepPairsSoFar | src/diff/mod.rs:264-290 | one step keeps every pair in range, at or above the threshold, in A order and on distinct, flagged B annotations |
| Diff.GreedyPairs | src/diff/mod.rs:262-290 | after any number of A annotations the pairs are in range, at or above the threshold, in A order and on distinct, flagged B annotations |
| Diff.GreedyCount | src/diff/mod.rs:262-292 | after any number of A annotations, matched pairs plus unmatched B annotations are the B annotations |
| Diff.CategoryCounts | src/diff/mod.rs:262-292 | the greedy counts of one category: nothing modified, shared plus only-in-A is the A annotations and shared plus only-in-B the B annotations |
| Diff.SingleMatch | src/diff/mod.rs:329-343 | one A and one B annotation whose IoU reaches the threshold count as one shared and nothing else |
| Diff.MatchCategory | src/diff/mod.rs:262-292 | the counts are those of the greedy pass, and its matched pairs, as many as the shared count, pair distinct B annotations in A order with IoU at least the threshold |
| Diff.MatchAll | src/diff/mod.rs:264-290 | the loop over the A annotations leaves the flags and pairs of the greedy pass; shared counts the pairs and only-in-A the rest of the A annotations |
| Diff.GreedyTotals | src/diff/mod.rs:262-292 | the greedy counts are the pair count, the unmatched A annotations and the unflagged B annotations |
| Diff.GreedyOneToOne | src/diff/mod.rs:262-290 | the greedy pass's pairs form a one-to-one matching at or above the threshold |
| Diff.PairsSkip | src/diff/mod.rs:285-290 | an unmatched A annotation keeps the pairs valid |
| Diff.CountUnmatched | src/diff/mod.rs:294 | the number of B annotations left unmatched |
| Diff.CountAllUnmatched | src/diff/mod.rs:262 | a fresh list of flags counts every B annotation as unmatched |
| Diff.PlusAssociative | src/diff/mod.rs:283-292 | adding counts in turn does not depend on grouping |
| Diff.IouCountsStep | src/diff/mod.rs:258-293 | one more category adds its greedy counts |
| Diff.IouCountsGroups | src/diff/mod.rs:244-293 | summed over categories, shared plus only-in-A is the A group sizes and shared plus only-in-B the B group sizes |
| Diff.ByIouConserves | src/diff/mod.rs:236-294 | by IoU nothing is modified; shared plus only-in-A is the A annotations and shared plus only-in-B the B annotations |
| Diff.SingleAnnotationEach | src/diff/mod.rs:329-343 | one annotation on each side in the same category with IoU at least the threshold count as one shared and nothing else |
| Diff.SingleGroup | src/diff/mod.rs:244-254 | one annotation forms the one group of its category |
| Diff.DiffAnnotationsByIou | src/diff/mod.rs:236-294 | the counts grow by the greedy counts of every category named on either side; hence nothing is modified, shared plus only-in-A grows by the A annotations and shared plus only-in-B by the B annotations |
| Diff.NamesCover | src/diff/mod.rs:244-260 | the groups over the category names either side uses partition each side |
| Diff.OccursOnce | src/diff/mod.rs:256 | a name in the list without repeats occurs once |
| Diff.NeverOccurs | src/diff/mod.rs:256 | a name outside the list does not occur |
| Diff.GroupSizesSnoc | src/diff/mod.rs:247-254 | one more annotation grows its own category's group |
| Diff.GroupsPartition | src/diff/mod.rs:244-260 | when every used name is listed once, the groups' sizes add up to the annotations |
| Diff.EmptyGroups | src/diff/mod.rs:244-260 | no annotations give empty groups |
| Diff.PushAllAppend | src/diff/mod.rs:96-123 | pushing two lists in turn is pushing their concatenation |
| Diff.SharedStep | src/diff/mod.rs:96-123 | one more shared name adds its own counts by id and by IoU, its entries and its annotations |
| Diff.PushAllBounded | src/diff/mod.rs:220-228 | the detail list never grows past `max_items` |
| Diff.IouTotalsConserve | src/diff/mod.rs:96-123 | by IoU over any names, nothing is modified and each side's annotations are shared or only on that side |
| Diff.DiffShared | src/diff/mod.rs:96-123 | by id, the counts are the totals over the shared names and the detail is their capped entries; by IoU, the counts are the greedy totals over the shared names, nothing is modified and each side's annotations are shared or only on that side |
| Diff.CountOnly | src/diff/mod.rs:125-134 | the annotations on the images of the names |
| Diff.DiffAnnotations | src/diff/mod.rs:96-134 | the shared-image counts (by id, or the greedy IoU totals) plus every annotation of a one-sided image as only on its side; the detail exists exactly when asked for and holds at most `max_items` entries |
| Diff.DiffDatasets | src/diff/mod.rs:43-138 | image counts are the intersection and differences of the file-name sets, category counts those of the name sets, annotation counts the id or greedy IoU totals over shared images plus the one-sided images' annotations, and the detail lists the one-sided names in order with at most `max_items` modified annotations |
| Diff.IdenticalDatasets | src/diff/mod.rs:43-138 | a dataset of finite boxes compared with itself by id has nothing only on one side and nothing modified |
| Diff.IdenticalTotals | src/diff/mod.rs:96-123 | over any names, comparing a dataset of finite boxes with itself by id has nothing only on one side and nothing modified |
| Cli.AsConcrete | src/lib.rs:149-161 | no concrete format exactly for `auto` |
| Cli.AsConcreteBijective | src/lib.rs:149-161 | distinct concrete choices name distinct formats, and every format is named by some choice |
| Cli.ParseCategoriesArg | src/lib.rs:933-940 | no argument gives no names, and no name is empty |
| Cli.CategoriesArgMembers | src/lib.rs:933-940 | a name is kept exactly when it is the non-empty trim of some comma-separated piece, and every name is trimmed |
| Cli.CategoriesArgRoundTrip | src/lib.rs:933-940 | joining trimmed, comma-free, non-empty names with commas and parsing gives them back |
| Cli.ValidateHfFlagUsage | src/lib.rs:1003-1044 | accepts exactly the consistent flag sets: HF flags only with HF involved, `--hf-repo` only with `--from hf`, `--revision`/`--config` only with `--hf-repo`, and `--from hf` only with an input or a repo; the first rule broken is reported |
| Cli.EnsureUniqueImageFileNames | src/lib.rs:1046-1059 | succeeds exactly when the file names have no repeats; a failure names the side and a file name that occurs twice |
| Cli.NormalizeSplitHint | src/lib.rs:1252-1261 | `val`, `valid` and `validation` in any case become `validation`; anything else is lowercased |
| Cli.AsciiLowerIdempotent | src/lib.rs:1253-1259 | lowercasing twice is lowercasing once |
| Cli.NormalizeSplitHintIdempotent | src/lib.rs:1252-1261 | normalising twice changes nothing, and the result holds no ASCII capital |
| Cli.DetectDirFormat | src/lib.rs:1372-1460 | succeeds exactly when one layout matches, with that format; two matches fail naming two matching formats; none fails as unrecognised |
| Cli.DetectObjectRoot | src/lib.rs:1566-1636 | an object root is only ever detected as COCO or IR JSON |
| Cli.DetectJsonFormat | src/lib.rs:1551-1636 | an array root is Label Studio exactly when it is empty or its first task has a string `data.image`; an object root goes to the box heuristic (with lines 1665-1678) |
| Cli.DetectCocoIff | src/lib.rs:1596-1609 | an object root is COCO exactly when its first annotation's box is an array of four numbers |
| Cli.DetectIrJsonIff | src/lib.rs:1611-1629 | an object root is IR JSON exactly when its first annotation's box is an object with `min` and `max` or the four corner keys |
| Cli.DetectJsonFormats | src/lib.rs:1538-1636 | JSON detection only answers Label Studio, COCO or IR JSON |
| Cli.ValidationGate | src/lib.rs:664-676 | passes exactly when there is no error and, under `--strict`, no warning; a failure carries both counts |
| Cli.LossyGate | src/lib.rs:596-602 | passes exactly when `--allow-lossy` is given or every issue is informational; a failure names both formats (with lines 853-859) |
| Grouping.GroupIsFilter | src/ir/io_voc_xml.rs:160-188 | an image's group holds exactly its annotations, in their original order |
| Grouping.Taken | src/ir/io_voc_xml.rs:201 | removing an image's group empties it and leaves every other group as it was |
| Grouping.ImageAnnotationsOrder | src/ir/io_voc_xml.rs:201-202 | the annotations written for an image are exactly its own, sorted by id |
| Grouping.SortedImageNames | src/ir/io_voc_xml.rs:190-191 | the images are written in ascending file-name order, with the dataset's own names |
| Grouping.SortedImageIdsDistinct | src/ir/io_voc_xml.rs:190-191 | sorting by file name keeps distinct image ids distinct |
| Grouping.GroupOfGrouped | src/ir/io_voc_xml.rs:184-202 | before anything is taken out, an image's sorted group is its annotations sorted by id |
| Grouping.RefError | src/ir/io_voc_xml.rs:161-182 | an annotation passes exactly when its image and its category exist; the image is checked first |
| Grouping.FirstRefErrorSound | src/ir/io_voc_xml.rs:161-188 | there is no error exactly when every annotation passes, and an error is that of the first failing annotation |
| Grouping.FirstRefErrorPersists | src/ir/io_voc_xml.rs:161-188 | once a prefix has an error, the whole list has that same error |
| Grouping.GroupAnnotations | src/ir/io_voc_xml.rs:160-188 | fails exactly with the first annotation's missing image or category; otherwise the annotations grouped by image |
| Grouping.CategoryNameByIdSound | src/ir/io_voc_xml.rs:154-158 | a category id has a name exactly when some category has that id, and the name is that of the last such category |
| Grouping.GroupKnown | src/ir/io_voc_xml.rs:173-188 | after the reference check every grouped annotation's category has a name |
| Grouping.TakenKnown | src/ir/io_voc_xml.rs:201 | taking a group out keeps the remaining groups' categories named |
| Grouping.GroupOfKnown | src/ir/io_voc_xml.rs:201-202 | an image's written group names only named categories |
| ProptestHelpers.EpsYolo | tests/proptest_helpers/mod.rs:18-20 | the YOLO tolerance is a millionth of the larger image side |
| ProptestHelpers.EpsYoloForDataset | tests/proptest_helpers/mod.rs:22-28 | at least `1e-9`, at least every image's tolerance, and either `1e-9` or one image's tolerance |
| ProptestHelpers.SeedCorners | tests/proptest_helpers/mod.rs:368-372 | for sides of at least 2, `0 ≤ xmin < xmax ≤ width` and `0 ≤ ymin < ymax ≤ height`, with `xmin = sx mod (width − 1)` and `ymin = sy mod (height − 1)` |
| ProptestHelpers.BBoxFromSeed | tests/proptest_helpers/mod.rs:368-375 | the box is finite, non-degenerate and inside the image frame |
| ProptestHelpers.ImageAt | tests/proptest_helpers/mod.rs:310-316 | the image at position `i` has id `i + 1`, the `i`-th file name and its size |
| ProptestHelpers.ImageRows | tests/proptest_helpers/mod.rs:304-316 | one image per entry of the map, ids `1..n`, names from the map, and sides of at least 2 when the map's are |
| ProptestHelpers.CategoryRows | tests/proptest_helpers/mod.rs:307-322 | one category per name, ids `1..k`, names in ascending order |
| ProptestHelpers.CoverageLen | tests/proptest_helpers/mod.rs:324-328 | with coverage, at least the number of images and of categories; otherwise zero |
| ProptestHelpers.PickIndex | tests/proptest_helpers/mod.rs:335-344 | a position in range, equal to the annotation's own position while it is inside the coverage length |
| ProptestHelpers.AnnotationRows | tests/proptest_helpers/mod.rs:330-357 | one annotation per seed, each with the picked image, category and seeded box |
| ProptestHelpers.BuildDataset | tests/proptest_helpers/mod.rs:298-366 | one image per map entry, one category per name, one annotation per seed, default info and no licenses |
| ProptestHelpers.BuildDatasetParts | tests/proptest_helpers/mod.rs:298-366 | the dataset is assembled from the image rows, the category rows and the annotation rows over them |
| ProptestHelpers.AnnotationsReferenceRows | tests/proptest_helpers/mod.rs:330-357 | annotation ids are `1..m` and every annotation references an image in `1..n` and a category in `1..k` |
| ProptestHelpers.AnnotationsInFrame | tests/proptest_helpers/mod.rs:346-355 | every box is finite, non-degenerate and inside the image it references |
| ProptestHelpers.AnnotationsCoverImages | tests/proptest_helpers/mod.rs:335-339 | with coverage and enough seeds, the `i`-th annotation is on the `i`-th image |
| ProptestHelpers.AnnotationsCoverCategories | tests/proptest_helpers/mod.rs:340-344 | with coverage and enough seeds, the `i`-th annotation has the `i`-th category |
| ProptestHelpers.BuiltCoverage | tests/proptest_helpers/mod.rs:324-345 | with coverage and at least `max(n, k)` seeds, every image and every category is referenced |
| ProptestHelpers.SemOf | tests/proptest_helpers/mod.rs:67-90 | an annotation has semantics exactly when its image and its category exist |
| ProptestHelpers.SemList | tests/proptest_helpers/mod.rs:66-92 | the list exists exactly when every annotation has semantics, one per annotation in order |
| ProptestHelpers.AnnSemOrder | tests/proptest_helpers/mod.rs:421-429 | the comparison by file, category and corners is a total order |
| ProptestHelpers.AnnSemantics | tests/proptest_helpers/mod.rs:54-95 | exists exactly when every reference resolves, and is then the semantics of all annotations sorted by the comparison |
| ProptestHelpers.AnnSemanticsCanonical | tests/proptest_helpers/mod.rs:93 | datasets with the same semantics as multisets get the same sorted list |
| ProptestHelpers.NumberedSemantics | tests/proptest_helpers/mod.rs:54-95 | rows numbered from 1 with references in range give one semantic entry per annotation |
| ProptestHelpers.BuiltSemantics | tests/proptest_helpers/mod.rs:298-366 | a built dataset's semantics exist, one per seed |
| ProptestHelpers.UnmatchableRefused | tests/proptest_helpers/mod.rs:380-406 | an entry that approximately equals nothing in the superset rules out every matching |
| ProptestHelpers.MatchingFits | tests/proptest_helpers/mod.rs:377-410 | a matching uses each superset entry at most once, so the subset is no longer |
| ProptestHelpers.AssertSemanticsSubset | tests/proptest_helpers/mod.rs:377-410 | success comes with a matching where each entry takes the first unused approximately equal superset entry, each used once; a failure names an entry of the subset, and then no such first-fit matching exists |
| ProptestHelpers.FirstFree | tests/proptest_helpers/mod.rs:381-390 | the found entry is unused, approximately equal, and every earlier approximately equal entry is used; nothing is found only when every approximately equal entry is used |
| ProptestHelpers.MatchedSnoc | tests/proptest_helpers/mod.rs:392-393 | marking the first free match as used extends a first-fit matching by one entry |
| ProptestHelpers.FirstFitStep | tests/proptest_helpers/mod.rs:380-393 | two first-fit matchings that agree on the earlier entries choose the same superset entry for the next one |
| ProptestHelpers.FirstFitPrefix | tests/proptest_helpers/mod.rs:380-393 | every first-fit matching repeats the choices made so far by the loop |
| ProptestHelpers.NoMatchRefused | tests/proptest_helpers/mod.rs:395-406 | an entry whose approximate partners are all taken rules out every first-fit matching |
| ProptestHelpers.DistinctFresh | tests/proptest_helpers/mod.rs:392-393 | a superset entry, once marked used, is not chosen again |
| ProptestHelpers.AssertAnnotationsEquivalent | tests/proptest_helpers/mod.rs:97-112 | fails with the first missing semantics, then on a length mismatch; success means equal lengths and a first-fit matching in both directions, and a failure with both semantics present means no such pair of matchings exists |
| ProptestHelpers.AssertAnnotationsSubset | tests/proptest_helpers/mod.rs:114-118 | fails with the first missing semantics; success means a first-fit matching of the subset into the superset, and a failure with both semantics present means none exists |
| DatasetGenerator.UniformBounds | scripts/dataset_generator.py:43-48 | a uniform draw over `[a, b]` stays inside `[a, b]` |
| DatasetGenerator.GenerateBBox | scripts/dataset_generator.py:40-50 | for unit draws, width and height lie between 10% and 30% of the image side and the box stays inside the image |
| DatasetGenerator.TfodBBoxInverse | scripts/dataset_generator.py:52-65 | scaling the normalised corners back by the image sides gives the COCO box's corners |
| DatasetGenerator.TfodBBoxInUnitSquare | scripts/dataset_generator.py:52-65 | a box inside the image has normalised corners in `[0, 1]`, min before max |
| DatasetGenerator.Pad6 | scripts/dataset_generator.py:75 | zero padding to width 6: six characters, or the digits unchanged when longer |
| DatasetGenerator.ImageNameNumber | scripts/dataset_generator.py:75 | the image number reads back from the padded digits of `image_NNNNNN.jpg` |
| DatasetGenerator.ImageNamesDistinct | scripts/dataset_generator.py:75 | distinct image IDs give distinct file names |
| DatasetGenerator.GenerateCocoDataset | scripts/dataset_generator.py:67-119 | `N` images with IDs `1..N`, `N·k` annotations fixed by the draws, the five categories and the one dummy license |
| DatasetGenerator.AnnotateImage | scripts/dataset_generator.py:85-102 | after image `i` the annotation list holds exactly the first `i·k` generated annotations, in order |
| DatasetGenerator.GeneratedAnnotations | scripts/dataset_generator.py:71-102 | annotation IDs run `1..N·k`, each on an image in `1..N`, area width·height, not a crowd, category in `1..5`, and inside the image for unit draws |
| DatasetGenerator.OwnedBlock | scripts/dataset_generator.py:73-102 | image `i` owns exactly the annotations at positions `(i−1)·k .. i·k−1` |
| DatasetGenerator.GeneratedImages | scripts/dataset_generator.py:73-83 | image IDs are `1..N` and all file names are distinct |
| DatasetGenerator.FileNameOf | scripts/dataset_generator.py:129 | a file name is found exactly when some image has that ID |
| DatasetGenerator.CategoryNameOf | scripts/dataset_generator.py:126 | a class name is found exactly for the category IDs `1..5` |
| DatasetGenerator.FirstSeen | scripts/dataset_generator.py:132-137 | the image IDs in order of first appearance: every annotated image once and nothing else |
| DatasetGenerator.GroupOf | scripts/dataset_generator.py:132-137 | an image's group holds exactly the annotations on that image |
| DatasetGenerator.GroupByImage | scripts/dataset_generator.py:132-137 | the dictionary's key order is the first-seen order and each key maps to its group in input order |
| DatasetGenerator.GroupCsvRows | scripts/dataset_generator.py:144-157 | the rows of one group, or the first missing category |
| DatasetGenerator.GenerateTfodCsv | scripts/dataset_generator.py:121-159 | the rows group by group in first-seen order, or the first missing image or category |
| DatasetGenerator.MapRows | scripts/dataset_generator.py:144-157 | one row per annotation |
| DatasetGenerator.GroupedFlatten | scripts/dataset_generator.py:132-140 | when each image's annotations are adjacent, grouping and flattening gives back the input order |
| DatasetGenerator.ContiguousRows | scripts/dataset_generator.py:121-159 | for adjacent groups with resolvable references, the CSV has one row per annotation in input order |
| DatasetGenerator.GeneratedCsvRows | scripts/dataset_generator.py:67-159 | the CSV of a generated dataset never fails and has its rows in annotation order |
| DatasetGenerator.GeneratedCsvRow | scripts/dataset_generator.py:121-159 | the `j`-th CSV row has the image's file name, the drawn class, the image sides and the normalised corners of annotation `j` |
| DatasetGenerator.GeneratedCategory | scripts/dataset_generator.py:88 | each annotation's category is the one `random.choice` picked |
| DatasetGenerator.OwnerInRange | scripts/dataset_generator.py:73-102 | every annotation references an existing image |

## Left out

- File-system I/O is not modelled: directory walks, file reads and writes, image-size probes and `find_image_for_label`. Their results are inputs to the model: sorted file lists, file contents, probed sizes, and a lookup parameter.
- Text parsing of JSON, XML, CSV and YAML is not modelled. The readers start from the parsed JSON value, XML element tree or CSV rows, and the writers end at the printed value or tree.
- Floating point: `f64` is modelled as `real`, with a `finite` flag on boxes. The number parser is a parameter that yields finite values only. So `NaN`, `inf` and overflowing literals such as `1e309` are never read, and the non-finite boxes they would carry into the IR are not modelled. Validation still handles a box whose flag says non-finite.
- `CocoJson.CocoAnnotationRoundTrip`: the `{:.6}` text of a given `area` and the `f64` parse of it are parameters (`formatArea`, `parseF64`), so the lemma returns the area as that text parsed again. It does not compute the six-decimal rounding (0.1234567 comes back as 0.123457).
- `CocoJson.WriteAnnotation`: `x + w == xmax` is stated over the reals. The `f64` rounding of `xmin + (xmax - xmin)` is not modelled.
- `TfodCsv.IrToTfod`: on an image of width or height 0 the source divides by zero and writes NaN or infinity. The model's rows hold plain reals, and `BBoxes.ToNormalized` then yields a non-finite box whose coordinates are written as 0.
- `YoloWrite.WriteYoloDir`: the same gap as `TfodCsv.IrToTfod` for an image of width or height 0. The `{:.6}` formatting of the label numbers is not modelled either; lines carry the values.
- `YoloRoundTrip.LineRoundTrip`: the YOLO round trip is proved per label line. It holds under `CxcywhInverse`, a stated law between the `to_cxcywh` and `from_cxcywh` parameters, and assumes the reader parses the written line back. No dataset-level YOLO write-then-read round trip is proved. The reader renumbers images by path and rebuilds the categories from the class map; that whole-directory proof is beyond this model.
- `VocWrite.WriteVocDir`: no VOC write-then-read round trip is proved, and neither is the dropping of unused categories on the way back. The writer's facts (`VocWrite.WriteVocFiles` and `VocWrite.WriteVocDocuments`) and the reader's facts are proved separately.
- `CvatWriteFacts.ReaderBoxWrittenBack`: the CVAT round trip is stated per box. No dataset-level CVAT round trip is proved.
- `LabelStudioRoundTrip.WrittenTaskReadsBack`: the Label Studio round trip is stated per task. The document-level reading re-sorts, renumbers IDs and rebuilds categories, and is not proved to give the dataset back.
- The Label Studio rotation envelope is a parameter. So is the float formatter the writer uses (`formatF64`).
- The Hugging Face writer prints a non-finite coordinate as `null`. This is modelled as a missing box (`None`).
- `read_split_rows`, JSONL line parsing and `discover_jsonl_split_dirs` in the Hugging Face reader are not modelled. The image-size probe is a parameter. `as_f64` rounding of large integers is not modelled.
- Hub API calls, HTTP and downloads in the Hugging Face helpers are inputs. Hub paths are taken as well formed. The JSON printing of rows is not modelled.
- `DatasetInfo::is_empty`, `from_cxcywh`, `to_cxcywh` and `iou` are not part of this model. They are parameters.
- The `attributes` maps on `DatasetInfo` and `Image` are not declared in `src/ir/model.rs`, yet the VOC, CVAT and Hugging Face adapters and `src/lib.rs` read and write them. The model follows the adapters and gives both records an `attributes: map<string, string>`.
- The texts of validation and conversion messages are not modelled; issues carry their codes and data. The validation options' `strict` flag is unused in the source and is absent.
- `Diff.DiffDatasets`: the IoU is a parameter. Shared categories are visited in sorted order rather than `HashSet` order; no count depends on that order.
- `Sample.Shuffle`: the random number generator is replaced by an abstract stream of draws (`draws: nat -> nat`). `units` stands for the `rng.random::<f64>()` values. Which draws a seed yields is not modelled.
- Sample's stratified per-category tallies are modelled as counting functions rather than as `HashMap` updates.
- `StatsFormat.FmtPercent`: the one-decimal `format!` rounding is modelled as rounding to tenths over the reals.
- The boxed text report of the statistics (`Display` and the `fmt_*` layout) and the assembly in `stats_dataset` are not modelled as members. Each section's computation and its number formatting are.
- The command-line argument parsing, `detect_xml_format`, the file-extension dispatch of `detect_format` and the `run_*` orchestration are not modelled. The file-layout facts that `Cli.DetectDirFormat` decides on are inputs.
- `ProptestHelpers.BuildDataset`: the proptest strategies are parameters (seeds and maps). Image sizes are at least 2, as the strategies generate. `total_cmp` is modelled as the order on reals.
- `DatasetGenerator.GenerateCocoDataset`: `random` is replaced by per-annotation draws (four unit reals and a choice index). The wall-clock timestamps and the file output are left out, and so are the constant `info` block (scripts/dataset_generator.py:106-112) and the empty `"segmentation"` list of each annotation (scripts/dataset_generator.py:100). The counts in `Config` are `nat`, so a negative `--num_images`, for which `range` yields no images, is not representable.

## Findings

| source | as written | input that shows it | evidently intended | confidence | as-written member | corrected member |
|---|---|---|---|---|---|---|
| src/stats/report.rs:792-797 | a label longer than `max_len` bytes is cut with the byte slice `&label[..max_len - 1]` | `"ééééééééé"` (18 bytes) with `max_len = 16`: byte 15 falls inside a character, so the slice panics; `max_len = 0` underflows | cut at the last character boundary below `max_len` bytes, then add the ellipsis | not executed | StatsFormat.TruncateLabelAsWritten (counterexample StatsFormat.TruncateLabelPanics) | StatsFormat.TruncateLabel |
