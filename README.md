# Attribute bounding-box head, modelled in Dafny

This project models the bookkeeping core of `AttributeBBoxHead`. That is the
second-stage detection head that predicts, for every region of interest, a
class, a box regression and three categorical attributes: face, colour and
motion. The model also covers the module's `multiclass_nms` helper. Tensors
become sequences. Scores, weights and coordinates become exact `real`s. The core mostly
compares them, copies them and assigns constants to them. The one product it
forms, scores times score factors at line 554, is exact in the model, where
the code rounds to float32 (see "## Left out"). The box
coder, the loss functions, the accuracy metric and `batched_nms` are external
collaborators, so they become parameters or symbolic records. The module
never imports `batched_nms`, so as written `multiclass_nms` raises NameError
once a candidate survives (see Findings). `MulticlassNms` models the
intended call, with the NMS as a parameter.

Modules, one file each:

- `Common` (`common.dfy`) holds the shared values:
  - `Option` and `Result`;
  - 4-column rows (`Quad`);
  - regions with or without a leading image id (`Roi`);
  - score matrices (`Matrix`);
  - the box coder, as a pair of functions.
- `Tensors` (`tensors.dfy`) holds the tensor idioms the head is written in:
  - row-major flattening, which is `reshape(-1)` and `torch.cat`;
  - `nonzero`;
  - index gathering;
  - boolean-mask selection.
  It also proves the flat-index arithmetic these rely on.
- `Head` (`head.dfy`) holds the head's configuration, its construction and
  the width of its box-regression output.
- `Targets` (`targets.dfy`) covers `_get_target_single` and `get_targets`:
  - `GetTargetSingle` is imperative. It preallocates arrays with the
    background value and overwrites the positive prefix and the negative
    suffix in place.
  - It is proved equal to `AssignTargets`, the specification function.
  - The batch concatenation is proved to place image `j`'s region `i` at
    `Offset(j) + i`.
- `Loss` (`loss.dfy`) covers `loss`:
  - the key-by-key construction of the loss mapping;
  - the averaging factor;
  - the selection of positive rows, and of each row's class-specific 4-column
    group of the box prediction.
  The colour entry is stored under the key `colour_face`, as the source writes
  it. The motion entry is built with `motion_weights` (see Findings).
- `Nms` (`nms.dfy`) covers `multiclass_nms`. It fails the initial reshape for
  per-class boxes of no regions, drops the background column,
  lays the (region, class) pairs out row-major, keeps the pairs scoring
  strictly above the threshold, applies score factors after thresholding,
  returns early when nothing survives, and truncates only for a positive
  `max_num`.
- `Refine` (`refine.dfy`) covers `regress_by_class` and `refine_bboxes`:
  - `RefineBboxes` is a loop over images. It builds each image's keep mask in
    an array, all ones with the flagged prefix overwritten.
  - It is proved against the per-image specification `RefinedImage`.

Points where the code does something easy to misread, modelled as the code
does it:

- **Truncation.** `multiclass_nms` truncates only for `max_num > 0` (line
  569). So `0` means "no limit", like the default `-1` that its docstring
  documents (lines 517-518).
- **Indices returned by NMS.** With `return_inds`, the returned indices are
  `keep` as `batched_nms` reports it (lines 567-574). They are positions
  among the survivors, not flat pre-threshold indices. The docstring (lines
  521-522) calls them "the indices of kept bboxes".
- **Accuracy.** Accuracy is computed over all regions (line 264), not over the
  positive ones.
- **Image ids.** `refine_bboxes` only checks that the number of distinct
  truncated image ids is at most the number of images (lines 433-434).

## Model

| member | source | states |
|---|---|---|
| Head.BuildAsWritten | mmdet/models/roi_heads/bbox_heads/attribute_bbox_head.py:62 | construction as written always fails with a NameError on `BBoxHead` |
| Head.Build | mmdet/models/roi_heads/bbox_heads/attribute_bbox_head.py:62-78 | intended construction succeeds iff at least one of the five outputs is enabled, and then keeps the settings |
| Head.BuildDiscrepancy | mmdet/models/roi_heads/bbox_heads/attribute_bbox_head.py:62-63 | every configuration the assertion accepts builds under the intended constructor and fails as written |
| Head.RegWidth | mmdet/models/roi_heads/bbox_heads/attribute_bbox_head.py:96-98 | the box prediction has one 4-column group per class, or a single group when class-agnostic |
| Tensors.Nonzero | mmdet/models/roi_heads/bbox_heads/attribute_bbox_head.py:555 | `nonzero` lists exactly the positions where the mask holds, strictly increasing |
| Tensors.FlattenRectAt | mmdet/models/roi_heads/bbox_heads/attribute_bbox_head.py:541-543 | row-major flattening of width-`w` rows puts column `k % w` of row `k / w` at flat position `k` |
| Tensors.NonzeroMonotone | mmdet/models/roi_heads/bbox_heads/attribute_bbox_head.py:546 | a mask that holds in fewer places selects no more positions |
| Tensors.CountTrue | mmdet/models/roi_heads/bbox_heads/attribute_bbox_head.py:256 | the number of positions a mask holds at never exceeds its length |
| Tensors.NonzeroCount | mmdet/models/roi_heads/bbox_heads/attribute_bbox_head.py:546 | `nonzero` returns exactly one index per position the mask holds at |
| Targets.PosWeight | mmdet/models/roi_heads/bbox_heads/attribute_bbox_head.py:170 | the positive weight is the configured one when it is positive and 1 otherwise; it is always positive |
| Targets.PosBboxTargets | mmdet/models/roi_heads/bbox_heads/attribute_bbox_head.py:175-183 | each positive's box target is the encoded delta from its proposal to its ground truth, or the ground-truth box for decoded-box losses |
| Targets.AssignTargets | mmdet/models/roi_heads/bbox_heads/attribute_bbox_head.py:140-190 | all ten arrays have `num_pos + num_neg` rows; labels and attributes are ground truth on the positive prefix and each attribute's background class elsewhere; weights are the positive weight on the prefix and 1 on negatives; box weights are all ones exactly on positives; negative box rows are zero |
| Targets.GetTargetSingle | mmdet/models/roi_heads/bbox_heads/attribute_bbox_head.py:137-192 | the in-place construction (prefill, then prefix and suffix overwrites) yields exactly `AssignTargets` |
| Targets.PrefixOverwritten | mmdet/models/roi_heads/bbox_heads/attribute_bbox_head.py:147-169 | an array filled with the background value and then overwritten on `[:num_pos]` is the positives followed by `num_neg` background values |
| Targets.WeightArray | mmdet/models/roi_heads/bbox_heads/attribute_bbox_head.py:150-190 | a zero-filled weight array overwritten on `[:num_pos]` and `[-num_neg:]` is the positive weight on positives followed by ones |
| Targets.SetPrefix | mmdet/models/roi_heads/bbox_heads/attribute_bbox_head.py:166 | a prefix slice assignment replaces the leading elements and keeps the rest |
| Targets.SetSuffix | mmdet/models/roi_heads/bbox_heads/attribute_bbox_head.py:187 | a suffix slice assignment sets every element from the start index on and keeps the rest |
| Targets.PerImageTargets | mmdet/models/roi_heads/bbox_heads/attribute_bbox_head.py:210-219 | the per-image assignment is applied to every image, in image order |
| Targets.GetTargets | mmdet/models/roi_heads/bbox_heads/attribute_bbox_head.py:194-233 | an empty batch fails, since there is nothing to unpack into the ten lists (line 210); otherwise the result holds every image's `AssignTargets`, in image order, per image without `concat` and joined along the region axis with it |
| Targets.ConcatTargetsAt | mmdet/models/roi_heads/bbox_heads/attribute_bbox_head.py:221-231 | joining per-image arrays puts image `j`'s region `i` at `Offset(j) + i` in all ten arrays |
| Targets.ConcatTargetsLength | mmdet/models/roi_heads/bbox_heads/attribute_bbox_head.py:221-231 | every concatenated array has as many rows as the batch has regions |
| Targets.ConcatFirst | mmdet/models/roi_heads/bbox_heads/attribute_bbox_head.py:221-231 | the first image's regions open every concatenated array, in place |
| Targets.ConcatShift | mmdet/models/roi_heads/bbox_heads/attribute_bbox_head.py:221-231 | the later images' regions follow the first image's, shifted by its region count |
| Targets.ConcatTargetsAligned | mmdet/models/roi_heads/bbox_heads/attribute_bbox_head.py:221-231 | joining per-image targets whose ten arrays are aligned gives ten arrays of one common length |
| Targets.GetTargetsConcatenated | mmdet/models/roi_heads/bbox_heads/attribute_bbox_head.py:194-233 | with `concat`, every array has the batch's region count and carries image `j`'s assigned region `i` at `Offset(j) + i` |
| Targets.ConcatWeightsPositive | mmdet/models/roi_heads/bbox_heads/attribute_bbox_head.py:222-229 | concatenation keeps all four weight arrays positive |
| Targets.GetTargetsWeightsPositive | mmdet/models/roi_heads/bbox_heads/attribute_bbox_head.py:170-190 | whenever `get_targets` succeeds, every region of the batch has positive class, face, colour and motion weight |
| Targets.ThreePositivesTwoNegatives | mmdet/models/roi_heads/bbox_heads/attribute_bbox_head.py:147-190 | three positives of classes 0, 0, 1 and two negatives with 31 classes give labels `[0, 0, 1, 31, 31]`, background faces 3 and unit weights |
| Loss.AvgFactor | mmdet/models/roi_heads/bbox_heads/attribute_bbox_head.py:256 | the averaging factor is `max(count of positive weights, 1)`: it is 1 or the count, below neither, and at most the region count |
| Loss.CountPositive | mmdet/models/roi_heads/bbox_heads/attribute_bbox_head.py:256 | the number of positive weights is at most the number of regions |
| Loss.AvgFactorAllPositive | mmdet/models/roi_heads/bbox_heads/attribute_bbox_head.py:256 | when every weight is positive the averaging factor is the region count, or 1 for none |
| Loss.AssignedTargetsAvgFactor | mmdet/models/roi_heads/bbox_heads/attribute_bbox_head.py:256-286 | whenever `get_targets` succeeds, all four classification tasks average over the batch's region count (1 when it has no regions) |
| Loss.PositiveRows | mmdet/models/roi_heads/bbox_heads/attribute_bbox_head.py:296-298 | the positive rows are exactly those with `0 <= label < num_classes`, increasing |
| Loss.PositiveRowsEmpty | mmdet/models/roi_heads/bbox_heads/attribute_bbox_head.py:298-300 | there is a positive row iff some label is a foreground class |
| Loss.AssignedPositiveRows | mmdet/models/roi_heads/bbox_heads/attribute_bbox_head.py:298 | on one image's assigned targets with foreground ground truth, the positive rows are exactly the positive proposals, in order |
| Loss.DecodeRow | mmdet/models/roi_heads/bbox_heads/attribute_bbox_head.py:306 | decoding a prediction row keeps its width |
| Loss.DecodeRowGroup | mmdet/models/roi_heads/bbox_heads/attribute_bbox_head.py:306-314 | group `g` of a decoded row is the decode of group `g` |
| Loss.PosBboxPred | mmdet/models/roi_heads/bbox_heads/attribute_bbox_head.py:307-314 | one predicted box per positive row |
| Loss.PosBboxPredAt | mmdet/models/roi_heads/bbox_heads/attribute_bbox_head.py:306-314 | the `t`-th predicted box is columns `4*label .. 4*label+3` of the `t`-th positive row (the only group when class-agnostic), decoded against the region first for decoded-box losses |
| Loss.BoxEntry | mmdet/models/roi_heads/bbox_heads/attribute_bbox_head.py:295-322 | the box entry is the empty sum iff no label is a foreground class, and a regression record whenever one is; that record regresses the positive rows' class groups of the prediction (`PosBboxPred`) against their targets and weights, with the given reduction, averaged over all regions |
| Loss.Present | mmdet/models/roi_heads/bbox_heads/attribute_bbox_head.py:257 | a classification entry is due iff its score is given and has at least one row and one column (`numel() > 0`) |
| Loss.Loss | mmdet/models/roi_heads/bbox_heads/attribute_bbox_head.py:254-323 | each classification key is present iff its score is given and non-empty, with its own labels, weights and averaging factor; `acc` only with the class loss; the colour key is `colour_face`; the motion entry uses the motion weights; `loss_bbox` is present iff a box prediction is given |
| Loss.MotionBranchAsWritten | mmdet/models/roi_heads/bbox_heads/attribute_bbox_head.py:285-293 | as written, the motion branch raises NameError for `motions_weights` exactly when a non-empty motion score is given |
| Loss.MotionBranchDiscrepancy | mmdet/models/roi_heads/bbox_heads/attribute_bbox_head.py:291 | a one-region motion score makes the written branch fail where an entry is due |
| Nms.ScoreRows | mmdet/models/roi_heads/bbox_heads/attribute_bbox_head.py:536 | dropping the background column keeps every foreground score in place |
| Nms.LabelRows | mmdet/models/roi_heads/bbox_heads/attribute_bbox_head.py:538-539 | every (region, class) pair is labelled with its class index |
| Nms.BoxRows | mmdet/models/roi_heads/bbox_heads/attribute_bbox_head.py:530-534 | each (region, class) pair gets the class's column group, or the region's single box repeated |
| Nms.FactorRows | mmdet/models/roi_heads/bbox_heads/attribute_bbox_head.py:549-553 | each region's score factor (or the single broadcast factor) is repeated for every class |
| Nms.CandidateAt | mmdet/models/roi_heads/bbox_heads/attribute_bbox_head.py:528-543 | flat candidate `k` is region `k / C` and class `k % C`, with that pair's score, label and box |
| Nms.FlatScoreAt | mmdet/models/roi_heads/bbox_heads/attribute_bbox_head.py:536-542 | flat score `k` is the foreground score of region `k / C`, class `k % C` |
| Nms.FlatLabelAt | mmdet/models/roi_heads/bbox_heads/attribute_bbox_head.py:538-543 | flat label `k` is class `k % C` |
| Nms.FlatBoxAt | mmdet/models/roi_heads/bbox_heads/attribute_bbox_head.py:530-541 | flat box `k` is region `k / C`'s group for class `k % C`, or its only box |
| Nms.FlatScores | mmdet/models/roi_heads/bbox_heads/attribute_bbox_head.py:536-542 | the flattened foreground scores have `n * C` entries |
| Nms.FlatLabels | mmdet/models/roi_heads/bbox_heads/attribute_bbox_head.py:538-543 | the flattened labels have `n * C` entries |
| Nms.FlatBoxes | mmdet/models/roi_heads/bbox_heads/attribute_bbox_head.py:530-541 | the flattened boxes have `n * C` entries |
| Nms.FlatFactors | mmdet/models/roi_heads/bbox_heads/attribute_bbox_head.py:549-553 | the flattened score factors have `n * C` entries |
| Nms.Survivors | mmdet/models/roi_heads/bbox_heads/attribute_bbox_head.py:555 | the survivors are flat candidate indices below `n * C`, strictly increasing |
| Nms.ValidMask | mmdet/models/roi_heads/bbox_heads/attribute_bbox_head.py:546 | the threshold mask has one entry per candidate |
| Nms.SurvivorAt | mmdet/models/roi_heads/bbox_heads/attribute_bbox_head.py:546-556 | every survivor is a pair scoring strictly above the threshold, labelled with its class |
| Nms.SurvivorComplete | mmdet/models/roi_heads/bbox_heads/attribute_bbox_head.py:546-555 | every pair scoring strictly above the threshold survives, at `region * C + class` |
| Nms.SurvivorLabels | mmdet/models/roi_heads/bbox_heads/attribute_bbox_head.py:538-556 | every survivor's label is a foreground class in `[0, C)` |
| Nms.NoSurvivors | mmdet/models/roi_heads/bbox_heads/attribute_bbox_head.py:546-557 | nothing survives when no foreground score exceeds the threshold |
| Nms.ScaledScores | mmdet/models/roi_heads/bbox_heads/attribute_bbox_head.py:549-554 | scaling keeps one score per candidate |
| Nms.ScaledScoreAt | mmdet/models/roi_heads/bbox_heads/attribute_bbox_head.py:549-554 | the scaled score of candidate `k` is its pair's score times its region's factor |
| Nms.CandBoxes | mmdet/models/roi_heads/bbox_heads/attribute_bbox_head.py:556 | one box per survivor goes to the NMS |
| Nms.CandScores | mmdet/models/roi_heads/bbox_heads/attribute_bbox_head.py:556 | one score per survivor goes to the NMS |
| Nms.CandLabels | mmdet/models/roi_heads/bbox_heads/attribute_bbox_head.py:556 | one label per survivor goes to the NMS, all foreground classes |
| Nms.CandBoxLabelAt | mmdet/models/roi_heads/bbox_heads/attribute_bbox_head.py:528-556 | the NMS gets, for survivor `t` at flat position `k`, the box of pair `(k / C, k % C)` and label `k % C` |
| Nms.CandScoreAt | mmdet/models/roi_heads/bbox_heads/attribute_bbox_head.py:546-556 | the NMS gets survivor `t`'s raw score times its region's factor, thresholding having used the raw score |
| Nms.Truncate | mmdet/models/roi_heads/bbox_heads/attribute_bbox_head.py:569-571 | truncation keeps everything for a non-positive limit, otherwise the first `min(max_num, len)` entries |
| Nms.MulticlassNms | mmdet/models/roi_heads/bbox_heads/attribute_bbox_head.py:528-576 | per-class boxes of no regions fail the reshape at line 531; otherwise, with no survivor, the result is empty; otherwise it is the NMS's detections and kept indices, truncated, with labels looked up by the kept indices (failing iff a kept index is out of range), indices returned iff requested; every label is in `[0, C)`, and a failure is one of these two |
| Nms.MulticlassNmsAsWritten | mmdet/models/roi_heads/bbox_heads/attribute_bbox_head.py:528-567 | as written, the wrapper raises NameError for the unbound `batched_nms` exactly when some candidate survives |
| Nms.MulticlassNmsAgreement | mmdet/models/roi_heads/bbox_heads/attribute_bbox_head.py:528-564 | where no candidate survives, the written wrapper agrees with the intended one for every NMS |
| Nms.MulticlassNmsDiscrepancy | mmdet/models/roi_heads/bbox_heads/attribute_bbox_head.py:567 | one region scoring 0.9 over a 0.5 threshold: the written wrapper raises NameError, while the intended one never fails on a name |
| Nms.MaxNumNonPositiveUnlimited | mmdet/models/roi_heads/bbox_heads/attribute_bbox_head.py:569-571 | any non-positive `max_num` gives the same result as the default -1 |
| Nms.MaxNumBounds | mmdet/models/roi_heads/bbox_heads/attribute_bbox_head.py:569-571 | a positive `max_num` bounds the number of detections and labels |
| Nms.EmptyIgnoresNms | mmdet/models/roi_heads/bbox_heads/attribute_bbox_head.py:557-564 | with no score above the threshold, every NMS gives the same result: empty, or the reshape failure for per-class boxes of no regions |
| Nms.ThresholdMonotone | mmdet/models/roi_heads/bbox_heads/attribute_bbox_head.py:546 | raising the threshold never lets more candidates through |
| Refine.Rebox | mmdet/models/roi_heads/bbox_heads/attribute_bbox_head.py:480-486 | a refined region keeps its layout and, with five columns, its image id |
| Refine.RegressByClass | mmdet/models/roi_heads/bbox_heads/attribute_bbox_head.py:462-488 | class-specific regression succeeds iff every label's column group is in range, class-agnostic regression iff the prediction is four wide; on success each region keeps its layout and image id and its box is the decode of columns `4*label .. 4*label+3`, clipped to the image |
| Refine.Trunc | mmdet/models/roi_heads/bbox_heads/attribute_bbox_head.py:433 | `.long()` of an image id truncates toward zero |
| Refine.ImageIdCount | mmdet/models/roi_heads/bbox_heads/attribute_bbox_head.py:433-434 | the number of distinct truncated image ids is at most the number of regions, and zero only without regions |
| Refine.ImageRows | mmdet/models/roi_heads/bbox_heads/attribute_bbox_head.py:438-439 | an image's rows are exactly the regions whose id column equals its index, each once and in increasing order, as `nonzero` returns them |
| Refine.KeepMask | mmdet/models/roi_heads/bbox_heads/attribute_bbox_head.py:452-454 | the keep mask has one entry per region of the image |
| Refine.KeepInds | mmdet/models/roi_heads/bbox_heads/attribute_bbox_head.py:452-454 | the in-place mask fails iff the flags do not broadcast into the prefix; otherwise row `j` is kept iff it lies past the flags or its flag is clear |
| Refine.KeepMaskCount | mmdet/models/roi_heads/bbox_heads/attribute_bbox_head.py:452-456 | an image keeps its regions minus its set flags |
| Refine.RefinedImage | mmdet/models/roi_heads/bbox_heads/attribute_bbox_head.py:438-456 | one image's refinement never raises the image-count error and keeps no more rows than the image has |
| Refine.RefinedImageAt | mmdet/models/roi_heads/bbox_heads/attribute_bbox_head.py:438-456 | each refined box is an unflagged region of that image, decoded with its class's deltas and clipped to the image |
| Refine.RefinedImageCount | mmdet/models/roi_heads/bbox_heads/attribute_bbox_head.py:452-456 | when the flags fit, a refined image has its region count minus its set flags |
| Refine.RefineBboxes | mmdet/models/roi_heads/bbox_heads/attribute_bbox_head.py:433-458 | fails on too many distinct image ids iff there are; otherwise succeeds iff every image refines, returning one list per image in image order, or the first failing image's error |

## Left out

- `forward`, `init_weights` and the layers (lines 88-135): neural-network
  layers and random initialisation.
- `get_bboxes` (lines 325-378): its softmax, averaging and rescaling are
  floating-point numerics. As written it also:
  - overwrites the face scores with the class softmax and never sets the
    colour scores (lines 346-347);
  - clamps an advanced-index copy, which changes nothing (lines 359-360);
  - unpacks five values from `multiclass_nms`, which returns two or three
    (line 373).
- The ONNX-export check (line 558) and the `auto_fp16`/`force_fp32`
  decorators: export and precision plumbing.
- The box coder, the loss functions, `accuracy`, `multi_apply` and
  `batched_nms` are external:
  - the coder is a pair of functions;
  - losses and accuracy are recorded as the calls made to them;
  - `batched_nms` is an arbitrary function of the survivors.
  Nothing is proved about suppression itself.
- `multiclass_nms`'s `multi_faces`, `multi_colours` and `multi_motions`
  arguments, and `get_targets`' `gt_*` arguments: the code never reads them.
- Nms.ScaledScores: the product of scores and score factors (line 554) is
  exact, where the code multiplies in float32 and rounds each product;
  `Nms.ScaledScoreAt` and `Nms.CandScoreAt` state that exact product.
- Loss.DecodeRow: decoding a prediction row of several column groups against
  one region is modelled as decoding each group alone, without clipping,
  because the coder is external.
- Loss.BoxInputs: a box prediction whose width differs from the regression
  layer's, and row counts that differ between predictions, targets and
  regions, are excluded rather than modelled. `fc_reg` (lines 97-98) always
  produces `RegWidth` columns, and `get_targets` always produces one target
  row per region. Some of the excluded shapes would pass the tensor
  operations unnoticed: a class-specific prediction wider than `4 * C`, or
  misaligned targets when no label is a foreground class.
- Nms.MulticlassNms: box widths other than 4 or `4 * C` are excluded. Such
  widths make `view` fail or misalign boxes with scores.
- Nms.MulticlassNms: the early return's empty 4-column box tensor is
  represented as an empty detection list.
- Refine.RegressByClass: regions have 4 or 5 columns by construction. The
  width assertion at line 472 therefore cannot fail in the model.
- Refine.RefineBboxes: regions are required to have the leading image-id
  column that `refine_bboxes` documents.
- Refine.RefineBboxes: ground-truth flags are booleans. Byte values other
  than 0 and 1, which `1 - flag` would wrap, are not modelled.
- Integer widths: labels and indices are unbounded integers. No value the
  core computes comes near 64 bits.

## Findings

| source | as written | input that shows it | evidently intended | confidence | as-written member | corrected member |
|---|---|---|---|---|---|---|
| mmdet/models/roi_heads/bbox_heads/attribute_bbox_head.py:62 | `super(BBoxHead, self)` names a class that is neither defined nor imported in the module | any configuration, e.g. only the class output enabled | initialise the parent module of `AttributeBBoxHead`, then run the "some output enabled" assertion | high; not executed | Head.BuildAsWritten, Head.BuildDiscrepancy | Head.Build |
| mmdet/models/roi_heads/bbox_heads/attribute_bbox_head.py:291 | the motion loss is passed `motions_weights`, a name bound nowhere | a motion score with one region and two classes | pass `motion_weights`, like the other three tasks | high; not executed | Loss.MotionBranchAsWritten, Loss.MotionBranchDiscrepancy | Loss.Loss |
| mmdet/models/roi_heads/bbox_heads/attribute_bbox_head.py:567 | `multiclass_nms` calls `batched_nms`, which the module never imports (lines 1-9) | one region, scores `[[0.9, 0.1]]`, threshold 0.5 | import `batched_nms` from the library's NMS operations and call it on the survivors | high; not executed | Nms.MulticlassNmsAsWritten, Nms.MulticlassNmsDiscrepancy | Nms.MulticlassNms |
