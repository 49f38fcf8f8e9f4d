/** Loss aggregation: which entries the loss mapping receives, and with
    which arguments each external loss function is called. The loss
    functions and the accuracy metric are external, so an entry records the
    call (function and arguments) rather than a number. */
module Loss {
  import opened Common
  import opened Tensors
  import opened Head
  import opened Targets

  datatype Task = Cls | Face | Colour | Motion

  /** The value stored under one key of the loss mapping. */
  datatype LossValue =
    | Classification(task: Task, scores: Matrix, labels: seq<int>, weights: seq<real>,
                     avgFactor: real, reduction: Option<string>)
    | Accuracy(scores: Matrix, labels: seq<int>)
    | Regression(pred: seq<Quad>, target: seq<Quad>, weight: seq<Quad>,
                 avgFactor: real, reduction: Option<string>)
    | EmptySum  // `bbox_pred[pos_inds].sum()` over no rows: zero, still tied to the prediction

  datatype LossError = NameError(name: string)  // a name bound nowhere

  /** How many regions have a positive weight. */
  function CountPositive(weights: seq<real>): (c: nat)
    ensures c <= |weights|
  {
    CountTrue(seq(|weights|, i requires 0 <= i < |weights| => weights[i] > 0.0))
  }

  /** `max(#{i : weights[i] > 0}, 1.)`. */
  function AvgFactor(weights: seq<real>): (f: real)
    ensures 1.0 <= f <= if |weights| == 0 then 1.0 else |weights| as real
    ensures f == 1.0 || f == CountPositive(weights) as real
    ensures CountPositive(weights) as real <= f
  {
    var c := CountPositive(weights) as real;
    if c > 1.0 then c else 1.0
  }

  /** When every weight is positive the averaging factor is the number of
      regions (or 1 for none). */
  lemma {:induction false} AvgFactorAllPositive(weights: seq<real>)
    requires AllPositive(weights)
    ensures AvgFactor(weights) == if |weights| == 0 then 1.0 else |weights| as real
  {
    NonzeroAllTrue(seq(|weights|, i requires 0 <= i < |weights| => weights[i] > 0.0));
  }

  /** The regions whose label is a foreground class (`0 <= label <
      num_classes`), in increasing order. */
  function PositiveRows(labels: seq<int>, numClasses: nat): (r: seq<nat>)
    ensures forall t :: 0 <= t < |r| ==> r[t] < |labels| && 0 <= labels[r[t]] < numClasses
    ensures forall k :: 0 <= k < |labels| && 0 <= labels[k] < numClasses ==> k in r
    ensures forall t, u :: 0 <= t < u < |r| ==> r[t] < r[u]
  {
    Nonzero(PositiveMask(labels, numClasses))
  }

  function PositiveMask(labels: seq<int>, numClasses: nat): seq<bool>
  {
    seq(|labels|, i requires 0 <= i < |labels| => 0 <= labels[i] < numClasses)
  }

  /** The box coder's `decode` on a row of several 4-column groups: each
      group is decoded against the same region, without clipping. */
  function DecodeRow(coder: BoxCoder, box: Quad, row: seq<real>): (r: seq<real>)
    requires |row| % 4 == 0
    ensures |r| == |row|
  {
    var groups := DecodedGroups(coder, box, row);
    FlattenRectLength(groups, 4);
    Flatten(groups)
  }

  /** The decoded groups of a row, each as four columns. */
  function DecodedGroups(coder: BoxCoder, box: Quad, row: seq<real>): (groups: seq<seq<real>>)
    requires |row| % 4 == 0
    ensures |groups| * 4 == |row| && Rectangular(groups, 4)
    ensures forall g :: 0 <= g < |groups| ==> groups[g] == QuadToSeq(coder.decode(box, Group(row, g), None))
  {
    var groups := seq(|row| / 4, g requires 0 <= g < |row| / 4 =>
      QuadToSeq(coder.decode(box, Group(row, g), None)));
    forall j | 0 <= j < |groups|
      ensures |groups[j]| == 4
    {
      assert groups[j] == QuadToSeq(coder.decode(box, Group(row, j), None));
    }
    groups
  }

  /** Selecting group `g` of a decoded row is decoding group `g`. */
  lemma {:induction false} DecodeRowGroup(coder: BoxCoder, box: Quad, row: seq<real>, g: nat)
    requires |row| % 4 == 0 && 4 * g + 3 < |row|
    ensures Group(DecodeRow(coder, box, row), g) == coder.decode(box, Group(row, g), None)
  {
    var groups := DecodedGroups(coder, box, row);
    var d := coder.decode(box, Group(row, g), None);
    var flat := DecodeRow(coder, box, row);
    assert flat == Flatten(groups);
    forall c | 0 <= c < 4
      ensures flat[4 * g + c] == QuadToSeq(d)[c]
    {
      FlattenRectAt(groups, 4, 4 * g + c);
      DivModUnique(4 * g + c, 4, g, c);
      assert groups[g] == QuadToSeq(d);
    }
    assert Group(flat, g) == Quad(flat[4 * g], flat[4 * g + 1], flat[4 * g + 2], flat[4 * g + 3]);
  }

  /** What the box branch compares with its targets: the prediction rows
      (decoded first when the loss is on decoded boxes) viewed as 4-column
      groups, and for every positive row the group of its class, or the
      only group when regression is class-agnostic. */
  function PosBboxPred(h: Head, rois: seq<Roi>, pred: Matrix, labels: seq<int>): (r: seq<Quad>)
    requires BoxPredShape(h, pred, |labels|)
    requires h.regDecodedBbox ==> |rois| == |labels|
    ensures |r| == |PositiveRows(labels, h.numClasses)|
  {
    var rows := if h.regDecodedBbox
      then seq(|labels|, i requires 0 <= i < |labels| => DecodeRow(h.coder, rois[i].box, pred.rows[i]))
      else pred.rows;
    var pos := PositiveRows(labels, h.numClasses);
    seq(|pos|, t requires 0 <= t < |pos| =>
      Group(rows[pos[t]], if h.regClassAgnostic then 0 else labels[pos[t]]))
  }

  /** The box prediction has one row per region and the width the head's
      regression layer produces. */
  ghost predicate BoxPredShape(h: Head, pred: Matrix, n: nat)
  {
    pred.Wf() && |pred.rows| == n && pred.cols == RegWidth(h)
  }

  /** Row `t` of the box prediction used by the loss is, for the `t`-th
      positive region `k`, the group `labels[k]` (columns `4*labels[k] ..
      4*labels[k]+3`) of region `k`'s prediction, or its only group when
      class-agnostic, decoded against the region when the loss is on
      decoded boxes. */
  lemma {:induction false} PosBboxPredAt(h: Head, rois: seq<Roi>, pred: Matrix, labels: seq<int>, t: nat)
    requires BoxPredShape(h, pred, |labels|)
    requires h.regDecodedBbox ==> |rois| == |labels|
    requires t < |PositiveRows(labels, h.numClasses)|
    ensures var k := PositiveRows(labels, h.numClasses)[t];
      var g: nat := if h.regClassAgnostic then 0 else labels[k];
      && 4 * g + 3 < pred.cols
      && PosBboxPred(h, rois, pred, labels)[t] ==
         if h.regDecodedBbox then h.coder.decode(rois[k].box, Group(pred.rows[k], g), None)
         else Group(pred.rows[k], g)
  {
    var k := PositiveRows(labels, h.numClasses)[t];
    var g: nat := if h.regClassAgnostic then 0 else labels[k];
    if h.regDecodedBbox {
      DecodeRowGroup(h.coder, rois[k].box, pred.rows[k], g);
    }
  }

  /** What the loss needs of its box inputs, when a box prediction is
      given: one prediction row, target row and weight row per region, and
      for decoded-box losses one region (with its image index) per row. */
  ghost predicate BoxInputs(h: Head, bboxPred: Option<Matrix>, rois: seq<Roi>, t: Targets)
  {
    bboxPred.Some? ==>
      && BoxPredShape(h, bboxPred.value, |t.labels|)
      && |t.bboxTargets| == |t.labels| && |t.bboxWeights| == |t.labels|
      && (h.regDecodedBbox ==>
            |rois| == |t.labels| && forall i :: 0 <= i < |rois| ==> rois[i].Indexed?)
  }

  /** The entry the box branch stores: the regression loss over the
      positive rows, averaged over ALL regions, or the empty sum when no
      region is positive. */
  function BoxEntry(h: Head, pred: Matrix, rois: seq<Roi>, t: Targets,
                    reduction: Option<string>): (v: LossValue)
    requires BoxInputs(h, Some(pred), rois, t)
    ensures v.EmptySum? <==> !AnyPositive(t.labels, h.numClasses)
    ensures AnyPositive(t.labels, h.numClasses) ==> v.Regression?
    ensures v.Regression? ==>
      && v.avgFactor == |t.labels| as real
      && v.pred == PosBboxPred(h, rois, pred, t.labels)
      && v.reduction == reduction
      && |v.pred| == |v.target| == |v.weight| == |PositiveRows(t.labels, h.numClasses)|
      && forall u :: 0 <= u < |v.target| ==>
           var k := PositiveRows(t.labels, h.numClasses)[u];
           v.target[u] == t.bboxTargets[k] && v.weight[u] == t.bboxWeights[k]
  {
    var pos := PositiveRows(t.labels, h.numClasses);
    PositiveRowsEmpty(t.labels, h.numClasses);
    if |pos| > 0 then
      Regression(PosBboxPred(h, rois, pred, t.labels),
                 Gather(t.bboxTargets, pos), Gather(t.bboxWeights, pos),
                 |t.bboxTargets| as real, reduction)
    else
      EmptySum
  }

  /** Some region has a foreground label. */
  predicate AnyPositive(labels: seq<int>, numClasses: nat)
  {
    exists k :: 0 <= k < |labels| && 0 <= labels[k] < numClasses
  }

  lemma {:induction false} PositiveRowsEmpty(labels: seq<int>, numClasses: nat)
    ensures |PositiveRows(labels, numClasses)| > 0 <==> AnyPositive(labels, numClasses)
  {
    var pos := PositiveRows(labels, numClasses);
    if |pos| > 0 {
      assert 0 <= labels[pos[0]] < numClasses;
    }
  }

  /** A classification entry is stored exactly when that output's score is
      given and holds at least one element. */
  predicate Present(score: Option<Matrix>): (p: bool)
    ensures p <==> score.Some? && |score.value.rows| > 0 && score.value.cols > 0
  {
    score.Some? && score.value.Numel() > 0
  }

  /** `loss`: the mapping built key by key. Each classification-style task
      contributes iff its score is given and non-empty, with its own labels,
      weights and averaging factor; accuracy is reported for the class task
      only; the colour entry is stored under the key `colour_face`, as
      written. The box entry is present iff a box prediction is given. The
      motion entry uses `motion_weights`: as written, the source names an
      unbound `motions_weights` there (see MotionBranchAsWritten). */
  method Loss(h: Head, clsScore: Option<Matrix>, bboxPred: Option<Matrix>,
              faceScore: Option<Matrix>, colourScore: Option<Matrix>, motionScore: Option<Matrix>,
              rois: seq<Roi>, t: Targets, reductionOverride: Option<string>)
    returns (losses: map<string, LossValue>)
    requires BoxInputs(h, bboxPred, rois, t)
    ensures losses.Keys <= {"loss_cls", "acc", "loss_face", "colour_face", "loss_motion", "loss_bbox"}
    ensures ("loss_cls" in losses <==> Present(clsScore)) && ("acc" in losses <==> Present(clsScore))
    ensures Present(clsScore) ==>
      && losses["loss_cls"] == Classification(Cls, clsScore.value, t.labels, t.labelWeights,
                                              AvgFactor(t.labelWeights), reductionOverride)
      && losses["acc"] == Accuracy(clsScore.value, t.labels)
    ensures "loss_face" in losses <==> Present(faceScore)
    ensures Present(faceScore) ==>
      losses["loss_face"] == Classification(Face, faceScore.value, t.faces, t.faceWeights, AvgFactor(t.faceWeights), reductionOverride)
    ensures "colour_face" in losses <==> Present(colourScore)
    ensures Present(colourScore) ==>
      losses["colour_face"] == Classification(Colour, colourScore.value, t.colours, t.colourWeights, AvgFactor(t.colourWeights), reductionOverride)
    ensures "loss_motion" in losses <==> Present(motionScore)
    ensures Present(motionScore) ==>
      losses["loss_motion"] == Classification(Motion, motionScore.value, t.motions, t.motionWeights, AvgFactor(t.motionWeights), reductionOverride)
    ensures "loss_bbox" in losses <==> bboxPred.Some?
    ensures bboxPred.Some? ==> losses["loss_bbox"] == BoxEntry(h, bboxPred.value, rois, t, reductionOverride)
  {
    losses := map[];
    if clsScore.Some? {
      var avgFactor := AvgFactor(t.labelWeights);
      if clsScore.value.Numel() > 0 {
        losses := losses["loss_cls" := Classification(Cls, clsScore.value, t.labels, t.labelWeights,
                                                      avgFactor, reductionOverride)];
        losses := losses["acc" := Accuracy(clsScore.value, t.labels)];
      }
    }
    if faceScore.Some? {
      var avgFactor := AvgFactor(t.faceWeights);
      if faceScore.value.Numel() > 0 {
        losses := losses["loss_face" := Classification(Face, faceScore.value, t.faces, t.faceWeights,
                                                       avgFactor, reductionOverride)];
      }
    }
    if colourScore.Some? {
      var avgFactor := AvgFactor(t.colourWeights);
      if colourScore.value.Numel() > 0 {
        losses := losses["colour_face" := Classification(Colour, colourScore.value, t.colours, t.colourWeights,
                                                         avgFactor, reductionOverride)];
      }
    }
    if motionScore.Some? {
      var avgFactor := AvgFactor(t.motionWeights);
      if motionScore.value.Numel() > 0 {
        losses := losses["loss_motion" := Classification(Motion, motionScore.value, t.motions, t.motionWeights,
                                                         avgFactor, reductionOverride)];
      }
    }
    if bboxPred.Some? {
      losses := losses["loss_bbox" := BoxEntry(h, bboxPred.value, rois, t, reductionOverride)];
    }
  }

  /** The motion branch as written: the call passes `motions_weights`, a
      name bound nowhere, so reaching it raises NameError; with no or an
      empty motion score the branch adds nothing. */
  function MotionBranchAsWritten(motionScore: Option<Matrix>): (r: Result<Option<LossValue>, LossError>)
    ensures r.Failure? <==> Present(motionScore)
    ensures r.Failure? ==> r.error == NameError("motions_weights")
    ensures r.Success? ==> r.value.None?
  {
    if motionScore.Some? && motionScore.value.Numel() > 0 then
      Failure(NameError("motions_weights"))
    else
      Success(None)
  }

  /** One region with a two-value motion score: the written branch raises,
      while the intended one records the motion loss over that region. */
  lemma {:induction false} MotionBranchDiscrepancy()
    ensures var score := Matrix([[0.5, 0.5]], 2);
      && MotionBranchAsWritten(Some(score)).Failure?
      && Present(Some(score))
  {
  }

  /** Targets assigned by `get_targets` give every classification task
      the averaging factor "number of regions in the batch" (at least 1). */
  lemma {:induction false} AssignedTargetsAvgFactor(h: Head, samples: seq<SamplingResult>, cfgPosWeight: real)
    requires AllAligned(samples)
    ensures GetTargets(h, samples, cfgPosWeight, true).Success? ==>
      var t, n := GetTargets(h, samples, cfgPosWeight, true).value.all, Offset(samples, |samples|);
      var f := if n == 0 then 1.0 else n as real;
      && AvgFactor(t.labelWeights) == f && AvgFactor(t.faceWeights) == f
      && AvgFactor(t.colourWeights) == f && AvgFactor(t.motionWeights) == f
  {
    if samples != [] {
      var t := GetTargets(h, samples, cfgPosWeight, true).value.all;
      GetTargetsWeightsPositive(h, samples, cfgPosWeight);
      PerImageLengths(h, samples, cfgPosWeight);
      ConcatTargetsLength(PerImageTargets(h, samples, cfgPosWeight), samples);
      AvgFactorAllPositive(t.labelWeights);
      AvgFactorAllPositive(t.faceWeights);
      AvgFactorAllPositive(t.colourWeights);
      AvgFactorAllPositive(t.motionWeights);
    }
  }

  /** On one image's targets, when every matched class is a foreground
      class, the box loss uses exactly the positive regions, in order. */
  lemma {:induction false} AssignedPositiveRows(h: Head, s: SamplingResult, cfgPosWeight: real)
    requires Aligned(s)
    requires forall i :: 0 <= i < |s.posGtLabels| ==> 0 <= s.posGtLabels[i] < h.numClasses
    ensures PositiveRows(AssignTargets(h, s, cfgPosWeight).labels, h.numClasses)
            == seq(|s.posBboxes|, k => k)
  {
    var labels := AssignTargets(h, s, cfgPosWeight).labels;
    NonzeroPrefix(PositiveMask(labels, h.numClasses), |s.posBboxes|);
  }
}
