/** Target assignment: per-region training labels and loss weights for the
    class task, the three attribute tasks (face, colour, motion) and box
    regression, built per image from the sampler's result and then
    concatenated across the batch. */
module Targets {
  import opened Common
  import opened Tensors
  import opened Head

  /** What the sampler hands over for one image: the positive and negative
      proposals, and for each positive its matched ground-truth box, class
      and attributes. */
  datatype SamplingResult = SamplingResult(
    posBboxes: seq<Quad>,
    negBboxes: seq<Quad>,
    posGtBboxes: seq<Quad>,
    posGtLabels: seq<int>,
    posGtFaces: seq<int>,
    posGtColours: seq<int>,
    posGtMotions: seq<int>)

  /** Every ground-truth field has one entry per positive proposal, as the
      sampler guarantees by matching each positive to one ground truth. */
  predicate Aligned(s: SamplingResult)
  {
    && |s.posGtBboxes| == |s.posBboxes|
    && |s.posGtLabels| == |s.posBboxes|
    && |s.posGtFaces| == |s.posBboxes|
    && |s.posGtColours| == |s.posBboxes|
    && |s.posGtMotions| == |s.posBboxes|
  }

  function NumSamples(s: SamplingResult): nat
  {
    |s.posBboxes| + |s.negBboxes|
  }

  /** The ten per-region arrays, in the order the head returns them. */
  datatype Targets = Targets(
    labels: seq<int>,
    labelWeights: seq<real>,
    bboxTargets: seq<Quad>,
    bboxWeights: seq<Quad>,
    faces: seq<int>,
    faceWeights: seq<real>,
    colours: seq<int>,
    colourWeights: seq<real>,
    motions: seq<int>,
    motionWeights: seq<real>)

  /** Every array holds exactly `n` regions. */
  predicate HasLength(t: Targets, n: nat)
  {
    && |t.labels| == n && |t.labelWeights| == n
    && |t.bboxTargets| == n && |t.bboxWeights| == n
    && |t.faces| == n && |t.faceWeights| == n
    && |t.colours| == n && |t.colourWeights| == n
    && |t.motions| == n && |t.motionWeights| == n
  }

  /** The weight of a positive region: the configured `pos_weight` when it
      is positive, otherwise 1. */
  function PosWeight(cfgPosWeight: real): (w: real)
    ensures w > 0.0
    ensures cfgPosWeight > 0.0 ==> w == cfgPosWeight
    ensures cfgPosWeight <= 0.0 ==> w == 1.0
  {
    if cfgPosWeight <= 0.0 then 1.0 else cfgPosWeight
  }

  /** Box targets of the positives: the encoded delta from each positive
      proposal to its ground truth, or the ground-truth box itself when the
      loss is taken on decoded boxes. */
  function PosBboxTargets(h: Head, s: SamplingResult): (r: seq<Quad>)
    requires Aligned(s)
    ensures |r| == |s.posBboxes|
    ensures forall i :: 0 <= i < |r| ==>
      r[i] == if h.regDecodedBbox then s.posGtBboxes[i]
              else h.coder.encode(s.posBboxes[i], s.posGtBboxes[i])
  {
    if !h.regDecodedBbox then
      seq(|s.posBboxes|, i requires 0 <= i < |s.posBboxes| =>
        h.coder.encode(s.posBboxes[i], s.posGtBboxes[i]))
    else
      s.posGtBboxes
  }

  /** The targets of one image written region by region: the positives in
      input order, then the negatives, each negative carrying every task's
      background class, weight 1 and no box target. */
  function AssignTargets(h: Head, s: SamplingResult, cfgPosWeight: real): (t: Targets)
    requires Aligned(s)
    ensures HasLength(t, NumSamples(s))
    // labels: ground truth on the positive prefix, background elsewhere
    ensures forall i :: 0 <= i < NumSamples(s) ==>
      && t.labels[i] == (if i < |s.posBboxes| then s.posGtLabels[i] else h.numClasses)
      && t.faces[i] == (if i < |s.posBboxes| then s.posGtFaces[i] else h.numFaces)
      && t.colours[i] == (if i < |s.posBboxes| then s.posGtColours[i] else h.numColours)
      && t.motions[i] == (if i < |s.posBboxes| then s.posGtMotions[i] else h.numMotions)
    // weights: the positive weight on the prefix, 1 on the negatives
    ensures forall i :: 0 <= i < NumSamples(s) ==>
      var w := if i < |s.posBboxes| then PosWeight(cfgPosWeight) else 1.0;
      t.labelWeights[i] == w && t.faceWeights[i] == w
      && t.colourWeights[i] == w && t.motionWeights[i] == w
    // box rows: target and all-one weights on positives, zero on negatives
    ensures forall i :: 0 <= i < NumSamples(s) ==>
      && (t.bboxWeights[i] == OneQuad <==> i < |s.posBboxes|)
      && (i >= |s.posBboxes| ==> t.bboxWeights[i] == ZeroQuad && t.bboxTargets[i] == ZeroQuad)
      && (i < |s.posBboxes| ==> t.bboxTargets[i] == PosBboxTargets(h, s)[i])
  {
    var p, q := |s.posBboxes|, |s.negBboxes|;
    var w := PosWeight(cfgPosWeight);
    Targets(
      s.posGtLabels + Full(q, h.numClasses as int),
      Full(p, w) + Full(q, 1.0),
      PosBboxTargets(h, s) + Full(q, ZeroQuad),
      Full(p, OneQuad) + Full(q, ZeroQuad),
      s.posGtFaces + Full(q, h.numFaces as int),
      Full(p, w) + Full(q, 1.0),
      s.posGtColours + Full(q, h.numColours as int),
      Full(p, w) + Full(q, 1.0),
      s.posGtMotions + Full(q, h.numMotions as int),
      Full(p, w) + Full(q, 1.0))
  }

  /** `_get_target_single`: every array is preallocated with its background
      value (sentinel class, weight 0, zero box row), the positive prefix is
      overwritten with the ground truth and the positive weight, and the
      negative suffix gets weight 1. */
  method GetTargetSingle(h: Head, s: SamplingResult, cfgPosWeight: real) returns (t: Targets)
    requires Aligned(s)
    ensures t == AssignTargets(h, s, cfgPosWeight)
  {
    var numPos := |s.posBboxes|;
    var numNeg := |s.negBboxes|;
    var posWeight := PosWeight(cfgPosWeight);

    var labels := PrefixOverwritten(s.posGtLabels, numNeg, h.numClasses);
    var labelWeights := WeightArray(numPos, numNeg, posWeight);
    var faces := PrefixOverwritten(s.posGtFaces, numNeg, h.numFaces);
    var faceWeights := WeightArray(numPos, numNeg, posWeight);
    var colours := PrefixOverwritten(s.posGtColours, numNeg, h.numColours);
    var colourWeights := WeightArray(numPos, numNeg, posWeight);
    var motions := PrefixOverwritten(s.posGtMotions, numNeg, h.numMotions);
    var motionWeights := WeightArray(numPos, numNeg, posWeight);
    var bboxTargets := PrefixOverwritten(PosBboxTargets(h, s), numNeg, ZeroQuad);
    var bboxWeights := PrefixOverwritten(Full(numPos, OneQuad), numNeg, ZeroQuad);

    t := Targets(labels, labelWeights, bboxTargets, bboxWeights, faces, faceWeights,
                 colours, colourWeights, motions, motionWeights);
  }

  /** A label or box array: `new_full` (or `new_zeros`) of every region with
      `background`, then, when there are positives, `[:num_pos] = pos`. */
  method PrefixOverwritten<T>(pos: seq<T>, numNeg: nat, background: T) returns (col: seq<T>)
    ensures col == pos + Full(numNeg, background)
  {
    var numPos := |pos|;
    var a := new T[numPos + numNeg](_ => background);
    if numPos > 0 {
      SetPrefix(a, pos);
    }
    col := a[..];
  }

  /** A weight array: `new_zeros` of every region, then `[:num_pos] =
      posWeight` when there are positives and `[-num_neg:] = 1.0` when there
      are negatives. */
  method WeightArray(numPos: nat, numNeg: nat, posWeight: real) returns (col: seq<real>)
    ensures col == Full(numPos, posWeight) + Full(numNeg, 1.0)
  {
    var numSamples := numPos + numNeg;
    var a := new real[numSamples](_ => 0.0);
    if numPos > 0 {
      SetPrefix(a, Full(numPos, posWeight));
    }
    if numNeg > 0 {
      SetSuffix(a, numSamples - numNeg, 1.0);
    }
    col := a[..];
  }

  /** `a[:len(xs)] = xs`: the leading elements are overwritten. */
  method SetPrefix<T>(a: array<T>, xs: seq<T>)
    requires |xs| <= a.Length
    modifies a
    ensures a[..] == xs + old(a[..])[|xs|..]
  {
    forall i | 0 <= i < |xs| {
      a[i] := xs[i];
    }
  }

  /** `a[from:] = x`: every element from `from` on becomes `x`. */
  method SetSuffix<T>(a: array<T>, from: nat, x: T)
    requires from <= a.Length
    modifies a
    ensures a[..] == old(a[..])[..from] + Full(a.Length - from, x)
  {
    forall i | from <= i < a.Length {
      a[i] := x;
    }
  }

  /** What `get_targets` returns: the per-image tuples, or each array
      concatenated across the batch. */
  datatype BatchTargets = PerImage(images: seq<Targets>) | Concatenated(all: Targets)

  predicate AllAligned(samples: seq<SamplingResult>)
  {
    forall j :: 0 <= j < |samples| ==> Aligned(samples[j])
  }

  /** The per-image assignment applied to every image, in image order. */
  function PerImageTargets(h: Head, samples: seq<SamplingResult>, cfgPosWeight: real): (ts: seq<Targets>)
    requires AllAligned(samples)
    ensures |ts| == |samples|
    ensures forall j :: 0 <= j < |samples| ==> ts[j] == AssignTargets(h, samples[j], cfgPosWeight)
  {
    seq(|samples|, j requires 0 <= j < |samples| => AssignTargets(h, samples[j], cfgPosWeight))
  }

  /** Two target tuples joined along the region axis, array by array. */
  function Append(a: Targets, b: Targets): Targets
  {
    Targets(
      a.labels + b.labels, a.labelWeights + b.labelWeights,
      a.bboxTargets + b.bboxTargets, a.bboxWeights + b.bboxWeights,
      a.faces + b.faces, a.faceWeights + b.faceWeights,
      a.colours + b.colours, a.colourWeights + b.colourWeights,
      a.motions + b.motions, a.motionWeights + b.motionWeights)
  }

  /** Each array of every image joined along the region axis, in image
      order (`torch.cat(xs, 0)` on each of the ten lists). */
  function ConcatTargets(ts: seq<Targets>): Targets
  {
    if ts == [] then Targets([], [], [], [], [], [], [], [], [], [])
    else Append(ts[0], ConcatTargets(ts[1..]))
  }

  /** Why `get_targets` raises: over an empty batch `multi_apply` returns
      no lists to unpack into the ten results. */
  datatype TargetError = EmptyBatch

  /** Each image's ten arrays have one common length. */
  predicate EachAligned(ts: seq<Targets>)
  {
    forall j :: 0 <= j < |ts| ==> HasLength(ts[j], |ts[j].labels|)
  }

  /** Joining images whose ten arrays each share one length gives ten
      arrays of one common length. */
  lemma {:induction false} ConcatTargetsAligned(ts: seq<Targets>)
    requires EachAligned(ts)
    ensures HasLength(ConcatTargets(ts), |ConcatTargets(ts).labels|)
  {
    if ts != [] {
      assert EachAligned(ts[1..]) by {
        forall j | 0 <= j < |ts| - 1
          ensures HasLength(ts[1..][j], |ts[1..][j].labels|)
        {
          assert ts[1..][j] == ts[j + 1];
        }
      }
      ConcatTargetsAligned(ts[1..]);
      assert HasLength(ts[0], |ts[0].labels|);
    }
  }

  /** `get_targets`. The whole ground-truth lists that the source also
      receives are not read by it; only the sampling results are. An empty
      batch fails; otherwise the result is every image's assignment, in
      image order, joined along the region axis when `concat` is set. */
  function GetTargets(h: Head, samples: seq<SamplingResult>, cfgPosWeight: real, concat: bool)
    : (r: Result<BatchTargets, TargetError>)
    requires AllAligned(samples)
    ensures r.Failure? <==> samples == []
    ensures r.Success? ==> (r.value.PerImage? <==> !concat)
    ensures r.Success? && !concat ==> r.value.images == PerImageTargets(h, samples, cfgPosWeight)
    ensures r.Success? && concat ==> r.value.all == ConcatTargets(PerImageTargets(h, samples, cfgPosWeight))
  {
    var ts := PerImageTargets(h, samples, cfgPosWeight);
    if samples == [] then Failure(EmptyBatch)
    else if concat then Success(Concatenated(ConcatTargets(ts)))
    else Success(PerImage(ts))
  }

  /** Number of regions in the images before image `j`: where image `j`'s
      rows start in the concatenation. */
  function Offset(samples: seq<SamplingResult>, j: nat): nat
    requires j <= |samples|
  {
    if j == 0 then 0 else NumSamples(samples[0]) + Offset(samples[1..], j - 1)
  }

  /** Region `k` of `a` carries the same ten values as region `i` of `b`. */
  predicate SameRegion(a: Targets, k: nat, b: Targets, i: nat)
  {
    && k < |a.labels| && i < |b.labels| && a.labels[k] == b.labels[i]
    && k < |a.labelWeights| && i < |b.labelWeights| && a.labelWeights[k] == b.labelWeights[i]
    && k < |a.bboxTargets| && i < |b.bboxTargets| && a.bboxTargets[k] == b.bboxTargets[i]
    && k < |a.bboxWeights| && i < |b.bboxWeights| && a.bboxWeights[k] == b.bboxWeights[i]
    && k < |a.faces| && i < |b.faces| && a.faces[k] == b.faces[i]
    && k < |a.faceWeights| && i < |b.faceWeights| && a.faceWeights[k] == b.faceWeights[i]
    && k < |a.colours| && i < |b.colours| && a.colours[k] == b.colours[i]
    && k < |a.colourWeights| && i < |b.colourWeights| && a.colourWeights[k] == b.colourWeights[i]
    && k < |a.motions| && i < |b.motions| && a.motions[k] == b.motions[i]
    && k < |a.motionWeights| && i < |b.motionWeights| && a.motionWeights[k] == b.motionWeights[i]
  }

  /** Joining per-image targets whose sizes follow the images puts image
      `j`'s region `i` at `Offset(j) + i` in each of the ten arrays. */
  lemma {:induction false} ConcatTargetsAt(ts: seq<Targets>, samples: seq<SamplingResult>, j: nat, i: nat)
    requires Sized(ts, samples)
    requires j < |ts| && i < NumSamples(samples[j])
    ensures SameRegion(ConcatTargets(ts), Offset(samples, j) + i, ts[j], i)
  {
    if j == 0 {
      ConcatFirst(ts, samples, i);
    } else {
      SizedTail(ts, samples);
      assert ts[1..][j - 1] == ts[j] && samples[1..][j - 1] == samples[j];
      ConcatTargetsAt(ts[1..], samples[1..], j - 1, i);
      ConcatLater(ts, samples, j, i);
    }
  }

  /** One step of the induction: image `j > 0` sits where it sat among the
      later images, shifted by the first image's regions. */
  lemma {:induction false} ConcatLater(ts: seq<Targets>, samples: seq<SamplingResult>, j: nat, i: nat)
    requires Sized(ts, samples)
    requires 0 < j < |ts| && i < NumSamples(samples[j])
    requires SameRegion(ConcatTargets(ts[1..]), Offset(samples[1..], j - 1) + i, ts[j], i)
    ensures SameRegion(ConcatTargets(ts), Offset(samples, j) + i, ts[j], i)
  {
    var k' := Offset(samples[1..], j - 1) + i;
    ConcatShift(ts, samples, k');
    SameRegionTrans(ConcatTargets(ts), NumSamples(samples[0]) + k', ConcatTargets(ts[1..]), k', ts[j], i);
  }

  /** The first image's regions open the concatenation. */
  lemma {:induction false} ConcatFirst(ts: seq<Targets>, samples: seq<SamplingResult>, i: nat)
    requires Sized(ts, samples) && ts != [] && i < NumSamples(samples[0])
    ensures SameRegion(ConcatTargets(ts), i, ts[0], i)
  {
    SizedHead(ts, samples);
    AppendLeft(ts[0], ConcatTargets(ts[1..]), NumSamples(samples[0]), i);
  }

  /** The later images' regions follow the first image's. */
  lemma {:induction false} ConcatShift(ts: seq<Targets>, samples: seq<SamplingResult>, k: nat)
    requires Sized(ts, samples) && ts != [] && k < |ConcatTargets(ts[1..]).labels|
    ensures SameRegion(ConcatTargets(ts), NumSamples(samples[0]) + k, ConcatTargets(ts[1..]), k)
  {
    SizedHead(ts, samples);
    SizedTail(ts, samples);
    ConcatTargetsLength(ts[1..], samples[1..]);
    AppendRight(ts[0], ConcatTargets(ts[1..]), NumSamples(samples[0]), Offset(samples[1..], |samples| - 1), k);
  }

  /** Each image's targets hold as many regions as that image has samples. */
  predicate Sized(ts: seq<Targets>, samples: seq<SamplingResult>)
  {
    |ts| == |samples| && forall m :: 0 <= m < |ts| ==> HasLength(ts[m], NumSamples(samples[m]))
  }

  lemma {:induction false} SizedHead(ts: seq<Targets>, samples: seq<SamplingResult>)
    requires Sized(ts, samples) && ts != []
    ensures HasLength(ts[0], NumSamples(samples[0]))
  {
  }

  lemma {:induction false} SizedTail(ts: seq<Targets>, samples: seq<SamplingResult>)
    requires Sized(ts, samples) && ts != []
    ensures Sized(ts[1..], samples[1..])
  {
    assert forall m :: 0 <= m < |ts| - 1 ==> ts[1..][m] == ts[m + 1] && samples[1..][m] == samples[m + 1];
  }

  /** Region `k` of the left part keeps its place when parts are joined. */
  lemma {:induction false} AppendLeft(a: Targets, b: Targets, n: nat, k: nat)
    requires HasLength(a, n) && k < n
    ensures SameRegion(Append(a, b), k, a, k)
  {
  }

  /** Region `k` of the right part moves past the `n` regions of the left. */
  lemma {:induction false} AppendRight(a: Targets, b: Targets, n: nat, m: nat, k: nat)
    requires HasLength(a, n) && HasLength(b, m) && k < m
    ensures SameRegion(Append(a, b), n + k, b, k)
  {
  }

  lemma {:induction false} SameRegionTrans(a: Targets, k: nat, b: Targets, i: nat, c: Targets, l: nat)
    requires SameRegion(a, k, b, i) && SameRegion(b, i, c, l)
    ensures SameRegion(a, k, c, l)
  {
  }

  lemma {:induction false} ConcatTargetsLength(ts: seq<Targets>, samples: seq<SamplingResult>)
    requires Sized(ts, samples)
    ensures HasLength(ConcatTargets(ts), Offset(samples, |samples|))
  {
    if ts != [] {
      SizedHead(ts, samples);
      SizedTail(ts, samples);
      ConcatTargetsLength(ts[1..], samples[1..]);
    }
  }

  /** With `concat`, each array is the per-image arrays joined in image
      order: its length is the total region count, and image `j`'s region
      `i` is at `Offset(j) + i`, positives before negatives within each
      image. */
  lemma {:induction false} GetTargetsConcatenated(h: Head, samples: seq<SamplingResult>, cfgPosWeight: real, j: nat, i: nat)
    requires AllAligned(samples)
    requires j < |samples| && i < NumSamples(samples[j])
    ensures GetTargets(h, samples, cfgPosWeight, true).Success?
    ensures HasLength(GetTargets(h, samples, cfgPosWeight, true).value.all, Offset(samples, |samples|))
    ensures Offset(samples, j) + i < Offset(samples, |samples|)
    ensures SameRegion(GetTargets(h, samples, cfgPosWeight, true).value.all, Offset(samples, j) + i,
                       AssignTargets(h, samples[j], cfgPosWeight), i)
  {
    var ts := PerImageTargets(h, samples, cfgPosWeight);
    PerImageLengths(h, samples, cfgPosWeight);
    ConcatTargetsAt(ts, samples, j, i);
    ConcatTargetsLength(ts, samples);
  }

  lemma {:induction false} PerImageLengths(h: Head, samples: seq<SamplingResult>, cfgPosWeight: real)
    requires AllAligned(samples)
    ensures Sized(PerImageTargets(h, samples, cfgPosWeight), samples)
  {
  }

  predicate AllPositive(ws: seq<real>)
  {
    forall k :: 0 <= k < |ws| ==> ws[k] > 0.0
  }

  predicate WeightsPositive(t: Targets)
  {
    && AllPositive(t.labelWeights) && AllPositive(t.faceWeights)
    && AllPositive(t.colourWeights) && AllPositive(t.motionWeights)
  }

  lemma {:induction false} ConcatWeightsPositive(ts: seq<Targets>)
    requires forall j :: 0 <= j < |ts| ==> WeightsPositive(ts[j])
    ensures WeightsPositive(ConcatTargets(ts))
  {
    if ts != [] {
      ConcatWeightsPositive(ts[1..]);
    }
  }

  /** Every region of the batch takes part in the class loss and in every
      attribute loss: all four weight arrays are positive throughout. */
  lemma {:induction false} GetTargetsWeightsPositive(h: Head, samples: seq<SamplingResult>, cfgPosWeight: real)
    requires AllAligned(samples)
    ensures GetTargets(h, samples, cfgPosWeight, true).Success? ==>
      WeightsPositive(GetTargets(h, samples, cfgPosWeight, true).value.all)
  {
    ConcatWeightsPositive(PerImageTargets(h, samples, cfgPosWeight));
  }

  /** Three positives of classes 0, 0, 1 and two negatives, with 31 classes
      and 3 face values and no positive weight configured. */
  lemma {:induction false} ThreePositivesTwoNegatives(h: Head, s: SamplingResult)
    requires h.numClasses == 31 && h.numFaces == 3
    requires Aligned(s) && |s.posBboxes| == 3 && |s.negBboxes| == 2
    requires s.posGtLabels == [0, 0, 1]
    ensures var t := AssignTargets(h, s, -1.0);
      && t.labels == [0, 0, 1, 31, 31]
      && t.faces == s.posGtFaces + [3, 3]
      && t.labelWeights == [1.0, 1.0, 1.0, 1.0, 1.0]
      && t.faceWeights == [1.0, 1.0, 1.0, 1.0, 1.0]
  {
    var t := AssignTargets(h, s, -1.0);
    assert t.labels == [0, 0, 1] + [31, 31];
    assert t.faces == s.posGtFaces + [3, 3];
    assert t.labelWeights == [1.0, 1.0, 1.0] + [1.0, 1.0];
    assert t.faceWeights == [1.0, 1.0, 1.0] + [1.0, 1.0];
  }
}
