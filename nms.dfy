/** The multi-class NMS wrapper: candidate (region, class) pairs are laid
    out row-major, thresholded on their score, handed to the external
    class-aware NMS, and the result is truncated to a maximum count. */
module Nms {
  import opened Common
  import opened Tensors

  /** A detection: a box and its (factor-scaled) score, a row of five. */
  datatype Det = Det(box: Quad, score: real)

  /** The external class-aware NMS (`batched_nms` with its configuration):
      given candidate boxes, scores and labels, the detections it keeps and
      their indices among the candidates. */
  type BatchedNms = (seq<Quad>, seq<real>, seq<int>) -> (seq<Det>, seq<nat>)

  /** What the wrapper returns: detections, their labels, and the indices
      when asked for them. */
  datatype NmsOutput = NmsOutput(dets: seq<Det>, labels: seq<int>, inds: Option<seq<nat>>)

  /** Why the wrapper raises: `view(0, -1, 4)` of per-class boxes when
      there are no regions (the `-1` is ambiguous on no elements);
      `labels[keep]` with an index the NMS made up past the candidates; a
      name the module never binds. */
  datatype NmsError = AmbiguousReshape | KeepOutOfRange | UnboundName(name: string)

  /** Per-class boxes of no regions: the reshape at the top of the wrapper
      cannot infer its middle dimension. */
  predicate EmptyView(bboxes: Matrix, scores: Matrix)
  {
    bboxes.cols > 4 && |scores.rows| == 0
  }

  /** The inputs as the wrapper expects them: one score row per region
      with a trailing background column, and a box row per region that is
      either one shared box or one box per foreground class. Score factors,
      when given, hold one factor per region, or a single factor that
      broadcasts to all. */
  ghost predicate WellShaped(bboxes: Matrix, scores: Matrix, factors: Option<seq<real>>)
  {
    && Candidates(bboxes, scores)
    && (factors.Some? ==> |factors.value| == |scores.rows| || |factors.value| == 1)
  }

  ghost predicate Candidates(bboxes: Matrix, scores: Matrix)
  {
    && scores.Wf() && scores.cols >= 1
    && bboxes.Wf() && |bboxes.rows| == |scores.rows|
    && (bboxes.cols == 4 || (bboxes.cols > 4 && bboxes.cols == 4 * (scores.cols - 1)))
  }

  /** Number of foreground classes: the background column is dropped. */
  function NumClasses(scores: Matrix): nat
    requires scores.cols >= 1
  {
    scores.cols - 1
  }

  /** The foreground scores of each region: `multi_scores[:, :-1]`. */
  function ScoreRows(scores: Matrix): (rows: seq<seq<real>>)
    requires scores.Wf() && scores.cols >= 1
    ensures |rows| == |scores.rows| && Rectangular(rows, NumClasses(scores))
    ensures forall r, j :: 0 <= r < |rows| && 0 <= j < NumClasses(scores) ==>
      rows[r][j] == scores.rows[r][j]
  {
    seq(|scores.rows|, r requires 0 <= r < |scores.rows| => scores.rows[r][..NumClasses(scores)])
  }

  /** Flattened foreground scores `multi_scores[:, :-1].reshape(-1)`. */
  function FlatScores(scores: Matrix): (s: seq<real>)
    requires scores.Wf() && scores.cols >= 1
    ensures |s| == |scores.rows| * NumClasses(scores)
  {
    FlattenRectLength(ScoreRows(scores), NumClasses(scores));
    Flatten(ScoreRows(scores))
  }

  /** The label of every (region, class) pair: its class index. */
  function LabelRows(n: nat, c: nat): (rows: seq<seq<int>>)
    ensures |rows| == n && Rectangular(rows, c)
    ensures forall r, j :: 0 <= r < n && 0 <= j < c ==> rows[r][j] == j
  {
    seq(n, r => seq(c, j => j))
  }

  /** Flattened labels `arange(C).expand_as(scores).reshape(-1)`. */
  function FlatLabels(n: nat, c: nat): (s: seq<int>)
    ensures |s| == n * c
  {
    FlattenRectLength(LabelRows(n, c), c);
    Flatten(LabelRows(n, c))
  }

  /** The box of every (region, class) pair: the class's column group when
      there are several, else the region's only box, repeated. */
  function BoxRows(bboxes: Matrix, c: nat): (rows: seq<seq<Quad>>)
    requires bboxes.Wf() && (bboxes.cols == 4 || bboxes.cols == 4 * c)
    ensures |rows| == |bboxes.rows| && Rectangular(rows, c)
    ensures forall r, j :: 0 <= r < |rows| && 0 <= j < c ==>
      rows[r][j] == Group(bboxes.rows[r], if bboxes.cols > 4 then j else 0)
  {
    seq(|bboxes.rows|, r requires 0 <= r < |bboxes.rows| =>
      seq(c, j requires 0 <= j < c => Group(bboxes.rows[r], if bboxes.cols > 4 then j else 0)))
  }

  /** Flattened boxes `bboxes.reshape(-1, 4)`. */
  function FlatBoxes(bboxes: Matrix, c: nat): (s: seq<Quad>)
    requires bboxes.Wf() && (bboxes.cols == 4 || bboxes.cols == 4 * c)
    ensures |s| == |bboxes.rows| * c
  {
    FlattenRectLength(BoxRows(bboxes, c), c);
    Flatten(BoxRows(bboxes, c))
  }

  /** Each region's score factor repeated per class; a single factor
      broadcasts to every region. */
  function FactorRows(factors: seq<real>, n: nat, c: nat): (rows: seq<seq<real>>)
    requires |factors| == n || |factors| == 1
    ensures |rows| == n && Rectangular(rows, c)
    ensures forall r :: 0 <= r < n ==> rows[r] == Full(c, FactorOf(factors, n, r))
  {
    seq(n, r requires 0 <= r < n => Full(c, FactorOf(factors, n, r)))
  }

  /** Flattened score factors. */
  function FlatFactors(factors: seq<real>, n: nat, c: nat): (s: seq<real>)
    requires |factors| == n || |factors| == 1
    ensures |s| == n * c
  {
    FlattenRectLength(FactorRows(factors, n, c), c);
    Flatten(FactorRows(factors, n, c))
  }

  /** Candidate `k` of the flattened layout belongs to region `k / C` and
      class `k % C`: its score, label and box are those of that pair. */
  lemma {:induction false} CandidateAt(bboxes: Matrix, scores: Matrix, k: nat)
    requires Candidates(bboxes, scores)
    requires k < |scores.rows| * NumClasses(scores)
    ensures NumClasses(scores) > 0
    ensures k / NumClasses(scores) < |scores.rows| && k % NumClasses(scores) < NumClasses(scores)
    ensures FlatScores(scores)[k] == scores.rows[k / NumClasses(scores)][k % NumClasses(scores)]
    ensures FlatLabels(|scores.rows|, NumClasses(scores))[k] == k % NumClasses(scores)
    ensures FlatBoxes(bboxes, NumClasses(scores))[k]
         == Group(bboxes.rows[k / NumClasses(scores)], if bboxes.cols > 4 then k % NumClasses(scores) else 0)
  {
    FlatScoreAt(scores, k);
    FlatLabelAt(|scores.rows|, NumClasses(scores), k);
    FlatBoxAt(bboxes, |scores.rows|, NumClasses(scores), k);
  }

  lemma {:induction false} FlatScoreAt(scores: Matrix, k: nat)
    requires scores.Wf() && scores.cols >= 1
    requires k < |scores.rows| * NumClasses(scores)
    ensures NumClasses(scores) > 0
    ensures k / NumClasses(scores) < |scores.rows| && k % NumClasses(scores) < NumClasses(scores)
    ensures FlatScores(scores)[k] == scores.rows[k / NumClasses(scores)][k % NumClasses(scores)]
  {
    FlattenRectAt(ScoreRows(scores), NumClasses(scores), k);
  }

  lemma {:induction false} FlatLabelAt(n: nat, c: nat, k: nat)
    requires k < n * c
    ensures c > 0 && k / c < n && k % c < c
    ensures FlatLabels(n, c)[k] == k % c
  {
    FlattenRectAt(LabelRows(n, c), c, k);
  }

  lemma {:induction false} FlatBoxAt(bboxes: Matrix, n: nat, c: nat, k: nat)
    requires bboxes.Wf() && (bboxes.cols == 4 || bboxes.cols == 4 * c)
    requires |bboxes.rows| == n && k < n * c
    ensures c > 0 && k / c < n && k % c < c
    ensures FlatBoxes(bboxes, c)[k] == Group(bboxes.rows[k / c], if bboxes.cols > 4 then k % c else 0)
  {
    FlattenRectAt(BoxRows(bboxes, c), c, k);
  }

  /** `valid_mask`: the candidates whose score is strictly above the
      threshold. */
  function ValidMask(scores: Matrix, thr: real): (m: seq<bool>)
    requires scores.Wf() && scores.cols >= 1
    ensures |m| == |FlatScores(scores)|
  {
    var s := FlatScores(scores);
    seq(|s|, k requires 0 <= k < |s| => s[k] > thr)
  }

  /** The surviving candidates, in increasing flat index. */
  function Survivors(scores: Matrix, thr: real): (inds: seq<nat>)
    requires scores.Wf() && scores.cols >= 1
    ensures forall t :: 0 <= t < |inds| ==> inds[t] < |scores.rows| * NumClasses(scores)
    ensures forall t, u :: 0 <= t < u < |inds| ==> inds[t] < inds[u]
  {
    Nonzero(ValidMask(scores, thr))
  }

  /** The `t`-th survivor is a (region, class) pair scoring above the
      threshold, labelled with its class. */
  lemma {:induction false} SurvivorAt(bboxes: Matrix, scores: Matrix, thr: real, t: nat)
    requires Candidates(bboxes, scores)
    requires t < |Survivors(scores, thr)|
    ensures var c, k := NumClasses(scores), Survivors(scores, thr)[t];
      && c > 0 && k < |scores.rows| * c && k < |FlatLabels(|scores.rows|, c)|
      && k / c < |scores.rows| && k % c < c
      && scores.rows[k / c][k % c] > thr
      && FlatLabels(|scores.rows|, c)[k] == k % c
  {
    var k := Survivors(scores, thr)[t];
    CandidateAt(bboxes, scores, k);
  }

  /** Every (region, class) pair scoring above the threshold survives, at
      flat position `region * C + class`. */
  lemma {:induction false} SurvivorComplete(bboxes: Matrix, scores: Matrix, thr: real, r: nat, j: nat)
    requires Candidates(bboxes, scores)
    requires r < |scores.rows| && j < NumClasses(scores) && scores.rows[r][j] > thr
    ensures r * NumClasses(scores) + j in Survivors(scores, thr)
  {
    var n, c := |scores.rows|, NumClasses(scores);
    var k := r * c + j;
    PairIndexBound(r, j, n, c);
    DivModUnique(k, c, r, j);
    CandidateAt(bboxes, scores, k);
    assert ValidMask(scores, thr)[k];
  }

  /** Region `r`'s score factor. */
  function FactorOf(factors: seq<real>, n: nat, r: nat): real
    requires |factors| == n || |factors| == 1
    requires r < n
  {
    if |factors| == 1 then factors[0] else factors[r]
  }

  /** The score of pair (r, j) as the NMS sees it: multiplied by region
      `r`'s factor when factors are given. */
  function PairScore(scores: Matrix, factors: Option<seq<real>>, r: nat, j: nat): real
    requires scores.Wf() && r < |scores.rows| && j < scores.cols
    requires factors.Some? ==> |factors.value| == |scores.rows| || |factors.value| == 1
  {
    if factors.Some? then scores.rows[r][j] * FactorOf(factors.value, |scores.rows|, r)
    else scores.rows[r][j]
  }

  /** The flattened scores, each multiplied by its region's factor when
      factors are given. */
  function ScaledScores(scores: Matrix, factors: Option<seq<real>>): (s: seq<real>)
    requires scores.Wf() && scores.cols >= 1
    requires factors.Some? ==> |factors.value| == |scores.rows| || |factors.value| == 1
    ensures |s| == |FlatScores(scores)|
  {
    var flat := FlatScores(scores);
    if factors.Some? then
      var f := FlatFactors(factors.value, |scores.rows|, NumClasses(scores));
      FlattenRectLength(ScoreRows(scores), NumClasses(scores));
      FlattenRectLength(FactorRows(factors.value, |scores.rows|, NumClasses(scores)), NumClasses(scores));
      seq(|flat|, k requires 0 <= k < |flat| => flat[k] * f[k])
    else flat
  }

  /** The survivors' boxes, as handed to the NMS. */
  function CandBoxes(bboxes: Matrix, scores: Matrix, thr: real): (b: seq<Quad>)
    requires Candidates(bboxes, scores)
    ensures |b| == |Survivors(scores, thr)|
  {
    SurvivorLabels(bboxes, scores, thr);
    Gather(FlatBoxes(bboxes, NumClasses(scores)), Survivors(scores, thr))
  }

  /** The survivors' (scaled) scores, as handed to the NMS. */
  function CandScores(bboxes: Matrix, scores: Matrix, thr: real, factors: Option<seq<real>>): (s: seq<real>)
    requires WellShaped(bboxes, scores, factors)
    ensures |s| == |Survivors(scores, thr)|
  {
    SurvivorLabels(bboxes, scores, thr);
    Gather(ScaledScores(scores, factors), Survivors(scores, thr))
  }

  /** The survivors' labels, as handed to the NMS: all foreground classes. */
  function CandLabels(bboxes: Matrix, scores: Matrix, thr: real): (l: seq<int>)
    requires Candidates(bboxes, scores)
    ensures |l| == |Survivors(scores, thr)|
    ensures forall t :: 0 <= t < |l| ==> 0 <= l[t] < NumClasses(scores)
  {
    SurvivorLabels(bboxes, scores, thr);
    Gather(FlatLabels(|scores.rows|, NumClasses(scores)), Survivors(scores, thr))
  }

  /** What the NMS is given for survivor `t` at flat position `k`: the
      box of pair (k / C, k % C) and the class `k % C`. */
  lemma {:induction false} CandBoxLabelAt(bboxes: Matrix, scores: Matrix, thr: real, t: nat)
    requires Candidates(bboxes, scores)
    requires t < |Survivors(scores, thr)|
    ensures var c, k := NumClasses(scores), Survivors(scores, thr)[t];
      && c > 0 && k / c < |scores.rows| && k % c < c
      && CandBoxes(bboxes, scores, thr)[t] == Group(bboxes.rows[k / c], if bboxes.cols > 4 then k % c else 0)
      && CandLabels(bboxes, scores, thr)[t] == k % c
  {
    var k := Survivors(scores, thr)[t];
    CandidateAt(bboxes, scores, k);
  }

  /** The score the NMS is given for survivor `t` at flat position `k`:
      the score of pair (k / C, k % C), times its region's factor when
      factors are given. */
  lemma {:induction false} CandScoreAt(bboxes: Matrix, scores: Matrix, thr: real, factors: Option<seq<real>>, t: nat)
    requires WellShaped(bboxes, scores, factors)
    requires t < |Survivors(scores, thr)|
    ensures NumClasses(scores) > 0
    ensures Survivors(scores, thr)[t] / NumClasses(scores) < |scores.rows|
    ensures CandScores(bboxes, scores, thr, factors)[t]
         == PairScore(scores, factors, Survivors(scores, thr)[t] / NumClasses(scores),
                      Survivors(scores, thr)[t] % NumClasses(scores))
  {
    var k := Survivors(scores, thr)[t];
    ScaledScoreAt(bboxes, scores, factors, k);
  }

  /** Flat score `k` after scaling: the score of pair (k / C, k % C),
      times its region's factor when factors are given. */
  lemma {:induction false} ScaledScoreAt(bboxes: Matrix, scores: Matrix, factors: Option<seq<real>>, k: nat)
    requires WellShaped(bboxes, scores, factors)
    requires k < |scores.rows| * NumClasses(scores)
    ensures NumClasses(scores) > 0
    ensures k / NumClasses(scores) < |scores.rows| && k % NumClasses(scores) < NumClasses(scores)
    ensures k < |ScaledScores(scores, factors)|
    ensures ScaledScores(scores, factors)[k]
         == PairScore(scores, factors, k / NumClasses(scores), k % NumClasses(scores))
  {
    var n, c := |scores.rows|, NumClasses(scores);
    CandidateAt(bboxes, scores, k);
    if factors.Some? {
      FlattenRectAt(FactorRows(factors.value, n, c), c, k);
    }
  }

  /** Pair (r, j) of an `n` by `c` grid has a flat index below `n * c`. */
  lemma {:induction false} PairIndexBound(r: nat, j: nat, n: nat, c: nat)
    requires r < n && j < c
    ensures r * c + j < n * c
  {
    MulSucc(n - r, c);
    assert n * c == (n - r) * c + r * c;
  }

  /** `multiclass_nms`, with `batched_nms` bound to `nms`. Per-class boxes
      of no regions fail the initial reshape. Otherwise candidates scoring
      above `thr` survive, in flat order, with their scores multiplied by
      the region's factor after thresholding. With no survivor the result
      is empty and the NMS is not consulted. Otherwise the NMS result is cut
      to `maxNum` entries when `maxNum > 0` and the labels are looked up by
      the kept indices; the returned indices are positions among the
      survivors. */
  function MulticlassNms(bboxes: Matrix, scores: Matrix, thr: real, nms: BatchedNms,
                         maxNum: int, factors: Option<seq<real>>, returnInds: bool)
    : (r: Result<NmsOutput, NmsError>)
    requires WellShaped(bboxes, scores, factors)
    ensures EmptyView(bboxes, scores) ==> r == Failure(AmbiguousReshape)
    ensures !EmptyView(bboxes, scores) && Survivors(scores, thr) == [] ==>
      r == Success(NmsOutput([], [], if returnInds then Some([]) else None))
    ensures Survivors(scores, thr) != [] ==>
      var (dets, keep) := nms(CandBoxes(bboxes, scores, thr), CandScores(bboxes, scores, thr, factors),
                              CandLabels(bboxes, scores, thr));
      var keep' := Truncate(keep, maxNum);
      && (r.Failure? <==> exists t :: 0 <= t < |keep'| && keep'[t] >= |Survivors(scores, thr)|)
      && (r.Success? ==>
            && r.value.dets == Truncate(dets, maxNum)
            && r.value.inds == (if returnInds then Some(keep') else None)
            && |r.value.labels| == |keep'|
            && forall t :: 0 <= t < |keep'| ==>
                 keep'[t] < |Survivors(scores, thr)|
                 && r.value.labels[t] == CandLabels(bboxes, scores, thr)[keep'[t]])
    ensures r.Success? ==> forall t :: 0 <= t < |r.value.labels| ==>
      0 <= r.value.labels[t] < NumClasses(scores)
    ensures r.Failure? ==> r.error == if EmptyView(bboxes, scores) then AmbiguousReshape else KeepOutOfRange
  {
    var candLabels := CandLabels(bboxes, scores, thr);
    if EmptyView(bboxes, scores) then
      Failure(AmbiguousReshape)
    else if |Survivors(scores, thr)| == 0 then
      Success(NmsOutput([], [], if returnInds then Some([]) else None))
    else
      var (dets, keep) := nms(CandBoxes(bboxes, scores, thr), CandScores(bboxes, scores, thr, factors),
                              candLabels);
      var dets' := Truncate(dets, maxNum);
      var keep' := Truncate(keep, maxNum);
      if exists t :: 0 <= t < |keep'| && keep'[t] >= |candLabels| then
        Failure(KeepOutOfRange)
      else
        Success(NmsOutput(dets', Gather(candLabels, keep'), if returnInds then Some(keep') else None))
  }

  /** `multiclass_nms` as the module is written: it calls `batched_nms`,
      which it never imports, so it raises NameError whenever some
      candidate survives the threshold; before that call it behaves as
      `MulticlassNms`. */
  function MulticlassNmsAsWritten(bboxes: Matrix, scores: Matrix, thr: real, maxNum: int,
                                  factors: Option<seq<real>>, returnInds: bool)
    : (r: Result<NmsOutput, NmsError>)
    requires WellShaped(bboxes, scores, factors)
    ensures r == Failure(UnboundName("batched_nms")) <==> Survivors(scores, thr) != []
  {
    if EmptyView(bboxes, scores) then
      Failure(AmbiguousReshape)
    else if |Survivors(scores, thr)| == 0 then
      Success(NmsOutput([], [], if returnInds then Some([]) else None))
    else
      Failure(UnboundName("batched_nms"))
  }

  /** Where the written wrapper never reaches the NMS call, it agrees with
      the intended one, whatever NMS that one is given. */
  lemma {:induction false} MulticlassNmsAgreement(bboxes: Matrix, scores: Matrix, thr: real, nms: BatchedNms,
                                                 maxNum: int, factors: Option<seq<real>>, returnInds: bool)
    requires WellShaped(bboxes, scores, factors)
    requires Survivors(scores, thr) == []
    ensures MulticlassNmsAsWritten(bboxes, scores, thr, maxNum, factors, returnInds)
         == MulticlassNms(bboxes, scores, thr, nms, maxNum, factors, returnInds)
  {
  }

  /** One region of one foreground class scoring 0.9 against a threshold
      of 0.5: the written wrapper raises NameError, while the intended one,
      with any NMS, never fails on a name. */
  lemma {:induction false} MulticlassNmsDiscrepancy(nms: BatchedNms)
    ensures var bboxes, scores := Matrix([[0.0, 0.0, 1.0, 1.0]], 4), Matrix([[0.9, 0.1]], 2);
      && WellShaped(bboxes, scores, None)
      && MulticlassNmsAsWritten(bboxes, scores, 0.5, -1, None, false) == Failure(UnboundName("batched_nms"))
      && MulticlassNms(bboxes, scores, 0.5, nms, -1, None, false) != Failure(UnboundName("batched_nms"))
  {
    var bboxes, scores := Matrix([[0.0, 0.0, 1.0, 1.0]], 4), Matrix([[0.9, 0.1]], 2);
    assert scores.rows[0][0] > 0.5;
    SurvivorComplete(bboxes, scores, 0.5, 0, 0);
  }

  /** `xs[:max_num]` applied only when `max_num > 0`: the first `max_num`
      entries, or all of them when there are fewer or no limit is set. */
  function Truncate<T>(xs: seq<T>, maxNum: int): (r: seq<T>)
    ensures maxNum <= 0 ==> r == xs
    ensures maxNum > 0 ==> |r| == (if maxNum < |xs| then maxNum else |xs|)
    ensures r == xs[..|r|]
  {
    if maxNum > 0 && maxNum < |xs| then xs[..maxNum] else xs
  }

  /** Every survivor's label is a foreground class. */
  lemma {:induction false} SurvivorLabels(bboxes: Matrix, scores: Matrix, thr: real)
    requires Candidates(bboxes, scores)
    ensures var c, inds := NumClasses(scores), Survivors(scores, thr);
      forall t :: 0 <= t < |inds| ==>
        inds[t] < |FlatLabels(|scores.rows|, c)| && 0 <= FlatLabels(|scores.rows|, c)[inds[t]] < c
  {
    forall t | 0 <= t < |Survivors(scores, thr)| {
      SurvivorAt(bboxes, scores, thr, t);
    }
  }

  /** Any `maxNum` that is not positive means "no limit": the result is
      the same as for the default -1. */
  lemma {:induction false} MaxNumNonPositiveUnlimited(bboxes: Matrix, scores: Matrix, thr: real, nms: BatchedNms,
                                   maxNum: int, factors: Option<seq<real>>, returnInds: bool)
    requires WellShaped(bboxes, scores, factors)
    requires maxNum <= 0
    ensures MulticlassNms(bboxes, scores, thr, nms, maxNum, factors, returnInds)
         == MulticlassNms(bboxes, scores, thr, nms, -1, factors, returnInds)
  {
  }

  /** A positive `maxNum` bounds the number of detections and labels. */
  lemma {:induction false} MaxNumBounds(bboxes: Matrix, scores: Matrix, thr: real, nms: BatchedNms,
                     maxNum: int, factors: Option<seq<real>>, returnInds: bool)
    requires WellShaped(bboxes, scores, factors)
    requires maxNum > 0
    ensures var r := MulticlassNms(bboxes, scores, thr, nms, maxNum, factors, returnInds);
      r.Success? ==> |r.value.dets| <= maxNum && |r.value.labels| <= maxNum
  {
  }

  /** With no survivor the NMS is never consulted: any two NMS
      implementations give the same result, empty unless the boxes fail
      the initial reshape. */
  lemma {:induction false} EmptyIgnoresNms(bboxes: Matrix, scores: Matrix, thr: real, nms1: BatchedNms, nms2: BatchedNms,
                        maxNum: int, factors: Option<seq<real>>, returnInds: bool)
    requires WellShaped(bboxes, scores, factors)
    requires forall r, j :: 0 <= r < |scores.rows| && 0 <= j < NumClasses(scores) ==> scores.rows[r][j] <= thr
    ensures MulticlassNms(bboxes, scores, thr, nms1, maxNum, factors, returnInds)
         == MulticlassNms(bboxes, scores, thr, nms2, maxNum, factors, returnInds)
         == if EmptyView(bboxes, scores) then Failure(AmbiguousReshape)
            else Success(NmsOutput([], [], if returnInds then Some([]) else None))
  {
    NoSurvivors(bboxes, scores, thr);
  }

  /** Nothing survives when no foreground score exceeds the threshold. */
  lemma {:induction false} NoSurvivors(bboxes: Matrix, scores: Matrix, thr: real)
    requires Candidates(bboxes, scores)
    requires forall r, j :: 0 <= r < |scores.rows| && 0 <= j < NumClasses(scores) ==> scores.rows[r][j] <= thr
    ensures Survivors(scores, thr) == []
  {
    if Survivors(scores, thr) != [] {
      SurvivorAt(bboxes, scores, thr, 0);
    }
  }

  /** Raising the threshold never lets more candidates through. */
  lemma {:induction false} ThresholdMonotone(scores: Matrix, lo: real, hi: real)
    requires scores.Wf() && scores.cols >= 1
    requires lo <= hi
    ensures |Survivors(scores, hi)| <= |Survivors(scores, lo)|
  {
    NonzeroMonotone(ValidMask(scores, lo), ValidMask(scores, hi));
    NonzeroCount(ValidMask(scores, lo));
    NonzeroCount(ValidMask(scores, hi));
  }
}
