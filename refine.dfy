/** Cascade refinement: regressing each region with the deltas of its
    class, and, per image, refining that image's regions and dropping the
    ones that were ground-truth boxes. */
module Refine {
  import opened Common
  import opened Tensors
  import opened Head

  datatype RefineError =
    | TooManyImageIds          // more distinct image ids than images
    | MissingGtFlags(image: nat)  // no ground-truth flags for this image
    | GatherOutOfRange         // a class's column group lies outside the prediction
    | PredWidth                // class-agnostic prediction not four columns wide
    | GtFlagsTooLong(image: nat)  // more flags than the image has regions

  /** A region with new corners and the same layout: the image-id column
      of a five-column region is carried over. */
  function Rebox(roi: Roi, box: Quad): (r: Roi)
    ensures r.box == box && r.Indexed? == roi.Indexed?
    ensures roi.Indexed? ==> r.imgId == roi.imgId
  {
    match roi
    case Plain(_) => Plain(box)
    case Indexed(id, _) => Indexed(id, box)
  }

  /** The column group `regress_by_class` takes from row `k` of the
      prediction: the region's class, or the only group. */
  function DeltaGroup(h: Head, cls: int): int
  {
    if h.regClassAgnostic then 0 else cls
  }

  /** `torch.gather` of columns `4*label .. 4*label+3` is in range. */
  predicate GatherInRange(cls: int, cols: nat)
  {
    0 <= cls && 4 * cls + 3 < cols
  }

  /** `regress_by_class`. Class-specific regression gathers each row's
      column group of its label and fails when it is out of range;
      class-agnostic regression needs exactly four columns. Each region is
      decoded with its deltas, clipped to the image shape, and keeps its
      layout and image id. */
  function RegressByClass(h: Head, rois: seq<Roi>, labels: seq<int>, pred: Matrix, shape: ImgShape)
    : (r: Result<seq<Roi>, RefineError>)
    requires pred.Wf() && |pred.rows| == |rois| && |labels| == |rois|
    ensures !h.regClassAgnostic ==>
      (r.Success? <==> forall k :: 0 <= k < |labels| ==> GatherInRange(labels[k], pred.cols))
    ensures h.regClassAgnostic ==> (r.Success? <==> pred.cols == 4)
    ensures r.Failure? ==> r.error == if h.regClassAgnostic then PredWidth else GatherOutOfRange
    ensures r.Success? ==>
      && |r.value| == |rois|
      && forall k :: 0 <= k < |rois| ==>
           var g := DeltaGroup(h, labels[k]);
           && 0 <= g && 4 * g + 3 < pred.cols
           && r.value[k].Indexed? == rois[k].Indexed?
           && (rois[k].Indexed? ==> r.value[k].imgId == rois[k].imgId)
           && r.value[k].box == h.coder.decode(rois[k].box,
                Quad(pred.rows[k][4 * g], pred.rows[k][4 * g + 1], pred.rows[k][4 * g + 2], pred.rows[k][4 * g + 3]),
                Some(shape))
  {
    if !h.regClassAgnostic && exists k :: 0 <= k < |labels| && !GatherInRange(labels[k], pred.cols) then
      Failure(GatherOutOfRange)
    else if h.regClassAgnostic && pred.cols != 4 then
      Failure(PredWidth)
    else
      assert forall k :: 0 <= k < |labels| ==> GatherInRange(DeltaGroup(h, labels[k]), pred.cols);
      var out := seq(|rois|, k requires 0 <= k < |rois| =>
        Rebox(rois[k], h.coder.decode(rois[k].box, Group(pred.rows[k], DeltaGroup(h, labels[k])), Some(shape))));
      assert forall k :: 0 <= k < |rois| ==>
        out[k] == Rebox(rois[k], h.coder.decode(rois[k].box, Group(pred.rows[k], DeltaGroup(h, labels[k])), Some(shape)));
      Success(out)
  }

  /** `.long()` of an image id: truncation toward zero. */
  function Trunc(x: real): (n: int)
    ensures x >= 0.0 ==> n as real <= x < n as real + 1.0
    ensures x < 0.0 ==> n as real - 1.0 < x <= n as real
  {
    if x >= 0.0 then x.Floor else -((-x).Floor)
  }

  /** Number of distinct (truncated) image ids among the regions. */
  function ImageIdCount(rois: seq<Roi>): (c: nat)
    requires forall k :: 0 <= k < |rois| ==> rois[k].Indexed?
    ensures c <= |rois|
    ensures c == 0 <==> rois == []
  {
    IdSetBound(rois, |rois|);
    assert rois != [] ==> Trunc(rois[0].imgId) in IdSet(rois, |rois|);
    |IdSet(rois, |rois|)|
  }

  /** The truncated image ids of the first `n` regions. */
  function IdSet(rois: seq<Roi>, n: nat): set<int>
    requires n <= |rois| && forall k :: 0 <= k < |rois| ==> rois[k].Indexed?
  {
    set k | 0 <= k < n :: Trunc(rois[k].imgId)
  }

  /** `n` regions carry at most `n` distinct ids. */
  lemma {:induction false} IdSetBound(rois: seq<Roi>, n: nat)
    requires n <= |rois| && forall k :: 0 <= k < |rois| ==> rois[k].Indexed?
    ensures |IdSet(rois, n)| <= n
  {
    if n > 0 {
      IdSetBound(rois, n - 1);
      assert IdSet(rois, n) == IdSet(rois, n - 1) + {Trunc(rois[n - 1].imgId)};
    }
  }

  /** The regions whose image-id column equals `i`, each once, in
      increasing order, as `nonzero` lists them. */
  function ImageRows(rois: seq<Roi>, i: nat): (inds: seq<nat>)
    requires forall k :: 0 <= k < |rois| ==> rois[k].Indexed?
    ensures forall t :: 0 <= t < |inds| ==> inds[t] < |rois| && rois[inds[t]].imgId == i as real
    ensures forall k :: 0 <= k < |rois| && rois[k].imgId == i as real ==> k in inds
    ensures forall t, u :: 0 <= t < u < |inds| ==> inds[t] < inds[u]
  {
    Nonzero(seq(|rois|, k requires 0 <= k < |rois| => rois[k].imgId == i as real))
  }

  /** Writing `L` flags into the first `min(L, n)` of `n` slots broadcasts
      only when the sizes agree or a single flag is written. */
  predicate FlagsFit(numFlags: nat, numRois: nat)
  {
    numFlags <= numRois || (numFlags == 1 && numRois == 0)
  }

  /** The keep mask of an image with `numRois` regions: a region is kept
      when it lies past the flags or its flag is clear. */
  function KeepMask(flags: seq<bool>, numRois: nat): (m: seq<bool>)
    ensures |m| == numRois
  {
    seq(numRois, j requires 0 <= j < numRois => j >= |flags| || !flags[j])
  }

  /** The keep mask built in place: all ones, then the first flags
      overwritten with their negation. Fails when the flags do not fit. */
  method KeepInds(flags: seq<bool>, numRois: nat) returns (keep: Option<seq<bool>>)
    ensures keep.None? <==> !FlagsFit(|flags|, numRois)
    ensures keep.Some? ==>
      |keep.value| == numRois && forall j :: 0 <= j < numRois ==> (keep.value[j] <==> j >= |flags| || !flags[j])
  {
    if !FlagsFit(|flags|, numRois) {
      return None;
    }
    var a := new bool[numRois](_ => true);
    var m := if |flags| < numRois then |flags| else numRois;
    var j := 0;
    while j < m
      invariant 0 <= j <= m
      invariant forall x :: 0 <= x < j ==> a[x] == !flags[x]
      invariant forall x :: j <= x < numRois ==> a[x]
    {
      a[j] := !flags[j];
      j := j + 1;
    }
    keep := Some(a[..]);
  }

  /** The inputs `refine_bboxes` expects: five-column regions, one label
      and one prediction row per region. */
  ghost predicate RefineInputs(rois: seq<Roi>, labels: seq<int>, pred: Matrix)
  {
    && (forall k :: 0 <= k < |rois| ==> rois[k].Indexed?)
    && |labels| == |rois|
    && pred.Wf() && |pred.rows| == |rois|
  }

  /** Image `i`'s regions as four-column boxes, with their labels and
      prediction rows. */
  function ImageBoxes(rois: seq<Roi>, inds: seq<nat>): seq<Roi>
    requires forall t :: 0 <= t < |inds| ==> inds[t] < |rois|
  {
    seq(|inds|, t requires 0 <= t < |inds| => Plain(rois[inds[t]].box))
  }

  /** What `refine_bboxes` produces for image `i`: that image's regions
      refined by their class's deltas (clipped to the image), minus those
      flagged as ground truth. */
  function RefinedImage(h: Head, rois: seq<Roi>, labels: seq<int>, pred: Matrix,
                        posIsGts: seq<seq<bool>>, shapes: seq<ImgShape>, i: nat)
    : (r: Result<seq<Quad>, RefineError>)
    requires RefineInputs(rois, labels, pred) && i < |shapes|
    ensures r.Failure? ==> r.error != TooManyImageIds
    ensures r.Success? ==> |r.value| <= |ImageRows(rois, i)|
  {
    var inds := ImageRows(rois, i);
    if i >= |posIsGts| then Failure(MissingGtFlags(i))
    else
      match RegressByClass(h, ImageBoxes(rois, inds), Gather(labels, inds),
                           Matrix(Gather(pred.rows, inds), pred.cols), shapes[i])
      case Failure(e) => Failure(e)
      case Success(refined) =>
        if !FlagsFit(|posIsGts[i]|, |inds|) then Failure(GtFlagsTooLong(i))
        else Success(Select(seq(|refined|, j requires 0 <= j < |refined| => refined[j].box),
                            KeepMask(posIsGts[i], |inds|)))
  }

  /** `refine_bboxes`: after checking that there are no more distinct image
      ids than images, each image in turn is refined; the first failing
      image's error is the result, otherwise one box list per image, in
      image order. */
  method RefineBboxes(h: Head, rois: seq<Roi>, labels: seq<int>, pred: Matrix,
                      posIsGts: seq<seq<bool>>, shapes: seq<ImgShape>)
    returns (r: Result<seq<seq<Quad>>, RefineError>)
    requires RefineInputs(rois, labels, pred)
    ensures (r.Failure? && r.error == TooManyImageIds) <==> ImageIdCount(rois) > |shapes|
    ensures r.Success? <==> (ImageIdCount(rois) <= |shapes| &&
      forall i :: 0 <= i < |shapes| ==> RefinedImage(h, rois, labels, pred, posIsGts, shapes, i).Success?)
    ensures r.Success? ==> (|r.value| == |shapes| &&
      forall i :: 0 <= i < |shapes| ==> r.value[i] == RefinedImage(h, rois, labels, pred, posIsGts, shapes, i).value)
    ensures r.Failure? && r.error != TooManyImageIds ==>
      exists i :: 0 <= i < |shapes| && RefinedImage(h, rois, labels, pred, posIsGts, shapes, i) == Failure(r.error)
        && forall i' :: 0 <= i' < i ==> RefinedImage(h, rois, labels, pred, posIsGts, shapes, i').Success?
  {
    if ImageIdCount(rois) > |shapes| {
      return Failure(TooManyImageIds);
    }
    var bboxesList: seq<seq<Quad>> := [];
    var i := 0;
    while i < |shapes|
      invariant 0 <= i <= |shapes| && |bboxesList| == i
      invariant forall j :: 0 <= j < i ==>
        RefinedImage(h, rois, labels, pred, posIsGts, shapes, j).Success? &&
        bboxesList[j] == RefinedImage(h, rois, labels, pred, posIsGts, shapes, j).value
    {
      var inds := ImageRows(rois, i);
      if i >= |posIsGts| {
        assert RefinedImage(h, rois, labels, pred, posIsGts, shapes, i) == Failure(MissingGtFlags(i));
        return Failure(MissingGtFlags(i));
      }
      var regressed := RegressByClass(h, ImageBoxes(rois, inds), Gather(labels, inds),
                                      Matrix(Gather(pred.rows, inds), pred.cols), shapes[i]);
      if regressed.Failure? {
        assert RefinedImage(h, rois, labels, pred, posIsGts, shapes, i) == Failure(regressed.error);
        return Failure(regressed.error);
      }
      var keep := KeepInds(posIsGts[i], |inds|);
      if keep.None? {
        assert RefinedImage(h, rois, labels, pred, posIsGts, shapes, i) == Failure(GtFlagsTooLong(i));
        return Failure(GtFlagsTooLong(i));
      }
      var boxes := seq(|regressed.value|, j requires 0 <= j < |regressed.value| => regressed.value[j].box);
      assert keep.value == KeepMask(posIsGts[i], |inds|);
      bboxesList := bboxesList + [Select(boxes, keep.value)];
      i := i + 1;
    }
    r := Success(bboxesList);
  }

  /** An image keeps one region per clear flag and every region past the
      flags: its regions minus its set flags. */
  lemma {:induction false} KeepMaskCount(flags: seq<bool>, numRois: nat)
    requires |flags| <= numRois
    ensures CountTrue(KeepMask(flags, numRois)) == numRois - CountTrue(flags)
  {
    if numRois > 0 {
      var n := numRois - 1;
      var m := KeepMask(flags, numRois);
      KeepMaskPrefix(flags, numRois);
      if |flags| == numRois {
        var f := flags[..n];
        KeepMaskCount(f, n);
        assert CountTrue(m[..n]) == n - CountTrue(f);
        assert m[n] == !flags[n];
      } else {
        KeepMaskCount(flags, n);
        assert CountTrue(m[..n]) == n - CountTrue(flags);
        assert m[n];
      }
    }
  }

  /** Dropping the last region of a keep mask leaves the mask of one
      region fewer, over the flags that still fit, and the last entry is
      kept exactly when it lies past the flags or its flag is clear. */
  lemma {:induction false} KeepMaskPrefix(flags: seq<bool>, numRois: nat)
    requires 0 < numRois && |flags| <= numRois
    ensures var n := numRois - 1;
      && KeepMask(flags, numRois)[..n] == KeepMask(if |flags| == numRois then flags[..n] else flags, n)
      && KeepMask(flags, numRois)[n] == (|flags| < numRois || !flags[n])
  {
    var n := numRois - 1;
    var f := if |flags| == numRois then flags[..n] else flags;
    assert forall j :: 0 <= j < n ==> KeepMask(flags, numRois)[..n][j] == KeepMask(f, n)[j];
  }

  /** Row `t` of a refined image is the `j`-th region of that image, for a
      `j` the keep mask holds at (past the flags, or flag clear): that
      region's box decoded with its class's deltas and clipped to the
      image. Without flags set, nothing is dropped. */
  lemma {:induction false} RefinedImageAt(h: Head, rois: seq<Roi>, labels: seq<int>, pred: Matrix,
                       posIsGts: seq<seq<bool>>, shapes: seq<ImgShape>, i: nat, t: nat)
    requires RefineInputs(rois, labels, pred) && i < |shapes|
    requires RefinedImage(h, rois, labels, pred, posIsGts, shapes, i).Success?
    requires t < |RefinedImage(h, rois, labels, pred, posIsGts, shapes, i).value|
    ensures i < |posIsGts|
    ensures var inds := ImageRows(rois, i);
      var j := Nonzero(KeepMask(posIsGts[i], |inds|))[t];
      var g := DeltaGroup(h, labels[inds[j]]);
      && j < |inds| && (j >= |posIsGts[i]| || !posIsGts[i][j])
      && 0 <= g && 4 * g + 3 < pred.cols
      && rois[inds[j]].imgId == i as real
      && RefinedImage(h, rois, labels, pred, posIsGts, shapes, i).value[t]
         == h.coder.decode(rois[inds[j]].box, Group(pred.rows[inds[j]], g), Some(shapes[i]))
  {
    var inds := ImageRows(rois, i);
    var j := Nonzero(KeepMask(posIsGts[i], |inds|))[t];
    var boxes := ImageBoxes(rois, inds);
    var ls := Gather(labels, inds);
    var m := Matrix(Gather(pred.rows, inds), pred.cols);
    var refined := RegressByClass(h, boxes, ls, m, shapes[i]);
    assert refined.Success?;
    assert m.rows[j] == pred.rows[inds[j]] && ls[j] == labels[inds[j]] && boxes[j].box == rois[inds[j]].box;
  }

  /** When an image's flags fit, it keeps all its regions but the flagged
      ones. */
  lemma {:induction false} RefinedImageCount(h: Head, rois: seq<Roi>, labels: seq<int>, pred: Matrix,
                          posIsGts: seq<seq<bool>>, shapes: seq<ImgShape>, i: nat)
    requires RefineInputs(rois, labels, pred) && i < |shapes|
    requires RefinedImage(h, rois, labels, pred, posIsGts, shapes, i).Success?
    ensures i < |posIsGts|
    ensures |posIsGts[i]| <= |ImageRows(rois, i)| ==>
      |RefinedImage(h, rois, labels, pred, posIsGts, shapes, i).value|
      == |ImageRows(rois, i)| - CountTrue(posIsGts[i])
  {
    if |posIsGts[i]| <= |ImageRows(rois, i)| {
      KeepMaskCount(posIsGts[i], |ImageRows(rois, i)|);
      NonzeroCount(KeepMask(posIsGts[i], |ImageRows(rois, i)|));
    }
  }
}
