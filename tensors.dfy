/** The tensor operations the head is written in, on sequences:
    row-major flattening (`reshape(-1)`, `torch.cat` along dimension 0),
    `nonzero`, index gathering and boolean-mask selection. */
module Tensors {

  /** Concatenation of the parts in order: `torch.cat(xss, 0)`, and
      `reshape(-1)` of a matrix given as its rows. */
  function Flatten<T>(xss: seq<seq<T>>): seq<T>
  {
    if xss == [] then [] else xss[0] + Flatten(xss[1..])
  }

  /** `n` copies of `x`: a tensor made by `new_full`, `new_zeros` or
      `new_ones`. */
  function Full<T>(n: nat, x: T): seq<T>
  {
    seq(n, _ => x)
  }

  /** Every part has length `w`: the rows of a `w`-column matrix. */
  ghost predicate Rectangular<T>(xss: seq<seq<T>>, w: nat)
  {
    forall j :: 0 <= j < |xss| ==> |xss[j]| == w
  }

  /** Quotient and remainder are determined by `k == q * w + r` with
      `0 <= r < w`. */
  lemma {:induction false} DivModUnique(k: int, w: int, q: int, r: int)
    requires w > 0 && 0 <= r < w && k == q * w + r
    ensures k / w == q && k % w == r
  {
    var q', r' := k / w, k % w;
    var d := q - q';
    assert d * w == q * w - q' * w;
    assert d * w == r' - r;
    SmallMultipleIsZero(d, w);
  }

  /** The only multiple of `w` strictly between `-w` and `w` is zero. */
  lemma {:induction false} SmallMultipleIsZero(d: int, w: int)
    requires w > 0 && -w < d * w < w
    ensures d == 0
  {
  }

  /** Taking one whole row off the front lowers the row index by one and
      keeps the column. */
  lemma {:induction false} DivModStep(k: int, w: int)
    requires w > 0 && k >= w
    ensures k / w == (k - w) / w + 1 && k % w == (k - w) % w
  {
    var q, r := (k - w) / w, (k - w) % w;
    assert k == (q + 1) * w + r;
    DivModUnique(k, w, q + 1, r);
  }

  lemma {:induction false} MulSucc(n: int, w: int)
    ensures n * w == (n - 1) * w + w
  {
  }

  /** Row-major flattening of rows of width `w`: flat position `k` holds
      column `k % w` of row `k / w`. */
  lemma {:induction false} FlattenRectAt<T>(xss: seq<seq<T>>, w: nat, k: nat)
    requires Rectangular(xss, w) && k < |xss| * w
    ensures |Flatten(xss)| == |xss| * w
    ensures 0 < w && k / w < |xss| && k % w < w
    ensures Flatten(xss)[k] == xss[k / w][k % w]
  {
    FlattenRectLength(xss, w);
    MulSucc(|xss|, w);
    assert xss != [];
    if k < w {
      DivModUnique(k, w, 0, k);
    } else {
      FlattenRectAt(xss[1..], w, k - w);
      DivModStep(k, w);
      assert Flatten(xss)[k] == Flatten(xss[1..])[k - w];
    }
  }

  lemma {:induction false} FlattenRectLength<T>(xss: seq<seq<T>>, w: nat)
    requires Rectangular(xss, w)
    ensures |Flatten(xss)| == |xss| * w
  {
    if xss != [] {
      FlattenRectLength(xss[1..], w);
      assert |xss| * w == (|xss| - 1) * w + w;
    }
  }

  /** The indices at which `mask` holds, in increasing order:
      `mask.nonzero().squeeze(1)`. */
  function Nonzero(mask: seq<bool>): (r: seq<nat>)
    ensures |r| <= |mask|
    ensures forall t :: 0 <= t < |r| ==> r[t] < |mask| && mask[r[t]]
    ensures forall k :: 0 <= k < |mask| && mask[k] ==> k in r
    ensures forall t, u :: 0 <= t < u < |r| ==> r[t] < r[u]
  {
    if mask == [] then []
    else Nonzero(mask[..|mask| - 1]) + (if mask[|mask| - 1] then [|mask| - 1] else [])
  }

  /** `xs[inds]` for a tensor of indices. */
  function Gather<T>(xs: seq<T>, inds: seq<nat>): seq<T>
    requires forall t :: 0 <= t < |inds| ==> inds[t] < |xs|
  {
    seq(|inds|, t requires 0 <= t < |inds| => xs[inds[t]])
  }

  /** `xs[mask]` for a boolean mask of the same length. */
  function Select<T>(xs: seq<T>, mask: seq<bool>): seq<T>
    requires |xs| == |mask|
  {
    Gather(xs, Nonzero(mask))
  }

  /** The number of positions at which `mask` holds. */
  function CountTrue(mask: seq<bool>): (c: nat)
    ensures c <= |mask|
  {
    if mask == [] then 0
    else CountTrue(mask[..|mask| - 1]) + (if mask[|mask| - 1] then 1 else 0)
  }

  /** `nonzero` returns one index per position at which the mask holds. */
  lemma {:induction false} NonzeroCount(mask: seq<bool>)
    ensures |Nonzero(mask)| == CountTrue(mask)
  {
    if mask != [] {
      NonzeroCount(mask[..|mask| - 1]);
    }
  }

  /** A mask that holds everywhere selects every index, in order. */
  lemma {:induction false} NonzeroAllTrue(mask: seq<bool>)
    requires forall k :: 0 <= k < |mask| ==> mask[k]
    ensures Nonzero(mask) == seq(|mask|, k => k)
    ensures CountTrue(mask) == |mask|
  {
    if mask != [] {
      NonzeroAllTrue(mask[..|mask| - 1]);
    }
  }

  /** A mask that holds on a prefix and nowhere after selects exactly the
      prefix. */
  lemma {:induction false} NonzeroPrefix(mask: seq<bool>, p: nat)
    requires p <= |mask|
    requires forall k :: 0 <= k < |mask| ==> (mask[k] <==> k < p)
    ensures Nonzero(mask) == seq(p, k => k)
  {
    if |mask| > p {
      NonzeroPrefix(mask[..|mask| - 1], p);
    } else {
      NonzeroAllTrue(mask);
    }
  }

  /** A mask that holds in fewer places selects no more indices. */
  lemma {:induction false} NonzeroMonotone(weak: seq<bool>, strong: seq<bool>)
    requires |weak| == |strong|
    requires forall k :: 0 <= k < |strong| && strong[k] ==> weak[k]
    ensures CountTrue(strong) <= CountTrue(weak)
  {
    if strong != [] {
      NonzeroMonotone(weak[..|weak| - 1], strong[..|strong| - 1]);
    }
  }
}
