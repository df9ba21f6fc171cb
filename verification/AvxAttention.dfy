/** The AVX2 bodies of attention: vector dot products for the scores, and eight output lanes at a
    time for the weighted sum of the value rows. */
module AvxAttention {
  import opened Index
  import opened Arithmetic
  import opened Softmax
  import opened HeadAttention
  import opened Layout
  import opened LinearSpec
  import opened LinearKernels
  import opened AvxExact

  function AvxScores<F>(ops: Ops<F>, q: seq<F>, h: Head<F>, scale: F): (s: seq<F>)
    requires h.Valid() && |q| == h.dim
    ensures |s| == h.n
  {
    seq(h.n, j requires 0 <= j < h.n => ops.mul(AvxDot(ops, q, h.k[j]), scale))
  }

  /** One lane: fused products of the weights by column d, in key order. */
  function FusedTo<F>(ops: Ops<F>, p: seq<F>, v: seq<seq<F>>, dim: nat, d: nat, n: nat): F
    requires Matrix(v, |v|, dim) && d < dim && n <= |v| && n <= |p|
  {
    if n == 0 then ops.zero else ops.fma(p[n - 1], v[n - 1][d], FusedTo(ops, p, v, dim, d, n - 1))
  }

  /** Lanes that fill a vector are fused; the tail is multiplied and added. */
  function AvxWeighted<F>(ops: Ops<F>, p: seq<F>, v: seq<seq<F>>, dim: nat, d: nat): F
    requires Matrix(v, |v|, dim) && d < dim && |v| <= |p|
  {
    if d < Simd(dim) then FusedTo(ops, p, v, dim, d, |v|) else WeightedTo(ops, p, v, dim, d, |v|)
  }

  function AvxTwoPass<F>(ops: Ops<F>, q: seq<F>, h: Head<F>, scale: F): (o: seq<F>)
    requires h.Valid() && |q| == h.dim
    ensures |o| == h.dim
  {
    var p := SoftmaxOf(ops, AvxScores(ops, q, h, scale));
    seq(h.dim, d requires 0 <= d < h.dim => AvxWeighted(ops, p, h.v, h.dim, d))
  }

  /** One head of one query row, as each mode computes it. */
  function HeadValue<F>(ops: Ops<F>, mode: Mode, q: seq<F>, h: Head<F>, scale: F): (o: seq<F>)
    requires h.Valid() && |q| == h.dim
    ensures |o| == h.dim
  {
    if mode.Avx2? then AvxTwoPass(ops, q, h, scale) else TwoPass(ops, q, h, scale)
  }

  /** attention_scores_avx2 */
  method ScoresAvx2<F>(ops: Ops<F>, q: seq<F>, qb: nat, k: seq<F>, v: seq<F>, rows: nat, heads: nat, dim: nat, h: nat,
                       first: nat, n: nat, scale: F, scores: array<F>)
    requires Tensor(k, rows, heads, dim) && Tensor(v, rows, heads, dim) && h < heads && first + n <= rows
    requires qb + dim <= |q| && n <= scores.Length
    modifies scores
    ensures scores[..n] == AvxScores(ops, q[qb..qb + dim], HeadOf(k, v, rows, heads, dim, h, first, n), scale)
  {
    hide RowBase, HeadOf, AvxDot, Times, HeadRow;
    ghost var want := AvxScores(ops, q[qb..qb + dim], HeadOf(k, v, rows, heads, dim, h, first, n), scale);
    for j := 0 to n
      invariant forall i :: 0 <= i < j ==> scores[i] == want[i]
    {
      HeadOfRow(k, v, rows, heads, dim, h, first, n, j);
      var base := RowBase(heads, dim, h, first + j);
      var acc := DotAvx2(ops, q[qb..qb + dim], k[base..base + dim]);
      scores[j] := ops.mul(acc, scale);
    }
  }

  /** Lanes d .. d + 8 of a value row. */
  function FuseLanes<F>(ops: Ops<F>, p: F, row: seq<F>, d: nat, acc: seq<F>): (r: seq<F>)
    requires d + 8 <= |row| && |acc| == 8
    ensures |r| == 8 && forall l :: 0 <= l < 8 ==> r[l] == ops.fma(p, row[d + l], acc[l])
  {
    seq(8, l requires 0 <= l < 8 => ops.fma(p, row[d + l], acc[l]))
  }

  ghost predicate ColumnDone<F>(ops: Ops<F>, p: seq<F>, vs: seq<seq<F>>, dim: nat, out: seq<F>, ob: nat, d: nat)
    requires Matrix(vs, |vs|, dim) && d < dim && |vs| <= |p|
  {
    ob + d < |out| && out[ob + d] == AvxWeighted(ops, p, vs, dim, d)
  }

  /** Eight lanes, each folded over all the keys. */
  method SumLanes<F>(ops: Ops<F>, p: seq<F>, v: seq<F>, rows: nat, heads: nat, dim: nat, h: nat, first: nat, n: nat,
                     d: nat) returns (acc: seq<F>)
    requires Tensor(v, rows, heads, dim) && h < heads && first + n <= rows && n <= |p| && d + 8 <= Simd(dim)
    ensures |acc| == 8
    ensures forall l :: 0 <= l < 8 ==>
              acc[l] == FusedTo(ops, p, HeadRows(v, rows, heads, dim, h, first, n), dim, d + l, n)
  {
    hide HeadRow, RowBase, Times;
    ghost var vs := HeadRows(v, rows, heads, dim, h, first, n);
    acc := seq(8, _ => ops.zero);
    for j := 0 to n
      invariant |acc| == 8 && forall l :: 0 <= l < 8 ==> acc[l] == FusedTo(ops, p, vs, dim, d + l, j)
    {
      assert vs[j] == HeadRow(v, rows, heads, dim, h, first + j);
      var base := RowBase(heads, dim, h, first + j);
      acc := FuseLanes(ops, p[j], v[base..base + dim], d, acc);
    }
  }

  /** One vector of output lanes: accumulated in a register over all keys, stored once. */
  method StoreLanes<F>(ops: Ops<F>, p: seq<F>, v: seq<F>, rows: nat, heads: nat, dim: nat, h: nat, first: nat, n: nat,
                       d: nat, out: array<F>, ob: nat)
    requires Tensor(v, rows, heads, dim) && h < heads && first + n <= rows && n <= |p| && ob + dim <= out.Length
    requires d + 8 <= Simd(dim)
    modifies out
    ensures forall e :: d <= e < d + 8 ==>
        ColumnDone(ops, p, HeadRows(v, rows, heads, dim, h, first, n), dim, out[..], ob, e)
    ensures SameOutside(out[..], old(out[..]), ob + d, 8)
  {
    hide HeadRow, RowBase, Times, FusedTo;
    ghost var vs := HeadRows(v, rows, heads, dim, h, first, n);
    var acc := SumLanes(ops, p, v, rows, heads, dim, h, first, n, d);
    for l := 0 to 8
      invariant forall i :: ob + d <= i < ob + d + l ==> out[i] == acc[i - ob - d]
      invariant SameOutside(out[..], old(out[..]), ob + d, 8)
    {
      out[ob + d + l] := acc[l];
    }
    forall e | d <= e < d + 8 ensures ColumnDone(ops, p, vs, dim, out[..], ob, e) {
      assert acc[e - d] == FusedTo(ops, p, vs, dim, d + (e - d), n);
      assert out[ob + e] == acc[e - d];
    }
  }

  method StoreTail<F>(ops: Ops<F>, p: seq<F>, v: seq<F>, rows: nat, heads: nat, dim: nat, h: nat, first: nat, n: nat,
                      d: nat, out: array<F>, ob: nat)
    requires Tensor(v, rows, heads, dim) && h < heads && first + n <= rows && n <= |p| && ob + dim <= out.Length
    requires Simd(dim) <= d < dim
    modifies out
    ensures ColumnDone(ops, p, HeadRows(v, rows, heads, dim, h, first, n), dim, out[..], ob, d)
    ensures SameOutside(out[..], old(out[..]), ob + d, 1)
  {
    hide HeadRow, RowBase, Times;
    ghost var vs := HeadRows(v, rows, heads, dim, h, first, n);
    var sum := ops.zero;
    for j := 0 to n
      invariant sum == WeightedTo(ops, p, vs, dim, d, j)
    {
      assert vs[j] == HeadRow(v, rows, heads, dim, h, first + j);
      sum := ops.add(sum, ops.mul(p[j], v[RowBase(heads, dim, h, first + j) + d]));
    }
    out[ob + d] := sum;
  }

  lemma {:induction false} ColumnStays<F>(ops: Ops<F>, p: seq<F>, vs: seq<seq<F>>, dim: nat, a: seq<F>, b: seq<F>,
                                          ob: nat, d: nat, at: nat, len: nat)
    requires Matrix(vs, |vs|, dim) && d < at && d < dim && |vs| <= |p|
    requires ColumnDone(ops, p, vs, dim, a, ob, d) && SameOutside(b, a, ob + at, len)
    ensures ColumnDone(ops, p, vs, dim, b, ob, d)
  {}

  /** attention_value_weighted_sum_avx2 */
  method WeightedSumAvx2<F>(ops: Ops<F>, p: seq<F>, v: seq<F>, rows: nat, heads: nat, dim: nat, h: nat, first: nat,
                            n: nat, out: array<F>, ob: nat)
    requires Tensor(v, rows, heads, dim) && h < heads && first + n <= rows && n <= |p| && ob + dim <= out.Length
    modifies out
    ensures forall d :: 0 <= d < dim ==>
        ColumnDone(ops, p, HeadRows(v, rows, heads, dim, h, first, n), dim, out[..], ob, d)
    ensures SameOutside(out[..], old(out[..]), ob, dim)
  {
    hide HeadRow, Times, ColumnDone, SameOutside;
    ghost var vs := HeadRows(v, rows, heads, dim, h, first, n);
    ghost var was := out[..];
    SameOutsideSelf(was, ob, dim);
    var d := 0;
    while d < Simd(dim)
      invariant d % 8 == 0 && d <= Simd(dim)
      invariant forall e :: 0 <= e < d ==> ColumnDone(ops, p, vs, dim, out[..], ob, e)
      invariant SameOutside(out[..], was, ob, dim)
    {
      ghost var before := out[..];
      StoreLanes(ops, p, v, rows, heads, dim, h, first, n, d, out, ob);
      forall e | 0 <= e < d ensures ColumnDone(ops, p, vs, dim, out[..], ob, e) {
        ColumnStays(ops, p, vs, dim, before, out[..], ob, e, d, 8);
      }
      SameOutsideWithin(was, before, out[..], ob, dim, d, 8);
      d := d + 8;
    }
    for t := Simd(dim) to dim
      invariant forall e :: 0 <= e < t ==> ColumnDone(ops, p, vs, dim, out[..], ob, e)
      invariant SameOutside(out[..], was, ob, dim)
    {
      ghost var before := out[..];
      StoreTail(ops, p, v, rows, heads, dim, h, first, n, t, out, ob);
      forall e | 0 <= e < t ensures ColumnDone(ops, p, vs, dim, out[..], ob, e) {
        ColumnStays(ops, p, vs, dim, before, out[..], ob, e, t, 1);
      }
      SameOutsideWithin(was, before, out[..], ob, dim, t, 1);
    }
  }

  /** One (row, head) in AVX2 mode. */
  method HeadBodyAvx2<F>(ops: Ops<F>, q: seq<F>, qb: nat, k: seq<F>, v: seq<F>, rows: nat, heads: nat, dim: nat, h: nat,
                         first: nat, n: nat, scale: F, scores: array<F>, out: array<F>, ob: nat)
    requires Tensor(k, rows, heads, dim) && Tensor(v, rows, heads, dim) && h < heads && first + n <= rows
    requires qb + dim <= |q| && n <= scores.Length && ob + dim <= out.Length && scores != out
    modifies scores, out
    ensures out[ob..ob + dim] == AvxTwoPass(ops, q[qb..qb + dim], HeadOf(k, v, rows, heads, dim, h, first, n), scale)
    ensures SameOutside(out[..], old(out[..]), ob, dim)
  {
    hide Times, HeadRow, HeadRows, AvxScores, SoftmaxOf, AvxWeighted, SameOutside;
    ScoresAvx2(ops, q, qb, k, v, rows, heads, dim, h, first, n, scale, scores);
    SoftmaxInPlace(ops, scores, n);
    ghost var p := scores[..n];
    WeightedSumAvx2(ops, scores[..n], v, rows, heads, dim, h, first, n, out, ob);
    ghost var vs := HeadRows(v, rows, heads, dim, h, first, n);
    forall d | 0 <= d < dim ensures out[ob..ob + dim][d] == AvxWeighted(ops, p, vs, dim, d) {
      assert ColumnDone(ops, p, vs, dim, out[..], ob, d);
    }
  }

  lemma {:induction false} FusedIsWeighted(exp: real -> real, p: seq<real>, v: seq<seq<real>>, dim: nat, d: nat, n: nat)
    requires Matrix(v, |v|, dim) && d < dim && n <= |v| && n <= |p|
    ensures FusedTo(RealOps(exp), p, v, dim, d, n) == WeightedTo(RealOps(exp), p, v, dim, d, n)
  {
    if n > 0 { FusedIsWeighted(exp, p, v, dim, d, n - 1); }
  }

  /** Over the reals the AVX2 attention body is the two-pass oracle. */
  lemma {:induction false} AvxIsOracle(exp: real -> real, q: seq<real>, h: Head<real>, scale: real)
    requires h.Valid() && |q| == h.dim
    ensures AvxTwoPass(RealOps(exp), q, h, scale) == TwoPass(RealOps(exp), q, h, scale)
  {
    hide AvxDot, Dot, SoftmaxOf, WeightedTo, FusedTo;
    var ops := RealOps(exp);
    var a, b := AvxScores(ops, q, h, scale), Scores(ops, q, h, scale);
    forall j | 0 <= j < h.n ensures a[j] == b[j] { AvxDotIsDot(exp, q, h.k[j]); }
    assert a == b;
    var p := SoftmaxOf(ops, a);
    forall d | 0 <= d < h.dim ensures AvxWeighted(ops, p, h.v, h.dim, d) == WeightedTo(ops, p, h.v, h.dim, d, h.n) {
      FusedIsWeighted(exp, p, h.v, h.dim, d, h.n);
    }
  }

  lemma {:induction false} ScalarHead<F>(ops: Ops<F>, q: seq<F>, h: Head<F>, scale: F)
    requires h.Valid() && |q| == h.dim
    ensures HeadValue(ops, Scalar, q, h, scale) == TwoPass(ops, q, h, scale)
  {}

  /** Over the reals the mode does not matter. */
  lemma {:induction false} RealHeadValue(exp: real -> real, mode: Mode, q: seq<real>, h: Head<real>, scale: real)
    requires h.Valid() && |q| == h.dim
    ensures HeadValue(RealOps(exp), mode, q, h, scale) == TwoPass(RealOps(exp), q, h, scale)
  {
    hide AvxTwoPass, TwoPass;
    if mode.Avx2? { AvxIsOracle(exp, q, h, scale); }
  }
}
