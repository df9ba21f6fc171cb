/** The scalar attention bodies the repository calls its parity oracles. */
module AttentionOracle {
  import opened Index
  import opened Arithmetic
  import opened Softmax
  import opened HeadAttention
  import opened Layout
  import opened AvxAttention
  import opened AttentionShape

  /** `acc += x[xb + d] * w[wb + d]` over one head row. */
  method DotLoop<F>(ops: Ops<F>, x: seq<F>, xb: nat, w: seq<F>, wb: nat, dim: nat) returns (acc: F)
    requires xb + dim <= |x| && wb + dim <= |w|
    ensures acc == Dot(ops, ops.zero, x[xb..xb + dim], w[wb..wb + dim])
  {
    acc := ops.zero;
    for d := 0 to dim
      invariant acc == DotFrom(ops, ops.zero, x[xb..xb + dim], w[wb..wb + dim], d)
    {
      acc := ops.add(acc, ops.mul(x[xb + d], w[wb + d]));
    }
  }

  /** Pass 1: scaled dot products into the scratch prefix. */
  method ScoreLoop<F>(ops: Ops<F>, q: seq<F>, qb: nat, k: seq<F>, v: seq<F>, rows: nat, heads: nat, dim: nat,
                      h: nat, first: nat, n: nat, scale: F, scores: array<F>)
    requires Tensor(k, rows, heads, dim) && Tensor(v, rows, heads, dim) && h < heads && first + n <= rows
    requires qb + dim <= |q| && n <= scores.Length
    modifies scores
    ensures scores[..n] == Scores(ops, q[qb..qb + dim], HeadOf(k, v, rows, heads, dim, h, first, n), scale)
  {
    hide RowBase, HeadOf, Dot, Times, HeadRow;
    ghost var g := HeadOf(k, v, rows, heads, dim, h, first, n);
    ghost var want := Scores(ops, q[qb..qb + dim], g, scale);
    for j := 0 to n
      invariant forall i :: 0 <= i < j ==> scores[i] == want[i]
    {
      HeadOfRow(k, v, rows, heads, dim, h, first, n, j);
      assert want[j] == Score(ops, q[qb..qb + dim], g.k[j], scale);
      var dot := DotLoop(ops, q, qb, k, RowBase(heads, dim, h, first + j), dim);
      scores[j] := ops.mul(dot, scale);
    }
  }

  /** Pass 3, one key: `out[ob + d] += p * v[vb + d]`. */
  method AxpyLoop<F>(ops: Ops<F>, p: F, v: seq<F>, vb: nat, dim: nat, out: array<F>, ob: nat)
    requires vb + dim <= |v| && ob + dim <= out.Length
    modifies out
    ensures forall i :: ob <= i < ob + dim ==>
      out[i] == ops.add(old(out[i]), ops.mul(p, v[vb..vb + dim][i - ob]))
    ensures SameOutside(out[..], old(out[..]), ob, dim)
  {
    for d := 0 to dim
      invariant forall i :: ob <= i < ob + d ==> out[i] == ops.add(old(out[i]), ops.mul(p, v[vb..vb + dim][i - ob]))
      invariant forall i :: 0 <= i < out.Length && !(ob <= i < ob + d) ==> out[i] == old(out[i])
    {
      out[ob + d] := ops.add(out[ob + d], ops.mul(p, v[vb + d]));
    }
  }

  method Fill<F>(out: array<F>, ob: nat, dim: nat, c: F)
    requires ob + dim <= out.Length
    modifies out
    ensures forall i :: ob <= i < ob + dim ==> out[i] == c
    ensures SameOutside(out[..], old(out[..]), ob, dim)
  {
    for d := 0 to dim
      invariant forall i :: ob <= i < ob + d ==> out[i] == c
      invariant forall i :: 0 <= i < out.Length && !(ob <= i < ob + d) ==> out[i] == old(out[i])
    {
      out[ob + d] := c;
    }
  }

  /** One more key folded into a slice of weighted sums. */
  lemma {:induction false} ValueStep<F>(ops: Ops<F>, p: seq<F>, vs: seq<seq<F>>, n: nat, dim: nat, j: nat, row: seq<F>,
                                        before: seq<F>, after: seq<F>, ob: nat)
    requires Matrix(vs, n, dim) && j < n <= |p| && row == vs[j] && |before| == |after| && ob + dim <= |after|
    requires forall i :: ob <= i < ob + dim ==> before[i] == WeightedTo(ops, p, vs, dim, i - ob, j)
    requires forall i :: ob <= i < ob + dim ==> after[i] == ops.add(before[i], ops.mul(p[j], row[i - ob]))
    ensures forall i :: ob <= i < ob + dim ==> after[i] == WeightedTo(ops, p, vs, dim, i - ob, j + 1)
  {
    forall i | ob <= i < ob + dim ensures after[i] == WeightedTo(ops, p, vs, dim, i - ob, j + 1) {
      assert before[i] == WeightedTo(ops, p, vs, dim, i - ob, j);
    }
  }

  lemma {:induction false} NoValues<F>(ops: Ops<F>, p: seq<F>, vs: seq<seq<F>>, n: nat, dim: nat, d: nat)
    requires Matrix(vs, n, dim) && n <= |p| && d < dim
    ensures WeightedTo(ops, p, vs, dim, d, 0) == ops.zero
  {}

  /** Pass 3: the output slice is zeroed, then the value rows are folded in, key by key. */
  method ValueLoop<F>(ops: Ops<F>, p: seq<F>, v: seq<F>, rows: nat, heads: nat, dim: nat,
                      h: nat, first: nat, n: nat, out: array<F>, ob: nat)
    requires Tensor(v, rows, heads, dim) && h < heads && first + n <= rows
    requires n <= |p| && ob + dim <= out.Length
    modifies out
    ensures forall i :: ob <= i < ob + dim ==>
      out[i] == WeightedTo(ops, p, HeadRows(v, rows, heads, dim, h, first, n), dim, i - ob, n)
    ensures SameOutside(out[..], old(out[..]), ob, dim)
  {
    hide HeadRow, WeightedTo, SameOutside;
    ghost var was := out[..];
    ghost var vs := HeadRows(v, rows, heads, dim, h, first, n);
    Fill(out, ob, dim, ops.zero);
    forall d | 0 <= d < dim ensures WeightedTo(ops, p, vs, dim, d, 0) == ops.zero { NoValues(ops, p, vs, n, dim, d); }
    for j := 0 to n
      invariant forall i :: ob <= i < ob + dim ==> out[i] == WeightedTo(ops, p, vs, dim, i - ob, j)
      invariant SameOutside(out[..], was, ob, dim)
    {
      assert vs[j] == HeadRow(v, rows, heads, dim, h, first + j);
      ghost var before := out[..];
      AxpyLoop(ops, p[j], v, RowBase(heads, dim, h, first + j), dim, out, ob);
      ValueStep(ops, p, vs, n, dim, j, vs[j], before, out[..], ob);
      SameOutsideWithin(was, before, out[..], ob, dim, 0, dim);
    }
  }

  /** One (row, head). Whatever the scratch held before is irrelevant to the result. */
  method HeadBody<F>(ops: Ops<F>, q: seq<F>, qb: nat, k: seq<F>, v: seq<F>, rows: nat, heads: nat, dim: nat,
                     h: nat, first: nat, n: nat, scale: F, scores: array<F>, out: array<F>, ob: nat)
    requires Tensor(k, rows, heads, dim) && Tensor(v, rows, heads, dim) && h < heads && first + n <= rows
    requires qb + dim <= |q| && n <= scores.Length && ob + dim <= out.Length && scores != out
    modifies scores, out
    ensures out[ob..ob + dim] == TwoPass(ops, q[qb..qb + dim], HeadOf(k, v, rows, heads, dim, h, first, n), scale)
    ensures SameOutside(out[..], old(out[..]), ob, dim)
  {
    ScoreLoop(ops, q, qb, k, v, rows, heads, dim, h, first, n, scale, scores);
    SoftmaxInPlace(ops, scores, n);
    ValueLoop(ops, scores[..n], v, rows, heads, dim, h, first, n, out, ob);
  }

  /** One (row, head), by the backend's mode. */
  method HeadByMode<F>(ops: Ops<F>, mode: Mode, q: seq<F>, qb: nat, k: seq<F>, v: seq<F>, rows: nat, heads: nat,
                       dim: nat, h: nat, first: nat, n: nat, scale: F, scores: array<F>, out: array<F>, ob: nat)
    requires Tensor(k, rows, heads, dim) && Tensor(v, rows, heads, dim) && h < heads && first + n <= rows
    requires qb + dim <= |q| && n <= scores.Length && ob + dim <= out.Length && scores != out
    modifies scores, out
    ensures out[ob..ob + dim]
        == HeadValue(ops, mode, q[qb..qb + dim], HeadOf(k, v, rows, heads, dim, h, first, n), scale)
    ensures SameOutside(out[..], old(out[..]), ob, dim)
  {
    hide TwoPass, AvxTwoPass, HeadOf, SameOutside;
    if mode.Avx2? {
      HeadBodyAvx2(ops, q, qb, k, v, rows, heads, dim, h, first, n, scale, scores, out, ob);
    } else {
      HeadBody(ops, q, qb, k, v, rows, heads, dim, h, first, n, scale, scores, out, ob);
    }
  }

  /** Row i, head h, into the chunk of the output that starts at row iStart. */
  method AttendOne<F>(ops: Ops<F>, mode: Mode, s: Shape, q: seq<F>, k: seq<F>, v: seq<F>, iStart: nat, i: nat, h: nat,
                      scale: F, scores: array<F>, out: array<F>, base: nat)
    requires s.Valid() && s.Fits(q, k, v) && iStart <= i < s.qRows && h < s.qHeads && scores != out
    requires s.Count(i) <= scores.Length
    requires out.Length == |q| && base == Times(iStart, Times(s.qHeads, s.dim))
    modifies scores, out
    ensures Times(i, s.qHeads) + h < Times(s.qRows, s.qHeads)
    ensures BlockIs(out[..], Times(i, s.qHeads)
        + h, s.dim, ModeAt(ops, mode, s, q, k, v, scale, Times(i, s.qHeads) + h))
    ensures SameOutside(out[..], old(out[..]), Times(Times(i, s.qHeads) + h, s.dim), s.dim)
  {
    hide HeadValue, ModeRow, ModeAt, HeadOf, Times, SameOutside;
    ModeAtJoin(ops, mode, s, q, k, v, scale, i, h);
    ModeRowOffsets(ops, mode, s, q, k, v, scale, i, h);
    TimesAdd(iStart, i - iStart, Times(s.qHeads, s.dim));
    RowBaseIs(s.qRows, s.qHeads, s.dim, h, i);
    var outBase := base + Times(i - iStart, Times(s.qHeads, s.dim)) + Times(h, s.dim);
    HeadByMode(ops, mode, q, RowBase(s.qHeads, s.dim, h, i), k, v, s.kvRows, s.kvHeads, s.dim, s.KvHead(h),
             s.First(i), s.Count(i), scale, scores, out, outBase);
  }

  /** The loop nest of the scalar attention bodies, over query rows iStart .. iEnd. `base` is
      where the caller's chunk of the output starts; `scores` is scratch of any contents. */
  method AttendRows<F>(ops: Ops<F>, mode: Mode, s: Shape, q: seq<F>, k: seq<F>, v: seq<F>, iStart: nat, iEnd: nat,
                       scale: F, scores: array<F>, out: array<F>, base: nat)
    requires s.Valid() && s.Fits(q, k, v) && iStart <= iEnd <= s.qRows && scores != out
    requires forall r :: iStart <= r < iEnd ==> s.Count(r) <= scores.Length
    requires out.Length == |q| && base == Times(iStart, Times(s.qHeads, s.dim))
    modifies scores, out
    ensures Wrote(old(out[..]), out[..], ModeBlocks(ops, mode, s, q, k, v, scale), s.dim,
                  Times(iStart, s.qHeads), Times(iEnd, s.qHeads))
  {
    hide ModeAt, Times, Wrote, BlockIs, SameOutside;
    ghost var want := ModeBlocks(ops, mode, s, q, k, v, scale);
    ghost var lo := Times(iStart, s.qHeads);
    TimesMonotone(iStart, s.qRows, s.qHeads);
    WroteNothing(out[..], want, s.dim, lo);
    for i := iStart to iEnd
      invariant lo <= Times(i, s.qHeads)
      invariant Wrote(old(out[..]), out[..], want, s.dim, lo, Times(i, s.qHeads))
    {
      for h := 0 to s.qHeads
        invariant Wrote(old(out[..]), out[..], want, s.dim, lo, Times(i, s.qHeads) + h)
      {
        ghost var before := out[..];
        AttendOne(ops, mode, s, q, k, v, iStart, i, h, scale, scores, out, base);
        WroteMore(old(out[..]), before, out[..], want, s.dim, lo, Times(i, s.qHeads) + h);
      }
      TimesNext(i, s.qHeads);
    }
  }
}
