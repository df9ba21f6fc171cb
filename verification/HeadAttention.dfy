/** One query row against one head's visible rows: what every attention kernel of the
    repository computes, whatever its layout, mask or order of loops. */
module HeadAttention {
  import opened Arithmetic
  import opened Softmax

  predicate Matrix<F>(rows: seq<seq<F>>, n: nat, dim: nat) {
    |rows| == n && forall j :: 0 <= j < n ==> |rows[j]| == dim
  }

  /** The visible keys and values of one head, one row of `dim` cells each. */
  datatype Head<F> = Head(k: seq<seq<F>>, v: seq<seq<F>>, n: nat, dim: nat) {
    predicate Valid() { Matrix(k, n, dim) && Matrix(v, n, dim) }
  }

  function Score<F>(ops: Ops<F>, q: seq<F>, key: seq<F>, scale: F): F
    requires |q| == |key|
  {
    ops.mul(Dot(ops, ops.zero, q, key), scale)
  }

  function Scores<F>(ops: Ops<F>, q: seq<F>, h: Head<F>, scale: F): (s: seq<F>)
    requires h.Valid() && |q| == h.dim
    ensures |s| == h.n
  {
    seq(h.n, j requires 0 <= j < h.n => Score(ops, q, h.k[j], scale))
  }

  /** `sum over j < n of p[j] * v[j][d]`, in that order, from zero. */
  function WeightedTo<F>(ops: Ops<F>, p: seq<F>, v: seq<seq<F>>, dim: nat, d: nat, n: nat): F
    requires Matrix(v, |v|, dim) && d < dim && n <= |v| && n <= |p|
  {
    if n == 0 then ops.zero
    else ops.add(WeightedTo(ops, p, v, dim, d, n - 1), ops.mul(p[n - 1], v[n - 1][d]))
  }

  /** The two-pass oracle: all scores, softmax, weighted sum of the value rows. */
  function TwoPass<F>(ops: Ops<F>, q: seq<F>, h: Head<F>, scale: F): (o: seq<F>)
    requires h.Valid() && |q| == h.dim
    ensures |o| == h.dim
  {
    var p := SoftmaxOf(ops, Scores(ops, q, h, scale));
    seq(h.dim, d requires 0 <= d < h.dim => WeightedTo(ops, p, h.v, h.dim, d, h.n))
  }

  /** Running maximum, normaliser and weighted sum of the one-pass ("flash") kernels. */
  datatype Run<F> = Run(m: F, l: F, acc: seq<F>)

  /** The first key needs no rescaling: its weight is exp(m - m) = 1. */
  function Seed<F>(ops: Ops<F>, s: F, v: seq<F>): (r: Run<F>)
    ensures |r.acc| == |v|
  {
    Run(s, ops.one, seq(|v|, d requires 0 <= d < |v| => ops.mul(ops.one, v[d])))
  }

  /** One streamed key: rescale the mass gathered so far to the new maximum, add the new weight. */
  function Absorb<F>(ops: Ops<F>, r: Run<F>, s: F, v: seq<F>): (r': Run<F>)
    requires |r.acc| == |v|
    ensures |r'.acc| == |v|
  {
    var m := ops.max(r.m, s);
    var alpha := ops.exp(ops.sub(r.m, m));
    var p := ops.exp(ops.sub(s, m));
    Run(m, ops.add(ops.mul(r.l, alpha), p),
        seq(|v|, d requires 0 <= d < |v| => ops.add(ops.mul(r.acc[d], alpha), ops.mul(p, v[d]))))
  }

  function Online<F>(ops: Ops<F>, q: seq<F>, h: Head<F>, scale: F, n: nat): (r: Run<F>)
    requires h.Valid() && |q| == h.dim && 0 < n <= h.n
    ensures |r.acc| == h.dim
  {
    var s := Score(ops, q, h.k[n - 1], scale);
    if n == 1 then Seed(ops, s, h.v[0])
    else Absorb(ops, Online(ops, q, h, scale, n - 1), s, h.v[n - 1])
  }

  lemma {:induction false} OnlineNext<F>(ops: Ops<F>, q: seq<F>, h: Head<F>, scale: F, n: nat)
    requires h.Valid() && |q| == h.dim && 0 < n <= h.n
    ensures n == 1 ==> Online(ops, q, h, scale, 1) == Seed(ops, Score(ops, q, h.k[0], scale), h.v[0])
    ensures n > 1 ==> Online(ops, q, h, scale, n) ==
                      Absorb(ops, Online(ops, q, h, scale, n - 1), Score(ops, q, h.k[n - 1], scale), h.v[n - 1])
  {}

  function Flash<F>(ops: Ops<F>, q: seq<F>, h: Head<F>, scale: F): (o: seq<F>)
    requires h.Valid() && |q| == h.dim && 0 < h.n
    ensures |o| == h.dim
  {
    Normalise(ops, Online(ops, q, h, scale, h.n))
  }

  lemma {:induction false} FlashIs<F>(ops: Ops<F>, q: seq<F>, h: Head<F>, scale: F)
    requires h.Valid() && |q| == h.dim && 0 < h.n
    ensures Flash(ops, q, h, scale) == Normalise(ops, Online(ops, q, h, scale, h.n))
  {}

  function Normalise<F>(ops: Ops<F>, r: Run<F>): (o: seq<F>)
    ensures |o| == |r.acc|
  {
    seq(|r.acc|, d requires 0 <= d < |r.acc| => ops.div(r.acc[d], r.l))
  }
}
