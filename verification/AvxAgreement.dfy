/** When one head in AVX2 mode is the scalar head bit for bit, and when it is not. */
module AvxAgreement {
  import opened Arithmetic
  import opened Softmax
  import opened HeadAttention
  import opened LinearSpec
  import opened AvxAttention

  /** 0 + 0 is 0, as in every float arithmetic. */
  ghost predicate ZeroAdds<F>(ops: Ops<F>) { ops.add(ops.zero, ops.zero) == ops.zero }

  /** No vector is ever filled: the backend is not in AVX2 mode, or a head is narrower than eight. */
  predicate ScalarOnly(mode: Mode, dim: nat) { !mode.Avx2? || dim < 8 }

  /** What it takes for that to mean the same bits: nothing, except that empty lanes must sum to zero. */
  ghost predicate SameBits<F>(ops: Ops<F>, mode: Mode, dim: nat) {
    ScalarOnly(mode, dim) && (mode.Avx2? ==> ZeroAdds(ops))
  }

  /** With fewer than eight inputs the lanes stay zero and the tail is the whole product. */
  lemma {:induction false} NarrowDot<F>(ops: Ops<F>, x: seq<F>, w: seq<F>)
    requires ZeroAdds(ops) && |x| == |w| < 8
    ensures AvxDot(ops, x, w) == Dot(ops, ops.zero, x, w)
  {
    assert x[0..] == x && w[0..] == w;
  }

  /** Without a filled vector every mode computes the same bits. */
  lemma {:induction false} NarrowHead<F>(ops: Ops<F>, mode: Mode, q: seq<F>, h: Head<F>, scale: F)
    requires h.Valid() && |q| == h.dim && SameBits(ops, mode, h.dim)
    ensures HeadValue(ops, mode, q, h, scale) == TwoPass(ops, q, h, scale)
  {
    hide AvxDot, Dot, SoftmaxOf, WeightedTo, FusedTo;
    if mode.Avx2? {
      var a, b := AvxScores(ops, q, h, scale), Scores(ops, q, h, scale);
      forall j | 0 <= j < h.n ensures a[j] == b[j] { NarrowDot(ops, q, h.k[j]); }
      assert a == b;
      assert Simd(h.dim) == 0;
    }
  }

  // ---- any operations ----

  /** Nothing is assumed of a fused product: here it is one, and everything else is zero. */
  function FusedOps(): Ops<real> {
    Ops(0.0, 1.0, (a, b) => 0.0, (a, b) => 0.0, (a, b) => 0.0, (a, b) => 0.0, (a, b, c) => 1.0, (a, b) => a,
        (a, b) => false, a => 0.0)
  }

  /** Under these a filled vector shows in every head that sees a key. */
  lemma {:induction false} FusedShows(q: seq<real>, h: Head<real>, scale: real)
    requires h.Valid() && |q| == h.dim && 8 <= h.dim && 0 < h.n
    ensures HeadValue(FusedOps(), Avx2, q, h, scale)[0] == 1.0 && TwoPass(FusedOps(), q, h, scale)[0] == 0.0
  {
    hide AvxDot, Dot, SoftmaxOf;
    var ops := FusedOps();
    var p, p' := SoftmaxOf(ops, AvxScores(ops, q, h, scale)), SoftmaxOf(ops, Scores(ops, q, h, scale));
    assert Simd(h.dim) > 0;
    assert FusedTo(ops, p, h.v, h.dim, 0, h.n) == 1.0;
    assert WeightedTo(ops, p', h.v, h.dim, 0, h.n) == 0.0;
  }
}
