/** Exactly when the backend's thread pool and its cache keep the bits of the scalar oracles. */
module AttentionBits {
  import opened Index
  import opened Arithmetic
  import opened Softmax
  import opened HeadAttention
  import opened Layout
  import opened AvxAttention
  import opened AvxAgreement
  import opened AttentionShape
  import opened AttentionForms
  import opened AttentionDispatch
  import opened CacheDecode
  import opened Rounding
  import opened RoundedWitness

  // ---- blocks in a row ----

  function Joined<F>(want: seq<seq<F>>, dim: nat): (out: seq<F>)
    requires forall t :: 0 <= t < |want| ==> |want[t]| == dim
    ensures |out| == Times(|want|, dim)
  {
    seq(Times(|want|, dim), c requires 0 <= c < Times(|want|, dim) =>
      QuotBound(c, |want|, dim);
      want[Quot(c, dim)][Rem(c, dim)])
  }

  lemma {:induction false} JoinedBlock<F>(want: seq<seq<F>>, dim: nat, t: nat)
    requires (forall u :: 0 <= u < |want| ==> |want[u]| == dim) && t < |want|
    ensures BlockIs(Joined(want, dim), t, dim, want[t])
  {
    hide Times, Quot, Rem;
    SlotBound(t, |want|, dim);
    var b := Block(Joined(want, dim), t, dim);
    forall d | 0 <= d < dim ensures b[d] == want[t][d] { QuotJoin(t, d, dim); }
  }

  // ---- the encoder and the pool ----

  /** With a pool and without one, the encoder leaves the same output. */
  ghost predicate PoolKeepsBits<F(!new)>(ops: Ops<F>, mode: Mode, threads: nat, s: Shape, q: seq<F>, k: seq<F>,
                                         v: seq<F>, scale: F)
    requires s.Valid() && s.Fits(q, k, v)
  {
    forall a, b ::
      EncoderOutput(ops, mode, Pool(threads), s, q, k, v, scale, a) ==>
        EncoderOutput(ops, mode, NoPool, s, q, k, v, scale, b) ==> a == b
  }

  /** It always does when no vector is filled, for any operations on any type. */
  lemma {:induction false} NarrowPool<F(!new)>(ops: Ops<F>, mode: Mode, threads: nat, s: Shape, q: seq<F>, k: seq<F>,
                                               v: seq<F>, scale: F)
    requires s.Valid() && s.Fits(q, k, v) && SameBits(ops, EncoderArithmetic(mode, Pool(threads), s.qRows), s.dim)
    ensures PoolKeepsBits(ops, mode, threads, s, q, k, v, scale)
  {
    hide HeadValue, TwoPass, Seen, HeadRow, AllBlocks, SameBits;
    var m := EncoderArithmetic(mode, Pool(threads), s.qRows);
    var x, y := ModeBlocks(ops, m, s, q, k, v, scale), ModeBlocks(ops, Scalar, s, q, k, v, scale);
    forall p | 0 <= p < |x| ensures x[p] == y[p] {
      QuotBound(p, s.qRows, s.qHeads);
      var r, h := Quot(p, s.qHeads), Rem(p, s.qHeads);
      NarrowHead(ops, m, HeadRow(q, s.qRows, s.qHeads, s.dim, h, r), Seen(s, k, v, r, h), scale);
      ScalarHead(ops, HeadRow(q, s.qRows, s.qHeads, s.dim, h, r), Seen(s, k, v, r, h), scale);
    }
    assert x == y;
    forall a, b | EncoderOutput(ops, mode, Pool(threads), s, q, k, v, scale, a)
      && EncoderOutput(ops, mode, NoPool, s, q, k, v, scale, b) ensures a == b
    {
      SameOutput(a, b, x, s.dim);
    }
  }

  /** Over the reals it always does. */
  lemma {:induction false} RealPool(exp: real -> real, mode: Mode, threads: nat, s: Shape, q: seq<real>, k: seq<real>,
                                    v: seq<real>, scale: real)
    requires s.Valid() && s.Fits(q, k, v)
    ensures PoolKeepsBits(RealOps(exp), mode, threads, s, q, k, v, scale)
  {
    hide HeadValue, TwoPass, Seen, HeadRow, AllBlocks, RealOps;
    var ops := RealOps(exp);
    var m := EncoderArithmetic(mode, Pool(threads), s.qRows);
    var x, y := ModeBlocks(ops, m, s, q, k, v, scale), ModeBlocks(ops, Scalar, s, q, k, v, scale);
    forall p | 0 <= p < |x| ensures x[p] == y[p] {
      QuotBound(p, s.qRows, s.qHeads);
      var r, h := Quot(p, s.qHeads), Rem(p, s.qHeads);
      RealHeadValue(exp, m, HeadRow(q, s.qRows, s.qHeads, s.dim, h, r), Seen(s, k, v, r, h), scale);
      RealHeadValue(exp, Scalar, HeadRow(q, s.qRows, s.qHeads, s.dim, h, r), Seen(s, k, v, r, h), scale);
    }
    assert x == y;
    forall a, b | EncoderOutput(ops, mode, Pool(threads), s, q, k, v, scale, a)
      && EncoderOutput(ops, mode, NoPool, s, q, k, v, scale, b) ensures a == b
    {
      SameOutput(a, b, x, s.dim);
    }
  }

  /** For every shape wide and long enough, rounded arithmetic and an input on which the pool changes bits. */
  lemma {:induction false} PoolShows(threads: nat, rows: nat, heads: nat, dim: nat)
    requires 0 < heads && 8 <= dim && PARALLEL_SDPA_MIN_SEQ <= rows
    ensures !PoolKeepsBits(HalfOps(), Avx2, threads, FullShape(rows, rows, heads, dim), Queries(rows, heads, dim),
                           KeyRows(rows, heads, dim), ValueRows(rows, heads, dim), 1.0)
  {
    hide HeadValue, TwoPass, HeadRow, HeadOf, Queries, KeyRows, ValueRows, Keys, HalfOps, Joined, BlockIs, Times;
    var s := FullShape(rows, rows, heads, dim);
    var q, k, v := Queries(rows, heads, dim), KeyRows(rows, heads, dim), ValueRows(rows, heads, dim);
    var x, y := ModeBlocks(HalfOps(), Avx2, s, q, k, v, 1.0), ModeBlocks(HalfOps(), Scalar, s, q, k, v, 1.0);
    FirstBlocksPart(rows, heads, dim);
    forall t | 0 <= t < |x| ensures BlockIs(Joined(x, dim), t, dim, x[t]) && BlockIs(Joined(y, dim), t, dim, y[t]) {
      JoinedBlock(x, dim, t);
      JoinedBlock(y, dim, t);
    }
    assert EncoderOutput(HalfOps(), Avx2, Pool(threads), s, q, k, v, 1.0, Joined(x, dim));
    assert EncoderOutput(HalfOps(), Avx2, NoPool, s, q, k, v, 1.0, Joined(y, dim));
    assert Joined(x, dim) != Joined(y, dim) by {
      BlocksDiffer(Joined(x, dim), Joined(y, dim), 0, dim, x[0], y[0]);
    }
  }

  lemma {:induction false} BlocksDiffer<F>(a: seq<F>, b: seq<F>, t: nat, dim: nat, x: seq<F>, y: seq<F>)
    requires BlockIs(a, t, dim, x) && BlockIs(b, t, dim, y) && x != y
    ensures a != b
  {}

  /** The heads of row 0 see all the keys. */
  lemma {:induction false} FirstBlocksPart(rows: nat, heads: nat, dim: nat)
    requires 0 < heads && 8 <= dim && 2 <= rows
    ensures var s := FullShape(rows, rows, heads, dim);
            var q, k, v := Queries(rows, heads, dim), KeyRows(rows, heads, dim), ValueRows(rows, heads, dim);
            && 0 < Times(rows, heads)
            && ModeAt(HalfOps(), Avx2, s, q, k, v, 1.0, 0) != ModeAt(HalfOps(), Scalar, s, q, k, v, 1.0, 0)
  {
    hide HeadValue, TwoPass, HeadRow, HeadOf, Queries, KeyRows, ValueRows, Keys, HalfOps, Times;
    var s := FullShape(rows, rows, heads, dim);
    var q, k, v := Queries(rows, heads, dim), KeyRows(rows, heads, dim), ValueRows(rows, heads, dim);
    TimesZero(heads);
    ModeAtJoin(HalfOps(), Avx2, s, q, k, v, 1.0, 0, 0);
    ModeAtJoin(HalfOps(), Scalar, s, q, k, v, 1.0, 0, 0);
    QueryRow(rows, heads, dim, 0, 0);
    SeenKeys(rows, heads, dim, 0, rows);
    HeadsPart(rows, dim);
    ScalarHead(HalfOps(), Spike(1.0, dim), Keys(rows, dim), 1.0);
  }

  /** Whatever the operations, as long as zeros add to zero. */
  ghost predicate PoolNeverShows(mode: Mode, threads: nat, s: Shape)
    requires s.Valid()
  {
    forall ops: Ops<real>, q, k, v, scale ::
      ZeroAdds(ops) && s.Fits(q, k, v) ==> PoolKeepsBits(ops, mode, threads, s, q, k, v, scale)
  }

  /** Whatever the rounding of otherwise exact operations. */
  ghost predicate PoolNeverRounds(mode: Mode, threads: nat, s: Shape)
    requires s.Valid()
  {
    forall round, exp, q, k, v, scale ::
      IsRounding(round) && s.Fits(q, k, v) ==> PoolKeepsBits(RoundOps(round, exp), mode, threads, s, q, k, v, scale)
  }

  /** The encoder with a pool is the encoder without one, bit for bit on all inputs, if and only if the mode is
      not AVX2, or the sequence is too short for the pool, or heads are narrower than a vector. */
  lemma {:induction false} EncoderPoolIff(mode: Mode, threads: nat, rows: nat, heads: nat, dim: nat)
    requires 0 < heads && 0 < dim
    ensures PoolNeverShows(mode, threads, FullShape(rows, rows, heads, dim)) <==>
              !mode.Avx2? || rows < PARALLEL_SDPA_MIN_SEQ || dim < 8
    ensures PoolNeverRounds(mode, threads, FullShape(rows, rows, heads, dim)) <==>
              !mode.Avx2? || rows < PARALLEL_SDPA_MIN_SEQ || dim < 8
  {
    hide PoolKeepsBits, IsRounding, RoundOps;
    var s := FullShape(rows, rows, heads, dim);
    if !mode.Avx2? || rows < PARALLEL_SDPA_MIN_SEQ || dim < 8 {
      forall ops: Ops<real>, q, k, v, scale | ZeroAdds(ops) && s.Fits(q, k, v)
        ensures PoolKeepsBits(ops, mode, threads, s, q, k, v, scale)
      {
        NarrowPool(ops, mode, threads, s, q, k, v, scale);
      }
      forall round, exp, q, k, v, scale | IsRounding(round) && s.Fits(q, k, v)
        ensures PoolKeepsBits(RoundOps(round, exp), mode, threads, s, q, k, v, scale)
      {
        RoundedZeroAdds(round, exp);
        NarrowPool(RoundOps(round, exp), mode, threads, s, q, k, v, scale);
      }
    } else {
      HalvesIsRounding();
      RoundedZeroAdds(Halves, Step);
      PoolShows(threads, rows, heads, dim);
    }
  }

  lemma {:induction false} RoundedZeroAdds(round: real -> real, exp: real -> real)
    requires IsRounding(round)
    ensures ZeroAdds(RoundOps(round, exp))
  {}

  // ---- the cache and full causal attention ----

  /** Every step of every run in this mode is its row of full causal attention, for all operations. */
  ghost predicate RunsAreCausal(mode: Mode, n: nat, heads: nat, dim: nat) {
    forall ops: Ops<real>, q, k, v, scale, t, out ::
      ZeroAdds(ops) && RunStep(ops, mode, n, heads, dim, q, k, v, scale, t, out) ==>
        CausalRowIs(ops, q, k, v, n, heads, dim, scale, t, out)
  }

  /** `out` is what step t of a run over q, k and v leaves. */
  ghost predicate RunStep<F>(ops: Ops<F>, mode: Mode, n: nat, heads: nat, dim: nat, q: seq<F>, k: seq<F>, v: seq<F>,
                             scale: F, t: nat, out: seq<F>)
  {
    && Tensor(q, n, heads, dim) && Tensor(k, n, heads, dim) && Tensor(v, n, heads, dim) && t < n
    && StepRowIs(ops, mode, q, k, v, n, heads, dim, scale, t, out)
  }

  /** Values that rounding leaves alone, as all stored numbers are. */
  ghost predicate OnGrid(round: real -> real, v: seq<real>) { forall i :: 0 <= i < |v| ==> round(v[i]) == v[i] }

  /** The same for rounded arithmetic, an exponential that is one at zero, and representable values. */
  ghost predicate RoundedRunsAreCausal(mode: Mode, n: nat, heads: nat, dim: nat) {
    forall round, exp: real -> real, q, k, v, scale, t, out ::
      IsRounding(round) && exp(0.0) == 1.0 && OnGrid(round, v)
      && RunStep(RoundOps(round, exp), mode, n, heads, dim, q, k, v, scale, t, out) ==>
        CausalRowIs(RoundOps(round, exp), q, k, v, n, heads, dim, scale, t, out)
  }

  /** Every step of every run leaves something. */
  lemma {:induction false} StepExists<F>(ops: Ops<F>, mode: Mode, n: nat, heads: nat, dim: nat, q: seq<F>, k: seq<F>,
                                         v: seq<F>, scale: F, t: nat) returns (out: seq<F>)
    requires Tensor(q, n, heads, dim) && Tensor(k, n, heads, dim) && Tensor(v, n, heads, dim) && t < n
    ensures RunStep(ops, mode, n, heads, dim, q, k, v, scale, t, out)
  {
    hide ModeRow, Joined, BlockIs;
    var s := CausalShape(n, heads, dim);
    assert forall r :: 0 <= r < n ==> s.InRange(r);
    var want := seq(heads, h requires 0 <= h < heads => ModeRow(ops, mode, s, q, k, v, scale, t, h));
    out := Joined(want, dim);
    forall h | 0 <= h < heads ensures BlockIs(out, h, dim, ModeRow(ops, mode, s, q, k, v, scale, t, h)) {
      JoinedBlock(want, dim, h);
    }
  }

  /** Where the first heads differ, the step is not the causal row. */
  lemma {:induction false} StepShows<F>(ops: Ops<F>, n: nat, heads: nat, dim: nat, q: seq<F>, k: seq<F>, v: seq<F>,
                                        scale: F, t: nat, out: seq<F>)
    requires RunStep(ops, Avx2, n, heads, dim, q, k, v, scale, t, out) && 0 < heads
    requires ModeRow(ops, Avx2, CausalShape(n, heads, dim), q, k, v, scale, t, 0)
          != ModeRow(ops, Scalar, CausalShape(n, heads, dim), q, k, v, scale, t, 0)
    ensures !CausalRowIs(ops, q, k, v, n, heads, dim, scale, t, out)
  {
    hide ModeRow;
    assert BlockIs(out, 0, dim, ModeRow(ops, Avx2, CausalShape(n, heads, dim), q, k, v, scale, t, 0));
  }

  /** Any step in which a vector is filled can differ, if nothing is assumed of fused products. */
  lemma {:induction false} FusedStepShows(n: nat, heads: nat, dim: nat, q: seq<real>, k: seq<real>, v: seq<real>,
                                          scale: real, t: nat, out: seq<real>)
    requires RunStep(FusedOps(), Avx2, n, heads, dim, q, k, v, scale, t, out) && 0 < heads && 8 <= dim
    ensures !CausalRowIs(FusedOps(), q, k, v, n, heads, dim, scale, t, out)
  {
    hide HeadValue, TwoPass, HeadRow, Seen, FusedOps;
    var qr, g := HeadRow(q, n, heads, dim, 0, t), Seen(CausalShape(n, heads, dim), k, v, t, 0);
    FusedShows(qr, g, scale);
    ScalarHead(FusedOps(), qr, g, scale);
    StepShows(FusedOps(), n, heads, dim, q, k, v, scale, t, out);
  }

  /** From the second step on, so can a correctly rounded one. */
  lemma {:induction false} RoundedStepShows(n: nat, heads: nat, dim: nat, t: nat, out: seq<real>)
    requires 0 < heads && 8 <= dim && 0 < t
    requires RunStep(HalfOps(), Avx2, n, heads, dim, Queries(n, heads, dim), KeyRows(n, heads, dim),
                     ValueRows(n, heads, dim), 1.0, t, out)
    ensures !CausalRowIs(HalfOps(), Queries(n, heads, dim), KeyRows(n, heads, dim), ValueRows(n, heads, dim), n, heads,
                         dim, 1.0, t, out)
  {
    hide HeadValue, TwoPass, HeadRow, HeadOf, Queries, KeyRows, ValueRows, Keys, HalfOps, Spike;
    QueryRow(n, heads, dim, 0, t);
    SeenKeys(n, heads, dim, 0, t + 1);
    HeadsPart(t + 1, dim);
    ScalarHead(HalfOps(), Spike(1.0, dim), Keys(t + 1, dim), 1.0);
    StepShows(HalfOps(), n, heads, dim, Queries(n, heads, dim), KeyRows(n, heads, dim), ValueRows(n, heads, dim), 1.0,
              t, out);
  }

  // ---- the first step ----

  /** A single key weighs one in rounded arithmetic, however its score was computed. */
  lemma {:induction false} SingleWeight(round: real -> real, exp: real -> real, s: seq<real>)
    requires IsRounding(round) && exp(0.0) == 1.0 && |s| == 1
    ensures SoftmaxOf(RoundOps(round, exp), s) == [1.0]
  {
    hide IsRounding;
    RoundsFixed(round);
    var ops := RoundOps(round, exp);
    assert MaxTo(ops, s, 1) == s[0];
    var e := Shifted(ops, s, s[0]);
    assert e == [1.0] by { assert ops.sub(s[0], s[0]) == 0.0; }
    assert SumTo(ops, e, 0) == 0.0;
    assert SumTo(ops, e, 1) == 1.0;
    assert ops.div(1.0, 1.0) == 1.0;
    assert Scaled(ops, e, 1.0) == [1.0];
  }

  lemma {:induction false} RoundsFixed(round: real -> real)
    requires IsRounding(round)
    ensures round(0.0) == 0.0 && round(1.0) == 1.0
  {}

  /** So it is attended alike in every mode. */
  lemma {:induction false} SingleKey(round: real -> real, exp: real -> real, mode: Mode, q: seq<real>, h: Head<real>,
                                     scale: real)
    requires IsRounding(round) && exp(0.0) == 1.0 && h.Valid() && |q| == h.dim && h.n == 1 && OnGrid(round, h.v[0])
    ensures HeadValue(RoundOps(round, exp), mode, q, h, scale) == h.v[0]
  {
    hide SoftmaxOf, IsRounding, AvxScores, Scores;
    RoundsFixed(round);
    var ops := RoundOps(round, exp);
    SingleWeight(round, exp, AvxScores(ops, q, h, scale));
    SingleWeight(round, exp, Scores(ops, q, h, scale));
    var o := HeadValue(ops, mode, q, h, scale);
    forall d | 0 <= d < h.dim ensures o[d] == h.v[0][d] { SingleFold(round, exp, h, d); }
  }

  lemma {:induction false} SingleFold(round: real -> real, exp: real -> real, h: Head<real>, d: nat)
    requires IsRounding(round) && h.Valid() && h.n == 1 && OnGrid(round, h.v[0]) && d < h.dim
    ensures WeightedTo(RoundOps(round, exp), [1.0], h.v, h.dim, d, 1) == h.v[0][d]
    ensures FusedTo(RoundOps(round, exp), [1.0], h.v, h.dim, d, 1) == h.v[0][d]
  {
    hide IsRounding;
    var ops := RoundOps(round, exp);
    assert round(h.v[0][d]) == h.v[0][d];
    assert WeightedTo(ops, [1.0], h.v, h.dim, d, 0) == 0.0 && FusedTo(ops, [1.0], h.v, h.dim, d, 0) == 0.0;
  }

  /** Row t of a head of a stored tensor is stored as well. */
  lemma {:induction false} GridRow(round: real -> real, v: seq<real>, rows: nat, heads: nat, dim: nat, h: nat, r: nat)
    requires OnGrid(round, v) && Tensor(v, rows, heads, dim) && h < heads && r < rows
    ensures OnGrid(round, HeadRow(v, rows, heads, dim, h, r))
  {
    hide HeadRow, Times;
    var b := HeadRow(v, rows, heads, dim, h, r);
    forall i | 0 <= i < |b| ensures round(b[i]) == b[i] { assert b[i] == v[RowBase(heads, dim, h, r) + i]; }
  }

  lemma {:induction false} FirstStepIsCausal(round: real -> real, exp: real -> real, mode: Mode, heads: nat, dim: nat,
                                             q: seq<real>, k: seq<real>, v: seq<real>, scale: real, out: seq<real>)
    requires IsRounding(round) && exp(0.0) == 1.0 && OnGrid(round, v)
    requires RunStep(RoundOps(round, exp), mode, 1, heads, dim, q, k, v, scale, 0, out)
    ensures CausalRowIs(RoundOps(round, exp), q, k, v, 1, heads, dim, scale, 0, out)
  {
    hide HeadValue, HeadRow, BlockIs, RoundOps, IsRounding, OnGrid;
    var ops, s := RoundOps(round, exp), CausalShape(1, heads, dim);
    forall h | 0 <= h < heads ensures BlockIs(out, h, dim, ModeRow(ops, Scalar, s, q, k, v, scale, 0, h)) {
      var qr, g := HeadRow(q, 1, heads, dim, h, 0), Seen(s, k, v, 0, h);
      GridRow(round, v, 1, heads, dim, h, 0);
      assert g.v[0] == HeadRow(v, 1, heads, dim, h, 0);
      SingleKey(round, exp, mode, qr, g, scale);
      SingleKey(round, exp, Scalar, qr, g, scale);
      assert ModeRow(ops, mode, s, q, k, v, scale, 0, h) == ModeRow(ops, Scalar, s, q, k, v, scale, 0, h);
    }
  }

  lemma {:induction false} KeysOnGrid(n: nat, heads: nat, dim: nat)
    requires 0 < heads && 0 < dim
    ensures OnGrid(Halves, ValueRows(n, heads, dim))
  {
    hide Halves, Times, Quot, Rem;
    HalvesAt();
    var v := ValueRows(n, heads, dim);
    forall c | 0 <= c < |v| ensures Halves(v[c]) == v[c] {
      FilledAt(n, heads, dim, ValueCell, c);
    }
  }

  // ---- exactly when ----

  /** Decoding through the cache is full causal attention, bit for bit in every step of every run, if and only
      if the mode is not AVX2 or heads are narrower than a vector. */
  lemma {:induction false} DecodeIff(mode: Mode, n: nat, heads: nat, dim: nat)
    requires 0 < n && 0 < heads && 0 < dim
    ensures RunsAreCausal(mode, n, heads, dim) <==> !mode.Avx2? || dim < 8
  {
    hide StepRowIs, CausalRowIs, SameBits, FusedOps;
    if !mode.Avx2? || dim < 8 {
      forall ops: Ops<real>, q, k, v, scale, t, out |
        ZeroAdds(ops) && RunStep(ops, mode, n, heads, dim, q, k, v, scale, t, out)
        ensures CausalRowIs(ops, q, k, v, n, heads, dim, scale, t, out)
      {
        NarrowIsSame(ops, mode, dim);
        NarrowStepIsCausal(ops, mode, q, k, v, n, heads, dim, scale, t, out);
      }
    } else {
      var z := Queries(n, heads, dim);
      var out := StepExists(FusedOps(), Avx2, n, heads, dim, z, z, z, 1.0, 0);
      FusedStepShows(n, heads, dim, z, z, z, 1.0, 0, out);
      FusedZeroAdds();
    }
  }

  lemma {:induction false} NarrowIsSame<F>(ops: Ops<F>, mode: Mode, dim: nat)
    requires ZeroAdds(ops) && (!mode.Avx2? || dim < 8)
    ensures SameBits(ops, mode, dim)
  {}

  lemma {:induction false} FusedZeroAdds()
    ensures ZeroAdds(FusedOps())
  {}

  /** In rounded arithmetic the first step agrees as well, and no other need. */
  lemma {:induction false} RoundedDecodeIff(mode: Mode, n: nat, heads: nat, dim: nat)
    requires 0 < n && 0 < heads && 0 < dim
    ensures RoundedRunsAreCausal(mode, n, heads, dim) <==> !mode.Avx2? || dim < 8 || n == 1
  {
    hide StepRowIs, CausalRowIs, SameBits, IsRounding, RoundOps, OnGrid;
    if !mode.Avx2? || dim < 8 || n == 1 {
      forall round, exp: real -> real, q, k, v, scale, t, out |
        IsRounding(round) && exp(0.0) == 1.0 && OnGrid(round, v)
        && RunStep(RoundOps(round, exp), mode, n, heads, dim, q, k, v, scale, t, out)
        ensures CausalRowIs(RoundOps(round, exp), q, k, v, n, heads, dim, scale, t, out)
      {
        if n == 1 {
          FirstStepIsCausal(round, exp, mode, heads, dim, q, k, v, scale, out);
        } else {
          RoundedZeroAdds(round, exp);
          NarrowIsSame(RoundOps(round, exp), mode, dim);
          NarrowStepIsCausal(RoundOps(round, exp), mode, q, k, v, n, heads, dim, scale, t, out);
        }
      }
    } else {
      var q, k, v := Queries(n, heads, dim), KeyRows(n, heads, dim), ValueRows(n, heads, dim);
      HalvesIsRounding();
      KeysOnGrid(n, heads, dim);
      var out := StepExists(HalfOps(), Avx2, n, heads, dim, q, k, v, 1.0, n - 1);
      RoundedStepShows(n, heads, dim, n - 1, out);
    }
  }
}
