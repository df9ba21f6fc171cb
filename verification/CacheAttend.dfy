/** Attention of one query row over the visible prefix of a cache, serial or by a thread per head. */
module CacheAttend {
  import opened Index
  import opened Arithmetic
  import opened Softmax
  import opened HeadAttention
  import opened Layout
  import opened AvxAttention
  import opened AttentionShape
  import opened AttentionOracle
  import opened AttentionForms

  function CacheShape(visible: nat, heads: nat, dim: nat): Shape {
    Shape(1, visible, heads, heads, dim, Prefix(visible))
  }

  /** One head of the cache attention: unlike the encoder body, each output cell is accumulated
      in a local over all keys before it is stored. */
  method CacheHead<F>(ops: Ops<F>, q: seq<F>, k: seq<F>, v: seq<F>, visible: nat, heads: nat, dim: nat, h: nat,
                      scale: F, scores: array<F>, out: array<F>)
    requires Tensor(k, visible, heads, dim) && Tensor(v, visible, heads, dim) && h < heads
    requires |q| == out.Length == Times(heads, dim) && scores.Length == visible && scores != out
    modifies scores, out
    ensures Times(h, dim) + dim <= out.Length
    ensures out[Times(h, dim)..Times(h, dim) + dim]
      == TwoPass(ops, q[Times(h, dim)..Times(h, dim) + dim], HeadOf(k, v, visible, heads, dim, h, 0, visible), scale)
    ensures SameOutside(out[..], old(out[..]), Times(h, dim), dim)
  {
    hide HeadOf, SoftmaxOf, Scores;
    SlotBound(h, heads, dim);
    ScoreLoop(ops, q, Times(h, dim), k, v, visible, heads, dim, h, 0, visible, scale, scores);
    SoftmaxInPlace(ops, scores, visible);
    StoreColumns(ops, scores[..visible], k, v, visible, heads, dim, h, out);
  }

  method StoreColumns<F>(ops: Ops<F>, p: seq<F>, ghost k: seq<F>, v: seq<F>, visible: nat, heads: nat, dim: nat, h: nat,
                         out: array<F>)
    requires Tensor(k, visible, heads, dim) && Tensor(v, visible, heads, dim) && h < heads && |p| == visible
    requires Times(h, dim) + dim <= out.Length
    modifies out
    ensures forall i :: Times(h, dim) <= i < Times(h, dim) + dim ==>
      out[i] == WeightedTo(ops, p, HeadOf(k, v, visible, heads, dim, h, 0, visible).v, dim, i - Times(h, dim), visible)
    ensures SameOutside(out[..], old(out[..]), Times(h, dim), dim)
  {
    hide HeadOf;
    var base := Times(h, dim);
    ghost var vs := HeadOf(k, v, visible, heads, dim, h, 0, visible).v;
    for d := 0 to dim
      invariant forall i :: base <= i < base + d ==> out[i] == WeightedTo(ops, p, vs, dim, i - base, visible)
      invariant forall i :: 0 <= i < out.Length && !(base <= i < base + dim) ==> out[i] == old(out[i])
    {
      out[base + d] := ColumnSum(ops, p, k, v, visible, heads, dim, h, d);
    }
  }

  method ColumnSum<F>(ops: Ops<F>, p: seq<F>, ghost k: seq<F>, v: seq<F>, visible: nat, heads: nat, dim: nat, h: nat,
                      d: nat)
    returns (acc: F)
    requires Tensor(k, visible, heads, dim) && Tensor(v, visible, heads, dim) && h < heads && d < dim && |p| == visible
    ensures acc == WeightedTo(ops, p, HeadOf(k, v, visible, heads, dim, h, 0, visible).v, dim, d, visible)
  {
    hide HeadOf;
    ghost var vs := HeadOf(k, v, visible, heads, dim, h, 0, visible).v;
    acc := ops.zero;
    for j := 0 to visible
      invariant acc == WeightedTo(ops, p, vs, dim, d, j)
    {
      HeadOfRow(k, v, visible, heads, dim, h, 0, visible, j);
      acc := ops.add(acc, ops.mul(p[j], v[RowBase(heads, dim, h, j) + d]));
    }
  }

  lemma {:induction false} CacheBlock<F>(ops: Ops<F>, mode: Mode, q: seq<F>, k: seq<F>, v: seq<F>, visible: nat,
                                         heads: nat, dim: nat, h: nat, scale: F)
    requires Tensor(k, visible, heads, dim) && Tensor(v, visible, heads, dim) && h < heads && |q| == Times(heads, dim)
    ensures CacheShape(visible, heads, dim).Valid() && CacheShape(visible, heads, dim).Fits(q, k, v)
    ensures Times(1, heads) == heads && Times(h, dim) + dim <= |q|
    ensures ModeAt(ops, mode, CacheShape(visible, heads, dim), q, k, v, scale, h) ==
            HeadValue(ops, mode, q[Times(h, dim)..Times(h, dim) + dim],
                HeadOf(k, v, visible, heads, dim, h, 0, visible), scale)
  {
    hide ModeRow, ModeAt, HeadValue, HeadOf, Times;
    var s := CacheShape(visible, heads, dim);
    TimesOne(heads);
    TimesZero(heads);
    TimesZero(Times(heads, dim));
    assert s.InRange(0);
    ModeAtJoin(ops, mode, s, q, k, v, scale, 0, h);
    ModeRowOffsets(ops, mode, s, q, k, v, scale, 0, h);
  }

  ghost predicate CacheBlockIs<F>(ops: Ops<F>, mode: Mode, q: seq<F>, k: seq<F>, v: seq<F>, visible: nat, heads: nat,
                                  dim: nat, scale: F, out: seq<F>, t: nat)
    requires Tensor(k, visible, heads, dim) && Tensor(v, visible, heads, dim) && |q| == Times(heads, dim) && t < heads
  {
    CacheBlock(ops, mode, q, k, v, visible, heads, dim, t, scale);
    BlockIs(out, t, dim, ModeAt(ops, mode, CacheShape(visible, heads, dim), q, k, v, scale, t))
  }

  /** Once head h has been written, it is right and every other head is as it was. */
  lemma {:induction false} HeadWritten<F>(ops: Ops<F>, mode: Mode, q: seq<F>, k: seq<F>, v: seq<F>, visible: nat,
                                          heads: nat, dim: nat, scale: F, before: seq<F>, after: seq<F>, h: nat, t: nat)
    requires Tensor(k, visible, heads, dim) && Tensor(v, visible, heads, dim) && |q| == |after| == Times(heads, dim)
    requires h < heads && t < heads && Times(h, dim) + dim <= |q|
    requires SameOutside(after, before, Times(h, dim), dim)
    requires after[Times(h, dim)..Times(h, dim) + dim]
      == HeadValue(ops, mode, q[Times(h, dim)..Times(h, dim) + dim], HeadOf(k, v, visible, heads, dim, h, 0, visible),
          scale)
    requires t == h || CacheBlockIs(ops, mode, q, k, v, visible, heads, dim, scale, before, t)
    ensures CacheBlockIs(ops, mode, q, k, v, visible, heads, dim, scale, after, t)
  {
    hide ModeAt, HeadValue, HeadOf, Times, SameOutside;
    CacheBlock(ops, mode, q, k, v, visible, heads, dim, t, scale);
    if t != h {
      BlockKept(before, after, t, h, dim, ModeAt(ops, mode, CacheShape(visible, heads, dim), q, k, v, scale, t));
    }
  }

  lemma {:induction false} HeadsWritten<F>(ops: Ops<F>, mode: Mode, q: seq<F>, k: seq<F>, v: seq<F>, visible: nat,
                                           heads: nat, dim: nat, scale: F, out: seq<F>)
    requires Tensor(k, visible, heads, dim) && Tensor(v, visible, heads, dim) && |q| == |out| == Times(heads, dim)
    requires forall t :: 0 <= t < heads ==> CacheBlockIs(ops, mode, q, k, v, visible, heads, dim, scale, out, t)
    ensures CacheShape(visible, heads, dim).Valid() && CacheShape(visible, heads, dim).Fits(q, k, v)
    ensures AllBlocks(out, ModeBlocks(ops, mode, CacheShape(visible, heads, dim), q, k, v, scale), dim)
  {
    hide ModeAt, HeadValue, HeadOf;
    assert Times(1, heads) == heads;
    assert CacheShape(visible, heads, dim).InRange(0);
    var want := ModeBlocks(ops, mode, CacheShape(visible, heads, dim), q, k, v, scale);
    forall t | 0 <= t < heads ensures BlockIs(out, t, dim, want[t]) {
      assert CacheBlockIs(ops, mode, q, k, v, visible, heads, dim, scale, out, t);
    }
  }

  /** One head of the serial form: the scalar body accumulates in locals, the AVX2 body in lanes. */
  method CacheHeadByMode<F>(ops: Ops<F>, mode: Mode, q: seq<F>, k: seq<F>, v: seq<F>, visible: nat, heads: nat,
                            dim: nat, h: nat, scale: F, scores: array<F>, out: array<F>)
    requires Tensor(k, visible, heads, dim) && Tensor(v, visible, heads, dim) && h < heads
    requires |q| == out.Length == Times(heads, dim) && scores.Length == visible && scores != out
    modifies scores, out
    ensures Times(h, dim) + dim <= out.Length
    ensures out[Times(h, dim)..Times(h, dim) + dim]
      == HeadValue(ops, mode, q[Times(h, dim)..Times(h, dim) + dim], HeadOf(k, v, visible, heads, dim, h, 0, visible),
          scale)
    ensures SameOutside(out[..], old(out[..]), Times(h, dim), dim)
  {
    hide TwoPass, AvxTwoPass, HeadOf, SameOutside, Times;
    SlotBound(h, heads, dim);
    if mode.Avx2? {
      HeadBodyAvx2(ops, q, Times(h, dim), k, v, visible, heads, dim, h, 0, visible, scale, scores, out, Times(h, dim));
    } else {
      CacheHead(ops, q, k, v, visible, heads, dim, h, scale, scores, out);
    }
  }

  /** attention_decoder_incremental_cache_host: head after head, with one scratch buffer. */
  method CacheHost<F>(ops: Ops<F>, mode: Mode, q: seq<F>, k: seq<F>, v: seq<F>, visible: nat, heads: nat, dim: nat,
                      scale: F, out: array<F>)
    requires Tensor(k, visible, heads, dim) && Tensor(v, visible, heads, dim)
    requires |q| == out.Length == Times(heads, dim)
    modifies out
    ensures CacheShape(visible, heads, dim).Valid() && CacheShape(visible, heads, dim).Fits(q, k, v)
    ensures AllBlocks(out[..], ModeBlocks(ops, mode, CacheShape(visible, heads, dim), q, k, v, scale), dim)
  {
    hide ModeAt, HeadValue, HeadOf, SameOutside, CacheBlockIs, Times;
    var scores := new F[visible](_ => ops.zero);
    for h := 0 to heads
      invariant forall t :: 0 <= t < h ==> CacheBlockIs(ops, mode, q, k, v, visible, heads, dim, scale, out[..], t)
    {
      ghost var before := out[..];
      CacheHeadByMode(ops, mode, q, k, v, visible, heads, dim, h, scale, scores, out);
      forall t | 0 <= t <= h ensures CacheBlockIs(ops, mode, q, k, v, visible, heads, dim, scale, out[..], t) {
        HeadWritten(ops, mode, q, k, v, visible, heads, dim, scale, before, out[..], h, t);
      }
    }
    HeadsWritten(ops, mode, q, k, v, visible, heads, dim, scale, out[..]);
  }

  /** attention_decoder_incremental_cache_parallel: one task a head, in any order, each with its own
      scratch and, in the scalar modes, accumulating into its output slice. */
  method CachePooled<F>(ops: Ops<F>, mode: Mode, q: seq<F>, k: seq<F>, v: seq<F>, visible: nat, heads: nat, dim: nat,
                        scale: F, order: seq<nat>, out: array<F>)
    requires Tensor(k, visible, heads, dim) && Tensor(v, visible, heads, dim)
    requires |q| == out.Length == Times(heads, dim) && forall h :: h in order <==> h < heads
    modifies out
    ensures CacheShape(visible, heads, dim).Valid() && CacheShape(visible, heads, dim).Fits(q, k, v)
    ensures AllBlocks(out[..], ModeBlocks(ops, mode, CacheShape(visible, heads, dim), q, k, v, scale), dim)
  {
    hide AllBlocks, ModeBlocks;
    assert Times(1, heads) == heads;
    assert CacheShape(visible, heads, dim).InRange(0);
    PooledHeads(ops, mode, CacheShape(visible, heads, dim), q, k, v, scale, order, out);
  }

  /** The tasks a pool runs: every head, in any order. */
  ghost predicate EveryHead(order: seq<nat>, heads: nat) { forall h :: h in order <==> h < heads }

  ghost predicate PrefixAttended<F>(ops: Ops<F>, mode: Mode, q: seq<F>, keys: seq<F>, values: seq<F>, n: nat,
                                    heads: nat, dim: nat, scale: F, out: seq<F>)
  {
    var len := Times(Times(n, heads), dim);
    && len <= |keys| && len <= |values| && |q| == Times(heads, dim)
    && CacheShape(n, heads, dim).Valid() && CacheShape(n, heads, dim).Fits(q, keys[..len], values[..len])
    && AllBlocks(out, ModeBlocks(ops, mode, CacheShape(n, heads, dim), q, keys[..len], values[..len], scale), dim)
  }

  /** attention_decoder_incremental_cache_d on validated shapes: every mode, with a pool or without. */
  method AttendPrefix<F>(ops: Ops<F>, mode: Mode, pool: Pool, order: seq<nat>, q: seq<F>, keys: seq<F>, values: seq<F>,
                         n: nat, heads: nat, dim: nat, scale: F, out: array<F>)
    requires Times(Times(n, heads), dim) <= |keys| && Times(Times(n, heads), dim) <= |values|
    requires |q| == out.Length == Times(heads, dim) && EveryHead(order, heads)
    modifies out
    ensures PrefixAttended(ops, mode, q, keys, values, n, heads, dim, scale, out[..])
  {
    hide ModeBlocks, AllBlocks;
    var len := Times(Times(n, heads), dim);
    if pool.Pool? && n >= PARALLEL_SDPA_MIN_SEQ && heads > 1 {
      CachePooled(ops, mode, q, keys[..len], values[..len], n, heads, dim, scale, order, out);
    } else {
      CacheHost(ops, mode, q, keys[..len], values[..len], n, heads, dim, scale, out);
    }
  }

  lemma {:induction false} CacheLength<F>(heads: nat, dim: nat, out: seq<F>, ops: Ops<F>, mode: Mode, q: seq<F>,
                                          k: seq<F>, v: seq<F>, n: nat, scale: F)
    requires CacheShape(n, heads, dim).Valid() && CacheShape(n, heads, dim).Fits(q, k, v)
    requires AllBlocks(out, ModeBlocks(ops, mode, CacheShape(n, heads, dim), q, k, v, scale), dim)
    ensures |out| == Times(heads, dim)
  {
    hide ModeAt;
    assert Times(1, heads) == heads;
  }
}
