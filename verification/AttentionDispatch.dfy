/** What the CPU backend runs for each attention entry point: which body, and in whose arithmetic. */
module AttentionDispatch {
  import opened Index
  import opened Arithmetic
  import opened AttentionShape
  import opened AttentionForms

  /** q rows over all kv rows: encoder and cross attention. */
  function FullShape(qSeq: nat, kvSeq: nat, heads: nat, dim: nat): (s: Shape)
    ensures s.Valid()
  {
    var s := Shape(qSeq, kvSeq, heads, heads, dim, Prefix(kvSeq));
    assert forall r :: 0 <= r < qSeq ==> s.InRange(r);
    s
  }

  /** The chunks `par_chunks_mut` makes of whole rows. */
  ghost predicate EveryChunk(s: Shape, pool: Pool, order: seq<nat>, len: nat) {
    pool.Pool? ==>
      forall c :: c in order <==> Times(c, Times(RowsPerChunk(s.qRows, pool.threads), Times(s.qHeads, s.dim))) < len
  }

  /** Only the pooled encoder body looks at the mode; the serial one is the scalar oracle itself. */
  function EncoderArithmetic(mode: Mode, pool: Pool, rows: nat): Mode {
    if pool.Pool? && rows >= PARALLEL_SDPA_MIN_SEQ then mode else Scalar
  }

  /** What the encoder leaves. */
  ghost predicate EncoderOutput<F>(ops: Ops<F>, mode: Mode, pool: Pool, s: Shape, q: seq<F>, k: seq<F>, v: seq<F>,
                                   scale: F, out: seq<F>)
    requires s.Valid() && s.Fits(q, k, v)
  {
    AllBlocks(out, ModeBlocks(ops, EncoderArithmetic(mode, pool, s.qRows), s, q, k, v, scale), s.dim)
  }

  /** attention_encoder_d on validated shapes. */
  method EncoderAttention<F>(ops: Ops<F>, mode: Mode, pool: Pool, order: seq<nat>, rows: nat, heads: nat, dim: nat,
                             q: seq<F>, k: seq<F>, v: seq<F>, scale: F, out: array<F>)
    requires 0 < heads && 0 < dim && FullShape(rows, rows, heads, dim).Fits(q, k, v) && out.Length == |q|
    requires EveryChunk(FullShape(rows, rows, heads, dim), pool, order, |q|)
    modifies out
    ensures EncoderOutput(ops, mode, pool, FullShape(rows, rows, heads, dim), q, k, v, scale, out[..])
  {
    var s := FullShape(rows, rows, heads, dim);
    if pool.Pool? && rows >= PARALLEL_SDPA_MIN_SEQ {
      Parallel(ops, mode, s, q, k, v, scale, out, pool.threads, order);
    } else {
      Serial(ops, s, q, k, v, scale, out);
    }
  }

  /** CpuKernelBackend::scaled_dot_product_attention: causal, with grouped heads. Both of its bodies, serial or
      in chunks, are the scalar arithmetic in every mode, so neither mode nor pool changes a bit. */
  method ScaledDotProduct<F>(ops: Ops<F>, pool: Pool, order: seq<nat>, s: Shape, q: seq<F>, k: seq<F>, v: seq<F>,
                             scale: F, out: array<F>)
    requires s.Valid() && s.Fits(q, k, v) && s.mask == Causal && 0 < s.qHeads && 0 < s.dim && out.Length == |q|
    requires EveryChunk(s, pool, order, |q|)
    modifies out
    ensures AllBlocks(out[..], ModeBlocks(ops, Scalar, s, q, k, v, scale), s.dim)
  {
    if pool.Pool? && s.qRows >= PARALLEL_SDPA_MIN_SEQ {
      Parallel(ops, Scalar, s, q, k, v, scale, out, pool.threads, order);
    } else {
      Serial(ops, s, q, k, v, scale, out);
    }
  }

  /** attention_decoder_cross_d on validated shapes: the serial and the pooled form both follow the mode. */
  method CrossAttention<F>(ops: Ops<F>, mode: Mode, pool: Pool, order: seq<nat>, qSeq: nat, kvSeq: nat, heads: nat,
                           dim: nat, q: seq<F>, k: seq<F>, v: seq<F>, scale: F, out: array<F>)
    requires FullShape(qSeq, kvSeq, heads, dim).Fits(q, k, v) && out.Length == |q|
    requires forall t :: t in order <==> t < Times(qSeq, heads)
    modifies out
    ensures AllBlocks(out[..], ModeBlocks(ops, mode, FullShape(qSeq, kvSeq, heads, dim), q, k, v, scale), dim)
  {
    var s := FullShape(qSeq, kvSeq, heads, dim);
    if pool.Pool? && kvSeq >= PARALLEL_SDPA_MIN_SEQ && Times(qSeq, heads) > 1 {
      PooledHeads(ops, mode, s, q, k, v, scale, order, out);
    } else {
      AllRows(ops, mode, s, q, k, v, scale, out);
    }
  }
}
