/** The attention bodies around one head: the serial loop nests, row chunks on a thread pool, and one
    task a head on a thread pool. */
module AttentionForms {
  import opened Index
  import opened Arithmetic
  import opened Layout
  import opened AttentionShape
  import opened AttentionOracle

  const PARALLEL_SDPA_MIN_SEQ: nat := 32

  function ScratchLen(s: Shape): nat {
    match s.mask
    case Window(w) => if w < s.qRows then w else s.qRows
    case _ => s.kvRows
  }

  lemma {:induction false} ScratchFits(s: Shape, r: nat)
    requires s.Valid() && r < s.qRows
    ensures s.Count(r) <= ScratchLen(s)
  {
    assert s.InRange(r);
  }

  /** `out` is, block for block, `want`. */
  ghost predicate AllBlocks<F>(out: seq<F>, want: seq<seq<F>>, dim: nat) {
    |out| == Times(|want|, dim) && forall t :: 0 <= t < |want| ==> BlockIs(out, t, dim, want[t])
  }

  lemma {:induction false} SameOutput<F>(a: seq<F>, b: seq<F>, want: seq<seq<F>>, dim: nat)
    requires AllBlocks(a, want, dim) && AllBlocks(b, want, dim)
    ensures a == b
  {
    SameBlocks(a, b, want, dim);
  }

  /** The serial bodies. All of them but the cross and cache ones are scalar whatever the backend's mode. */
  method Serial<F>(ops: Ops<F>, s: Shape, q: seq<F>, k: seq<F>, v: seq<F>, scale: F, out: array<F>)
    requires s.Valid() && s.Fits(q, k, v) && out.Length == |q|
    modifies out
    ensures AllBlocks(out[..], ModeBlocks(ops, Scalar, s, q, k, v, scale), s.dim)
  {
    AllRows(ops, Scalar, s, q, k, v, scale, out);
  }

  /** A serial nest in the arithmetic of `mode`, with one scratch buffer of any contents. */
  method AllRows<F>(ops: Ops<F>, mode: Mode, s: Shape, q: seq<F>, k: seq<F>, v: seq<F>, scale: F, out: array<F>)
    requires s.Valid() && s.Fits(q, k, v) && out.Length == |q|
    modifies out
    ensures AllBlocks(out[..], ModeBlocks(ops, mode, s, q, k, v, scale), s.dim)
  {
    var scores := new F[ScratchLen(s)](_ => ops.zero);
    forall r | 0 <= r < s.qRows ensures s.Count(r) <= scores.Length { ScratchFits(s, r); }
    AttendRows(ops, mode, s, q, k, v, 0, s.qRows, scale, scores, out, 0);
  }

  /** Rows per chunk for a pool of `threads`; zero threads count as one. */
  function RowsPerChunk(rows: nat, threads: nat): (n: nat)
    ensures 0 < n
  {
    var n := DivCeil(rows, if threads == 0 then 1 else threads);
    if n == 0 then 1 else n
  }

  lemma {:induction false} WroteKeeps<F>(a: seq<F>, b: seq<F>, want: seq<seq<F>>, dim: nat, lo: nat, hi: nat, t: nat)
    requires Wrote(a, b, want, dim, lo, hi) && t < |want| && (lo <= t < hi || BlockIs(a, t, dim, want[t]))
    ensures BlockIs(b, t, dim, want[t])
  {
    if t < lo {
      SlotBound(t, lo, dim);
      assert Block(b, t, dim) == Block(a, t, dim);
    } else if hi <= t {
      TimesMonotone(hi, t, dim);
      assert Block(b, t, dim) == Block(a, t, dim);
    }
  }

  /** Block t lies in a chunk that has run. */
  ghost predicate Ran(order: seq<nat>, n: nat, per: nat, row: nat)
    requires n <= |order| && 0 < per
  {
    Quot(row, per) in order[..n]
  }

  /** One task of the pool: chunk `c` of the output, `per` rows long except perhaps the last. */
  method RunChunk<F>(ops: Ops<F>, mode: Mode, s: Shape, q: seq<F>, k: seq<F>, v: seq<F>, scale: F, out: array<F>,
                     per: nat, c: nat)
    requires s.Valid() && s.Fits(q, k, v) && out.Length == |q| && 0 < s.qHeads && 0 < s.dim && 0 < per
    requires Times(c, Times(per, Times(s.qHeads, s.dim))) < out.Length
    modifies out
    ensures forall t :: 0 <= t < Times(s.qRows, s.qHeads) ==>
      (Quot(Quot(t, s.qHeads), per) == c
          || BlockIs(old(out[..]), t, s.dim, ModeAt(ops, mode, s, q, k, v, scale, t))) ==>
      BlockIs(out[..], t, s.dim, ModeAt(ops, mode, s, q, k, v, scale, t))
  {
    hide ModeAt, ModeBlocks, BlockIs, Wrote, Times, Quot, ScratchLen;
    var width := Times(s.qHeads, s.dim);
    var base := Times(c, Times(per, width));
    var chunkLen := if base + Times(per, width) <= out.Length then Times(per, width) else out.Length - base;
    ChunkRows(s, per, c, |q|);
    var iStart := Times(c, per);
    var iEnd := iStart + Quot(chunkLen, width);
    var scores := new F[ScratchLen(s)](_ => ops.zero);
    forall r | iStart <= r < iEnd ensures s.Count(r) <= scores.Length { ScratchFits(s, r); }
    AttendRows(ops, mode, s, q, k, v, iStart, iEnd, scale, scores, out, base);
    forall t | 0 <= t < Times(s.qRows, s.qHeads)
      && (Quot(Quot(t, s.qHeads), per) == c
          || BlockIs(old(out[..]), t, s.dim, ModeAt(ops, mode, s, q, k, v, scale, t)))
      ensures BlockIs(out[..], t, s.dim, ModeAt(ops, mode, s, q, k, v, scale, t))
    {
      if Quot(Quot(t, s.qHeads), per) == c { InChunk(s, per, c, t); }
      WroteKeeps(old(out[..]), out[..], ModeBlocks(ops, mode, s, q, k, v, scale), s.dim,
                 Times(iStart, s.qHeads), Times(iEnd, s.qHeads), t);
    }
  }

  function ChunkEnd(s: Shape, per: nat, c: nat): nat {
    if Times(c, per) + per <= s.qRows then Times(c, per) + per else s.qRows
  }

  /** `chunk_rows = out_chunk.len() / (heads * dim)` is the whole number of rows the chunk holds. */
  lemma {:induction false} ChunkRows(s: Shape, per: nat, c: nat, len: nat)
    requires 0 < per && 0 < s.qHeads && 0 < s.dim && len == Times(Times(s.qRows, s.qHeads), s.dim)
    requires Times(c, Times(per, Times(s.qHeads, s.dim))) < len
    ensures var width := Times(s.qHeads, s.dim);
            var base := Times(c, Times(per, width));
            var chunkLen := if base + Times(per, width) <= len then Times(per, width) else len - base;
            && 0 < width && base == Times(Times(c, per), width)
            && Times(c, per) + Quot(chunkLen, width) == ChunkEnd(s, per, c)
            && Times(c, per) <= ChunkEnd(s, per, c)
  {
    hide Times, Quot;
    var width := Times(s.qHeads, s.dim);
    var first := Times(c, per);
    TimesPositive(s.qHeads, s.dim);
    TimesAssoc(c, per, width);
    TimesAssoc(s.qRows, s.qHeads, s.dim);
    if s.qRows <= first { TimesMonotone(s.qRows, first, width); }
    TimesAdd(first, per, width);
    TimesAdd(first, s.qRows - first, width);
    QuotJoin(per, 0, width);
    QuotJoin(s.qRows - first, 0, width);
    if first + per <= s.qRows {
      TimesMonotone(first + per, s.qRows, width);
    } else {
      SlotBound(s.qRows - first, per, width);
    }
  }

  lemma {:induction false} InChunk(s: Shape, per: nat, c: nat, t: nat)
    requires 0 < per && t < Times(s.qRows, s.qHeads) && 0 < s.qHeads && Quot(Quot(t, s.qHeads), per) == c
    ensures Times(Times(c, per), s.qHeads) <= t < Times(ChunkEnd(s, per, c), s.qHeads)
  {
    QuotBound(t, s.qRows, s.qHeads);
    var row := Quot(t, s.qHeads);
    QuotRem(row, per);
    TimesMonotone(Times(c, per), row, s.qHeads);
    TimesMonotone(row + 1, ChunkEnd(s, per, c), s.qHeads);
  }

  /** The pool runs the chunks in any order, on any number of threads. */
  method Parallel<F>(ops: Ops<F>, mode: Mode, s: Shape, q: seq<F>, k: seq<F>, v: seq<F>, scale: F, out: array<F>,
                     threads: nat, order: seq<nat>)
    requires s.Valid() && s.Fits(q, k, v) && out.Length == |q| && 0 < s.qHeads && 0 < s.dim
    requires forall c :: c in order <==> Times(c, Times(RowsPerChunk(s.qRows, threads), Times(s.qHeads, s.dim))) < |q|
    modifies out
    ensures AllBlocks(out[..], ModeBlocks(ops, mode, s, q, k, v, scale), s.dim)
  {
    hide ModeAt;
    var per := RowsPerChunk(s.qRows, threads);
    for n := 0 to |order|
      invariant forall t :: 0 <= t < Times(s.qRows, s.qHeads) && Ran(order, n, per, Quot(t, s.qHeads)) ==>
        BlockIs(out[..], t, s.dim, ModeAt(ops, mode, s, q, k, v, scale, t))
    {
      RunChunk(ops, mode, s, q, k, v, scale, out, per, order[n]);
    }
    forall t | 0 <= t < Times(s.qRows, s.qHeads)
      ensures BlockIs(out[..], t, s.dim, ModeAt(ops, mode, s, q, k, v, scale, t))
    {
      ChunkExists(s, per, t);
      assert Quot(Quot(t, s.qHeads), per) in order;
      assert Ran(order, |order|, per, Quot(t, s.qHeads));
    }
  }

  lemma {:induction false} ChunkExists(s: Shape, per: nat, t: nat)
    requires 0 < per && 0 < s.qHeads && 0 < s.dim && t < Times(s.qRows, s.qHeads)
    ensures Times(Quot(Quot(t, s.qHeads), per), Times(per, Times(s.qHeads, s.dim))) < Times(Times(s.qRows, s.qHeads),
        s.dim)
  {
    QuotBound(t, s.qRows, s.qHeads);
    var row := Quot(t, s.qHeads);
    var c := Quot(row, per);
    var width := Times(s.qHeads, s.dim);
    QuotRem(row, per);
    TimesAssoc(c, per, width);
    TimesAssoc(s.qRows, s.qHeads, s.dim);
    SlotBound(0, s.qHeads, s.dim);
    TimesMonotone(Times(c, per), row, width);
    SlotBound(row, s.qRows, width);
  }

  // ---- one task a head ----

  /** Task t: head t % heads of row t / heads, with its own scratch. */
  method RunHead<F>(ops: Ops<F>, mode: Mode, s: Shape, q: seq<F>, k: seq<F>, v: seq<F>, scale: F, t: nat, out: array<F>)
    requires s.Valid() && s.Fits(q, k, v) && out.Length == |q| && t < Times(s.qRows, s.qHeads)
    modifies out
    ensures BlockIs(out[..], t, s.dim, ModeAt(ops, mode, s, q, k, v, scale, t))
    ensures SameOutside(out[..], old(out[..]), Times(t, s.dim), s.dim)
  {
    hide ModeAt, ModeBlocks, BlockIs, SameOutside, Times, Quot, Rem, ScratchLen;
    QuotBound(t, s.qRows, s.qHeads);
    var row, head := Quot(t, s.qHeads), Rem(t, s.qHeads);
    var scores := new F[ScratchLen(s)](_ => ops.zero);
    ScratchFits(s, row);
    TimesZero(Times(s.qHeads, s.dim));
    AttendOne(ops, mode, s, q, k, v, 0, row, head, scale, scores, out, 0);
  }

  /** `par_chunks_mut(head_dim)`: the tasks run in any order, on any number of threads. */
  method PooledHeads<F>(ops: Ops<F>, mode: Mode, s: Shape, q: seq<F>, k: seq<F>, v: seq<F>, scale: F, order: seq<nat>,
                        out: array<F>)
    requires s.Valid() && s.Fits(q, k, v) && out.Length == |q|
    requires forall t :: t in order <==> t < Times(s.qRows, s.qHeads)
    modifies out
    ensures AllBlocks(out[..], ModeBlocks(ops, mode, s, q, k, v, scale), s.dim)
  {
    hide ModeAt, BlockIs, SameOutside, Times;
    for n := 0 to |order|
      invariant forall t :: 0 <= t < Times(s.qRows, s.qHeads) && t in order[..n] ==>
        BlockIs(out[..], t, s.dim, ModeAt(ops, mode, s, q, k, v, scale, t))
    {
      assert order[n] in order;
      ghost var before := out[..];
      RunHead(ops, mode, s, q, k, v, scale, order[n], out);
      forall t | 0 <= t < Times(s.qRows, s.qHeads) && t in order[..n + 1]
        ensures BlockIs(out[..], t, s.dim, ModeAt(ops, mode, s, q, k, v, scale, t))
      {
        if t != order[n] { BlockKept(before, out[..], t, order[n], s.dim, ModeAt(ops, mode, s, q, k, v, scale, t)); }
      }
    }
    assert order[..|order|] == order;
  }
}
