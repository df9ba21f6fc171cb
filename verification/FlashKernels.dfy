/** The streaming GPU attention kernels, one thread per (row, head), launched in any order. */
module FlashKernels {
  import opened Index
  import opened Arithmetic
  import opened HeadAttention
  import opened FlashExact
  import opened Layout
  import opened AvxAttention
  import opened AttentionShape
  import opened AttentionForms
  import opened AttentionOracle

  const ENC_ATTN_WG: nat := 4

  /** Seeds the accumulator slice of this lane: `acc[d] = 1 * v[0][d]`. */
  method SeedLoop<F>(ops: Ops<F>, ghost m: F, v: seq<F>, vb: nat, dim: nat, acc: array<F>, ab: nat)
    requires vb + dim <= |v| && ab + dim <= acc.Length
    modifies acc
    ensures Run(m, ops.one, acc[ab..ab + dim]) == Seed(ops, m, v[vb..vb + dim])
    ensures SameOutside(acc[..], old(acc[..]), ab, dim)
  {
    for d := 0 to dim
      invariant forall i :: ab <= i < ab + d ==> acc[i] == ops.mul(ops.one, v[vb + (i - ab)])
      invariant forall i :: 0 <= i < acc.Length && !(ab <= i < ab + d) ==> acc[i] == old(acc[i])
    {
      acc[ab + d] := ops.mul(ops.one, v[vb + d]);
    }
  }

  lemma {:induction false} AbsorbIs<F>(ops: Ops<F>, r: Run<F>, s: F, v: seq<F>, r': Run<F>)
    requires |r.acc| == |v| == |r'.acc|
    requires r'.m == ops.max(r.m, s)
    requires r'.l == ops.add(ops.mul(r.l, ops.exp(ops.sub(r.m, r'.m))), ops.exp(ops.sub(s, r'.m)))
    requires forall i :: 0 <= i < |v| ==>
      r'.acc[i] == ops.add(ops.mul(r.acc[i], ops.exp(ops.sub(r.m, r'.m))), ops.mul(ops.exp(ops.sub(s, r'.m)), v[i]))
    ensures r' == Absorb(ops, r, s, v)
  {
    assert r'.acc == Absorb(ops, r, s, v).acc;
  }

  /** One streamed key: new maximum, rescaled normaliser and accumulator slice. */
  method AbsorbKey<F>(ops: Ops<F>, m: F, l: F, s: F, v: seq<F>, vb: nat, dim: nat, acc: array<F>, ab: nat)
    returns (mNew: F, lNew: F)
    requires vb + dim <= |v| && ab + dim <= acc.Length
    modifies acc
    ensures Run(mNew, lNew, acc[ab..ab + dim]) == Absorb(ops, Run(m, l, old(acc[ab..ab + dim])), s, v[vb..vb + dim])
    ensures SameOutside(acc[..], old(acc[..]), ab, dim)
  {
    ghost var was := acc[ab..ab + dim];
    mNew := ops.max(m, s);
    var alpha := ops.exp(ops.sub(m, mNew));
    var p := ops.exp(ops.sub(s, mNew));
    lNew := ops.add(ops.mul(l, alpha), p);
    for d := 0 to dim
      invariant forall i :: ab <= i < ab + d ==>
        acc[i] == ops.add(ops.mul(was[i - ab], alpha), ops.mul(p, v[vb + (i - ab)]))
      invariant forall i :: ab + d <= i < ab + dim ==> acc[i] == was[i - ab]
      invariant SameOutside(acc[..], old(acc[..]), ab, dim)
    {
      acc[ab + d] := ops.add(ops.mul(acc[ab + d], alpha), ops.mul(p, v[vb + d]));
    }
    AbsorbIs(ops, Run(m, l, was), s, v[vb..vb + dim], Run(mNew, lNew, acc[ab..ab + dim]));
  }

  /** `output[d] = acc[d] / l` */
  method NormaliseLoop<F>(ops: Ops<F>, ghost m: F, l: F, acc: array<F>, ab: nat, dim: nat, out: array<F>, ob: nat)
    requires ob + dim <= out.Length && ab + dim <= acc.Length && acc != out
    modifies out
    ensures out[ob..ob + dim] == Normalise(ops, Run(m, l, acc[ab..ab + dim]))
    ensures SameOutside(out[..], old(out[..]), ob, dim)
  {
    for d := 0 to dim
      invariant forall i :: ob <= i < ob + d ==> out[i] == ops.div(acc[ab + (i - ob)], l)
      invariant forall i :: 0 <= i < out.Length && !(ob <= i < ob + d) ==> out[i] == old(out[i])
    {
      out[ob + d] := ops.div(acc[ab + d], l);
    }
  }

  /** Streams key j: score, then absorb. */
  method StreamKey<F>(ops: Ops<F>, q: seq<F>, qb: nat, k: seq<F>, v: seq<F>, base: nat, dim: nat, scale: F,
                      acc: array<F>, ab: nat, m: F, l: F, ghost g: Head<F>, ghost j: nat)
    returns (mNew: F, lNew: F)
    requires g.Valid() && g.dim == dim && 0 < j < g.n
    requires qb + dim <= |q| && base + dim <= |k| && base + dim <= |v| && ab + dim <= acc.Length
    requires g.k[j] == k[base..base + dim] && g.v[j] == v[base..base + dim]
    requires Run(m, l, acc[ab..ab + dim]) == Online(ops, q[qb..qb + dim], g, scale, j)
    modifies acc
    ensures Run(mNew, lNew, acc[ab..ab + dim]) == Online(ops, q[qb..qb + dim], g, scale, j + 1)
    ensures SameOutside(acc[..], old(acc[..]), ab, dim)
  {
    hide Absorb, Online, Dot, SameOutside;
    OnlineNext(ops, q[qb..qb + dim], g, scale, j + 1);
    var s := DotLoop(ops, q, qb, k, base, dim);
    s := ops.mul(s, scale);
    mNew, lNew := AbsorbKey(ops, m, l, s, v, base, dim, acc, ab);
  }

  /** One thread's pass over its visible rows. The causal kernel runs its loop to `seq` and skips
      the rows behind the mask; the others stop at the last visible row. */
  method Stream<F>(ops: Ops<F>, q: seq<F>, qb: nat, k: seq<F>, v: seq<F>, rows: nat, heads: nat, dim: nat,
                   h: nat, first: nat, visible: nat, limit: nat, scale: F, acc: array<F>, ab: nat)
    returns (m: F, l: F)
    requires Tensor(k, rows, heads, dim) && Tensor(v, rows, heads, dim) && h < heads && first + visible <= rows
    requires 0 < visible <= limit && qb + dim <= |q| && ab + dim <= acc.Length
    modifies acc
    ensures Run(m, l, acc[ab..ab + dim])
      == Online(ops, q[qb..qb + dim], HeadOf(k, v, rows, heads, dim, h, first, visible), scale, visible)
    ensures SameOutside(acc[..], old(acc[..]), ab, dim)
  {
    hide Seed, Dot, HeadOf, HeadRow, Online, RowBase, SameOutside;
    ghost var was := acc[..];
    ghost var g := HeadOf(k, v, rows, heads, dim, h, first, visible);
    HeadOfRow(k, v, rows, heads, dim, h, first, visible, 0);
    OnlineNext(ops, q[qb..qb + dim], g, scale, 1);
    m := DotLoop(ops, q, qb, k, RowBase(heads, dim, h, first), dim);
    m := ops.mul(m, scale);
    l := ops.one;
    SeedLoop(ops, m, v, RowBase(heads, dim, h, first), dim, acc, ab);
    ghost var seen := 1;
    for j := 1 to limit
      invariant seen == if j <= visible then j else visible
      invariant Run(m, l, acc[ab..ab + dim]) == Online(ops, q[qb..qb + dim], g, scale, seen)
      invariant SameOutside(acc[..], was, ab, dim)
    {
      if j < visible {
        ghost var before := acc[..];
        HeadOfRow(k, v, rows, heads, dim, h, first, visible, j);
        m, l := StreamKey(ops, q, qb, k, v, RowBase(heads, dim, h, first + j), dim, scale, acc, ab, m, l, g, j);
        SameOutsideWithin(was, before, acc[..], ab, dim, 0, dim);
        seen := j + 1;
      }
    }
  }

  /** The body all the streaming kernels share, for the thread of one (row, head). `acc` is the shared
      memory of the launch, of any contents, and the thread's lane of it starts at `ab`. */
  method FlashBody<F>(ops: Ops<F>, s: Shape, q: seq<F>, k: seq<F>, v: seq<F>, row: nat, head: nat, scale: F,
                      acc: array<F>, ab: nat, out: array<F>)
    requires s.Valid() && s.Fits(q, k, v) && SeesSome(s) && row < s.qRows && head < s.qHeads
    requires out.Length == |q| && ab + s.dim <= acc.Length && acc != out
    modifies acc, out
    ensures SameOutside(acc[..], old(acc[..]), ab, s.dim)
    ensures RowBase(s.qHeads, s.dim, head, row) + s.dim <= out.Length
    ensures out[RowBase(s.qHeads, s.dim, head, row)..RowBase(s.qHeads, s.dim, head, row) + s.dim]
         == FlashRow(ops, s, q, k, v, scale, row, head)
    ensures SameOutside(out[..], old(out[..]), RowBase(s.qHeads, s.dim, head, row), s.dim)
  {
    hide Normalise, Online, HeadOf, FlashRow, RowBase, SameOutside;
    FlashRowOffsets(ops, s, q, k, v, scale, row, head);
    var qb := RowBase(s.qHeads, s.dim, head, row);
    var limit := if s.mask.Causal? then s.kvRows else s.Count(row);
    var m, l := Stream(ops, q, qb, k, v, s.kvRows, s.kvHeads, s.dim, s.KvHead(head), s.First(row), s.Count(row), limit,
                       scale, acc, ab);
    NormaliseLoop(ops, m, l, acc, ab, s.dim, out, qb);
  }

  /** Lanes of all workgroups: the grid is rounded up to whole ones. */
  function Lanes(s: Shape): nat { Times(DivCeil(Times(s.qRows, s.qHeads), ENC_ATTN_WG), ENC_ATTN_WG) }

  /** Workgroup `pos / 4` has its own slab, in which the thread has lane `pos % 4`; slab after slab, that
      is the pos-th slice of the launch's shared memory. */
  lemma {:induction false} LaneOf(s: Shape, pos: nat)
    requires pos < Times(s.qRows, s.qHeads)
    ensures Times(Quot(pos, ENC_ATTN_WG), Times(ENC_ATTN_WG, s.dim)) + Times(Rem(pos, ENC_ATTN_WG), s.dim)
        == Times(pos, s.dim)
    ensures Times(pos, s.dim) + s.dim <= Times(Lanes(s), s.dim)
  {
    hide Times, Quot, Rem;
    var total := Times(s.qRows, s.qHeads);
    QuotRem(pos, ENC_ATTN_WG);
    TimesAssoc(Quot(pos, ENC_ATTN_WG), ENC_ATTN_WG, s.dim);
    TimesAdd(Times(Quot(pos, ENC_ATTN_WG), ENC_ATTN_WG), Rem(pos, ENC_ATTN_WG), s.dim);
    QuotRem(total + ENC_ATTN_WG - 1, ENC_ATTN_WG);
    SlotBound(pos, Lanes(s), s.dim);
  }

  /** From `a` to `b`, block `pos` was written with its value and nothing else changed; a surplus
      thread of a grid rounded up to whole workgroups changes nothing. */
  ghost predicate ThreadWrote<F>(ops: Ops<F>, s: Shape, q: seq<F>, k: seq<F>, v: seq<F>, scale: F, pos: nat,
                                 a: seq<F>, b: seq<F>)
    requires s.Valid() && s.Fits(q, k, v) && SeesSome(s)
  {
    if pos < Times(s.qRows, s.qHeads)
    then BlockIs(b, pos, s.dim, FlashAt(ops, s, q, k, v, scale, pos)) && SameOutside(b, a, Times(pos, s.dim), s.dim)
    else b == a
  }

  /** The thread at `pos` writes its own output block and its own lane of its workgroup's slab, and what
      it leaves in the output does not depend on what either held before. */
  method KernelThread<F>(ops: Ops<F>, s: Shape, q: seq<F>, k: seq<F>, v: seq<F>, scale: F, pos: nat, acc: array<F>,
                         out: array<F>)
    requires s.Valid() && s.Fits(q, k, v) && SeesSome(s) && out.Length == |q|
    requires acc.Length == Times(Lanes(s), s.dim) && acc != out
    modifies acc, out
    ensures ThreadWrote(ops, s, q, k, v, scale, pos, old(out[..]), out[..])
    ensures SameOutside(acc[..], old(acc[..]), Times(pos, s.dim), s.dim)
    ensures pos >= Times(s.qRows, s.qHeads) ==> acc[..] == old(acc[..])
  {
    hide FlashAt, FlashRow, Quot, Rem, RowBase, Times, Lanes, BlockIs;
    if pos >= Times(s.qRows, s.qHeads) { return; }
    FlashAtSplit(ops, s, q, k, v, scale, pos);
    LaneOf(s, pos);
    var lane := Rem(pos, ENC_ATTN_WG);
    var slab := Times(Quot(pos, ENC_ATTN_WG), Times(ENC_ATTN_WG, s.dim));
    var row := Quot(pos, s.qHeads);
    var head := pos - Times(row, s.qHeads);
    FlashBody(ops, s, q, k, v, row, head, scale, acc, slab + Times(lane, s.dim), out);
    BlockOf(out[..], pos, s.dim, FlashAt(ops, s, q, k, v, scale, pos));
  }

  lemma {:induction false} BlockOf<F>(out: seq<F>, t: nat, dim: nat, want: seq<F>)
    requires Times(t, dim) + dim <= |out| && out[Times(t, dim)..Times(t, dim) + dim] == want
    ensures BlockIs(out, t, dim, want)
  {}

  /** The launch: every position's thread runs, in any order; surplus threads do nothing. */
  method Launch<F>(ops: Ops<F>, s: Shape, q: seq<F>, k: seq<F>, v: seq<F>, scale: F, schedule: seq<nat>, acc: array<F>,
                   out: array<F>)
    requires s.Valid() && s.Fits(q, k, v) && SeesSome(s) && out.Length == |q|
    requires acc.Length == Times(Lanes(s), s.dim) && acc != out
    requires forall p :: 0 <= p < Times(s.qRows, s.qHeads) ==> p in schedule
    modifies acc, out
    ensures AllBlocks(out[..], FlashBlocks(ops, s, q, k, v, scale), s.dim)
  {
    hide FlashAt, Lanes;
    for n := 0 to |schedule|
      invariant forall p :: 0 <= p < Times(s.qRows, s.qHeads) && p in schedule[..n] ==>
        BlockIs(out[..], p, s.dim, FlashAt(ops, s, q, k, v, scale, p))
    {
      ghost var before := out[..];
      KernelThread(ops, s, q, k, v, scale, schedule[n], acc, out);
      forall p | 0 <= p < Times(s.qRows, s.qHeads) && p in schedule[..n + 1]
        ensures BlockIs(out[..], p, s.dim, FlashAt(ops, s, q, k, v, scale, p))
      {
        if p != schedule[n] && schedule[n] < Times(s.qRows, s.qHeads) {
          BlockKept(before, out[..], p, schedule[n], s.dim, FlashAt(ops, s, q, k, v, scale, p));
        }
      }
    }
    assert schedule[..|schedule|] == schedule;
  }

  /** Over the reals, whatever the launch order, the streaming kernels write what the serial oracle writes. */
  lemma {:induction false} LaunchIsOracle(exp: real -> real, mode: Mode, s: Shape, q: seq<real>, k: seq<real>,
                                          v: seq<real>, scale: real, launched: seq<real>, oracle: seq<real>)
    requires ExpLaws(exp) && s.Valid() && s.Fits(q, k, v) && SeesSome(s)
    requires AllBlocks(launched, FlashBlocks(RealOps(exp), s, q, k, v, scale), s.dim)
    requires AllBlocks(oracle, ModeBlocks(RealOps(exp), mode, s, q, k, v, scale), s.dim)
    ensures launched == oracle
  {
    hide Flash, TwoPass, HeadValue, RealOps;
    var ops := RealOps(exp);
    forall p | 0 <= p < Times(s.qRows, s.qHeads)
      ensures FlashAt(ops, s, q, k, v, scale, p) == ModeAt(ops, mode, s, q, k, v, scale, p)
    {
      QuotBound(p, s.qRows, s.qHeads);
      var r, h := Quot(p, s.qHeads), Rem(p, s.qHeads);
      FlashIsTwoPass(exp, HeadRow(q, s.qRows, s.qHeads, s.dim, h, r), Seen(s, k, v, r, h), scale);
      RealHeadValue(exp, mode, HeadRow(q, s.qRows, s.qHeads, s.dim, h, r), Seen(s, k, v, r, h), scale);
    }
    assert FlashBlocks(ops, s, q, k, v, scale) == ModeBlocks(ops, mode, s, q, k, v, scale);
    SameOutput(launched, oracle, ModeBlocks(ops, mode, s, q, k, v, scale), s.dim);
  }
}
