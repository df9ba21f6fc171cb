/** expand_kv_heads on the device: one thread a destination cell, in any order. */
module ExpandKernel {
  import opened Index
  import opened Layout
  import opened AttentionShape
  import opened AttentionTheorems

  /** The cell of the source that destination cell `cell` copies. */
  function SourceOf(s: Shape, cell: nat): (at: nat)
    requires s.Valid() && cell < Times(Times(s.kvRows, s.qHeads), s.dim)
    ensures at < Times(Times(s.kvRows, s.kvHeads), s.dim)
  {
    QuotBound(cell, Times(s.kvRows, s.qHeads), s.dim);
    QuotBound(Quot(cell, s.dim), s.kvRows, s.qHeads);
    var outHead, token := Rem(Quot(cell, s.dim), s.qHeads), Quot(Quot(cell, s.dim), s.qHeads);
    KvHeadBound(s, outHead);
    SlotBound(token, s.kvRows, s.kvHeads);
    SlotBound(Times(token, s.kvHeads) + s.KvHead(outHead), Times(s.kvRows, s.kvHeads), s.dim);
    Times(Times(token, s.kvHeads) + s.KvHead(outHead), s.dim) + Rem(cell, s.dim)
  }

  /** One thread; a surplus thread of the rounded-up grid stops. */
  method ExpandCell<F>(s: Shape, src: seq<F>, cell: nat, dst: array<F>)
    requires s.Valid() && Tensor(src, s.kvRows, s.kvHeads, s.dim)
    requires dst.Length == Times(Times(s.kvRows, s.qHeads), s.dim)
    modifies dst
    ensures dst[..] == if cell < dst.Length then old(dst[..])[cell := src[SourceOf(s, cell)]] else old(dst[..])
  {
    if cell >= dst.Length { return; }
    QuotBound(cell, Times(s.kvRows, s.qHeads), s.dim);
    QuotBound(Quot(cell, s.dim), s.kvRows, s.qHeads);
    var d, rem := Rem(cell, s.dim), Quot(cell, s.dim);
    var outHead, token := Rem(rem, s.qHeads), Quot(rem, s.qHeads);
    var srcHead := s.KvHead(outHead);
    ghost var at := SourceOf(s, cell);
    dst[cell] := src[Times(Times(token, s.kvHeads) + srcHead, s.dim) + d];
  }

  /** Every cell's thread runs, in any order and any number of times, and the grid may be larger. */
  method LaunchExpand<F>(s: Shape, src: seq<F>, schedule: seq<nat>, dst: array<F>)
    requires s.Valid() && Tensor(src, s.kvRows, s.kvHeads, s.dim)
    requires dst.Length == Times(Times(s.kvRows, s.qHeads), s.dim)
    requires forall cell :: 0 <= cell < dst.Length ==> cell in schedule
    modifies dst
    ensures Expanded(s, src, dst[..])
    ensures forall n: nat :: Times(s.kvHeads, n) == s.qHeads ==> Grouped(s, src, dst[..], n)
  {
    hide SourceOf, Times, Expanded, Grouped;
    for n := 0 to |schedule|
      invariant forall cell :: 0 <= cell < dst.Length && cell in schedule[..n] ==> dst[cell] == src[SourceOf(s, cell)]
    {
      ExpandCell(s, src, schedule[n], dst);
    }
    assert schedule[..|schedule|] == schedule;
    CellsExpand(s, src, dst[..]);
    forall n: nat | Times(s.kvHeads, n) == s.qHeads ensures Grouped(s, src, dst[..], n) {
      ExpandedIsGrouped(s, src, dst[..], n);
    }
  }

  lemma {:induction false} CellsExpand<F>(s: Shape, src: seq<F>, dst: seq<F>)
    requires s.Valid() && Tensor(src, s.kvRows, s.kvHeads, s.dim) && |dst| == Times(Times(s.kvRows, s.qHeads), s.dim)
    requires forall cell :: 0 <= cell < |dst| ==> dst[cell] == src[SourceOf(s, cell)]
    ensures Expanded(s, src, dst)
  {
    hide SourceOf, Times, HeadRow;
    forall r, h | 0 <= r < s.kvRows && 0 <= h < s.qHeads ensures ExpandedAt(s, src, dst, r, h) {
      KvHeadBound(s, h);
      RowBaseIs(s.kvRows, s.qHeads, s.dim, h, r);
      RowBaseIs(s.kvRows, s.kvHeads, s.dim, s.KvHead(h), r);
      var big, small := HeadRow(dst, s.kvRows, s.qHeads, s.dim, h, r),
          HeadRow(src, s.kvRows, s.kvHeads, s.dim, s.KvHead(h), r);
      forall d | 0 <= d < s.dim ensures big[d] == small[d] {
        SourceJoin(s, r, h, d);
      }
    }
  }

  lemma {:induction false} SourceJoin(s: Shape, r: nat, h: nat, d: nat)
    requires s.Valid() && r < s.kvRows && h < s.qHeads && d < s.dim
    ensures RowBase(s.qHeads, s.dim, h, r) + d < Times(Times(s.kvRows, s.qHeads), s.dim)
    ensures SourceOf(s, RowBase(s.qHeads, s.dim, h, r) + d) == RowBase(s.kvHeads, s.dim, s.KvHead(h), r) + d
  {
    hide Times, Quot, Rem;
    KvHeadBound(s, h);
    RowBaseIs(s.kvRows, s.qHeads, s.dim, h, r);
    RowBaseIs(s.kvRows, s.kvHeads, s.dim, s.KvHead(h), r);
    QuotJoin(Times(r, s.qHeads) + h, d, s.dim);
    QuotJoin(r, h, s.qHeads);
  }
}
