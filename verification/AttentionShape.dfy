/** Which rows a query row sees, and what each attention form must write for it. */
module AttentionShape {
  import opened Index
  import opened Arithmetic
  import opened HeadAttention
  import opened Layout
  import opened AvxAttention

  datatype Mask =
    | Prefix(len: nat)      // encoder, cross and cache attention: rows 0 .. len
    | Causal                // rows 0 ..= i
    | Blocks(len: nat)      // block-diagonal batch of equal-length sequences
    | Window(len: nat)      // the last len rows up to i

  /** Query heads share key/value heads in groups; qHeads == kvHeads is plain multi-head attention. */
  datatype Shape = Shape(qRows: nat, kvRows: nat, qHeads: nat, kvHeads: nat, dim: nat, mask: Mask) {
    function First(r: nat): nat {
      match mask
      case Prefix(_) => 0
      case Causal => 0
      case Blocks(len) => if len == 0 then 0 else Times(Quot(r, len), len)
      case Window(len) => if len < r + 1 then r + 1 - len else 0
    }

    function Count(r: nat): nat {
      match mask
      case Prefix(len) => len
      case Causal => r + 1
      case Blocks(len) => len
      case Window(len) => if len < r + 1 then len else r + 1
    }

    function KvHead(h: nat): nat {
      if qHeads == kvHeads || kvHeads == 0 || qHeads < kvHeads then h else GroupOf(h)
    }

    /** `h / (qHeads / kvHeads)` */
    function GroupOf(h: nat): nat
      requires 0 < kvHeads <= qHeads
    {
      Quot(h, Quot(qHeads, kvHeads))
    }

    ghost predicate Valid() {
      && (qHeads == kvHeads || (0 < kvHeads <= qHeads && Rem(qHeads, kvHeads) == 0))
      && forall r :: 0 <= r < qRows ==> InRange(r)
    }

    ghost predicate InRange(r: nat) {
      First(r) + Count(r) <= kvRows
    }

    ghost predicate Fits<F>(q: seq<F>, k: seq<F>, v: seq<F>) {
      Tensor(q, qRows, qHeads, dim) && Tensor(k, kvRows, kvHeads, dim) && Tensor(v, kvRows, kvHeads, dim)
    }
  }

  lemma {:induction false} KvHeadBound(s: Shape, h: nat)
    requires s.Valid() && h < s.qHeads
    ensures s.KvHead(h) < s.kvHeads
    ensures s.qHeads != s.kvHeads ==> s.KvHead(h) == s.GroupOf(h)
  {
    if s.qHeads != s.kvHeads {
      QuotRem(s.qHeads, s.kvHeads);
      TimesComm(Quot(s.qHeads, s.kvHeads), s.kvHeads);
      QuotBound(h, s.kvHeads, Quot(s.qHeads, s.kvHeads));
    }
  }

  /** With n query heads to a key/value head, heads g * n .. g * n + n - 1 read head g. */
  lemma {:induction false} GroupReads(s: Shape, n: nat, g: nat, i: nat)
    requires s.Valid() && Times(s.kvHeads, n) == s.qHeads && g < s.kvHeads && i < n
    ensures Times(g, n) + i < s.qHeads && s.KvHead(Times(g, n) + i) == g
  {
    hide Times, Quot, Rem;
    SlotBound(g, s.kvHeads, n);
    TimesComm(s.kvHeads, n);
    QuotJoin(n, 0, s.kvHeads);
    QuotJoin(g, i, n);
    if s.qHeads == s.kvHeads {
      QuotJoin(1, 0, s.kvHeads);
      TimesOne(s.kvHeads);
      TimesComm(g, 1);
      TimesOne(g);
    }
  }

  /** What the masks mean, row by row. */
  predicate Visible(mask: Mask, r: nat, j: nat) {
    match mask
    case Prefix(len) => j < len
    case Causal => j <= r
    case Blocks(len) => len > 0 && j / len == r / len
    case Window(len) => j <= r < j + len
  }

  /** The rows from First(r) on, Count(r) of them, are the visible ones. */
  lemma {:induction false} SeesVisible(s: Shape, r: nat, j: nat)
    ensures s.First(r) <= j < s.First(r) + s.Count(r) <==> Visible(s.mask, r, j)
  {
    match s.mask
    case Blocks(len) =>
      if len > 0 { SameBlock(r, j, len); }
    case _ =>
  }

  lemma {:induction false} SameBlock(r: nat, j: nat, len: nat)
    requires 0 < len
    ensures Times(Quot(r, len), len) <= j < Times(Quot(r, len), len) + len <==> j / len == r / len
  {
    hide Times, Quot, Rem;
    QuotIsDivision(r, len);
    QuotIsDivision(j, len);
    QuotRem(j, len);
    if Quot(j, len) != Quot(r, len) { SlotsApart(Quot(j, len), Quot(r, len), len); }
  }

  /** The keys and values that head `h` of query row `r` sees. */
  function Seen<F>(s: Shape, k: seq<F>, v: seq<F>, r: nat, h: nat): (g: Head<F>)
    requires s.Valid() && r < s.qRows && h < s.qHeads
    requires Tensor(k, s.kvRows, s.kvHeads, s.dim) && Tensor(v, s.kvRows, s.kvHeads, s.dim)
    ensures g.Valid() && g.dim == s.dim && g.n == s.Count(r)
  {
    KvHeadBound(s, h);
    assert s.InRange(r);
    HeadOf(k, v, s.kvRows, s.kvHeads, s.dim, s.KvHead(h), s.First(r), s.Count(r))
  }

  /** What a body in the arithmetic of `mode` writes for head `h` of row `r`. Scalar and Optimized name the
      same arithmetic, the oracle's; which bodies follow the backend's mode is for the bodies to say. */
  function ModeRow<F>(ops: Ops<F>, mode: Mode, s: Shape, q: seq<F>, k: seq<F>, v: seq<F>, scale: F, r: nat,
                        h: nat): (o: seq<F>)
    requires s.Valid() && s.Fits(q, k, v) && r < s.qRows && h < s.qHeads
    ensures |o| == s.dim
  {
    HeadValue(ops, mode, HeadRow(q, s.qRows, s.qHeads, s.dim, h, r), Seen(s, k, v, r, h), scale)
  }

  /** What the streaming kernel writes for head `h` of row `r`. */
  function FlashRow<F>(ops: Ops<F>, s: Shape, q: seq<F>, k: seq<F>, v: seq<F>, scale: F, r: nat, h: nat): (o: seq<F>)
    requires s.Valid() && s.Fits(q, k, v) && r < s.qRows && h < s.qHeads && 0 < s.Count(r)
    ensures |o| == s.dim
  {
    Flash(ops, HeadRow(q, s.qRows, s.qHeads, s.dim, h, r), Seen(s, k, v, r, h), scale)
  }

  /** Output block `p = row * heads + head`. */
  function ModeAt<F>(ops: Ops<F>, mode: Mode, s: Shape, q: seq<F>, k: seq<F>, v: seq<F>, scale: F,
                       p: nat): (o: seq<F>)
    requires s.Valid() && s.Fits(q, k, v) && p < Times(s.qRows, s.qHeads)
    ensures |o| == s.dim
  {
    QuotBound(p, s.qRows, s.qHeads);
    ModeRow(ops, mode, s, q, k, v, scale, Quot(p, s.qHeads), Rem(p, s.qHeads))
  }

  lemma {:induction false} ModeAtJoin<F>(ops: Ops<F>, mode: Mode, s: Shape, q: seq<F>, k: seq<F>, v: seq<F>, scale: F,
                                           r: nat, h: nat)
    requires s.Valid() && s.Fits(q, k, v) && r < s.qRows && h < s.qHeads
    ensures Times(r, s.qHeads) + h < Times(s.qRows, s.qHeads)
    ensures ModeAt(ops, mode, s, q, k, v, scale, Times(r, s.qHeads) + h)
        == ModeRow(ops, mode, s, q, k, v, scale, r, h)
  {
    hide ModeRow;
    SlotBound(r, s.qRows, s.qHeads);
    QuotJoin(r, h, s.qHeads);
  }

  /** The row, in the offsets the kernels use. */
  lemma {:induction false} ModeRowOffsets<F>(ops: Ops<F>, mode: Mode, s: Shape, q: seq<F>, k: seq<F>, v: seq<F>,
                                             scale: F, r: nat, h: nat)
    requires s.Valid() && s.Fits(q, k, v) && r < s.qRows && h < s.qHeads
    ensures RowBase(s.qHeads, s.dim, h, r) + s.dim <= |q|
    ensures s.KvHead(h) < s.kvHeads && s.First(r) + s.Count(r) <= s.kvRows
    ensures ModeRow(ops, mode, s, q, k, v, scale, r, h) ==
            HeadValue(ops, mode, q[RowBase(s.qHeads, s.dim, h, r)..RowBase(s.qHeads, s.dim, h, r) + s.dim],
                    HeadOf(k, v, s.kvRows, s.kvHeads, s.dim, s.KvHead(h), s.First(r), s.Count(r)), scale)
  {
    hide HeadValue, HeadOf, RowBase, Times;
    var a := HeadRow(q, s.qRows, s.qHeads, s.dim, h, r);
    KvHeadBound(s, h);
    assert s.InRange(r);
  }

  ghost predicate SeesSome(s: Shape) {
    forall r :: 0 <= r < s.qRows ==> 0 < s.Count(r)
  }

  function FlashAt<F>(ops: Ops<F>, s: Shape, q: seq<F>, k: seq<F>, v: seq<F>, scale: F, p: nat): (o: seq<F>)
    requires s.Valid() && s.Fits(q, k, v) && SeesSome(s) && p < Times(s.qRows, s.qHeads)
    ensures |o| == s.dim
  {
    QuotBound(p, s.qRows, s.qHeads);
    FlashRow(ops, s, q, k, v, scale, Quot(p, s.qHeads), Rem(p, s.qHeads))
  }

  lemma {:induction false} FlashAtSplit<F>(ops: Ops<F>, s: Shape, q: seq<F>, k: seq<F>, v: seq<F>, scale: F, p: nat)
    requires s.Valid() && s.Fits(q, k, v) && SeesSome(s) && p < Times(s.qRows, s.qHeads)
    ensures 0 < s.qHeads && Quot(p, s.qHeads) < s.qRows && Rem(p, s.qHeads) < s.qHeads
    ensures Times(Quot(p, s.qHeads), s.qHeads) + Rem(p, s.qHeads) == p
    ensures RowBase(s.qHeads, s.dim, Rem(p, s.qHeads), Quot(p, s.qHeads)) == Times(p, s.dim)
    ensures FlashAt(ops, s, q, k, v, scale, p) ==
            FlashRow(ops, s, q, k, v, scale, Quot(p, s.qHeads), Rem(p, s.qHeads))
  {
    hide FlashRow;
    QuotBound(p, s.qRows, s.qHeads);
    RowBaseIs(s.qRows, s.qHeads, s.dim, Rem(p, s.qHeads), Quot(p, s.qHeads));
  }

  lemma {:induction false} FlashRowOffsets<F>(ops: Ops<F>, s: Shape, q: seq<F>, k: seq<F>, v: seq<F>, scale: F, r: nat,
                                              h: nat)
    requires s.Valid() && s.Fits(q, k, v) && SeesSome(s) && r < s.qRows && h < s.qHeads
    ensures RowBase(s.qHeads, s.dim, h, r) + s.dim <= |q|
    ensures s.KvHead(h) < s.kvHeads && s.First(r) + s.Count(r) <= s.kvRows
    ensures FlashRow(ops, s, q, k, v, scale, r, h) ==
            Flash(ops, q[RowBase(s.qHeads, s.dim, h, r)..RowBase(s.qHeads, s.dim, h, r) + s.dim],
                  HeadOf(k, v, s.kvRows, s.kvHeads, s.dim, s.KvHead(h), s.First(r), s.Count(r)), scale)
  {
    hide Flash;
    var a := HeadRow(q, s.qRows, s.qHeads, s.dim, h, r);
    KvHeadBound(s, h);
    assert s.InRange(r);
  }

  function ModeBlocks<F>(ops: Ops<F>, mode: Mode, s: Shape, q: seq<F>, k: seq<F>, v: seq<F>,
                           scale: F): (b: seq<seq<F>>)
    requires s.Valid() && s.Fits(q, k, v)
    ensures |b| == Times(s.qRows, s.qHeads)
    ensures forall p :: 0 <= p < |b| ==> b[p] == ModeAt(ops, mode, s, q, k, v, scale, p)
  {
    seq(Times(s.qRows, s.qHeads),
        p requires 0 <= p < Times(s.qRows, s.qHeads) => ModeAt(ops, mode, s, q, k, v, scale, p))
  }

  function FlashBlocks<F>(ops: Ops<F>, s: Shape, q: seq<F>, k: seq<F>, v: seq<F>, scale: F): (b: seq<seq<F>>)
    requires s.Valid() && s.Fits(q, k, v) && SeesSome(s)
    ensures |b| == Times(s.qRows, s.qHeads)
    ensures forall p :: 0 <= p < |b| ==> b[p] == FlashAt(ops, s, q, k, v, scale, p)
  {
    seq(Times(s.qRows, s.qHeads), p requires 0 <= p < Times(s.qRows, s.qHeads) => FlashAt(ops, s, q, k, v, scale, p))
  }
}
