/** Relations between whole attention forms, for any float semantics. */
module AttentionTheorems {
  import opened Index
  import opened Arithmetic
  import opened Layout
  import opened AvxAttention
  import opened AttentionShape

  /** The visible window of (r, h) in one problem holds the same rows as that of (r', h') in another. */
  ghost predicate SameWindow<F>(s: Shape, k: seq<F>, r: nat, h: nat, s': Shape, k': seq<F>, r': nat, h': nat)
    requires s.Valid() && r < s.qRows && h < s.qHeads && Tensor(k, s.kvRows, s.kvHeads, s.dim)
    requires s'.Valid() && r' < s'.qRows && h' < s'.qHeads && Tensor(k', s'.kvRows, s'.kvHeads, s'.dim)
  {
    && s.Count(r) == s'.Count(r') && s.dim == s'.dim
    && (forall j :: 0 <= j < s.Count(r) ==> VisibleRow(s, k, r, h, j) == VisibleRow(s', k', r', h', j))
  }

  /** The j-th row that head `h` of query row `r` sees. */
  function VisibleRow<F>(s: Shape, k: seq<F>, r: nat, h: nat, j: nat): (b: seq<F>)
    requires s.Valid() && r < s.qRows && h < s.qHeads && Tensor(k, s.kvRows, s.kvHeads, s.dim) && j < s.Count(r)
    ensures |b| == s.dim
  {
    KvHeadBound(s, h);
    assert s.InRange(r);
    HeadRow(k, s.kvRows, s.kvHeads, s.dim, s.KvHead(h), s.First(r) + j)
  }

  lemma {:induction false} SeenRows<F>(s: Shape, k: seq<F>, v: seq<F>, r: nat, h: nat, j: nat)
    requires s.Valid() && r < s.qRows && h < s.qHeads && j < s.Count(r)
    requires Tensor(k, s.kvRows, s.kvHeads, s.dim) && Tensor(v, s.kvRows, s.kvHeads, s.dim)
    ensures Seen(s, k, v, r, h).k[j] == VisibleRow(s, k, r, h, j)
        && Seen(s, k, v, r, h).v[j] == VisibleRow(s, v, r, h, j)
  {
    hide HeadRow;
    KvHeadBound(s, h);
    assert s.InRange(r);
  }

  lemma {:induction false} SeenIsLocal<F>(s: Shape, k: seq<F>, v: seq<F>, r: nat, h: nat,
                                          s': Shape, k': seq<F>, v': seq<F>, r': nat, h': nat)
    requires s.Valid() && r < s.qRows && h < s.qHeads
    requires s'.Valid() && r' < s'.qRows && h' < s'.qHeads
    requires Tensor(k, s.kvRows, s.kvHeads, s.dim) && Tensor(v, s.kvRows, s.kvHeads, s.dim)
    requires Tensor(k', s'.kvRows, s'.kvHeads, s'.dim) && Tensor(v', s'.kvRows, s'.kvHeads, s'.dim)
    requires SameWindow(s, k, r, h, s', k', r', h') && SameWindow(s, v, r, h, s', v', r', h')
    ensures Seen(s, k, v, r, h) == Seen(s', k', v', r', h')
  {
    hide HeadRow, VisibleRow, HeadOf;
    var a, b := Seen(s, k, v, r, h), Seen(s', k', v', r', h');
    forall j | 0 <= j < s.Count(r) ensures a.k[j] == b.k[j] && a.v[j] == b.v[j] {
      SeenRows(s, k, v, r, h, j);
      SeenRows(s', k', v', r', h', j);
    }
    assert a.k == b.k && a.v == b.v;
    assert a == b;
  }

  /** Locality. An output row depends on its query row and its visible key and value rows and on
      nothing else: not on rows behind the mask, not on the cache tail, not on the layout. */
  lemma {:induction false} OutputIsLocal<F>(ops: Ops<F>, scale: F,
                         s: Shape, q: seq<F>, k: seq<F>, v: seq<F>, r: nat, h: nat,
                         s': Shape, q': seq<F>, k': seq<F>, v': seq<F>, r': nat, h': nat)
    requires s.Valid() && s.Fits(q, k, v) && r < s.qRows && h < s.qHeads
    requires s'.Valid() && s'.Fits(q', k', v') && r' < s'.qRows && h' < s'.qHeads
    requires SameWindow(s, k, r, h, s', k', r', h') && SameWindow(s, v, r, h, s', v', r', h')
    requires HeadRow(q, s.qRows, s.qHeads, s.dim, h, r) == HeadRow(q', s'.qRows, s'.qHeads, s'.dim, h', r')
    ensures ModeRow(ops, Scalar, s, q, k, v, scale, r, h) == ModeRow(ops, Scalar, s', q', k', v', scale, r', h')
  {
    hide HeadValue, HeadRow, Seen, SameWindow;
    SeenIsLocal(s, k, v, r, h, s', k', v', r', h');
  }

  /** A sliding window at least as long as the sequence is full causal attention. */
  lemma {:induction false} WideWindowIsCausal<F>(ops: Ops<F>, scale: F, s: Shape, w: nat, q: seq<F>,
                                                 k: seq<F>, v: seq<F>, r: nat, h: nat)
    requires s.mask == Causal && s.Valid() && s.Fits(q, k, v) && r < s.qRows && h < s.qHeads && s.qRows <= w
    ensures s.(mask := Window(w)).Valid() && s.(mask := Window(w)).Fits(q, k, v)
    ensures ModeRow(ops, Scalar, s.(mask := Window(w)), q, k, v, scale, r, h)
        == ModeRow(ops, Scalar, s, q, k, v, scale, r, h)
  {
    var s' := s.(mask := Window(w));
    forall x | 0 <= x < s'.qRows ensures s'.InRange(x) { assert s.InRange(x); }
    hide VisibleRow;
    assert forall j :: 0 <= j < s.Count(r) ==> VisibleRow(s, k, r, h, j) == VisibleRow(s', k, r, h, j);
    OutputIsLocal(ops, scale, s', q, k, v, r, h, s, q, k, v, r, h);
  }

  /** Row `r` of a `[rows, heads, dim]` tensor: all its heads. */
  function RowOf<F>(s: seq<F>, rows: nat, heads: nat, dim: nat, r: nat): (b: seq<F>)
    requires Tensor(s, rows, heads, dim) && r < rows
    ensures |b| == Times(heads, dim)
  {
    RowFits(rows, heads, dim, r);
    s[Times(r, Times(heads, dim))..Times(r, Times(heads, dim)) + Times(heads, dim)]
  }

  lemma {:induction false} RowFits(rows: nat, heads: nat, dim: nat, r: nat)
    requires r < rows
    ensures Times(r, Times(heads, dim)) + Times(heads, dim) <= Times(Times(rows, heads), dim)
  {
    TimesAssoc(rows, heads, dim);
    SlotBound(r, rows, Times(heads, dim));
  }

  lemma {:induction false} OneRow<F>(b: seq<F>, heads: nat, dim: nat)
    requires |b| == Times(heads, dim)
    ensures Tensor(b, 1, heads, dim)
  {
    assert Times(1, heads) == heads;
  }

  /** A head row cut out of a row cut out of a tensor. */
  lemma {:induction false} HeadRowOfRow<F>(s: seq<F>, rows: nat, heads: nat, dim: nat, h: nat, r: nat)
    requires Tensor(s, rows, heads, dim) && h < heads && r < rows
    ensures Tensor(RowOf(s, rows, heads, dim, r), 1, heads, dim)
    ensures HeadRow(RowOf(s, rows, heads, dim, r), 1, heads, dim, h, 0) == HeadRow(s, rows, heads, dim, h, r)
  {
    var b := RowOf(s, rows, heads, dim, r);
    OneRow(b, heads, dim);
    RowFits(rows, heads, dim, r);
    SlotBound(h, heads, dim);
    assert RowBase(heads, dim, h, 0) == Times(h, dim);
    SliceOfSlice(s, Times(r, Times(heads, dim)), Times(heads, dim), Times(h, dim), dim);
  }

  /** The visible rows of a one-row query over `n` cached rows, and of row n - 1 of causal attention. */
  lemma {:induction false} PrefixWindowIsCausal<F>(s: Shape, k: seq<F>, one: Shape, k1: seq<F>, h: nat, n: nat)
    requires s.mask == Causal && s.Valid() && 0 < n <= s.qRows && h < s.qHeads && Tensor(k, s.kvRows, s.kvHeads, s.dim)
    requires one == s.(qRows := 1, kvRows := n, mask := Prefix(n))
    requires Tensor(k1, n, s.kvHeads, s.dim) && k1 <= k
    ensures one.Valid() && SameWindow(one, k1, 0, h, s, k, n - 1, h)
  {
    assert one.InRange(0) && s.InRange(n - 1);
    KvHeadBound(s, h);
    forall j | 0 <= j < n ensures VisibleRow(one, k1, 0, h, j) == VisibleRow(s, k, n - 1, h, j) {
    }
  }

  /** A query over the first n rows of K and V has the query head and sees the rows of row n - 1 of full
      causal attention, whatever arithmetic is then used on them. */
  lemma {:induction false} PrefixSeesCausal<F>(s: Shape, q: seq<F>, k: seq<F>, v: seq<F>, k1: seq<F>, v1: seq<F>,
                                               n: nat, h: nat)
    requires s.mask == Causal && s.Valid() && s.Fits(q, k, v) && 0 < n <= s.qRows && h < s.qHeads
    requires Tensor(k1, n, s.kvHeads, s.dim) && Tensor(v1, n, s.kvHeads, s.dim) && k1 <= k && v1 <= v
    ensures var one := s.(qRows := 1, kvRows := n, mask := Prefix(n));
            var q1 := RowOf(q, s.qRows, s.qHeads, s.dim, n - 1);
            && one.Valid() && one.Fits(q1, k1, v1)
            && HeadRow(q1, 1, s.qHeads, s.dim, h, 0) == HeadRow(q, s.qRows, s.qHeads, s.dim, h, n - 1)
            && Seen(one, k1, v1, 0, h) == Seen(s, k, v, n - 1, h)
  {
    hide RowOf, HeadRow, Seen, VisibleRow;
    var one := s.(qRows := 1, kvRows := n, mask := Prefix(n));
    HeadRowOfRow(q, s.qRows, s.qHeads, s.dim, h, n - 1);
    PrefixWindowIsCausal(s, k, one, k1, h, n);
    PrefixWindowIsCausal(s, v, one, v1, h, n);
    SeenIsLocal(one, k1, v1, 0, h, s, k, v, n - 1, h);
  }

  /** Incremental attention over the first n rows is row n - 1 of full causal attention. */
  lemma {:induction false} IncrementalIsCausalRow<F>(ops: Ops<F>, scale: F, s: Shape, q: seq<F>, k: seq<F>, v: seq<F>,
                                                     k1: seq<F>, v1: seq<F>, n: nat, h: nat)
    requires s.mask == Causal && s.Valid() && s.Fits(q, k, v) && 0 < n <= s.qRows && h < s.qHeads
    requires Tensor(k1, n, s.kvHeads, s.dim) && Tensor(v1, n, s.kvHeads, s.dim) && k1 <= k && v1 <= v
    ensures var one := s.(qRows := 1, kvRows := n, mask := Prefix(n));
            var q1 := RowOf(q, s.qRows, s.qHeads, s.dim, n - 1);
            one.Valid() && one.Fits(q1, k1, v1) &&
            ModeRow(ops, Scalar, one, q1, k1, v1, scale, 0, h) == ModeRow(ops, Scalar, s, q, k, v, scale, n - 1, h)
  {
    hide RowOf, HeadRow, Seen, HeadValue;
    PrefixSeesCausal(s, q, k, v, k1, v1, n, h);
  }

  /** What expand_kv_heads must produce: head h of the copy is head h / (nq / nkv) of the source. */
  ghost predicate Expanded<F>(s: Shape, k: seq<F>, big: seq<F>)
    requires s.Valid() && Tensor(k, s.kvRows, s.kvHeads, s.dim)
  {
    && Tensor(big, s.kvRows, s.qHeads, s.dim)
    && (forall r, h :: 0 <= r < s.kvRows && 0 <= h < s.qHeads ==> ExpandedAt(s, k, big, r, h))
  }

  ghost predicate ExpandedAt<F>(s: Shape, k: seq<F>, big: seq<F>, r: nat, h: nat)
    requires s.Valid() && Tensor(k, s.kvRows, s.kvHeads, s.dim) && Tensor(big, s.kvRows, s.qHeads, s.dim)
    requires r < s.kvRows && h < s.qHeads
  {
    KvHeadBound(s, h);
    HeadRow(big, s.kvRows, s.qHeads, s.dim, h, r) == HeadRow(k, s.kvRows, s.kvHeads, s.dim, s.KvHead(h), r)
  }

  /** The same without index functions: heads g * n .. g * n + n - 1 of the copy are head g of the source. */
  ghost predicate Grouped<F>(s: Shape, k: seq<F>, big: seq<F>, n: nat)
    requires Tensor(k, s.kvRows, s.kvHeads, s.dim) && Times(s.kvHeads, n) == s.qHeads
  {
    && Tensor(big, s.kvRows, s.qHeads, s.dim)
    && (forall r, g, i :: 0 <= r < s.kvRows && 0 <= g < s.kvHeads && 0 <= i < n ==> GroupedAt(s, k, big, n, r, g, i))
  }

  ghost predicate GroupedAt<F>(s: Shape, k: seq<F>, big: seq<F>, n: nat, r: nat, g: nat, i: nat)
    requires Tensor(k, s.kvRows, s.kvHeads, s.dim) && Times(s.kvHeads, n) == s.qHeads
    requires Tensor(big, s.kvRows, s.qHeads, s.dim) && r < s.kvRows && g < s.kvHeads && i < n
  {
    SlotBound(g, s.kvHeads, n);
    HeadRow(big, s.kvRows, s.qHeads, s.dim, Times(g, n) + i, r) == HeadRow(k, s.kvRows, s.kvHeads, s.dim, g, r)
  }

  lemma {:induction false} ExpandedIsGrouped<F>(s: Shape, k: seq<F>, big: seq<F>, n: nat)
    requires s.Valid() && Tensor(k, s.kvRows, s.kvHeads, s.dim) && Times(s.kvHeads, n) == s.qHeads
    requires Expanded(s, k, big)
    ensures Grouped(s, k, big, n)
  {
    hide HeadRow, Times;
    forall r, g, i | 0 <= r < s.kvRows && 0 <= g < s.kvHeads && 0 <= i < n ensures GroupedAt(s, k, big, n, r, g, i) {
      GroupReads(s, n, g, i);
      assert ExpandedAt(s, k, big, r, Times(g, n) + i);
    }
  }

  lemma {:induction false} ExpandedWindow<F>(s: Shape, k: seq<F>, big: seq<F>, r: nat, h: nat)
    requires s.Valid() && r < s.qRows && h < s.qHeads && Tensor(k, s.kvRows, s.kvHeads, s.dim) && Expanded(s, k, big)
    ensures s.(kvHeads := s.qHeads).Valid()
    ensures SameWindow(s.(kvHeads := s.qHeads), big, r, h, s, k, r, h)
  {
    hide HeadRow, Times;
    var mha := s.(kvHeads := s.qHeads);
    forall x | 0 <= x < mha.qRows ensures mha.InRange(x) { assert s.InRange(x); }
    assert s.InRange(r);
    KvHeadBound(s, h);
    forall j | 0 <= j < s.Count(r) ensures VisibleRow(mha, big, r, h, j) == VisibleRow(s, k, r, h, j) {
      assert ExpandedAt(s, k, big, s.First(r) + j, h);
    }
  }

  /** Grouped-query attention by expansion is grouped-query attention by indexing. */
  lemma {:induction false} ExpansionIsIndexing<F>(ops: Ops<F>, scale: F, s: Shape, q: seq<F>, k: seq<F>,
                                                  v: seq<F>, bigK: seq<F>, bigV: seq<F>, r: nat, h: nat)
    requires s.Valid() && s.Fits(q, k, v) && r < s.qRows && h < s.qHeads
    requires Expanded(s, k, bigK) && Expanded(s, v, bigV)
    ensures var mha := s.(kvHeads := s.qHeads);
            mha.Valid() && mha.Fits(q, bigK, bigV) &&
            ModeRow(ops, Scalar, mha, q, bigK, bigV, scale, r, h) == ModeRow(ops, Scalar, s, q, k, v, scale, r, h)
  {
    hide ModeRow, VisibleRow, HeadRow, ExpandedAt;
    ExpandedWindow(s, k, bigK, r, h);
    ExpandedWindow(s, v, bigV, r, h);
    OutputIsLocal(ops, scale, s.(kvHeads := s.qHeads), q, bigK, bigV, r, h, s, q, k, v, r, h);
  }

  /** The host form of expand_kv_heads. */
  method ExpandKvHeads<F>(s: Shape, src: seq<F>, dst: array<F>)
    requires s.Valid() && Tensor(src, s.kvRows, s.kvHeads, s.dim)
    requires dst.Length == Times(Times(s.kvRows, s.qHeads), s.dim)
    modifies dst
    ensures Expanded(s, src, dst[..])
    ensures forall n: nat :: Times(s.kvHeads, n) == s.qHeads ==> Grouped(s, src, dst[..], n)
  {
    hide HeadRow, ExpandedAt, Grouped;
    for token := 0 to s.kvRows
      invariant forall r, h :: 0 <= r < token && 0 <= h < s.qHeads ==> ExpandedAt(s, src, dst[..], r, h)
    {
      for outHead := 0 to s.qHeads
        invariant forall r, h :: 0 <= r < token && 0 <= h < s.qHeads ==> ExpandedAt(s, src, dst[..], r, h)
        invariant forall h :: 0 <= h < outHead ==> ExpandedAt(s, src, dst[..], token, h)
      {
        KvHeadBound(s, outHead);
        ghost var before := dst[..];
        CopyHead(s, src, dst, token, outHead);
        forall r, h | 0 <= r <= token && 0 <= h < s.qHeads && (r < token || h < outHead)
          ensures ExpandedAt(s, src, dst[..], r, h)
        {
          assert ExpandedAt(s, src, before, r, h);
          ExpandedKept(s, src, before, dst[..], r, h, token, outHead);
        }
      }
    }
    forall n: nat | Times(s.kvHeads, n) == s.qHeads ensures Grouped(s, src, dst[..], n) {
      ExpandedIsGrouped(s, src, dst[..], n);
    }
  }

  lemma {:induction false} ExpandedKept<F>(s: Shape, k: seq<F>, a: seq<F>, b: seq<F>, r: nat, h: nat, r': nat, h': nat)
    requires s.Valid() && Tensor(k, s.kvRows, s.kvHeads, s.dim)
    requires Tensor(a, s.kvRows, s.qHeads, s.dim) && r < s.kvRows && h < s.qHeads && r' < s.kvRows && h' < s.qHeads
    requires SameOutside(b, a, RowBase(s.qHeads, s.dim, h', r'), s.dim) && (r != r' || h != h')
    requires ExpandedAt(s, k, a, r, h)
    ensures ExpandedAt(s, k, b, r, h)
  {
    hide Times, HeadRow, RowBase;
    RowBaseIs(s.kvRows, s.qHeads, s.dim, h, r);
    RowBaseIs(s.kvRows, s.qHeads, s.dim, h', r');
    PosApart(r, h, r', h', s.qHeads);
    SlotsApart(Times(r, s.qHeads) + h, Times(r', s.qHeads) + h', s.dim);
    assert HeadRow(b, s.kvRows, s.qHeads, s.dim, h, r) == HeadRow(a, s.kvRows, s.qHeads, s.dim, h, r);
  }

  method CopyHead<F>(s: Shape, src: seq<F>, dst: array<F>, token: nat, outHead: nat)
    requires s.Valid() && Tensor(src, s.kvRows, s.kvHeads, s.dim) && token < s.kvRows && outHead < s.qHeads
    requires dst.Length == Times(Times(s.kvRows, s.qHeads), s.dim)
    modifies dst
    ensures ExpandedAt(s, src, dst[..], token, outHead)
    ensures SameOutside(dst[..], old(dst[..]), RowBase(s.qHeads, s.dim, outHead, token), s.dim)
  {
    hide Times, RowBase, HeadRow;
    KvHeadBound(s, outHead);
    RowBaseIs(s.kvRows, s.kvHeads, s.dim, s.KvHead(outHead), token);
    RowBaseIs(s.kvRows, s.qHeads, s.dim, outHead, token);
    var srcBase := Times(Times(token, s.kvHeads) + s.KvHead(outHead), s.dim);
    var dstBase := Times(Times(token, s.qHeads) + outHead, s.dim);
    CopyWindow(src, srcBase, dst, dstBase, s.dim);
    assert dst[..][dstBase..dstBase + s.dim] == dst[dstBase..dstBase + s.dim];
  }
}
