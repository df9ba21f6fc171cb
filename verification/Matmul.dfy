/** The matrix product: row by cell, K-outer over whole rows, and in row chunks over a thread pool. */
module Matmul {
  import opened Index
  import opened Arithmetic
  import opened Layout
  import opened AttentionForms

  /** `[m, k]` by `[k, n]` */
  datatype Product<!F> = Product(ops: Ops<F>, a: seq<F>, b: seq<F>, m: nat, k: nat, n: nat) {
    ghost predicate Valid() { |a| == Times(m, k) && |b| == Times(k, n) }

    function Row(i: nat): (r: seq<F>)
      requires Valid() && i < m
      ensures |r| == k
    {
      SlotBound(i, m, k);
      Block(a, i, k)
    }

    function Column(j: nat): (c: seq<F>)
      requires Valid() && j < n
      ensures |c| == k
    {
      seq(k, p requires 0 <= p < k => SlotBound(p, k, n); b[Times(p, n) + j])
    }

    /** One output row: each cell the left fold, from zero, of the row by the column. */
    function OutRow(i: nat): (r: seq<F>)
      requires Valid() && i < m
      ensures |r| == n && forall j :: 0 <= j < n ==> r[j] == Dot(ops, ops.zero, Row(i), Column(j))
    {
      seq(n, j requires 0 <= j < n => Dot(ops, ops.zero, Row(i), Column(j)))
    }

    function Want(): (w: seq<seq<F>>)
      requires Valid()
      ensures |w| == m && forall i :: 0 <= i < m ==> w[i] == OutRow(i)
    {
      seq(m, i requires 0 <= i < m => OutRow(i))
    }
  }

  /** Every output row is its row of folds. */
  ghost predicate AllRows<F>(t: Product<F>, out: seq<F>)
    requires t.Valid()
  {
    forall i :: 0 <= i < t.m ==> BlockIs(out, i, t.n, t.OutRow(i))
  }

  method ScalarCell<F>(t: Product<F>, i: nat, j: nat) returns (acc: F)
    requires t.Valid() && i < t.m && j < t.n
    ensures acc == Dot(t.ops, t.ops.zero, t.Row(i), t.Column(j))
  {
    hide Times, Product.Row, Product.Column;
    acc := t.ops.zero;
    for p := 0 to t.k
      invariant acc == DotFrom(t.ops, t.ops.zero, t.Row(i), t.Column(j), p)
    {
      InputIs(t, i, p, j);
      acc := t.ops.add(acc, t.ops.mul(t.a[InputAt(t, i, p)], t.b[Times(p, t.n) + j]));
    }
  }

  method ScalarRow<F>(t: Product<F>, i: nat, out: array<F>, at: nat)
    requires t.Valid() && i < t.m && at + t.n <= out.Length
    modifies out
    ensures out[at..at + t.n] == t.OutRow(i) && SameOutside(out[..], old(out[..]), at, t.n)
  {
    hide Times, DotFrom, Product.Row, Product.Column;
    for j := 0 to t.n
      invariant forall c :: at <= c < at + j ==> out[c] == t.OutRow(i)[c - at]
      invariant SameOutside(out[..], old(out[..]), at, t.n)
    {
      var acc := ScalarCell(t, i, j);
      out[at + j] := acc;
    }
  }

  /** After p inputs every cell of the row is its fold of p inputs; the first j are one ahead. */
  ghost predicate Ahead<F>(t: Product<F>, i: nat, p: nat, j: nat, row: seq<F>)
    requires t.Valid() && i < t.m && p <= t.k
  {
    && |row| == t.n && (j > 0 ==> p < t.k)
    && forall c :: 0 <= c < t.n ==>
         row[c] == DotFrom(t.ops, t.ops.zero, t.Row(i), t.Column(c), if c < j then p + 1 else p)
  }

  lemma {:induction false} AheadNext<F>(t: Product<F>, i: nat, p: nat, j: nat, row: seq<F>)
    requires t.Valid() && i < t.m && p < t.k && j < t.n && Ahead(t, i, p, j, row)
    ensures InputAt(t, i, p) < |t.a| && Times(p, t.n) + j < |t.b|
    ensures Ahead(t, i, p, j + 1, row[j := t.ops.add(row[j], t.ops.mul(t.a[InputAt(t, i, p)], t.b[Times(p, t.n) + j]))])
  {
    hide Times, Product.Row, Product.Column, InputAt;
    InputIs(t, i, p, j);
    SlotBound(p, t.k, t.n);
  }

  lemma {:induction false} AheadAll<F>(t: Product<F>, i: nat, p: nat, row: seq<F>)
    requires t.Valid() && i < t.m && p < t.k && Ahead(t, i, p, t.n, row)
    ensures Ahead(t, i, p + 1, 0, row)
  {
    hide Times, Product.Row, Product.Column, DotFrom;
  }

  /** out_row[j] += a_ip * b_row[j] */
  method AddInput<F>(t: Product<F>, i: nat, p: nat, out: array<F>, at: nat)
    requires t.Valid() && i < t.m && p < t.k && at + t.n <= out.Length && Ahead(t, i, p, 0, out[at..at + t.n])
    modifies out
    ensures Ahead(t, i, p + 1, 0, out[at..at + t.n]) && SameOutside(out[..], old(out[..]), at, t.n)
  {
    hide Times, Product.Row, Product.Column, SameOutside, Ahead, InputAt;
    ghost var was := out[..];
    SameOutsideSelf(was, at, t.n);
    var x := t.a[InputAt(t, i, p)];
    for j := 0 to t.n
      invariant Ahead(t, i, p, j, out[at..at + t.n])
      invariant SameOutside(out[..], was, at, t.n)
    {
      ghost var row, before := out[at..at + t.n], out[..];
      AheadNext(t, i, p, j, row);
      out[at + j] := t.ops.add(out[at + j], t.ops.mul(x, t.b[Times(p, t.n) + j]));
      assert out[at..at + t.n] == row[j := t.ops.add(row[j], t.ops.mul(x, t.b[Times(p, t.n) + j]))];
      OneCell(was, before, out[..], at, t.n, at + j);
    }
    AheadAll(t, i, p, out[at..at + t.n]);
  }

  lemma {:induction false} OneCell<F>(was: seq<F>, a: seq<F>, b: seq<F>, at: nat, len: nat, c: nat)
    requires SameOutside(a, was, at, len) && at <= c < at + len && c < |a| == |b| && b == a[c := b[c]]
    ensures SameOutside(b, was, at, len)
  {}

  function InputAt<F>(t: Product<F>, i: nat, p: nat): (c: nat)
    requires t.Valid() && i < t.m && p < t.k
    ensures c < |t.a|
  {
    SlotBound(i, t.m, t.k);
    Times(i, t.k) + p
  }

  lemma {:induction false} InputIs<F>(t: Product<F>, i: nat, p: nat, j: nat)
    requires t.Valid() && i < t.m && p < t.k && j < t.n
    ensures t.Row(i)[p] == t.a[InputAt(t, i, p)]
    ensures Times(p, t.n) + j < |t.b| && t.Column(j)[p] == t.b[Times(p, t.n) + j]
  {
    SlotBound(i, t.m, t.k);
    SlotBound(p, t.k, t.n);
  }

  method OptimizedRow<F>(t: Product<F>, i: nat, out: array<F>, at: nat)
    requires t.Valid() && i < t.m && at + t.n <= out.Length && forall c :: at <= c < at + t.n ==> out[c] == t.ops.zero
    modifies out
    ensures out[at..at + t.n] == t.OutRow(i) && SameOutside(out[..], old(out[..]), at, t.n)
  {
    hide Times;
    for p := 0 to t.k
      invariant Ahead(t, i, p, 0, out[at..at + t.n])
      invariant SameOutside(out[..], old(out[..]), at, t.n)
    {
      AddInput(t, i, p, out, at);
    }
  }

  /** Either body over rows lo .. hi, which is what a chunk's slices of `a` and `out` are. */
  method Rows<F>(t: Product<F>, optimized: bool, lo: nat, hi: nat, out: array<F>)
    requires t.Valid() && lo <= hi <= t.m && out.Length == Times(t.m, t.n)
    modifies out
    ensures Wrote(old(out[..]), out[..], t.Want(), t.n, lo, hi)
  {
    hide Times, Product.OutRow, Block, Quot, Rem;
    if optimized {
      FillRows(t.ops.zero, t.m, t.n, lo, hi, out);
      OptimizedRows(t, lo, hi, old(out[..]), out);
    } else {
      ghost var was := out[..];
      WroteNothing(was, t.Want(), t.n, lo);
      for i := lo to hi
        invariant Wrote(was, out[..], t.Want(), t.n, lo, i)
      {
        SlotBound(i, t.m, t.n);
        ghost var before := out[..];
        ScalarRow(t, i, out, Times(i, t.n));
        RowWritten(was, before, out[..], t, lo, i);
      }
    }
  }

  lemma {:induction false} RowWritten<F>(was: seq<F>, before: seq<F>, after: seq<F>, t: Product<F>, lo: nat, i: nat)
    requires t.Valid() && lo <= i < t.m && Wrote(was, before, t.Want(), t.n, lo, i) && Times(i, t.n) + t.n <= |after|
    requires after[Times(i, t.n)..Times(i, t.n) + t.n] == t.OutRow(i) && SameOutside(after, before, Times(i, t.n), t.n)
    ensures Wrote(was, after, t.Want(), t.n, lo, i + 1)
  {
    hide Times, Product.OutRow, Wrote;
    WroteMore(was, before, after, t.Want(), t.n, lo, i);
  }

  method FillRows<F>(zero: F, m: nat, n: nat, lo: nat, hi: nat, out: array<F>)
    requires lo <= hi <= m && out.Length == Times(m, n)
    modifies out
    ensures Times(lo, n) <= Times(hi, n) <= out.Length
    ensures forall c :: Times(lo, n) <= c < Times(hi, n) ==> out[c] == zero
    ensures SameOutside(out[..], old(out[..]), Times(lo, n), Times(hi, n) - Times(lo, n))
  {
    hide Times;
    TimesMonotone(lo, hi, n);
    TimesMonotone(hi, m, n);
    for c := Times(lo, n) to Times(hi, n)
      invariant forall d :: Times(lo, n) <= d < c ==> out[d] == zero
      invariant SameOutside(out[..], old(out[..]), Times(lo, n), Times(hi, n) - Times(lo, n))
    {
      out[c] := zero;
    }
  }

  method OptimizedRows<F>(t: Product<F>, lo: nat, hi: nat, ghost was: seq<F>, out: array<F>)
    requires t.Valid() && lo <= hi <= t.m && out.Length == Times(t.m, t.n)
    requires Times(lo, t.n) <= Times(hi, t.n) <= out.Length
    requires forall c :: Times(lo, t.n) <= c < Times(hi, t.n) ==> out[c] == t.ops.zero
    requires SameOutside(out[..], was, Times(lo, t.n), Times(hi, t.n) - Times(lo, t.n))
    modifies out
    ensures Wrote(was, out[..], t.Want(), t.n, lo, hi)
  {
    hide Times, Product.OutRow, Block;
    ghost var filled := out[..];
    WroteNothing(filled, t.Want(), t.n, lo);
    for i := lo to hi
      invariant Wrote(filled, out[..], t.Want(), t.n, lo, i)
    {
      SlotBound(i, hi, t.n);
      TimesMonotone(lo, i, t.n);
      ghost var before := out[..];
      OptimizedRow(t, i, out, Times(i, t.n));
      RowWritten(filled, before, out[..], t, lo, i);
    }
  }

  // ---- row chunks ----

  /** The chunk's length over n is its number of rows. */
  lemma {:induction false} ChunkHolds(m: nat, n: nat, per: nat, c: nat)
    requires 0 < n && 0 < per && Times(c, Times(per, n)) < Times(m, n)
    ensures var base, full := Times(c, Times(per, n)), Times(per, n);
            var len := if base + full <= Times(m, n) then full else Times(m, n) - base;
            Times(c, per) < m && Quot(len, n) == (if Times(c, per) + per <= m then per else m - Times(c, per))
  {
    hide Times, Quot, Rem;
    TimesAssoc(c, per, n);
    RowsHeld(m, n, per, Times(c, per), Times(c, Times(per, n)), Times(per, n), Times(m, n));
  }

  lemma {:induction false} RowsHeld(m: nat, n: nat, per: nat, lo: nat, base: nat, full: nat, total: nat)
    requires 0 < n && 0 < per && base == Times(lo, n) < total == Times(m, n) && full == Times(per, n)
    ensures lo < m
    ensures Quot(if base + full <= total then full else total - base, n) == (if lo + per <= m then per else m - lo)
  {
    hide Times, Quot, Rem;
    if m <= lo { TimesMonotone(m, lo, n); }
    TimesAdd(lo, per, n);
    if lo + per <= m {
      TimesMonotone(lo + per, m, n);
      QuotJoin(per, 0, n);
    } else {
      TimesAdd(lo, m - lo, n);
      SlotBound(m - lo, per, n);
      QuotJoin(m - lo, 0, n);
      assert lo + (m - lo) == m;
    }
  }

  /** matmul_parallel: the chunks of `rows_per_chunk` rows, in any order. With no columns the chunks would
      have length zero, which `par_chunks_mut` refuses by panicking; `ok` is false exactly then. */
  method Parallel<F>(t: Product<F>, optimized: bool, threads: nat, order: seq<nat>, out: array<F>) returns (ok: bool)
    requires t.Valid() && out.Length == Times(t.m, t.n)
    requires forall c :: c in order <==> Times(c, Times(RowsPerChunk(t.m, threads), t.n)) < out.Length
    modifies out
    ensures ok <==> 0 < t.n
    ensures ok ==> AllRows(t, out[..])
    ensures !ok ==> out[..] == old(out[..])
  {
    hide Times, Quot, Rem, Product.OutRow, Block, RowsPerChunk;
    if t.n == 0 { return false; }
    ok := true;
    var per := RowsPerChunk(t.m, threads);
    for n := 0 to |order|
      invariant forall i :: 0 <= i < t.m && Quot(i, per) in order[..n] ==> BlockIs(out[..], i, t.n, t.OutRow(i))
    {
      var c := order[n];
      ChunkHolds(t.m, t.n, per, c);
      var base, full := Times(c, Times(per, t.n)), Times(per, t.n);
      var len := if base + full <= out.Length then full else out.Length - base;
      var lo := Times(c, per);
      var hi := lo + Quot(len, t.n);
      ghost var before := out[..];
      Rows(t, optimized, lo, hi, out);
      forall i | 0 <= i < t.m && Quot(i, per) in order[..n + 1] ensures BlockIs(out[..], i, t.n, t.OutRow(i)) {
        if Quot(i, per) == c { OfChunk(i, per, c, t.m); }
        WroteKeeps(before, out[..], t.Want(), t.n, lo, hi, i);
      }
    }
    assert order[..|order|] == order;
    forall i | 0 <= i < t.m ensures BlockIs(out[..], i, t.n, t.OutRow(i)) {
      HasChunk(i, per, t.m, t.n);
      assert Quot(i, per) in order;
    }
  }

  lemma {:induction false} OfChunk(i: nat, per: nat, c: nat, m: nat)
    requires 0 < per && i < m && Quot(i, per) == c
    ensures Times(c, per) <= i < Times(c, per) + per
  {
    QuotRem(i, per);
  }

  lemma {:induction false} HasChunk(i: nat, per: nat, m: nat, n: nat)
    requires 0 < per && 0 < n && i < m
    ensures Times(Quot(i, per), Times(per, n)) < Times(m, n)
  {
    QuotRem(i, per);
    TimesAssoc(Quot(i, per), per, n);
    TimesMonotone(Times(Quot(i, per), per), i, n);
    SlotBound(i, m, n);
  }

  // ---- dispatch ----

  const PARALLEL_MATMUL_MIN_ROWS: nat := 32

  /** CpuKernelBackend::matmul on validated shapes; AVX2 mode runs the K-outer body. Serial or pooled, in
      any order of chunks, the result is the same bits, except for the panic. */
  method MatMul<F>(t: Product<F>, optimized: bool, pool: Pool, order: seq<nat>, out: array<F>) returns (ok: bool)
    requires t.Valid() && out.Length == Times(t.m, t.n)
    requires pool.Pool? ==> forall c :: c in order <==>
        Times(c, Times(RowsPerChunk(t.m, pool.threads), t.n)) < out.Length
    modifies out
    ensures ok <==> !(pool.Pool? && t.m >= PARALLEL_MATMUL_MIN_ROWS && t.n == 0)
    ensures ok ==> AllRows(t, out[..])
  {
    hide Times, Product.OutRow, RowsPerChunk, BlockIs;
    if pool.Pool? && t.m >= PARALLEL_MATMUL_MIN_ROWS {
      ok := Parallel(t, optimized, pool.threads, order, out);
    } else {
      ghost var was := out[..];
      Rows(t, optimized, 0, t.m, out);
      AllWritten(t, was, out[..]);
      ok := true;
    }
  }

  lemma {:induction false} AllWritten<F>(t: Product<F>, was: seq<F>, out: seq<F>)
    requires t.Valid() && Wrote(was, out, t.Want(), t.n, 0, t.m)
    ensures AllRows(t, out)
  {
    hide Times, Product.OutRow, Block;
  }

  /** Scalar, K-outer and every chunking leave the same bits. */
  lemma {:induction false} FormsAgree<F>(t: Product<F>, a: seq<F>, b: seq<F>)
    requires t.Valid() && |a| == |b| == Times(t.m, t.n) && AllRows(t, a) && AllRows(t, b)
    ensures a == b
  {
    hide Times, Product.OutRow, Block;
    SameBlocks(a, b, t.Want(), t.n);
  }
}
