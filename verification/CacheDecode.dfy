/** Decoding one token at a time over a fixed-capacity key/value cache, against full causal attention. */
module CacheDecode {
  import opened Index
  import opened Arithmetic
  import opened Layout
  import opened HeadAttention
  import opened AvxAttention
  import opened AvxAgreement
  import opened AttentionShape
  import opened AttentionForms
  import opened AttentionTheorems
  import opened CacheAttend

  function CausalShape(n: nat, heads: nat, dim: nat): Shape {
    Shape(n, n, heads, heads, dim, Causal)
  }

  /** What the shape validators accept. No factor is zero, so a product that overflows a usize is larger
      than any length, and the checked products of the source refuse nothing else. */
  predicate Accepts(q: nat, keyCache: nat, valueCache: nat, newK: nat, newV: nat, past: nat, capacity: nat,
                    heads: nat, dim: nat, out: nat)
  {
    && past < capacity && 0 < heads && 0 < dim
    && q == out == newK == newV == Times(heads, dim)
    && keyCache == valueCache == Times(capacity, Times(heads, dim))
  }

  /** `cache[past * state..].copy_from_slice(row)` */
  method AppendRow<F>(row: seq<F>, cache: array<F>, past: nat, capacity: nat, state: nat)
    requires past < capacity && |row| == state && cache.Length == Times(capacity, state)
    modifies cache
    ensures Appended(old(cache[..]), cache[..], row, past, state)
  {
    SlotBound(past, capacity, state);
    CopyWindow(row, 0, cache, Times(past, state), state);
    assert cache[..][Times(past, state)..Times(past, state) + state] == row;
  }

  /** attention_decoder_incremental_cache_append_d: the new row is written at `past`, then the
      prefix 0 ..= past is attended. A full cache and zero shapes are refused, touching nothing. */
  method AppendAndAttend<F>(ops: Ops<F>, mode: Mode, pool: Pool, order: seq<nat>, q: seq<F>,
                            keyCache: array<F>, valueCache: array<F>, newK: seq<F>, newV: seq<F>,
                            past: nat, capacity: nat, heads: nat, dim: nat, scale: F, out: array<F>)
    returns (ok: bool)
    requires keyCache != valueCache && out != keyCache && out != valueCache && EveryHead(order, heads)
    modifies keyCache, valueCache, out
    ensures ok <==>
      Accepts(|q|, keyCache.Length, valueCache.Length, |newK|, |newV|, past, capacity, heads, dim, out.Length)
    ensures !ok ==> keyCache[..] == old(keyCache[..]) && valueCache[..] == old(valueCache[..])
    ensures !ok ==> out[..] == old(out[..])
    ensures ok ==> Appended(old(keyCache[..]), keyCache[..], newK, past, Times(heads, dim))
    ensures ok ==> Appended(old(valueCache[..]), valueCache[..], newV, past, Times(heads, dim))
    ensures ok ==> PrefixAttended(ops, mode, q, keyCache[..], valueCache[..], past + 1, heads, dim, scale, out[..])
  {
    ok := Accepts(|q|, keyCache.Length, valueCache.Length, |newK|, |newV|, past, capacity, heads, dim, out.Length);
    if !ok { return; }
    hide PrefixAttended, Appended;
    TimesAssoc(past + 1, heads, dim);
    TimesMonotone(past + 1, capacity, Times(heads, dim));
    AppendRow(newK, keyCache, past, capacity, Times(heads, dim));
    AppendRow(newV, valueCache, past, capacity, Times(heads, dim));
    AttendPrefix(ops, mode, pool, order, q, keyCache[..], valueCache[..], past + 1, heads, dim, scale, out);
  }

  /** `new` is `old` with row `past` replaced by `row`; every other row, the unused tail included, is kept. */
  ghost predicate Appended<F>(before: seq<F>, after: seq<F>, row: seq<F>, past: nat, state: nat) {
    && SameOutside(after, before, Times(past, state), state)
    && Times(past, state) + state <= |after|
    && after[Times(past, state)..Times(past, state) + state] == row
  }

  /** The cache after `n` steps of a run: the first n rows are the run's rows, the rest is what it was. */
  ghost predicate Grown<F>(start: seq<F>, now: seq<F>, rows: seq<F>, n: nat, state: nat) {
    GrownTo(start, now, rows, Times(n, state))
  }

  ghost predicate GrownTo<F>(start: seq<F>, now: seq<F>, rows: seq<F>, at: nat) {
    && |now| == |start| && at <= |rows| && at <= |now|
    && (forall i :: 0 <= i < at ==> now[i] == rows[i])
    && (forall i :: at <= i < |now| ==> now[i] == start[i])
  }

  lemma {:induction false} GrownToMore<F>(start: seq<F>, a: seq<F>, b: seq<F>, rows: seq<F>, at: nat, state: nat)
    requires GrownTo(start, a, rows, at) && at + state <= |rows| && at + state <= |b|
    requires SameOutside(b, a, at, state) && b[at..at + state] == rows[at..at + state]
    ensures GrownTo(start, b, rows, at + state)
  {
    forall i | at <= i < at + state ensures b[i] == rows[i] {
      assert b[at..at + state][i - at] == rows[at..at + state][i - at];
    }
  }

  lemma {:induction false} GrownMore<F>(start: seq<F>, a: seq<F>, b: seq<F>, rows: seq<F>, n: nat, total: nat,
                                        heads: nat, dim: nat)
    requires Grown(start, a, rows, n, Times(heads, dim)) && Tensor(rows, total, heads, dim) && n < total
    requires Appended(a, b, RowOf(rows, total, heads, dim, n), n, Times(heads, dim))
    ensures Grown(start, b, rows, n + 1, Times(heads, dim))
  {
    hide GrownTo, Times;
    RowFits(total, heads, dim, n);
    TimesNext(n, Times(heads, dim));
    GrownToMore(start, a, b, rows, Times(n, Times(heads, dim)), Times(heads, dim));
  }

  /** Step `t` of a run wrote, in the arithmetic of `mode`, what row `t` of Q makes of rows 0 ..= t of all the
      run's K and V. */
  ghost predicate StepRowIs<F>(ops: Ops<F>, mode: Mode, q: seq<F>, k: seq<F>, v: seq<F>, n: nat, heads: nat, dim: nat,
                               scale: F, t: nat, out: seq<F>)
    requires Tensor(q, n, heads, dim) && Tensor(k, n, heads, dim) && Tensor(v, n, heads, dim) && t < n
  {
    && CausalShape(n, heads, dim).Valid()
    && |out| == Times(heads, dim)
    && forall h :: 0 <= h < heads ==>
         BlockIs(out, h, dim, ModeRow(ops, mode, CausalShape(n, heads, dim), q, k, v, scale, t, h))
  }

  /** Head `h` of one step. */
  lemma {:induction false} StepHead<F>(ops: Ops<F>, mode: Mode, q: seq<F>, k: seq<F>, v: seq<F>, n: nat, heads: nat,
                                       dim: nat, scale: F, t: nat, k1: seq<F>, v1: seq<F>, out: seq<F>, h: nat)
    requires Tensor(q, n, heads, dim) && Tensor(k, n, heads, dim) && Tensor(v, n, heads, dim) && t < n && h < heads
    requires Tensor(k1, t + 1, heads, dim) && Tensor(v1, t + 1, heads, dim) && k1 <= k && v1 <= v
    requires CacheShape(t + 1, heads, dim).Valid()
        && CacheShape(t + 1, heads, dim).Fits(RowOf(q, n, heads, dim, t), k1, v1)
    requires AllBlocks(out,
        ModeBlocks(ops, mode, CacheShape(t + 1, heads, dim), RowOf(q, n, heads, dim, t), k1, v1, scale), dim)
    ensures CausalShape(n, heads, dim).Valid()
    ensures BlockIs(out, h, dim, ModeRow(ops, mode, CausalShape(n, heads, dim), q, k, v, scale, t, h))
  {
    hide HeadValue, ModeAt, RowOf, Seen, HeadRow;
    var s, one := CausalShape(n, heads, dim), CacheShape(t + 1, heads, dim);
    forall r | 0 <= r < n ensures s.InRange(r) {}
    var q1 := RowOf(q, n, heads, dim, t);
    assert one == s.(qRows := 1, kvRows := t + 1, mask := Prefix(t + 1));
    PrefixSeesCausal(s, q, k, v, k1, v1, t + 1, h);
    ModeAtJoin(ops, mode, one, q1, k1, v1, scale, 0, h);
    assert BlockIs(out, h, dim, ModeBlocks(ops, mode, one, q1, k1, v1, scale)[h]);
  }

  lemma {:induction false} StepAttendsRows<F>(ops: Ops<F>, mode: Mode, q: seq<F>, k: seq<F>, v: seq<F>, n: nat,
                                              heads: nat, dim: nat, scale: F, t: nat, keys: seq<F>, values: seq<F>,
                                              startK: seq<F>, startV: seq<F>, out: seq<F>)
    requires Tensor(q, n, heads, dim) && Tensor(k, n, heads, dim) && Tensor(v, n, heads, dim) && t < n && 0 < heads
    requires Grown(startK, keys, k, t + 1, Times(heads, dim)) && Grown(startV, values, v, t + 1, Times(heads, dim))
    requires PrefixAttended(ops, mode, RowOf(q, n, heads, dim, t), keys, values, t + 1, heads, dim, scale, out)
    ensures StepRowIs(ops, mode, q, k, v, n, heads, dim, scale, t, out)
  {
    hide ModeRow, ModeBlocks, RowOf, Times, BlockIs, AllBlocks, HeadRow;
    TimesAssoc(t + 1, heads, dim);
    var len := Times(Times(t + 1, heads), dim);
    assert keys[..len] == k[..len] && values[..len] == v[..len];
    forall h | 0 <= h < heads
      ensures CausalShape(n, heads, dim).Valid()
      ensures BlockIs(out, h, dim, ModeRow(ops, mode, CausalShape(n, heads, dim), q, k, v, scale, t, h))
    {
      StepHead(ops, mode, q, k, v, n, heads, dim, scale, t, keys[..len], values[..len], out, h);
    }
    CacheLength(heads, dim, out, ops, mode, RowOf(q, n, heads, dim, t), keys[..len], values[..len], t + 1, scale);
    assert CausalShape(n, heads, dim).Valid() by {
      StepHead(ops, mode, q, k, v, n, heads, dim, scale, t, keys[..len], values[..len], out, 0);
    }
  }

  /** Step `t` wrote row `t` of full causal attention, which is scalar in every mode of the backend. */
  ghost predicate CausalRowIs<F>(ops: Ops<F>, q: seq<F>, k: seq<F>, v: seq<F>, n: nat, heads: nat, dim: nat, scale: F,
                                 t: nat, out: seq<F>)
    requires Tensor(q, n, heads, dim) && Tensor(k, n, heads, dim) && Tensor(v, n, heads, dim) && t < n
  {
    StepRowIs(ops, Scalar, q, k, v, n, heads, dim, scale, t, out)
  }

  /** Where no vector is filled, the step is that row bit for bit. */
  lemma {:induction false} NarrowStepIsCausal<F>(ops: Ops<F>, mode: Mode, q: seq<F>, k: seq<F>, v: seq<F>, n: nat,
                                                 heads: nat, dim: nat, scale: F, t: nat, out: seq<F>)
    requires Tensor(q, n, heads, dim) && Tensor(k, n, heads, dim) && Tensor(v, n, heads, dim) && t < n
    requires StepRowIs(ops, mode, q, k, v, n, heads, dim, scale, t, out) && SameBits(ops, mode, dim)
    ensures CausalRowIs(ops, q, k, v, n, heads, dim, scale, t, out)
  {
    hide HeadValue, TwoPass, Seen, HeadRow, BlockIs, SameBits;
    var s := CausalShape(n, heads, dim);
    forall h | 0 <= h < heads ensures BlockIs(out, h, dim, ModeRow(ops, Scalar, s, q, k, v, scale, t, h)) {
      var qr, g := HeadRow(q, n, heads, dim, h, t), Seen(s, k, v, t, h);
      NarrowHead(ops, mode, qr, g, scale);
      ScalarHead(ops, qr, g, scale);
      assert ModeRow(ops, mode, s, q, k, v, scale, t, h) == ModeRow(ops, Scalar, s, q, k, v, scale, t, h);
    }
  }

  /** Over the reals it is that row in every mode. */
  lemma {:induction false} RealStepIsCausal(exp: real -> real, mode: Mode, q: seq<real>, k: seq<real>, v: seq<real>,
                                            n: nat, heads: nat, dim: nat, scale: real, t: nat, out: seq<real>)
    requires Tensor(q, n, heads, dim) && Tensor(k, n, heads, dim) && Tensor(v, n, heads, dim) && t < n
    requires StepRowIs(RealOps(exp), mode, q, k, v, n, heads, dim, scale, t, out)
    ensures CausalRowIs(RealOps(exp), q, k, v, n, heads, dim, scale, t, out)
  {
    hide HeadValue, TwoPass, Seen, HeadRow, BlockIs, RealOps;
    var s := CausalShape(n, heads, dim);
    forall h | 0 <= h < heads ensures BlockIs(out, h, dim, ModeRow(RealOps(exp), Scalar, s, q, k, v, scale, t, h)) {
      var qr, g := HeadRow(q, n, heads, dim, h, t), Seen(s, k, v, t, h);
      RealHeadValue(exp, mode, qr, g, scale);
      RealHeadValue(exp, Scalar, qr, g, scale);
      assert ModeRow(RealOps(exp), mode, s, q, k, v, scale, t, h)
          == ModeRow(RealOps(exp), Scalar, s, q, k, v, scale, t, h);
    }
  }

  /** A whole run. From any initial cache contents, appending rows 0 .. n - 1 one at a time makes step t
      attend row t of Q to rows 0 ..= t of K and V in the backend's arithmetic, with or without a pool and in
      any order of its tasks; the cache prefix is then K and V, and the unused tail is untouched. Where no
      vector is filled, that is row t of full causal attention, bit for bit. */
  method DecodeRun<F>(ops: Ops<F>, mode: Mode, pool: Pool, orders: seq<seq<nat>>, q: seq<F>, k: seq<F>, v: seq<F>,
                      n: nat, heads: nat, dim: nat, scale: F, keyCache: array<F>, valueCache: array<F>, capacity: nat)
    returns (outs: seq<seq<F>>)
    requires Tensor(q, n, heads, dim) && Tensor(k, n, heads, dim) && Tensor(v, n, heads, dim)
    requires 0 < heads && 0 < dim && n <= capacity && keyCache != valueCache
    requires |orders| == n && forall t :: 0 <= t < n ==> EveryHead(orders[t], heads)
    requires keyCache.Length == valueCache.Length == Times(capacity, Times(heads, dim))
    modifies keyCache, valueCache
    ensures |outs| == n
    ensures forall t :: 0 <= t < n ==> StepRowIs(ops, mode, q, k, v, n, heads, dim, scale, t, outs[t])
    ensures SameBits(ops, mode, dim) ==>
              forall t :: 0 <= t < n ==> CausalRowIs(ops, q, k, v, n, heads, dim, scale, t, outs[t])
    ensures Grown(old(keyCache[..]), keyCache[..], k, n, Times(heads, dim))
    ensures Grown(old(valueCache[..]), valueCache[..], v, n, Times(heads, dim))
  {
    hide StepRowIs, CausalRowIs, PrefixAttended, Appended, RowOf, SameBits;
    outs := [];
    var state := Times(heads, dim);
    assert Times(0, state) == 0;
    for t := 0 to n
      invariant |outs| == t
      invariant forall i :: 0 <= i < t ==> StepRowIs(ops, mode, q, k, v, n, heads, dim, scale, i, outs[i])
      invariant Grown(old(keyCache[..]), keyCache[..], k, t, state)
      invariant Grown(old(valueCache[..]), valueCache[..], v, t, state)
    {
      var out := new F[state](_ => ops.zero);
      ghost var keys, values := keyCache[..], valueCache[..];
      var ok := AppendAndAttend(ops, mode, pool, orders[t], RowOf(q, n, heads, dim, t), keyCache, valueCache,
                                RowOf(k, n, heads, dim, t), RowOf(v, n, heads, dim, t), t, capacity, heads, dim, scale,
                                out);
      GrownMore(old(keyCache[..]), keys, keyCache[..], k, t, n, heads, dim);
      GrownMore(old(valueCache[..]), values, valueCache[..], v, t, n, heads, dim);
      StepAttendsRows(ops, mode, q, k, v, n, heads, dim, scale, t, keyCache[..], valueCache[..],
                      old(keyCache[..]), old(valueCache[..]), out[..]);
      outs := outs + [out[..]];
    }
    if SameBits(ops, mode, dim) {
      forall t | 0 <= t < n ensures CausalRowIs(ops, q, k, v, n, heads, dim, scale, t, outs[t]) {
        NarrowStepIsCausal(ops, mode, q, k, v, n, heads, dim, scale, t, outs[t]);
      }
    }
  }
}
