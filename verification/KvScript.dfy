/** Any script of cache calls, run on both caches. */
module KvScript {
  import opened Index
  import opened KvLayout
  import opened KvCache
  import opened KvStores
  import opened KvPaged

  datatype Call<F> =
    | SetLen(n: nat)
    | Write(layer: nat, position: nat, key: seq<F>, value: seq<F>)
    | ReadKeys(layer: nat, n: nat)
    | ReadValues(layer: nat, n: nat)
    | Release

  datatype Reply<F> = Refused | Fine | Rows(out: seq<F>)

  method CallContiguous<F>(c: ContiguousKvCache<F>, call: Call<F>, zero: F) returns (r: Reply<F>)
    requires c.Valid()
    modifies c, c.keys, c.values
    ensures c.Valid() && Answers(c.layout, old(c.View()), call, c.View(), r)
    ensures c.keys == old(c.keys) || fresh(c.keys)
    ensures c.values == old(c.values) || fresh(c.values)
  {
    hide KvCache.Rows, ReadsBack, Holds, Times, Written;
    match call
    case SetLen(n) =>
      var ok := c.SetLenTokens(n);
      r := if ok then Fine else Refused;
    case Write(layer, position, key, value) =>
      var ok := c.WriteLayerKv(layer, position, key, value);
      r := if ok then Fine else Refused;
    case ReadKeys(layer, n) =>
      var out := new F[Times(n, c.layout.Width())](_ => zero);
      var ok := c.ReadLayerKeys(layer, n, out);
      r := if ok then Rows(out[..]) else Refused;
    case ReadValues(layer, n) =>
      var out := new F[Times(n, c.layout.Width())](_ => zero);
      var ok := c.ReadLayerValues(layer, n, out);
      r := if ok then Rows(out[..]) else Refused;
    case Release =>
      c.Release();
      r := Fine;
  }

  method CallPaged<F>(c: PagedKvCache<F>, call: Call<F>, zero: F) returns (r: Reply<F>)
    requires c.Valid()
    modifies c, c.keys, c.values
    ensures c.Valid() && Answers(c.layout.base, old(c.View()), call, c.View(), r)
    ensures c.keys == old(c.keys) || fresh(c.keys)
    ensures c.values == old(c.values) || fresh(c.values)
  {
    hide KvCache.Rows, ReadsBack, Holds, Times, Written, Accepted, PagedTotal, Slots;
    match call
    case SetLen(n) =>
      var ok := c.SetLenTokens(n);
      r := if ok then Fine else Refused;
    case Write(layer, position, key, value) =>
      var ok := c.WriteLayerKv(layer, position, key, value);
      r := if ok then Fine else Refused;
    case ReadKeys(layer, n) =>
      var out := new F[Times(n, c.layout.base.Width())](_ => zero);
      var ok := c.ReadLayerKeys(layer, n, out);
      r := if ok then Rows(out[..]) else Refused;
    case ReadValues(layer, n) =>
      var out := new F[Times(n, c.layout.base.Width())](_ => zero);
      var ok := c.ReadLayerValues(layer, n, out);
      r := if ok then Rows(out[..]) else Refused;
    case Release =>
      var pages := c.Release();
      r := Fine;
  }

  /** What a call must answer, and leave behind, by the rows the store held. */
  ghost predicate Answers<F>(y: Layout, s: Store<F>, call: Call<F>, s': Store<F>, r: Reply<F>)
    requires Sized(y, s)
  {
    match call
    case SetLen(n) => if !s.released && n <= y.capacity then r == Fine && s' == s.(len := n)
        else r == Refused && s' == s
    case Write(l, p, key, value) =>
      if WriteOk(y, s, l, p, key, value) then
        r == Fine && s' == s.(keys := Written(s.keys, l, p, key), values := Written(s.values, l, p, value))
      else r == Refused && s' == s
    case ReadKeys(l, n) =>
      s' == s && if ReadOk(y, s, l, n, Times(n, y.Width())) then
        r.Rows? && |r.out| == Times(n, y.Width()) && ReadsBack(s.keys, l, n, y.Width(), r.out)
      else r == Refused
    case ReadValues(l, n) =>
      s' == s && if ReadOk(y, s, l, n, Times(n, y.Width())) then
        r.Rows? && |r.out| == Times(n, y.Width()) && ReadsBack(s.values, l, n, y.Width(), r.out)
      else r == Refused
    case Release => r == Fine && s' == Store([], [], 0, true)
  }

  lemma {:induction false} AnswerIsDetermined<F>(y: Layout, s: Store<F>, call: Call<F>, s1: Store<F>, r1: Reply<F>,
                                                 s2: Store<F>, r2: Reply<F>)
    requires Sized(y, s) && Answers(y, s, call, s1, r1) && Answers(y, s, call, s2, r2)
    ensures s1 == s2 && r1 == r2
  {
    hide ReadsBack, Times, Written;
    if call.ReadKeys? && r1.Rows?
        && r2.Rows? { ReadIsDetermined(s.keys, call.layer, call.n, y.Width(), r1.out, r2.out); }
    if call.ReadValues? && r1.Rows?
        && r2.Rows? { ReadIsDetermined(s.values, call.layer, call.n, y.Width(), r1.out, r2.out); }
  }

  /** One call on both stores. */
  method CallBoth<F>(a: ContiguousKvCache<F>, b: PagedKvCache<F>, call: Call<F>, zero: F)
    returns (x: Reply<F>, y: Reply<F>)
    requires a.Valid() && b.Valid() && a.layout == b.layout.base && a.View() == b.View()
    requires {a.keys, a.values} !! {b.keys, b.values}
    modifies a, b, a.keys, a.values, b.keys, b.values
    ensures a.Valid() && b.Valid() && a.View() == b.View() && x == y
    ensures {a.keys, a.values} !! {b.keys, b.values}
    ensures (a.keys == old(a.keys) || fresh(a.keys)) && (a.values == old(a.values) || fresh(a.values))
    ensures (b.keys == old(b.keys) || fresh(b.keys)) && (b.values == old(b.values) || fresh(b.values))
  {
    hide KvCache.Rows, Holds, Times, Answers, Accepted, PagedTotal, Slots, Sized;
    ghost var s := a.View();
    x := CallContiguous(a, call, zero);
    ghost var s' := a.View();
    y := CallPaged(b, call, zero);
    AnswerIsDetermined(a.layout, s, call, s', x, b.View(), y);
  }

  /** Whatever the page size and the page table, every script gets the same replies from both caches. */
  method RunBoth<F>(a: ContiguousKvCache<F>, b: PagedKvCache<F>, script: seq<Call<F>>, zero: F)
    returns (ra: seq<Reply<F>>, rb: seq<Reply<F>>)
    requires a.Valid() && b.Valid() && a.layout == b.layout.base && a.View() == b.View()
    requires {a.keys, a.values} !! {b.keys, b.values}
    modifies a, b, a.keys, a.values, b.keys, b.values
    ensures a.Valid() && b.Valid() && a.View() == b.View()
    ensures ra == rb && |ra| == |script|
  {
    hide KvCache.Rows, Holds, Times, Answers, Accepted, PagedTotal, Slots, Sized;
    ra, rb := [], [];
    for k := 0 to |script|
      invariant a.Valid() && b.Valid() && a.View() == b.View()
      invariant {a.keys, a.values} !! {b.keys, b.values}
      invariant a.keys == old(a.keys) || fresh(a.keys)
      invariant a.values == old(a.values) || fresh(a.values)
      invariant b.keys == old(b.keys) || fresh(b.keys)
      invariant b.values == old(b.values) || fresh(b.values)
      invariant ra == rb && |ra| == k
    {
      var x, y := CallBoth(a, b, script[k], zero);
      ra, rb := ra + [x], rb + [y];
    }
  }
}
