/** The allocator of pages: over any run of allocations and releases no page is lost, none is in two
    hands, and what is free is in order. */
module KvAllocator {
  import opened Checked
  import opened KvLayout
  import opened KvCache
  import opened KvPaged

  ghost predicate Sorted(s: seq<nat>) { forall i, j :: 0 <= i < j < |s| ==> s[i] <= s[j] }

  ghost predicate Ordered(s: seq<nat>) { forall i, j :: 0 <= i < j < |s| ==> s[i] < s[j] }

  function Insert(x: nat, s: seq<nat>): (r: seq<nat>)
    ensures multiset(r) == multiset(s) + multiset{x}
  {
    if |s| == 0 then [x]
    else
      assert s == [s[0]] + s[1..];
      if x <= s[0] then [x] + s else [s[0]] + Insert(x, s[1..])
  }

  /** sort_unstable */
  function Sort(s: seq<nat>): (r: seq<nat>)
    ensures multiset(r) == multiset(s)
  {
    if |s| == 0 then []
    else
      assert s == [s[0]] + s[1..];
      Insert(s[0], Sort(s[1..]))
  }

  lemma {:induction false} InsertKeepsSorted(x: nat, s: seq<nat>)
    requires Sorted(s)
    ensures Sorted(Insert(x, s))
  {
    if |s| > 0 && x > s[0] {
      InsertKeepsSorted(x, s[1..]);
      var r := Insert(x, s[1..]);
      forall k | 0 <= k < |r| ensures s[0] <= r[k] {
        assert r[k] in multiset(r);
        assert r[k] in s[1..] || r[k] == x;
      }
    }
  }

  lemma {:induction false} SortSorts(s: seq<nat>)
    ensures Sorted(Sort(s))
  {
    if |s| > 0 {
      SortSorts(s[1..]);
      InsertKeepsSorted(s[0], Sort(s[1..]));
    }
  }

  /** A sorted list is determined by what is in it. */
  lemma {:induction false} SortedIsUnique(a: seq<nat>, b: seq<nat>)
    requires Sorted(a) && Sorted(b) && multiset(a) == multiset(b)
    ensures a == b
  {
    SameSize(a, b);
    if |a| > 0 {
      LeastFirst(a, b);
      LeastFirst(b, a);
      Behead(a);
      Behead(b);
      SortedIsUnique(a[1..], b[1..]);
      assert a == [a[0]] + a[1..] && b == [b[0]] + b[1..];
    }
  }

  lemma {:induction false} SameSize(a: seq<nat>, b: seq<nat>)
    requires multiset(a) == multiset(b)
    ensures |a| == |b|
  {
    assert |multiset(a)| == |a| && |multiset(b)| == |b|;
  }

  lemma {:induction false} LeastFirst(a: seq<nat>, b: seq<nat>)
    requires |a| > 0 && |b| > 0 && Sorted(a) && multiset(a) == multiset(b)
    ensures a[0] <= b[0]
  {
    assert b[0] in multiset(b);
    assert b[0] in a;
  }

  lemma {:induction false} Behead(a: seq<nat>)
    requires |a| > 0
    ensures multiset(a[1..]) == multiset(a) - multiset{a[0]}
  {
    assert a == [a[0]] + a[1..];
  }

  function Upto(n: nat): (s: seq<nat>)
    ensures |s| == n && forall i :: 0 <= i < n ==> s[i] == i
  {
    seq(n, i requires 0 <= i => i)
  }

  // ---- the pool as a machine ----

  /** The free pages, and the page tables of the live caches. */
  datatype Pool = Pool(free: seq<nat>, held: seq<seq<nat>>)

  datatype Act = Take(n: nat) | Give(i: nat)

  function Held(held: seq<seq<nat>>): multiset<nat> {
    if |held| == 0 then multiset{} else Held(held[..|held| - 1]) + multiset(held[|held| - 1])
  }

  /** Page for page, the free list and the tables are the pool: nothing lost, nothing twice. */
  ghost predicate Conserved(pages: nat, p: Pool) {
    Sorted(p.free) && multiset(p.free) + Held(p.held) == multiset(Upto(pages))
  }

  function After(p: Pool, act: Act): Pool {
    match act
    case Take(n) => if n <= |p.free| then Pool(p.free[n..], p.held + [p.free[..n]]) else p
    case Give(i) =>
      if i < |p.held| then Pool(Sort(p.free + p.held[i]), p.held[..i] + p.held[i + 1..]) else p
  }

  function Run(p: Pool, acts: seq<Act>): Pool {
    if |acts| == 0 then p else After(Run(p, acts[..|acts| - 1]), acts[|acts| - 1])
  }

  lemma {:induction false} HeldSplit(held: seq<seq<nat>>, i: nat)
    requires i < |held|
    ensures Held(held) == Held(held[..i] + held[i + 1..]) + multiset(held[i])
  {
    var rest := held[..i] + held[i + 1..];
    if i == |held| - 1 {
      assert rest == held[..i];
    } else {
      HeldSplit(held[..|held| - 1], i);
      assert held[..|held| - 1][..i] + held[..|held| - 1][i + 1..] == rest[..|rest| - 1];
    }
  }

  lemma {:induction false} TakeConserves(pages: nat, p: Pool, n: nat)
    requires Conserved(pages, p) && n <= |p.free|
    ensures Conserved(pages, Pool(p.free[n..], p.held + [p.free[..n]]))
  {
    hide Upto;
    assert p.free == p.free[..n] + p.free[n..];
    assert (p.held + [p.free[..n]])[..|p.held|] == p.held;
    assert Held(p.held + [p.free[..n]]) == Held(p.held) + multiset(p.free[..n]);
  }

  /** The pages taken are the least of the free ones. */
  lemma {:induction false} TakesLeast(pages: nat, p: Pool, n: nat, i: nat, j: nat)
    requires Conserved(pages, p) && n <= |p.free|
    ensures var q := After(p, Take(n));
            && |q.held| == |p.held| + 1 && |q.held[|p.held|]| == n && |q.free| == |p.free| - n
            && (i < n && j < |q.free| ==> q.held[|p.held|][i] < q.free[j])
  {
    if i < n && j < |p.free| - n {
      UptoOnce(pages, p.free[i]);
      AtMostOnceIsDistinct(p.free, i, n + j);
    }
  }

  lemma {:induction false} GiveConserves(pages: nat, p: Pool, i: nat)
    requires Conserved(pages, p) && i < |p.held|
    ensures Conserved(pages, Pool(Sort(p.free + p.held[i]), p.held[..i] + p.held[i + 1..]))
  {
    hide Upto, Sort, Held, Sorted;
    HeldSplit(p.held, i);
    SortSorts(p.free + p.held[i]);
  }

  lemma {:induction false} ActConserves(pages: nat, p: Pool, act: Act)
    requires Conserved(pages, p)
    ensures Conserved(pages, After(p, act))
  {
    hide Conserved, Sort;
    match act
    case Take(n) => if n <= |p.free| { TakeConserves(pages, p, n); }
    case Give(i) => if i < |p.held| { GiveConserves(pages, p, i); }
  }

  /** After any acts the pool is conserved. */
  lemma {:induction false} RunConserves(pages: nat, acts: seq<Act>)
    ensures Conserved(pages, Run(Pool(Upto(pages), []), acts))
  {
    if |acts| > 0 {
      RunConserves(pages, acts[..|acts| - 1]);
      ActConserves(pages, Run(Pool(Upto(pages), []), acts[..|acts| - 1]), acts[|acts| - 1]);
    }
  }

  lemma {:induction false} UptoOnce(n: nat, x: nat)
    ensures multiset(Upto(n))[x] == if x < n then 1 else 0
  {
    if n > 0 {
      UptoOnce(n - 1, x);
      assert Upto(n) == Upto(n - 1) + [n - 1];
    }
  }

  lemma {:induction false} AtMostOnceIsDistinct(s: seq<nat>, i: nat, j: nat)
    requires i < j < |s| && multiset(s)[s[i]] <= 1
    ensures s[i] != s[j]
  {
    assert s == s[..j] + s[j..];
    assert s[i] in s[..j] && s[j] in s[j..];
    assert multiset(s) == multiset(s[..j]) + multiset(s[j..]);
  }

  /** In a conserved pool the free pages and every live table are distinct pages of the pool, and no
      page of one table is in another or free. */
  lemma {:induction false} NoPageIsShared(pages: nat, p: Pool, i: nat, j: nat)
    requires Conserved(pages, p) && i < |p.held| && j < |p.held| && i != j
    ensures forall x :: x in p.held[i] ==> x < pages && x !in p.held[j] && x !in p.free
    ensures forall a, b :: 0 <= a < b < |p.held[i]| ==> p.held[i][a] != p.held[i][b]
    ensures Ordered(p.free)
  {
    HeldSplit(p.held, i);
    var rest := p.held[..i] + p.held[i + 1..];
    var k := if j < i then j else j - 1;
    assert rest[k] == p.held[j];
    HeldSplit(rest, k);
    forall x | x in p.held[i] ensures x < pages && x !in p.held[j] && x !in p.free {
      UptoOnce(pages, x);
      assert x in multiset(p.held[i]);
    }
    forall a, b | 0 <= a < b < |p.held[i]| ensures p.held[i][a] != p.held[i][b] {
      UptoOnce(pages, p.held[i][a]);
      AtMostOnceIsDistinct(p.held[i], a, b);
    }
    forall a, b | 0 <= a < b < |p.free| ensures p.free[a] < p.free[b] {
      UptoOnce(pages, p.free[a]);
      AtMostOnceIsDistinct(p.free, a, b);
    }
  }

  // ---- the allocator ----

  function Resized(y: Paged, capacity: nat): Paged { y.(base := y.base.(capacity := capacity)) }

  /** When an allocation is granted: the request is in range, enough pages are free, and the tensor
      of that many pages fits a usize. */
  ghost predicate CanAllocate(y: Paged, free: nat, capacity: nat)
    requires y.Valid()
  {
    && 0 < capacity <= y.base.capacity && y.RequiredPages(capacity).Ok? && y.RequiredPages(capacity).value <= free
    && PagedTotal(Resized(y, capacity), y.RequiredPages(capacity).value) < LIMIT
  }

  ghost predicate Returnable(y: Paged, free: seq<nat>, pages: seq<nat>) {
    && (forall p :: p in pages ==> p < y.pages && p !in free)
    && forall i, j :: 0 <= i < j < |pages| ==> pages[i] != pages[j]
  }

  lemma {:induction false} RequiredIsOk(y: Paged, capacity: nat)
    requires y.Valid() && 0 < capacity <= y.base.capacity
    ensures y.RequiredPages(capacity).Ok? && y.RequiredPages(capacity).value > 0
    ensures y.RequiredPages(capacity) == Resized(y, capacity).RequiredPages(capacity)
    ensures y.RequiredPages(capacity).value <= y.pages ==>
              NewPaged(y.base.(capacity := capacity), y.page, y.pages) == Ok(Resized(y, capacity))
  {
    PagesCover(y, capacity);
    PagesCover(y, y.base.capacity);
  }

  lemma {:induction false} TableIsAccepted(y: Paged, free: seq<nat>, required: nat)
    requires y.Valid() && Ordered(free) && required <= |free| && y.RequiredPages(y.base.capacity) == Ok(required)
    requires forall p :: p in free ==> p < y.pages
    ensures Accepted(y, free[..required])
  {
    forall i | 0 <= i < required ensures free[..required][i] < y.pages { assert free[i] in free; }
  }

  /** Pages put back after a failed construction sort into the list they were taken from. */
  lemma {:induction false} PutBack(free: seq<nat>, n: nat)
    requires Ordered(free) && n <= |free|
    ensures Sort(free[n..] + free[..n]) == free
  {
    assert free == free[..n] + free[n..];
    SortSorts(free[n..] + free[..n]);
    SortedIsUnique(Sort(free[n..] + free[..n]), free);
  }

  lemma {:induction false} DistinctCounts(s: seq<nat>, x: nat)
    requires forall i, j :: 0 <= i < j < |s| ==> s[i] != s[j]
    ensures multiset(s)[x] == if x in s then 1 else 0
  {
    if |s| > 0 {
      var front := s[..|s| - 1];
      DistinctCounts(front, x);
      assert s == front + [s[|s| - 1]];
    }
  }

  lemma {:induction false} DistinctBelow(s: seq<nat>, n: nat)
    requires (forall i, j :: 0 <= i < j < |s| ==> s[i] < s[j]) && forall i :: 0 <= i < |s| ==> s[i] < n
    ensures |s| <= n
  {
    if |s| > 0 { DistinctBelow(s[..|s| - 1], s[|s| - 1]); }
  }

  lemma {:induction false} ReturnIsOrdered(y: Paged, free: seq<nat>, pages: seq<nat>)
    requires Ordered(free) && (forall p :: p in free ==> p < y.pages) && Returnable(y, free, pages)
    ensures Ordered(Sort(free + pages)) && |Sort(free + pages)| <= y.pages
    ensures forall p :: p in Sort(free + pages) ==> p < y.pages
  {
    var s := Sort(free + pages);
    SortSorts(free + pages);
    forall p | p in s ensures p < y.pages {
      assert p in multiset(s);
      assert p in free || p in pages;
    }
    forall i, j | 0 <= i < j < |s| ensures s[i] < s[j] {
      DistinctCounts(free, s[i]);
      DistinctCounts(pages, s[i]);
      assert multiset(s) == multiset(free) + multiset(pages);
      AtMostOnceIsDistinct(s, i, j);
    }
    forall i | 0 <= i < |s| ensures s[i] < y.pages { assert s[i] in s; }
    DistinctBelow(s, y.pages);
  }

  class PagedKvCacheAllocator<F> {
    const layout: Paged
    var free: seq<nat>

    ghost predicate Valid()
      reads this
    {
      layout.Valid() && layout.base.cpuF32 && Ordered(free) && |free| <= layout.pages && forall p :: p in free ==>
          p < layout.pages
    }

    constructor (layout: Paged)
      requires layout.Valid() && layout.base.cpuF32
      ensures Valid() && this.layout == layout && free == Upto(layout.pages)
    {
      this.layout := layout;
      free := Upto(layout.pages);
      new;
      forall p | p in free ensures p < layout.pages { assert exists i :: 0 <= i < |free| && free[i] == p; }
    }

    /** `free.pop_front()`, n times. */
    method TakePages(n: nat) returns (table: seq<nat>)
      requires n <= |free|
      modifies this`free
      ensures table == old(free)[..n] && free == old(free)[n..]
    {
      table := [];
      for k := 0 to n
        invariant free == old(free)[k..] && table == old(free)[..k]
      {
        table, free := table + [free[0]], free[1..];
      }
    }

    /** A cache of `capacity` tokens from the smallest free pages; a refusal leaves the pool as it was. */
    method Allocate(capacity: nat, zero: F) returns (r: Result<PagedKvCache<F>>)
      requires Valid()
      modifies this`free
      ensures Valid()
      ensures r.Ok? <==> CanAllocate(layout, |old(free)|, capacity)
      ensures r.Err? ==> free == old(free)
      ensures r.Ok? ==>
                && fresh(r.value) && r.value.Valid() && !r.value.released
                && r.value.layout == layout.(base := layout.base.(capacity := capacity))
                && r.value.View() == Zeroes(r.value.layout.base, zero)
                && Pool(free, [r.value.table]) == After(Pool(old(free), []), Take(layout.RequiredPages(capacity).value))
    {
      hide PagedTotal, TensorValues, Sorted;
      if capacity == 0 || capacity > layout.base.capacity { return Err; }
      RequiredIsOk(layout, capacity);
      var required := layout.RequiredPages(capacity).value;
      if required > |free| { return Err; }
      var table := TakePages(required);
      var sized := NewPaged(layout.base.(capacity := capacity), layout.page, layout.pages);
      if sized.Err? { return Err; }
      TableIsAccepted(sized.value, old(free), required);
      assert forall p :: p in free ==> p in old(free);
      PagesCover(sized.value, capacity);
      TensorValuesExact(sized.value, |table|);
      var values := TensorValues(sized.value, |table|);
      if values.Ok? {
        var cache := new PagedKvCache(sized.value, table, values.value, zero);
        r := Ok(cache);
      } else {
        PutBack(old(free), required);
        free := Sort(free + table);
        r := Err;
      }
    }

    /** The cache's pages go back in order, and the cache forgets its rows. */
    method Release(cache: PagedKvCache<F>)
      requires Valid() && cache.Valid()
      modifies this`free, cache
      ensures cache.Valid() && cache.View() == Store([], [], 0, true)
      ensures Pool(free, []) == After(Pool(old(free), [old(cache.table)]), Give(0))
      ensures Returnable(layout, old(free), old(cache.table)) ==> Valid()
    {
      hide PagedTotal, Accepted, Sort;
      var pages := cache.Release();
      ghost var before := free;
      free := Sort(free + pages);
      if Returnable(layout, before, pages) { ReturnIsOrdered(layout, before, pages); }
    }
  }
}
