/** The flat `[rows, heads, dim]` layout: head h of row r is block r * heads + h of `dim` cells. */
module Layout {
  import opened Index
  import opened HeadAttention

  ghost predicate Tensor<F>(s: seq<F>, rows: nat, heads: nat, dim: nat) {
    |s| == Times(Times(rows, heads), dim)
  }

  function Block<F>(s: seq<F>, t: nat, dim: nat): (b: seq<F>)
    requires Times(t, dim) + dim <= |s|
    ensures |b| == dim
  {
    s[Times(t, dim)..Times(t, dim) + dim]
  }

  lemma {:induction false} BlockAt<F>(s: seq<F>, t: nat, dim: nat, d: nat)
    requires Times(t, dim) + dim <= |s| && d < dim
    ensures Block(s, t, dim)[d] == s[Times(t, dim) + d]
  {}

  /** The offset every kernel computes: `row * (heads * dim) + head * dim`. */
  function RowBase(heads: nat, dim: nat, h: nat, r: nat): nat {
    Times(r, Times(heads, dim)) + Times(h, dim)
  }

  lemma {:induction false} RowBaseIs(rows: nat, heads: nat, dim: nat, h: nat, r: nat)
    requires h < heads && r < rows
    ensures Times(r, heads) + h < Times(rows, heads)
    ensures RowBase(heads, dim, h, r) == Times(Times(r, heads) + h, dim)
    ensures RowBase(heads, dim, h, r) + dim <= Times(Times(rows, heads), dim)
  {
    SlotBound(r, rows, heads);
    SlotBound(Times(r, heads) + h, Times(rows, heads), dim);
    TimesAssoc(r, heads, dim);
    TimesAdd(Times(r, heads), h, dim);
  }

  /** Head `h` of row `r`. */
  function HeadRow<F>(s: seq<F>, rows: nat, heads: nat, dim: nat, h: nat, r: nat): (b: seq<F>)
    requires Tensor(s, rows, heads, dim) && h < heads && r < rows
    ensures |b| == dim
    ensures RowBase(heads, dim, h, r) + dim <= |s|
    ensures b == s[RowBase(heads, dim, h, r)..RowBase(heads, dim, h, r) + dim]
  {
    RowBaseIs(rows, heads, dim, h, r);
    Block(s, Times(r, heads) + h, dim)
  }

  function HeadRows<F>(s: seq<F>, rows: nat, heads: nat, dim: nat, h: nat, first: nat, n: nat): (m: seq<seq<F>>)
    requires Tensor(s, rows, heads, dim) && h < heads && first + n <= rows
    ensures Matrix(m, n, dim) && forall j :: 0 <= j < n ==> m[j] == HeadRow(s, rows, heads, dim, h, first + j)
  {
    var m := seq(n, j requires 0 <= j < n => HeadRow(s, rows, heads, dim, h, first + j));
    assert forall j :: 0 <= j < n ==> m[j] == HeadRow(s, rows, heads, dim, h, first + j);
    m
  }

  /** Rows first .. first + n of head `h`. */
  function HeadOf<F>(k: seq<F>, v: seq<F>, rows: nat, heads: nat, dim: nat, h: nat, first: nat, n: nat): (r: Head<F>)
    requires Tensor(k, rows, heads, dim) && Tensor(v, rows, heads, dim) && h < heads && first + n <= rows
    ensures r.Valid() && r.n == n && r.dim == dim
  {
    Head(HeadRows(k, rows, heads, dim, h, first, n), HeadRows(v, rows, heads, dim, h, first, n), n, dim)
  }

  lemma {:induction false} HeadOfRow<F>(k: seq<F>, v: seq<F>, rows: nat, heads: nat, dim: nat, h: nat, first: nat,
                                        n: nat, j: nat)
    requires Tensor(k, rows, heads, dim) && Tensor(v, rows, heads, dim) && h < heads && first + n <= rows && j < n
    ensures var base := RowBase(heads, dim, h, first + j);
            var g := HeadOf(k, v, rows, heads, dim, h, first, n);
            base + dim <= |k| && base + dim <= |v| && g.k[j] == k[base..base + dim] && g.v[j] == v[base..base + dim]
  {
    assert HeadRows(k, rows, heads, dim, h, first, n)[j] == HeadRow(k, rows, heads, dim, h, first + j);
    assert HeadRows(v, rows, heads, dim, h, first, n)[j] == HeadRow(v, rows, heads, dim, h, first + j);
  }

  /** Block `t` of `out` is `want`. */
  ghost predicate BlockIs<F>(out: seq<F>, t: nat, dim: nat, want: seq<F>) {
    Times(t, dim) + dim <= |out| && Block(out, t, dim) == want
  }

  ghost predicate SameOutside<F>(a: seq<F>, b: seq<F>, at: nat, len: nat) {
    |a| == |b| && forall i :: 0 <= i < |a| && !(at <= i < at + len) ==> a[i] == b[i]
  }

  lemma {:induction false} SameOutsideSelf<F>(s: seq<F>, at: nat, len: nat)
    ensures SameOutside(s, s, at, len)
  {}

  /** A write inside a window that was already being written. */
  lemma {:induction false} SameOutsideWithin<F>(was: seq<F>, a: seq<F>, b: seq<F>, base: nat, width: nat, at: nat,
                                                len: nat)
    requires SameOutside(a, was, base, width) && SameOutside(b, a, base + at, len) && at + len <= width
    ensures SameOutside(b, was, base, width)
  {}

  /** `dst[db..db + n].copy_from_slice(&src[sb..sb + n])` */
  method CopyWindow<F>(src: seq<F>, sb: nat, dst: array<F>, db: nat, n: nat)
    requires sb + n <= |src| && db + n <= dst.Length
    modifies dst
    ensures dst[db..db + n] == src[sb..sb + n]
    ensures SameOutside(dst[..], old(dst[..]), db, n)
  {
    for d := 0 to n
      invariant forall i :: db <= i < db + d ==> dst[i] == src[sb + (i - db)]
      invariant forall i :: 0 <= i < dst.Length && !(db <= i < db + d) ==> dst[i] == old(dst[i])
    {
      dst[db + d] := src[sb + d];
    }
  }

  lemma {:induction false} BlockKept<F>(a: seq<F>, b: seq<F>, t: nat, u: nat, dim: nat, want: seq<F>)
    requires t != u && SameOutside(b, a, Times(u, dim), dim) && BlockIs(a, t, dim, want)
    ensures BlockIs(b, t, dim, want)
  {
    SlotsApart(t, u, dim);
    assert Block(b, t, dim) == Block(a, t, dim);
  }

  /** From `a` to `b`, exactly blocks lo .. hi were written, with the blocks of `want`. */
  ghost predicate Wrote<F>(a: seq<F>, b: seq<F>, want: seq<seq<F>>, dim: nat, lo: nat, hi: nat) {
    && |a| == |b|
    && hi <= |want|
    && (forall p :: lo <= p < hi ==> BlockIs(b, p, dim, want[p]))
    && (forall i :: 0 <= i < |a| && !(Times(lo, dim) <= i < Times(hi, dim)) ==> b[i] == a[i])
  }

  lemma {:induction false} WroteNothing<F>(s: seq<F>, want: seq<seq<F>>, dim: nat, lo: nat)
    requires lo <= |want|
    ensures Wrote(s, s, want, dim, lo, lo)
  {}

  lemma {:induction false} WroteMore<F>(a: seq<F>, b: seq<F>, c: seq<F>, want: seq<seq<F>>, dim: nat, lo: nat, p: nat)
    requires lo <= p < |want| && Wrote(a, b, want, dim, lo, p)
    requires SameOutside(c, b, Times(p, dim), dim) && BlockIs(c, p, dim, want[p])
    ensures Wrote(a, c, want, dim, lo, p + 1)
  {
    forall t | lo <= t < p ensures BlockIs(c, t, dim, want[t]) {
      BlockKept(b, c, t, p, dim, want[t]);
    }
    TimesMonotone(lo, p, dim);
  }

  /** A tensor is its blocks. */
  lemma {:induction false} SameBlocks<F>(a: seq<F>, b: seq<F>, want: seq<seq<F>>, dim: nat)
    requires |a| == |b| == Times(|want|, dim)
    requires forall t :: 0 <= t < |want| ==> BlockIs(a, t, dim, want[t]) && BlockIs(b, t, dim, want[t])
    ensures a == b
  {
    forall i | 0 <= i < |a| ensures a[i] == b[i] {
      QuotBound(i, |want|, dim);
      var t, d := Quot(i, dim), Rem(i, dim);
      assert BlockIs(a, t, dim, want[t]) && BlockIs(b, t, dim, want[t]);
      assert a[i] == Block(a, t, dim)[d] == want[t][d] == Block(b, t, dim)[d] == b[i];
    }
  }
}
