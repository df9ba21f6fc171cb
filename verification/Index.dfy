/** Products and quotients of index variables. They are defined by recursion, so that the solver
    meets them as plain recurrences; the lemmas tie them to `*`, `/` and `%`. */
module Index {

  function Times(a: nat, b: nat): nat {
    if a == 0 then 0 else Times(a - 1, b) + b
  }

  lemma {:induction false} TimesZero(b: nat)
    ensures Times(0, b) == 0
  {}

  lemma {:induction false} TimesNext(a: nat, b: nat)
    ensures Times(a + 1, b) == Times(a, b) + b
  {}

  lemma {:induction false} TimesOne(b: nat)
    ensures Times(1, b) == b
  {}

  function Quot(p: nat, n: nat): nat
    requires 0 < n
  {
    if p < n then 0 else Quot(p - n, n) + 1
  }

  function Rem(p: nat, n: nat): nat
    requires 0 < n
  {
    if p < n then p else Rem(p - n, n)
  }

  /** `div_ceil` */
  function DivCeil(a: nat, b: nat): nat
    requires 0 < b
  {
    Quot(a + b - 1, b)
  }

  lemma {:induction false} TimesIsProduct(a: nat, b: nat)
    ensures Times(a, b) == a * b
  {
    if a > 0 {
      TimesIsProduct(a - 1, b);
      assert (a - 1) * b + b == a * b;
    }
  }

  lemma {:induction false} QuotRem(p: nat, n: nat)
    requires 0 < n
    ensures p == Times(Quot(p, n), n) + Rem(p, n) && Rem(p, n) < n
  {
    if p >= n { QuotRem(p - n, n); }
  }

  /** `p / n` and `p % n` are the quotient and remainder every kernel takes. */
  lemma {:induction false} QuotIsDivision(p: nat, n: nat)
    requires 0 < n
    ensures Quot(p, n) == p / n && Rem(p, n) == p % n
  {
    hide Quot, Rem, Times;
    QuotRem(p, n);
    TimesIsProduct(Quot(p, n), n);
    Euclid(p, n);
    SameQuotient(n, Quot(p, n), Rem(p, n), p / n, p % n);
  }

  lemma {:induction false} Euclid(p: nat, n: nat)
    requires 0 < n
    ensures p == p / n * n + p % n && p % n < n
  {}

  lemma {:induction false} SameQuotient(n: nat, q: int, r: nat, q': int, r': nat)
    requires r < n && r' < n && q * n + r == q' * n + r'
    ensures q == q' && r == r'
  {
    MultipleGap(n, q - q');
    Spread(q, q', n);
  }

  lemma {:induction false} Spread(a: int, b: int, n: int)
    ensures (a - b) * n == a * n - b * n
  {}

  lemma {:induction false} MultipleGap(n: nat, e: int)
    ensures e > 0 ==> e * n >= n
    ensures e < 0 ==> 0 - e * n >= n
    ensures e == 0 ==> e * n == 0
  {
  }

  lemma {:induction false} TimesMonotone(a: nat, a': nat, b: nat)
    requires a <= a'
    ensures Times(a, b) <= Times(a', b)
  {
    if a < a' { TimesMonotone(a, a' - 1, b); }
  }

  /** Slot t of `total` slots of `size` lies inside them. */
  lemma {:induction false} SlotBound(t: nat, total: nat, size: nat)
    requires t < total
    ensures Times(t, size) + size <= Times(total, size)
  {
    TimesMonotone(t + 1, total, size);
  }

  lemma {:induction false} TimesPositive(a: nat, b: nat)
    requires 0 < a && 0 < b
    ensures 0 < Times(a, b)
  {
    TimesMonotone(1, a, b);
  }

  /** Distinct slots do not overlap. */
  lemma {:induction false} SlotsApart(t: nat, u: nat, size: nat)
    requires t != u
    ensures Times(t, size) + size <= Times(u, size) || Times(u, size) + size <= Times(t, size)
  {
    if t < u { SlotBound(t, u, size); } else { SlotBound(u, t, size); }
  }

  lemma {:induction false} TimesAdd(a: nat, c: nat, b: nat)
    ensures Times(a + c, b) == Times(a, b) + Times(c, b)
  {
    if c > 0 {
      TimesAdd(a, c - 1, b);
      assert a + c - 1 == a + (c - 1);
    }
  }

  /** `a * (b * c) == (a * b) * c` */
  lemma {:induction false} TimesAssoc(a: nat, b: nat, c: nat)
    ensures Times(a, Times(b, c)) == Times(Times(a, b), c)
  {
    if a > 0 {
      TimesAssoc(a - 1, b, c);
      TimesAdd(Times(a - 1, b), b, c);
    }
  }

  lemma {:induction false} TimesComm(a: nat, b: nat)
    ensures Times(a, b) == Times(b, a)
  {
    TimesIsProduct(a, b);
    TimesIsProduct(b, a);
  }

  /** The position of (row, head) among rows * heads, and back. */
  lemma {:induction false} QuotJoin(r: nat, h: nat, n: nat)
    requires h < n
    ensures Quot(Times(r, n) + h, n) == r && Rem(Times(r, n) + h, n) == h
  {
    if r > 0 { QuotJoin(r - 1, h, n); }
  }

  lemma {:induction false} QuotBound(p: nat, rows: nat, n: nat)
    requires p < Times(rows, n)
    ensures 0 < n && Quot(p, n) < rows && Rem(p, n) < n && Times(Quot(p, n), n) + Rem(p, n) == p
  {
    if n == 0 { TimesIsProduct(rows, n); }
    QuotRem(p, n);
    if rows <= Quot(p, n) { TimesMonotone(rows, Quot(p, n), n); }
  }

  lemma {:induction false} PosApart(r: nat, h: nat, r': nat, h': nat, heads: nat)
    requires h < heads && h' < heads && (r != r' || h != h')
    ensures Times(r, heads) + h != Times(r', heads) + h'
  {
    QuotJoin(r, h, heads);
    QuotJoin(r', h', heads);
  }

  /** A window of a window of a sequence. */
  lemma {:induction false} SliceOfSlice<F>(s: seq<F>, at: nat, width: nat, x: nat, n: nat)
    requires at + width <= |s| && x + n <= width
    ensures s[at..at + width][x..x + n] == s[at + x..at + x + n]
  {
    var a, b := s[at..at + width][x..x + n], s[at + x..at + x + n];
    assert |a| == |b| && forall i :: 0 <= i < n ==> a[i] == b[i];
  }
}
