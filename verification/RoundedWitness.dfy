/** Inputs on which rounding once and rounding twice part: two equal keys, then keys of no weight, and a
    second value half a step below a tie. */
module RoundedWitness {
  import opened Index
  import opened Arithmetic
  import opened Softmax
  import opened HeadAttention
  import opened Layout
  import opened LinearSpec
  import opened AvxAttention
  import opened Rounding

  /** An exponential that underflows below zero. */
  function Step(x: real): real { if x < 0.0 then 0.0 else 1.0 }

  function HalfOps(): Ops<real> { RoundOps(Halves, Step) }

  /** c in the first cell and nothing in the others. */
  function Spike(c: real, dim: nat): (x: seq<real>)
    ensures |x| == dim
  {
    seq(dim, d requires 0 <= d => if d == 0 then c else 0.0)
  }

  function Flat(c: real, dim: nat): (x: seq<real>)
    ensures |x| == dim
  {
    seq(dim, _ => c)
  }

  function KeyAt(j: nat): real { if j < 2 then 1.0 else 0.0 }

  function ValueAt(j: nat): real { if j == 0 then 1.0 else if j == 1 then 0.5 else 0.0 }

  function Keys(n: nat, dim: nat): (h: Head<real>)
    ensures h.Valid() && h.n == n && h.dim == dim
  {
    Head(seq(n, j requires 0 <= j => Spike(KeyAt(j), dim)), seq(n, j requires 0 <= j => Flat(ValueAt(j), dim)), n, dim)
  }

  // ---- scores ----

  lemma {:induction false} SpikeDot(c: real, dim: nat, n: nat)
    requires (c == 0.0 || c == 1.0) && n <= dim
    ensures DotFrom(HalfOps(), 0.0, Spike(1.0, dim), Spike(c, dim), n) == if n == 0 then 0.0 else c
  {
    hide Halves;
    HalvesAt();
    if n > 0 { SpikeDot(c, dim, n - 1); }
  }

  lemma {:induction false} TailDot(c: real, x: seq<real>, w: seq<real>, n: nat)
    requires (c == 0.0 || c == 1.0) && n <= |x| && n <= |w| && forall i :: 0 <= i < |x| ==> x[i] == 0.0
    ensures DotFrom(HalfOps(), c, x, w, n) == c
  {
    hide Halves;
    HalvesAt();
    if n > 0 {
      TailDot(c, x, w, n - 1);
      assert x[n - 1] * w[n - 1] == 0.0;
    }
  }

  lemma {:induction false} SpikeLanes(c: real, dim: nat, k: nat)
    requires (c == 0.0 || c == 1.0) && 8 <= k <= dim && k % 8 == 0
    ensures Lanes(HalfOps(), Spike(1.0, dim), Spike(c, dim), k) == [c, 0.0, 0.0, 0.0, 0.0, 0.0, 0.0, 0.0]
  {
    hide Halves;
    HalvesAt();
    if k > 8 { SpikeLanes(c, dim, k - 8); } else {
      assert Lanes(HalfOps(), Spike(1.0, dim), Spike(c, dim), 0) == [0.0, 0.0, 0.0, 0.0, 0.0, 0.0, 0.0, 0.0];
    }
  }

  lemma {:induction false} SpikeAvxDot(c: real, dim: nat)
    requires (c == 0.0 || c == 1.0) && 8 <= dim
    ensures AvxDot(HalfOps(), Spike(1.0, dim), Spike(c, dim)) == c
  {
    hide Halves, Lanes;
    var k := Simd(dim);
    SpikeLanes(c, dim, k);
    HalvesAt();
    assert HSum(HalfOps(), [c, 0.0, 0.0, 0.0, 0.0, 0.0, 0.0, 0.0]) == c;
    TailDot(c, Spike(1.0, dim)[k..], Spike(c, dim)[k..], dim - k);
  }

  /** Both modes score the keys alike: one, one, and zeros. */
  lemma {:induction false} ScoresAre(n: nat, dim: nat)
    requires 8 <= dim
    ensures Scores(HalfOps(), Spike(1.0, dim), Keys(n, dim), 1.0) == seq(n, j requires 0 <= j => KeyAt(j))
    ensures AvxScores(HalfOps(), Spike(1.0, dim), Keys(n, dim), 1.0) == seq(n, j requires 0 <= j => KeyAt(j))
  {
    hide Halves, AvxDot, DotFrom;
    var s := seq(n, j requires 0 <= j => KeyAt(j));
    forall j | 0 <= j < n
      ensures Scores(HalfOps(), Spike(1.0, dim), Keys(n, dim), 1.0)[j] == s[j]
      ensures AvxScores(HalfOps(), Spike(1.0, dim), Keys(n, dim), 1.0)[j] == s[j]
    {
      HalvesAt();
      SpikeDot(KeyAt(j), dim, dim);
      SpikeAvxDot(KeyAt(j), dim);
    }
  }

  // ---- weights ----

  function WeightAt(j: nat): real { if j < 2 then 0.5 else 0.0 }

  lemma {:induction false} GreatestKey(s: seq<real>, n: nat)
    requires 0 < n <= |s| && forall j :: 0 <= j < |s| ==> s[j] == KeyAt(j)
    ensures MaxTo(HalfOps(), s, n) == 1.0
  {
    if n > 1 { GreatestKey(s, n - 1); }
  }

  lemma {:induction false} KeySum(s: seq<real>, n: nat)
    requires n <= |s| && forall j :: 0 <= j < |s| ==> s[j] == KeyAt(j)
    ensures SumTo(HalfOps(), s, n) == if n <= 2 then n as real else 2.0
  {
    hide Halves;
    HalvesAt();
    if n > 0 { KeySum(s, n - 1); }
  }

  /** Two keys share the weight. */
  lemma {:induction false} WeightsAre(s: seq<real>, n: nat)
    requires 2 <= n == |s| && forall j :: 0 <= j < n ==> s[j] == KeyAt(j)
    ensures forall j :: 0 <= j < n ==> SoftmaxOf(HalfOps(), s)[j] == WeightAt(j)
  {
    hide Halves, MaxTo, SumTo;
    HalvesAt();
    GreatestKey(s, n);
    var e := Shifted(HalfOps(), s, 1.0);
    forall j | 0 <= j < n ensures e[j] == KeyAt(j) {}
    KeySum(e, n);
    assert HalfOps().div(1.0, 2.0) == 0.5;
  }

  // ---- values ----

  /** The product of the second weight and value is a quarter: alone it is rounded away, added to one half
      first it is rounded up. */
  lemma {:induction false} FoldsPart(p: seq<real>, n: nat, dim: nat, d: nat, m: nat)
    requires |p| == n && d < dim && m <= n && forall j :: 0 <= j < n ==> p[j] == WeightAt(j)
    ensures WeightedTo(HalfOps(), p, Keys(n, dim).v, dim, d, m) == if m == 0 then 0.0 else 0.5
    ensures FusedTo(HalfOps(), p, Keys(n, dim).v, dim, d, m) == if m == 0 then 0.0 else if m == 1 then 0.5 else 1.0
  {
    hide Halves;
    HalvesAt();
    if m > 0 {
      FoldsPart(p, n, dim, d, m - 1);
      assert Keys(n, dim).v[m - 1][d] == ValueAt(m - 1);
    }
  }

  lemma {:induction false} HeadsPart(n: nat, dim: nat)
    requires 2 <= n && 8 <= dim
    ensures HeadValue(HalfOps(), Avx2, Spike(1.0, dim), Keys(n, dim), 1.0)[0] == 1.0
    ensures TwoPass(HalfOps(), Spike(1.0, dim), Keys(n, dim), 1.0)[0] == 0.5
  {
    hide Halves, Scores, AvxScores, SoftmaxOf, WeightedTo, FusedTo, HalfOps, Keys;
    ScoresAre(n, dim);
    var s := seq(n, j requires 0 <= j => KeyAt(j));
    WeightsAre(s, n);
    FoldsPart(SoftmaxOf(HalfOps(), s), n, dim, 0, n);
  }

  // ---- tensors ----

  /** Row r holds the same at every head: `value(r, d)` in cell d. */
  function Filled(rows: nat, heads: nat, dim: nat, value: (nat, nat) -> real): (t: seq<real>)
    requires 0 < heads && 0 < dim
    ensures Tensor(t, rows, heads, dim)
  {
    seq(Times(Times(rows, heads), dim), c requires 0 <= c => value(Quot(Quot(c, dim), heads), Rem(c, dim)))
  }

  lemma {:induction false} FilledAt(rows: nat, heads: nat, dim: nat, value: (nat, nat) -> real, c: nat)
    requires 0 < heads && 0 < dim && c < Times(Times(rows, heads), dim)
    ensures Filled(rows, heads, dim, value)[c] == value(Quot(Quot(c, dim), heads), Rem(c, dim))
  {}

  lemma {:induction false} FilledRow(rows: nat, heads: nat, dim: nat, value: (nat, nat) -> real, h: nat, r: nat, d: nat)
    requires h < heads && r < rows && d < dim
    ensures HeadRow(Filled(rows, heads, dim, value), rows, heads, dim, h, r)[d] == value(r, d)
  {
    hide Times, Quot, Rem;
    RowBaseIs(rows, heads, dim, h, r);
    QuotJoin(Times(r, heads) + h, d, dim);
    QuotJoin(r, h, heads);
  }

  function QueryCell(r: nat, d: nat): real { if d == 0 then 1.0 else 0.0 }

  function KeyCell(r: nat, d: nat): real { if d == 0 then KeyAt(r) else 0.0 }

  function ValueCell(r: nat, d: nat): real { ValueAt(r) }

  function Queries(rows: nat, heads: nat, dim: nat): (t: seq<real>)
    requires 0 < heads && 0 < dim
    ensures Tensor(t, rows, heads, dim)
  {
    Filled(rows, heads, dim, QueryCell)
  }

  function KeyRows(rows: nat, heads: nat, dim: nat): (t: seq<real>)
    requires 0 < heads && 0 < dim
    ensures Tensor(t, rows, heads, dim)
  {
    Filled(rows, heads, dim, KeyCell)
  }

  function ValueRows(rows: nat, heads: nat, dim: nat): (t: seq<real>)
    requires 0 < heads && 0 < dim
    ensures Tensor(t, rows, heads, dim)
  {
    Filled(rows, heads, dim, ValueCell)
  }

  lemma {:induction false} QueryRow(rows: nat, heads: nat, dim: nat, h: nat, r: nat)
    requires h < heads && r < rows && 0 < dim
    ensures HeadRow(Queries(rows, heads, dim), rows, heads, dim, h, r) == Spike(1.0, dim)
  {
    hide HeadRow, Filled, Times;
    forall d | 0 <= d < dim
      ensures HeadRow(Queries(rows, heads, dim), rows, heads, dim, h, r)[d] == Spike(1.0, dim)[d]
    {
      FilledRow(rows, heads, dim, QueryCell, h, r, d);
    }
  }

  /** Every head of the first n rows is the head above. */
  lemma {:induction false} SeenKeys(rows: nat, heads: nat, dim: nat, h: nat, n: nat)
    requires h < heads && n <= rows && 0 < dim
    ensures HeadOf(KeyRows(rows, heads, dim), ValueRows(rows, heads, dim), rows, heads, dim, h, 0, n) == Keys(n, dim)
  {
    hide HeadRow, Filled, Times;
    var k, v := KeyRows(rows, heads, dim), ValueRows(rows, heads, dim);
    var g := HeadOf(k, v, rows, heads, dim, h, 0, n);
    forall j | 0 <= j < n ensures g.k[j] == Keys(n, dim).k[j] && g.v[j] == Keys(n, dim).v[j] {
      forall d | 0 <= d < dim ensures g.k[j][d] == Spike(KeyAt(j), dim)[d] && g.v[j][d] == Flat(ValueAt(j), dim)[d] {
        FilledRow(rows, heads, dim, KeyCell, h, j, d);
        FilledRow(rows, heads, dim, ValueCell, h, j, d);
      }
      assert g.k[j] == Spike(KeyAt(j), dim) && g.v[j] == Flat(ValueAt(j), dim);
    }
    assert g.k == Keys(n, dim).k && g.v == Keys(n, dim).v;
  }
}
