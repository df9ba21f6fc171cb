/** What the attention bodies mean, in flat offsets and plain sums: which rows and heads are read, and that
    an output cell is their softmax average. */
module AttentionMeaning {
  import opened Index
  import opened Arithmetic
  import opened Softmax
  import opened HeadAttention
  import opened FlashExact
  import opened Layout
  import opened AvxAttention
  import opened AttentionShape
  import opened AttentionForms
  import opened AttentionTheorems
  import opened Sums

  // ---- sliding windows ----

  /** Rows a .. a + m of a tensor. */
  function RowsOf<F>(x: seq<F>, rows: nat, heads: nat, dim: nat, a: nat, m: nat): (y: seq<F>)
    requires Tensor(x, rows, heads, dim) && a + m <= rows
    ensures Tensor(y, m, heads, dim)
  {
    var state := Times(heads, dim);
    TimesAssoc(rows, heads, dim);
    TimesAssoc(m, heads, dim);
    TimesAdd(a, m, state);
    TimesMonotone(a + m, rows, state);
    x[Times(a, state)..Times(a, state) + Times(m, state)]
  }

  lemma {:induction false} HeadRowOfRows<F>(x: seq<F>, rows: nat, heads: nat, dim: nat, a: nat, m: nat, h: nat, r: nat)
    requires Tensor(x, rows, heads, dim) && a + m <= rows && h < heads && r < m
    ensures HeadRow(RowsOf(x, rows, heads, dim, a, m), m, heads, dim, h, r) == HeadRow(x, rows, heads, dim, h, a + r)
  {
    hide Times;
    var state := Times(heads, dim);
    var y := RowsOf(x, rows, heads, dim, a, m);
    TimesAssoc(rows, heads, dim);
    TimesAssoc(m, heads, dim);
    TimesAdd(a, m, state);
    TimesAdd(a, r, state);
    TimesMonotone(a + m, rows, state);
    RowBaseIs(m, heads, dim, h, r);
    SliceOfSlice(x, Times(a, state), Times(m, state), RowBase(heads, dim, h, r), dim);
  }

  /** The m rows that row r of a window of w sees, as a causal problem of their own. */
  function Alone(s: Shape, m: nat): Shape { s.(qRows := m, kvRows := m, mask := Causal) }

  /** A windowed row is the last row of causal attention over the rows r + 1 - m ..= r alone, where m is the
      window, or all there is when the window is longer. */
  lemma {:induction false} WindowIsLastCausalRow<F>(ops: Ops<F>, scale: F, s: Shape, w: nat, q: seq<F>, k: seq<F>,
                                                    v: seq<F>, r: nat, h: nat)
    requires s.mask == Window(w) && 0 < w && s.Valid() && s.Fits(q, k, v) && r < s.qRows && h < s.qHeads
    ensures var m := if w <= r then w else r + 1;
            var a := r + 1 - m;
            && r < s.kvRows && Alone(s, m).Valid()
            && ModeRow(ops, Scalar, s, q, k, v, scale, r, h)
               == ModeRow(ops, Scalar, Alone(s, m), RowsOf(q, s.qRows, s.qHeads, s.dim, a, m),
                          RowsOf(k, s.kvRows, s.kvHeads, s.dim, a, m), RowsOf(v, s.kvRows, s.kvHeads, s.dim, a, m),
                          scale, m - 1, h)
  {
    hide HeadRow, VisibleRow, RowsOf, ModeRow, Times;
    var m := if w <= r then w else r + 1;
    var a := r + 1 - m;
    assert s.InRange(r);
    var one := Alone(s, m);
    assert forall x :: 0 <= x < m ==> one.InRange(x);
    HeadRowOfRows(q, s.qRows, s.qHeads, s.dim, a, m, h, m - 1);
    SameRows(s, k, r, h, one, a, m);
    SameRows(s, v, r, h, one, a, m);
    OutputIsLocal(ops, scale, s, q, k, v, r, h, one, RowsOf(q, s.qRows, s.qHeads, s.dim, a, m),
                  RowsOf(k, s.kvRows, s.kvHeads, s.dim, a, m), RowsOf(v, s.kvRows, s.kvHeads, s.dim, a, m), m - 1, h);
  }

  lemma {:induction false} SameRows<F>(s: Shape, k: seq<F>, r: nat, h: nat, one: Shape, a: nat, m: nat)
    requires s.mask.Window? && s.Valid() && r < s.qRows && h < s.qHeads && Tensor(k, s.kvRows, s.kvHeads, s.dim)
    requires 0 < m && a + m == r + 1 <= s.kvRows && one == Alone(s, m) && one.Valid()
    requires s.First(r) == a && s.Count(r) == m
    ensures SameWindow(s, k, r, h, one, RowsOf(k, s.kvRows, s.kvHeads, s.dim, a, m), m - 1, h)
  {
    hide HeadRow, RowsOf, Times;
    KvHeadBound(s, h);
    forall j | 0 <= j < m
      ensures VisibleRow(s, k, r, h, j)
           == VisibleRow(one, RowsOf(k, s.kvRows, s.kvHeads, s.dim, a, m), m - 1, h, j)
    {
      HeadRowOfRows(k, s.kvRows, s.kvHeads, s.dim, a, m, s.KvHead(h), j);
    }
  }

  // ---- expanded heads ----

  /** Expansion copies head g to the n heads from g * n on, and that determines it. */
  lemma {:induction false} ExpandedIff<F>(s: Shape, k: seq<F>, big: seq<F>, n: nat)
    requires s.Valid() && Tensor(k, s.kvRows, s.kvHeads, s.dim) && Times(s.kvHeads, n) == s.qHeads
    requires Tensor(big, s.kvRows, s.qHeads, s.dim)
    ensures Expanded(s, k, big) <==> Grouped(s, k, big, n)
  {
    hide HeadRow, Times, Quot, Rem;
    if Expanded(s, k, big) { ExpandedIsGrouped(s, k, big, n); }
    if Grouped(s, k, big, n) {
      forall r, h | 0 <= r < s.kvRows && 0 <= h < s.qHeads ensures ExpandedAt(s, k, big, r, h) {
        QuotBound(h, s.kvHeads, n);
        GroupReads(s, n, Quot(h, n), Rem(h, n));
        assert GroupedAt(s, k, big, n, r, Quot(h, n), Rem(h, n));
      }
    }
  }

  // ---- softmax averages ----

  /** The normalised weights sum to one, so what they average is an average under any shift of the scores. */
  lemma {:induction false} TwoPassAverage(exp: real -> real, q: seq<real>, h: Head<real>, scale: real, d: nat)
    requires ExpLaws(exp) && h.Valid() && |q| == h.dim && d < h.dim && 0 < h.n
    ensures var s := Scores(RealOps(exp), q, h, scale);
            && Mass(exp, s, 0.0, Ones(h.n), h.n) > 0.0
            && TwoPass(RealOps(exp), q, h, scale)[d] * Mass(exp, s, 0.0, Ones(h.n), h.n)
               == Mass(exp, s, 0.0, Column(h.v, h.dim, d), h.n)
  {
    hide Mass, MaxTo, SoftmaxOf, WeightedTo, Scores, RealOps, FlashExact.Weights;
    var s := Scores(RealOps(exp), q, h, scale);
    var m := MaxTo(RealOps(exp), s, h.n);
    var l, t := Mass(exp, s, m, Ones(h.n), h.n), Mass(exp, s, m, Column(h.v, h.dim, d), h.n);
    SoftmaxWeights(exp, s, m, l);
    WeightedIsMass(exp, s, m, 1.0 / l, SoftmaxOf(RealOps(exp), s), h.v, h.dim, d, h.n);
    MassRescales(exp, s, m, 0.0, Ones(h.n), h.n);
    MassRescales(exp, s, m, 0.0, Column(h.v, h.dim, d), h.n);
    MassPositive(exp, s, 0.0, h.n);
    Unshift(t, l, exp(m - 0.0));
  }

  lemma {:induction false} Unshift(t: real, l: real, e: real)
    requires l > 0.0
    ensures (t * (1.0 / l)) * (l * e) == t * e
  {
    assert (1.0 / l) * l == 1.0;
    assert (t * (1.0 / l)) * (l * e) == t * ((1.0 / l) * l) * e;
  }

  lemma {:induction false} MassIsSum(exp: real -> real, s: seq<real>, x: seq<real>, n: nat, f: nat -> real)
    requires n <= |s| && n <= |x| && forall j :: 0 <= j < n ==> f(j) == exp(s[j]) * x[j]
    ensures Mass(exp, s, 0.0, x, n) == Sum(n, f)
  {
    if n > 0 {
      MassIsSum(exp, s, x, n - 1, f);
      assert s[n - 1] - 0.0 == s[n - 1];
    }
  }

  /** Cell (r, h, d) of a `[rows, heads, dim]` buffer. */
  function At(heads: nat, dim: nat, r: nat, h: nat, d: nat): int { (r * heads + h) * dim + d }

  lemma {:induction false} HeadRowAt(x: seq<real>, rows: nat, heads: nat, dim: nat, h: nat, r: nat, d: nat)
    requires Tensor(x, rows, heads, dim) && h < heads && r < rows && d < dim
    ensures HeadRow(x, rows, heads, dim, h, r)[d] == Cell(x, At(heads, dim, r, h, d))
  {
    hide Times;
    RowBaseIs(rows, heads, dim, h, r);
    TimesIsProduct(r, heads);
    TimesIsProduct(Times(r, heads) + h, dim);
  }

  /** The score of row j: the scaled product of query head h of row r with key head g of row j. */
  ghost function ScoreOf(s: Shape, q: seq<real>, k: seq<real>, scale: real, r: nat, h: nat, g: nat, j: nat): real {
    Sum(s.dim, (e: nat) => Cell(q, At(s.qHeads, s.dim, r, h, e)) * Cell(k, At(s.kvHeads, s.dim, j, g, e))) * scale
  }

  /** The weights of the rows: exponentials of the scores, and nothing behind the mask. */
  ghost function WeightsOf(exp: real -> real, s: Shape, q: seq<real>, k: seq<real>, scale: real, r: nat, h: nat,
                           g: nat): nat -> real
  {
    (j: nat) => if Visible(s.mask, r, j) then exp(ScoreOf(s, q, k, scale, r, h, g, j)) else 0.0
  }

  /** Cell d of value head g of every row, weighted. */
  ghost function TermsOf(w: nat -> real, s: Shape, v: seq<real>, g: nat, d: nat): nat -> real {
    (j: nat) => w(j) * Cell(v, At(s.kvHeads, s.dim, j, g, d))
  }

  lemma {:induction false} ScoreIs(exp: real -> real, s: Shape, q: seq<real>, k: seq<real>, v: seq<real>, scale: real,
                                   r: nat, h: nat, j: nat)
    requires s.Valid() && s.Fits(q, k, v) && r < s.qRows && h < s.qHeads && j < s.Count(r)
    ensures Scores(RealOps(exp), HeadRow(q, s.qRows, s.qHeads, s.dim, h, r), Seen(s, k, v, r, h), scale)[j]
         == ScoreOf(s, q, k, scale, r, h, s.KvHead(h), s.First(r) + j)
  {
    hide HeadRow, RealOps, Score, ScoreOf, Times, Shape.KvHead, Shape.First, Shape.Count;
    KvHeadBound(s, h);
    assert s.InRange(r);
    RowScore(exp, s, q, k, scale, r, h, s.KvHead(h), s.First(r) + j);
  }

  lemma {:induction false} RowScore(exp: real -> real, s: Shape, q: seq<real>, k: seq<real>, scale: real, r: nat,
                                    h: nat, g: nat, j: nat)
    requires Tensor(q, s.qRows, s.qHeads, s.dim) && Tensor(k, s.kvRows, s.kvHeads, s.dim)
    requires r < s.qRows && h < s.qHeads && j < s.kvRows && g < s.kvHeads
    ensures Score(RealOps(exp), HeadRow(q, s.qRows, s.qHeads, s.dim, h, r),
                  HeadRow(k, s.kvRows, s.kvHeads, s.dim, g, j), scale)
         == ScoreOf(s, q, k, scale, r, h, g, j)
  {
    hide HeadRow, RealOps, Score, DotFrom, At, Times;
    var x, y := HeadRow(q, s.qRows, s.qHeads, s.dim, h, r), HeadRow(k, s.kvRows, s.kvHeads, s.dim, g, j);
    var f := (e: nat) => Cell(q, At(s.qHeads, s.dim, r, h, e)) * Cell(k, At(s.kvHeads, s.dim, j, g, e));
    forall e | 0 <= e < s.dim ensures f(e) == x[e] * y[e] {
      HeadRowAt(q, s.qRows, s.qHeads, s.dim, h, r, e);
      HeadRowAt(k, s.kvRows, s.kvHeads, s.dim, g, j, e);
    }
    PlainIsSum(x, y, s.dim, f);
    DotIsPlain(exp, 0.0, x, y, s.dim);
    ScoreReal(exp, x, y, scale);
  }

  lemma {:induction false} ScoreReal(exp: real -> real, x: seq<real>, y: seq<real>, scale: real)
    requires |x| == |y|
    ensures Score(RealOps(exp), x, y, scale) == DotFrom(RealOps(exp), 0.0, x, y, |x|) * scale
  {}

  lemma {:induction false} TermIs(exp: real -> real, s: Shape, q: seq<real>, k: seq<real>, v: seq<real>, scale: real,
                                  r: nat, h: nat, d: nat, j: nat)
    requires s.Valid() && s.Fits(q, k, v) && r < s.qRows && h < s.qHeads && d < s.dim && j < s.Count(r)
    ensures var g := Seen(s, k, v, r, h);
            var sc := Scores(RealOps(exp), HeadRow(q, s.qRows, s.qHeads, s.dim, h, r), g, scale);
            && WeightsOf(exp, s, q, k, scale, r, h, s.KvHead(h))(s.First(r) + j) == exp(sc[j])
            && Cell(v, At(s.kvHeads, s.dim, s.First(r) + j, s.KvHead(h), d)) == g.v[j][d]
  {
    hide Scores, HeadRow, RealOps, At, ScoreOf, Times;
    KvHeadBound(s, h);
    assert s.InRange(r);
    SeesVisible(s, r, s.First(r) + j);
    ScoreIs(exp, s, q, k, v, scale, r, h, j);
    HeadRowAt(v, s.kvRows, s.kvHeads, s.dim, s.KvHead(h), s.First(r) + j, d);
  }

  /** A sum over all rows is the sum of its visible part. */
  lemma {:induction false} VisibleMass(exp: real -> real, s: Shape, r: nat, f: nat -> real, sc: seq<real>, x: seq<real>)
    requires s.Valid() && r < s.qRows && |sc| == |x| == s.Count(r)
    requires forall j: nat :: !Visible(s.mask, r, j) ==> f(j) == 0.0
    requires forall j :: 0 <= j < s.Count(r) ==> f(s.First(r) + j) == exp(sc[j]) * x[j]
    ensures Sum(s.kvRows, f) == Mass(exp, sc, 0.0, x, s.Count(r))
  {
    hide Sum, Mass, Visible;
    assert s.InRange(r);
    forall j | 0 <= j < s.kvRows && !(s.First(r) <= j < s.First(r) + s.Count(r)) ensures f(j) == 0.0 {
      SeesVisible(s, r, j);
    }
    var g := (j: nat) => f(s.First(r) + j);
    SumWindow(s.kvRows, f, s.First(r), s.Count(r), g);
    MassIsSum(exp, sc, x, s.Count(r), g);
  }

  lemma {:induction false} HiddenTerms(exp: real -> real, s: Shape, q: seq<real>, k: seq<real>, v: seq<real>,
                                       scale: real, r: nat, h: nat, g: nat, d: nat, j: nat)
    requires !Visible(s.mask, r, j)
    ensures var w := WeightsOf(exp, s, q, k, scale, r, h, g); w(j) == 0.0 && TermsOf(w, s, v, g, d)(j) == 0.0
  {
    hide Visible, ScoreOf, At;
  }

  lemma {:induction false} WeightsAreMass(exp: real -> real, s: Shape, q: seq<real>, k: seq<real>, v: seq<real>,
                                          scale: real, r: nat, h: nat, d: nat)
    requires s.Valid() && s.Fits(q, k, v) && r < s.qRows && h < s.qHeads && d < s.dim
    ensures var sc := Scores(RealOps(exp), HeadRow(q, s.qRows, s.qHeads, s.dim, h, r), Seen(s, k, v, r, h), scale);
            Sum(s.kvRows, WeightsOf(exp, s, q, k, scale, r, h, s.KvHead(h)))
            == Mass(exp, sc, 0.0, Ones(s.Count(r)), s.Count(r))
  {
    hide Scores, Seen, HeadRow, RealOps, Mass, Sum, At, WeightsOf, Visible, Times;
    hide Shape.KvHead, Shape.First, Shape.Count;
    var sc := Scores(RealOps(exp), HeadRow(q, s.qRows, s.qHeads, s.dim, h, r), Seen(s, k, v, r, h), scale);
    var w := WeightsOf(exp, s, q, k, scale, r, h, s.KvHead(h));
    forall j: nat | !Visible(s.mask, r, j) ensures w(j) == 0.0 {
      HiddenTerms(exp, s, q, k, v, scale, r, h, s.KvHead(h), d, j);
    }
    forall j | 0 <= j < s.Count(r) ensures w(s.First(r) + j) == exp(sc[j]) * Ones(s.Count(r))[j] {
      TermIs(exp, s, q, k, v, scale, r, h, d, j);
    }
    VisibleMass(exp, s, r, w, sc, Ones(s.Count(r)));
  }

  lemma {:induction false} TermsAreMass(exp: real -> real, s: Shape, q: seq<real>, k: seq<real>, v: seq<real>,
                                        scale: real, r: nat, h: nat, d: nat)
    requires s.Valid() && s.Fits(q, k, v) && r < s.qRows && h < s.qHeads && d < s.dim
    ensures var g := Seen(s, k, v, r, h);
            var sc := Scores(RealOps(exp), HeadRow(q, s.qRows, s.qHeads, s.dim, h, r), g, scale);
            var w := WeightsOf(exp, s, q, k, scale, r, h, s.KvHead(h));
            Sum(s.kvRows, TermsOf(w, s, v, s.KvHead(h), d)) == Mass(exp, sc, 0.0, Column(g.v, g.dim, d), g.n)
  {
    hide Scores, Seen, HeadRow, RealOps, Mass, Sum, At, WeightsOf, Visible, Times;
    hide Shape.KvHead, Shape.First, Shape.Count;
    var g := Seen(s, k, v, r, h);
    var sc := Scores(RealOps(exp), HeadRow(q, s.qRows, s.qHeads, s.dim, h, r), g, scale);
    var x := TermsOf(WeightsOf(exp, s, q, k, scale, r, h, s.KvHead(h)), s, v, s.KvHead(h), d);
    forall j: nat | !Visible(s.mask, r, j) ensures x(j) == 0.0 {
      HiddenTerms(exp, s, q, k, v, scale, r, h, s.KvHead(h), d, j);
    }
    forall j | 0 <= j < s.Count(r) ensures x(s.First(r) + j) == exp(sc[j]) * Column(g.v, g.dim, d)[j] {
      TermIs(exp, s, q, k, v, scale, r, h, d, j);
    }
    VisibleMass(exp, s, r, x, sc, Column(g.v, g.dim, d));
  }

  /** One head of one row over the reals. */
  lemma {:induction false} RowIsAverage(exp: real -> real, mode: Mode, s: Shape, q: seq<real>, k: seq<real>,
                                        v: seq<real>, scale: real, r: nat, h: nat, d: nat)
    requires ExpLaws(exp) && s.Valid() && s.Fits(q, k, v) && r < s.qRows && h < s.qHeads && d < s.dim && 0 < s.Count(r)
    ensures var w := WeightsOf(exp, s, q, k, scale, r, h, s.KvHead(h));
            && Sum(s.kvRows, w) > 0.0
            && ModeRow(RealOps(exp), mode, s, q, k, v, scale, r, h)[d] * Sum(s.kvRows, w)
               == Sum(s.kvRows, TermsOf(w, s, v, s.KvHead(h), d))
  {
    hide HeadValue, TwoPass, Scores, Seen, HeadRow, RealOps, Mass, Sum, WeightsOf, TermsOf, Times, Shape.KvHead;
    var qr, g := HeadRow(q, s.qRows, s.qHeads, s.dim, h, r), Seen(s, k, v, r, h);
    RealHeadValue(exp, mode, qr, g, scale);
    TwoPassAverage(exp, qr, g, scale, d);
    WeightsAreMass(exp, s, q, k, v, scale, r, h, d);
    TermsAreMass(exp, s, q, k, v, scale, r, h, d);
  }

  /** Over the reals and in every mode, what any of the bodies leaves at cell (r, g * n + i, d) is the average,
      weighted by the exponentials of the scores, of cell d of head g of the rows that the mask shows row r. */
  lemma {:induction false} OutputIsAverage(exp: real -> real, mode: Mode, s: Shape, q: seq<real>, k: seq<real>,
                                           v: seq<real>, scale: real, out: seq<real>, n: nat, r: nat, g: nat, i: nat,
                                           d: nat, seen: nat)
    requires ExpLaws(exp) && s.Valid() && s.Fits(q, k, v)
    requires AllBlocks(out, ModeBlocks(RealOps(exp), mode, s, q, k, v, scale), s.dim)
    requires s.kvHeads * n == s.qHeads && r < s.qRows && g < s.kvHeads && i < n && d < s.dim
    requires Visible(s.mask, r, seen)
    ensures var at := At(s.qHeads, s.dim, r, g * n + i, d);
            var w := WeightsOf(exp, s, q, k, scale, r, g * n + i, g);
            && 0 <= at < |out| && Sum(s.kvRows, w) > 0.0
            && out[at] * Sum(s.kvRows, w) == Sum(s.kvRows, TermsOf(w, s, v, g, d))
  {
    hide ModeRow, RealOps, Sum, WeightsOf, TermsOf, ModeBlocks, ModeAt, Times, Visible;
    TimesIsProduct(s.kvHeads, n);
    TimesIsProduct(g, n);
    var h: nat := Times(g, n) + i;
    GroupReads(s, n, g, i);
    SeesVisible(s, r, seen);
    RowIsAverage(exp, mode, s, q, k, v, scale, r, h, d);
    ModeAtJoin(RealOps(exp), mode, s, q, k, v, scale, r, h);
    var t := Times(r, s.qHeads) + h;
    assert BlockIs(out, t, s.dim, ModeRow(RealOps(exp), mode, s, q, k, v, scale, r, h));
    BlockAt(out, t, s.dim, d);
    TimesIsProduct(r, s.qHeads);
    TimesIsProduct(t, s.dim);
  }
}
