/** Over the reals the embedding is a rotation by position: it composes, keeps dot products, and
    makes attention scores depend on relative positions only. */
module RopeRotation {
  import opened Index
  import opened Arithmetic
  import opened Softmax
  import opened HeadAttention
  import opened Layout
  import opened Rope

  /** The batched kernel's rows are the host's, position by position and head by head. */
  lemma {:induction false} BatchIsHost<F>(b: Batch<F>, a: Angles<F>, position: nat, h: nat)
    requires b.Valid() && position < b.positions && h < b.heads
    requires Times(position, b.half) + b.half <= |b.cos|
    requires Block(b.cos, position, b.half) == CosTable(b.ops, a, b.half, position)
    requires Block(b.sin, position, b.half) == SinTable(b.ops, a, b.half, position)
    ensures Times(position, Times(b.heads, 2 * b.half)) + Times(b.heads, 2 * b.half) <= |b.x|
    ensures Times(position, b.heads) + h < b.Rows()
    ensures RotatedHeads(b.ops, Block(b.x, position, Times(b.heads, 2 * b.half)), b.heads, b.half,
                         CosTable(b.ops, a, b.half, position), SinTable(b.ops, a, b.half, position))[h]
            == b.Want(Times(position, b.heads) + h)
  {
    hide Times, Quot, Rem, Rotate, CosTable, SinTable;
    var dim := 2 * b.half;
    RowBaseIs(b.positions, b.heads, dim, h, position);
    TimesAssoc(b.positions, b.heads, dim);
    SlotBound(position, b.positions, Times(b.heads, dim));
    SlotBound(h, b.heads, dim);
    SlotBound(position, b.positions, b.heads);
    QuotJoin(position, h, b.heads);
    SliceOfSlice(b.x, Times(position, Times(b.heads, dim)), Times(b.heads, dim), Times(h, dim), dim);
  }

  /** What the proofs need of cosine and sine. */
  ghost predicate TrigLaws(a: Angles<real>) {
    && a.cos(0.0) == 1.0 && a.sin(0.0) == 0.0
    && (forall x, y :: AddsUp(a, x, y)) && (forall x :: OnCircle(a, x))
    && forall n: nat :: a.ofNat(n) == n as real
  }

  ghost predicate AddsUp(a: Angles<real>, x: real, y: real) {
    && a.cos(x + y) == a.cos(x) * a.cos(y) - a.sin(x) * a.sin(y)
    && a.sin(x + y) == a.sin(x) * a.cos(y) + a.cos(x) * a.sin(y)
  }

  ghost predicate OnCircle(a: Angles<real>, x: real) { a.cos(x) * a.cos(x) + a.sin(x) * a.sin(x) == 1.0 }

  /** One head at a position. */
  function Roped(exp: real -> real, a: Angles<real>, x: seq<real>, half: nat, position: nat): (y: seq<real>)
    requires |x| == 2 * half
    ensures |y| == 2 * half
  {
    Rotate(RealOps(exp), x, CosTable(RealOps(exp), a, half, position), SinTable(RealOps(exp), a, half, position), half)
  }

  function Angle(a: Angles<real>, i: nat, position: nat): real { a.ofNat(position) * a.freq(i) }

  function C(a: Angles<real>, i: nat, position: nat): real { a.cos(Angle(a, i, position)) }

  function S(a: Angles<real>, i: nat, position: nat): real { a.sin(Angle(a, i, position)) }

  lemma {:induction false} RopedAt(exp: real -> real, a: Angles<real>, x: seq<real>, half: nat, position: nat, i: nat)
    requires |x| == 2 * half && i < half
    ensures Roped(exp, a, x, half, position)[i] == x[i] * C(a, i, position) - x[i + half] * S(a, i, position)
    ensures Roped(exp, a, x, half, position)[i + half] == x[i] * S(a, i, position) + x[i + half] * C(a, i, position)
  {
    hide CosTable, SinTable, Low, High, C, S, Rotate, RealOps;
    var cos, sin := CosTable(RealOps(exp), a, half, position), SinTable(RealOps(exp), a, half, position);
    RotateAt(RealOps(exp), x, cos, sin, half, i);
    TablesAt(exp, a, half, position, i);
    LowHigh(exp, x[i], x[i + half], C(a, i, position), S(a, i, position));
  }

  lemma {:induction false} RotateAt<F>(ops: Ops<F>, x: seq<F>, cos: seq<F>, sin: seq<F>, half: nat, i: nat)
    requires |x| == 2 * half && |cos| == |sin| == half && i < half
    ensures Rotate(ops, x, cos, sin, half)[i] == Low(ops, x[i], x[i + half], cos[i], sin[i])
    ensures Rotate(ops, x, cos, sin, half)[i + half] == High(ops, x[i], x[i + half], cos[i], sin[i])
  {
    hide Low, High;
  }

  lemma {:induction false} TablesAt(exp: real -> real, a: Angles<real>, half: nat, position: nat, i: nat)
    requires i < half
    ensures CosTable(RealOps(exp), a, half, position)[i] == C(a, i, position)
    ensures SinTable(RealOps(exp), a, half, position)[i] == S(a, i, position)
  {}

  lemma {:induction false} LowHigh(exp: real -> real, lo: real, hi: real, c: real, s: real)
    ensures Low(RealOps(exp), lo, hi, c, s) == lo * c - hi * s
    ensures High(RealOps(exp), lo, hi, c, s) == lo * s + hi * c
  {}

  lemma {:induction false} Distribute(m: real, n: real, f: real)
    ensures (m + n) * f == m * f + n * f
  {}

  lemma {:induction false} AnglesAdd(a: Angles<real>, i: nat, m: nat, n: nat)
    requires TrigLaws(a)
    ensures Angle(a, i, m + n) == Angle(a, i, m) + Angle(a, i, n)
  {
    assert a.ofNat(m + n) == a.ofNat(m) + a.ofNat(n);
    Distribute(a.ofNat(m), a.ofNat(n), a.freq(i));
  }

  /** cos and sin of position m + n from those of m and n. */
  lemma {:induction false} AngleAdds(a: Angles<real>, i: nat, m: nat, n: nat)
    requires TrigLaws(a)
    ensures C(a, i, m + n) == C(a, i, m) * C(a, i, n) - S(a, i, m) * S(a, i, n)
    ensures S(a, i, m + n) == S(a, i, m) * C(a, i, n) + C(a, i, m) * S(a, i, n)
  {
    hide Angle;
    AnglesAdd(a, i, m, n);
    assert AddsUp(a, Angle(a, i, m), Angle(a, i, n));
  }

  /** rope(rope(x, m), n) == rope(x, m + n) */
  lemma {:induction false} RotationsCompose(exp: real -> real, a: Angles<real>, x: seq<real>, half: nat, m: nat, n: nat)
    requires TrigLaws(a) && |x| == 2 * half
    ensures Roped(exp, a, Roped(exp, a, x, half, m), half, n) == Roped(exp, a, x, half, m + n)
  {
    hide Roped, TrigLaws, C, S;
    var once := Roped(exp, a, x, half, m);
    var twice, both := Roped(exp, a, once, half, n), Roped(exp, a, x, half, m + n);
    forall i | 0 <= i < half ensures SamePair(twice, both, half, i) {
      ComposeAt(exp, a, x, half, m, n, i);
    }
    SameHalves(twice, both, half);
  }

  predicate SamePair(x: seq<real>, y: seq<real>, half: nat, i: nat)
    requires |x| == |y| == 2 * half && i < half
  {
    x[i] == y[i] && x[i + half] == y[i + half]
  }

  lemma {:induction false} SameHalves(x: seq<real>, y: seq<real>, half: nat)
    requires |x| == |y| == 2 * half
    requires forall i :: 0 <= i < half ==> SamePair(x, y, half, i)
    ensures x == y
  {
    forall k | 0 <= k < 2 * half ensures x[k] == y[k] {
      var i := if k < half then k else k - half;
      assert SamePair(x, y, half, i);
    }
  }

  lemma {:induction false} ComposeAt(exp: real -> real, a: Angles<real>, x: seq<real>, half: nat, m: nat, n: nat,
                                     i: nat)
    requires TrigLaws(a) && |x| == 2 * half && i < half
    ensures SamePair(Roped(exp, a, Roped(exp, a, x, half, m), half, n), Roped(exp, a, x, half, m + n), half, i)
  {
    hide Roped, TrigLaws, C, S;
    var once := Roped(exp, a, x, half, m);
    RopedAt(exp, a, x, half, m, i);
    RopedAt(exp, a, once, half, n, i);
    RopedAt(exp, a, x, half, m + n, i);
    AngleAdds(a, i, m, n);
    ComposePair(x[i], x[i + half], C(a, i, m), S(a, i, m), C(a, i, n), S(a, i, n), once[i], once[i + half],
                C(a, i, m + n), S(a, i, m + n));
  }

  lemma {:induction false} ComposePair(x: real, y: real, c: real, s: real, d: real, t: real, x': real, y': real,
                                       e: real, u: real)
    requires x' == x * c - y * s && y' == x * s + y * c
    requires e == c * d - s * t && u == s * d + c * t
    ensures x' * d - y' * t == x * e - y * u
    ensures x' * t + y' * d == x * u + y * e
  {
  }

  // ---- dot products ----

  function PairTerm(x: seq<real>, y: seq<real>, half: nat, i: nat): real
    requires |x| == |y| == 2 * half && i < half
  {
    x[i] * y[i] + x[i + half] * y[i + half]
  }

  /** sum over i < n of x[i] * y[i] + x[i + half] * y[i + half] */
  function PairSum(x: seq<real>, y: seq<real>, half: nat, n: nat): real
    requires |x| == |y| == 2 * half && n <= half
  {
    if n == 0 then 0.0 else PairSum(x, y, half, n - 1) + PairTerm(x, y, half, n - 1)
  }

  lemma {:induction false} PlainIsPairs(x: seq<real>, y: seq<real>, half: nat, n: nat)
    requires |x| == |y| == 2 * half && n <= half
    ensures Plain(x, y, n) + (Plain(x, y, half + n) - Plain(x, y, half)) == PairSum(x, y, half, n)
  {
    if n > 0 { PlainIsPairs(x, y, half, n - 1); }
  }

  lemma {:induction false} DotIsPairs(exp: real -> real, x: seq<real>, y: seq<real>, half: nat)
    requires |x| == |y| == 2 * half
    ensures Dot(RealOps(exp), 0.0, x, y) == PairSum(x, y, half, half)
  {
    DotIsPlain(exp, 0.0, x, y, 2 * half);
    PlainIsPairs(x, y, half, half);
  }

  /** A rotation of both pairs leaves their product as it was. */
  lemma {:induction false} PairKept(x: real, y: real, u: real, v: real, c: real, s: real)
    requires c * c + s * s == 1.0
    ensures (x * c - y * s) * (u * c - v * s) + (x * s + y * c) * (u * s + v * c) == x * u + y * v
  {
    var one := c * c + s * s;
    PairExpands(x, y, u, v, c, s);
    assert (x * u + y * v) * one == x * u + y * v;
  }

  lemma {:induction false} PairExpands(x: real, y: real, u: real, v: real, c: real, s: real)
    ensures (x * c - y * s) * (u * c - v * s) + (x * s + y * c) * (u * s + v * c) == (x * u + y * v) * (c * c + s * s)
  {
    assert (x * c - y * s) * (u * c - v * s) == (x * u) * (c * c) - (x * v) * (c * s) - (y * u) * (c * s)
        + (y * v) * (s * s);
    assert (x * s + y * c) * (u * s + v * c) == (x * u) * (s * s) + (x * v) * (c * s) + (y * u) * (c * s)
        + (y * v) * (c * c);
  }

  lemma {:induction false} PairSumNext(x: seq<real>, y: seq<real>, half: nat, n: nat)
    requires |x| == |y| == 2 * half && 0 < n <= half
    ensures PairSum(x, y, half, n) == PairSum(x, y, half, n - 1) + PairTerm(x, y, half, n - 1)
  {}

  lemma {:induction false} PairSumNone(x: seq<real>, y: seq<real>, half: nat)
    requires |x| == |y| == 2 * half
    ensures PairSum(x, y, half, 0) == 0.0
  {}

  lemma {:induction false} PairSumKept(exp: real -> real, a: Angles<real>, x: seq<real>, y: seq<real>, half: nat,
                                       position: nat, n: nat)
    requires TrigLaws(a) && |x| == |y| == 2 * half && n <= half
    ensures PairSum(Roped(exp, a, x, half, position), Roped(exp, a, y, half, position), half, n)
        == PairSum(x, y, half, n)
  {
    hide Roped, C, S, TrigLaws, PairSum, PairTerm;
    var x', y' := Roped(exp, a, x, half, position), Roped(exp, a, y, half, position);
    if n > 0 {
      PairSumKept(exp, a, x, y, half, position, n - 1);
      PairAtKept(exp, a, x, y, half, position, n - 1);
      PairSumNext(x', y', half, n);
      PairSumNext(x, y, half, n);
    } else {
      PairSumNone(x', y', half);
      PairSumNone(x, y, half);
    }
  }

  lemma {:induction false} PairAtKept(exp: real -> real, a: Angles<real>, x: seq<real>, y: seq<real>, half: nat,
                                      position: nat, i: nat)
    requires TrigLaws(a) && |x| == |y| == 2 * half && i < half
    ensures PairTerm(Roped(exp, a, x, half, position), Roped(exp, a, y, half, position), half, i)
        == PairTerm(x, y, half, i)
  {
    hide Roped, C, S, TrigLaws;
    RopedAt(exp, a, x, half, position, i);
    RopedAt(exp, a, y, half, position, i);
    CircleAt(a, i, position);
    PairKept(x[i], x[i + half], y[i], y[i + half], C(a, i, position), S(a, i, position));
  }

  lemma {:induction false} CircleAt(a: Angles<real>, i: nat, position: nat)
    requires TrigLaws(a)
    ensures C(a, i, position) * C(a, i, position) + S(a, i, position) * S(a, i, position) == 1.0
  {
    hide Angle;
    assert OnCircle(a, Angle(a, i, position));
  }

  /** The same position on both sides cancels; with x and y the same head, norms are kept. */
  lemma {:induction false} DotKept(exp: real -> real, a: Angles<real>, x: seq<real>, y: seq<real>, half: nat,
                                   position: nat)
    requires TrigLaws(a) && |x| == |y| == 2 * half
    ensures Dot(RealOps(exp), 0.0, Roped(exp, a, x, half, position), Roped(exp, a, y, half, position))
        == Dot(RealOps(exp), 0.0, x, y)
  {
    hide Roped;
    DotIsPairs(exp, x, y, half);
    DotIsPairs(exp, Roped(exp, a, x, half, position), Roped(exp, a, y, half, position), half);
    PairSumKept(exp, a, x, y, half, position, half);
  }

  /** A score depends on the distance of query and key only. */
  lemma {:induction false} DotIsRelative(exp: real -> real, a: Angles<real>, q: seq<real>, k: seq<real>, half: nat,
                                         m: nat, n: nat)
    requires TrigLaws(a) && |q| == |k| == 2 * half && n <= m
    ensures Dot(RealOps(exp), 0.0, Roped(exp, a, q, half, m), Roped(exp, a, k, half, n))
         == Dot(RealOps(exp), 0.0, Roped(exp, a, q, half, m - n), k)
  {
    hide Roped, RealOps, Dot;
    RotationsCompose(exp, a, q, half, m - n, n);
    assert m - n + n == m;
    DotKept(exp, a, Roped(exp, a, q, half, m - n), k, half, n);
  }

  /** Position 0 is the identity. */
  lemma {:induction false} ZeroIsIdentity(exp: real -> real, a: Angles<real>, x: seq<real>, half: nat)
    requires TrigLaws(a) && |x| == 2 * half
    ensures Roped(exp, a, x, half, 0) == x
  {
    hide Roped, C, S, TrigLaws;
    forall i | 0 <= i < half ensures SamePair(Roped(exp, a, x, half, 0), x, half, i) {
      RopedAt(exp, a, x, half, 0, i);
      NoTurn(a, i);
    }
    SameHalves(Roped(exp, a, x, half, 0), x, half);
  }

  lemma {:induction false} NoTurn(a: Angles<real>, i: nat)
    requires TrigLaws(a)
    ensures C(a, i, 0) == 1.0 && S(a, i, 0) == 0.0
  {
    assert Angle(a, i, 0) == 0.0;
  }

  // ---- factors ----

  /** Dividing the frequencies keeps the laws, so everything above holds of the factored embedding. */
  lemma {:induction false} FactoredLaws(exp: real -> real, a: Angles<real>, factors: seq<real>)
    requires TrigLaws(a)
    ensures TrigLaws(WithFactors(RealOps(exp), a, factors))
  {
    var b := WithFactors(RealOps(exp), a, factors);
    forall x, y ensures AddsUp(b, x, y) { assert AddsUp(a, x, y); }
    forall x ensures OnCircle(b, x) { assert OnCircle(a, x); }
  }

  /** Factors of one change nothing. */
  lemma {:induction false} UnitFactors(exp: real -> real, a: Angles<real>, factors: seq<real>, x: seq<real>, half: nat,
                                       position: nat)
    requires |x| == 2 * half && forall i :: 0 <= i < |factors| ==> factors[i] == 1.0
    ensures Roped(exp, WithFactors(RealOps(exp), a, factors), x, half, position) == Roped(exp, a, x, half, position)
  {
    hide Rotate;
    var b := WithFactors(RealOps(exp), a, factors);
    forall i: nat ensures b.freq(i) == a.freq(i) {}
    assert CosTable(RealOps(exp), b, half, position) == CosTable(RealOps(exp), a, half, position);
    assert SinTable(RealOps(exp), b, half, position) == SinTable(RealOps(exp), a, half, position);
  }

  lemma {:induction false} StretchedAngle(p: real, f: real, c: real)
    requires c > 0.0
    ensures (c * p) * (f / c) == p * f
  {
    assert (f / c) * c == f;
  }

  /** A factor stretches positions: with factors of c, position c * p turns as far as p does without. */
  lemma {:induction false} FactorsStretch(exp: real -> real, a: Angles<real>, factors: seq<real>, c: nat, x: seq<real>,
                                          half: nat, position: nat)
    requires TrigLaws(a) && 0 < c && |x| == 2 * half <= 2 * |factors|
    requires forall i :: 0 <= i < |factors| ==> factors[i] == c as real
    ensures Roped(exp, WithFactors(RealOps(exp), a, factors), x, half, c * position) == Roped(exp, a, x, half, position)
  {
    hide Rotate, CosTable, SinTable, C, S, RealOps, WithFactors, TrigLaws;
    var b := WithFactors(RealOps(exp), a, factors);
    forall i | 0 <= i < half
      ensures CosTable(RealOps(exp), b, half, c * position)[i] == CosTable(RealOps(exp), a, half, position)[i]
      ensures SinTable(RealOps(exp), b, half, c * position)[i] == SinTable(RealOps(exp), a, half, position)[i]
    {
      TablesAt(exp, b, half, c * position, i);
      TablesAt(exp, a, half, position, i);
      SameTurn(exp, a, factors, c, i, position);
    }
    assert CosTable(RealOps(exp), b, half, c * position) == CosTable(RealOps(exp), a, half, position);
    assert SinTable(RealOps(exp), b, half, c * position) == SinTable(RealOps(exp), a, half, position);
  }

  lemma {:induction false} SameTurn(exp: real -> real, a: Angles<real>, factors: seq<real>, c: nat, i: nat,
                                    position: nat)
    requires TrigLaws(a) && 0 < c && i < |factors| && factors[i] == c as real
    ensures var b := WithFactors(RealOps(exp), a, factors);
            C(b, i, c * position) == C(a, i, position) && S(b, i, c * position) == S(a, i, position)
  {
    var b := WithFactors(RealOps(exp), a, factors);
    var p: nat := c * position;
    NatProduct(c, position);
    StretchedAngle(position as real, a.freq(i), c as real);
    assert b.freq(i) == a.freq(i) / (c as real) && b.cos == a.cos && b.sin == a.sin;
    assert b.ofNat(p) == (c as real) * (position as real) && a.ofNat(position) == position as real;
    assert Angle(b, i, p) == Angle(a, i, position);
  }

  lemma {:induction false} NatProduct(c: nat, p: nat)
    ensures (c * p) as real == c as real * p as real
  {
    if p > 0 {
      NatProduct(c, p - 1);
      assert c * p == c * (p - 1) + c;
      assert c as real * p as real == c as real * (p - 1) as real + c as real;
    }
  }

  // ---- attention ----

  /** A head whose key j is embedded at position first + j. */
  function RopedHead(exp: real -> real, a: Angles<real>, h: Head<real>, half: nat, first: nat): (r: Head<real>)
    requires h.Valid() && h.dim == 2 * half
    ensures r.Valid() && r.n == h.n && r.dim == h.dim
  {
    h.(k := seq(h.n, j requires 0 <= j < h.n => Roped(exp, a, h.k[j], half, first + j)))
  }

  lemma {:induction false} ShiftedDot(exp: real -> real, a: Angles<real>, q: seq<real>, k: seq<real>, half: nat, m: nat,
                                      n: nat, shift: nat)
    requires TrigLaws(a) && |q| == |k| == 2 * half
    ensures Dot(RealOps(exp), 0.0, Roped(exp, a, q, half, m + shift), Roped(exp, a, k, half, n + shift))
         == Dot(RealOps(exp), 0.0, Roped(exp, a, q, half, m), Roped(exp, a, k, half, n))
  {
    hide Roped, RealOps, Dot;
    RotationsCompose(exp, a, q, half, m, shift);
    RotationsCompose(exp, a, k, half, n, shift);
    DotKept(exp, a, Roped(exp, a, q, half, m), Roped(exp, a, k, half, n), half, shift);
  }

  /** Moving a query and all its keys along by the same distance leaves attention as it was. */
  lemma {:induction false} AttentionIsShiftInvariant(exp: real -> real, a: Angles<real>, q: seq<real>, h: Head<real>,
                                                     half: nat, scale: real, m: nat, first: nat, shift: nat)
    requires TrigLaws(a) && h.Valid() && h.dim == 2 * half == |q|
    ensures TwoPass(RealOps(exp), Roped(exp, a, q, half, m + shift), RopedHead(exp, a, h, half, first + shift), scale)
         == TwoPass(RealOps(exp), Roped(exp, a, q, half, m), RopedHead(exp, a, h, half, first), scale)
  {
    hide Roped, Dot, SoftmaxOf, WeightedTo, TrigLaws;
    var ops := RealOps(exp);
    var q1, h1 := Roped(exp, a, q, half, m + shift), RopedHead(exp, a, h, half, first + shift);
    var q0, h0 := Roped(exp, a, q, half, m), RopedHead(exp, a, h, half, first);
    forall j | 0 <= j < h.n ensures Scores(ops, q1, h1, scale)[j] == Scores(ops, q0, h0, scale)[j] {
      ShiftedDot(exp, a, q, h.k[j], half, m, first + j, shift);
      assert first + shift + j == first + j + shift;
    }
    assert Scores(ops, q1, h1, scale) == Scores(ops, q0, h0, scale);
  }
}
