/** Over the reals, one pass is exactly two passes. */
module FlashExact {
  import opened Arithmetic
  import opened Softmax
  import opened HeadAttention

  /** sum over j < n of exp(s[j] - m) * x[j] */
  ghost function Mass(exp: real -> real, s: seq<real>, m: real, x: seq<real>, n: nat): real
    requires n <= |s| && n <= |x|
  {
    if n == 0 then 0.0 else Mass(exp, s, m, x, n - 1) + exp(s[n - 1] - m) * x[n - 1]
  }

  lemma {:induction false} MassRescales(exp: real -> real, s: seq<real>, m: real, m': real, x: seq<real>, n: nat)
    requires ExpLaws(exp) && n <= |s| && n <= |x|
    ensures Mass(exp, s, m', x, n) == Mass(exp, s, m, x, n) * exp(m - m')
  {
    if n > 0 {
      MassRescales(exp, s, m, m', x, n - 1);
      var a, b := s[n - 1] - m, m - m';
      assert ExpAdds(exp, a, b) && a + b == s[n - 1] - m';
      assert exp(a + b) * x[n - 1] == exp(a) * x[n - 1] * exp(b);
    }
  }

  lemma {:induction false} MassStep(exp: real -> real, s: seq<real>, m: real, m': real, x: seq<real>, n: nat, a: real,
                                    a': real, xn: real)
    requires ExpLaws(exp) && 0 < n <= |s| && n <= |x| && xn == x[n - 1]
    requires a == Mass(exp, s, m, x, n - 1)
    requires a' == a * exp(m - m') + exp(s[n - 1] - m') * xn
    ensures a' == Mass(exp, s, m', x, n)
  {
    MassRescales(exp, s, m, m', x, n - 1);
  }

  lemma {:induction false} MassOne(exp: real -> real, s: seq<real>, x: seq<real>)
    requires exp(0.0) == 1.0 && 0 < |s| && 0 < |x|
    ensures Mass(exp, s, s[0], x, 1) == x[0]
  {
    assert s[0] - s[0] == 0.0 && Mass(exp, s, s[0], x, 0) == 0.0;
  }

  ghost function Column(v: seq<seq<real>>, dim: nat, d: nat): (x: seq<real>)
    requires Matrix(v, |v|, dim) && d < dim
    ensures |x| == |v|
  {
    seq(|v|, j requires 0 <= j < |v| => v[j][d])
  }

  ghost function Ones(n: nat): (x: seq<real>)
    ensures |x| == n
  {
    seq(n, _ => 1.0)
  }

  lemma {:induction false} SeedReal(exp: real -> real, s: real, v: seq<real>, d: nat)
    requires d < |v| && exp(0.0) == 1.0
    ensures var r := Seed(RealOps(exp), s, v);
            r.m == s && exp(s - r.m) == 1.0 && r.l == 1.0 && r.acc[d] == v[d]
  {}

  lemma {:induction false} AbsorbReal(exp: real -> real, r: Run<real>, s: real, v: seq<real>, d: nat)
    requires |r.acc| == |v| && d < |v|
    ensures var r' := Absorb(RealOps(exp), r, s, v);
            && r'.m == (if s > r.m then s else r.m)
            && r'.l == r.l * exp(r.m - r'.m) + exp(s - r'.m) * 1.0
            && r'.acc[d] == r.acc[d] * exp(r.m - r'.m) + exp(s - r'.m) * v[d]
  {}

  lemma {:induction false} AbsorbMass(exp: real -> real, s: seq<real>, v: seq<seq<real>>, dim: nat, d: nat, n: nat,
                                      p: Run<real>)
    requires ExpLaws(exp) && Matrix(v, |s|, dim) && d < dim == |p.acc| && 0 < n <= |s|
    requires p.l == Mass(exp, s, p.m, Ones(|s|), n - 1) && p.acc[d] == Mass(exp, s, p.m, Column(v, dim, d), n - 1)
    ensures var r := Absorb(RealOps(exp), p, s[n - 1], v[n - 1]);
            && r.m == (if s[n - 1] > p.m then s[n - 1] else p.m)
            && r.l == Mass(exp, s, r.m, Ones(|s|), n)
            && r.acc[d] == Mass(exp, s, r.m, Column(v, dim, d), n)
  {
    hide Mass, Absorb;
    var r := Absorb(RealOps(exp), p, s[n - 1], v[n - 1]);
    AbsorbReal(exp, p, s[n - 1], v[n - 1], d);
    MassStep(exp, s, p.m, r.m, Ones(|s|), n, p.l, r.l, 1.0);
    MassStep(exp, s, p.m, r.m, Column(v, dim, d), n, p.acc[d], r.acc[d], v[n - 1][d]);
  }

  /** After n keys: m is their greatest score, and l and acc are the prefix sums of the
      weights and of the weighted values, both shifted by that m. */
  lemma {:induction false} OnlineInvariant(exp: real -> real, q: seq<real>, h: Head<real>, scale: real, d: nat, n: nat)
    requires ExpLaws(exp) && h.Valid() && |q| == h.dim && d < h.dim && 0 < n <= h.n
    ensures var ops := RealOps(exp);
            var s := Scores(ops, q, h, scale);
            var r := Online(ops, q, h, scale, n);
            && r.m == MaxTo(ops, s, n)
            && r.l == Mass(exp, s, r.m, Ones(h.n), n)
            && r.acc[d] == Mass(exp, s, r.m, Column(h.v, h.dim, d), n)
  {
    var ops := RealOps(exp);
    var s := Scores(ops, q, h, scale);
    var r := Online(ops, q, h, scale, n);
    if n == 1 {
      SeedReal(exp, s[0], h.v[0], d);
      MassOne(exp, s, Ones(h.n));
      MassOne(exp, s, Column(h.v, h.dim, d));
    } else {
      OnlineInvariant(exp, q, h, scale, d, n - 1);
      var p := Online(ops, q, h, scale, n - 1);
      AbsorbMass(exp, s, h.v, h.dim, d, n, p);
    }
  }

  lemma {:induction false} MassPositive(exp: real -> real, s: seq<real>, m: real, n: nat)
    requires ExpLaws(exp) && 0 < n <= |s|
    ensures Mass(exp, s, m, Ones(|s|), n) > 0.0
  {
    if n == 1 {
      assert Mass(exp, s, m, Ones(|s|), 0) == 0.0;
    } else {
      MassPositive(exp, s, m, n - 1);
    }
  }

  lemma {:induction false} SoftmaxSum(exp: real -> real, s: seq<real>, m: real, n: nat)
    requires n <= |s|
    ensures SumTo(RealOps(exp), Shifted(RealOps(exp), s, m), n) == Mass(exp, s, m, Ones(|s|), n)
  {
    if n > 0 { SoftmaxSum(exp, s, m, n - 1); }
  }

  lemma {:induction false} Distribute(a: real, e: real, c: real, x: real)
    ensures a * c + (e * c) * x == (a + e * x) * c
  {}

  /** p holds the weights exp(s[j] - m), every one scaled by c. */
  ghost predicate Weights(exp: real -> real, s: seq<real>, m: real, c: real, p: seq<real>) {
    |p| == |s| && forall j :: 0 <= j < |s| ==> p[j] == exp(s[j] - m) * c
  }

  lemma {:induction false} WeightedIsMass(exp: real -> real, s: seq<real>, m: real, c: real, p: seq<real>,
                                          v: seq<seq<real>>, dim: nat, d: nat, n: nat)
    requires Matrix(v, |v|, dim) && d < dim && n <= |v| && n <= |s| && Weights(exp, s, m, c, p)
    ensures WeightedTo(RealOps(exp), p, v, dim, d, n) == Mass(exp, s, m, Column(v, dim, d), n) * c
  {
    if n > 0 {
      WeightedIsMass(exp, s, m, c, p, v, dim, d, n - 1);
      Distribute(Mass(exp, s, m, Column(v, dim, d), n - 1), exp(s[n - 1] - m), c, v[n - 1][d]);
    }
  }

  lemma {:induction false} ScaledWeights(exp: real -> real, s: seq<real>, m: real, c: real)
    ensures Weights(exp, s, m, c, Scaled(RealOps(exp), Shifted(RealOps(exp), s, m), c))
  {}

  lemma {:induction false} SoftmaxScales(exp: real -> real, s: seq<real>, m: real, l: real)
    requires 0 < |s| && m == MaxTo(RealOps(exp), s, |s|) && l > 0.0
    requires l == SumTo(RealOps(exp), Shifted(RealOps(exp), s, m), |s|)
    ensures SoftmaxOf(RealOps(exp), s) == Scaled(RealOps(exp), Shifted(RealOps(exp), s, m), 1.0 / l)
  {
    hide MaxTo, SumTo, Shifted, Scaled;
    assert RealOps(exp).div(RealOps(exp).one, l) == 1.0 / l;
  }

  lemma {:induction false} SoftmaxWeights(exp: real -> real, s: seq<real>, m: real, l: real)
    requires ExpLaws(exp) && 0 < |s| && m == MaxTo(RealOps(exp), s, |s|) && l == Mass(exp, s, m, Ones(|s|), |s|)
    ensures l > 0.0 && Weights(exp, s, m, 1.0 / l, SoftmaxOf(RealOps(exp), s))
  {
    hide Mass, SumTo, MaxTo, Shifted, Scaled, Weights, RealOps, SoftmaxOf;
    SoftmaxSum(exp, s, m, |s|);
    MassPositive(exp, s, m, |s|);
    SoftmaxScales(exp, s, m, l);
    ScaledWeights(exp, s, m, 1.0 / l);
  }

  lemma {:induction false} DivReal(exp: real -> real, a: real, l: real, w: real)
    requires l > 0.0 && w == a * (1.0 / l)
    ensures RealOps(exp).div(a, l) == w
  {
    assert a / l == a * (1.0 / l);
  }

  lemma {:induction false} NormalisedMass(exp: real -> real, s: seq<real>, p: seq<real>, v: seq<seq<real>>, dim: nat,
                                          d: nat, m: real, l: real, a: real)
    requires Matrix(v, |s|, dim) && d < dim && l > 0.0 && Weights(exp, s, m, 1.0 / l, p)
    requires a == Mass(exp, s, m, Column(v, dim, d), |s|)
    ensures RealOps(exp).div(a, l) == WeightedTo(RealOps(exp), p, v, dim, d, |s|)
  {
    WeightedIsMass(exp, s, m, 1.0 / l, p, v, dim, d, |s|);
    DivReal(exp, a, l, WeightedTo(RealOps(exp), p, v, dim, d, |s|));
  }

  /** The central claim: for every shape, scale and every input, the streaming kernel's output
      is the max-subtracted two-pass softmax times V. */
  lemma {:induction false} FlashIsTwoPass(exp: real -> real, q: seq<real>, h: Head<real>, scale: real)
    requires ExpLaws(exp) && h.Valid() && |q| == h.dim && 0 < h.n
    ensures Flash(RealOps(exp), q, h, scale) == TwoPass(RealOps(exp), q, h, scale)
  {
    var ops := RealOps(exp);
    forall d | 0 <= d < h.dim
      ensures Flash(ops, q, h, scale)[d] == TwoPass(ops, q, h, scale)[d]
    {
      OnlineInvariant(exp, q, h, scale, d, h.n);
      var s, r := Scores(ops, q, h, scale), Online(ops, q, h, scale, h.n);
      SoftmaxWeights(exp, s, r.m, r.l);
      NormalisedMass(exp, s, SoftmaxOf(ops, s), h.v, h.dim, d, r.m, r.l, r.acc[d]);
    }
  }
}
