/** Q8_K quantisation of activations, and what it costs the quantised linear layer. */
module KQuantQuantize {
  import opened Arithmetic
  import opened Rounding
  import opened KQuantSums
  import opened KQuantRows

  // ----- rounding

  /** The sum of a value and 12582912 = 1.5 * 2^23 in single precision: it lies in [2^23, 2^24),
      where representable numbers are the integers, so it is the exact sum rounded to one. */
  function MagicSum(value: real): (v: int)
    requires Abs(value) <= 4194303.0
    ensures 0x80_0000 <= v < 0x100_0000
  {
    RoundTiesToEven(value + 12582912.0)
  }

  /** The single-precision encoding of an integer in [2^23, 2^24): exponent field 150, fraction v - 2^23. */
  function BitsOf(v: int): (bits: int)
    requires 0x80_0000 <= v < 0x100_0000
    ensures 0 <= bits < 0x1_0000_0000
  {
    150 * 0x80_0000 + (v - 0x80_0000)
  }

  /** Adding an even integer does not change how a value rounds. */
  lemma {:induction false} RoundingShifts(x: real, v: int)
    requires IsRoundTiesToEven(x + 12582912.0, v)
    ensures IsRoundTiesToEven(x, v - 12582912)
  {
    assert x - (v - 12582912) as real == (x + 12582912.0) - v as real;
  }

  /** `bits & 0x007f_ffff`: the fraction field. */
  function FractionBits(v: int): (f: int)
    requires 0x80_0000 <= v < 0x100_0000
    ensures f == v - 0x80_0000
  {
    BitsOf(v) % 0x80_0000
  }

  /** nearest_int: adds the magic constant and reads the integer out of the fraction bits. */
  method NearestInt(value: real) returns (n: int)
    requires Abs(value) <= 4194303.0
    ensures n == RoundTiesToEven(value)
  {
    hide RoundTiesToEven, FractionBits, IsRoundTiesToEven, MagicSum;
    var v := MagicSum(value);
    MagicIs(value);
    RoundingShifts(value, v);
    n := FractionBits(v) - 0x0040_0000;
    RoundingIsUnique(value, n, RoundTiesToEven(value));
  }

  lemma {:induction false} MagicIs(value: real)
    requires Abs(value) <= 4194303.0
    ensures IsRoundTiesToEven(value + 12582912.0, MagicSum(value))
  {}

  // ----- one block

  /** A single-precision value. Finite results are kept exact; what is modelled of the format is that a
      result whose magnitude reaches FLOAT_OVERFLOW is an infinity. */
  datatype F32 = Finite(r: real) | NonFinite

  /** (2 - 2^-24) * 2^127, from which rounding to nearest gives infinity, section 4.3.1 of IEEE 754-2019. */
  const FLOAT_OVERFLOW: real := 340282356779733661637539395458142568448.0

  /** 2^-126, the least normal number, is the reciprocal of this. */
  const LEAST_NORMAL_INVERSE: real := 85070591730234615865843651857942052864.0

  function Delivered(exact: real): F32 {
    if Abs(exact) >= FLOAT_OVERFLOW then NonFinite else Finite(exact)
  }

  /** `iscale * value`: an infinite scale makes infinities, and NaN of zeros. */
  function Scaled(iscale: F32, x: real): F32 {
    if iscale.NonFinite? then NonFinite else Delivered(iscale.r * x)
  }

  ghost function MaxAbs(x: seq<real>, n: nat): real
    requires n <= |x|
  {
    if n == 0 then 0.0 else if Abs(x[n - 1]) > MaxAbs(x, n - 1) then Abs(x[n - 1]) else MaxAbs(x, n - 1)
  }

  lemma {:induction false} MaxAbsBounds(x: seq<real>, n: nat, i: nat)
    requires i < n <= |x|
    ensures Abs(x[i]) <= MaxAbs(x, n)
  {
    if i < n - 1 { MaxAbsBounds(x, n - 1, i); }
  }

  /** What a quantised block promises of the values it stands for. */
  ghost predicate Quantised(x: seq<real>, q8: Q8) {
    && |x| == QK_K && q8.Valid()
    && (forall i :: 0 <= i < QK_K ==> -127 <= q8.qs[i] <= 127)
    && (forall i :: 0 <= i < QK_K ==> NearBy(x, q8.d, q8.qs, i))
  }

  /** `|d * q[i] - x[i]| <= amax / 254` */
  ghost predicate NearBy(x: seq<real>, d: real, qs: seq<i8>, i: nat)
    requires |x| == |qs| == QK_K && i < QK_K
  {
    Abs(d * (qs[i] as int as real) - x[i]) <= MaxAbs(x, QK_K) / 254.0
  }

  lemma {:induction false} ScaleFacts(max: real, iscale: real, d: real)
    requires max != 0.0 && iscale == -127.0 / max && iscale != 0.0 && d == 1.0 / iscale
    ensures d == -max / 127.0 && Abs(d) == Abs(max) / 127.0
  {
    assert iscale * max == -127.0;
    assert d * iscale == 1.0;
    assert d * iscale * max == max;
    assert d * -127.0 == max;
  }

  lemma {:induction false} NonZero(max: real, iscale: real)
    requires max != 0.0 && iscale == -127.0 / max
    ensures iscale != 0.0
  {
    assert iscale * max == -127.0;
  }

  lemma {:induction false} AbsProduct(a: real, b: real)
    ensures Abs(a * b) == Abs(a) * Abs(b)
  {
    assert a < 0.0 && b < 0.0 ==> a * b == (-a) * (-b);
    assert a < 0.0 && b >= 0.0 ==> a * b == -((-a) * b);
    assert a >= 0.0 && b < 0.0 ==> a * b == -(a * (-b));
  }

  lemma {:induction false} ProductLe(a: real, b: real, c: real)
    requires 0.0 <= a && b <= c
    ensures a * b <= a * c
  {}

  /** The largest magnitude is not zero, but so small that 127 divided by it overflows. */
  ghost predicate TooSmall(x: seq<real>)
    requires |x| == QK_K
  {
    MaxAbs(x, QK_K) != 0.0 && 127.0 / MaxAbs(x, QK_K) >= FLOAT_OVERFLOW
  }

  /** A value scaled by a finite scale lies in [-127, 127]. */
  lemma {:induction false} ScaledRange(max: real, iscale: real, x: real)
    requires max != 0.0 && iscale == -127.0 / max && Abs(x) <= Abs(max)
    ensures Abs(iscale * x) <= 127.0
  {
    assert Abs(iscale) * Abs(max) == 127.0 by { FullScale(max, iscale); }
    assert Abs(iscale * x) == Abs(iscale) * Abs(x) by { AbsProduct(iscale, x); }
    ProductLe(Abs(iscale), Abs(x), Abs(max));
  }

  lemma {:induction false} FullScale(max: real, iscale: real)
    requires max != 0.0 && iscale == -127.0 / max
    ensures Abs(iscale) * Abs(max) == 127.0
  {
    AbsProduct(iscale, max);
    assert iscale * max == -127.0;
  }

  lemma {:induction false} QuantError(max: real, iscale: real, d: real, x: real, n: int)
    requires max != 0.0 && iscale == -127.0 / max && iscale != 0.0 && d == 1.0 / iscale && RoundsTo(iscale, x, n)
    ensures Abs(d * (n as real) - x) <= Abs(max) / 254.0
  {
    var e := n as real - iscale * x;
    assert Abs(e) <= 0.5;
    assert d * (n as real) - x == d * e by { ErrorTerm(iscale, d, x, n as real); }
    assert Abs(d * e) == Abs(d) * Abs(e) by { AbsProduct(d, e); }
    assert Abs(d) * Abs(e) <= Abs(d) * 0.5 by { ProductLe(Abs(d), Abs(e), 0.5); }
    assert Abs(d) == Abs(max) / 127.0 by { ScaleFacts(max, iscale, d); }
  }

  lemma {:induction false} ErrorTerm(iscale: real, d: real, x: real, n: real)
    requires iscale != 0.0 && d == 1.0 / iscale
    ensures d * n - x == d * (n - iscale * x)
  {
    assert d * iscale == 1.0;
    assert d * (iscale * x) == (d * iscale) * x;
  }

  lemma {:induction false} RoundedRange(s: real, n: int)
    requires Abs(s) <= 127.0 && IsRoundTiesToEven(s, n)
    ensures -127 <= n <= 127
  {}

  method Extremes(x: seq<real>) returns (max: real, amax: real)
    requires |x| == QK_K
    ensures amax == MaxAbs(x, QK_K) && Abs(max) == amax
  {
    max, amax := 0.0, 0.0;
    for i := 0 to QK_K
      invariant amax == MaxAbs(x, i) && Abs(max) == amax
    {
      if Abs(x[i]) > amax { amax, max := Abs(x[i]), x[i]; }
    }
  }

  /** The group sums of the quants just stored. */
  method GroupSums(qs: seq<i8>) returns (sums: seq<i32>)
    requires |qs| == QK_K
    ensures |sums| == 16 && forall g :: 0 <= g < 16 ==> sums[g] as int == SumOf(qs, 16 * g, 16 * g + 16)
  {
    sums := [];
    for group := 0 to 16
      invariant |sums| == group && forall g :: 0 <= g < group ==> sums[g] as int == SumOf(qs, 16 * g, 16 * g + 16)
    {
      var sum: i32 := 0;
      for k := 0 to 16
        invariant sum as int == SumOf(qs, 16 * group, 16 * group + k) && -128 * k <= sum as int <= 127 * k
      {
        sum := sum + qs[16 * group + k] as i32;
      }
      sums := sums + [sum];
    }
  }

  /** The quants of a block, or a refusal at its first value when the scale is infinite. */
  method Quants(x: seq<real>, max: real, iscale: F32) returns (ok: bool, qs: seq<i8>)
    requires |x| == QK_K && max != 0.0 && Abs(max) == MaxAbs(x, QK_K)
    requires iscale.Finite? ==> iscale.r == -127.0 / max
    ensures ok <==> iscale.Finite?
    ensures ok ==> |qs| == QK_K
    ensures ok ==> forall i :: 0 <= i < QK_K ==> -127 <= qs[i] <= 127 && RoundsTo(iscale.r, x[i], qs[i] as int)
  {
    hide RoundsTo, MaxAbs;
    qs := [];
    for i := 0 to QK_K
      invariant |qs| == i && (i > 0 ==> iscale.Finite?)
      invariant forall j :: 0 <= j < i ==> -127 <= qs[j] <= 127 && RoundsTo(iscale.r, x[j], qs[j] as int)
    {
      MaxAbsBounds(x, QK_K, i);
      var in8, quant := QuantOf(max, iscale, x[i]);
      if !in8 { return false, []; }
      qs := qs + [quant];
    }
    ok := true;
  }

  ghost predicate RoundsTo(iscale: real, x: real, n: int) {
    IsRoundTiesToEven(iscale * x, n)
  }

  method QuantOf(max: real, iscale: F32, x: real) returns (ok: bool, q: i8)
    requires max != 0.0 && Abs(x) <= Abs(max) && (iscale.Finite? ==> iscale.r == -127.0 / max)
    ensures ok <==> iscale.Finite?
    ensures ok ==> -127 <= q <= 127 && RoundsTo(iscale.r, x, q as int)
  {
    hide RoundTiesToEven, IsRoundTiesToEven, RoundsTo;
    var scaled := Scaled(iscale, x);
    if iscale.Finite? { ScaledRange(max, iscale.r, x); }
    if scaled.NonFinite? || Abs(scaled.r) > 4194303.0 { return false, 0; }
    var quant := NearestInt(scaled.r);
    assert IsRoundTiesToEven(scaled.r, quant);
    RoundedRange(scaled.r, quant);
    quant := if quant < 127 then quant else 127;
    assert -128 <= quant <= 127; // the i8 error of the source cannot be raised
    RoundsIs(iscale.r, x, scaled.r, quant);
    ok, q := true, quant as i8;
  }

  lemma {:induction false} RoundsIs(iscale: real, x: real, scaled: real, n: int)
    requires scaled == iscale * x && IsRoundTiesToEven(scaled, n)
    ensures RoundsTo(iscale, x, n)
  {}

  lemma {:induction false} AllNear(x: seq<real>, max: real, iscale: real, d: real, qs: seq<i8>)
    requires |x| == |qs| == QK_K && max != 0.0 && Abs(max) == MaxAbs(x, QK_K) && iscale == -127.0 / max
    requires iscale != 0.0 && d == 1.0 / iscale && forall i :: 0 <= i < QK_K ==> RoundsTo(iscale, x[i], qs[i] as int)
    ensures forall i :: 0 <= i < QK_K ==> NearBy(x, d, qs, i)
  {
    hide RoundsTo, MaxAbs;
    forall i | 0 <= i < QK_K ensures NearBy(x, d, qs, i) {
      QuantError(max, iscale, d, x[i], qs[i] as int);
    }
  }

  /** A block of finite values is quantised to within amax / 254, unless it is too small: then the
      scale overflows and the block is refused. */
  method QuantizeBlock(x: seq<real>) returns (ok: bool, q8: Q8)
    requires |x| == QK_K
    ensures ok <==> !TooSmall(x)
    ensures ok ==> Quantised(x, q8)
  {
    hide RoundsTo, NearBy, MaxAbs;
    var max, amax := Extremes(x);
    var qs: seq<i8> := seq(QK_K, _ => 0);
    var d := 0.0;
    if amax != 0.0 {
      var iscale := Delivered(-127.0 / max);
      QuotientSize(max);
      ok, qs := Quants(x, max, iscale);
      if !ok { return false, Q8(0.0, [], []); }
      NonZero(max, iscale.r);
      d := 1.0 / iscale.r;
      AllNear(x, max, iscale.r, d, qs);
    } else {
      ZeroBlock(x, qs);
    }
    var sums := GroupSums(qs);
    ok, q8 := true, Q8(d, qs, sums);
  }

  lemma {:induction false} QuotientSize(max: real)
    requires max != 0.0
    ensures Abs(-127.0 / max) == 127.0 / Abs(max)
  {
    var q := -127.0 / max;
    assert q * max == -127.0;
    assert max > 0.0 ==> q < 0.0 && -q == 127.0 / max;
    assert max < 0.0 ==> q > 0.0;
  }

  /** 256 copies of 10^-37, a normal number, are refused. */
  lemma {:induction false} SmallBlockRefused(x: seq<real>)
    requires |x| == QK_K && forall i :: 0 <= i < QK_K ==> x[i] == 1.0 / 10000000000000000000000000000000000000.0
    ensures x[0] * LEAST_NORMAL_INVERSE >= 1.0 && TooSmall(x)
  {
    hide MaxAbs;
    MaxAbsOfCopies(x, 1.0 / 10000000000000000000000000000000000000.0, QK_K);
  }

  lemma {:induction false} MaxAbsOfCopies(x: seq<real>, v: real, n: nat)
    requires 0 < n <= |x| && 0.0 <= v && forall i :: 0 <= i < n ==> x[i] == v
    ensures MaxAbs(x, n) == v
  {
    if n > 1 { MaxAbsOfCopies(x, v, n - 1); } else { assert MaxAbs(x, 0) == 0.0; }
  }

  lemma {:induction false} ZeroBlock(x: seq<real>, qs: seq<i8>)
    requires |x| == |qs| == QK_K && MaxAbs(x, QK_K) == 0.0
    ensures forall i :: 0 <= i < QK_K ==> NearBy(x, 0.0, qs, i)
  {
    forall i | 0 <= i < QK_K ensures NearBy(x, 0.0, qs, i) { MaxAbsBounds(x, QK_K, i); }
  }

  // ----- a row, and the layer

  datatype QuantResult = Quantized(blocks: seq<Q8>) | InputNotFinite | ScaledOutOfRange

  ghost predicate AllFinite(input: seq<F32>, b: nat)
    requires b * QK_K + QK_K <= |input|
  {
    forall i :: b * QK_K <= i < b * QK_K + QK_K ==> input[i].Finite?
  }

  ghost function Values(input: seq<F32>, b: nat): (x: seq<real>)
    requires b * QK_K + QK_K <= |input| && AllFinite(input, b)
    ensures |x| == QK_K
  {
    seq(QK_K, i requires 0 <= i < QK_K => input[b * QK_K + i].r)
  }

  method Finites(input: seq<F32>, b: nat) returns (ok: bool, x: seq<real>)
    requires b * QK_K + QK_K <= |input|
    ensures ok <==> AllFinite(input, b)
    ensures ok ==> x == Values(input, b)
  {
    x := [];
    for i := 0 to QK_K
      invariant |x| == i
      invariant forall j :: b * QK_K <= j < b * QK_K + i ==> input[j].Finite?
      invariant forall j :: 0 <= j < i ==> x[j] == input[b * QK_K + j].r
    {
      if input[b * QK_K + i].NonFinite? { return false, []; }
      x := x + [input[b * QK_K + i].r];
    }
    ok := true;
  }

  ghost predicate BlockAccepted(input: seq<F32>, b: nat)
    requires b * QK_K + QK_K <= |input|
  {
    AllFinite(input, b) && !TooSmall(Values(input, b))
  }

  ghost predicate StandsFor(input: seq<F32>, b: nat, q8: Q8)
    requires b * QK_K + QK_K <= |input|
  {
    AllFinite(input, b) && Quantised(Values(input, b), q8)
  }

  /** Block b is the first that is not accepted. */
  ghost predicate FirstRefused(input: seq<F32>, b: nat) {
    && b * QK_K + QK_K <= |input|
    && (forall c :: 0 <= c < b ==> BlockAccepted(input, c))
    && !BlockAccepted(input, b)
  }

  /** quantize_row_q8_k: refused exactly when some block holds a value that is not finite or is too small
      to scale, and the first such block decides the error. */
  method QuantizeRow(input: seq<F32>) returns (r: QuantResult)
    requires |input| % QK_K == 0
    ensures r.Quantized? <==> forall b :: 0 <= b < |input| / QK_K ==> BlockAccepted(input, b)
    ensures r.InputNotFinite? ==> exists b :: FirstRefused(input, b) && !AllFinite(input, b)
    ensures r.ScaledOutOfRange? ==> exists b :: FirstRefused(input, b) && AllFinite(input, b)
    ensures r.Quantized? ==> |r.blocks| == |input| / QK_K
    ensures r.Quantized? ==> forall b :: 0 <= b < |r.blocks| ==> StandsFor(input, b, r.blocks[b])
  {
    hide Quantised, TooSmall;
    var blocks: seq<Q8> := [];
    for b := 0 to |input| / QK_K
      invariant |blocks| == b
      invariant forall c :: 0 <= c < b ==> BlockAccepted(input, c)
      invariant forall c :: 0 <= c < b ==> StandsFor(input, c, blocks[c])
    {
      var finite, x := Finites(input, b);
      if !finite {
        assert FirstRefused(input, b);
        return InputNotFinite;
      }
      var ok, block := QuantizeBlock(x);
      if !ok {
        assert FirstRefused(input, b);
        return ScaledOutOfRange;
      }
      blocks := blocks + [block];
    }
    r := Quantized(blocks);
  }

  /** sum over i < n of |w[i]| */
  ghost function AbsSum(w: seq<real>, n: nat): real
    requires n <= |w|
  {
    if n == 0 then 0.0 else AbsSum(w, n - 1) + Abs(w[n - 1])
  }

  /** amax / 254 times the absolute sum of the weights. */
  ghost function Slack(x: seq<real>, w: seq<real>, n: nat): real
    requires |x| == QK_K && n <= |w|
  {
    Tolerance(x) * AbsSum(w, n)
  }

  ghost function Tolerance(x: seq<real>): real
    requires |x| == QK_K
  {
    MaxAbs(x, QK_K) / 254.0
  }

  lemma {:induction false} BlockError(x: seq<real>, q8: Q8, w: seq<real>, n: nat)
    requires |x| == |q8.qs| == |w| == QK_K && Quantised(x, q8) && n <= QK_K
    ensures Abs(RealDot(q8, w, n) - Plain(x, w, n)) <= Slack(x, w, n)
  {
    hide Tolerance, RealDot, Plain, AbsSum, Quantised, Abs;
    SumSteps(x, q8, w, n);
    if n > 0 {
      BlockError(x, q8, w, n - 1);
      var y := q8.d * (q8.qs[n - 1] as int as real);
      NearTolerance(x, q8, n - 1, y);
      TermError(y, x[n - 1], w[n - 1], Tolerance(x),
                RealDot(q8, w, n - 1), Plain(x, w, n - 1), AbsSum(w, n - 1),
                RealDot(q8, w, n), Plain(x, w, n), AbsSum(w, n));
    } else {
      assert Abs(0.0 - 0.0) == 0.0 by { AbsZero(); }
    }
  }

  lemma {:induction false} AbsZero()
    ensures Abs(0.0) == 0.0
  {}

  lemma {:induction false} SumSteps(x: seq<real>, q8: Q8, w: seq<real>, n: nat)
    requires Quantised(x, q8) && |w| == QK_K && n <= QK_K
    ensures |q8.qs| == QK_K == |x|
    ensures n == 0 ==> RealDot(q8, w, n) == 0.0 && Plain(x, w, n) == 0.0 && AbsSum(w, n) == 0.0
    ensures n > 0 ==> RealDot(q8, w, n) == RealDot(q8, w, n - 1) + (q8.d * (q8.qs[n - 1] as int as real)) * w[n - 1]
    ensures n > 0 ==> Plain(x, w, n) == Plain(x, w, n - 1) + x[n - 1] * w[n - 1]
    ensures n > 0 ==> AbsSum(w, n) == AbsSum(w, n - 1) + Abs(w[n - 1])
  {}

  lemma {:induction false} NearTolerance(x: seq<real>, q8: Q8, i: nat, y: real)
    requires Quantised(x, q8) && i < QK_K && y == q8.d * (q8.qs[i] as int as real)
    ensures Abs(y - x[i]) <= Tolerance(x)
  {
    assert NearBy(x, q8.d, q8.qs, i);
  }

  lemma {:induction false} TermError(y: real, x: real, w: real, e: real, s: real, t: real, a: real, s': real, t': real,
                                     a': real)
    requires Abs(y - x) <= e && Abs(s - t) <= e * a
    requires s' == s + y * w && t' == t + x * w && a' == a + Abs(w)
    ensures Abs(s' - t') <= e * a'
  {
    AbsBound(y - x, w, e);
    Split(e, a, Abs(w), a');
  }

  lemma {:induction false} Split(e: real, a: real, b: real, sum: real)
    requires sum == a + b
    ensures e * sum == e * a + e * b
  {}

  lemma {:induction false} AbsBound(u: real, w: real, e: real)
    requires Abs(u) <= e
    ensures Abs(u * w) <= e * Abs(w)
  {
    AbsProduct(u, w);
  }

  ghost function RowPlain(xs: seq<seq<real>>, ws: seq<seq<real>>, n: nat): real
    requires n <= |xs| && n <= |ws| && Wide(xs, n) && Wide(ws, n)
  {
    if n == 0 then 0.0 else RowPlain(xs, ws, n - 1) + Plain(xs[n - 1], ws[n - 1], QK_K)
  }

  ghost function RowBound(xs: seq<seq<real>>, ws: seq<seq<real>>, n: nat): real
    requires n <= |xs| && n <= |ws| && Wide(xs, n) && Wide(ws, n)
  {
    if n == 0 then 0.0
    else RowBound(xs, ws, n - 1) + Slack(xs[n - 1], ws[n - 1], QK_K)
  }

  ghost predicate AllQuantised(xs: seq<seq<real>>, blocks: seq<Q8>, n: nat)
    requires n <= |xs| && n <= |blocks|
  {
    Wide(xs, n) && AllValid(blocks, n) && forall b :: 0 <= b < n ==> Quantised(xs[b], blocks[b])
  }

  /** The quantised layer against the exact one: for any weights (so for all three formats) the dot
      of a quantised row is within sum amax_b / 254 * |w|_1 of the dot of the row itself. */
  lemma {:induction false} RowError(xs: seq<seq<real>>, blocks: seq<Q8>, ws: seq<seq<real>>, n: nat)
    requires n <= |xs| && n <= |blocks| && n <= |ws| && AllQuantised(xs, blocks, n) && Wide(ws, n)
    ensures Abs(RowDot(blocks, ws, n) - RowPlain(xs, ws, n)) <= RowBound(xs, ws, n)
  {
    if n > 0 {
      hide RealDot, Plain, Slack, Quantised;
      RowError(xs, blocks, ws, n - 1);
      BlockError(xs[n - 1], blocks[n - 1], ws[n - 1], QK_K);
    }
  }
}
