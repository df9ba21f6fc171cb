/** Whole rows over the reals: each vec_dot is the ordinary dot product of the dequantized rows. */
module KQuantRows {
  import opened KQuantSums
  import opened KQuantQ6
  import opened KQuantQ45

  /** The decoding of two little-endian bytes as a half-precision number. */
  type Half = (bv8, bv8) -> real

  /** sum over i < n of (d * qs[i]) * w[i] */
  ghost function RealDot(x: Q8, w: seq<real>, n: nat): real
    requires |x.qs| == QK_K && n <= QK_K && |w| == QK_K
  {
    if n == 0 then 0.0 else RealDot(x, w, n - 1) + (x.d * (x.qs[n - 1] as int as real)) * w[n - 1]
  }

  /** w[i] is c * v[i] - e * m[i]. */
  ghost predicate Affine(w: seq<real>, c: real, v: seq<int>, e: real, m: seq<int>) {
    |w| == |v| == |m| == QK_K && forall i :: 0 <= i < QK_K ==> w[i] == c * (v[i] as real) - e * (m[i] as real)
  }

  lemma {:induction false} RealDotAffine(x: Q8, w: seq<real>, c: real, v: seq<int>, e: real, m: seq<int>, n: nat)
    requires x.Valid() && Affine(w, c, v, e, m) && n <= QK_K
    ensures RealDot(x, w, n)
         == (x.d * c) * (IntDot(x.qs, v, 0, n) as real) - (x.d * e) * (IntDot(x.qs, m, 0, n) as real)
  {
    hide RealDot, IntDot;
    DotNext(x, w, v, m, n);
    if n > 0 {
      RealDotAffine(x, w, c, v, e, m, n - 1);
      AffineTerm(x.d, x.qs[n - 1] as int, c, v[n - 1], e, m[n - 1], w[n - 1],
                 IntDot(x.qs, v, 0, n - 1), IntDot(x.qs, m, 0, n - 1), IntDot(x.qs, v, 0, n), IntDot(x.qs, m, 0, n),
                 RealDot(x, w, n - 1), RealDot(x, w, n));
    } else {
      EmptyDot(x.qs, v, 0);
      EmptyDot(x.qs, m, 0);
    }
  }

  lemma {:induction false} DotNext(x: Q8, w: seq<real>, v: seq<int>, m: seq<int>, n: nat)
    requires x.Valid() && |w| == |v| == |m| == QK_K && n <= QK_K
    ensures n == 0 ==> RealDot(x, w, n) == 0.0
    ensures n > 0 ==> RealDot(x, w, n) == RealDot(x, w, n - 1) + (x.d * (x.qs[n - 1] as int as real)) * w[n - 1]
    ensures n > 0 ==> IntDot(x.qs, v, 0, n) == IntDot(x.qs, v, 0, n - 1) + x.qs[n - 1] as int * v[n - 1]
    ensures n > 0 ==> IntDot(x.qs, m, 0, n) == IntDot(x.qs, m, 0, n - 1) + x.qs[n - 1] as int * m[n - 1]
  {}

  lemma {:induction false} AffineTerm(d: real, x: int, c: real, v: int, e: real, m: int, w: real, s: int, t: int,
                                      s': int, t': int, r: real, r': real)
    requires w == c * (v as real) - e * (m as real) && s' == s + x * v && t' == t + x * m
    requires r == (d * c) * (s as real) - (d * e) * (t as real) && r' == r + (d * (x as real)) * w
    ensures r' == (d * c) * (s' as real) - (d * e) * (t' as real)
  {
    CastTerm(s, x, v);
    CastTerm(t, x, m);
    var xr, vr, mr, dc, de := x as real, v as real, m as real, d * c, d * e;
    assert (d * xr) * w == dc * (xr * vr) - de * (xr * mr) by { FactorTerm(d, xr, c, vr, e, mr); }
    assert dc * ((s as real) + xr * vr) == dc * (s as real) + dc * (xr * vr);
    assert de * ((t as real) + xr * mr) == de * (t as real) + de * (xr * mr);
  }

  lemma {:induction false} CastTerm(s: int, x: int, v: int)
    ensures (s + x * v) as real == s as real + (x as real) * (v as real)
  {
    CastProduct(x, v);
  }

  lemma {:induction false} CastProduct(x: int, v: int)
    ensures (x * v) as real == (x as real) * (v as real)
    decreases if v < 0 then -v else v
  {
    if v > 0 {
      CastProduct(x, v - 1);
      assert x * v == x * (v - 1) + x;
      assert (x as real) * (v as real) == (x as real) * ((v - 1) as real) + x as real;
    } else if v < 0 {
      CastProduct(x, v + 1);
      assert x * v == x * (v + 1) - x;
      assert (x as real) * (v as real) == (x as real) * ((v + 1) as real) - x as real;
    }
  }

  lemma {:induction false} FactorTerm(d: real, x: real, c: real, v: real, e: real, m: real)
    ensures (d * x) * (c * v - e * m) == (d * c) * (x * v) - (d * e) * (x * m)
  {}

  ghost function RTotal(acc: seq<real>, n: nat): real
    requires n <= |acc|
  {
    if n == 0 then 0.0 else RTotal(acc, n - 1) + acc[n - 1]
  }

  lemma {:induction false} RTotalUpdate(acc: seq<real>, l: nat, v: real, n: nat)
    requires l < |acc| && n <= |acc|
    ensures RTotal(acc[l := v], n) == RTotal(acc, n) + if l < n then v - acc[l] else 0.0
  {
    if n > 0 { RTotalUpdate(acc, l, v, n - 1); }
  }

  lemma {:induction false} RTotalZero(acc: seq<real>, n: nat)
    requires n <= |acc| && forall i :: 0 <= i < n ==> acc[i] == 0.0
    ensures RTotal(acc, n) == 0.0
  {
    if n > 0 { RTotalZero(acc, n - 1); }
  }

  /** `accumulator[lane] = d.mul_add(aux[lane] as f32, accumulator[lane])` for all lanes. */
  method FoldLanes(acc: array<real>, aux: seq<i32>, d: real)
    requires acc.Length == 8 == |aux|
    modifies acc
    ensures RTotal(acc[..], 8) == old(RTotal(acc[..], 8)) + d * (Total(aux, 8) as real)
  {
    for lane := 0 to 8
      invariant RTotal(acc[..], 8) == old(RTotal(acc[..], 8)) + d * (Total(aux, lane) as real)
    {
      FoldOne(acc, lane, d, aux[lane] as int);
    }
  }

  method FoldOne(acc: array<real>, lane: nat, d: real, v: int)
    requires lane < acc.Length
    modifies acc
    ensures RTotal(acc[..], acc.Length) == old(RTotal(acc[..], acc.Length)) + d * (v as real)
  {
    ghost var before := acc[..];
    acc[lane] := d * (v as real) + acc[lane];
    assert acc[..] == before[lane := d * (v as real) + before[lane]];
    RTotalUpdate(before, lane, d * (v as real) + before[lane], acc.Length);
  }

  function HSum8(v: seq<real>): (r: real)
    requires |v| == 8
    ensures r == RTotal(v, 8)
  {
    RTotalEight(v);
    var pair0, pair1, pair2, pair3 := v[4] + v[0], v[5] + v[1], v[6] + v[2], v[7] + v[3];
    (pair0 + pair2) + (pair1 + pair3)
  }

  function HSum4(v: seq<real>): (r: real)
    requires |v| == 4
    ensures r == RTotal(v, 4)
  {
    RTotalFour(v);
    (v[0] + v[2]) + (v[1] + v[3])
  }

  lemma {:induction false} RTotalFour(v: seq<real>)
    requires |v| >= 4
    ensures RTotal(v, 4) == v[0] + v[1] + v[2] + v[3]
  {
    assert RTotal(v, 0) == 0.0;
    assert RTotal(v, 1) == v[0];
    assert RTotal(v, 2) == v[0] + v[1];
    assert RTotal(v, 3) == v[0] + v[1] + v[2];
  }

  lemma {:induction false} RTotalEight(v: seq<real>)
    requires |v| == 8
    ensures RTotal(v, 8) == v[0] + v[1] + v[2] + v[3] + v[4] + v[5] + v[6] + v[7]
  {
    RTotalFour(v);
    assert RTotal(v, 6) == RTotal(v, 4) + v[4] + v[5];
  }

  // ----- Q6_K rows

  const Q6_BYTES: nat := 210

  function BlockBytes(raw: seq<bv8>, b: nat, size: nat): (r: seq<bv8>)
    requires b * size + size <= |raw|
    ensures |r| == size
  {
    raw[b * size..b * size + size]
  }

  ghost function IntWeights6(raw: seq<bv8>): (w: seq<int>)
    requires |raw| == Q6_BYTES
    ensures |w| == QK_K
  {
    seq(QK_K, i requires 0 <= i < QK_K =>
      AsI8(raw[192 + i / 16]) as int * (Q6At(raw[0..128], raw[128..192], i) as int - 32))
  }

  /** The dequantized row of a block: d * scales[i / 16] * (q[i] - 32). */
  ghost function Weights6(raw: seq<bv8>, half: Half): (w: seq<real>)
    requires |raw| == Q6_BYTES
    ensures |w| == QK_K
  {
    seq(QK_K, i requires 0 <= i < QK_K => half(raw[208], raw[209]) * (IntWeights6(raw)[i] as real))
  }

  ghost predicate RowFits(raw: seq<bv8>, blocks: seq<Q8>, size: nat) {
    |raw| == |blocks| * size && AllValid(blocks, |blocks|)
  }

  ghost predicate AllValid(blocks: seq<Q8>, n: nat)
    requires n <= |blocks|
  {
    forall b :: 0 <= b < n ==> blocks[b].Valid()
  }

  ghost predicate Wide(ws: seq<seq<real>>, n: nat)
    requires n <= |ws|
  {
    forall b :: 0 <= b < n ==> |ws[b]| == QK_K
  }

  /** The dot product of a quantised activation row with a dequantized weight row, over n blocks. */
  ghost function RowDot(blocks: seq<Q8>, ws: seq<seq<real>>, n: nat): real
    requires n <= |blocks| && n <= |ws| && AllValid(blocks, n) && Wide(ws, n)
  {
    if n == 0 then 0.0 else RowDot(blocks, ws, n - 1) + RealDot(blocks[n - 1], ws[n - 1], QK_K)
  }

  /** The dequantized weight row, block by block. */
  ghost function Rows6(raw: seq<bv8>, half: Half, n: nat): (ws: seq<seq<real>>)
    requires |raw| == n * Q6_BYTES
    ensures |ws| == n && Wide(ws, n) && forall b :: 0 <= b < n ==> ws[b] == Weights6(BlockBytes(raw, b, Q6_BYTES), half)
  {
    seq(n, b requires 0 <= b < n => Weights6(BlockBytes(raw, b, Q6_BYTES), half))
  }

  function ZeroInts(): (z: seq<int>)
    ensures |z| == QK_K && forall i :: 0 <= i < QK_K ==> z[i] == 0
  {
    seq(QK_K, _ => 0)
  }

  lemma {:induction false} Block6(q8: Q8, raw: seq<bv8>, half: Half, q: seq<i32>)
    requires q8.Valid() && |raw| == Q6_BYTES && |q| == QK_K
    requires forall i :: 0 <= i < QK_K ==> q[i] as int == Q6At(raw[0..128], raw[128..192], i) as int
    ensures RealDot(q8, Weights6(raw, half), QK_K)
         == (q8.d * half(raw[208], raw[209])) * (IntDot(q8.qs, KQuantQ6.Weights(q, raw[192..208]), 0, QK_K) as real)
  {
    hide IntDot, RealDot, KQuantQ6.Weights, IntWeights6;
    var w := KQuantQ6.Weights(q, raw[192..208]);
    SameWeights6(raw, q);
    RealDotAffine(q8, Weights6(raw, half), half(raw[208], raw[209]), w, 0.0, ZeroInts(), QK_K);
  }

  lemma {:induction false} SameWeights6(raw: seq<bv8>, q: seq<i32>)
    requires |raw| == Q6_BYTES && |q| == QK_K
    requires forall i :: 0 <= i < QK_K ==> q[i] as int == Q6At(raw[0..128], raw[128..192], i) as int
    ensures KQuantQ6.Weights(q, raw[192..208]) == IntWeights6(raw)
  {
    hide Q6At, AsI8;
    var w := KQuantQ6.Weights(q, raw[192..208]);
    forall i | 0 <= i < QK_K ensures w[i] == IntWeights6(raw)[i] {
      assert raw[192..208][i / 16] == raw[192 + i / 16];
    }
  }

  /** vec_dot_q6_k_q8_k: for any number of blocks and any bytes, the true dot product. */
  method VecDotQ6(raw: seq<bv8>, blocks: seq<Q8>, half: Half) returns (r: real)
    requires RowFits(raw, blocks, Q6_BYTES)
    ensures r == RowDot(blocks, Rows6(raw, half, |blocks|), |blocks|)
  {
    hide RealDot, Weights6, IntDot, Q6At, RTotal, HSum8, Total, KQuantQ6.Weights;
    var acc := new real[8](_ => 0.0);
    RTotalZero(acc[..], 8);
    for b := 0 to |blocks|
      invariant RTotal(acc[..], 8) == RowDot(blocks, Rows6(raw, half, |blocks|), b)
    {
      var block := BlockBytes(raw, b, Q6_BYTES);
      var aux, q := BlockLanes(blocks[b], block[0..128], block[128..192], block[192..208]);
      FoldLanes(acc, aux[..], blocks[b].d * half(block[208], block[209]));
      Block6(blocks[b], block, half, q);
    }
    r := HSum8(acc[..]);
  }

  // ----- Q4_K and Q5_K rows

  const Q4_BYTES: nat := 144
  const Q5_BYTES: nat := 176

  /** d * scale * q - dmin * min, element by element. */
  ghost function WeightsMin(c: real, v: seq<int>, e: real, m: seq<int>): (w: seq<real>)
    requires |v| == |m| == QK_K
    ensures Affine(w, c, v, e, m)
  {
    seq(QK_K, i requires 0 <= i < QK_K => c * (v[i] as real) - e * (m[i] as real))
  }

  /** The dequantized row of a Q4_K block. */
  ghost function Weights4(raw: seq<bv8>, half: Half): (w: seq<real>)
    requires |raw| == Q4_BYTES
    ensures |w| == QK_K
  {
    WeightsMin(half(raw[0], raw[1]), Weights32(Q4Values(raw[16..144]), ScalesOf(raw[4..16])),
               half(raw[2], raw[3]), Minima(MinsOf(raw[4..16])))
  }

  ghost function Q5Values(qh: seq<bv8>, qs: seq<bv8>): (q: seq<i32>)
    requires |qh| == 32 && |qs| == 128
    ensures |q| == QK_K && forall i :: 0 <= i < QK_K ==> q[i] == Q5At(qh, qs, i)
  {
    seq(QK_K, i requires 0 <= i < QK_K => Q5At(qh, qs, i))
  }

  /** The dequantized row of a Q5_K block. */
  ghost function Weights5(raw: seq<bv8>, half: Half): (w: seq<real>)
    requires |raw| == Q5_BYTES
    ensures |w| == QK_K
  {
    WeightsMin(half(raw[0], raw[1]), Weights32(Q5Values(raw[16..48], raw[48..176]), ScalesOf(raw[4..16])),
               half(raw[2], raw[3]), Minima(MinsOf(raw[4..16])))
  }

  ghost function Rows4(raw: seq<bv8>, half: Half, n: nat): (ws: seq<seq<real>>)
    requires |raw| == n * Q4_BYTES
    ensures |ws| == n && Wide(ws, n) && forall b :: 0 <= b < n ==> ws[b] == Weights4(BlockBytes(raw, b, Q4_BYTES), half)
  {
    seq(n, b requires 0 <= b < n => Weights4(BlockBytes(raw, b, Q4_BYTES), half))
  }

  ghost function Rows5(raw: seq<bv8>, half: Half, n: nat): (ws: seq<seq<real>>)
    requires |raw| == n * Q5_BYTES
    ensures |ws| == n && Wide(ws, n) && forall b :: 0 <= b < n ==> ws[b] == Weights5(BlockBytes(raw, b, Q5_BYTES), half)
  {
    seq(n, b requires 0 <= b < n => Weights5(BlockBytes(raw, b, Q5_BYTES), half))
  }

  /** The block value splits into the scale part and the minimum part the kernels keep apart. */
  lemma {:induction false} BlockMin(q8: Q8, c: real, v: seq<int>, e: real, mins: seq<bv8>, w: seq<real>)
    requires q8.Valid() && |mins| == 8 && Affine(w, c, v, e, Minima(mins))
    ensures RealDot(q8, w, QK_K)
         == (q8.d * c) * (IntDot(q8.qs, v, 0, QK_K) as real) + (-q8.d * e) * (MinSum(q8, mins, 16) as real)
  {
    hide IntDot, RealDot, MinSum;
    RealDotAffine(q8, w, c, v, e, Minima(mins), QK_K);
    MinSumIsDot(q8, mins, 16);
  }

  /** The min accumulators: four lanes, two groups of 32 each. */
  method FoldMins(minAcc: array<real>, q8: Q8, s: seq<bv8>, dmin: real)
    requires minAcc.Length == 4 && q8.Valid() && |s| == 12
    modifies minAcc
    ensures RTotal(minAcc[..], 4) == old(RTotal(minAcc[..], 4)) + dmin * (MinSum(q8, MinsOf(s), 16) as real)
  {
    hide MinSum, MinsOf;
    MinSumZero(q8, MinsOf(s));
    for lane := 0 to 4
      invariant RTotal(minAcc[..], 4) == old(RTotal(minAcc[..], 4)) + dmin * (MinSum(q8, MinsOf(s), 4 * lane) as real)
    {
      var p := MinProduct(q8, s, lane);
      FoldOne(minAcc, lane, dmin, p as int);
    }
  }

  lemma {:induction false} MinSumZero(q8: Q8, mins: seq<bv8>)
    requires q8.Valid() && |mins| == 8
    ensures MinSum(q8, mins, 0) == 0
  {}

  /** One block of a Q4_K row into the two sets of accumulators. */
  method BlockQ4(block: seq<bv8>, q8: Q8, half: Half, acc: array<real>, minAcc: array<real>)
    requires |block| == Q4_BYTES && q8.Valid() && acc.Length == 8 && minAcc.Length == 4
    modifies acc, minAcc
    ensures RTotal(acc[..], 8) + RTotal(minAcc[..], 4)
         == old(RTotal(acc[..], 8) + RTotal(minAcc[..], 4)) + RealDot(q8, Weights4(block, half), QK_K)
  {
    hide RealDot, IntDot, ScalesOf, MinsOf, Weights32, Minima, Q4Values, MinSum, WeightsMin, RTotal, Total;
    var s, qs := block[4..16], block[16..144];
    var dmin := -q8.d * half(block[2], block[3]);
    FoldMins(minAcc, q8, s, dmin);
    ghost var mins := dmin * (MinSum(q8, MinsOf(s), 16) as real);
    var aux := BlockLanesQ4(q8, qs, s);
    var d := q8.d * half(block[0], block[1]);
    ghost var dots := d * (Total(aux[..], 8) as real);
    FoldLanes(acc, aux[..], d);
    BlockMin(q8, half(block[0], block[1]), Weights32(Q4Values(qs), ScalesOf(s)), half(block[2], block[3]),
             MinsOf(s), Weights4(block, half));
    assert RealDot(q8, Weights4(block, half), QK_K) == dots + mins;
  }

  /** vec_dot_q4_k_q8_k */
  method VecDotQ4(raw: seq<bv8>, blocks: seq<Q8>, half: Half) returns (r: real)
    requires RowFits(raw, blocks, Q4_BYTES)
    ensures r == RowDot(blocks, Rows4(raw, half, |blocks|), |blocks|)
  {
    hide RealDot, Weights4, RTotal, HSum8, HSum4;
    var acc := new real[8](_ => 0.0);
    var minAcc := new real[4](_ => 0.0);
    RTotalZero(acc[..], 8);
    RTotalZero(minAcc[..], 4);
    for b := 0 to |blocks|
      invariant RTotal(acc[..], 8) + RTotal(minAcc[..], 4) == RowDot(blocks, Rows4(raw, half, |blocks|), b)
    {
      BlockQ4(BlockBytes(raw, b, Q4_BYTES), blocks[b], half, acc, minAcc);
    }
    r := HSum8(acc[..]) + HSum4(minAcc[..]);
  }

  /** One block of a Q5_K row; the minimum term is a single running sum here. */
  method BlockQ5(block: seq<bv8>, q8: Q8, half: Half, acc: array<real>, minSum: real) returns (minSum': real)
    requires |block| == Q5_BYTES && q8.Valid() && acc.Length == 8
    modifies acc
    ensures RTotal(acc[..], 8) + minSum' == old(RTotal(acc[..], 8)) + minSum + RealDot(q8, Weights5(block, half), QK_K)
  {
    hide RealDot, IntDot, ScalesOf, MinsOf, Weights32, Minima, Q5At, MinSum, WeightsMin, RTotal, Total;
    var s := block[4..16];
    var sumi := MinSumQ5(q8, s);
    var dmin := -q8.d * half(block[2], block[3]);
    ghost var mins := dmin * (MinSum(q8, MinsOf(s), 16) as real);
    minSum' := dmin * (sumi as int as real) + minSum;
    var aux, q := BlockLanesQ5(q8, block[16..48], block[48..176], s);
    assert q == Q5Values(block[16..48], block[48..176]);
    var d := q8.d * half(block[0], block[1]);
    ghost var dots := d * (Total(aux[..], 8) as real);
    FoldLanes(acc, aux[..], d);
    BlockMin(q8, half(block[0], block[1]), Weights32(q, ScalesOf(s)), half(block[2], block[3]),
             MinsOf(s), Weights5(block, half));
    assert RealDot(q8, Weights5(block, half), QK_K) == dots + mins;
  }

  /** vec_dot_q5_k_q8_k */
  method VecDotQ5(raw: seq<bv8>, blocks: seq<Q8>, half: Half) returns (r: real)
    requires RowFits(raw, blocks, Q5_BYTES)
    ensures r == RowDot(blocks, Rows5(raw, half, |blocks|), |blocks|)
  {
    hide RealDot, Weights5, RTotal, HSum8;
    var acc := new real[8](_ => 0.0);
    var minSum := 0.0;
    RTotalZero(acc[..], 8);
    for b := 0 to |blocks|
      invariant RTotal(acc[..], 8) + minSum == RowDot(blocks, Rows5(raw, half, |blocks|), b)
    {
      minSum := BlockQ5(BlockBytes(raw, b, Q5_BYTES), blocks[b], half, acc, minSum);
    }
    r := HSum8(acc[..]) + minSum;
  }
}
