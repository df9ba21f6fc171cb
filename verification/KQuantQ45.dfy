/** The Q4_K and Q5_K blocks: packed 6-bit scales and minima, nibbles, and the fifth bit. */
module KQuantQ45 {
  import opened KQuantSums
  import opened KQuantQ6

  /** get_scale_min_k4: eight 6-bit scales and eight 6-bit minima in twelve bytes. */
  function ScaleMin(index: nat, s: seq<bv8>): (bv8, bv8)
    requires |s| == 12 && index < 8
  {
    if index < 4 then (s[index] & 0x3f, s[index + 4] & 0x3f)
    else ((s[index + 4] & 0x0f) | ((s[index - 4] >> 6) << 4), (s[index + 4] >> 4) | ((s[index] >> 6) << 4))
  }

  /** The packing that `ScaleMin` undoes. */
  function PackScales(scales: seq<bv8>, mins: seq<bv8>): (s: seq<bv8>)
    requires |scales| == |mins| == 8
    ensures |s| == 12
  {
    [Carry(scales[0], scales[4]), Carry(scales[1], scales[5]), Carry(scales[2], scales[6]), Carry(scales[3], scales[7]),
     Carry(mins[0], mins[4]), Carry(mins[1], mins[5]), Carry(mins[2], mins[6]), Carry(mins[3], mins[7]),
     Pair(scales[4], mins[4]), Pair(scales[5], mins[5]), Pair(scales[6], mins[6]), Pair(scales[7], mins[7])]
  }

  /** Six bits of one value, and on top the two high bits of another. */
  function Carry(a: bv8, b: bv8): bv8 { a | ((b >> 4) << 6) }

  /** The low nibbles of two values. */
  function Pair(a: bv8, b: bv8): bv8 { (a & 0x0f) | ((b & 0x0f) << 4) }

  function ScalesOf(s: seq<bv8>): (r: seq<bv8>)
    requires |s| == 12
    ensures |r| == 8 && forall i :: 0 <= i < 8 ==> r[i] == ScaleMin(i, s).0
  {
    [ScaleMin(0, s).0, ScaleMin(1, s).0, ScaleMin(2, s).0, ScaleMin(3, s).0,
     ScaleMin(4, s).0, ScaleMin(5, s).0, ScaleMin(6, s).0, ScaleMin(7, s).0]
  }

  function MinsOf(s: seq<bv8>): (r: seq<bv8>)
    requires |s| == 12
    ensures |r| == 8 && forall i :: 0 <= i < 8 ==> r[i] == ScaleMin(i, s).1
  {
    [ScaleMin(0, s).1, ScaleMin(1, s).1, ScaleMin(2, s).1, ScaleMin(3, s).1,
     ScaleMin(4, s).1, ScaleMin(5, s).1, ScaleMin(6, s).1, ScaleMin(7, s).1]
  }

  predicate SixBits(s: seq<bv8>) { |s| == 8 && forall i :: 0 <= i < 8 ==> s[i] < 64 }

  /** Unpacking returns what was packed. */
  lemma {:induction false} ScalesRoundTrip(scales: seq<bv8>, mins: seq<bv8>)
    requires SixBits(scales) && SixBits(mins)
    ensures ScalesOf(PackScales(scales, mins)) == scales && MinsOf(PackScales(scales, mins)) == mins
  {
    hide ScaleMin, PackScales;
    RoundTripAt(scales, mins, 0);
    RoundTripAt(scales, mins, 1);
    RoundTripAt(scales, mins, 2);
    RoundTripAt(scales, mins, 3);
  }

  lemma {:induction false} RoundTripAt(scales: seq<bv8>, mins: seq<bv8>, j: nat)
    requires SixBits(scales) && SixBits(mins) && j < 4
    ensures ScaleMin(j, PackScales(scales, mins)) == (scales[j], mins[j])
    ensures ScaleMin(j + 4, PackScales(scales, mins)) == (scales[j + 4], mins[j + 4])
  {
    hide Carry, Pair;
    var s := PackScales(scales, mins);
    assert s[j] == Carry(scales[j], scales[j + 4]) && s[j + 4] == Carry(mins[j], mins[j + 4]);
    assert s[j + 8] == Pair(scales[j + 4], mins[j + 4]);
    PackedWords(scales[j], scales[j + 4], mins[j], mins[j + 4]);
  }

  lemma {:induction false} PackedWords(a: bv8, b: bv8, c: bv8, d: bv8)
    requires a < 64 && b < 64 && c < 64 && d < 64
    ensures Carry(a, b) & 0x3f == a && Carry(c, d) & 0x3f == c
    ensures (Pair(b, d) & 0x0f) | ((Carry(a, b) >> 6) << 4) == b
    ensures (Pair(b, d) >> 4) | ((Carry(c, d) >> 6) << 4) == d
  {}

  /** Every twelve bytes are the packing of what they unpack to: each bit is used, and once. */
  lemma {:induction false} BytesRoundTrip(s: seq<bv8>)
    requires |s| == 12
    ensures PackScales(ScalesOf(s), MinsOf(s)) == s
    ensures SixBits(ScalesOf(s)) && SixBits(MinsOf(s))
  {
    hide Carry, Pair, ScaleMin, ScalesOf, MinsOf;
    ScalesSixBits(s);
    var p := PackScales(ScalesOf(s), MinsOf(s));
    BytesAt(s, 0);
    BytesAt(s, 1);
    BytesAt(s, 2);
    BytesAt(s, 3);
    assert p[0] == s[0] && p[1] == s[1] && p[2] == s[2] && p[3] == s[3];
    assert p[4] == s[4] && p[5] == s[5] && p[6] == s[6] && p[7] == s[7];
    assert p[8] == s[8] && p[9] == s[9] && p[10] == s[10] && p[11] == s[11];
  }

  lemma {:induction false} ScalesSixBits(s: seq<bv8>)
    requires |s| == 12
    ensures SixBits(ScalesOf(s)) && SixBits(MinsOf(s))
  {
    hide ScaleMin, ScalesOf, MinsOf;
    forall i | 0 <= i < 8 ensures ScalesOf(s)[i] < 64 && MinsOf(s)[i] < 64 {
      BytesAt(s, if i < 4 then i else i - 4);
    }
  }

  lemma {:induction false} BytesAt(s: seq<bv8>, j: nat)
    requires |s| == 12 && j < 4
    ensures Carry(ScaleMin(j, s).0, ScaleMin(j + 4, s).0) == s[j]
    ensures Carry(ScaleMin(j, s).1, ScaleMin(j + 4, s).1) == s[j + 4]
    ensures Pair(ScaleMin(j + 4, s).0, ScaleMin(j + 4, s).1) == s[j + 8]
    ensures ScaleMin(j, s).0 < 64 && ScaleMin(j, s).1 < 64 && ScaleMin(j + 4, s).0 < 64 && ScaleMin(j + 4, s).1 < 64
  {
    UnpackedBytes(s[j], s[j + 4], s[j + 8]);
  }

  lemma {:induction false} UnpackedBytes(x: bv8, y: bv8, z: bv8)
    ensures (x & 0x3f) | ((((z & 0x0f) | ((x >> 6) << 4)) >> 4) << 6) == x
    ensures (y & 0x3f) | ((((z >> 4) | ((y >> 6) << 4)) >> 4) << 6) == y
    ensures (((z & 0x0f) | ((x >> 6) << 4)) & 0x0f) | ((((z >> 4) | ((y >> 6) << 4)) & 0x0f) << 4) == z
    ensures (x & 0x3f) < 64 && (y & 0x3f) < 64
    ensures ((z & 0x0f) | ((x >> 6) << 4)) < 64 && ((z >> 4) | ((y >> 6) << 4)) < 64
  {}

  /** The four 6-bit values of one inner-loop pass of Q6_K fill three bytes exactly. */
  lemma {:induction false} Q6BytesRoundTrip(a: bv8, b: bv8, c: bv8)
    ensures var q0, q1 := (a & 0x0f) | (Crumb(c, 0) << 4), (b & 0x0f) | (Crumb(c, 1) << 4);
            var q2, q3 := (a >> 4) | (Crumb(c, 2) << 4), (b >> 4) | (Crumb(c, 3) << 4);
            && (q0 & 0x0f) | ((q2 & 0x0f) << 4) == a
            && (q1 & 0x0f) | ((q3 & 0x0f) << 4) == b
            && (q0 >> 4) | ((q1 >> 4) << 2) | ((q2 >> 4) << 4) | ((q3 >> 4) << 6) == c
  {}

  /** Weights scales[i / 32] * q[i], and the minima min[i / 32], before the block factors. */
  ghost function Weights32(q: seq<i32>, scales: seq<bv8>): (w: seq<int>)
    requires |q| == QK_K && |scales| == 8
    ensures |w| == QK_K
  {
    seq(QK_K, i requires 0 <= i < QK_K => scales[i / 32] as int * q[i] as int)
  }

  ghost function Minima(mins: seq<bv8>): (w: seq<int>)
    requires |mins| == 8
    ensures |w| == QK_K
  {
    seq(QK_K, i requires 0 <= i < QK_K => mins[i / 32] as int)
  }

  lemma {:induction false} ChunkIsScaled32(x: seq<i8>, q: seq<i32>, scales: seq<bv8>, a: nat)
    requires |x| == |q| == QK_K && |scales| == 8 && a + 4 <= QK_K && a % 4 == 0
    ensures IntDot(x, Weights32(q, scales), a, a + 4) == scales[a / 32] as int * IntDot(x, Ints(q), a, a + 4)
  {
    forall i | a <= i < a + 4 ensures Weights32(q, scales)[i] == scales[a / 32] as int * Ints(q)[i] {
      assert i / 32 == a / 32;
    }
    IntDotScale(x, Ints(q), Weights32(q, scales), scales[a / 32] as int, a, a + 4);
  }

  /** sum over g < n of sums16[g] * mins[g / 2] */
  ghost function MinSum(q8: Q8, mins: seq<bv8>, n: nat): int
    requires q8.Valid() && |mins| == 8 && n <= 16
  {
    if n == 0 then 0 else MinSum(q8, mins, n - 1) + q8.sums16[n - 1] as int * mins[(n - 1) / 2] as int
  }

  /** The minimum term taken from 16-wide sums is the per-element one. */
  lemma {:induction false} MinSumIsDot(q8: Q8, mins: seq<bv8>, n: nat)
    requires q8.Valid() && |mins| == 8 && n <= 16
    ensures MinSum(q8, mins, n) == IntDot(q8.qs, Minima(mins), 0, 16 * n)
  {
    if n > 0 {
      MinSumIsDot(q8, mins, n - 1);
      var a, b, c := 16 * (n - 1), 16 * n, mins[(n - 1) / 2] as int;
      IntDotSplit(q8.qs, Minima(mins), 0, a, b);
      forall i | a <= i < b ensures Minima(mins)[i] == c { assert i / 32 == (n - 1) / 2; }
      IntDotConst(q8.qs, Minima(mins), c, a, b);
      assert q8.sums16[n - 1] as int == SumOf(q8.qs, a, b);
      MulComm(c, SumOf(q8.qs, a, b));
    }
  }

  lemma {:induction false} MulComm(a: int, b: int)
    ensures a * b == b * a
  {}

  // ----- Q4_K

  /** Value i is a nibble of byte 32 * (i / 64) + i % 32: the low one for the first 32 of each 64. */
  function Q4At(qs: seq<bv8>, i: nat): (r: i32)
    requires |qs| == 128 && i < QK_K
    ensures 0 <= r < 16
  {
    NibbleRange(qs[32 * (i / 64) + i % 32]);
    Nibble(qs[32 * (i / 64) + i % 32], i % 64 / 32) as i32
  }

  lemma {:induction false} NibbleRange(b: bv8)
    ensures Nibble(b, 0) < 16 && Nibble(b, 1) < 16
  {}

  ghost function Q4Values(qs: seq<bv8>): (q: seq<i32>)
    requires |qs| == 128
    ensures |q| == QK_K && forall i :: 0 <= i < QK_K ==> q[i] == Q4At(qs, i)
  {
    seq(QK_K, i requires 0 <= i < QK_K => Q4At(qs, i))
  }

  /** `packed & 0x0f` and `packed >> 4`, widened. */
  method SplitByte(qs: seq<bv8>, group: nat, k: nat) returns (lo: i32, hi: i32)
    requires |qs| == 128 && group < 4 && k < 32
    ensures lo == Q4At(qs, 64 * group + k) && hi == Q4At(qs, 64 * group + 32 + k)
    ensures 0 <= lo < 16 && 0 <= hi < 16
  {
    hide Nibble, Q4At;
    var packed := qs[group * 32 + k];
    NibblesOf(qs, group, k);
    SplitIsNibble(packed);
    lo, hi := (packed & 0x0f) as i32, (packed >> 4) as i32;
  }

  lemma {:induction false} SplitIsNibble(b: bv8)
    ensures b & 0x0f == Nibble(b, 0) && b >> 4 == Nibble(b, 1)
  {}

  /** One lane of one group of 64: four low and four high nibbles of the same four bytes. */
  method LowHighSums(x: seq<i8>, qs: seq<bv8>, group: nat, lane: nat) returns (low: i32, high: i32)
    requires |x| == QK_K && |qs| == 128 && group < 4 && lane < 8
    ensures low as int == IntDot(x, Ints(Q4Values(qs)), 64 * group + 4 * lane, 64 * group + 4 * lane + 4)
    ensures high as int == IntDot(x, Ints(Q4Values(qs)), 64 * group + 32 + 4 * lane, 64 * group + 32 + 4 * lane + 4)
    ensures -7680 <= low <= 7680 && -7680 <= high <= 7680
  {
    hide Q4At;
    low, high := 0, 0;
    ghost var q := Ints(Q4Values(qs));
    var a := 64 * group + 4 * lane;
    for offset := 0 to 4
      invariant low as int == IntDot(x, q, a, a + offset) && high as int == IntDot(x, q, a + 32, a + 32 + offset)
      invariant -1920 * offset <= low as int <= 1920 * offset && -1920 * offset <= high as int <= 1920 * offset
    {
      var lo, hi := SplitByte(qs, group, lane * 4 + offset);
      ProductBound(x[a + offset] as int, lo as int, 128, 15);
      ProductBound(x[a + 32 + offset] as int, hi as int, 128, 15);
      low := low + x[a + offset] as i32 * lo;
      high := high + x[a + 32 + offset] as i32 * hi;
    }
  }

  lemma {:induction false} NibblesOf(qs: seq<bv8>, group: nat, k: nat)
    requires |qs| == 128 && group < 4 && k < 32
    ensures Nibble(qs[32 * group + k], 0) < 16 && Nibble(qs[32 * group + k], 1) < 16
    ensures Q4At(qs, 64 * group + k) == Nibble(qs[32 * group + k], 0) as i32
    ensures Q4At(qs, 64 * group + 32 + k) == Nibble(qs[32 * group + k], 1) as i32
  {
    hide Nibble;
    NibbleRange(qs[32 * group + k]);
    assert (64 * group + k) / 64 == group && (64 * group + k) % 32 == k && (64 * group + k) % 64 / 32 == 0;
    assert (64 * group + 32 + k) / 64 == group && (64 * group + 32 + k) % 32 == k
        && (64 * group + 32 + k) % 64 / 32 == 1;
  }

  /** Four products in group g of 32, scaled. */
  lemma {:induction false} RunScaled(q8: Q8, q: seq<i32>, s: seq<bv8>, g: nat, a: nat, sum: int)
    requires q8.Valid() && |q| == QK_K && |s| == 12 && a + 4 <= QK_K && a % 4 == 0 && a / 32 == g
    requires sum == IntDot(q8.qs, Ints(q), a, a + 4)
    ensures IntDot(q8.qs, Weights32(q, ScalesOf(s)), a, a + 4) == (ScaleMin(g, s).0 as int) * sum
  {
    hide IntDot, Weights32, ScaleMin, Ints;
    ChunkIsScaled32(q8.qs, q, ScalesOf(s), a);
  }

  method LaneDeltaQ4(q8: Q8, qs: seq<bv8>, s: seq<bv8>, group: nat, lane: nat) returns (delta: i32)
    requires q8.Valid() && |qs| == 128 && |s| == 12 && group < 4 && lane < 8
    ensures -967680 <= delta <= 967680
    ensures var w, a := Weights32(Q4Values(qs), ScalesOf(s)), 64 * group + 4 * lane;
            delta as int == IntDot(q8.qs, w, a, a + 4) + IntDot(q8.qs, w, a + 32, a + 32 + 4)
  {
    hide IntDot, Weights32, Q4Values, ScaleMin, ScalesOf, Ints;
    BytesRoundTrip(s);
    var low, high := LowHighSums(q8.qs, qs, group, lane);
    var lowScale, highScale := ScaleMin(group * 2, s).0 as i32, ScaleMin(group * 2 + 1, s).0 as i32;
    ProductBound(lowScale as int, low as int, 63, 7680);
    ProductBound(highScale as int, high as int, 63, 7680);
    delta := lowScale * low + highScale * high;
    assert (64 * group + 4 * lane) / 32 == group * 2 && (64 * group + 32 + 4 * lane) / 32 == group * 2 + 1;
    RunScaled(q8, Q4Values(qs), s, group * 2, 64 * group + 4 * lane, low as int);
    RunScaled(q8, Q4Values(qs), s, group * 2 + 1, 64 * group + 32 + 4 * lane, high as int);
  }

  method GroupLanesQ4(q8: Q8, qs: seq<bv8>, s: seq<bv8>, group: nat, aux: array<i32>)
    requires q8.Valid() && |qs| == 128 && |s| == 12 && group < 4
    requires aux.Length == 8 && Bounded(aux[..], group * 967680)
    modifies aux
    ensures Bounded(aux[..], group * 967680 + 967680)
    ensures Total(aux[..], 8)
         == old(Total(aux[..], 8)) + IntDot(q8.qs, Weights32(Q4Values(qs), ScalesOf(s)), 64 * group, 64 * group + 64)
  {
    hide IntDot, Weights32, Q4Values, ScalesOf;
    ghost var w := Weights32(Q4Values(qs), ScalesOf(s));
    EmptyDot(q8.qs, w, 64 * group);
    EmptyDot(q8.qs, w, 64 * group + 32);
    for lane := 0 to 8
      invariant Staircase(aux[..], lane, group * 967680, 967680)
      invariant Total(aux[..], 8) == old(Total(aux[..], 8)) + IntDot(q8.qs, w, 64 * group, 64 * group + 4 * lane)
        + IntDot(q8.qs, w, 64 * group + 32, 64 * group + 32 + 4 * lane)
    {
      var delta := LaneDeltaQ4(q8, qs, s, group, lane);
      AddLane(aux, lane, delta, group * 967680, 967680);
      IntDotSplit(q8.qs, w, 64 * group, 64 * group + 4 * lane, 64 * group + 4 * lane + 4);
      IntDotSplit(q8.qs, w, 64 * group + 32, 64 * group + 32 + 4 * lane, 64 * group + 32 + 4 * lane + 4);
    }
    IntDotSplit(q8.qs, w, 64 * group, 64 * group + 32, 64 * group + 64);
  }

  /** One Q4_K block: the lanes hold the scaled dot product between them. */
  method BlockLanesQ4(q8: Q8, qs: seq<bv8>, s: seq<bv8>) returns (aux: array<i32>)
    requires q8.Valid() && |qs| == 128 && |s| == 12
    ensures aux.Length == 8 && fresh(aux)
    ensures Total(aux[..], 8) == IntDot(q8.qs, Weights32(Q4Values(qs), ScalesOf(s)), 0, QK_K)
  {
    hide IntDot, Weights32, Q4Values, ScalesOf;
    aux := new i32[8](_ => 0);
    ghost var w := Weights32(Q4Values(qs), ScalesOf(s));
    TotalZero(aux[..], 8);
    EmptyDot(q8.qs, w, 0);
    for group := 0 to 4
      invariant Bounded(aux[..], group * 967680)
      invariant Total(aux[..], 8) == IntDot(q8.qs, w, 0, 64 * group)
    {
      GroupLanesQ4(q8, qs, s, group, aux);
      IntDotSplit(q8.qs, w, 0, 64 * group, 64 * group + 64);
    }
  }

  /** The minimum products of lane l cover groups 2l and 2l + 1 of 32. */
  method MinProduct(q8: Q8, s: seq<bv8>, lane: nat) returns (p: i32)
    requires q8.Valid() && |s| == 12 && lane < 4
    ensures p as int == MinSum(q8, MinsOf(s), 4 * lane + 4) - MinSum(q8, MinsOf(s), 4 * lane)
  {
    hide ScaleMin, MinSum;
    BytesRoundTrip(s);
    var m0, m1 := ScaleMin(2 * lane, s).1 as i32, ScaleMin(2 * lane + 1, s).1 as i32;
    SumBound(q8, 4 * lane);
    SumBound(q8, 4 * lane + 1);
    SumBound(q8, 4 * lane + 2);
    SumBound(q8, 4 * lane + 3);
    var sum0 := q8.sums16[4 * lane] + q8.sums16[4 * lane + 1];
    var sum1 := q8.sums16[4 * lane + 2] + q8.sums16[4 * lane + 3];
    ProductBound(m0 as int, sum0 as int, 63, 4096);
    ProductBound(m1 as int, sum1 as int, 63, 4096);
    p := m0 * sum0 + m1 * sum1;
    MinSumFour(q8, MinsOf(s), lane);
    TwoSums(m0 as int, q8.sums16[4 * lane] as int, q8.sums16[4 * lane + 1] as int, sum0 as int);
    TwoSums(m1 as int, q8.sums16[4 * lane + 2] as int, q8.sums16[4 * lane + 3] as int, sum1 as int);
  }

  lemma {:induction false} TwoSums(m: int, a: int, b: int, sum: int)
    requires sum == a + b
    ensures m * sum == a * m + b * m
  {}

  lemma {:induction false} MinSumFour(q8: Q8, mins: seq<bv8>, lane: nat)
    requires q8.Valid() && |mins| == 8 && lane < 4
    ensures MinSum(q8, mins, 4 * lane + 4) - MinSum(q8, mins, 4 * lane)
      == q8.sums16[4 * lane] as int * mins[2 * lane] as int + q8.sums16[4 * lane + 1] as int * mins[2 * lane] as int
       + q8.sums16[4 * lane + 2] as int * mins[2 * lane + 1] as int
           + q8.sums16[4 * lane + 3] as int * mins[2 * lane + 1] as int
  {
    assert (4 * lane) / 2 == 2 * lane && (4 * lane + 1) / 2 == 2 * lane;
    assert (4 * lane + 2) / 2 == 2 * lane + 1 && (4 * lane + 3) / 2 == 2 * lane + 1;
    assert MinSum(q8, mins, 4 * lane + 2) == MinSum(q8, mins, 4 * lane)
      + q8.sums16[4 * lane] as int * mins[2 * lane] as int + q8.sums16[4 * lane + 1] as int * mins[2 * lane] as int;
  }

  // ----- Q5_K

  /** Value i: a nibble as in Q4_K, and bit i / 32 of qh[i % 32] on top. */
  function Q5At(qh: seq<bv8>, qs: seq<bv8>, i: nat): (r: i32)
    requires |qh| == 32 && |qs| == 128 && i < QK_K
    ensures 0 <= r < 32
  {
    Q4At(qs, i) + if qh[i % 32] & BitMask(i / 32) != 0 then 16 else 0
  }

  /** `1_u8 << k` */
  function BitMask(k: nat): bv8 {
    match k
    case 0 => 1 case 1 => 2 case 2 => 4 case 3 => 8
    case 4 => 16 case 5 => 32 case 6 => 64 case 7 => 128
    case _ => 0
  }

  lemma {:induction false} ShiftMask(k: nat)
    requires k < 8
    ensures BitMask(k) << 1 == BitMask(k + 1)
  {}

  /** One run of 32: nibble plane k % 2 of the pair's bytes, bit plane k. */
  method FillRun(qh: seq<bv8>, qs: seq<bv8>, k: nat, highBit: bv8, quants: array<i32>)
    requires |qh| == 32 && |qs| == 128 && k < 8 && highBit == BitMask(k) && quants.Length == QK_K
    modifies quants
    ensures forall i :: 32 * k <= i < 32 * k + 32 ==> quants[i] == Q5At(qh, qs, i)
    ensures forall i :: 0 <= i < QK_K && !(32 * k <= i < 32 * k + 32) ==> quants[i] == old(quants[i])
  {
    hide Q4At, Nibble, BitMask;
    for lane := 0 to 32
      invariant forall i :: 32 * k <= i < 32 * k + lane ==> quants[i] == Q5At(qh, qs, i)
      invariant forall i :: 0 <= i < QK_K && !(32 * k <= i < 32 * k + lane) ==> quants[i] == old(quants[i])
    {
      NibblesOf(qs, k / 2, lane);
      var nibble := Nibble(qs[32 * (k / 2) + lane], k % 2) as i32;
      assert (32 * k + lane) / 32 == k && (32 * k + lane) % 32 == lane;
      assert nibble == Q4At(qs, 32 * k + lane);
      quants[32 * k + lane] := nibble + if qh[lane] & highBit != 0 then 16 else 0;
    }
  }

  method UnpackQ5(qh: seq<bv8>, qs: seq<bv8>) returns (quants: array<i32>)
    requires |qh| == 32 && |qs| == 128
    ensures quants.Length == QK_K && fresh(quants)
    ensures forall i :: 0 <= i < QK_K ==> quants[i] == Q5At(qh, qs, i)
  {
    hide Q5At;
    quants := new i32[QK_K](_ => 0);
    var highBit: bv8 := 1;
    for pair := 0 to 4
      invariant highBit == BitMask(2 * pair)
      invariant forall i :: 0 <= i < 64 * pair ==> quants[i] == Q5At(qh, qs, i)
    {
      FillRun(qh, qs, 2 * pair, highBit, quants);
      ShiftMask(2 * pair);
      highBit := highBit << 1;
      FillRun(qh, qs, 2 * pair + 1, highBit, quants);
      ShiftMask(2 * pair + 1);
      highBit := highBit << 1;
    }
  }

  /** `sumi`: sixteen products of 16-wide sums with minima, in i32. */
  method MinSumQ5(q8: Q8, s: seq<bv8>) returns (sumi: i32)
    requires q8.Valid() && |s| == 12
    ensures sumi as int == MinSum(q8, MinsOf(s), 16)
  {
    hide ScaleMin;
    BytesRoundTrip(s);
    sumi := 0;
    for group := 0 to 16
      invariant sumi as int == MinSum(q8, MinsOf(s), group) && -129024 * group <= sumi as int <= 129024 * group
    {
      var m := ScaleMin(group / 2, s).1 as i32;
      SumBound(q8, group);
      ProductBound(q8.sums16[group] as int, m as int, 2048, 63);
      sumi := sumi + q8.sums16[group] * m;
    }
  }

  method GroupLanesQ5(q8: Q8, q: seq<i32>, s: seq<bv8>, group: nat, aux: array<i32>)
    requires q8.Valid() && SmallQuants(q) && |s| == 12 && group < 8
    requires aux.Length == 8 && Bounded(aux[..], group * 4128768)
    modifies aux
    ensures Bounded(aux[..], group * 4128768 + 4128768)
    ensures Total(aux[..], 8)
         == old(Total(aux[..], 8)) + IntDot(q8.qs, Weights32(q, ScalesOf(s)), 32 * group, 32 * group + 32)
  {
    hide IntDot, Weights32, ScaleMin, Total, ScalesOf, MinsOf;
    ghost var w := Weights32(q, ScalesOf(s));
    BytesRoundTrip(s);
    EmptyDot(q8.qs, w, 32 * group);
    var scale := ScaleMin(group, s).0 as i32;
    for lane := 0 to 8
      invariant Staircase(aux[..], lane, group * 4128768, 4128768)
      invariant Total(aux[..], 8) == old(Total(aux[..], 8)) + IntDot(q8.qs, w, 32 * group, 32 * group + 4 * lane)
    {
      var sum := ChunkSum(q8.qs, q, 32 * group + lane * 4);
      ProductBound(scale as int, sum as int, 128, 32256);
      AddLane(aux, lane, scale * sum, group * 4128768, 4128768);
      assert (32 * group + 4 * lane) / 32 == group;
      ChunkIsScaled32(q8.qs, q, ScalesOf(s), 32 * group + 4 * lane);
      IntDotSplit(q8.qs, w, 32 * group, 32 * group + 4 * lane, 32 * group + 4 * lane + 4);
    }
  }

  /** One Q5_K block. */
  method BlockLanesQ5(q8: Q8, qh: seq<bv8>, qs: seq<bv8>, s: seq<bv8>) returns (aux: array<i32>, ghost q: seq<i32>)
    requires q8.Valid() && |qh| == 32 && |qs| == 128 && |s| == 12
    ensures aux.Length == 8 && fresh(aux) && |q| == QK_K
    ensures forall i :: 0 <= i < QK_K ==> q[i] == Q5At(qh, qs, i)
    ensures Total(aux[..], 8) == IntDot(q8.qs, Weights32(q, ScalesOf(s)), 0, QK_K)
  {
    hide IntDot, Weights32, ScalesOf;
    var quants := UnpackQ5(qh, qs);
    q := quants[..];
    aux := new i32[8](_ => 0);
    TotalZero(aux[..], 8);
    EmptyDot(q8.qs, Weights32(q, ScalesOf(s)), 0);
    for group := 0 to 8
      invariant quants[..] == q
      invariant Bounded(aux[..], group * 4128768)
      invariant Total(aux[..], 8) == IntDot(q8.qs, Weights32(q, ScalesOf(s)), 0, 32 * group)
    {
      GroupLanesQ5(q8, quants[..], s, group, aux);
      IntDotSplit(q8.qs, Weights32(q, ScalesOf(s)), 0, 32 * group, 32 * group + 32);
    }
  }
}
