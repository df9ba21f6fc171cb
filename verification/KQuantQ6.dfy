/** The Q6_K by Q8_K block: unpacking, lane-scrambled accumulation and the zero-point correction. */
module KQuantQ6 {
  import opened KQuantSums

  function Nibble(b: bv8, k: nat): bv8 {
    if k == 0 then b & 0x0f else b >> 4
  }

  function Crumb(b: bv8, k: nat): bv8 {
    match k
    case 0 => b & 0x03
    case 1 => (b >> 2) & 0x03
    case 2 => (b >> 4) & 0x03
    case _ => (b >> 6) & 0x03
  }

  function AsI8(b: bv8): (r: i8) {
    if b < 128 then b as i8 else (b as int - 256) as i8
  }

  /** Value l of quarter m of a half: a nibble of `ql`, low nibbles first, and the two bits of `qh`
      at the position the quarter names. */
  function Q6Of(ql: seq<bv8>, qh: seq<bv8>, half: nat, m: nat, l: nat): bv8
    requires |ql| == 128 && |qh| == 64 && half < 2 && m < 4 && l < 32
  {
    Nibble(ql[64 * half + 32 * (m % 2) + l], m / 2) | (Crumb(qh[32 * half + l], m) << 4)
  }

  function Q6At(ql: seq<bv8>, qh: seq<bv8>, i: nat): bv8
    requires |ql| == 128 && |qh| == 64 && i < QK_K
  {
    Q6Of(ql, qh, i / 128, i % 128 / 32, i % 32)
  }

  lemma {:induction false} Q6Range(ql: seq<bv8>, qh: seq<bv8>, i: nat)
    requires |ql| == 128 && |qh| == 64 && i < QK_K
    ensures Q6At(ql, qh, i) < 64
  {}

  ghost predicate Holds(ql: seq<bv8>, qh: seq<bv8>, q: seq<i32>, half: nat, m: nat, l: nat)
    requires |ql| == 128 && |qh| == 64 && |q| == QK_K && half < 2 && m < 4 && l < 32
  {
    q[128 * half + 32 * m + l] as int == Q6Of(ql, qh, half, m, l) as int
  }

  method Words(ql: seq<bv8>, qh: seq<bv8>, half: nat, l: nat) returns (w0: bv8, w1: bv8, w2: bv8, w3: bv8)
    requires |ql| == 128 && |qh| == 64 && half < 2 && l < 32
    ensures w0 == Q6Of(ql, qh, half, 0, l) && w1 == Q6Of(ql, qh, half, 1, l)
    ensures w2 == Q6Of(ql, qh, half, 2, l) && w3 == Q6Of(ql, qh, half, 3, l)
  {
    var high := qh[half * 32 + l];
    w0 := (ql[half * 64 + l] & 0x0f) | ((high & 0x03) << 4);
    w1 := (ql[half * 64 + l + 32] & 0x0f) | (((high >> 2) & 0x03) << 4);
    w2 := (ql[half * 64 + l] >> 4) | (((high >> 4) & 0x03) << 4);
    w3 := (ql[half * 64 + l + 32] >> 4) | (((high >> 6) & 0x03) << 4);
  }

  /** The four cells one pass of the inner loop writes. */
  ghost predicate Strided(half: nat, l: nat, i: int) {
    i == 128 * half + l || i == 128 * half + l + 32 || i == 128 * half + l + 64 || i == 128 * half + l + 96
  }

  lemma {:induction false} Kept(ql: seq<bv8>, qh: seq<bv8>, a: seq<i32>, b: seq<i32>, half: nat, l: nat, h: nat, m: nat,
                                k: nat)
    requires |ql| == 128 && |qh| == 64 && |a| == |b| == QK_K && half < 2 && l < 32 && h < 2 && m < 4 && k < 32
    requires h != half || k != l
    requires forall i :: 0 <= i < QK_K && !Strided(half, l, i) ==> b[i] == a[i]
    requires Holds(ql, qh, a, h, m, k)
    ensures Holds(ql, qh, b, h, m, k)
  {
    hide Q6Of;
    var i := 128 * h + 32 * m + k;
    assert i % 32 == k && i / 128 == h;
  }

  method UnpackQ6(ql: seq<bv8>, qh: seq<bv8>) returns (quants: array<i32>)
    requires |ql| == 128 && |qh| == 64
    ensures quants.Length == QK_K && fresh(quants)
    ensures forall i :: 0 <= i < QK_K ==> quants[i] as int == Q6At(ql, qh, i) as int
  {
    hide Q6Of, Holds;
    quants := new i32[QK_K](_ => 0);
    for half := 0 to 2
      invariant forall h, m, k :: 0 <= h < half && 0 <= m < 4 && 0 <= k < 32 ==> Holds(ql, qh, quants[..], h, m, k)
    {
      for l := 0 to 32
        invariant forall h, m, k :: 0 <= h < half && 0 <= m < 4 && 0 <= k < 32 ==> Holds(ql, qh, quants[..], h, m, k)
        invariant forall m, k :: 0 <= m < 4 && 0 <= k < l ==> Holds(ql, qh, quants[..], half, m, k)
      {
        ghost var before := quants[..];
        StoreQ6(ql, qh, half, l, quants);
        forall h, m, k | 0 <= h <= half && 0 <= m < 4 && 0 <= k < 32 && (h < half || k < l)
          ensures Holds(ql, qh, quants[..], h, m, k)
        {
          Kept(ql, qh, before, quants[..], half, l, h, m, k);
        }
      }
    }
    forall i | 0 <= i < QK_K ensures quants[i] as int == Q6At(ql, qh, i) as int {
      assert Holds(ql, qh, quants[..], i / 128, i % 128 / 32, i % 32);
      HoldsAt(ql, qh, quants[..], i);
    }
  }

  lemma {:induction false} HoldsAt(ql: seq<bv8>, qh: seq<bv8>, q: seq<i32>, i: nat)
    requires |ql| == 128 && |qh| == 64 && |q| == QK_K && i < QK_K && Holds(ql, qh, q, i / 128, i % 128 / 32, i % 32)
    ensures q[i] as int == Q6At(ql, qh, i) as int
  {
    hide Q6Of;
  }

  /** One pass of the inner loop: the four quarters' l-th values. */
  method StoreQ6(ql: seq<bv8>, qh: seq<bv8>, half: nat, l: nat, quants: array<i32>)
    requires |ql| == 128 && |qh| == 64 && half < 2 && l < 32 && quants.Length == QK_K
    modifies quants
    ensures forall m :: 0 <= m < 4 ==> Holds(ql, qh, quants[..], half, m, l)
    ensures forall i :: 0 <= i < QK_K && !Strided(half, l, i) ==> quants[..][i] == old(quants[..])[i]
  {
    hide Q6Of;
    var word0, word1, word2, word3 := Words(ql, qh, half, l);
    quants[half * 128 + l] := word0 as i32;
    quants[half * 128 + l + 32] := word1 as i32;
    quants[half * 128 + l + 64] := word2 as i32;
    quants[half * 128 + l + 96] := word3 as i32;
    assert Holds(ql, qh, quants[..], half, 0, l) && Holds(ql, qh, quants[..], half, 1, l);
    assert Holds(ql, qh, quants[..], half, 2, l) && Holds(ql, qh, quants[..], half, 3, l);
  }

  /** The integer weight of value i before the block scale: scales[i / 16] * (q[i] - 32). */
  ghost function Weights(q: seq<i32>, scales: seq<bv8>): (w: seq<int>)
    requires |q| == QK_K && |scales| == 16
    ensures |w| == QK_K
  {
    seq(QK_K, i requires 0 <= i < QK_K => AsI8(scales[i / 16]) as int * (q[i] as int - 32))
  }

  /** The same weights without the zero point, which is what the lanes accumulate first. */
  ghost function RawWeights(q: seq<i32>, scales: seq<bv8>): (w: seq<int>)
    requires |q| == QK_K && |scales| == 16
    ensures |w| == QK_K
  {
    seq(QK_K, i requires 0 <= i < QK_K => AsI8(scales[i / 16]) as int * q[i] as int)
  }

  lemma {:induction false} ChunkIsScaled(x: seq<i8>, q: seq<i32>, scales: seq<bv8>, c: nat)
    requires |x| == |q| == QK_K && |scales| == 16 && c < 64
    ensures IntDot(x, RawWeights(q, scales), 4 * c, 4 * c + 4)
        == AsI8(scales[c / 4]) as int * IntDot(x, Ints(q), 4 * c, 4 * c + 4)
  {
    forall i | 4 * c <= i < 4 * c + 4 ensures RawWeights(q, scales)[i] == AsI8(scales[c / 4]) as int * Ints(q)[i] {
      assert i / 16 == c / 4;
    }
    IntDotScale(x, Ints(q), RawWeights(q, scales), AsI8(scales[c / 4]) as int, 4 * c, 4 * c + 4);
  }

  /** First pass, one group of 32: chunk c = 8 * group + lane goes to its lane, scaled by scales[c / 4]. */
  method GroupLanes(q8: Q8, q: seq<i32>, scales: seq<bv8>, group: nat, aux: array<i32>)
    requires q8.Valid() && SmallQuants(q) && |scales| == 16 && group < 8
    requires aux.Length == 8 && Bounded(aux[..], group * 4128768)
    modifies aux
    ensures Bounded(aux[..], group * 4128768 + 4128768)
    ensures Total(aux[..], 8)
         == old(Total(aux[..], 8)) + IntDot(q8.qs, RawWeights(q, scales), 32 * group, 32 * group + 32)
  {
    hide IntDot, RawWeights, AsI8;
    AsI8Range(scales[group * 2]);
    AsI8Range(scales[group * 2 + 1]);
    EmptyDot(q8.qs, RawWeights(q, scales), 32 * group);
    for lane := 0 to 8
      invariant Staircase(aux[..], lane, group * 4128768, 4128768)
      invariant Total(aux[..], 8)
        == old(Total(aux[..], 8)) + IntDot(q8.qs, RawWeights(q, scales), 32 * group, 32 * group + 4 * lane)
    {
      var sum := ChunkSum(q8.qs, q, group * 32 + lane * 4);
      var scale := if lane < 4 then AsI8(scales[group * 2]) as i32 else AsI8(scales[group * 2 + 1]) as i32;
      ProductBound(scale as int, sum as int, 128, 32256);
      AddLane(aux, lane, scale * sum, group * 4128768, 4128768);
      assert (8 * group + lane) / 4 == if lane < 4 then group * 2 else group * 2 + 1;
      ChunkIsScaled(q8.qs, q, scales, 8 * group + lane);
      IntDotSplit(q8.qs, RawWeights(q, scales), 32 * group, 32 * group + 4 * lane, 32 * group + 4 * lane + 4);
    }
  }

  lemma {:induction false} AsI8Range(b: bv8)
    ensures -128 <= AsI8(b) as int <= 127
  {}

  method RawLanes(q8: Q8, q: seq<i32>, scales: seq<bv8>) returns (aux: array<i32>)
    requires q8.Valid() && SmallQuants(q) && |scales| == 16
    ensures aux.Length == 8 && fresh(aux) && Bounded(aux[..], 33030144)
    ensures Total(aux[..], 8) == IntDot(q8.qs, RawWeights(q, scales), 0, QK_K)
  {
    hide IntDot, RawWeights;
    aux := new i32[8](_ => 0);
    TotalZero(aux[..], 8);
    EmptyDot(q8.qs, RawWeights(q, scales), 0);
    for group := 0 to 8
      invariant Bounded(aux[..], group * 4128768)
      invariant Total(aux[..], 8) == IntDot(q8.qs, RawWeights(q, scales), 0, 32 * group)
    {
      GroupLanes(q8, q, scales, group, aux);
      IntDotSplit(q8.qs, RawWeights(q, scales), 0, 32 * group, 32 * group + 32);
    }
  }

  /** sum over g < n of sums16[g] * scales[g] */
  ghost function ZeroPoints(q8: Q8, scales: seq<bv8>, n: nat): int
    requires q8.Valid() && |scales| == 16 && n <= 16
  {
    if n == 0 then 0 else ZeroPoints(q8, scales, n - 1) + q8.sums16[n - 1] as int * AsI8(scales[n - 1]) as int
  }

  /** Group by group, 32 times the zero points is exactly what the weights are short of. */
  lemma {:induction false} ZeroPointsCorrect(q8: Q8, q: seq<i32>, scales: seq<bv8>, n: nat)
    requires q8.Valid() && |q| == QK_K && |scales| == 16 && n <= 16
    ensures IntDot(q8.qs, Weights(q, scales), 0, 16 * n)
         == IntDot(q8.qs, RawWeights(q, scales), 0, 16 * n) - 32 * ZeroPoints(q8, scales, n)
  {
    hide IntDot, Weights, RawWeights, SumOf;
    if n > 0 {
      ZeroPointsCorrect(q8, q, scales, n - 1);
      var a, b, s := 16 * (n - 1), 16 * n, AsI8(scales[n - 1]) as int;
      IntDotSplit(q8.qs, Weights(q, scales), 0, a, b);
      IntDotSplit(q8.qs, RawWeights(q, scales), 0, a, b);
      forall i | a <= i < b ensures Weights(q, scales)[i] == RawWeights(q, scales)[i] - 32 * s {
        WeightShift(q, scales, n - 1, i);
      }
      IntDotShift(q8.qs, RawWeights(q, scales), Weights(q, scales), 32 * s, a, b);
      assert q8.sums16[n - 1] as int == SumOf(q8.qs, a, b);
      Regroup(s, SumOf(q8.qs, a, b));
    } else {
      EmptyDot(q8.qs, Weights(q, scales), 0);
      EmptyDot(q8.qs, RawWeights(q, scales), 0);
    }
  }

  lemma {:induction false} WeightShift(q: seq<i32>, scales: seq<bv8>, group: nat, i: nat)
    requires |q| == QK_K && |scales| == 16 && group < 16 && 16 * group <= i < 16 * group + 16
    ensures Weights(q, scales)[i] == RawWeights(q, scales)[i] - 32 * (AsI8(scales[group]) as int)
  {
    assert i / 16 == group;
    Distribute(AsI8(scales[group]) as int, q[i] as int);
  }

  lemma {:induction false} Distribute(s: int, q: int)
    ensures s * (q - 32) == s * q - 32 * s
  {}

  lemma {:induction false} Regroup(s: int, t: int)
    ensures 32 * s * t == 32 * (t * s)
  {}

  /** Second pass: lane l gives up the zero points of groups 2l and 2l + 1, which are not the groups
      its own products came from; only the total over the lanes is meaningful. */
  method CorrectLanes(q8: Q8, scales: seq<bv8>, aux: array<i32>)
    requires q8.Valid() && |scales| == 16 && aux.Length == 8 && Bounded(aux[..], 33030144)
    modifies aux
    ensures Total(aux[..], 8) == old(Total(aux[..], 8)) - 32 * ZeroPoints(q8, scales, 16)
  {
    for lane := 0 to 8
      invariant Staircase(aux[..], lane, 33030144, 16777216)
      invariant Total(aux[..], 8) == old(Total(aux[..], 8)) - 32 * ZeroPoints(q8, scales, 2 * lane)
    {
      var scale0 := AsI8(scales[lane * 2]) as i32;
      var scale1 := AsI8(scales[lane * 2 + 1]) as i32;
      SumBound(q8, lane * 2);
      SumBound(q8, lane * 2 + 1);
      ProductBound(q8.sums16[lane * 2] as int, scale0 as int, 2048, 128);
      ProductBound(q8.sums16[lane * 2 + 1] as int, scale1 as int, 2048, 128);
      var zeroPoint := (q8.sums16[lane * 2] * scale0 + q8.sums16[lane * 2 + 1] * scale1) * 32;
      AddLane(aux, lane, -zeroPoint, 33030144, 16777216);
      assert ZeroPoints(q8, scales, 2 * lane + 2) == ZeroPoints(q8, scales, 2 * lane)
        + q8.sums16[2 * lane] as int * scale0 as int + q8.sums16[2 * lane + 1] as int * scale1 as int;
    }
  }

  /** One block: whatever each lane holds, the lanes together hold the exact integer dot product. */
  method BlockLanes(q8: Q8, ql: seq<bv8>, qh: seq<bv8>, scales: seq<bv8>) returns (aux: array<i32>, ghost q: seq<i32>)
    requires q8.Valid() && |ql| == 128 && |qh| == 64 && |scales| == 16
    ensures aux.Length == 8 && fresh(aux) && |q| == QK_K
    ensures forall i :: 0 <= i < QK_K ==> q[i] as int == Q6At(ql, qh, i) as int
    ensures Total(aux[..], 8) == IntDot(q8.qs, Weights(q, scales), 0, QK_K)
  {
    hide Q6At;
    var quants := UnpackQ6(ql, qh);
    forall i | 0 <= i < QK_K ensures 0 <= quants[i] < 64 { Q6Range(ql, qh, i); }
    q := quants[..];
    aux := RawLanes(q8, quants[..], scales);
    CorrectLanes(q8, scales, aux);
    ZeroPointsCorrect(q8, q, scales, 16);
  }
}
