/** Whole blocks as packers: what each byte of a Q4_K, Q5_K or Q6_K block is, and the real number that every
    stored value stands for. */
module KQuantBlocks {
  import opened KQuantSums
  import opened KQuantQ6
  import opened KQuantQ45
  import opened KQuantRows
  import opened KQuantFormat

  // ---- nibbles ----

  /** Byte p: the value at p % 32 of its group of 64 low, and the one 32 on high. */
  function PackNibbles(v: seq<bv8>): (qs: seq<bv8>)
    requires |v| == QK_K
    ensures |qs| == 128
  {
    seq(128, p requires 0 <= p < 128 => Pair(v[64 * (p / 32) + p % 32], v[64 * (p / 32) + p % 32 + 32]))
  }

  lemma {:induction false} NibbleByteOf(v: seq<bv8>, group: nat, k: nat)
    requires |v| == QK_K && group < 4 && k < 32
    ensures PackNibbles(v)[32 * group + k] == Pair(v[64 * group + k], v[64 * group + k + 32])
  {
    hide Pair;
    assert (32 * group + k) / 32 == group && (32 * group + k) % 32 == k;
  }

  /** The kernel reads the low four bits of what was packed. */
  lemma {:induction false} NibblesRead(v: seq<bv8>, group: nat, k: nat)
    requires |v| == QK_K && group < 4 && k < 32
    ensures Q4At(PackNibbles(v), 64 * group + k) as int == (v[64 * group + k] & 0x0f) as int
    ensures Q4At(PackNibbles(v), 64 * group + 32 + k) as int == (v[64 * group + 32 + k] & 0x0f) as int
  {
    hide Nibble, Pair, Q4At, PackNibbles;
    NibbleByteOf(v, group, k);
    NibblesOf(PackNibbles(v), group, k);
    PairSplits(v[64 * group + k], v[64 * group + k + 32]);
  }

  lemma {:induction false} NibbleRead(v: seq<bv8>, i: nat)
    requires |v| == QK_K && i < QK_K
    ensures Q4At(PackNibbles(v), i) as int == (v[i] & 0x0f) as int
  {
    hide Q4At, PackNibbles;
    NibblesRead(v, i / 64, i % 32);
    if i % 64 < 32 { assert i == 64 * (i / 64) + i % 32; } else { assert i == 64 * (i / 64) + 32 + i % 32; }
  }

  function Values4(qs: seq<bv8>): (v: seq<bv8>)
    requires |qs| == 128
    ensures |v| == QK_K && forall i :: 0 <= i < QK_K ==> v[i] as int == Q4At(qs, i) as int
  {
    seq(QK_K, i requires 0 <= i < QK_K => Q4At(qs, i) as int as bv8)
  }

  lemma {:induction false} SmallNibble(x: bv8)
    requires x < 16
    ensures x & 0x0f == x
  {}

  /** Nibbles packed are nibbles read. */
  lemma {:induction false} Q4RoundTrip(v: seq<bv8>)
    requires Below(v, 16)
    ensures Values4(PackNibbles(v)) == v
  {
    hide Q4At, PackNibbles;
    var w := Values4(PackNibbles(v));
    forall i | 0 <= i < QK_K ensures w[i] == v[i] {
      NibbleRead(v, i);
      SmallNibble(v[i]);
    }
  }

  lemma {:induction false} NibbleByte(qs: seq<bv8>, v: seq<bv8>, group: nat, k: nat)
    requires |qs| == 128 && |v| == QK_K && group < 4 && k < 32
    requires v[64 * group + k] & 0x0f == Nibble(qs[32 * group + k], 0)
    requires v[64 * group + k + 32] & 0x0f == Nibble(qs[32 * group + k], 1)
    ensures PackNibbles(v)[32 * group + k] == qs[32 * group + k]
  {
    hide Nibble, Pair, PackNibbles;
    var b := qs[32 * group + k];
    NibbleByteOf(v, group, k);
    NibblesJoin(b);
    PairOfLow(v[64 * group + k], v[64 * group + k + 32], Nibble(b, 0), Nibble(b, 1));
  }

  /** Any 128 bytes are the packing of the nibbles they hold. */
  lemma {:induction false} Q4BytesRoundTrip(qs: seq<bv8>)
    requires |qs| == 128
    ensures Below(Values4(qs), 16) && PackNibbles(Values4(qs)) == qs
  {
    hide Q4At, PackNibbles, Nibble, Values4;
    var v := Values4(qs);
    var b := PackNibbles(v);
    forall p | 0 <= p < 128 ensures b[p] == qs[p] {
      var group, k := p / 32, p % 32;
      NibblesOf(qs, group, k);
      SmallNibble(v[64 * group + k]);
      SmallNibble(v[64 * group + k + 32]);
      NibbleByte(qs, v, group, k);
    }
  }

  // ---- fifth bits ----

  /** Bit four of eight values, the first lowest. */
  function Octet(a: bv8, b: bv8, c: bv8, d: bv8, e: bv8, f: bv8, g: bv8, h: bv8): bv8 {
    ((a >> 4) & 1) | (((b >> 4) & 1) << 1) | (((c >> 4) & 1) << 2) | (((d >> 4) & 1) << 3)
    | (((e >> 4) & 1) << 4) | (((f >> 4) & 1) << 5) | (((g >> 4) & 1) << 6) | (((h >> 4) & 1) << 7)
  }

  /** Byte l: the fifth bits of the values at l of the eight runs of 32. */
  function PackFifth(v: seq<bv8>): (qh: seq<bv8>)
    requires |v| == QK_K
    ensures |qh| == 32
  {
    seq(32, l requires 0 <= l < 32 =>
      Octet(v[l], v[l + 32], v[l + 64], v[l + 96], v[l + 128], v[l + 160], v[l + 192], v[l + 224]))
  }

  /** Bit `mask` of b is bit four of a. */
  ghost predicate BitIs(b: bv8, mask: bv8, a: bv8) { b & mask != 0 <==> a & 0x10 != 0 }

  ghost predicate BitsAre(o: bv8, a: bv8, b: bv8, c: bv8, d: bv8, e: bv8, f: bv8, g: bv8, h: bv8) {
    && BitIs(o, 1, a) && BitIs(o, 2, b) && BitIs(o, 4, c) && BitIs(o, 8, d)
    && BitIs(o, 16, e) && BitIs(o, 32, f) && BitIs(o, 64, g) && BitIs(o, 128, h)
  }

  lemma {:induction false} OctetReads(a: bv8, b: bv8, c: bv8, d: bv8, e: bv8, f: bv8, g: bv8, h: bv8)
    ensures BitsAre(Octet(a, b, c, d, e, f, g, h), a, b, c, d, e, f, g, h)
  {}

  lemma {:induction false} SameOctet(o: bv8, a: bv8, b: bv8, c: bv8, d: bv8, e: bv8, f: bv8, g: bv8, h: bv8)
    requires BitsAre(o, a, b, c, d, e, f, g, h)
    ensures Octet(a, b, c, d, e, f, g, h) == o
  {}

  /** The bits of byte l, literally. */
  ghost predicate FifthBits(v: seq<bv8>, l: nat, b: bv8)
    requires |v| == QK_K && l < 32
  {
    BitsAre(b, v[l], v[l + 32], v[l + 64], v[l + 96], v[l + 128], v[l + 160], v[l + 192], v[l + 224])
  }

  lemma {:induction false} FifthByteOf(v: seq<bv8>, l: nat)
    requires |v| == QK_K && l < 32
    ensures PackFifth(v)[l]
         == Octet(v[l], v[l + 32], v[l + 64], v[l + 96], v[l + 128], v[l + 160], v[l + 192], v[l + 224])
  {
    hide Octet;
  }

  lemma {:induction false} FifthPacked(v: seq<bv8>, l: nat)
    requires |v| == QK_K && l < 32
    ensures FifthBits(v, l, PackFifth(v)[l])
  {
    hide Octet, PackFifth, BitsAre;
    FifthByteOf(v, l);
    OctetReads(v[l], v[l + 32], v[l + 64], v[l + 96], v[l + 128], v[l + 160], v[l + 192], v[l + 224]);
  }

  /** The kernel finds bit k of byte l set exactly when value l of run k has its fifth bit. */
  lemma {:induction false} FifthRead(v: seq<bv8>, k: nat, l: nat)
    requires |v| == QK_K && k < 8 && l < 32
    ensures BitIs(PackFifth(v)[l], BitMask(k), v[32 * k + l])
  {
    hide BitIs, PackFifth;
    FifthPacked(v, l);
    match k
    case 0 => case 1 => case 2 => case 3 => case 4 => case 5 => case 6 => case _ =>
  }

  function Values5(qh: seq<bv8>, qs: seq<bv8>): (v: seq<bv8>)
    requires |qh| == 32 && |qs| == 128
    ensures |v| == QK_K && forall i :: 0 <= i < QK_K ==> v[i] as int == Q5At(qh, qs, i) as int
  {
    seq(QK_K, i requires 0 <= i < QK_K => Q5At(qh, qs, i) as int as bv8)
  }

  lemma {:induction false} FiveBitsJoin(x: bv8)
    requires x < 32
    ensures (x & 0x0f) as int + (if x & 0x10 != 0 then 16 else 0) == x as int
  {
    if x & 0x10 != 0 {
      assert x == (x & 0x0f) + 16 && (x & 0x0f) < 16;
    } else {
      assert x == x & 0x0f;
    }
  }

  /** Five-bit values packed are five-bit values read. */
  lemma {:induction false} Q5RoundTrip(v: seq<bv8>)
    requires Below(v, 32)
    ensures Values5(PackFifth(v), PackNibbles(v)) == v
  {
    hide Q4At, PackNibbles, PackFifth, BitMask;
    var w := Values5(PackFifth(v), PackNibbles(v));
    forall i | 0 <= i < QK_K ensures w[i] == v[i] {
      NibbleRead(v, i);
      FifthRead(v, i / 32, i % 32);
      FiveBitsJoin(v[i]);
    }
  }

  lemma {:induction false} FiveBitsSplit(n: i32, bit: bool, x: bv8)
    requires 0 <= n < 16 && x as int == n as int + (if bit then 16 else 0)
    ensures x < 32 && (x & 0x0f) as int == n as int && (x & 0x10 != 0 <==> bit)
  {
    FiveBitsJoin(x);
    assert x & 0x0f < 16;
  }

  /** The two parts of value i. */
  lemma {:induction false} Split5(qh: seq<bv8>, qs: seq<bv8>, i: nat)
    requires |qh| == 32 && |qs| == 128 && i < QK_K
    ensures var x := Values5(qh, qs)[i];
            x < 32 && (x & 0x0f) as int == Q4At(qs, i) as int
            && (x & 0x10 != 0 <==> qh[i % 32] & BitMask(i / 32) != 0)
  {
    hide BitMask;
    Q4Range(qs, i);
    FiveBitsSplit(Q4At(qs, i), qh[i % 32] & BitMask(i / 32) != 0, Values5(qh, qs)[i]);
  }

  lemma {:induction false} Q4Range(qs: seq<bv8>, i: nat)
    requires |qs| == 128 && i < QK_K
    ensures 0 <= Q4At(qs, i) < 16
  {}

  lemma {:induction false} OctetJoins(o: bv8, v: seq<bv8>, l: nat)
    requires |v| == QK_K && l < 32 && FifthBits(v, l, o)
    ensures PackFifth(v)[l] == o
  {
    hide Octet, PackFifth, BitsAre;
    FifthByteOf(v, l);
    SameOctet(o, v[l], v[l + 32], v[l + 64], v[l + 96], v[l + 128], v[l + 160], v[l + 192], v[l + 224]);
  }

  /** The fifth bit of value l of run k. */
  lemma {:induction false} RunBit(qh: seq<bv8>, qs: seq<bv8>, k: nat, l: nat)
    requires |qh| == 32 && |qs| == 128 && k < 8 && l < 32
    ensures 32 * k + l < QK_K && BitIs(qh[l], BitMask(k), Values5(qh, qs)[32 * k + l])
  {
    hide BitMask, Values5, Q4At;
    var i := 32 * k + l;
    assert i / 32 == k && i % 32 == l;
    Split5(qh, qs, i);
  }

  lemma {:induction false} FifthByte(qh: seq<bv8>, qs: seq<bv8>, l: nat)
    requires |qh| == 32 && |qs| == 128 && l < 32
    ensures PackFifth(Values5(qh, qs))[l] == qh[l]
  {
    hide Values5, BitIs, PackFifth;
    RunBit(qh, qs, 0, l);
    RunBit(qh, qs, 1, l);
    RunBit(qh, qs, 2, l);
    RunBit(qh, qs, 3, l);
    RunBit(qh, qs, 4, l);
    RunBit(qh, qs, 5, l);
    RunBit(qh, qs, 6, l);
    RunBit(qh, qs, 7, l);
    OctetJoins(qh[l], Values5(qh, qs), l);
  }

  /** Any bytes are the packing of the five-bit values they hold. */
  lemma {:induction false} Q5BytesRoundTrip(qh: seq<bv8>, qs: seq<bv8>)
    requires |qh| == 32 && |qs| == 128
    ensures Below(Values5(qh, qs), 32)
    ensures PackFifth(Values5(qh, qs)) == qh && PackNibbles(Values5(qh, qs)) == qs
  {
    hide Q4At, PackNibbles, PackFifth, Nibble, Values5, BitMask;
    var v := Values5(qh, qs);
    forall i | 0 <= i < QK_K ensures v[i] < 32 { Split5(qh, qs, i); }
    var b, c := PackNibbles(v), PackFifth(v);
    forall p | 0 <= p < 128 ensures b[p] == qs[p] {
      var group, k := p / 32, p % 32;
      NibblesOf(qs, group, k);
      Split5(qh, qs, 64 * group + k);
      Split5(qh, qs, 64 * group + k + 32);
      NibbleByte(qs, v, group, k);
    }
    forall l | 0 <= l < 32 ensures c[l] == qh[l] { FifthByte(qh, qs, l); }
  }

  // ---- blocks ----

  /** Two bytes of half precision. */
  type Pair16 = (bv8, bv8)

  /** A Q4_K block: the scale of the scales, the scale of the minima, those, and the nibbles. */
  function Block4(d: Pair16, dmin: Pair16, scales: seq<bv8>, mins: seq<bv8>, v: seq<bv8>): (raw: seq<bv8>)
    requires |scales| == |mins| == 8 && |v| == QK_K
    ensures |raw| == Q4_BYTES
  {
    [d.0, d.1, dmin.0, dmin.1] + PackScales(scales, mins) + PackNibbles(v)
  }

  /** A Q5_K block: the same with the fifth bits before the nibbles. */
  function Block5(d: Pair16, dmin: Pair16, scales: seq<bv8>, mins: seq<bv8>, v: seq<bv8>): (raw: seq<bv8>)
    requires |scales| == |mins| == 8 && |v| == QK_K
    ensures |raw| == Q5_BYTES
  {
    [d.0, d.1, dmin.0, dmin.1] + PackScales(scales, mins) + PackFifth(v) + PackNibbles(v)
  }

  predicate AreI8(s: seq<int>) { |s| == 16 && forall g :: 0 <= g < 16 ==> -128 <= s[g] < 128 }

  /** A signed byte in two's complement. */
  function ByteOf(s: int): bv8
    requires -128 <= s < 128
  {
    (if s < 0 then s + 256 else s) as bv8
  }

  function ScaleBytes(scales: seq<int>): (b: seq<bv8>)
    requires AreI8(scales)
    ensures |b| == 16 && forall g :: 0 <= g < 16 ==> b[g] == ByteOf(scales[g])
  {
    seq(16, g requires 0 <= g < 16 => ByteOf(scales[g]))
  }

  /** A Q6_K block: nibbles, high bits, sixteen signed scales, and the scale of the scales. */
  function Block6(d: Pair16, scales: seq<int>, v: seq<bv8>): (raw: seq<bv8>)
    requires AreI8(scales) && |v| == QK_K
    ensures |raw| == Q6_BYTES
  {
    PackLow6(v) + PackHigh6(v) + ScaleBytes(scales) + [d.0, d.1]
  }

  lemma {:induction false} Parts4(d: Pair16, dmin: Pair16, scales: seq<bv8>, mins: seq<bv8>, v: seq<bv8>)
    requires |scales| == |mins| == 8 && |v| == QK_K
    ensures var raw := Block4(d, dmin, scales, mins, v);
            && (raw[0], raw[1]) == d && (raw[2], raw[3]) == dmin
            && raw[4..16] == PackScales(scales, mins) && raw[16..144] == PackNibbles(v)
  {
    hide PackScales, PackNibbles;
    PackScalesLength(scales, mins);
  }

  lemma {:induction false} PackScalesLength(scales: seq<bv8>, mins: seq<bv8>)
    requires |scales| == |mins| == 8
    ensures |PackScales(scales, mins)| == 12
  {}

  lemma {:induction false} Parts5(d: Pair16, dmin: Pair16, scales: seq<bv8>, mins: seq<bv8>, v: seq<bv8>)
    requires |scales| == |mins| == 8 && |v| == QK_K
    ensures var raw := Block5(d, dmin, scales, mins, v);
            && (raw[0], raw[1]) == d && (raw[2], raw[3]) == dmin && raw[4..16] == PackScales(scales, mins)
            && raw[16..48] == PackFifth(v) && raw[48..176] == PackNibbles(v)
  {
    hide PackScales, PackNibbles, PackFifth;
    PackScalesLength(scales, mins);
  }

  lemma {:induction false} Parts6(d: Pair16, scales: seq<int>, v: seq<bv8>)
    requires AreI8(scales) && |v| == QK_K
    ensures var raw := Block6(d, scales, v);
            && raw[0..128] == PackLow6(v) && raw[128..192] == PackHigh6(v)
            && raw[192..208] == ScaleBytes(scales) && (raw[208], raw[209]) == d
  {
    hide PackLow6, PackHigh6, ScaleBytes;
  }

  /** What a value stands for: d * scale * value - dmin * minimum. */
  function Stands(d: real, scale: int, value: int, dmin: real, min: int): real {
    d * ((scale * value) as real) - dmin * (min as real)
  }

  lemma {:induction false} AffineAt(w: seq<real>, c: real, v: seq<int>, e: real, m: seq<int>, i: nat, scale: int,
                                    value: int)
    requires Affine(w, c, v, e, m) && i < QK_K && v[i] == scale * value
    ensures w[i] == Stands(c, scale, value, e, m[i])
  {}

  lemma {:induction false} ScaledAt(q: seq<i32>, scales: seq<bv8>, mins: seq<bv8>, i: nat)
    requires |q| == QK_K && |scales| == |mins| == 8 && i < QK_K
    ensures Weights32(q, scales)[i] == scales[i / 32] as int * q[i] as int
    ensures Minima(mins)[i] == mins[i / 32] as int
  {}

  /** The weight of value i of a Q4_K block, by the bytes. */
  lemma {:induction false} WeightAt4(raw: seq<bv8>, half: Half, i: nat)
    requires |raw| == Q4_BYTES && i < QK_K
    ensures Weights4(raw, half)[i]
         == Stands(half(raw[0], raw[1]), ScalesOf(raw[4..16])[i / 32] as int, Q4At(raw[16..144], i) as int,
                   half(raw[2], raw[3]), MinsOf(raw[4..16])[i / 32] as int)
  {
    hide ScalesOf, MinsOf, Q4At, Stands, Affine, Weights32, Minima;
    var q, scales, mins := Q4Values(raw[16..144]), ScalesOf(raw[4..16]), MinsOf(raw[4..16]);
    ScaledAt(q, scales, mins, i);
    AffineAt(Weights4(raw, half), half(raw[0], raw[1]), Weights32(q, scales), half(raw[2], raw[3]), Minima(mins), i,
             scales[i / 32] as int, q[i] as int);
  }

  lemma {:induction false} WeightAt5(raw: seq<bv8>, half: Half, i: nat)
    requires |raw| == Q5_BYTES && i < QK_K
    ensures Weights5(raw, half)[i]
         == Stands(half(raw[0], raw[1]), ScalesOf(raw[4..16])[i / 32] as int,
                   Q5At(raw[16..48], raw[48..176], i) as int, half(raw[2], raw[3]),
                   MinsOf(raw[4..16])[i / 32] as int)
  {
    hide ScalesOf, MinsOf, Q5At, Stands, Affine, Weights32, Minima;
    var q, scales, mins := Q5Values(raw[16..48], raw[48..176]), ScalesOf(raw[4..16]), MinsOf(raw[4..16]);
    ScaledAt(q, scales, mins, i);
    AffineAt(Weights5(raw, half), half(raw[0], raw[1]), Weights32(q, scales), half(raw[2], raw[3]), Minima(mins), i,
             scales[i / 32] as int, q[i] as int);
  }

  /** scale * (value - 32) */
  function Centred(scale: int, value: int): int { scale * (value - 32) }

  lemma {:induction false} IntWeightAt6(raw: seq<bv8>, i: nat)
    requires |raw| == Q6_BYTES && i < QK_K
    ensures IntWeights6(raw)[i]
         == Centred(AsI8(raw[192..208][i / 16]) as int, Q6At(raw[0..128], raw[128..192], i) as int)
  {
    hide Q6At, AsI8;
    assert raw[192..208][i / 16] == raw[192 + i / 16];
  }

  lemma {:induction false} WeightAt6(raw: seq<bv8>, half: Half, i: nat, w: int)
    requires |raw| == Q6_BYTES && i < QK_K && IntWeights6(raw)[i] == w
    ensures Weights6(raw, half)[i] == half(raw[208], raw[209]) * (w as real)
  {
    hide IntWeights6;
  }

  /** Value i of a Q4_K block stands for d * scale * value - dmin * minimum, with the scale and the minimum of its
      group of 32. */
  lemma {:induction false} Dequantised4(half: Half, d: Pair16, dmin: Pair16, scales: seq<bv8>, mins: seq<bv8>,
                                        v: seq<bv8>, i: nat)
    requires SixBits(scales) && SixBits(mins) && Below(v, 16) && i < QK_K
    ensures Weights4(Block4(d, dmin, scales, mins, v), half)[i]
         == Stands(half(d.0, d.1), scales[i / 32] as int, v[i] as int, half(dmin.0, dmin.1), mins[i / 32] as int)
  {
    hide Block4, PackScales, PackNibbles, ScalesOf, MinsOf, Q4At, Weights4, Values4, Stands;
    Parts4(d, dmin, scales, mins, v);
    ScalesRoundTrip(scales, mins);
    Q4RoundTrip(v);
    WeightAt4(Block4(d, dmin, scales, mins, v), half, i);
  }

  /** The same of a Q5_K block, whose values have five bits. */
  lemma {:induction false} Dequantised5(half: Half, d: Pair16, dmin: Pair16, scales: seq<bv8>, mins: seq<bv8>,
                                        v: seq<bv8>, i: nat)
    requires SixBits(scales) && SixBits(mins) && Below(v, 32) && i < QK_K
    ensures Weights5(Block5(d, dmin, scales, mins, v), half)[i]
         == Stands(half(d.0, d.1), scales[i / 32] as int, v[i] as int, half(dmin.0, dmin.1), mins[i / 32] as int)
  {
    hide Block5, PackScales, PackNibbles, PackFifth, ScalesOf, MinsOf, Q5At, Weights5, Values5, Stands;
    Parts5(d, dmin, scales, mins, v);
    ScalesRoundTrip(scales, mins);
    Q5RoundTrip(v);
    WeightAt5(Block5(d, dmin, scales, mins, v), half, i);
  }

  lemma {:induction false} SignedByte(s: int)
    requires -128 <= s < 128
    ensures AsI8(ByteOf(s)) as int == s
  {}

  /** Value i of a Q6_K block stands for d * scale * (value - 32), with the scale of its group of 16. */
  lemma {:induction false} Dequantised6(half: Half, d: Pair16, scales: seq<int>, v: seq<bv8>, i: nat)
    requires AreI8(scales) && Below(v, 64) && i < QK_K
    ensures Weights6(Block6(d, scales, v), half)[i]
         == half(d.0, d.1) * (Centred(scales[i / 16], v[i] as int) as real)
  {
    hide Block6, PackLow6, PackHigh6, Q6At, AsI8, ByteOf, Values6, Weights6, IntWeights6, Centred;
    Parts6(d, scales, v);
    Q6RoundTrip(v);
    SignedByte(scales[i / 16]);
    IntWeightAt6(Block6(d, scales, v), i);
    WeightAt6(Block6(d, scales, v), half, i, Centred(scales[i / 16], v[i] as int));
  }

  // ---- every block is one of these ----

  lemma {:induction false} EveryQ4Block(raw: seq<bv8>)
    requires |raw| == Q4_BYTES
    ensures SixBits(ScalesOf(raw[4..16])) && SixBits(MinsOf(raw[4..16])) && Below(Values4(raw[16..144]), 16)
    ensures raw == Block4((raw[0], raw[1]), (raw[2], raw[3]), ScalesOf(raw[4..16]), MinsOf(raw[4..16]),
                          Values4(raw[16..144]))
  {
    hide PackScales, PackNibbles, ScalesOf, MinsOf, Values4, Below, SixBits;
    BytesRoundTrip(raw[4..16]);
    Q4BytesRoundTrip(raw[16..144]);
    assert raw == [raw[0], raw[1], raw[2], raw[3]] + raw[4..16] + raw[16..144];
  }

  lemma {:induction false} EveryQ5Block(raw: seq<bv8>)
    requires |raw| == Q5_BYTES
    ensures SixBits(ScalesOf(raw[4..16])) && SixBits(MinsOf(raw[4..16]))
    ensures Below(Values5(raw[16..48], raw[48..176]), 32)
    ensures raw == Block5((raw[0], raw[1]), (raw[2], raw[3]), ScalesOf(raw[4..16]), MinsOf(raw[4..16]),
                          Values5(raw[16..48], raw[48..176]))
  {
    hide PackScales, PackNibbles, PackFifth, ScalesOf, MinsOf, Values5, Below, SixBits;
    BytesRoundTrip(raw[4..16]);
    Q5BytesRoundTrip(raw[16..48], raw[48..176]);
    assert raw == [raw[0], raw[1], raw[2], raw[3]] + raw[4..16] + raw[16..48] + raw[48..176];
  }

  function SignedScales(b: seq<bv8>): (s: seq<int>)
    requires |b| == 16
    ensures |s| == 16 && forall g :: 0 <= g < 16 ==> s[g] == AsI8(b[g]) as int
  {
    seq(16, g requires 0 <= g < 16 => AsI8(b[g]) as int)
  }

  lemma {:induction false} ByteSigned(b: bv8)
    ensures -128 <= AsI8(b) as int < 128 && ByteOf(AsI8(b) as int) == b
  {}

  lemma {:induction false} ScalesSigned(b: seq<bv8>)
    requires |b| == 16
    ensures AreI8(SignedScales(b)) && ScaleBytes(SignedScales(b)) == b
  {
    hide AsI8, ByteOf;
    forall g | 0 <= g < 16 ensures -128 <= AsI8(b[g]) as int < 128 && ByteOf(AsI8(b[g]) as int) == b[g] {
      ByteSigned(b[g]);
    }
  }

  lemma {:induction false} EveryQ6Block(raw: seq<bv8>)
    requires |raw| == Q6_BYTES
    ensures AreI8(SignedScales(raw[192..208])) && Below(Values6(raw[0..128], raw[128..192]), 64)
    ensures raw == Block6((raw[208], raw[209]), SignedScales(raw[192..208]), Values6(raw[0..128], raw[128..192]))
  {
    hide PackLow6, PackHigh6, Values6, Below, AreI8, SignedScales, ScaleBytes;
    ScalesSigned(raw[192..208]);
    Q6BlockRoundTrip(raw[0..128], raw[128..192]);
    assert raw == raw[0..128] + raw[128..192] + raw[192..208] + [raw[208], raw[209]];
  }
}
