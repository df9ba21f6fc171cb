/** The three block formats, written down as packers: where every value, scale and minimum of a block is stored.
    The kernels read back what these write, and every block is one that they write. */
module KQuantFormat {
  import opened KQuantSums
  import opened KQuantQ6
  import opened KQuantQ45

  /** 256 values of so many bits. */
  ghost predicate Below(v: seq<bv8>, limit: bv8) { |v| == QK_K && forall i :: 0 <= i < QK_K ==> v[i] < limit }

  // ---- Q6_K values ----

  /** Byte p of the low nibbles: 64 bytes for each half of the block, a byte for the value there and the one 64 on. */
  function PackLow6(v: seq<bv8>): (ql: seq<bv8>)
    requires |v| == QK_K
    ensures |ql| == 128
  {
    seq(128, p requires 0 <= p < 128 => Pair(v[128 * (p / 64) + p % 64], v[128 * (p / 64) + p % 64 + 64]))
  }

  /** The two high bits of four values, the first lowest. */
  function Crumbs(a: bv8, b: bv8, c: bv8, d: bv8): bv8 {
    (a >> 4) | ((b >> 4) << 2) | ((c >> 4) << 4) | ((d >> 4) << 6)
  }

  /** Byte p of the high bits: 32 bytes for each half, a byte for the value there and those 32, 64 and 96 on. */
  function PackHigh6(v: seq<bv8>): (qh: seq<bv8>)
    requires |v| == QK_K
    ensures |qh| == 64
  {
    seq(64, p requires 0 <= p < 64 =>
      Crumbs(v[128 * (p / 32) + p % 32], v[128 * (p / 32) + p % 32 + 32], v[128 * (p / 32) + p % 32 + 64],
             v[128 * (p / 32) + p % 32 + 96]))
  }

  function Values6(ql: seq<bv8>, qh: seq<bv8>): (v: seq<bv8>)
    requires |ql| == 128 && |qh| == 64
    ensures |v| == QK_K && forall i :: 0 <= i < QK_K ==> v[i] == Q6At(ql, qh, i)
  {
    seq(QK_K, i requires 0 <= i < QK_K => Q6At(ql, qh, i))
  }

  lemma {:induction false} PairSplits(a: bv8, b: bv8)
    ensures Nibble(Pair(a, b), 0) == a & 0x0f && Nibble(Pair(a, b), 1) == b & 0x0f
  {}

  lemma {:induction false} CrumbsSplit(a: bv8, b: bv8, c: bv8, d: bv8)
    requires a < 64 && b < 64 && c < 64 && d < 64
    ensures Crumb(Crumbs(a, b, c, d), 0) == a >> 4 && Crumb(Crumbs(a, b, c, d), 1) == b >> 4
    ensures Crumb(Crumbs(a, b, c, d), 2) == c >> 4 && Crumb(Crumbs(a, b, c, d), 3) == d >> 4
  {}

  lemma {:induction false} SixBitsJoin(x: bv8)
    ensures (x & 0x0f) | ((x >> 4) << 4) == x
  {}

  /** Value i lies in quarter m of a half, at l. */
  lemma {:induction false} Place6(i: nat) returns (half: nat, m: nat, l: nat)
    requires i < QK_K
    ensures half < 2 && m < 4 && l < 32 && i == 128 * half + 32 * m + l
    ensures half == i / 128 && m == i % 128 / 32 && l == i % 32
  {
    half, m, l := i / 128, i % 128 / 32, i % 32;
  }

  lemma {:induction false} LowByteOf(v: seq<bv8>, half: nat, r: nat)
    requires |v| == QK_K && half < 2 && r < 64
    ensures PackLow6(v)[64 * half + r] == Pair(v[128 * half + r], v[128 * half + r + 64])
  {
    hide Pair;
    assert (64 * half + r) / 64 == half && (64 * half + r) % 64 == r;
  }

  lemma {:induction false} HighByteOf(v: seq<bv8>, half: nat, l: nat)
    requires |v| == QK_K && half < 2 && l < 32
    ensures PackHigh6(v)[32 * half + l]
         == Crumbs(v[128 * half + l], v[128 * half + l + 32], v[128 * half + l + 64], v[128 * half + l + 96])
  {
    hide Crumbs;
    assert (32 * half + l) / 32 == half && (32 * half + l) % 32 == l;
  }

  /** The nibble and the high bits of value (half, m, l), where the kernel looks for them. */
  lemma {:induction false} Stored6(v: seq<bv8>, half: nat, m: nat, l: nat)
    requires Below(v, 64) && half < 2 && m < 4 && l < 32
    ensures Nibble(PackLow6(v)[64 * half + 32 * (m % 2) + l], m / 2) == v[128 * half + 32 * m + l] & 0x0f
    ensures Crumb(PackHigh6(v)[32 * half + l], m) == v[128 * half + 32 * m + l] >> 4
  {
    hide Nibble, Crumb, Pair, Crumbs, PackLow6, PackHigh6;
    var r, a := if m < 2 then 32 * m + l else 32 * m - 64 + l, 128 * half + l;
    assert 64 * half + 32 * (m % 2) + l == 64 * half + r && m / 2 == if m < 2 then 0 else 1;
    LowByteOf(v, half, r);
    PairSplits(v[128 * half + r], v[128 * half + r + 64]);
    HighByteOf(v, half, l);
    CrumbsSplit(v[a], v[a + 32], v[a + 64], v[a + 96]);
  }

  /** What the kernel reads at i is the value that was packed there. */
  lemma {:induction false} Q6RoundTrip(v: seq<bv8>)
    requires Below(v, 64)
    ensures Values6(PackLow6(v), PackHigh6(v)) == v
  {
    hide Nibble, Crumb, PackLow6, PackHigh6;
    var w := Values6(PackLow6(v), PackHigh6(v));
    forall i | 0 <= i < QK_K ensures w[i] == v[i] {
      var half, m, l := Place6(i);
      Stored6(v, half, m, l);
      SixBitsJoin(v[i]);
    }
  }

  lemma {:induction false} LowAndHigh(n: bv8, c: bv8)
    requires n < 16 && c < 4
    ensures (n | (c << 4)) & 0x0f == n && (n | (c << 4)) >> 4 == c && (n | (c << 4)) < 64
  {}

  lemma {:induction false} NibblesJoin(b: bv8)
    ensures Nibble(b, 0) < 16 && Nibble(b, 1) < 16 && Pair(Nibble(b, 0), Nibble(b, 1)) == b
  {}

  lemma {:induction false} CrumbsJoin(b: bv8)
    ensures Crumb(b, 0) < 4 && Crumb(b, 1) < 4 && Crumb(b, 2) < 4 && Crumb(b, 3) < 4
    ensures Crumb(b, 0) | (Crumb(b, 1) << 2) | (Crumb(b, 2) << 4) | (Crumb(b, 3) << 6) == b
  {}

  lemma {:induction false} PairOfLow(a: bv8, b: bv8, x: bv8, y: bv8)
    requires a & 0x0f == x && b & 0x0f == y && x < 16 && y < 16
    ensures Pair(a, b) == Pair(x, y)
  {}

  lemma {:induction false} WordSplits(a: bv8, k: nat, b: bv8, m: nat)
    requires k < 2 && m < 4
    ensures (Nibble(a, k) | (Crumb(b, m) << 4)) & 0x0f == Nibble(a, k)
    ensures (Nibble(a, k) | (Crumb(b, m) << 4)) >> 4 == Crumb(b, m)
  {
    hide Nibble, Crumb;
    NibblesJoin(a);
    CrumbsJoin(b);
    LowAndHigh(Nibble(a, k), Crumb(b, m));
  }

  lemma {:induction false} PlaceIs(half: nat, m: nat, l: nat)
    requires half < 2 && m < 4 && l < 32
    ensures var i := 128 * half + 32 * m + l; i < QK_K && i / 128 == half && i % 128 / 32 == m && i % 32 == l
  {}

  /** A word of six bits: nibble k of one byte, and bits 2m and 2m + 1 of another on top. */
  function Word6(low: bv8, k: nat, high: bv8, m: nat): bv8 { Nibble(low, k) | (Crumb(high, m) << 4) }

  lemma {:induction false} QuarterAt(ql: seq<bv8>, qh: seq<bv8>, half: nat, m: nat, l: nat)
    requires |ql| == 128 && |qh| == 64 && half < 2 && m < 4 && l < 32
    ensures 128 * half + 32 * m + l < QK_K
    ensures Values6(ql, qh)[128 * half + 32 * m + l] == Q6Of(ql, qh, half, m, l)
  {
    hide Q6Of;
    PlaceIs(half, m, l);
  }

  lemma {:induction false} FirstQuarter(ql: seq<bv8>, qh: seq<bv8>, half: nat, l: nat)
    requires |ql| == 128 && |qh| == 64 && half < 2 && l < 32
    ensures Q6Of(ql, qh, half, 0, l) == Word6(ql[64 * half + l], 0, qh[32 * half + l], 0)
  {
    hide Nibble, Crumb;
  }

  lemma {:induction false} SecondQuarter(ql: seq<bv8>, qh: seq<bv8>, half: nat, l: nat)
    requires |ql| == 128 && |qh| == 64 && half < 2 && l < 32
    ensures Q6Of(ql, qh, half, 1, l) == Word6(ql[64 * half + l + 32], 0, qh[32 * half + l], 1)
  {
    hide Nibble, Crumb;
  }

  lemma {:induction false} ThirdQuarter(ql: seq<bv8>, qh: seq<bv8>, half: nat, l: nat)
    requires |ql| == 128 && |qh| == 64 && half < 2 && l < 32
    ensures Q6Of(ql, qh, half, 2, l) == Word6(ql[64 * half + l], 1, qh[32 * half + l], 2)
  {
    hide Nibble, Crumb;
  }

  lemma {:induction false} LastQuarter(ql: seq<bv8>, qh: seq<bv8>, half: nat, l: nat)
    requires |ql| == 128 && |qh| == 64 && half < 2 && l < 32
    ensures Q6Of(ql, qh, half, 3, l) == Word6(ql[64 * half + l + 32], 1, qh[32 * half + l], 3)
  {
    hide Nibble, Crumb;
  }

  /** The bytes of the four values 32 apart. */
  lemma {:induction false} Quarters(ql: seq<bv8>, qh: seq<bv8>, half: nat, l: nat)
    requires |ql| == 128 && |qh| == 64 && half < 2 && l < 32
    ensures var v, high := Values6(ql, qh), qh[32 * half + l];
            && v[128 * half + l] == Word6(ql[64 * half + l], 0, high, 0)
            && v[128 * half + l + 32] == Word6(ql[64 * half + l + 32], 0, high, 1)
            && v[128 * half + l + 64] == Word6(ql[64 * half + l], 1, high, 2)
            && v[128 * half + l + 96] == Word6(ql[64 * half + l + 32], 1, high, 3)
  {
    hide Q6Of, Word6, Values6;
    QuarterAt(ql, qh, half, 0, l);
    QuarterAt(ql, qh, half, 1, l);
    QuarterAt(ql, qh, half, 2, l);
    QuarterAt(ql, qh, half, 3, l);
    FirstQuarter(ql, qh, half, l);
    SecondQuarter(ql, qh, half, l);
    ThirdQuarter(ql, qh, half, l);
    LastQuarter(ql, qh, half, l);
  }

  lemma {:induction false} LowByte(ql: seq<bv8>, qh: seq<bv8>, half: nat, l: nat)
    requires |ql| == 128 && |qh| == 64 && half < 2 && l < 32
    ensures PackLow6(Values6(ql, qh))[64 * half + l] == ql[64 * half + l]
    ensures PackLow6(Values6(ql, qh))[64 * half + l + 32] == ql[64 * half + l + 32]
  {
    hide Nibble, Crumb, Pair, Values6, PackLow6, Word6;
    var v, high := Values6(ql, qh), qh[32 * half + l];
    Quarters(ql, qh, half, l);
    LowByteOf(v, half, l);
    LowByteOf(v, half, l + 32);
    WordsPair(ql[64 * half + l], high, 0, 2);
    WordsPair(ql[64 * half + l + 32], high, 1, 3);
  }

  lemma {:induction false} WordsPair(b: bv8, high: bv8, m: nat, m': nat)
    requires m < 4 && m' < 4
    ensures Pair(Word6(b, 0, high, m), Word6(b, 1, high, m')) == b
  {
    hide Nibble, Crumb, Pair;
    WordSplits(b, 0, high, m);
    WordSplits(b, 1, high, m');
    NibblesJoin(b);
    PairOfLow(Word6(b, 0, high, m), Word6(b, 1, high, m'), Nibble(b, 0), Nibble(b, 1));
  }

  lemma {:induction false} HighByte(ql: seq<bv8>, qh: seq<bv8>, half: nat, l: nat)
    requires |ql| == 128 && |qh| == 64 && half < 2 && l < 32
    ensures PackHigh6(Values6(ql, qh))[32 * half + l] == qh[32 * half + l]
  {
    hide Crumb, Values6, PackHigh6, Nibble;
    var high := qh[32 * half + l];
    HighByteOf(Values6(ql, qh), half, l);
    Quarters(ql, qh, half, l);
    WordSplits(ql[64 * half + l], 0, high, 0);
    WordSplits(ql[64 * half + l + 32], 0, high, 1);
    WordSplits(ql[64 * half + l], 1, high, 2);
    WordSplits(ql[64 * half + l + 32], 1, high, 3);
    CrumbsJoin(high);
  }

  /** Every byte of the nibbles and of the high bits is the packing of the values: each bit is used once. */
  lemma {:induction false} Q6BlockRoundTrip(ql: seq<bv8>, qh: seq<bv8>)
    requires |ql| == 128 && |qh| == 64
    ensures Below(Values6(ql, qh), 64)
    ensures PackLow6(Values6(ql, qh)) == ql && PackHigh6(Values6(ql, qh)) == qh
  {
    hide Values6, Q6At, PackLow6, PackHigh6;
    var v := Values6(ql, qh);
    forall i | 0 <= i < QK_K ensures v[i] < 64 { Q6Range(ql, qh, i); }
    var a, b := PackLow6(v), PackHigh6(v);
    forall p | 0 <= p < 128 ensures a[p] == ql[p] { LowByte(ql, qh, p / 64, p % 32); }
    forall p | 0 <= p < 64 ensures b[p] == qh[p] { HighByte(ql, qh, p / 32, p % 32); }
  }
}
