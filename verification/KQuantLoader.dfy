/** The loader's dequantiser, written apart from the kernels: it unpacks a tensor's blocks into plain values. What
    a kernel makes of packed bytes is the dot product with the values the loader makes of them. */
module KQuantLoader {
  import opened KQuantSums
  import opened KQuantQ6
  import opened KQuantQ45
  import opened KQuantRows
  import opened KQuantFormat
  import opened KQuantBlocks
  import opened KQuantLayer
  import opened Sums

  // ---- Q4_K and Q5_K ----

  /** `d * f32::from(n)` */
  function By(d: real, n: int): real { d * (n as real) }

  /** Scaled by the block, then by the group, minus the group's minimum: what the value stands for. */
  lemma {:induction false} ScaledFirst(d: real, scale: int, value: int, dmin: real, min: int)
    ensures By(By(d, scale), value) - By(dmin, min) == Stands(d, scale, value, dmin, min)
  {
    CastProduct(scale, value);
  }

  /** The next value of a run, appended. */
  lemma {:induction false} Appends(before: seq<real>, w: seq<real>, n: nat, x: real)
    requires n < |w| && x == w[n]
    ensures before + w[..n] + [x] == before + w[..n + 1]
  {}

  /** One of the two runs of 32 of a pair: nibble plane `high` of 32 bytes. */
  method ExtendRun4(block: seq<bv8>, half: Half, group: nat, high: nat, scaled: real, min: real,
                    ghost before: seq<real>, soFar: seq<real>) returns (values: seq<real>)
    requires |block| == Q4_BYTES && group < 4 && high < 2
    requires scaled == By(half(block[0], block[1]), ScaleMin(2 * group + high, block[4..16]).0 as int)
    requires min == By(half(block[2], block[3]), ScaleMin(2 * group + high, block[4..16]).1 as int)
    requires soFar == before + Weights4(block, half)[..64 * group + 32 * high]
    ensures values == before + Weights4(block, half)[..64 * group + 32 * high + 32]
  {
    hide By, Weights4, ScaleMin, Q4At, Nibble;
    values := soFar;
    ghost var w := Weights4(block, half);
    for k := 0 to 32
      invariant values == before + w[..64 * group + 32 * high + k]
    {
      var byte := block[16 + 32 * group + k];
      var quant := if high == 0 then byte & 0x0f else byte >> 4;
      var x := By(scaled, quant as int) - min;
      Run4(block, half, group, high, k, quant);
      Appends(before, w, 64 * group + 32 * high + k, x);
      values := values + [x];
    }
  }

  lemma {:induction false} Run4(block: seq<bv8>, half: Half, group: nat, high: nat, k: nat, quant: bv8)
    requires |block| == Q4_BYTES && group < 4 && high < 2 && k < 32
    requires quant == if high == 0 then block[16 + 32 * group + k] & 0x0f else block[16 + 32 * group + k] >> 4
    ensures var i, sm := 64 * group + 32 * high + k, ScaleMin(2 * group + high, block[4..16]);
            Weights4(block, half)[i]
            == By(By(half(block[0], block[1]), sm.0 as int), quant as int) - By(half(block[2], block[3]), sm.1 as int)
  {
    hide By, Weights4, ScaleMin, Q4At, Nibble, Stands;
    var i := 64 * group + 32 * high + k;
    var sm := ScaleMin(2 * group + high, block[4..16]);
    assert i / 32 == 2 * group + high;
    assert block[16..144][32 * group + k] == block[16 + 32 * group + k];
    NibblesOf(block[16..144], group, k);
    SplitIsNibble(block[16 + 32 * group + k]);
    assert Q4At(block[16..144], i) as int == quant as int;
    WeightAt4(block, half, i);
    ScaledFirst(half(block[0], block[1]), sm.0 as int, quant as int, half(block[2], block[3]), sm.1 as int);
  }

  /** One block of dequantize_q4_k_blocks. */
  method LoadBlock4(block: seq<bv8>, half: Half, before: seq<real>) returns (values: seq<real>)
    requires |block| == Q4_BYTES
    ensures values == before + Weights4(block, half)
  {
    hide By, Weights4, ScaleMin;
    values := before;
    ghost var w := Weights4(block, half);
    for group := 0 to 4
      invariant values == before + w[..64 * group]
    {
      var first, second := ScaleMin(2 * group, block[4..16]), ScaleMin(2 * group + 1, block[4..16]);
      var d, dmin := half(block[0], block[1]), half(block[2], block[3]);
      values := ExtendRun4(block, half, group, 0, By(d, first.0 as int), By(dmin, first.1 as int),
                           before, values);
      values := ExtendRun4(block, half, group, 1, By(d, second.0 as int), By(dmin, second.1 as int),
                           before, values);
    }
  }

  /** One run of a Q5_K block: bit plane k on top of a nibble plane. */
  method ExtendRun5(block: seq<bv8>, half: Half, group: nat, high: nat, mask: bv8, scaled: real, min: real,
                    ghost before: seq<real>, soFar: seq<real>) returns (values: seq<real>)
    requires |block| == Q5_BYTES && group < 4 && high < 2 && mask == BitMask(2 * group + high)
    requires scaled == By(half(block[0], block[1]), ScaleMin(2 * group + high, block[4..16]).0 as int)
    requires min == By(half(block[2], block[3]), ScaleMin(2 * group + high, block[4..16]).1 as int)
    requires soFar == before + Weights5(block, half)[..64 * group + 32 * high]
    ensures values == before + Weights5(block, half)[..64 * group + 32 * high + 32]
  {
    hide By, Weights5, ScaleMin, Q4At, Nibble, BitMask;
    values := soFar;
    ghost var w := Weights5(block, half);
    for k := 0 to 32
      invariant values == before + w[..64 * group + 32 * high + k]
    {
      var byte := block[48 + 32 * group + k];
      var nibble := if high == 0 then byte & 0x0f else byte >> 4;
      var quant := nibble as int + if block[16 + k] & mask != 0 then 16 else 0;
      var x := By(scaled, quant) - min;
      Run5(block, half, group, high, k, nibble, quant);
      Appends(before, w, 64 * group + 32 * high + k, x);
      values := values + [x];
    }
  }

  lemma {:induction false} Quant5(block: seq<bv8>, group: nat, high: nat, k: nat, nibble: bv8, quant: int)
    requires |block| == Q5_BYTES && group < 4 && high < 2 && k < 32
    requires nibble == if high == 0 then block[48 + 32 * group + k] & 0x0f else block[48 + 32 * group + k] >> 4
    requires quant == nibble as int + if block[16 + k] & BitMask(2 * group + high) != 0 then 16 else 0
    ensures Q5At(block[16..48], block[48..176], 64 * group + 32 * high + k) as int == quant
  {
    hide Q4At, Nibble, BitMask;
    var i := 64 * group + 32 * high + k;
    assert i / 32 == 2 * group + high && i % 32 == k;
    assert block[48..176][32 * group + k] == block[48 + 32 * group + k] && block[16..48][k] == block[16 + k];
    NibblesOf(block[48..176], group, k);
    SplitIsNibble(block[48 + 32 * group + k]);
  }

  lemma {:induction false} Run5(block: seq<bv8>, half: Half, group: nat, high: nat, k: nat, nibble: bv8, quant: int)
    requires |block| == Q5_BYTES && group < 4 && high < 2 && k < 32
    requires nibble == if high == 0 then block[48 + 32 * group + k] & 0x0f else block[48 + 32 * group + k] >> 4
    requires quant == nibble as int + if block[16 + k] & BitMask(2 * group + high) != 0 then 16 else 0
    ensures var i, sm := 64 * group + 32 * high + k, ScaleMin(2 * group + high, block[4..16]);
            Weights5(block, half)[i]
            == By(By(half(block[0], block[1]), sm.0 as int), quant) - By(half(block[2], block[3]), sm.1 as int)
  {
    hide By, Weights5, ScaleMin, Q5At, Stands, BitMask;
    var i := 64 * group + 32 * high + k;
    var sm := ScaleMin(2 * group + high, block[4..16]);
    assert i / 32 == 2 * group + high;
    assert Q5At(block[16..48], block[48..176], i) as int == quant by { Quant5(block, group, high, k, nibble, quant); }
    WeightAt5(block, half, i);
    ScaledFirst(half(block[0], block[1]), sm.0 as int, quant, half(block[2], block[3]), sm.1 as int);
  }

  lemma {:induction false} MaskUp(group: nat)
    requires group < 4
    ensures BitMask(2 * group) << 2 == BitMask(2 * group + 2)
    ensures group < 3 ==> BitMask(2 * group + 1) << 2 == BitMask(2 * group + 3)
  {}

  /** One block of dequantize_q5_k_blocks. The masks move up two planes at a time. */
  method LoadBlock5(block: seq<bv8>, half: Half, before: seq<real>) returns (values: seq<real>)
    requires |block| == Q5_BYTES
    ensures values == before + Weights5(block, half)
  {
    hide By, Weights5, ScaleMin, BitMask;
    values := before;
    ghost var w := Weights5(block, half);
    var low: bv8, high: bv8 := 1, 2;
    assert BitMask(0) == 1 && BitMask(1) == 2 by { FirstMasks(); }
    for group := 0 to 4
      invariant values == before + w[..64 * group]
      invariant low == BitMask(2 * group) && (group < 4 ==> high == BitMask(2 * group + 1))
    {
      var first, second := ScaleMin(2 * group, block[4..16]), ScaleMin(2 * group + 1, block[4..16]);
      var d, dmin := half(block[0], block[1]), half(block[2], block[3]);
      values := ExtendRun5(block, half, group, 0, low, By(d, first.0 as int), By(dmin, first.1 as int),
                           before, values);
      values := ExtendRun5(block, half, group, 1, high, By(d, second.0 as int),
                           By(dmin, second.1 as int), before, values);
      MaskUp(group);
      low, high := low << 2, high << 2;
    }
  }

  lemma {:induction false} FirstMasks()
    ensures BitMask(0) == 1 && BitMask(1) == 2
  {}

  // ---- Q6_K ----

  /** The first l values of the four quarters of half `group` of w are in place from `at` on. */
  ghost predicate Filled6(w: seq<real>, group: nat, l: nat, at: nat, values: seq<real>)
    requires |w| == QK_K && group < 2 && l <= 32 && at + 128 <= |values|
  {
    forall m, k :: 0 <= m < 4 && 0 <= k < l ==> Placed6(w, group, m, k, at, values)
  }

  ghost predicate Placed6(w: seq<real>, group: nat, m: nat, k: nat, at: nat, values: seq<real>)
    requires |w| == QK_K && group < 2 && m < 4 && k < 32 && at + 128 <= |values|
  {
    values[at + 32 * m + k] == w[128 * group + 32 * m + k]
  }

  /** Four stores 32 apart. */
  function Store4(values: seq<real>, at: nat, x1: real, x2: real, x3: real, x4: real): (r: seq<real>)
    requires at + 96 < |values|
    ensures |r| == |values|
  {
    values[at := x1][at + 32 := x2][at + 64 := x3][at + 96 := x4]
  }

  lemma {:induction false} FillsMore(w: seq<real>, group: nat, l: nat, at: nat, a: seq<real>, x1: real, x2: real,
                                     x3: real, x4: real)
    requires |w| == QK_K && group < 2 && l < 32 && at + 128 <= |a| && Filled6(w, group, l, at, a)
    requires x1 == w[128 * group + l] && x2 == w[128 * group + 32 + l]
    requires x3 == w[128 * group + 64 + l] && x4 == w[128 * group + 96 + l]
    ensures Filled6(w, group, l + 1, at, Store4(a, at + l, x1, x2, x3, x4))
    ensures Store4(a, at + l, x1, x2, x3, x4)[..at] == a[..at]
  {
    var b := Store4(a, at + l, x1, x2, x3, x4);
    forall m, k | 0 <= m < 4 && 0 <= k < l + 1 ensures Placed6(w, group, m, k, at, b) {
      if k < l { assert Placed6(w, group, m, k, at, a); }
    }
  }

  lemma {:induction false} Product6(d: real, scale: int, word: bv8)
    ensures By(By(d, scale), word as int - 32) == By(d, Centred(scale, word as int))
  {
    CastProduct(scale, word as int - 32);
  }

  lemma {:induction false} ScaledWeight6(block: seq<bv8>, half: Half, i: nat, w: int)
    requires |block| == Q6_BYTES && i < QK_K && IntWeights6(block)[i] == w
    ensures Weights6(block, half)[i] == By(half(block[208], block[209]), w)
  {
    hide IntWeights6, Weights6;
    WeightAt6(block, half, i, w);
  }

  /** Value (group, m, l) by its word and its scale, which is byte `at` of the block. */
  lemma {:induction false} Weight6(block: seq<bv8>, half: Half, group: nat, m: nat, l: nat, at: nat, word: bv8)
    requires |block| == Q6_BYTES && group < 2 && m < 4 && l < 32 && at == 192 + 8 * group + l / 16 + 2 * m
    requires word == Values6(block[0..128], block[128..192])[128 * group + 32 * m + l]
    ensures Weights6(block, half)[128 * group + 32 * m + l]
         == By(By(half(block[208], block[209]), AsI8(block[at]) as int), word as int - 32)
  {
    hide By, Weights6, IntWeights6, AsI8, Values6, Q6At, Centred;
    var i := 128 * group + 32 * m + l;
    assert i / 16 == at - 192;
    assert block[192..208][i / 16] == block[at];
    var scale := AsI8(block[at]) as int;
    IntWeightAt6(block, i);
    Product6(half(block[208], block[209]), scale, word);
    ScaledWeight6(block, half, i, Centred(scale, word as int));
  }

  /** The four words of one pass of the inner loop. */
  method LoadWords6(block: seq<bv8>, group: nat, l: nat) returns (q1: bv8, q2: bv8, q3: bv8, q4: bv8)
    requires |block| == Q6_BYTES && group < 2 && l < 32
    ensures var v := Values6(block[0..128], block[128..192]);
            && v[128 * group + l] == q1 && v[128 * group + 32 + l] == q2
            && v[128 * group + 64 + l] == q3 && v[128 * group + 96 + l] == q4
  {
    hide Values6;
    var high := block[128 + 32 * group + l];
    q1 := (block[64 * group + l] & 0x0f) | ((high & 0x03) << 4);
    q2 := (block[64 * group + l + 32] & 0x0f) | (((high >> 2) & 0x03) << 4);
    q3 := (block[64 * group + l] >> 4) | (((high >> 4) & 0x03) << 4);
    q4 := (block[64 * group + l + 32] >> 4) | (((high >> 6) & 0x03) << 4);
    LoadedWords(block, group, l, q1, q2, q3, q4);
  }

  /** One pass: four values 32 apart, with scales two apart. */
  method Store6(block: seq<bv8>, half: Half, group: nat, l: nat, at: nat, soFar: seq<real>) returns (values: seq<real>)
    requires |block| == Q6_BYTES && group < 2 && l < 32 && at + 128 == |soFar|
    requires Filled6(Weights6(block, half), group, l, at, soFar)
    ensures |values| == |soFar| && values[..at] == soFar[..at]
    ensures Filled6(Weights6(block, half), group, l + 1, at, values)
  {
    hide By, Weights6, AsI8, Values6, Filled6, Store4;
    var q1, q2, q3, q4 := LoadWords6(block, group, l);
    var d, s := half(block[208], block[209]), 192 + 8 * group + l / 16;
    Weight6(block, half, group, 0, l, s, q1);
    Weight6(block, half, group, 1, l, s + 2, q2);
    Weight6(block, half, group, 2, l, s + 4, q3);
    Weight6(block, half, group, 3, l, s + 6, q4);
    var x1 := By(By(d, AsI8(block[s]) as int), q1 as int - 32);
    var x2 := By(By(d, AsI8(block[s + 2]) as int), q2 as int - 32);
    var x3 := By(By(d, AsI8(block[s + 4]) as int), q3 as int - 32);
    var x4 := By(By(d, AsI8(block[s + 6]) as int), q4 as int - 32);
    FillsMore(Weights6(block, half), group, l, at, soFar, x1, x2, x3, x4);
    values := Store4(soFar, at + l, x1, x2, x3, x4);
  }

  lemma {:induction false} LoadedWords(block: seq<bv8>, group: nat, l: nat, q1: bv8, q2: bv8, q3: bv8, q4: bv8)
    requires |block| == Q6_BYTES && group < 2 && l < 32
    requires var high := block[128 + 32 * group + l];
             && q1 == (block[64 * group + l] & 0x0f) | ((high & 0x03) << 4)
             && q2 == (block[64 * group + l + 32] & 0x0f) | (((high >> 2) & 0x03) << 4)
             && q3 == (block[64 * group + l] >> 4) | (((high >> 4) & 0x03) << 4)
             && q4 == (block[64 * group + l + 32] >> 4) | (((high >> 6) & 0x03) << 4)
    ensures var v := Values6(block[0..128], block[128..192]);
            && v[128 * group + l] == q1 && v[128 * group + 32 + l] == q2
            && v[128 * group + 64 + l] == q3 && v[128 * group + 96 + l] == q4
  {
    hide Values6;
    var ql, qh := block[0..128], block[128..192];
    assert ql[64 * group + l] == block[64 * group + l] && ql[64 * group + l + 32] == block[64 * group + l + 32];
    assert qh[32 * group + l] == block[128 + 32 * group + l];
    Quarters(ql, qh, group, l);
  }

  /** One half: room for 128 values, then 32 passes. */
  method LoadHalf6(block: seq<bv8>, half: Half, group: nat, before: seq<real>) returns (values: seq<real>)
    requires |block| == Q6_BYTES && group < 2
    ensures values == before + Weights6(block, half)[128 * group..128 * group + 128]
  {
    hide Weights6;
    var at := |before|;
    values := before + seq(128, _ => 0.0);
    for l := 0 to 32
      invariant |values| == at + 128 && values[..at] == before && Filled6(Weights6(block, half), group, l, at, values)
    {
      values := Store6(block, half, group, l, at, values);
    }
    ghost var w := Weights6(block, half)[128 * group..128 * group + 128];
    forall p | 0 <= p < 128 ensures values[at + p] == w[p] {
      assert Placed6(Weights6(block, half), group, p / 32, p % 32, at, values);
      assert 32 * (p / 32) + p % 32 == p;
    }
    assert values[at..] == w;
    assert values == values[..at] + values[at..];
  }

  /** One block of dequantize_q6_k_blocks. */
  method LoadBlock6(block: seq<bv8>, half: Half, before: seq<real>) returns (values: seq<real>)
    requires |block| == Q6_BYTES
    ensures values == before + Weights6(block, half)
  {
    hide Weights6;
    ghost var w := Weights6(block, half);
    values := LoadHalf6(block, half, 0, before);
    values := LoadHalf6(block, half, 1, values);
    assert w[0..128] + w[128..256] == w;
    assert values == before + (w[0..128] + w[128..256]);
  }

  // ---- tensors ----

  /** The values of block b are the ones of its bytes. */
  ghost predicate BlockLoaded(values: seq<real>, b: nat, w: seq<real>) {
    256 * b + 256 <= |values| && values[256 * b..256 * b + 256] == w
  }

  /** Block by block, `values` is what ws holds. */
  ghost predicate Loaded(values: seq<real>, ws: seq<seq<real>>) {
    |values| == 256 * |ws| && forall b :: 0 <= b < |ws| ==> BlockLoaded(values, b, ws[b])
  }

  lemma {:induction false} LoadsMore(a: seq<real>, ws: seq<seq<real>>, w: seq<real>)
    requires Loaded(a, ws) && |w| == 256
    ensures Loaded(a + w, ws + [w])
  {
    var values := a + w;
    forall b | 0 <= b < |ws| + 1 ensures BlockLoaded(values, b, (ws + [w])[b]) {
      if b < |ws| { assert BlockLoaded(a, b, ws[b]); }
    }
  }

  /** The dequantised rows of a tensor's blocks, by its type. */
  ghost function BlockRows(format: Format, raw: seq<bv8>, half: Half, n: nat): (ws: seq<seq<real>>)
    requires |raw| == n * format.Bytes()
    ensures |ws| == n && Wide(ws, n)
  {
    match format
    case Q4K => Rows4(raw, half, n)
    case Q5K => Rows5(raw, half, n)
    case Q6K => Rows6(raw, half, n)
  }

  /** dequantize_k_quant_payload_f32: refused exactly when rows or elements are not whole blocks or the data has
      another length; otherwise the values are the dequantised blocks. */
  method DequantizePayload(format: Format, data: seq<bv8>, half: Half, row: nat, count: nat)
    returns (ok: bool, values: seq<real>)
    ensures ok <==> row % 256 == 0 && count % 256 == 0 && |data| == count / 256 * format.Bytes()
    ensures ok ==> Loaded(values, BlockRows(format, data, half, count / 256)) && |values| == count
  {
    hide Weights4, Weights5, Weights6, Loaded;
    ok, values := false, [];
    if row % 256 != 0 || count % 256 != 0 { return; }
    var n := count / 256;
    if |data| != n * format.Bytes() { return; }
    ghost var ws := BlockRows(format, data, half, n);
    assert Loaded([], ws[..0]) by { NothingLoaded(ws[..0]); }
    for b := 0 to n
      invariant Loaded(values, ws[..b])
    {
      BlockInside(b, n, format.Bytes());
      var block := BlockBytes(data, b, format.Bytes());
      LoadsMore(values, ws[..b], ws[b]);
      assert ws[..b] + [ws[b]] == ws[..b + 1];
      match format {
        case Q4K => values := LoadBlock4(block, half, values);
        case Q5K => values := LoadBlock5(block, half, values);
        case Q6K => values := LoadBlock6(block, half, values);
      }
    }
    assert ws[..n] == ws;
    LoadedLength(values, ws);
    ok := true;
  }

  lemma {:induction false} NothingLoaded(ws: seq<seq<real>>)
    requires |ws| == 0
    ensures Loaded([], ws)
  {}

  lemma {:induction false} LoadedLength(values: seq<real>, ws: seq<seq<real>>)
    requires Loaded(values, ws)
    ensures |values| == 256 * |ws|
  {}

  lemma {:induction false} BlockInside(b: nat, n: nat, size: nat)
    requires b < n
    ensures b * size + size <= n * size
  {
    assert (b + 1) * size <= n * size;
  }

  // ---- the two ways to a dot product ----

  /** Quantised activation i of block b, times the loaded value there. */
  ghost function LoadedTerm(blocks: seq<Q8>, values: seq<real>): (nat, nat) -> real {
    (b: nat, i: nat) =>
      if b >= |blocks| || i >= |blocks[b].qs| then 0.0
      else (blocks[b].d * (blocks[b].qs[i] as int as real)) * Cell(values, 256 * b + i)
  }

  lemma {:induction false} BlockIsSum(x: Q8, w: seq<real>, n: nat, f: nat -> real)
    requires |x.qs| == QK_K && |w| == QK_K && n <= QK_K
    requires forall i :: 0 <= i < n ==> f(i) == (x.d * (x.qs[i] as int as real)) * w[i]
    ensures RealDot(x, w, n) == Sum(n, f)
  {
    if n > 0 { BlockIsSum(x, w, n - 1, f); }
  }

  /** The dot product of a quantised row with dequantised blocks is the plain sum over the loaded values. */
  lemma {:induction false} RowDotIsSum(blocks: seq<Q8>, ws: seq<seq<real>>, values: seq<real>, n: nat)
    requires n <= |blocks| && n <= |ws| && AllValid(blocks, |blocks|) && Wide(ws, |ws|) && Loaded(values, ws)
    ensures RowDot(blocks, ws, n) == Sum2(n, QK_K, LoadedTerm(blocks, values))
  {
    hide RealDot, Sum;
    if n > 0 {
      RowDotIsSum(blocks, ws, values, n - 1);
      LastBlock(blocks, ws, values, n - 1);
    }
  }

  lemma {:induction false} LastBlock(blocks: seq<Q8>, ws: seq<seq<real>>, values: seq<real>, b: nat)
    requires b < |blocks| && b < |ws| && AllValid(blocks, |blocks|) && Wide(ws, |ws|) && Loaded(values, ws)
    ensures RealDot(blocks[b], ws[b], QK_K) == Sum(QK_K, Line(LoadedTerm(blocks, values), b))
  {
    hide RealDot, Sum;
    var x, w, f := blocks[b], ws[b], Line(LoadedTerm(blocks, values), b);
    assert BlockLoaded(values, b, w);
    forall i | 0 <= i < QK_K ensures f(i) == (x.d * (x.qs[i] as int as real)) * w[i] {
      assert values[256 * b..256 * b + 256][i] == values[256 * b + i];
    }
    BlockIsSum(x, w, QK_K, f);
  }

  /** What a kernel returns for a packed row (`RowDot` of its blocks, by the contracts of the three vec_dot
      kernels) is the plain dot product with the values that the loader returns for the same bytes. */
  lemma {:induction false} KernelIsLoader(format: Format, raw: seq<bv8>, blocks: seq<Q8>, half: Half, r: real,
                                          values: seq<real>)
    requires |raw| == |blocks| * format.Bytes() && AllValid(blocks, |blocks|)
    requires r == RowDot(blocks, BlockRows(format, raw, half, |blocks|), |blocks|)
    requires Loaded(values, BlockRows(format, raw, half, |blocks|))
    ensures |values| == 256 * |blocks| && r == Sum2(|blocks|, QK_K, LoadedTerm(blocks, values))
  {
    hide RowDot, BlockRows;
    RowDotIsSum(blocks, BlockRows(format, raw, half, |blocks|), values, |blocks|);
  }
}
