/** The quantised linear layer: each input row is quantised once and multiplied by every packed weight
    row, and each output is close to the dot product of the row itself with the dequantised weights. */
module KQuantLayer {
  import opened Index
  import opened HalfFloat
  import opened Rounding
  import opened KQuantSums
  import opened KQuantRows
  import opened KQuantQuantize

  // ----- block scales

  function BitsAt(lo: bv8, hi: bv8): (bits: nat)
    ensures bits < 0x1_0000
  {
    lo as nat + 0x100 * (hi as nat)
  }

  /** The number a half-precision bit pattern stands for, section 3.4 of IEEE 754-2019; an infinity or a
      NaN stands for none, and is read as zero here. */
  function Number16(bits: nat): real {
    if Exp16(bits) == 0x1f then 0.0 else if Sign16(bits) == 1 then -Value16(bits) else Value16(bits)
  }

  function Number32(b: nat): real {
    if Exp32(b) == 0xff then 0.0 else if Sign32(b) == 1 then -Value32(b) else Value32(b)
  }

  /** f16_le_at, as the number it reads. */
  function Scale(lo: bv8, hi: bv8): real { Number16(BitsAt(lo, hi)) }

  lemma {:induction false} TenDown()
    ensures Pow2(-10) * 1024.0 == 1.0 && Pow2(-24) * 16777216.0 == 1.0
    ensures Pow2(5) == 32.0 && Pow2(-23) == Pow2(-10) / 8192.0
  {
    assert Pow2(-5) == 1.0 / 32.0 by { assert Pow2(-2) == 0.25 && Pow2(-4) == 0.0625; }
    assert Pow2(-10) == 1.0 / 1024.0 by { assert Pow2(-7) == Pow2(-5) / 4.0 && Pow2(-9) == Pow2(-7) / 4.0; }
    ThirteenUp(-23);
    Pow2Next(-24);
    assert Pow2(2) == 4.0 && Pow2(4) == 16.0;
  }

  /** Bytes whose numbers are known: one, minus two, the largest and the smallest, low byte first; and a single. */
  lemma {:induction false} KnownNumbers()
    ensures Scale(0x00, 0x3c) == 1.0 && Scale(0x00, 0xc0) == -2.0 && Scale(0xff, 0x7b) == 65504.0
    ensures Scale(0x01, 0x00) * 16777216.0 == 1.0 && Number32(0x3f80_0000) == 1.0
  {
    TenDown();
    hide Pow2;
    Pow2Next(-10);
  }

  /** The single-precision number read at `offset` is the half-precision one stored there. */
  method F16LeAt(data: seq<bv8>, offset: nat) returns (b: nat)
    requires offset + 2 <= |data|
    ensures b < 0x1_0000_0000 && Number32(b) == Scale(data[offset], data[offset + 1])
  {
    hide Value16, Value32, Sign16, Sign32, Exp16, Exp32, Frac16, Frac32, BitsAt;
    b := HalfToSingle(BitsAt(data[offset], data[offset + 1]));
  }

  // ----- the packed matrix

  datatype Format = Q4K | Q5K | Q6K {
    function Bytes(): nat {
      match this
      case Q4K => Q4_BYTES
      case Q5K => Q5_BYTES
      case Q6K => Q6_BYTES
    }
  }

  datatype Matrix = Matrix(blocks: nat, outs: nat, format: Format, data: seq<bv8>) {
    /** Bytes of one weight row. */
    function Row(): nat { blocks * format.Bytes() }

    ghost predicate Valid() {
      0 < blocks && 0 < outs && |data| == Times(outs, Row())
    }

    function Packed(o: nat): (raw: seq<bv8>)
      requires Valid() && o < outs
      ensures |raw| == Row()
    {
      SlotBound(o, outs, Row());
      data[Times(o, Row())..Times(o, Row()) + Row()]
    }

    /** The dequantised weights of output o, block by block. */
    ghost function Weights(o: nat): (ws: seq<seq<real>>)
      requires Valid() && o < outs
      ensures |ws| == blocks && Wide(ws, blocks)
    {
      match format
      case Q4K => Rows4(Packed(o), Scale, blocks)
      case Q5K => Rows5(Packed(o), Scale, blocks)
      case Q6K => Rows6(Packed(o), Scale, blocks)
    }
  }

  method VecDot(m: Matrix, o: nat, x: seq<Q8>) returns (r: real)
    requires m.Valid() && o < m.outs && |x| == m.blocks && AllValid(x, |x|)
    ensures r == RowDot(x, m.Weights(o), m.blocks)
  {
    hide RowDot, Rows4, Rows5, Rows6;
    match m.format
    case Q4K => r := VecDotQ4(m.Packed(o), x, Scale);
    case Q5K => r := VecDotQ5(m.Packed(o), x, Scale);
    case Q6K => r := VecDotQ6(m.Packed(o), x, Scale);
  }

  // ----- rows

  function Width(m: Matrix): nat { m.blocks * QK_K }

  function RowOf(x: seq<F32>, rows: nat, m: Matrix, r: nat): (row: seq<F32>)
    requires |x| == Times(rows, Width(m)) && r < rows
    ensures |row| == Width(m)
  {
    SlotBound(r, rows, Width(m));
    x[Times(r, Width(m))..Times(r, Width(m)) + Width(m)]
  }

  ghost predicate RowAccepted(row: seq<F32>, blocks: nat)
    requires |row| == blocks * QK_K
  {
    forall b :: 0 <= b < blocks ==> BlockAccepted(row, b)
  }

  ghost function RowValues(row: seq<F32>, blocks: nat): (xs: seq<seq<real>>)
    requires |row| == blocks * QK_K && RowAccepted(row, blocks)
    ensures |xs| == blocks && Wide(xs, blocks)
    ensures forall b :: 0 <= b < blocks ==> BlockAccepted(row, b) && xs[b] == Values(row, b)
  {
    seq(blocks, b requires 0 <= b < blocks => assert BlockAccepted(row, b); Values(row, b))
  }

  /** v is within sum over the blocks of amax / 254 * |w|_1 of the exact dot product. */
  ghost predicate CellNear(row: seq<F32>, m: Matrix, o: nat, v: real)
    requires m.Valid() && o < m.outs && |row| == Width(m) && RowAccepted(row, m.blocks)
  {
    var xs, ws := RowValues(row, m.blocks), m.Weights(o);
    Abs(v - RowPlain(xs, ws, m.blocks)) <= RowBound(xs, ws, m.blocks)
  }

  /** Output o of row r. */
  ghost predicate OutputNear(row: seq<F32>, m: Matrix, out: seq<real>, r: nat, o: nat)
    requires m.Valid() && o < m.outs && |row| == Width(m) && RowAccepted(row, m.blocks)
  {
    Times(r, m.outs) + o < |out| && CellNear(row, m, o, out[Times(r, m.outs) + o])
  }

  ghost predicate RowNear(row: seq<F32>, m: Matrix, out: seq<real>, r: nat)
    requires m.Valid() && |row| == Width(m)
  {
    RowAccepted(row, m.blocks) && forall o :: 0 <= o < m.outs ==> OutputNear(row, m, out, r, o)
  }

  ghost predicate StandFor(row: seq<F32>, blocks: nat, x: seq<Q8>)
    requires |row| == blocks * QK_K
  {
    |x| == blocks && forall b :: 0 <= b < blocks ==> StandsFor(row, b, x[b])
  }

  lemma {:induction false} DotNear(row: seq<F32>, m: Matrix, x: seq<Q8>, o: nat, v: real)
    requires m.Valid() && o < m.outs && |row| == Width(m) && RowAccepted(row, m.blocks) && StandFor(row, m.blocks, x)
    requires AllValid(x, m.blocks) && v == RowDot(x, m.Weights(o), m.blocks)
    ensures CellNear(row, m, o, v)
  {
    hide RowDot, RowPlain, RowBound, Quantised, BlockAccepted;
    var xs := RowValues(row, m.blocks);
    forall b | 0 <= b < m.blocks ensures Quantised(xs[b], x[b]) { assert StandsFor(row, b, x[b]); }
    RowError(xs, x, m.Weights(o), m.blocks);
  }

  lemma {:induction false} BlocksValid(row: seq<F32>, blocks: nat, x: seq<Q8>)
    requires |row| == blocks * QK_K && StandFor(row, blocks, x)
    ensures |x| == blocks && AllValid(x, |x|)
  {
    forall b | 0 <= b < blocks ensures x[b].Valid() { assert StandsFor(row, b, x[b]); }
  }

  /** All outputs of one quantised row. */
  method RowOutputs(ghost row: seq<F32>, m: Matrix, x: seq<Q8>, r: nat, out: array<real>)
    requires m.Valid() && |row| == Width(m) && RowAccepted(row, m.blocks) && StandFor(row, m.blocks, x)
    requires Times(r, m.outs) + m.outs <= out.Length
    modifies out
    ensures RowNear(row, m, out[..], r)
    ensures forall i :: 0 <= i < out.Length && !(Times(r, m.outs) <= i < Times(r, m.outs) + m.outs) ==>
        out[i] == old(out[i])
  {
    hide StandFor, RowAccepted, CellNear, AllValid, Matrix.Weights;
    BlocksValid(row, m.blocks, x);
    var base := Times(r, m.outs);
    for o := 0 to m.outs
      invariant forall i :: 0 <= i < o ==> OutputNear(row, m, out[..], r, i)
      invariant forall i :: 0 <= i < out.Length && !(base <= i < base + o) ==> out[i] == old(out[i])
    {
      var v := VecDot(m, o, x);
      DotNear(row, m, x, o, v);
      ghost var before := out[..];
      out[base + o] := v;
      forall i | 0 <= i <= o ensures OutputNear(row, m, out[..], r, i) {
        if i < o { assert OutputNear(row, m, before, r, i); }
      }
    }
  }

  // ----- the layer

  datatype LayerResult = Computed | BadShape | RowRefused(row: nat, error: QuantResult)

  /** What validate_k_quant_linear accepts. A product that overflows a usize equals no length. */
  predicate ShapeFits(x: nat, rows: nat, ins: nat, outs: nat, format: Format, data: nat, out: nat) {
    && 0 < ins && 0 < outs && ins % QK_K == 0
    && x == Times(rows, ins) && out == Times(rows, outs)
    && data == Times(outs, ins / QK_K * format.Bytes())
  }

  lemma {:induction false} RowKept(row: seq<F32>, m: Matrix, a: seq<real>, b: seq<real>, r: nat, r': nat)
    requires m.Valid() && |row| == Width(m) && RowNear(row, m, a, r) && r != r' && |a| == |b|
    requires forall i :: 0 <= i < |a| && !(Times(r', m.outs) <= i < Times(r', m.outs) + m.outs) ==> b[i] == a[i]
    ensures RowNear(row, m, b, r)
  {
    hide CellNear, RowAccepted, Matrix.Weights;
    SlotsApart(r, r', m.outs);
    forall o | 0 <= o < m.outs ensures OutputNear(row, m, b, r, o) { assert OutputNear(row, m, a, r, o); }
  }

  /** linear_q8_k_k_quant: refused on a bad shape, leaving the output alone; otherwise row by row, up to
      the first row the quantiser refuses. Without a refusal every output is near the exact one. */
  method LinearQ8K(x: seq<F32>, rows: nat, ins: nat, outs: nat, format: Format, data: seq<bv8>, out: array<real>)
    returns (res: LayerResult)
    modifies out
    ensures res.BadShape? <==> !ShapeFits(|x|, rows, ins, outs, format, |data|, out.Length)
    ensures res.BadShape? ==> out[..] == old(out[..])
    ensures !res.BadShape? ==>
      var m := Matrix(ins / QK_K, outs, format, data);
      && m.Valid() && Width(m) == ins
      && var done := if res.Computed? then rows else res.row;
      && done <= rows
      && (forall r :: 0 <= r < done ==> RowNear(RowOf(x, rows, m, r), m, out[..], r))
      && (forall i :: Times(done, outs) <= i < out.Length ==> out[i] == old(out[i]))
      && (res.RowRefused? ==> done < rows && !RowAccepted(RowOf(x, rows, m, done), m.blocks) && !res.error.Quantized?)
  {
    if !ShapeFits(|x|, rows, ins, outs, format, |data|, out.Length) { return BadShape; }
    hide RowNear, RowAccepted, StandFor, Matrix.Weights, Times;
    var m := Matrix(ins / QK_K, outs, format, data);
    for r := 0 to rows
      invariant forall q :: 0 <= q < r ==> RowNear(RowOf(x, rows, m, q), m, out[..], q)
      invariant forall i :: Times(r, outs) <= i < out.Length ==> out[i] == old(out[i])
    {
      var row := RowOf(x, rows, m, r);
      SlotBound(r, rows, outs);
      var q := QuantizeRow(row);
      AcceptedIs(row, m.blocks, q);
      if !q.Quantized? { return RowRefused(r, q); }
      ghost var before := out[..];
      RowOutputs(row, m, q.blocks, r, out);
      forall p | 0 <= p < r ensures RowNear(RowOf(x, rows, m, p), m, out[..], p) {
        RowKept(RowOf(x, rows, m, p), m, before, out[..], p, r);
      }
      TimesNext(r, outs);
    }
    res := Computed;
  }

  lemma {:induction false} AcceptedIs(row: seq<F32>, blocks: nat, q: QuantResult)
    requires |row| == blocks * QK_K
    requires q.Quantized? <==> forall b :: 0 <= b < |row| / QK_K ==> BlockAccepted(row, b)
    requires q.Quantized? ==> |q.blocks| == |row| / QK_K && forall b :: 0 <= b < |q.blocks| ==>
        StandsFor(row, b, q.blocks[b])
    ensures q.Quantized? <==> RowAccepted(row, blocks)
    ensures q.Quantized? ==> StandFor(row, blocks, q.blocks)
  {
    assert |row| / QK_K == blocks;
  }
}
