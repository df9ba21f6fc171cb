/** The quantised layer end to end: every output is near the plain dot product of its input row with the weights
    that the loader makes of the same bytes, all at flat offsets. */
module KQuantMeaning {
  import opened Index
  import opened Arithmetic
  import opened Rounding
  import opened KQuantSums
  import opened KQuantRows
  import opened KQuantQuantize
  import opened KQuantLayer
  import opened KQuantLoader
  import opened Sums

  /** Cell p of the activations. */
  ghost function InputCell(x: seq<F32>, p: int): real { if 0 <= p < |x| && x[p].Finite? then x[p].r else 0.0 }

  /** Input i of row r, times weight i of output o as loaded. */
  ghost function LayerTerm(x: seq<F32>, values: seq<real>, ins: nat, r: nat, o: nat): nat -> real {
    (i: nat) => InputCell(x, r * ins + i) * Cell(values, o * ins + i)
  }

  /** Block b of weight row o is block o * blocks + b of the tensor. */
  lemma {:induction false} SameBytes(m: Matrix, o: nat, b: nat)
    requires m.Valid() && o < m.outs && b < m.blocks
    ensures var size := m.format.Bytes();
            && |m.data| == (m.outs * m.blocks) * size
            && b * size + size <= m.Row() && (o * m.blocks + b) * size + size <= |m.data|
            && BlockBytes(m.Packed(o), b, size) == BlockBytes(m.data, o * m.blocks + b, size)
  {
    hide Times;
    var size := m.format.Bytes();
    TimesIsProduct(m.outs, m.Row());
    TimesIsProduct(o, m.Row());
    BlockInside(b, m.blocks, size);
    SlotBound(o, m.outs, m.Row());
    Regroup(m.outs, m.blocks, 0, size);
    Regroup(o, m.blocks, b, size);
    SliceOfSlice(m.data, Times(o, m.Row()), m.Row(), b * size, size);
  }

  lemma {:induction false} Regroup(o: nat, n: nat, b: nat, size: nat)
    ensures (o * n + b) * size == o * (n * size) + b * size
  {}

  lemma {:induction false} RowsAt(format: Format, raw: seq<bv8>, half: Half, n: nat, b: nat)
    requires |raw| == n * format.Bytes() && b < n
    ensures b * format.Bytes() + format.Bytes() <= |raw|
    ensures BlockRows(format, raw, half, n)[b]
         == match format
            case Q4K => Weights4(BlockBytes(raw, b, format.Bytes()), half)
            case Q5K => Weights5(BlockBytes(raw, b, format.Bytes()), half)
            case Q6K => Weights6(BlockBytes(raw, b, format.Bytes()), half)
  {
    hide Weights4, Weights5, Weights6;
    BlockInside(b, n, format.Bytes());
  }

  lemma {:induction false} SameRows(m: Matrix, o: nat, b: nat)
    requires m.Valid() && o < m.outs && b < m.blocks
    ensures |m.data| == (m.outs * m.blocks) * m.format.Bytes() && o * m.blocks + b < m.outs * m.blocks
    ensures m.Weights(o)[b] == BlockRows(m.format, m.data, Scale, m.outs * m.blocks)[o * m.blocks + b]
  {
    hide Weights4, Weights5, Weights6, BlockBytes, Times, Rows4, Rows5, Rows6;
    SameBytes(m, o, b);
    BlockInside(o, m.outs, m.blocks);
    RowsAt(m.format, m.Packed(o), Scale, m.blocks, b);
    RowsAt(m.format, m.data, Scale, m.outs * m.blocks, o * m.blocks + b);
    WeightsAre(m, o);
  }

  lemma {:induction false} WeightsAre(m: Matrix, o: nat)
    requires m.Valid() && o < m.outs
    ensures m.Weights(o) == BlockRows(m.format, m.Packed(o), Scale, m.blocks)
  {
    hide Rows4, Rows5, Rows6;
  }

  /** Weight i of block b of output o, among the loaded values. */
  lemma {:induction false} LoadedAt(m: Matrix, values: seq<real>, o: nat, b: nat, i: nat)
    requires m.Valid() && o < m.outs && b < m.blocks && i < QK_K
    requires |m.data| == (m.outs * m.blocks) * m.format.Bytes()
    requires Loaded(values, BlockRows(m.format, m.data, Scale, m.outs * m.blocks))
    ensures m.Weights(o)[b][i] == Cell(values, o * Width(m) + (256 * b + i))
  {
    hide BlockRows, Matrix.Weights;
    SameRows(m, o, b);
    var t: nat := o * m.blocks + b;
    var ws := BlockRows(m.format, m.data, Scale, m.outs * m.blocks);
    assert BlockLoaded(values, t, ws[t]);
    assert values[256 * t..256 * t + 256][i] == values[256 * t + i];
    Regroup(o, m.blocks, b, 256);
  }

  /** Value i of block b of row r, among the activations. */
  lemma {:induction false} ActivationAt(x: seq<F32>, rows: nat, m: Matrix, r: nat, b: nat, i: nat)
    requires |x| == Times(rows, Width(m)) && r < rows && b < m.blocks && i < QK_K
    requires RowAccepted(RowOf(x, rows, m, r), m.blocks)
    ensures RowValues(RowOf(x, rows, m, r), m.blocks)[b][i] == InputCell(x, r * Width(m) + (256 * b + i))
  {
    hide Times, TooSmall;
    var row := RowOf(x, rows, m, r);
    assert BlockAccepted(row, b);
    TimesIsProduct(r, Width(m));
    SlotBound(r, rows, Width(m));
    assert row[b * QK_K + i] == x[Times(r, Width(m)) + (b * QK_K + i)];
  }

  /** The exact dot product of a row is the flat sum. */
  lemma {:induction false} RowPlainIsSum(xs: seq<seq<real>>, ws: seq<seq<real>>, n: nat, g: (nat, nat) -> real)
    requires n <= |xs| && n <= |ws| && Wide(xs, n) && Wide(ws, n)
    requires forall b: nat, i: nat :: b < n && i < QK_K ==> g(b, i) == xs[b][i] * ws[b][i]
    ensures RowPlain(xs, ws, n) == Sum2(n, QK_K, g)
  {
    hide Plain, Sum;
    if n > 0 {
      RowPlainIsSum(xs, ws, n - 1, g);
      PlainIsSum(xs[n - 1], ws[n - 1], QK_K, Line(g, n - 1));
    }
  }

  lemma {:induction false} LayerSum(x: seq<F32>, rows: nat, m: Matrix, values: seq<real>, r: nat, o: nat)
    requires m.Valid() && |x| == Times(rows, Width(m)) && r < rows && o < m.outs
    requires RowAccepted(RowOf(x, rows, m, r), m.blocks)
    requires |m.data| == (m.outs * m.blocks) * m.format.Bytes()
    requires Loaded(values, BlockRows(m.format, m.data, Scale, m.outs * m.blocks))
    ensures RowPlain(RowValues(RowOf(x, rows, m, r), m.blocks), m.Weights(o), m.blocks)
         == Sum(Width(m), LayerTerm(x, values, Width(m), r, o))
  {
    hide Times, Matrix.Weights, RowPlain, Sum, Sum2, Loaded, BlockRows, RowOf, RowAccepted, Cell, InputCell;
    var xs, ws := RowValues(RowOf(x, rows, m, r), m.blocks), m.Weights(o);
    var f := LayerTerm(x, values, Width(m), r, o);
    var g := (b: nat, i: nat) => f(256 * b + i);
    forall b: nat, i: nat | b < m.blocks && i < QK_K ensures g(b, i) == xs[b][i] * ws[b][i] {
      LoadedAt(m, values, o, b, i);
      ActivationAt(x, rows, m, r, b, i);
    }
    RowPlainIsSum(xs, ws, m.blocks, g);
    forall b: nat, i: nat | b < m.blocks && i < QK_K ensures f(Times(b, QK_K) + i) == g(b, i) {
      TimesIsProduct(b, QK_K);
    }
    SumOfRows(m.blocks, QK_K, f, g);
    TimesIsProduct(m.blocks, QK_K);
  }

  /** Every output of a computed layer is within the quantisation bound of the plain dot product of its input row
      with the weights the loader returns for the same tensor. */
  lemma {:induction false} OutputIsNear(x: seq<F32>, rows: nat, m: Matrix, values: seq<real>, out: seq<real>, r: nat,
                                        o: nat)
    requires m.Valid() && |x| == Times(rows, Width(m)) && r < rows && o < m.outs
    requires RowNear(RowOf(x, rows, m, r), m, out, r)
    requires |m.data| == (m.outs * m.blocks) * m.format.Bytes()
    requires Loaded(values, BlockRows(m.format, m.data, Scale, m.outs * m.blocks))
    ensures RowAccepted(RowOf(x, rows, m, r), m.blocks) && 0 <= r * m.outs + o < |out|
    ensures Abs(out[r * m.outs + o] - Sum(Width(m), LayerTerm(x, values, Width(m), r, o)))
         <= RowBound(RowValues(RowOf(x, rows, m, r), m.blocks), m.Weights(o), m.blocks)
  {
    hide Times, Matrix.Weights, RowPlain, Sum, Loaded, BlockRows, RowOf, RowAccepted, RowBound, LayerTerm, Abs;
    TimesIsProduct(r, m.outs);
    assert OutputNear(RowOf(x, rows, m, r), m, out, r, o);
    LayerSum(x, rows, m, values, r, o);
  }
}
