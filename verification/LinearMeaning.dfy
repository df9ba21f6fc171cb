/** What linear layers and matrix products mean over the reals, in flat offsets and plain sums. */
module LinearMeaning {
  import opened Index
  import opened Arithmetic
  import opened Layout
  import opened LinearSpec
  import opened LinearParallel
  import opened AvxExact
  import opened Sums
  import Matmul

  // ---- linear layers ----

  /** Input i of row r, times weight i of output o. */
  ghost function LinearTerm(x: seq<real>, w: seq<real>, ins: nat, r: nat, o: nat): nat -> real {
    (i: nat) => Cell(x, r * ins + i) * Cell(w, o * ins + i)
  }

  lemma {:induction false} FlatRow(x: seq<real>, rows: nat, width: nat, r: nat, i: nat)
    requires |x| == Times(rows, width) && r < rows && i < width
    ensures Times(r, width) + width <= |x| && RowAt(x, r, width)[i] == Cell(x, r * width + i)
  {
    hide Times;
    SlotBound(r, rows, width);
    TimesIsProduct(r, width);
  }

  lemma {:induction false} ScalarCellIsSum(exp: real -> real, x: seq<real>, rows: nat, layer: Layer<real>, r: nat,
                                           o: nat)
    requires layer.Valid() && |x| == Times(rows, layer.ins) && r < rows && o < layer.outs
    ensures ScalarCell(RealOps(exp), Input(x, rows, layer.ins, r), layer, o)
         == BiasAt(RealOps(exp), layer.bias, o) + Sum(layer.ins, LinearTerm(x, layer.w, layer.ins, r, o))
  {
    hide Times, Dot, RealOps, Sum, Cell, BiasAt, RowAt;
    var a, b := Input(x, rows, layer.ins, r), layer.Weights(o);
    DotIsSum(exp, BiasAt(RealOps(exp), layer.bias, o), a, b);
    forall i | 0 <= i < layer.ins ensures TermIs(a, b, i, LinearTerm(x, layer.w, layer.ins, r, o)(i)) {
      FlatRow(x, rows, layer.ins, r, i);
      FlatRow(layer.w, layer.outs, layer.ins, o, i);
    }
    SumSame(layer.ins, Products(a, b), LinearTerm(x, layer.w, layer.ins, r, o));
  }

  /** A layer computed in any mode: every cell is its bias plus the sum of its row's inputs by its weights. */
  lemma {:induction false} LinearIsSum(exp: real -> real, mode: Mode, x: seq<real>, rows: nat, layer: Layer<real>,
                                       out: seq<real>, r: nat, o: nat)
    requires layer.Valid() && |x| == Times(rows, layer.ins) && r < rows && o < layer.outs
    requires Complete(RealOps(exp), mode, x, rows, layer, out)
    ensures 0 <= r * layer.outs + o < |out|
    ensures out[r * layer.outs + o] == (if |layer.bias| == 0 then 0.0 else layer.bias[o])
                                       + Sum(layer.ins, LinearTerm(x, layer.w, layer.ins, r, o))
  {
    hide Times, AvxCell, ScalarCell, Sum, LinearTerm, Input;
    SlotBound(r, rows, layer.outs);
    TimesIsProduct(r, layer.outs);
    assert RowIs(RealOps(exp), mode, x, rows, layer, out, r);
    assert CellIs(RealOps(exp), mode, x, rows, layer, out, r, o);
    AvxCellIsScalar(exp, Input(x, rows, layer.ins, r), layer, o);
    ScalarCellIsSum(exp, x, rows, layer, r, o);
  }

  // ---- matrix products ----

  /** Cell p of row i of a, times cell p of column j of b. */
  ghost function ProductTerm(t: Matmul.Product<real>, i: nat, j: nat): nat -> real {
    (p: nat) => Cell(t.a, i * t.k + p) * Cell(t.b, p * t.n + j)
  }

  lemma {:induction false} RowCell(t: Matmul.Product<real>, i: nat, p: nat)
    requires t.Valid() && i < t.m && p < t.k
    ensures t.Row(i)[p] == Cell(t.a, i * t.k + p)
  {
    hide Times;
    SlotBound(i, t.m, t.k);
    TimesIsProduct(i, t.k);
  }

  lemma {:induction false} ColumnCell(t: Matmul.Product<real>, j: nat, p: nat)
    requires t.Valid() && j < t.n && p < t.k
    ensures t.Column(j)[p] == Cell(t.b, p * t.n + j)
  {
    hide Times;
    SlotBound(p, t.k, t.n);
    TimesIsProduct(p, t.n);
  }

  /** However a product is computed, cell (i, j) is the sum of row i by column j. */
  lemma {:induction false} ProductIsSum(exp: real -> real, t: Matmul.Product<real>, out: seq<real>, i: nat, j: nat)
    requires t.Valid() && t.ops == RealOps(exp) && i < t.m && j < t.n && Matmul.AllRows(t, out)
    ensures 0 <= i * t.n + j < |out| && out[i * t.n + j] == Sum(t.k, ProductTerm(t, i, j))
  {
    hide Times, Dot, RealOps, Sum, Cell, Matmul.Product.Row, Matmul.Product.Column;
    TimesIsProduct(i, t.n);
    assert BlockIs(out, i, t.n, t.OutRow(i));
    BlockAt(out, i, t.n, j);
    var a, b := t.Row(i), t.Column(j);
    DotIsSum(exp, 0.0, a, b);
    forall p | 0 <= p < t.k ensures TermIs(a, b, p, ProductTerm(t, i, j)(p)) {
      RowCell(t, i, p);
      ColumnCell(t, j, p);
    }
    SumSame(t.k, Products(a, b), ProductTerm(t, i, j));
    ZeroOf(exp);
  }

  lemma {:induction false} ZeroOf(exp: real -> real)
    ensures RealOps(exp).zero == 0.0
  {}
}
