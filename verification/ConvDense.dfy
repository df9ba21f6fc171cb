/** conv2d: patches, the scalar linear layer, and the transpose to channel-major. */
module ConvDense {
  import opened Index
  import opened Arithmetic
  import opened Checked
  import opened LinearSpec
  import opened LinearNest
  import opened LinearParallel
  import opened Conv

  /** Cell `pos` of the channel-major output, by the cell-major value it must be. */
  ghost predicate Moved<F>(cm: seq<F>, out: seq<F>, cells: nat, outs: nat, pos: nat)
    requires |cm| == Times(cells, outs) && |out| == Times(outs, cells) && pos < |out|
  {
    QuotBound(pos, outs, cells);
    SlotBound(Rem(pos, cells), cells, outs);
    out[pos] == cm[Times(Rem(pos, cells), outs) + Quot(pos, cells)]
  }

  ghost predicate MovedTo<F>(cm: seq<F>, out: seq<F>, cells: nat, outs: nat, cell: nat, oc: nat)
    requires |cm| == Times(cells, outs) && |out| == Times(outs, cells)
  {
    forall pos ::
      0 <= pos < |out| && 0 < cells
      && (Rem(pos, cells) < cell || (Rem(pos, cells) == cell && Quot(pos, cells) < oc)) ==>
      Moved(cm, out, cells, outs, pos)
  }

  method MoveCell<F>(cm: seq<F>, cells: nat, outs: nat, cell: nat, out: array<F>)
    requires |cm| == Times(cells, outs) && out.Length == Times(outs, cells) && cell < cells
    requires MovedTo(cm, out[..], cells, outs, cell, 0)
    modifies out
    ensures MovedTo(cm, out[..], cells, outs, cell + 1, 0)
  {
    hide Times, Quot, Rem;
    for oc := 0 to outs
      invariant MovedTo(cm, out[..], cells, outs, cell, oc)
    {
      SlotBound(oc, outs, cells);
      SlotBound(cell, cells, outs);
      QuotJoin(oc, cell, cells);
      ghost var before := out[..];
      out[Times(oc, cells) + cell] := cm[Times(cell, outs) + oc];
      MovesOne(cm, before, out[..], cells, outs, cell, oc);
    }
    NextCell(cm, out[..], cells, outs, cell);
  }

  lemma {:induction false} MovesOne<F>(cm: seq<F>, a: seq<F>, b: seq<F>, cells: nat, outs: nat, cell: nat, oc: nat)
    requires |cm| == Times(cells, outs) && |a| == Times(outs, cells) && cell < cells && oc < outs
    requires MovedTo(cm, a, cells, outs, cell, oc)
    requires Times(oc, cells) + cell < |a| && Times(cell, outs) + oc < |cm|
    requires b == a[Times(oc, cells) + cell := cm[Times(cell, outs) + oc]]
    ensures MovedTo(cm, b, cells, outs, cell, oc + 1)
  {
    hide Times, Quot, Rem;
    QuotJoin(oc, cell, cells);
    forall pos | 0 <= pos < |b| && 0 < cells
        && (Rem(pos, cells) < cell || (Rem(pos, cells) == cell && Quot(pos, cells) < oc + 1))
      ensures Moved(cm, b, cells, outs, pos)
    {
      QuotRem(pos, cells);
      if pos != Times(oc, cells) + cell { assert Moved(cm, a, cells, outs, pos); }
    }
  }

  lemma {:induction false} NextCell<F>(cm: seq<F>, out: seq<F>, cells: nat, outs: nat, cell: nat)
    requires |cm| == Times(cells, outs) && |out| == Times(outs, cells) && cell < cells
    requires MovedTo(cm, out, cells, outs, cell, outs)
    ensures MovedTo(cm, out, cells, outs, cell + 1, 0)
  {
    hide Times, Quot, Rem;
    forall pos | 0 <= pos < |out|
        && (Rem(pos, cells) < cell + 1 || (Rem(pos, cells) == cell + 1 && Quot(pos, cells) < 0))
      ensures Moved(cm, out, cells, outs, pos)
    {
      QuotBound(pos, outs, cells);
    }
  }

  /** cell-major [cells][outs] to channel-major [outs][cells] */
  method Transpose<F>(cm: seq<F>, cells: nat, outs: nat, out: array<F>)
    requires |cm| == Times(cells, outs) && out.Length == Times(outs, cells)
    modifies out
    ensures MovedTo(cm, out[..], cells, outs, cells, 0)
  {
    hide Times, Quot, Rem;
    for cell := 0 to cells
      invariant MovedTo(cm, out[..], cells, outs, cell, 0)
    {
      MoveCell(cm, cells, outs, cell, out);
    }
  }

  lemma {:induction false} MovedAt<F>(cm: seq<F>, out: seq<F>, cells: nat, outs: nat, cell: nat, oc: nat)
    requires |cm| == Times(cells, outs) && |out| == Times(outs, cells) && cell < cells && oc < outs
    requires MovedTo(cm, out, cells, outs, cells, 0)
    ensures Times(oc, cells) + cell < |out| && Times(cell, outs) + oc < |cm|
    ensures out[Times(oc, cells) + cell] == cm[Times(cell, outs) + oc]
  {
    hide Times, Quot, Rem;
    SlotBound(oc, outs, cells);
    SlotBound(cell, cells, outs);
    QuotJoin(oc, cell, cells);
    assert Moved(cm, out, cells, outs, Times(oc, cells) + cell);
  }

  function BiasOf<F>(bias: Option<seq<F>>): seq<F> { if bias.Some? then bias.value else [] }

  function LayerOf<F>(m: Image<F>, weight: seq<F>, bias: Option<seq<F>>, outs: nat): Layer<F> {
    Layer(weight, BiasOf(bias), m.Taps(), outs)
  }

  /** The shapes conv2d takes. */
  predicate Accepts<F>(m: Image<F>, weight: seq<F>, bias: Option<seq<F>>, outs: nat, outLen: nat) {
    && 0 < m.kh && 0 < m.kw && 0 < m.sh && 0 < m.sw && |m.input| == Times(Times(m.channels, m.h), m.w)
    && |weight| == Times(outs, m.Taps()) && outLen == Times(outs, m.Cells()) && (bias.Some? ==> |bias.value| == outs)
  }

  /** Every output cell is the scalar fold, from the bias, of the zero-padded taps by the filter. */
  ghost predicate Convolved<F>(ops: Ops<F>, m: Image<F>, layer: Layer<F>, out: seq<F>)
    requires m.Valid() && layer.Valid() && layer.ins == m.Taps()
  {
    && |out| == Times(layer.outs, m.Cells())
    && forall oc, cell :: 0 <= oc < layer.outs && 0 <= cell < m.Cells() ==> ConvolvedAt(ops, m, layer, out, oc, cell)
  }

  ghost predicate ConvolvedAt<F>(ops: Ops<F>, m: Image<F>, layer: Layer<F>, out: seq<F>, oc: nat, cell: nat)
    requires m.Valid() && layer.Valid() && layer.ins == m.Taps() && oc < layer.outs
  {
    && Times(oc, m.Cells()) + cell < |out|
    && out[Times(oc, m.Cells()) + cell] == ScalarCell(ops, m.Patch(ops, cell), layer, oc)
  }

  method Conv2d<F>(ops: Ops<F>, m: Image<F>, weight: seq<F>, bias: Option<seq<F>>, outs: nat,
                   out: array<F>) returns (ok: bool)
    modifies out
    ensures ok == Accepts(m, weight, bias, outs, out.Length)
    ensures ok ==> m.Valid() && LayerOf(m, weight, bias, outs).Valid()
    ensures ok ==> Convolved(ops, m, LayerOf(m, weight, bias, outs), out[..])
    ensures !ok ==> out[..] == old(out[..])
  {
    hide Times, Quot, Rem, ConvOutLen, TapsFilled, Convolved, MovedTo, Computed, Complete, Image.Taps;
    ok := false;
    if m.kh == 0 || m.kw == 0 || m.sh == 0 || m.sw == 0 { return; }
    if |m.input| != Times(Times(m.channels, m.h), m.w) { return; }
    if |weight| != Times(outs, m.Taps()) || out.Length != Times(outs, m.Cells()) { return; }
    var cols := Im2col(ops, m);
    PatchMatrix(ops, m, cols[..]);
    if bias.Some? && |bias.value| != outs { return; }
    var layer := LayerOf(m, weight, bias, outs);
    var cm := new F[Times(m.Cells(), outs)](_ => ops.zero);
    ghost var empty := cm[..];
    Compute(ops, Scalar, cols[..], m.Cells(), layer, cm, 0);
    SerialComplete(ops, Scalar, cols[..], m.Cells(), layer, empty, cm[..]);
    Transpose(cm[..], m.Cells(), outs, out);
    DenseIsConvolved(ops, m, layer, cols[..], cm[..], out[..]);
    ok := true;
  }

  lemma {:induction false} PatchMatrix<F>(ops: Ops<F>, m: Image<F>, cols: seq<F>)
    requires m.Valid() && TapsFilled(ops, m, cols, Times(m.Cells(), m.Rows()))
    ensures |cols| == Times(m.Cells(), m.Taps())
  {}

  lemma {:induction false} DenseIsConvolved<F>(ops: Ops<F>, m: Image<F>, layer: Layer<F>, cols: seq<F>, cm: seq<F>,
                                               out: seq<F>)
    requires m.Valid() && layer.Valid() && layer.ins == m.Taps() && |cols| == Times(m.Cells(), m.Taps())
    requires TapsFilled(ops, m, cols, Times(m.Cells(), m.Rows()))
    requires Complete(ops, Scalar, cols, m.Cells(), layer, cm)
    requires |cm| == Times(m.Cells(), layer.outs) && |out| == Times(layer.outs, m.Cells())
    requires MovedTo(cm, out, m.Cells(), layer.outs, m.Cells(), 0)
    ensures Convolved(ops, m, layer, out)
  {
    hide Times, Quot, Rem, ConvOutLen, TapsFilled, MovedTo, ScalarCell, Image.Patch;
    forall oc, cell | 0 <= oc < layer.outs && 0 <= cell < m.Cells() ensures ConvolvedAt(ops, m, layer, out, oc, cell) {
      MovedAt(cm, out, m.Cells(), layer.outs, cell, oc);
      assert RowIs(ops, Scalar, cols, m.Cells(), layer, cm, cell);
      assert CellIs(ops, Scalar, cols, m.Cells(), layer, cm, cell, oc);
      RowIsPatch(ops, m, cols, cell);
    }
  }
}
