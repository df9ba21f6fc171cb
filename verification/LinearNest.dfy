/** The loop nests of linear_out_by_in over a chunk of rows. */
module LinearNest {
  import opened Index
  import opened Arithmetic
  import opened Layout
  import opened LinearSpec
  import opened LinearKernels

  /** The chunk [base, base + rows * outs) of `out` is the wanted matrix; nothing else has changed. */
  ghost predicate Computed<F>(before: seq<F>, out: seq<F>, base: nat, outs: nat, want: seq<seq<F>>) {
    && Filled(out, base, outs, want)
    && SameOutside(out, before, base, Times(|want|, outs))
  }

  ghost predicate Filled<F>(out: seq<F>, base: nat, outs: nat, want: seq<seq<F>>) {
    forall r :: 0 <= r < |want| ==> RowDone(out, base, outs, r, outs, want[r])
  }

  /** The sixteen stores of a tile. */
  method StoreTile<F>(out: array<F>, base: nat, outs: nat, rows: nat, row: nat, o: nat, r0: seq<F>, r1: seq<F>,
                      r2: seq<F>, r3: seq<F>, ghost want: seq<seq<F>>)
    requires row + 4 <= rows == |want| && o + 4 <= outs && base + Times(rows, outs) <= out.Length
    requires |r0| == |r1| == |r2| == |r3| == 4
    requires |want[row]| == |want[row + 1]| == |want[row + 2]| == |want[row + 3]| == outs
    requires r0 == want[row][o..o + 4] && r1 == want[row + 1][o..o + 4] && r2 == want[row + 2][o..o + 4]
        && r3 == want[row + 3][o..o + 4]
    requires Progress(out[..], base, outs, ColsAt(rows, row, 4, o, outs), want)
    modifies out
    ensures Progress(out[..], base, outs, ColsAt(rows, row, 4, o + 4, outs), want)
    ensures SameOutside(out[..], old(out[..]), base, Times(rows, outs))
  {
    hide Progress, Times;
    ghost var c0 := ColsAt(rows, row, 4, o, outs);
    ghost var c1 := c0[row := o + 4];
    ghost var c2 := c1[row + 1 := o + 4];
    ghost var c3 := c2[row + 2 := o + 4];
    StoreQuad(out, base, outs, row, o, r0, c0, want);
    StoreQuad(out, base, outs, row + 1, o, r1, c1, want);
    StoreQuad(out, base, outs, row + 2, o, r2, c2, want);
    StoreQuad(out, base, outs, row + 3, o, r3, c3, want);
    assert c3[row + 3 := o + 4] == ColsAt(rows, row, 4, o + 4, outs);
  }

  /** One step of the 4x4 tile loop: the tile at (row, o). */
  method TileStep<F>(ops: Ops<F>, mode: Mode, x: seq<F>, rows: nat, layer: Layer<F>, row: nat, o: nat,
                     out: array<F>, base: nat, ghost want: seq<seq<F>>)
    requires layer.Valid() && |x| == Times(rows, layer.ins) && !mode.Optimized?
    requires row + 4 <= Tiled(rows) && o + 4 <= Tiled(layer.outs) && base + Times(rows, layer.outs) <= out.Length
    requires want == WantAll(ops, mode, x, rows, layer)
    requires Progress(out[..], base, layer.outs, ColsAt(rows, row, 4, o, layer.outs), want)
    modifies out
    ensures Progress(out[..], base, layer.outs, ColsAt(rows, row, 4, o + 4, layer.outs), want)
    ensures SameOutside(out[..], old(out[..]), base, Times(rows, layer.outs))
  {
    hide WantRow, IsQuad, IsAvxQuad, Progress;
    var x0, x1 := Input(x, rows, layer.ins, row), Input(x, rows, layer.ins, row + 1);
    var x2, x3 := Input(x, rows, layer.ins, row + 2), Input(x, rows, layer.ins, row + 3);
    var r0, r1, r2, r3;
    if mode.Avx2? {
      r0, r1, r2, r3 := AvxTile(ops, layer, o, x0, x1, x2, x3);
    } else {
      r0, r1, r2, r3 := ScalarTile(ops, layer, o, x0, x1, x2, x3);
    }
    QuadWanted(ops, mode, x, rows, layer, row, o, r0);
    QuadWanted(ops, mode, x, rows, layer, row + 1, o, r1);
    QuadWanted(ops, mode, x, rows, layer, row + 2, o, r2);
    QuadWanted(ops, mode, x, rows, layer, row + 3, o, r3);
    StoreTile(out, base, layer.outs, rows, row, o, r0, r1, r2, r3, want);
  }

  /** One column past the last tile, for the four rows of a tile: scalar in both modes. */
  method ColumnStep<F>(ops: Ops<F>, mode: Mode, x: seq<F>, rows: nat, layer: Layer<F>, row: nat, o: nat,
                       out: array<F>, base: nat, ghost want: seq<seq<F>>)
    requires layer.Valid() && |x| == Times(rows, layer.ins) && !mode.Optimized?
    requires row + 4 <= Tiled(rows) && Tiled(layer.outs) <= o < layer.outs
        && base + Times(rows, layer.outs) <= out.Length
    requires want == WantAll(ops, mode, x, rows, layer)
    requires Progress(out[..], base, layer.outs, ColsAt(rows, row, 4, o, layer.outs), want)
    modifies out
    ensures Progress(out[..], base, layer.outs, ColsAt(rows, row, 4, o + 1, layer.outs), want)
    ensures SameOutside(out[..], old(out[..]), base, Times(rows, layer.outs))
  {
    hide WantRow, ScalarCell, AvxCell, Progress;
    var s0, s1, s2, s3 := ScalarColumn(ops, layer, o, Input(x, rows, layer.ins, row),
        Input(x, rows, layer.ins, row + 1),
                                       Input(x, rows, layer.ins, row + 2), Input(x, rows, layer.ins, row + 3));
    ghost var c0 := ColsAt(rows, row, 4, o, layer.outs);
    ghost var c1 := c0[row := o + 1];
    ghost var c2 := c1[row + 1 := o + 1];
    ghost var c3 := c2[row + 2 := o + 1];
    StoreOne(out, base, layer.outs, row, o, s0, c0, want);
    StoreOne(out, base, layer.outs, row + 1, o, s1, c1, want);
    StoreOne(out, base, layer.outs, row + 2, o, s2, c2, want);
    StoreOne(out, base, layer.outs, row + 3, o, s3, c3, want);
    assert c3[row + 3 := o + 1] == ColsAt(rows, row, 4, o + 1, layer.outs);
  }

  /** Four rows: tiles, then the columns that are left. */
  method TileBand<F>(ops: Ops<F>, mode: Mode, x: seq<F>, rows: nat, layer: Layer<F>, row: nat,
                     out: array<F>, base: nat, ghost want: seq<seq<F>>)
    requires layer.Valid() && |x| == Times(rows, layer.ins) && !mode.Optimized?
    requires row + 4 <= Tiled(rows) && base + Times(rows, layer.outs) <= out.Length
    requires want == WantAll(ops, mode, x, rows, layer)
    requires Progress(out[..], base, layer.outs, ColsAt(rows, row, 4, 0, layer.outs), want)
    modifies out
    ensures Progress(out[..], base, layer.outs, ColsAt(rows, row + 4, 4, 0, layer.outs), want)
    ensures SameOutside(out[..], old(out[..]), base, Times(rows, layer.outs))
  {
    hide WantAll, Progress, ColsAt;
    var o := 0;
    while o < Tiled(layer.outs)
      invariant o <= Tiled(layer.outs) && o % 4 == 0
      invariant Progress(out[..], base, layer.outs, ColsAt(rows, row, 4, o, layer.outs), want)
      invariant SameOutside(out[..], old(out[..]), base, Times(rows, layer.outs))
    {
      TileStep(ops, mode, x, rows, layer, row, o, out, base, want);
      o := o + 4;
    }
    for t := Tiled(layer.outs) to layer.outs
      invariant Progress(out[..], base, layer.outs, ColsAt(rows, row, 4, t, layer.outs), want)
      invariant SameOutside(out[..], old(out[..]), base, Times(rows, layer.outs))
    {
      ColumnStep(ops, mode, x, rows, layer, row, t, out, base, want);
    }
    BandDone(rows, row, 4, layer.outs);
  }

  lemma {:induction false} BandDone(rows: nat, row: nat, height: nat, outs: nat)
    ensures ColsAt(rows, row, height, outs, outs) == ColsAt(rows, row + height, height, 0, outs)
  {}

  lemma {:induction false} BandHeight(rows: nat, row: nat, outs: nat)
    ensures ColsAt(rows, row, 4, 0, outs) == ColsAt(rows, row, 1, 0, outs)
  {}

  /** A row that fills no tile: quads, then single columns, in the mode's own arithmetic. */
  method TailRow<F>(ops: Ops<F>, mode: Mode, x: seq<F>, rows: nat, layer: Layer<F>, row: nat,
                    out: array<F>, base: nat, ghost want: seq<seq<F>>)
    requires layer.Valid() && |x| == Times(rows, layer.ins) && !mode.Optimized?
    requires Tiled(rows) <= row < rows && base + Times(rows, layer.outs) <= out.Length
    requires want == WantAll(ops, mode, x, rows, layer)
    requires Progress(out[..], base, layer.outs, ColsAt(rows, row, 1, 0, layer.outs), want)
    modifies out
    ensures Progress(out[..], base, layer.outs, ColsAt(rows, row + 1, 1, 0, layer.outs), want)
    ensures SameOutside(out[..], old(out[..]), base, Times(rows, layer.outs))
  {
    hide Progress, WantRow, IsQuad, IsAvxQuad, ScalarCell, AvxCell;
    var xr := Input(x, rows, layer.ins, row);
    var o := 0;
    while o < Tiled(layer.outs)
      invariant o <= Tiled(layer.outs) && o % 4 == 0
      invariant Progress(out[..], base, layer.outs, ColsAt(rows, row, 1, o, layer.outs), want)
      invariant SameOutside(out[..], old(out[..]), base, Times(rows, layer.outs))
    {
      var v;
      if mode.Avx2? { v := AvxQuad(ops, layer, o, xr); } else { v := ScalarQuad(ops, layer, o, xr); }
      QuadWanted(ops, mode, x, rows, layer, row, o, v);
      StoreQuad(out, base, layer.outs, row, o, v, ColsAt(rows, row, 1, o, layer.outs), want);
      ColsNext(rows, row, o, 4, layer.outs);
      o := o + 4;
    }
    for t := Tiled(layer.outs) to layer.outs
      invariant Progress(out[..], base, layer.outs, ColsAt(rows, row, 1, t, layer.outs), want)
      invariant SameOutside(out[..], old(out[..]), base, Times(rows, layer.outs))
    {
      var v;
      if mode.Avx2? { v := VectorDot(ops, layer, t, xr); } else { v := ScalarDot(ops, layer, t, xr); }
      StoreOne(out, base, layer.outs, row, t, v, ColsAt(rows, row, 1, t, layer.outs), want);
      ColsNext(rows, row, t, 1, layer.outs);
    }
    BandDone(rows, row, 1, layer.outs);
  }

  lemma {:induction false} ColsNext(rows: nat, row: nat, col: nat, step: nat, outs: nat)
    requires row < rows
    ensures ColsAt(rows, row, 1, col, outs)[row := col + step] == ColsAt(rows, row, 1, col + step, outs)
  {}

  /** linear_out_by_in_compute and linear_out_by_in_compute_avx2. */
  method TiledNest<F>(ops: Ops<F>, mode: Mode, x: seq<F>, rows: nat, layer: Layer<F>, out: array<F>, base: nat)
    requires layer.Valid() && |x| == Times(rows, layer.ins) && !mode.Optimized?
    requires base + Times(rows, layer.outs) <= out.Length
    modifies out
    ensures Computed(old(out[..]), out[..], base, layer.outs, WantAll(ops, mode, x, rows, layer))
  {
    hide WantAll, Progress, ColsAt;
    ghost var want := WantAll(ops, mode, x, rows, layer);
    NothingDone(out[..], base, rows, layer.outs, want);
    var row := 0;
    while row < Tiled(rows)
      invariant row <= Tiled(rows) && row % 4 == 0
      invariant Progress(out[..], base, layer.outs, ColsAt(rows, row, 4, 0, layer.outs), want)
      invariant SameOutside(out[..], old(out[..]), base, Times(rows, layer.outs))
    {
      TileBand(ops, mode, x, rows, layer, row, out, base, want);
      row := row + 4;
    }
    BandHeight(rows, Tiled(rows), layer.outs);
    for r := Tiled(rows) to rows
      invariant Progress(out[..], base, layer.outs, ColsAt(rows, r, 1, 0, layer.outs), want)
      invariant SameOutside(out[..], old(out[..]), base, Times(rows, layer.outs))
    {
      TailRow(ops, mode, x, rows, layer, r, out, base, want);
    }
    AllDone(out[..], base, rows, layer.outs, want);
  }

  lemma {:induction false} NothingDone<F>(out: seq<F>, base: nat, rows: nat, outs: nat, want: seq<seq<F>>)
    requires |want| == rows && base + Times(rows, outs) <= |out| && forall r :: 0 <= r < rows ==> |want[r]| == outs
    ensures Progress(out, base, outs, ColsAt(rows, 0, 4, 0, outs), want)
  {
    forall r | 0 <= r < rows ensures RowDone(out, base, outs, r, 0, want[r]) { SlotBound(r, rows, outs); }
  }

  lemma {:induction false} AllDone<F>(out: seq<F>, base: nat, rows: nat, outs: nat, want: seq<seq<F>>)
    requires |want| == rows && Progress(out, base, outs, ColsAt(rows, rows, 1, 0, outs), want)
    ensures Filled(out, base, outs, want)
  {
    forall r | 0 <= r < rows ensures RowDone(out, base, outs, r, outs, want[r]) {
      assert ColsAt(rows, rows, 1, 0, outs)[r] == outs;
    }
  }

  // ----- the column-outer body

  /** After k inputs, cell o of the row holds the fold of the first k products from the bias. */
  ghost predicate Partial<F>(ops: Ops<F>, out: seq<F>, at: nat, x: seq<F>, layer: Layer<F>, k: nat, o: nat)
    requires layer.Valid() && |x| == layer.ins && k <= layer.ins && o < layer.outs && at + layer.outs <= |out|
  {
    out[at + o] == DotFrom(ops, BiasAt(ops, layer.bias, o), x, layer.Weights(o), k)
  }

  ghost predicate PartialRun<F>(ops: Ops<F>, out: seq<F>, at: nat, x: seq<F>, layer: Layer<F>, k: nat, lo: nat, hi: nat)
    requires layer.Valid() && |x| == layer.ins && k <= layer.ins && hi <= layer.outs && at + layer.outs <= |out|
  {
    forall o :: lo <= o < hi ==> Partial(ops, out, at, x, layer, k, o)
  }

  lemma {:induction false} PartialStep<F>(ops: Ops<F>, a: seq<F>, b: seq<F>, at: nat, x: seq<F>, layer: Layer<F>,
                                          k: nat, o: nat)
    requires layer.Valid() && |x| == layer.ins && k < layer.ins && o < layer.outs && at + layer.outs <= |a|
    requires PartialRun(ops, a, at, x, layer, k + 1, 0, o) && PartialRun(ops, a, at, x, layer, k, o, layer.outs)
    requires b == a[at + o := ops.add(a[at + o], ops.mul(x[k], layer.Weights(o)[k]))]
    ensures PartialRun(ops, b, at, x, layer, k + 1, 0, o + 1) && PartialRun(ops, b, at, x, layer, k, o + 1, layer.outs)
  {
    hide Layer.Weights;
    var next := k + 1;
    forall p | 0 <= p < o + 1 ensures Partial(ops, b, at, x, layer, next, p) {
      assert if p < o then Partial(ops, a, at, x, layer, next, p) else Partial(ops, a, at, x, layer, k, p);
    }
    forall p | o + 1 <= p < layer.outs ensures Partial(ops, b, at, x, layer, k, p) {
      assert Partial(ops, a, at, x, layer, k, p);
    }
  }

  /** One input column into every output of the row: `out_row[o] += x_value * w[o, k]`. */
  method ColumnOuter<F>(ops: Ops<F>, x: seq<F>, layer: Layer<F>, k: nat, out: array<F>, at: nat)
    requires layer.Valid() && |x| == layer.ins && k < layer.ins && at + layer.outs <= out.Length
    requires PartialRun(ops, out[..], at, x, layer, k, 0, layer.outs)
    modifies out
    ensures PartialRun(ops, out[..], at, x, layer, k + 1, 0, layer.outs)
    ensures SameOutside(out[..], old(out[..]), at, layer.outs)
  {
    hide PartialRun, Layer.Weights;
    PartialEmpty(ops, out[..], at, x, layer, k + 1, 0);
    for o := 0 to layer.outs
      invariant PartialRun(ops, out[..], at, x, layer, k + 1, 0, o)
          && PartialRun(ops, out[..], at, x, layer, k, o, layer.outs)
      invariant SameOutside(out[..], old(out[..]), at, layer.outs)
    {
      ghost var before := out[..];
      out[at + o] := ops.add(out[at + o], ops.mul(x[k], layer.Weights(o)[k]));
      assert out[..] == before[at + o := ops.add(before[at + o], ops.mul(x[k], layer.Weights(o)[k]))];
      PartialStep(ops, before, out[..], at, x, layer, k, o);
    }
  }

  lemma {:induction false} PartialEmpty<F>(ops: Ops<F>, out: seq<F>, at: nat, x: seq<F>, layer: Layer<F>, k: nat,
                                           o: nat)
    requires layer.Valid() && |x| == layer.ins && k <= layer.ins && o <= layer.outs && at + layer.outs <= |out|
    ensures PartialRun(ops, out, at, x, layer, k, o, o)
  {}

  method OptimizedRow<F>(ops: Ops<F>, x: seq<F>, layer: Layer<F>, out: array<F>, at: nat)
    requires layer.Valid() && |x| == layer.ins && at + layer.outs <= out.Length
    modifies out
    ensures forall o :: at <= o < at + layer.outs ==> out[o] == ScalarCell(ops, x, layer, o - at)
    ensures SameOutside(out[..], old(out[..]), at, layer.outs)
  {
    for o := 0 to layer.outs
      invariant forall p :: at <= p < at + o ==> out[p] == BiasAt(ops, layer.bias, p - at)
      invariant SameOutside(out[..], old(out[..]), at, layer.outs)
    {
      out[at + o] := BiasAt(ops, layer.bias, o);
    }
    for k := 0 to layer.ins
      invariant PartialRun(ops, out[..], at, x, layer, k, 0, layer.outs)
      invariant SameOutside(out[..], old(out[..]), at, layer.outs)
    {
      ColumnOuter(ops, x, layer, k, out, at);
    }
    forall o | at <= o < at + layer.outs ensures out[o] == ScalarCell(ops, x, layer, o - at) {
      assert Partial(ops, out[..], at, x, layer, layer.ins, o - at);
    }
  }

  /** linear_out_by_in_optimized_compute. */
  method OptimizedNest<F>(ops: Ops<F>, x: seq<F>, rows: nat, layer: Layer<F>, out: array<F>, base: nat)
    requires layer.Valid() && |x| == Times(rows, layer.ins) && base + Times(rows, layer.outs) <= out.Length
    modifies out
    ensures Computed(old(out[..]), out[..], base, layer.outs, WantAll(ops, Optimized, x, rows, layer))
  {
    hide WantRow, ScalarCell;
    ghost var want := WantAll(ops, Optimized, x, rows, layer);
    for r := 0 to rows
      invariant forall i :: 0 <= i < r ==> RowDone(out[..], base, layer.outs, i, layer.outs, want[i])
      invariant SameOutside(out[..], old(out[..]), base, Times(rows, layer.outs))
    {
      SlotBound(r, rows, layer.outs);
      ghost var before := out[..];
      OptimizedRow(ops, Input(x, rows, layer.ins, r), layer, out, base + Times(r, layer.outs));
      assert forall o :: 0 <= o < layer.outs ==> out[base + Times(r, layer.outs) + o] == want[r][o];
      forall i | 0 <= i <= r ensures RowDone(out[..], base, layer.outs, i, layer.outs, want[i]) {
        if i < r { RowKept(before, out[..], base, layer.outs, i, layer.outs, want[i], r, 0, layer.outs); }
      }
    }
  }

  method Compute<F>(ops: Ops<F>, mode: Mode, x: seq<F>, rows: nat, layer: Layer<F>, out: array<F>, base: nat)
    requires layer.Valid() && |x| == Times(rows, layer.ins) && base + Times(rows, layer.outs) <= out.Length
    modifies out
    ensures Computed(old(out[..]), out[..], base, layer.outs, WantAll(ops, mode, x, rows, layer))
  {
    hide WantAll;
    if mode.Optimized? { OptimizedNest(ops, x, rows, layer, out, base); }
    else { TiledNest(ops, mode, x, rows, layer, out, base); }
  }
}
