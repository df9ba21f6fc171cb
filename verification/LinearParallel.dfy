/** The thread pool around linear_out_by_in: no pool, thread count or order of tasks changes a bit. */
module LinearParallel {
  import opened Index
  import opened Arithmetic
  import opened Layout
  import opened LinearSpec
  import opened LinearKernels
  import opened LinearNest

  const PARALLEL_LINEAR_MIN_ROWS: nat := 32
  const PARALLEL_LINEAR_MIN_OUTPUTS: nat := 1024

  /** `tiles.div_ceil(threads).max(1) * 4`: chunks are whole 4-row (or 4-output) tiles. */
  function PerChunk(total: nat, threads: nat): (n: nat)
    ensures 0 < n && n % 4 == 0
  {
    var t := DivCeil(DivCeil(total, 4), if threads == 0 then 1 else threads);
    (if t == 0 then 1 else t) * 4
  }

  function ChunkRows(rows: nat, per: nat, c: nat): nat
    requires Times(c, per) <= rows
  {
    if Times(c, per) + per <= rows then per else rows - Times(c, per)
  }

  /** Cell (r, o) of the whole output is right. */
  ghost predicate CellIs<F>(ops: Ops<F>, mode: Mode, x: seq<F>, rows: nat, layer: Layer<F>, out: seq<F>, r: nat, o: nat)
    requires layer.Valid() && |x| == Times(rows, layer.ins) && r < rows && o < layer.outs
        && |out| == Times(rows, layer.outs)
  {
    SlotBound(r, rows, layer.outs);
    out[Times(r, layer.outs) + o] == Want(ops, mode, x, rows, layer, r, o)
  }

  ghost predicate RowIs<F>(ops: Ops<F>, mode: Mode, x: seq<F>, rows: nat, layer: Layer<F>, out: seq<F>, r: nat)
    requires layer.Valid() && |x| == Times(rows, layer.ins) && r < rows && |out| == Times(rows, layer.outs)
  {
    forall o :: 0 <= o < layer.outs ==> CellIs(ops, mode, x, rows, layer, out, r, o)
  }

  ghost predicate Complete<F>(ops: Ops<F>, mode: Mode, x: seq<F>, rows: nat, layer: Layer<F>, out: seq<F>)
    requires layer.Valid() && |x| == Times(rows, layer.ins)
  {
    |out| == Times(rows, layer.outs) && forall r :: 0 <= r < rows ==> RowIs(ops, mode, x, rows, layer, out, r)
  }

  lemma {:induction false} SerialComplete<F>(ops: Ops<F>, mode: Mode, x: seq<F>, rows: nat, layer: Layer<F>,
                                             before: seq<F>, out: seq<F>)
    requires layer.Valid() && |x| == Times(rows, layer.ins) && |out| == Times(rows, layer.outs)
    requires Computed(before, out, 0, layer.outs, WantAll(ops, mode, x, rows, layer))
    ensures Complete(ops, mode, x, rows, layer, out)
  {
    hide Want;
    forall r | 0 <= r < rows ensures RowIs(ops, mode, x, rows, layer, out, r) {
      assert RowDone(out, 0, layer.outs, r, layer.outs, WantRow(ops, mode, x, rows, layer, r));
    }
  }

  lemma {:induction false} ChunkInput<F>(x: seq<F>, rows: nat, ins: nat, first: nat, count: nat, r: nat)
    requires |x| == Times(rows, ins) && first + count <= rows && r < count
    ensures Times(first, ins) + Times(count, ins) <= |x|
    ensures Input(x[Times(first, ins)..Times(first, ins) + Times(count, ins)], count, ins, r)
        == Input(x, rows, ins, first + r)
  {
    hide Times;
    TimesAdd(first, count, ins);
    TimesAdd(first, r, ins);
    TimesMonotone(first + count, rows, ins);
    SlotBound(r, count, ins);
    SliceOfSlice(x, Times(first, ins), Times(count, ins), Times(r, ins), ins);
  }

  /** Row r of the chunk is a tile row or a tail row as it is in the whole matrix. In AVX2 mode that class
      decides how the last columns are computed. */
  predicate SameClass(rows: nat, first: nat, count: nat, r: nat) {
    r < Tiled(count) <==> first + r < Tiled(rows)
  }

  /** A chunk that starts on a tile boundary keeps the class of all its rows if and only if it is made of
      whole tiles or leaves no whole tile behind it. */
  lemma {:induction false} ChunkClass(rows: nat, first: nat, count: nat)
    requires first % 4 == 0 && first + count <= rows
    ensures (forall r :: 0 <= r < count ==> SameClass(rows, first, count, r))
       <==> count % 4 == 0 || Tiled(rows) <= first + Tiled(count)
  {
    if count % 4 != 0 && first + Tiled(count) < Tiled(rows) {
      assert !SameClass(rows, first, count, Tiled(count));
    }
  }

  lemma {:induction false} ChunkWant<F>(ops: Ops<F>, mode: Mode, x: seq<F>, rows: nat, layer: Layer<F>, first: nat,
                                        count: nat, r: nat, o: nat)
    requires layer.Valid() && |x| == Times(rows, layer.ins) && r < count && o < layer.outs
    requires first % 4 == 0 && first + count <= rows && (count % 4 == 0 || first + count == rows)
    ensures Times(first, layer.ins) + Times(count, layer.ins) <= |x|
    ensures Want(ops, mode, x[Times(first, layer.ins)..Times(first, layer.ins) + Times(count, layer.ins)], count, layer,
        r, o)
         == Want(ops, mode, x, rows, layer, first + r, o)
  {
    hide AvxCell, ScalarCell, Input;
    ChunkInput(x, rows, layer.ins, first, count, r);
    ChunkClass(rows, first, count);
    assert SameClass(rows, first, count, r);
  }

  /** The rows of a chunk, once its task has run. */
  lemma {:induction false} ChunkRowIs<F>(ops: Ops<F>, mode: Mode, x: seq<F>, rows: nat, layer: Layer<F>, first: nat,
                                         count: nat, chunk: seq<F>, b: seq<F>, r: nat)
    requires layer.Valid() && |x| == Times(rows, layer.ins) && |b| == Times(rows, layer.outs) && r < count
    requires first % 4 == 0 && first + count <= rows && (count % 4 == 0 || first + count == rows)
    requires Times(first, layer.ins) + Times(count, layer.ins) <= |x|
    requires chunk == x[Times(first, layer.ins)..Times(first, layer.ins) + Times(count, layer.ins)]
    requires RowDone(b, Times(first, layer.outs), layer.outs, r, layer.outs, WantRow(ops, mode, chunk, count, layer, r))
    ensures RowIs(ops, mode, x, rows, layer, b, first + r)
  {
    hide Want, Times, Layer.Weights, RowDone;
    TimesAdd(first, r, layer.outs);
    SlotBound(first + r, rows, layer.outs);
    var row := first + r;
    forall o | 0 <= o < layer.outs ensures CellIs(ops, mode, x, rows, layer, b, row, o) {
      ChunkWant(ops, mode, x, rows, layer, first, count, r, o);
      DoneAt(b, Times(first, layer.outs), layer.outs, r, o, WantRow(ops, mode, chunk, count, layer, r));
    }
  }

  lemma {:induction false} DoneAt<F>(out: seq<F>, base: nat, outs: nat, r: nat, o: nat, want: seq<F>)
    requires RowDone(out, base, outs, r, outs, want) && o < outs
    ensures base + Times(r, outs) + o < |out| && out[base + Times(r, outs) + o] == want[o]
  {}

  lemma {:induction false} OtherRowIs<F>(ops: Ops<F>, mode: Mode, x: seq<F>, rows: nat, layer: Layer<F>, first: nat,
                                         count: nat, a: seq<F>, b: seq<F>, r: nat)
    requires layer.Valid() && |x| == Times(rows, layer.ins) && |a| == |b| == Times(rows, layer.outs) && r < rows
    requires first + count <= rows && !(first <= r < first + count)
    requires SameOutside(b, a, Times(first, layer.outs), Times(count, layer.outs))
        && RowIs(ops, mode, x, rows, layer, a, r)
    ensures RowIs(ops, mode, x, rows, layer, b, r)
  {
    hide Want, Times;
    SlotBound(r, rows, layer.outs);
    TimesAdd(first, count, layer.outs);
    if r < first { SlotBound(r, first, layer.outs); } else { TimesMonotone(first + count, r, layer.outs); }
    forall o | 0 <= o < layer.outs ensures CellIs(ops, mode, x, rows, layer, b, r, o) {
      assert CellIs(ops, mode, x, rows, layer, a, r, o);
    }
  }

  /** One task of the row-chunked dispatch: its own rows become right, all others stay as they were. */
  method RunRows<F>(ops: Ops<F>, mode: Mode, x: seq<F>, rows: nat, layer: Layer<F>, out: array<F>, per: nat, c: nat)
    requires layer.Valid() && |x| == Times(rows, layer.ins) && out.Length == Times(rows, layer.outs)
    requires 0 < per && per % 4 == 0 && Times(c, per) <= rows && Times(c, per) % 4 == 0
    modifies out
    ensures forall r :: 0 <= r < rows ==>
      (Times(c, per) <= r < Times(c, per) + per || RowIs(ops, mode, x, rows, layer, old(out[..]), r)) ==>
      RowIs(ops, mode, x, rows, layer, out[..], r)
  {
    hide Want, RowIs, WantRow, SameOutside, RowDone;
    var first := Times(c, per);
    var count := ChunkRows(rows, per, c);
    var base := Times(first, layer.outs);
    TimesAdd(first, count, layer.ins);
    TimesMonotone(first + count, rows, layer.ins);
    TimesAdd(first, count, layer.outs);
    TimesMonotone(first + count, rows, layer.outs);
    var chunk := x[Times(first, layer.ins)..Times(first, layer.ins) + Times(count, layer.ins)];
    Compute(ops, mode, chunk, count, layer, out, base);
    forall r | 0 <= r < rows && (first <= r < first + per || RowIs(ops, mode, x, rows, layer, old(out[..]), r))
      ensures RowIs(ops, mode, x, rows, layer, out[..], r)
    {
      if first <= r < first + count {
        assert WantAll(ops, mode, chunk, count, layer)[r - first] == WantRow(ops, mode, chunk, count, layer, r - first);
        ChunkRowIs(ops, mode, x, rows, layer, first, count, chunk, out[..], r - first);
      } else {
        OtherRowIs(ops, mode, x, rows, layer, first, count, old(out[..]), out[..], r);
      }
    }
  }

  lemma {:induction false} TileMultiple(c: nat, per: nat)
    requires per % 4 == 0
    ensures Times(c, per) % 4 == 0
  {
    if c > 0 { TileMultiple(c - 1, per); }
  }

  /** linear_out_by_in_parallel: the chunks run in any order, each exactly those of `par_chunks_mut`. */
  method RowParallel<F>(ops: Ops<F>, mode: Mode, x: seq<F>, rows: nat, layer: Layer<F>, out: array<F>,
                        threads: nat, order: seq<nat>)
    requires layer.Valid() && |x| == Times(rows, layer.ins) && out.Length == Times(rows, layer.outs) && 0 < layer.outs
    requires forall c :: c in order <==> Times(c, PerChunk(rows, threads)) < rows
    modifies out
    ensures Complete(ops, mode, x, rows, layer, out[..])
  {
    hide RowIs;
    var per := PerChunk(rows, threads);
    for n := 0 to |order|
      invariant forall r :: 0 <= r < rows && Quot(r, per) in order[..n] ==> RowIs(ops, mode, x, rows, layer, out[..], r)
    {
      TileMultiple(order[n], per);
      ghost var before := out[..];
      RunRows(ops, mode, x, rows, layer, out, per, order[n]);
      forall r | 0 <= r < rows && Quot(r, per) in order[..n + 1] ensures RowIs(ops, mode, x, rows, layer, out[..], r) {
        QuotRem(r, per);
      }
    }
    forall r | 0 <= r < rows ensures RowIs(ops, mode, x, rows, layer, out[..], r) {
      QuotRem(r, per);
      assert Quot(r, per) in order && order[..|order|] == order;
    }
  }

  // ----- one row, chunked along the outputs

  /** Outputs first .. first + count of a layer. */
  function SubLayer<F>(layer: Layer<F>, first: nat, count: nat): (sub: Layer<F>)
    requires layer.Valid() && first + count <= layer.outs
    ensures sub.Valid() && sub.ins == layer.ins && sub.outs == count
  {
    TimesAdd(first, count, layer.ins);
    TimesMonotone(first + count, layer.outs, layer.ins);
    Layer(layer.w[Times(first, layer.ins)..Times(first, layer.ins) + Times(count, layer.ins)],
          if |layer.bias| == 0 then [] else layer.bias[first..first + count], layer.ins, count)
  }

  lemma {:induction false} SubWeights<F>(layer: Layer<F>, first: nat, count: nat, o: nat)
    requires layer.Valid() && first + count <= layer.outs && o < count
    ensures SubLayer(layer, first, count).Weights(o) == layer.Weights(first + o)
  {
    ChunkInput(layer.w, layer.outs, layer.ins, first, count, o);
  }

  /** With a single row every column is in the row tail, so cutting the outputs changes no cell. */
  lemma {:induction false} SubWant<F>(ops: Ops<F>, mode: Mode, x: seq<F>, layer: Layer<F>, first: nat, count: nat,
                                      o: nat)
    requires layer.Valid() && |x| == Times(1, layer.ins) && first + count <= layer.outs && o < count
    ensures Want(ops, mode, x, 1, SubLayer(layer, first, count), 0, o) == Want(ops, mode, x, 1, layer, 0, first + o)
  {
    hide AvxDot, Dot, SubLayer, Input;
    SubWeights(layer, first, count, o);
    SubBias(ops, layer, first, count, o);
  }

  lemma {:induction false} SubBias<F>(ops: Ops<F>, layer: Layer<F>, first: nat, count: nat, o: nat)
    requires layer.Valid() && first + count <= layer.outs && o < count
    ensures BiasAt(ops, SubLayer(layer, first, count).bias, o) == BiasAt(ops, layer.bias, first + o)
  {}

  /** One task of the output-chunked dispatch. */
  method RunOutputs<F>(ops: Ops<F>, mode: Mode, x: seq<F>, layer: Layer<F>, out: array<F>, per: nat, c: nat)
    requires layer.Valid() && |x| == Times(1, layer.ins) && out.Length == layer.outs && 0 < per
        && Times(c, per) <= layer.outs
    modifies out
    ensures forall o :: 0 <= o < layer.outs ==>
      out[o] == if Times(c, per) <= o < Times(c, per) + per then Want(ops, mode, x, 1, layer, 0, o) else old(out[o])
  {
    hide Want, SubLayer;
    var first := Times(c, per);
    var count := ChunkRows(layer.outs, per, c);
    var sub := SubLayer(layer, first, count);
    OneRow(layer.ins);
    OneRow(count);
    Compute(ops, mode, x, 1, sub, out, first);
    assert RowDone(out[..], first, count, 0, count, WantRow(ops, mode, x, 1, sub, 0));
    forall o | first <= o < first + count ensures out[o] == Want(ops, mode, x, 1, layer, 0, o) {
      SubWant(ops, mode, x, layer, first, count, o - first);
      assert out[..][first + (o - first)] == WantRow(ops, mode, x, 1, sub, 0)[o - first];
    }
  }

  lemma {:induction false} OneRow(n: nat)
    ensures Times(0, n) == 0 && Times(1, n) == n
  {}

  /** linear_out_by_in_output_parallel. */
  method OutputParallel<F>(ops: Ops<F>, mode: Mode, x: seq<F>, layer: Layer<F>, out: array<F>, threads: nat,
                           order: seq<nat>)
    requires layer.Valid() && |x| == Times(1, layer.ins) && out.Length == Times(1, layer.outs) && 0 < layer.outs
    requires forall c :: c in order <==> Times(c, PerChunk(layer.outs, threads)) < layer.outs
    modifies out
    ensures Complete(ops, mode, x, 1, layer, out[..])
  {
    hide Want, WantRow;
    OneRow(layer.outs);
    var per := PerChunk(layer.outs, threads);
    for n := 0 to |order|
      invariant forall o :: 0 <= o < layer.outs && Quot(o, per) in order[..n] ==>
          out[o] == Want(ops, mode, x, 1, layer, 0, o)
    {
      RunOutputs(ops, mode, x, layer, out, per, order[n]);
      forall o | 0 <= o < layer.outs && Quot(o, per) in order[..n + 1]
          ensures out[o] == Want(ops, mode, x, 1, layer, 0, o) {
        QuotRem(o, per);
      }
    }
    forall o | 0 <= o < layer.outs ensures CellIs(ops, mode, x, 1, layer, out[..], 0, o) {
      QuotRem(o, per);
      assert Quot(o, per) in order && order[..|order|] == order;
    }
    assert RowIs(ops, mode, x, 1, layer, out[..], 0);
  }

  // ----- dispatch

  predicate ByOutputs<F>(pool: Pool, rows: nat, layer: Layer<F>) {
    pool.Pool? && rows == 1 && layer.outs >= PARALLEL_LINEAR_MIN_OUTPUTS
  }

  predicate ByRows<F>(pool: Pool, rows: nat, layer: Layer<F>) {
    pool.Pool? && !ByOutputs(pool, rows, layer) && rows >= PARALLEL_LINEAR_MIN_ROWS
  }

  /** The tasks the pool is given, once each or more, in any order. */
  ghost predicate IsSchedule<F>(pool: Pool, rows: nat, layer: Layer<F>, order: seq<nat>) {
    && (ByOutputs(pool, rows, layer) ==>
          forall c :: c in order <==> Times(c, PerChunk(layer.outs, pool.threads)) < layer.outs)
    && (ByRows(pool, rows, layer) ==> forall c :: c in order <==> Times(c, PerChunk(rows, pool.threads)) < rows)
  }

  /** CpuKernelBackend::linear_out_by_in on validated shapes. Serial or pooled, by rows or by outputs,
      the result is the same bits. One shape is different: with no outputs at all the row-chunked path
      asks for chunks of length zero, which `par_chunks_mut` refuses by panicking, while the serial
      path returns; `ok` is false exactly then. */
  method LinearOutByIn<F>(ops: Ops<F>, mode: Mode, pool: Pool, x: seq<F>, rows: nat, layer: Layer<F>, out: array<F>,
                          order: seq<nat>)
    returns (ok: bool)
    requires layer.Valid() && |x| == Times(rows, layer.ins) && out.Length == Times(rows, layer.outs)
    requires IsSchedule(pool, rows, layer, order)
    modifies out
    ensures ok <==> !(ByRows(pool, rows, layer) && layer.outs == 0)
    ensures ok ==> Complete(ops, mode, x, rows, layer, out[..])
  {
    hide Complete, WantAll, Computed;
    ok := true;
    if ByOutputs(pool, rows, layer) {
      OutputParallel(ops, mode, x, layer, out, pool.threads, order);
    } else if ByRows(pool, rows, layer) {
      if layer.outs == 0 { return false; }
      RowParallel(ops, mode, x, rows, layer, out, pool.threads, order);
    } else {
      Compute(ops, mode, x, rows, layer, out, 0);
      SerialComplete(ops, mode, x, rows, layer, old(out[..]), out[..]);
    }
  }

  /** Two complete outputs are equal: any pool against none, any thread count against any other. */
  lemma {:induction false} CompleteIsUnique<F>(ops: Ops<F>, mode: Mode, x: seq<F>, rows: nat, layer: Layer<F>,
                                               a: seq<F>, b: seq<F>)
    requires layer.Valid() && |x| == Times(rows, layer.ins)
    requires Complete(ops, mode, x, rows, layer, a) && Complete(ops, mode, x, rows, layer, b)
    ensures a == b
  {
    forall i | 0 <= i < |a| ensures a[i] == b[i] {
      QuotBound(i, rows, layer.outs);
      var r, o := Quot(i, layer.outs), Rem(i, layer.outs);
      assert RowIs(ops, mode, x, rows, layer, a, r) && RowIs(ops, mode, x, rows, layer, b, r);
      assert CellIs(ops, mode, x, rows, layer, a, r, o) && CellIs(ops, mode, x, rows, layer, b, r, o);
    }
  }

  /** The tiled and the column-outer scalar bodies agree bit for bit on every shape. */
  lemma {:induction false} ScalarIsOptimized<F>(ops: Ops<F>, x: seq<F>, rows: nat, layer: Layer<F>, a: seq<F>,
                                                b: seq<F>)
    requires layer.Valid() && |x| == Times(rows, layer.ins)
    requires Complete(ops, Scalar, x, rows, layer, a) && Complete(ops, Optimized, x, rows, layer, b)
    ensures a == b
  {
    forall r | 0 <= r < rows ensures RowIs(ops, Scalar, x, rows, layer, b, r) {
      assert RowIs(ops, Optimized, x, rows, layer, b, r);
      forall o | 0 <= o < layer.outs ensures CellIs(ops, Scalar, x, rows, layer, b, r, o) {
        assert CellIs(ops, Optimized, x, rows, layer, b, r, o);
      }
    }
    CompleteIsUnique(ops, Scalar, x, rows, layer, a, b);
  }
}
