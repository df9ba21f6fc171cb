/** `out[r, o] = bias[o] + x[r] . w[o]`, as the scalar and the AVX2 kernels each compute one cell. */
module LinearSpec {
  import opened Index
  import opened Arithmetic
  import opened Layout

  /** Row r of a `[rows, width]` matrix. */
  function RowAt<F>(x: seq<F>, r: nat, width: nat): (s: seq<F>)
    requires Times(r, width) + width <= |x|
    ensures |s| == width
  {
    x[Times(r, width)..Times(r, width) + width]
  }

  function BiasAt<F>(ops: Ops<F>, bias: seq<F>, o: nat): F {
    if o < |bias| then bias[o] else ops.zero
  }

  /** The weights `[outs, ins]`, and a bias of `outs` values or none at all. */
  datatype Layer<F> = Layer(w: seq<F>, bias: seq<F>, ins: nat, outs: nat) {
    ghost predicate Valid() {
      |w| == Times(outs, ins) && (|bias| == 0 || |bias| == outs)
    }

    function Weights(o: nat): (s: seq<F>)
      requires Valid() && o < outs
      ensures |s| == ins
    {
      SlotBound(o, outs, ins);
      RowAt(w, o, ins)
    }
  }

  function Input<F>(x: seq<F>, rows: nat, ins: nat, r: nat): (s: seq<F>)
    requires |x| == Times(rows, ins) && r < rows
    ensures |s| == ins
  {
    SlotBound(r, rows, ins);
    RowAt(x, r, ins)
  }

  /** The scalar cell: a left fold in input order, from the bias. */
  function ScalarCell<F>(ops: Ops<F>, x: seq<F>, layer: Layer<F>, o: nat): F
    requires layer.Valid() && o < layer.outs && |x| == layer.ins
  {
    Dot(ops, BiasAt(ops, layer.bias, o), x, layer.Weights(o))
  }

  /** Eight running lanes after k inputs, k a multiple of eight. */
  function Lanes<F>(ops: Ops<F>, x: seq<F>, w: seq<F>, k: nat): (v: seq<F>)
    requires k <= |x| && k <= |w|
    ensures |v| == 8
  {
    if k < 8 then [ops.zero, ops.zero, ops.zero, ops.zero, ops.zero, ops.zero, ops.zero, ops.zero]
    else FmaAt(ops, x, w, k - 8, Lanes(ops, x, w, k - 8))
  }

  /** `_mm256_fmadd_ps` of eight inputs and eight weights from position k. */
  function FmaAt<F>(ops: Ops<F>, x: seq<F>, w: seq<F>, k: nat, v: seq<F>): (r: seq<F>)
    requires k + 8 <= |x| && k + 8 <= |w| && |v| == 8
    ensures |r| == 8
  {
    [ops.fma(x[k], w[k], v[0]), ops.fma(x[k + 1], w[k + 1], v[1]),
     ops.fma(x[k + 2], w[k + 2], v[2]), ops.fma(x[k + 3], w[k + 3], v[3]),
     ops.fma(x[k + 4], w[k + 4], v[4]), ops.fma(x[k + 5], w[k + 5], v[5]),
     ops.fma(x[k + 6], w[k + 6], v[6]), ops.fma(x[k + 7], w[k + 7], v[7])]
  }

  /** hsum_ps_avx: high half onto low half, then odd onto even, then pair onto pair. */
  function HSum<F>(ops: Ops<F>, v: seq<F>): F
    requires |v| == 8
  {
    var s0, s1 := ops.add(v[4], v[0]), ops.add(v[5], v[1]);
    var s2, s3 := ops.add(v[6], v[2]), ops.add(v[7], v[3]);
    ops.add(ops.add(s0, s1), ops.add(s2, s3))
  }

  function Simd(n: nat): (k: nat)
    ensures k <= n && k % 8 == 0 && n - k < 8
  {
    n - n % 8
  }

  /** dot_f32_avx2: lanes over the multiple of eight, then a scalar tail. */
  function AvxDot<F>(ops: Ops<F>, x: seq<F>, w: seq<F>): F
    requires |x| == |w|
  {
    var k := Simd(|x|);
    Dot(ops, HSum(ops, Lanes(ops, x, w, k)), x[k..], w[k..])
  }

  function AvxCell<F>(ops: Ops<F>, x: seq<F>, layer: Layer<F>, o: nat): F
    requires layer.Valid() && o < layer.outs && |x| == layer.ins
  {
    ops.add(AvxDot(ops, x, layer.Weights(o)), BiasAt(ops, layer.bias, o))
  }

  function Tiled(n: nat): (t: nat)
    ensures t <= n && t % 4 == 0 && n - t < 4
  {
    n - n % 4
  }

  /** What a kernel in each mode must write at (r, o) of `rows` rows. In AVX2 mode an output column past
      the last whole tile is a scalar cell inside a 4-row tile and a vector cell in the row tail. */
  function Want<F>(ops: Ops<F>, mode: Mode, x: seq<F>, rows: nat, layer: Layer<F>, r: nat, o: nat): F
    requires layer.Valid() && |x| == Times(rows, layer.ins) && r < rows && o < layer.outs
  {
    var row := Input(x, rows, layer.ins, r);
    if mode.Avx2? && (o < Tiled(layer.outs) || Tiled(rows) <= r) then AvxCell(ops, row, layer, o)
    else ScalarCell(ops, row, layer, o)
  }

  function WantRow<F>(ops: Ops<F>, mode: Mode, x: seq<F>, rows: nat, layer: Layer<F>, r: nat): (s: seq<F>)
    requires layer.Valid() && |x| == Times(rows, layer.ins) && r < rows
    ensures |s| == layer.outs && forall o :: 0 <= o < layer.outs ==> s[o] == Want(ops, mode, x, rows, layer, r, o)
  {
    seq(layer.outs, o requires 0 <= o < layer.outs => Want(ops, mode, x, rows, layer, r, o))
  }

  /** The first `col` cells of row r of the chunk at `base` are the wanted ones. */
  ghost predicate RowDone<F>(out: seq<F>, base: nat, outs: nat, r: nat, col: nat, want: seq<F>) {
    && col <= outs == |want| && base + Times(r, outs) + outs <= |out|
    && forall o :: 0 <= o < col ==> out[base + Times(r, outs) + o] == want[o]
  }

  /** cols[r] is how many cells of row r have been written. */
  ghost predicate Progress<F>(out: seq<F>, base: nat, outs: nat, cols: seq<nat>, want: seq<seq<F>>) {
    |cols| == |want| && forall r :: 0 <= r < |cols| ==> RowDone(out, base, outs, r, cols[r], want[r])
  }

  lemma {:induction false} RowKept<F>(a: seq<F>, b: seq<F>, base: nat, outs: nat, r: nat, col: nat, want: seq<F>,
                                      r': nat, at: nat, len: nat)
    requires r != r' && RowDone(a, base, outs, r, col, want) && SameOutside(b, a, base + Times(r', outs) + at, len)
    requires at + len <= outs
    ensures RowDone(b, base, outs, r, col, want)
  {
    SlotsApart(r, r', outs);
  }

  /** Writing the next `len` cells of row r advances that row and no other. */
  lemma {:induction false} Advance<F>(a: seq<F>, b: seq<F>, base: nat, outs: nat, cols: seq<nat>, want: seq<seq<F>>,
                                      r: nat, len: nat)
    requires Progress(a, base, outs, cols, want) && r < |cols| && cols[r] + len <= outs
    requires SameOutside(b, a, base + Times(r, outs) + cols[r], len)
    requires base + Times(r, outs) + outs <= |a|
    requires forall o :: cols[r] <= o < cols[r] + len ==> b[base + Times(r, outs) + o] == want[r][o]
    ensures Progress(b, base, outs, cols[r := cols[r] + len], want)
  {
    var cols' := cols[r := cols[r] + len];
    forall i | 0 <= i < |cols'| ensures RowDone(b, base, outs, i, cols'[i], want[i]) {
      assert RowDone(a, base, outs, i, cols[i], want[i]);
      if i != r { RowKept(a, b, base, outs, i, cols[i], want[i], r, cols[r], len); }
    }
  }
}
