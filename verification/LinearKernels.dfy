/** The CPU bodies of linear_out_by_in: 4x4 tiles, column-outer, and AVX2. Each writes the chunk of
    `out` that starts at `base`. */
module LinearKernels {
  import opened Index
  import opened Arithmetic
  import opened LinearSpec

  /** Sixteen accumulators, four outputs by four rows, fed by one pass over the inputs. */
  method ScalarTile<F>(ops: Ops<F>, layer: Layer<F>, o: nat, x0: seq<F>, x1: seq<F>, x2: seq<F>, x3: seq<F>)
    returns (r0: seq<F>, r1: seq<F>, r2: seq<F>, r3: seq<F>)
    requires layer.Valid() && o + 4 <= layer.outs && |x0| == |x1| == |x2| == |x3| == layer.ins
    ensures IsQuad(ops, r0, x0, layer, o) && IsQuad(ops, r1, x1, layer, o)
    ensures IsQuad(ops, r2, x2, layer, o) && IsQuad(ops, r3, x3, layer, o)
  {
    var b0, b1 := BiasAt(ops, layer.bias, o), BiasAt(ops, layer.bias, o + 1);
    var b2, b3 := BiasAt(ops, layer.bias, o + 2), BiasAt(ops, layer.bias, o + 3);
    var w0, w1, w2, w3 := layer.Weights(o), layer.Weights(o + 1), layer.Weights(o + 2), layer.Weights(o + 3);
    var a00, a10, a20, a30 := b0, b1, b2, b3;
    var a01, a11, a21, a31 := b0, b1, b2, b3;
    var a02, a12, a22, a32 := b0, b1, b2, b3;
    var a03, a13, a23, a33 := b0, b1, b2, b3;
    for k := 0 to layer.ins
      invariant a00 == DotFrom(ops, b0, x0, w0, k) && a10 == DotFrom(ops, b1, x0, w1, k)
      invariant a20 == DotFrom(ops, b2, x0, w2, k) && a30 == DotFrom(ops, b3, x0, w3, k)
      invariant a01 == DotFrom(ops, b0, x1, w0, k) && a11 == DotFrom(ops, b1, x1, w1, k)
      invariant a21 == DotFrom(ops, b2, x1, w2, k) && a31 == DotFrom(ops, b3, x1, w3, k)
      invariant a02 == DotFrom(ops, b0, x2, w0, k) && a12 == DotFrom(ops, b1, x2, w1, k)
      invariant a22 == DotFrom(ops, b2, x2, w2, k) && a32 == DotFrom(ops, b3, x2, w3, k)
      invariant a03 == DotFrom(ops, b0, x3, w0, k) && a13 == DotFrom(ops, b1, x3, w1, k)
      invariant a23 == DotFrom(ops, b2, x3, w2, k) && a33 == DotFrom(ops, b3, x3, w3, k)
    {
      a00, a10 := ops.add(a00, ops.mul(x0[k], w0[k])), ops.add(a10, ops.mul(x0[k], w1[k]));
      a20, a30 := ops.add(a20, ops.mul(x0[k], w2[k])), ops.add(a30, ops.mul(x0[k], w3[k]));
      a01, a11 := ops.add(a01, ops.mul(x1[k], w0[k])), ops.add(a11, ops.mul(x1[k], w1[k]));
      a21, a31 := ops.add(a21, ops.mul(x1[k], w2[k])), ops.add(a31, ops.mul(x1[k], w3[k]));
      a02, a12 := ops.add(a02, ops.mul(x2[k], w0[k])), ops.add(a12, ops.mul(x2[k], w1[k]));
      a22, a32 := ops.add(a22, ops.mul(x2[k], w2[k])), ops.add(a32, ops.mul(x2[k], w3[k]));
      a03, a13 := ops.add(a03, ops.mul(x3[k], w0[k])), ops.add(a13, ops.mul(x3[k], w1[k]));
      a23, a33 := ops.add(a23, ops.mul(x3[k], w2[k])), ops.add(a33, ops.mul(x3[k], w3[k]));
    }
    r0, r1 := [a00, a10, a20, a30], [a01, a11, a21, a31];
    r2, r3 := [a02, a12, a22, a32], [a03, a13, a23, a33];
  }

  ghost predicate IsQuad<F>(ops: Ops<F>, v: seq<F>, x: seq<F>, layer: Layer<F>, o: nat)
    requires layer.Valid() && o + 4 <= layer.outs && |x| == layer.ins
  {
    v == [ScalarCell(ops, x, layer, o), ScalarCell(ops, x, layer, o + 1),
          ScalarCell(ops, x, layer, o + 2), ScalarCell(ops, x, layer, o + 3)]
  }

  ghost predicate IsAvxQuad<F>(ops: Ops<F>, v: seq<F>, x: seq<F>, layer: Layer<F>, o: nat)
    requires layer.Valid() && o + 4 <= layer.outs && |x| == layer.ins
  {
    v == [AvxCell(ops, x, layer, o), AvxCell(ops, x, layer, o + 1),
          AvxCell(ops, x, layer, o + 2), AvxCell(ops, x, layer, o + 3)]
  }

  /** One row's four vector accumulators after k inputs. */
  ghost predicate RowLanes<F>(ops: Ops<F>, layer: Layer<F>, o: nat, x: seq<F>, k: nat, a: seq<F>, b: seq<F>, c: seq<F>,
                              d: seq<F>)
    requires layer.Valid() && o + 4 <= layer.outs && |x| == layer.ins && k <= layer.ins
  {
    && a == Lanes(ops, x, layer.Weights(o), k) && b == Lanes(ops, x, layer.Weights(o + 1), k)
    && c == Lanes(ops, x, layer.Weights(o + 2), k) && d == Lanes(ops, x, layer.Weights(o + 3), k)
  }

  lemma {:induction false} RowLanesStart<F>(ops: Ops<F>, layer: Layer<F>, o: nat, x: seq<F>, z: seq<F>)
    requires layer.Valid() && o + 4 <= layer.outs && |x| == layer.ins
    requires z == [ops.zero, ops.zero, ops.zero, ops.zero, ops.zero, ops.zero, ops.zero, ops.zero]
    ensures RowLanes(ops, layer, o, x, 0, z, z, z, z)
  {}

  lemma {:induction false} RowLanesNext<F>(ops: Ops<F>, layer: Layer<F>, o: nat, x: seq<F>, k: nat, a: seq<F>,
                                           b: seq<F>, c: seq<F>, d: seq<F>)
    requires layer.Valid() && o + 4 <= layer.outs && |x| == layer.ins && k + 8 <= layer.ins
    requires RowLanes(ops, layer, o, x, k, a, b, c, d)
    ensures |a| == |b| == |c| == |d| == 8
    ensures RowLanes(ops, layer, o, x, k + 8,
                     FmaAt(ops, x, layer.Weights(o), k, a), FmaAt(ops, x, layer.Weights(o + 1), k, b),
                     FmaAt(ops, x, layer.Weights(o + 2), k, c), FmaAt(ops, x, layer.Weights(o + 3), k, d))
  {
    hide FmaAt;
  }

  /** The K loops of the AVX2 tile: sixteen vector accumulators, then sixteen scalar tails. */
  method AvxTile<F>(ops: Ops<F>, layer: Layer<F>, o: nat, x0: seq<F>, x1: seq<F>, x2: seq<F>, x3: seq<F>)
    returns (r0: seq<F>, r1: seq<F>, r2: seq<F>, r3: seq<F>)
    requires layer.Valid() && o + 4 <= layer.outs && |x0| == |x1| == |x2| == |x3| == layer.ins
    ensures IsAvxQuad(ops, r0, x0, layer, o) && IsAvxQuad(ops, r1, x1, layer, o)
    ensures IsAvxQuad(ops, r2, x2, layer, o) && IsAvxQuad(ops, r3, x3, layer, o)
  {
    hide FmaAt, RowLanes, IsAvxQuad, Lanes;
    var w0, w1, w2, w3 := layer.Weights(o), layer.Weights(o + 1), layer.Weights(o + 2), layer.Weights(o + 3);
    var z := [ops.zero, ops.zero, ops.zero, ops.zero, ops.zero, ops.zero, ops.zero, ops.zero];
    var v00, v01, v02, v03, v10, v11, v12, v13 := z, z, z, z, z, z, z, z;
    var v20, v21, v22, v23, v30, v31, v32, v33 := z, z, z, z, z, z, z, z;
    RowLanesStart(ops, layer, o, x0, z);
    RowLanesStart(ops, layer, o, x1, z);
    RowLanesStart(ops, layer, o, x2, z);
    RowLanesStart(ops, layer, o, x3, z);
    var ks := Simd(layer.ins);
    var k := 0;
    while k < ks
      invariant k % 8 == 0 && k <= ks
      invariant RowLanes(ops, layer, o, x0, k, v00, v01, v02, v03) && RowLanes(ops, layer, o, x1, k, v10, v11, v12, v13)
      invariant RowLanes(ops, layer, o, x2, k, v20, v21, v22, v23) && RowLanes(ops, layer, o, x3, k, v30, v31, v32, v33)
    {
      RowLanesNext(ops, layer, o, x0, k, v00, v01, v02, v03);
      RowLanesNext(ops, layer, o, x1, k, v10, v11, v12, v13);
      RowLanesNext(ops, layer, o, x2, k, v20, v21, v22, v23);
      RowLanesNext(ops, layer, o, x3, k, v30, v31, v32, v33);
      v00, v01 := FmaAt(ops, x0, w0, k, v00), FmaAt(ops, x0, w1, k, v01);
      v02, v03 := FmaAt(ops, x0, w2, k, v02), FmaAt(ops, x0, w3, k, v03);
      v10, v11 := FmaAt(ops, x1, w0, k, v10), FmaAt(ops, x1, w1, k, v11);
      v12, v13 := FmaAt(ops, x1, w2, k, v12), FmaAt(ops, x1, w3, k, v13);
      v20, v21 := FmaAt(ops, x2, w0, k, v20), FmaAt(ops, x2, w1, k, v21);
      v22, v23 := FmaAt(ops, x2, w2, k, v22), FmaAt(ops, x2, w3, k, v23);
      v30, v31 := FmaAt(ops, x3, w0, k, v30), FmaAt(ops, x3, w1, k, v31);
      v32, v33 := FmaAt(ops, x3, w2, k, v32), FmaAt(ops, x3, w3, k, v33);
      k := k + 8;
    }
    r0 := AvxTails(ops, layer, o, x0, v00, v01, v02, v03);
    r1 := AvxTails(ops, layer, o, x1, v10, v11, v12, v13);
    r2 := AvxTails(ops, layer, o, x2, v20, v21, v22, v23);
    r3 := AvxTails(ops, layer, o, x3, v30, v31, v32, v33);
  }

  /** Horizontal sums, the scalar K tail, and the bias added last, for one row's four outputs. */
  method AvxTails<F>(ops: Ops<F>, layer: Layer<F>, o: nat, x: seq<F>, v0: seq<F>, v1: seq<F>, v2: seq<F>, v3: seq<F>)
    returns (r: seq<F>)
    requires layer.Valid() && o + 4 <= layer.outs && |x| == layer.ins
    requires RowLanes(ops, layer, o, x, Simd(layer.ins), v0, v1, v2, v3)
    ensures IsAvxQuad(ops, r, x, layer, o)
  {
    hide HSum, Lanes, Dot;
    var ks := Simd(layer.ins);
    var s0, s1, s2, s3 := ScalarTails(ops, x, layer.Weights(o), layer.Weights(o + 1), layer.Weights(o + 2),
        layer.Weights(o + 3),
                                      ks, HSum(ops, v0), HSum(ops, v1), HSum(ops, v2), HSum(ops, v3));
    r := [ops.add(s0, BiasAt(ops, layer.bias, o)), ops.add(s1, BiasAt(ops, layer.bias, o + 1)),
          ops.add(s2, BiasAt(ops, layer.bias, o + 2)), ops.add(s3, BiasAt(ops, layer.bias, o + 3))];
  }

  method ScalarTails<F>(ops: Ops<F>, x: seq<F>, w0: seq<F>, w1: seq<F>, w2: seq<F>, w3: seq<F>, ks: nat,
                        h0: F, h1: F, h2: F, h3: F)
    returns (s0: F, s1: F, s2: F, s3: F)
    requires ks <= |x| == |w0| == |w1| == |w2| == |w3|
    ensures s0 == Dot(ops, h0, x[ks..], w0[ks..]) && s1 == Dot(ops, h1, x[ks..], w1[ks..])
    ensures s2 == Dot(ops, h2, x[ks..], w2[ks..]) && s3 == Dot(ops, h3, x[ks..], w3[ks..])
  {
    s0, s1, s2, s3 := h0, h1, h2, h3;
    for k := ks to |x|
      invariant s0 == DotFrom(ops, h0, x[ks..], w0[ks..], k - ks) && s1 == DotFrom(ops, h1, x[ks..], w1[ks..], k - ks)
      invariant s2 == DotFrom(ops, h2, x[ks..], w2[ks..], k - ks) && s3 == DotFrom(ops, h3, x[ks..], w3[ks..], k - ks)
    {
      s0, s1 := ops.add(s0, ops.mul(x[k], w0[k])), ops.add(s1, ops.mul(x[k], w1[k]));
      s2, s3 := ops.add(s2, ops.mul(x[k], w2[k])), ops.add(s3, ops.mul(x[k], w3[k]));
    }
  }

  /** One scalar accumulation, as the tails run it. */
  method ScalarDot<F>(ops: Ops<F>, layer: Layer<F>, o: nat, x: seq<F>) returns (acc: F)
    requires layer.Valid() && o < layer.outs && |x| == layer.ins
    ensures acc == ScalarCell(ops, x, layer, o)
  {
    acc := BiasAt(ops, layer.bias, o);
    var w := layer.Weights(o);
    for k := 0 to layer.ins
      invariant acc == DotFrom(ops, BiasAt(ops, layer.bias, o), x, w, k)
    {
      acc := ops.add(acc, ops.mul(x[k], w[k]));
    }
  }

  /** dot_f32_avx2 of two windows. */
  method DotAvx2<F>(ops: Ops<F>, a: seq<F>, b: seq<F>) returns (sum: F)
    requires |a| == |b|
    ensures sum == AvxDot(ops, a, b)
  {
    hide FmaAt, HSum;
    var simd := Simd(|a|);
    var acc := [ops.zero, ops.zero, ops.zero, ops.zero, ops.zero, ops.zero, ops.zero, ops.zero];
    var k := 0;
    while k < simd
      invariant k % 8 == 0 && k <= simd && acc == Lanes(ops, a, b, k)
    {
      acc := FmaAt(ops, a, b, k, acc);
      k := k + 8;
    }
    sum := HSum(ops, acc);
    ghost var h := sum;
    for i := simd to |a|
      invariant sum == DotFrom(ops, h, a[simd..], b[simd..], i - simd)
    {
      sum := ops.add(sum, ops.mul(a[i], b[i]));
    }
  }

  /** One vector accumulation with its scalar tail (dot_f32_avx2), the bias added last. */
  method VectorDot<F>(ops: Ops<F>, layer: Layer<F>, o: nat, x: seq<F>) returns (r: F)
    requires layer.Valid() && o < layer.outs && |x| == layer.ins
    ensures r == AvxCell(ops, x, layer, o)
  {
    hide AvxDot;
    var sum := DotAvx2(ops, x, layer.Weights(o));
    r := ops.add(sum, BiasAt(ops, layer.bias, o));
  }

  // ----- stores and loop nests

  /** Four adjacent output cells of row r. */
  method StoreQuad<F>(out: array<F>, base: nat, outs: nat, r: nat, o: nat, v: seq<F>, ghost cols: seq<nat>,
                      ghost want: seq<seq<F>>)
    requires |v| == 4 && r < |cols| == |want| && cols[r] == o && o + 4 <= outs
        && base + Times(|cols|, outs) <= out.Length
    requires Progress(out[..], base, outs, cols, want) && |want[r]| == outs && v == want[r][o..o + 4]
    modifies out
    ensures Progress(out[..], base, outs, cols[r := o + 4], want)
    ensures forall i :: 0 <= i < out.Length && !(base <= i < base + Times(|cols|, outs)) ==> out[i] == old(out[i])
  {
    SlotBound(r, |cols|, outs);
    var at := base + Times(r, outs) + o;
    out[at] := v[0];
    out[at + 1] := v[1];
    out[at + 2] := v[2];
    out[at + 3] := v[3];
    assert v[0] == want[r][o] && v[1] == want[r][o + 1] && v[2] == want[r][o + 2] && v[3] == want[r][o + 3];
    Advance(old(out[..]), out[..], base, outs, cols, want, r, 4);
  }

  method StoreOne<F>(out: array<F>, base: nat, outs: nat, r: nat, o: nat, v: F, ghost cols: seq<nat>,
                     ghost want: seq<seq<F>>)
    requires r < |cols| == |want| && cols[r] == o < outs && base + Times(|cols|, outs) <= out.Length
    requires Progress(out[..], base, outs, cols, want) && |want[r]| == outs && v == want[r][o]
    modifies out
    ensures Progress(out[..], base, outs, cols[r := o + 1], want)
    ensures forall i :: 0 <= i < out.Length && !(base <= i < base + Times(|cols|, outs)) ==> out[i] == old(out[i])
  {
    SlotBound(r, |cols|, outs);
    out[base + Times(r, outs) + o] := v;
    Advance(old(out[..]), out[..], base, outs, cols, want, r, 1);
  }

  /** One row's four outputs, four running sums. */
  method ScalarQuad<F>(ops: Ops<F>, layer: Layer<F>, o: nat, x: seq<F>) returns (r: seq<F>)
    requires layer.Valid() && o + 4 <= layer.outs && |x| == layer.ins
    ensures IsQuad(ops, r, x, layer, o)
  {
    var b0, b1 := BiasAt(ops, layer.bias, o), BiasAt(ops, layer.bias, o + 1);
    var b2, b3 := BiasAt(ops, layer.bias, o + 2), BiasAt(ops, layer.bias, o + 3);
    var w0, w1, w2, w3 := layer.Weights(o), layer.Weights(o + 1), layer.Weights(o + 2), layer.Weights(o + 3);
    var a0, a1, a2, a3 := b0, b1, b2, b3;
    for k := 0 to layer.ins
      invariant a0 == DotFrom(ops, b0, x, w0, k) && a1 == DotFrom(ops, b1, x, w1, k)
      invariant a2 == DotFrom(ops, b2, x, w2, k) && a3 == DotFrom(ops, b3, x, w3, k)
    {
      a0, a1 := ops.add(a0, ops.mul(x[k], w0[k])), ops.add(a1, ops.mul(x[k], w1[k]));
      a2, a3 := ops.add(a2, ops.mul(x[k], w2[k])), ops.add(a3, ops.mul(x[k], w3[k]));
    }
    r := [a0, a1, a2, a3];
  }

  /** One row's four outputs, four vector accumulators. */
  method AvxQuad<F>(ops: Ops<F>, layer: Layer<F>, o: nat, x: seq<F>) returns (r: seq<F>)
    requires layer.Valid() && o + 4 <= layer.outs && |x| == layer.ins
    ensures IsAvxQuad(ops, r, x, layer, o)
  {
    hide FmaAt, RowLanes, IsAvxQuad, Lanes;
    var z := [ops.zero, ops.zero, ops.zero, ops.zero, ops.zero, ops.zero, ops.zero, ops.zero];
    var v0, v1, v2, v3 := z, z, z, z;
    RowLanesStart(ops, layer, o, x, z);
    var ks := Simd(layer.ins);
    var k := 0;
    while k < ks
      invariant k % 8 == 0 && k <= ks && RowLanes(ops, layer, o, x, k, v0, v1, v2, v3)
    {
      RowLanesNext(ops, layer, o, x, k, v0, v1, v2, v3);
      v0, v1 := FmaAt(ops, x, layer.Weights(o), k, v0), FmaAt(ops, x, layer.Weights(o + 1), k, v1);
      v2, v3 := FmaAt(ops, x, layer.Weights(o + 2), k, v2), FmaAt(ops, x, layer.Weights(o + 3), k, v3);
      k := k + 8;
    }
    r := AvxTails(ops, layer, o, x, v0, v1, v2, v3);
  }

  /** One output column past the last tile, four rows at once. */
  method ScalarColumn<F>(ops: Ops<F>, layer: Layer<F>, o: nat, x0: seq<F>, x1: seq<F>, x2: seq<F>, x3: seq<F>)
    returns (s0: F, s1: F, s2: F, s3: F)
    requires layer.Valid() && o < layer.outs && |x0| == |x1| == |x2| == |x3| == layer.ins
    ensures s0 == ScalarCell(ops, x0, layer, o) && s1 == ScalarCell(ops, x1, layer, o)
    ensures s2 == ScalarCell(ops, x2, layer, o) && s3 == ScalarCell(ops, x3, layer, o)
  {
    var b, w := BiasAt(ops, layer.bias, o), layer.Weights(o);
    s0, s1, s2, s3 := b, b, b, b;
    for k := 0 to layer.ins
      invariant s0 == DotFrom(ops, b, x0, w, k) && s1 == DotFrom(ops, b, x1, w, k)
      invariant s2 == DotFrom(ops, b, x2, w, k) && s3 == DotFrom(ops, b, x3, w, k)
    {
      s0, s1 := ops.add(s0, ops.mul(x0[k], w[k])), ops.add(s1, ops.mul(x1[k], w[k]));
      s2, s3 := ops.add(s2, ops.mul(x2[k], w[k])), ops.add(s3, ops.mul(x3[k], w[k]));
    }
  }

  /** Rows below `row` are complete, the `height` rows from `row` have `col` cells, the rest none. */
  ghost function ColsAt(rows: nat, row: nat, height: nat, col: nat, outs: nat): (c: seq<nat>)
    ensures |c| == rows
  {
    seq(rows, r requires 0 <= r < rows => if r < row then outs else if r < row + height then col else 0)
  }

  ghost function WantAll<F>(ops: Ops<F>, mode: Mode, x: seq<F>, rows: nat, layer: Layer<F>): (m: seq<seq<F>>)
    requires layer.Valid() && |x| == Times(rows, layer.ins)
    ensures |m| == rows && forall r :: 0 <= r < rows ==> m[r] == WantRow(ops, mode, x, rows, layer, r)
  {
    seq(rows, r requires 0 <= r < rows => WantRow(ops, mode, x, rows, layer, r))
  }

  /** The quad a kernel computes is the wanted run of four. */
  lemma {:induction false} QuadWanted<F>(ops: Ops<F>, mode: Mode, x: seq<F>, rows: nat, layer: Layer<F>, r: nat, o: nat,
                                         v: seq<F>)
    requires layer.Valid() && |x| == Times(rows, layer.ins) && r < rows && o + 4 <= Tiled(layer.outs)
        && !mode.Optimized?
    requires mode.Scalar? ==> IsQuad(ops, v, Input(x, rows, layer.ins, r), layer, o)
    requires mode.Avx2? ==> IsAvxQuad(ops, v, Input(x, rows, layer.ins, r), layer, o)
    ensures v == WantRow(ops, mode, x, rows, layer, r)[o..o + 4]
  {
    hide AvxCell, ScalarCell;
    var w := WantRow(ops, mode, x, rows, layer, r);
    assert v[0] == w[o] && v[1] == w[o + 1] && v[2] == w[o + 2] && v[3] == w[o + 3];
  }
}
