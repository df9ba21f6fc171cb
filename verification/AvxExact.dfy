/** Over the reals the eight-lane forms are the plain ones: regrouping a sum and fusing a product
    change rounding only. */
module AvxExact {
  import opened Index
  import opened Arithmetic
  import opened LinearSpec
  import opened LinearParallel

  function Total(v: seq<real>): real
    requires |v| == 8
  {
    v[0] + v[1] + v[2] + v[3] + v[4] + v[5] + v[6] + v[7]
  }

  lemma {:induction false} HSumIsTotal(exp: real -> real, v: seq<real>)
    requires |v| == 8
    ensures HSum(RealOps(exp), v) == Total(v)
  {}

  function Eight(x: seq<real>, w: seq<real>, k: nat): real
    requires k + 8 <= |x| && k + 8 <= |w|
  {
    x[k] * w[k] + x[k + 1] * w[k + 1] + x[k + 2] * w[k + 2] + x[k + 3] * w[k + 3]
    + x[k + 4] * w[k + 4] + x[k + 5] * w[k + 5] + x[k + 6] * w[k + 6] + x[k + 7] * w[k + 7]
  }

  lemma {:induction false} FmaAdds(exp: real -> real, x: seq<real>, w: seq<real>, k: nat, v: seq<real>)
    requires k + 8 <= |x| && k + 8 <= |w| && |v| == 8
    ensures Total(FmaAt(RealOps(exp), x, w, k, v)) == Total(v) + Eight(x, w, k)
  {}

  lemma {:induction false} PlainEight(x: seq<real>, w: seq<real>, k: nat)
    requires k + 8 <= |x| && k + 8 <= |w|
    ensures Plain(x, w, k + 8) == Plain(x, w, k) + Eight(x, w, k)
  {
    PlainTwo(x, w, k);
    PlainTwo(x, w, k + 2);
    PlainTwo(x, w, k + 4);
    PlainTwo(x, w, k + 6);
  }

  lemma {:induction false} PlainTwo(x: seq<real>, w: seq<real>, k: nat)
    requires k + 2 <= |x| && k + 2 <= |w|
    ensures Plain(x, w, k + 2) == Plain(x, w, k) + x[k] * w[k] + x[k + 1] * w[k + 1]
  {}

  /** The lanes partition the products by position modulo eight, and together hold all of them. */
  lemma {:induction false} LanesHoldAll(exp: real -> real, x: seq<real>, w: seq<real>, k: nat)
    requires k <= |x| && k <= |w| && k % 8 == 0
    ensures Total(Lanes(RealOps(exp), x, w, k)) == Plain(x, w, k)
  {
    hide FmaAt, Plain;
    if k == 0 {
      NoProducts(x, w);
    } else {
      LanesHoldAll(exp, x, w, k - 8);
      FmaAdds(exp, x, w, k - 8, Lanes(RealOps(exp), x, w, k - 8));
      PlainEight(x, w, k - 8);
    }
  }

  lemma {:induction false} NoProducts(x: seq<real>, w: seq<real>)
    ensures Plain(x, w, 0) == 0.0
  {}

  lemma {:induction false} PlainTail(x: seq<real>, w: seq<real>, k: nat, n: nat)
    requires k + n <= |x| == |w|
    ensures Plain(x, w, k + n) == Plain(x, w, k) + Plain(x[k..], w[k..], n)
  {
    if n > 0 { PlainTail(x, w, k, n - 1); }
  }

  /** dot_f32_avx2 is the dot product. */
  lemma {:induction false} AvxDotIsDot(exp: real -> real, x: seq<real>, w: seq<real>)
    requires |x| == |w|
    ensures AvxDot(RealOps(exp), x, w) == Dot(RealOps(exp), 0.0, x, w)
  {
    hide Lanes, HSum, Plain, DotFrom;
    var k := Simd(|x|);
    var lanes := Lanes(RealOps(exp), x, w, k);
    LanesHoldAll(exp, x, w, k);
    HSumIsTotal(exp, lanes);
    DotIsPlain(exp, HSum(RealOps(exp), lanes), x[k..], w[k..], |x| - k);
    DotIsPlain(exp, 0.0, x, w, |x|);
    PlainTail(x, w, k, |x| - k);
  }

  lemma {:induction false} AvxCellIsScalar(exp: real -> real, x: seq<real>, layer: Layer<real>, o: nat)
    requires layer.Valid() && o < layer.outs && |x| == layer.ins
    ensures AvxCell(RealOps(exp), x, layer, o) == ScalarCell(RealOps(exp), x, layer, o)
  {
    hide AvxDot, Plain, DotFrom, Layer.Weights;
    AvxDotIsDot(exp, x, layer.Weights(o));
    DotIsPlain(exp, 0.0, x, layer.Weights(o), |x|);
    DotIsPlain(exp, BiasAt(RealOps(exp), layer.bias, o), x, layer.Weights(o), |x|);
  }

  /** The AVX2 and the scalar linear layers have the same value in every cell. */
  lemma {:induction false} AvxLayerIsScalar(exp: real -> real, x: seq<real>, rows: nat, layer: Layer<real>,
                                            a: seq<real>, b: seq<real>)
    requires layer.Valid() && |x| == Times(rows, layer.ins)
    requires Complete(RealOps(exp), Avx2, x, rows, layer, a) && Complete(RealOps(exp), Scalar, x, rows, layer, b)
    ensures a == b
  {
    hide AvxCell, ScalarCell, RealOps, Times, Quot, Rem, Layer.Weights, Input;
    forall r | 0 <= r < rows ensures RowIs(RealOps(exp), Scalar, x, rows, layer, a, r) {
      assert RowIs(RealOps(exp), Avx2, x, rows, layer, a, r);
      forall o | 0 <= o < layer.outs ensures CellIs(RealOps(exp), Scalar, x, rows, layer, a, r, o) {
        assert CellIs(RealOps(exp), Avx2, x, rows, layer, a, r, o);
        AvxCellIsScalar(exp, Input(x, rows, layer.ins, r), layer, o);
      }
    }
    CompleteIsUnique(RealOps(exp), Scalar, x, rows, layer, a, b);
  }
}
