/** Depthwise convolution is dense convolution with block-diagonal weights. */
module ConvTheorems {
  import opened Index
  import opened Arithmetic
  import opened Checked
  import opened LinearSpec
  import opened Conv
  import opened ConvDense
  import opened ConvDepthwise

  /** Products with a zero may be left out of a sum. True of the reals; of floats, for finite operands
      and up to the sign of zero. */
  ghost predicate ZeroesAddNothing<F(!new)>(ops: Ops<F>) {
    (forall a, x :: ops.add(a, ops.mul(x, ops.zero)) == a) && forall a, w :: ops.add(a, ops.mul(ops.zero, w)) == a
  }

  lemma {:induction false} RealZeroesAddNothing(exp: real -> real)
    ensures ZeroesAddNothing(RealOps(exp))
  {}

  /** Channel c's taps among all the taps of a cell. */
  function PlaneAt<F>(m: Image<F>, c: nat): nat { Times(c, Times(m.kh, m.kw)) }

  function Plane<F>(ops: Ops<F>, m: Image<F>, c: nat, cell: nat): (x: seq<F>)
    requires m.Valid() && c < m.channels
    ensures |x| == Times(m.kh, m.kw)
  {
    PlaneInside(m, c);
    m.Patch(ops, cell)[PlaneAt(m, c)..PlaneAt(m, c) + Times(m.kh, m.kw)]
  }

  lemma {:induction false} PlaneInside<F>(m: Image<F>, c: nat)
    requires c < m.channels
    ensures PlaneAt(m, c) + Times(m.kh, m.kw) <= m.Taps()
  {
    TimesAssoc(m.channels, m.kh, m.kw);
    SlotBound(c, m.channels, Times(m.kh, m.kw));
  }

  lemma {:induction false} PlaneTap<F>(ops: Ops<F>, m: Image<F>, c: nat, cell: nat, ky: nat, kx: nat)
    requires m.Valid() && c < m.channels && ky < m.kh && kx < m.kw
    ensures Times(ky, m.kw) + kx < Times(m.kh, m.kw)
    ensures Plane(ops, m, c, cell)[Times(ky, m.kw) + kx] == m.Padded(ops, c, m.Y(cell, ky), m.X(cell, kx))
  {
    hide Times, Quot, Rem, Image.Patch, Image.Padded, Image.Y, Image.X;
    PlaneInside(m, c);
    PatchTap(ops, m, cell, c, ky, kx);
    SlotBound(ky, m.kh, m.kw);
    TimesAssoc(c, m.kh, m.kw);
    TimesAdd(Times(c, m.kh), ky, m.kw);
  }

  function RowOrSkip<F>(ops: Ops<F>, m: Image<F>, filter: seq<F>, c: nat, cell: nat, ky: nat, acc: F, n: nat): F
    requires m.Valid() && c < m.channels && ky < m.kh && n <= m.kw && |filter| == Times(m.kh, m.kw)
  {
    if Inside(m.Y(cell, ky), m.h) then RowFold(ops, m, filter, c, cell, ky, acc, n) else acc
  }

  /** Over one kernel row, skipping the taps outside the image is adding their zero products. */
  lemma {:induction false} RowIsDot<F(!new)>(ops: Ops<F>, m: Image<F>, filter: seq<F>, c: nat, cell: nat, ky: nat, b: F,
                                      n: nat)
    requires m.Valid() && c < m.channels && ky < m.kh && n <= m.kw && |filter| == Times(m.kh, m.kw)
        && ZeroesAddNothing(ops)
    requires Times(ky, m.kw) + n <= Times(m.kh, m.kw)
    ensures DotFrom(ops, b, Plane(ops, m, c, cell), filter, Times(ky, m.kw) + n)
         == RowOrSkip(ops, m, filter, c, cell, ky, DotFrom(ops, b, Plane(ops, m, c, cell), filter, Times(ky, m.kw)), n)
  {
    hide Times, Quot, Rem, Plane, Image.Y, Image.X, Image.Padded;
    if n > 0 {
      RowIsDot(ops, m, filter, c, cell, ky, b, n - 1);
      PlaneTap(ops, m, c, cell, ky, n - 1);
      TapAdds(ops, m, filter, c, cell, ky, DotFrom(ops, b, Plane(ops, m, c, cell), filter, Times(ky, m.kw)), n);
    }
  }

  /** One more tap of a row, inside the image or not. */
  lemma {:induction false} TapAdds<F(!new)>(ops: Ops<F>, m: Image<F>, filter: seq<F>, c: nat, cell: nat, ky: nat,
                                     acc: F, n: nat)
    requires m.Valid() && c < m.channels && ky < m.kh && 0 < n <= m.kw && |filter| == Times(m.kh, m.kw)
        && ZeroesAddNothing(ops)
    requires Times(ky, m.kw) + n <= Times(m.kh, m.kw)
    ensures RowOrSkip(ops, m, filter, c, cell, ky, acc, n)
         == ops.add(RowOrSkip(ops, m, filter, c, cell, ky, acc, n - 1),
                    ops.mul(m.Padded(ops, c, m.Y(cell, ky), m.X(cell, n - 1)), filter[Times(ky, m.kw) + n - 1]))
  {
    hide Times, Quot, Rem, Image.Y, Image.X;
  }

  lemma {:induction false} PlaneIsDot<F(!new)>(ops: Ops<F>, m: Image<F>, filter: seq<F>, c: nat, cell: nat, b: F,
                                        rows: nat)
    requires m.Valid() && c < m.channels && rows <= m.kh && |filter| == Times(m.kh, m.kw) && ZeroesAddNothing(ops)
    ensures Times(rows, m.kw) <= Times(m.kh, m.kw)
    ensures PlaneFold(ops, m, filter, c, cell, b, rows)
        == DotFrom(ops, b, Plane(ops, m, c, cell), filter, Times(rows, m.kw))
  {
    hide Quot, Rem, Plane, Image.Y, Image.X, Image.Padded, RowFold, ZeroesAddNothing, Times, DotFrom;
    TimesMonotone(rows, m.kh, m.kw);
    if rows == 0 {
      TimesZero(m.kw);
      NoTaps(ops, b, Plane(ops, m, c, cell), filter);
    } else {
      TimesNext(rows - 1, m.kw);
      PlaneIsDot(ops, m, filter, c, cell, b, rows - 1);
      SlotBound(rows - 1, m.kh, m.kw);
      RowIsDot(ops, m, filter, c, cell, rows - 1, b, m.kw);
    }
  }

  lemma {:induction false} NoTaps<F>(ops: Ops<F>, b: F, x: seq<F>, w: seq<F>)
    ensures DotFrom(ops, b, x, w, 0) == b
  {}

  ghost predicate ZeroOutside<F>(ops: Ops<F>, w: seq<F>, at: nat, n: nat) {
    at + n <= |w| && forall p :: 0 <= p < |w| && !(at <= p < at + n) ==> w[p] == ops.zero
  }

  /** Zero weights outside a window reduce a dot product to the window. */
  lemma {:induction false} DotOfWindow<F(!new)>(ops: Ops<F>, b: F, x: seq<F>, w: seq<F>, at: nat, n: nat, k: nat)
    requires |x| == |w| && k <= |w| && ZeroOutside(ops, w, at, n) && ZeroesAddNothing(ops)
    ensures DotFrom(ops, b, x, w, k)
         == DotFrom(ops, b, x[at..at + n], w[at..at + n], if k <= at then 0 else if k <= at + n then k - at else n)
  {
    if k > 0 { DotOfWindow(ops, b, x, w, at, n, k - 1); }
  }

  /** Output channel c of the dense weights holds channel c's filter on its own taps and zero elsewhere. */
  ghost predicate BlockDiagonal<F>(ops: Ops<F>, m: Image<F>, dense: Layer<F>, weight: seq<F>)
    requires m.Valid() && dense.Valid() && dense.ins == m.Taps() && dense.outs == m.channels
    requires |weight| == Times(m.channels, Times(m.kh, m.kw))
  {
    forall c :: 0 <= c < m.channels ==> OwnTapsOnly(ops, m, dense, weight, c)
  }

  ghost predicate OwnTapsOnly<F>(ops: Ops<F>, m: Image<F>, dense: Layer<F>, weight: seq<F>, c: nat)
    requires m.Valid() && dense.Valid() && dense.ins == m.Taps() && dense.outs == m.channels
    requires |weight| == Times(m.channels, Times(m.kh, m.kw)) && c < m.channels
  {
    var w := dense.Weights(c);
    ZeroOutside(ops, w, PlaneAt(m, c), Times(m.kh, m.kw))
    && w[PlaneAt(m, c)..PlaneAt(m, c) + Times(m.kh, m.kw)] == FilterOf(m, weight, c)
  }

  /** Cell for cell, the dense fold over all taps is the depthwise fold over the channel's own. */
  lemma {:induction false} DepthwiseCellIsDense<F(!new)>(ops: Ops<F>, m: Image<F>, dense: Layer<F>, weight: seq<F>,
                                                  c: nat, cell: nat)
    requires m.Valid() && dense.Valid() && dense.ins == m.Taps() && dense.outs == m.channels && ZeroesAddNothing(ops)
    requires |weight| == Times(m.channels, Times(m.kh, m.kw)) && c < m.channels && OwnTapsOnly(ops, m, dense, weight, c)
    ensures ScalarCell(ops, m.Patch(ops, cell), dense, c)
         == PlaneFold(ops, m, FilterOf(m, weight, c), c, cell, BiasAt(ops, dense.bias, c), m.kh)
  {
    hide Times, Image.Patch, FilterOf, ZeroesAddNothing, PlaneFold, DotFrom, ZeroOutside, Layer.Weights;
    PlaneInside(m, c);
    DotOfWindow(ops, BiasAt(ops, dense.bias, c), m.Patch(ops, cell), dense.Weights(c), PlaneAt(m, c), Times(m.kh, m.kw),
        m.Taps());
    PlaneIsDot(ops, m, FilterOf(m, weight, c), c, cell, BiasAt(ops, dense.bias, c), m.kh);
  }

  /** conv2d with block-diagonal weights and depthwise_conv2d leave the same output. */
  lemma {:induction false} DepthwiseIsBlockDiagonal<F(!new)>(ops: Ops<F>, m: Image<F>, dense: Layer<F>, weight: seq<F>,
                                                      bias: Option<seq<F>>, a: seq<F>, b: seq<F>)
    requires m.Valid() && dense.Valid() && dense.ins == m.Taps() && dense.outs == m.channels && ZeroesAddNothing(ops)
    requires |weight| == Times(m.channels, Times(m.kh, m.kw)) && BlockDiagonal(ops, m, dense, weight)
        && dense.bias == BiasOf(bias)
    requires Convolved(ops, m, dense, a) && |b| == |a| && DoneTo(ops, m, weight, bias, b, m.channels, 0)
    ensures a == b
  {
    hide Times, Quot, Rem, ConvOutLen, ScalarCell, PlaneFold, ZeroesAddNothing, OwnTapsOnly;
    forall i | 0 <= i < |a| ensures a[i] == b[i] {
      QuotBound(i, m.channels, m.Cells());
      var c, cell := Quot(i, m.Cells()), Rem(i, m.Cells());
      assert ConvolvedAt(ops, m, dense, a, c, cell) && DepthwiseAt(ops, m, weight, bias, b, c, cell);
      DepthwiseCellIsDense(ops, m, dense, weight, c, cell);
    }
  }

  /** Over the reals, with no condition on the operations: any depthwise convolution is the dense one
      with block-diagonal weights. */
  lemma {:induction false} RealDepthwiseIsBlockDiagonal(exp: real -> real, m: Image<real>, dense: Layer<real>,
                                                        weight: seq<real>, bias: Option<seq<real>>, a: seq<real>,
                                                        b: seq<real>)
    requires m.Valid() && dense.Valid() && dense.ins == m.Taps() && dense.outs == m.channels
    requires |weight| == Times(m.channels, Times(m.kh, m.kw)) && BlockDiagonal(RealOps(exp), m, dense, weight)
    requires dense.bias == BiasOf(bias)
    requires Convolved(RealOps(exp), m, dense, a) && |b| == |a|
        && DoneTo(RealOps(exp), m, weight, bias, b, m.channels, 0)
    ensures a == b
  {
    hide RealOps, ZeroesAddNothing, BlockDiagonal, Convolved, DoneTo, Times;
    RealZeroesAddNothing(exp);
    DepthwiseIsBlockDiagonal(RealOps(exp), m, dense, weight, bias, a, b);
  }

  // ---- one dimension ----

  /** A `[channels][time]` signal as an image one row high. */
  function Signal<F>(input: seq<F>, channels: nat, time: nat, kernel: nat, stride: nat, padding: nat): Image<F> {
    Image(input, channels, 1, time, 1, kernel, 1, stride, 0, padding)
  }

  lemma {:induction false} SignalShape<F>(m: Image<F>, channels: nat, time: nat, kernel: nat, stride: nat, padding: nat,
                                          o: nat)
    requires m == Signal(m.input, channels, time, kernel, stride, padding) && 0 < kernel && 0 < stride
    ensures m.OutH() == 1 && m.OutW() == ConvOutLen(time, kernel, stride, padding) && m.Cells() == m.OutW()
    ensures Times(m.kh, m.kw) == kernel && Times(Times(channels, 1), time) == Times(channels, time)
    ensures o < m.OutW() ==> m.Y(o, 0) == 0 && forall k: nat :: m.X(o, k) == Times(o, stride) + k - padding
  {
    TimesOne(kernel);
    TimesOne(m.OutW());
    TimesComm(channels, 1);
    TimesOne(channels);
  }

  datatype Outcome = Finished | Refused | Panicked

  /** depthwise_conv1d does not check the bias, so a short one is an index out of bounds. */
  function Outcome1d<F>(m: Image<F>, weight: seq<F>, bias: Option<seq<F>>, outLen: nat): Outcome {
    if m.kw == 0 || m.sw == 0 || |m.input| != Times(m.channels, m.w) || |weight| != Times(m.channels, m.kw) then Refused
    else if outLen != Times(m.channels, ConvOutLen(m.w, m.kw, m.sw, m.pw)) then Refused
    else if bias.Some? && |bias.value| < m.channels then Panicked
    else Finished
  }

  method SignalCell<F>(ops: Ops<F>, m: Image<F>, weight: seq<F>, bias: Option<seq<F>>, c: nat, o: nat, time: nat,
                       kernel: nat, stride: nat, padding: nat) returns (acc: F)
    requires m == Signal(m.input, m.channels, time, kernel, stride, padding) && m.Valid() && c < m.channels
        && o < m.OutW()
    requires |weight| == Times(m.channels, Times(m.kh, m.kw)) && (bias.Some? ==> m.channels <= |bias.value|)
    ensures acc == PlaneFold(ops, m, FilterOf(m, weight, c), c, o, BiasAt(ops, BiasOf(bias), c), 1)
  {
    hide Quot, Rem, ConvOutLen;
    SignalShape(m, m.channels, time, kernel, stride, padding, o);
    SlotBound(c, m.channels, Times(m.kh, m.kw));
    ghost var start := BiasAt(ops, BiasOf(bias), c);
    acc := if bias.Some? then bias.value[c] else ops.zero;
    for k := 0 to kernel
      invariant acc == RowFold(ops, m, FilterOf(m, weight, c), c, o, 0, start, k)
    {
      var i := Times(o, stride) + k - padding;
      if 0 <= i < time {
        SignalAt(m, c, time, kernel, stride, padding, i);
        acc := ops.add(acc, ops.mul(m.input[Times(c, time) + i], weight[Times(c, kernel) + k]));
      }
    }
    OneRow(ops, m, FilterOf(m, weight, c), c, o, start);
  }

  lemma {:induction false} OneRow<F>(ops: Ops<F>, m: Image<F>, filter: seq<F>, c: nat, cell: nat, acc: F)
    requires m.Valid() && c < m.channels && m.kh == 1 && |filter| == Times(m.kh, m.kw) && Inside(m.Y(cell, 0), m.h)
    ensures PlaneFold(ops, m, filter, c, cell, acc, 1) == RowFold(ops, m, filter, c, cell, 0, acc, m.kw)
  {
    assert PlaneFold(ops, m, filter, c, cell, acc, 0) == acc;
  }

  lemma {:induction false} SignalAt<F>(m: Image<F>, c: nat, time: nat, kernel: nat, stride: nat, padding: nat, i: nat)
    requires m == Signal(m.input, m.channels, time, kernel, stride, padding) && m.Valid() && c < m.channels && i < time
    ensures m.At(c, 0, i) == Times(c, time) + i
  {
    TimesComm(c, 1);
    TimesOne(c);
  }

  /** A finished 1-D convolution is the 2-D one on a signal one row high. */
  method DepthwiseConv1d<F>(ops: Ops<F>, input: seq<F>, channels: nat, time: nat, weight: seq<F>, bias: Option<seq<F>>,
                            kernel: nat, stride: nat, padding: nat, out: array<F>) returns (r: Outcome)
    modifies out
    ensures r == Outcome1d(Signal(input, channels, time, kernel, stride, padding), weight, bias, out.Length)
    ensures r.Refused? ==> out[..] == old(out[..])
    ensures r.Finished? ==>
              var m := Signal(input, channels, time, kernel, stride, padding);
              m.Valid() && |weight| == Times(channels, Times(m.kh, m.kw))
                  && DoneTo(ops, m, weight, bias, out[..], channels, 0)
  {
    hide Times, Quot, Rem, ConvOutLen, DoneTo, PlaneFold, FilterOf, BiasAt;
    var m := Signal(input, channels, time, kernel, stride, padding);
    if kernel == 0 || stride == 0 || |input| != Times(channels, time)
        || |weight| != Times(channels, kernel) { return Refused; }
    var ot := ConvOutLen(time, kernel, stride, padding);
    if out.Length != Times(channels, ot) { return Refused; }
    if bias.Some? && |bias.value| < channels { return Panicked; }
    SignalShape(m, channels, time, kernel, stride, padding, 0);
    NoneDone(ops, m, weight, bias, out[..]);
    for c := 0 to channels
      invariant DoneTo(ops, m, weight, bias, out[..], c, 0)
    {
      for o := 0 to ot
        invariant DoneTo(ops, m, weight, bias, out[..], c, o)
      {
        var acc := SignalCell(ops, m, weight, bias, c, o, time, kernel, stride, padding);
        SlotBound(c, channels, ot);
        ghost var before := out[..];
        out[Times(c, ot) + o] := acc;
        OneMoreCell(ops, m, weight, bias, before, out[..], c, o);
      }
      NextChannel(ops, m, weight, bias, out[..], c);
    }
    r := Finished;
  }
}
