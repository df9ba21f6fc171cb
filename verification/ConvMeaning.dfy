/** What the convolutions mean over the reals, in flat offsets: sums over a zero-padded image, so that a filter
    of a single one shifts it. */
module ConvMeaning {
  import opened Index
  import opened Arithmetic
  import opened Checked
  import opened LinearSpec
  import opened Conv
  import opened ConvDense
  import opened ConvDepthwise
  import opened ConvTheorems
  import opened Sums

  /** Pixel (y, x) of channel ic of a `[channels, h, w]` image, zero outside it. */
  ghost function Pixel(input: seq<real>, h: nat, w: nat, ic: nat, y: int, x: int): real {
    if 0 <= y < h && 0 <= x < w then Cell(input, (ic * h + y) * w + x) else 0.0
  }

  lemma {:induction false} PaddedIsPixel(exp: real -> real, m: Image<real>, ic: nat, y: int, x: int)
    requires m.Valid() && ic < m.channels
    ensures m.Padded(RealOps(exp), ic, y, x) == Pixel(m.input, m.h, m.w, ic, y, x)
  {
    hide Times;
    if 0 <= y < m.h && 0 <= x < m.w {
      TimesIsProduct(ic, m.h);
      TimesIsProduct(Times(ic, m.h) + y, m.w);
    }
  }

  /** Output (oy, ox) has its window at (oy * sh - ph, ox * sw - pw). */
  lemma {:induction false} WindowAt(m: Image<real>, oy: nat, ox: nat, ky: nat, kx: nat)
    requires m.Valid() && oy < m.OutH() && ox < m.OutW()
    ensures Times(oy, m.OutW()) + ox < m.Cells()
    ensures m.Y(Times(oy, m.OutW()) + ox, ky) == oy * m.sh + ky - m.ph
    ensures m.X(Times(oy, m.OutW()) + ox, kx) == ox * m.sw + kx - m.pw
  {
    hide Times, Quot, Rem, ConvOutLen;
    SlotBound(oy, m.OutH(), m.OutW());
    QuotJoin(oy, ox, m.OutW());
    TimesIsProduct(oy, m.sh);
    TimesIsProduct(ox, m.sw);
  }

  /** Cell (c, oy, ox) of a `[channels, oh, ow]` output. */
  function OutAt(m: Image<real>, c: nat, oy: nat, ox: nat): int
    requires m.Valid()
  {
    (c * m.OutH() + oy) * m.OutW() + ox
  }

  lemma {:induction false} OutAtIs(m: Image<real>, c: nat, oy: nat, ox: nat)
    requires m.Valid() && oy < m.OutH() && ox < m.OutW()
    ensures OutAt(m, c, oy, ox) == Times(c, m.Cells()) + (Times(oy, m.OutW()) + ox)
  {
    hide Times, Quot, ConvOutLen;
    TimesAssoc(c, m.OutH(), m.OutW());
    TimesAdd(Times(c, m.OutH()), oy, m.OutW());
    TimesIsProduct(c, m.OutH());
    TimesIsProduct(Times(c, m.OutH()) + oy, m.OutW());
  }

  ghost function Bias(bias: Option<seq<real>>, c: nat): real { if bias.Some? then Cell(bias.value, c) else 0.0 }

  // ---- dense ----

  /** Tap (ic, ky, kx) of filter oc, times the pixel under it. */
  ghost function DenseTap(m: Image<real>, w: seq<real>, oc: nat, oy: nat, ox: nat): (nat, nat, nat) -> real {
    (ic: nat, ky: nat, kx: nat) =>
      Cell(w, ((oc * m.channels + ic) * m.kh + ky) * m.kw + kx)
      * Pixel(m.input, m.h, m.w, ic, oy * m.sh + ky - m.ph, ox * m.sw + kx - m.pw)
  }

  /** Where tap (ic, ky, kx) of filter oc is stored. */
  lemma {:induction false} FilterTap(m: Image<real>, layer: Layer<real>, oc: nat, ic: nat, ky: nat, kx: nat)
    requires m.Valid() && layer.Valid() && layer.ins == m.Taps() && oc < layer.outs
    requires ic < m.channels && ky < m.kh && kx < m.kw
    ensures var p := Times(Times(ic, m.kh) + ky, m.kw) + kx;
            p < m.Taps() && layer.Weights(oc)[p] == Cell(layer.w, ((oc * m.channels + ic) * m.kh + ky) * m.kw + kx)
  {
    hide Times;
    var r := Times(ic, m.kh) + ky;
    SlotBound(ic, m.channels, m.kh);
    SlotBound(r, m.Rows(), m.kw);
    SlotBound(oc, layer.outs, m.Taps());
    TimesAssoc(oc, m.Rows(), m.kw);
    TimesAdd(Times(oc, m.Rows()), r, m.kw);
    TimesAssoc(oc, m.channels, m.kh);
    TimesAdd(Times(oc, m.channels), ic, m.kh);
    TimesIsProduct(oc, m.channels);
    TimesIsProduct(Times(oc, m.channels) + ic, m.kh);
    TimesIsProduct(Times(Times(oc, m.channels) + ic, m.kh) + ky, m.kw);
  }

  lemma {:induction false} PatchPixel(exp: real -> real, m: Image<real>, oy: nat, ox: nat, ic: nat, ky: nat, kx: nat)
    requires m.Valid() && oy < m.OutH() && ox < m.OutW() && ic < m.channels && ky < m.kh && kx < m.kw
    ensures var p := Times(Times(ic, m.kh) + ky, m.kw) + kx;
            p < m.Taps() && m.Patch(RealOps(exp), Times(oy, m.OutW()) + ox)[p]
            == Pixel(m.input, m.h, m.w, ic, oy * m.sh + ky - m.ph, ox * m.sw + kx - m.pw)
  {
    hide Times, Pixel, ConvOutLen, Image.Patch, Image.Padded, Image.Y, Image.X, RealOps;
    WindowAt(m, oy, ox, ky, kx);
    PatchTap(RealOps(exp), m, Times(oy, m.OutW()) + ox, ic, ky, kx);
    PaddedIsPixel(exp, m, ic, oy * m.sh + ky - m.ph, ox * m.sw + kx - m.pw);
  }

  /** The fold over the patch is the triple sum. */
  lemma {:induction false} DenseCell(exp: real -> real, m: Image<real>, layer: Layer<real>, oc: nat, oy: nat, ox: nat)
    requires m.Valid() && layer.Valid() && layer.ins == m.Taps() && oc < layer.outs && oy < m.OutH() && ox < m.OutW()
    ensures ScalarCell(RealOps(exp), m.Patch(RealOps(exp), Times(oy, m.OutW()) + ox), layer, oc)
         == BiasAt(RealOps(exp), layer.bias, oc)
            + Sum3(m.channels, m.kh, m.kw, DenseTap(m, layer.w, oc, oy, ox))
  {
    hide Times, Pixel, ConvOutLen, Image.Patch, RealOps, Sum3, Dot, Cell, BiasAt, Layer.Weights;
    var x, y, t := m.Patch(RealOps(exp), Times(oy, m.OutW()) + ox), layer.Weights(oc),
        DenseTap(m, layer.w, oc, oy, ox);
    forall ic: nat, ky: nat, kx: nat | ic < m.channels && ky < m.kh && kx < m.kw
      ensures TermIs(x, y, Times(Times(ic, m.kh) + ky, m.kw) + kx, t(ic, ky, kx))
    {
      FilterTap(m, layer, oc, ic, ky, kx);
      PatchPixel(exp, m, oy, ox, ic, ky, kx);
    }
    DotIsSum3(exp, BiasAt(RealOps(exp), layer.bias, oc), x, y, m.channels, m.kh, m.kw, t);
  }

  /** What conv2d leaves: bias plus the sum over input channels and taps of weight times pixel. */
  lemma {:induction false} DenseIsSum(exp: real -> real, m: Image<real>, weight: seq<real>, bias: Option<seq<real>>,
                                      outs: nat, out: seq<real>, oc: nat, oy: nat, ox: nat)
    requires Accepts(m, weight, bias, outs, |out|) && oc < outs && oy < m.OutH() && ox < m.OutW()
    requires m.Valid() && LayerOf(m, weight, bias, outs).Valid()
    requires Convolved(RealOps(exp), m, LayerOf(m, weight, bias, outs), out)
    ensures 0 <= OutAt(m, oc, oy, ox) < |out|
    ensures out[OutAt(m, oc, oy, ox)]
         == Bias(bias, oc) + Sum3(m.channels, m.kh, m.kw, DenseTap(m, weight, oc, oy, ox))
  {
    hide Times, ConvOutLen, Image.Patch, ScalarCell, Sum3, DenseTap, OutAt;
    WindowAt(m, oy, ox, 0, 0);
    OutAtIs(m, oc, oy, ox);
    DenseCell(exp, m, LayerOf(m, weight, bias, outs), oc, oy, ox);
    assert ConvolvedAt(RealOps(exp), m, LayerOf(m, weight, bias, outs), out, oc, Times(oy, m.OutW()) + ox);
  }

  /** Filter oc is one at tap (ic, ky, kx) and zero elsewhere. */
  ghost predicate OneTap(m: Image<real>, w: seq<real>, oc: nat, ic: nat, ky: nat, kx: nat) {
    && ic < m.channels && ky < m.kh && kx < m.kw
    && forall i: nat, y: nat, x: nat :: i < m.channels && y < m.kh && x < m.kw ==>
         Cell(w, ((oc * m.channels + i) * m.kh + y) * m.kw + x) == if (i, y, x) == (ic, ky, kx) then 1.0 else 0.0
  }

  ghost function Under(m: Image<real>, ic: nat, ky: nat, kx: nat, oy: nat, ox: nat): real {
    Pixel(m.input, m.h, m.w, ic, oy * m.sh + ky - m.ph, ox * m.sw + kx - m.pw)
  }

  lemma {:induction false} TapUnder(m: Image<real>, w: seq<real>, oc: nat, i: nat, y: nat, x: nat, ic: nat, ky: nat,
                                    kx: nat, oy: nat, ox: nat)
    requires OneTap(m, w, oc, ic, ky, kx) && i < m.channels && y < m.kh && x < m.kw
    ensures DenseTap(m, w, oc, oy, ox)(i, y, x)
         == if (i, y, x) == (ic, ky, kx) then Under(m, ic, ky, kx, oy, ox) else 0.0
  {
    hide Pixel, Cell;
  }

  /** Such a filter returns its channel, shifted by its tap and sampled at the strides. */
  lemma {:induction false} OneTapShifts(exp: real -> real, m: Image<real>, weight: seq<real>, outs: nat,
                                        out: seq<real>, oc: nat, ic: nat, ky: nat, kx: nat, oy: nat, ox: nat)
    requires Accepts(m, weight, None, outs, |out|) && oc < outs && oy < m.OutH() && ox < m.OutW()
    requires m.Valid() && LayerOf(m, weight, None, outs).Valid()
    requires Convolved(RealOps(exp), m, LayerOf(m, weight, None, outs), out) && OneTap(m, weight, oc, ic, ky, kx)
    ensures 0 <= OutAt(m, oc, oy, ox) < |out|
    ensures out[OutAt(m, oc, oy, ox)] == Pixel(m.input, m.h, m.w, ic, oy * m.sh + ky - m.ph, ox * m.sw + kx - m.pw)
  {
    hide Times, ConvOutLen, Convolved, Sum3, DenseTap, OutAt;
    DenseIsSum(exp, m, weight, None, outs, out, oc, oy, ox);
    var t := DenseTap(m, weight, oc, oy, ox);
    forall i: nat, y: nat, x: nat | i < m.channels && y < m.kh && x < m.kw
      ensures t(i, y, x) == if (i, y, x) == (ic, ky, kx) then Under(m, ic, ky, kx, oy, ox) else 0.0
    {
      TapUnder(m, weight, oc, i, y, x, ic, ky, kx, oy, ox);
    }
    Sum3One(m.channels, m.kh, m.kw, t, ic, ky, kx);
  }

  /** A 1x1 filter of one at stride 1 without padding copies its channel. */
  lemma {:induction false} OneByOneCopies(exp: real -> real, m: Image<real>, weight: seq<real>, outs: nat,
                                          out: seq<real>, oc: nat, ic: nat, y: nat, x: nat)
    requires Accepts(m, weight, None, outs, |out|) && oc < outs && y < m.h && x < m.w
    requires m.kh == m.kw == m.sh == m.sw == 1 && m.ph == m.pw == 0
    requires m.Valid() && LayerOf(m, weight, None, outs).Valid()
    requires Convolved(RealOps(exp), m, LayerOf(m, weight, None, outs), out) && OneTap(m, weight, oc, ic, 0, 0)
    ensures 0 <= (oc * m.h + y) * m.w + x < |out| && 0 <= (ic * m.h + y) * m.w + x < |m.input|
    ensures out[(oc * m.h + y) * m.w + x] == m.input[(ic * m.h + y) * m.w + x]
  {
    hide Times, ConvOutLen, Convolved, Cell;
    SameLengthIff(m.h, 0);
    SameLengthIff(m.w, 0);
    OneTapShifts(exp, m, weight, outs, out, oc, ic, 0, 0, y, x);
    InsideImage(m, ic, y, x);
    CellAt(m.input, (ic * m.h + y) * m.w + x);
  }

  lemma {:induction false} InsideImage(m: Image<real>, ic: nat, y: nat, x: nat)
    requires m.Valid() && ic < m.channels && y < m.h && x < m.w
    ensures 0 <= (ic * m.h + y) * m.w + x < |m.input|
  {
    hide Times;
    SlotBound(ic, m.channels, m.h);
    SlotBound(Times(ic, m.h) + y, Times(m.channels, m.h), m.w);
    TimesIsProduct(ic, m.h);
    TimesIsProduct(Times(ic, m.h) + y, m.w);
  }

  // ---- depthwise ----

  /** Tap (ky, kx) of channel c's filter, times the pixel of that channel under it. */
  ghost function DepthwiseTap(m: Image<real>, w: seq<real>, c: nat, oy: nat, ox: nat): (nat, nat) -> real {
    (ky: nat, kx: nat) =>
      Cell(w, (c * m.kh + ky) * m.kw + kx)
      * Pixel(m.input, m.h, m.w, c, oy * m.sh + ky - m.ph, ox * m.sw + kx - m.pw)
  }

  lemma {:induction false} OwnTap(m: Image<real>, w: seq<real>, c: nat, ky: nat, kx: nat)
    requires |w| == Times(m.channels, Times(m.kh, m.kw)) && c < m.channels && ky < m.kh && kx < m.kw
    ensures var p := Times(ky, m.kw) + kx;
            p < Times(m.kh, m.kw) && FilterOf(m, w, c)[p] == Cell(w, (c * m.kh + ky) * m.kw + kx)
  {
    hide Times;
    SlotBound(ky, m.kh, m.kw);
    SlotBound(c, m.channels, Times(m.kh, m.kw));
    TimesAssoc(c, m.kh, m.kw);
    TimesAdd(Times(c, m.kh), ky, m.kw);
    TimesIsProduct(c, m.kh);
    TimesIsProduct(Times(c, m.kh) + ky, m.kw);
  }

  lemma {:induction false} PlanePixel(exp: real -> real, m: Image<real>, oy: nat, ox: nat, c: nat, ky: nat, kx: nat)
    requires m.Valid() && oy < m.OutH() && ox < m.OutW() && c < m.channels && ky < m.kh && kx < m.kw
    ensures var p := Times(ky, m.kw) + kx;
            p < Times(m.kh, m.kw) && ConvTheorems.Plane(RealOps(exp), m, c, Times(oy, m.OutW()) + ox)[p]
            == Pixel(m.input, m.h, m.w, c, oy * m.sh + ky - m.ph, ox * m.sw + kx - m.pw)
  {
    hide Times, Pixel, ConvOutLen, ConvTheorems.Plane, Image.Padded, Image.Y, Image.X, RealOps;
    WindowAt(m, oy, ox, ky, kx);
    PlaneTap(RealOps(exp), m, c, Times(oy, m.OutW()) + ox, ky, kx);
    PaddedIsPixel(exp, m, c, oy * m.sh + ky - m.ph, ox * m.sw + kx - m.pw);
  }

  /** The fold that skips the taps outside the image is the double sum. */
  lemma {:induction false} DepthwiseCellIsSum(exp: real -> real, m: Image<real>, w: seq<real>, c: nat, oy: nat, ox: nat,
                                              b: real)
    requires m.Valid() && |w| == Times(m.channels, Times(m.kh, m.kw)) && c < m.channels
    requires oy < m.OutH() && ox < m.OutW()
    ensures PlaneFold(RealOps(exp), m, FilterOf(m, w, c), c, Times(oy, m.OutW()) + ox, b, m.kh)
         == b + Sum2(m.kh, m.kw, DepthwiseTap(m, w, c, oy, ox))
  {
    hide Times, Pixel, ConvOutLen, ConvTheorems.Plane, RealOps, Sum2, Dot, Cell, FilterOf, PlaneFold, ZeroesAddNothing;
    var cell := Times(oy, m.OutW()) + ox;
    var x, y, t := ConvTheorems.Plane(RealOps(exp), m, c, cell), FilterOf(m, w, c), DepthwiseTap(m, w, c, oy, ox);
    RealZeroesAddNothing(exp);
    PlaneIsDot(RealOps(exp), m, y, c, cell, b, m.kh);
    forall ky: nat, kx: nat | ky < m.kh && kx < m.kw ensures TermIs(x, y, Times(ky, m.kw) + kx, t(ky, kx)) {
      OwnTap(m, w, c, ky, kx);
      PlanePixel(exp, m, oy, ox, c, ky, kx);
    }
    PlaneDot(exp, b, x, y);
    DotIsSum2(exp, b, x, y, m.kh, m.kw, t);
  }

  lemma {:induction false} PlaneDot(exp: real -> real, b: real, x: seq<real>, y: seq<real>)
    requires |x| == |y|
    ensures DotFrom(RealOps(exp), b, x, y, |x|) == Dot(RealOps(exp), b, x, y)
  {}

  /** What depthwise_conv2d leaves: bias plus the sum over its own channel's taps. */
  lemma {:induction false} DepthwiseIsSum(exp: real -> real, m: Image<real>, w: seq<real>, bias: Option<seq<real>>,
                                          out: seq<real>, c: nat, oy: nat, ox: nat)
    requires AcceptsDepthwise(m, w, bias, |out|) && c < m.channels && oy < m.OutH() && ox < m.OutW() && m.Valid()
    requires DoneTo(RealOps(exp), m, w, bias, out, m.channels, 0)
    ensures 0 <= OutAt(m, c, oy, ox) < |out|
    ensures out[OutAt(m, c, oy, ox)] == Bias(bias, c) + Sum2(m.kh, m.kw, DepthwiseTap(m, w, c, oy, ox))
  {
    hide Times, ConvOutLen, PlaneFold, FilterOf, Sum2, DepthwiseTap, OutAt;
    WindowAt(m, oy, ox, 0, 0);
    OutAtIs(m, c, oy, ox);
    DepthwiseCellIsSum(exp, m, w, c, oy, ox, BiasAt(RealOps(exp), BiasOf(bias), c));
    assert DepthwiseAt(RealOps(exp), m, w, bias, out, c, Times(oy, m.OutW()) + ox);
  }

  /** Channel c's filter is one at tap (ky, kx) and zero elsewhere. */
  ghost predicate OneOwnTap(m: Image<real>, w: seq<real>, c: nat, ky: nat, kx: nat) {
    && ky < m.kh && kx < m.kw
    && forall y: nat, x: nat :: y < m.kh && x < m.kw ==>
         Cell(w, (c * m.kh + y) * m.kw + x) == if (y, x) == (ky, kx) then 1.0 else 0.0
  }

  lemma {:induction false} OwnTapUnder(m: Image<real>, w: seq<real>, c: nat, y: nat, x: nat, ky: nat, kx: nat, oy: nat,
                                       ox: nat)
    requires OneOwnTap(m, w, c, ky, kx) && y < m.kh && x < m.kw
    ensures DepthwiseTap(m, w, c, oy, ox)(y, x) == if (y, x) == (ky, kx) then Under(m, c, ky, kx, oy, ox) else 0.0
  {
    hide Pixel, Cell;
  }

  /** A filter of a single one shifts and samples its own channel. */
  lemma {:induction false} OwnTapShifts(exp: real -> real, m: Image<real>, w: seq<real>, out: seq<real>, c: nat,
                                        ky: nat, kx: nat, oy: nat, ox: nat)
    requires AcceptsDepthwise(m, w, None, |out|) && c < m.channels && oy < m.OutH() && ox < m.OutW() && m.Valid()
    requires DoneTo(RealOps(exp), m, w, None, out, m.channels, 0) && OneOwnTap(m, w, c, ky, kx)
    ensures 0 <= OutAt(m, c, oy, ox) < |out|
    ensures out[OutAt(m, c, oy, ox)] == Pixel(m.input, m.h, m.w, c, oy * m.sh + ky - m.ph, ox * m.sw + kx - m.pw)
  {
    hide Times, ConvOutLen, DoneTo, Sum2, DepthwiseTap, OutAt;
    DepthwiseIsSum(exp, m, w, None, out, c, oy, ox);
    var t := DepthwiseTap(m, w, c, oy, ox);
    forall y: nat, x: nat | y < m.kh && x < m.kw
      ensures t(y, x) == if (y, x) == (ky, kx) then Under(m, c, ky, kx, oy, ox) else 0.0
    {
      OwnTapUnder(m, w, c, y, x, ky, kx, oy, ox);
    }
    Sum2One(m.kh, m.kw, t, ky, kx);
  }
}
