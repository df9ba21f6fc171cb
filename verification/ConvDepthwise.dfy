/** Depthwise convolution skips the taps outside the image and never leaves its channel. It is the
    dense convolution with block-diagonal weights wherever adding a zero product changes nothing. */
module ConvDepthwise {
  import opened Index
  import opened Arithmetic
  import opened Checked
  import opened LinearSpec
  import opened Conv
  import opened ConvDense

  predicate Inside(i: int, n: nat) { 0 <= i < n }

  /** One kernel row: the taps inside the image, in order. */
  function RowFold<F>(ops: Ops<F>, m: Image<F>, filter: seq<F>, c: nat, cell: nat, ky: nat, acc: F, n: nat): F
    requires m.Valid() && c < m.channels && ky < m.kh && n <= m.kw && |filter| == Times(m.kh, m.kw)
    requires Inside(m.Y(cell, ky), m.h)
  {
    if n == 0 then acc
    else
      var before := RowFold(ops, m, filter, c, cell, ky, acc, n - 1);
      if Inside(m.X(cell, n - 1), m.w) then
        SlotBound(ky, m.kh, m.kw);
        ops.add(before, ops.mul(m.Padded(ops, c, m.Y(cell, ky), m.X(cell, n - 1)), filter[Times(ky, m.kw) + (n - 1)]))
      else before
  }

  /** The first `rows` kernel rows; rows outside the image are skipped whole. */
  function PlaneFold<F>(ops: Ops<F>, m: Image<F>, filter: seq<F>, c: nat, cell: nat, acc: F, rows: nat): F
    requires m.Valid() && c < m.channels && rows <= m.kh && |filter| == Times(m.kh, m.kw)
  {
    if rows == 0 then acc
    else
      var before := PlaneFold(ops, m, filter, c, cell, acc, rows - 1);
      if Inside(m.Y(cell, rows - 1), m.h) then RowFold(ops, m, filter, c, cell, rows - 1, before, m.kw) else before
  }

  /** Channel c's own filter. */
  function FilterOf<F>(m: Image<F>, weight: seq<F>, c: nat): (f: seq<F>)
    requires |weight| == Times(m.channels, Times(m.kh, m.kw)) && c < m.channels
    ensures |f| == Times(m.kh, m.kw)
  {
    SlotBound(c, m.channels, Times(m.kh, m.kw));
    LinearSpec.RowAt(weight, c, Times(m.kh, m.kw))
  }

  method DepthwiseRow<F>(ops: Ops<F>, m: Image<F>, weight: seq<F>, c: nat, cell: nat, ky: nat, acc: F) returns (r: F)
    requires m.Valid() && c < m.channels && ky < m.kh && |weight| == Times(m.channels, Times(m.kh, m.kw))
    requires Inside(m.Y(cell, ky), m.h)
    ensures r == RowFold(ops, m, FilterOf(m, weight, c), c, cell, ky, acc, m.kw)
  {
    hide Times, Quot, Rem, ConvOutLen;
    r := acc;
    var iy := Times(Quot(cell, m.OutW()), m.sh) + ky - m.ph;
    for kx := 0 to m.kw
      invariant r == RowFold(ops, m, FilterOf(m, weight, c), c, cell, ky, acc, kx)
    {
      var ix := Times(Rem(cell, m.OutW()), m.sw) + kx - m.pw;
      if 0 <= ix < m.w {
        SlotBound(c, m.channels, Times(m.kh, m.kw));
        SlotBound(ky, m.kh, m.kw);
        r := ops.add(r, ops.mul(m.input[m.At(c, iy, ix)], weight[Times(c, Times(m.kh, m.kw)) + Times(ky, m.kw) + kx]));
      }
    }
  }

  method DepthwiseCell<F>(ops: Ops<F>, m: Image<F>, weight: seq<F>, bias: Option<seq<F>>, c: nat,
                          cell: nat) returns (acc: F)
    requires m.Valid() && c < m.channels && |weight| == Times(m.channels, Times(m.kh, m.kw))
    requires bias.Some? ==> |bias.value| == m.channels
    ensures acc == PlaneFold(ops, m, FilterOf(m, weight, c), c, cell, BiasAt(ops, BiasOf(bias), c), m.kh)
  {
    hide Times, Quot, Rem, ConvOutLen, RowFold, FilterOf;
    acc := if bias.Some? then bias.value[c] else ops.zero;
    for ky := 0 to m.kh
      invariant acc == PlaneFold(ops, m, FilterOf(m, weight, c), c, cell, BiasAt(ops, BiasOf(bias), c), ky)
    {
      var iy := Times(Quot(cell, m.OutW()), m.sh) + ky - m.ph;
      if 0 <= iy < m.h { acc := DepthwiseRow(ops, m, weight, c, cell, ky, acc); }
    }
  }

  /** The shapes depthwise_conv2d takes. */
  predicate AcceptsDepthwise<F>(m: Image<F>, weight: seq<F>, bias: Option<seq<F>>, outLen: nat) {
    && 0 < m.kh && 0 < m.kw && 0 < m.sh && 0 < m.sw && |m.input| == Times(Times(m.channels, m.h), m.w)
    && |weight| == Times(m.channels, Times(m.kh, m.kw)) && (bias.Some? ==> |bias.value| == m.channels)
    && outLen == Times(m.channels, m.Cells())
  }

  ghost predicate DepthwiseAt<F>(ops: Ops<F>, m: Image<F>, weight: seq<F>, bias: Option<seq<F>>, out: seq<F>, c: nat,
                                 cell: nat)
    requires m.Valid() && c < m.channels && |weight| == Times(m.channels, Times(m.kh, m.kw))
  {
    && Times(c, m.Cells()) + cell < |out|
    && out[Times(c, m.Cells()) + cell]
       == PlaneFold(ops, m, FilterOf(m, weight, c), c, cell, BiasAt(ops, BiasOf(bias), c), m.kh)
  }

  ghost predicate DoneTo<F>(ops: Ops<F>, m: Image<F>, weight: seq<F>, bias: Option<seq<F>>, out: seq<F>, channel: nat,
                            cells: nat)
    requires m.Valid() && |weight| == Times(m.channels, Times(m.kh, m.kw)) && channel <= m.channels
  {
    forall c, cell ::
      0 <= c < m.channels && 0 <= cell < m.Cells() && (c < channel || (c == channel && cell < cells)) ==>
      DepthwiseAt(ops, m, weight, bias, out, c, cell)
  }

  lemma {:induction false} OneMoreCell<F>(ops: Ops<F>, m: Image<F>, weight: seq<F>, bias: Option<seq<F>>, a: seq<F>,
                                          b: seq<F>, c: nat, cell: nat)
    requires m.Valid() && |weight| == Times(m.channels, Times(m.kh, m.kw)) && c < m.channels && cell < m.Cells()
    requires DoneTo(ops, m, weight, bias, a, c, cell) && Times(c, m.Cells()) + cell < |a|
    requires b == a[Times(c, m.Cells()) + cell :=
        PlaneFold(ops, m, FilterOf(m, weight, c), c, cell, BiasAt(ops, BiasOf(bias), c), m.kh)]
    ensures DoneTo(ops, m, weight, bias, b, c, cell + 1)
  {
    hide Times, Quot, Rem, ConvOutLen, PlaneFold, FilterOf;
    forall c', cell' | 0 <= c' < m.channels && 0 <= cell' < m.Cells() && (c' < c || (c' == c && cell' < cell + 1))
      ensures DepthwiseAt(ops, m, weight, bias, b, c', cell')
    {
      if (c', cell') != (c, cell) {
        assert DepthwiseAt(ops, m, weight, bias, a, c', cell');
        PosApart(c, cell, c', cell', m.Cells());
      }
    }
  }

  lemma {:induction false} NextChannel<F>(ops: Ops<F>, m: Image<F>, weight: seq<F>, bias: Option<seq<F>>, out: seq<F>,
                                          c: nat)
    requires m.Valid() && |weight| == Times(m.channels, Times(m.kh, m.kw)) && c < m.channels
    requires DoneTo(ops, m, weight, bias, out, c, m.Cells())
    ensures DoneTo(ops, m, weight, bias, out, c + 1, 0)
  {}

  method DepthwiseConv2d<F>(ops: Ops<F>, m: Image<F>, weight: seq<F>, bias: Option<seq<F>>,
                            out: array<F>) returns (ok: bool)
    modifies out
    ensures ok == AcceptsDepthwise(m, weight, bias, out.Length)
    ensures ok ==> m.Valid() && DoneTo(ops, m, weight, bias, out[..], m.channels, 0)
    ensures !ok ==> out[..] == old(out[..])
  {
    hide Times, Quot, Rem, ConvOutLen, DoneTo, PlaneFold;
    ok := false;
    if m.kh == 0 || m.kw == 0 || m.sh == 0 || m.sw == 0 { return; }
    if |m.input| != Times(Times(m.channels, m.h), m.w) || |weight| != Times(m.channels, Times(m.kh, m.kw)) { return; }
    if bias.Some? && |bias.value| != m.channels { return; }
    if out.Length != Times(m.channels, m.Cells()) { return; }
    DepthwisePlanes(ops, m, weight, bias, out);
    ok := true;
  }

  method DepthwisePlanes<F>(ops: Ops<F>, m: Image<F>, weight: seq<F>, bias: Option<seq<F>>, out: array<F>)
    requires m.Valid() && AcceptsDepthwise(m, weight, bias, out.Length)
    modifies out
    ensures DoneTo(ops, m, weight, bias, out[..], m.channels, 0)
  {
    hide Times, Quot, Rem, ConvOutLen, DoneTo, PlaneFold, FilterOf, BiasAt;
    NoneDone(ops, m, weight, bias, out[..]);
    for c := 0 to m.channels
      invariant DoneTo(ops, m, weight, bias, out[..], c, 0)
    {
      TimesZero(m.OutW());
      for oy := 0 to m.OutH()
        invariant DoneTo(ops, m, weight, bias, out[..], c, Times(oy, m.OutW()))
      {
        for ox := 0 to m.OutW()
          invariant DoneTo(ops, m, weight, bias, out[..], c, Times(oy, m.OutW()) + ox)
        {
          var cell := Times(oy, m.OutW()) + ox;
          SlotBound(oy, m.OutH(), m.OutW());
          SlotBound(c, m.channels, m.Cells());
          var acc := DepthwiseCell(ops, m, weight, bias, c, cell);
          ghost var before := out[..];
          out[Times(c, m.Cells()) + cell] := acc;
          OneMoreCell(ops, m, weight, bias, before, out[..], c, cell);
        }
        TimesNext(oy, m.OutW());
      }
      NextChannel(ops, m, weight, bias, out[..], c);
    }
  }

  lemma {:induction false} NoneDone<F>(ops: Ops<F>, m: Image<F>, weight: seq<F>, bias: Option<seq<F>>, out: seq<F>)
    requires m.Valid() && |weight| == Times(m.channels, Times(m.kh, m.kw))
    ensures DoneTo(ops, m, weight, bias, out, 0, 0)
  {}
}
