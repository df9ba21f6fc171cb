/** Dense 2-D convolution as patches, a matrix product and a transpose. */
module Conv {
  import opened Index
  import opened Arithmetic
  import opened Layout
  import opened LinearSpec

  /** saturating_sub(input + 2 * padding, kernel) / stride + 1 */
  function ConvOutLen(input: nat, kernel: nat, stride: nat, padding: nat): (n: nat)
    requires 0 < stride
    ensures 0 < n
  {
    Quot(if input + 2 * padding < kernel then 0 else input + 2 * padding - kernel, stride) + 1
  }

  /** Position o is an output exactly when its window fits the padded input, or when it is position 0
      of a kernel too large to fit anywhere. */
  lemma {:induction false} OutputsFit(input: nat, kernel: nat, stride: nat, padding: nat, o: nat)
    requires 0 < stride
    ensures o < ConvOutLen(input, kernel, stride, padding) <==>
              Times(o, stride) + kernel <= input + 2 * padding || (o == 0 && input + 2 * padding < kernel)
  {
    var room := if input + 2 * padding < kernel then 0 else input + 2 * padding - kernel;
    QuotRem(room, stride);
    var last := Quot(room, stride);
    if o <= last { TimesMonotone(o, last, stride); } else { TimesMonotone(last + 1, o, stride); }
  }

  /** An odd kernel of 2p + 1 at stride 1 keeps the length, except that it makes one output of none. */
  lemma {:induction false} SameLengthIff(input: nat, padding: nat)
    ensures ConvOutLen(input, 2 * padding + 1, 1, padding) == input <==> input > 0
  {
    var room := if input == 0 then 0 else input - 1;
    QuotIsDivision(room, 1);
  }

  datatype Image<!F> = Image(input: seq<F>, channels: nat, h: nat, w: nat, kh: nat, kw: nat, sh: nat, sw: nat, ph: nat,
      pw: nat) {
    ghost predicate Valid() {
      0 < kh && 0 < kw && 0 < sh && 0 < sw && |input| == Times(Times(channels, h), w)
    }

    function OutH(): nat
      requires 0 < sh
    {
      ConvOutLen(h, kh, sh, ph)
    }

    function OutW(): nat
      requires 0 < sw
    {
      ConvOutLen(w, kw, sw, pw)
    }

    function Cells(): nat
      requires 0 < sh && 0 < sw
    {
      Times(OutH(), OutW())
    }

    /** Tap rows of one cell, and taps of one cell. */
    function Rows(): nat { Times(channels, kh) }

    function Taps(): nat { Times(Rows(), kw) }

    function At(ic: nat, iy: nat, ix: nat): (p: nat)
      requires Valid() && ic < channels && iy < h && ix < w
      ensures p < |input|
    {
      SlotBound(ic, channels, h);
      SlotBound(Times(ic, h) + iy, Times(channels, h), w);
      Times(Times(ic, h) + iy, w) + ix
    }

    /** The zero-padded image. */
    function Padded(ops: Ops<F>, ic: nat, iy: int, ix: int): F
      requires Valid() && ic < channels
    {
      if 0 <= iy < h && 0 <= ix < w then input[At(ic, iy, ix)] else ops.zero
    }

    function Y(cell: nat, ky: nat): int
      requires 0 < sw && 0 < sh
    {
      Times(Quot(cell, OutW()), sh) + ky - ph
    }

    function X(cell: nat, kx: nat): int
      requires 0 < sw && 0 < sh
    {
      Times(Rem(cell, OutW()), sw) + kx - pw
    }

    /** The taps of kernel row ky on channel ic under an output cell. */
    function TapRow(ops: Ops<F>, cell: nat, ic: nat, ky: nat): (t: seq<F>)
      requires Valid() && ic < channels
      ensures |t| == kw && forall kx :: 0 <= kx < kw ==> t[kx] == Padded(ops, ic, Y(cell, ky), X(cell, kx))
    {
      seq(kw, kx requires 0 <= kx < kw => Padded(ops, ic, Y(cell, ky), X(cell, kx)))
    }

    /** Tap row g of the whole patch matrix. */
    function RowAt(ops: Ops<F>, g: nat): (t: seq<F>)
      requires Valid() && 0 < Rows()
      ensures |t| == kw
    {
      QuotRem(g, Rows());
      QuotBound(Rem(g, Rows()), channels, kh);
      TapRow(ops, Quot(g, Rows()), Quot(Rem(g, Rows()), kh), Rem(Rem(g, Rows()), kh))
    }

    /** All taps of a cell: channel by channel, row by row. */
    function Patch(ops: Ops<F>, cell: nat): (x: seq<F>)
      requires Valid()
      ensures |x| == Taps()
    {
      seq(Taps(), p requires 0 <= p < Taps() =>
        QuotBound(p, Rows(), kw);
        QuotBound(Quot(p, kw), channels, kh);
        TapRow(ops, cell, Quot(Quot(p, kw), kh), Rem(Quot(p, kw), kh))[Rem(p, kw)])
    }
  }

  /** Tap (ic, ky, kx) of a cell is the padded image under it. */
  lemma {:induction false} PatchTap<F>(ops: Ops<F>, m: Image<F>, cell: nat, ic: nat, ky: nat, kx: nat)
    requires m.Valid() && ic < m.channels && ky < m.kh && kx < m.kw
    ensures Times(Times(ic, m.kh) + ky, m.kw) + kx < m.Taps()
    ensures m.Patch(ops, cell)[Times(Times(ic, m.kh) + ky, m.kw) + kx]
        == m.Padded(ops, ic, m.Y(cell, ky), m.X(cell, kx))
  {
    hide Times, Quot, Rem, Image.Padded, Image.Y, Image.X;
    SlotBound(ic, m.channels, m.kh);
    SlotBound(Times(ic, m.kh) + ky, m.Rows(), m.kw);
    QuotJoin(Times(ic, m.kh) + ky, kx, m.kw);
    QuotJoin(ic, ky, m.kh);
  }

  function TapRows<F>(ops: Ops<F>, m: Image<F>): (t: seq<seq<F>>)
    requires m.Valid()
    ensures |t| == Times(m.Cells(), m.Rows())
  {
    seq(Times(m.Cells(), m.Rows()), g requires 0 <= g < Times(m.Cells(), m.Rows()) =>
      QuotBound(g, m.Cells(), m.Rows());
      m.RowAt(ops, g))
  }

  lemma {:induction false} TapRowsAt<F>(ops: Ops<F>, m: Image<F>, cell: nat, ic: nat, ky: nat)
    requires m.Valid() && cell < m.Cells() && ic < m.channels && ky < m.kh
    ensures var g := Times(cell, m.Rows()) + Times(ic, m.kh) + ky;
            g < |TapRows(ops, m)| && TapRows(ops, m)[g] == m.TapRow(ops, cell, ic, ky)
  {
    hide Times, Quot, Rem, Image.TapRow;
    SlotBound(ic, m.channels, m.kh);
    SlotBound(cell, m.Cells(), m.Rows());
    QuotJoin(cell, Times(ic, m.kh) + ky, m.Rows());
    QuotJoin(ic, ky, m.kh);
  }

  /** One kernel row: taps outside the image keep the zero the buffer started with. */
  method FillTapRow<F>(ops: Ops<F>, m: Image<F>, cell: nat, ic: nat, ky: nat, cols: array<F>, at: nat)
    requires m.Valid() && ic < m.channels && at + m.kw <= cols.Length
    requires forall i :: at <= i < at + m.kw ==> cols[i] == ops.zero
    modifies cols
    ensures cols[at..at + m.kw] == m.TapRow(ops, cell, ic, ky)
    ensures SameOutside(cols[..], old(cols[..]), at, m.kw)
  {
    hide Times, Quot, Rem;
    var iy := Times(Quot(cell, m.OutW()), m.sh) + ky - m.ph;
    if iy < 0 || iy >= m.h { return; }
    for kx := 0 to m.kw
      invariant forall i :: at <= i < at + kx ==> cols[i] == m.Padded(ops, ic, m.Y(cell, ky), m.X(cell, i - at))
      invariant forall i :: at + kx <= i < at + m.kw ==> cols[i] == ops.zero
      invariant SameOutside(cols[..], old(cols[..]), at, m.kw)
    {
      var ix := Times(Rem(cell, m.OutW()), m.sw) + kx - m.pw;
      if 0 <= ix < m.w { cols[at + kx] := m.input[m.At(ic, iy, ix)]; }
    }
  }

  /** The patch matrix has its first g tap rows; the rest is still zero. */
  ghost predicate TapsFilled<F>(ops: Ops<F>, m: Image<F>, cols: seq<F>, g: nat)
    requires m.Valid()
  {
    && |cols| == Times(m.Cells(), m.Taps()) && g <= Times(m.Cells(), m.Rows())
    && (forall r :: 0 <= r < g ==> BlockIs(cols, r, m.kw, TapRows(ops, m)[r]))
    && forall i :: Times(g, m.kw) <= i < |cols| ==> cols[i] == ops.zero
  }

  lemma {:induction false} MatrixSize<F>(m: Image<F>)
    requires m.Valid()
    ensures Times(m.Cells(), m.Taps()) == Times(Times(m.Cells(), m.Rows()), m.kw)
  {
    TimesAssoc(m.Cells(), m.Rows(), m.kw);
  }

  lemma {:induction false} RowFits<F>(ops: Ops<F>, m: Image<F>, cols: seq<F>, g: nat)
    requires m.Valid() && TapsFilled(ops, m, cols, g) && g < Times(m.Cells(), m.Rows())
    ensures Times(g, m.kw) + m.kw <= |cols|
    ensures forall i :: Times(g, m.kw) <= i < |cols| ==> cols[i] == ops.zero
  {
    MatrixSize(m);
    SlotBound(g, Times(m.Cells(), m.Rows()), m.kw);
  }

  lemma {:induction false} FillsOneMore<F>(ops: Ops<F>, m: Image<F>, a: seq<F>, b: seq<F>, g: nat)
    requires m.Valid() && TapsFilled(ops, m, a, g) && g < Times(m.Cells(), m.Rows())
    requires SameOutside(b, a, Times(g, m.kw), m.kw) && BlockIs(b, g, m.kw, TapRows(ops, m)[g])
    ensures TapsFilled(ops, m, b, g + 1)
  {
    hide TapRows, Block;
    forall r | 0 <= r < g + 1 ensures BlockIs(b, r, m.kw, TapRows(ops, m)[r]) {
      if r < g { BlockKept(a, b, r, g, m.kw, TapRows(ops, m)[r]); }
    }
  }

  /** The taps of one output cell. */
  method FillCell<F>(ops: Ops<F>, m: Image<F>, cell: nat, cols: array<F>)
    requires m.Valid() && cell < m.Cells() && TapsFilled(ops, m, cols[..], Times(cell, m.Rows()))
    modifies cols
    ensures TapsFilled(ops, m, cols[..], Times(cell + 1, m.Rows()))
  {
    hide Times, Quot, Rem, TapsFilled, TapRows, Image.TapRow, ConvOutLen, Block, Image.Cells, Image.Rows;
    TimesZero(m.kh);
    for ic := 0 to m.channels
      invariant TapsFilled(ops, m, cols[..], Times(cell, m.Rows()) + Times(ic, m.kh))
    {
      for ky := 0 to m.kh
        invariant TapsFilled(ops, m, cols[..], Times(cell, m.Rows()) + Times(ic, m.kh) + ky)
      {
        ghost var g := Times(cell, m.Rows()) + Times(ic, m.kh) + ky;
        ghost var before := cols[..];
        TapRowsAt(ops, m, cell, ic, ky);
        RowFits(ops, m, cols[..], g);
        TapOffset(m, cell, Times(ic, m.kh) + ky);
        FillTapRow(ops, m, cell, ic, ky, cols, Times(cell, m.Taps()) + Times(Times(ic, m.kh) + ky, m.kw));
        BlockFrom(cols[..], g, m.kw, m.TapRow(ops, cell, ic, ky));
        FillsOneMore(ops, m, before, cols[..], g);
      }
      TimesNext(ic, m.kh);
    }
    TimesNext(cell, m.Rows());
    RowsIs(m);
  }

  lemma {:induction false} RowsIs<F>(m: Image<F>)
    ensures m.Rows() == Times(m.channels, m.kh)
  {}

  /** dst + (ic * kh + ky) * kw is the offset of the tap row. */
  lemma {:induction false} TapOffset<F>(m: Image<F>, cell: nat, r: nat)
    ensures Times(cell, m.Taps()) + Times(r, m.kw) == Times(Times(cell, m.Rows()) + r, m.kw)
  {
    TimesAssoc(cell, m.Rows(), m.kw);
    TimesAdd(Times(cell, m.Rows()), r, m.kw);
  }

  lemma {:induction false} BlockFrom<F>(s: seq<F>, g: nat, n: nat, want: seq<F>)
    requires Times(g, n) + n <= |s| && s[Times(g, n)..Times(g, n) + n] == want
    ensures BlockIs(s, g, n, want)
  {}

  /** im2col */
  method Im2col<F>(ops: Ops<F>, m: Image<F>) returns (cols: array<F>)
    requires m.Valid()
    ensures fresh(cols) && TapsFilled(ops, m, cols[..], Times(m.Cells(), m.Rows()))
  {
    hide Times, Quot, Rem, TapsFilled, TapRows, ConvOutLen, Image.Rows, Image.Taps;
    cols := new F[Times(m.Cells(), m.Taps())](_ => ops.zero);
    StartsZero(ops, m, cols[..]);
    var ow := m.OutW();
    TimesZero(ow);
    for oy := 0 to m.OutH()
      invariant TapsFilled(ops, m, cols[..], Times(Times(oy, ow), m.Rows()))
    {
      TimesNext(oy, ow);
      for ox := 0 to ow
        invariant TapsFilled(ops, m, cols[..], Times(Times(oy, ow) + ox, m.Rows()))
      {
        SlotBound(oy, m.OutH(), ow);
        FillCell(ops, m, Times(oy, ow) + ox, cols);
      }
    }
  }

  lemma {:induction false} StartsZero<F>(ops: Ops<F>, m: Image<F>, cols: seq<F>)
    requires m.Valid() && |cols| == Times(m.Cells(), m.Taps()) && forall i :: 0 <= i < |cols| ==> cols[i] == ops.zero
    ensures TapsFilled(ops, m, cols, Times(Times(0, m.OutW()), m.Rows()))
  {}

  /** A row of the patch matrix is the patch of its cell. */
  lemma {:induction false} RowIsPatch<F>(ops: Ops<F>, m: Image<F>, cols: seq<F>, cell: nat)
    requires m.Valid() && TapsFilled(ops, m, cols, Times(m.Cells(), m.Rows())) && cell < m.Cells()
    ensures Input(cols, m.Cells(), m.Taps(), cell) == m.Patch(ops, cell)
  {
    var x, want := Input(cols, m.Cells(), m.Taps(), cell), m.Patch(ops, cell);
    forall p | 0 <= p < m.Taps() ensures x[p] == want[p] { PatchCell(ops, m, cols, cell, p); }
  }

  lemma {:induction false} PatchCell<F>(ops: Ops<F>, m: Image<F>, cols: seq<F>, cell: nat, p: nat)
    requires m.Valid() && TapsFilled(ops, m, cols, Times(m.Cells(), m.Rows())) && cell < m.Cells() && p < m.Taps()
    ensures Input(cols, m.Cells(), m.Taps(), cell)[p] == m.Patch(ops, cell)[p]
  {
    hide Times, Quot, Rem, TapRows, ConvOutLen, Image.TapRow;
    QuotBound(p, m.Rows(), m.kw);
    var r, kx := Quot(p, m.kw), Rem(p, m.kw);
    QuotBound(r, m.channels, m.kh);
    var ic, ky := Quot(r, m.kh), Rem(r, m.kh);
    TapRowsAt(ops, m, cell, ic, ky);
    var g := Times(cell, m.Rows()) + r;
    assert BlockIs(cols, g, m.kw, m.TapRow(ops, cell, ic, ky));
    TapOffset(m, cell, r);
    SlotBound(cell, m.Cells(), m.Taps());
    assert cols[Times(g, m.kw) + kx] == Block(cols, g, m.kw)[kx];
  }
}
