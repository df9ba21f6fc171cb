/** Rotary position embedding: pairs rotated in place on the host, one thread a pair on the device. */
module Rope {
  import opened Index
  import opened Arithmetic
  import opened Checked
  import opened Layout

  /** cos, sin, the conversion of a position, and the inverse frequency of pair i. */
  datatype Angles<!F> = Angles(cos: F -> F, sin: F -> F, ofNat: nat -> F, freq: nat -> F)

  function CosTable<F>(ops: Ops<F>, a: Angles<F>, half: nat, position: nat): (t: seq<F>)
    ensures |t| == half
  {
    seq(half, i requires 0 <= i => a.cos(ops.mul(a.ofNat(position), a.freq(i))))
  }

  function SinTable<F>(ops: Ops<F>, a: Angles<F>, half: nat, position: nat): (t: seq<F>)
    ensures |t| == half
  {
    seq(half, i requires 0 <= i => a.sin(ops.mul(a.ofNat(position), a.freq(i))))
  }

  /** The factored variant divides each inverse frequency by its factor. */
  function WithFactors<F>(ops: Ops<F>, a: Angles<F>, factors: seq<F>): Angles<F> {
    a.(freq := (i: nat) => if i < |factors| then ops.div(a.freq(i), factors[i]) else a.freq(i))
  }

  /** rope_trig_tables_with_factors: a pair for each of the first `half` factors. */
  method FactoredTables<F>(ops: Ops<F>, a: Angles<F>, half: nat, position: nat, factors: seq<F>)
    returns (cos: seq<F>, sin: seq<F>)
    requires half <= |factors|
    ensures cos == CosTable(ops, WithFactors(ops, a, factors), half, position)
    ensures sin == SinTable(ops, WithFactors(ops, a, factors), half, position)
  {
    ghost var b := WithFactors(ops, a, factors);
    cos, sin := [], [];
    for i := 0 to half
      invariant cos == CosTable(ops, b, half, position)[..i] && sin == SinTable(ops, b, half, position)[..i]
    {
      var angle := ops.mul(a.ofNat(position), ops.div(a.freq(i), factors[i]));
      cos, sin := cos + [a.cos(angle)], sin + [a.sin(angle)];
    }
  }

  function Low<F>(ops: Ops<F>, lo: F, hi: F, c: F, s: F): F { ops.sub(ops.mul(lo, c), ops.mul(hi, s)) }

  function High<F>(ops: Ops<F>, lo: F, hi: F, c: F, s: F): F { ops.add(ops.mul(lo, s), ops.mul(hi, c)) }

  /** Cell i of the lower half turns with cell i + half of the upper. */
  function Rotate<F>(ops: Ops<F>, x: seq<F>, cos: seq<F>, sin: seq<F>, half: nat): (y: seq<F>)
    requires |x| == 2 * half && |cos| == |sin| == half
    ensures |y| == 2 * half
    ensures forall i :: 0 <= i < half ==> y[i] == Low(ops, x[i], x[i + half], cos[i], sin[i])
    ensures forall i :: 0 <= i < half ==> y[i + half] == High(ops, x[i], x[i + half], cos[i], sin[i])
  {
    seq(2 * half, k requires 0 <= k < 2 * half =>
      if k < half then Low(ops, x[k], x[k + half], cos[k], sin[k])
      else High(ops, x[k - half], x[k], cos[k - half], sin[k - half]))
  }

  method RopeTrigTables<F>(ops: Ops<F>, a: Angles<F>, half: nat, position: nat) returns (cos: seq<F>, sin: seq<F>)
    ensures cos == CosTable(ops, a, half, position) && sin == SinTable(ops, a, half, position)
  {
    cos, sin := [], [];
    for i := 0 to half
      invariant cos == CosTable(ops, a, half, position)[..i] && sin == SinTable(ops, a, half, position)[..i]
    {
      var angle := ops.mul(a.ofNat(position), a.freq(i));
      cos, sin := cos + [a.cos(angle)], sin + [a.sin(angle)];
    }
  }

  /** The head with its first i pairs turned. */
  function Turned<F>(was: seq<F>, want: seq<F>, half: nat, i: nat): (m: seq<F>)
    requires |was| == |want| == 2 * half && i <= half
    ensures |m| == 2 * half
  {
    want[..i] + was[i..half] + want[half..half + i] + was[half + i..]
  }

  lemma {:induction false} TurnOne<F>(was: seq<F>, want: seq<F>, half: nat, i: nat)
    requires |was| == |want| == 2 * half && i < half
    ensures Turned(was, want, half, i)[i] == was[i] && Turned(was, want, half, i)[i + half] == was[i + half]
    ensures Turned(was, want, half, i)[i := want[i]][i + half := want[i + half]] == Turned(was, want, half, i + 1)
  {
    var a, b := Turned(was, want, half, i)[i := want[i]][i + half := want[i + half]], Turned(was, want, half, i + 1);
    assert |a| == |b| && forall k :: 0 <= k < 2 * half ==> a[k] == b[k];
  }

  /** Rotating the next pair of a head with its first i pairs turned. */
  lemma {:induction false} PairTurns<F>(ops: Ops<F>, was: seq<F>, half: nat, cos: seq<F>, sin: seq<F>, i: nat)
    requires |was| == 2 * half && |cos| == |sin| == half && i < half
    ensures var want := Rotate(ops, was, cos, sin, half);
            var m := Turned(was, want, half, i);
            m[i := Low(ops, m[i], m[i + half], cos[i], sin[i])][i + half :=
                High(ops, m[i], m[i + half], cos[i], sin[i])]
            == Turned(was, want, half, i + 1)
  {
    hide Turned, Low, High;
    TurnOne(was, Rotate(ops, was, cos, sin, half), half, i);
  }

  method RotatePair<F>(ops: Ops<F>, x: array<F>, at: nat, half: nat, i: nat, c: F, s: F)
    requires at + 2 * half <= x.Length && i < half
    modifies x
    ensures var m := old(x[at..at + 2 * half]);
            x[at..at + 2 * half] == m[i := Low(ops, m[i], m[i + half], c, s)][i + half :=
                High(ops, m[i], m[i + half], c, s)]
    ensures SameOutside(x[..], old(x[..]), at, 2 * half)
  {
    var lo, hi := at + i, at + i + half;
    var xLo, xHi := x[lo], x[hi];
    x[lo] := ops.sub(ops.mul(xLo, c), ops.mul(xHi, s));
    x[hi] := ops.add(ops.mul(xLo, s), ops.mul(xHi, c));
  }

  /** One head: both cells of a pair are read before either is written. */
  method RotateHead<F>(ops: Ops<F>, x: array<F>, at: nat, half: nat, cos: seq<F>, sin: seq<F>)
    requires at + 2 * half <= x.Length && |cos| == |sin| == half
    modifies x
    ensures x[at..at + 2 * half] == Rotate(ops, old(x[at..at + 2 * half]), cos, sin, half)
    ensures SameOutside(x[..], old(x[..]), at, 2 * half)
  {
    hide Turned, SameOutside, Rotate, Low, High;
    SameOutsideSelf(x[..], at, 2 * half);
    ghost var was := x[at..at + 2 * half];
    ghost var want := Rotate(ops, was, cos, sin, half);
    TurnedEnds(was, want, half);
    for i := 0 to half
      invariant x[at..at + 2 * half] == Turned(was, want, half, i)
      invariant SameOutside(x[..], old(x[..]), at, 2 * half)
    {
      PairTurns(ops, was, half, cos, sin, i);
      ghost var before := x[..];
      RotatePair(ops, x, at, half, i, cos[i], sin[i]);
      SameOutsideWithin(old(x[..]), before, x[..], at, 2 * half, 0, 2 * half);
    }
  }

  lemma {:induction false} TurnedEnds<F>(was: seq<F>, want: seq<F>, half: nat)
    requires |was| == |want| == 2 * half
    ensures Turned(was, want, half, 0) == was && Turned(was, want, half, half) == want
  {}

  /** The rotated heads of one row of activations. */
  function RotatedHeads<F>(ops: Ops<F>, x: seq<F>, heads: nat, half: nat, cos: seq<F>, sin: seq<F>): (w: seq<seq<F>>)
    requires |x| == Times(heads, 2 * half) && |cos| == |sin| == half
    ensures |w| == heads
  {
    seq(heads, h requires 0 <= h < heads => SlotBound(h, heads, 2 * half); Rotate(ops, Block(x, h, 2 * half), cos, sin,
        half))
  }

  /** Over the whole slice, head after head. */
  method ApplyRopeTables<F>(ops: Ops<F>, x: array<F>, heads: nat, half: nat, cos: seq<F>, sin: seq<F>)
    requires x.Length == Times(heads, 2 * half) && |cos| == |sin| == half && 0 < half
    modifies x
    ensures Wrote(old(x[..]), x[..], RotatedHeads(ops, old(x[..]), heads, half, cos, sin), 2 * half, 0, heads)
  {
    hide Rotate, Times;
    var offset: nat := 0;
    ghost var h: nat := 0;
    ghost var was := x[..];
    ghost var want := RotatedHeads(ops, was, heads, half, cos, sin);
    TimesZero(2 * half);
    while offset < x.Length
      invariant h <= heads && offset == Times(h, 2 * half)
      invariant Wrote(was, x[..], want, 2 * half, 0, h)
      decreases heads - h
    {
      if h == heads { assert false; }
      SlotBound(h, heads, 2 * half);
      Untouched(was, x[..], want, 2 * half, h);
      ghost var before := x[..];
      RotateHead(ops, x, offset, half, cos, sin);
      WroteMore(was, before, x[..], want, 2 * half, 0, h);
      TimesNext(h, 2 * half);
      offset := offset + 2 * half;
      h := h + 1;
    }
    if h < heads { SlotBound(h, heads, 2 * half); }
  }

  /** A block not yet written is as it was. */
  lemma {:induction false} Untouched<F>(was: seq<F>, now: seq<F>, want: seq<seq<F>>, dim: nat, h: nat)
    requires Wrote(was, now, want, dim, 0, h) && Times(h, dim) + dim <= |was|
    ensures Block(now, h, dim) == Block(was, h, dim)
  {}

  datatype Refusal = ZeroDim | OddDim | BadLength | FewFactors | BadFactor(index: nat)

  function Validate(len: nat, dim: nat): Option<Refusal> {
    if dim == 0 then Some(ZeroDim)
    else if dim % 2 != 0 then Some(OddDim)
    else if len == 0 || Rem(len, dim) != 0 then Some(BadLength)
    else None
  }

  /** rope_apply_inplace: a slice of the wrong shape is refused and left alone. */
  method RopeApplyInplace<F>(ops: Ops<F>, a: Angles<F>, x: array<F>, dim: nat,
                             position: nat) returns (refusal: Option<Refusal>)
    modifies x
    ensures refusal == Validate(x.Length, dim)
    ensures refusal.Some? ==> x[..] == old(x[..])
    ensures refusal.None? ==>
              var heads, half := Quot(x.Length, dim), dim / 2;
              && x.Length == Times(heads, dim)
              && Wrote(old(x[..]), x[..],
                       RotatedHeads(ops, old(x[..]), heads, half, CosTable(ops, a, half, position),
                           SinTable(ops, a, half, position)),
                       dim, 0, heads)
  {
    hide RotatedHeads, Wrote, CosTable, SinTable, Times, Quot, Rem;
    refusal := Validate(x.Length, dim);
    if refusal.Some? { return; }
    QuotRem(x.Length, dim);
    var cos, sin := RopeTrigTables(ops, a, dim / 2, position);
    ApplyRopeTables(ops, x, Quot(x.Length, dim), dim / 2, cos, sin);
  }

  /** `is_finite() && > 0.0` of a factor is `usable`. */
  function ValidateFactors<F>(factors: seq<F>, half: nat, usable: F -> bool, from: nat): Option<Refusal>
    requires from <= half
    decreases half - from
  {
    if |factors| < half then Some(FewFactors)
    else if from == half then None
    else if !usable(factors[from]) then Some(BadFactor(from))
    else ValidateFactors(factors, half, usable, from + 1)
  }

  /** Only the factors that are used are looked at, and the first bad one is reported. */
  lemma {:induction false} FactorsChecked<F>(factors: seq<F>, half: nat, usable: F -> bool, from: nat)
    requires from <= half <= |factors|
    ensures ValidateFactors(factors, half, usable, from).None? <==> forall i :: from <= i < half ==> usable(factors[i])
    ensures ValidateFactors(factors, half, usable, from).Some? ==>
              var r := ValidateFactors(factors, half, usable, from).value;
              && r.BadFactor? && from <= r.index < half && !usable(factors[r.index])
              && forall i :: from <= i < r.index ==> usable(factors[i])
    decreases half - from
  {
    if from < half && usable(factors[from]) { FactorsChecked(factors, half, usable, from + 1); }
  }

  /** rope_apply_inplace_with_factors */
  method RopeApplyFactored<F>(ops: Ops<F>, a: Angles<F>, x: array<F>, dim: nat, position: nat, factors: seq<F>,
                              usable: F -> bool)
    returns (refusal: Option<Refusal>)
    modifies x
    ensures refusal == if Validate(x.Length, dim).Some? then Validate(x.Length, dim)
                       else ValidateFactors(factors, dim / 2, usable, 0)
    ensures refusal.Some? ==> x[..] == old(x[..])
    ensures refusal.None? ==>
              var heads, half, b := Quot(x.Length, dim), dim / 2, WithFactors(ops, a, factors);
              && x.Length == Times(heads, dim)
              && Wrote(old(x[..]), x[..],
                       RotatedHeads(ops, old(x[..]), heads, half, CosTable(ops, b, half, position),
                           SinTable(ops, b, half, position)),
                       dim, 0, heads)
  {
    hide RotatedHeads, Wrote, CosTable, SinTable, Times, Quot, Rem, WithFactors;
    refusal := Validate(x.Length, dim);
    if refusal.Some? { return; }
    refusal := ValidateFactors(factors, dim / 2, usable, 0);
    if refusal.Some? { return; }
    QuotRem(x.Length, dim);
    var cos, sin := FactoredTables(ops, a, dim / 2, position, factors);
    ApplyRopeTables(ops, x, Quot(x.Length, dim), dim / 2, cos, sin);
  }

  // ---- the batched kernel ----

  /** A whole `[positions * heads, dim]` tensor and its tables, `[positions, half]` each. */
  datatype Batch<!F> = Batch(ops: Ops<F>, x: seq<F>, cos: seq<F>, sin: seq<F>, positions: nat, heads: nat, half: nat) {
    ghost predicate Valid() {
      0 < half && 0 < heads && |x| == Times(Rows(), 2 * half) && |cos| == |sin| == Times(positions, half)
    }

    function Rows(): nat { Times(positions, heads) }

    function Want(row: nat): (y: seq<F>)
      requires Valid() && row < Rows()
      ensures |y| == 2 * half
    {
      QuotBound(row, positions, heads);
      SlotBound(row, Rows(), 2 * half);
      SlotBound(Quot(row, heads), positions, half);
      Rotate(ops, Block(x, row, 2 * half), Block(cos, Quot(row, heads), half), Block(sin, Quot(row, heads), half), half)
    }
  }

  /** Cell c of the output, by the row and column it belongs to. */
  ghost predicate CellIs<F>(b: Batch<F>, out: seq<F>, c: nat)
    requires b.Valid()
  {
    |out| == |b.x| && c < |out| && Quot(c, 2 * b.half) < b.Rows() && Rem(c, 2 * b.half) < 2 * b.half
    && out[c] == b.Want(Quot(c, 2 * b.half))[Rem(c, 2 * b.half)]
  }

  function LoOf<F>(b: Batch<F>, pair: nat): nat
    requires 0 < b.half
  {
    Times(Quot(pair, b.half), 2 * b.half) + Rem(pair, b.half)
  }

  /** From `a` to `c`, the two cells of the pair were written with their values and nothing else; a
      surplus thread of the grid changes nothing. */
  ghost predicate PairWrote<F>(b: Batch<F>, pair: nat, a: seq<F>, c: seq<F>)
    requires b.Valid()
  {
    if pair < Times(b.Rows(), b.half) then
      var lo := LoOf(b, pair);
      && CellIs(b, c, lo) && CellIs(b, c, lo + b.half)
      && forall i :: 0 <= i < |a| == |c| && i != lo && i != lo + b.half ==> c[i] == a[i]
    else c == a
  }

  lemma {:induction false} PairBounds<F>(b: Batch<F>, pair: nat)
    requires b.Valid() && pair < Times(b.Rows(), b.half)
    ensures var row, i := Quot(pair, b.half), Rem(pair, b.half);
            var position := Quot(row, b.heads);
            && row < b.Rows() && i < b.half && position < b.positions
            && LoOf(b, pair) == Times(row, 2 * b.half) + i && LoOf(b, pair) + b.half < |b.x|
            && Times(row, 2 * b.half) + 2 * b.half <= |b.x|
            && Times(position, b.half) + b.half <= |b.cos|
            && Quot(LoOf(b, pair), 2 * b.half) == row && Rem(LoOf(b, pair), 2 * b.half) == i
            && Quot(LoOf(b, pair) + b.half, 2 * b.half) == row && Rem(LoOf(b, pair) + b.half, 2 * b.half) == i + b.half
  {
    hide Times, Quot, Rem;
    QuotBound(pair, b.Rows(), b.half);
    var row, i := Quot(pair, b.half), Rem(pair, b.half);
    QuotBound(row, b.positions, b.heads);
    SlotBound(row, b.Rows(), 2 * b.half);
    SlotBound(Quot(row, b.heads), b.positions, b.half);
    QuotJoin(row, i, 2 * b.half);
    QuotJoin(row, i + b.half, 2 * b.half);
  }

  lemma {:induction false} PairValues<F>(b: Batch<F>, pair: nat)
    requires b.Valid() && pair < Times(b.Rows(), b.half)
    ensures var row, i := Quot(pair, b.half), Rem(pair, b.half);
            var at := Times(Quot(row, b.heads), b.half) + i;
            var lo := LoOf(b, pair);
            && row < b.Rows() && i < b.half && at < |b.cos| && at < |b.sin| && lo + b.half < |b.x|
            && b.Want(row)[i] == Low(b.ops, b.x[lo], b.x[lo + b.half], b.cos[at], b.sin[at])
            && b.Want(row)[i + b.half] == High(b.ops, b.x[lo], b.x[lo + b.half], b.cos[at], b.sin[at])
  {
    hide Times, Quot, Rem, Rotate, Block, Low, High;
    PairBounds(b, pair);
    var row, i := Quot(pair, b.half), Rem(pair, b.half);
    var position := Quot(row, b.heads);
    BlockAt(b.x, row, 2 * b.half, i);
    BlockAt(b.x, row, 2 * b.half, i + b.half);
    BlockAt(b.cos, position, b.half, i);
    BlockAt(b.sin, position, b.half, i);
  }

  method RopePair<F>(b: Batch<F>, pair: nat, out: array<F>)
    requires b.Valid() && out.Length == |b.x|
    modifies out
    ensures PairWrote(b, pair, old(out[..]), out[..])
  {
    hide Times, Quot, Rem, Rotate, PairWrote;
    if pair >= Times(b.Rows(), b.half) {
      Surplus(b, pair, out[..]);
      return;
    }
    PairBounds(b, pair);
    ghost var was := out[..];
    var row := Quot(pair, b.half);
    QuotRem(pair, b.half);
    var i := pair - Times(row, b.half);
    var position := Quot(row, b.heads);
    var lo := Times(row, 2 * b.half) + i;
    var hi := lo + b.half;
    var c, s := b.cos[Times(position, b.half) + i], b.sin[Times(position, b.half) + i];
    var xLo, xHi := b.x[lo], b.x[hi];
    out[lo] := b.ops.sub(b.ops.mul(xLo, c), b.ops.mul(xHi, s));
    out[hi] := b.ops.add(b.ops.mul(xLo, s), b.ops.mul(xHi, c));
    PairStored(b, pair, was, out[..]);
  }

  lemma {:induction false} Surplus<F>(b: Batch<F>, pair: nat, out: seq<F>)
    requires b.Valid() && pair >= Times(b.Rows(), b.half)
    ensures PairWrote(b, pair, out, out)
  {}

  /** Both cells of a pair, by the values the kernel computes for them. */
  lemma {:induction false} PairStored<F>(b: Batch<F>, pair: nat, was: seq<F>, now: seq<F>)
    requires b.Valid() && pair < Times(b.Rows(), b.half) && |was| == |now| == |b.x|
    requires LoOf(b, pair) + b.half < |b.x| && Times(Quot(Quot(pair, b.half), b.heads), b.half)
        + Rem(pair, b.half) < |b.cos|
    requires var at, lo := Times(Quot(Quot(pair, b.half), b.heads), b.half) + Rem(pair, b.half), LoOf(b, pair);
             now == was[lo := Low(b.ops, b.x[lo], b.x[lo + b.half], b.cos[at], b.sin[at])]
                       [lo + b.half := High(b.ops, b.x[lo], b.x[lo + b.half], b.cos[at], b.sin[at])]
    ensures PairWrote(b, pair, was, now)
  {
    hide Times, Quot, Rem, Rotate, LoOf, Low, High;
    PairBounds(b, pair);
    PairValues(b, pair);
  }

  ghost predicate PairIs<F>(b: Batch<F>, out: seq<F>, pair: nat)
    requires b.Valid()
  {
    CellIs(b, out, LoOf(b, pair)) && CellIs(b, out, LoOf(b, pair) + b.half)
  }

  /** Every pair's thread runs, in any order and any number of times. */
  method LaunchRope<F>(b: Batch<F>, schedule: seq<nat>, out: array<F>)
    requires b.Valid() && out.Length == |b.x|
    requires forall p :: 0 <= p < Times(b.Rows(), b.half) ==> p in schedule
    modifies out
    ensures forall r :: 0 <= r < b.Rows() ==> BlockIs(out[..], r, 2 * b.half, b.Want(r))
  {
    hide Times, Quot, Rem, Rotate, LoOf, Block;
    for n := 0 to |schedule|
      invariant forall p :: 0 <= p < Times(b.Rows(), b.half) && p in schedule[..n] ==> PairIs(b, out[..], p)
    {
      ghost var before := out[..];
      RopePair(b, schedule[n], out);
      forall p | 0 <= p < Times(b.Rows(), b.half) && p in schedule[..n + 1] ensures PairIs(b, out[..], p) {
        PairStays(b, before, out[..], schedule[n], p);
      }
    }
    assert schedule[..|schedule|] == schedule;
    forall r | 0 <= r < b.Rows() ensures BlockIs(out[..], r, 2 * b.half, b.Want(r)) {
      PairsMakeRow(b, out[..], r);
    }
  }

  lemma {:induction false} PairStays<F>(b: Batch<F>, before: seq<F>, after: seq<F>, pair: nat, p: nat)
    requires b.Valid() && PairWrote(b, pair, before, after) && |before| == |after| && p < Times(b.Rows(), b.half)
    requires p == pair || PairIs(b, before, p)
    ensures PairIs(b, after, p)
  {
    hide Times, Quot, Rem, Rotate, LoOf;
  }

  lemma {:induction false} PairsMakeRow<F>(b: Batch<F>, out: seq<F>, r: nat)
    requires b.Valid() && r < b.Rows() && |out| == |b.x|
    requires forall p :: 0 <= p < Times(b.Rows(), b.half) ==> PairIs(b, out, p)
    ensures BlockIs(out, r, 2 * b.half, b.Want(r))
  {
    hide Times, Quot, Rem, Rotate;
    SlotBound(r, b.Rows(), 2 * b.half);
    SlotBound(r, b.Rows(), b.half);
    var row := Block(out, r, 2 * b.half);
    forall d | 0 <= d < 2 * b.half ensures row[d] == b.Want(r)[d] {
      var i := if d < b.half then d else d - b.half;
      var p := Times(r, b.half) + i;
      QuotJoin(r, i, b.half);
      PairBounds(b, p);
      assert PairIs(b, out, p);
    }
  }
}
