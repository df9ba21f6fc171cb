/** Widening a half-precision number to single precision is exact: same sign, same value, infinities
    to infinities and NaN payloads kept. Formats of section 3.4 of IEEE 754-2019. */
module HalfFloat {

  function Pow2(e: int): (p: real)
    ensures p > 0.0
    decreases if e < 0 then -e else e
  {
    if e == 0 then 1.0 else if e > 0 then 2.0 * Pow2(e - 1) else Pow2(e + 1) / 2.0
  }

  lemma {:induction false} Pow2Next(e: int)
    ensures Pow2(e + 1) == 2.0 * Pow2(e)
  {}

  /** Fields of the two formats. */
  function Sign16(b: nat): (s: nat)
    ensures s < 2
  {
    b / 0x8000 % 2
  }

  function Exp16(b: nat): (e: nat)
    ensures e < 0x20
  {
    b / 0x400 % 0x20
  }

  function Frac16(b: nat): (f: nat)
    ensures f < 0x400
  {
    b % 0x400
  }

  function Sign32(b: nat): nat { b / 0x8000_0000 % 2 }

  function Exp32(b: nat): nat { b / 0x80_0000 % 0x100 }

  function Frac32(b: nat): nat { b % 0x80_0000 }

  /** Magnitudes of finite numbers. */
  function Value16(b: nat): real {
    if Exp16(b) == 0 then Frac16(b) as real * Pow2(-24) else (0x400 + Frac16(b)) as real * Pow2(Exp16(b) - 25)
  }

  function Value32(b: nat): real {
    if Exp32(b) == 0 then Frac32(b) as real * Pow2(-149) else (0x80_0000 + Frac32(b)) as real * Pow2(Exp32(b) - 150)
  }

  /** sign | exp << 23 | frac << 13 : the fields do not overlap. */
  function Assemble(sign: nat, exp: nat, frac: nat): (b: nat)
    requires sign < 2 && exp < 0x100 && frac < 0x400
    ensures b < 0x1_0000_0000
    ensures Sign32(b) == sign && Exp32(b) == exp && Frac32(b) == 0x2000 * frac
  {
    sign * 0x8000_0000 + exp * 0x80_0000 + frac * 0x2000
  }

  lemma {:induction false} ThirteenUp(e: int)
    ensures Pow2(e + 13) == 8192.0 * Pow2(e)
  {
    Pow2Next(e); Pow2Next(e + 1); Pow2Next(e + 2); Pow2Next(e + 3); Pow2Next(e + 4);
    Pow2Next(e + 5); Pow2Next(e + 6); Pow2Next(e + 7); Pow2Next(e + 8); Pow2Next(e + 9);
    Pow2Next(e + 10); Pow2Next(e + 11); Pow2Next(e + 12);
  }

  /** A single with exponent E and the ten leading fraction bits f is (1024 + f) * 2^(E - 137). */
  lemma {:induction false} SingleIs(b: nat, sign: nat, exp: nat, frac: nat)
    requires sign < 2 && 0 < exp < 0x100 && frac < 0x400 && b == Assemble(sign, exp, frac)
    ensures Value32(b) == (0x400 + frac) as real * Pow2(exp - 137)
  {
    ThirteenUp(exp - 150);
    assert (0x80_0000 + 0x2000 * frac) as real == 8192.0 * (0x400 + frac) as real;
  }

  function Shift(n: nat): nat { if n == 0 then 1 else 2 * Shift(n - 1) }

  lemma {:induction false} ShiftGrows(n: nat)
    requires n > 10
    ensures Shift(n) >= 2048
  {
    if n > 11 {
      ShiftGrows(n - 1);
    } else {
      assert Shift(2) == 4 && Shift(4) == 16 && Shift(6) == 64 && Shift(8) == 256 && Shift(10) == 1024;
    }
  }

  /** Moving the point one place changes nothing. */
  lemma {:induction false} ShiftOne(norm: nat, exp: int, value: real)
    requires norm as real * Pow2(exp - 10) == value
    ensures (2 * norm) as real * Pow2(exp - 1 - 10) == value
  {
    Pow2Next(exp - 11);
    hide Pow2;
  }

  lemma {:induction false} ShiftNext(n: nat)
    ensures Shift(n + 1) == 2 * Shift(n)
  {}

  /** The leading one of a subnormal fraction is shifted up to bit 10. */
  method Normalize(frac: nat) returns (norm: nat, exp: int)
    requires 0 < frac < 0x400
    ensures 0x400 <= norm < 0x800 && -24 <= exp < -14
    ensures norm as real * Pow2(exp - 10) == frac as real * Pow2(-24)
  {
    hide Pow2, Shift;
    ghost var value := frac as real * Pow2(-24);
    norm, exp := frac, -14;
    assert Shift(0) == 1 by { ShiftZero(); }
    while norm / 0x400 % 2 == 0
      invariant 0 < norm < 0x800 && exp <= -14 && norm >= Shift(-14 - exp)
      invariant exp == -14 ==> norm < 0x400
      invariant norm / 0x400 % 2 == 0 <==> norm < 0x400
      invariant norm as real * Pow2(exp - 10) == value
      decreases 0x800 - norm
    {
      ShiftOne(norm, exp, value);
      ShiftNext(-14 - exp);
      norm := 2 * norm;
      exp := exp - 1;
    }
    if exp < -24 { ShiftGrows(-14 - exp); }
  }

  lemma {:induction false} ShiftZero()
    ensures Shift(0) == 1
  {}

  /** What widening must keep. */
  ghost predicate Widened(bits: nat, b: nat) {
    && b < 0x1_0000_0000 && Sign32(b) == Sign16(bits)
    && (Exp16(bits) == 0x1f <==> Exp32(b) == 0xff)
    && (Exp16(bits) == 0x1f ==> Frac32(b) == 0x2000 * Frac16(bits))
    && (Exp16(bits) != 0x1f ==> Value32(b) == Value16(bits))
  }

  lemma {:induction false} ZeroWidens(bits: nat)
    requires bits < 0x1_0000 && Exp16(bits) == 0 && Frac16(bits) == 0
    ensures Widened(bits, Assemble(Sign16(bits), 0, 0))
  {
    hide Assemble, Sign16, Exp16, Frac16, Sign32, Exp32, Frac32, Pow2;
  }

  lemma {:induction false} SubnormalWidens(bits: nat, norm: nat, e: int)
    requires bits < 0x1_0000 && Exp16(bits) == 0 && 0x400 <= norm < 0x800 && -24 <= e < -14
    requires norm as real * Pow2(e - 10) == Frac16(bits) as real * Pow2(-24)
    ensures Widened(bits, Assemble(Sign16(bits), e + 127, norm - 0x400))
  {
    hide Assemble, Sign16, Exp16, Frac16, Sign32, Exp32, Frac32, Pow2, Value32;
    SingleIs(Assemble(Sign16(bits), e + 127, norm - 0x400), Sign16(bits), e + 127, norm - 0x400);
  }

  lemma {:induction false} NormalWidens(bits: nat)
    requires bits < 0x1_0000 && 0 < Exp16(bits) < 0x1f
    ensures Widened(bits, Assemble(Sign16(bits), Exp16(bits) + (127 - 15), Frac16(bits)))
  {
    hide Assemble, Sign16, Exp16, Frac16, Sign32, Exp32, Frac32, Pow2, Value32;
    SingleIs(Assemble(Sign16(bits), Exp16(bits) + 112, Frac16(bits)), Sign16(bits), Exp16(bits) + 112, Frac16(bits));
  }

  lemma {:induction false} SpecialWidens(bits: nat)
    requires bits < 0x1_0000 && Exp16(bits) == 0x1f
    ensures Widened(bits, Assemble(Sign16(bits), 0xff, Frac16(bits)))
  {
    hide Assemble, Sign16, Exp16, Frac16, Sign32, Exp32, Frac32;
  }

  /** f16_bits_to_f32 */
  method HalfToSingle(bits: nat) returns (b: nat)
    requires bits < 0x1_0000
    ensures Widened(bits, b)
  {
    hide Widened, Assemble, Sign16, Exp16, Frac16, Pow2;
    var sign, exp, frac := Sign16(bits), Exp16(bits), Frac16(bits);
    if exp == 0 {
      if frac == 0 {
        ZeroWidens(bits);
        b := Assemble(sign, 0, 0);
      } else {
        var norm, e := Normalize(frac);
        SubnormalWidens(bits, norm, e);
        b := Assemble(sign, e + 127, norm - 0x400);
      }
    } else if exp == 0x1f {
      SpecialWidens(bits);
      b := Assemble(sign, 0xff, frac);
    } else {
      NormalWidens(bits);
      b := Assemble(sign, exp + (127 - 15), frac);
    }
  }
}
