/** Rounding, and arithmetic that rounds every result once. */
module Rounding {
  import opened Arithmetic

  function Abs(x: real): real { if x < 0.0 then -x else x }

  /** roundTiesToEven, section 4.3.1 of IEEE 754-2019. */
  ghost predicate IsRoundTiesToEven(x: real, n: int) {
    Abs(x - n as real) <= 0.5 && (Abs(x - n as real) == 0.5 ==> n % 2 == 0)
  }

  function RoundTiesToEven(x: real): (n: int)
    ensures IsRoundTiesToEven(x, n)
  {
    var f := x.Floor;
    var r := x - f as real;
    if r < 0.5 || (r == 0.5 && f % 2 == 0) then f else f + 1
  }

  lemma {:induction false} RoundingIsUnique(x: real, n: int, m: int)
    requires IsRoundTiesToEven(x, n) && IsRoundTiesToEven(x, m)
    ensures n == m
  {}

  /** Onto the numbers a format has: in order, and leaving those numbers alone. */
  ghost predicate IsRounding(round: real -> real) {
    && round(0.0) == 0.0 && round(1.0) == 1.0
    && (forall x :: round(round(x)) == round(x))
    && (forall x, y :: x <= y ==> round(x) <= round(y))
  }

  /** Every operation is the exact one, rounded once; a fused product is rounded once where the product
      and the sum are rounded in turn. */
  function RoundOps(round: real -> real, exp: real -> real): Ops<real> {
    Ops(0.0, 1.0,
        (a, b) => round(a + b), (a, b) => round(a - b), (a, b) => round(a * b),
        (a, b) => if b == 0.0 then 0.0 else round(a / b),
        (a, b, c) => round(a * b + c),
        (a, b) => if b > a then b else a,
        (a, b) => a > b, exp)
  }

  /** Fixed point with a step of one half, ties to even. */
  function Halves(x: real): real { RoundTiesToEven(2.0 * x) as real / 2.0 }

  lemma {:induction false} TiesInOrder(x: real, y: real)
    requires x <= y
    ensures RoundTiesToEven(x) <= RoundTiesToEven(y)
  {
    assert x.Floor <= y.Floor;
  }

  lemma {:induction false} HalvesIsRounding()
    ensures IsRounding(Halves)
  {
    forall x ensures Halves(Halves(x)) == Halves(x) {
      var n := RoundTiesToEven(2.0 * x);
      assert 2.0 * Halves(x) == n as real;
      RoundingIsUnique(n as real, n, RoundTiesToEven(n as real));
    }
    forall x, y | x <= y ensures Halves(x) <= Halves(y) { TiesInOrder(2.0 * x, 2.0 * y); }
    HalvesAt();
  }

  /** The roundings the counterexample meets. */
  lemma {:induction false} HalvesAt()
    ensures Halves(-1.0) == -1.0 && Halves(0.0) == 0.0 && Halves(0.25) == 0.0 && Halves(0.5) == 0.5
    ensures Halves(0.75) == 1.0 && Halves(1.0) == 1.0 && Halves(2.0) == 2.0
  {
    RoundingIsUnique(-2.0, -2, RoundTiesToEven(-2.0));
    RoundingIsUnique(0.0, 0, RoundTiesToEven(0.0));
    RoundingIsUnique(0.5, 0, RoundTiesToEven(0.5));
    RoundingIsUnique(1.0, 1, RoundTiesToEven(1.0));
    RoundingIsUnique(1.5, 2, RoundTiesToEven(1.5));
    RoundingIsUnique(2.0, 2, RoundTiesToEven(2.0));
    RoundingIsUnique(4.0, 4, RoundTiesToEven(4.0));
  }
}
