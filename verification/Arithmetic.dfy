/** Two number models in one. Every kernel is written over an arbitrary record of float
    operations: nothing is assumed of them, so an equality proved here holds bit for bit
    under any rounding. `RealOps` is the one instance in which the operations obey algebra. */
module Arithmetic {

  datatype Ops<!F> = Ops(
    zero: F,
    one: F,
    add: (F, F) -> F,
    sub: (F, F) -> F,
    mul: (F, F) -> F,
    div: (F, F) -> F,
    fma: (F, F, F) -> F,
    max: (F, F) -> F,
    gt: (F, F) -> bool,
    exp: F -> F)

  /** The CPU backend's kernel modes. */
  datatype Mode = Scalar | Optimized | Avx2

  /** Its thread pool, if it has one. */
  datatype Pool = NoPool | Pool(threads: nat)

  function RealOps(exp: real -> real): Ops<real> {
    Ops(0.0, 1.0,
        (a, b) => a + b, (a, b) => a - b, (a, b) => a * b,
        (a, b) => if b == 0.0 then 0.0 else a / b,
        (a, b, c) => a * b + c,
        (a, b) => if b > a then b else a,
        (a, b) => a > b, exp)
  }

  /** What the proofs over the reals need of the exponential. */
  ghost predicate ExpLaws(exp: real -> real) {
    && exp(0.0) == 1.0
    && (forall a :: exp(a) > 0.0)
    && (forall a, b :: ExpAdds(exp, a, b))
  }

  ghost predicate ExpAdds(exp: real -> real, a: real, b: real) {
    exp(a + b) == exp(a) * exp(b)
  }

  /** `acc = init; for i in 0..n { acc += x[i] * w[i] }`, in that order. */
  function DotFrom<F>(ops: Ops<F>, init: F, x: seq<F>, w: seq<F>, n: nat): F
    requires n <= |x| && n <= |w|
  {
    if n == 0 then init
    else ops.add(DotFrom(ops, init, x, w, n - 1), ops.mul(x[n - 1], w[n - 1]))
  }

  function Dot<F>(ops: Ops<F>, init: F, x: seq<F>, w: seq<F>): F
    requires |x| == |w|
  {
    DotFrom(ops, init, x, w, |x|)
  }

  /** The real dot product of n terms. */
  function Plain(x: seq<real>, y: seq<real>, n: nat): real
    requires n <= |x| && n <= |y|
  {
    if n == 0 then 0.0 else Plain(x, y, n - 1) + x[n - 1] * y[n - 1]
  }

  lemma {:induction false} DotIsPlain(exp: real -> real, init: real, x: seq<real>, y: seq<real>, n: nat)
    requires n <= |x| && n <= |y|
    ensures DotFrom(RealOps(exp), init, x, y, n) == init + Plain(x, y, n)
  {
    if n > 0 { DotIsPlain(exp, init, x, y, n - 1); }
  }
}
