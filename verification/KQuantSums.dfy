/** Integer sums behind the k-quant dot products. */
module KQuantSums {

  newtype i8 = x: int | -128 <= x < 128
  newtype i32 = x: int | -0x8000_0000 <= x < 0x8000_0000

  const QK_K: nat := 256

  /** One Q8_K block: 256 quants, their scale, and the sums of its sixteen groups of sixteen. */
  datatype Q8 = Q8(d: real, qs: seq<i8>, sums16: seq<i32>) {
    ghost predicate Valid() {
      && |qs| == QK_K && |sums16| == QK_K / 16
      && forall g :: 0 <= g < QK_K / 16 ==> sums16[g] as int == SumOf(qs, 16 * g, 16 * g + 16)
    }
  }

  ghost function SumOf(x: seq<i8>, a: nat, b: nat): int
    requires a <= b <= |x|
  {
    if a == b then 0 else SumOf(x, a, b - 1) + x[b - 1] as int
  }

  /** sum over a <= i < b of x[i] * w[i], over the unbounded integers */
  ghost function IntDot(x: seq<i8>, w: seq<int>, a: nat, b: nat): int
    requires a <= b <= |x| && b <= |w|
  {
    if a == b then 0 else IntDot(x, w, a, b - 1) + x[b - 1] as int * w[b - 1]
  }

  lemma {:induction false} IntDotSplit(x: seq<i8>, w: seq<int>, a: nat, m: nat, b: nat)
    requires a <= m <= b <= |x| && b <= |w|
    ensures IntDot(x, w, a, b) == IntDot(x, w, a, m) + IntDot(x, w, m, b)
  {
    if m < b { IntDotSplit(x, w, a, m, b - 1); }
  }

  lemma {:induction false} IntDotSame(x: seq<i8>, w: seq<int>, w': seq<int>, a: nat, b: nat)
    requires a <= b <= |x| && b <= |w| && b <= |w'|
    requires forall i :: a <= i < b ==> w[i] == w'[i]
    ensures IntDot(x, w, a, b) == IntDot(x, w', a, b)
  {
    if a < b { IntDotSame(x, w, w', a, b - 1); }
  }

  /** A constant factor of the weights comes out. */
  lemma {:induction false} IntDotScale(x: seq<i8>, w: seq<int>, w': seq<int>, c: int, a: nat, b: nat)
    requires a <= b <= |x| && b <= |w| && b <= |w'|
    requires forall i :: a <= i < b ==> w'[i] == c * w[i]
    ensures IntDot(x, w', a, b) == c * IntDot(x, w, a, b)
  {
    if a < b {
      IntDotScale(x, w, w', c, a, b - 1);
    }
  }

  /** Weights that differ by a constant differ in the dot by that constant times the plain sum. */
  lemma {:induction false} IntDotShift(x: seq<i8>, w: seq<int>, w': seq<int>, c: int, a: nat, b: nat)
    requires a <= b <= |x| && b <= |w| && b <= |w'|
    requires forall i :: a <= i < b ==> w'[i] == w[i] - c
    ensures IntDot(x, w', a, b) == IntDot(x, w, a, b) - c * SumOf(x, a, b)
  {
    if a < b {
      IntDotShift(x, w, w', c, a, b - 1);
    }
  }

  ghost function Total(aux: seq<i32>, n: nat): int
    requires n <= |aux|
  {
    if n == 0 then 0 else Total(aux, n - 1) + aux[n - 1] as int
  }

  lemma {:induction false} TotalUpdate(aux: seq<i32>, l: nat, v: i32, n: nat)
    requires l < |aux| && n <= |aux|
    ensures Total(aux[l := v], n) == Total(aux, n) + if l < n then v as int - aux[l] as int else 0
  {
    if n > 0 { TotalUpdate(aux, l, v, n - 1); }
  }

  lemma {:induction false} TotalZero(aux: seq<i32>, n: nat)
    requires n <= |aux| && forall i :: 0 <= i < n ==> aux[i] == 0
    ensures Total(aux, n) == 0
  {
    if n > 0 { TotalZero(aux, n - 1); }
  }

  lemma {:induction false} SumOfBound(x: seq<i8>, a: nat, b: nat)
    requires a <= b <= |x|
    ensures -128 * (b - a) <= SumOf(x, a, b) <= 127 * (b - a)
  {
    if a < b { SumOfBound(x, a, b - 1); }
  }

  lemma {:induction false} ProductBound(a: int, b: int, m: int, n: int)
    requires -m <= a <= m && -n <= b <= n
    ensures -(m * n) <= a * b <= m * n
  {
    if a >= 0 {
    } else {
    }
  }

  ghost function Ints(q: seq<i32>): (r: seq<int>)
    ensures |r| == |q|
  {
    seq(|q|, i requires 0 <= i < |q| => q[i] as int)
  }

  predicate SmallQuants(q: seq<i32>) {
    |q| == QK_K && forall i :: 0 <= i < QK_K ==> 0 <= q[i] < 64
  }

  /** The inner sum of four products; no intermediate leaves i32. */
  method ChunkSum(x: seq<i8>, q: seq<i32>, start: nat) returns (sum: i32)
    requires |x| == QK_K && SmallQuants(q) && start + 4 <= QK_K
    ensures sum as int == IntDot(x, Ints(q), start, start + 4) && -32256 <= sum <= 32256
  {
    sum := 0;
    for offset := 0 to 4
      invariant sum as int == IntDot(x, Ints(q), start, start + offset)
      invariant -8064 * offset <= sum as int <= 8064 * offset
    {
      ProductBound(x[start + offset] as int, q[start + offset] as int, 128, 63);
      sum := sum + x[start + offset] as i32 * q[start + offset];
    }
  }

  ghost predicate Bounded(aux: seq<i32>, limit: int) {
    |aux| == 8 && forall l :: 0 <= l < 8 ==> -limit <= aux[l] as int <= limit
  }

  /** Lane l is within `limit` before its turn and within `limit + step` after it. */
  ghost predicate Staircase(aux: seq<i32>, l: nat, limit: int, step: int) {
    |aux| == 8 && forall i :: 0 <= i < 8 ==> (if i < l then -(limit + step) <= aux[i] as int <= limit + step
                                                       else -limit <= aux[i] as int <= limit)
  }

  /** `aux[lane] += delta`, within i32. */
  method AddLane(aux: array<i32>, lane: nat, delta: i32, ghost limit: int, ghost step: int)
    requires aux.Length == 8 && lane < 8 && -step <= delta as int <= step
    requires 0 <= limit <= 100_000_000 && 0 <= step <= 100_000_000 && Staircase(aux[..], lane, limit, step)
    modifies aux
    ensures Staircase(aux[..], lane + 1, limit, step)
    ensures Total(aux[..], 8) == old(Total(aux[..], 8)) + delta as int
  {
    var v := aux[lane] + delta;
    TotalUpdate(aux[..], lane, v, 8);
    aux[lane] := v;
    assert aux[..] == old(aux[..])[lane := v];
  }

  /** Products of quants with weights that are constant over a run. */
  lemma {:induction false} IntDotConst(x: seq<i8>, w: seq<int>, c: int, a: nat, b: nat)
    requires a <= b <= |x| && b <= |w| && forall i :: a <= i < b ==> w[i] == c
    ensures IntDot(x, w, a, b) == c * SumOf(x, a, b)
  {
    if a < b {
      IntDotConst(x, w, c, a, b - 1);
      assert x[b - 1] as int * c + c * SumOf(x, a, b - 1) == c * (SumOf(x, a, b - 1) + x[b - 1] as int);
    }
  }

  lemma {:induction false} EmptyDot(x: seq<i8>, w: seq<int>, a: nat)
    requires a <= |x| && a <= |w|
    ensures IntDot(x, w, a, a) == 0
  {}

  lemma {:induction false} SumBound(q8: Q8, g: nat)
    requires q8.Valid() && g < 16
    ensures -2048 <= q8.sums16[g] as int <= 2048
  {
    SumOfBound(q8.qs, 16 * g, 16 * g + 16);
  }
}
