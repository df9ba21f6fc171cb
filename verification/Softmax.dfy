/** The numerically stable softmax of crates/kernels/src/lib.rs, in place over a prefix. */
module Softmax {
  import opened Arithmetic

  function MaxTo<F>(ops: Ops<F>, s: seq<F>, n: nat): F
    requires 0 < n <= |s|
  {
    if n == 1 then s[0]
    else
      var m := MaxTo(ops, s, n - 1);
      if ops.gt(s[n - 1], m) then s[n - 1] else m
  }

  function Shifted<F>(ops: Ops<F>, s: seq<F>, max: F): (r: seq<F>)
    ensures |r| == |s|
  {
    seq(|s|, i requires 0 <= i < |s| => ops.exp(ops.sub(s[i], max)))
  }

  function SumTo<F>(ops: Ops<F>, s: seq<F>, n: nat): F
    requires n <= |s|
  {
    if n == 0 then ops.zero else ops.add(SumTo(ops, s, n - 1), s[n - 1])
  }

  function Scaled<F>(ops: Ops<F>, s: seq<F>, c: F): (r: seq<F>)
    ensures |r| == |s|
  {
    seq(|s|, i requires 0 <= i < |s| => ops.mul(s[i], c))
  }

  function SoftmaxOf<F>(ops: Ops<F>, s: seq<F>): (r: seq<F>)
    ensures |r| == |s|
  {
    if |s| == 0 then s
    else
      var e := Shifted(ops, s, MaxTo(ops, s, |s|));
      Scaled(ops, e, ops.div(ops.one, SumTo(ops, e, |s|)))
  }

  /** `softmax(&mut x[..n])`: the rest of the buffer, stale or not, is untouched. */
  method SoftmaxInPlace<F>(ops: Ops<F>, x: array<F>, n: nat)
    requires n <= x.Length
    modifies x
    ensures x[..n] == SoftmaxOf(ops, old(x[..n]))
    ensures x[n..] == old(x[n..])
  {
    if n == 0 { return; }
    ghost var s := x[..n];
    var max := x[0];
    for i := 1 to n
      invariant max == MaxTo(ops, s, i)
    {
      if ops.gt(x[i], max) { max := x[i]; }
    }
    ghost var e := Shifted(ops, s, max);
    var sum := ops.zero;
    for i := 0 to n
      invariant sum == SumTo(ops, e, i)
      invariant forall j :: 0 <= j < i ==> x[j] == e[j]
      invariant forall j :: i <= j < x.Length ==> x[j] == old(x[j])
    {
      x[i] := ops.exp(ops.sub(x[i], max));
      sum := ops.add(sum, x[i]);
    }
    var inv := ops.div(ops.one, sum);
    for i := 0 to n
      invariant forall j :: 0 <= j < i ==> x[j] == ops.mul(e[j], inv)
      invariant forall j :: i <= j < n ==> x[j] == e[j]
      invariant forall j :: n <= j < x.Length ==> x[j] == old(x[j])
    {
      x[i] := ops.mul(x[i], inv);
    }
  }
}
