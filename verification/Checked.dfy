/** `usize` arithmetic that reports an overflow instead of wrapping. */
module Checked {
  import opened Index

  datatype Result<T> = Ok(value: T) | Err

  datatype Option<T> = None | Some(value: T)

  /** usize::MAX + 1 */
  const LIMIT: nat := 0x1_0000_0000_0000_0000

  function CheckedMul(a: nat, b: nat): Result<nat> { if Times(a, b) < LIMIT then Ok(Times(a, b)) else Err }

  function CheckedAdd(a: nat, b: nat): Result<nat> { if a + b < LIMIT then Ok(a + b) else Err }

  /** dims.iter().try_fold(1, checked_mul) */
  function CheckedProduct(dims: seq<nat>): Result<nat> {
    if |dims| == 0 then Ok(1)
    else
      match CheckedProduct(dims[..|dims| - 1])
      case Ok(p) => CheckedMul(p, dims[|dims| - 1])
      case Err => Err
  }

  function Product(dims: seq<nat>): nat {
    if |dims| == 0 then 1 else Times(Product(dims[..|dims| - 1]), dims[|dims| - 1])
  }

  ghost predicate PrefixesFit(dims: seq<nat>) {
    forall n :: 0 <= n <= |dims| ==> Product(dims[..n]) < LIMIT
  }

  /** Every product on the way must fit: a zero further right does not save an overflow. */
  lemma {:induction false} CheckedProductExact(dims: seq<nat>)
    ensures CheckedProduct(dims) == if PrefixesFit(dims) then Ok(Product(dims)) else Err
  {
    if |dims| == 0 {
      assert forall n :: 0 <= n <= |dims| ==> dims[..n] == [];
    } else {
      var front := dims[..|dims| - 1];
      CheckedProductExact(front);
      assert forall n :: 0 <= n <= |front| ==> dims[..n] == front[..n];
      assert dims[..|dims|] == dims;
      assert PrefixesFit(dims) <==> PrefixesFit(front) && Product(dims) < LIMIT by {
        if PrefixesFit(dims) {
          forall n | 0 <= n <= |front| ensures Product(front[..n]) < LIMIT { assert dims[..n] == front[..n]; }
          assert Product(dims[..|dims|]) < LIMIT;
        }
      }
    }
  }

  ghost predicate AllPositive(dims: seq<nat>) { forall i :: 0 <= i < |dims| ==> 0 < dims[i] }

  lemma {:induction false} PrefixIsSmaller(dims: seq<nat>, n: nat)
    requires AllPositive(dims) && n <= |dims|
    ensures 0 < Product(dims[..n]) <= Product(dims)
  {
    if n == |dims| {
      assert dims[..n] == dims;
      if n > 0 {
        PrefixIsSmaller(dims[..n - 1], n - 1);
        assert dims[..n - 1][..n - 1] == dims[..n - 1];
        TimesPositive(Product(dims[..n - 1]), dims[n - 1]);
      }
    } else {
      var front := dims[..|dims| - 1];
      PrefixIsSmaller(front, n);
      assert front[..n] == dims[..n];
      TimesMonotone(1, dims[|dims| - 1], Product(front));
      TimesComm(dims[|dims| - 1], Product(front));
    }
  }

  /** With no zero among the factors the check fails exactly when the product does not fit. */
  lemma {:induction false} ProductOverflowIff(dims: seq<nat>)
    requires AllPositive(dims)
    ensures CheckedProduct(dims) == if Product(dims) < LIMIT then Ok(Product(dims)) else Err
  {
    hide Product;
    CheckedProductExact(dims);
    forall n | 0 <= n <= |dims| ensures Product(dims[..n]) <= Product(dims) { PrefixIsSmaller(dims, n); }
    assert dims[..|dims|] == dims;
  }

  lemma {:induction false} ZeroDoesNotSave()
    ensures CheckedProduct([0x1_0000_0000, 0x1_0000_0000, 0]) == Err && Product([0x1_0000_0000, 0x1_0000_0000, 0]) == 0
  {
    var a: nat := 0x1_0000_0000;
    hide Times;
    ProductOfThree(a, a, 0);
    TimesIsProduct(1, a);
    TimesIsProduct(a, a);
    TimesIsProduct(Times(Times(1, a), a), 0);
  }

  lemma {:induction false} ProductOfThree(a: nat, b: nat, c: nat)
    ensures Product([a, b, c]) == Times(Times(Times(1, a), b), c)
    ensures CheckedProduct([a, b, c]) == Err <==>
              Times(1, a) >= LIMIT || Times(Times(1, a), b) >= LIMIT || Times(Times(Times(1, a), b), c) >= LIMIT
  {
    hide Times;
    assert [a, b, c][..2] == [a, b] && [a, b][..1] == [a] && [a][..0] == [];
    assert Product([]) == 1 && CheckedProduct([]) == Ok(1);
    assert Product([a]) == Times(1, a) && CheckedProduct([a]) == CheckedMul(1, a);
    assert Product([a, b]) == Times(Times(1, a), b);
  }

  lemma {:induction false} ProductOfTwo(a: nat, b: nat)
    ensures Product([a, b]) == Times(a, b)
  {
    assert [a, b][..1] == [a] && [a][..0] == [];
    assert Product([a]) == Times(1, a) && CheckedProduct([a]) == CheckedMul(1, a);
    TimesOne(a);
  }

  /** A checked product of two factors, zero or not. */
  lemma {:induction false} Two(a: nat, b: nat)
    requires a < LIMIT
    ensures CheckedProduct([a, b]) == CheckedMul(a, b)
  {
    assert [a, b][..1] == [a] && [a][..0] == [];
    assert Product([a]) == Times(1, a) && CheckedProduct([a]) == CheckedMul(1, a);
    TimesOne(a);
  }

  lemma {:induction false} Three(a: nat, b: nat, c: nat)
    requires Times(a, b) < LIMIT && a < LIMIT
    ensures CheckedProduct([a, b, c]) == CheckedMul(Times(a, b), c)
  {
    hide Times;
    assert [a, b, c][..2] == [a, b] && [a, b][..1] == [a] && [a][..0] == [];
    assert CheckedProduct([]) == Ok(1);
    TimesOne(a);
    assert CheckedProduct([a]) == CheckedMul(1, a);
    assert CheckedProduct([a, b]) == CheckedMul(a, b);
  }
}
