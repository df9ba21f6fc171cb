/** Plain sums over the reals, to say what a kernel computes without its loops, folds or index functions. */
module Sums {
  import opened Arithmetic
  import opened Index

  /** sum over i < n of f(i) */
  ghost function Sum(n: nat, f: nat -> real): real {
    if n == 0 then 0.0 else Sum(n - 1, f) + f(n - 1)
  }

  /** Cell i of a flat buffer. */
  ghost function Cell(s: seq<real>, i: int): real { if 0 <= i < |s| then s[i] else 0.0 }

  lemma {:induction false} CellAt(s: seq<real>, i: nat)
    requires i < |s|
    ensures Cell(s, i) == s[i]
  {}

  lemma {:induction false} SumSame(n: nat, f: nat -> real, g: nat -> real)
    requires forall i :: 0 <= i < n ==> f(i) == g(i)
    ensures Sum(n, f) == Sum(n, g)
  {
    if n > 0 { SumSame(n - 1, f, g); }
  }

  lemma {:induction false} SumZero(n: nat, f: nat -> real)
    requires forall i :: 0 <= i < n ==> f(i) == 0.0
    ensures Sum(n, f) == 0.0
  {
    if n > 0 { SumZero(n - 1, f); }
  }

  lemma {:induction false} PlainIsSum(x: seq<real>, y: seq<real>, n: nat, f: nat -> real)
    requires n <= |x| && n <= |y| && forall e :: 0 <= e < n ==> f(e) == x[e] * y[e]
    ensures Plain(x, y, n) == Sum(n, f)
  {
    if n > 0 { PlainIsSum(x, y, n - 1, f); }
  }

  /** Only the c terms from a on count. */
  lemma {:induction false} SumWindow(n: nat, f: nat -> real, a: nat, c: nat, g: nat -> real)
    requires a + c <= n
    requires forall i :: 0 <= i < n && !(a <= i < a + c) ==> f(i) == 0.0
    requires forall i :: 0 <= i < c ==> f(a + i) == g(i)
    ensures Sum(n, f) == Sum(c, g)
  {
    if n > a + c {
      SumWindow(n - 1, f, a, c, g);
    } else if c > 0 {
      SumWindow(n - 1, f, a, c - 1, g);
      assert f(a + (c - 1)) == g(c - 1);
    } else {
      SumZero(n, f);
    }
  }

  /** Only term p counts. */
  lemma {:induction false} SumOne(n: nat, f: nat -> real, p: nat)
    requires p < n && forall i :: 0 <= i < n && i != p ==> f(i) == 0.0
    ensures Sum(n, f) == f(p)
  {
    var g := (i: nat) => f(p);
    SumWindow(n, f, p, 1, g);
    assert Sum(0, g) == 0.0 && Sum(1, g) == g(0);
  }

  // ---- sums over two and three indices ----

  ghost function Line(f: (nat, nat) -> real, i: nat): nat -> real { (j: nat) => f(i, j) }

  ghost function Plane(f: (nat, nat, nat) -> real, i: nat): (nat, nat) -> real { (j: nat, k: nat) => f(i, j, k) }

  /** sum over i < a and j < b of f(i, j) */
  ghost function Sum2(a: nat, b: nat, f: (nat, nat) -> real): real {
    if a == 0 then 0.0 else Sum2(a - 1, b, f) + Sum(b, Line(f, a - 1))
  }

  /** sum over i < a, j < b and k < c of f(i, j, k) */
  ghost function Sum3(a: nat, b: nat, c: nat, f: (nat, nat, nat) -> real): real {
    if a == 0 then 0.0 else Sum3(a - 1, b, c, f) + Sum2(b, c, Plane(f, a - 1))
  }

  lemma {:induction false} SumAppend(n: nat, m: nat, f: nat -> real, g: nat -> real)
    requires forall j :: 0 <= j < m ==> f(n + j) == g(j)
    ensures Sum(n + m, f) == Sum(n, f) + Sum(m, g)
  {
    if m > 0 {
      SumAppend(n, m - 1, f, g);
      assert f(n + (m - 1)) == g(m - 1);
    }
  }

  /** A sum over a flat index in rows of b. */
  lemma {:induction false} SumOfRows(a: nat, b: nat, f: nat -> real, g: (nat, nat) -> real)
    requires forall i: nat, j: nat :: i < a && j < b ==> f(Times(i, b) + j) == g(i, j)
    ensures Sum(Times(a, b), f) == Sum2(a, b, g)
  {
    hide Sum;
    if a > 0 {
      SumOfRows(a - 1, b, f, g);
      SumAppend(Times(a - 1, b), b, f, Line(g, a - 1));
    } else {
      SumZero(0, f);
    }
  }

  lemma {:induction false} Sum2Append(n: nat, m: nat, b: nat, f: (nat, nat) -> real, g: (nat, nat) -> real)
    requires forall i: nat, j: nat :: i < m && j < b ==> f(n + i, j) == g(i, j)
    ensures Sum2(n + m, b, f) == Sum2(n, b, f) + Sum2(m, b, g)
  {
    if m > 0 {
      Sum2Append(n, m - 1, b, f, g);
      assert n + m - 1 == n + (m - 1);
      SumSame(b, Line(f, n + (m - 1)), Line(g, m - 1));
    }
  }

  /** A sum over the rows of a flat index in planes of b rows. */
  lemma {:induction false} Sum2OfPlanes(a: nat, b: nat, c: nat, f: (nat, nat) -> real, g: (nat, nat, nat) -> real)
    requires forall i: nat, j: nat, k: nat :: i < a && j < b && k < c ==> f(Times(i, b) + j, k) == g(i, j, k)
    ensures Sum2(Times(a, b), c, f) == Sum3(a, b, c, g)
  {
    hide Sum2;
    if a > 0 {
      Sum2OfPlanes(a - 1, b, c, f, g);
      Sum2Append(Times(a - 1, b), b, c, f, Plane(g, a - 1));
    } else {
      assert Sum2(0, c, f) == 0.0 by { NoRows(c, f); }
    }
  }

  lemma {:induction false} NoRows(b: nat, f: (nat, nat) -> real)
    ensures Sum2(0, b, f) == 0.0
  {}

  lemma {:induction false} Sum2Zero(a: nat, b: nat, f: (nat, nat) -> real)
    requires forall i: nat, j: nat :: i < a && j < b ==> f(i, j) == 0.0
    ensures Sum2(a, b, f) == 0.0
  {
    if a > 0 {
      Sum2Zero(a - 1, b, f);
      SumZero(b, Line(f, a - 1));
    }
  }

  /** Only term (p, q) counts. */
  lemma {:induction false} Sum2One(a: nat, b: nat, f: (nat, nat) -> real, p: nat, q: nat)
    requires p < a && q < b && forall i: nat, j: nat :: i < a && j < b && (i, j) != (p, q) ==> f(i, j) == 0.0
    ensures Sum2(a, b, f) == f(p, q)
  {
    if p < a - 1 {
      Sum2One(a - 1, b, f, p, q);
      SumZero(b, Line(f, a - 1));
    } else {
      Sum2Zero(a - 1, b, f);
      SumOne(b, Line(f, p), q);
    }
  }

  lemma {:induction false} Sum3Zero(a: nat, b: nat, c: nat, f: (nat, nat, nat) -> real)
    requires forall i: nat, j: nat, k: nat :: i < a && j < b && k < c ==> f(i, j, k) == 0.0
    ensures Sum3(a, b, c, f) == 0.0
  {
    if a > 0 {
      Sum3Zero(a - 1, b, c, f);
      Sum2Zero(b, c, Plane(f, a - 1));
    }
  }

  /** Only term (p, q, r) counts. */
  lemma {:induction false} Sum3One(a: nat, b: nat, c: nat, f: (nat, nat, nat) -> real, p: nat, q: nat, r: nat)
    requires p < a && q < b && r < c
    requires forall i: nat, j: nat, k: nat :: i < a && j < b && k < c && (i, j, k) != (p, q, r) ==> f(i, j, k) == 0.0
    ensures Sum3(a, b, c, f) == f(p, q, r)
  {
    if p < a - 1 {
      Sum3One(a - 1, b, c, f, p, q, r);
      Sum2Zero(b, c, Plane(f, a - 1));
    } else {
      Sum3Zero(a - 1, b, c, f);
      Sum2One(b, c, Plane(f, p), q, r);
    }
  }

  // ---- folds ----

  ghost predicate TermIs(x: seq<real>, y: seq<real>, p: nat, t: real) { p < |x| && p < |y| && x[p] * y[p] == t }

  ghost function Products(x: seq<real>, y: seq<real>): (f: nat -> real)
    requires |x| == |y|
    ensures forall p: nat, t: real :: TermIs(x, y, p, t) ==> f(p) == t
  {
    (p: nat) => if p < |x| then x[p] * y[p] else 0.0
  }

  lemma {:induction false} DotIsSum(exp: real -> real, b: real, x: seq<real>, y: seq<real>)
    requires |x| == |y|
    ensures Dot(RealOps(exp), b, x, y) == b + Sum(|x|, Products(x, y))
  {
    hide Sum, Plain, DotFrom, RealOps;
    DotIsPlain(exp, b, x, y, |x|);
    PlainIsSum(x, y, |x|, Products(x, y));
  }

  /** The products of x and y, in rows of b, are the terms f. */
  ghost predicate Terms2(x: seq<real>, y: seq<real>, a: nat, b: nat, f: (nat, nat) -> real) {
    forall i: nat, j: nat :: i < a && j < b ==> TermIs(x, y, Times(i, b) + j, f(i, j))
  }

  lemma {:induction false} DotIsSum2(exp: real -> real, base: real, x: seq<real>, y: seq<real>, a: nat, b: nat,
                                     f: (nat, nat) -> real)
    requires |x| == |y| == Times(a, b) && Terms2(x, y, a, b, f)
    ensures Dot(RealOps(exp), base, x, y) == base + Sum2(a, b, f)
  {
    hide Sum, Sum2, Dot, RealOps, Times, TermIs;
    DotIsSum(exp, base, x, y);
    SumOfRows(a, b, Products(x, y), f);
  }

  /** The products of x and y, in planes of b rows of c, are the terms f. */
  ghost predicate Terms3(x: seq<real>, y: seq<real>, a: nat, b: nat, c: nat, f: (nat, nat, nat) -> real) {
    forall i: nat, j: nat, k: nat :: i < a && j < b && k < c ==>
      TermIs(x, y, Times(Times(i, b) + j, c) + k, f(i, j, k))
  }

  lemma {:induction false} DotIsSum3(exp: real -> real, base: real, x: seq<real>, y: seq<real>, a: nat, b: nat, c: nat,
                                     f: (nat, nat, nat) -> real)
    requires |x| == |y| == Times(Times(a, b), c) && Terms3(x, y, a, b, c, f)
    ensures Dot(RealOps(exp), base, x, y) == base + Sum3(a, b, c, f)
  {
    hide Sum, Sum2, Sum3, Dot, RealOps, Times, TermIs;
    DotIsSum(exp, base, x, y);
    var h := Products(x, y);
    var g := (r: nat, k: nat) => h(Times(r, c) + k);
    SumOfRows(Times(a, b), c, h, g);
    Sum2OfPlanes(a, b, c, g, f);
  }
}
