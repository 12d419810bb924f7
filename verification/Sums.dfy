/** Finite sums over the naturals below a bound. */
module Sums {

  ghost function Sum(f: nat -> nat, n: nat): nat {
    if n == 0 then 0 else Sum(f, n - 1) + f(n - 1)
  }

  /** If no term but one grows, the sum grows by no more than that one. */
  lemma {:induction false} SumMoves(f: nat -> nat, g: nat -> nat, i: nat, n: nat)
    requires forall j: nat :: j < n && j != i ==> g(j) <= f(j)
    ensures if i < n then Sum(g, n) + f(i) <= Sum(f, n) + g(i) else Sum(g, n) <= Sum(f, n)
  {
    if n > 0 { SumMoves(f, g, i, n - 1); }
  }

  lemma {:induction false} SumLowers(f: nat -> nat, g: nat -> nat, n: nat)
    requires forall j: nat :: j < n ==> g(j) <= f(j)
    ensures Sum(g, n) <= Sum(f, n)
  {
    if n > 0 { SumLowers(f, g, n - 1); }
  }

  lemma {:induction false} TermInSum(f: nat -> nat, i: nat, n: nat)
    requires i < n
    ensures f(i) <= Sum(f, n)
  {
    if i < n - 1 { TermInSum(f, i, n - 1); }
  }

  lemma {:induction false} SumOfZeros(f: nat -> nat, n: nat)
    requires forall j: nat :: j < n ==> f(j) == 0
    ensures Sum(f, n) == 0
  {
    if n > 0 { SumOfZeros(f, n - 1); }
  }
}
