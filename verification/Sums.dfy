/** Finite sums of an integer function over an initial segment of the naturals. */
module Sums {

  function SumTo(f: nat -> int, n: nat): int {
    if n == 0 then 0 else SumTo(f, n - 1) + f(n - 1)
  }

  lemma {:induction false} Same(f: nat -> int, g: nat -> int, n: nat)
    requires forall i: nat :: i < n ==> f(i) == g(i)
    ensures SumTo(f, n) == SumTo(g, n)
  {
    if n > 0 {
      Same(f, g, n - 1);
    }
  }

  /** Two functions that differ only at `k` have sums that differ by what they differ by there. */
  lemma {:induction false} Change(f: nat -> int, g: nat -> int, n: nat, k: nat)
    requires k < n
    requires forall i: nat :: i < n && i != k ==> f(i) == g(i)
    ensures SumTo(g, n) == SumTo(f, n) + g(k) - f(k)
  {
    if k == n - 1 {
      Same(f, g, n - 1);
    } else {
      Change(f, g, n - 1, k);
    }
  }

  lemma {:induction false} Linear(f: nat -> int, g: nat -> int, h: nat -> int, c: int, n: nat)
    requires forall i: nat :: i < n ==> h(i) == f(i) + c * g(i)
    ensures SumTo(h, n) == SumTo(f, n) + c * SumTo(g, n)
  {
    if n > 0 {
      Linear(f, g, h, c, n - 1);
    }
  }

  lemma {:induction false} Scaled(f: nat -> int, g: nat -> int, c: int, n: nat)
    requires forall i: nat :: i < n ==> g(i) == c * f(i)
    ensures SumTo(g, n) == c * SumTo(f, n)
  {
    if n > 0 {
      Scaled(f, g, c, n - 1);
      assert c * (SumTo(f, n - 1) + f(n - 1)) == c * SumTo(f, n - 1) + c * f(n - 1);
    }
  }

  lemma {:induction false} Zero(f: nat -> int, n: nat)
    requires forall i: nat :: i < n ==> f(i) == 0
    ensures SumTo(f, n) == 0
  {
    if n > 0 {
      Zero(f, n - 1);
    }
  }

  lemma {:induction false} NonNegative(f: nat -> int, n: nat)
    requires forall i: nat :: i < n ==> f(i) >= 0
    ensures SumTo(f, n) >= 0
  {
    if n > 0 {
      NonNegative(f, n - 1);
    }
  }

  /** A sum of terms that are not negative vanishes exactly when each of them does. */
  lemma {:induction false} ZeroIffEachZero(f: nat -> int, n: nat)
    requires forall i: nat :: i < n ==> f(i) >= 0
    ensures SumTo(f, n) == 0 <==> forall i: nat :: i < n ==> f(i) == 0
  {
    if n > 0 {
      ZeroIffEachZero(f, n - 1);
      NonNegative(f, n - 1);
    }
  }

  /** The absolute value of a sum is at most the sum of bounds on its terms. */
  lemma {:induction false} Bounded(f: nat -> int, bound: nat -> int, n: nat)
    requires forall i: nat :: i < n ==> -bound(i) <= f(i) <= bound(i)
    ensures -SumTo(bound, n) <= SumTo(f, n) <= SumTo(bound, n)
  {
    if n > 0 {
      Bounded(f, bound, n - 1);
    }
  }

  /** `f` restricted to the arguments that `root` sends to `r`. */
  function Fiber(f: nat -> int, root: nat -> nat, r: nat): nat -> int {
    (i: nat) => if root(i) == r then f(i) else 0
  }

  function FiberSum(f: nat -> int, root: nat -> nat, n: nat): nat -> int {
    (r: nat) => SumTo(Fiber(f, root, r), n)
  }

  /** Summing fibre by fibre gives the whole sum. */
  lemma {:induction false} ByFibers(f: nat -> int, root: nat -> nat, n: nat, m: nat)
    requires forall i: nat :: i < n ==> root(i) < m
    ensures SumTo(FiberSum(f, root, n), m) == SumTo(f, n)
    decreases n
  {
    if n == 0 {
      Zero(FiberSum(f, root, 0), m);
    } else {
      ByFibers(f, root, n - 1, m);
      var before, after := FiberSum(f, root, n - 1), FiberSum(f, root, n);
      forall r: nat ensures after(r) == before(r) + Fiber(f, root, r)(n - 1) {
      }
      Change(before, after, m, root(n - 1));
    }
  }
}
