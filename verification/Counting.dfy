/** Counting and summing over sequences, shared by the models of the balancer, the bulk loader,
    the backup service and the directory manager. */
module Counting {

  /** The largest C++ int. */
  const INT_MAX := 2147483647

  /** How often `x` occurs in `xs`. */
  function Occurrences<T(==)>(xs: seq<T>, x: T): (n: nat)
    ensures n <= |xs|
  {
    if xs == [] then 0
    else Occurrences(xs[..|xs| - 1], x) + if xs[|xs| - 1] == x then 1 else 0
  }

  lemma {:induction false} OccurrencesUpdate<T>(xs: seq<T>, i: nat, y: T, x: T)
    requires i < |xs|
    ensures Occurrences(xs[i := y], x) + (if xs[i] == x then 1 else 0)
            == Occurrences(xs, x) + if y == x then 1 else 0
  {
    var k := |xs| - 1;
    if i == k {
      assert xs[i := y][..k] == xs[..k];
    } else {
      assert xs[i := y][..k] == xs[..k][i := y];
      OccurrencesUpdate(xs[..k], i, y, x);
    }
  }

  lemma {:induction false} OccurrencesAll<T>(xs: seq<T>, x: T)
    ensures Occurrences(xs, x) == |xs| <==> forall i :: 0 <= i < |xs| ==> xs[i] == x
  {
    if xs != [] {
      OccurrencesAll(xs[..|xs| - 1], x);
      assert forall i :: 0 <= i < |xs| - 1 ==> xs[i] == xs[..|xs| - 1][i];
    }
  }

  lemma {:induction false} OccurrencesNone<T>(xs: seq<T>, x: T)
    ensures Occurrences(xs, x) == 0 <==> forall i :: 0 <= i < |xs| ==> xs[i] != x
  {
    if xs != [] {
      OccurrencesNone(xs[..|xs| - 1], x);
      assert forall i :: 0 <= i < |xs| - 1 ==> xs[i] == xs[..|xs| - 1][i];
    }
  }

  /** The sum of load[1], ..., load[n]: servers are numbered from 1. */
  ghost function Total(load: seq<int>, n: nat): int
    requires n < |load|
  {
    if n == 0 then 0 else Total(load, n - 1) + load[n]
  }

  lemma {:induction false} TotalUpdate(load: seq<int>, n: nat, i: nat, x: int)
    requires n < |load| && 1 <= i < |load|
    ensures Total(load[i := x], n) == Total(load, n) + if i <= n then x - load[i] else 0
  {
    if n > 0 {
      TotalUpdate(load, n - 1, i, x);
    }
  }

  lemma {:induction false} TotalAtLeast(load: seq<int>, n: nat, t: int)
    requires n < |load| && forall i :: 1 <= i <= n ==> load[i] >= t
    ensures Total(load, n) >= n * t
  {
    if n > 0 {
      TotalAtLeast(load, n - 1, t);
      assert n * t == (n - 1) * t + t;
    }
  }

  lemma {:induction false} TotalAtMost(load: seq<int>, n: nat, t: int)
    requires n < |load| && forall i :: 1 <= i <= n ==> load[i] <= t
    ensures Total(load, n) <= n * t
  {
    if n > 0 {
      TotalAtMost(load, n - 1, t);
      assert n * t == (n - 1) * t + t;
    }
  }

  /** Below-average members force an above-average one. */
  lemma SomeAbove(load: seq<int>, n: nat, t: int, low: nat) returns (i: nat)
    requires n < |load| && Total(load, n) >= n * t
    requires 1 <= low <= n && load[low] < t
    ensures 1 <= i <= n && load[i] > t
  {
    if forall i :: 1 <= i <= n ==> load[i] <= t {
      TotalUpdate(load, n, low, t);
      TotalAtMost(load[low := t], n, t);
      assert false;
    }
    i :| 1 <= i <= n && load[i] > t;
  }

  lemma SomeBelow(load: seq<int>, n: nat, t: int) returns (i: nat)
    requires n < |load| && Total(load, n) < n * t
    ensures 1 <= i <= n && load[i] < t
  {
    if forall i :: 1 <= i <= n ==> load[i] >= t {
      TotalAtLeast(load, n, t);
      assert false;
    }
    i :| 1 <= i <= n && load[i] < t;
  }

  /** x * x, spelled as a sum of odd numbers so that proofs about spreads stay linear. */
  ghost function Square(x: int): nat
    decreases if x < 0 then 1 - x else x
  {
    if x == 0 then 0 else if x < 0 then Square(-x) else Square(x - 1) + 2 * x - 1
  }

  lemma {:induction false} SquareIsProduct(x: int)
    ensures Square(x) == x * x
    decreases if x < 0 then 1 - x else x
  {
    if x < 0 {
      SquareIsProduct(-x);
      assert (-x) * (-x) == x * x;
    } else if x > 0 {
      SquareIsProduct(x - 1);
      assert (x - 1) * (x - 1) == x * x - 2 * x + 1;
    }
  }

  /** How far the loads are spread, as the sum of their squares: the measure of imbalance. */
  ghost function Squares(load: seq<int>, n: nat): nat
    requires n < |load|
  {
    if n == 0 then 0 else Squares(load, n - 1) + Square(load[n])
  }

  lemma {:induction false} SquaresUpdate(load: seq<int>, n: nat, i: nat, x: int)
    requires n < |load| && 1 <= i <= n
    ensures Squares(load[i := x], n) == Squares(load, n) + Square(x) - Square(load[i])
    decreases n
  {
    if i < n {
      SquaresUpdate(load, n - 1, i, x);
    } else {
      SquaresFrame(load, load[i := x], n - 1);
    }
  }

  lemma {:induction false} SquaresFrame(a: seq<int>, b: seq<int>, n: nat)
    requires n < |a| && n < |b| && forall i :: 1 <= i <= n ==> a[i] == b[i]
    ensures Squares(a, n) == Squares(b, n)
  {
    if n > 0 {
      SquaresFrame(a, b, n - 1);
    }
  }

  /** Shifting `f` units from a larger load to a smaller one, without overshooting, lowers the spread. */
  lemma ShiftLowersSquares(load: seq<int>, n: nat, a: nat, b: nat, f: int)
    requires n < |load| && 1 <= a <= n && 1 <= b <= n && a != b
    requires f > 0 && load[a] - f >= load[b] + 1
    ensures Squares(load[a := load[a] - f][b := load[b] + f], n) < Squares(load, n)
    ensures Total(load[a := load[a] - f][b := load[b] + f], n) == Total(load, n)
  {
    var one := load[a := load[a] - f];
    SquaresUpdate(load, n, a, load[a] - f);
    SquaresUpdate(one, n, b, load[b] + f);
    TotalUpdate(load, n, a, load[a] - f);
    TotalUpdate(one, n, b, load[b] + f);
    ShiftAlgebra(load[a], load[b], f);
  }

  lemma ShiftAlgebra(x: int, y: int, f: int)
    requires f > 0 && x - f >= y + 1
    ensures Square(x - f) + Square(y + f) < Square(x) + Square(y)
  {
    SquareIsProduct(x - f);
    SquareIsProduct(y + f);
    SquareIsProduct(x);
    SquareIsProduct(y);
    ShiftProducts(x, y, f);
  }

  lemma ShiftProducts(x: int, y: int, f: int)
    requires f > 0 && x - f >= y + 1
    ensures (x - f) * (x - f) + (y + f) * (y + f) < x * x + y * y
  {}
}
