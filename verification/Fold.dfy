/** Sums over sequences of concurrent participants.

    Every protocol model in this project keeps its participants (workers,
    callers, operations in progress) in a sequence and steps one of them at a
    time. A shared counter is then a sum over that sequence, and one step
    changes one term of the sum.
 */
module Fold {

  function Sum<T>(s: seq<T>, f: T -> int): int {
    if s == [] then 0 else Sum(s[..|s| - 1], f) + f(s[|s| - 1])
  }

  /** Adding a participant adds its term. */
  lemma SumAppend<T>(s: seq<T>, x: T, f: T -> int)
    ensures Sum(s + [x], f) == Sum(s, f) + f(x)
  {
    assert (s + [x])[..|s|] == s;
  }

  /** Stepping participant k replaces its term and no other. */
  lemma {:induction false} SumUpdate<T>(s: seq<T>, k: nat, x: T, f: T -> int)
    requires k < |s|
    ensures Sum(s[k := x], f) == Sum(s, f) - f(s[k]) + f(x)
  {
    var last := |s| - 1;
    if k == last {
      assert s[k := x][..last] == s[..last];
    } else {
      assert s[k := x][..last] == s[..last][k := x];
      SumUpdate(s[..last], k, x, f);
    }
  }

  /** The first term can be taken out as well as the last. */
  lemma {:induction false} SumFirst<T>(s: seq<T>, f: T -> int)
    requires s != []
    ensures Sum(s, f) == f(s[0]) + Sum(s[1..], f)
  {
    if |s| > 1 {
      SumFirst(s[..|s| - 1], f);
      assert s[..|s| - 1][1..] == s[1..][..|s| - 2];
    }
  }

  /** Two functions that agree on every participant have the same sum. */
  lemma {:induction false} SumCongruent<T>(s: seq<T>, f: T -> int, g: T -> int)
    requires forall i :: 0 <= i < |s| ==> f(s[i]) == g(s[i])
    ensures Sum(s, f) == Sum(s, g)
  {
    if s != [] {
      SumCongruent(s[..|s| - 1], f, g);
    }
  }

  /** A pointwise bound bounds the sum. */
  lemma {:induction false} SumMonotone<T>(s: seq<T>, f: T -> int, g: T -> int)
    requires forall i :: 0 <= i < |s| ==> f(s[i]) <= g(s[i])
    ensures Sum(s, f) <= Sum(s, g)
  {
    if s != [] {
      SumMonotone(s[..|s| - 1], f, g);
    }
  }

  /** The sum of non-negative terms is at least any one of them. */
  lemma {:induction false} SumAtLeastTerm<T>(s: seq<T>, k: nat, f: T -> int)
    requires k < |s|
    requires forall i :: 0 <= i < |s| ==> 0 <= f(s[i])
    ensures 0 <= f(s[k]) <= Sum(s, f)
  {
    var rest := s[..|s| - 1];
    SumNonNegative(rest, f);
    if k < |s| - 1 {
      SumAtLeastTerm(rest, k, f);
    }
  }

  lemma {:induction false} SumNonNegative<T>(s: seq<T>, f: T -> int)
    requires forall i :: 0 <= i < |s| ==> 0 <= f(s[i])
    ensures 0 <= Sum(s, f)
  {
    if s != [] {
      SumNonNegative(s[..|s| - 1], f);
    }
  }

  lemma {:induction false} SumAdd<T>(s: seq<T>, f: T -> int, g: T -> int, h: T -> int)
    requires forall i :: 0 <= i < |s| ==> h(s[i]) == f(s[i]) + g(s[i])
    ensures Sum(s, h) == Sum(s, f) + Sum(s, g)
  {
    if s != [] {
      SumAdd(s[..|s| - 1], f, g, h);
    }
  }

  /** The sum of g(0), g(1), ..., g(n-1). */
  function SumTo(n: nat, g: int -> int): int {
    if n == 0 then 0 else SumTo(n - 1, g) + g(n - 1)
  }

  lemma {:induction false} SumToCongruent(n: nat, f: int -> int, g: int -> int)
    requires forall i :: 0 <= i < n ==> f(i) == g(i)
    ensures SumTo(n, f) == SumTo(n, g)
  {
    if n != 0 {
      SumToCongruent(n - 1, f, g);
    }
  }

  /** Summing rows then columns is summing columns then rows: n row totals,
      each a sum over s, add up to the sum over s of each element's total. */
  lemma {:induction false} SumExchange<T>(n: nat, s: seq<T>, cell: int -> (T -> int), row: int -> int, total: T -> int)
    requires forall i :: 0 <= i < n ==> row(i) == Sum(s, cell(i))
    requires forall k :: 0 <= k < |s| ==> total(s[k]) == SumTo(n, i => cell(i)(s[k]))
    ensures SumTo(n, row) == Sum(s, total)
  {
    if s == [] {
      SumToZero(n, row);
    } else {
      var rest, last := s[..|s| - 1], s[|s| - 1];
      var restRow := i => Sum(rest, cell(i));
      var lastCell := i => cell(i)(last);
      SumExchange(n, rest, cell, restRow, total);
      assert s[|s| - 1] == last;
      SumToCongruent(n, lastCell, i => cell(i)(s[|s| - 1]));
      SumToAdd(n, restRow, lastCell, row);
    }
  }

  lemma {:induction false} SumToZero(n: nat, g: int -> int)
    requires forall i :: 0 <= i < n ==> g(i) == 0
    ensures SumTo(n, g) == 0
  {
    if n != 0 {
      SumToZero(n - 1, g);
    }
  }

  lemma {:induction false} SumToAdd(n: nat, f: int -> int, g: int -> int, h: int -> int)
    requires forall i :: 0 <= i < n ==> h(i) == f(i) + g(i)
    ensures SumTo(n, h) == SumTo(n, f) + SumTo(n, g)
  {
    if n != 0 {
      SumToAdd(n - 1, f, g, h);
    }
  }

  /** An indicator of one index below n sums to one. */
  lemma {:induction false} SumToIndicator(n: nat, g: int -> int, at: int, v: int)
    requires forall i :: 0 <= i < n ==> g(i) == if i == at then v else 0
    ensures SumTo(n, g) == if 0 <= at < n then v else 0
  {
    if n != 0 {
      SumToIndicator(n - 1, g, at, v);
    }
  }

  lemma {:induction false} SumZero<T>(s: seq<T>, f: T -> int)
    requires forall i :: 0 <= i < |s| ==> f(s[i]) == 0
    ensures Sum(s, f) == 0
  {
    if s != [] {
      SumZero(s[..|s| - 1], f);
    }
  }

  lemma {:induction false} SumOnes<T>(s: seq<T>, f: T -> int)
    requires forall i :: 0 <= i < |s| ==> f(s[i]) == 1
    ensures Sum(s, f) == |s|
  {
    if s != [] {
      SumOnes(s[..|s| - 1], f);
    }
  }

  lemma {:induction false} SumAtMostLength<T>(s: seq<T>, f: T -> int)
    requires forall i :: 0 <= i < |s| ==> f(s[i]) <= 1
    ensures Sum(s, f) <= |s|
  {
    if s != [] {
      SumAtMostLength(s[..|s| - 1], f);
    }
  }
}
