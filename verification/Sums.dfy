/** Sums of a weight over a sequence. */
module Sums {

  function Sum<T>(s: seq<T>, weight: T -> int): int {
    SumTo(s, |s|, weight)
  }

  /** The sum over the first `n`. */
  function SumTo<T>(s: seq<T>, n: nat, weight: T -> int): int
    requires n <= |s|
  {
    if n == 0 then 0 else SumTo(s, n - 1, weight) + weight(s[n - 1])
  }

  lemma {:induction false} SumToUpdate<T>(s: seq<T>, n: nat, i: nat, x: T, weight: T -> int)
    requires i < |s| && n <= |s|
    ensures SumTo(s[i := x], n, weight) == SumTo(s, n, weight) + (if i < n then weight(x) - weight(s[i]) else 0)
  {
    if n > 0 {
      SumToUpdate(s, n - 1, i, x, weight);
    }
  }

  lemma SumUpdate<T>(s: seq<T>, i: nat, x: T, weight: T -> int)
    requires i < |s|
    ensures Sum(s[i := x], weight) == Sum(s, weight) - weight(s[i]) + weight(x)
  {
    SumToUpdate(s, |s|, i, x, weight);
  }

  lemma {:induction false} SumToOfPrefix<T>(s: seq<T>, m: nat, n: nat, weight: T -> int)
    requires n <= m <= |s|
    ensures SumTo(s[..m], n, weight) == SumTo(s, n, weight)
  {
    if n > 0 {
      SumToOfPrefix(s, m, n - 1, weight);
    }
  }

  lemma SumOfLast<T>(s: seq<T>, weight: T -> int)
    requires s != []
    ensures Sum(s, weight) == Sum(s[..|s| - 1], weight) + weight(s[|s| - 1])
  {
    SumToOfPrefix(s, |s| - 1, |s| - 1, weight);
  }

  lemma {:induction false} SumToAgree<T(!new)>(s: seq<T>, n: nat, a: T -> int, b: T -> int)
    requires n <= |s| && forall i | 0 <= i < n :: a(s[i]) == b(s[i])
    ensures SumTo(s, n, a) == SumTo(s, n, b)
  {
    if n > 0 {
      SumToAgree(s, n - 1, a, b);
    }
  }

  lemma SumsAgree<T(!new)>(s: seq<T>, a: T -> int, b: T -> int)
    requires forall i | 0 <= i < |s| :: a(s[i]) == b(s[i])
    ensures Sum(s, a) == Sum(s, b)
  {
    SumToAgree(s, |s|, a, b);
  }

  lemma {:induction false} SumToWhenZero<T>(s: seq<T>, n: nat, weight: T -> int)
    requires n <= |s| && forall i | 0 <= i < n :: weight(s[i]) == 0
    ensures SumTo(s, n, weight) == 0
  {
    if n > 0 { SumToWhenZero(s, n - 1, weight); }
  }

  lemma SumWhenZero<T>(s: seq<T>, weight: T -> int)
    requires forall i | 0 <= i < |s| :: weight(s[i]) == 0
    ensures Sum(s, weight) == 0
  {
    SumToWhenZero(s, |s|, weight);
  }

  lemma {:induction false} SumToAtMost<T(!new)>(s: seq<T>, n: nat, small: T -> int, large: T -> int)
    requires n <= |s| && forall x :: small(x) <= large(x)
    ensures SumTo(s, n, small) <= SumTo(s, n, large)
  {
    if n > 0 { SumToAtMost(s, n - 1, small, large); }
  }

  lemma SumAtMost<T(!new)>(s: seq<T>, small: T -> int, large: T -> int)
    requires forall x :: small(x) <= large(x)
    ensures Sum(s, small) <= Sum(s, large)
  {
    SumToAtMost(s, |s|, small, large);
  }

  /** Sums of non-negative weights grow with every term. */
  lemma {:induction false} SumToGrows<T(!new)>(s: seq<T>, m: nat, n: nat, weight: T -> int)
    requires m <= n <= |s| && forall x :: weight(x) >= 0
    ensures 0 <= SumTo(s, m, weight) <= SumTo(s, n, weight)
  {
    if m < n {
      SumToGrows(s, m, n - 1, weight);
    } else if m > 0 {
      SumToGrows(s, m - 1, m - 1, weight);
    }
  }

  /** Every term of a sum of non-negative weights is at most the sum. */
  lemma SumBoundsTerm<T(!new)>(s: seq<T>, i: nat, weight: T -> int)
    requires i <= |s| && forall x :: weight(x) >= 0
    ensures Sum(s, weight) >= 0
    ensures i < |s| ==> weight(s[i]) <= Sum(s, weight)
  {
    SumToGrows(s, i, |s|, weight);
    if i < |s| {
      SumToGrows(s, i + 1, |s|, weight);
    }
  }

  lemma SumBoundsTwo<T(!new)>(s: seq<T>, i: nat, j: nat, weight: T -> int)
    requires i < j < |s| && forall x :: weight(x) >= 0
    ensures weight(s[i]) + weight(s[j]) <= Sum(s, weight)
  {
    SumToGrows(s, i, j, weight);
    SumToGrows(s, i + 1, j, weight);
    SumToGrows(s, j + 1, |s|, weight);
  }

  lemma SumPositive<T>(s: seq<T>, weight: T -> int) returns (i: nat)
    requires Sum(s, weight) > 0
    ensures i < |s| && weight(s[i]) > 0
  {
    i := SumToPositive(s, |s|, weight);
  }

  lemma {:induction false} SumToPositive<T>(s: seq<T>, n: nat, weight: T -> int) returns (i: nat)
    requires n <= |s| && SumTo(s, n, weight) > 0
    ensures i < n && weight(s[i]) > 0
  {
    i := n - 1;
    if weight(s[i]) <= 0 {
      i := SumToPositive(s, n - 1, weight);
    }
  }
}
