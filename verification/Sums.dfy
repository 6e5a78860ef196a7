/** Sums over sequences: the aggregates the ledger is compared with. */
module Sums {

  /** The sum of f over s; the model of `{ $group: { total: { $sum: ... } } }`. */
  function Sum<T>(s: seq<T>, f: T -> int): int {
    if s == [] then 0 else Sum(s[..|s| - 1], f) + f(s[|s| - 1])
  }

  lemma Append<T>(s: seq<T>, x: T, f: T -> int)
    ensures Sum(s + [x], f) == Sum(s, f) + f(x)
  {
    assert (s + [x])[..|s|] == s;
  }

  lemma {:induction false} Update<T>(s: seq<T>, i: nat, x: T, f: T -> int)
    requires i < |s|
    ensures Sum(s[i := x], f) == Sum(s, f) - f(s[i]) + f(x)
  {
    var n := |s| - 1;
    if i == n {
      assert s[i := x][..n] == s[..n];
    } else {
      Update(s[..n], i, x, f);
      assert s[i := x][..n] == s[..n][i := x];
    }
  }

  lemma {:induction false} NonNegative<T>(s: seq<T>, f: T -> int)
    requires forall i :: 0 <= i < |s| ==> f(s[i]) >= 0
    ensures Sum(s, f) >= 0
  {
    if s != [] {
      NonNegative(s[..|s| - 1], f);
    }
  }

  lemma {:induction false} AllZero<T>(s: seq<T>, f: T -> int)
    requires forall i :: 0 <= i < |s| ==> f(s[i]) == 0
    ensures Sum(s, f) == 0
  {
    if s != [] {
      AllZero(s[..|s| - 1], f);
    }
  }

  /** A sum of non-negative terms is zero exactly when each of them is. */
  lemma {:induction false} ZeroExactly<T>(s: seq<T>, f: T -> int)
    requires forall i :: 0 <= i < |s| ==> f(s[i]) >= 0
    ensures Sum(s, f) >= 0
    ensures Sum(s, f) == 0 <==> forall i :: 0 <= i < |s| ==> f(s[i]) == 0
  {
    if s != [] {
      ZeroExactly(s[..|s| - 1], f);
    }
  }

  lemma {:induction false} Split<T>(s: seq<T>, f: T -> int, g: T -> int, h: T -> int)
    requires forall i :: 0 <= i < |s| ==> f(s[i]) == g(s[i]) + h(s[i])
    ensures Sum(s, f) == Sum(s, g) + Sum(s, h)
  {
    if s != [] {
      Split(s[..|s| - 1], f, g, h);
    }
  }

  /** Functions that agree on the elements have the same sum. */
  lemma {:induction false} SameSum<T>(s: seq<T>, f: T -> int, g: T -> int)
    requires forall i :: 0 <= i < |s| ==> f(s[i]) == g(s[i])
    ensures Sum(s, f) == Sum(s, g)
  {
    if s != [] {
      SameSum(s[..|s| - 1], f, g);
    }
  }

  /** If at most one element counts, the sum is bounded by any bound on a single element. */
  lemma {:induction false} AtMostOne<T>(s: seq<T>, f: T -> int, bound: int)
    requires bound >= 0
    requires forall i :: 0 <= i < |s| ==> f(s[i]) <= bound
    requires forall i, j :: 0 <= i < j < |s| ==> f(s[i]) == 0 || f(s[j]) == 0
    ensures Sum(s, f) <= bound
  {
    if s != [] {
      var n := |s| - 1;
      if f(s[n]) == 0 {
        AtMostOne(s[..n], f, bound);
      } else {
        AllZero(s[..n], f);
      }
    }
  }

  lemma {:induction false} Concat<T>(s: seq<T>, t: seq<T>, f: T -> int)
    ensures Sum(s + t, f) == Sum(s, f) + Sum(t, f)
  {
    if t == [] {
      assert s + t == s;
    } else {
      var n := |t| - 1;
      Concat(s, t[..n], f);
      assert s + t == s + t[..n] + [t[n]];
      Append(s + t[..n], t[n], f);
    }
  }

  /** A sum does not depend on the order of its terms. */
  lemma {:induction false} AnyOrder<T>(s: seq<T>, t: seq<T>, f: T -> int)
    requires multiset(s) == multiset(t)
    ensures Sum(s, f) == Sum(t, f)
  {
    if s == [] {
      assert |multiset(t)| == |t|;
    } else {
      var n := |s| - 1;
      var x := s[n];
      assert x in multiset(t);
      var k :| 0 <= k < |t| && t[k] == x;
      assert s == s[..n] + [x];
      assert t == t[..k] + [x] + t[k + 1..];
      assert multiset(s[..n]) == multiset(s) - multiset{x};
      assert multiset(t[..k] + t[k + 1..]) == multiset(t) - multiset{x};
      AnyOrder(s[..n], t[..k] + t[k + 1..], f);
      Concat(t[..k], t[k + 1..], f);
      Concat(t[..k] + [x], t[k + 1..], f);
      Append(t[..k], x, f);
    }
  }

  /** The sum of g over the first n indices. */
  function SumTo(n: nat, g: nat -> int): int {
    if n == 0 then 0 else SumTo(n - 1, g) + g(n - 1)
  }

  lemma {:induction false} SumToSplit(n: nat, f: nat -> int, g: nat -> int, h: nat -> int)
    requires forall i: nat :: i < n ==> f(i) == g(i) + h(i)
    ensures SumTo(n, f) == SumTo(n, g) + SumTo(n, h)
  {
    if n > 0 {
      SumToSplit(n - 1, f, g, h);
    }
  }

  lemma {:induction false} SumToNonNegative(n: nat, g: nat -> int)
    requires forall i: nat :: i < n ==> g(i) >= 0
    ensures SumTo(n, g) >= 0
  {
    if n > 0 {
      SumToNonNegative(n - 1, g);
    }
  }

  /** A function that is zero except at k sums to its value at k. */
  lemma {:induction false} SumToPoint(n: nat, g: nat -> int, k: nat)
    requires forall i: nat :: i < n && i != k ==> g(i) == 0
    ensures SumTo(n, g) == if k < n then g(k) else 0
  {
    if n > 0 {
      SumToPoint(n - 1, g, k);
    }
  }

  /** Summing over a sequence is summing over its indices. */
  lemma {:induction false} SumToSum<T>(s: seq<T>, f: T -> int, g: nat -> int)
    requires forall i: nat :: i < |s| ==> g(i) == f(s[i])
    ensures SumTo(|s|, g) == Sum(s, f)
  {
    if s != [] {
      SumToSum(s[..|s| - 1], f, g);
    }
  }
}
