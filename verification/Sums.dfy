/** Totals over tables and over event rows, and the exchange of the two. */
module Sums {
  /** f(0) + ... + f(n - 1): a total over the rows of a table. */
  ghost function Sigma(n: nat, f: int -> int): int {
    if n == 0 then 0 else Sigma(n - 1, f) + f(n - 1)
  }

  /** The total of f over the rows of s. */
  ghost function Sum<T>(s: seq<T>, f: T -> int): int {
    if s == [] then 0 else Sum(s[..|s| - 1], f) + f(s[|s| - 1])
  }

  /** The total of the first k amounts. */
  function Prefix(s: seq<int>, k: nat): int
    requires k <= |s|
  {
    if k == 0 then 0 else Prefix(s, k - 1) + s[k - 1]
  }

  lemma {:induction false} PrefixOrder(s: seq<int>, a: nat, b: nat)
    requires a <= b <= |s| && forall i :: 0 <= i < |s| ==> s[i] >= 0
    ensures 0 <= Prefix(s, a) <= Prefix(s, b)
    decreases b
  {
    if a < b {
      PrefixOrder(s, a, b - 1);
    } else if a > 0 {
      PrefixOrder(s, a - 1, b - 1);
    }
  }

  /** What a row contributes to the owner k that it names. */
  ghost function Share<R>(key: R -> int, amount: R -> int, k: int): R -> int {
    (r: R) => if key(r) == k then amount(r) else 0
  }

  lemma NothingTotal<T>(f: T -> int)
    ensures Sum([], f) == 0
  {
  }

  lemma SumAppend<T>(s: seq<T>, x: T, f: T -> int)
    ensures Sum(s + [x], f) == Sum(s, f) + f(x)
  {
    assert (s + [x])[..|s|] == s;
  }

  lemma {:induction false} SumUpdate<T>(s: seq<T>, k: nat, x: T, f: T -> int)
    requires k < |s|
    ensures Sum(s[k := x], f) == Sum(s, f) - f(s[k]) + f(x)
  {
    var last := |s| - 1;
    if k == last {
      assert s[k := x][..last] == s[..last];
    } else {
      assert s[k := x][..last] == s[..last][k := x];
      SumUpdate(s[..last], k, x, f);
    }
  }

  lemma {:induction false} SumMatch<T>(s: seq<T>, s': seq<T>, f: T -> int)
    requires |s'| == |s| && forall k :: 0 <= k < |s| ==> f(s'[k]) == f(s[k])
    ensures Sum(s', f) == Sum(s, f)
  {
    if s != [] {
      SumMatch(s[..|s| - 1], s'[..|s| - 1], f);
    }
  }

  lemma {:induction false} SumConcat<T>(s: seq<T>, t: seq<T>, f: T -> int)
    ensures Sum(s + t, f) == Sum(s, f) + Sum(t, f)
  {
    if t == [] {
      assert s + t == s;
    } else {
      SumConcat(s, t[..|t| - 1], f);
      assert (s + t)[..|s + t| - 1] == s + t[..|t| - 1];
    }
  }

  lemma {:induction false} SumZero<T>(s: seq<T>, f: T -> int)
    requires forall k :: 0 <= k < |s| ==> f(s[k]) == 0
    ensures Sum(s, f) == 0
  {
    if s != [] {
      var front := s[..|s| - 1];
      assert forall k :: 0 <= k < |front| ==> front[k] == s[k];
      SumZero(front, f);
    }
  }

  lemma {:induction false} SumCong<T>(s: seq<T>, f: T -> int, g: T -> int)
    requires forall k :: 0 <= k < |s| ==> f(s[k]) == g(s[k])
    ensures Sum(s, f) == Sum(s, g)
  {
    if s != [] {
      var front := s[..|s| - 1];
      assert forall k :: 0 <= k < |front| ==> front[k] == s[k];
      SumCong(front, f, g);
    }
  }

  /** h = f - g row by row gives the difference of the totals. */
  lemma {:induction false} SumMinus<T>(s: seq<T>, f: T -> int, g: T -> int, h: T -> int)
    requires forall k :: 0 <= k < |s| ==> h(s[k]) == f(s[k]) - g(s[k])
    ensures Sum(s, h) == Sum(s, f) - Sum(s, g)
  {
    if s != [] {
      var front := s[..|s| - 1];
      assert forall k :: 0 <= k < |front| ==> front[k] == s[k];
      SumMinus(front, f, g, h);
    }
  }

  lemma {:induction false} SumNonNegative<T>(s: seq<T>, f: T -> int)
    requires forall k :: 0 <= k < |s| ==> f(s[k]) >= 0
    ensures Sum(s, f) >= 0
    ensures forall k :: 0 <= k < |s| ==> f(s[k]) <= Sum(s, f)
  {
    if s != [] {
      var front := s[..|s| - 1];
      assert forall k :: 0 <= k < |front| ==> front[k] == s[k];
      SumNonNegative(front, f);
    }
  }

  lemma {:induction false} SigmaCong(n: nat, f: int -> int, g: int -> int)
    requires forall i :: 0 <= i < n ==> f(i) == g(i)
    ensures Sigma(n, f) == Sigma(n, g)
  {
    if n > 0 {
      SigmaCong(n - 1, f, g);
    }
  }

  lemma {:induction false} SigmaMinus(n: nat, f: int -> int, g: int -> int, h: int -> int)
    requires forall i :: 0 <= i < n ==> h(i) == f(i) - g(i)
    ensures Sigma(n, h) == Sigma(n, f) - Sigma(n, g)
  {
    if n > 0 {
      SigmaMinus(n - 1, f, g, h);
    }
  }

  /** Changing one term of a total by d changes the total by d. */
  lemma {:induction false} SigmaChange(n: nat, f: int -> int, g: int -> int, k: int, d: int)
    requires 0 <= k < n
    requires forall i :: 0 <= i < n && i != k ==> g(i) == f(i)
    requires g(k) == f(k) + d
    ensures Sigma(n, g) == Sigma(n, f) + d
  {
    if k == n - 1 {
      SigmaCong(n - 1, f, g);
    } else {
      SigmaChange(n - 1, f, g, k, d);
    }
  }

  /** The owner totals of the rows owned by the selected owners. */
  ghost function OwnerTotal<R>(rows: seq<R>, key: R -> int, amount: R -> int, chosen: int -> bool): int -> int {
    (i: int) => if chosen(i) then Sum(rows, Share(key, amount, i)) else 0
  }

  ghost function Chosen<R>(key: R -> int, amount: R -> int, chosen: int -> bool): R -> int {
    (r: R) => if chosen(key(r)) then amount(r) else 0
  }

  /** Exchange of sums: adding up, over the chosen owners, what each owner's rows add up to is the
      same as adding up every row whose owner is chosen. */
  lemma {:induction false} Exchange<R>(n: nat, rows: seq<R>, key: R -> int, amount: R -> int, chosen: int -> bool)
    requires forall k :: 0 <= k < |rows| ==> 0 <= key(rows[k]) < n || amount(rows[k]) == 0
    ensures Sigma(n, OwnerTotal(rows, key, amount, chosen)) == Sum(rows, Chosen(key, amount, chosen))
  {
    if rows == [] {
      var f := OwnerTotal(rows, key, amount, chosen);
      forall i | 0 <= i < n
        ensures f(i) == 0
      {
        assert Sum(rows, Share(key, amount, i)) == 0;
      }
      SigmaZero(n, f);
    } else {
      var front, r := rows[..|rows| - 1], rows[|rows| - 1];
      assert forall k :: 0 <= k < |front| ==> front[k] == rows[k];
      Exchange(n, front, key, amount, chosen);
      var f, g := OwnerTotal(front, key, amount, chosen), OwnerTotal(rows, key, amount, chosen);
      forall i | 0 <= i < n
        ensures g(i) == f(i) + (if i == key(r) && chosen(i) then amount(r) else 0)
      {
        assert Sum(rows, Share(key, amount, i)) == Sum(front, Share(key, amount, i)) + Share(key, amount, i)(r);
      }
      if 0 <= key(r) < n && chosen(key(r)) {
        SigmaChange(n, f, g, key(r), amount(r));
      } else {
        SigmaCong(n, f, g);
      }
    }
  }

  lemma {:induction false} SigmaZero(n: nat, f: int -> int)
    requires forall i :: 0 <= i < n ==> f(i) == 0
    ensures Sigma(n, f) == 0
  {
    if n > 0 {
      SigmaZero(n - 1, f);
    }
  }
}
