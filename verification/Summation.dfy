/** Sums over the rows of a table, and how they move when a row is added or replaced. */
module Summation {

  function Sum<T>(s: seq<T>, f: T -> int): int {
    if |s| == 0 then 0 else Sum(s[..|s| - 1], f) + f(s[|s| - 1])
  }

  lemma Append<T>(s: seq<T>, x: T, f: T -> int)
    ensures Sum(s + [x], f) == Sum(s, f) + f(x)
  {
    assert (s + [x])[..|s|] == s;
  }

  lemma {:induction false} Concat<T>(s: seq<T>, t: seq<T>, f: T -> int)
    ensures Sum(s + t, f) == Sum(s, f) + Sum(t, f)
  {
    if |t| == 0 {
      assert s + t == s;
    } else {
      Concat(s, t[..|t| - 1], f);
      assert (s + t)[..|s + t| - 1] == s + t[..|t| - 1];
    }
  }

  lemma {:induction false} Update<T>(s: seq<T>, i: nat, x: T, f: T -> int)
    requires i < |s|
    ensures Sum(s[i := x], f) == Sum(s, f) - f(s[i]) + f(x)
  {
    var n := |s| - 1;
    if i == n {
      assert s[i := x][..n] == s[..n];
    } else {
      Update(s[..n], i, x, f);
      assert s[i := x][..n] == s[..n][i := x];
    }
  }

  lemma {:induction false} Same<T>(s: seq<T>, f: T -> int, g: T -> int)
    requires forall x | x in s :: f(x) == g(x)
    ensures Sum(s, f) == Sum(s, g)
  {
    if |s| > 0 {
      Same(s[..|s| - 1], f, g);
    }
  }

  lemma {:induction false} Zero<T>(s: seq<T>, f: T -> int)
    requires forall x | x in s :: f(x) == 0
    ensures Sum(s, f) == 0
  {
    if |s| > 0 {
      Zero(s[..|s| - 1], f);
    }
  }

  lemma {:induction false} AtMost<T>(s: seq<T>, f: T -> int, g: T -> int)
    requires forall x | x in s :: f(x) <= g(x)
    ensures Sum(s, f) <= Sum(s, g)
  {
    if |s| > 0 {
      AtMost(s[..|s| - 1], f, g);
    }
  }

  /** A pointwise larger sum is larger by at least the gap at any one row. */
  lemma {:induction false} Gap<T>(s: seq<T>, f: T -> int, g: T -> int, i: nat)
    requires i < |s|
    requires forall x | x in s :: f(x) <= g(x)
    ensures Sum(s, g) - Sum(s, f) >= g(s[i]) - f(s[i])
  {
    var n := |s| - 1;
    if i == n {
      AtMost(s[..n], f, g);
    } else {
      Gap(s[..n], f, g, i);
    }
  }

  lemma {:induction false} NonNegative<T>(s: seq<T>, f: T -> int)
    requires forall x | x in s :: f(x) >= 0
    ensures Sum(s, f) >= 0
    ensures forall x | x in s :: f(x) <= Sum(s, f)
  {
    if |s| > 0 {
      NonNegative(s[..|s| - 1], f);
    }
  }

  lemma {:induction false} Plus<T>(s: seq<T>, f: T -> int, g: T -> int, h: T -> int)
    requires forall x | x in s :: h(x) == f(x) + g(x)
    ensures Sum(s, h) == Sum(s, f) + Sum(s, g)
  {
    if |s| > 0 {
      Plus(s[..|s| - 1], f, g, h);
    }
  }

  /** The order in which a query returns its rows never matters to a sum. */
  lemma {:induction false} Permute<T>(s: seq<T>, t: seq<T>, f: T -> int)
    requires multiset(s) == multiset(t)
    ensures Sum(s, f) == Sum(t, f)
  {
    if |s| == 0 {
      assert |multiset(t)| == 0;
    } else {
      var n := |s| - 1;
      assert s == s[..n] + [s[n]];
      assert s[n] in multiset(t);
      var j :| 0 <= j < |t| && t[j] == s[n];
      var rest := t[..j] + t[j + 1..];
      assert t == t[..j] + [t[j]] + t[j + 1..];
      assert multiset(rest) == multiset(t) - multiset{s[n]} == multiset(s[..n]);
      Permute(s[..n], rest, f);
      Concat(t[..j], t[j + 1..], f);
      Append(t[..j], t[j], f);
      Concat(t[..j] + [t[j]], t[j + 1..], f);
    }
  }

  /** Only one element weighs anything. */
  lemma {:induction false} Only<T>(s: seq<T>, f: T -> int, k: nat)
    requires k < |s| && forall i :: 0 <= i < |s| && i != k ==> f(s[i]) == 0
    ensures Sum(s, f) == f(s[k])
  {
    var n := |s| - 1;
    if k == n {
      Zero(s[..n], f);
    } else {
      Only(s[..n], f, k);
    }
  }
}
