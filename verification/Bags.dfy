/** Multisets gathered from the elements of a sequence: who holds what, and how often. */
module Bags {

  /** The sum of `f(x)` over the elements of `s`. */
  ghost function Total<T, X>(s: seq<T>, f: T -> multiset<X>): multiset<X> {
    if s == [] then multiset{} else Total(s[..|s| - 1], f) + f(s[|s| - 1])
  }

  lemma TotalAppend<T, X>(s: seq<T>, x: T, f: T -> multiset<X>)
    ensures Total(s + [x], f) == Total(s, f) + f(x)
  {
    assert (s + [x])[..|s|] == s;
  }

  lemma {:induction false} TotalConcat<T, X>(s: seq<T>, t: seq<T>, f: T -> multiset<X>)
    ensures Total(s + t, f) == Total(s, f) + Total(t, f)
  {
    if t == [] {
      assert s + t == s;
    } else {
      var k := |t| - 1;
      assert s + t == (s + t[..k]) + [t[k]];
      TotalAppend(s + t[..k], t[k], f);
      TotalConcat(s, t[..k], f);
    }
  }

  /** Replacing one element moves exactly its contribution. */
  lemma {:induction false} TotalUpdate<T, X>(s: seq<T>, i: nat, x: T, f: T -> multiset<X>)
    requires i < |s|
    ensures Total(s[i := x], f) + f(s[i]) == Total(s, f) + f(x)
  {
    var k := |s| - 1;
    if i == k {
      assert s[i := x][..k] == s[..k];
    } else {
      assert s[i := x][..k] == s[..k][i := x];
      TotalUpdate(s[..k], i, x, f);
      var before, after := Total(s[..k], f), Total(s[..k][i := x], f);
      assert Total(s[i := x], f) + f(s[i]) == (after + f(s[i])) + f(s[k]);
      assert Total(s, f) + f(x) == (before + f(x)) + f(s[k]);
    }
  }

  /** Two different elements contribute separately. */
  lemma {:induction false} TotalOfTwo<T, X>(s: seq<T>, i: nat, j: nat, f: T -> multiset<X>)
    requires i < j < |s|
    ensures f(s[i]) + f(s[j]) <= Total(s, f)
  {
    var k := |s| - 1;
    if j == k {
      TotalOfOne(s[..k], i, f);
    } else {
      TotalOfTwo(s[..k], i, j, f);
    }
  }

  lemma {:induction false} TotalOfOne<T, X>(s: seq<T>, i: nat, f: T -> multiset<X>)
    requires i < |s|
    ensures f(s[i]) <= Total(s, f)
  {
    if i < |s| - 1 {
      TotalOfOne(s[..|s| - 1], i, f);
    }
  }

  /** What is in the total comes from some element. */
  lemma {:induction false} TotalHolder<T, X>(s: seq<T>, x: X, f: T -> multiset<X>) returns (i: nat)
    requires x in Total(s, f)
    ensures i < |s| && x in f(s[i])
  {
    var k := |s| - 1;
    if x in f(s[k]) {
      i := k;
    } else {
      i := TotalHolder(s[..k], x, f);
    }
  }

  lemma {:induction false} TotalEmpty<T, X>(s: seq<T>, f: T -> multiset<X>)
    requires forall i :: 0 <= i < |s| ==> f(s[i]) == multiset{}
    ensures Total(s, f) == multiset{}
  {
    if s != [] {
      TotalEmpty(s[..|s| - 1], f);
    }
  }
}
