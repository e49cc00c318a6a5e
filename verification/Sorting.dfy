/** sort.Sort over a key: a permutation in ascending order of the key. */
module Sorting {
  ghost predicate SortedBy<T>(xs: seq<T>, key: T -> int) {
    forall i, j :: 0 <= i < j < |xs| ==> key(xs[i]) <= key(xs[j])
  }

  lemma InsertKeepsOrder<T>(ys: seq<T>, i: nat, x: T, key: T -> int)
    requires SortedBy(ys, key) && i <= |ys|
    requires (forall j :: 0 <= j < i ==> key(ys[j]) <= key(x)) && (i < |ys| ==> key(x) <= key(ys[i]))
    ensures SortedBy(ys[..i] + [x] + ys[i..], key)
    ensures multiset(ys[..i] + [x] + ys[i..]) == multiset(ys) + multiset{x}
  {
    assert ys == ys[..i] + ys[i..];
  }

  method Insert<T>(ys: seq<T>, x: T, key: T -> int) returns (zs: seq<T>)
    requires SortedBy(ys, key)
    ensures SortedBy(zs, key) && multiset(zs) == multiset(ys) + multiset{x}
  {
    var i := 0;
    while i < |ys| && key(ys[i]) <= key(x)
      invariant 0 <= i <= |ys|
      invariant forall j :: 0 <= j < i ==> key(ys[j]) <= key(x)
    {
      i := i + 1;
    }
    InsertKeepsOrder(ys, i, x, key);
    zs := ys[..i] + [x] + ys[i..];
  }

  lemma SameElements<T>(xs: seq<T>, ys: seq<T>)
    requires multiset(xs) == multiset(ys)
    ensures |xs| == |ys| && forall x :: x in xs <==> x in ys
  {
    assert |multiset(xs)| == |xs| && |multiset(ys)| == |ys|;
    forall x ensures x in xs <==> x in ys {
      assert x in xs <==> x in multiset(xs);
      assert x in ys <==> x in multiset(ys);
    }
  }

  ghost predicate EachOnce<T>(xs: seq<T>) {
    forall i, j :: 0 <= i < j < |xs| ==> xs[i] != xs[j]
  }

  lemma AppendOnce<T>(xs: seq<T>, x: T)
    requires EachOnce(xs) && x !in xs
    ensures EachOnce(xs + [x])
  {
  }

  lemma {:induction false} CountedOnce<T>(xs: seq<T>, x: T)
    requires EachOnce(xs)
    ensures multiset(xs)[x] <= 1
  {
    if xs != [] {
      assert xs == [xs[0]] + xs[1..];
      CountedOnce(xs[1..], x);
      assert xs[0] !in xs[1..];
    }
  }

  lemma CountedTwice<T>(xs: seq<T>, i: nat, j: nat)
    requires i < j < |xs| && xs[i] == xs[j]
    ensures multiset(xs)[xs[i]] >= 2
  {
    assert xs == xs[..i] + [xs[i]] + xs[i + 1..j] + [xs[j]] + xs[j + 1..];
  }

  lemma PermutedOnce<T>(xs: seq<T>, ys: seq<T>)
    requires EachOnce(xs) && multiset(ys) == multiset(xs)
    ensures EachOnce(ys)
  {
    forall i, j | 0 <= i < j < |ys| ensures ys[i] != ys[j] {
      if ys[i] == ys[j] {
        CountedTwice(ys, i, j);
        CountedOnce(xs, ys[i]);
        assert false;
      }
    }
  }

  method SortBy<T>(xs: seq<T>, key: T -> int) returns (ys: seq<T>)
    ensures SortedBy(ys, key) && multiset(ys) == multiset(xs)
    ensures |ys| == |xs| && forall x :: x in ys <==> x in xs
  {
    ys := [];
    for n := 0 to |xs|
      invariant SortedBy(ys, key) && multiset(ys) == multiset(xs[..n])
    {
      ys := Insert(ys, xs[n], key);
      assert xs[..n + 1] == xs[..n] + [xs[n]];
    }
    assert xs[..|xs|] == xs;
    SameElements(ys, xs);
  }
}
