/** Sorting by an integer key, as `Array.prototype.sort` with a comparator of
    the form `(a, b) => key(b) - key(a)` orders records newest first. The sort
    is an insertion sort that places an element before the first one whose key
    does not exceed its own, so records with equal keys keep their relative
    order, as JavaScript's stable sort does. An ascending order is the same
    sort on the negated key. */
module Sorting {

  ghost predicate SortedDesc<T>(s: seq<T>, key: T -> int)
  {
    forall i, j :: 0 <= i < j < |s| ==> key(s[i]) >= key(s[j])
  }

  function InsertDesc<T>(x: T, s: seq<T>, key: T -> int): (r: seq<T>)
    requires SortedDesc(s, key)
    ensures SortedDesc(r, key)
    ensures multiset(r) == multiset(s) + multiset{x}
    ensures |r| == |s| + 1
  {
    if s == [] || key(s[0]) <= key(x) then
      [x] + s
    else
      var rest := InsertDesc(x, s[1..], key);
      assert s == [s[0]] + s[1..];
      HeadDominates(s[0], x, s[1..], rest, key);
      ConsSorted(s[0], rest, key);
      [s[0]] + rest
  }

  lemma ConsSorted<T>(h: T, rest: seq<T>, key: T -> int)
    requires SortedDesc(rest, key)
    requires forall j :: 0 <= j < |rest| ==> key(h) >= key(rest[j])
    ensures SortedDesc([h] + rest, key)
  {
    forall i, j | 0 <= i < j < |[h] + rest| ensures key(([h] + rest)[i]) >= key(([h] + rest)[j]) {
      assert ([h] + rest)[j] == rest[j - 1];
      if i > 0 {
        assert ([h] + rest)[i] == rest[i - 1];
      }
    }
  }

  /** A head at least as large as everything in `t` and as `x` is at least as
      large as everything in a rearrangement of `t` with `x` added. */
  lemma HeadDominates<T>(h: T, x: T, t: seq<T>, rest: seq<T>, key: T -> int)
    requires SortedDesc([h] + t, key) && key(h) >= key(x)
    requires multiset(rest) == multiset(t) + multiset{x}
    ensures forall j :: 0 <= j < |rest| ==> key(h) >= key(rest[j])
  {
    forall j | 0 <= j < |rest| ensures key(h) >= key(rest[j]) {
      assert rest[j] in multiset(rest);
      if rest[j] != x {
        assert ([h] + t)[0] == h;
        assert rest[j] in multiset(t);
        var k :| 0 <= k < |t| && t[k] == rest[j];
        assert ([h] + t)[k + 1] == rest[j];
      }
    }
  }

  /** The records of `s`, largest key first. */
  function SortDesc<T>(s: seq<T>, key: T -> int): (r: seq<T>)
    ensures SortedDesc(r, key)
    ensures multiset(r) == multiset(s)
    ensures |r| == |s|
  {
    if s == [] then []
    else
      assert s == [s[0]] + s[1..];
      InsertDesc(s[0], SortDesc(s[1..], key), key)
  }

  /** The position of the first element with the largest key. */
  function FirstMaxIndex<T>(s: seq<T>, key: T -> int): (i: nat)
    requires s != []
    ensures i < |s|
    ensures forall j :: 0 <= j < |s| ==> key(s[j]) <= key(s[i])
    ensures forall j :: 0 <= j < i ==> key(s[j]) < key(s[i])
  {
    if |s| == 1 then 0
    else
      var k := FirstMaxIndex(s[1..], key);
      assert forall j :: 1 <= j < |s| ==> s[j] == s[1..][j - 1];
      if key(s[0]) >= key(s[1..][k]) then 0 else k + 1
  }

  /** Inserting `x` puts it first exactly when the current head's key does
      not exceed its own. */
  lemma InsertDescHead<T>(x: T, s: seq<T>, key: T -> int)
    requires SortedDesc(s, key)
    ensures InsertDesc(x, s, key)[0] == if s == [] || key(s[0]) <= key(x) then x else s[0]
  {
  }

  /** Stability at the head: the sort puts first the earliest element with
      the largest key. */
  lemma {:induction false} SortDescHead<T>(s: seq<T>, key: T -> int)
    requires s != []
    ensures SortDesc(s, key)[0] == s[FirstMaxIndex(s, key)]
  {
    if |s| > 1 {
      var t := SortDesc(s[1..], key);
      SortDescHead(s[1..], key);
      InsertDescHead(s[0], t, key);
    }
  }

  /** The first `n` elements, or all of them when there are fewer
      (`s.slice(0, n)`). */
  function Take<T>(s: seq<T>, n: nat): (r: seq<T>)
    ensures |r| == if |s| < n then |s| else n
    ensures r == s[..|r|]
  {
    if |s| <= n then s else s[..n]
  }

  /** Taking a prefix of a sorted sequence keeps the largest keys: nothing
      left out has a larger key than anything kept. */
  lemma TakeKeepsLargest<T>(s: seq<T>, key: T -> int, n: nat)
    requires SortedDesc(s, key)
    ensures forall x :: x in s && x !in Take(s, n) ==>
      forall i :: 0 <= i < |Take(s, n)| ==> key(Take(s, n)[i]) >= key(x)
  {
    var r := Take(s, n);
    forall x | x in s && x !in r ensures forall i :: 0 <= i < |r| ==> key(r[i]) >= key(x) {
      var j :| 0 <= j < |s| && s[j] == x;
      assert j >= |r|;
    }
  }

  /** The first `n` of a sequence sorted by key: sorted, drawn from it, and no
      element left out has a larger key than one kept. */
  lemma TopOfSorted<T>(s: seq<T>, key: T -> int, n: nat)
    ensures SortedDesc(Take(SortDesc(s, key), n), key)
    ensures multiset(Take(SortDesc(s, key), n)) <= multiset(s)
    ensures forall x :: x in s && x !in Take(SortDesc(s, key), n) ==>
      forall i :: 0 <= i < |Take(SortDesc(s, key), n)| ==> key(Take(SortDesc(s, key), n)[i]) >= key(x)
  {
    var sorted := SortDesc(s, key);
    var r := Take(sorted, n);
    TakeKeepsLargest(sorted, key, n);
    PrefixSubMultiset(sorted, |r|);
    forall x | x in s ensures x in sorted {
      assert x in multiset(s);
    }
  }

  lemma PrefixSubMultiset<T>(s: seq<T>, k: nat)
    requires k <= |s|
    ensures multiset(s[..k]) <= multiset(s)
  {
    assert s == s[..k] + s[k..];
  }
}
