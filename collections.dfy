/** The JavaScript array idioms the services use (findIndex, filter, a summing reduce,
    reverse, and a sort by a numeric key), defined once with their meaning. */
module Collections {

  /** `s.findIndex(p)`: the first index whose element satisfies p, or -1 when none does. */
  function FindIndex<T>(s: seq<T>, p: T -> bool): (i: int)
    ensures -1 <= i < |s|
    ensures i == -1 <==> forall k :: 0 <= k < |s| ==> !p(s[k])
    ensures 0 <= i ==> p(s[i]) && forall k :: 0 <= k < i ==> !p(s[k])
    decreases |s|
  {
    if |s| == 0 then -1
    else if p(s[0]) then 0
    else
      var j := FindIndex(s[1..], p);
      assert forall k :: 1 <= k < |s| ==> s[k] == s[1..][k - 1];
      if j == -1 then -1 else j + 1
  }

  /** `s.filter(p)`: the elements satisfying p, in their original order. */
  function Filter<T>(s: seq<T>, p: T -> bool): (r: seq<T>)
    ensures |r| <= |s|
    ensures forall k :: 0 <= k < |r| ==> p(r[k])
    ensures forall k :: 0 <= k < |r| ==> r[k] in s
    ensures forall k :: 0 <= k < |s| ==> (s[k] in r <==> p(s[k]))
    ensures multiset(r) <= multiset(s)
    decreases |s|
  {
    if |s| == 0 then []
    else
      assert s == [s[0]] + s[1..];
      (if p(s[0]) then [s[0]] else []) + Filter(s[1..], p)
  }

  /** Filtering keeps every occurrence of an element that satisfies p and none of the others. */
  lemma {:induction false} FilterCounts<T>(s: seq<T>, p: T -> bool)
    ensures forall y :: multiset(Filter(s, p))[y] == if p(y) then multiset(s)[y] else 0
    decreases |s|
  {
    if |s| > 0 {
      FilterCounts(s[1..], p);
      assert s == [s[0]] + s[1..];
      FilterCons(s[0], s[1..], p);
    }
  }

  /** Filtering a non-empty sequence: its head, if it satisfies p, before the filtered tail. */
  lemma FilterHead<T>(s: seq<T>, p: T -> bool)
    requires |s| > 0
    ensures Filter(s, p) == (if p(s[0]) then [s[0]] else []) + Filter(s[1..], p)
  {
  }

  /** Filtering keeps the head exactly when it satisfies p. */
  lemma FilterCons<T>(x: T, t: seq<T>, p: T -> bool)
    ensures Filter([x] + t, p) == (if p(x) then [x] else []) + Filter(t, p)
  {
    assert ([x] + t)[1..] == t;
  }

  lemma {:induction false} FilterAppend<T>(s: seq<T>, t: seq<T>, p: T -> bool)
    ensures Filter(s + t, p) == Filter(s, p) + Filter(t, p)
    decreases |s|
  {
    if |s| == 0 {
      assert s + t == t;
    } else {
      assert (s + t)[1..] == s[1..] + t;
      FilterAppend(s[1..], t, p);
    }
  }

  /** Filtering keeps every element when all of them satisfy p. */
  lemma {:induction false} FilterAll<T>(s: seq<T>, p: T -> bool)
    requires forall k :: 0 <= k < |s| ==> p(s[k])
    ensures Filter(s, p) == s
    decreases |s|
  {
    if |s| > 0 {
      FilterAll(s[1..], p);
    }
  }

  /** Filtering keeps nothing when no element satisfies p. */
  lemma {:induction false} FilterNone<T>(s: seq<T>, p: T -> bool)
    requires forall k :: 0 <= k < |s| ==> !p(s[k])
    ensures Filter(s, p) == []
    decreases |s|
  {
    if |s| > 0 {
      FilterNone(s[1..], p);
    }
  }

  /** Filtering out the only element that fails p cuts exactly that element out. */
  lemma FilterDropsOne<T>(pre: seq<T>, x: T, post: seq<T>, p: T -> bool)
    requires forall k :: 0 <= k < |pre| ==> p(pre[k])
    requires !p(x)
    requires forall k :: 0 <= k < |post| ==> p(post[k])
    ensures Filter(pre + [x] + post, p) == pre + post
  {
    FilterAll(pre, p);
    FilterAll(post, p);
    assert Filter([x], p) == [];
    FilterAppend(pre, [x], p);
    assert Filter(pre + [x], p) == pre + [];
    assert pre + [] == pre;
    FilterAppend(pre + [x], post, p);
  }

  /** `s.reduce((acc, x) => acc + f(x), 0)`. */
  function SumOf<T>(s: seq<T>, f: T -> int): (total: int)
    ensures (forall k :: 0 <= k < |s| ==> f(s[k]) >= 0) ==> total >= 0
    decreases |s|
  {
    if |s| == 0 then 0
    else
      assert forall k :: 1 <= k < |s| ==> s[k] == s[1..][k - 1];
      f(s[0]) + SumOf(s[1..], f)
  }

  lemma {:induction false} SumOfAppend<T>(s: seq<T>, t: seq<T>, f: T -> int)
    ensures SumOf(s + t, f) == SumOf(s, f) + SumOf(t, f)
    decreases |s|
  {
    if |s| == 0 {
      assert s + t == t;
    } else {
      assert (s + t)[1..] == s[1..] + t;
      SumOfAppend(s[1..], t, f);
    }
  }

  /** Cutting one element out of a sequence lowers its sum by exactly that element's term. */
  lemma SumOfDropOne<T>(pre: seq<T>, x: T, post: seq<T>, f: T -> int)
    ensures SumOf(pre + [x] + post, f) == SumOf(pre + post, f) + f(x)
  {
    SumOfAppend(pre + [x], post, f);
    SumOfAppend(pre, [x], f);
    SumOfAppend(pre, post, f);
    assert SumOf([x], f) == f(x);
  }

  /** Replacing the element at i changes a sum by exactly the difference of the two terms. */
  lemma SumOfUpdate<T>(s: seq<T>, i: int, x: T, f: T -> int)
    requires 0 <= i < |s|
    ensures SumOf(s[i := x], f) == SumOf(s, f) - f(s[i]) + f(x)
  {
    var pre, post := s[..i], s[i + 1..];
    assert s == pre + [s[i]] + post;
    assert s[i := x] == pre + [x] + post;
    SumOfAppend(pre + [s[i]], post, f);
    SumOfAppend(pre, [s[i]], f);
    SumOfAppend(pre + [x], post, f);
    SumOfAppend(pre, [x], f);
  }

  /** Replacing the element at i changes a filtered sum, and the number of elements kept, by
      exactly what the old and the new element contribute. */
  lemma FilterUpdate<T>(s: seq<T>, i: int, x: T, p: T -> bool, f: T -> int)
    requires 0 <= i < |s|
    ensures |Filter(s[i := x], p)| == |Filter(s, p)| - (if p(s[i]) then 1 else 0) + (if p(x) then 1 else 0)
    ensures SumOf(Filter(s[i := x], p), f) == SumOf(Filter(s, p), f) - (if p(s[i]) then f(s[i]) else 0) + (if p(x) then f(x) else 0)
  {
    var pre, post := s[..i], s[i + 1..];
    assert s == pre + [s[i]] + post;
    assert s[i := x] == pre + [x] + post;
    FilterMiddle(pre, s[i], post, p, f);
    FilterMiddle(pre, x, post, p, f);
  }

  /** What one element between two others contributes to a filtered count and sum. */
  lemma FilterMiddle<T>(pre: seq<T>, y: T, post: seq<T>, p: T -> bool, f: T -> int)
    ensures |Filter(pre + [y] + post, p)| == |Filter(pre, p)| + |Filter(post, p)| + (if p(y) then 1 else 0)
    ensures SumOf(Filter(pre + [y] + post, p), f)
            == SumOf(Filter(pre, p), f) + SumOf(Filter(post, p), f) + (if p(y) then f(y) else 0)
  {
    FilterAppend(pre + [y], post, p);
    FilterAppend(pre, [y], p);
    var a := Filter([y], p);
    assert a == if p(y) then [y] else [];
    SumOfAppend(Filter(pre, p) + a, Filter(post, p), f);
    SumOfAppend(Filter(pre, p), a, f);
  }

  /** The elements of s, last first. */
  function Reverse<T>(s: seq<T>): (r: seq<T>)
    ensures |r| == |s|
    ensures forall k :: 0 <= k < |s| ==> r[k] == s[|s| - 1 - k]
    decreases |s|
  {
    if |s| == 0 then [] else [s[|s| - 1]] + Reverse(s[..|s| - 1])
  }

  predicate SortedBy<T>(s: seq<T>, key: T -> int) {
    forall i, j :: 0 <= i < j < |s| ==> key(s[i]) <= key(s[j])
  }

  /** Inserts x into a sequence sorted by key, before the first element whose key is not
      smaller, that is ahead of any elements with an equal key. */
  function InsertBy<T>(x: T, s: seq<T>, key: T -> int): (r: seq<T>)
    requires SortedBy(s, key)
    ensures SortedBy(r, key)
    ensures multiset(r) == multiset(s) + multiset{x}
    ensures |r| == |s| + 1
    ensures r[0] == x || (|s| > 0 && r[0] == s[0])
    decreases |s|
  {
    if |s| == 0 then [x]
    else if key(x) <= key(s[0]) then
      SortedCons(x, s, key);
      [x] + s
    else
      var rest := InsertBy(x, s[1..], key);
      assert s == [s[0]] + s[1..];
      assert key(s[0]) <= key(rest[0]);
      SortedCons(s[0], rest, key);
      [s[0]] + rest
  }

  /** An element no larger than the head of a sorted sequence can go in front of it. */
  lemma SortedCons<T>(a: T, s: seq<T>, key: T -> int)
    requires SortedBy(s, key)
    requires |s| == 0 || key(a) <= key(s[0])
    ensures SortedBy([a] + s, key)
  {
    var t := [a] + s;
    forall i, j | 0 <= i < j < |t|
      ensures key(t[i]) <= key(t[j])
    {
      if i == 0 && j > 1 {
        assert key(s[0]) <= key(s[j - 1]);
      }
    }
  }

  /** A store query's `.sort({ field: 1 })`: an ordering of s by ascending key, the order of
      equal keys left open. */
  function SortBy<T>(s: seq<T>, key: T -> int): (r: seq<T>)
    ensures SortedBy(r, key)
    ensures multiset(r) == multiset(s)
    decreases |s|
  {
    if |s| == 0 then []
    else
      assert s == [s[0]] + s[1..];
      InsertBy(s[0], SortBy(s[1..], key), key)
  }
}
