/**
 * Descending order by a numeric key, as `sorted(..., key=k, reverse=True)`,
 * `list.sort(key=k, reverse=True)` and `ORDER BY k DESC` produce it, and
 * the ascending order of `sorted(...)`.
 */
module Sorting {

  /** Keys never increase along the sequence. */
  ghost predicate Descending<T>(xs: seq<T>, key: T -> real)
  {
    forall i, j :: 0 <= i < j < |xs| ==> key(xs[i]) >= key(xs[j])
  }

  /** Put `x` into a descending sequence, ahead of the elements with an equal key. */
  function Insert<T>(x: T, xs: seq<T>, key: T -> real): (r: seq<T>)
    requires Descending(xs, key)
    ensures multiset(r) == multiset(xs) + multiset{x}
    ensures |r| == |xs| + 1
    ensures Descending(r, key)
    ensures r[0] == x || (xs != [] && r[0] == xs[0])
  {
    if xs == [] then [x]
    else if key(x) >= key(xs[0]) then
      ConsDescending(x, xs, key);
      [x] + xs
    else
      DescendingTail(xs, key);
      var tail := Insert(x, xs[1..], key);
      assert xs == [xs[0]] + xs[1..];
      assert multiset([xs[0]] + tail) == multiset{xs[0]} + multiset(xs[1..]) + multiset{x};
      ConsDescending(xs[0], tail, key);
      [xs[0]] + tail
  }

  /** Dropping the head keeps a sequence descending. */
  lemma DescendingTail<T>(xs: seq<T>, key: T -> real)
    requires xs != [] && Descending(xs, key)
    ensures Descending(xs[1..], key)
  {
    forall i, j | 0 <= i < j < |xs| - 1
      ensures key(xs[1..][i]) >= key(xs[1..][j])
    {
      assert xs[1..][i] == xs[i + 1] && xs[1..][j] == xs[j + 1];
    }
  }

  /** A head whose key is at least the next one's extends a descending sequence. */
  lemma ConsDescending<T>(a: T, t: seq<T>, key: T -> real)
    requires Descending(t, key) && (t != [] ==> key(a) >= key(t[0]))
    ensures Descending([a] + t, key)
  {
    var r := [a] + t;
    forall i, j | 0 <= i < j < |r|
      ensures key(r[i]) >= key(r[j])
    {
      if i == 0 {
        assert r[j] == t[j - 1];
        if j > 1 {
          assert key(t[0]) >= key(t[j - 1]);
        }
      } else {
        assert r[i] == t[i - 1] && r[j] == t[j - 1];
      }
    }
  }

  /** Insertion sort: the same elements, keys non-increasing. */
  function SortDesc<T>(xs: seq<T>, key: T -> real): (r: seq<T>)
    ensures multiset(r) == multiset(xs)
    ensures |r| == |xs|
    ensures Descending(r, key)
  {
    if xs == [] then []
    else
      assert xs == [xs[0]] + xs[1..];
      Insert(xs[0], SortDesc(xs[1..], key), key)
  }

  /** Sorting keeps exactly the elements it was given. */
  lemma SortDescSameElements<T>(xs: seq<T>, key: T -> real)
    ensures forall x :: x in SortDesc(xs, key) <==> x in xs
  {
    var r := SortDesc(xs, key);
    forall x
      ensures x in r <==> x in xs
    {
      assert x in r <==> x in multiset(r);
      assert x in xs <==> x in multiset(xs);
    }
  }

  /** Keys never decrease along the sequence. */
  ghost predicate Ascending<T>(xs: seq<T>, key: T -> real)
  {
    forall i, j :: 0 <= i < j < |xs| ==> key(xs[i]) <= key(xs[j])
  }

  /** Ascending order: the descending sort on the negated key. */
  function SortAsc<T>(xs: seq<T>, key: T -> real): (r: seq<T>)
    ensures multiset(r) == multiset(xs)
    ensures |r| == |xs|
    ensures Ascending(r, key)
  {
    var r := SortDesc(xs, x => -key(x));
    assert forall i, j :: 0 <= i < j < |r| ==> -key(r[i]) >= -key(r[j]);
    r
  }
}
