/**
 * Grouping records under a key with a running count and total, as the
 * handlers do with a dict filled in a `for` loop
 * (`if k not in d: d[k] = 0` then `d[k] += value`), and the partition
 * facts behind such tables: the per-key counts add up to the number of
 * records and the per-key totals to the overall total.
 */
module Grouping {

  /** What a dict entry accumulates: how many records, and the sum of their values. */
  datatype Bucket = Bucket(count: int, total: real)

  /** The records with key `k`, in their original order. */
  function Matching<T, K(==)>(rs: seq<T>, key: T -> K, k: K): (r: seq<T>)
    ensures |r| <= |rs|
  {
    if rs == [] then []
    else Matching(rs[..|rs| - 1], key, k) + (if key(rs[|rs| - 1]) == k then [rs[|rs| - 1]] else [])
  }

  /** The sum of the records' values. */
  function Sum<T>(rs: seq<T>, val: T -> real): real
  {
    if rs == [] then 0.0 else Sum(rs[..|rs| - 1], val) + val(rs[|rs| - 1])
  }

  /** The bucket of key `k`: its records counted and their values summed. */
  function BucketOf<T, K(==)>(rs: seq<T>, key: T -> K, val: T -> real, k: K): Bucket
  {
    Bucket(|Matching(rs, key, k)|, Sum(Matching(rs, key, k), val))
  }

  /** The dict the loop builds: a bucket for exactly the keys that occur. */
  ghost predicate IsGrouping<T, K(!new)>(groups: map<K, Bucket>, rs: seq<T>, key: T -> K, val: T -> real)
  {
    (forall k :: k in groups <==> Matching(rs, key, k) != []) &&
    (forall k :: k in groups ==> groups[k] == BucketOf(rs, key, val, k))
  }

  /** Keys listed once each. */
  ghost predicate Distinct<K>(ks: seq<K>)
  {
    forall i, j :: 0 <= i < j < |ks| ==> ks[i] != ks[j]
  }

  /** A key listed once each has at most one occurrence. */
  lemma {:induction false} DistinctOnce<K>(ks: seq<K>, k: K)
    requires Distinct(ks)
    ensures multiset(ks)[k] <= 1
  {
    if ks != [] {
      var init := ks[..|ks| - 1];
      assert ks == init + [ks[|ks| - 1]];
      DistinctOnce(init, k);
      if ks[|ks| - 1] == k {
        assert k !in init;
      }
    }
  }

  /** Putting distinct keys in another order (a sort, say) keeps them distinct. */
  lemma ReorderedDistinct<K>(ks: seq<K>, ks': seq<K>)
    requires Distinct(ks) && multiset(ks') == multiset(ks)
    ensures Distinct(ks')
  {
    forall i, j | 0 <= i < j < |ks'|
      ensures ks'[i] != ks'[j]
    {
      if ks'[i] == ks'[j] {
        var k := ks'[i];
        assert ks' == ks'[..j] + ks'[j..];
        assert k in ks'[..j] && k in ks'[j..];
        assert multiset(ks')[k] == multiset(ks'[..j])[k] + multiset(ks'[j..])[k];
        DistinctOnce(ks, k);
        assert false;
      }
    }
  }

  /**
   * The grouping loop: the dict it fills, and its keys in insertion order
   * (the order a Python dict keeps).
   */
  method GroupBy<T, K(==,!new)>(rs: seq<T>, key: T -> K, val: T -> real) returns (groups: map<K, Bucket>, order: seq<K>)
    ensures IsGrouping(groups, rs, key, val)
    ensures Distinct(order) && forall k :: k in order <==> k in groups
  {
    groups := map[];
    order := [];
    for i := 0 to |rs|
      invariant IsGrouping(groups, rs[..i], key, val)
      invariant Distinct(order) && forall k :: k in order <==> k in groups
    {
      PrefixSnoc(rs, i);
      var k := key(rs[i]);
      ghost var before, listed := groups, order;
      groups, order := AddRecord(groups, order, k, val(rs[i]));
      GroupingStep(before, groups, rs[..i], rs[i], rs[..i + 1], key, val);
      OrderStep(listed, order, before, groups, k);
    }
    assert rs[..|rs|] == rs;
  }

  /** The dict after one record with key `k` and value `v`: its bucket, empty if new, counts one more. */
  function Added<K>(groups: map<K, Bucket>, k: K, v: real): (g: map<K, Bucket>)
    ensures g.Keys == groups.Keys + {k}
    ensures forall j :: j in groups && j != k ==> g[j] == groups[j]
  {
    var b := if k in groups then groups[k] else Bucket(0, 0.0);
    groups[k := Bucket(b.count + 1, b.total + v)]
  }

  /** `if k not in d: d[k] = 0` then `d[k] += v`, noting a new key in insertion order. */
  method AddRecord<K>(groups: map<K, Bucket>, order: seq<K>, k: K, v: real) returns (groups': map<K, Bucket>, order': seq<K>)
    ensures groups' == Added(groups, k, v)
    ensures order' == if k in groups then order else order + [k]
  {
    groups', order' := groups, order;
    if k !in groups' {
      groups' := groups'[k := Bucket(0, 0.0)];
      order' := order' + [k];
    }
    groups' := groups'[k := Bucket(groups'[k].count + 1, groups'[k].total + v)];
  }

  /** The first `i + 1` records are the first `i` and then record `i`. */
  lemma PrefixSnoc<T>(rs: seq<T>, i: int)
    requires 0 <= i < |rs|
    ensures rs[..i + 1] == rs[..i] + [rs[i]]
  {
  }

  /** Listing a key the first time it is seen keeps the list the dict's keys, each once. */
  lemma OrderStep<K>(order: seq<K>, order': seq<K>, groups: map<K, Bucket>, groups': map<K, Bucket>, k: K)
    requires Distinct(order) && forall j :: j in order <==> j in groups
    requires groups'.Keys == groups.Keys + {k}
    requires order' == if k in groups then order else order + [k]
    ensures Distinct(order') && forall j :: j in order' <==> j in groups'
  {
  }

  /** Counting one more record in its key's bucket keeps the dict a grouping of the longer list. */
  lemma GroupingStep<T, K(!new)>(groups: map<K, Bucket>, groups': map<K, Bucket>, rs: seq<T>, x: T, rs': seq<T>,
                                 key: T -> K, val: T -> real)
    requires IsGrouping(groups, rs, key, val)
    requires groups' == Added(groups, key(x), val(x)) && rs' == rs + [x]
    ensures IsGrouping(groups', rs', key, val)
  {
    var kx := key(x);
    MatchingSnoc(rs, x, key, val);
    forall k
      ensures (k in groups' <==> Matching(rs + [x], key, k) != []) &&
              (k in groups' ==> groups'[k] == BucketOf(rs + [x], key, val, k))
    {
      if k == kx {
        if kx !in groups {
          assert Matching(rs, key, kx) == [];
        }
        assert Matching(rs + [x], key, kx) == Matching(rs, key, kx) + [x];
      } else {
        assert Matching(rs + [x], key, k) == Matching(rs, key, k) + [];
      }
    }
  }

  /** One more record extends its own key's records and no other key's. */
  lemma MatchingSnoc<T, K>(rs: seq<T>, x: T, key: T -> K, val: T -> real)
    ensures forall k :: Matching(rs + [x], key, k) == Matching(rs, key, k) + (if key(x) == k then [x] else [])
    ensures forall k :: key(x) != k ==> BucketOf(rs + [x], key, val, k) == BucketOf(rs, key, val, k)
    ensures BucketOf(rs + [x], key, val, key(x)) ==
      Bucket(BucketOf(rs, key, val, key(x)).count + 1, BucketOf(rs, key, val, key(x)).total + val(x))
  {
    var rs' := rs + [x];
    assert rs'[..|rs'| - 1] == rs;
    forall k | key(x) != k
      ensures Matching(rs', key, k) == Matching(rs, key, k)
    {
      assert Matching(rs, key, k) + [] == Matching(rs, key, k);
    }
    var m := Matching(rs, key, key(x)) + [x];
    assert m[..|m| - 1] == Matching(rs, key, key(x));
  }

  /** A record's own key has at least that record. */
  lemma {:induction false} MatchingOwnKey<T, K>(rs: seq<T>, key: T -> K, i: int)
    requires 0 <= i < |rs|
    ensures Matching(rs, key, key(rs[i])) != []
  {
    var init := rs[..|rs| - 1];
    if i < |rs| - 1 {
      MatchingOwnKey(init, key, i);
      assert init[i] == rs[i];
    }
  }

  /** A key's records are records of the list, with that key. */
  lemma {:induction false} MatchingSound<T, K>(rs: seq<T>, key: T -> K, k: K)
    ensures forall x :: x in Matching(rs, key, k) ==> x in rs && key(x) == k
  {
    if rs != [] {
      var init := rs[..|rs| - 1];
      MatchingSound(init, key, k);
      assert rs == init + [rs[|rs| - 1]];
    }
  }

  /** A non-empty list of positive values has a positive sum. */
  lemma {:induction false} SumPositive<T>(rs: seq<T>, val: T -> real)
    requires rs != [] && forall i :: 0 <= i < |rs| ==> val(rs[i]) > 0.0
    ensures Sum(rs, val) > 0.0
  {
    var init := rs[..|rs| - 1];
    if init != [] {
      SumPositive(init, val);
    }
  }

  // ----- partition -----

  /** The counts of the keys `ks`, added up. */
  function CountSum<T, K(==)>(rs: seq<T>, key: T -> K, ks: seq<K>): int
  {
    if ks == [] then 0 else CountSum(rs, key, ks[..|ks| - 1]) + |Matching(rs, key, ks[|ks| - 1])|
  }

  /** The totals of the keys `ks`, added up. */
  function TotalSum<T, K(==)>(rs: seq<T>, key: T -> K, val: T -> real, ks: seq<K>): real
  {
    if ks == [] then 0.0 else TotalSum(rs, key, val, ks[..|ks| - 1]) + Sum(Matching(rs, key, ks[|ks| - 1]), val)
  }

  /** Adding a record adds one to the count sum, and its value to the total sum, when its key is listed. */
  lemma {:induction false} SumsSnoc<T, K>(rs: seq<T>, x: T, key: T -> K, val: T -> real, ks: seq<K>)
    requires Distinct(ks)
    ensures CountSum(rs + [x], key, ks) == CountSum(rs, key, ks) + (if key(x) in ks then 1 else 0)
    ensures TotalSum(rs + [x], key, val, ks) == TotalSum(rs, key, val, ks) + (if key(x) in ks then val(x) else 0.0)
  {
    if ks != [] {
      var init, last := ks[..|ks| - 1], ks[|ks| - 1];
      assert ks == init + [last];
      assert Distinct(init);
      SumsSnoc(rs, x, key, val, init);
      MatchingSnoc(rs, x, key, val);
      var before, after := Matching(rs, key, last), Matching(rs + [x], key, last);
      if key(x) == last {
        assert key(x) !in init;
        assert after == before + [x];
        assert after[..|after| - 1] == before;
      } else {
        assert after == before;
      }
    }
  }

  /**
   * Counting per key over a list naming every occurring key once accounts for
   * every record exactly once: the counts add up to the number of records and
   * the totals to the overall sum.
   */
  lemma {:induction false} Partition<T, K>(rs: seq<T>, key: T -> K, val: T -> real, ks: seq<K>)
    requires Distinct(ks)
    requires forall i :: 0 <= i < |rs| ==> key(rs[i]) in ks
    ensures CountSum(rs, key, ks) == |rs|
    ensures TotalSum(rs, key, val, ks) == Sum(rs, val)
  {
    if rs == [] {
      EmptySums(key, val, ks);
    } else {
      var init := rs[..|rs| - 1];
      var x := rs[|rs| - 1];
      assert init + [x] == rs;
      Partition(init, key, val, ks);
      SumsSnoc(init, x, key, val, ks);
    }
  }

  lemma {:induction false} EmptySums<T, K>(key: T -> K, val: T -> real, ks: seq<K>)
    ensures CountSum([], key, ks) == 0 && TotalSum([], key, val, ks) == 0.0
  {
    if ks != [] {
      EmptySums(key, val, ks[..|ks| - 1]);
    }
  }

  /** The same partition read off a grouped dict whose keys are listed once each: its buckets add up. */
  lemma GroupedPartition<T, K(!new)>(groups: map<K, Bucket>, rs: seq<T>, key: T -> K, val: T -> real, ks: seq<K>)
    requires IsGrouping(groups, rs, key, val)
    requires Distinct(ks) && forall k :: k in ks <==> k in groups
    ensures CountSum(rs, key, ks) == |rs|
    ensures TotalSum(rs, key, val, ks) == Sum(rs, val)
  {
    forall i | 0 <= i < |rs|
      ensures key(rs[i]) in ks
    {
      MatchingOwnKey(rs, key, i);
    }
    Partition(rs, key, val, ks);
  }
}
