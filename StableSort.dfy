/** The stable descending sort that `OrderByDescending` performs, computed on
    the positions of a sequence of keys, and the sums that the sort leaves
    unchanged. */
module StableSort {

  /** Position `a` goes before position `b`: the larger key first and, among
      equal keys, the earlier position (the sort is stable). */
  predicate Precedes(keys: seq<real>, a: nat, b: nat)
    requires a < |keys| && b < |keys|
  {
    keys[a] > keys[b] || (keys[a] == keys[b] && a < b)
  }

  predicate InRange(keys: seq<real>, order: seq<nat>) {
    forall p :: 0 <= p < |order| ==> order[p] < |keys|
  }

  /** `order` lists positions of `keys`, each strictly before the next. */
  predicate SortedBy(keys: seq<real>, order: seq<nat>) {
    InRange(keys, order) &&
    forall p, q :: 0 <= p < q < |order| ==> Precedes(keys, order[p], order[q])
  }

  /** `order` holds exactly the positions 0 .. n-1, each once. */
  predicate IsPermutationOf(order: seq<nat>, n: nat) {
    |order| == n &&
    (forall k :: k in order ==> k < n) &&
    (forall k: nat :: k < n ==> k in order)
  }

  /** Inserts position `i` after every position that goes before it. */
  function Insert(keys: seq<real>, order: seq<nat>, i: nat): (r: seq<nat>)
    requires InRange(keys, order) && i < |keys|
    ensures |r| == |order| + 1 && InRange(keys, r)
    ensures forall k :: k in r <==> k in order || k == i
  {
    if order == [] then [i]
    else if Precedes(keys, order[0], i) then [order[0]] + Insert(keys, order[1..], i)
    else [i] + order
  }

  lemma {:induction false} InsertKeepsSorted(keys: seq<real>, order: seq<nat>, i: nat)
    requires SortedBy(keys, order) && i < |keys| && i !in order
    ensures SortedBy(keys, Insert(keys, order, i))
  {
    if order != [] {
      var r := Insert(keys, order, i);
      if Precedes(keys, order[0], i) {
        var rest := order[1..];
        InsertKeepsSorted(keys, rest, i);
        var tail := Insert(keys, rest, i);
        assert r == [order[0]] + tail;
        forall q | 0 <= q < |tail|
          ensures Precedes(keys, order[0], tail[q])
        {
          if tail[q] != i {
            assert tail[q] in rest;
            var p :| 0 <= p < |rest| && rest[p] == tail[q];
            assert order[p + 1] == tail[q];
          }
        }
      } else {
        assert r == [i] + order;
        forall q | 0 < q < |r|
          ensures Precedes(keys, i, r[q])
        {
          assert r[q] == order[q - 1];
          assert order[0] != i;
        }
      }
    }
  }

  /** The positions 0 .. n-1 of `keys`, sorted by insertion. */
  function SortPrefix(keys: seq<real>, n: nat): (r: seq<nat>)
    requires n <= |keys|
    ensures InRange(keys, r) && IsPermutationOf(r, n)
  {
    if n == 0 then [] else Insert(keys, SortPrefix(keys, n - 1), n - 1)
  }

  lemma {:induction false} SortPrefixIsSorted(keys: seq<real>, n: nat)
    requires n <= |keys|
    ensures SortedBy(keys, SortPrefix(keys, n))
  {
    if n > 0 {
      SortPrefixIsSorted(keys, n - 1);
      InsertKeepsSorted(keys, SortPrefix(keys, n - 1), n - 1);
    }
  }

  /** `OrderByDescending(key)`: the positions of `keys` in the order the
      stable descending sort yields them. */
  function OrderDescending(keys: seq<real>): (r: seq<nat>)
    ensures InRange(keys, r) && IsPermutationOf(r, |keys|)
  {
    SortPrefix(keys, |keys|)
  }

  /** The order is a permutation of the positions, the keys do not increase
      along it, and equal keys keep their input order. */
  lemma OrderDescendingIsStableSort(keys: seq<real>)
    ensures var order := OrderDescending(keys);
      IsPermutationOf(order, |keys|) && SortedBy(keys, order) &&
      (forall p, q :: 0 <= p < q < |order| ==> keys[order[p]] >= keys[order[q]]) &&
      (forall p, q :: 0 <= p < q < |order| && keys[order[p]] == keys[order[q]] ==> order[p] < order[q])
  {
    SortPrefixIsSorted(keys, |keys|);
  }

  /** The first position of a sorted order goes before every other one. */
  lemma HeadPrecedesAll(keys: seq<real>, order: seq<nat>, x: nat)
    requires SortedBy(keys, order) && x in order
    ensures x == order[0] || Precedes(keys, order[0], x)
  {
    var p :| 0 <= p < |order| && order[p] == x;
  }

  lemma InTail(order: seq<nat>, x: nat)
    requires x in order && x != order[0]
    ensures x in order[1..]
  {
    var p :| 0 <= p < |order| && order[p] == x;
    assert order[1..][p - 1] == x;
  }

  /** Two orders of the same positions that are both sorted are the same:
      the stable descending order is determined by the keys alone. */
  lemma {:induction false} SortedOrderIsUnique(keys: seq<real>, o1: seq<nat>, o2: seq<nat>)
    requires SortedBy(keys, o1) && SortedBy(keys, o2)
    requires forall k :: k in o1 <==> k in o2
    ensures o1 == o2
  {
    assert o1 == [] <==> o2 == [] by {
      assert o1 != [] ==> o1[0] in o2;
      assert o2 != [] ==> o2[0] in o1;
    }
    if o1 != [] {
      HeadPrecedesAll(keys, o1, o2[0]);
      HeadPrecedesAll(keys, o2, o1[0]);
      assert o1[0] == o2[0];
      forall k
        ensures k in o1[1..] <==> k in o2[1..]
      {
        if k in o1[1..] {
          var p :| 0 <= p < |o1[1..]| && o1[1..][p] == k;
          assert Precedes(keys, o1[0], o1[p + 1]);
          InTail(o2, k);
        }
        if k in o2[1..] {
          var p :| 0 <= p < |o2[1..]| && o2[1..][p] == k;
          assert Precedes(keys, o2[0], o2[p + 1]);
          InTail(o1, k);
        }
      }
      SortedOrderIsUnique(keys, o1[1..], o2[1..]);
      assert o1 == [o1[0]] + o1[1..] && o2 == [o2[0]] + o2[1..];
    }
  }

  // ---------------------------------------------------------------------
  // Sums under the sort

  /** The sum of real values. */
  function Total(xs: seq<real>): real {
    if xs == [] then 0.0 else Total(xs[..|xs| - 1]) + xs[|xs| - 1]
  }

  lemma {:induction false} TotalCons(x: real, xs: seq<real>)
    ensures Total([x] + xs) == x + Total(xs)
  {
    if xs != [] {
      var last := |xs| - 1;
      assert ([x] + xs)[..|xs|] == [x] + xs[..last];
      TotalCons(x, xs[..last]);
    }
  }

  /** `xs` read in the given order. */
  function Permute<T>(xs: seq<T>, order: seq<nat>): (r: seq<T>)
    requires forall p :: 0 <= p < |order| ==> order[p] < |xs|
    ensures |r| == |order|
  {
    seq(|order|, p requires 0 <= p < |order| => xs[order[p]])
  }

  lemma {:induction false} TotalInsert(xs: seq<real>, keys: seq<real>, order: seq<nat>, i: nat)
    requires |xs| == |keys| && InRange(keys, order) && i < |keys|
    ensures Total(Permute(xs, Insert(keys, order, i))) == Total(Permute(xs, order)) + xs[i]
  {
    var r := Insert(keys, order, i);
    if order == [] {
      assert Permute(xs, r) == [xs[i]] + [];
      TotalCons(xs[i], []);
    } else if Precedes(keys, order[0], i) {
      TotalInsert(xs, keys, order[1..], i);
      assert Permute(xs, r) == [xs[order[0]]] + Permute(xs, Insert(keys, order[1..], i));
      assert Permute(xs, order) == [xs[order[0]]] + Permute(xs, order[1..]);
      TotalCons(xs[order[0]], Permute(xs, Insert(keys, order[1..], i)));
      TotalCons(xs[order[0]], Permute(xs, order[1..]));
    } else {
      assert Permute(xs, r) == [xs[i]] + Permute(xs, order);
      TotalCons(xs[i], Permute(xs, order));
    }
  }

  lemma {:induction false} TotalSortPrefix(xs: seq<real>, keys: seq<real>, n: nat)
    requires |xs| == |keys| && n <= |keys|
    ensures Total(Permute(xs, SortPrefix(keys, n))) == Total(xs[..n])
  {
    if n > 0 {
      TotalSortPrefix(xs, keys, n - 1);
      TotalInsert(xs, keys, SortPrefix(keys, n - 1), n - 1);
      assert xs[..n][..n - 1] == xs[..n - 1];
    }
  }

  /** Reading real values in the sorted order does not change their sum. */
  lemma SortKeepsTotal(xs: seq<real>, keys: seq<real>)
    requires |xs| == |keys|
    ensures Total(Permute(xs, OrderDescending(keys))) == Total(xs)
  {
    TotalSortPrefix(xs, keys, |keys|);
    assert xs[..|keys|] == xs;
  }

  /** The sum of integer values. */
  function Sum(xs: seq<int>): int {
    if xs == [] then 0 else Sum(xs[..|xs| - 1]) + xs[|xs| - 1]
  }

  lemma {:induction false} SumNonNegative(xs: seq<int>)
    requires forall i :: 0 <= i < |xs| ==> xs[i] >= 0
    ensures Sum(xs) >= 0
  {
    if xs != [] {
      SumNonNegative(xs[..|xs| - 1]);
    }
  }

  function AsReals(xs: seq<int>): (r: seq<real>)
    ensures |r| == |xs|
  {
    seq(|xs|, i requires 0 <= i < |xs| => xs[i] as real)
  }

  /** The integer sum agrees with the real one. */
  lemma {:induction false} SumAsTotal(xs: seq<int>)
    ensures Sum(xs) as real == Total(AsReals(xs))
  {
    if xs != [] {
      var last := |xs| - 1;
      SumAsTotal(xs[..last]);
      assert AsReals(xs)[..last] == AsReals(xs[..last]);
    }
  }

  /** Reading integer values in the sorted order does not change their sum. */
  lemma SortKeepsSum(xs: seq<int>, keys: seq<real>)
    requires |xs| == |keys|
    ensures Sum(Permute(xs, OrderDescending(keys))) == Sum(xs)
  {
    var order := OrderDescending(keys);
    SumAsTotal(xs);
    SumAsTotal(Permute(xs, order));
    assert AsReals(Permute(xs, order)) == Permute(AsReals(xs), order);
    SortKeepsTotal(AsReals(xs), keys);
  }
}
