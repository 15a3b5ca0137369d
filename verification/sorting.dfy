/**
 * `sort_values` as an arg-sort: the row positions are ordered by a sort key
 * and, among equal keys, by their position in the input. That pins the tie
 * order to the input order (a stable sort).
 */
module Sorting {
  import opened Seqs

  /** A sort key compared lexicographically: `major` first, then `minor`. */
  datatype SortKey = SortKey(major: int, minor: int)

  predicate KeyLess(a: SortKey, b: SortKey)
  {
    a.major < b.major || (a.major == b.major && a.minor < b.minor)
  }

  /** Position i goes before position j: a smaller key, or an equal key earlier in the input. */
  predicate Before(keys: seq<SortKey>, i: nat, j: nat)
    requires i < |keys| && j < |keys|
  {
    KeyLess(keys[i], keys[j]) || (keys[i] == keys[j] && i < j)
  }

  predicate InRange(keys: seq<SortKey>, ix: seq<nat>)
  {
    forall p :: 0 <= p < |ix| ==> ix[p] < |keys|
  }

  /** The positions `ix` are listed in sort order. */
  predicate SortedBy(keys: seq<SortKey>, ix: seq<nat>)
  {
    InRange(keys, ix) && forall p, q :: 0 <= p < q < |ix| ==> Before(keys, ix[p], ix[q])
  }

  /** The positions 0, 1, ..., n-1. */
  function Range(n: nat): (r: seq<nat>)
    ensures |r| == n
    ensures forall i :: 0 <= i < n ==> r[i] == i
  {
    seq(n, i requires 0 <= i < n => i)
  }

  /** Inserts position x into the sorted positions ix. */
  function Insert(keys: seq<SortKey>, x: nat, ix: seq<nat>): (r: seq<nat>)
    requires x < |keys| && InRange(keys, ix)
    ensures InRange(keys, r)
    ensures |r| == |ix| + 1
    ensures multiset(r) == multiset(ix) + multiset{x}
  {
    if |ix| == 0 then [x]
    else if Before(keys, x, ix[0]) then [x] + ix
    else
      assert ix == [ix[0]] + ix[1..];
      [ix[0]] + Insert(keys, x, ix[1..])
  }

  lemma {:induction false} InsertSorted(keys: seq<SortKey>, x: nat, ix: seq<nat>)
    requires x < |keys| && SortedBy(keys, ix) && x !in ix
    ensures SortedBy(keys, Insert(keys, x, ix))
  {
    var r := Insert(keys, x, ix);
    if |ix| > 0 && !Before(keys, x, ix[0]) {
      assert ix == [ix[0]] + ix[1..];
      InsertSorted(keys, x, ix[1..]);
      var t := Insert(keys, x, ix[1..]);
      assert Before(keys, ix[0], x);
      forall q | 0 < q < |r|
        ensures Before(keys, r[0], r[q])
      {
        assert r[q] == t[q - 1];
        assert r[q] in multiset(ix[1..]) + multiset{x};
      }
    }
  }

  /** The positions 0..n-1 of `keys` in sort order. */
  function ArgSortPrefix(keys: seq<SortKey>, n: nat): (r: seq<nat>)
    requires n <= |keys|
    ensures InRange(keys, r)
    ensures |r| == n
    ensures multiset(r) == multiset(Range(n))
  {
    if n == 0 then []
    else
      assert Range(n) == Range(n - 1) + [n - 1];
      Insert(keys, n - 1, ArgSortPrefix(keys, n - 1))
  }

  lemma {:induction false} ArgSortPrefixSorted(keys: seq<SortKey>, n: nat)
    requires n <= |keys|
    ensures SortedBy(keys, ArgSortPrefix(keys, n))
  {
    if n > 0 {
      ArgSortPrefixSorted(keys, n - 1);
      assert n - 1 !in multiset(Range(n - 1));
      InsertSorted(keys, n - 1, ArgSortPrefix(keys, n - 1));
    }
  }

  /** Every position of `keys`, exactly once, in sort order (`argsort`). */
  function ArgSort(keys: seq<SortKey>): (r: seq<nat>)
    ensures |r| == |keys|
    ensures multiset(r) == multiset(Range(|keys|))
    ensures SortedBy(keys, r)
  {
    ArgSortPrefixSorted(keys, |keys|);
    ArgSortPrefix(keys, |keys|)
  }

  /** The rows of `s` at the positions `ix` (`take`). */
  function Take<T>(s: seq<T>, ix: seq<nat>): (r: seq<T>)
    requires forall p :: 0 <= p < |ix| ==> ix[p] < |s|
    ensures |r| == |ix|
    ensures forall p :: 0 <= p < |ix| ==> r[p] == s[ix[p]]
  {
    seq(|ix|, p requires 0 <= p < |ix| => s[ix[p]])
  }

  lemma MultisetRemoveAt<T>(s: seq<T>, k: nat)
    requires k < |s|
    ensures multiset(s) == multiset(s[..k] + s[k + 1..]) + multiset{s[k]}
  {
    assert s == s[..k] + [s[k]] + s[k + 1..];
  }

  lemma MultisetCancel<T>(a: multiset<T>, b: multiset<T>, x: T)
    requires a + multiset{x} == b + multiset{x}
    ensures a == b
  {
    forall y
      ensures a[y] == b[y]
    {
      assert (a + multiset{x})[y] == (b + multiset{x})[y];
    }
  }

  lemma IndexOf<T>(s: seq<T>, x: T) returns (k: nat)
    requires x in multiset(s)
    ensures k < |s| && s[k] == x
  {
    k :| 0 <= k < |s| && s[k] == x;
  }

  /** Removing one position from `ix` removes one row from its `Take`. */
  lemma TakeRemoveAt<T>(s: seq<T>, ix: seq<nat>, k: nat)
    requires forall p :: 0 <= p < |ix| ==> ix[p] < |s|
    requires k < |ix|
    ensures var jx := ix[..k] + ix[k + 1..];
      (forall p :: 0 <= p < |jx| ==> jx[p] < |s|)
      && multiset(Take(s, ix)) == multiset(Take(s, jx)) + multiset{s[ix[k]]}
  {
    var jx := ix[..k] + ix[k + 1..];
    var t := Take(s, ix);
    assert forall p :: 0 <= p < |jx| ==> jx[p] == ix[if p < k then p else p + 1];
    assert Take(s, jx) == t[..k] + t[k + 1..];
    MultisetRemoveAt(t, k);
  }

  /** Taking the rows at a permutation of the positions reorders the rows, losing none. */
  lemma {:induction false} TakePermutation<T>(s: seq<T>, ix: seq<nat>, jx: seq<nat>)
    requires forall p :: 0 <= p < |ix| ==> ix[p] < |s|
    requires forall p :: 0 <= p < |jx| ==> jx[p] < |s|
    requires multiset(ix) == multiset(jx)
    ensures multiset(Take(s, ix)) == multiset(Take(s, jx))
  {
    if |ix| == 0 {
      assert |jx| == |multiset(jx)| == 0;
    } else {
      var x := ix[0];
      var k := IndexOf(jx, x);
      var ix', jx' := ix[..0] + ix[1..], jx[..k] + jx[k + 1..];
      RemoveMatching(ix, jx, k);
      TakeRemoveAt(s, jx, k);
      TakeRemoveAt(s, ix, 0);
      TakePermutation(s, ix', jx');
      calc {
        multiset(Take(s, ix));
        multiset(Take(s, ix')) + multiset{s[x]};
        multiset(Take(s, jx')) + multiset{s[x]};
        multiset(Take(s, jx));
      }
    }
  }

  /** Removing the same value from two permutations of each other leaves permutations of each other. */
  lemma RemoveMatching(ix: seq<nat>, jx: seq<nat>, k: nat)
    requires 0 < |ix| && k < |jx| && jx[k] == ix[0]
    requires multiset(ix) == multiset(jx)
    ensures multiset(ix[..0] + ix[1..]) == multiset(jx[..k] + jx[k + 1..])
  {
    var x := ix[0];
    MultisetRemoveAt(jx, k);
    MultisetRemoveAt(ix, 0);
    MultisetCancel(multiset(ix[..0] + ix[1..]), multiset(jx[..k] + jx[k + 1..]), x);
  }

  /** Rows reordered by `ArgSort` are a permutation of the input rows. */
  lemma SortedRowsPermutation<T>(s: seq<T>, keys: seq<SortKey>)
    requires |keys| == |s|
    ensures multiset(Take(s, ArgSort(keys))) == multiset(s)
  {
    var ix := ArgSort(keys);
    forall p | 0 <= p < |ix| ensures ix[p] < |s| {
      assert ix[p] in multiset(Range(|keys|));
    }
    TakePermutation(s, ix, Range(|s|));
    assert Take(s, Range(|s|)) == s;
  }

  /** Inserting a position that sorts after all others appends it. */
  lemma {:induction false} InsertLast(keys: seq<SortKey>, x: nat, ix: seq<nat>)
    requires x < |keys| && InRange(keys, ix)
    requires forall p :: 0 <= p < |ix| ==> Before(keys, ix[p], x)
    ensures Insert(keys, x, ix) == ix + [x]
  {
    if |ix| > 0 {
      assert !Before(keys, x, ix[0]);
      InsertLast(keys, x, ix[1..]);
      assert ix == [ix[0]] + ix[1..];
    }
  }

  /** Keys that are already in non-decreasing order sort to the identity. */
  lemma {:induction false} ArgSortOfSorted(keys: seq<SortKey>, n: nat)
    requires n <= |keys|
    requires forall i, j :: 0 <= i < j < |keys| ==> !KeyLess(keys[j], keys[i])
    ensures ArgSortPrefix(keys, n) == Range(n)
  {
    if n > 0 {
      ArgSortOfSorted(keys, n - 1);
      RangeBeforeLast(keys, n - 1);
      InsertLast(keys, n - 1, Range(n - 1));
      RangeSnoc(n);
      calc {
        ArgSortPrefix(keys, n);
        Insert(keys, n - 1, ArgSortPrefix(keys, n - 1));
        Insert(keys, n - 1, Range(n - 1));
        Range(n - 1) + [n - 1];
      }
    }
  }

  lemma RangeBeforeLast(keys: seq<SortKey>, m: nat)
    requires m < |keys|
    requires forall i, j :: 0 <= i < j < |keys| ==> !KeyLess(keys[j], keys[i])
    ensures InRange(keys, Range(m))
    ensures forall p :: 0 <= p < m ==> Before(keys, Range(m)[p], m)
  {
    forall p | 0 <= p < m
      ensures Before(keys, Range(m)[p], m)
    {
      assert !KeyLess(keys[m], keys[p]);
    }
  }

  lemma RangeSnoc(n: nat)
    requires n > 0
    ensures Range(n - 1) + [n - 1] == Range(n)
  {
  }

  /** In arg-sort order a later position never has a strictly smaller key. */
  lemma ArgSortOrdered(keys: seq<SortKey>, p: nat, q: nat)
    requires p < q < |keys|
    ensures ArgSort(keys)[p] < |keys| && ArgSort(keys)[q] < |keys|
    ensures !KeyLess(keys[ArgSort(keys)[q]], keys[ArgSort(keys)[p]])
  {
    var ix := ArgSort(keys);
    assert Before(keys, ix[p], ix[q]);
  }
}
