/**
 * Deduplication of the clean expense table: rows are sorted by `_ingest_ts`
 * and, among rows that share the natural key (fecha, area, partida), the last
 * one in sort order is kept (`drop_duplicates(keep='last')`). Ties in
 * `_ingest_ts` are broken by input position, as a stable sort does.
 */
module Deduplication {
  import opened Common
  import opened Seqs
  import opened Sorting
  import opened Records

  datatype NaturalKey = NaturalKey(fecha: Date, area: string, partida: string)

  function KeyOf(e: Expense): NaturalKey
  {
    NaturalKey(e.fecha, e.area, e.partida)
  }

  /** The sort key of `sort_values('_ingest_ts')`. */
  function StampKey(e: Expense): SortKey
  {
    SortKey(e.meta.ingestTs, 0)
  }

  /**
   * The positions of `ix` that `drop_duplicates(keep='last')` keeps: a
   * position survives when no later position carries the same key.
   */
  function KeepLastIx<K(==)>(nk: seq<K>, ix: seq<nat>): (r: seq<nat>)
    requires forall p :: 0 <= p < |ix| ==> ix[p] < |nk|
    ensures forall x :: x in r ==> x in ix
    ensures forall p :: 0 <= p < |r| ==> r[p] < |nk|
  {
    if |ix| == 0 then []
    else (if nk[ix[0]] in Take(nk, ix[1..]) then [] else [ix[0]]) + KeepLastIx(nk, ix[1..])
  }

  /** The input positions that survive deduplication, in output order. */
  function DedupIx(s: seq<Expense>): (r: seq<nat>)
    ensures forall p :: 0 <= p < |r| ==> r[p] < |s|
  {
    var ix := ArgSort(Map(s, StampKey));
    PermutationOfRange(ix, |s|);
    KeepLastIx(Map(s, KeyOf), ix)
  }

  /** `sort_values('_ingest_ts').drop_duplicates(subset=[fecha, area, partida], keep='last')`. */
  function Dedup(s: seq<Expense>): (r: seq<Expense>)
    ensures |r| <= |s|
    ensures forall x :: x in r ==> x in s
  {
    var ix := DedupIx(s);
    KeepLastLength(Map(s, KeyOf), ArgSort(Map(s, StampKey)));
    Take(s, ix)
  }

  /**
   * Row i is the one its key group keeps: every other row with its key has
   * an earlier stamp, or the same stamp and an earlier position.
   */
  predicate LastMaximal(s: seq<Expense>, i: nat)
    requires i < |s|
  {
    forall j :: 0 <= j < |s| && KeyOf(s[j]) == KeyOf(s[i]) ==>
      s[j].meta.ingestTs < s[i].meta.ingestTs || (s[j].meta.ingestTs == s[i].meta.ingestTs && j <= i)
  }

  // ---------------------------------------------------------------------
  // Positions and permutations

  lemma CountRange(n: nat, v: nat)
    ensures multiset(Range(n))[v] == if v < n then 1 else 0
  {
    if n > 0 {
      CountRange(n - 1, v);
      assert Range(n) == Range(n - 1) + [n - 1];
    }
  }

  /** A permutation of 0..n-1 lists each of those positions exactly once. */
  lemma PermutationOfRange(ix: seq<nat>, n: nat)
    requires multiset(ix) == multiset(Range(n))
    ensures |ix| == n
    ensures forall p :: 0 <= p < |ix| ==> ix[p] < n
    ensures NoDup(ix)
    ensures forall i :: 0 <= i < n ==> i in ix
  {
    assert |ix| == |multiset(ix)| == |multiset(Range(n))| == n;
    forall p | 0 <= p < |ix|
      ensures ix[p] < n
    {
      CountRange(n, ix[p]);
      assert ix[p] in multiset(ix);
    }
    forall p, q | 0 <= p < q < |ix|
      ensures ix[p] != ix[q]
    {
      if ix[p] == ix[q] {
        var v := ix[p];
        assert ix == ix[..p] + [v] + ix[p + 1..q] + [v] + ix[q + 1..];
        assert multiset(ix)[v] >= 2;
        CountRange(n, v);
        assert false;
      }
    }
    forall i | 0 <= i < n
      ensures i in ix
    {
      CountRange(n, i);
      assert i in multiset(ix);
    }
  }

  lemma TakeMap<T, U>(s: seq<T>, ix: seq<nat>, f: T -> U)
    requires forall p :: 0 <= p < |ix| ==> ix[p] < |s|
    ensures Map(Take(s, ix), f) == Take(Map(s, f), ix)
  {
  }

  // ---------------------------------------------------------------------
  // drop_duplicates(keep='last') on a list of positions

  lemma {:induction false} KeepLastLength<K>(nk: seq<K>, ix: seq<nat>)
    requires forall p :: 0 <= p < |ix| ==> ix[p] < |nk|
    ensures |KeepLastIx(nk, ix)| <= |ix|
  {
    if |ix| > 0 {
      KeepLastLength(nk, ix[1..]);
    }
  }

  /** No two kept positions share a key. */
  lemma {:induction false} KeepLastDistinct<K>(nk: seq<K>, ix: seq<nat>)
    requires forall p :: 0 <= p < |ix| ==> ix[p] < |nk|
    ensures NoDup(Take(nk, KeepLastIx(nk, ix)))
  {
    if |ix| > 0 {
      KeepLastDistinct(nk, ix[1..]);
      var r' := KeepLastIx(nk, ix[1..]);
      var t := Take(nk, ix[1..]);
      if nk[ix[0]] !in t {
        var u := Take(nk, r');
        forall q | 0 <= q < |u|
          ensures u[q] != nk[ix[0]]
        {
          assert r'[q] in ix[1..];
          var p :| 0 <= p < |ix[1..]| && ix[1..][p] == r'[q];
          assert t[p] == u[q];
        }
        assert Take(nk, KeepLastIx(nk, ix)) == [nk[ix[0]]] + u;
      } else {
        assert KeepLastIx(nk, ix) == r';
      }
    }
  }

  /** Every key of the input still has a kept position. */
  lemma {:induction false} KeepLastKeys<K>(nk: seq<K>, ix: seq<nat>)
    requires forall p :: 0 <= p < |ix| ==> ix[p] < |nk|
    ensures forall k :: k in Take(nk, KeepLastIx(nk, ix)) <==> k in Take(nk, ix)
  {
    if |ix| > 0 {
      KeepLastKeys(nk, ix[1..]);
      var r := KeepLastIx(nk, ix);
      var r' := KeepLastIx(nk, ix[1..]);
      assert Take(nk, ix) == [nk[ix[0]]] + Take(nk, ix[1..]);
      if nk[ix[0]] in Take(nk, ix[1..]) {
        assert r == r';
      } else {
        assert Take(nk, r) == [nk[ix[0]]] + Take(nk, r');
      }
    }
  }

  /** A listed position is kept exactly when no later position has its key. */
  lemma {:induction false} KeepLastMember<K>(nk: seq<K>, ix: seq<nat>, p: nat)
    requires forall q :: 0 <= q < |ix| ==> ix[q] < |nk|
    requires NoDup(ix) && p < |ix|
    ensures ix[p] in KeepLastIx(nk, ix) <==> forall q :: p < q < |ix| ==> nk[ix[q]] != nk[ix[p]]
  {
    var r' := KeepLastIx(nk, ix[1..]);
    var t := Take(nk, ix[1..]);
    if p == 0 {
      assert ix[0] !in ix[1..];
      assert ix[0] !in r';
      if nk[ix[0]] in t {
        var q :| 0 <= q < |t| && t[q] == nk[ix[0]];
        assert nk[ix[q + 1]] == nk[ix[0]];
      }
    } else {
      KeepLastMember(nk, ix[1..], p - 1);
      assert ix[p] != ix[0];
      assert forall q :: p < q < |ix| ==> ix[q] == ix[1..][q - 1];
    }
  }

  /** Keeping a subsequence keeps the sort order. */
  lemma {:induction false} KeepLastSorted<K>(keys: seq<SortKey>, nk: seq<K>, ix: seq<nat>)
    requires |nk| == |keys| && SortedBy(keys, ix)
    ensures SortedBy(keys, KeepLastIx(nk, ix))
  {
    if |ix| > 0 {
      KeepLastSorted(keys, nk, ix[1..]);
      var r' := KeepLastIx(nk, ix[1..]);
      forall q | 0 <= q < |r'|
        ensures Before(keys, ix[0], r'[q])
      {
        assert r'[q] in ix[1..];
      }
    }
  }

  /** With no key repeated, nothing is dropped. */
  lemma {:induction false} KeepLastNoRepeats<K>(nk: seq<K>, ix: seq<nat>)
    requires forall p :: 0 <= p < |ix| ==> ix[p] < |nk|
    requires NoDup(Take(nk, ix))
    ensures KeepLastIx(nk, ix) == ix
  {
    if |ix| > 0 {
      var t := Take(nk, ix);
      assert Take(nk, ix[1..]) == t[1..];
      assert nk[ix[0]] !in t[1..];
      KeepLastNoRepeats(nk, ix[1..]);
    }
  }

  // ---------------------------------------------------------------------
  // Deduplication of expense rows

  /** After deduplication no two rows share (fecha, area, partida). */
  lemma DedupKeysUnique(s: seq<Expense>)
    ensures NoDup(Map(Dedup(s), KeyOf))
  {
    var ix := ArgSort(Map(s, StampKey));
    PermutationOfRange(ix, |s|);
    KeepLastDistinct(Map(s, KeyOf), ix);
    TakeMap(s, DedupIx(s), KeyOf);
  }

  /** Deduplication loses no key: every natural key of the input has a surviving row. */
  lemma DedupKeepsKeys(s: seq<Expense>)
    ensures forall k :: k in Map(Dedup(s), KeyOf) <==> k in Map(s, KeyOf)
  {
    var keys := Map(s, StampKey);
    var nk := Map(s, KeyOf);
    var ix := ArgSort(keys);
    PermutationOfRange(ix, |s|);
    KeepLastKeys(nk, ix);
    TakeMap(s, DedupIx(s), KeyOf);
    SortedRowsPermutation(nk, keys);
    assert forall k :: k in Take(nk, ix) <==> k in multiset(nk);
  }

  /** On positions sorted by `keys`, a position is kept exactly when it sorts after every other position with its key. */
  lemma SortedKeepLast<K>(keys: seq<SortKey>, nk: seq<K>, ix: seq<nat>, p: nat)
    requires |nk| == |keys| && SortedBy(keys, ix) && NoDup(ix) && p < |ix|
    requires forall j :: 0 <= j < |keys| ==> j in ix
    ensures ix[p] in KeepLastIx(nk, ix) <==>
      forall j :: 0 <= j < |keys| && nk[j] == nk[ix[p]] && j != ix[p] ==> Before(keys, j, ix[p])
  {
    KeepLastMember(nk, ix, p);
    if ix[p] in KeepLastIx(nk, ix) {
      SortedKeepLastAfter(keys, nk, ix, p);
    } else {
      var q :| p < q < |ix| && nk[ix[q]] == nk[ix[p]];
      assert Before(keys, ix[p], ix[q]);
    }
  }

  lemma SortedKeepLastAfter<K>(keys: seq<SortKey>, nk: seq<K>, ix: seq<nat>, p: nat)
    requires |nk| == |keys| && SortedBy(keys, ix) && NoDup(ix) && p < |ix|
    requires forall j :: 0 <= j < |keys| ==> j in ix
    requires forall q :: p < q < |ix| ==> nk[ix[q]] != nk[ix[p]]
    ensures forall j :: 0 <= j < |keys| && nk[j] == nk[ix[p]] && j != ix[p] ==> Before(keys, j, ix[p])
  {
    forall j | 0 <= j < |keys| && nk[j] == nk[ix[p]] && j != ix[p]
      ensures Before(keys, j, ix[p])
    {
      assert j in ix;
      var q :| 0 <= q < |ix| && ix[q] == j;
      assert q < p;
    }
  }

  /**
   * Row i survives exactly when it is the one its key group keeps: the
   * largest `_ingest_ts`, and among equal stamps the last in input order.
   */
  lemma DedupSurvivors(s: seq<Expense>, i: nat)
    requires i < |s|
    ensures i in DedupIx(s) <==> LastMaximal(s, i)
  {
    var keys := Map(s, StampKey);
    var nk := Map(s, KeyOf);
    var ix := ArgSort(keys);
    PermutationOfRange(ix, |s|);
    assert i in ix;
    var p :| 0 <= p < |ix| && ix[p] == i;
    SortedKeepLast(keys, nk, ix, p);
    LastMaximalBefore(s, i);
  }

  /** Row i is last-maximal exactly when every other row with its key sorts before it. */
  lemma LastMaximalBefore(s: seq<Expense>, i: nat)
    requires i < |s|
    ensures LastMaximal(s, i) <==>
      forall j :: 0 <= j < |s| && Map(s, KeyOf)[j] == Map(s, KeyOf)[i] && j != i ==> Before(Map(s, StampKey), j, i)
  {
    var keys := Map(s, StampKey);
    var nk := Map(s, KeyOf);
    if LastMaximal(s, i) {
      forall j | 0 <= j < |s| && nk[j] == nk[i] && j != i
        ensures Before(keys, j, i)
      {
        assert KeyOf(s[j]) == KeyOf(s[i]);
      }
    } else {
      var j :| 0 <= j < |s| && KeyOf(s[j]) == KeyOf(s[i]) &&
        !(s[j].meta.ingestTs < s[i].meta.ingestTs || (s[j].meta.ingestTs == s[i].meta.ingestTs && j <= i));
      assert nk[j] == nk[i] && j != i && !Before(keys, j, i);
    }
  }

  /** Deduplicating a deduplicated table changes nothing. */
  lemma DedupIdempotent(s: seq<Expense>)
    ensures Dedup(Dedup(s)) == Dedup(s)
  {
    var t := Dedup(s);
    var keysT := Map(t, StampKey);
    var nkT := Map(t, KeyOf);
    DedupStampOrdered(s);
    ArgSortOfSorted(keysT, |t|);
    assert ArgSort(keysT) == Range(|t|);
    DedupKeysUnique(s);
    assert Take(nkT, Range(|t|)) == nkT;
    KeepLastNoRepeats(nkT, Range(|t|));
    assert DedupIx(t) == Range(|t|);
    assert Take(t, Range(|t|)) == t;
  }

  /** The deduplicated rows come out in non-decreasing `_ingest_ts` order. */
  lemma DedupStampOrdered(s: seq<Expense>)
    ensures forall p, q :: 0 <= p < q < |Dedup(s)| ==> !KeyLess(Map(Dedup(s), StampKey)[q], Map(Dedup(s), StampKey)[p])
  {
    var keys := Map(s, StampKey);
    var ix := ArgSort(keys);
    PermutationOfRange(ix, |s|);
    var r := DedupIx(s);
    var t := Dedup(s);
    KeepLastSorted(keys, Map(s, KeyOf), ix);
    var keysT := Map(t, StampKey);
    forall p, q | 0 <= p < q < |keysT|
      ensures !KeyLess(keysT[q], keysT[p])
    {
      assert Before(keys, r[p], r[q]);
    }
  }

  /**
   * Within one batch every row carries the same `_ingest_ts`; a row then
   * survives exactly when no later row in the input has its key.
   */
  lemma DedupSameStamp(s: seq<Expense>, i: nat)
    requires i < |s|
    requires forall j :: 0 <= j < |s| ==> s[j].meta.ingestTs == s[0].meta.ingestTs
    ensures i in DedupIx(s) <==> forall j :: i < j < |s| ==> KeyOf(s[j]) != KeyOf(s[i])
  {
    DedupSurvivors(s, i);
  }
}
