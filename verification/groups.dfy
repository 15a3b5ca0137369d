/**
 * `groupby(key)[col].sum()`: one group per distinct key with the sum of the
 * column over the rows that carry the key. Groups come out in the order in
 * which their keys first appear.
 */
module Groups {
  import opened Seqs

  datatype Group<K> = Group(key: K, total: int)

  function GroupKey<K>(g: Group<K>): K { g.key }
  function GroupTotal<K>(g: Group<K>): int { g.total }

  /** A key function on groups that looks only at the group key. */
  function Lift<K, J>(c: K -> J): Group<K> -> J
  {
    (g: Group<K>) => c(g.key)
  }

  /** The sum of `val` over the rows whose key is k. */
  function GroupSum<T, K(==)>(s: seq<T>, key: T -> K, val: T -> int, k: K): int
  {
    if |s| == 0 then 0
    else GroupSum(s[..|s| - 1], key, val, k) + (if key(s[|s| - 1]) == k then val(s[|s| - 1]) else 0)
  }

  /** `groupby(key)[val].sum()`. */
  function GroupBy<T, K(==,!new)>(s: seq<T>, key: T -> K, val: T -> int): (r: seq<Group<K>>)
    ensures |r| == |Distinct(Map(s, key))|
    ensures forall i :: 0 <= i < |r| ==> r[i].key == Distinct(Map(s, key))[i]
    ensures forall i :: 0 <= i < |r| ==> r[i].total == GroupSum(s, key, val, r[i].key)
  {
    Map(Distinct(Map(s, key)), k => Group(k, GroupSum(s, key, val, k)))
  }

  /** Rows whose key is not k contribute nothing to group k. */
  lemma {:induction false} GroupSumAbsent<T, K>(s: seq<T>, key: T -> K, val: T -> int, k: K)
    requires k !in Map(s, key)
    ensures GroupSum(s, key, val, k) == 0
  {
    if |s| > 0 {
      assert Map(s[..|s| - 1], key) == Map(s, key)[..|s| - 1];
      GroupSumAbsent(s[..|s| - 1], key, val, k);
      assert Map(s, key)[|s| - 1] == key(s[|s| - 1]);
    }
  }

  /** The groups are exactly the distinct keys of the rows, each once. */
  lemma GroupByKeys<T, K(!new)>(s: seq<T>, key: T -> K, val: T -> int)
    ensures NoDup(Map(GroupBy(s, key, val), GroupKey))
    ensures forall k :: k in Map(GroupBy(s, key, val), GroupKey) <==> k in Map(s, key)
  {
    assert Map(GroupBy(s, key, val), GroupKey) == Distinct(Map(s, key));
  }

  /**
   * The sum, over the keys of D whose coarser key `c` is j, of the group
   * sums of s.
   */
  function KeySum<T, K(==), J(==)>(d: seq<K>, c: K -> J, j: J, s: seq<T>, key: T -> K, val: T -> int): int
  {
    if |d| == 0 then 0
    else
      KeySum(d[..|d| - 1], c, j, s, key, val)
      + (if c(d[|d| - 1]) == j then GroupSum(s, key, val, d[|d| - 1]) else 0)
  }

  lemma {:induction false} KeySumStep<T, K, J>(d: seq<K>, c: K -> J, j: J, s: seq<T>, x: T, key: T -> K, val: T -> int)
    requires NoDup(d)
    ensures KeySum(d, c, j, s + [x], key, val) ==
      KeySum(d, c, j, s, key, val) + (if key(x) in d && c(key(x)) == j then val(x) else 0)
  {
    if |d| > 0 {
      var d' := d[..|d| - 1];
      assert NoDup(d');
      KeySumStep(d', c, j, s, x, key, val);
      assert (s + [x])[..|s + [x]| - 1] == s;
      assert d == d' + [d[|d| - 1]];
      assert d[|d| - 1] !in d';
    }
  }

  /**
   * Regrouping: summing the groups of a key-coarsening gives the group sums
   * of the coarser key, provided D lists every key once.
   */
  lemma {:induction false} KeySumCoarsen<T, K, J>(d: seq<K>, c: K -> J, j: J, s: seq<T>, key: T -> K, key2: T -> J, val: T -> int)
    requires NoDup(d)
    requires forall x :: x in s ==> key(x) in d
    requires forall x :: c(key(x)) == key2(x)
    ensures KeySum(d, c, j, s, key, val) == GroupSum(s, key2, val, j)
  {
    if |s| == 0 {
      KeySumZero(d, c, j, s, key, val);
    } else {
      var s' := s[..|s| - 1];
      var x := s[|s| - 1];
      KeySumCoarsen(d, c, j, s', key, key2, val);
      assert s == s' + [x];
      KeySumStep(d, c, j, s', x, key, val);
    }
  }

  lemma {:induction false} KeySumZero<T, K, J>(d: seq<K>, c: K -> J, j: J, s: seq<T>, key: T -> K, val: T -> int)
    requires |s| == 0
    ensures KeySum(d, c, j, s, key, val) == 0
  {
    if |d| > 0 {
      KeySumZero(d[..|d| - 1], c, j, s, key, val);
    }
  }

  /** Summing groups by the coarser key, as a sum over the group list. */
  lemma {:induction false} GroupSumOfGroups<T, K(!new), J>(d: seq<K>, c: K -> J, j: J, s: seq<T>, key: T -> K, val: T -> int)
    ensures GroupSum(Map(d, k => Group(k, GroupSum(s, key, val, k))), Lift(c), GroupTotal, j)
      == KeySum(d, c, j, s, key, val)
  {
    if |d| > 0 {
      var f := k => Group(k, GroupSum(s, key, val, k));
      GroupSumOfGroups(d[..|d| - 1], c, j, s, key, val);
      assert Map(d, f)[..|d| - 1] == Map(d[..|d| - 1], f);
    }
  }

  /**
   * Grouping the groups again by a coarser key `c` gives, for each coarse
   * key, the sum of the rows whose coarse key it is: the monthly totals of
   * an area add up to the area's total.
   */
  lemma Coarsen<T, K(!new), J>(s: seq<T>, key: T -> K, c: K -> J, key2: T -> J, val: T -> int, j: J)
    requires forall x :: c(key(x)) == key2(x)
    ensures GroupSum(GroupBy(s, key, val), Lift(c), GroupTotal, j) == GroupSum(s, key2, val, j)
  {
    var d := Distinct(Map(s, key));
    forall x | x in s
      ensures key(x) in d
    {
      var i :| 0 <= i < |s| && s[i] == x;
      assert Map(s, key)[i] == key(x);
    }
    GroupSumOfGroups(d, c, j, s, key, val);
    KeySumCoarsen(d, c, j, s, key, key2, val);
  }
}
