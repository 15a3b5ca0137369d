/**
 * Table operations over sequences of rows: boolean-mask selection, column
 * projection, concatenation of batches and first-appearance distinct values.
 */
module Seqs {

  /** The complement of a mask (`~mask`). */
  function Not<T>(p: T -> bool): T -> bool
  {
    x => !p(x)
  }

  /** The rows of `s` selected by the mask `p`, in order (`df[mask]`). */
  function Keep<T(!new)>(s: seq<T>, p: T -> bool): (r: seq<T>)
    ensures |r| <= |s|
    ensures forall x :: x in r <==> x in s && p(x)
  {
    if |s| == 0 then []
    else (if p(s[0]) then [s[0]] else []) + Keep(s[1..], p)
  }

  /** A column of the table, or a row-wise mapping. */
  function Map<T, U>(s: seq<T>, f: T -> U): (r: seq<U>)
    ensures |r| == |s|
    ensures forall i :: 0 <= i < |s| ==> r[i] == f(s[i])
  {
    seq(|s|, i requires 0 <= i < |s| => f(s[i]))
  }

  lemma MapAppend<T, U>(a: seq<T>, b: seq<T>, f: T -> U)
    ensures Map(a + b, f) == Map(a, f) + Map(b, f)
  {
  }

  /**
   * A mask and its complement split a table with nothing lost: every row
   * lands in exactly one side, so the projections add up too.
   */
  lemma {:induction false} KeepSplit<T(!new), U>(s: seq<T>, p: T -> bool, f: T -> U)
    ensures |Keep(s, p)| + |Keep(s, Not(p))| == |s|
    ensures multiset(Map(Keep(s, p), f)) + multiset(Map(Keep(s, Not(p)), f)) == multiset(Map(s, f))
  {
    if |s| > 0 {
      KeepSplit(s[1..], p, f);
      var h := if p(s[0]) then [s[0]] else [];
      var g := if Not(p)(s[0]) then [s[0]] else [];
      MapAppend(h, Keep(s[1..], p), f);
      MapAppend(g, Keep(s[1..], Not(p)), f);
      MapAppend([s[0]], s[1..], f);
      assert s == [s[0]] + s[1..];
    }
  }

  /**
   * A stage that rejects the rows selected by `p` and transforms the others
   * by `f`, keeping their ids, loses no id.
   */
  lemma KeepSplitMap<T(!new), U, I>(s: seq<T>, p: T -> bool, f: T -> U, id: T -> I, id2: U -> I)
    requires forall x :: id2(f(x)) == id(x)
    ensures multiset(Map(s, id)) == multiset(Map(Keep(s, p), id)) + multiset(Map(Map(Keep(s, Not(p)), f), id2))
  {
    KeepSplit(s, p, id);
    MapCompose(Keep(s, Not(p)), f, id2, id);
  }

  /** Masking keeps the relative order of rows, so a pairwise property survives it. */
  lemma {:induction false} KeepPairwise<T(!new)>(s: seq<T>, p: T -> bool, rel: (T, T) -> bool)
    requires forall i, j :: 0 <= i < j < |s| ==> rel(s[i], s[j])
    ensures forall i, j :: 0 <= i < j < |Keep(s, p)| ==> rel(Keep(s, p)[i], Keep(s, p)[j])
  {
    if |s| > 0 {
      KeepPairwise(s[1..], p, rel);
      var r := Keep(s, p);
      var t := Keep(s[1..], p);
      if p(s[0]) {
        forall i, j | 0 <= i < j < |r|
          ensures rel(r[i], r[j])
        {
          if i == 0 {
            assert r[j] == t[j - 1];
            assert t[j - 1] in s[1..];
          } else {
            assert r[i] == t[i - 1] && r[j] == t[j - 1];
          }
        }
      }
    }
  }

  /** All rows of a list of batches (`pd.concat`). */
  function Flatten<T>(ss: seq<seq<T>>): (r: seq<T>)
  {
    if |ss| == 0 then [] else Flatten(ss[..|ss| - 1]) + ss[|ss| - 1]
  }

  lemma {:induction false} FlattenAppend<T>(a: seq<seq<T>>, b: seq<seq<T>>)
    ensures Flatten(a + b) == Flatten(a) + Flatten(b)
  {
    if |b| > 0 {
      FlattenAppend(a, b[..|b| - 1]);
      assert (a + b)[..|a + b| - 1] == a + b[..|b| - 1];
    } else {
      assert a + b == a;
    }
  }

  /** No value occurs twice. */
  predicate NoDup<T(==)>(s: seq<T>)
  {
    forall i, j :: 0 <= i < j < |s| ==> s[i] != s[j]
  }

  /** The distinct values of `s`, each at its first appearance. */
  function Distinct<T(==,!new)>(s: seq<T>): (r: seq<T>)
    ensures NoDup(r)
    ensures forall x :: x in r <==> x in s
  {
    if |s| == 0 then []
    else
      var d := Distinct(s[..|s| - 1]);
      assert s == s[..|s| - 1] + [s[|s| - 1]];
      if s[|s| - 1] in d then d else d + [s[|s| - 1]]
  }

  /** In a sequence without repeats every value occurs at most once. */
  lemma {:induction false} NoDupCount<T>(s: seq<T>, v: T)
    requires NoDup(s)
    ensures multiset(s)[v] <= 1
  {
    if |s| > 0 {
      NoDupCount(s[1..], v);
      assert s == [s[0]] + s[1..];
      if s[0] == v {
        assert v !in s[1..];
      }
    }
  }

  /** A sequence in which no value occurs twice has no repeats. */
  lemma CountNoDup<T>(s: seq<T>)
    requires forall v :: multiset(s)[v] <= 1
    ensures NoDup(s)
  {
    forall i, j | 0 <= i < j < |s|
      ensures s[i] != s[j]
    {
      if s[i] == s[j] {
        TwoOccurrences(s, i, j);
        assert false;
      }
    }
  }

  lemma TwoOccurrences<T>(s: seq<T>, i: nat, j: nat)
    requires i < j < |s| && s[i] == s[j]
    ensures multiset(s)[s[i]] >= 2
  {
    assert s == s[..i] + [s[i]] + s[i + 1..j] + [s[j]] + s[j + 1..];
  }

  /** Reordering keeps the absence of repeats. */
  lemma NoDupPermutation<T>(a: seq<T>, b: seq<T>)
    requires NoDup(a) && multiset(a) == multiset(b)
    ensures NoDup(b)
  {
    forall v
      ensures multiset(b)[v] <= 1
    {
      NoDupCount(a, v);
    }
    CountNoDup(b);
  }

  /** A value in the first half of a sequence without repeats is not in the second half. */
  lemma NoDupSplit<T>(a: seq<T>, b: seq<T>, x: T)
    requires NoDup(a + b) && x in a
    ensures x !in b
  {
    forall i, j | 0 <= i < |a| && 0 <= j < |b|
      ensures a[i] != b[j]
    {
      assert (a + b)[i] == a[i] && (a + b)[|a| + j] == b[j];
    }
  }

  lemma {:induction false} KeepAppend<T(!new)>(a: seq<T>, b: seq<T>, p: T -> bool)
    ensures Keep(a + b, p) == Keep(a, p) + Keep(b, p)
  {
    if |a| > 0 {
      KeepAppend(a[1..], b, p);
      var h := if p(a[0]) then [a[0]] else [];
      calc {
        Keep(a + b, p);
        { assert (a + b)[0] == a[0]; assert (a + b)[1..] == a[1..] + b; }
        h + Keep(a[1..] + b, p);
        h + (Keep(a[1..], p) + Keep(b, p));
        (h + Keep(a[1..], p)) + Keep(b, p);
        Keep(a, p) + Keep(b, p);
      }
    } else {
      assert a + b == b;
    }
  }

  lemma {:induction false} KeepAll<T(!new)>(s: seq<T>, p: T -> bool)
    requires forall x :: x in s ==> p(x)
    ensures Keep(s, p) == s
  {
    if |s| > 0 {
      KeepAll(s[1..], p);
      assert s == [s[0]] + s[1..];
    }
  }

  lemma {:induction false} KeepNone<T(!new)>(s: seq<T>, p: T -> bool)
    requires forall x :: x in s ==> !p(x)
    ensures Keep(s, p) == []
  {
    if |s| > 0 {
      KeepNone(s[1..], p);
    }
  }

  lemma MapIn<T, U>(s: seq<T>, f: T -> U, x: T)
    requires x in s
    ensures f(x) in Map(s, f)
  {
    var i :| 0 <= i < |s| && s[i] == x;
    assert Map(s, f)[i] == f(x);
  }

  lemma MapFrom<T, U>(s: seq<T>, f: T -> U, y: U) returns (x: T)
    requires y in Map(s, f)
    ensures x in s && y == f(x)
  {
    var i :| 0 <= i < |s| && Map(s, f)[i] == y;
    x := s[i];
  }

  lemma MapCompose<T, U, V>(s: seq<T>, g: T -> U, f: U -> V, h: T -> V)
    requires forall x :: f(g(x)) == h(x)
    ensures Map(Map(s, g), f) == Map(s, h)
  {
  }
}
