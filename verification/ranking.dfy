/**
 * Ranking entries by a numeric key, as the routes do with
 * `entries.reduce((a, b) => b[1] > a[1] ? b : a)` (the first maximum wins) and
 * with `entries.sort((a, b) => b.count - a.count)`, which sorts by key,
 * largest first, and, since `Array.prototype.sort` is stable, keeps entries
 * with equal keys in their original order.
 */
module Ranking {

  /**
   * `s.reduce((a, b) => key(b) > key(a) ? b : a)`, as an index: a maximum,
   * and the earliest one on ties because the comparison is strict.
   */
  function FirstMaxIndex<T>(s: seq<T>, key: T -> int): (k: nat)
    requires |s| > 0
    ensures k < |s|
    ensures forall j :: 0 <= j < |s| ==> key(s[j]) <= key(s[k])
    ensures forall j :: 0 <= j < k ==> key(s[j]) < key(s[k])
  {
    if |s| == 1 then 0
    else
      var a := FirstMaxIndex(s[..|s| - 1], key);
      if key(s[|s| - 1]) > key(s[a]) then |s| - 1 else a
  }

  predicate SortedDesc<T>(s: seq<T>, key: T -> int)
  {
    forall i, j :: 0 <= i < j < |s| ==> key(s[i]) >= key(s[j])
  }

  /** Puts `x` into `s` after every element whose key is at least `x`'s. */
  function InsertDesc<T>(x: T, s: seq<T>, key: T -> int): (r: seq<T>)
    ensures |r| == |s| + 1
  {
    if s == [] then [x]
    else if key(s[0]) >= key(x) then [s[0]] + InsertDesc(x, s[1..], key)
    else [x] + s
  }

  /** A stable sort by `key`, largest first: each element in turn is inserted after the ones already placed with a key at least as large. */
  function SortDesc<T>(s: seq<T>, key: T -> int): (r: seq<T>)
    ensures |r| == |s|
  {
    if s == [] then []
    else InsertDesc(s[|s| - 1], SortDesc(s[..|s| - 1], key), key)
  }

  /** The elements of `s` whose key is `v`, in order. */
  function WithKey<T>(s: seq<T>, key: T -> int, v: int): seq<T>
  {
    if s == [] then []
    else (if key(s[0]) == v then [s[0]] else []) + WithKey(s[1..], key, v)
  }

  lemma SortedTail<T>(s: seq<T>, key: T -> int)
    requires |s| > 0 && SortedDesc(s, key)
    ensures SortedDesc(s[1..], key)
  {
    forall i, j | 0 <= i < j < |s[1..]| ensures key(s[1..][i]) >= key(s[1..][j]) {
      assert s[1..][i] == s[i + 1] && s[1..][j] == s[j + 1];
    }
  }

  lemma SortedCons<T>(a: T, t: seq<T>, key: T -> int)
    requires SortedDesc(t, key)
    requires |t| > 0 ==> key(a) >= key(t[0])
    ensures SortedDesc([a] + t, key)
  {
    forall i, j | 0 <= i < j < |[a] + t| ensures key(([a] + t)[i]) >= key(([a] + t)[j]) {
      if i > 0 {
        assert ([a] + t)[i] == t[i - 1] && ([a] + t)[j] == t[j - 1];
      } else {
        assert ([a] + t)[j] == t[j - 1];
        assert key(t[0]) >= key(t[j - 1]) || j - 1 == 0;
      }
    }
  }

  lemma {:induction false} InsertDescFacts<T>(x: T, s: seq<T>, key: T -> int)
    requires SortedDesc(s, key)
    ensures InsertDesc(x, s, key)[0] == if s != [] && key(s[0]) >= key(x) then s[0] else x
    ensures multiset(InsertDesc(x, s, key)) == multiset(s) + multiset{x}
    ensures SortedDesc(InsertDesc(x, s, key), key)
    decreases |s|
  {
    if s != [] && key(s[0]) >= key(x) {
      SortedTail(s, key);
      InsertDescFacts(x, s[1..], key);
      var t := InsertDesc(x, s[1..], key);
      assert s == [s[0]] + s[1..];
      assert |s| > 1 ==> key(s[0]) >= key(s[1]);
      SortedCons(s[0], t, key);
    } else if s != [] {
      SortedCons(x, s, key);
    }
  }

  /** The sort returns its input, rearranged, largest key first. */
  lemma {:induction false} SortDescFacts<T>(s: seq<T>, key: T -> int)
    ensures |SortDesc(s, key)| == |s|
    ensures multiset(SortDesc(s, key)) == multiset(s)
    ensures SortedDesc(SortDesc(s, key), key)
    decreases |s|
  {
    if s != [] {
      var p := s[..|s| - 1];
      SortDescFacts(p, key);
      InsertDescFacts(s[|s| - 1], SortDesc(p, key), key);
      assert s == p + [s[|s| - 1]];
    }
  }

  lemma {:induction false} WithKeyAppend<T>(s: seq<T>, x: T, key: T -> int, v: int)
    ensures WithKey(s + [x], key, v) == WithKey(s, key, v) + (if key(x) == v then [x] else [])
    decreases |s|
  {
    if s == [] {
      assert [x][1..] == [];
    } else {
      var t := s + [x];
      assert t[0] == s[0] && t[1..] == s[1..] + [x];
      WithKeyAppend(s[1..], x, key, v);
      assert WithKey(t, key, v) == (if key(s[0]) == v then [s[0]] else []) + WithKey(t[1..], key, v);
    }
  }

  lemma {:induction false} WithKeyAbsent<T>(s: seq<T>, key: T -> int, v: int)
    requires forall i :: 0 <= i < |s| ==> key(s[i]) < v
    ensures WithKey(s, key, v) == []
    decreases |s|
  {
    if s != [] {
      WithKeyAbsent(s[1..], key, v);
    }
  }

  lemma {:induction false} WithKeyInsert<T>(x: T, s: seq<T>, key: T -> int, v: int)
    requires SortedDesc(s, key)
    ensures WithKey(InsertDesc(x, s, key), key, v) == WithKey(s, key, v) + (if key(x) == v then [x] else [])
    decreases |s|
  {
    if s == [] {
      assert [x][1..] == [];
    } else if key(s[0]) >= key(x) {
      SortedTail(s, key);
      WithKeyInsert(x, s[1..], key, v);
      var t := InsertDesc(x, s[1..], key);
      var head := if key(s[0]) == v then [s[0]] else [];
      assert InsertDesc(x, s, key) == [s[0]] + t;
      assert ([s[0]] + t)[1..] == t;
      assert WithKey([s[0]] + t, key, v) == head + WithKey(t, key, v);
      assert WithKey(s, key, v) == head + WithKey(s[1..], key, v);
    } else {
      assert ([x] + s)[1..] == s;
      if key(x) == v {
        WithKeyAbsent(s, key, v);
      }
    }
  }

  /**
   * Stability: the entries that share a key keep their relative order, so
   * among equal counts the one inserted first into the counter comes first.
   */
  lemma {:induction false} SortDescStable<T>(s: seq<T>, key: T -> int, v: int)
    ensures WithKey(SortDesc(s, key), key, v) == WithKey(s, key, v)
    decreases |s|
  {
    if s != [] {
      var p := s[..|s| - 1];
      var x := s[|s| - 1];
      assert s == p + [x];
      SortDescFacts(p, key);
      WithKeyInsert(x, SortDesc(p, key), key, v);
      SortDescStable(p, key, v);
      WithKeyAppend(p, x, key, v);
    }
  }

  /** `SortDesc(s, key)[0]` is the entry the strict-`>` reduce picks: the first maximum. */
  lemma {:induction false} SortDescHead<T>(s: seq<T>, key: T -> int)
    requires |s| > 0
    ensures |SortDesc(s, key)| == |s|
    ensures SortDesc(s, key)[0] == s[FirstMaxIndex(s, key)]
    decreases |s|
  {
    SortDescFacts(s, key);
    if |s| > 1 {
      var p := s[..|s| - 1];
      var x := s[|s| - 1];
      SortDescHead(p, key);
      var t := SortDesc(p, key);
      assert SortDesc(s, key) == InsertDesc(x, t, key);
      assert p[FirstMaxIndex(p, key)] == s[FirstMaxIndex(p, key)];
    }
  }

  /**
   * Whatever is cut off by taking the first `n` of the sorted entries has a
   * key no larger than any entry that was kept.
   */
  lemma SortDescPrefixDominates<T>(s: seq<T>, key: T -> int, n: nat, i: nat)
    requires n <= |s| && i < |s|
    requires s[i] !in SortDesc(s, key)[..n]
    ensures forall j :: 0 <= j < n ==> key(SortDesc(s, key)[j]) >= key(s[i])
  {
    SortDescFacts(s, key);
    var t := SortDesc(s, key);
    assert s[i] in multiset(s);
    assert s[i] in multiset(t);
    var q :| 0 <= q < |t| && t[q] == s[i];
    assert q >= n;
  }
}
