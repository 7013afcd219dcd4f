/**
 * Counting by key, as the pages and routes do with
 * `acc[key] = (acc[key] || 0) + 1` inside a `reduce`. A JavaScript object
 * keeps its (non integer-like) keys in insertion order, so a counter is a
 * sequence of keys in first-occurrence order next to a map of counts.
 */
module Tally {

  predicate NoDuplicates(s: seq<string>)
  {
    forall i, j :: 0 <= i < j < |s| ==> s[i] != s[j]
  }

  /** `Math.min`, and the length `slice(0, n)` keeps. */
  function Min(a: nat, b: nat): nat
  {
    if a < b then a else b
  }

  /** `part / whole * 100`: a share as a percentage, within [0, 100] when the part is no larger than the whole. */
  function Percentage(part: nat, whole: nat): (p: real)
    requires whole > 0
    ensures 0.0 <= p
    ensures part <= whole ==> p <= 100.0
    ensures 0 < part ==> 0.0 < p
  {
    assert part <= whole ==> part as real / whole as real <= 1.0 by {
      if part <= whole {
        assert (part as real / whole as real) * whole as real == part as real;
      }
    }
    (part as real / whole as real) * 100.0
  }

  function ToSet(xs: seq<string>): set<string>
  {
    set x | x in xs
  }

  /** The distinct elements of `xs`, in order of first occurrence. */
  function Distinct(xs: seq<string>): (d: seq<string>)
    ensures forall x :: x in d <==> x in xs
    ensures |d| <= |xs|
  {
    if xs == [] then []
    else
      var p := Distinct(xs[..|xs| - 1]);
      var x := xs[|xs| - 1];
      assert forall y :: y in xs <==> y in xs[..|xs| - 1] || y == x by {
        assert xs == xs[..|xs| - 1] + [x];
      }
      if x in p then p else p + [x]
  }

  /** Each value appears once in the distinct list. */
  lemma {:induction false} DistinctNoDuplicates(xs: seq<string>)
    ensures NoDuplicates(Distinct(xs))
    decreases |xs|
  {
    if xs != [] {
      DistinctNoDuplicates(xs[..|xs| - 1]);
    }
  }

  /** Appending an element extends the distinct list exactly when it is new. */
  lemma DistinctAppend(xs: seq<string>, x: string)
    ensures Distinct(xs + [x]) == if x in xs then Distinct(xs) else Distinct(xs) + [x]
  {
    assert (xs + [x])[..|xs|] == xs;
  }

  /** Appending `y` adds one occurrence of `y` and none of anything else. */
  lemma OccurrencesAppend(xs: seq<string>, y: string)
    ensures forall x {:trigger Occurrences(xs + [y], x)} ::
              Occurrences(xs + [y], x) == Occurrences(xs, x) + (if y == x then 1 else 0)
  {
    assert (xs + [y])[..|xs|] == xs;
  }

  /** How many times `x` occurs in `xs`. */
  function Occurrences(xs: seq<string>, x: string): (n: nat)
    ensures n <= |xs|
    ensures n > 0 <==> x in xs
  {
    if xs == [] then 0
    else
      assert xs == xs[..|xs| - 1] + [xs[|xs| - 1]];
      Occurrences(xs[..|xs| - 1], x) + (if xs[|xs| - 1] == x then 1 else 0)
  }

  /** Index of the first occurrence of `x` in `xs`. */
  function FirstIndex(xs: seq<string>, x: string): (i: nat)
    requires x in xs
    ensures i < |xs| && xs[i] == x
    ensures forall j :: 0 <= j < i ==> xs[j] != x
  {
    if xs[0] == x then 0 else 1 + FirstIndex(xs[1..], x)
  }

  function Sum(ns: seq<nat>): nat
  {
    if ns == [] then 0 else Sum(ns[..|ns| - 1]) + ns[|ns| - 1]
  }

  /** The count of each key of `keys` in `xs`, in the order of `keys`. */
  function OccurrenceCounts(keys: seq<string>, xs: seq<string>): (r: seq<nat>)
    ensures |r| == |keys|
    ensures forall k :: 0 <= k < |keys| ==> r[k] == Occurrences(xs, keys[k])
  {
    seq(|keys|, k requires 0 <= k < |keys| => Occurrences(xs, keys[k]))
  }

  lemma {:induction false} SumAppend(ns: seq<nat>, n: nat)
    ensures Sum(ns + [n]) == Sum(ns) + n
  {
    assert (ns + [n])[..|ns|] == ns;
  }

  lemma {:induction false} SumConcat(a: seq<nat>, b: seq<nat>)
    ensures Sum(a + b) == Sum(a) + Sum(b)
    decreases |b|
  {
    if b == [] {
      assert a + b == a;
    } else {
      var b' := b[..|b| - 1];
      assert a + b == (a + b') + [b[|b| - 1]];
      SumAppend(a + b', b[|b| - 1]);
      SumConcat(a, b');
      SumAppend(b', b[|b| - 1]);
      assert b == b' + [b[|b| - 1]];
    }
  }

  /** Adding one more element `x` to `xs` adds, over the keys, as many as `x` occurs among the keys. */
  lemma {:induction false} OccurrenceCountsGrow(keys: seq<string>, xs: seq<string>, x: string)
    ensures Sum(OccurrenceCounts(keys, xs + [x])) == Sum(OccurrenceCounts(keys, xs)) + Occurrences(keys, x)
    decreases |keys|
  {
    assert (xs + [x])[..|xs|] == xs;
    if keys != [] {
      var p := keys[..|keys| - 1];
      var k := keys[|keys| - 1];
      assert OccurrenceCounts(keys, xs + [x]) == OccurrenceCounts(p, xs + [x]) + [Occurrences(xs + [x], k)];
      assert OccurrenceCounts(keys, xs) == OccurrenceCounts(p, xs) + [Occurrences(xs, k)];
      SumAppend(OccurrenceCounts(p, xs + [x]), Occurrences(xs + [x], k));
      SumAppend(OccurrenceCounts(p, xs), Occurrences(xs, k));
      OccurrenceCountsGrow(p, xs, x);
    }
  }

  /** A key that occurs once in a list without duplicates occurs exactly once. */
  lemma {:induction false} OccurrencesNoDuplicates(keys: seq<string>, x: string)
    requires NoDuplicates(keys)
    ensures Occurrences(keys, x) == if x in keys then 1 else 0
    decreases |keys|
  {
    if keys != [] {
      var p := keys[..|keys| - 1];
      assert keys == p + [keys[|keys| - 1]];
      OccurrencesNoDuplicates(p, x);
    }
  }

  /**
   * Counting every distinct key accounts for every element exactly once:
   * the counts of a counter add up to the length of its input.
   */
  lemma {:induction false} DistinctCountsSum(xs: seq<string>)
    ensures Sum(OccurrenceCounts(Distinct(xs), xs)) == |xs|
    decreases |xs|
  {
    if xs != [] {
      var p := xs[..|xs| - 1];
      var x := xs[|xs| - 1];
      assert xs == p + [x];
      var d := Distinct(p);
      DistinctNoDuplicates(p);
      DistinctCountsSum(p);
      DistinctAppend(p, x);
      OccurrenceCountsGrow(d, p, x);
      OccurrencesNoDuplicates(d, x);
      if x !in d {
        OccurrencesAppend(p, x);
        assert Occurrences(xs, x) == 1;
        OccurrenceCountsSnoc(d, x, xs);
        SumAppend(OccurrenceCounts(d, xs), 1);
      }
    }
  }

  lemma OccurrenceCountsSnoc(keys: seq<string>, k: string, xs: seq<string>)
    ensures OccurrenceCounts(keys + [k], xs) == OccurrenceCounts(keys, xs) + [Occurrences(xs, k)]
  {
  }

  /** A list without duplicates has as many elements as the set of them. */
  lemma {:induction false} NoDuplicatesCardinality(s: seq<string>)
    requires NoDuplicates(s)
    ensures |ToSet(s)| == |s|
    decreases |s|
  {
    if s != [] {
      var p := s[..|s| - 1];
      var x := s[|s| - 1];
      assert s == p + [x];
      assert ToSet(s) == ToSet(p) + {x};
      assert x !in ToSet(p);
      NoDuplicatesCardinality(p);
    }
  }

  /** A JavaScript `Set` built from `xs` has one element per distinct value of `xs`. */
  lemma SetSizeIsDistinctCount(xs: seq<string>)
    ensures |ToSet(xs)| == |Distinct(xs)| <= |xs|
  {
    assert ToSet(xs) == ToSet(Distinct(xs));
    DistinctNoDuplicates(xs);
    NoDuplicatesCardinality(Distinct(xs));
  }

  /**
   * The reduce callback `acc[x] = (acc[x] || 0) + 1`: a new key is added at
   * the end with count 1, a known one has its count bumped.
   */
  method Bump(ghost seen: seq<string>, x: string, keys: seq<string>, counts: map<string, nat>)
    returns (keys': seq<string>, counts': map<string, nat>)
    requires keys == Distinct(seen)
    requires forall y :: y in counts <==> y in seen
    requires forall y :: y in counts ==> counts[y] == Occurrences(seen, y)
    ensures keys' == Distinct(seen + [x])
    ensures forall y :: y in counts' <==> y in seen + [x]
    ensures forall y :: y in counts' ==> counts'[y] == Occurrences(seen + [x], y)
  {
    OccurrencesAppend(seen, x);
    DistinctAppend(seen, x);
    if x in counts {
      keys', counts' := keys, counts[x := counts[x] + 1];
    } else {
      keys', counts' := keys + [x], counts[x := 1];
    }
  }

  /**
   * The counter that `xs.reduce((acc, x) => { acc[x] = (acc[x] || 0) + 1; return acc }, {})`
   * builds: its keys in insertion order and the count of each.
   */
  method CountByKey(xs: seq<string>) returns (keys: seq<string>, counts: map<string, nat>)
    ensures keys == Distinct(xs)
    ensures forall x :: x in counts <==> x in xs
    ensures forall x :: x in counts ==> counts[x] == Occurrences(xs, x)
  {
    keys, counts := [], map[];
    var i := 0;
    while i < |xs|
      invariant 0 <= i <= |xs|
      invariant keys == Distinct(xs[..i])
      invariant forall x :: x in counts <==> x in xs[..i]
      invariant forall x :: x in counts ==> counts[x] == Occurrences(xs[..i], x)
    {
      assert xs[..i + 1] == xs[..i] + [xs[i]];
      keys, counts := Bump(xs[..i], xs[i], keys, counts);
      i := i + 1;
    }
    assert xs[..|xs|] == xs;
  }

  /** One `[key, count]` pair of `Object.entries` of a counter. */
  type Entry = (string, nat)

  function EntryCount(e: Entry): int
  {
    e.1
  }

  /**
   * `Object.entries` of the counter built from `xs`: each distinct key in
   * first-occurrence order, with its count. Glue only: its ensures lists the
   * entries, and the properties are proved about Distinct and Occurrences.
   */
  function CounterEntries(xs: seq<string>): (es: seq<Entry>)
    ensures |es| == |Distinct(xs)|
    ensures forall k :: 0 <= k < |es| ==> es[k] == (Distinct(xs)[k], Occurrences(xs, Distinct(xs)[k]))
  {
    var d := Distinct(xs);
    seq(|d|, k requires 0 <= k < |d| => (d[k], Occurrences(xs, d[k])))
  }

  /**
   * `Object.values` of a counter: the count of each key, in key order. Glue
   * only: what the counts mean is proved about the counter (CountByKey).
   */
  function CountsInOrder(keys: seq<string>, counts: map<string, nat>): (r: seq<nat>)
    requires forall k :: k in keys ==> k in counts
    ensures |r| == |keys|
    ensures forall i :: 0 <= i < |keys| ==> r[i] == counts[keys[i]]
  {
    seq(|keys|, i requires 0 <= i < |keys| => counts[keys[i]])
  }
}
