/**
 * `GET /api/classifier/stats`: over the fault records (newest first), the
 * number of classifications, a fixed accuracy figure, the five most frequent
 * faults with the share of their high-confidence predictions, and the ten
 * most recent classifications.
 */
module ClassifierStatsRoute {
  import opened Records
  import opened Tally
  import opened Ranking

  /** A prediction counts as correct when its confidence exceeds 0.8. */
  predicate IsCorrect(r: CarData)
  {
    r.confidence > 0.8
  }

  /** One value of the `faultCounts` accumulator. */
  datatype FaultTally = FaultTally(count: nat, correct: nat)

  /** One element of `topFaults`. */
  datatype TopFault = TopFault(fault: string, count: nat, accuracy: real)

  /** One element of `recentActivity`. */
  datatype Activity = Activity(timestamp: string, fault: string, confidence: real, accuracy: bool)

  datatype ClassifierStats = ClassifierStats(
    totalClassifications: nat,
    accuracyRate: string,
    topFaults: seq<TopFault>,
    recentActivity: seq<Activity>)

  /** The placeholder accuracy rate the route reports whatever the records. */
  const AccuracyRate: string := "85.5"

  const TopFaultLimit: nat := 5
  const RecentLimit: nat := 10

  /** How many records with fault `fault` were predicted with confidence above 0.8. */
  function CorrectCount(rs: seq<CarData>, fault: string): nat
  {
    if rs == [] then 0
    else
      var r := rs[|rs| - 1];
      CorrectCount(rs[..|rs| - 1], fault) + (if r.fault == fault && IsCorrect(r) then 1 else 0)
  }

  /** The correct predictions of a fault are among the records with that fault. */
  lemma {:induction false} CorrectCountBound(rs: seq<CarData>, fault: string)
    ensures CorrectCount(rs, fault) <= Occurrences(Faults(rs), fault)
    decreases |rs|
  {
    if rs != [] {
      var p := rs[..|rs| - 1];
      assert Faults(rs) == Faults(p) + [rs[|rs| - 1].fault];
      assert Faults(rs)[..|rs| - 1] == Faults(p);
      CorrectCountBound(p, fault);
    }
  }

  /** The `faultCounts` accumulator once the reduce has seen the records `rs`. */
  function Tallies(rs: seq<CarData>): map<string, FaultTally>
  {
    if rs == [] then map[]
    else
      var acc := Tallies(rs[..|rs| - 1]);
      var r := rs[|rs| - 1];
      var t := if r.fault in acc then acc[r.fault] else FaultTally(0, 0);
      acc[r.fault := FaultTally(t.count + 1, t.correct + if IsCorrect(r) then 1 else 0)]
  }

  /** One more record: the accumulator after it, and the faults seen so far. */
  lemma {:induction false} TalliesStep(rs: seq<CarData>, r: CarData)
    ensures Faults(rs + [r]) == Faults(rs) + [r.fault]
    ensures Tallies(rs + [r]) ==
      var t := if r.fault in Tallies(rs) then Tallies(rs)[r.fault] else FaultTally(0, 0);
      Tallies(rs)[r.fault := FaultTally(t.count + 1, t.correct + if IsCorrect(r) then 1 else 0)]
  {
    assert (rs + [r])[..|rs|] == rs;
  }

  /**
   * The accumulator has a key for every fault that occurs and for no other,
   * holding how many records carry that fault and how many of them are correct.
   */
  lemma {:induction false} TalliesCount(rs: seq<CarData>, f: string)
    ensures f in Tallies(rs) <==> f in Faults(rs)
    ensures f in Tallies(rs) ==> Tallies(rs)[f] == FaultTally(Occurrences(Faults(rs), f), CorrectCount(rs, f))
    decreases |rs|
  {
    if rs != [] {
      var p := rs[..|rs| - 1];
      var r := rs[|rs| - 1];
      assert rs == p + [r];
      TalliesStep(p, r);
      TalliesCount(p, f);
      OccurrencesAppend(Faults(p), r.fault);
      if r.fault == f && f !in Tallies(p) {
        CorrectCountBound(p, f);
      }
    }
  }

  /**
   * The reduce callback for one record: a fault seen for the first time gets
   * a zero tally and is appended to the key order, then its count, and its
   * correct count when the confidence is above 0.8, go up by one.
   */
  method CountFault(ghost seen: seq<CarData>, curr: CarData, faults: seq<string>, tallies: map<string, FaultTally>)
    returns (faults': seq<string>, tallies': map<string, FaultTally>)
    requires faults == Distinct(Faults(seen)) && tallies == Tallies(seen)
    ensures faults' == Distinct(Faults(seen + [curr])) && tallies' == Tallies(seen + [curr])
  {
    TalliesStep(seen, curr);
    TalliesCount(seen, curr.fault);
    DistinctAppend(Faults(seen), curr.fault);
    faults', tallies' := faults, tallies;
    if curr.fault !in tallies' {
      tallies' := tallies'[curr.fault := FaultTally(0, 0)];
      faults' := faults' + [curr.fault];
    }
    var t := tallies'[curr.fault];
    t := t.(count := t.count + 1);
    if IsCorrect(curr) {
      t := t.(correct := t.correct + 1);
    }
    tallies' := tallies'[curr.fault := t];
    assert tallies' == tallies[curr.fault := t];
  }

  /**
   * The `faultCounts` reduce: the faults in order of first occurrence and,
   * for each, how many records carry it and how many of those are correct.
   */
  method TallyFaults(records: seq<CarData>) returns (faults: seq<string>, tallies: map<string, FaultTally>)
    ensures faults == Distinct(Faults(records))
    ensures forall f :: f in tallies <==> f in Faults(records)
    ensures forall f :: f in tallies ==>
              tallies[f] == FaultTally(Occurrences(Faults(records), f), CorrectCount(records, f))
  {
    faults, tallies := [], map[];
    var i := 0;
    while i < |records|
      invariant 0 <= i <= |records|
      invariant faults == Distinct(Faults(records[..i]))
      invariant tallies == Tallies(records[..i])
    {
      assert records[..i + 1] == records[..i] + [records[i]];
      faults, tallies := CountFault(records[..i], records[i], faults, tallies);
      i := i + 1;
    }
    assert records[..|records|] == records;
    forall f
      ensures f in tallies <==> f in Faults(records)
      ensures f in tallies ==> tallies[f] == FaultTally(Occurrences(Faults(records), f), CorrectCount(records, f))
    {
      TalliesCount(records, f);
    }
  }

  /** A fault's entry: its count, and the correct ones as a percentage of it. */
  function Entry(fault: string, t: FaultTally): (e: TopFault)
    requires 0 < t.count
    ensures e.fault == fault && e.count == t.count
    ensures 0.0 <= e.accuracy
    ensures t.correct <= t.count ==> e.accuracy <= 100.0
  {
    TopFault(fault, t.count, Percentage(t.correct, t.count))
  }

  /** `Object.entries(faultCounts).map(...)`: one entry per distinct fault, in first-occurrence order. */
  function FaultEntries(records: seq<CarData>): (es: seq<TopFault>)
    ensures |es| == |Distinct(Faults(records))|
    ensures forall k :: 0 <= k < |es| ==>
              var f := Distinct(Faults(records))[k];
              es[k] == Entry(f, FaultTally(Occurrences(Faults(records), f), CorrectCount(records, f)))
  {
    var d := Distinct(Faults(records));
    seq(|d|, k requires 0 <= k < |d| =>
      Entry(d[k], FaultTally(Occurrences(Faults(records), d[k]), CorrectCount(records, d[k]))))
  }

  function CountOf(e: TopFault): int
  {
    e.count
  }

  /** `.sort((a, b) => b.count - a.count).slice(0, 5)` over the entries. */
  function TopFaults(records: seq<CarData>): seq<TopFault>
  {
    var es := FaultEntries(records);
    SortDesc(es, CountOf)[..Min(TopFaultLimit, |es|)]
  }

  /** `faultRecords.slice(0, 10).map(...)`. */
  function RecentActivity(records: seq<CarData>): (acts: seq<Activity>)
    ensures |acts| == Min(RecentLimit, |records|)
    ensures forall k :: 0 <= k < |acts| ==>
              && acts[k].timestamp == records[k].timestamp
              && acts[k].fault == records[k].fault
              && acts[k].confidence == records[k].confidence
              && (acts[k].accuracy <==> records[k].confidence > 0.8)
  {
    seq(Min(RecentLimit, |records|), k requires 0 <= k < Min(RecentLimit, |records|) =>
      Activity(records[k].timestamp, records[k].fault, records[k].confidence, IsCorrect(records[k])))
  }

  predicate FaultsDistinct(es: seq<TopFault>)
  {
    forall i, j :: 0 <= i < j < |es| ==> es[i].fault != es[j].fault
  }

  lemma RepeatedTwice(t: seq<TopFault>, i: nat, j: nat)
    requires i < j < |t| && t[i] == t[j]
    ensures multiset(t)[t[i]] >= 2
  {
    assert t == t[..j] + [t[j]] + t[j + 1..];
    assert t[..j][i] == t[i];
  }

  lemma {:induction false} AtMostOnce(s: seq<TopFault>, x: TopFault)
    requires FaultsDistinct(s)
    ensures multiset(s)[x] <= 1
    decreases |s|
  {
    if s != [] {
      var p := s[..|s| - 1];
      assert s == p + [s[|s| - 1]];
      assert FaultsDistinct(p);
      AtMostOnce(p, x);
      if s[|s| - 1] == x {
        assert x !in p;
      }
    }
  }

  /** Rearranging entries whose faults are distinct keeps them distinct. */
  lemma PermutationKeepsFaultsDistinct(s: seq<TopFault>, t: seq<TopFault>)
    requires FaultsDistinct(s)
    requires multiset(t) == multiset(s)
    ensures FaultsDistinct(t)
  {
    forall i, j | 0 <= i < j < |t|
      ensures t[i].fault != t[j].fault
    {
      assert t[i] in multiset(s) && t[j] in multiset(s);
      var a :| 0 <= a < |s| && s[a] == t[i];
      var b :| 0 <= b < |s| && s[b] == t[j];
      if t[i] == t[j] {
        RepeatedTwice(t, i, j);
        AtMostOnce(s, t[i]);
      }
    }
  }

  /** At most five entries, most frequent first, one per fault. */
  lemma TopFaultsShape(records: seq<CarData>)
    ensures |TopFaults(records)| == Min(TopFaultLimit, |Distinct(Faults(records))|)
    ensures SortedDesc(TopFaults(records), CountOf)
    ensures FaultsDistinct(TopFaults(records))
  {
    var es := FaultEntries(records);
    var sorted := SortDesc(es, CountOf);
    SortDescFacts(es, CountOf);
    DistinctNoDuplicates(Faults(records));
    assert FaultsDistinct(es);
    PermutationKeepsFaultsDistinct(es, sorted);
    var top := sorted[..Min(TopFaultLimit, |es|)];
    assert forall i, j :: 0 <= i < j < |top| ==> top[i] == sorted[i] && top[j] == sorted[j];
  }

  /** Every entry kept is one of the fault entries. */
  lemma TopFaultsAreEntries(records: seq<CarData>, e: TopFault)
    requires e in TopFaults(records)
    ensures e in FaultEntries(records)
  {
    var es := FaultEntries(records);
    SortDescFacts(es, CountOf);
    assert e in SortDesc(es, CountOf);
    assert e in multiset(SortDesc(es, CountOf));
  }

  /**
   * Each entry of `topFaults` is a fault that occurs, with the number of
   * records that carry it and the share of them predicted with confidence
   * above 0.8, as a percentage in [0, 100].
   */
  lemma TopFaultEntry(records: seq<CarData>, e: TopFault)
    requires e in TopFaults(records)
    ensures e.fault in Faults(records)
    ensures e.count == Occurrences(Faults(records), e.fault)
    ensures e.accuracy == Percentage(CorrectCount(records, e.fault), e.count)
    ensures 0.0 <= e.accuracy <= 100.0
  {
    TopFaultsAreEntries(records, e);
    var es := FaultEntries(records);
    var k :| 0 <= k < |es| && es[k] == e;
    CorrectCountBound(records, e.fault);
  }

  /**
   * `Object.entries(faultCounts).map(...)` over the counter the reduce built:
   * the entries `FaultEntries` describes.
   */
  method EntriesOf(ghost records: seq<CarData>, faults: seq<string>, tallies: map<string, FaultTally>)
    returns (entries: seq<TopFault>)
    requires faults == Distinct(Faults(records))
    requires forall f :: f in tallies <==> f in Faults(records)
    requires forall f :: f in tallies ==>
               tallies[f] == FaultTally(Occurrences(Faults(records), f), CorrectCount(records, f))
    ensures entries == FaultEntries(records)
  {
    forall k | 0 <= k < |faults|
      ensures faults[k] in tallies && tallies[faults[k]].count > 0
    {
    }
    entries := seq(|faults|, k requires 0 <= k < |faults| && faults[k] in tallies && tallies[faults[k]].count > 0 =>
      var t := tallies[faults[k]];
      TopFault(faults[k], t.count, Percentage(t.correct, t.count)));
    ghost var es := FaultEntries(records);
    forall k | 0 <= k < |faults|
      ensures entries[k] == es[k]
    {
    }
  }

  /** No fault left out of `topFaults` occurs more often than any fault kept. */
  lemma TopFaultsDominate(records: seq<CarData>, f: string, e: TopFault)
    requires f in Faults(records) && e in TopFaults(records)
    requires forall e' :: e' in TopFaults(records) ==> e'.fault != f
    ensures Occurrences(Faults(records), f) <= e.count
  {
    var es := FaultEntries(records);
    var d := Distinct(Faults(records));
    var n := Min(TopFaultLimit, |es|);
    var top := SortDesc(es, CountOf)[..n];
    var i := FirstIndex(d, f);
    assert es[i].fault == f;
    assert es[i] !in top;
    var j :| 0 <= j < n && top[j] == e;
    SortDescPrefixDominates(es, CountOf, n, i);
  }

  method GetClassifierStats(records: seq<CarData>) returns (stats: ClassifierStats)
    ensures stats.totalClassifications == |records|
    ensures stats.accuracyRate == AccuracyRate
    ensures stats.topFaults == TopFaults(records)
    ensures stats.recentActivity == RecentActivity(records)
  {
    var faults, tallies := TallyFaults(records);
    var entries := EntriesOf(records, faults, tallies);
    var sorted := SortDesc(entries, CountOf);
    var topFaults := sorted[..Min(TopFaultLimit, |sorted|)];
    var recent := records[..Min(RecentLimit, |records|)];
    var recentActivity := seq(|recent|, k requires 0 <= k < |recent| =>
      Activity(recent[k].timestamp, recent[k].fault, recent[k].confidence, recent[k].confidence > 0.8));
    assert recentActivity == RecentActivity(records);
    stats := ClassifierStats(|records|, AccuracyRate, topFaults, recentActivity);
  }
}
