/**
 * `GET /api/fleet/stats`: the number of distinct VINs among the NFT rows, the
 * most common non-empty fault among the fault records with its share of all
 * of them, and the mean confidence as a percentage.
 */
module FleetStatsRoute {
  import opened Records
  import opened Tally
  import opened Ranking

  datatype MostCommon = MostCommon(fault: string, percentage: real)

  datatype FleetStats = FleetStats(
    totalVehicles: nat,
    mostCommonFault: Option<MostCommon>,
    averageConfidence: real)

  /** The faults the `faultCounts` reduce counts: the non-empty ones, in record order. */
  function NonEmptyFaults(rs: seq<CarData>): seq<string>
  {
    if rs == [] then []
    else
      var r := rs[|rs| - 1];
      NonEmptyFaults(rs[..|rs| - 1]) + (if r.fault != "" then [r.fault] else [])
  }

  lemma NonEmptyFaultsStep(rs: seq<CarData>, r: CarData)
    ensures NonEmptyFaults(rs + [r]) == NonEmptyFaults(rs) + (if r.fault != "" then [r.fault] else [])
  {
    assert (rs + [r])[..|rs|] == rs;
  }

  /**
   * A record with an empty fault is not counted under any fault; every
   * other fault is counted once per record that carries it.
   */
  lemma {:induction false} NonEmptyFaultsCount(rs: seq<CarData>, f: string)
    ensures Occurrences(NonEmptyFaults(rs), f) == if f == "" then 0 else Occurrences(Faults(rs), f)
    decreases |rs|
  {
    if rs != [] {
      var p := rs[..|rs| - 1];
      var r := rs[|rs| - 1];
      NonEmptyFaultsCount(p, f);
      assert Faults(rs) == Faults(p) + [r.fault];
      OccurrencesAppend(Faults(p), r.fault);
      if r.fault != "" {
        assert NonEmptyFaults(rs) == NonEmptyFaults(p) + [r.fault];
        OccurrencesAppend(NonEmptyFaults(p), r.fault);
      } else {
        assert NonEmptyFaults(rs) == NonEmptyFaults(p);
      }
    }
  }

  /** No fault is counted exactly when every record's fault is empty. */
  lemma {:induction false} NonEmptyFaultsNone(rs: seq<CarData>)
    ensures NonEmptyFaults(rs) == [] <==> forall i :: 0 <= i < |rs| ==> rs[i].fault == ""
    decreases |rs|
  {
    if rs != [] {
      var p := rs[..|rs| - 1];
      NonEmptyFaultsNone(p);
      assert forall i :: 0 <= i < |p| ==> p[i] == rs[i];
    }
  }

  /**
   * The `faultCounts` reduce: every non-empty fault, in order of first
   * occurrence, with the number of records that carry it.
   */
  method CountFaults(records: seq<CarData>) returns (keys: seq<string>, counts: map<string, nat>)
    ensures keys == Distinct(NonEmptyFaults(records))
    ensures forall f :: f in counts <==> f in NonEmptyFaults(records)
    ensures forall f :: f in counts ==> counts[f] == Occurrences(NonEmptyFaults(records), f)
  {
    keys, counts := [], map[];
    ghost var counted: seq<string> := [];
    var i := 0;
    while i < |records|
      invariant 0 <= i <= |records|
      invariant counted == NonEmptyFaults(records[..i])
      invariant keys == Distinct(counted)
      invariant forall f :: f in counts <==> f in counted
      invariant forall f :: f in counts ==> counts[f] == Occurrences(counted, f)
    {
      var curr := records[i];
      assert records[..i + 1] == records[..i] + [curr];
      NonEmptyFaultsStep(records[..i], curr);
      if curr.fault != "" {
        OccurrencesAppend(counted, curr.fault);
        DistinctAppend(counted, curr.fault);
        if curr.fault in counts {
          counts := counts[curr.fault := counts[curr.fault] + 1];
        } else {
          counts := counts[curr.fault := 1];
          keys := keys + [curr.fault];
        }
        counted := counted + [curr.fault];
      }
      i := i + 1;
    }
    assert records[..|records|] == records;
  }

  /**
   * `mostCommonFault`: none when no fault was counted; otherwise the entry
   * the strict-`>` reduce keeps, with its count as a percentage of all fault
   * records (empty faults included).
   */
  function MostCommonFault(records: seq<CarData>): Option<MostCommon>
  {
    var es := CounterEntries(NonEmptyFaults(records));
    if |es| == 0 then None
    else
      var e := es[FirstMaxIndex(es, EntryCount)];
      Some(MostCommon(e.0, Percentage(e.1, |records|)))
  }

  /** There is a most common fault exactly when some fault record has a non-empty fault. */
  lemma MostCommonFaultNone(records: seq<CarData>)
    ensures MostCommonFault(records).None? <==> forall i :: 0 <= i < |records| ==> records[i].fault == ""
  {
    NonEmptyFaultsNone(records);
  }

  /**
   * The most common fault is a non-empty fault of the records that occurs at
   * least as often as any other fault, and more often than every fault that
   * first occurs before it; its percentage is its count over all fault
   * records, in (0, 100].
   */
  lemma MostCommonFaultIsMax(records: seq<CarData>)
    requires MostCommonFault(records).Some?
    ensures var m := MostCommonFault(records).value;
      && m.fault != "" && m.fault in Faults(records)
      && (forall f :: f != "" ==> Occurrences(Faults(records), f) <= Occurrences(Faults(records), m.fault))
      && m.percentage == Percentage(Occurrences(Faults(records), m.fault), |records|)
      && 0.0 < m.percentage <= 100.0
  {
    var es := CounterEntries(NonEmptyFaults(records));
    var d := Distinct(NonEmptyFaults(records));
    var k := FirstMaxIndex(es, EntryCount);
    var m := MostCommonFault(records).value;
    assert m.fault == d[k];
    NonEmptyFaultsCount(records, m.fault);
    NonEmptyFaultsCount(records, "");
    forall f | f != ""
      ensures Occurrences(Faults(records), f) <= Occurrences(Faults(records), m.fault)
    {
      NonEmptyFaultsCount(records, f);
      if f in NonEmptyFaults(records) {
        var j := FirstIndex(d, f);
        assert EntryCount(es[j]) <= EntryCount(es[k]);
      }
    }
  }

  /**
   * Ties go to the fault counted first: every fault that first occurs
   * before the most common one (among the non-empty faults) occurs strictly
   * less often, because the reduce only replaces on a strictly larger count.
   */
  lemma MostCommonFaultFirstOnTies(records: seq<CarData>)
    requires MostCommonFault(records).Some?
    ensures var m := MostCommonFault(records).value;
      var d := Distinct(NonEmptyFaults(records));
      && m.fault in d
      && forall j :: 0 <= j < FirstIndex(d, m.fault) ==>
           Occurrences(Faults(records), d[j]) < Occurrences(Faults(records), m.fault)
  {
    var es := CounterEntries(NonEmptyFaults(records));
    var d := Distinct(NonEmptyFaults(records));
    var k := FirstMaxIndex(es, EntryCount);
    var m := MostCommonFault(records).value;
    DistinctNoDuplicates(NonEmptyFaults(records));
    assert FirstIndex(d, m.fault) == k;
    NonEmptyFaultsCount(records, m.fault);
    forall j | 0 <= j < k
      ensures Occurrences(Faults(records), d[j]) < Occurrences(Faults(records), m.fault)
    {
      NonEmptyFaultsCount(records, d[j]);
      assert EntryCount(es[j]) < EntryCount(es[k]);
    }
  }

  /**
   * `averageConfidence`: the mean confidence as a percentage, or 0 without
   * confidence records; within [0, 100] when every confidence is within [0, 1].
   */
  function AverageConfidence(rs: seq<CarData>): (avg: real)
    ensures |rs| == 0 ==> avg == 0.0
    ensures (forall i :: 0 <= i < |rs| ==> 0.0 <= rs[i].confidence <= 1.0) ==> 0.0 <= avg <= 100.0
  {
    if |rs| > 0 then MeanConfidence(rs) * 100.0 else 0.0
  }

  /** The `mostCommonFault` block: count the faults, then keep the first entry with the largest count. */
  method FindMostCommon(faultRecords: seq<CarData>) returns (mostCommonFault: Option<MostCommon>)
    ensures mostCommonFault == MostCommonFault(faultRecords)
  {
    mostCommonFault := None;
    if |faultRecords| > 0 {
      var keys, counts := CountFaults(faultRecords);
      if |keys| > 0 {
        var entries := seq(|keys|, k requires 0 <= k < |keys| && keys[k] in counts => (keys[k], counts[keys[k]]));
        assert entries == CounterEntries(NonEmptyFaults(faultRecords));
        var best := entries[FirstMaxIndex(entries, EntryCount)];
        mostCommonFault := Some(MostCommon(best.0, (best.1 as real / |faultRecords| as real) * 100.0));
      }
    } else {
      assert NonEmptyFaults(faultRecords) == [];
    }
  }

  /**
   * The route over the `car_nfts` rows with a VIN, the `car_data` rows with a
   * fault and the `car_data` rows with a confidence.
   */
  method GetFleetStats(nfts: seq<CarNft>, faultRecords: seq<CarData>, confidenceRecords: seq<CarData>)
    returns (stats: FleetStats)
    ensures stats.totalVehicles == |Distinct(Vins(nfts))| <= |nfts|
    ensures stats.mostCommonFault == MostCommonFault(faultRecords)
    ensures stats.averageConfidence == AverageConfidence(confidenceRecords)
  {
    var totalVehicles := |ToSet(Vins(nfts))|;
    SetSizeIsDistinctCount(Vins(nfts));
    var mostCommonFault := FindMostCommon(faultRecords);
    var averageConfidence := AverageConfidence(confidenceRecords);
    stats := FleetStats(totalVehicles, mostCommonFault, averageConfidence);
  }
}
