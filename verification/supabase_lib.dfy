/**
 * The in-memory halves of `getFleetStatistics` and `getFleetOverview` in the
 * client library: what they compute from the `car_data` rows the queries
 * return (newest first).
 */
module SupabaseLib {
  import opened Records
  import opened Tally
  import opened Ranking

  datatype MostCommon = MostCommon(fault: string, percentage: real)

  datatype FleetStatistics = FleetStatistics(
    totalVehicles: nat,
    mostCommonFault: Option<MostCommon>,
    averageConfidence: real)

  datatype VehicleOverview = VehicleOverview(vin: string, faultCount: nat, lastFault: Option<CarData>)

  /**
   * `Object.entries(faultFrequency).sort(([, a], [, b]) => b - a)[0]`: no
   * entry when there are no rows, otherwise the head of the stable sort, with
   * its count as a percentage of all rows.
   */
  function MostCommonFault(faults: seq<string>): Option<MostCommon>
  {
    var sorted := SortDesc(CounterEntries(faults), EntryCount);
    if |sorted| == 0 then None
    else Some(MostCommon(sorted[0].0, Percentage(sorted[0].1, |faults|)))
  }

  /**
   * There is a most common fault exactly when there are rows. It is a fault
   * of the rows that occurs at least as often as every other fault, and more
   * often than every fault that first occurs before it (the stable sort keeps
   * the first of equal counts in front); its percentage is its share of the
   * rows, in (0, 100].
   */
  lemma MostCommonFaultIsMax(faults: seq<string>)
    ensures MostCommonFault(faults).Some? <==> |faults| > 0
    ensures MostCommonFault(faults).Some? ==>
      var m := MostCommonFault(faults).value;
      && m.fault in faults
      && (forall f :: Occurrences(faults, f) <= Occurrences(faults, m.fault))
      && (forall j :: 0 <= j < FirstIndex(Distinct(faults), m.fault) ==>
            Occurrences(faults, Distinct(faults)[j]) < Occurrences(faults, m.fault))
      && m.percentage == Percentage(Occurrences(faults, m.fault), |faults|)
      && 0.0 < m.percentage <= 100.0
  {
    var es := CounterEntries(faults);
    var d := Distinct(faults);
    if |faults| > 0 {
      assert faults[0] in d;
      SortDescHead(es, EntryCount);
      var k := FirstMaxIndex(es, EntryCount);
      var m := MostCommonFault(faults).value;
      assert m.fault == d[k];
      DistinctNoDuplicates(faults);
      assert FirstIndex(d, m.fault) == k;
      forall f
        ensures Occurrences(faults, f) <= Occurrences(faults, m.fault)
      {
        if f in faults {
          var j := FirstIndex(d, f);
          assert EntryCount(es[j]) <= EntryCount(es[k]);
        }
      }
      forall j | 0 <= j < k
        ensures Occurrences(faults, d[j]) < Occurrences(faults, m.fault)
      {
        assert EntryCount(es[j]) < EntryCount(es[k]);
      }
    }
  }

  /**
   * `avgConfidence`: the sum of the confidences over the number of rows, or
   * over 1 when there are none; not scaled to a percentage, so within [0, 1]
   * when every confidence is.
   */
  function AverageConfidence(rs: seq<CarData>): (avg: real)
    ensures |rs| == 0 ==> avg == 0.0
    ensures (forall i :: 0 <= i < |rs| ==> 0.0 <= rs[i].confidence <= 1.0) ==> 0.0 <= avg <= 1.0
  {
    if |rs| > 0 then MeanConfidence(rs) else SumConfidence(rs) / 1.0
  }

  /**
   * `getFleetStatistics` over the rows of its three queries: the distinct
   * `unique_id`s, the fault frequency and its most common fault, and the
   * average confidence.
   */
  method GetFleetStatistics(vehicleData: seq<CarData>, faultStats: seq<CarData>, confidenceData: seq<CarData>)
    returns (stats: FleetStatistics)
    ensures stats.totalVehicles == |Distinct(UniqueIds(vehicleData))| <= |vehicleData|
    ensures stats.mostCommonFault == MostCommonFault(Faults(faultStats))
    ensures stats.averageConfidence == AverageConfidence(confidenceData)
  {
    var uniqueVehicles := ToSet(UniqueIds(vehicleData));
    SetSizeIsDistinctCount(UniqueIds(vehicleData));
    var keys, faultFrequency := CountByKey(Faults(faultStats));
    var entries := seq(|keys|, k requires 0 <= k < |keys| && keys[k] in faultFrequency => (keys[k], faultFrequency[keys[k]]));
    assert entries == CounterEntries(Faults(faultStats));
    var totalFaults := |faultStats|;
    var sorted := SortDesc(entries, EntryCount);
    var mostCommonFault := None;
    if |sorted| > 0 {
      mostCommonFault := Some(MostCommon(sorted[0].0, (sorted[0].1 as real / totalFaults as real) * 100.0));
    }
    var avgConfidence := AverageConfidence(confidenceData);
    stats := FleetStatistics(|uniqueVehicles|, mostCommonFault, avgConfidence);
  }

  /** `vehicleMap` once the `forEach` has seen the rows `rows`. */
  function Grouped(rows: seq<CarData>): map<string, VehicleOverview>
  {
    if rows == [] then map[]
    else
      var vm := Grouped(rows[..|rows| - 1]);
      var data := rows[|rows| - 1];
      if data.uniqueId !in vm then vm[data.uniqueId := VehicleOverview(data.uniqueId, 1, Some(data))]
      else vm[data.uniqueId := vm[data.uniqueId].(faultCount := vm[data.uniqueId].faultCount + 1)]
  }

  lemma GroupedStep(rows: seq<CarData>, data: CarData)
    ensures UniqueIds(rows + [data]) == UniqueIds(rows) + [data.uniqueId]
    ensures Grouped(rows + [data]) ==
      var vm := Grouped(rows);
      if data.uniqueId !in vm then vm[data.uniqueId := VehicleOverview(data.uniqueId, 1, Some(data))]
      else vm[data.uniqueId := vm[data.uniqueId].(faultCount := vm[data.uniqueId].faultCount + 1)]
  {
    assert (rows + [data])[..|rows|] == rows;
  }

  /**
   * The map has an entry for every `unique_id` of the rows and no other; the
   * entry counts the rows with that id and keeps the first of them.
   */
  lemma {:induction false} GroupedIsOverview(rows: seq<CarData>, id: string)
    ensures id in Grouped(rows) <==> id in UniqueIds(rows)
    ensures id in Grouped(rows) ==>
      Grouped(rows)[id] == VehicleOverview(id, Occurrences(UniqueIds(rows), id), Some(rows[FirstIndex(UniqueIds(rows), id)]))
    decreases |rows|
  {
    if rows != [] {
      var p := rows[..|rows| - 1];
      var data := rows[|rows| - 1];
      assert rows == p + [data];
      GroupedStep(p, data);
      GroupedIsOverview(p, id);
      OccurrencesAppend(UniqueIds(p), data.uniqueId);
      if id in UniqueIds(p) {
        assert UniqueIds(rows)[..|p|] == UniqueIds(p);
        assert FirstIndex(UniqueIds(rows), id) == FirstIndex(UniqueIds(p), id);
      }
    }
  }

  /**
   * What `getFleetOverview` returns: one entry per distinct `unique_id`, in
   * order of first occurrence, whose vin is that id, whose count is the
   * number of its rows and whose last fault is its first row (the newest,
   * given the query's newest-first order).
   */
  predicate IsOverview(rows: seq<CarData>, overview: seq<VehicleOverview>)
  {
    var ids := Distinct(UniqueIds(rows));
    && |overview| == |ids|
    && forall k :: 0 <= k < |overview| ==>
         && ids[k] in UniqueIds(rows)
         && overview[k] == VehicleOverview(ids[k], Occurrences(UniqueIds(rows), ids[k]), Some(rows[FirstIndex(UniqueIds(rows), ids[k])]))
  }

  /**
   * The `forEach` callback: a new id gets an entry with count 1 and this row
   * as its last fault; a known id only has its count raised.
   */
  method AddRow(ghost seen: seq<CarData>, data: CarData, order: seq<string>, vehicleMap: map<string, VehicleOverview>)
    returns (order': seq<string>, vehicleMap': map<string, VehicleOverview>)
    requires order == Distinct(UniqueIds(seen)) && vehicleMap == Grouped(seen)
    ensures order' == Distinct(UniqueIds(seen + [data])) && vehicleMap' == Grouped(seen + [data])
  {
    GroupedStep(seen, data);
    GroupedIsOverview(seen, data.uniqueId);
    DistinctAppend(UniqueIds(seen), data.uniqueId);
    order', vehicleMap' := order, vehicleMap;
    if data.uniqueId !in vehicleMap' {
      vehicleMap' := vehicleMap'[data.uniqueId := VehicleOverview(data.uniqueId, 1, Some(data))];
      order' := order' + [data.uniqueId];
    } else {
      var vehicle := vehicleMap'[data.uniqueId];
      vehicleMap' := vehicleMap'[data.uniqueId := vehicle.(faultCount := vehicle.faultCount + 1)];
    }
  }

  /** `getFleetOverview` over the rows of its query. */
  method GetFleetOverview(allData: seq<CarData>) returns (overview: seq<VehicleOverview>)
    ensures IsOverview(allData, overview)
  {
    var order: seq<string> := [];
    var vehicleMap: map<string, VehicleOverview> := map[];
    var i := 0;
    while i < |allData|
      invariant 0 <= i <= |allData|
      invariant order == Distinct(UniqueIds(allData[..i]))
      invariant vehicleMap == Grouped(allData[..i])
    {
      assert allData[..i + 1] == allData[..i] + [allData[i]];
      order, vehicleMap := AddRow(allData[..i], allData[i], order, vehicleMap);
      i := i + 1;
    }
    assert allData[..|allData|] == allData;
    forall k | 0 <= k < |order|
      ensures order[k] in vehicleMap
      ensures vehicleMap[order[k]] == VehicleOverview(order[k], Occurrences(UniqueIds(allData), order[k]),
                                                      Some(allData[FirstIndex(UniqueIds(allData), order[k])]))
    {
      GroupedIsOverview(allData, order[k]);
    }
    overview := seq(|order|, k requires 0 <= k < |order| && order[k] in vehicleMap => vehicleMap[order[k]]);
  }

  /** The counts of the overview add up to the number of rows. */
  lemma OverviewCountsSum(rows: seq<CarData>, overview: seq<VehicleOverview>)
    requires IsOverview(rows, overview)
    ensures Sum(seq(|overview|, k requires 0 <= k < |overview| => overview[k].faultCount)) == |rows|
  {
    var counts := seq(|overview|, k requires 0 <= k < |overview| => overview[k].faultCount);
    assert counts == OccurrenceCounts(Distinct(UniqueIds(rows)), UniqueIds(rows));
    DistinctCountsSum(UniqueIds(rows));
  }
}
