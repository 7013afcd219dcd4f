/**
 * `GET /api/fleet/overview`: joins the fault records to VINs through the NFT
 * table and rolls them up per vehicle: how many records each VIN has and
 * which record is its latest (the strictly greatest timestamp seen so far).
 */
module FleetOverviewRoute {
  import opened Records
  import opened Lexicographic
  import opened Tally

  /** The route's per-VIN accumulator (`VehicleData`), kept in `vehicleMap`. */
  datatype VehicleData = VehicleData(
    vin: string,
    faultCount: nat,
    lastFault: string,
    lastTimestamp: Option<string>,
    lastConfidence: Option<real>,
    sensorData: Option<SensorData>)

  datatype LastFault = LastFault(
    fault: string,
    timestamp: Option<string>,
    confidence: Option<real>,
    sensorData: SensorData)

  /** One element of the JSON array the route returns. */
  datatype FleetVehicle = FleetVehicle(vin: string, faultCount: nat, lastFault: Option<LastFault>)

  /** `timestamp || null`: the empty string is falsy. */
  function TimestampOrNull(t: string): (r: Option<string>)
    ensures r.None? <==> t == ""
    ensures r.Some? ==> r.value == t
  {
    if t == "" then None else Some(t)
  }

  /** `confidence || null`: a confidence of 0 is falsy and is reported as null. */
  function ConfidenceOrNull(c: real): (r: Option<real>)
    ensures r.None? <==> c == 0.0
    ensures r.Some? ==> r.value == c
  {
    if c == 0.0 then None else Some(c)
  }

  /** The records, in order, whose id resolves to `vin`. */
  function RecordsOf(m: map<string, string>, rs: seq<CarData>, vin: string): (r: seq<CarData>)
    ensures |r| == Occurrences(ResolvedVins(m, rs), vin)
    ensures forall k :: 0 <= k < |r| ==> ResolveVin(m, r[k].uniqueId) == Some(vin)
  {
    if rs == [] then []
    else
      var p := rs[..|rs| - 1];
      var x := rs[|rs| - 1];
      var rest := RecordsOf(m, p, vin);
      if ResolveVin(m, x.uniqueId) == Some(vin) then rest + [x] else rest
  }

  /** The update condition of the loop: `record.timestamp && (!existing.last_timestamp || record.timestamp > existing.last_timestamp)`. */
  predicate Newer(r: CarData, current: CarData)
  {
    r.timestamp != "" && (current.timestamp == "" || Less(current.timestamp, r.timestamp))
  }

  /** Which of a VIN's records ends up as its last fault: the first, replaced by each later one that is `Newer`. */
  function LatestIndex(rs: seq<CarData>): (k: nat)
    requires |rs| > 0
    ensures k < |rs|
  {
    if |rs| == 1 then 0
    else
      var k := LatestIndex(rs[..|rs| - 1]);
      if Newer(rs[|rs| - 1], rs[k]) then |rs| - 1 else k
  }

  predicate AllTimestampsEmpty(rs: seq<CarData>)
  {
    forall j :: 0 <= j < |rs| ==> rs[j].timestamp == ""
  }

  /**
   * The record kept is the one with the lexicographically greatest non-empty
   * timestamp and, among records sharing that timestamp, the earliest; when
   * no record has a timestamp it is the first record.
   */
  lemma {:induction false} LatestIndexIsNewest(rs: seq<CarData>)
    requires |rs| > 0
    ensures AllTimestampsEmpty(rs) ==> LatestIndex(rs) == 0
    ensures !AllTimestampsEmpty(rs) ==> rs[LatestIndex(rs)].timestamp != ""
    ensures forall j :: 0 <= j < |rs| && rs[j].timestamp != "" ==> !Less(rs[LatestIndex(rs)].timestamp, rs[j].timestamp)
    ensures forall j :: 0 <= j < LatestIndex(rs) ==> rs[j].timestamp == "" || Less(rs[j].timestamp, rs[LatestIndex(rs)].timestamp)
    decreases |rs|
  {
    if |rs| > 1 {
      var p := rs[..|rs| - 1];
      var x := rs[|rs| - 1];
      LatestIndexIsNewest(p);
      var a := LatestIndex(p);
      assert LatestIndex(rs) == if Newer(x, p[a]) then |p| else a;
      assert forall j :: 0 <= j < |p| ==> p[j] == rs[j];
      assert AllTimestampsEmpty(rs) <==> AllTimestampsEmpty(p) && x.timestamp == "";
      if Newer(x, p[a]) {
        forall j | 0 <= j < |p| && p[j].timestamp != ""
          ensures Less(p[j].timestamp, x.timestamp)
        {
          if p[j].timestamp != p[a].timestamp {
            LessTotal(p[j].timestamp, p[a].timestamp);
            LessTransitive(p[j].timestamp, p[a].timestamp, x.timestamp);
          }
        }
        forall j | 0 <= j < |rs| && rs[j].timestamp != ""
          ensures !Less(x.timestamp, rs[j].timestamp)
        {
          if j < |p| {
            assert rs[j] == p[j];
            LessAsymmetric(p[j].timestamp, x.timestamp);
          } else {
            LessIrreflexive(x.timestamp);
          }
        }
        assert rs[LatestIndex(rs)] == x;
      } else {
        forall j | 0 <= j < |rs| && rs[j].timestamp != ""
          ensures !Less(rs[a].timestamp, rs[j].timestamp)
        {
          if j == |p| {
            assert p[a].timestamp != "";
          } else {
            assert rs[j] == p[j];
          }
        }
        assert rs[LatestIndex(rs)] == rs[a];
      }
    } else {
      LessIrreflexive(rs[0].timestamp);
    }
  }

  /** The accumulator the route holds for `vin` once it has seen all of `rs`, that VIN's records. */
  function Summary(vin: string, rs: seq<CarData>): VehicleData
    requires |rs| > 0
  {
    var w := rs[LatestIndex(rs)];
    VehicleData(vin, |rs|, w.fault, TimestampOrNull(w.timestamp), ConfidenceOrNull(w.confidence), w.sensorData)
  }

  /** The final `map` of the route: `lastFault` is null exactly when the kept fault is empty. */
  function ToFleetVehicle(v: VehicleData): (r: FleetVehicle)
    ensures r.vin == v.vin && r.faultCount == v.faultCount
    ensures r.lastFault.None? <==> v.lastFault == ""
    ensures r.lastFault.Some? ==>
              && r.lastFault.value.fault == v.lastFault
              && r.lastFault.value.timestamp == v.lastTimestamp
              && r.lastFault.value.confidence == v.lastConfidence
              && r.lastFault.value.sensorData == (if v.sensorData.Some? then v.sensorData.value else [])
  {
    var lastFault :=
      if v.lastFault != "" then
        Some(LastFault(v.lastFault, v.lastTimestamp, v.lastConfidence,
                       match v.sensorData case Some(s) => s case None => []))
      else None;
    FleetVehicle(v.vin, v.faultCount, lastFault)
  }

  /** The distinct VINs the records resolve to, in order of first appearance. */
  function FleetVins(nfts: seq<CarNft>, records: seq<CarData>): seq<string>
  {
    Distinct(ResolvedVins(NftToVin(nfts), records))
  }

  /** The route's result, entry by entry: one per distinct resolved VIN. */
  predicate IsFleetOverview(nfts: seq<CarNft>, records: seq<CarData>, fleet: seq<FleetVehicle>)
  {
    var m := NftToVin(nfts);
    var vins := FleetVins(nfts, records);
    && |fleet| == |vins|
    && forall k :: 0 <= k < |fleet| ==>
         && vins[k] in ResolvedVins(m, records)
         && fleet[k] == ToFleetVehicle(Summary(vins[k], RecordsOf(m, records, vins[k])))
  }

  /** The accumulator the loop creates for a VIN on its first record. */
  function Start(vin: string, r: CarData): (e: VehicleData)
    ensures e == Summary(vin, [r])
  {
    VehicleData(vin, 1, r.fault, TimestampOrNull(r.timestamp), ConfidenceOrNull(r.confidence), r.sensorData)
  }

  /** The accumulator after one more record for its VIN: one more fault, and the record's details when it is newer. */
  function Absorb(e: VehicleData, r: CarData): VehicleData
  {
    var e' := e.(faultCount := e.faultCount + 1);
    if r.timestamp != "" && (e'.lastTimestamp.None? || Less(e'.lastTimestamp.value, r.timestamp))
    then e'.(lastFault := r.fault, lastTimestamp := Some(r.timestamp),
             lastConfidence := ConfidenceOrNull(r.confidence), sensorData := r.sensorData)
    else e'
  }

  /** `vehicleMap` once the loop has seen the records `rs`. */
  function Rollup(m: map<string, string>, rs: seq<CarData>): map<string, VehicleData>
  {
    if rs == [] then map[]
    else
      var vm := Rollup(m, rs[..|rs| - 1]);
      var r := rs[|rs| - 1];
      match ResolveVin(m, r.uniqueId)
      case None => vm
      case Some(v) => vm[v := if v in vm then Absorb(vm[v], r) else Start(v, r)]
  }

  /** One more record: how the map, the resolved VINs and their distinct list grow. */
  lemma {:induction false} RollupStep(m: map<string, string>, rs: seq<CarData>, r: CarData)
    ensures Rollup(m, rs + [r]) ==
      match ResolveVin(m, r.uniqueId)
      case None => Rollup(m, rs)
      case Some(v) => Rollup(m, rs)[v := if v in Rollup(m, rs) then Absorb(Rollup(m, rs)[v], r) else Start(v, r)]
    ensures Distinct(ResolvedVins(m, rs + [r])) ==
      match ResolveVin(m, r.uniqueId)
      case None => Distinct(ResolvedVins(m, rs))
      case Some(v) => if v in Rollup(m, rs) then Distinct(ResolvedVins(m, rs)) else Distinct(ResolvedVins(m, rs)) + [v]
  {
    assert (rs + [r])[..|rs|] == rs;
    match ResolveVin(m, r.uniqueId)
    case None =>
    case Some(v) =>
      RollupIsSummary(m, rs, v);
      DistinctAppend(ResolvedVins(m, rs), v);
  }

  /**
   * The loop's map holds exactly the VINs some record resolves to, and for
   * each one the count of its records and the details of its latest one.
   */
  lemma {:induction false} RollupIsSummary(m: map<string, string>, rs: seq<CarData>, v: string)
    ensures v in Rollup(m, rs) <==> v in ResolvedVins(m, rs)
    ensures v in Rollup(m, rs) ==> |RecordsOf(m, rs, v)| > 0 && Rollup(m, rs)[v] == Summary(v, RecordsOf(m, rs, v))
    decreases |rs|
  {
    if rs != [] {
      var p := rs[..|rs| - 1];
      var r := rs[|rs| - 1];
      RollupIsSummary(m, p, v);
      match ResolveVin(m, r.uniqueId)
      case None =>
      case Some(w) =>
        if w == v && v in Rollup(m, p) {
          SummaryAppend(v, RecordsOf(m, p, v), r);
        }
    }
  }

  /** Once the loop has seen every record, the `map` over `vehicleMap.values()` is the route's result. */
  lemma RollupResult(nfts: seq<CarNft>, records: seq<CarData>, fleet: seq<FleetVehicle>)
    requires |fleet| == |FleetVins(nfts, records)|
    requires forall k :: 0 <= k < |fleet| ==>
               && FleetVins(nfts, records)[k] in Rollup(NftToVin(nfts), records)
               && fleet[k] == ToFleetVehicle(Rollup(NftToVin(nfts), records)[FleetVins(nfts, records)[k]])
    ensures IsFleetOverview(nfts, records, fleet)
  {
    var m := NftToVin(nfts);
    var vins := FleetVins(nfts, records);
    forall k | 0 <= k < |fleet|
      ensures vins[k] in ResolvedVins(m, records)
      ensures fleet[k] == ToFleetVehicle(Summary(vins[k], RecordsOf(m, records, vins[k])))
    {
      RollupIsSummary(m, records, vins[k]);
    }
  }

  /**
   * The `forEach` callback: folds one record into the VIN order and the
   * per-VIN map, which stay the rollup of the records seen so far.
   */
  method AddRecord(m: map<string, string>, ghost seen: seq<CarData>, record: CarData,
                   order: seq<string>, vehicleMap: map<string, VehicleData>)
    returns (order': seq<string>, vehicleMap': map<string, VehicleData>)
    requires order == Distinct(ResolvedVins(m, seen))
    requires vehicleMap == Rollup(m, seen)
    ensures order' == Distinct(ResolvedVins(m, seen + [record]))
    ensures vehicleMap' == Rollup(m, seen + [record])
  {
    RollupStep(m, seen, record);
    order', vehicleMap' := order, vehicleMap;
    var vin := ResolveVin(m, record.uniqueId);
    if vin.None? {
      return;
    }
    var v := vin.value;
    if v !in vehicleMap {
      vehicleMap' := vehicleMap[v := VehicleData(v, 1, record.fault, TimestampOrNull(record.timestamp),
                                                 ConfidenceOrNull(record.confidence), record.sensorData)];
      order' := order + [v];
    } else {
      var existing := vehicleMap[v];
      existing := existing.(faultCount := existing.faultCount + 1);
      if record.timestamp != "" && (existing.lastTimestamp.None? || Less(existing.lastTimestamp.value, record.timestamp)) {
        existing := existing.(lastFault := record.fault, lastTimestamp := Some(record.timestamp),
                              lastConfidence := ConfidenceOrNull(record.confidence),
                              sensorData := record.sensorData);
      }
      vehicleMap' := vehicleMap[v := existing];
    }
  }

  method GetFleetOverview(nfts: seq<CarNft>, records: seq<CarData>) returns (fleet: seq<FleetVehicle>)
    ensures |nfts| == 0 ==> fleet == []
    ensures IsFleetOverview(nfts, records, fleet)
  {
    var nftToVin := NftToVin(nfts);
    if |nfts| == 0 {
      assert ResolvedVins(nftToVin, records) == [] by {
        ResolvedVinsEmptyMap(nftToVin, records);
      }
      return [];
    }
    var order: seq<string> := [];
    var vehicleMap: map<string, VehicleData> := map[];
    var i := 0;
    while i < |records|
      invariant 0 <= i <= |records|
      invariant order == Distinct(ResolvedVins(nftToVin, records[..i]))
      invariant vehicleMap == Rollup(nftToVin, records[..i])
    {
      order, vehicleMap := AddRecord(nftToVin, records[..i], records[i], order, vehicleMap);
      assert records[..i + 1] == records[..i] + [records[i]];
      i := i + 1;
    }
    assert records[..|records|] == records;
    forall k | 0 <= k < |order|
      ensures order[k] in vehicleMap
    {
      RollupIsSummary(nftToVin, records, order[k]);
    }
    fleet := seq(|order|, k requires 0 <= k < |order| && order[k] in vehicleMap => ToFleetVehicle(vehicleMap[order[k]]));
    RollupResult(nfts, records, fleet);
  }

  /** One more record for a VIN updates its accumulator the way the loop body does. */
  lemma {:induction false} SummaryAppend(vin: string, s: seq<CarData>, r: CarData)
    requires |s| > 0
    ensures
      var e := Summary(vin, s).(faultCount := |s| + 1);
      Summary(vin, s + [r]) ==
        if r.timestamp != "" && (e.lastTimestamp.None? || Less(e.lastTimestamp.value, r.timestamp))
        then e.(lastFault := r.fault, lastTimestamp := Some(r.timestamp),
                lastConfidence := ConfidenceOrNull(r.confidence), sensorData := r.sensorData)
        else e
  {
    assert (s + [r])[..|s|] == s;
  }

  /**
   * The `faultCount` of each entry, in order. Glue only: what the counts
   * mean is proved in OverviewCounts.
   */
  function FaultCounts(fleet: seq<FleetVehicle>): (r: seq<nat>)
    ensures |r| == |fleet|
    ensures forall k :: 0 <= k < |fleet| ==> r[k] == fleet[k].faultCount
  {
    seq(|fleet|, k requires 0 <= k < |fleet| => fleet[k].faultCount)
  }

  /**
   * Each entry counts the records that resolve to its VIN, and so the counts
   * add up to the number of records that resolve to some VIN.
   */
  lemma OverviewCounts(nfts: seq<CarNft>, records: seq<CarData>, fleet: seq<FleetVehicle>)
    requires IsFleetOverview(nfts, records, fleet)
    ensures forall k :: 0 <= k < |fleet| ==>
              fleet[k].faultCount == Occurrences(ResolvedVins(NftToVin(nfts), records), fleet[k].vin) > 0
    ensures Sum(FaultCounts(fleet)) == |ResolvedVins(NftToVin(nfts), records)|
  {
    var xs := ResolvedVins(NftToVin(nfts), records);
    var vins := FleetVins(nfts, records);
    forall k | 0 <= k < |fleet|
      ensures fleet[k].vin == vins[k]
      ensures fleet[k].faultCount == Occurrences(xs, vins[k])
    {
    }
    assert FaultCounts(fleet) == OccurrenceCounts(Distinct(xs), xs);
    DistinctCountsSum(xs);
  }

  lemma {:induction false} RecordsOfConcat(m: map<string, string>, a: seq<CarData>, b: seq<CarData>, vin: string)
    ensures RecordsOf(m, a + b, vin) == RecordsOf(m, a, vin) + RecordsOf(m, b, vin)
    decreases |b|
  {
    if b == [] {
      assert a + b == a;
    } else {
      var b' := b[..|b| - 1];
      assert (a + b)[..|a + b| - 1] == a + b';
      RecordsOfConcat(m, a, b', vin);
    }
  }

  /** A record whose id has no VIN changes nothing: the overview is the same without it. */
  lemma UnresolvedRecordIgnored(nfts: seq<CarNft>, a: seq<CarData>, r: CarData, b: seq<CarData>, fleet: seq<FleetVehicle>)
    requires ResolveVin(NftToVin(nfts), r.uniqueId).None?
    ensures IsFleetOverview(nfts, a + [r] + b, fleet) <==> IsFleetOverview(nfts, a + b, fleet)
  {
    var m := NftToVin(nfts);
    ResolvedVinsConcat(m, a + [r], b);
    ResolvedVinsConcat(m, a, [r]);
    ResolvedVinsConcat(m, a, b);
    assert [r][..0] == [];
    assert ResolvedVins(m, [r]) == [];
    assert ResolvedVins(m, a + [r] + b) == ResolvedVins(m, a + b);
    forall v
      ensures RecordsOf(m, a + [r] + b, v) == RecordsOf(m, a + b, v)
    {
      RecordsOfConcat(m, a + [r], b, v);
      RecordsOfConcat(m, a, [r], v);
      RecordsOfConcat(m, a, b, v);
      assert RecordsOf(m, [r], v) == [];
    }
  }

  lemma {:induction false} ResolvedVinsEmptyMap(m: map<string, string>, rs: seq<CarData>)
    requires m == map[]
    ensures ResolvedVins(m, rs) == []
    decreases |rs|
  {
    if rs != [] {
      ResolvedVinsEmptyMap(m, rs[..|rs| - 1]);
    }
  }
}
