/**
 * `GET /api/classifier/history`: the start of the time window the fault
 * query is limited to, and the classification history built from the fault
 * records the query returns, each tagged with the VIN its NFT id maps to.
 */
module ClassifierHistoryRoute {
  import opened Records

  const HourMillis: int := 60 * 60 * 1000
  const DayMillis: int := 24 * HourMillis

  /** One element of the history: a record with its VIN, and no verified fault yet. */
  datatype HistoryEntry = HistoryEntry(
    vin: string,
    timestamp: string,
    predictedFault: string,
    actualFault: Option<string>,
    confidence: real,
    sensorData: Option<SensorData>)

  /** `searchParams.get('timeRange') || '7d'`: an absent or empty parameter means the last seven days. */
  function TimeRange(param: Option<string>): (range: string)
    ensures param.None? || param.value == "" ==> range == "7d"
    ensures param.Some? && param.value != "" ==> range == param.value
  {
    match param
    case Some(p) => if p != "" then p else "7d"
    case None => "7d"
  }

  /**
   * The start of the window, in milliseconds since the epoch: 24 hours, 7
   * days or 30 days before `now`, and the epoch itself, which keeps every
   * record, for any other range.
   */
  predicate IsStartDate(timeRange: string, now: int, startDate: int)
  {
    && (timeRange == "24h" ==> startDate == now - 24 * HourMillis)
    && (timeRange == "7d" ==> startDate == now - 7 * DayMillis)
    && (timeRange == "30d" ==> startDate == now - 30 * DayMillis)
    && (timeRange !in {"24h", "7d", "30d"} ==> startDate == 0)
  }

  /** The `switch` on the time range, which moves `startDate` back from `now`. */
  method StartDate(timeRange: string, now: int) returns (startDate: int)
    ensures IsStartDate(timeRange, now, startDate)
  {
    startDate := now;
    match timeRange
    case "24h" =>
      startDate := startDate - 24 * HourMillis;
    case "7d" =>
      startDate := startDate - 7 * DayMillis;
    case "30d" =>
      startDate := startDate - 30 * DayMillis;
    case _ =>
      startDate := 0;
  }

  /**
   * The `map` callback: a record whose id maps to a non-empty VIN becomes a
   * history entry with that VIN and its own timestamp, fault, confidence and
   * sensor data; any other record becomes null.
   */
  function Transform(m: map<string, string>, record: CarData): (e: Option<HistoryEntry>)
    ensures e.Some? <==> ResolveVin(m, record.uniqueId).Some?
    ensures e.Some? ==>
      && e.value.vin == ResolveVin(m, record.uniqueId).value
      && e.value.timestamp == record.timestamp
      && e.value.predictedFault == record.fault
      && e.value.actualFault == None
      && e.value.confidence == record.confidence
      && e.value.sensorData == record.sensorData
  {
    match ResolveVin(m, record.uniqueId)
    case None => None
    case Some(vin) => Some(HistoryEntry(vin, record.timestamp, record.fault, None, record.confidence, record.sensorData))
  }

  /** `.filter(record => record !== null)`: the present values, in order. */
  function Present<T>(xs: seq<Option<T>>): seq<T>
  {
    if xs == [] then []
    else Present(xs[..|xs| - 1]) + (if xs[|xs| - 1].Some? then [xs[|xs| - 1].value] else [])
  }

  lemma {:induction false} PresentConcat<T>(a: seq<Option<T>>, b: seq<Option<T>>)
    ensures Present(a + b) == Present(a) + Present(b)
    decreases |b|
  {
    if b == [] {
      assert a + b == a;
    } else {
      var b' := b[..|b| - 1];
      assert (a + b)[..|a + b| - 1] == a + b';
      PresentConcat(a, b');
    }
  }

  /**
   * The `map` step over the records. Glue only: the properties of the
   * history are proved about Present and History.
   */
  function Transformed(m: map<string, string>, records: seq<CarData>): (ts: seq<Option<HistoryEntry>>)
    ensures |ts| == |records|
    ensures forall i :: 0 <= i < |records| ==> ts[i] == Transform(m, records[i])
  {
    seq(|records|, i requires 0 <= i < |records| => Transform(m, records[i]))
  }

  /** The history: the records mapped to entries, the nulls filtered out. */
  function History(m: map<string, string>, records: seq<CarData>): seq<HistoryEntry>
  {
    Present(Transformed(m, records))
  }

  /** The history of a single record: its entry when it has a VIN, nothing otherwise. */
  lemma HistoryOfOne(m: map<string, string>, r: CarData)
    ensures History(m, [r]) == match Transform(m, r) case Some(e) => [e] case None => []
  {
    var t := Transformed(m, [r]);
    assert t[..|t| - 1] == [];
    assert Present(t) == Present(t[..|t| - 1]) + (if t[0].Some? then [t[0].value] else []);
  }

  /**
   * The history keeps the input order: the history of consecutive runs of
   * records is the concatenation of their histories.
   */
  lemma HistoryConcat(m: map<string, string>, a: seq<CarData>, b: seq<CarData>)
    ensures History(m, a + b) == History(m, a) + History(m, b)
  {
    assert Transformed(m, a + b) == Transformed(m, a) + Transformed(m, b);
    PresentConcat(Transformed(m, a), Transformed(m, b));
  }

  /**
   * The history has one entry per record with a VIN and carries their VINs
   * in record order, so it is no longer than the input.
   */
  lemma {:induction false} HistoryVins(m: map<string, string>, records: seq<CarData>)
    ensures |History(m, records)| == |ResolvedVins(m, records)| <= |records|
    ensures forall k :: 0 <= k < |History(m, records)| ==> History(m, records)[k].vin == ResolvedVins(m, records)[k]
    decreases |records|
  {
    if records != [] {
      var p := records[..|records| - 1];
      var r := records[|records| - 1];
      assert records == p + [r];
      HistoryVins(m, p);
      HistoryConcat(m, p, [r]);
      HistoryOfOne(m, r);
      ResolvedVinsLength(m, records);
    }
  }

  lemma {:induction false} ResolvedVinsLength(m: map<string, string>, records: seq<CarData>)
    ensures |ResolvedVins(m, records)| <= |records|
    decreases |records|
  {
    if records != [] {
      ResolvedVinsLength(m, records[..|records| - 1]);
    }
  }

  /**
   * The route: the start of the query's time window from the `timeRange`
   * parameter and the clock, and the history over the NFT rows and the fault
   * records the windowed query returned.
   */
  method GetHistory(timeRangeParam: Option<string>, now: int, nfts: seq<CarNft>, faultRecords: seq<CarData>)
    returns (startDate: int, history: seq<HistoryEntry>)
    ensures IsStartDate(TimeRange(timeRangeParam), now, startDate)
    ensures history == History(NftToVin(nfts), faultRecords)
  {
    var timeRange := TimeRange(timeRangeParam);
    startDate := StartDate(timeRange, now);
    var nftToVin := NftToVin(nfts);
    var mapped := seq(|faultRecords|, i requires 0 <= i < |faultRecords| => Transform(nftToVin, faultRecords[i]));
    history := Present(mapped);
  }
}
