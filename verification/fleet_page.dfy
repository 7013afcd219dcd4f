/**
 * The fleet dashboard's chart data over the vehicles that
 * `GET /api/fleet/overview` returns: the sensor maps and metric names, the
 * per-vehicle bar chart of one metric, and the vehicles split into three
 * confidence bands.
 */
module FleetPage {
  import opened Records
  import opened Tally
  import opened FleetOverviewRoute

  /**
   * `fleetData.flatMap(v => v.lastFault?.sensor_data ? [v.lastFault.sensor_data] : [])`:
   * the sensor map of each vehicle with a last fault, in fleet order (the
   * route always sends an object, possibly empty, which is truthy).
   */
  function AllSensorData(fleet: seq<FleetVehicle>): (all: seq<SensorData>)
    ensures |all| <= |fleet|
  {
    if fleet == [] then []
    else (if fleet[0].lastFault.Some? then [fleet[0].lastFault.value.sensorData] else []) + AllSensorData(fleet[1..])
  }

  /** One vehicle contributes its sensor map exactly when it has a last fault. */
  lemma AllSensorDataOfOne(v: FleetVehicle)
    ensures AllSensorData([v]) == if v.lastFault.Some? then [v.lastFault.value.sensorData] else []
  {
    assert [v][1..] == [];
  }

  /**
   * The maps of two batches of vehicles are those of the first followed by
   * those of the second; with AllSensorDataOfOne this pins the result down to
   * exactly the sensor maps of the vehicles with a last fault, in fleet order.
   */
  lemma {:induction false} AllSensorDataConcat(a: seq<FleetVehicle>, b: seq<FleetVehicle>)
    ensures AllSensorData(a + b) == AllSensorData(a) + AllSensorData(b)
    decreases |a|
  {
    if a == [] {
      assert a + b == b;
    } else {
      var head := if a[0].lastFault.Some? then [a[0].lastFault.value.sensorData] else [];
      assert (a + b)[0] == a[0];
      assert (a + b)[1..] == a[1..] + b;
      AllSensorDataConcat(a[1..], b);
      calc {
        AllSensorData(a + b);
        head + AllSensorData(a[1..] + b);
        head + (AllSensorData(a[1..]) + AllSensorData(b));
        (head + AllSensorData(a[1..])) + AllSensorData(b);
        AllSensorData(a) + AllSensorData(b);
      }
    }
  }

  /** There are no sensor maps exactly when no vehicle has a last fault. */
  lemma {:induction false} AllSensorDataEmpty(fleet: seq<FleetVehicle>)
    ensures AllSensorData(fleet) == [] <==> forall i :: 0 <= i < |fleet| ==> fleet[i].lastFault.None?
    decreases |fleet|
  {
    if fleet != [] {
      AllSensorDataEmpty(fleet[1..]);
      assert forall i :: 1 <= i < |fleet| ==> fleet[i] == fleet[1..][i - 1];
    }
  }

  /** The first sensor map is that of the first vehicle with a last fault. */
  lemma {:induction false} AllSensorDataHead(fleet: seq<FleetVehicle>, i: nat)
    requires i < |fleet| && fleet[i].lastFault.Some?
    requires forall j :: 0 <= j < i ==> fleet[j].lastFault.None?
    ensures |AllSensorData(fleet)| > 0 && AllSensorData(fleet)[0] == fleet[i].lastFault.value.sensorData
    decreases i
  {
    if i > 0 {
      AllSensorDataHead(fleet[1..], i - 1);
    }
  }

  /**
   * `processChartData` without the averages: nothing for an empty fleet,
   * otherwise the metric names, which are the keys of the first sensor map
   * (none if there is no sensor map).
   */
  function ProcessChartData(fleet: seq<FleetVehicle>): (metrics: Option<seq<string>>)
    ensures metrics.None? <==> fleet == []
  {
    if |fleet| == 0 then None
    else
      var all := AllSensorData(fleet);
      Some(if |all| > 0 then SensorKeys(all[0]) else [])
  }

  /**
   * The metric names are the sensor keys of the first vehicle that has a
   * last fault, and there are none when no vehicle has one.
   */
  lemma ProcessChartDataMetrics(fleet: seq<FleetVehicle>, i: nat)
    requires i < |fleet|
    ensures (forall j :: 0 <= j < |fleet| ==> fleet[j].lastFault.None?) ==> ProcessChartData(fleet) == Some([])
    ensures fleet[i].lastFault.Some? && (forall j :: 0 <= j < i ==> fleet[j].lastFault.None?) ==>
              ProcessChartData(fleet) == Some(SensorKeys(fleet[i].lastFault.value.sensorData))
  {
    AllSensorDataEmpty(fleet);
    if fleet[i].lastFault.Some? && (forall j :: 0 <= j < i ==> fleet[j].lastFault.None?) {
      AllSensorDataHead(fleet, i);
    }
  }

  /** `s.slice(-6)`: the last six characters, or all of a shorter string. */
  function LastSix(s: string): (r: string)
    ensures |r| == Min(6, |s|)
    ensures s == s[..|s| - |r|] + r
  {
    s[|s| - Min(6, |s|)..]
  }

  /** `toUpperCase` on ASCII letters; other characters are left as they are. */
  function UpperAscii(c: char): (u: char)
    ensures 'a' <= c <= 'z' ==> 'A' <= u <= 'Z' && u as int == c as int - 32
    ensures !('a' <= c <= 'z') ==> u == c
  {
    if 'a' <= c <= 'z' then (c as int - 32) as char else c
  }

  /** `selectedMetric.replace(/_/g, ' ').toUpperCase()`. */
  function MetricLabel(metric: string): (title: string)
    ensures |title| == |metric|
    ensures forall i :: 0 <= i < |metric| ==>
              title[i] == (if metric[i] == '_' then ' ' else UpperAscii(metric[i]))
    ensures forall i :: 0 <= i < |title| ==> title[i] != '_' && !('a' <= title[i] <= 'z')
  {
    var spaced := seq(|metric|, i requires 0 <= i < |metric| => if metric[i] == '_' then ' ' else metric[i]);
    seq(|spaced|, i requires 0 <= i < |spaced| => UpperAscii(spaced[i]))
  }

  /** The vehicles whose last fault has a reading for `metric`, in fleet order. */
  function HasMetric(v: FleetVehicle, metric: string): bool
  {
    v.lastFault.Some? && metric in SensorKeys(v.lastFault.value.sensorData)
  }

  function MetricVehicles(fleet: seq<FleetVehicle>, metric: string): (vs: seq<FleetVehicle>)
    ensures |vs| <= |fleet|
    ensures forall k :: 0 <= k < |vs| ==> HasMetric(vs[k], metric)
  {
    if fleet == [] then []
    else (if HasMetric(fleet[0], metric) then [fleet[0]] else []) + MetricVehicles(fleet[1..], metric)
  }

  function MetricValue(v: FleetVehicle, metric: string): real
    requires HasMetric(v, metric)
  {
    SensorValue(v.lastFault.value.sensorData, metric)
  }

  /** A bar chart: its x-axis labels, its dataset's label and values. */
  datatype MetricChart = MetricChart(labels: seq<string>, title: string, data: seq<real>)

  /**
   * `metricBarData` as written: a label for every vehicle, but values only
   * for the vehicles that have the metric.
   */
  function MetricBarData(fleet: seq<FleetVehicle>, selectedMetric: string): (c: MetricChart)
    ensures |c.labels| == |fleet|
    ensures forall i :: 0 <= i < |fleet| ==> c.labels[i] == LastSix(fleet[i].vin)
    ensures c.title == MetricLabel(selectedMetric)
    ensures |c.data| == |MetricVehicles(fleet, selectedMetric)| <= |c.labels|
  {
    var vs := MetricVehicles(fleet, selectedMetric);
    MetricChart(
      seq(|fleet|, i requires 0 <= i < |fleet| => LastSix(fleet[i].vin)),
      MetricLabel(selectedMetric),
      seq(|vs|, k requires 0 <= k < |vs| => MetricValue(vs[k], selectedMetric)))
  }

  /**
   * The chart pairs the k-th value with the k-th label, so as soon as one
   * vehicle lacks the metric, later values are drawn over other vehicles'
   * VINs: here the second vehicle's reading appears under the first one's.
   */
  lemma MetricBarDataMisaligned()
    ensures var first := FleetVehicle("VIN-AAAAAA", 1, None);
      var second := FleetVehicle("VIN-BBBBBB", 1, Some(LastFault("rpm_spike", None, None, [("rpm", 7.0)])));
      var c := MetricBarData([first, second], "rpm");
      && c.labels == ["AAAAAA", "BBBBBB"]
      && c.data == [7.0]
      && c.labels[0] == LastSix(first.vin) && c.data[0] == MetricValue(second, "rpm")
  {
    var first := FleetVehicle("VIN-AAAAAA", 1, None);
    var second := FleetVehicle("VIN-BBBBBB", 1, Some(LastFault("rpm_spike", None, None, [("rpm", 7.0)])));
    var fleet := [first, second];
    assert fleet[1..] == [second];
    assert [second][1..] == [];
    assert SensorKeys([("rpm", 7.0)]) == ["rpm"];
    assert MetricVehicles(fleet, "rpm") == [second];
    assert LastSix(first.vin) == "AAAAAA";
    assert LastSix(second.vin) == "BBBBBB";
  }

  /**
   * The chart with labels and values taken from the same vehicles: the k-th
   * bar is the k-th vehicle that has the metric, labelled with its own VIN.
   */
  function MetricBarDataAligned(fleet: seq<FleetVehicle>, selectedMetric: string): (c: MetricChart)
    ensures var vs := MetricVehicles(fleet, selectedMetric);
      && |c.labels| == |c.data| == |vs|
      && c.title == MetricLabel(selectedMetric)
      && forall k :: 0 <= k < |vs| ==>
           c.labels[k] == LastSix(vs[k].vin) && c.data[k] == MetricValue(vs[k], selectedMetric)
  {
    var vs := MetricVehicles(fleet, selectedMetric);
    MetricChart(
      seq(|vs|, k requires 0 <= k < |vs| => LastSix(vs[k].vin)),
      MetricLabel(selectedMetric),
      seq(|vs|, k requires 0 <= k < |vs| => MetricValue(vs[k], selectedMetric)))
  }

  /**
   * The aligned chart draws the same values as the written one; the labels
   * agree exactly when every vehicle has the metric.
   */
  lemma {:induction false} AlignedAgreesWhenAllHaveMetric(fleet: seq<FleetVehicle>, selectedMetric: string)
    ensures MetricBarDataAligned(fleet, selectedMetric).data == MetricBarData(fleet, selectedMetric).data
    ensures (forall i :: 0 <= i < |fleet| ==> HasMetric(fleet[i], selectedMetric)) ==>
              MetricBarDataAligned(fleet, selectedMetric) == MetricBarData(fleet, selectedMetric)
  {
    if forall i :: 0 <= i < |fleet| ==> HasMetric(fleet[i], selectedMetric) {
      MetricVehiclesAll(fleet, selectedMetric);
    }
  }

  lemma {:induction false} MetricVehiclesAll(fleet: seq<FleetVehicle>, metric: string)
    requires forall i :: 0 <= i < |fleet| ==> HasMetric(fleet[i], metric)
    ensures MetricVehicles(fleet, metric) == fleet
    decreases |fleet|
  {
    if fleet != [] {
      assert forall i :: 0 <= i < |fleet[1..]| ==> fleet[1..][i] == fleet[i + 1];
      MetricVehiclesAll(fleet[1..], metric);
    }
  }

  /** A null confidence compares as 0, as JavaScript does with `null > 0.8` and `null <= 0.5`. */
  function ConfidenceNumber(c: Option<real>): real
  {
    if c.Some? then c.value else 0.0
  }

  /** `fleetData.filter(v => v.lastFault && p(v.lastFault.confidence)).length`. */
  function CountWhere(fleet: seq<FleetVehicle>, p: real -> bool): (n: nat)
    ensures n <= |fleet|
  {
    if fleet == [] then 0
    else (if fleet[0].lastFault.Some? && p(ConfidenceNumber(fleet[0].lastFault.value.confidence)) then 1 else 0)
         + CountWhere(fleet[1..], p)
  }

  /** The three bars of `faultDistributionData`: above 0.8, in (0.5, 0.8], and at most 0.5. */
  function FaultDistribution(fleet: seq<FleetVehicle>): (bands: seq<nat>)
    ensures |bands| == 3
  {
    [CountWhere(fleet, c => c > 0.8), CountWhere(fleet, c => c > 0.5 && c <= 0.8), CountWhere(fleet, c => c <= 0.5)]
  }

  /**
   * The three bands split the vehicles that have a last fault: their counts
   * add up to that number, which is also the number of sensor maps.
   */
  lemma {:induction false} FaultDistributionPartition(fleet: seq<FleetVehicle>)
    ensures var bands := FaultDistribution(fleet);
      bands[0] + bands[1] + bands[2] == CountWhere(fleet, _ => true) == |AllSensorData(fleet)|
    decreases |fleet|
  {
    if fleet != [] {
      FaultDistributionPartition(fleet[1..]);
    }
  }
}
