/**
 * The landing page's analytics over the latest fault records: the pie chart
 * of fault types, the table of the newest events with their confidence
 * badges, and the x-axis of the accuracy line chart.
 */
module HomePage {
  import opened Records
  import opened Tally

  /** Rows in the latest-events table. */
  const TableRows: nat := 3
  /** Points on the accuracy line chart. */
  const AccuracyPoints: nat := 10

  /**
   * The pie chart: `faultTypes` is built by a reduce that bumps
   * `acc[curr.fault]`; its keys are the labels and its values the data.
   * Each distinct fault is one slice, its size is how often the fault
   * occurs, and the slices add up to the number of records.
   */
  method PieChartData(faultData: seq<CarData>) returns (labels: seq<string>, data: seq<nat>)
    ensures labels == Distinct(Faults(faultData))
    ensures NoDuplicates(labels)
    ensures |data| == |labels|
    ensures forall k :: 0 <= k < |labels| ==> data[k] == Occurrences(Faults(faultData), labels[k])
    ensures Sum(data) == |faultData|
  {
    var faultTypes;
    labels, faultTypes := CountByKey(Faults(faultData));
    data := CountsInOrder(labels, faultTypes);
    DistinctNoDuplicates(Faults(faultData));
    assert data == OccurrenceCounts(labels, Faults(faultData));
    DistinctCountsSum(Faults(faultData));
  }

  /** `faultData.slice(0, 3)`: the first three records, or all of fewer. */
  function LatestTable(faultData: seq<CarData>): (shown: seq<CarData>)
    ensures |shown| == Min(TableRows, |faultData|)
    ensures forall i :: 0 <= i < |shown| ==> shown[i] == faultData[i]
  {
    faultData[..Min(TableRows, |faultData|)]
  }

  /**
   * The accuracy chart's x-axis: the timestamps of `faultData.slice(-10)`,
   * the last ten records, or all of fewer, in input order (the feed comes
   * newest first, so these are the ten oldest fetched, newest of them first).
   */
  function AccuracyLabels(faultData: seq<CarData>): (labels: seq<string>)
    ensures |labels| == Min(AccuracyPoints, |faultData|)
    ensures forall i :: 0 <= i < |labels| ==>
              labels[i] == faultData[|faultData| - |labels| + i].timestamp
  {
    var recent := faultData[|faultData| - Min(AccuracyPoints, |faultData|)..];
    seq(|recent|, i requires 0 <= i < |recent| => recent[i].timestamp)
  }

  /** The colour of a confidence badge. */
  datatype Badge = Green | Yellow | Red

  /**
   * The badge for a confidence in [0, 1]: green from 90 %, yellow from
   * 70 % and red below that; the three cases do not overlap and cover every
   * confidence.
   */
  function ConfidenceBadge(confidence: real): (b: Badge)
    ensures b == Green <==> confidence * 100.0 >= 90.0
    ensures b == Yellow <==> 70.0 <= confidence * 100.0 < 90.0
    ensures b == Red <==> confidence * 100.0 < 70.0
  {
    if confidence * 100.0 >= 90.0 then Green
    else if confidence * 100.0 >= 70.0 then Yellow
    else Red
  }

  /** Green ranks above yellow, yellow above red. */
  function Rank(b: Badge): nat
  {
    match b
    case Green => 2
    case Yellow => 1
    case Red => 0
  }

  /** A higher confidence never gets a worse badge. */
  lemma ConfidenceBadgeMonotone(c1: real, c2: real)
    requires c1 <= c2
    ensures Rank(ConfidenceBadge(c1)) <= Rank(ConfidenceBadge(c2))
  {
  }
}
