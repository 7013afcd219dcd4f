/**
 * The classifier dashboard's charts over the statistics that
 * `GET /api/classifier/stats` returns (none while they have not loaded):
 * the accuracy bar chart of the top faults, the confidence histogram of the
 * recent activity, and the recent-activity list.
 */
module ClassifierPage {
  import opened Records
  import opened Tally
  import opened ClassifierStatsRoute

  const BucketCount: nat := 5
  const ShownActivities: nat := 3

  /** A bar chart's x-axis labels and its one dataset's values. */
  datatype BarChart = BarChart(labels: seq<string>, data: seq<real>)

  /** `accuracyChartData`: one bar per top fault, its accuracy as the value. */
  function AccuracyChart(stats: Option<ClassifierStats>): (c: BarChart)
    ensures |c.labels| == |c.data|
    ensures stats.None? ==> c.labels == [] && c.data == []
    ensures stats.Some? ==>
      && |c.labels| == |stats.value.topFaults|
      && forall i :: 0 <= i < |c.labels| ==>
           c.labels[i] == stats.value.topFaults[i].fault && c.data[i] == stats.value.topFaults[i].accuracy
  {
    match stats
    case None => BarChart([], [])
    case Some(s) =>
      BarChart(seq(|s.topFaults|, i requires 0 <= i < |s.topFaults| => s.topFaults[i].fault),
               seq(|s.topFaults|, i requires 0 <= i < |s.topFaults| => s.topFaults[i].accuracy))
  }

  /**
   * Over the statistics the route computes from `records`, the chart has at
   * most five bars with distinct labels, each a percentage in [0, 100].
   */
  lemma AccuracyChartOfRoute(records: seq<CarData>, stats: ClassifierStats)
    requires stats.topFaults == TopFaults(records)
    ensures |AccuracyChart(Some(stats)).labels| <= TopFaultLimit
    ensures NoDuplicates(AccuracyChart(Some(stats)).labels)
    ensures forall i :: 0 <= i < |AccuracyChart(Some(stats)).data| ==> 0.0 <= AccuracyChart(Some(stats)).data[i] <= 100.0
  {
    var top := stats.topFaults;
    TopFaultsShape(records);
    assert |top| <= TopFaultLimit;
    assert FaultsDistinct(top);
    forall i | 0 <= i < |top|
      ensures 0.0 <= top[i].accuracy <= 100.0
    {
      TopFaultEntry(records, top[i]);
    }
  }

  /**
   * The histogram bar a confidence falls in: 90-100%, 80-90%, 70-80%,
   * 60-70% and below 60%, as bars 0 to 4.
   */
  function Bucket(confidence: real): (b: nat)
    ensures b < BucketCount
    ensures b == 0 <==> confidence * 100.0 >= 90.0
    ensures b == 1 <==> 80.0 <= confidence * 100.0 < 90.0
    ensures b == 2 <==> 70.0 <= confidence * 100.0 < 80.0
    ensures b == 3 <==> 60.0 <= confidence * 100.0 < 70.0
    ensures b == 4 <==> confidence * 100.0 < 60.0
  {
    var c := confidence * 100.0;
    if c >= 90.0 then 0 else if c >= 80.0 then 1 else if c >= 70.0 then 2 else if c >= 60.0 then 3 else 4
  }

  /** How many of `acts` fall in bar `b`. */
  function InBucket(acts: seq<Activity>, b: nat): nat
  {
    if acts == [] then 0
    else InBucket(acts[..|acts| - 1], b) + (if Bucket(acts[|acts| - 1].confidence) == b then 1 else 0)
  }

  lemma InBucketAppend(acts: seq<Activity>, a: Activity, b: nat)
    ensures InBucket(acts + [a], b) == InBucket(acts, b) + (if Bucket(a.confidence) == b then 1 else 0)
  {
    assert (acts + [a])[..|acts|] == acts;
  }

  /** Every activity is counted in exactly one bar: the bars add up to the number of activities. */
  lemma {:induction false} InBucketTotal(acts: seq<Activity>)
    ensures InBucket(acts, 0) + InBucket(acts, 1) + InBucket(acts, 2) + InBucket(acts, 3) + InBucket(acts, 4) == |acts|
    decreases |acts|
  {
    if acts != [] {
      InBucketTotal(acts[..|acts| - 1]);
    }
  }

  /**
   * `confidenceDistributionData`: the reduce over the recent activity that
   * raises one of five counters per activity, or five zeros without
   * statistics.
   */
  method ConfidenceHistogram(stats: Option<ClassifierStats>) returns (counts: seq<nat>)
    ensures |counts| == BucketCount
    ensures forall b :: 0 <= b < BucketCount ==>
              counts[b] == if stats.None? then 0 else InBucket(stats.value.recentActivity, b)
  {
    if stats.None? {
      return [0, 0, 0, 0, 0];
    }
    var acts := stats.value.recentActivity;
    var acc := new nat[BucketCount](_ => 0);
    for i := 0 to |acts|
      invariant forall b :: 0 <= b < BucketCount ==> acc[b] == InBucket(acts[..i], b)
    {
      var curr := acts[i];
      assert acts[..i + 1] == acts[..i] + [curr];
      forall b | 0 <= b < BucketCount
        ensures InBucket(acts[..i + 1], b) == InBucket(acts[..i], b) + (if Bucket(curr.confidence) == b then 1 else 0)
      {
        InBucketAppend(acts[..i], curr, b);
      }
      var confidence := curr.confidence * 100.0;
      if confidence >= 90.0 {
        acc[0] := acc[0] + 1;
      } else if confidence >= 80.0 {
        acc[1] := acc[1] + 1;
      } else if confidence >= 70.0 {
        acc[2] := acc[2] + 1;
      } else if confidence >= 60.0 {
        acc[3] := acc[3] + 1;
      } else {
        acc[4] := acc[4] + 1;
      }
    }
    assert acts[..|acts|] == acts;
    counts := acc[..];
  }

  /** The histogram's bars add up to the number of recent activities (none without statistics). */
  lemma HistogramTotal(stats: Option<ClassifierStats>, counts: seq<nat>)
    requires |counts| == BucketCount
    requires forall b :: 0 <= b < BucketCount ==>
               counts[b] == if stats.None? then 0 else InBucket(stats.value.recentActivity, b)
    ensures counts[0] + counts[1] + counts[2] + counts[3] + counts[4] ==
            if stats.None? then 0 else |stats.value.recentActivity|
  {
    if stats.Some? {
      InBucketTotal(stats.value.recentActivity);
    }
  }

  /** `recentActivity.slice(0, 3)`: the activities listed, none without statistics. */
  function RecentShown(stats: Option<ClassifierStats>): (shown: seq<Activity>)
    ensures stats.None? ==> shown == []
    ensures stats.Some? ==> shown == stats.value.recentActivity[..Min(ShownActivities, |stats.value.recentActivity|)]
  {
    match stats
    case None => []
    case Some(s) => s.recentActivity[..Min(ShownActivities, |s.recentActivity|)]
  }

  /**
   * Over the statistics the route computes from `records`, the list shows
   * the first three records (or all of them, if fewer), each flagged exactly
   * when its confidence exceeds 0.8.
   */
  lemma RecentShownOfRoute(records: seq<CarData>, stats: ClassifierStats)
    requires stats.recentActivity == RecentActivity(records)
    ensures var shown := RecentShown(Some(stats));
      && |shown| == Min(ShownActivities, |records|)
      && forall k :: 0 <= k < |shown| ==>
           && shown[k].fault == records[k].fault
           && shown[k].confidence == records[k].confidence
           && (shown[k].accuracy <==> records[k].confidence > 0.8)
  {
  }
}
