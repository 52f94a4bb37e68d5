/**
 * The sentiment chart: the hour count of each time range, a mock history
 * generated when no data is supplied, the points handed to the chart and
 * their average score. The clock and the random draws are parameters.
 */
module SentimentChart {
  import opened Wrappers
  import opened Types
  import opened Runtime

  /** The hours shown for each range: 1, 4, 24 and 168, one value per range. */
  function TimeRangeHours(range: TimeRange): (h: nat)
    ensures range == OneHour <==> h == 1
    ensures range == FourHours <==> h == 4
    ensures range == OneDay <==> h == 24
    ensures range == OneWeek <==> h == 168
  {
    match range
    case OneHour => 1
    case FourHours => 4
    case OneDay => 24
    case OneWeek => 168
  }

  /** The label of a mock score: positive above 0.2, negative below -0.2, neutral in between. */
  function LabelFor(score: real): (s: SentimentType)
    ensures s == Positive <==> score > 0.2
    ensures s == Negative <==> score < -0.2
    ensures s == Neutral <==> -0.2 <= score <= 0.2
  {
    if score > 0.2 then Positive else if score < -0.2 then Negative else Neutral
  }

  /** The point the loop pushes `k`-th: `hours - k` hours before `now`, scored from the `k`-th draw. */
  function MockPoint(hours: nat, now: int, k: nat, draw: Draw): SentimentHistoryPoint
  {
    var score := (draw as real - 0.5) * 2.0;
    SentimentHistoryPoint(now - (hours - k) * HOUR_MS, score, LabelFor(score))
  }

  /** The history `generateMockHistoryData` builds, as a value. */
  function MockHistory(hours: nat, now: int, draws: seq<Draw>): (r: seq<SentimentHistoryPoint>)
    requires |draws| == hours + 1
  {
    seq(hours + 1, k requires 0 <= k <= hours => MockPoint(hours, now, k, draws[k]))
  }

  /**
   * The mock history has `hours + 1` points, one hour apart in ascending
   * order, the last at `now`; every score is in [-1, 1) and carries its label.
   */
  lemma MockHistoryShape(hours: nat, now: int, draws: seq<Draw>)
    requires |draws| == hours + 1
    ensures var h := MockHistory(hours, now, draws);
      |h| == hours + 1 &&
      h[hours].timestamp == now &&
      h[0].timestamp == now - hours * HOUR_MS &&
      (forall k :: 0 < k < |h| ==> h[k].timestamp == h[k - 1].timestamp + HOUR_MS) &&
      (forall k :: 0 <= k < |h| ==> -1.0 <= h[k].score < 1.0 && h[k].sentiment == LabelFor(h[k].score))
  {
  }

  /** `generateMockHistoryData`: counts `i` down from `hours` to 0, pushing one point per hour. */
  method GenerateMockHistoryData(hours: nat, now: int, draws: seq<Draw>) returns (data: seq<SentimentHistoryPoint>)
    requires |draws| == hours + 1
    ensures data == MockHistory(hours, now, draws)
    ensures |data| == hours + 1 && data[hours].timestamp == now
  {
    data := [];
    var i: int := hours;
    while i >= 0
      invariant -1 <= i <= hours
      invariant data == MockHistory(hours, now, draws)[..hours - i]
    {
      var score := (draws[hours - i] as real - 0.5) * 2.0;
      var sentiment := LabelFor(score);
      data := data + [SentimentHistoryPoint(now - i * HOUR_MS, score, sentiment)];
      i := i - 1;
    }
    MockHistoryShape(hours, now, draws);
  }

  /** A point handed to the chart: its time, score and label. */
  datatype ChartPoint = ChartPoint(time: int, score: real, sentiment: SentimentType)

  /**
   * `chartData`: nothing before mount when no data was passed; otherwise the
   * data passed (even an empty list), or else a mock history over the
   * range's hours, each point keeping its time, score and label.
   */
  function ChartData(data: Option<seq<SentimentHistoryPoint>>, isMounted: bool, range: TimeRange,
                     now: int, draws: seq<Draw>): (r: seq<ChartPoint>)
    requires isMounted && data.None? ==> |draws| == TimeRangeHours(range) + 1
    ensures !isMounted && data.None? ==> r == []
    ensures data.Some? ==>
      |r| == |data.value| &&
      forall i :: 0 <= i < |r| ==>
        r[i].time == data.value[i].timestamp && r[i].score == data.value[i].score && r[i].sentiment == data.value[i].sentiment
    ensures isMounted && data.None? ==>
      |r| == TimeRangeHours(range) + 1 &&
      forall i :: 0 <= i < |r| ==> -1.0 <= r[i].score < 1.0 && r[i].sentiment == LabelFor(r[i].score)
  {
    if !isMounted && data.None? then []
    else if data.Some? then ToChartPoints(data.value)
    else
      MockHistoryShape(TimeRangeHours(range), now, draws);
      ToChartPoints(MockHistory(TimeRangeHours(range), now, draws))
  }

  function ToChartPoints(history: seq<SentimentHistoryPoint>): (r: seq<ChartPoint>)
    ensures |r| == |history|
    ensures forall i :: 0 <= i < |r| ==>
      r[i].time == history[i].timestamp && r[i].score == history[i].score && r[i].sentiment == history[i].sentiment
  {
    seq(|history|, i requires 0 <= i < |history| => ChartPoint(history[i].timestamp, history[i].score, history[i].sentiment))
  }

  /** The sum of the scores. */
  function ScoreSum(points: seq<ChartPoint>): (r: real)
    ensures (forall i :: 0 <= i < |points| ==> -1.0 <= points[i].score <= 1.0) ==>
      -(|points| as real) <= r <= |points| as real
  {
    if points == [] then 0.0 else points[0].score + ScoreSum(points[1..])
  }

  /** `averageSentiment`: 0 for an empty chart, else the mean score, which stays in [-1, 1] when every score does. */
  function AverageSentiment(points: seq<ChartPoint>): (r: real)
    ensures points == [] ==> r == 0.0
    ensures (forall i :: 0 <= i < |points| ==> -1.0 <= points[i].score <= 1.0) ==> -1.0 <= r <= 1.0
  {
    if |points| == 0 then 0.0
    else
      var n := |points| as real;
      var sum := ScoreSum(points);
      assert (sum / n) * n == sum;
      sum / n
  }
}
