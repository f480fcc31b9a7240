/** The station history chart: the first fifty readings of the list it is
    given, reversed and numbered, with an x-axis label every tenth of the
    points. */
module HistoryChart {
  import opened Domain
  import opened Seqs
  import opened ReadingQueries

  const ChartWindow: nat := 50

  /** A chart point: the reading's level and time and its position. */
  datatype ChartPoint = ChartPoint(waterLevel: real, timestamp: int, index: int)

  /** `readings.slice(0, 50).reverse().map((reading, index) => ...)`. */
  function ChartData(readings: seq<Reading>): seq<ChartPoint>
  {
    var shown := Reverse(Take(readings, ChartWindow));
    seq(|shown|, k requires 0 <= k < |shown| => ChartPoint(shown[k].waterLevel, shown[k].timestamp, k))
  }

  /** `Math.floor(chartData.length / 10)`. */
  function TickInterval(chart: seq<ChartPoint>): nat
  {
    |chart| / 10
  }

  /** At most fifty points; point k is numbered k and shows input position
      `min(len, 50) - 1 - k`. */
  lemma ChartShape(readings: seq<Reading>)
    ensures var c := ChartData(readings);
            var n := if |readings| < 50 then |readings| else 50;
            |c| == n
            && forall k :: 0 <= k < n ==>
                 c[k] == ChartPoint(readings[n - 1 - k].waterLevel, readings[n - 1 - k].timestamp, k)
  {
  }

  /** For newest-first input, as the readings endpoint returns it, the chart
      runs oldest to newest and leaves out only readings no newer than any it
      shows. */
  lemma NewestFirstChartsForward(readings: seq<Reading>)
    requires SortedDesc(readings, Timestamp)
    ensures var c := ChartData(readings);
            (forall i, j :: 0 <= i < j < |c| ==> c[i].timestamp <= c[j].timestamp)
            && (forall j, k :: |c| <= j < |readings| && 0 <= k < |c| ==> readings[j].timestamp <= c[k].timestamp)
  {
    ChartShape(readings);
    var c := ChartData(readings);
    var n := |c|;
    forall i, j | 0 <= i < j < n ensures c[i].timestamp <= c[j].timestamp {
      assert Timestamp(readings[n - 1 - j]) >= Timestamp(readings[n - 1 - i]);
    }
    forall j, k | n <= j < |readings| && 0 <= k < n ensures readings[j].timestamp <= c[k].timestamp {
      assert Timestamp(readings[n - 1 - k]) >= Timestamp(readings[j]);
    }
  }

  /** The axis labels every `floor(len / 10)`-th point, at most every fifth. */
  lemma TickIntervalBound(readings: seq<Reading>)
    ensures TickInterval(ChartData(readings)) <= 5
    ensures TickInterval(ChartData(readings)) * 10 <= |ChartData(readings)|
  {
    ChartShape(readings);
  }
}
