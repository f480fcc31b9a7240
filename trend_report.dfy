/** GET /api/analytics/trends: each station with at least five of its ten
    newest readings gets a change rate and goes into exactly one of the
    rising, falling and stable lists by the ±0.1 m/h band; the mean rate of
    those stations decides the system trend by a ±0.15 m/h band. */
module TrendReport {
  import opened Domain
  import opened Seqs
  import opened ReadingQueries
  import opened ForecastEngine
  import TrendEstimator

  const TrendWindow: nat := 10
  const MinReadings: nat := 5

  datatype TrendData = TrendData(stationId: string, name: string, changeRate: real, currentLevel: real)

  datatype Trends = Trends(
    rising: seq<TrendData>,
    falling: seq<TrendData>,
    stable: seq<TrendData>,
    systemTrend: Trend,
    avgChangeRate: real)

  /** The window the handler fetches for a station. */
  function Window(rs: seq<Reading>, s: Station): seq<Reading>
  {
    Recent(rs, s.stationId, TrendWindow)
  }

  /** The windows of all stations, in station order. */
  function Windows(stations: seq<Station>, rs: seq<Reading>): (ws: seq<seq<Reading>>)
    ensures |ws| == |stations|
    ensures forall k :: 0 <= k < |stations| ==> ws[k] == Window(rs, stations[k])
  {
    seq(|stations|, k requires 0 <= k < |stations| => Window(rs, stations[k]))
  }

  function EntryOf(s: Station, w: seq<Reading>): TrendData
    requires |w| >= MinReadings
  {
    TrendData(s.stationId, s.name, TrendEstimator.ChangeRate(w), w[0].waterLevel)
  }

  /** The entries of the stations whose window has at least five readings,
      in station order. */
  function Entries(stations: seq<Station>, ws: seq<seq<Reading>>): seq<TrendData>
    requires |ws| == |stations|
  {
    if stations == [] then []
    else
      var n := |stations| - 1;
      Entries(stations[..n], ws[..n]) + (if |ws[n]| >= MinReadings then [EntryOf(stations[n], ws[n])] else [])
  }

  function Rate(e: TrendData): real
  {
    e.changeRate
  }

  function IsRising(e: TrendData): bool { TrendOf(e.changeRate) == Rising }
  function IsFalling(e: TrendData): bool { TrendOf(e.changeRate) == Falling }
  function IsStable(e: TrendData): bool { TrendOf(e.changeRate) == Stable }

  /** `stationCount > 0 ? totalChangeRate / stationCount : 0`. */
  function MeanRate(es: seq<TrendData>): real
  {
    if |es| > 0 then SumOf(es, Rate) / (|es| as real) else 0.0
  }

  /** The system-wide band: rising above 0.15, falling below -0.15. */
  function SystemTrend(avg: real): (t: Trend)
    ensures t == Rising <==> avg > 0.15
    ensures t == Falling <==> avg < -0.15
  {
    if avg > 0.15 then Rising else if avg < -0.15 then Falling else Stable
  }

  /** The handler's running state: the three lists, the rate total and the
      station count. */
  datatype Tally = Tally(rising: seq<TrendData>, falling: seq<TrendData>, stable: seq<TrendData>, total: real, count: nat)

  /** One counted station: its entry goes to the list its rate selects. */
  function AddEntry(t: Tally, e: TrendData): Tally
  {
    var t' := t.(total := t.total + e.changeRate, count := t.count + 1);
    if e.changeRate > 0.1 then t'.(rising := t.rising + [e])
    else if e.changeRate < -0.1 then t'.(falling := t.falling + [e])
    else t'.(stable := t.stable + [e])
  }

  /** One pass of the handler's loop: a station with fewer than five
      readings is skipped. */
  function Step(t: Tally, s: Station, w: seq<Reading>): Tally
  {
    if |w| < MinReadings then t else AddEntry(t, EntryOf(s, w))
  }

  /** The state after the handler's loop has visited `stations`. */
  function Fold(stations: seq<Station>, ws: seq<seq<Reading>>): Tally
    requires |ws| == |stations|
  {
    if stations == [] then Tally([], [], [], 0.0, 0)
    else
      var n := |stations| - 1;
      Step(Fold(stations[..n], ws[..n]), stations[n], ws[n])
  }

  /** The report built from the loop's final state. */
  function Finish(t: Tally): Trends
  {
    var avg := if t.count > 0 then t.total / (t.count as real) else 0.0;
    Trends(t.rising, t.falling, t.stable, SystemTrend(avg), avg)
  }

  /** The report the handler sends. */
  function TrendsOf(stations: seq<Station>, rs: seq<Reading>): Trends
  {
    Finish(Fold(stations, Windows(stations, rs)))
  }

  /** The loop body for one station and its window. */
  method Visit(t: Tally, station: Station, window: seq<Reading>) returns (u: Tally)
    ensures u == Step(t, station, window)
  {
    u := t;
    if |window| < MinReadings {
      return;
    }
    var changeRate := TrendEstimator.CalculateChangeRate(window);
    var trendData := TrendData(station.stationId, station.name, changeRate, window[0].waterLevel);
    u := u.(total := u.total + changeRate, count := u.count + 1);
    if changeRate > 0.1 {
      u := u.(rising := u.rising + [trendData]);
    } else if changeRate < -0.1 {
      u := u.(falling := u.falling + [trendData]);
    } else {
      u := u.(stable := u.stable + [trendData]);
    }
  }

  method BuildTrends(stations: seq<Station>, readings: seq<Reading>) returns (trends: Trends)
    ensures trends == TrendsOf(stations, readings)
  {
    ghost var ws := Windows(stations, readings);
    var tally := Tally([], [], [], 0.0, 0);
    for i := 0 to |stations|
      invariant tally == Fold(stations[..i], ws[..i])
    {
      var station := stations[i];
      assert stations[..i + 1][..i] == stations[..i] && ws[..i + 1][..i] == ws[..i];
      var window := Recent(readings, station.stationId, TrendWindow);
      assert window == ws[i];
      tally := Visit(tally, station, window);
    }
    assert stations[..|stations|] == stations && ws[..|stations|] == ws;
    trends := Summarize(tally);
  }

  /** The mean rate over the counted stations, 0 when there is none, and the
      system trend it selects. */
  method Summarize(tally: Tally) returns (trends: Trends)
    ensures trends == Finish(tally)
  {
    var avgChangeRate := if tally.count > 0 then tally.total / (tally.count as real) else 0.0;
    var systemTrend := Stable;
    if avgChangeRate > 0.15 {
      systemTrend := Rising;
    } else if avgChangeRate < -0.15 {
      systemTrend := Falling;
    }
    trends := Trends(tally.rising, tally.falling, tally.stable, systemTrend, avgChangeRate);
  }

  /** The entries filtered by each band, their rate total and their number. */
  function TallyOf(es: seq<TrendData>): Tally
  {
    Tally(Keep(es, IsRising), Keep(es, IsFalling), Keep(es, IsStable), SumOf(es, Rate), |es|)
  }

  /** The loop's three lists are the qualifying entries filtered by the three
      bands, and its total and count are their rate sum and number. */
  lemma {:induction false} FoldFilters(stations: seq<Station>, ws: seq<seq<Reading>>)
    requires |ws| == |stations|
    ensures Fold(stations, ws) == TallyOf(Entries(stations, ws))
  {
    if stations != [] {
      var n := |stations| - 1;
      FoldFilters(stations[..n], ws[..n]);
      var es := Entries(stations[..n], ws[..n]);
      if |ws[n]| >= MinReadings {
        var e := EntryOf(stations[n], ws[n]);
        assert Entries(stations, ws) == es + [e];
        assert Fold(stations, ws) == AddEntry(Fold(stations[..n], ws[..n]), e);
        BucketsSnoc(es, e);
      } else {
        assert Entries(stations, ws) == es;
      }
    }
  }

  /** The report's lists filter the qualifying entries, and its mean rate is
      their mean. */
  lemma TrendsAreFilters(stations: seq<Station>, rs: seq<Reading>)
    ensures var t := TrendsOf(stations, rs);
            var es := Entries(stations, Windows(stations, rs));
            t.rising == Keep(es, IsRising) && t.falling == Keep(es, IsFalling) && t.stable == Keep(es, IsStable)
            && t.avgChangeRate == MeanRate(es) && t.systemTrend == SystemTrend(MeanRate(es))
  {
    FoldFilters(stations, Windows(stations, rs));
  }

  /** Appending one entry appends it to the one list whose band holds its
      rate, adds its rate to the total and one to the count. */
  lemma BucketsSnoc(es: seq<TrendData>, e: TrendData)
    ensures TallyOf(es + [e]) == Tally(
              TallyOf(es).rising + (if e.changeRate > 0.1 then [e] else []),
              TallyOf(es).falling + (if e.changeRate < -0.1 then [e] else []),
              TallyOf(es).stable + (if -0.1 <= e.changeRate <= 0.1 then [e] else []),
              TallyOf(es).total + e.changeRate,
              TallyOf(es).count + 1)
  {
    KeepSnoc(es, e, IsRising);
    KeepSnoc(es, e, IsFalling);
    KeepSnoc(es, e, IsStable);
    SumOfSnoc(es, e, Rate);
  }

  /** One entry per qualifying station and none for the others: an entry is
      there exactly when it is the entry of a station whose window holds at
      least five readings. */
  lemma {:induction false} EntriesAreQualifyingStations(stations: seq<Station>, ws: seq<seq<Reading>>, e: TrendData)
    requires |ws| == |stations|
    ensures e in Entries(stations, ws) <==>
            exists k :: 0 <= k < |stations| && |ws[k]| >= MinReadings && e == EntryOf(stations[k], ws[k])
  {
    if stations != [] {
      var n := |stations| - 1;
      EntriesAreQualifyingStations(stations[..n], ws[..n], e);
      if e in Entries(stations, ws) && e !in Entries(stations[..n], ws[..n]) {
        assert |ws[n]| >= MinReadings && e == EntryOf(stations[n], ws[n]);
      }
      if exists k :: 0 <= k < |stations| && |ws[k]| >= MinReadings && e == EntryOf(stations[k], ws[k]) {
        var k :| 0 <= k < |stations| && |ws[k]| >= MinReadings && e == EntryOf(stations[k], ws[k]);
        if k < n {
          assert stations[..n][k] == stations[k] && ws[..n][k] == ws[k];
        }
      }
    }
  }

  /** Stations with fewer than five readings are skipped, so at most one
      entry per station. */
  lemma {:induction false} EntriesAtMostStations(stations: seq<Station>, ws: seq<seq<Reading>>)
    requires |ws| == |stations|
    ensures |Entries(stations, ws)| <= |stations|
  {
    if stations != [] {
      var n := |stations| - 1;
      EntriesAtMostStations(stations[..n], ws[..n]);
    }
  }

  /** In the report: a trend entry is there exactly for each station with at
      least five of its ten newest readings. */
  lemma ReportedStations(stations: seq<Station>, rs: seq<Reading>, e: TrendData)
    ensures var es := Entries(stations, Windows(stations, rs));
            (e in es <==> exists k :: 0 <= k < |stations| && |Window(rs, stations[k])| >= MinReadings
                                     && e == EntryOf(stations[k], Window(rs, stations[k])))
            && |es| <= |stations|
  {
    var ws := Windows(stations, rs);
    EntriesAreQualifyingStations(stations, ws, e);
    EntriesAtMostStations(stations, ws);
  }

  /** Every counted station lands in exactly one list. */
  lemma BucketsPartitionEntries(stations: seq<Station>, rs: seq<Reading>)
    ensures var t := TrendsOf(stations, rs);
            var es := Entries(stations, Windows(stations, rs));
            multiset(t.rising) + multiset(t.falling) + multiset(t.stable) == multiset(es)
            && |t.rising| + |t.falling| + |t.stable| == |es|
  {
    TrendsAreFilters(stations, rs);
    KeepPartition3(Entries(stations, Windows(stations, rs)), IsRising, IsFalling, IsStable);
  }

  /** Each list only holds rates inside its band. */
  lemma BucketsHoldTheirBand(stations: seq<Station>, rs: seq<Reading>)
    ensures var t := TrendsOf(stations, rs);
            (forall k :: 0 <= k < |t.rising| ==> t.rising[k].changeRate > 0.1)
            && (forall k :: 0 <= k < |t.falling| ==> t.falling[k].changeRate < -0.1)
            && (forall k :: 0 <= k < |t.stable| ==> -0.1 <= t.stable[k].changeRate <= 0.1)
  {
    TrendsAreFilters(stations, rs);
    var t := TrendsOf(stations, rs);
    assert forall k :: 0 <= k < |t.rising| ==> IsRising(t.rising[k]);
    assert forall k :: 0 <= k < |t.falling| ==> IsFalling(t.falling[k]);
    assert forall k :: 0 <= k < |t.stable| ==> IsStable(t.stable[k]);
  }

  /** No station with five readings: the lists are empty, the mean rate is 0
      and the system is stable. */
  lemma NoQualifyingStation(stations: seq<Station>, rs: seq<Reading>)
    requires forall k :: 0 <= k < |stations| ==> |Window(rs, stations[k])| < MinReadings
    ensures TrendsOf(stations, rs) == Trends([], [], [], Stable, 0.0)
  {
    var ws := Windows(stations, rs);
    var es := Entries(stations, ws);
    if es != [] {
      EntriesAreQualifyingStations(stations, ws, es[0]);
    }
    TrendsAreFilters(stations, rs);
  }

  /** The mean rate lies between the smallest and the largest station rate. */
  lemma MeanRateBounds(es: seq<TrendData>, lo: real, hi: real)
    requires |es| > 0
    requires forall k :: 0 <= k < |es| ==> lo <= es[k].changeRate <= hi
    ensures lo <= MeanRate(es) <= hi
  {
    MeanOfBounded(es, Rate, lo, hi);
  }

  /** A rising system needs a rising station: if no station's rate exceeds
      0.1 the mean cannot exceed 0.15. The same holds for falling. */
  lemma SystemTrendNeedsStation(stations: seq<Station>, rs: seq<Reading>)
    ensures TrendsOf(stations, rs).systemTrend == Rising ==> |TrendsOf(stations, rs).rising| > 0
    ensures TrendsOf(stations, rs).systemTrend == Falling ==> |TrendsOf(stations, rs).falling| > 0
  {
    TrendsAreFilters(stations, rs);
    var es := Entries(stations, Windows(stations, rs));
    if es != [] {
      if Keep(es, IsRising) == [] {
        forall k | 0 <= k < |es| ensures es[k].changeRate <= 0.1 {
          KeepMember(es, IsRising, es[k]);
        }
        MeanRateBounds(es, SmallestRate(es), 0.1);
      }
      if Keep(es, IsFalling) == [] {
        forall k | 0 <= k < |es| ensures es[k].changeRate >= -0.1 {
          KeepMember(es, IsFalling, es[k]);
        }
        MeanRateBounds(es, -0.1, LargestRate(es));
      }
    }
  }

  function SmallestRate(es: seq<TrendData>): (m: real)
    requires |es| > 0
    ensures forall k :: 0 <= k < |es| ==> m <= es[k].changeRate
  {
    if |es| == 1 then es[0].changeRate
    else
      var m := SmallestRate(es[1..]);
      assert forall k :: 1 <= k < |es| ==> es[k] == es[1..][k - 1];
      if es[0].changeRate <= m then es[0].changeRate else m
  }

  function LargestRate(es: seq<TrendData>): (m: real)
    requires |es| > 0
    ensures forall k :: 0 <= k < |es| ==> es[k].changeRate <= m
  {
    if |es| == 1 then es[0].changeRate
    else
      var m := LargestRate(es[1..]);
      assert forall k :: 1 <= k < |es| ==> es[k] == es[1..][k - 1];
      if es[0].changeRate >= m then es[0].changeRate else m
  }
}
