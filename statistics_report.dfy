/** GET /api/analytics/statistics: over each station's readings of the last 24
    hours, how many stations reported (active) and how many did not, how many
    readings there were and with which status, and, over the last reading of
    each active station, the highest and lowest level with the station that
    holds it, the mean level and the mean battery charge. */
module StatisticsReport {
  import opened Domain
  import opened Numeric
  import opened Seqs
  import opened ReadingQueries

  /** `24 * 60 * 60 * 1000`. */
  const DayMillis: int := 86400000

  datatype AlertHistory = AlertHistory(danger: nat, warning: nat, normal: nat)

  datatype DataQuality = DataQuality(activeStations: nat, inactiveStations: nat, avgBattery: int)

  /** The response. `maxWaterLevel` is `{ level, station }` with `station`
      null (None) until a level above 0 is seen; `minWaterLevel.level` starts
      at `Infinity`, which is serialised as null (None) when no station
      reported. `avgWaterLevel` is the `toFixed(2)` string, held as the number
      it reads back as, or the number 0. */
  datatype Statistics = Statistics(
    totalStations: nat,
    totalReadings: nat,
    avgWaterLevel: real,
    maxLevel: real,
    maxStation: Option<string>,
    minLevel: Option<real>,
    minStation: Option<string>,
    alertHistory: AlertHistory,
    dataQuality: DataQuality)

  /** The handler's running state: the fields of `stats` it updates and the
      three running totals. */
  datatype Tally = Tally(
    totalReadings: nat,
    active: nat,
    inactive: nat,
    totalLevel: real,
    totalBattery: real,
    stationCount: nat,
    maxLevel: real,
    maxStation: Option<string>,
    minLevel: Option<real>,
    minStation: Option<string>,
    alerts: AlertHistory)

  /** The readings station `s` stored at or after `now - 24h`. */
  function DayWindow(rs: seq<Reading>, s: Station, now: int): seq<Reading>
  {
    Since(rs, s.stationId, now - DayMillis)
  }

  /** The 24-hour window fetched for each station, in station order. */
  function DayWindows(stations: seq<Station>, rs: seq<Reading>, now: int): (ws: seq<seq<Reading>>)
    ensures |ws| == |stations|
    ensures forall k :: 0 <= k < |stations| ==> ws[k] == DayWindow(rs, stations[k], now)
  {
    seq(|stations|, k requires 0 <= k < |stations| => DayWindow(rs, stations[k], now))
  }

  function HasStatus(st: Status): Reading -> bool
  {
    (r: Reading) => r.status == st
  }

  /** How many readings of `w` carry status `st`. */
  function CountOf(w: seq<Reading>, st: Status): nat
  {
    |Keep(w, HasStatus(st))|
  }

  /** `readings.forEach(r => stats.alertHistory[r.status.toLowerCase()]++)`. */
  function AddAlerts(h: AlertHistory, w: seq<Reading>): AlertHistory
  {
    AlertHistory(h.danger + CountOf(w, Danger), h.warning + CountOf(w, Warning), h.normal + CountOf(w, Normal))
  }

  /** `readings[readings.length - 1]`: the last reading in collection order. */
  function Latest(w: seq<Reading>): Reading
    requires |w| > 0
  {
    w[|w| - 1]
  }

  const Start: Tally := Tally(0, 0, 0, 0.0, 0.0, 0, 0.0, None, None, None, AlertHistory(0, 0, 0))

  /** One station's turn of the loop, given its 24-hour window. */
  function Step(t: Tally, s: Station, w: seq<Reading>): Tally
  {
    if |w| == 0 then t.(inactive := t.inactive + 1)
    else
      var l := Latest(w);
      var u := t.(totalReadings := t.totalReadings + |w|, active := t.active + 1,
                  totalLevel := t.totalLevel + l.waterLevel, totalBattery := t.totalBattery + l.batteryLevel,
                  stationCount := t.stationCount + 1, alerts := AddAlerts(t.alerts, w));
      var v := if l.waterLevel > u.maxLevel then u.(maxLevel := l.waterLevel, maxStation := Some(s.name)) else u;
      if v.minLevel.None? || l.waterLevel < v.minLevel.value then v.(minLevel := Some(l.waterLevel), minStation := Some(s.name))
      else v
  }

  /** The state after the loop has visited `stations`. */
  function Fold(stations: seq<Station>, ws: seq<seq<Reading>>): Tally
    requires |ws| == |stations|
  {
    if stations == [] then Start
    else
      var n := |stations| - 1;
      Step(Fold(stations[..n], ws[..n]), stations[n], ws[n])
  }

  /** The response built from the final state. */
  function Finish(t: Tally, totalStations: nat): Statistics
  {
    Statistics(totalStations, t.totalReadings,
      if t.stationCount > 0 then ToFixed(t.totalLevel / (t.stationCount as real), 2) else 0.0,
      t.maxLevel, t.maxStation, t.minLevel, t.minStation, t.alerts,
      DataQuality(t.active, t.inactive,
        if t.stationCount > 0 then MathRound(t.totalBattery / (t.stationCount as real)) else 0))
  }

  /** The statistics at time `now`. */
  function StatisticsOf(stations: seq<Station>, rs: seq<Reading>, now: int): Statistics
  {
    Finish(Fold(stations, DayWindows(stations, rs, now)), |stations|)
  }

  /** The `forEach` over a station's window. */
  method CountAlerts(start: AlertHistory, readings: seq<Reading>) returns (history: AlertHistory)
    ensures history == AddAlerts(start, readings)
  {
    history := start;
    for j := 0 to |readings|
      invariant history.danger == start.danger + CountOf(readings[..j], Danger)
      invariant history.warning == start.warning + CountOf(readings[..j], Warning)
      invariant history.normal == start.normal + CountOf(readings[..j], Normal)
    {
      var r := readings[j];
      assert readings[..j + 1] == readings[..j] + [r];
      KeepSnoc(readings[..j], r, HasStatus(Danger));
      KeepSnoc(readings[..j], r, HasStatus(Warning));
      KeepSnoc(readings[..j], r, HasStatus(Normal));
      match r.status
      case Danger => history := history.(danger := history.danger + 1);
      case Warning => history := history.(warning := history.warning + 1);
      case Normal => history := history.(normal := history.normal + 1);
    }
    assert readings[..|readings|] == readings;
  }


  /** One turn of the handler's loop: station `station` with its 24-hour window. */
  method Visit(t: Tally, station: Station, window: seq<Reading>) returns (u: Tally)
    ensures u == Step(t, station, window)
  {
    u := t.(totalReadings := t.totalReadings + |window|);
    if |window| > 0 {
      var latest := window[|window| - 1];
      u := u.(active := u.active + 1, totalLevel := u.totalLevel + latest.waterLevel,
              totalBattery := u.totalBattery + latest.batteryLevel, stationCount := u.stationCount + 1);
      if latest.waterLevel > u.maxLevel {
        u := u.(maxLevel := latest.waterLevel, maxStation := Some(station.name));
      }
      if u.minLevel.None? || latest.waterLevel < u.minLevel.value {
        u := u.(minLevel := Some(latest.waterLevel), minStation := Some(station.name));
      }
      var alerts := CountAlerts(u.alerts, window);
      u := u.(alerts := alerts);
    } else {
      u := u.(inactive := u.inactive + 1);
    }
  }

  method BuildStatistics(stations: seq<Station>, readings: seq<Reading>, now: int) returns (stats: Statistics)
    ensures stats == StatisticsOf(stations, readings, now)
  {
    var last24Hours := now - DayMillis;
    ghost var ws := DayWindows(stations, readings, now);
    var tally := Start;
    for i := 0 to |stations|
      invariant tally == Fold(stations[..i], ws[..i])
    {
      var station := stations[i];
      assert stations[..i + 1][..i] == stations[..i] && ws[..i + 1][..i] == ws[..i];
      var window := Since(readings, station.stationId, last24Hours);
      assert window == ws[i];
      tally := Visit(tally, station, window);
    }
    assert stations[..|stations|] == stations && ws[..|stations|] == ws;
    stats := Summarize(tally, |stations|);
  }

  /** The response built from the loop's state: the two averages over the
      active stations, 0 when there is none. */
  method Summarize(tally: Tally, totalStations: nat) returns (stats: Statistics)
    ensures stats == Finish(tally, totalStations)
  {
    var count := tally.stationCount;
    var avgWaterLevel := if count > 0 then ToFixed(tally.totalLevel / (count as real), 2) else 0.0;
    var avgBattery := if count > 0 then MathRound(tally.totalBattery / (count as real)) else 0;
    stats := Statistics(totalStations, tally.totalReadings, avgWaterLevel, tally.maxLevel, tally.maxStation,
                        tally.minLevel, tally.minStation, tally.alerts,
                        DataQuality(tally.active, tally.inactive, avgBattery));
  }

  /** The three statuses split a window. */
  lemma StatusesSplit(w: seq<Reading>)
    ensures CountOf(w, Danger) + CountOf(w, Warning) + CountOf(w, Normal) == |w|
  {
    KeepPartition3(w, HasStatus(Danger), HasStatus(Warning), HasStatus(Normal));
  }

  /** Station k has a non-empty window. */
  ghost predicate Reported(ws: seq<seq<Reading>>, k: int)
  {
    0 <= k < |ws| && |ws[k]| > 0
  }

  /** The counters of the fold: every station is active or inactive, the
      station count is the active count, every reading counted is counted
      under exactly one status, and nothing is active only when every
      window is empty. */
  lemma {:induction false} FoldCounts(stations: seq<Station>, ws: seq<seq<Reading>>)
    requires |ws| == |stations|
    ensures var t := Fold(stations, ws);
            t.active + t.inactive == |stations| && t.stationCount == t.active
            && t.alerts.danger + t.alerts.warning + t.alerts.normal == t.totalReadings
            && (t.active == 0 ==> t.totalReadings == 0)
            && (t.active == 0 <==> forall k :: 0 <= k < |ws| ==> !Reported(ws, k))
  {
    if stations != [] {
      var n := |stations| - 1;
      FoldCounts(stations[..n], ws[..n]);
      StatusesSplit(ws[n]);
      forall k | 0 <= k < n ensures Reported(ws[..n], k) == Reported(ws, k) {
        assert ws[..n][k] == ws[k];
      }
      if |ws[n]| > 0 {
        assert Reported(ws, n);
      }
    }
  }

  /** The highest level: at least every active station's last level and at
      least 0; named only once a level above 0 was seen, and then held by a
      station that reported it. */
  lemma {:induction false} FoldMaximum(stations: seq<Station>, ws: seq<seq<Reading>>)
    requires |ws| == |stations|
    ensures var t := Fold(stations, ws);
            t.maxLevel >= 0.0
            && (forall k :: Reported(ws, k) ==> Latest(ws[k]).waterLevel <= t.maxLevel)
            && (t.maxStation.None? ==> t.maxLevel == 0.0)
            && (t.maxStation.Some? ==> t.maxLevel > 0.0)
            && (t.maxStation.Some? ==> exists k :: Reported(ws, k) && stations[k].name == t.maxStation.value
                                                   && Latest(ws[k]).waterLevel == t.maxLevel)
  {
    if stations != [] {
      var n := |stations| - 1;
      FoldMaximum(stations[..n], ws[..n]);
      var t := Fold(stations[..n], ws[..n]);
      forall k | Reported(ws[..n], k) ensures Reported(ws, k) && ws[..n][k] == ws[k] {
      }
      forall k | Reported(ws, k) && k < n ensures Reported(ws[..n], k) {
        assert ws[..n][k] == ws[k];
      }
      if t.maxStation.Some? && Fold(stations, ws).maxStation == t.maxStation {
        var k :| Reported(ws[..n], k) && stations[..n][k].name == t.maxStation.value
                 && Latest(ws[..n][k]).waterLevel == t.maxLevel;
        assert stations[k] == stations[..n][k];
      }
    }
  }

  /** The lowest level: reported exactly when some station is active, at
      most every active station's last level, and held by a station that
      reported it. */
  lemma {:induction false} FoldMinimum(stations: seq<Station>, ws: seq<seq<Reading>>)
    requires |ws| == |stations|
    ensures var t := Fold(stations, ws);
            (t.minLevel.Some? <==> t.active > 0)
            && (t.minStation.Some? <==> t.minLevel.Some?)
            && (forall k :: Reported(ws, k) ==> t.minLevel.Some? && t.minLevel.value <= Latest(ws[k]).waterLevel)
            && (t.minStation.Some? ==> exists k :: Reported(ws, k) && stations[k].name == t.minStation.value
                                                   && Latest(ws[k]).waterLevel == t.minLevel.value)
  {
    if stations != [] {
      var n := |stations| - 1;
      FoldMinimum(stations[..n], ws[..n]);
      var t := Fold(stations[..n], ws[..n]);
      forall k | Reported(ws[..n], k) ensures Reported(ws, k) && ws[..n][k] == ws[k] {
      }
      forall k | Reported(ws, k) && k < n ensures Reported(ws[..n], k) {
        assert ws[..n][k] == ws[k];
      }
      if t.minStation.Some? && Fold(stations, ws).minStation == t.minStation {
        var k :| Reported(ws[..n], k) && stations[..n][k].name == t.minStation.value
                 && Latest(ws[..n][k]).waterLevel == t.minLevel.value;
        assert stations[k] == stations[..n][k];
      }
    }
  }

  /** With every active station's last level in [lo, hi], the running total
      of last levels stays between `count * lo` and `count * hi`. */
  lemma {:induction false} FoldLevelTotal(stations: seq<Station>, ws: seq<seq<Reading>>, lo: real, hi: real)
    requires |ws| == |stations|
    requires forall k :: Reported(ws, k) ==> lo <= Latest(ws[k]).waterLevel <= hi
    ensures var t := Fold(stations, ws);
            Times(t.stationCount, lo) <= t.totalLevel <= Times(t.stationCount, hi)
  {
    if stations != [] {
      var n := |stations| - 1;
      forall k | Reported(ws[..n], k) ensures lo <= Latest(ws[..n][k]).waterLevel <= hi {
        assert Reported(ws, k) && ws[..n][k] == ws[k];
      }
      FoldLevelTotal(stations[..n], ws[..n], lo, hi);
      var t := Fold(stations[..n], ws[..n]);
      var u := Fold(stations, ws);
      assert u == Step(t, stations[n], ws[n]);
      StepTotals(t, stations[n], ws[n]);
      if |ws[n]| > 0 {
        assert Reported(ws, n);
        assert Times(u.stationCount, lo) == Times(t.stationCount, lo) + lo;
        assert Times(u.stationCount, hi) == Times(t.stationCount, hi) + hi;
      }
    } else {
      assert Fold(stations, ws).stationCount == 0 && Fold(stations, ws).totalLevel == 0.0;
    }
  }

  /** What one station does to the count and the total of last levels. */
  lemma StepTotals(t: Tally, s: Station, w: seq<Reading>)
    ensures var u := Step(t, s, w);
            if |w| > 0 then u.stationCount == t.stationCount + 1 && u.totalLevel == t.totalLevel + Latest(w).waterLevel
            else u.stationCount == t.stationCount && u.totalLevel == t.totalLevel
  {
  }

  /** `n * x`, written as a repeated sum. */
  function Times(n: nat, x: real): real
  {
    if n == 0 then 0.0 else Times(n - 1, x) + x
  }

  lemma {:induction false} TimesIsProduct(n: nat, x: real)
    ensures Times(n, x) == (n as real) * x
  {
    if n > 0 {
      TimesIsProduct(n - 1, x);
    }
  }

  /** A total between `n * lo` and `n * hi` has its mean between `lo` and `hi`. */
  lemma MeanBetween(total: real, n: nat, lo: real, hi: real)
    requires n > 0 && Times(n, lo) <= total <= Times(n, hi)
    ensures lo <= total / (n as real) <= hi
  {
    TimesIsProduct(n, lo);
    TimesIsProduct(n, hi);
    MeanBounds(total, n as real, lo, hi);
  }

  /** With every stored battery level in [0, 100], as the reading schema
      demands, the battery total stays in [0, 100 * count]. */
  lemma {:induction false} FoldBatteryTotal(stations: seq<Station>, ws: seq<seq<Reading>>)
    requires |ws| == |stations|
    requires forall k, j :: 0 <= k < |ws| && 0 <= j < |ws[k]| ==> 0.0 <= ws[k][j].batteryLevel <= 100.0
    ensures var t := Fold(stations, ws);
            0.0 <= t.totalBattery <= 100.0 * (t.stationCount as real)
  {
    if stations != [] {
      var n := |stations| - 1;
      assert forall k, j :: 0 <= k < n && 0 <= j < |ws[..n][k]| ==> ws[..n][k][j] == ws[k][j];
      FoldBatteryTotal(stations[..n], ws[..n]);
    }
  }

  /** Active and inactive stations add up to all stations, and the alert
      history counts every reading of the last 24 hours once. */
  lemma CountsAddUp(stations: seq<Station>, rs: seq<Reading>, now: int)
    ensures var st := StatisticsOf(stations, rs, now);
            st.dataQuality.activeStations + st.dataQuality.inactiveStations == st.totalStations == |stations|
            && st.alertHistory.danger + st.alertHistory.warning + st.alertHistory.normal == st.totalReadings
  {
    FoldCounts(stations, DayWindows(stations, rs, now));
  }

  /** A station's window is non-empty exactly when it stored a reading at or
      after `now - 24h`. */
  lemma ActiveMeansRecentReading(rs: seq<Reading>, s: Station, now: int)
    ensures DayWindow(rs, s, now) != [] <==>
            exists r :: r in rs && r.stationId == s.stationId && r.timestamp >= now - DayMillis
  {
    var w := DayWindow(rs, s, now);
    if exists r :: r in rs && r.stationId == s.stationId && r.timestamp >= now - DayMillis {
      var r :| r in rs && r.stationId == s.stationId && r.timestamp >= now - DayMillis;
      SinceMember(rs, s.stationId, now - DayMillis, r);
    } else if |w| > 0 {
      SinceMember(rs, s.stationId, now - DayMillis, w[0]);
    }
  }

  /** No station reported in the last 24 hours: both averages are 0, the
      highest level is 0 with no station and the lowest is null. */
  lemma QuietDay(stations: seq<Station>, rs: seq<Reading>, now: int)
    requires forall k :: 0 <= k < |stations| ==> DayWindow(rs, stations[k], now) == []
    ensures var st := StatisticsOf(stations, rs, now);
            st.avgWaterLevel == 0.0 && st.dataQuality.avgBattery == 0 && st.dataQuality.activeStations == 0
            && st.maxLevel == 0.0 && st.maxStation == None && st.minLevel == None && st.minStation == None
            && st.totalReadings == 0
  {
    var ws := DayWindows(stations, rs, now);
    assert forall k :: 0 <= k < |ws| ==> !Reported(ws, k);
    FoldCounts(stations, ws);
    FoldMinimum(stations, ws);
    FoldMaximum(stations, ws);
  }

  /** Station k reported in the last 24 hours with last level `level`. */
  ghost predicate LastLevelIs(stations: seq<Station>, rs: seq<Reading>, now: int, k: int, level: real)
  {
    0 <= k < |stations| && DayWindow(rs, stations[k], now) != []
    && Latest(DayWindow(rs, stations[k], now)).waterLevel == level
  }

  /** The extremes bound every active station's last level and are each
      held by an active station; the highest names no station exactly when
      no last level is above 0. */
  lemma Extremes(stations: seq<Station>, rs: seq<Reading>, now: int, k: int, level: real)
    requires LastLevelIs(stations, rs, now, k, level)
    ensures var st := StatisticsOf(stations, rs, now);
            st.minLevel.Some? && st.minStation.Some?
            && st.minLevel.value <= level <= st.maxLevel
            && (exists j :: LastLevelIs(stations, rs, now, j, st.minLevel.value) && stations[j].name == st.minStation.value)
            && (st.maxStation.Some? ==>
                  exists j :: LastLevelIs(stations, rs, now, j, st.maxLevel) && stations[j].name == st.maxStation.value)
            && (st.maxStation.None? <==> st.maxLevel == 0.0)
            && (st.maxStation.None? ==> level <= 0.0)
  {
    var ws := DayWindows(stations, rs, now);
    var t := Fold(stations, ws);
    assert Reported(ws, k);
    FoldMaximum(stations, ws);
    FoldMinimum(stations, ws);
    FoldCounts(stations, ws);
    var i :| Reported(ws, i) && stations[i].name == t.minStation.value && Latest(ws[i]).waterLevel == t.minLevel.value;
    assert LastLevelIs(stations, rs, now, i, t.minLevel.value);
    if t.maxStation.Some? {
      var j :| Reported(ws, j) && stations[j].name == t.maxStation.value && Latest(ws[j]).waterLevel == t.maxLevel;
      assert LastLevelIs(stations, rs, now, j, t.maxLevel);
    }
  }

  /** The mean water level lies between the lowest and the highest last
      level, give or take the two-digit rounding. */
  lemma AverageBetweenExtremes(stations: seq<Station>, rs: seq<Reading>, now: int, k: int, level: real)
    requires LastLevelIs(stations, rs, now, k, level)
    ensures var st := StatisticsOf(stations, rs, now);
            st.minLevel.Some? && st.minLevel.value - 0.005 <= st.avgWaterLevel <= st.maxLevel + 0.005
  {
    var ws := DayWindows(stations, rs, now);
    assert Reported(ws, k);
    FoldCounts(stations, ws);
    FoldMinimum(stations, ws);
    FoldMaximum(stations, ws);
    var t := Fold(stations, ws);
    FoldLevelTotal(stations, ws, t.minLevel.value, t.maxLevel);
    var mean := t.totalLevel / (t.stationCount as real);
    MeanBetween(t.totalLevel, t.stationCount, t.minLevel.value, t.maxLevel);
    ToFixedError(mean, 2);
  }

  /** With every stored battery level in [0, 100], the mean battery is a
      whole number in [0, 100]. */
  lemma BatteryInRange(stations: seq<Station>, rs: seq<Reading>, now: int)
    requires forall r :: r in rs ==> 0.0 <= r.batteryLevel <= 100.0
    ensures 0 <= StatisticsOf(stations, rs, now).dataQuality.avgBattery <= 100
  {
    var ws: seq<seq<Reading>> := DayWindows(stations, rs, now);
    forall k: int, j: int | 0 <= k < |ws| && 0 <= j < |ws[k]| ensures 0.0 <= ws[k][j].batteryLevel <= 100.0 {
      SinceMember(rs, stations[k].stationId, now - DayMillis, ws[k][j]);
    }
    FoldBatteryTotal(stations, ws);
    var t := Fold(stations, ws);
    if t.stationCount > 0 {
      TimesIsProduct(t.stationCount, 0.0);
      TimesIsProduct(t.stationCount, 100.0);
      MeanBetween(t.totalBattery, t.stationCount, 0.0, 100.0);
    }
  }
}
