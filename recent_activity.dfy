/** The dashboard's activity log: one entry per station in danger or warning,
    newest update first, then the fixed health-check entry, of which the
    first ten are shown. */
module RecentActivity {
  import opened Domain
  import opened Seqs
  import opened StationViews

  const Shown: nat := 10
  const MinuteMillis: int := 60000

  /** An entry: a station alert (`type` 'danger' or 'warning' after its
      status, with the station name, level, minutes since the update and
      the update time the sort uses) or the system health check ('info'). */
  datatype Activity =
    | StationAlert(status: Status, name: string, waterLevel: real, minutesAgo: int, timestamp: int)
    | HealthCheck

  /** `Math.floor((now - lastUpdated) / 60000)`; Dafny's division by a
      positive divisor rounds down, as `Math.floor` does. */
  function MinutesAgo(lastUpdated: int, now: int): int
  {
    (now - lastUpdated) / MinuteMillis
  }

  /** The entry pushed for a station in danger or warning. */
  function AlertOf(s: StationView, now: int): Activity
    requires IsAlert(s)
  {
    StationAlert(s.currentReading.value.status, s.name, s.currentReading.value.waterLevel,
                 MinutesAgo(s.lastUpdated, now), s.lastUpdated)
  }

  /** The entries after the `forEach` has visited `stations`. */
  function Alerts(stations: seq<StationView>, now: int): seq<Activity>
  {
    if stations == [] then []
    else
      var n := |stations| - 1;
      var before := Alerts(stations[..n], now);
      if IsAlert(stations[n]) then before + [AlertOf(stations[n], now)] else before
  }

  /** The comparator's key `timestamp`. */
  function Stamp(a: Activity): real
  {
    if a.StationAlert? then a.timestamp as real else 0.0
  }

  /** The whole log: the alerts sorted newest first, then the health check. */
  function ActivityLog(stations: seq<StationView>, now: int): seq<Activity>
  {
    SortDesc(Alerts(stations, now), Stamp) + [HealthCheck]
  }

  /** `activities.slice(0, 10)`. */
  function Displayed(stations: seq<StationView>, now: int): seq<Activity>
  {
    Take(ActivityLog(stations, now), Shown)
  }

  method BuildActivities(stations: seq<StationView>, now: int) returns (shown: seq<Activity>)
    ensures shown == Displayed(stations, now)
  {
    var activities: seq<Activity> := [];
    for i := 0 to |stations|
      invariant activities == Alerts(stations[..i], now)
    {
      var station := stations[i];
      assert stations[..i + 1][..i] == stations[..i];
      var minutesAgo := (now - station.lastUpdated) / 60000;
      if station.currentReading.Some? && station.currentReading.value.status == Danger {
        activities := activities + [StationAlert(Danger, station.name, station.currentReading.value.waterLevel,
                                                 minutesAgo, station.lastUpdated)];
      } else if station.currentReading.Some? && station.currentReading.value.status == Warning {
        activities := activities + [StationAlert(Warning, station.name, station.currentReading.value.waterLevel,
                                                 minutesAgo, station.lastUpdated)];
      }
    }
    assert stations[..|stations|] == stations;
    activities := SortDesc(activities, Stamp);
    activities := activities + [HealthCheck];
    shown := Take(activities, Shown);
  }

  /** Entry for station k. */
  ghost predicate AlertFor(stations: seq<StationView>, now: int, k: int, a: Activity)
  {
    0 <= k < |stations| && IsAlert(stations[k]) && a == AlertOf(stations[k], now)
  }

  /** One entry per station in danger or warning and no other: the entry
      carries that station's status, name, level and update time. */
  lemma {:induction false} AlertsExact(stations: seq<StationView>, now: int, a: Activity)
    ensures |Alerts(stations, now)| == |Keep(stations, IsAlert)|
    ensures a in Alerts(stations, now) <==> exists k :: AlertFor(stations, now, k, a)
  {
    if stations != [] {
      var n := |stations| - 1;
      AlertsExact(stations[..n], now, a);
      KeepSnoc(stations[..n], stations[n], IsAlert);
      assert stations == stations[..n] + [stations[n]];
      if exists k :: AlertFor(stations, now, k, a) {
        var k :| AlertFor(stations, now, k, a);
        if k < n {
          assert AlertFor(stations[..n], now, k, a);
        }
      }
      if exists k :: AlertFor(stations[..n], now, k, a) {
        var k :| AlertFor(stations[..n], now, k, a);
        assert AlertFor(stations, now, k, a);
      }
      if IsAlert(stations[n]) && a == AlertOf(stations[n], now) {
        assert AlertFor(stations, now, n, a);
      }
    }
  }

  /** The entries built by the `forEach` are all station alerts. */
  lemma {:induction false} AlertsAreStationAlerts(stations: seq<StationView>, now: int)
    ensures forall a :: a in Alerts(stations, now) ==> a.StationAlert?
  {
    if stations != [] {
      AlertsAreStationAlerts(stations[..|stations| - 1], now);
    }
  }

  /** The log has one entry per alert station plus the health check, which
      comes last; everything before it is a station alert, newest update
      first, and is the alert entries reordered. */
  lemma LogShape(stations: seq<StationView>, now: int)
    ensures var log := ActivityLog(stations, now);
            var alerts := Alerts(stations, now);
            |log| == |Keep(stations, IsAlert)| + 1
            && log[|log| - 1] == HealthCheck
            && multiset(log[..|log| - 1]) == multiset(alerts)
            && SortedDesc(log[..|log| - 1], Stamp)
            && forall k :: 0 <= k < |log| - 1 ==> log[k].StationAlert?
  {
    var alerts := Alerts(stations, now);
    var sorted := SortDesc(alerts, Stamp);
    var log := ActivityLog(stations, now);
    AlertsExact(stations, now, HealthCheck);
    SortDescSpec(alerts, Stamp);
    AlertsAreStationAlerts(stations, now);
    assert log[..|log| - 1] == sorted;
    forall k | 0 <= k < |sorted| ensures sorted[k].StationAlert? {
      assert sorted[k] in multiset(alerts);
    }
  }

  /** At most ten entries are shown, the first ten of the log. */
  lemma DisplayedPrefix(stations: seq<StationView>, now: int)
    ensures var log := ActivityLog(stations, now);
            var shown := Displayed(stations, now);
            |shown| <= 10 && |shown| == (if |log| < 10 then |log| else 10)
            && forall k :: 0 <= k < |shown| ==> shown[k] == log[k]
  {
  }

  /** With nine or fewer stations in alert every entry is shown, the health
      check included; with ten or more it falls off the display. */
  lemma HealthCheckShown(stations: seq<StationView>, now: int)
    ensures HealthCheck in Displayed(stations, now) <==> |Keep(stations, IsAlert)| < 10
  {
    LogShape(stations, now);
    var log := ActivityLog(stations, now);
    var shown := Displayed(stations, now);
    if |Keep(stations, IsAlert)| >= 10 {
      assert forall k :: 0 <= k < |shown| ==> shown[k] == log[k] && shown[k].StationAlert?;
    } else {
      assert shown[|log| - 1] == HealthCheck;
    }
  }

  /** The minutes shown are the whole minutes elapsed since the update. */
  lemma MinutesAgoIsWholeMinutes(lastUpdated: int, now: int)
    ensures var m := MinutesAgo(lastUpdated, now);
            m * 60000 <= now - lastUpdated < (m + 1) * 60000
  {
  }
}
