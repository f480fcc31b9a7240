/** The station status overview: the stations in warning or danger, in list
    order, and how many stations are in danger, in warning and normal. */
module StatusCard {
  import opened Domain
  import opened Seqs
  import opened StationViews

  function AlertStations(stations: seq<StationView>): (r: seq<StationView>)
    ensures |r| <= |stations|
    ensures forall k :: 0 <= k < |r| ==> IsAlert(r[k])
  {
    Keep(stations, IsAlert)
  }

  function DangerCount(stations: seq<StationView>): nat { CountWith(stations, Danger) }
  function WarningCount(stations: seq<StationView>): nat { CountWith(stations, Warning) }
  function NormalCount(stations: seq<StationView>): nat { CountWith(stations, Normal) }

  /** `currentReading` is not null. */
  predicate HasReading(s: StationView)
  {
    s.currentReading.Some?
  }

  /** The alert list holds exactly the stations in warning or danger, and
      keeps their relative order: the list of two joined lists is the two
      lists' alert lists joined. */
  lemma AlertStationsExact(stations: seq<StationView>, more: seq<StationView>, s: StationView)
    ensures s in AlertStations(stations) <==> s in stations && IsAlert(s)
    ensures AlertStations(stations + more) == AlertStations(stations) + AlertStations(more)
  {
    KeepMember(stations, IsAlert, s);
    KeepAppend(stations, more, IsAlert);
  }

  /** The danger and warning tiles add up to the alert list. */
  lemma AlertCountsAddUp(stations: seq<StationView>)
    ensures DangerCount(stations) + WarningCount(stations) == |AlertStations(stations)|
  {
    KeepUnion(stations, IsAlert, HasStatus(Danger), HasStatus(Warning));
  }

  /** The three tiles together count each station with a reading once and
      the stations without one not at all. */
  lemma {:induction false} CountsCoverReportingStations(stations: seq<StationView>)
    ensures DangerCount(stations) + WarningCount(stations) + NormalCount(stations) == |Keep(stations, HasReading)|
    ensures DangerCount(stations) + WarningCount(stations) + NormalCount(stations) <= |stations|
    ensures DangerCount(stations) <= |stations| && WarningCount(stations) <= |stations| && NormalCount(stations) <= |stations|
  {
    if stations != [] {
      var n := |stations| - 1;
      var s := stations[n];
      assert stations == stations[..n] + [s];
      CountsCoverReportingStations(stations[..n]);
      CountSnoc(stations[..n], s, Danger);
      CountSnoc(stations[..n], s, Warning);
      CountSnoc(stations[..n], s, Normal);
      KeepSnoc(stations[..n], s, HasReading);
    }
  }
}
