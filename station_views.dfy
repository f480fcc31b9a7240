/** What the dashboard components receive: the stations of GET /api/stations,
    each with its newest reading attached (`currentReading`, null when the
    station has none), and the filters they apply to that list. */
module StationViews {
  import opened Domain
  import opened Seqs

  datatype StationView = StationView(
    stationId: string,
    name: string,
    thresholds: Thresholds,
    lastUpdated: int,
    currentReading: Option<Reading>)

  /** `s.currentReading?.status === st`: false for a station without a reading. */
  function HasStatus(st: Status): StationView -> bool
  {
    (s: StationView) => s.currentReading.Some? && s.currentReading.value.status == st
  }

  /** `status === 'WARNING' || status === 'DANGER'`. */
  predicate IsAlert(s: StationView)
  {
    HasStatus(Warning)(s) || HasStatus(Danger)(s)
  }

  /** `stations.filter(s => s.currentReading?.status === st).length`. */
  function CountWith(stations: seq<StationView>, st: Status): nat
  {
    |Keep(stations, HasStatus(st))|
  }

  /** One more station adds one to the count of its own status only. */
  lemma CountSnoc(stations: seq<StationView>, s: StationView, st: Status)
    ensures CountWith(stations + [s], st) == CountWith(stations, st) + (if HasStatus(st)(s) then 1 else 0)
  {
    KeepSnoc(stations, s, HasStatus(st));
  }

  /** A station with status `st` is counted. */
  lemma CountedStation(stations: seq<StationView>, st: Status, k: int)
    requires 0 <= k < |stations| && HasStatus(st)(stations[k])
    ensures CountWith(stations, st) > 0
  {
    KeepMember(stations, HasStatus(st), stations[k]);
  }

  /** No station has status `st`: nothing is counted. */
  lemma UncountedStatus(stations: seq<StationView>, st: Status)
    requires forall k :: 0 <= k < |stations| ==> !HasStatus(st)(stations[k])
    ensures CountWith(stations, st) == 0
  {
    KeepNone(stations, HasStatus(st));
  }
}
