/** Entities shared by the backend and the dashboard: the reading status,
    a station's alert thresholds, readings and stations, and the threshold
    classification rule that decides a reading's status. */
module Domain {

  datatype Option<+T> = None | Some(value: T)

  /** The status a reading is given when it is stored. */
  datatype Status = Normal | Warning | Danger

  /** Warning and danger levels in metres; warning < danger is a convention
      the store does not enforce, so nothing below assumes it unless it says so. */
  datatype Thresholds = Thresholds(warning: real, danger: real)

  /** One stored sensor sample. Timestamps are milliseconds since the epoch. */
  datatype Reading = Reading(
    stationId: string,
    waterLevel: real,
    batteryLevel: real,
    status: Status,
    timestamp: int)

  datatype Station = Station(
    stationId: string,
    name: string,
    lat: real,
    lng: real,
    thresholds: Thresholds,
    lastUpdated: int)

  /** The string the backend stores for a status. */
  function StatusName(s: Status): (name: string)
    ensures |name| > 0
  {
    match s
    case Normal => "NORMAL"
    case Warning => "WARNING"
    case Danger => "DANGER"
  }

  /** Severity rank, used to state monotonicity of the classification. */
  function Severity(s: Status): (rank: nat)
    ensures rank <= 2
    ensures rank == 0 <==> s == Normal
  {
    match s
    case Normal => 0
    case Warning => 1
    case Danger => 2
  }

  /** The threshold rule: at or above danger is DANGER, otherwise at or above
      warning is WARNING, otherwise NORMAL. */
  function Classify(level: real, t: Thresholds): (s: Status)
    ensures s == Danger <==> level >= t.danger
    ensures s == Warning <==> level < t.danger && level >= t.warning
    ensures s == Normal <==> level < t.danger && level < t.warning
  {
    if level >= t.danger then Danger
    else if level >= t.warning then Warning
    else Normal
  }

  /** Boundary values fall into the more severe bucket. */
  lemma ClassifyBoundaries(t: Thresholds, eps: real)
    requires t.warning < t.danger && eps > 0.0
    ensures Classify(t.warning - eps, t) == Normal
    ensures Classify(t.warning, t) == Warning
    ensures Classify(t.danger, t) == Danger
    ensures Classify(t.danger + eps, t) == Danger
  {
  }

  /** With ordered thresholds a higher level never gets a milder status. */
  lemma ClassifyMonotone(a: real, b: real, t: Thresholds)
    requires t.warning <= t.danger && a <= b
    ensures Severity(Classify(a, t)) <= Severity(Classify(b, t))
  {
  }

  lemma StatusNamesDistinct(s1: Status, s2: Status)
    ensures StatusName(s1) == StatusName(s2) <==> s1 == s2
  {
    assert StatusName(Normal)[0] == 'N';
    assert StatusName(Warning)[0] == 'W';
    assert StatusName(Danger)[0] == 'D';
  }
}
