/** The dashboard's summary tiles: how many stations there are and how many
    updated within the last hour, the mean current level and battery charge
    over all stations (a station without a reading counts as 0, an empty list
    gives 0), and how many stations are in warning or danger. */
module StatsOverview {
  import opened Domain
  import opened Numeric
  import opened Seqs
  import opened StationViews

  /** One hour in milliseconds. */
  const ActiveWindow: int := 3600000

  /** `(now - lastUpdate) < 3600000`. */
  function IsActive(now: int): StationView -> bool
  {
    (s: StationView) => now - s.lastUpdated < ActiveWindow
  }

  function ActiveStations(stations: seq<StationView>, now: int): (n: nat)
    ensures n <= |stations|
  {
    |Keep(stations, IsActive(now))|
  }

  /** `s.currentReading?.waterLevel || 0`. */
  function LevelOrZero(s: StationView): real
  {
    if s.currentReading.Some? then s.currentReading.value.waterLevel else 0.0
  }

  /** `s.currentReading?.batteryLevel || 0`. */
  function BatteryOrZero(s: StationView): real
  {
    if s.currentReading.Some? then s.currentReading.value.batteryLevel else 0.0
  }

  /** `totalStations || 1`. */
  function Divisor(n: nat): (d: nat)
    ensures d >= 1
  {
    if n == 0 then 1 else n
  }

  function AvgWaterLevel(stations: seq<StationView>): real
  {
    SumOf(stations, LevelOrZero) / (Divisor(|stations|) as real)
  }

  function AvgBattery(stations: seq<StationView>): real
  {
    SumOf(stations, BatteryOrZero) / (Divisor(|stations|) as real)
  }

  function HighRiskAreas(stations: seq<StationView>): (n: nat)
    ensures n <= |stations|
  {
    |Keep(stations, IsAlert)|
  }

  /** A station is counted active exactly when it updated less than an hour
      before `now`; the count never exceeds the number of stations. */
  lemma ActiveMeansUpdatedWithinHour(stations: seq<StationView>, now: int, s: StationView)
    ensures s in Keep(stations, IsActive(now)) <==> s in stations && now - s.lastUpdated < 3600000
    ensures ActiveStations(stations, now) <= |stations|
  {
    KeepMember(stations, IsActive(now), s);
  }

  /** An empty list shows zeros everywhere. */
  lemma EmptyOverview(now: int)
    ensures ActiveStations([], now) == 0 && AvgWaterLevel([]) == 0.0 && AvgBattery([]) == 0.0
            && HighRiskAreas([]) == 0
  {
  }

  /** When every station has a reading with its level in [lo, hi], the mean
      level lies in [lo, hi] too. */
  lemma AverageLevelBetween(stations: seq<StationView>, lo: real, hi: real)
    requires |stations| > 0
    requires forall k :: 0 <= k < |stations| ==>
               stations[k].currentReading.Some? && lo <= stations[k].currentReading.value.waterLevel <= hi
    ensures lo <= AvgWaterLevel(stations) <= hi
  {
    assert forall k :: 0 <= k < |stations| ==> LevelOrZero(stations[k]) == stations[k].currentReading.value.waterLevel;
    MeanOfBounded(stations, LevelOrZero, lo, hi);
  }

  /** With every current battery level in [0, 100], as the reading schema
      demands, the mean battery lies in [0, 100]; stations without a reading
      pull it towards 0. */
  lemma AverageBatteryInRange(stations: seq<StationView>)
    requires forall k :: 0 <= k < |stations| && stations[k].currentReading.Some? ==>
               0.0 <= stations[k].currentReading.value.batteryLevel <= 100.0
    ensures 0.0 <= AvgBattery(stations) <= 100.0
  {
    if |stations| > 0 {
      MeanOfBounded(stations, BatteryOrZero, 0.0, 100.0);
    }
  }

  /** A station without a reading adds 0 to the level total but 1 to the divisor. */
  lemma MissingReadingCountsAsZero(stations: seq<StationView>, s: StationView)
    requires s.currentReading.None?
    ensures AvgWaterLevel(stations + [s]) == SumOf(stations, LevelOrZero) / ((|stations| + 1) as real)
  {
    SumOfSnoc(stations, s, LevelOrZero);
  }

  /** The high-risk tile counts the stations in danger plus those in warning. */
  lemma HighRiskIsDangerPlusWarning(stations: seq<StationView>)
    ensures HighRiskAreas(stations) == CountWith(stations, Danger) + CountWith(stations, Warning)
  {
    KeepUnion(stations, IsAlert, HasStatus(Danger), HasStatus(Warning));
  }
}
