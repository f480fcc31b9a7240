/** The station page's figures, over the station's readings newest first as
    GET /api/readings/:stationId returns them: the current status, the
    distance below the warning level, the battery label, and the maximum,
    minimum and mean level with the number of readings. */
module StationDetail {
  import opened Domain
  import opened Numeric
  import opened Seqs

  /** `latestReading?.status || 'UNKNOWN'`. */
  datatype StatusLabel = Known(status: Status) | Unknown

  datatype BatteryLabel = Good | LowBattery

  /** The summary figures, each `toFixed(2)` held as the number it reads
      back as, and the number of readings. */
  datatype Summary = Summary(maximum: real, minimum: real, average: real, dataPoints: nat)

  /** `readings[0]`, undefined (None) for no readings. */
  function Latest(readings: seq<Reading>): Option<Reading>
  {
    if |readings| > 0 then Some(readings[0]) else None
  }

  function CurrentStatus(readings: seq<Reading>): StatusLabel
  {
    if Latest(readings).Some? then Known(Latest(readings).value.status) else Unknown
  }

  /** The status tile says 'All Clear' only for NORMAL; anything else,
      UNKNOWN included, says 'Alert Active'. */
  predicate AlertActive(shown: StatusLabel)
  {
    shown != Known(Normal)
  }

  /** `latestReading?.waterLevel || 'N/A'`: `None` is 'N/A'. */
  function ShownLevel(readings: seq<Reading>): Option<real>
  {
    if Latest(readings).Some? && Latest(readings).value.waterLevel != 0.0 then Some(Latest(readings).value.waterLevel)
    else None
  }

  /** `latestReading?.batteryLevel || 'N/A'`: `None` is 'N/A'. */
  function ShownBattery(readings: seq<Reading>): Option<real>
  {
    if Latest(readings).Some? && Latest(readings).value.batteryLevel != 0.0 then Some(Latest(readings).value.batteryLevel)
    else None
  }

  /** The '<d>m below warning' text, `None` when 'Above threshold' is shown. */
  function BelowWarning(readings: seq<Reading>, t: Thresholds): Option<real>
  {
    if Latest(readings).Some? && Latest(readings).value.waterLevel < t.warning
    then Some(ToFixed(t.warning - Latest(readings).value.waterLevel, 2))
    else None
  }

  /** `latestReading && latestReading.batteryLevel > 80 ? 'Good' : 'Low Battery'`. */
  function Battery(readings: seq<Reading>): BatteryLabel
  {
    if Latest(readings).Some? && Latest(readings).value.batteryLevel > 80.0 then Good else LowBattery
  }

  function WaterLevel(r: Reading): real
  {
    r.waterLevel
  }

  /** `Math.max(...readings.map(r => r.waterLevel))`. */
  function MaxLevel(readings: seq<Reading>): (m: real)
    requires |readings| > 0
    ensures forall k :: 0 <= k < |readings| ==> readings[k].waterLevel <= m
    ensures exists k :: 0 <= k < |readings| && readings[k].waterLevel == m
  {
    if |readings| == 1 then readings[0].waterLevel
    else
      var n := |readings| - 1;
      var rest := MaxLevel(readings[..n]);
      assert forall k :: 0 <= k < n ==> readings[..n][k] == readings[k];
      if readings[n].waterLevel > rest then readings[n].waterLevel else rest
  }

  /** `Math.min(...readings.map(r => r.waterLevel))`. */
  function MinLevel(readings: seq<Reading>): (m: real)
    requires |readings| > 0
    ensures forall k :: 0 <= k < |readings| ==> m <= readings[k].waterLevel
    ensures exists k :: 0 <= k < |readings| && readings[k].waterLevel == m
  {
    if |readings| == 1 then readings[0].waterLevel
    else
      var n := |readings| - 1;
      var rest := MinLevel(readings[..n]);
      assert forall k :: 0 <= k < n ==> readings[..n][k] == readings[k];
      if readings[n].waterLevel < rest then readings[n].waterLevel else rest
  }

  /** The 24-hour statistics box, shown only when there are readings. */
  function SummaryOf(readings: seq<Reading>): Option<Summary>
  {
    if |readings| == 0 then None
    else Some(Summary(ToFixed(MaxLevel(readings), 2), ToFixed(MinLevel(readings), 2),
                      ToFixed(SumOf(readings, WaterLevel) / (|readings| as real), 2), |readings|))
  }

  /** The status is the newest reading's, and UNKNOWN exactly when there are
      no readings, which the status tile shows as an active alert. */
  lemma StatusOfNewest(readings: seq<Reading>)
    ensures CurrentStatus(readings) == Unknown <==> readings == []
    ensures readings != [] ==> CurrentStatus(readings) == Known(readings[0].status)
    ensures readings == [] ==> AlertActive(CurrentStatus(readings))
  {
  }

  /** The distance text appears only below the warning level, for an exact
      distance above 0; it is that distance to two digits, so a level within
      half a centimetre of the warning level reads '0.00m below warning'. */
  lemma BelowWarningDistance(readings: seq<Reading>, t: Thresholds)
    ensures BelowWarning(readings, t).Some? <==> readings != [] && readings[0].waterLevel < t.warning
    ensures BelowWarning(readings, t).Some? ==>
              var d := t.warning - readings[0].waterLevel;
              d > 0.0 && 0.0 <= BelowWarning(readings, t).value && d - 0.005 <= BelowWarning(readings, t).value <= d + 0.005
  {
    if readings != [] && readings[0].waterLevel < t.warning {
      var d := t.warning - readings[0].waterLevel;
      ToFixedError(d, 2);
      ToFixedNonNegative(d, 2);
    }
  }

  /** 'Good' exactly for a newest battery level above 80; no reading reads
      'Low Battery'. */
  lemma BatteryLabelRule(readings: seq<Reading>)
    ensures Battery(readings) == Good <==> readings != [] && readings[0].batteryLevel > 80.0
  {
  }

  /** A level or a charge of exactly 0 is shown as 'N/A', like a missing
      reading; any other value is the newest reading's. */
  lemma ZeroShownAsMissing(readings: seq<Reading>)
    ensures ShownLevel(readings).None? <==> readings == [] || readings[0].waterLevel == 0.0
    ensures ShownBattery(readings).None? <==> readings == [] || readings[0].batteryLevel == 0.0
    ensures ShownLevel(readings).Some? ==> ShownLevel(readings).value == readings[0].waterLevel
    ensures ShownBattery(readings).Some? ==> ShownBattery(readings).value == readings[0].batteryLevel
  {
  }

  /** The summary is there exactly for readings, counts them all, and puts
      the mean between the minimum and the maximum, after rounding too. */
  lemma SummaryOrdered(readings: seq<Reading>)
    ensures SummaryOf(readings).Some? <==> |readings| > 0
    ensures SummaryOf(readings).Some? ==>
              var s := SummaryOf(readings).value;
              s.dataPoints == |readings| && s.minimum <= s.average <= s.maximum
  {
    if |readings| > 0 {
      var mean := SumOf(readings, WaterLevel) / (|readings| as real);
      MeanBetweenExtremes(readings);
      ToFixedMonotone(MinLevel(readings), mean, 2);
      ToFixedMonotone(mean, MaxLevel(readings), 2);
    }
  }

  /** The exact mean lies between the lowest and the highest level. */
  lemma MeanBetweenExtremes(readings: seq<Reading>)
    requires |readings| > 0
    ensures MinLevel(readings) <= SumOf(readings, WaterLevel) / (|readings| as real) <= MaxLevel(readings)
  {
    var lo := MinLevel(readings);
    var hi := MaxLevel(readings);
    forall i | 0 <= i < |readings| ensures lo <= WaterLevel(readings[i]) <= hi {
    }
    MeanOfBounded(readings, WaterLevel, lo, hi);
  }
}
