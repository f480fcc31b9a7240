/** GET /api/analytics/risk-forecast: for each station with at least five of
    its twenty newest readings, the hours until the level reaches the warning
    and the danger threshold at the window's change rate (only while it rises
    faster than 0.05 m/h), and a risk tier from the hours to warning: under 3
    is high, under 6 medium, anything else (including no estimate) low. */
module RiskForecaster {
  import opened Domain
  import opened Numeric
  import opened Seqs
  import opened ReadingQueries
  import opened ForecastEngine
  import TrendEstimator

  const RiskWindow: nat := 20
  const MinReadings: nat := 5

  /** `timeToWarning` and `timeToDanger` are `null` (None) or the `toFixed(1)`
      string, held here as the number it reads back as. */
  datatype Assessment = Assessment(
    stationId: string,
    name: string,
    currentLevel: real,
    predictedLevel: real,
    changeRate: real,
    timeToWarning: Option<real>,
    timeToDanger: Option<real>)

  datatype RiskForecast = RiskForecast(highRisk: seq<Assessment>, mediumRisk: seq<Assessment>, lowRisk: seq<Assessment>)

  datatype Tier = High | Medium | Low

  /** Hours to cover `distance` at `rate`, to one decimal: only for a rate
      above 0.05 m/h and a threshold still above the current level, and then
      within 0.05 h of distance / rate. */
  function TimeTo(distance: real, rate: real): (t: Option<real>)
    ensures t.Some? <==> rate > 0.05 && distance > 0.0
    ensures t.Some? ==> t.value >= 0.0
    ensures t.Some? ==> distance / rate - 0.05 <= t.value <= distance / rate + 0.05
  {
    if rate > 0.05 && distance > 0.0 then
      ToFixedNonNegative(distance / rate, 1);
      ToFixedError(distance / rate, 1);
      Some(ToFixed(distance / rate, 1))
    else None
  }

  /** `prediction.predictions[5]?.level || currentLevel`: the level forecast
      six hours ahead, unless it rounds to 0. */
  function PredictedLevel(p: Prediction, current: real): real
  {
    if |p.predictions| > 5 && p.predictions[5].level != 0.0 then p.predictions[5].level else current
  }

  /** The categorisation: a (non-empty, hence truthy) estimate under 3 hours
      is high, under 6 medium; no estimate or a later one is low. */
  function TierOf(timeToWarning: Option<real>): Tier
  {
    if timeToWarning.Some? && timeToWarning.value < 3.0 then High
    else if timeToWarning.Some? && timeToWarning.value < 6.0 then Medium
    else Low
  }

  /** The assessment of a station from its window. */
  function AssessmentOf(s: Station, w: seq<Reading>): Assessment
    requires |w| >= MinReadings
  {
    var current := w[0].waterLevel;
    var rate := TrendEstimator.ChangeRate(w);
    Assessment(s.stationId, s.name, current, PredictedLevel(Forecast(w, s.thresholds), current), rate,
      TimeTo(s.thresholds.warning - current, rate), TimeTo(s.thresholds.danger - current, rate))
  }

  /** The assessments of the stations with at least five readings, in station order. */
  function Assessments(stations: seq<Station>, ws: seq<seq<Reading>>): seq<Assessment>
    requires |ws| == |stations|
  {
    if stations == [] then []
    else
      var n := |stations| - 1;
      var before := Assessments(stations[..n], ws[..n]);
      if |ws[n]| >= MinReadings then before + [AssessmentOf(stations[n], ws[n])] else before
  }

  /** One assessed station pushed onto the list of its tier. */
  function Push(f: RiskForecast, a: Assessment): RiskForecast
  {
    match TierOf(a.timeToWarning)
    case High => f.(highRisk := f.highRisk + [a])
    case Medium => f.(mediumRisk := f.mediumRisk + [a])
    case Low => f.(lowRisk := f.lowRisk + [a])
  }

  /** The forecast after the handler's loop has visited `stations`. */
  function Fold(stations: seq<Station>, ws: seq<seq<Reading>>): RiskForecast
    requires |ws| == |stations|
  {
    if stations == [] then RiskForecast([], [], [])
    else
      var n := |stations| - 1;
      var f := Fold(stations[..n], ws[..n]);
      if |ws[n]| < MinReadings then f else Push(f, AssessmentOf(stations[n], ws[n]))
  }

  /** The response. */
  function ForecastOf(stations: seq<Station>, rs: seq<Reading>): RiskForecast
  {
    Fold(stations, Windows(stations, rs, RiskWindow))
  }

  /** The body of the handler's loop for a station with enough readings:
      its risk assessment. */
  method Assess(station: Station, window: seq<Reading>) returns (assessment: Assessment)
    requires |window| >= MinReadings
    ensures assessment == AssessmentOf(station, window)
  {
    var currentLevel := window[0].waterLevel;
    var changeRate := TrendEstimator.CalculateChangeRate(window);
    var prediction := CalculatePrediction(window, station);
    var predictedLevel := if |prediction.predictions| > 5 && prediction.predictions[5].level != 0.0
                          then prediction.predictions[5].level else currentLevel;
    var timeToWarning: Option<real> := None;
    var timeToDanger: Option<real> := None;
    if changeRate > 0.05 {
      var warningDistance := station.thresholds.warning - currentLevel;
      var dangerDistance := station.thresholds.danger - currentLevel;
      if warningDistance > 0.0 {
        timeToWarning := Some(ToFixed(warningDistance / changeRate, 1));
      }
      if dangerDistance > 0.0 {
        timeToDanger := Some(ToFixed(dangerDistance / changeRate, 1));
      }
    }
    assessment := Assessment(station.stationId, station.name, currentLevel, predictedLevel, changeRate,
                             timeToWarning, timeToDanger);
  }

  method BuildRiskForecast(stations: seq<Station>, readings: seq<Reading>) returns (forecast: RiskForecast)
    ensures forecast == ForecastOf(stations, readings)
  {
    ghost var ws := Windows(stations, readings, RiskWindow);
    var highRisk: seq<Assessment> := [];
    var mediumRisk: seq<Assessment> := [];
    var lowRisk: seq<Assessment> := [];
    for i := 0 to |stations|
      invariant RiskForecast(highRisk, mediumRisk, lowRisk) == Fold(stations[..i], ws[..i])
    {
      var station := stations[i];
      assert stations[..i + 1][..i] == stations[..i] && ws[..i + 1][..i] == ws[..i];
      var window := Recent(readings, station.stationId, RiskWindow);
      assert window == ws[i];
      if |window| < MinReadings {
        continue;
      }
      var assessment := Assess(station, window);
      var timeToWarning := assessment.timeToWarning;
      if timeToWarning.Some? && timeToWarning.value < 3.0 {
        highRisk := highRisk + [assessment];
      } else if timeToWarning.Some? && timeToWarning.value < 6.0 {
        mediumRisk := mediumRisk + [assessment];
      } else {
        lowRisk := lowRisk + [assessment];
      }
    }
    assert stations[..|stations|] == stations && ws[..|stations|] == ws;
    forecast := RiskForecast(highRisk, mediumRisk, lowRisk);
  }

  predicate IsHigh(a: Assessment) { TierOf(a.timeToWarning) == High }
  predicate IsMedium(a: Assessment) { TierOf(a.timeToWarning) == Medium }
  predicate IsLow(a: Assessment) { TierOf(a.timeToWarning) == Low }

  /** The three lists are the assessments filtered by tier. */
  lemma {:induction false} FoldFilters(stations: seq<Station>, ws: seq<seq<Reading>>)
    requires |ws| == |stations|
    ensures var es := Assessments(stations, ws);
            Fold(stations, ws) == RiskForecast(Keep(es, IsHigh), Keep(es, IsMedium), Keep(es, IsLow))
  {
    if stations != [] {
      var n := |stations| - 1;
      FoldFilters(stations[..n], ws[..n]);
      var es := Assessments(stations[..n], ws[..n]);
      if |ws[n]| >= MinReadings {
        var a := AssessmentOf(stations[n], ws[n]);
        assert Assessments(stations, ws) == es + [a];
        assert Fold(stations, ws) == Push(Fold(stations[..n], ws[..n]), a);
        KeepSnoc(es, a, IsHigh);
        KeepSnoc(es, a, IsMedium);
        KeepSnoc(es, a, IsLow);
      }
    }
  }

  /** An assessment is listed exactly for each station with at least five of
      its twenty newest readings. */
  lemma {:induction false} AssessedStations(stations: seq<Station>, ws: seq<seq<Reading>>, a: Assessment)
    requires |ws| == |stations|
    ensures a in Assessments(stations, ws) <==>
            exists k :: 0 <= k < |stations| && |ws[k]| >= MinReadings && a == AssessmentOf(stations[k], ws[k])
  {
    if stations != [] {
      var n := |stations| - 1;
      AssessedStations(stations[..n], ws[..n], a);
      if exists k :: 0 <= k < |stations| && |ws[k]| >= MinReadings && a == AssessmentOf(stations[k], ws[k]) {
        var k :| 0 <= k < |stations| && |ws[k]| >= MinReadings && a == AssessmentOf(stations[k], ws[k]);
        if k < n {
          assert stations[..n][k] == stations[k] && ws[..n][k] == ws[k];
        }
      }
    }
  }

  /** Every assessed station is in exactly one tier. */
  lemma RiskPartition(stations: seq<Station>, rs: seq<Reading>)
    ensures var f := ForecastOf(stations, rs);
            var es := Assessments(stations, Windows(stations, rs, RiskWindow));
            multiset(f.highRisk) + multiset(f.mediumRisk) + multiset(f.lowRisk) == multiset(es)
            && |f.highRisk| + |f.mediumRisk| + |f.lowRisk| == |es|
  {
    var ws := Windows(stations, rs, RiskWindow);
    FoldFilters(stations, ws);
    KeepPartition3(Assessments(stations, ws), IsHigh, IsMedium, IsLow);
  }

  /** Each tier holds the estimates its band names: high below 3 hours,
      medium from 3 to below 6, low for no estimate or 6 hours and more. */
  lemma RiskBands(stations: seq<Station>, rs: seq<Reading>)
    ensures var f := ForecastOf(stations, rs);
            (forall k :: 0 <= k < |f.highRisk| ==>
               f.highRisk[k].timeToWarning.Some? && f.highRisk[k].timeToWarning.value < 3.0)
            && (forall k :: 0 <= k < |f.mediumRisk| ==>
               f.mediumRisk[k].timeToWarning.Some? && 3.0 <= f.mediumRisk[k].timeToWarning.value < 6.0)
            && (forall k :: 0 <= k < |f.lowRisk| ==>
               f.lowRisk[k].timeToWarning.None? || f.lowRisk[k].timeToWarning.value >= 6.0)
  {
    var ws := Windows(stations, rs, RiskWindow);
    FoldFilters(stations, ws);
    var f := ForecastOf(stations, rs);
    assert forall k :: 0 <= k < |f.highRisk| ==> IsHigh(f.highRisk[k]);
    assert forall k :: 0 <= k < |f.mediumRisk| ==> IsMedium(f.mediumRisk[k]);
    assert forall k :: 0 <= k < |f.lowRisk| ==> IsLow(f.lowRisk[k]);
  }

  /** A level that is not rising faster than 0.05 m/h has no estimate for
      either threshold and is low risk. */
  lemma SlowRiseIsLowRisk(s: Station, w: seq<Reading>)
    requires |w| >= MinReadings && TrendEstimator.ChangeRate(w) <= 0.05
    ensures AssessmentOf(s, w).timeToWarning == None && AssessmentOf(s, w).timeToDanger == None
    ensures TierOf(AssessmentOf(s, w).timeToWarning) == Low
  {
  }

  /** A station already at or above its warning level gets no time to
      warning and so is filed as low risk, even while it rises towards danger. */
  lemma AboveWarningIsLowRisk(s: Station, w: seq<Reading>)
    requires |w| >= MinReadings && w[0].waterLevel >= s.thresholds.warning
    ensures AssessmentOf(s, w).timeToWarning == None
    ensures TierOf(AssessmentOf(s, w).timeToWarning) == Low
    ensures s.thresholds.danger > w[0].waterLevel && TrendEstimator.ChangeRate(w) > 0.05 ==>
              AssessmentOf(s, w).timeToDanger.Some?
  {
  }

  /** What the tier says about the exact hours to warning: the estimate is
      that time rounded to a tenth, so below 2.95 hours is high, from 3.05 to
      below 5.95 medium, from 6.05 on low. */
  lemma TierFromExactTime(distance: real, rate: real)
    requires rate > 0.05 && distance > 0.0
    ensures distance / rate < 2.95 ==> TierOf(TimeTo(distance, rate)) == High
    ensures 3.05 <= distance / rate < 5.95 ==> TierOf(TimeTo(distance, rate)) == Medium
    ensures 6.05 <= distance / rate ==> TierOf(TimeTo(distance, rate)) == Low
  {
    ToFixedError(distance / rate, 1);
  }

  /** The rounding is what is compared: 2.96 hours to warning reads back as
      3.0 and is filed as medium, not high. */
  lemma RoundedEstimateDecidesTier()
    ensures TimeTo(2.96, 1.0) == Some(3.0)
    ensures TierOf(TimeTo(2.96, 1.0)) == Medium
  {
    assert 2.96 / 1.0 == 2.96;
    assert (2.96 * 10.0 + 0.5).Floor == 30;
  }

  /** With the warning level at or below the danger level, the danger
      estimate is never earlier than the warning estimate. */
  lemma DangerNotBeforeWarning(s: Station, w: seq<Reading>)
    requires |w| >= MinReadings && s.thresholds.warning <= s.thresholds.danger
    requires AssessmentOf(s, w).timeToWarning.Some?
    ensures AssessmentOf(s, w).timeToDanger.Some?
    ensures AssessmentOf(s, w).timeToWarning.value <= AssessmentOf(s, w).timeToDanger.value
  {
    var current := w[0].waterLevel;
    var rate := TrendEstimator.ChangeRate(w);
    DivideMonotone(s.thresholds.warning - current, s.thresholds.danger - current, rate);
    ToFixedMonotone((s.thresholds.warning - current) / rate, (s.thresholds.danger - current) / rate, 1);
  }

  /** The predicted level is the forecast point six hours ahead (index 5),
      the newest level projected at the window's rate and rounded to two
      digits, unless that rounds to 0, when the current level stands in. */
  lemma PredictedLevelIsSixHours(s: Station, w: seq<Reading>)
    requires |w| >= MinReadings
    ensures var p := Forecast(w, s.thresholds).predictions[5];
            var lvl := ToFixed(Projected(w[0].waterLevel, TrendEstimator.ChangeRate(w), 6), 2);
            p.hoursAhead == 6 && p.level == lvl
            && AssessmentOf(s, w).predictedLevel == (if lvl != 0.0 then lvl else w[0].waterLevel)
  {
    var rate := TrendEstimator.ChangeRate(w);
    assert Forecast(w, s.thresholds).predictions[5] == PointAt(Projected(w[0].waterLevel, rate, 6), s.thresholds, 6);
  }
}
