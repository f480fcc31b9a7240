/** `calculatePrediction`: a linear extrapolation of the newest level at the
    window's change rate for each of the next six hours, each projection
    classified against the station's thresholds, with a confidence that falls
    by 10 points an hour down to a floor of 40. */
module ForecastEngine {
  import opened Domain
  import opened Numeric
  import TrendEstimator

  const Horizon: nat := 6

  datatype Trend = Rising | Falling | Stable

  /** The ±0.1 m/h noise band shared by the forecast and the trend report. */
  function TrendOf(rate: real): (t: Trend)
    ensures t == Rising <==> rate > 0.1
    ensures t == Falling <==> rate < -0.1
    ensures t == Stable <==> -0.1 <= rate <= 0.1
  {
    if rate > 0.1 then Rising else if rate < -0.1 then Falling else Stable
  }

  datatype PredictionPoint = PredictionPoint(hoursAhead: int, level: real, status: Status, confidence: int)

  datatype Prediction = Prediction(trend: Trend, changeRate: real, predictions: seq<PredictionPoint>)

  /** `Math.max(90 - i * 10, 40)`. */
  function Confidence(i: int): (c: int)
    ensures c >= 40
    ensures i >= 1 ==> c <= 80
  {
    if 90 - i * 10 > 40 then 90 - i * 10 else 40
  }

  /** The unrounded projection `current + changeRate * i`. */
  function Projected(current: real, rate: real, i: int): real
  {
    current + rate * (i as real)
  }

  /** The point pushed for hour i and unrounded projection `level`: its status
      classifies the projection, its level is the projection rounded to two digits. */
  function PointAt(level: real, t: Thresholds, i: int): PredictionPoint
  {
    PredictionPoint(i, ToFixed(level, 2), Classify(level, t), Confidence(i))
  }

  /** What `calculatePrediction(readings, station)` returns. */
  function Forecast(rs: seq<Reading>, t: Thresholds): Prediction
    requires |rs| > 0
  {
    var rate := TrendEstimator.ChangeRate(rs);
    Prediction(TrendOf(rate), ToFixed(rate, 3),
      seq(Horizon, k requires 0 <= k < Horizon => PointAt(Projected(rs[0].waterLevel, rate, k + 1), t, k + 1)))
  }

  method PredictPoint(current: real, changeRate: real, thresholds: Thresholds, i: int) returns (point: PredictionPoint)
    ensures point == PointAt(Projected(current, changeRate, i), thresholds, i)
  {
    var predictedLevel := current + changeRate * (i as real);
    var status := Normal;
    var confidence := 90 - i * 10;
    if predictedLevel >= thresholds.danger {
      status := Danger;
    } else if predictedLevel >= thresholds.warning {
      status := Warning;
    }
    point := PredictionPoint(i, ToFixed(predictedLevel, 2), status, if confidence > 40 then confidence else 40);
  }

  method CalculatePrediction(readings: seq<Reading>, station: Station) returns (result: Prediction)
    requires |readings| > 0
    ensures result == Forecast(readings, station.thresholds)
  {
    var current := readings[0].waterLevel;
    var changeRate := TrendEstimator.CalculateChangeRate(readings);
    var predictions: seq<PredictionPoint> := [];
    for i := 1 to Horizon + 1
      invariant |predictions| == i - 1
      invariant forall k :: 0 <= k < i - 1 ==> predictions[k] == PointAt(Projected(current, changeRate, k + 1), station.thresholds, k + 1)
    {
      var point := PredictPoint(current, changeRate, station.thresholds, i);
      predictions := predictions + [point];
    }
    var trend := if changeRate > 0.1 then Rising else if changeRate < -0.1 then Falling else Stable;
    result := Prediction(trend, ToFixed(changeRate, 3), predictions);
  }

  /** Exactly six points, one per hour 1..6, with confidences 80, 70, 60, 50, 40, 40. */
  lemma ForecastShape(rs: seq<Reading>, t: Thresholds)
    requires |rs| > 0
    ensures |Forecast(rs, t).predictions| == 6
    ensures forall k :: 0 <= k < 6 ==> Forecast(rs, t).predictions[k].hoursAhead == k + 1
    ensures [Forecast(rs, t).predictions[0].confidence, Forecast(rs, t).predictions[1].confidence,
             Forecast(rs, t).predictions[2].confidence, Forecast(rs, t).predictions[3].confidence,
             Forecast(rs, t).predictions[4].confidence, Forecast(rs, t).predictions[5].confidence]
            == [80, 70, 60, 50, 40, 40]
  {
    var f := Forecast(rs, t);
    var rate := TrendEstimator.ChangeRate(rs);
    forall k | 0 <= k < 6
      ensures f.predictions[k] == PointAt(Projected(rs[0].waterLevel, rate, k + 1), t, k + 1)
    {
    }
  }

  /** A point's status classifies the unrounded projection, and its level is
      within half a centimetre of it. */
  lemma PointFaithful(level: real, t: Thresholds, i: int)
    ensures PointAt(level, t, i).status == Classify(level, t)
    ensures level - 0.005 <= PointAt(level, t, i).level <= level + 0.005
  {
    ToFixedError(level, 2);
  }

  /** Point k of the forecast classifies the projection of the newest level
      (k + 1) hours ahead at the window's change rate, and reports that
      projection to within half a centimetre. */
  lemma ForecastPoint(rs: seq<Reading>, t: Thresholds, k: nat)
    requires |rs| > 0 && k < 6
    ensures var exact := Projected(rs[0].waterLevel, TrendEstimator.ChangeRate(rs), k + 1);
            var p := Forecast(rs, t).predictions[k];
            p.status == Classify(exact, t) && exact - 0.005 <= p.level <= exact + 0.005
  {
    var exact := Projected(rs[0].waterLevel, TrendEstimator.ChangeRate(rs), k + 1);
    assert Forecast(rs, t).predictions[k] == PointAt(exact, t, k + 1);
    PointFaithful(exact, t, k + 1);
  }

  /** The trend label and the reported rate both come from the window's change rate. */
  lemma ForecastTrend(rs: seq<Reading>, t: Thresholds)
    requires |rs| > 0
    ensures Forecast(rs, t).trend == Rising <==> TrendEstimator.ChangeRate(rs) > 0.1
    ensures Forecast(rs, t).trend == Falling <==> TrendEstimator.ChangeRate(rs) < -0.1
    ensures var r := TrendEstimator.ChangeRate(rs);
            r - 0.0005 <= Forecast(rs, t).changeRate <= r + 0.0005
  {
    ToFixedError(TrendEstimator.ChangeRate(rs), 3);
  }

  /** Confidence never rises with the horizon and never leaves [40, 90]. */
  lemma ConfidenceDecays(i: int, j: int)
    requires 0 <= i <= j
    ensures 40 <= Confidence(j) <= Confidence(i) <= 90
  {
  }
}
