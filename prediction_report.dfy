/** GET /api/analytics/predictions: for each station with at least five of its
    twenty newest readings, its id, name, newest level and the six-hour
    forecast from that window, in station order. */
module PredictionReport {
  import opened Domain
  import opened ReadingQueries
  import opened ForecastEngine
  import TrendEstimator

  const PredictionWindow: nat := 20
  const MinReadings: nat := 5

  /** `{ stationId, name, currentLevel, ...prediction }`. */
  datatype StationPrediction = StationPrediction(stationId: string, name: string, currentLevel: real, prediction: Prediction)

  function EntryOf(s: Station, w: seq<Reading>): StationPrediction
    requires |w| >= MinReadings
  {
    StationPrediction(s.stationId, s.name, w[0].waterLevel, Forecast(w, s.thresholds))
  }

  /** The entries after the loop has visited `stations`. */
  function Entries(stations: seq<Station>, ws: seq<seq<Reading>>): seq<StationPrediction>
    requires |ws| == |stations|
  {
    if stations == [] then []
    else
      var n := |stations| - 1;
      var before := Entries(stations[..n], ws[..n]);
      if |ws[n]| >= MinReadings then before + [EntryOf(stations[n], ws[n])] else before
  }

  /** The response. */
  function PredictionsOf(stations: seq<Station>, rs: seq<Reading>): seq<StationPrediction>
  {
    Entries(stations, Windows(stations, rs, PredictionWindow))
  }

  method BuildPredictions(stations: seq<Station>, readings: seq<Reading>) returns (predictions: seq<StationPrediction>)
    ensures predictions == PredictionsOf(stations, readings)
  {
    ghost var ws := Windows(stations, readings, PredictionWindow);
    predictions := [];
    for i := 0 to |stations|
      invariant predictions == Entries(stations[..i], ws[..i])
    {
      var station := stations[i];
      assert stations[..i + 1][..i] == stations[..i] && ws[..i + 1][..i] == ws[..i];
      var window := Recent(readings, station.stationId, PredictionWindow);
      assert window == ws[i];
      if |window| < MinReadings {
        continue;
      }
      var prediction := CalculatePrediction(window, station);
      predictions := predictions + [StationPrediction(station.stationId, station.name, window[0].waterLevel, prediction)];
    }
    assert stations[..|stations|] == stations && ws[..|stations|] == ws;
  }

  /** Entry for station k of the list. */
  ghost predicate Listed(stations: seq<Station>, ws: seq<seq<Reading>>, k: int, e: StationPrediction)
    requires |ws| == |stations|
  {
    0 <= k < |stations| && |ws[k]| >= MinReadings && e == EntryOf(stations[k], ws[k])
  }

  /** The list holds one entry per station with at least five readings, in
      station order, and nothing else. */
  lemma {:induction false} EntriesAreQualifyingStations(stations: seq<Station>, ws: seq<seq<Reading>>, e: StationPrediction)
    requires |ws| == |stations|
    ensures |Entries(stations, ws)| <= |stations|
    ensures e in Entries(stations, ws) <==> exists k :: Listed(stations, ws, k, e)
  {
    if stations != [] {
      var n := |stations| - 1;
      EntriesAreQualifyingStations(stations[..n], ws[..n], e);
      if exists k :: Listed(stations, ws, k, e) {
        var k :| Listed(stations, ws, k, e);
        if k < n {
          assert Listed(stations[..n], ws[..n], k, e);
        }
      }
      if exists k :: Listed(stations[..n], ws[..n], k, e) {
        var k :| Listed(stations[..n], ws[..n], k, e);
        assert Listed(stations, ws, k, e);
      }
      if |ws[n]| >= MinReadings && e == EntryOf(stations[n], ws[n]) {
        assert Listed(stations, ws, n, e);
      }
    }
  }

  /** Every entry's forecast extrapolates the entry's own current level at
      the window's change rate: six hourly points whose statuses classify the
      exact projections. */
  lemma EntryForecast(s: Station, w: seq<Reading>, k: nat)
    requires |w| >= MinReadings && k < 6
    ensures var e := EntryOf(s, w);
            var exact := Projected(e.currentLevel, TrendEstimator.ChangeRate(w), k + 1);
            |e.prediction.predictions| == 6 && e.prediction.predictions[k].hoursAhead == k + 1
            && e.prediction.predictions[k].status == Classify(exact, s.thresholds)
  {
    ForecastShape(w, s.thresholds);
    ForecastPoint(w, s.thresholds, k);
  }
}
