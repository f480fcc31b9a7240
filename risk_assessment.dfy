/** The dashboard's overall risk: any station in danger makes it high, else
    two or more warnings medium, one warning moderate and none low, each with
    a colour, a gauge percentage and a list of recommended actions. */
module RiskAssessment {
  import opened Domain
  import opened StationViews

  datatype RiskLevel = High | Medium | Moderate | Low

  datatype OverallRisk = OverallRisk(level: RiskLevel, color: string, percentage: int)

  /** `calculateOverallRisk`. */
  function CalculateOverallRisk(stations: seq<StationView>): (r: OverallRisk)
    ensures r.level == High <==> CountWith(stations, Danger) > 0
    ensures r.level == Medium <==> CountWith(stations, Danger) == 0 && CountWith(stations, Warning) >= 2
    ensures r.level == Moderate <==> CountWith(stations, Danger) == 0 && CountWith(stations, Warning) == 1
    ensures r.level == Low <==> CountWith(stations, Danger) == 0 && CountWith(stations, Warning) == 0
  {
    var dangerCount := CountWith(stations, Danger);
    var warningCount := CountWith(stations, Warning);
    if dangerCount > 0 then OverallRisk(High, "red", 85)
    else if warningCount >= 2 then OverallRisk(Medium, "orange", 60)
    else if warningCount == 1 then OverallRisk(Moderate, "yellow", 40)
    else OverallRisk(Low, "green", 15)
  }

  /** `getRecommendations`: the actions listed for each level; `Low` is the
      `default` branch. */
  function Recommendations(level: RiskLevel): seq<string>
  {
    match level
    case High => ["Evacuate low-lying areas immediately", "Close roads near affected rivers",
                  "Alert emergency response teams", "Monitor stations every 5 minutes"]
    case Medium => ["Issue flood watch for affected areas", "Prepare emergency response teams",
                    "Monitor water levels closely", "Alert nearby communities"]
    case Moderate => ["Continue routine monitoring", "Keep emergency teams on standby",
                      "Review evacuation procedures"]
    case Low => ["Normal operations - continue monitoring", "Maintain equipment and sensors",
                 "Review historical data patterns"]
  }

  /** How severe a level is, from 0 (low) to 3 (high). */
  function Rank(level: RiskLevel): nat
  {
    match level
    case Low => 0
    case Moderate => 1
    case Medium => 2
    case High => 3
  }

  /** One station in danger is enough for high risk at 85 %, however many
      warnings there are. */
  lemma DangerDominates(stations: seq<StationView>, k: int)
    requires 0 <= k < |stations| && HasStatus(Danger)(stations[k])
    ensures CalculateOverallRisk(stations) == OverallRisk(High, "red", 85)
  {
    CountedStation(stations, Danger, k);
  }

  /** Without a station in danger the warnings decide: two or more give
      medium at 60 %, exactly one moderate at 40 %, none low at 15 %. */
  lemma WarningsDecide(stations: seq<StationView>)
    requires forall k :: 0 <= k < |stations| ==> !HasStatus(Danger)(stations[k])
    ensures var w := CountWith(stations, Warning);
            CalculateOverallRisk(stations)
            == if w >= 2 then OverallRisk(Medium, "orange", 60)
               else if w == 1 then OverallRisk(Moderate, "yellow", 40)
               else OverallRisk(Low, "green", 15)
  {
    UncountedStatus(stations, Danger);
  }

  /** A station without a current reading counts as neither danger nor
      warning: adding it changes nothing. */
  lemma NoReadingNoRisk(stations: seq<StationView>, s: StationView)
    requires s.currentReading.None?
    ensures CalculateOverallRisk(stations + [s]) == CalculateOverallRisk(stations)
  {
    CountSnoc(stations, s, Danger);
    CountSnoc(stations, s, Warning);
  }

  /** Adding a station never lowers the risk. */
  lemma MoreStationsNoLowerRisk(stations: seq<StationView>, s: StationView)
    ensures Rank(CalculateOverallRisk(stations).level) <= Rank(CalculateOverallRisk(stations + [s]).level)
  {
    CountSnoc(stations, s, Danger);
    CountSnoc(stations, s, Warning);
  }

  /** The gauge percentage orders the levels as their severity does:
      15 < 40 < 60 < 85. */
  lemma PercentageFollowsSeverity(a: seq<StationView>, b: seq<StationView>)
    ensures var ra := CalculateOverallRisk(a);
            var rb := CalculateOverallRisk(b);
            (ra.percentage < rb.percentage <==> Rank(ra.level) < Rank(rb.level))
            && (ra.percentage == rb.percentage <==> ra.level == rb.level)
  {
  }

  /** Four actions for high and medium risk, three for moderate and low. */
  lemma RecommendationCounts(level: RiskLevel)
    ensures |Recommendations(level)| == if level == High || level == Medium then 4 else 3
  {
  }
}
