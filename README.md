# Flood alert system: a Dafny model of its analytics and dashboard rules

The flood alert system collects water-level readings from river gauging
stations, classifies each reading against the station's warning and danger
thresholds, and derives reports from the stored readings. This project
models, and proves properties of:

- **The reading endpoints** (`readingRoutes.js`). POST classifies and stores
  one reading for a known station and stamps the station. GET returns a
  station's newest readings, or everyone's, up to a limit that defaults to
  100. `ReadingRoutes.ReadingStore` is a class whose two fields, a station
  map and a reading sequence, are the collections the handlers change.
- **The analytics helpers** (`analyticsRoutes.js`):
  - the time-weighted change rate of a reading window (`TrendEstimator`);
  - the six-hour linear forecast with a decaying confidence
    (`ForecastEngine`);
  - Pearson's correlation of two level series (`CorrelationAnalyzer`).
- **The five analytics reports**, written as loop methods proved equal to
  recursive specification functions:
  - predictions (`PredictionReport`);
  - trend buckets and the system trend (`TrendReport`);
  - significant station correlations (`CorrelationReport`);
  - risk tiers by time to threshold (`RiskForecaster`);
  - the 24-hour statistics roll-up (`StatisticsReport`).
- **The dashboard derivations** of the frontend, written as functions:
  - the overall risk and its recommendations (`RiskAssessment`);
  - the summary tiles (`StatsOverview`);
  - the status counts and alert list (`StatusCard`);
  - the activity log (`RecentActivity`);
  - the marker colours and the "updated … ago" label (`MapView`);
  - the history chart window (`HistoryChart`);
  - the station page figures (`StationDetail`).

Modelling conventions:

- Levels, rates and battery charges are exact `real`s. Timestamps are
  integer milliseconds. Every operation that reads the clock takes the
  current time `now` as a parameter. POST reads the clock twice: once for
  the schema default `timestamp: Date.now` when the reading is built
  (readingRoutes.js:26-31) and once for `station.lastUpdated = new Date()`
  after the save (readingRoutes.js:36). The model uses the one `now` for
  both, so the reading's timestamp and the station's `lastUpdated` are
  equal, where in the program the second may be a few milliseconds later.
- The database is in-memory sequences in insertion order. A query
  `find({stationId}).sort({timestamp: -1}).limit(n)` is the station's
  readings sorted newest first by a stable sort, then cut to `n`
  (`ReadingQueries.Recent`).
- `x.toFixed(d)` is modelled as the number that string reads back as: the
  multiple of 10^-d nearest to x, halves rounded away from zero
  (`Numeric.ToFixed`). `Math.round` is floor(x + 0.5) (`Numeric.MathRound`).
  The model keeps the places where the code compares or returns a rounded
  value. One example is the risk tier's `timeToWarning < 3` test on a
  one-decimal string.
- `Math.sqrt` is a function parameter. The properties that need a true
  square root assume that it returns the non-negative root of a
  non-negative argument (`CorrelationAnalyzer.IsSqrt`).
- A JavaScript `null` or `undefined` becomes `None` of `Domain.Option`. The
  statistics' `minWaterLevel.level` starts at `Infinity`, which the JSON
  response carries as `null`, so it is `None` until a station reports.

Three details of the code that the model keeps as written:

- The risk forecast's `predictedLevel` is `predictions[5]`, the +6 h point.
- The statistics' representative reading of a station is
  `readings[readings.length - 1]`, the last element of its 24-hour window
  (`StatisticsReport.Latest`). That query has no `sort`, so the window's
  order is an assumption of the model (insertion order); see
  `StatisticsReport.Latest` under "## Left out".
- The risk tier tests the one-decimal `timeToWarning` string against 3 and
  6, so 2.96 hours reads back as 3.0 and is filed as medium risk
  (`RiskForecaster.RoundedEstimateDecidesTier`).

## Model

| member | source | states |
|---|---|---|
| Domain.Classify | flood-alert-system/backend/routes/readingRoutes.js:17-23 | DANGER exactly when the level is at or above danger; WARNING exactly when it is below danger and at or above warning; NORMAL exactly when it is below both |
| Domain.ClassifyBoundaries | flood-alert-system/backend/routes/readingRoutes.js:19-21 | a level equal to the warning (danger) threshold is WARNING (DANGER); just below warning is NORMAL |
| Domain.ClassifyMonotone | flood-alert-system/backend/routes/readingRoutes.js:18-23 | with warning ≤ danger, a higher level never gets a less severe status |
| Domain.StatusNamesDistinct | flood-alert-system/backend/routes/readingRoutes.js:18-22 | the three stored status strings differ, so the status can be read back from its name |
| ReadingQueries.RecentWindow | flood-alert-system/backend/routes/readingRoutes.js:55-57 | the window holds min(limit, number of the station's readings) readings, each of that station and stored, newest first |
| ReadingQueries.RecentIsNewest | flood-alert-system/backend/routes/readingRoutes.js:55-57 | a reading of the station left out of the window is no newer than any reading in it |
| ReadingQueries.SinceMember | flood-alert-system/backend/routes/analyticsRoutes.js:229-232 | the 24-hour query returns exactly the station's stored readings at or after the cutoff |
| ReadingRoutes.Outcome | flood-alert-system/backend/routes/readingRoutes.js:9-46 | 404 exactly for an id with no station; 400 exactly for a known station and a body the reading schema rejects; a created reading has the posted id and the current time |
| ReadingRoutes.EffectiveLimit | flood-alert-system/backend/routes/readingRoutes.js:53 | the limit the query runs with is always at least one |
| ReadingRoutes.DefaultLimitApplies | flood-alert-system/backend/routes/readingRoutes.js:53 | a missing, unparseable (NaN) or zero limit gives 100, and a positive limit is kept as given (the same rule serves line 68) |
| ReadingRoutes.ReadingStore.Post | flood-alert-system/backend/routes/readingRoutes.js:7-47 | answers as `Outcome` does; on 201 it appends exactly the returned reading and sets only that station's `lastUpdated` to now; on 404 or 400 both collections are unchanged |
| ReadingRoutes.ReadingStore.Get | flood-alert-system/backend/routes/readingRoutes.js:50-63 | at most `limit` readings, all of the requested station and stored, newest first |
| ReadingRoutes.ReadingStore.GetAll | flood-alert-system/backend/routes/readingRoutes.js:66-77 | min(limit, all readings) readings, newest first |
| ReadingRoutes.UnknownStationRejected | flood-alert-system/backend/routes/readingRoutes.js:12-15 | the answer is 404 if and only if the station id is unknown |
| ReadingRoutes.CreatedAlertIsClassification | flood-alert-system/backend/routes/readingRoutes.js:17-43 | for a known station and a valid body the reading is created; its status equals the returned `alert`, which is the threshold rule applied to the posted level, and it stores the posted level and battery |
| ReadingRoutes.PostedReadingIsListed | flood-alert-system/backend/routes/readingRoutes.js:26-57 | a stored reading appears in the next GET for its station when the station had fewer than `limit` readings before |
| ReadingRoutes.NewestPostedComesFirst | flood-alert-system/backend/routes/readingRoutes.js:26-57 | a stored reading newer than all of its station's earlier readings is first in the next GET for that station |
| TrendEstimator.CalculateChangeRate | flood-alert-system/backend/routes/analyticsRoutes.js:304-321 | the loop returns the total counted level change over the total counted hours, or 0 (`ChangeRate`) |
| TrendEstimator.ShortWindowRateIsZero | flood-alert-system/backend/routes/analyticsRoutes.js:305 | fewer than two readings give rate 0 |
| TrendEstimator.NoPositiveGapAddsNothing | flood-alert-system/backend/routes/analyticsRoutes.js:310-318 | pairs whose time gap is not positive add neither level change nor time |
| TrendEstimator.NoPositiveGapRateIsZero | flood-alert-system/backend/routes/analyticsRoutes.js:310-320 | when no adjacent pair has a positive gap the rate is 0 |
| TrendEstimator.Telescopes | flood-alert-system/backend/routes/analyticsRoutes.js:310-318 | with every gap positive the sums telescope to the level and time between the newest reading and reading i |
| TrendEstimator.EndToEndSlope | flood-alert-system/backend/routes/analyticsRoutes.js:304-321 | for a strictly time-ordered window the rate is (newest − oldest level) / (hours between them) |
| TrendEstimator.ConstantRateReproduced | flood-alert-system/backend/routes/analyticsRoutes.js:310-320 | a window moving at a constant r over its positive gaps gives rate r, whatever duplicates it holds |
| TrendEstimator.DuplicateTimestampSkipped | flood-alert-system/backend/routes/analyticsRoutes.js:312-317 | a duplicate timestamp is skipped: the rate is exactly the slope of the remaining valid pair |
| ForecastEngine.TrendOf | flood-alert-system/backend/routes/analyticsRoutes.js:297 | rising iff rate > 0.1, falling iff rate < −0.1, stable iff within [−0.1, 0.1] |
| ForecastEngine.Confidence | flood-alert-system/backend/routes/analyticsRoutes.js:280-292 | never below the floor 40, and at most 80 from the first hour on; the exact values per hour are stated by `ForecastEngine.ForecastShape` |
| ForecastEngine.PredictPoint | flood-alert-system/backend/routes/analyticsRoutes.js:277-293 | the point pushed for hour i is `PointAt` of the projection current + rate·i |
| ForecastEngine.CalculatePrediction | flood-alert-system/backend/routes/analyticsRoutes.js:270-301 | the loop builds exactly `Forecast(readings, thresholds)` |
| ForecastEngine.ForecastShape | flood-alert-system/backend/routes/analyticsRoutes.js:275-294 | exactly six points, hoursAhead 1..6, confidences 80, 70, 60, 50, 40, 40 |
| ForecastEngine.PointFaithful | flood-alert-system/backend/routes/analyticsRoutes.js:279-290 | a point's status classifies the unrounded projection, and its level is that projection to within 0.005 |
| ForecastEngine.ForecastPoint | flood-alert-system/backend/routes/analyticsRoutes.js:276-293 | point k classifies the newest level projected k + 1 hours ahead at the window's rate, and reports it to within 0.005 |
| ForecastEngine.ForecastTrend | flood-alert-system/backend/routes/analyticsRoutes.js:296-299 | the trend label follows the ±0.1 band of the window's rate, and the reported rate is that rate to within 0.0005 |
| ForecastEngine.ConfidenceDecays | flood-alert-system/backend/routes/analyticsRoutes.js:280-292 | confidence never rises with the horizon and stays in [40, 90] |
| CorrelationAnalyzer.DeviationSums | flood-alert-system/backend/routes/analyticsRoutes.js:335-341 | the loop's three accumulators are the cross sum and the two sums of squared deviations over the first n positions |
| CorrelationAnalyzer.CalculateCorrelation | flood-alert-system/backend/routes/analyticsRoutes.js:324-345 | the method returns `Correlation(arr1, arr2, sqrt)` |
| CorrelationAnalyzer.ShortSeriesGiveZero | flood-alert-system/backend/routes/analyticsRoutes.js:325-326 | fewer than three paired points give 0 |
| CorrelationAnalyzer.CorrelationSymmetric | flood-alert-system/backend/routes/analyticsRoutes.js:324-345 | the coefficient does not depend on the order of its arguments |
| CorrelationAnalyzer.CauchySchwarz | flood-alert-system/backend/routes/analyticsRoutes.js:331-341 | numerator² ≤ sum1 · sum2 |
| CorrelationAnalyzer.CorrelationBounded | flood-alert-system/backend/routes/analyticsRoutes.js:324-345 | with a true square root the result lies in [−1, 1] for every input |
| CorrelationAnalyzer.ZeroSpreadGivesZero | flood-alert-system/backend/routes/analyticsRoutes.js:343-344 | a series with zero variance over the first n points gives 0, in either argument position |
| CorrelationAnalyzer.ConstantSeriesGivesZero | flood-alert-system/backend/routes/analyticsRoutes.js:328-344 | a station whose levels did not move correlates with nothing |
| CorrelationAnalyzer.LockStep | flood-alert-system/backend/routes/analyticsRoutes.js:324-345 | series with b = c ± a and a non-zero spread give exactly ±1 |
| CorrelationAnalyzer.IdenticalSeriesGiveOne | flood-alert-system/backend/routes/analyticsRoutes.js:324-345 | a series with spread correlates 1 with itself |
| CorrelationReport.LoadSeries | flood-alert-system/backend/routes/analyticsRoutes.js:98-108 | the first loop builds each station's name and twenty newest levels, in station order |
| CorrelationReport.PairUp | flood-alert-system/backend/routes/analyticsRoutes.js:110-131 | the nested loops produce `Upto(…)`, the significant pairs i < j in visiting order |
| CorrelationReport.BuildCorrelations | flood-alert-system/backend/routes/analyticsRoutes.js:93-137 | the handler returns `CorrelationsOf(stations, readings, sqrt)` |
| CorrelationReport.Label | flood-alert-system/backend/routes/analyticsRoutes.js:127 | only the line-127 rule, Strong iff the magnitude exceeds 0.7; `CorrelationReport.ReportedStrength` states it of every reported pair |
| CorrelationReport.ReportMember | flood-alert-system/backend/routes/analyticsRoutes.js:111-131 | a pair is reported exactly when it is the pair of stations i < j whose correlation exceeds 0.3 in magnitude |
| CorrelationReport.ReportedPair | flood-alert-system/backend/routes/analyticsRoutes.js:112-128 | every reported pair is built from two stations i < j and their correlation |
| CorrelationReport.SignificantPairReported | flood-alert-system/backend/routes/analyticsRoutes.js:122-129 | every pair i < j with magnitude above 0.3 is reported |
| CorrelationReport.ReportSorted | flood-alert-system/backend/routes/analyticsRoutes.js:133 | the response is a permutation of the unsorted pairs in non-increasing magnitude |
| CorrelationReport.ReportedStrength | flood-alert-system/backend/routes/analyticsRoutes.js:122-127 | every reported pair has magnitude above 0.3, is Strong exactly above 0.7, and has magnitude at most 1 with a true square root |
| CorrelationReport.ShortSeriesNeverPaired | flood-alert-system/backend/routes/analyticsRoutes.js:117-122 | both stations of a reported pair have at least three readings |
| CorrelationReport.NoSelfPairs | flood-alert-system/backend/routes/analyticsRoutes.js:112-115 | with unique station ids no station is paired with itself |
| CorrelationReport.ReportSize | flood-alert-system/backend/routes/analyticsRoutes.js:112-113 | at most n(n − 1)/2 pairs for n stations |
| PredictionReport.BuildPredictions | flood-alert-system/backend/routes/analyticsRoutes.js:7-34 | the handler returns `PredictionsOf(stations, readings)` |
| PredictionReport.EntriesAreQualifyingStations | flood-alert-system/backend/routes/analyticsRoutes.js:12-28 | an entry is listed exactly for each station with at least five of its twenty newest readings, at most one per station |
| PredictionReport.EntryForecast | flood-alert-system/backend/routes/analyticsRoutes.js:21-27 | each entry's six points project the entry's own current level at the window's rate and classify those projections |
| TrendReport.SystemTrend | flood-alert-system/backend/routes/analyticsRoutes.js:80-84 | rising iff the mean rate exceeds 0.15, falling iff it is below −0.15 |
| TrendReport.Visit | flood-alert-system/backend/routes/analyticsRoutes.js:56-75 | one turn of the loop is `Step`: skip a short window, else add the rate and file the entry by its band |
| TrendReport.BuildTrends | flood-alert-system/backend/routes/analyticsRoutes.js:37-90 | the handler returns `TrendsOf(stations, readings)` |
| TrendReport.Summarize | flood-alert-system/backend/routes/analyticsRoutes.js:78-84 | the mean over the counted stations (0 without any) and the system trend it selects |
| TrendReport.FoldFilters | flood-alert-system/backend/routes/analyticsRoutes.js:51-76 | the loop's lists are the qualifying entries filtered by band; its total and count are their rate sum and number |
| TrendReport.TrendsAreFilters | flood-alert-system/backend/routes/analyticsRoutes.js:48-84 | the report's lists are those filters and its mean rate is the entries' mean |
| TrendReport.EntriesAreQualifyingStations | flood-alert-system/backend/routes/analyticsRoutes.js:51-67 | an entry exists exactly for each station whose window has at least five readings |
| TrendReport.EntriesAtMostStations | flood-alert-system/backend/routes/analyticsRoutes.js:56 | at most one entry per station |
| TrendReport.ReportedStations | flood-alert-system/backend/routes/analyticsRoutes.js:51-67 | in the report, an entry exists exactly for each station with at least five of its ten newest readings |
| TrendReport.BucketsPartitionEntries | flood-alert-system/backend/routes/analyticsRoutes.js:69-75 | every counted station lands in exactly one list |
| TrendReport.BucketsHoldTheirBand | flood-alert-system/backend/routes/analyticsRoutes.js:69-75 | rising holds rates > 0.1, falling < −0.1, stable within [−0.1, 0.1] |
| TrendReport.NoQualifyingStation | flood-alert-system/backend/routes/analyticsRoutes.js:78-84 | with no qualifying station the lists are empty, the mean is 0 and the system stable |
| TrendReport.MeanRateBounds | flood-alert-system/backend/routes/analyticsRoutes.js:78 | the mean rate lies between any common lower and upper bound of the entries' rates |
| TrendReport.SystemTrendNeedsStation | flood-alert-system/backend/routes/analyticsRoutes.js:69-84 | a rising (falling) system has at least one rising (falling) station |
| RiskForecaster.TimeTo | flood-alert-system/backend/routes/analyticsRoutes.js:172-181 | an estimate exists exactly when the rate exceeds 0.05 and the threshold is still above the level; it is then distance / rate to within 0.05 h (one decimal) and never negative |
| RiskForecaster.Assess | flood-alert-system/backend/routes/analyticsRoutes.js:157-182 | the assessment built for a station is `AssessmentOf(station, window)` |
| RiskForecaster.BuildRiskForecast | flood-alert-system/backend/routes/analyticsRoutes.js:140-198 | the handler returns `ForecastOf(stations, readings)` |
| RiskForecaster.FoldFilters | flood-alert-system/backend/routes/analyticsRoutes.js:184-191 | the three lists are the assessments filtered by tier, in station order |
| RiskForecaster.AssessedStations | flood-alert-system/backend/routes/analyticsRoutes.js:150-169 | an assessment is listed exactly for each station with at least five of its twenty newest readings |
| RiskForecaster.RiskPartition | flood-alert-system/backend/routes/analyticsRoutes.js:184-191 | every assessed station is in exactly one tier |
| RiskForecaster.RiskBands | flood-alert-system/backend/routes/analyticsRoutes.js:185-191 | high holds estimates < 3, medium estimates in [3, 6), low no estimate or ≥ 6 |
| RiskForecaster.SlowRiseIsLowRisk | flood-alert-system/backend/routes/analyticsRoutes.js:172-191 | a rate of at most 0.05 m/h gives no estimates and low risk |
| RiskForecaster.AboveWarningIsLowRisk | flood-alert-system/backend/routes/analyticsRoutes.js:173-191 | a level at or above warning gets no time to warning and so is low risk, though a danger estimate may exist |
| RiskForecaster.TierFromExactTime | flood-alert-system/backend/routes/analyticsRoutes.js:177-187 | below 2.95 exact hours is high, [3.05, 5.95) medium, from 6.05 on low |
| RiskForecaster.RoundedEstimateDecidesTier | flood-alert-system/backend/routes/analyticsRoutes.js:177-187 | 2.96 hours reads back as 3.0 and is medium, not high |
| RiskForecaster.DangerNotBeforeWarning | flood-alert-system/backend/routes/analyticsRoutes.js:172-181 | with warning ≤ danger a warning estimate implies a danger estimate no earlier than it |
| RiskForecaster.PredictedLevelIsSixHours | flood-alert-system/backend/routes/analyticsRoutes.js:165 | the predicted level is the +6 h point, the rounded projection, or the current level when that rounds to 0 |
| StatisticsReport.CountAlerts | flood-alert-system/backend/routes/analyticsRoutes.js:252-254 | each status counter grows by the number of the window's readings with that status |
| StatisticsReport.Visit | flood-alert-system/backend/routes/analyticsRoutes.js:234-257 | one turn of the loop is `Step` of the station and its 24-hour window |
| StatisticsReport.BuildStatistics | flood-alert-system/backend/routes/analyticsRoutes.js:201-267 | the handler returns `StatisticsOf(stations, readings, now)` |
| StatisticsReport.Summarize | flood-alert-system/backend/routes/analyticsRoutes.js:260-261 | the response is `Finish` of the loop's state: the two averages over active stations, 0 without any |
| StatisticsReport.StatusesSplit | flood-alert-system/backend/routes/analyticsRoutes.js:252-254 | the three status counts of a window add up to its length |
| StatisticsReport.FoldCounts | flood-alert-system/backend/routes/analyticsRoutes.js:228-258 | active + inactive = stations, the averaging count is the active count, the alert history counts every reading once, and no station is active exactly when every window is empty |
| StatisticsReport.FoldMaximum | flood-alert-system/backend/routes/analyticsRoutes.js:244-246 | the maximum is ≥ 0 and ≥ every active station's representative level; it names a station only once a level above 0 was seen, and that station reported it |
| StatisticsReport.FoldMinimum | flood-alert-system/backend/routes/analyticsRoutes.js:247-249 | the minimum exists exactly when a station is active, is ≤ every representative level, and is held by a station that reported it |
| StatisticsReport.FoldLevelTotal | flood-alert-system/backend/routes/analyticsRoutes.js:239-242 | with representative levels in [lo, hi] the level total lies in [count·lo, count·hi] |
| StatisticsReport.FoldBatteryTotal | flood-alert-system/backend/routes/analyticsRoutes.js:241 | with stored batteries in [0, 100] the battery total lies in [0, 100·count] |
| StatisticsReport.CountsAddUp | flood-alert-system/backend/routes/analyticsRoutes.js:207-258 | active + inactive = totalStations = number of stations, and the alert history sums to totalReadings |
| StatisticsReport.ActiveMeansRecentReading | flood-alert-system/backend/routes/analyticsRoutes.js:229-237 | a station is active exactly when it stored a reading at or after now − 24 h |
| StatisticsReport.QuietDay | flood-alert-system/backend/routes/analyticsRoutes.js:206-261 | with no reading in 24 h the averages are 0, the maximum is 0 with no station and the minimum null |
| StatisticsReport.Extremes | flood-alert-system/backend/routes/analyticsRoutes.js:210-249 | the extremes bound every active representative level and are held by active stations; the maximum names no station exactly when it is 0 |
| StatisticsReport.AverageBetweenExtremes | flood-alert-system/backend/routes/analyticsRoutes.js:240-260 | the mean level lies between the minimum and the maximum, give or take the two-digit rounding |
| StatisticsReport.BatteryInRange | flood-alert-system/backend/routes/analyticsRoutes.js:241-261 | with stored batteries in [0, 100] the mean battery is a whole number in [0, 100] |
| Numeric.MathRound | flood-alert-system/backend/routes/analyticsRoutes.js:261 | the result is within half a unit of its argument |
| Numeric.ToFixedError | flood-alert-system/backend/routes/analyticsRoutes.js:290 | rounding to d digits moves a value by at most half a unit in the last place |
| RiskAssessment.CalculateOverallRisk | flood-alert-system/frontend/src/components/RiskAssessment.jsx:4-12 | HIGH iff a station is in danger; MEDIUM iff none is and at least two warn; MODERATE iff exactly one warns; LOW iff neither |
| RiskAssessment.DangerDominates | flood-alert-system/frontend/src/components/RiskAssessment.jsx:5-8 | one danger station gives HIGH/red/85 however many warnings there are |
| RiskAssessment.WarningsDecide | flood-alert-system/frontend/src/components/RiskAssessment.jsx:6-11 | without danger: ≥ 2 warnings MEDIUM/60, exactly 1 MODERATE/40, none LOW/15 |
| RiskAssessment.NoReadingNoRisk | flood-alert-system/frontend/src/components/RiskAssessment.jsx:5-6 | a station without a current reading never changes the risk |
| RiskAssessment.MoreStationsNoLowerRisk | flood-alert-system/frontend/src/components/RiskAssessment.jsx:5-11 | adding a station never lowers the risk level |
| RiskAssessment.PercentageFollowsSeverity | flood-alert-system/frontend/src/components/RiskAssessment.jsx:8-11 | the percentage orders the levels strictly as their severity does |
| RiskAssessment.RecommendationCounts | flood-alert-system/frontend/src/components/RiskAssessment.jsx:16-45 | four actions for HIGH and MEDIUM, three for MODERATE and LOW |
| StatsOverview.ActiveStations | flood-alert-system/frontend/src/components/StatsOverview.jsx:5-9 | never more than the number of stations; which stations count is stated by `StatsOverview.ActiveMeansUpdatedWithinHour` |
| StatsOverview.HighRiskAreas | flood-alert-system/frontend/src/components/StatsOverview.jsx:17-19 | never more than the number of stations; its value is stated by `StatsOverview.HighRiskIsDangerPlusWarning` |
| StatsOverview.ActiveMeansUpdatedWithinHour | flood-alert-system/frontend/src/components/StatsOverview.jsx:5-9 | a station is counted active exactly when now − lastUpdated < 3 600 000 ms |
| StatsOverview.EmptyOverview | flood-alert-system/frontend/src/components/StatsOverview.jsx:4-19 | an empty list shows 0 everywhere (the `|| 1` divisor) |
| StatsOverview.AverageLevelBetween | flood-alert-system/frontend/src/components/StatsOverview.jsx:11-12 | when every station reports a level in [lo, hi] the mean is in [lo, hi] |
| StatsOverview.AverageBatteryInRange | flood-alert-system/frontend/src/components/StatsOverview.jsx:14-15 | with batteries in [0, 100] the mean battery is in [0, 100] |
| StatsOverview.MissingReadingCountsAsZero | flood-alert-system/frontend/src/components/StatsOverview.jsx:11-12 | a station without a reading adds 0 to the level total and 1 to the divisor |
| StatsOverview.HighRiskIsDangerPlusWarning | flood-alert-system/frontend/src/components/StatsOverview.jsx:17-19 | the tile counts danger stations plus warning stations |
| StatusCard.AlertStations | flood-alert-system/frontend/src/components/StatusCard.jsx:4-6 | no more alerts than stations, each in warning or danger |
| StatusCard.AlertStationsExact | flood-alert-system/frontend/src/components/StatusCard.jsx:4-6 | a station is listed exactly when it is in warning or danger, and the list keeps the stations' order |
| StatusCard.AlertCountsAddUp | flood-alert-system/frontend/src/components/StatusCard.jsx:4-9 | danger count + warning count = number of alert stations |
| StatusCard.CountsCoverReportingStations | flood-alert-system/frontend/src/components/StatusCard.jsx:8-10 | the three counts add up to the stations with a reading, hence at most all stations, and each is at most all stations |
| RecentActivity.BuildActivities | flood-alert-system/frontend/src/components/RecentActivity.jsx:5-47 | the shown entries are `Displayed(stations, now)`, the first ten of the log |
| RecentActivity.AlertsExact | flood-alert-system/frontend/src/components/RecentActivity.jsx:7-30 | one entry per danger or warning station and none for others, each carrying that station's status, name, level and update time |
| RecentActivity.LogShape | flood-alert-system/frontend/src/components/RecentActivity.jsx:33-41 | the log has alert stations + 1 entries, the health check last, and before it the alert entries permuted into newest-update-first order |
| RecentActivity.DisplayedPrefix | flood-alert-system/frontend/src/components/RecentActivity.jsx:47 | at most ten entries are shown, the first ten of the log |
| RecentActivity.HealthCheckShown | flood-alert-system/frontend/src/components/RecentActivity.jsx:36-47 | the health check is shown exactly when fewer than ten stations are in alert |
| RecentActivity.MinutesAgoIsWholeMinutes | flood-alert-system/frontend/src/components/RecentActivity.jsx:11 | the minutes shown are the whole minutes elapsed since the update |
| MapView.TimeLabelMeaning | flood-alert-system/frontend/src/components/MapView.jsx:45-52 | 'Just now' exactly under a minute, minutes exactly from 1 to 59 whole minutes, hours exactly from an hour on, each the whole number elapsed |
| MapView.MissingTimeIsNever | flood-alert-system/frontend/src/components/MapView.jsx:46 | a missing update time is 'Never' |
| MapView.HourUnitAgrees | flood-alert-system/frontend/src/components/MapView.jsx:50-51 | 'hour' exactly for one hour, 'hours' exactly for more |
| MapView.MarkerColors | flood-alert-system/frontend/src/components/MapView.jsx:15-22 | a station without a reading gets the NORMAL colour (line 67) and the three statuses get distinct colours |
| HistoryChart.ChartShape | flood-alert-system/frontend/src/components/HistoryChart.jsx:16-27 | min(len, 50) points; point k is numbered k and shows input position min(len, 50) − 1 − k |
| HistoryChart.NewestFirstChartsForward | flood-alert-system/frontend/src/components/HistoryChart.jsx:16-27 | for newest-first input the points run oldest to newest and every reading left out is no newer than any shown |
| HistoryChart.TickIntervalBound | flood-alert-system/frontend/src/components/HistoryChart.jsx:41 | the tick interval is at most 5 and at most a tenth of the points |
| StationDetail.StatusOfNewest | flood-alert-system/frontend/src/pages/StationDetail.jsx:61-62 | the status is the newest reading's, UNKNOWN exactly without readings, and UNKNOWN shows as an active alert (line 107) |
| StationDetail.ZeroShownAsMissing | flood-alert-system/frontend/src/pages/StationDetail.jsx:84-114 | level and battery read 'N/A' exactly without a reading or when the value is 0; otherwise they are the newest reading's |
| StationDetail.BelowWarningDistance | flood-alert-system/frontend/src/pages/StationDetail.jsx:87-89 | the distance text appears exactly when the newest level is below warning; the distance is then positive and shown non-negative to within 0.005 |
| StationDetail.BatteryLabelRule | flood-alert-system/frontend/src/pages/StationDetail.jsx:117 | 'Good' exactly for a newest battery above 80 |
| StationDetail.MaxLevel | flood-alert-system/frontend/src/pages/StationDetail.jsx:227 | at least every level and equal to one of them |
| StationDetail.MinLevel | flood-alert-system/frontend/src/pages/StationDetail.jsx:233 | at most every level and equal to one of them |
| StationDetail.MeanBetweenExtremes | flood-alert-system/frontend/src/pages/StationDetail.jsx:239 | the exact mean lies between the minimum and the maximum |
| StationDetail.SummaryOrdered | flood-alert-system/frontend/src/pages/StationDetail.jsx:222-244 | the summary exists exactly for readings, counts them all, and after rounding min ≤ average ≤ max |

## Left out

- Express and Mongoose plumbing are left out: routing, status codes beyond the modelled answers, schemas and `async`/`await`. Station CRUD in `stationRoutes.js` and the models are not part of this model. The store is in-memory sequences, and a handler's 500 answer (a database error) has no counterpart.
- ReadingRoutes.ReadingStore.Post: a failure of the second save (`station.save()` after `reading.save()`) is not modelled. In the code that answers 400 with the reading already stored.
- ReadingRoutes.EffectiveLimit: `parseInt` on the query string is not modelled. Its outcome is the input (`None` for NaN), and a negative limit is taken as its magnitude, as the store's `limit` does.
- Binary floating point (IEEE 754), including NaN and infinities, is not modelled. Values are exact reals, so for example `0.1 + 0.2` is exactly 0.3.
- `toFixed` is modelled as the number its string reads back as, not as a string. Where the code returns the string (`avgWaterLevel`, `timeToWarning`), the model returns that number.
- `Math.sqrt` is a parameter with the non-negative-root property, not an implementation.
- The risk forecast's `timeToAlert: {}` is never filled by the code, so it is left out of `RiskForecaster.RiskForecast`.
- Document order: `Station.find()` order is taken as a given sequence. Ties in `sort({timestamp: -1})` follow the stable order of `Seqs.SortDesc`; MongoDB does not specify an order for ties.
- The correlation report iterates `Object.keys(stationData)` (analyticsRoutes.js:111). The model visits stations in list order, which is the key order only when no station id is an integer-like string. JavaScript lists integer-like keys (such as "2" or "10") first, in ascending numeric order, before the other keys in insertion order. With ids "10" then "2" the code pairs station1 "2" with station2 "10", while the model pairs "10" with "2". For such ids the order among equal magnitudes after the stable sort also differs. With duplicate station ids the object keeps only the last one, and that merge is not modelled either.
- StatisticsReport.Latest: the 24-hour `Reading.find({stationId, timestamp: {$gte: last24Hours}})` (analyticsRoutes.js:229-232) has no `sort`, and MongoDB guarantees no order for it. The model takes the window in insertion order (`ReadingQueries.Since`), so `readings[readings.length - 1]` is the last-inserted reading, normally the newest. With the `{stationId: 1, timestamp: -1}` index of Reading.js:31 the database is likely to answer newest first, and then the program's representative is the window's oldest reading. Which reading it is changes `avgWaterLevel`, `avgBattery` and both extremes. `StatisticsReport.FoldCounts`, `FoldMaximum`, `FoldMinimum`, `FoldLevelTotal` and `FoldBatteryTotal` are stated for arbitrary windows `ws`, so they hold for any order the store returns. `StatisticsOf` and the lemmas about it fix the insertion order.
- Seqs.SortDesc: the expected results state sortedness and the permutation (`Seqs.SortDescSpec`), not stability.
- StatisticsReport.AverageBetweenExtremes: states the rounded mean within 0.005 of the extremes, because the extremes themselves are not rounded.
- `StatusCard`'s `getTrendIndicator` uses `Math.random`, so it is left out.
- Rendering is left out: JSX, CSS classes, the activity messages and `time: '5m ago'` text, icons, recharts and Leaflet. The chart's `time` label (`toLocaleTimeString`) and the tooltip formatting are left out too.
- The map's `waterLevel || 'N/A'` popup text is not modelled.
- MapView.MarkerColors: the `|| colors.NORMAL` fallback for an unknown status cannot arise with the three-valued `Status`, so only the missing-reading case is stated.
- `StationViews.StationView.lastUpdated` is always present, because the station schema gives it a default. Only `MapView.TimeSinceUpdate` takes an optional time, for its own `!lastUpdated` guard.
- HistoryChart: the caller's array being unchanged (`slice` copies before `reverse`) holds trivially in a value model and is not stated.
- Dashboards and pages that only fetch and lay out data are not part of this model: `Dashboard.jsx`, `Analytics.jsx`, `AdminPanel.jsx`, `App.jsx`, `WeatherWidget.jsx`, `ErrorDisplay.jsx` and `LoadingSpinner.jsx`. So are their refresh timers, `seed.js` and the simulator's random drift.
