/** GET /api/analytics/correlations: the twenty newest levels of every
    station, a correlation for every pair of stations taken in station order
    (each unordered pair once), the pairs whose correlation exceeds 0.3 in
    magnitude labelled Strong above 0.7 and Moderate otherwise, and the list
    sorted by decreasing magnitude. */
module CorrelationReport {
  import opened Domain
  import opened Seqs
  import opened ReadingQueries
  import opened CorrelationAnalyzer

  const CorrelationWindow: nat := 20

  /** `stationData[id]`: the station's name and its levels, newest first. */
  datatype Series = Series(id: string, name: string, levels: seq<real>)

  datatype StationRef = StationRef(id: string, name: string)

  datatype Strength = Strong | Moderate

  datatype Pair = Pair(station1: StationRef, station2: StationRef, correlation: real, strength: Strength)

  function Abs(x: real): real
  {
    if x < 0.0 then -x else x
  }

  /** The sort key `Math.abs(p.correlation)`. */
  function Magnitude(p: Pair): real
  {
    Abs(p.correlation)
  }

  /** `readings.map(r => r.waterLevel)`. */
  function Levels(w: seq<Reading>): seq<real>
  {
    seq(|w|, k requires 0 <= k < |w| => w[k].waterLevel)
  }

  function SeriesOf(rs: seq<Reading>, s: Station): Series
  {
    Series(s.stationId, s.name, Levels(Recent(rs, s.stationId, CorrelationWindow)))
  }

  /** The series of all stations, in station order. */
  function SeriesList(stations: seq<Station>, rs: seq<Reading>): (ss: seq<Series>)
    ensures |ss| == |stations|
    ensures forall k :: 0 <= k < |stations| ==> ss[k] == SeriesOf(rs, stations[k])
  {
    seq(|stations|, k requires 0 <= k < |stations| => SeriesOf(rs, stations[k]))
  }

  /** The correlations of every ordered pair of series. */
  function Matrix(ss: seq<Series>, sqrt: real -> real): seq<seq<real>>
  {
    seq(|ss|, i requires 0 <= i < |ss| =>
      seq(|ss|, j requires 0 <= j < |ss| => Correlation(ss[i].levels, ss[j].levels, sqrt)))
  }

  /** Entry (i, k) of a correlation matrix, 0 outside it. */
  function At(cs: seq<seq<real>>, i: nat, k: nat): real
  {
    if i < |cs| && k < |cs[i]| then cs[i][k] else 0.0
  }

  lemma MatrixEntry(ss: seq<Series>, sqrt: real -> real, i: nat, k: nat)
    requires i < |ss| && k < |ss|
    ensures At(Matrix(ss, sqrt), i, k) == Correlation(ss[i].levels, ss[k].levels, sqrt)
  {
  }

  /** Reported pairs need a magnitude above 0.3. */
  predicate Significant(c: real)
  {
    Abs(c) > 0.3
  }

  function Label(c: real): (s: Strength)
    ensures s == Strong <==> Abs(c) > 0.7
  {
    if Abs(c) > 0.7 then Strong else Moderate
  }

  /** The object pushed for stations a and b. */
  function PairOf(a: Series, b: Series, c: real): Pair
  {
    Pair(StationRef(a.id, a.name), StationRef(b.id, b.name), c, Label(c))
  }

  /** The list `acc` after the inner loop of row i has visited the partners
      i + 1 .. j - 1. */
  function Row(acc: seq<Pair>, ss: seq<Series>, cs: seq<seq<real>>, i: nat, j: nat): seq<Pair>
    requires i < j <= |ss|
    decreases j
  {
    if j == i + 1 then acc
    else
      var before := Row(acc, ss, cs, i, j - 1);
      var c := At(cs, i, j - 1);
      if Significant(c) then before + [PairOf(ss[i], ss[j - 1], c)] else before
  }

  /** The list after the outer loop has finished the rows 0 .. i - 1. */
  function Upto(ss: seq<Series>, cs: seq<seq<real>>, i: nat): seq<Pair>
    requires i <= |ss|
  {
    if i == 0 then [] else Row(Upto(ss, cs, i - 1), ss, cs, i - 1, |ss|)
  }

  /** The response: every significant pair, largest magnitude first. */
  function CorrelationsOf(stations: seq<Station>, rs: seq<Reading>, sqrt: real -> real): seq<Pair>
  {
    var ss := SeriesList(stations, rs);
    SortDesc(Upto(ss, Matrix(ss, sqrt), |ss|), Magnitude)
  }

  /** The handler's first loop: `stationData` filled station by station. */
  method LoadSeries(stations: seq<Station>, readings: seq<Reading>) returns (stationData: seq<Series>)
    ensures stationData == SeriesList(stations, readings)
  {
    ghost var ss := SeriesList(stations, readings);
    stationData := [];
    for i := 0 to |stations|
      invariant stationData == ss[..i]
    {
      var station := stations[i];
      var window := Recent(readings, station.stationId, CorrelationWindow);
      stationData := stationData + [Series(station.stationId, station.name, Levels(window))];
    }
  }

  /** The handler's nested loops over the pairs i < j, before the sort. */
  method PairUp(stationData: seq<Series>, sqrt: real -> real) returns (correlations: seq<Pair>)
    ensures correlations == Upto(stationData, Matrix(stationData, sqrt), |stationData|)
  {
    ghost var cs := Matrix(stationData, sqrt);
    correlations := [];
    for i := 0 to |stationData|
      invariant correlations == Upto(stationData, cs, i)
    {
      for j := i + 1 to |stationData|
        invariant correlations == Row(Upto(stationData, cs, i), stationData, cs, i, j)
      {
        var correlation := CalculateCorrelation(stationData[i].levels, stationData[j].levels, sqrt);
        MatrixEntry(stationData, sqrt, i, j);
        if Abs(correlation) > 0.3 {
          var strength := if Abs(correlation) > 0.7 then Strong else Moderate;
          var pair := Pair(StationRef(stationData[i].id, stationData[i].name),
                           StationRef(stationData[j].id, stationData[j].name),
                           correlation, strength);
          correlations := correlations + [pair];
        }
      }
    }
  }

  method BuildCorrelations(stations: seq<Station>, readings: seq<Reading>, sqrt: real -> real)
    returns (result: seq<Pair>)
    ensures result == CorrelationsOf(stations, readings, sqrt)
  {
    var stationData := LoadSeries(stations, readings);
    var correlations := PairUp(stationData, sqrt);
    result := SortDesc(correlations, Magnitude);
  }

  /** Pair (i, k) is reported: a significant correlation, and the pair object
      built from the two series. */
  ghost predicate Reported(ss: seq<Series>, cs: seq<seq<real>>, i: int, k: int, p: Pair)
    requires 0 <= i < |ss| && 0 <= k < |ss|
  {
    Significant(At(cs, i, k)) && p == PairOf(ss[i], ss[k], At(cs, i, k))
  }

  /** A pair is in row i exactly when it is the significant pair of i with a
      partner visited so far. */
  lemma {:induction false} RowMember(acc: seq<Pair>, ss: seq<Series>, cs: seq<seq<real>>, i: nat, j: nat, p: Pair)
    requires i < j <= |ss|
    ensures p in Row(acc, ss, cs, i, j) <==> p in acc || exists k :: i < k < j && Reported(ss, cs, i, k, p)
    decreases j
  {
    if j > i + 1 {
      RowMember(acc, ss, cs, i, j - 1, p);
      var before := Row(acc, ss, cs, i, j - 1);
      if exists k :: i < k < j && Reported(ss, cs, i, k, p) {
        var k :| i < k < j && Reported(ss, cs, i, k, p);
        if k < j - 1 {
          assert p in before;
        }
      }
      if p in Row(acc, ss, cs, i, j) && p !in before {
        assert Reported(ss, cs, i, j - 1, p);
      }
    }
  }

  /** A pair is in the list after the first i rows exactly when it is the
      significant pair of some (a, b) with a < i and a < b. */
  lemma {:induction false} UptoMember(ss: seq<Series>, cs: seq<seq<real>>, i: nat, p: Pair)
    requires i <= |ss|
    ensures p in Upto(ss, cs, i) <==> exists a, b :: 0 <= a < i && a < b < |ss| && Reported(ss, cs, a, b, p)
  {
    if i > 0 {
      UptoMember(ss, cs, i - 1, p);
      RowMember(Upto(ss, cs, i - 1), ss, cs, i - 1, |ss|, p);
      if exists a, b :: 0 <= a < i && a < b < |ss| && Reported(ss, cs, a, b, p) {
        var a, b :| 0 <= a < i && a < b < |ss| && Reported(ss, cs, a, b, p);
        if a == i - 1 {
          assert p in Row(Upto(ss, cs, i - 1), ss, cs, i - 1, |ss|);
        } else {
          assert p in Upto(ss, cs, i - 1);
        }
      }
    }
  }

  /** Soundness and completeness: a pair is reported exactly when it is the
      pair of two stations i < j (each unordered pair once, in station order)
      whose correlation exceeds 0.3 in magnitude. */
  lemma ReportMember(stations: seq<Station>, rs: seq<Reading>, sqrt: real -> real, p: Pair)
    ensures var ss := SeriesList(stations, rs);
            p in CorrelationsOf(stations, rs, sqrt) <==>
            exists i, j :: 0 <= i < j < |ss| && Reported(ss, Matrix(ss, sqrt), i, j, p)
  {
    var ss := SeriesList(stations, rs);
    var all := Upto(ss, Matrix(ss, sqrt), |ss|);
    UptoMember(ss, Matrix(ss, sqrt), |ss|, p);
    SortDescSpec(all, Magnitude);
    assert p in SortDesc(all, Magnitude) <==> p in multiset(SortDesc(all, Magnitude));
  }

  /** The same, with the correlation written out: a reported pair is built
      from stations i < j and their correlation. */
  lemma ReportedPair(stations: seq<Station>, rs: seq<Reading>, sqrt: real -> real, p: Pair)
    requires p in CorrelationsOf(stations, rs, sqrt)
    ensures exists i, j :: 0 <= i < j < |stations|
              && p == PairOf(SeriesOf(rs, stations[i]), SeriesOf(rs, stations[j]),
                             Correlation(SeriesOf(rs, stations[i]).levels, SeriesOf(rs, stations[j]).levels, sqrt))
  {
    ReportMember(stations, rs, sqrt, p);
    var ss := SeriesList(stations, rs);
    var i, j :| 0 <= i < j < |ss| && Reported(ss, Matrix(ss, sqrt), i, j, p);
    MatrixEntry(ss, sqrt, i, j);
  }

  /** A pair of stations i < j whose correlation exceeds 0.3 in magnitude is
      reported. */
  lemma SignificantPairReported(stations: seq<Station>, rs: seq<Reading>, sqrt: real -> real, i: nat, j: nat)
    requires i < j < |stations|
    requires Abs(Correlation(SeriesOf(rs, stations[i]).levels, SeriesOf(rs, stations[j]).levels, sqrt)) > 0.3
    ensures PairOf(SeriesOf(rs, stations[i]), SeriesOf(rs, stations[j]),
                   Correlation(SeriesOf(rs, stations[i]).levels, SeriesOf(rs, stations[j]).levels, sqrt))
            in CorrelationsOf(stations, rs, sqrt)
  {
    var ss := SeriesList(stations, rs);
    var p := PairOf(ss[i], ss[j], Correlation(ss[i].levels, ss[j].levels, sqrt));
    MatrixEntry(ss, sqrt, i, j);
    assert Reported(ss, Matrix(ss, sqrt), i, j, p);
    ReportMember(stations, rs, sqrt, p);
  }

  /** The list is the unsorted list permuted into decreasing magnitude. */
  lemma ReportSorted(stations: seq<Station>, rs: seq<Reading>, sqrt: real -> real)
    ensures var ss := SeriesList(stations, rs);
            multiset(CorrelationsOf(stations, rs, sqrt)) == multiset(Upto(ss, Matrix(ss, sqrt), |ss|))
            && SortedDesc(CorrelationsOf(stations, rs, sqrt), Magnitude)
  {
    var ss := SeriesList(stations, rs);
    SortDescSpec(Upto(ss, Matrix(ss, sqrt), |ss|), Magnitude);
  }

  /** Every reported pair has magnitude above 0.3 and is labelled Strong
      exactly when the magnitude exceeds 0.7; with a true square root the
      magnitude is at most 1. */
  lemma ReportedStrength(stations: seq<Station>, rs: seq<Reading>, sqrt: real -> real, p: Pair)
    requires p in CorrelationsOf(stations, rs, sqrt)
    ensures Abs(p.correlation) > 0.3
    ensures p.strength == Strong <==> Abs(p.correlation) > 0.7
    ensures IsSqrt(sqrt) ==> Abs(p.correlation) <= 1.0
  {
    ReportMember(stations, rs, sqrt, p);
    var ss := SeriesList(stations, rs);
    var i, j :| 0 <= i < j < |ss| && Reported(ss, Matrix(ss, sqrt), i, j, p);
    if IsSqrt(sqrt) {
      MatrixEntry(ss, sqrt, i, j);
      CorrelationBounded(ss[i].levels, ss[j].levels, sqrt);
    }
  }

  /** A station with fewer than three readings is never part of a reported
      pair: its correlation with anything is 0. */
  lemma ShortSeriesNeverPaired(stations: seq<Station>, rs: seq<Reading>, sqrt: real -> real, p: Pair)
    requires p in CorrelationsOf(stations, rs, sqrt)
    ensures var ss := SeriesList(stations, rs);
            exists i, j :: 0 <= i < j < |ss| && |ss[i].levels| >= 3 && |ss[j].levels| >= 3
                           && p.station1.id == ss[i].id && p.station2.id == ss[j].id
  {
    ReportMember(stations, rs, sqrt, p);
    var ss := SeriesList(stations, rs);
    var i, j :| 0 <= i < j < |ss| && Reported(ss, Matrix(ss, sqrt), i, j, p);
    MatrixEntry(ss, sqrt, i, j);
    if |ss[i].levels| < 3 || |ss[j].levels| < 3 {
      ShortSeriesGiveZero(ss[i].levels, ss[j].levels, sqrt);
    }
  }

  /** With unique station ids the two stations of a pair differ. */
  lemma NoSelfPairs(stations: seq<Station>, rs: seq<Reading>, sqrt: real -> real, p: Pair)
    requires forall a, b :: 0 <= a < b < |stations| ==> stations[a].stationId != stations[b].stationId
    requires p in CorrelationsOf(stations, rs, sqrt)
    ensures p.station1.id != p.station2.id
  {
    ReportMember(stations, rs, sqrt, p);
    var ss := SeriesList(stations, rs);
    var i, j :| 0 <= i < j < |ss| && Reported(ss, Matrix(ss, sqrt), i, j, p);
    assert ss[i].id == stations[i].stationId && ss[j].id == stations[j].stationId;
  }

  /** A row has at most one pair per partner. */
  lemma {:induction false} RowSize(acc: seq<Pair>, ss: seq<Series>, cs: seq<seq<real>>, i: nat, j: nat)
    requires i < j <= |ss|
    ensures |Row(acc, ss, cs, i, j)| <= |acc| + j - i - 1
    decreases j
  {
    if j > i + 1 {
      RowSize(acc, ss, cs, i, j - 1);
    }
  }

  /** After i rows the list holds at most (n-1) + (n-2) + ... + (n-i) pairs,
      written as 2 * size <= i * (2n - i - 1). */
  lemma {:induction false} UptoSize(ss: seq<Series>, cs: seq<seq<real>>, i: nat)
    requires i <= |ss|
    ensures 2 * |Upto(ss, cs, i)| <= i * (2 * |ss| - i - 1)
  {
    if i > 0 {
      UptoSize(ss, cs, i - 1);
      RowSize(Upto(ss, cs, i - 1), ss, cs, i - 1, |ss|);
      SizeStep(|Upto(ss, cs, i - 1)|, |Row(Upto(ss, cs, i - 1), ss, cs, i - 1, |ss|)| - |Upto(ss, cs, i - 1)|, i, |ss|);
    }
  }

  lemma SizeStep(u: int, r: int, i: int, n: int)
    requires 2 * u <= (i - 1) * (2 * n - (i - 1) - 1) && r <= n - i
    ensures 2 * (u + r) <= i * (2 * n - i - 1)
  {
    assert (i - 1) * (2 * n - (i - 1) - 1) + 2 * (n - i) == i * (2 * n - i - 1);
  }

  /** At most n(n-1)/2 pairs for n stations. */
  lemma ReportSize(stations: seq<Station>, rs: seq<Reading>, sqrt: real -> real)
    ensures 2 * |CorrelationsOf(stations, rs, sqrt)| <= |stations| * (|stations| - 1)
  {
    var ss := SeriesList(stations, rs);
    UptoSize(ss, Matrix(ss, sqrt), |ss|);
  }
}
