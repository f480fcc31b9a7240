/** `calculateChangeRate`: the time-weighted mean slope of a newest-first
    reading window, in metres per hour. Each adjacent pair (newer, older)
    contributes its level change and its time gap, but only when the gap is
    positive; the rate is the total change over the total time, or 0. */
module TrendEstimator {
  import opened Domain
  import opened Numeric

  const MillisPerHour: int := 3600000

  /** Milliseconds from the older to the newer reading of pair k. */
  function GapMillis(rs: seq<Reading>, k: nat): int
    requires k + 1 < |rs|
  {
    rs[k].timestamp - rs[k + 1].timestamp
  }

  /** Level change that pair k adds to the total: nothing if its gap is not positive. */
  function PairChange(rs: seq<Reading>, k: nat): real
    requires k + 1 < |rs|
  {
    if GapMillis(rs, k) > 0 then rs[k].waterLevel - rs[k + 1].waterLevel else 0.0
  }

  /** Hours that pair k adds to the total: nothing if its gap is not positive. */
  function PairHours(rs: seq<Reading>, k: nat): real
    requires k + 1 < |rs|
  {
    if GapMillis(rs, k) > 0 then (GapMillis(rs, k) as real) / (MillisPerHour as real) else 0.0
  }

  /** Total level change of the first i pairs. */
  function ChangeSum(rs: seq<Reading>, i: nat): real
    requires i < |rs|
  {
    if i == 0 then 0.0 else ChangeSum(rs, i - 1) + PairChange(rs, i - 1)
  }

  /** Total hours of the first i pairs. */
  function HoursSum(rs: seq<Reading>, i: nat): (h: real)
    requires i < |rs|
    ensures h >= 0.0
  {
    if i == 0 then 0.0 else HoursSum(rs, i - 1) + PairHours(rs, i - 1)
  }

  /** The rate `calculateChangeRate` returns. */
  function ChangeRate(rs: seq<Reading>): real
  {
    if |rs| < 2 then 0.0
    else
      var hours := HoursSum(rs, |rs| - 1);
      if hours > 0.0 then ChangeSum(rs, |rs| - 1) / hours else 0.0
  }

  method CalculateChangeRate(readings: seq<Reading>) returns (rate: real)
    ensures rate == ChangeRate(readings)
  {
    if |readings| < 2 {
      return 0.0;
    }
    var totalChange := 0.0;
    var totalTimeHours := 0.0;
    var i := 0;
    while i < |readings| - 1
      invariant 0 <= i <= |readings| - 1
      invariant totalChange == ChangeSum(readings, i)
      invariant totalTimeHours == HoursSum(readings, i)
    {
      var levelChange := readings[i].waterLevel - readings[i + 1].waterLevel;
      var timeChange := ((readings[i].timestamp - readings[i + 1].timestamp) as real) / (MillisPerHour as real);
      if timeChange > 0.0 {
        totalChange := totalChange + levelChange;
        totalTimeHours := totalTimeHours + timeChange;
      }
      i := i + 1;
    }
    rate := if totalTimeHours > 0.0 then totalChange / totalTimeHours else 0.0;
  }

  /** Fewer than two readings give no slope. */
  lemma ShortWindowRateIsZero(rs: seq<Reading>)
    requires |rs| < 2
    ensures ChangeRate(rs) == 0.0
  {
  }

  /** Pairs whose gap is not positive add neither change nor time. */
  lemma {:induction false} NoPositiveGapAddsNothing(rs: seq<Reading>, i: nat)
    requires i < |rs|
    requires forall k :: 0 <= k < i ==> GapMillis(rs, k) <= 0
    ensures ChangeSum(rs, i) == 0.0 && HoursSum(rs, i) == 0.0
  {
    if i > 0 {
      NoPositiveGapAddsNothing(rs, i - 1);
    }
  }

  /** When no adjacent pair has a positive time gap the rate is 0. */
  lemma NoPositiveGapRateIsZero(rs: seq<Reading>)
    requires forall k :: 0 <= k < |rs| - 1 ==> rs[k].timestamp <= rs[k + 1].timestamp
    ensures ChangeRate(rs) == 0.0
  {
    if |rs| >= 2 {
      NoPositiveGapAddsNothing(rs, |rs| - 1);
    }
  }

  /** With every gap positive the level changes telescope: the first i pairs
      add up to the change and the time between reading 0 and reading i. */
  lemma {:induction false} Telescopes(rs: seq<Reading>, i: nat)
    requires i < |rs|
    requires forall k :: 0 <= k < i ==> GapMillis(rs, k) > 0
    ensures ChangeSum(rs, i) == rs[0].waterLevel - rs[i].waterLevel
    ensures HoursSum(rs, i) == ((rs[0].timestamp - rs[i].timestamp) as real) / (MillisPerHour as real)
  {
    if i > 0 {
      Telescopes(rs, i - 1);
    }
  }

  /** For a strictly time-ordered newest-first window the rate is the end-to-end
      slope: (newest level - oldest level) / (hours between them). */
  lemma EndToEndSlope(rs: seq<Reading>)
    requires |rs| >= 2
    requires forall k :: 0 <= k < |rs| - 1 ==> rs[k].timestamp > rs[k + 1].timestamp
    ensures rs[0].timestamp > rs[|rs| - 1].timestamp
    ensures ChangeRate(rs) ==
      (rs[0].waterLevel - rs[|rs| - 1].waterLevel)
        / (((rs[0].timestamp - rs[|rs| - 1].timestamp) as real) / (MillisPerHour as real))
  {
    Telescopes(rs, |rs| - 1);
    assert rs[0].timestamp > rs[|rs| - 1].timestamp by {
      TimestampsDecrease(rs, |rs| - 1);
    }
  }

  lemma {:induction false} TimestampsDecrease(rs: seq<Reading>, i: nat)
    requires 0 < i < |rs|
    requires forall k :: 0 <= k < |rs| - 1 ==> rs[k].timestamp > rs[k + 1].timestamp
    ensures rs[0].timestamp > rs[i].timestamp
  {
    if i > 1 {
      TimestampsDecrease(rs, i - 1);
    }
  }

  /** If every counted pair rises at r metres per hour, the first i pairs rise
      by r times their hours. */
  lemma {:induction false} ProportionalSums(rs: seq<Reading>, i: nat, r: real)
    requires i < |rs|
    requires forall k :: 0 <= k < |rs| - 1 && GapMillis(rs, k) > 0 ==> PairChange(rs, k) == r * PairHours(rs, k)
    ensures ChangeSum(rs, i) == r * HoursSum(rs, i)
  {
    if i > 0 {
      ProportionalSums(rs, i - 1, r);
    }
  }

  /** A window that moves at a constant rate r over its positive gaps reproduces r,
      however the gaps are spaced and whatever duplicate timestamps it holds. */
  lemma ConstantRateReproduced(rs: seq<Reading>, r: real)
    requires exists k :: 0 <= k < |rs| - 1 && GapMillis(rs, k) > 0
    requires forall k :: 0 <= k < |rs| - 1 && GapMillis(rs, k) > 0 ==> PairChange(rs, k) == r * PairHours(rs, k)
    ensures ChangeRate(rs) == r
  {
    var k :| 0 <= k < |rs| - 1 && GapMillis(rs, k) > 0;
    var n := |rs| - 1;
    ProportionalSums(rs, n, r);
    HoursPositive(rs, n, k);
    RateFromSums(rs, r);
  }

  lemma RateFromSums(rs: seq<Reading>, r: real)
    requires |rs| >= 2
    requires HoursSum(rs, |rs| - 1) > 0.0
    requires ChangeSum(rs, |rs| - 1) == r * HoursSum(rs, |rs| - 1)
    ensures ChangeRate(rs) == r
  {
    var h, c := HoursSum(rs, |rs| - 1), ChangeSum(rs, |rs| - 1);
    assert ChangeRate(rs) == c / h;
    DivCancel(r, h);
    assert c / h == (r * h) / h;
  }

  lemma {:induction false} HoursPositive(rs: seq<Reading>, i: nat, k: nat)
    requires k < i < |rs|
    requires GapMillis(rs, k) > 0
    ensures HoursSum(rs, i) > 0.0
  {
    if i - 1 > k {
      HoursPositive(rs, i - 1, k);
    }
  }

  /** Two readings sharing a timestamp followed by one with a real gap give
      exactly the slope of the valid pair, not a diluted or undefined one. */
  lemma DuplicateTimestampSkipped(a: Reading, b: Reading, c: Reading)
    requires a.timestamp == b.timestamp && b.timestamp > c.timestamp
    ensures ChangeRate([a, b, c]) ==
      (b.waterLevel - c.waterLevel) / (((b.timestamp - c.timestamp) as real) / (MillisPerHour as real))
  {
    var rs := [a, b, c];
    assert GapMillis(rs, 0) == 0 && GapMillis(rs, 1) > 0;
    assert ChangeSum(rs, 1) == 0.0 && HoursSum(rs, 1) == 0.0;
    assert ChangeSum(rs, 2) == b.waterLevel - c.waterLevel;
    assert HoursSum(rs, 2) == ((b.timestamp - c.timestamp) as real) / (MillisPerHour as real);
  }
}
