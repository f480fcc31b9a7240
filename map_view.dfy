/** The map markers: a colour per status, with a station without a reading
    drawn as normal, and the "updated ... ago" label of each popup. */
module MapView {
  import opened Domain
  import opened StationViews

  /** The label `getTimeSinceUpdate` returns: 'Never', 'Just now',
      '<m> min ago' or '<h> hour ago' / '<h> hours ago'. */
  datatype TimeLabel = Never | JustNow | MinutesAgo(minutes: int) | HoursAgo(hours: int, unit: string)

  /** `hour${hours > 1 ? 's' : ''}`. */
  function HourUnit(hours: int): string
  {
    if hours > 1 then "hours" else "hour"
  }

  /** `getTimeSinceUpdate(lastUpdated)` at time `now`; a missing time is `None`. */
  function TimeSinceUpdate(lastUpdated: Option<int>, now: int): TimeLabel
  {
    if lastUpdated.None? then Never
    else
      var minutes := (now - lastUpdated.value) / 60000;
      if minutes < 1 then JustNow
      else if minutes < 60 then MinutesAgo(minutes)
      else
        var hours := minutes / 60;
        HoursAgo(hours, HourUnit(hours))
  }

  /** `station.currentReading?.status || 'NORMAL'`. */
  function MarkerStatus(s: StationView): Status
  {
    if s.currentReading.Some? then s.currentReading.value.status else Normal
  }

  /** `colors[status] || colors.NORMAL`. */
  function MarkerColor(status: Status): string
  {
    match status
    case Normal => "#22c55e"
    case Warning => "#f59e0b"
    case Danger => "#ef4444"
  }

  /** What each label means in elapsed milliseconds: under a minute (or a
      time in the future) is 'Just now', whole minutes below an hour are
      counted in minutes, and beyond that in whole hours. */
  lemma TimeLabelMeaning(lastUpdated: int, now: int)
    ensures var d := now - lastUpdated;
            var l := TimeSinceUpdate(Some(lastUpdated), now);
            (l == JustNow <==> d < 60000)
            && (l.MinutesAgo? <==> 60000 <= d < 3600000)
            && (l.MinutesAgo? ==> 1 <= l.minutes < 60 && l.minutes * 60000 <= d < (l.minutes + 1) * 60000)
            && (l.HoursAgo? <==> d >= 3600000)
            && (l.HoursAgo? ==> l.hours >= 1 && l.hours * 3600000 <= d < (l.hours + 1) * 3600000)
            && l != Never
  {
    var d := now - lastUpdated;
    var m := d / 60000;
    assert m * 60000 <= d < (m + 1) * 60000;
    if m >= 60 {
      var h := m / 60;
      assert h * 60 <= m < (h + 1) * 60;
      assert h * 3600000 == (h * 60) * 60000;
      assert (h + 1) * 3600000 == ((h + 1) * 60) * 60000;
    }
  }

  /** A missing time says 'Never'. */
  lemma MissingTimeIsNever(now: int)
    ensures TimeSinceUpdate(None, now) == Never
  {
  }

  /** The unit is singular for exactly one hour and plural beyond. */
  lemma HourUnitAgrees(lastUpdated: int, now: int)
    requires TimeSinceUpdate(Some(lastUpdated), now).HoursAgo?
    ensures var l := TimeSinceUpdate(Some(lastUpdated), now);
            (l.unit == "hour" <==> l.hours == 1) && (l.unit == "hours" <==> l.hours > 1)
  {
    var m := (now - lastUpdated) / 60000;
    assert m >= 60;
  }

  /** A station without a reading gets the normal colour, and the three
      statuses get three different colours. */
  lemma MarkerColors(s: StationView, a: Status, b: Status)
    ensures s.currentReading.None? ==> MarkerColor(MarkerStatus(s)) == MarkerColor(Normal)
    ensures a != b ==> MarkerColor(a) != MarkerColor(b)
  {
  }
}
