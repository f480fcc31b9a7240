/** The reading endpoints: POST stores one classified reading for a known
    station and stamps the station, GET returns a station's (or every
    station's) newest readings up to a limit. The collections are the fields
    of `ReadingStore`: stations keyed by their unique id, and the readings in
    the order they were saved. */
module ReadingRoutes {
  import opened Domain
  import opened Seqs
  import opened ReadingQueries

  const DefaultLimit: nat := 100

  /** The request body `{ stationId, waterLevel, batteryLevel }`; a field the
      client left out is `None`. */
  datatype PostBody = PostBody(stationId: string, waterLevel: Option<real>, batteryLevel: Option<real>)

  /** 404 `Station not found`, 400 from a failed save, or 201 with the alert
      and the stored reading. */
  datatype PostResponse = NotFound | BadRequest | Created(alert: Status, reading: Reading)

  /** The reading schema's checks: both numbers are required and the battery
      level lies in [0, 100]. A body failing them makes `save` throw. */
  predicate Storable(body: PostBody)
  {
    body.waterLevel.Some? && body.batteryLevel.Some?
    && 0.0 <= body.batteryLevel.value <= 100.0
  }

  /** What the handler answers, given the stations it looks the id up in. */
  function Outcome(stations: map<string, Station>, body: PostBody, now: int): (resp: PostResponse)
    ensures resp == NotFound <==> body.stationId !in stations
    ensures resp == BadRequest <==> body.stationId in stations && !Storable(body)
    ensures resp.Created? ==> resp.reading.stationId == body.stationId && resp.reading.timestamp == now
  {
    if body.stationId !in stations then NotFound
    else if !Storable(body) then BadRequest
    else
      var status := Classify(body.waterLevel.value, stations[body.stationId].thresholds);
      Created(status, Reading(body.stationId, body.waterLevel.value, body.batteryLevel.value, status, now))
  }

  /** `parseInt(req.query.limit) || 100` handed to the query's `limit`:
      `None` is `NaN`. NaN and 0 fall back to 100; a negative limit asks
      the store for as many readings as its magnitude. */
  function EffectiveLimit(parsed: Option<int>): (n: nat)
    ensures n > 0
  {
    match parsed
    case None => DefaultLimit
    case Some(v) => if v == 0 then DefaultLimit else if v < 0 then -v else v
  }

  /** The fallback happens exactly for a missing, unparseable or zero limit. */
  lemma DefaultLimitApplies(parsed: Option<int>)
    ensures (parsed == None || parsed == Some(0)) ==> EffectiveLimit(parsed) == 100
    ensures parsed.Some? && parsed.value > 0 ==> EffectiveLimit(parsed) == parsed.value
  {
  }

  class ReadingStore {
    var stations: map<string, Station>
    var readings: seq<Reading>

    /** Each station is filed under its own id. */
    ghost predicate Valid()
      reads this
    {
      forall id :: id in stations ==> stations[id].stationId == id
    }

    constructor (initial: map<string, Station>)
      requires forall id :: id in initial ==> initial[id].stationId == id
      ensures Valid()
      ensures stations == initial && readings == []
    {
      stations := initial;
      readings := [];
    }

    /** POST /api/readings. */
    method Post(body: PostBody, now: int) returns (resp: PostResponse)
      requires Valid()
      modifies this
      ensures Valid()
      ensures resp == Outcome(old(stations), body, now)
      ensures resp.Created? ==>
                readings == old(readings) + [resp.reading]
                && stations == old(stations)[body.stationId := old(stations)[body.stationId].(lastUpdated := now)]
      ensures !resp.Created? ==> readings == old(readings) && stations == old(stations)
    {
      if body.stationId !in stations {
        return NotFound;
      }
      var station := stations[body.stationId];
      var status := Normal;
      if body.waterLevel.Some? && body.waterLevel.value >= station.thresholds.danger {
        status := Danger;
      } else if body.waterLevel.Some? && body.waterLevel.value >= station.thresholds.warning {
        status := Warning;
      }
      if !Storable(body) {
        return BadRequest;
      }
      var reading := Reading(body.stationId, body.waterLevel.value, body.batteryLevel.value, status, now);
      readings := readings + [reading];
      stations := stations[body.stationId := station.(lastUpdated := now)];
      resp := Created(status, reading);
    }

    /** GET /api/readings/:stationId. */
    method Get(stationId: string, limit: Option<int>) returns (result: seq<Reading>)
      ensures result == Recent(readings, stationId, EffectiveLimit(limit))
      ensures |result| <= EffectiveLimit(limit)
      ensures forall k :: 0 <= k < |result| ==> result[k].stationId == stationId && result[k] in readings
      ensures SortedDesc(result, Timestamp)
    {
      result := Recent(readings, stationId, EffectiveLimit(limit));
      RecentWindow(readings, stationId, EffectiveLimit(limit));
    }

    /** GET /api/readings. */
    method GetAll(limit: Option<int>) returns (result: seq<Reading>)
      ensures result == RecentAll(readings, EffectiveLimit(limit))
      ensures |result| == if EffectiveLimit(limit) <= |readings| then EffectiveLimit(limit) else |readings|
      ensures SortedDesc(result, Timestamp)
    {
      result := RecentAll(readings, EffectiveLimit(limit));
      SortDescSpec(readings, Timestamp);
      TakeSorted(SortDesc(readings, Timestamp), EffectiveLimit(limit));
    }
  }

  /** An unknown station id is answered 404 and leaves both collections alone;
      a known one is never answered 404. */
  lemma UnknownStationRejected(stations: map<string, Station>, body: PostBody, now: int)
    ensures Outcome(stations, body, now) == NotFound <==> body.stationId !in stations
  {
  }

  /** A created reading carries the alert it was answered with, and that
      alert is the station's threshold rule applied to the submitted level. */
  lemma CreatedAlertIsClassification(stations: map<string, Station>, body: PostBody, now: int)
    requires body.stationId in stations && Storable(body)
    ensures Outcome(stations, body, now).Created?
    ensures var resp := Outcome(stations, body, now);
            resp.alert == resp.reading.status
            && resp.alert == Classify(body.waterLevel.value, stations[body.stationId].thresholds)
            && resp.reading.waterLevel == body.waterLevel.value
            && resp.reading.batteryLevel == body.batteryLevel.value
  {
  }

  /** A stored reading is found by the next GET for its station whenever the
      station had fewer than `limit` readings before. */
  lemma PostedReadingIsListed(rs: seq<Reading>, r: Reading, limit: nat)
    requires limit > |OfStation(rs, r.stationId)|
    ensures r in Recent(rs + [r], r.stationId, limit)
  {
    var id := r.stationId;
    KeepSnoc(rs, r, AtStation(id));
    var all := OfStation(rs + [r], id);
    assert r in all;
    var sorted := SortDesc(all, Timestamp);
    SortDescSpec(all, Timestamp);
    assert r in multiset(sorted);
    assert Recent(rs + [r], id, limit) == sorted;
  }

  /** A reading strictly newer than every stored reading of its station comes
      first in the next GET for that station, whatever the limit. */
  lemma NewestPostedComesFirst(rs: seq<Reading>, r: Reading, limit: nat)
    requires limit > 0
    requires forall x :: x in rs && x.stationId == r.stationId ==> x.timestamp < r.timestamp
    ensures |Recent(rs + [r], r.stationId, limit)| > 0
    ensures Recent(rs + [r], r.stationId, limit)[0] == r
  {
    var id := r.stationId;
    var all := OfStation(rs + [r], id);
    assert r in all by {
      KeepSnoc(rs, r, AtStation(id));
    }
    forall x | x in all && x != r ensures Timestamp(x) < Timestamp(r) {
      KeepMember(rs + [r], AtStation(id), x);
    }
    UniqueNewestSortsFirst(all, r);
  }

  /** A reading strictly newer than all others is first once sorted. */
  lemma UniqueNewestSortsFirst(all: seq<Reading>, r: Reading)
    requires r in all
    requires forall x :: x in all && x != r ==> Timestamp(x) < Timestamp(r)
    ensures |SortDesc(all, Timestamp)| > 0 && SortDesc(all, Timestamp)[0] == r
  {
    var sorted := SortDesc(all, Timestamp);
    SortDescSpec(all, Timestamp);
    assert r in sorted by {
      assert r in multiset(sorted);
    }
    var first := sorted[0];
    assert Timestamp(first) >= Timestamp(r) by {
      var m :| 0 <= m < |sorted| && sorted[m] == r;
    }
    assert first in all by {
      assert first in multiset(all);
    }
  }
}
