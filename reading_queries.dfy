/** The reading queries the routes issue against the reading collection,
    stated over the collection as a sequence in insertion order:
    `find({ stationId }).sort({ timestamp: -1 }).limit(n)` and the 24-hour
    `find({ stationId, timestamp: { $gte: cutoff } })`. */
module ReadingQueries {
  import opened Domain
  import opened Seqs

  /** The sort key `{ timestamp: -1 }` orders by. */
  function Timestamp(r: Reading): real
  {
    r.timestamp as real
  }

  /** The filter `{ stationId: id }`. */
  function AtStation(id: string): Reading -> bool
  {
    (r: Reading) => r.stationId == id
  }

  /** The filter `{ timestamp: { $gte: cutoff } }`. */
  function NotBefore(cutoff: int): Reading -> bool
  {
    (r: Reading) => r.timestamp >= cutoff
  }

  /** A station's readings in collection order. */
  function OfStation(rs: seq<Reading>, id: string): (w: seq<Reading>)
    ensures forall k :: 0 <= k < |w| ==> w[k].stationId == id
  {
    Keep(rs, AtStation(id))
  }

  /** `find({ stationId }).sort({ timestamp: -1 }).limit(limit)`: that
      station's newest `limit` readings, newest first. */
  function Recent(rs: seq<Reading>, id: string, limit: nat): seq<Reading>
  {
    Take(SortDesc(OfStation(rs, id), Timestamp), limit)
  }

  /** The window a per-station loop fetches for each station, in station order. */
  function Windows(stations: seq<Station>, rs: seq<Reading>, limit: nat): (ws: seq<seq<Reading>>)
    ensures |ws| == |stations|
    ensures forall k :: 0 <= k < |stations| ==> ws[k] == Recent(rs, stations[k].stationId, limit)
  {
    seq(|stations|, k requires 0 <= k < |stations| => Recent(rs, stations[k].stationId, limit))
  }

  /** `find().sort({ timestamp: -1 }).limit(limit)` over every station. */
  function RecentAll(rs: seq<Reading>, limit: nat): seq<Reading>
  {
    Take(SortDesc(rs, Timestamp), limit)
  }

  /** `find({ stationId, timestamp: { $gte: cutoff } })`, in collection order. */
  function Since(rs: seq<Reading>, id: string, cutoff: int): (w: seq<Reading>)
    ensures forall k :: 0 <= k < |w| ==> w[k].timestamp >= cutoff
  {
    Keep(OfStation(rs, id), NotBefore(cutoff))
  }

  /** A prefix of a sorted sequence is sorted. */
  lemma TakeSorted(s: seq<Reading>, n: nat)
    requires SortedDesc(s, Timestamp)
    ensures SortedDesc(Take(s, n), Timestamp)
  {
    var t := Take(s, n);
    forall i, j | 0 <= i < j < |t| ensures Timestamp(t[i]) >= Timestamp(t[j]) {
      assert t[i] == s[i] && t[j] == s[j];
    }
  }

  /** Every element of a prefix comes from the sequence. */
  lemma TakeMember(s: seq<Reading>, n: nat, x: Reading)
    requires x in Take(s, n)
    ensures x in s
  {
    var k :| 0 <= k < |Take(s, n)| && Take(s, n)[k] == x;
    assert s[k] == x;
  }

  /** The window holds only the station's own stored readings, newest first,
      and as many as the limit allows: all of them when there are fewer. */
  lemma RecentWindow(rs: seq<Reading>, id: string, limit: nat)
    ensures var w := Recent(rs, id, limit);
            var all := |OfStation(rs, id)|;
            |w| == (if limit <= all then limit else all)
            && (forall k :: 0 <= k < |w| ==> w[k].stationId == id && w[k] in rs)
            && SortedDesc(w, Timestamp)
  {
    var sorted := SortDesc(OfStation(rs, id), Timestamp);
    SortDescSpec(OfStation(rs, id), Timestamp);
    var w := Recent(rs, id, limit);
    TakeSorted(sorted, limit);
    forall k | 0 <= k < |w| ensures w[k].stationId == id && w[k] in rs {
      TakeMember(sorted, limit, w[k]);
      assert w[k] in multiset(sorted);
      assert w[k] in OfStation(rs, id);
      KeepMember(rs, AtStation(id), w[k]);
    }
  }

  /** The newest reading in the window is at least as new as any reading of
      the station left out of it. */
  lemma RecentIsNewest(rs: seq<Reading>, id: string, limit: nat, r: Reading)
    requires r in rs && r.stationId == id && r !in Recent(rs, id, limit)
    ensures forall k :: 0 <= k < |Recent(rs, id, limit)| ==> Recent(rs, id, limit)[k].timestamp >= r.timestamp
  {
    var sorted := SortDesc(OfStation(rs, id), Timestamp);
    SortDescSpec(OfStation(rs, id), Timestamp);
    KeepMember(rs, AtStation(id), r);
    assert r in multiset(OfStation(rs, id));
    assert r in multiset(sorted);
    var m :| 0 <= m < |sorted| && sorted[m] == r;
    var w := Recent(rs, id, limit);
    assert m >= |w|;
    forall k | 0 <= k < |w| ensures w[k].timestamp >= r.timestamp {
      assert w[k] == sorted[k];
    }
  }

  /** The 24-hour window holds exactly the station's stored readings at or
      after the cutoff. */
  lemma SinceMember(rs: seq<Reading>, id: string, cutoff: int, r: Reading)
    ensures r in Since(rs, id, cutoff) <==> r in rs && r.stationId == id && r.timestamp >= cutoff
  {
    KeepMember(OfStation(rs, id), NotBefore(cutoff), r);
    KeepMember(rs, AtStation(id), r);
  }
}
