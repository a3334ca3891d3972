/** The `tracks` table (server/src/db/tracks.go) and what the rest of the server relies on about its rows. */
module Tracks {

  datatype Track = Track(
    id: int,
    sourceId: string,
    title: string,
    artist: string,
    duration: int,
    filePath: string,
    albumArtUrl: string,
    lastUsedAt: int)

  /** Two records of tracks name the same track by row id, by source id and by file path alike.
      UNIQUE(source, source_id) with the one source "youtube" gives the first half; the download
      template `<music>/youtube/<source id>.opus` gives the second. */
  predicate Agree(t: Track, u: Track) {
    && (t.id == u.id <==> t.sourceId == u.sourceId)
    && (t.id == u.id <==> t.filePath == u.filePath)
  }

  ghost predicate Consistent(ts: set<Track>) {
    forall t, u | t in ts && u in ts :: Agree(t, u)
  }

  function Ids(ts: seq<Track>): (r: seq<int>)
    ensures |r| == |ts|
    ensures forall i | 0 <= i < |ts| :: r[i] == ts[i].id
  {
    seq(|ts|, i requires 0 <= i < |ts| => ts[i].id)
  }

  function IdSet(ts: seq<Track>): set<int> {
    set t | t in ts :: t.id
  }

  predicate DistinctIds(ts: seq<Track>) {
    forall i, j | 0 <= i < j < |ts| :: ts[i].id != ts[j].id
  }

  lemma LastIsNew(init: seq<Track>, last: Track)
    requires DistinctIds(init + [last])
    ensures last.id !in IdSet(init) && DistinctIds(init)
  {
    var ts := init + [last];
    forall i | 0 <= i < |init| ensures init[i].id != last.id { assert ts[i].id != ts[|init|].id; }
    forall i, j | 0 <= i < j < |init| ensures init[i].id != init[j].id { assert ts[i].id != ts[j].id; }
  }

  lemma {:induction false} DistinctCount(ts: seq<Track>)
    requires DistinctIds(ts)
    ensures |IdSet(ts)| == |ts|
  {
    if ts == [] {
      assert IdSet(ts) == {};
    } else {
      var init, last := ts[..|ts| - 1], ts[|ts| - 1];
      assert ts == init + [last];
      LastIsNew(init, last);
      DistinctCount(init);
      AppendId(init, last);
    }
  }

  /** The two records say the same of a track but for when it was last used. */
  predicate SameRecord(t: Track, u: Track) {
    && t.id == u.id && t.sourceId == u.sourceId && t.title == u.title && t.artist == u.artist
    && t.duration == u.duration && t.filePath == u.filePath && t.albumArtUrl == u.albumArtUrl
  }

  // ---- the table ----

  type Rows = map<int, Track>

  ghost predicate WellKeyed(rows: Rows) {
    && (forall id | id in rows :: rows[id].id == id)
    && (forall i, j | i in rows && j in rows :: Agree(rows[i], rows[j]))
  }

  ghost predicate SortedByLastUsed(ts: seq<Track>) {
    forall i, j | 0 <= i < j < |ts| :: ts[i].lastUsedAt >= ts[j].lastUsedAt
  }

  /** `ts` holds each row exactly once, most recently used first; ties may come in any order. */
  ghost predicate IsListing(ts: seq<Track>, rows: Rows) {
    && DistinctIds(ts)
    && IdSet(ts) == rows.Keys
    && (forall i | 0 <= i < |ts| :: ts[i].id in rows && rows[ts[i].id] == ts[i])
    && SortedByLastUsed(ts)
  }

  /** One row, if it is there, has a new time of last use; nothing else changed. */
  ghost predicate OnlyStamped(before: Rows, after: Rows, id: int, now: int) {
    && after.Keys == before.Keys
    && (forall i | i in before && i != id :: after[i] == before[i])
    && (id in before ==> after[id].lastUsedAt == now && SameRecord(after[id], before[id]))
  }

  lemma Member<V>(s: set<V>) returns (v: V)
    requires s != {}
    ensures v in s
  {
    v :| v in s;
  }

  lemma {:induction false} NewestAmong(rows: Rows, ids: set<int>) returns (newest: int)
    requires ids != {} && ids <= rows.Keys
    ensures newest in ids && forall j | j in ids :: rows[j].lastUsedAt <= rows[newest].lastUsedAt
    decreases ids
  {
    newest := Member(ids);
    var rest := ids - {newest};
    assert ids == rest + {newest};
    if rest == {} {
      assert ids == {newest};
    } else {
      var other := NewestAmong(rows, rest);
      if rows[other].lastUsedAt > rows[newest].lastUsedAt {
        newest := other;
      }
    }
  }

  lemma NewestExists(rows: Rows)
    requires rows != map[]
    ensures exists id :: id in rows && forall j | j in rows :: rows[j].lastUsedAt <= rows[id].lastUsedAt
  {
    var newest := NewestAmong(rows, rows.Keys);
  }

  datatype Result<+T> = Ok(value: T) | Err

  class TrackTable {
    var rows: Rows
    var nextId: int

    ghost predicate Valid() reads this {
      WellKeyed(rows) && forall id | id in rows :: id < nextId
    }

    constructor ()
      ensures Valid() && rows == map[]
    {
      rows := map[];
      nextId := 1;
    }

    /** `ok` is whether the query ran: one whose context has ended fails with the row there. */
    method GetTrack(sourceId: string, ok: bool) returns (r: Result<Track>)
      requires Valid()
      ensures r.Ok? ==> r.value in rows.Values && r.value.sourceId == sourceId
      ensures r.Ok? <==> ok && exists id :: id in rows && rows[id].sourceId == sourceId
    {
      if ok {
        if id :| id in rows && rows[id].sourceId == sourceId {
          assert rows[id] in rows.Values;
          return Ok(rows[id]);
        }
      }
      return Err;
    }

    /** Inserts a row stamped with the clock; a source id that is already there violates the UNIQUE
        constraint and changes nothing. The path is the one the download template gives the source id.
        `inserted` and `readBack` are whether the two statements ran: the row stays when only the second
        fails, and the caller hears of an error. */
    method CreateTrack(sourceId: string, title: string, artist: string, filePath: string, duration: int,
                       albumArtUrl: string, now: int, inserted: bool, readBack: bool) returns (r: Result<Track>)
      requires Valid()
      requires forall id | id in rows :: rows[id].filePath == filePath <==> rows[id].sourceId == sourceId
      modifies this
      ensures Valid()
      ensures var taken := exists id :: id in old(rows) && old(rows)[id].sourceId == sourceId;
              && (rows == old(rows) <==> taken || !inserted)
              && (r.Ok? <==> !taken && inserted && readBack)
      ensures rows != old(rows) ==>
                && old(nextId) !in old(rows)
                && rows == old(rows)[old(nextId) :=
                             Track(old(nextId), sourceId, title, artist, duration, filePath, albumArtUrl, now)]
      ensures r.Ok? ==> r.value == rows[old(nextId)]
    {
      if id :| id in rows && rows[id].sourceId == sourceId {
        return Err;
      }
      if !inserted {
        return Err;
      }
      var id, t := nextId, Track(nextId, sourceId, title, artist, duration, filePath, albumArtUrl, now);
      rows := rows[id := t];
      nextId := id + 1;
      assert id in rows && id !in old(rows);
      if readBack {
        r := Ok(t);
      } else {
        r := Err;
      }
    }

    /** `ok` is whether the statement ran. */
    method UpdateTrackAlbumArtURL(trackId: int, albumArtUrl: string, ok: bool)
      requires Valid()
      modifies this`rows
      ensures Valid()
      ensures rows == if ok && trackId in old(rows)
                      then old(rows)[trackId := old(rows)[trackId].(albumArtUrl := albumArtUrl)] else old(rows)
    {
      if ok && trackId in rows {
        SameTrackKeepsKeys(rows, trackId, rows[trackId].(albumArtUrl := albumArtUrl));
        rows := rows[trackId := rows[trackId].(albumArtUrl := albumArtUrl)];
      }
    }

    /** `ok` is whether the statement ran: a cancelled request context makes it fail without effect. */
    method TouchTrackLastUsed(trackId: int, now: int, ok: bool)
      requires Valid()
      modifies this`rows
      ensures Valid()
      ensures rows == if ok then Stamp(old(rows), trackId, now) else old(rows)
      ensures ok ==> OnlyStamped(old(rows), rows, trackId, now)
    {
      if ok && trackId in rows {
        SameTrackKeepsKeys(rows, trackId, rows[trackId].(lastUsedAt := now));
        rows := rows[trackId := rows[trackId].(lastUsedAt := now)];
      }
    }

    method ListTracksByLastUsed() returns (tracks: seq<Track>)
      requires Valid()
      ensures IsListing(tracks, rows)
    {
      tracks := [];
      var rest := rows;
      while rest != map[]
        invariant PartialListing(tracks, rest, rows)
        decreases |rest|
      {
        NewestExists(rest);
        var id :| id in rest && forall j | j in rest :: rest[j].lastUsedAt <= rest[id].lastUsedAt;
        ExtendListing(tracks, rest, rows, id);
        tracks := tracks + [rest[id]];
        rest := rest - {id};
      }
    }
  }

  /** `tracks` lists the rows outside `rest`, none of them used before any row of `rest`. */
  ghost predicate PartialListing(tracks: seq<Track>, rest: Rows, rows: Rows) {
    && rest.Keys <= rows.Keys
    && (forall id | id in rest :: rest[id] == rows[id])
    && IdSet(tracks) == rows.Keys - rest.Keys
    && DistinctIds(tracks)
    && SortedByLastUsed(tracks)
    && (forall i | 0 <= i < |tracks| :: tracks[i].id in rows && rows[tracks[i].id] == tracks[i])
    && (forall i, id | 0 <= i < |tracks| && id in rest :: tracks[i].lastUsedAt >= rest[id].lastUsedAt)
  }

  lemma ExtendListing(tracks: seq<Track>, rest: Rows, rows: Rows, id: int)
    requires PartialListing(tracks, rest, rows) && WellKeyed(rows)
    requires id in rest && forall j | j in rest :: rest[j].lastUsedAt <= rest[id].lastUsedAt
    ensures PartialListing(tracks + [rest[id]], rest - {id}, rows)
  {
    AppendId(tracks, rest[id]);
    assert rest[id].id == id;
    forall i | 0 <= i < |tracks| ensures tracks[i].id != id {
      assert tracks[i].id in IdSet(tracks);
    }
  }

  function Stamp(rows: Rows, id: int, now: int): Rows {
    if id in rows then rows[id := rows[id].(lastUsedAt := now)] else rows
  }

  lemma SameTrackKeepsKeys(rows: Rows, id: int, t: Track)
    requires WellKeyed(rows) && id in rows
    requires t.id == id && t.sourceId == rows[id].sourceId && t.filePath == rows[id].filePath
    ensures WellKeyed(rows[id := t])
  {
    forall i | i in rows ensures Agree(t, rows[i]) && Agree(rows[i], t) {
      assert Agree(rows[id], rows[i]);
    }
  }

  lemma AppendId(ts: seq<Track>, t: Track)
    ensures IdSet(ts + [t]) == IdSet(ts) + {t.id}
  {
    assert forall u :: u in ts + [t] <==> u in ts || u == t;
  }
}
