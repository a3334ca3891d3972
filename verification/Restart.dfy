/** What a restarted server rebuilds from the table, against what the running one has in memory. */
module Restart {
  import opened Collections
  import opened Tracks
  import opened RecencyWindow

  /** `w` shows the same tracks in the same order as a cache built from some answer the table may give. */
  ghost predicate MatchesRestart(w: seq<Track>, rows: Rows) {
    exists listing :: IsListing(listing, rows) && Ids(w) == Ids(Newest(listing))
  }

  /** A track used at time `now`; its row is created in the same step if there is none. */
  datatype Use = Use(track: Track, now: int)

  function Mark(rows: Rows, u: Use): Rows {
    if u.track.id in rows then Stamp(rows, u.track.id, u.now)
    else rows[u.track.id := u.track.(lastUsedAt := u.now)]
  }

  datatype Server = Server(rows: Rows, window: seq<Track>)

  function Play(s: Server, uses: seq<Use>): Server
    decreases uses
  {
    if uses == [] then s
    else Play(Server(Mark(s.rows, uses[0]), TouchWindow(s.window, uses[0].track, {})), uses[1..])
  }

  /** Every use is of a track that agrees with the rows, and later than every row's last use so far. */
  ghost predicate Orderly(rows: Rows, uses: seq<Use>)
    decreases uses
  {
    uses != [] ==>
      && (forall id | id in rows :: rows[id].lastUsedAt < uses[0].now && Agree(uses[0].track, rows[id]))
      && Orderly(Mark(rows, uses[0]), uses[1..])
  }

  // ---- with nothing in use, eviction is truncation ----

  lemma {:induction false} NothingPinned(w: seq<Track>, n: nat)
    requires n <= |w|
    ensures UnpinnedCount(w, {}) == |w| && DropOldest(w, {}, n) == w[..|w| - n]
  {
    if w != [] {
      NothingPinned(w[..|w| - 1], if n == 0 then 0 else n - 1);
    }
  }

  lemma TouchTruncates(w: seq<Track>, t: Track)
    ensures TouchWindow(w, t, {}) == Newest(Promote(w, t))
  {
    var p := Promote(w, t);
    NothingPinned(p, if |p| > CACHE_WINDOW then |p| - CACHE_WINDOW else 0);
  }

  // ---- only ids matter ----

  function IdsWithout(ids: seq<int>, id: int): seq<int> {
    if ids == [] then [] else (if ids[0] == id then [] else [ids[0]]) + IdsWithout(ids[1..], id)
  }

  lemma {:induction false} WithoutOnIds(w: seq<Track>, id: int)
    ensures Ids(Without(w, id)) == IdsWithout(Ids(w), id)
  {
    if w != [] {
      WithoutOnIds(w[1..], id);
      assert Ids(w)[1..] == Ids(w[1..]);
      if w[0].id != id { IdsCons(w[0], Without(w[1..], id)); } else { assert Without(w, id) == Without(w[1..], id); }
    }
  }

  lemma IdsCons(t: Track, w: seq<Track>)
    ensures Ids([t] + w) == [t.id] + Ids(w)
  {
  }

  lemma NewestSameIds(a: seq<Track>, b: seq<Track>)
    requires Ids(a) == Ids(b)
    ensures Ids(Newest(a)) == Ids(Newest(b))
  {
    assert |a| == |Ids(a)| == |b|;
    forall i | 0 <= i < |Newest(a)| ensures Newest(a)[i].id == Newest(b)[i].id {
      assert Ids(a)[i] == Ids(b)[i];
    }
  }

  /** Truncating before or after a promotion leaves the same window. */
  lemma NewestAbsorbs(listing: seq<Track>, t: Track)
    requires DistinctIds(listing)
    ensures Newest(Promote(Newest(listing), t)) == Newest(Promote(listing, t))
  {
    if t.id in IdSet(listing) {
      var u :| u in listing && u.id == t.id;
      var i :| 0 <= i < |listing| && listing[i] == u;
      AbsorbKnown(listing, t, i);
    } else {
      WithoutAbsent(listing, t.id);
      WithoutAbsent(Newest(listing), t.id);
    }
  }

  lemma AbsorbKnown(listing: seq<Track>, t: Track, i: nat)
    requires DistinctIds(listing) && i < |listing| && listing[i].id == t.id
    ensures Newest(Promote(Newest(listing), t)) == Newest(Promote(listing, t))
  {
    var head := Newest(listing);
    WithoutIsRemoveAt(listing, i);
    if i < |head| {
      WithoutIsRemoveAt(head, i);
      HeadOfRemoval(listing, t, i);
    } else {
      AbsentFromHead(listing, i);
      WithoutAbsent(head, t.id);
      assert ([t] + RemoveAt(listing, i))[..CACHE_WINDOW] == ([t] + head)[..CACHE_WINDOW];
    }
  }

  lemma HeadOfRemoval(listing: seq<Track>, t: Track, i: nat)
    requires i < |Newest(listing)|
    ensures Newest([t] + RemoveAt(Newest(listing), i)) == Newest([t] + RemoveAt(listing, i))
  {
  }

  lemma AbsentFromHead(listing: seq<Track>, i: nat)
    requires DistinctIds(listing) && |Newest(listing)| <= i < |listing|
    ensures listing[i].id !in IdSet(Newest(listing))
  {
    forall u | u in Newest(listing) ensures u.id != listing[i].id {
      var j :| 0 <= j < |Newest(listing)| && Newest(listing)[j] == u;
      assert listing[j] == u;
    }
  }

  // ---- one use ----

  /** Stamping a row with a later time moves it to the front of the table's listing. */
  lemma ListingAfterMark(listing: seq<Track>, rows: Rows, u: Use)
    requires IsListing(listing, rows) && WellKeyed(rows)
    requires forall id | id in rows :: rows[id].lastUsedAt < u.now
    ensures IsListing(Promote(listing, Mark(rows, u)[u.track.id]), Mark(rows, u))
  {
    var rows' := Mark(rows, u);
    var t := rows'[u.track.id];
    var rest := Without(listing, t.id);
    PromoteKeepsDistinct(listing, t);
    SortedWithout(listing, t.id);
    forall r | r in rest ensures r.id in rows && r.id != t.id && rows[r.id] == r { ListedRow(listing, rows, r); }
    FrontAndRest(t, rest, rows, rows');
  }

  lemma ListedRow(listing: seq<Track>, rows: Rows, r: Track)
    requires IsListing(listing, rows) && r in listing
    ensures r.id in rows && rows[r.id] == r
  {
    var i :| 0 <= i < |listing| && listing[i] == r;
  }

  lemma FrontAndRest(t: Track, rest: seq<Track>, rows: Rows, rows': Rows)
    requires rows' == rows[t.id := t] && DistinctIds([t] + rest) && IdSet([t] + rest) == rows.Keys + {t.id}
    requires forall r | r in rest :: r.id in rows && r.id != t.id && rows[r.id] == r
    requires SortedByLastUsed(rest) && forall id | id in rows :: rows[id].lastUsedAt < t.lastUsedAt
    ensures IsListing([t] + rest, rows')
  {
    var all := [t] + rest;
    forall i | 0 <= i < |all| ensures all[i].id in rows' && rows'[all[i].id] == all[i] {
      if i > 0 { assert rest[i - 1] in rest; }
    }
    forall i, j | 0 <= i < j < |all| ensures all[i].lastUsedAt >= all[j].lastUsedAt {
      assert rest[j - 1] in rest;
    }
  }

  lemma SortedRemoveAt(listing: seq<Track>, i: nat)
    requires SortedByLastUsed(listing) && i < |listing|
    ensures SortedByLastUsed(RemoveAt(listing, i))
  {
    var r := RemoveAt(listing, i);
    forall j, k | 0 <= j < k < |r| ensures r[j].lastUsedAt >= r[k].lastUsedAt {
      assert r[j] == listing[if j < i then j else j + 1] && r[k] == listing[if k < i then k else k + 1];
    }
  }

  lemma SortedWithout(listing: seq<Track>, id: int)
    requires SortedByLastUsed(listing) && DistinctIds(listing)
    ensures SortedByLastUsed(Without(listing, id))
  {
    if id in IdSet(listing) {
      var u :| u in listing && u.id == id;
      var i :| 0 <= i < |listing| && listing[i] == u;
      WithoutIsRemoveAt(listing, i);
      SortedRemoveAt(listing, i);
    } else {
      WithoutAbsent(listing, id);
    }
  }

  lemma PromoteSameIds(a: seq<Track>, t: Track, b: seq<Track>, u: Track)
    requires Ids(a) == Ids(b) && t.id == u.id
    ensures Ids(Promote(a, t)) == Ids(Promote(b, u))
  {
    WithoutOnIds(a, t.id);
    WithoutOnIds(b, t.id);
    IdsCons(t, Without(a, t.id));
    IdsCons(u, Without(b, t.id));
  }

  lemma UseKeepsMatch(s: Server, u: Use)
    requires MatchesRestart(s.window, s.rows) && WellKeyed(s.rows)
    requires forall id | id in s.rows :: s.rows[id].lastUsedAt < u.now
    ensures MatchesRestart(TouchWindow(s.window, u.track, {}), Mark(s.rows, u))
  {
    var listing :| IsListing(listing, s.rows) && Ids(s.window) == Ids(Newest(listing));
    var t := Mark(s.rows, u)[u.track.id];
    ListingAfterMark(listing, s.rows, u);
    TouchTruncates(s.window, u.track);
    PromoteSameIds(s.window, u.track, Newest(listing), t);
    NewestSameIds(Promote(s.window, u.track), Promote(Newest(listing), t));
    NewestAbsorbs(listing, t);
    assert Ids(TouchWindow(s.window, u.track, {})) == Ids(Newest(Promote(listing, t)));
  }

  // ---- whole runs ----

  lemma MarkKeepsKeys(rows: Rows, u: Use)
    requires WellKeyed(rows) && forall id | id in rows :: Agree(u.track, rows[id])
    ensures WellKeyed(Mark(rows, u))
  {
    if u.track.id in rows {
      SameTrackKeepsKeys(rows, u.track.id, Mark(rows, u)[u.track.id]);
    }
  }

  /** From a freshly hydrated cache, any run of uses with nothing queued and an advancing clock leaves in
      memory what a restart would rebuild. */
  lemma {:induction false} RestartEquivalence(s: Server, uses: seq<Use>)
    requires MatchesRestart(s.window, s.rows) && WellKeyed(s.rows) && Orderly(s.rows, uses)
    ensures var r := Play(s, uses); MatchesRestart(r.window, r.rows) && WellKeyed(r.rows)
    decreases uses
  {
    if uses != [] {
      var u := uses[0];
      UseKeepsMatch(s, u);
      MarkKeepsKeys(s.rows, u);
      RestartEquivalence(Server(Mark(s.rows, u), TouchWindow(s.window, u.track, {})), uses[1..]);
    }
  }

  // ---- what the records say ----

  lemma MarkOnlyStamps(rows: Rows, u: Use)
    ensures if u.track.id in rows then OnlyStamped(rows, Mark(rows, u), u.track.id, u.now)
            else Mark(rows, u).Keys == rows.Keys + {u.track.id}
                 && (forall id | id in rows :: Mark(rows, u)[id] == rows[id])
                 && Mark(rows, u)[u.track.id].lastUsedAt == u.now && SameRecord(Mark(rows, u)[u.track.id], u.track)
  {
  }

  /** Over every run of uses no row goes, and none changes but in when it was last used. */
  lemma {:induction false} UsesKeepRecords(s: Server, uses: seq<Use>, id: int)
    requires id in s.rows
    ensures id in Play(s, uses).rows && SameRecord(Play(s, uses).rows[id], s.rows[id])
    decreases uses
  {
    if uses != [] {
      MarkOnlyStamps(s.rows, uses[0]);
      UsesKeepRecords(Server(Mark(s.rows, uses[0]), TouchWindow(s.window, uses[0].track, {})), uses[1..], id);
    }
  }

  /** A record used with what the table says of its track. */
  ghost predicate AsRecorded(rows: Rows, t: Track) {
    t.id in rows && SameRecord(rows[t.id], t)
  }

  ghost predicate WindowAsRecorded(s: Server) {
    forall t | t in s.window :: AsRecorded(s.rows, t)
  }

  ghost predicate UsedAsRecorded(rows: Rows, uses: seq<Use>)
    decreases uses
  {
    uses != [] ==>
      && (uses[0].track.id in rows ==> SameRecord(rows[uses[0].track.id], uses[0].track))
      && UsedAsRecorded(Mark(rows, uses[0]), uses[1..])
  }

  lemma UseAsRecorded(s: Server, u: Use)
    requires WindowAsRecorded(s) && (u.track.id in s.rows ==> SameRecord(s.rows[u.track.id], u.track))
    ensures WindowAsRecorded(Server(Mark(s.rows, u), TouchWindow(s.window, u.track, {})))
  {
    MarkOnlyStamps(s.rows, u);
    TouchTruncates(s.window, u.track);
    var p := Promote(s.window, u.track);
    assert forall t | t in p :: t == u.track || t in s.window;
    assert forall t | t in Newest(p) :: t in p;
  }

  /** Where tracks are used with what the table says of them, memory and a restart agree on every field of every
      track but the time of last use. */
  lemma {:induction false} WindowShowsRecords(s: Server, uses: seq<Use>)
    requires WindowAsRecorded(s) && UsedAsRecorded(s.rows, uses)
    ensures WindowAsRecorded(Play(s, uses))
    decreases uses
  {
    if uses != [] {
      UseAsRecorded(s, uses[0]);
      WindowShowsRecords(Server(Mark(s.rows, uses[0]), TouchWindow(s.window, uses[0].track, {})), uses[1..]);
    }
  }

  // ---- no ties, one answer ----

  ghost predicate DistinctStamps(rows: Rows) {
    forall i, j | i in rows && j in rows && i != j :: rows[i].lastUsedAt != rows[j].lastUsedAt
  }

  lemma {:induction false} StampsStayDistinct(s: Server, uses: seq<Use>)
    requires DistinctStamps(s.rows) && Orderly(s.rows, uses)
    ensures DistinctStamps(Play(s, uses).rows)
    decreases uses
  {
    if uses != [] {
      StampsStayDistinct(Server(Mark(s.rows, uses[0]), TouchWindow(s.window, uses[0].track, {})), uses[1..]);
    }
  }

  /** The row a listing starts with is the one used last. */
  lemma FirstListed(listing: seq<Track>, rows: Rows)
    requires IsListing(listing, rows) && rows != map[]
    ensures listing != [] && forall id | id in rows :: rows[id].lastUsedAt <= listing[0].lastUsedAt
  {
    var k := Member(rows.Keys);
    assert k in IdSet(listing);
    forall id | id in rows ensures rows[id].lastUsedAt <= listing[0].lastUsedAt {
      assert id in IdSet(listing);
      var t :| t in listing && t.id == id;
      var i :| 0 <= i < |listing| && listing[i] == t;
    }
  }

  lemma RestIds(listing: seq<Track>)
    requires DistinctIds(listing) && listing != []
    ensures IdSet(listing[1..]) == IdSet(listing) - {listing[0].id}
  {
    var first, rest := listing[0], listing[1..];
    assert forall t :: t in listing <==> t == first || t in rest by { assert listing == [first] + rest; }
    forall t | t in rest ensures t.id != first.id {
      var i :| 0 <= i < |rest| && rest[i] == t;
      assert listing[i + 1] == t;
    }
  }

  lemma RestListed(listing: seq<Track>, rows: Rows)
    requires IsListing(listing, rows) && listing != []
    ensures IsListing(listing[1..], rows - {listing[0].id})
  {
    RestIds(listing);
    forall i | 0 <= i < |listing| - 1
      ensures listing[1..][i].id in rows && listing[1..][i].id != listing[0].id && rows[listing[1..][i].id] == listing[1..][i]
    {
      assert listing[1..][i] == listing[i + 1];
    }
  }

  lemma {:induction false} ListingUnique(a: seq<Track>, b: seq<Track>, rows: Rows)
    requires IsListing(a, rows) && IsListing(b, rows) && DistinctStamps(rows)
    ensures a == b
    decreases |a|
  {
    assert |a| == |b| by {
      DistinctCount(a);
      DistinctCount(b);
    }
    if a != [] {
      assert a[0].id in rows;
      FirstListed(a, rows);
      FirstListed(b, rows);
      assert a[0] == b[0];
      RestListed(a, rows);
      RestListed(b, rows);
      ListingUnique(a[1..], b[1..], rows - {a[0].id});
      assert a == [a[0]] + a[1..] && b == [b[0]] + b[1..];
    }
  }

  /** Without ties the table has one answer, and memory matches it after every run. */
  lemma RestartEquivalenceWithoutTies(s: Server, uses: seq<Use>, listing: seq<Track>)
    requires MatchesRestart(s.window, s.rows) && WellKeyed(s.rows) && Orderly(s.rows, uses)
    requires DistinctStamps(s.rows) && IsListing(listing, Play(s, uses).rows)
    ensures Ids(Play(s, uses).window) == Ids(Newest(listing))
  {
    RestartEquivalence(s, uses);
    StampsStayDistinct(s, uses);
    var r := Play(s, uses);
    var other :| IsListing(other, r.rows) && Ids(r.window) == Ids(Newest(other));
    ListingUnique(other, listing, r.rows);
  }

  lemma PromotedFirst(w: seq<Track>, t: Track)
    requires DistinctIds(w) && t in w
    ensures w != [] && Ids(Promote(w, t))[0] == t.id
    ensures w[0].id == t.id ==> Promote(w, t) == w
  {
    var i :| 0 <= i < |w| && w[i] == t;
    WithoutIsRemoveAt(w, i);
    if w[0].id == t.id {
      assert i == 0 && [w[0]] + w[1..] == w;
    }
  }

  lemma MatchDetermined(w: seq<Track>, v: seq<Track>, rows: Rows)
    requires MatchesRestart(w, rows) && DistinctStamps(rows) && MatchesRestart(v, rows)
    ensures Ids(w) == Ids(v)
  {
    var listing :| IsListing(listing, rows) && Ids(w) == Ids(Newest(listing));
    var other :| IsListing(other, rows) && Ids(v) == Ids(Newest(other));
    ListingUnique(listing, other, rows);
  }

  /** A cache hit is not written to the table: memory still matches a restart exactly when the track hit
      was at the front already. */
  lemma GetKeepsMatchIff(w: seq<Track>, rows: Rows, sourceId: string)
    requires MatchesRestart(w, rows) && DistinctStamps(rows) && DistinctIds(w) && Lookup(w, sourceId).Ok?
    ensures MatchesRestart(GetWindow(w, sourceId), rows) <==> w[0].id == Lookup(w, sourceId).value.id
  {
    var t := Lookup(w, sourceId).value;
    LookupFinds(w, sourceId);
    PromotedFirst(w, t);
    if MatchesRestart(GetWindow(w, sourceId), rows) {
      MatchDetermined(w, GetWindow(w, sourceId), rows);
      assert Ids(w)[0] == w[0].id;
    }
  }
}
