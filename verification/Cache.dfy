/** The track cache (server/src/music/cache.go): a recency list, two hash indexes into it, and an
    eviction loop that passes over tracks in use and deletes the files of those it evicts. */
module Cache {
  import opened Collections
  import opened Tracks
  import opened RecencyWindow

  /** The files in the music directory. Removing a path in `stuck` fails; the cache only logs that. */
  class Disk {
    var files: set<string>
    const stuck: set<string>

    constructor (files: set<string>, stuck: set<string>)
      ensures this.files == files && this.stuck == stuck
    {
      this.files, this.stuck := files, stuck;
    }

    method Remove(path: string)
      modifies this
      ensures files == old(files) - ({path} - stuck)
    {
      if path !in stuck {
        files := files - {path};
      }
    }
  }

  class Element {
    var value: Track

    constructor (value: Track)
      ensures this.value == value
    {
      this.value := value;
    }
  }

  /** container/list as documented: handles stay valid while their element moves. */
  class List {
    var elems: seq<Element>

    ghost predicate Valid() reads this {
      forall i, j | 0 <= i < j < |elems| :: elems[i] != elems[j]
    }

    constructor ()
      ensures Valid() && elems == []
    {
      elems := [];
    }

    method PushFront(t: Track) returns (el: Element)
      requires Valid()
      modifies this
      ensures fresh(el) && el.value == t && elems == [el] + old(elems) && Valid()
    {
      el := new Element(t);
      elems := [el] + elems;
    }

    method PushBack(t: Track) returns (el: Element)
      requires Valid()
      modifies this
      ensures fresh(el) && el.value == t && elems == old(elems) + [el] && Valid()
    {
      el := new Element(t);
      elems := elems + [el];
    }

    method MoveToFront(el: Element, ghost at: nat)
      requires Valid() && at < |elems| && elems[at] == el
      modifies this
      ensures Valid() && elems == Forward(old(elems), at)
    {
      var i :| 0 <= i < |elems| && elems[i] == el;
      elems := [el] + (elems[..i] + elems[i + 1..]);
    }

    method Remove(el: Element, ghost at: nat)
      requires Valid() && at < |elems| && elems[at] == el
      modifies this
      ensures Valid() && elems == old(elems)[..at] + old(elems)[at + 1..]
    {
      var i :| 0 <= i < |elems| && elems[i] == el;
      elems := elems[..i] + elems[i + 1..];
    }

    method Back() returns (el: Element?)
      ensures el == if elems == [] then null else elems[|elems| - 1]
    {
      if elems == [] { el := null; } else { el := elems[|elems| - 1]; }
    }

    method Prev(el: Element, ghost at: nat) returns (before: Element?)
      requires Valid() && at < |elems| && elems[at] == el
      ensures before == if at == 0 then null else elems[at - 1]
    {
      var i :| 0 <= i < |elems| && elems[i] == el;
      if i == 0 { before := null; } else { before := elems[i - 1]; }
    }
  }

  ghost function Values(elems: seq<Element>): (r: seq<Track>)
    reads elems
    ensures |r| == |elems| && forall i | 0 <= i < |elems| :: r[i] == elems[i].value
  {
    seq(|elems|, i requires 0 <= i < |elems| reads elems => elems[i].value)
  }

  lemma ValuesExtend(el: Element, elems: seq<Element>)
    ensures Values([el] + elems) == [el.value] + Values(elems)
    ensures Values(elems + [el]) == Values(elems) + [el.value]
  {
  }

  lemma ValuesMembers(elems: seq<Element>)
    ensures forall e | e in elems :: e.value in Values(elems)
    ensures forall t | t in Values(elems) :: exists e :: e in elems && e.value == t
  {
    forall e | e in elems ensures e.value in Values(elems) {
      var i :| 0 <= i < |elems| && elems[i] == e;
      assert Values(elems)[i] == e.value;
    }
  }

  /** Both indexes describe exactly the elements: each is filed under the id and the source id of the
      track it holds, and nothing else is filed. Handles being distinct, no id occurs twice. */
  ghost predicate Indexes(elems: seq<Element>, nodes: map<int, Element>, bySource: map<string, Element>)
    reads elems
  {
    && (forall el | el in elems :: Filed(el, nodes, bySource))
    && (forall id | id in nodes :: nodes[id] in elems && nodes[id].value.id == id)
    && (forall s | s in bySource :: bySource[s] in elems && bySource[s].value.sourceId == s)
  }

  ghost predicate Filed(el: Element, nodes: map<int, Element>, bySource: map<string, Element>)
    reads el
  {
    && el.value.id in nodes && nodes[el.value.id] == el
    && el.value.sourceId in bySource && bySource[el.value.sourceId] == el
  }

  lemma FileNew(elems: seq<Element>, nodes: map<int, Element>, bySource: map<string, Element>, el: Element, more: seq<Element>)
    requires Indexes(elems, nodes, bySource)
    requires forall e | e in elems :: Agree(el.value, e.value) && el.value.id != e.value.id
    requires more == elems + [el] || more == [el] + elems
    ensures Indexes(more, nodes[el.value.id := el], bySource[el.value.sourceId := el])
  {
    assert forall e :: e in more <==> e in elems || e == el;
  }

  lemma IndexedDistinct(elems: seq<Element>, nodes: map<int, Element>, bySource: map<string, Element>)
    requires Indexes(elems, nodes, bySource)
    requires forall i, j | 0 <= i < j < |elems| :: elems[i] != elems[j]
    ensures DistinctIds(Values(elems))
  {
    forall i, j | 0 <= i < j < |elems| ensures elems[i].value.id != elems[j].value.id {
      assert Filed(elems[i], nodes, bySource) && Filed(elems[j], nodes, bySource);
    }
  }

  class TrackCache {
    const db: TrackTable
    const disk: Disk
    const window: List
    var windowNodes: map<int, Element>
    var bySourceId: map<string, Element>

    ghost function Tracks(): seq<Track>
      reads this, window, window.elems
    {
      Values(window.elems)
    }

    ghost predicate Indexed()
      reads this, window, window.elems
    {
      window.Valid() && Indexes(window.elems, windowNodes, bySourceId)
    }

    ghost predicate Valid()
      reads this, window, window.elems, db
    {
      db.Valid() && Indexed()
    }

    /** Rebuilds the window from the most recently used rows. */
    constructor (db: TrackTable, disk: Disk)
      requires db.Valid()
      ensures Valid() && this.db == db && this.disk == disk && fresh(window) && fresh(window.elems)
      ensures exists listing :: IsListing(listing, db.rows) && Tracks() == Newest(listing)
    {
      this.db, this.disk := db, disk;
      window := new List();
      windowNodes, bySourceId := map[], map[];
      new;
      var tracks := db.ListTracksByLastUsed();
      ghost var listing := tracks;
      ListingAgrees(listing, db.rows);
      if |tracks| > CACHE_WINDOW {
        tracks := tracks[..CACHE_WINDOW];
      }
      Hydrate(tracks);
    }

    method Hydrate(tracks: seq<Track>)
      requires Indexed() && window.elems == []
      requires PairwiseDistinct(tracks)
      modifies this, window
      ensures Indexed() && Tracks() == tracks && fresh(window.elems)
    {
      for n := 0 to |tracks|
        invariant fresh(window.elems)
        invariant Indexed() && Tracks() == tracks[..n]
      {
        NewToValues(window.elems, tracks, n);
        PushBackTrack(tracks[n]);
        assert tracks[..n + 1] == tracks[..n] + [tracks[n]];
      }
      assert tracks[..|tracks|] == tracks;
    }

    method PushBackTrack(t: Track)
      requires Indexed()
      requires forall e | e in window.elems :: Agree(t, e.value) && t.id != e.value.id
      modifies this`windowNodes, this`bySourceId, window
      ensures Indexed() && Tracks() == old(Tracks()) + [t]
      ensures |window.elems| == |old(window.elems)| + 1
      ensures window.elems == old(window.elems) + [window.elems[|old(window.elems)|]]
      ensures fresh(window.elems[|old(window.elems)|])
    {
      var el := window.PushBack(t);
      ValuesExtend(el, old(window.elems));
      FileNew(old(window.elems), windowNodes, bySourceId, el, window.elems);
      windowNodes := windowNodes[t.id := el];
      bySourceId := bySourceId[t.sourceId := el];
    }

    /** A hit is exactly a track of the window with this source id; it moves to the front, and neither
        the table nor any file is touched. */
    method Get(sourceId: string) returns (r: Result<Track>)
      requires Valid()
      modifies window
      ensures Valid()
      ensures r == Lookup(old(Tracks()), sourceId) && Tracks() == GetWindow(old(Tracks()), sourceId)
    {
      IndexLookup(window.elems, windowNodes, bySourceId, sourceId);
      if sourceId !in bySourceId {
        return Err;
      }
      var el := bySourceId[sourceId];
      BringForward(el);
      return Ok(el.value);
    }

    method BringForward(el: Element)
      requires Indexed() && el in window.elems
      modifies window
      ensures Indexed() && Tracks() == Promote(old(Tracks()), el.value)
    {
      ghost var before := window.elems;
      ghost var at :| 0 <= at < |before| && before[at] == el;
      IndexedDistinct(before, windowNodes, bySourceId);
      window.MoveToFront(el, at);
      ForwardValues(before, at);
      ForwardIndexes(before, windowNodes, bySourceId, at);
    }

    /** Marks a track as used, in the table and at the front of the window, then evicts; a failed
        statement (`dbOk` false) does nothing at all. The caller's track agrees with those cached. */
    method Touch(track: Track, inUse: set<int>, now: int, dbOk: bool)
      requires Valid() && forall u | u in Tracks() :: Agree(track, u)
      modifies this`windowNodes, this`bySourceId, window, window.elems, disk, db`rows
      ensures Valid()
      ensures !dbOk ==> db.rows == old(db.rows) && Tracks() == old(Tracks())
      ensures dbOk ==> db.rows == Stamp(old(db.rows), track.id, now) && OnlyStamped(old(db.rows), db.rows, track.id, now)
      ensures dbOk ==> Tracks() == TouchWindow(old(Tracks()), track, inUse)
      ensures var lost := if dbOk then Lost(Promote(old(Tracks()), track), Tracks()) else {};
              disk.files == old(disk.files) - (Paths(lost) - disk.stuck)
    {
      db.TouchTrackLastUsed(track.id, now, dbOk);
      if !dbOk {
        return;
      }
      PutInFront(track);
      EvictOver(inUse);
    }

    method PutInFront(track: Track)
      requires Indexed() && forall u | u in Tracks() :: Agree(track, u)
      modifies this`windowNodes, this`bySourceId, window, window.elems
      ensures Indexed() && Tracks() == Promote(old(Tracks()), track)
    {
      ghost var before := window.elems;
      ghost var tracks := Tracks();
      ValuesMembers(before);
      if track.id in windowNodes {
        var el := windowNodes[track.id];
        ghost var at :| 0 <= at < |before| && before[at] == el;
        Replace(el, track, at);
        WithoutReplaced(tracks, at, track);
        BringForward(el);
      } else {
        WithoutUnfiled(before, windowNodes, bySourceId, track);
        PushFrontTrack(track);
      }
    }

    method Replace(el: Element, t: Track, ghost at: nat)
      requires Indexed() && at < |window.elems| && window.elems[at] == el
      requires el.value.id == t.id && forall e | e in window.elems :: Agree(t, e.value)
      modifies el
      ensures Indexed() && el.value == t && Tracks() == old(Tracks())[at := t]
    {
      el.value := t;
    }

    method PushFrontTrack(t: Track)
      requires Indexed()
      requires forall e | e in window.elems :: Agree(t, e.value) && t.id != e.value.id
      modifies this`windowNodes, this`bySourceId, window
      ensures Indexed() && Tracks() == [t] + old(Tracks())
    {
      var el := window.PushFront(t);
      ValuesExtend(el, old(window.elems));
      FileNew(old(window.elems), windowNodes, bySourceId, el, window.elems);
      windowNodes := windowNodes[t.id := el];
      bySourceId := bySourceId[t.sourceId := el];
    }

    /** After `k` of the evictions that window `p` is due, the disk having held `files` before them. */
    ghost predicate EvictedSoFar(p: seq<Track>, inUse: set<int>, k: nat, files: set<string>)
      reads this, window, window.elems, disk
    {
      && Indexed() && Evicting(p, Tracks(), inUse, k)
      && disk.files == files - (Paths(Lost(p, Tracks())) - disk.stuck)
    }

    /** While the window is over its size: evict one; stop when every track is in use. */
    method EvictOver(inUse: set<int>)
      requires Indexed()
      modifies this`windowNodes, this`bySourceId, window, disk
      ensures Indexed() && Tracks() == Evict(old(Tracks()), inUse)
      ensures disk.files == old(disk.files) - (Paths(Lost(old(Tracks()), Tracks())) - disk.stuck)
    {
      ghost var p, files, k := Tracks(), disk.files, 0;
      IndexedDistinct(window.elems, windowNodes, bySourceId);
      while |window.elems| > CACHE_WINDOW
        invariant EvictedSoFar(p, inUse, k, files)
        decreases |window.elems|
      {
        var found := EvictOne(inUse, p, k, files);
        if !found {
          break;
        }
        k := k + 1;
      }
      EvictingEnd(p, Tracks(), inUse, k);
    }

    /** One round: find the oldest track not in use, unlink it, unfile it, and delete its file. */
    method EvictOne(inUse: set<int>, ghost p: seq<Track>, ghost k: nat, ghost files: set<string>) returns (found: bool)
      requires EvictedSoFar(p, inUse, k, files) && |window.elems| > CACHE_WINDOW
      modifies this`windowNodes, this`bySourceId, window, disk
      ensures found ==> EvictedSoFar(p, inUse, k + 1, files) && |window.elems| < old(|window.elems|)
      ensures !found ==> EvictedSoFar(p, inUse, k, files) && forall t | t in Tracks() :: t.id in inUse
    {
      var victim, at := OldestUnused(inUse);
      found := victim != null;
      if found {
        EvictingStep(p, Tracks(), inUse, k, at);
        var evicted := victim.value;
        OneFileLess(files, Paths(Lost(p, Tracks())), disk.stuck, evicted.filePath);
        Unlink(victim, at);
        disk.Remove(evicted.filePath);
      }
    }

    /** The inner loop: walk from the back to the first element whose track is not in use. */
    method OldestUnused(inUse: set<int>) returns (victim: Element?, ghost at: nat)
      requires Indexed()
      ensures victim != null ==>
                && at < |window.elems| && window.elems[at] == victim && victim.value.id !in inUse
                && forall j | at < j < |window.elems| :: window.elems[j].value.id in inUse
      ensures victim == null ==> forall e | e in window.elems :: e.value.id in inUse
    {
      victim := window.Back();
      at := if victim == null then 0 else |window.elems| - 1;
      while victim != null
        invariant victim == null ==> forall e | e in window.elems :: e.value.id in inUse
        invariant victim != null ==>
                    && at < |window.elems| && window.elems[at] == victim
                    && forall j | at < j < |window.elems| :: window.elems[j].value.id in inUse
        decreases if victim == null then 0 else at + 1
      {
        if victim.value.id !in inUse {
          break;
        }
        victim := window.Prev(victim, at);
        at := if at == 0 then 0 else at - 1;
      }
    }

    method Unlink(victim: Element, ghost at: nat)
      requires Indexed() && at < |window.elems| && window.elems[at] == victim
      modifies this`windowNodes, this`bySourceId, window
      ensures Indexed() && Tracks() == RemoveAt(old(Tracks()), at)
      ensures |window.elems| < old(|window.elems|)
    {
      Unfile(window.elems, windowNodes, bySourceId, at);
      UnlinkedValues(window.elems, at);
      window.Remove(victim, at);
      windowNodes := windowNodes - {victim.value.id};
      bySourceId := bySourceId - {victim.value.sourceId};
    }
  }

  lemma Unfile(elems: seq<Element>, nodes: map<int, Element>, bySource: map<string, Element>, at: nat)
    requires Indexes(elems, nodes, bySource) && at < |elems|
    requires forall i, j | 0 <= i < j < |elems| :: elems[i] != elems[j]
    ensures Indexes(elems[..at] + elems[at + 1..], nodes - {elems[at].value.id}, bySource - {elems[at].value.sourceId})
  {
    OthersRemain(elems, at);
    var gone, rest := elems[at], elems[..at] + elems[at + 1..];
    var nodes', bySource' := nodes - {gone.value.id}, bySource - {gone.value.sourceId};
    assert Filed(gone, nodes, bySource);
    forall el | el in rest ensures Filed(el, nodes', bySource') {
      assert Filed(el, nodes, bySource);
    }
    forall id | id in nodes' ensures nodes'[id] in rest && nodes'[id].value.id == id {
      assert nodes[id] in elems && nodes[id] != gone;
    }
    forall s | s in bySource' ensures bySource'[s] in rest && bySource'[s].value.sourceId == s {
      assert bySource[s] in elems && bySource[s] != gone;
    }
  }

  lemma OthersRemain<T>(elems: seq<T>, at: nat)
    requires at < |elems| && forall i, j | 0 <= i < j < |elems| :: elems[i] != elems[j]
    ensures forall e :: e in elems[..at] + elems[at + 1..] <==> e in elems && e != elems[at]
  {
    assert elems == elems[..at] + [elems[at]] + elems[at + 1..];
  }

  lemma UnlinkedValues(elems: seq<Element>, at: nat)
    requires at < |elems|
    ensures Values(elems[..at] + elems[at + 1..]) == RemoveAt(Values(elems), at)
  {
  }

  lemma WithoutUnfiled(elems: seq<Element>, nodes: map<int, Element>, bySource: map<string, Element>, t: Track)
    requires Indexes(elems, nodes, bySource) && t.id !in nodes
    ensures Without(Values(elems), t.id) == Values(elems)
    ensures forall e | e in elems :: e.value.id != t.id
  {
    forall e | e in elems ensures e.value.id != t.id { assert Filed(e, nodes, bySource); }
    ValuesMembers(elems);
    WithoutAbsent(Values(elems), t.id);
  }

  /** `w` is what `p` becomes after `k` of the evictions it is due. */
  ghost predicate Evicting(p: seq<Track>, w: seq<Track>, pinned: set<int>, k: nat) {
    && DistinctIds(w)
    && k <= EvictionCount(p, pinned)
    && w == DropOldest(p, pinned, k)
    && forall t | t in w :: t in p
  }

  lemma EvictingStep(p: seq<Track>, w: seq<Track>, pinned: set<int>, k: nat, v: nat)
    requires Evicting(p, w, pinned, k) && |w| > CACHE_WINDOW
    requires v < |w| && w[v].id !in pinned && forall j | v < j < |w| :: w[j].id in pinned
    ensures Evicting(p, RemoveAt(w, v), pinned, k + 1)
    ensures Paths(Lost(p, RemoveAt(w, v))) == Paths(Lost(p, w)) + {w[v].filePath}
  {
    DropOneIsRemoveAt(w, pinned, v);
    DropMore(p, pinned, k);
    DropOldestLength(p, pinned, k);
    LostOneMore(p, w, v);
  }

  lemma OneFileLess(files: set<string>, lost: set<string>, stuck: set<string>, path: string)
    ensures (files - (lost - stuck)) - ({path} - stuck) == files - ((lost + {path}) - stuck)
  {
  }

  lemma EvictingEnd(p: seq<Track>, w: seq<Track>, pinned: set<int>, k: nat)
    requires Evicting(p, w, pinned, k)
    requires |w| <= CACHE_WINDOW || forall t | t in w :: t.id in pinned
    ensures w == Evict(p, pinned)
  {
    DropOldestLength(p, pinned, k);
    DropMore(p, pinned, k);
    NothingUnpinned(w, pinned);
  }

  /** The source-id index answers what searching the window would. */
  lemma IndexLookup(elems: seq<Element>, nodes: map<int, Element>, bySource: map<string, Element>, sourceId: string)
    requires Indexes(elems, nodes, bySource)
    ensures sourceId in bySource ==>
              bySource[sourceId] in elems && Lookup(Values(elems), sourceId) == Ok(bySource[sourceId].value)
    ensures sourceId !in bySource ==> Lookup(Values(elems), sourceId) == Err
  {
    LookupFinds(Values(elems), sourceId);
    ValuesMembers(elems);
    if Lookup(Values(elems), sourceId).Ok? {
      var e :| e in elems && e.value == Lookup(Values(elems), sourceId).value;
      assert Filed(e, nodes, bySource);
    }
  }

  ghost function Forward(elems: seq<Element>, at: nat): seq<Element>
    requires at < |elems|
  {
    [elems[at]] + (elems[..at] + elems[at + 1..])
  }

  /** Moving one handle to the front promotes its track. */
  lemma ForwardValues(elems: seq<Element>, at: nat)
    requires at < |elems| && DistinctIds(Values(elems))
    ensures Values(Forward(elems, at)) == Promote(Values(elems), elems[at].value)
  {
    WithoutIsRemoveAt(Values(elems), at);
    UnlinkedValues(elems, at);
    ValuesExtend(elems[at], elems[..at] + elems[at + 1..]);
  }

  lemma ForwardIndexes(elems: seq<Element>, nodes: map<int, Element>, bySource: map<string, Element>, at: nat)
    requires Indexes(elems, nodes, bySource) && at < |elems|
    ensures Indexes(Forward(elems, at), nodes, bySource)
  {
    FrontMembers(elems, at);
  }

  ghost predicate PairwiseDistinct(ts: seq<Track>) {
    forall i, j | 0 <= i < |ts| && 0 <= j < |ts| && i != j :: Agree(ts[i], ts[j]) && ts[i].id != ts[j].id
  }

  lemma NewToValues(elems: seq<Element>, tracks: seq<Track>, n: nat)
    requires PairwiseDistinct(tracks) && n < |tracks| && Values(elems) == tracks[..n]
    ensures forall e | e in elems :: Agree(tracks[n], e.value) && tracks[n].id != e.value.id
  {
    forall e | e in elems ensures Agree(tracks[n], e.value) && tracks[n].id != e.value.id {
      var i :| 0 <= i < |elems| && elems[i] == e;
      assert Values(elems)[i] == tracks[i];
    }
  }

  lemma ListingAgrees(listing: seq<Track>, rows: Rows)
    requires WellKeyed(rows) && IsListing(listing, rows)
    ensures PairwiseDistinct(listing)
  {
    forall i, j | 0 <= i < |listing| && 0 <= j < |listing| && i != j
      ensures Agree(listing[i], listing[j]) && listing[i].id != listing[j].id
    {
      assert rows[listing[i].id] == listing[i] && rows[listing[j].id] == listing[j];
      if i < j { assert listing[i].id != listing[j].id; }
    }
  }
}
