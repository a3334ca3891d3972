/** The session manager (server/src/session/session_manager.go): the map of sessions under its lock and
    the event channel behind it. */
module SessionManager {
  import opened Tracks
  import SessionQueue
  import opened Lifecycle

  datatype Reply = Accepted | AlreadyExists | TooMany | GivenUp

  /** The ids of all tracks queued in any of these sessions. */
  ghost function InUseIn(queues: map<SessionID, seq<Track>>, ids: set<SessionID>): set<int>
    requires ids <= queues.Keys
  {
    set id, t | id in ids && t in queues[id] :: t.id
  }

  ghost function InUseIds(queues: map<SessionID, seq<Track>>): set<int> {
    InUseIn(queues, queues.Keys)
  }

  class Manager {
    var sessions: map<SessionID, SessionQueue.SessionQueue>
    var events: seq<Event>
    const maxSessions: int

    ghost predicate Valid()
      reads this
    {
      |events| <= EVENT_BUFFER && (|sessions| <= maxSessions || sessions == map[])
    }

    ghost function Backings(): set<object>
      reads this, sessions.Values
    {
      set q | q in sessions.Values :: q.backing as object
    }

    /** `queues` is every session's queue as it stands. */
    ghost predicate Shows(queues: map<SessionID, seq<Track>>)
      reads this, sessions.Values, Backings()
    {
      && queues.Keys == sessions.Keys
      && forall id | id in sessions :: sessions[id].Shaped() && sessions[id].Contents() == queues[id]
    }

    constructor (maxSessions: int)
      ensures Valid() && sessions == map[] && events == [] && this.maxSessions == maxSessions
    {
      sessions, events := map[], [];
      this.maxSessions := maxSessions;
    }

    /** `ctxDone` is whether the request's context has ended, `preferDone` what the select picks when the
        channel has room as well; with neither ready the send would block. A send given up leaves the
        session in the map without its event. */
    method CreateSession(id: SessionID, ctxDone: bool, preferDone: bool) returns (r: Reply)
      requires Valid() && (|events| < EVENT_BUFFER || ctxDone)
      modifies this
      ensures Valid()
      ensures r == AlreadyExists <==> id in old(sessions)
      ensures r == TooMany <==> id !in old(sessions) && |old(sessions)| >= maxSessions
      ensures r == AlreadyExists || r == TooMany ==> sessions == old(sessions) && events == old(events)
      ensures r == Accepted || r == GivenUp ==>
                && id in sessions && sessions == old(sessions)[id := sessions[id]]
                && fresh(sessions[id]) && sessions[id].Valid() && sessions[id].Contents() == []
      ensures r == Accepted ==> events == old(events) + [Created(id)]
      ensures r == GivenUp ==> events == old(events) && ctxDone
    {
      if id in sessions {
        return AlreadyExists;
      }
      if |sessions| >= maxSessions {
        return TooMany;
      }
      var queue := new SessionQueue.SessionQueue();
      sessions := sessions[id := queue];
      if |events| < EVENT_BUFFER && !(ctxDone && preferDone) {
        events := events + [Created(id)];
        return Accepted;
      }
      return GivenUp;
    }

    /** Deleting an id that is not there still sends its event. */
    method DeleteSession(id: SessionID, ctxDone: bool, preferDone: bool) returns (r: Reply)
      requires Valid() && (|events| < EVENT_BUFFER || ctxDone)
      modifies this
      ensures Valid() && sessions == old(sessions) - {id}
      ensures r == Accepted ==> events == old(events) + [Deleted(id)]
      ensures r != Accepted ==> r == GivenUp && events == old(events) && ctxDone
    {
      assert (sessions - {id}).Keys == sessions.Keys - {id};
      sessions := sessions - {id};
      if |events| < EVENT_BUFFER && !(ctxDone && preferDone) {
        events := events + [Deleted(id)];
        return Accepted;
      }
      return GivenUp;
    }

    /** The ids of exactly the tracks in some session's queue. */
    method InUseTrackIDs(ghost queues: map<SessionID, seq<Track>>) returns (ids: set<int>)
      requires Shows(queues)
      ensures ids == InUseIds(queues)
    {
      ids := {};
      var rest := sessions.Keys;
      NoneCollected(queues);
      while rest != {}
        invariant Collected(queues, rest, ids)
        decreases rest
      {
        var id :| id in rest;
        var slice := sessions[id].ListQueue();
        CollectOne(queues, rest, ids, id);
        ids := AddTracks(slice, ids);
        rest := rest - {id};
      }
      AllCollected(queues, ids);
    }
  }

  /** All but the sessions of `rest` have been gone through. */
  ghost predicate Collected(queues: map<SessionID, seq<Track>>, rest: set<SessionID>, ids: set<int>) {
    rest <= queues.Keys && ids == InUseIn(queues, queues.Keys - rest)
  }

  lemma NoneCollected(queues: map<SessionID, seq<Track>>)
    ensures Collected(queues, queues.Keys, {})
  {
    assert queues.Keys - queues.Keys == {};
  }

  lemma AllCollected(queues: map<SessionID, seq<Track>>, ids: set<int>)
    requires Collected(queues, {}, ids)
    ensures ids == InUseIds(queues)
  {
    assert queues.Keys - {} == queues.Keys;
  }

  lemma CollectOne(queues: map<SessionID, seq<Track>>, rest: set<SessionID>, before: set<int>, id: SessionID)
    requires Collected(queues, rest, before) && id in rest
    ensures Collected(queues, rest - {id}, before + IdSet(queues[id]))
  {
    InUseOneMore(queues, queues.Keys - rest, id);
    assert queues.Keys - (rest - {id}) == (queues.Keys - rest) + {id};
  }

  /** The inner loop, over one session's tracks. */
  method AddTracks(slice: SessionQueue.Slice, before: set<int>) returns (ids: set<int>)
    requires SessionQueue.Bounded(slice)
    ensures ids == before + IdSet(SessionQueue.View(slice))
  {
    ids := before;
    ghost var tracks := SessionQueue.View(slice);
    for n := 0 to slice.len
      invariant ids == before + IdSet(tracks[..n])
    {
      var t := slice.arr[slice.off + n];
      assert tracks[..n + 1] == tracks[..n] + [t];
      AppendId(tracks[..n], t);
      UnionAssociative(before, IdSet(tracks[..n]), {t.id});
      ids := ids + {t.id};
    }
    assert tracks[..slice.len] == tracks;
  }

  lemma UnionAssociative<T>(a: set<T>, b: set<T>, c: set<T>)
    ensures (a + b) + c == a + (b + c)
  {
  }

  lemma InUseOneMore(queues: map<SessionID, seq<Track>>, done: set<SessionID>, id: SessionID)
    requires done <= queues.Keys && id in queues
    ensures InUseIn(queues, done + {id}) == InUseIn(queues, done) + IdSet(queues[id])
  {
    forall x | x in InUseIn(queues, done + {id}) ensures x in InUseIn(queues, done) + IdSet(queues[id]) {
      var jd, t :| jd in done + {id} && t in queues[jd] && t.id == x;
    }
    forall x | x in InUseIn(queues, done) + IdSet(queues[id]) ensures x in InUseIn(queues, done + {id}) {
      if x in IdSet(queues[id]) {
        var t :| t in queues[id] && t.id == x;
        assert id in done + {id};
      } else {
        var jd, t :| jd in done && t in queues[jd] && t.id == x;
        assert jd in done + {id};
      }
    }
  }
}
