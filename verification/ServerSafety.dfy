/** The handlers of server/src/connect/rpc.go stepping the whole state: every session's queue, the cache
    window and the files on disk. The tail of AddTrack (enqueue, collect the ids in use, touch) is one
    step. */
module ServerSafety {
  import opened Collections
  import opened Tracks
  import opened RecencyWindow
  import opened QueueLog
  import opened Lifecycle
  import opened SessionManager

  /** `known` is every record of a track met so far; removing a path in `stuck` fails. */
  datatype Server = Server(
    sessions: map<SessionID, seq<Track>>,
    maxSessions: int,
    window: seq<Track>,
    files: set<string>,
    stuck: set<string>,
    known: set<Track>)

  datatype Call =
    | CreateSession(id: SessionID)
    | DeleteSession(id: SessionID)
    | Download(path: string)
    | CacheGet(sourceId: string)
    | AddTrack(id: SessionID, track: Track, dbOk: bool)
    // an AddTrack whose queue, already looked up, has left the map in the meantime
    | AddOrphan(track: Track, dbOk: bool)
    | DequeueHead(id: SessionID)
    | RemoveTrack(id: SessionID, index: nat)

  /** A track is added only with its file on disk, and its record agrees with all others. */
  ghost predicate Enabled(s: Server, c: Call) {
    && (c.AddTrack? ==> c.track.filePath in s.files)
    && (c.AddTrack? || c.AddOrphan? ==> Consistent(s.known + {c.track}))
  }

  ghost function OnQueue(s: Server, id: SessionID, op: QueueOp): Server {
    if id in s.sessions then s.(sessions := s.sessions[id := Step(s.sessions[id], op)]) else s
  }

  /** Touch with the ids in use that the handler collected. */
  ghost function TouchWith(s: Server, t: Track, pinned: set<int>): Server {
    var window := TouchWindow(s.window, t, pinned);
    s.(window := window, files := s.files - (Paths(Lost(Promote(s.window, t), window)) - s.stuck))
  }

  ghost function Next(s: Server, c: Call): Server {
    match c
    case CreateSession(id) =>
      if id in s.sessions || |s.sessions| >= s.maxSessions then s else s.(sessions := s.sessions[id := []])
    case DeleteSession(id) => s.(sessions := s.sessions - {id})
    case Download(path) => s.(files := s.files + {path})
    case CacheGet(sourceId) => s.(window := GetWindow(s.window, sourceId))
    case AddTrack(id, t, dbOk) =>
      if id !in s.sessions || |s.sessions[id]| >= MAX_QUEUE_SIZE then s
      else
        var queued := OnQueue(s.(known := s.known + {t}), id, Push(t));
        if dbOk then TouchWith(queued, t, InUseIds(queued.sessions)) else queued
    case AddOrphan(t, dbOk) =>
      var told := s.(known := s.known + {t});
      if dbOk then TouchWith(told, t, InUseIds(s.sessions)) else told
    case DequeueHead(id) => OnQueue(s, id, Pop)
    case RemoveTrack(id, index) => if index == 0 then s else OnQueue(s, id, Drop(index))
  }

  ghost predicate CanRun(s: Server, run: seq<Call>)
    decreases run
  {
    run != [] ==> Enabled(s, run[0]) && CanRun(Next(s, run[0]), run[1..])
  }

  ghost function After(s: Server, run: seq<Call>): Server
    decreases run
  {
    if run == [] then s else After(Next(s, run[0]), run[1..])
  }

  // ---- what holds in every reachable state ----

  ghost predicate QueuedIn(queues: map<SessionID, seq<Track>>, id: SessionID, t: Track) {
    id in queues && t in queues[id]
  }

  /** Every track queued in any session has its file. */
  ghost predicate FilesSafe(s: Server) {
    forall id, t | QueuedIn(s.sessions, id, t) :: t.filePath in s.files
  }

  ghost predicate AllKnown(s: Server) {
    && Consistent(s.known) && DistinctIds(s.window)
    && (forall t | t in s.window :: t in s.known)
    && (forall id, t | QueuedIn(s.sessions, id, t) :: t in s.known)
  }

  ghost predicate QueuesBounded(s: Server) {
    && (forall id | id in s.sessions :: |s.sessions[id]| <= MAX_QUEUE_SIZE)
    && (|s.sessions| <= s.maxSessions || s.sessions == map[])
  }

  function WindowLimit(maxSessions: int): int {
    if MAX_QUEUE_SIZE * maxSessions > CACHE_WINDOW then MAX_QUEUE_SIZE * maxSessions else CACHE_WINDOW
  }

  ghost predicate Invariant(s: Server) {
    AllKnown(s) && QueuesBounded(s) && FilesSafe(s) && |s.window| <= WindowLimit(s.maxSessions)
  }

  // ---- counting the ids in use ----

  lemma {:induction false} IdSetCount(ts: seq<Track>)
    ensures |IdSet(ts)| <= |ts|
  {
    if ts == [] {
      assert IdSet(ts) == {};
    } else {
      var init := ts[..|ts| - 1];
      IdSetCount(init);
      AppendId(init, ts[|ts| - 1]);
      assert ts == init + [ts[|ts| - 1]];
    }
  }

  lemma {:induction false} InUseCount(queues: map<SessionID, seq<Track>>, ids: set<SessionID>)
    requires ids <= queues.Keys && forall id | id in ids :: |queues[id]| <= MAX_QUEUE_SIZE
    ensures |InUseIn(queues, ids)| <= MAX_QUEUE_SIZE * |ids|
    decreases ids
  {
    if ids == {} {
      assert InUseIn(queues, ids) == {};
    } else {
      var id :| id in ids;
      var rest := ids - {id};
      InUseCount(queues, rest);
      InUseOneMore(queues, rest, id);
      IdSetCount(queues[id]);
      assert rest + {id} == ids;
      UnionCount(InUseIn(queues, rest), IdSet(queues[id]));
    }
  }

  lemma UnionCount<T>(a: set<T>, b: set<T>)
    ensures |a + b| <= |a| + |b|
  {
    assert a + b == a + (b - a);
    assert b == (b - a) + (a * b);
  }

  // ---- the touch ----

  /** A touch whose collected ids cover the queued tracks that are cached deletes no queued track's file. */
  lemma TouchKeepsFiles(s: Server, t: Track, pinned: set<int>)
    requires AllKnown(s) && t in s.known && FilesSafe(s)
    requires forall id, u | QueuedIn(s.sessions, id, u) && u.id in IdSet(Promote(s.window, t)) :: u.id in pinned
    ensures FilesSafe(TouchWith(s, t, pinned))
  {
    var p := Promote(s.window, t);
    PromoteKeepsDistinct(s.window, t);
    EvictOutcome(p, pinned);
    forall id, u | QueuedIn(s.sessions, id, u) ensures u.filePath !in Paths(Lost(p, Evict(p, pinned))) {
      forall v | v in p && v.filePath == u.filePath ensures v in Evict(p, pinned) {
        assert Agree(v, u);
        assert u.id in IdSet(p);
      }
    }
  }

  lemma TouchKeepsKnown(s: Server, t: Track, pinned: set<int>)
    requires AllKnown(s) && t in s.known
    ensures AllKnown(TouchWith(s, t, pinned))
  {
    PromoteKeepsDistinct(s.window, t);
    EvictOutcome(Promote(s.window, t), pinned);
  }

  lemma InUseBounded(s: Server)
    requires QueuesBounded(s)
    ensures |InUseIds(s.sessions)| <= WindowLimit(s.maxSessions)
  {
    InUseCount(s.sessions, s.sessions.Keys);
    assert |s.sessions.Keys| == |s.sessions|;
  }

  lemma TouchKeepsBound(s: Server, t: Track, pinned: set<int>)
    requires AllKnown(s) && |pinned| <= WindowLimit(s.maxSessions)
    ensures |TouchWith(s, t, pinned).window| <= WindowLimit(s.maxSessions)
  {
    var r := TouchWindow(s.window, t, pinned);
    PromoteKeepsDistinct(s.window, t);
    EvictOutcome(Promote(s.window, t), pinned);
    if |r| > CACHE_WINDOW {
      DistinctCount(r);
      SubsetCount(IdSet(r), pinned);
    }
  }

  // ---- one call at a time ----

  lemma QueueOpKeeps(s: Server, id: SessionID, op: QueueOp)
    requires Invariant(s)
    requires op.Push? ==> op.track in s.known && op.track.filePath in s.files
    ensures Invariant(OnQueue(s, id, op))
  {
    if id in s.sessions {
      var n := OnQueue(s, id, op);
      assert n.sessions.Keys == s.sessions.Keys;
      forall jd, t | QueuedIn(n.sessions, jd, t) ensures QueuedIn(s.sessions, jd, t) || (op.Push? && t == op.track) {
        if jd == id { StepMembers(s.sessions[id], op, t); }
      }
    }
  }

  lemma StepMembers(q: seq<Track>, op: QueueOp, t: Track)
    requires t in Step(q, op)
    ensures t in q || (op.Push? && t == op.track)
  {
  }

  lemma TouchKeeps(s: Server, t: Track)
    requires Invariant(s) && t in s.known
    ensures Invariant(TouchWith(s, t, InUseIds(s.sessions)))
  {
    var pinned := InUseIds(s.sessions);
    TouchKeepsKnown(s, t, pinned);
    InUseBounded(s);
    TouchKeepsBound(s, t, pinned);
    forall id, u | QueuedIn(s.sessions, id, u) ensures u.id in pinned { }
    TouchKeepsFiles(s, t, pinned);
  }

  lemma AddKeeps(s: Server, c: Call)
    requires Invariant(s) && (c.AddTrack? || c.AddOrphan?) && Enabled(s, c)
    ensures Invariant(Next(s, c))
  {
    var told := s.(known := s.known + {c.track});
    assert Invariant(told);
    if c.AddOrphan? {
      TouchKeeps(told, c.track);
    } else if c.id in s.sessions && |s.sessions[c.id]| < MAX_QUEUE_SIZE {
      QueueOpKeeps(told, c.id, Push(c.track));
      TouchKeeps(OnQueue(told, c.id, Push(c.track)), c.track);
    }
  }

  lemma GetKeeps(s: Server, sourceId: string)
    requires Invariant(s)
    ensures Invariant(Next(s, CacheGet(sourceId)))
  {
    var hit := Lookup(s.window, sourceId);
    LookupFinds(s.window, sourceId);
    if hit.Ok? { PromoteKeepsDistinct(s.window, hit.value); }
  }

  lemma SessionKeeps(s: Server, c: Call)
    requires Invariant(s) && (c.CreateSession? || c.DeleteSession?)
    ensures Invariant(Next(s, c))
  {
    var n := Next(s, c);
    if c.CreateSession? {
      assert n.sessions.Keys == s.sessions.Keys || n.sessions.Keys == s.sessions.Keys + {c.id};
      forall id, t | QueuedIn(n.sessions, id, t) ensures QueuedIn(s.sessions, id, t) { }
    } else {
      assert n.sessions.Keys == s.sessions.Keys - {c.id};
      forall id, t | QueuedIn(n.sessions, id, t) ensures QueuedIn(s.sessions, id, t) { }
    }
  }

  lemma StepKeeps(s: Server, c: Call)
    requires Invariant(s) && Enabled(s, c)
    ensures Invariant(Next(s, c)) && Next(s, c).maxSessions == s.maxSessions
  {
    match c {
      case CreateSession(_) => SessionKeeps(s, c);
      case DeleteSession(_) => SessionKeeps(s, c);
      case Download(_) =>
      case CacheGet(sourceId) => GetKeeps(s, sourceId);
      case AddTrack(_, _, _) => AddKeeps(s, c);
      case AddOrphan(_, _) => AddKeeps(s, c);
      case DequeueHead(id) => QueueOpKeeps(s, id, Pop);
      case RemoveTrack(id, index) => QueueOpKeeps(s, id, Drop(index));
    }
  }

  lemma {:induction false} RunKeeps(s: Server, run: seq<Call>)
    requires Invariant(s) && CanRun(s, run)
    ensures Invariant(After(s, run)) && After(s, run).maxSessions == s.maxSessions
    decreases run
  {
    if run != [] {
      StepKeeps(s, run[0]);
      RunKeeps(Next(s, run[0]), run[1..]);
    }
  }

  /** A server just started: no session yet, and a cache hydrated from known tracks. */
  ghost predicate Fresh(s: Server) {
    && s.sessions == map[] && |s.window| <= CACHE_WINDOW
    && DistinctIds(s.window) && Consistent(s.known) && forall t | t in s.window :: t in s.known
  }

  /** From a fresh start, after any calls in any order: every queued track still has its file, and the
      window stays within the larger of its size and what all full queues together can hold. */
  lemma ServerSafety(s: Server, run: seq<Call>)
    requires Fresh(s) && CanRun(s, run)
    ensures FilesSafe(After(s, run))
    ensures |After(s, run).window| <= if 16 * s.maxSessions > 50 then 16 * s.maxSessions else 50
  {
    RunKeeps(s, run);
  }

  // ---- what the calls do to the queues ----

  /** For every session since its last creation, what was asked of its queue, read off the calls. */
  type Asked = map<SessionID, seq<QueueOp>>

  function Ask(asked: Asked, id: SessionID, op: QueueOp): Asked {
    if id in asked then asked[id := asked[id] + [op]] else asked
  }

  function AskedBy(asked: Asked, maxSessions: int, c: Call): Asked {
    match c
    case CreateSession(id) => if id in asked || |asked| >= maxSessions then asked else asked[id := []]
    case DeleteSession(id) => asked - {id}
    case AddTrack(id, t, _) => Ask(asked, id, Push(t))
    case DequeueHead(id) => Ask(asked, id, Pop)
    case RemoveTrack(id, index) => if index == 0 then asked else Ask(asked, id, Drop(index))
    case _ => asked
  }

  function AskedByAll(asked: Asked, maxSessions: int, run: seq<Call>): Asked
    decreases run
  {
    if run == [] then asked else AskedByAll(AskedBy(asked, maxSessions, run[0]), maxSessions, run[1..])
  }

  /** Every queue is what became of an empty one. */
  ghost predicate Follows(sessions: map<SessionID, seq<Track>>, asked: Asked) {
    && sessions.Keys == asked.Keys
    && forall id | id in asked :: sessions[id] == QueueLog.Run([], asked[id])
  }

  lemma AskFollows(s: Server, asked: Asked, id: SessionID, op: QueueOp)
    requires Follows(s.sessions, asked)
    ensures Follows(OnQueue(s, id, op).sessions, Ask(asked, id, op))
  {
    if id in asked { RunOneMore([], asked[id], op); }
  }

  lemma StepFollows(s: Server, asked: Asked, c: Call)
    requires Follows(s.sessions, asked)
    ensures Follows(Next(s, c).sessions, AskedBy(asked, s.maxSessions, c)) && Next(s, c).maxSessions == s.maxSessions
  {
    match c
    case CreateSession(id) =>
      assert |s.sessions| == |s.sessions.Keys| == |asked.Keys| == |asked|;
    case DeleteSession(_) =>
    case AddTrack(id, t, _) =>
      AskFollows(s, asked, id, Push(t));
      if id in s.sessions && |s.sessions[id]| >= MAX_QUEUE_SIZE {
        assert s.sessions[id := s.sessions[id]] == s.sessions;
      }
    case DequeueHead(id) => AskFollows(s, asked, id, Pop);
    case RemoveTrack(id, index) => if index != 0 { AskFollows(s, asked, id, Drop(index)); }
    case _ =>
  }

  lemma {:induction false} RunFollows(s: Server, asked: Asked, run: seq<Call>)
    requires Follows(s.sessions, asked)
    ensures Follows(After(s, run).sessions, AskedByAll(asked, s.maxSessions, run))
    decreases run
  {
    if run != [] {
      StepFollows(s, asked, run[0]);
      RunFollows(Next(s, run[0]), AskedBy(asked, s.maxSessions, run[0]), run[1..]);
    }
  }

  /** From a start without sessions, after any calls: exactly the sessions created within the limit and not deleted
      since are there, and each one's queue is what the calls since its creation make of an empty one. */
  lemma SessionsFollowCalls(s: Server, run: seq<Call>)
    requires s.sessions == map[]
    ensures Follows(After(s, run).sessions, AskedByAll(map[], s.maxSessions, run))
  {
    RunFollows(s, map[], run);
  }
}
