/** The tail of AddTrack (server/src/connect/rpc.go:149-155) as three steps that other handlers can run between:
    the enqueue, the collection of the ids in use, and the touch. */
module SplitTail {
  import opened Collections
  import opened Tracks
  import opened RecencyWindow
  import opened QueueLog
  import Lifecycle
  import opened SessionManager
  import CacheRuns
  import opened ServerSafety

  /** The server, and the ids that handlers have collected and not used yet. */
  datatype State = State(server: Server, collected: map<nat, set<int>>)

  datatype Move =
    | Whole(call: Call)
    | Enqueue(id: Lifecycle.SessionID, track: Track)
    | Collect(handler: nat)
    | Touch(handler: nat, track: Track)

  ghost predicate CanMove(s: State, m: Move) {
    match m
    case Whole(call) => ServerSafety.Enabled(s.server, call)
    case Enqueue(_, t) => t.filePath in s.server.files && Consistent(s.server.known + {t})
    case Collect(_) => true
    case Touch(h, t) => h in s.collected && t in s.server.known
  }

  ghost function Moved(s: State, m: Move): State
    requires CanMove(s, m)
  {
    match m
    case Whole(call) => s.(server := ServerSafety.Next(s.server, call))
    case Enqueue(id, t) => s.(server := OnQueue(s.server.(known := s.server.known + {t}), id, Push(t)))
    case Collect(h) => s.(collected := s.collected[h := InUseIds(s.server.sessions)])
    case Touch(h, t) => s.(server := TouchWith(s.server, t, s.collected[h]))
  }

  ghost predicate CanMoveAll(s: State, moves: seq<Move>)
    decreases moves
  {
    moves != [] ==> CanMove(s, moves[0]) && CanMoveAll(Moved(s, moves[0]), moves[1..])
  }

  ghost function MovedAll(s: State, moves: seq<Move>): State
    requires CanMoveAll(s, moves)
    decreases moves
  {
    if moves == [] then s else MovedAll(Moved(s, moves[0]), moves[1..])
  }

  /** When nobody comes between, the three moves are AddTrack as one step. */
  lemma TailTogether(s: State, id: Lifecycle.SessionID, t: Track, h: nat)
    requires id in s.server.sessions && |s.server.sessions[id]| < MAX_QUEUE_SIZE
    requires ServerSafety.Enabled(s.server, AddTrack(id, t, true))
    ensures CanMoveAll(s, [Enqueue(id, t), Collect(h), Touch(h, t)])
    ensures MovedAll(s, [Enqueue(id, t), Collect(h), Touch(h, t)]).server == ServerSafety.Next(s.server, AddTrack(id, t, true))
  {
    var s1 := Moved(s, Enqueue(id, t));
    var s2 := Moved(s1, Collect(h));
    OneMove(s2, Touch(h, t), []);
    OneMove(s1, Collect(h), [Touch(h, t)] + []);
    OneMove(s, Enqueue(id, t), [Collect(h)] + ([Touch(h, t)] + []));
    assert [Enqueue(id, t), Collect(h), Touch(h, t)] == [Enqueue(id, t)] + ([Collect(h)] + ([Touch(h, t)] + []));
  }

  /** When the statement of the touch fails, AddTrack is the enqueue alone. */
  lemma TailWithoutTouch(s: State, id: Lifecycle.SessionID, t: Track)
    requires id in s.server.sessions && |s.server.sessions[id]| < MAX_QUEUE_SIZE
    requires ServerSafety.Enabled(s.server, AddTrack(id, t, false))
    ensures CanMove(s, Enqueue(id, t)) && Moved(s, Enqueue(id, t)).server == ServerSafety.Next(s.server, AddTrack(id, t, false))
  {
  }

  /** On a queue that has left the map, all that is left of AddTrack is to collect and to touch. */
  lemma TailOfOrphan(s: State, t: Track, h: nat)
    requires t in s.server.known && Consistent(s.server.known)
    ensures CanMoveAll(s, [Collect(h), Touch(h, t)])
    ensures MovedAll(s, [Collect(h), Touch(h, t)]).server == ServerSafety.Next(s.server, AddOrphan(t, true))
    ensures ServerSafety.Next(s.server, AddOrphan(t, false)) == s.server
  {
    var s1 := Moved(s, Collect(h));
    OneMove(s1, Touch(h, t), []);
    OneMove(s, Collect(h), [Touch(h, t)] + []);
    assert [Collect(h), Touch(h, t)] == [Collect(h)] + ([Touch(h, t)] + []);
    assert s.server.known + {t} == s.server.known;
  }

  // ---- which touch deletes a queued track's file ----

  /** Queued track `u` stands at index `i` of the window about to be cut, its id is not among those collected, and
      no more tracks that are not, from there on, than have to go. */
  ghost predicate LosesFile(s: Server, p: seq<Track>, pinned: set<int>, id: Lifecycle.SessionID, u: Track, i: nat) {
    && QueuedIn(s.sessions, id, u) && u.filePath !in s.stuck
    && i < |p| && p[i].id == u.id && u.id !in pinned
    && UnpinnedCount(p[i..], pinned) <= EvictionCount(p, pinned)
  }

  ghost predicate SparesQueued(s: Server, t: Track, pinned: set<int>) {
    forall id, u, i: nat :: !LosesFile(s, Promote(s.window, t), pinned, id, u, i)
  }

  lemma LostAt(p: seq<Track>, pinned: set<int>, i: nat)
    requires DistinctIds(p) && i < |p|
    ensures p[i] in Lost(p, Evict(p, pinned)) <==>
            p[i].id !in pinned && UnpinnedCount(p[i..], pinned) <= EvictionCount(p, pinned)
  {
    DroppedIff(p, pinned, EvictionCount(p, pinned), i);
  }

  lemma PromotedKnown(s: Server, t: Track)
    requires AllKnown(s) && t in s.known
    ensures DistinctIds(Promote(s.window, t)) && forall v | v in Promote(s.window, t) :: v in s.known
  {
    PromoteKeepsDistinct(s.window, t);
  }

  /** A touch keeps the files of all queued tracks exactly when it spares them. */
  lemma TouchSafeIff(s: Server, t: Track, pinned: set<int>)
    requires AllKnown(s) && t in s.known && FilesSafe(s)
    ensures FilesSafe(TouchWith(s, t, pinned)) <==> SparesQueued(s, t, pinned)
  {
    var p := Promote(s.window, t);
    PromotedKnown(s, t);
    if SparesQueued(s, t, pinned) {
      forall id, u | QueuedIn(s.sessions, id, u) ensures u.filePath in TouchWith(s, t, pinned).files {
        SparedKeepsFile(s, t, pinned, id, u);
      }
    } else {
      var id, u, i: nat :| LosesFile(s, p, pinned, id, u, i);
      LostAt(p, pinned, i);
      assert Agree(p[i], u);
      assert p[i] in Lost(p, Evict(p, pinned));
      assert u.filePath !in TouchWith(s, t, pinned).files;
      assert QueuedIn(TouchWith(s, t, pinned).sessions, id, u);
    }
  }

  lemma SparedKeepsFile(s: Server, t: Track, pinned: set<int>, id: Lifecycle.SessionID, u: Track)
    requires AllKnown(s) && t in s.known && FilesSafe(s) && SparesQueued(s, t, pinned) && QueuedIn(s.sessions, id, u)
    ensures u.filePath in TouchWith(s, t, pinned).files
  {
    var p := Promote(s.window, t);
    PromotedKnown(s, t);
    forall v | v in Lost(p, Evict(p, pinned)) && v.filePath == u.filePath ensures u.filePath in s.stuck {
      var i :| 0 <= i < |p| && p[i] == v;
      assert Agree(v, u);
      LostAt(p, pinned, i);
      assert !LosesFile(s, p, pinned, id, u, i);
    }
  }

  // ---- whole runs ----

  ghost predicate Sound(s: State) {
    && Invariant(s.server)
    && forall h | h in s.collected :: |s.collected[h]| <= WindowLimit(s.server.maxSessions)
  }

  ghost predicate Spares(s: State, m: Move)
    requires CanMove(s, m)
  {
    m.Touch? ==> SparesQueued(s.server, m.track, s.collected[m.handler])
  }

  lemma MoveSafeIff(s: State, m: Move)
    requires Sound(s) && CanMove(s, m)
    ensures FilesSafe(Moved(s, m).server) <==> Spares(s, m)
    ensures Spares(s, m) ==> Sound(Moved(s, m))
  {
    match m
    case Whole(call) => StepKeeps(s.server, call);
    case Enqueue(id, t) =>
      var told := s.server.(known := s.server.known + {t});
      assert Invariant(told);
      QueueOpKeeps(told, id, Push(t));
    case Collect(_) => InUseBounded(s.server);
    case Touch(h, t) =>
      TouchSafeIff(s.server, t, s.collected[h]);
      TouchKeepsKnown(s.server, t, s.collected[h]);
      TouchKeepsBound(s.server, t, s.collected[h]);
  }

  ghost predicate SafeThroughout(s: State, moves: seq<Move>)
    requires CanMoveAll(s, moves)
    decreases moves
  {
    FilesSafe(s.server) && (moves != [] ==> SafeThroughout(Moved(s, moves[0]), moves[1..]))
  }

  ghost predicate AllSpare(s: State, moves: seq<Move>)
    requires CanMoveAll(s, moves)
    decreases moves
  {
    moves != [] ==> Spares(s, moves[0]) && AllSpare(Moved(s, moves[0]), moves[1..])
  }

  lemma {:induction false} SafeFrom(s: State, moves: seq<Move>)
    requires Sound(s) && CanMoveAll(s, moves)
    ensures SafeThroughout(s, moves) <==> AllSpare(s, moves)
    decreases moves
  {
    if moves != [] {
      MoveSafeIff(s, moves[0]);
      if Spares(s, moves[0]) {
        SafeFrom(Moved(s, moves[0]), moves[1..]);
      } else {
        assert !SafeThroughout(Moved(s, moves[0]), moves[1..]);
      }
    }
  }

  /** With the tail of AddTrack split, every queued track keeps its file all through a run exactly when no touch finds
      a queued track its ids leave out among the oldest it has to evict. */
  lemma SplitSafeIff(s: Server, moves: seq<Move>)
    requires Fresh(s) && CanMoveAll(State(s, map[]), moves)
    ensures SafeThroughout(State(s, map[]), moves) <==> AllSpare(State(s, map[]), moves)
  {
    SafeFrom(State(s, map[]), moves);
  }

  // ---- a run that loses a file ----

  lemma OneMove(s: State, m: Move, rest: seq<Move>)
    requires CanMove(s, m) && CanMoveAll(Moved(s, m), rest)
    ensures CanMoveAll(s, [m] + rest) && MovedAll(s, [m] + rest) == MovedAll(Moved(s, m), rest)
  {
    assert ([m] + rest)[1..] == rest;
  }

  // hits, on windows

  ghost predicate Cached(w: seq<Track>) {
    DistinctIds(w) && forall u, v | u in w && v in w :: Agree(u, v)
  }

  lemma LookupAt(w: seq<Track>, i: nat)
    requires Cached(w) && i < |w|
    ensures Lookup(w, w[i].sourceId) == Ok(w[i])
  {
    LookupFinds(w, w[i].sourceId);
    assert w[i] in w;
    var hit := Lookup(w, w[i].sourceId).value;
    assert Agree(hit, w[i]);
    var j :| 0 <= j < |w| && w[j] == hit;
  }

  lemma HitAt(w: seq<Track>, i: nat)
    requires Cached(w) && i < |w|
    ensures GetWindow(w, w[i].sourceId) == [w[i]] + RemoveAt(w, i) && Cached([w[i]] + RemoveAt(w, i))
  {
    LookupAt(w, i);
    WithoutIsRemoveAt(w, i);
    PromoteKeepsDistinct(w, w[i]);
    FrontMembers(w, i);
  }

  function Hit(u: Track): Move {
    Whole(CacheGet(u.sourceId))
  }

  /** One hit for each track of `b`, in order, each the first half of an AddTrack; then `rest`. */
  function HitsThen(b: seq<Track>, rest: seq<Move>): seq<Move> {
    if b == [] then rest else [Hit(b[0])] + HitsThen(b[1..], rest)
  }

  function AfterHits(w: seq<Track>, b: seq<Track>): seq<Track>
    decreases b
  {
    if b == [] then w else AfterHits(GetWindow(w, b[0].sourceId), b[1..])
  }

  function Reversed(b: seq<Track>): seq<Track> {
    if b == [] then [] else Reversed(b[1..]) + [b[0]]
  }

  lemma MiddleFirst(a: seq<Track>, b: seq<Track>)
    requires b != []
    ensures (a + b)[|a|] == b[0] && [b[0]] + RemoveAt(a + b, |a|) == ([b[0]] + a) + b[1..]
    ensures Reversed(b[1..]) + ([b[0]] + a) == Reversed(b) + a
  {
    assert RemoveAt(a + b, |a|) == a + b[1..];
  }

  /** Hitting the tracks behind `a` one after the other brings them in front of it, the last one first. */
  lemma {:induction false} HitsReverse(a: seq<Track>, b: seq<Track>)
    requires Cached(a + b)
    ensures AfterHits(a + b, b) == Reversed(b) + a && Cached(Reversed(b) + a)
    decreases b
  {
    if b == [] {
      assert a + b == a && Reversed(b) + a == a;
    } else {
      HitAt(a + b, |a|);
      MiddleFirst(a, b);
      HitsReverse([b[0]] + a, b[1..]);
    }
  }

  function AtWindow(s: State, w: seq<Track>): State {
    s.(server := s.server.(window := w))
  }

  lemma HitMoves(s: State, w: seq<Track>, u: Track)
    ensures CanMove(AtWindow(s, w), Hit(u))
    ensures Moved(AtWindow(s, w), Hit(u)) == AtWindow(s, GetWindow(w, u.sourceId))
  {
  }

  lemma {:induction false} HitsOnly(s: State, w: seq<Track>, b: seq<Track>, rest: seq<Move>)
    requires CanMoveAll(AtWindow(s, AfterHits(w, b)), rest)
    ensures CanMoveAll(AtWindow(s, w), HitsThen(b, rest))
    ensures MovedAll(AtWindow(s, w), HitsThen(b, rest)) == MovedAll(AtWindow(s, AfterHits(w, b)), rest)
    decreases b
  {
    if b != [] {
      HitMoves(s, w, b[0]);
      HitsOnly(s, GetWindow(w, b[0].sourceId), b[1..], rest);
      OneMove(AtWindow(s, w), Hit(b[0]), HitsThen(b[1..], rest));
    }
  }

  lemma LastGoes(w: seq<Track>, x: Track, pinned: set<int>)
    requires DistinctIds(w) && |w| == CACHE_WINDOW && x.id !in IdSet(w) && w[CACHE_WINDOW - 1].id !in pinned
    ensures var t := w[CACHE_WINDOW - 1]; t in Promote(w, x) && t !in TouchWindow(w, x, pinned)
  {
    var q := [x] + w;
    WithoutAbsent(w, x.id);
    PromoteKeepsDistinct(w, x);
    DropOneIsRemoveAt(q, pinned, CACHE_WINDOW);
    WithoutIsRemoveAt(q, CACHE_WINDOW);
    assert q[CACHE_WINDOW] == w[CACHE_WINDOW - 1];
  }

  /** A full window's last track goes when a new one comes, unless its id was collected. */
  lemma LastLosesFile(s: Server, x: Track, pinned: set<int>)
    requires DistinctIds(s.window) && |s.window| == CACHE_WINDOW && x.id !in IdSet(s.window)
    requires var t := s.window[CACHE_WINDOW - 1]; t.id !in pinned && t.filePath !in s.stuck
    ensures s.window[CACHE_WINDOW - 1].filePath !in TouchWith(s, x, pinned).files
  {
    LastGoes(s.window, x, pinned);
    assert s.window[CACHE_WINDOW - 1] in Lost(Promote(s.window, x), TouchWindow(s.window, x, pinned));
  }

  /** Handler 0 downloads and enqueues the new track `x` and collects the ids in use; another handler, which has
      had `t` from the cache, enqueues it; handler 0 touches. */
  function TailMoves(id: Lifecycle.SessionID, t: Track, x: Track): seq<Move> {
    [Whole(Download(x.filePath))] + ([Enqueue(id, x)] + ([Collect(0)] + ([Enqueue(id, t)] + ([Touch(0, x)] + []))))
  }

  ghost predicate LosesQueued(e: State, id: Lifecycle.SessionID, t: Track) {
    QueuedIn(e.server.sessions, id, t) && t.filePath !in e.server.files
  }

  /** From where `x` is queued and nothing is collected. */
  lemma TailEnds(s: Server, id: Lifecycle.SessionID, t: Track, x: Track)
    requires s.sessions == map[id := [x]] && DistinctIds(s.window) && |s.window| == CACHE_WINDOW
    requires t == s.window[CACHE_WINDOW - 1] && t.filePath in s.files && t.filePath !in s.stuck
    requires x.id !in IdSet(s.window) && Consistent(s.known) && t in s.known && x in s.known
    ensures var rest := [Collect(0)] + ([Enqueue(id, t)] + ([Touch(0, x)] + []));
            CanMoveAll(State(s, map[]), rest) && LosesQueued(MovedAll(State(s, map[]), rest), id, t)
  {
    var pinned := InUseIds(s.sessions);
    var ids, n := map[0 := pinned], s.(sessions := map[id := [x, t]]);
    assert t in s.window;
    assert t.id !in pinned;
    assert Step([x], Push(t)) == [x, t];
    assert s.known + {t} == s.known;
    assert Moved(State(s, ids), Enqueue(id, t)) == State(n, ids);
    OneMove(State(n, ids), Touch(0, x), []);
    OneMove(State(s, ids), Enqueue(id, t), [Touch(0, x)] + []);
    OneMove(State(s, map[]), Collect(0), [Enqueue(id, t)] + ([Touch(0, x)] + []));
    LastLosesFile(n, x, pinned);
    assert QueuedIn(n.sessions, id, t);
  }

  lemma TailLoses(s: Server, id: Lifecycle.SessionID, t: Track, x: Track)
    requires s.sessions == map[id := []] && DistinctIds(s.window) && |s.window| == CACHE_WINDOW
    requires t == s.window[CACHE_WINDOW - 1] && t in s.known && t.filePath in s.files && t.filePath !in s.stuck
    requires x.id !in IdSet(s.window) && Consistent(s.known + {x})
    ensures CanMoveAll(State(s, map[]), TailMoves(id, t, x))
    ensures LosesQueued(MovedAll(State(s, map[]), TailMoves(id, t, x)), id, t)
  {
    var s1 := s.(files := s.files + {x.filePath});
    var s2 := s1.(known := s.known + {x}, sessions := map[id := [x]]);
    var rest := [Collect(0)] + ([Enqueue(id, t)] + ([Touch(0, x)] + []));
    assert Step([], Push(x)) == [x];
    assert Moved(State(s1, map[]), Enqueue(id, x)) == State(s2, map[]);
    TailEnds(s2, id, t, x);
    OneMove(State(s1, map[]), Enqueue(id, x), rest);
    OneMove(State(s, map[]), Whole(Download(x.filePath)), [Enqueue(id, x)] + rest);
  }

  /** A session is created; a handler has `t` from the cache; hits on all the other tracks push it to the back; and
      then the tail of that handler's AddTrack and that of another's interleave. */
  function LosingRun(w: seq<Track>, i: nat, id: Lifecycle.SessionID, x: Track): seq<Move>
    requires i < |w|
  {
    [Whole(CreateSession(id))] + ([Hit(w[i])] + HitsThen(RemoveAt(w, i), TailMoves(id, w[i], x)))
  }

  lemma {:induction false} ReversedLength(b: seq<Track>)
    ensures |Reversed(b)| == |b| && forall u :: u in Reversed(b) <==> u in b
  {
    if b != [] {
      ReversedLength(b[1..]);
      assert b == [b[0]] + b[1..];
    }
  }

  lemma FreshIsCached(s: Server)
    requires Fresh(s)
    ensures Cached(s.window)
  {
  }

  /** From any fresh server with a full window and a session to spare, any cached track whose file can be deleted is
      lost in this way while it is queued, its handler's own hit notwithstanding. */
  lemma StaleIdsLoseFile(s: Server, i: nat, id: Lifecycle.SessionID, x: Track)
    requires Fresh(s) && |s.window| == CACHE_WINDOW && i < CACHE_WINDOW && s.maxSessions > 0
    requires s.window[i].filePath in s.files && s.window[i].filePath !in s.stuck
    requires x.id !in IdSet(s.window) && Consistent(s.known + {x})
    ensures CanMoveAll(State(s, map[]), LosingRun(s.window, i, id, x))
    ensures LosesQueued(MovedAll(State(s, map[]), LosingRun(s.window, i, id, x)), id, s.window[i])
  {
    var t, b := s.window[i], RemoveAt(s.window, i);
    var s1 := State(s.(sessions := map[id := []]), map[]);
    var v := Reversed(b) + [t];
    FreshIsCached(s);
    HitAt(s.window, i);
    HitsReverse([t], b);
    PushedBack(s.window, i);
    TailLoses(s1.server.(window := v), id, t, x);
    assert AtWindow(s1, v) == State(s1.server.(window := v), map[]);
    HitsOnly(s1, [t] + b, b, TailMoves(id, t, x));
    HitMoves(s1, s.window, t);
    assert AtWindow(s1, s.window) == s1;
    OneMove(s1, Hit(t), HitsThen(b, TailMoves(id, t, x)));
    assert Moved(State(s, map[]), Whole(CreateSession(id))) == s1;
    OneMove(State(s, map[]), Whole(CreateSession(id)), [Hit(t)] + HitsThen(b, TailMoves(id, t, x)));
  }

  lemma PushedBack(w: seq<Track>, i: nat)
    requires i < |w|
    ensures var v := Reversed(RemoveAt(w, i)) + [w[i]];
            |v| == |w| && v[|v| - 1] == w[i] && IdSet(v) <= IdSet(w)
  {
    var v := Reversed(RemoveAt(w, i)) + [w[i]];
    ReversedLength(RemoveAt(w, i));
    FrontMembers(w, i);
    assert forall u | u in v :: u in w;
  }

  // ---- from a hit to the enqueue ----

  ghost predicate WindowKnown(s: Server) {
    Consistent(s.known) && DistinctIds(s.window) && forall t | t in s.window :: t in s.known
  }

  ghost predicate Allowed(id: int, others: set<int>, p: nat, named: int, pinned: set<int>) {
    (named == id || named in others) && |pinned| <= p
  }

  /** The move brings no track to the front of the window but track `id` and those of `others`, and never with more
      than `p` ids collected. */
  ghost predicate Quiet(s: State, m: Move, id: int, others: set<int>, p: nat)
    requires CanMove(s, m)
  {
    var inUse := InUseIds(s.server.sessions);
    match m
    case Whole(CacheGet(sourceId)) =>
      Lookup(s.server.window, sourceId).Ok? ==> Allowed(id, others, p, Lookup(s.server.window, sourceId).value.id, {})
    case Whole(AddTrack(_, t, _)) => Allowed(id, others, p, t.id, InUseIds(ServerSafety.Next(s.server, m.call).sessions))
    case Whole(AddOrphan(t, _)) => Allowed(id, others, p, t.id, inUse)
    case Touch(h, t) => Allowed(id, others, p, t.id, s.collected[h])
    case _ => true
  }

  ghost predicate AllQuiet(s: State, moves: seq<Move>, id: int, others: set<int>, p: nat)
    requires CanMoveAll(s, moves)
    decreases moves
  {
    moves != [] ==> Quiet(s, moves[0], id, others, p) && AllQuiet(Moved(s, moves[0]), moves[1..], id, others, p)
  }

  /** Track `t` is cached, behind tracks of `others` only, and its file is there. */
  ghost predicate Guarded(s: Server, t: Track, others: set<int>) {
    && WindowKnown(s) && t in s.known && t.filePath in s.files
    && exists at: nat :: CacheRuns.Shielded(s.window, t.id, others, at)
  }

  /** A touch that leaves a track in the window leaves its file. */
  lemma KeptKeepsFile(s: Server, u: Track, pinned: set<int>, t: Track)
    requires WindowKnown(s) && u in s.known && t in s.known && t.filePath in s.files
    requires t.id in IdSet(TouchWindow(s.window, u, pinned))
    ensures t.filePath in TouchWith(s, u, pinned).files && WindowKnown(TouchWith(s, u, pinned))
  {
    var p, r := Promote(s.window, u), TouchWindow(s.window, u, pinned);
    PromoteKeepsDistinct(s.window, u);
    EvictOutcome(p, pinned);
    var kept :| kept in r && kept.id == t.id;
    forall v | v in Lost(p, r) ensures v.filePath != t.filePath {
      assert Agree(v, t);
      SameId(p, v, kept);
    }
  }

  lemma SameId(w: seq<Track>, u: Track, v: Track)
    requires DistinctIds(w) && u in w && v in w
    ensures u.id == v.id ==> u == v
  {
  }

  lemma ShieldedIsIn(w: seq<Track>, id: int, others: set<int>, at: nat)
    requires CacheRuns.Shielded(w, id, others, at)
    ensures id in IdSet(w)
  {
    assert w[at] in w;
  }

  lemma GuardedTouch(s: Server, u: Track, pinned: set<int>, t: Track, others: set<int>, p: nat)
    requires Guarded(s, t, others) && u in s.known && Allowed(t.id, others, p, u.id, pinned)
    requires p + |others| < CACHE_WINDOW
    ensures Guarded(TouchWith(s, u, pinned), t, others)
  {
    var at: nat :| CacheRuns.Shielded(s.window, t.id, others, at);
    var at' := CacheRuns.ShieldedPromote(s.window, u, t.id, others, at);
    PromoteKeepsDistinct(s.window, u);
    CacheRuns.ShieldedEvict(Promote(s.window, u), pinned, t.id, others, at');
    ShieldedIsIn(TouchWindow(s.window, u, pinned), t.id, others, at');
    KeptKeepsFile(s, u, pinned, t);
  }

  lemma GuardedHit(s: Server, sourceId: string, t: Track, others: set<int>, p: nat)
    requires Guarded(s, t, others)
    requires Lookup(s.window, sourceId).Ok? ==> Allowed(t.id, others, p, Lookup(s.window, sourceId).value.id, {})
    ensures Guarded(s.(window := GetWindow(s.window, sourceId)), t, others)
  {
    LookupFinds(s.window, sourceId);
    var hit := Lookup(s.window, sourceId);
    if hit.Ok? {
      var at: nat :| CacheRuns.Shielded(s.window, t.id, others, at);
      var at' := CacheRuns.ShieldedPromote(s.window, hit.value, t.id, others, at);
      PromoteKeepsDistinct(s.window, hit.value);
    }
  }

  lemma GuardedStays(s: Server, n: Server, t: Track, others: set<int>)
    requires Guarded(s, t, others) && n.window == s.window && s.known <= n.known && Consistent(n.known) && s.files <= n.files
    ensures Guarded(n, t, others)
  {
  }

  lemma GuardedWhole(s: Server, c: Call, t: Track, others: set<int>, p: nat)
    requires Guarded(s, t, others) && ServerSafety.Enabled(s, c) && p + |others| < CACHE_WINDOW
    requires Quiet(State(s, map[]), Whole(c), t.id, others, p)
    ensures Guarded(ServerSafety.Next(s, c), t, others)
  {
    match c
    case CacheGet(sourceId) => GuardedHit(s, sourceId, t, others, p);
    case AddTrack(id, u, dbOk) =>
      if id in s.sessions && |s.sessions[id]| < MAX_QUEUE_SIZE {
        var queued := OnQueue(s.(known := s.known + {u}), id, Push(u));
        GuardedStays(s, queued, t, others);
        if dbOk { GuardedTouch(queued, u, InUseIds(queued.sessions), t, others, p); }
      }
    case AddOrphan(u, dbOk) =>
      var told := s.(known := s.known + {u});
      GuardedStays(s, told, t, others);
      if dbOk { GuardedTouch(told, u, InUseIds(s.sessions), t, others, p); }
    case _ => GuardedStays(s, ServerSafety.Next(s, c), t, others);
  }

  lemma GuardedMove(s: State, m: Move, t: Track, others: set<int>, p: nat)
    requires Guarded(s.server, t, others) && CanMove(s, m) && Quiet(s, m, t.id, others, p)
    requires p + |others| < CACHE_WINDOW
    ensures Guarded(Moved(s, m).server, t, others)
  {
    match m
    case Whole(c) => GuardedWhole(s.server, c, t, others, p);
    case Enqueue(id, u) => GuardedStays(s.server, Moved(s, m).server, t, others);
    case Collect(_) =>
    case Touch(h, u) => GuardedTouch(s.server, u, s.collected[h], t, others, p);
  }

  lemma {:induction false} GuardedRun(s: State, moves: seq<Move>, t: Track, others: set<int>, p: nat)
    requires Guarded(s.server, t, others) && CanMoveAll(s, moves) && AllQuiet(s, moves, t.id, others, p)
    requires p + |others| < CACHE_WINDOW
    ensures Guarded(MovedAll(s, moves).server, t, others)
    decreases moves
  {
    if moves != [] {
      GuardedMove(s, moves[0], t, others, p);
      GuardedRun(Moved(s, moves[0]), moves[1..], t, others, p);
    }
  }

  /** From a hit on a cached track with its file on disk, whatever other handlers do: as long as they name at most `k`
      other tracks and collect at most `p` ids at a time, with p + k below the window's size, the file stays. */
  lemma HitProtectsFile(s: State, t: Track, moves: seq<Move>, others: set<int>, k: nat, p: nat)
    requires WindowKnown(s.server) && t in s.server.window && t.filePath in s.server.files
    requires CanMoveAll(s, [Hit(t)] + moves) && AllQuiet(Moved(s, Hit(t)), moves, t.id, others, p)
    requires |others| <= k && p + k < CACHE_WINDOW
    ensures t.filePath in MovedAll(s, [Hit(t)] + moves).server.files
  {
    var w, n := s.server.window, Moved(s, Hit(t));
    var i :| 0 <= i < |w| && w[i] == t;
    HitAt(w, i);
    assert CacheRuns.Shielded(n.server.window, t.id, others, 0);
    assert ([Hit(t)] + moves)[1..] == moves;
    FrontMembers(w, i);
    GuardedRun(n, moves, t, others, p);
  }
}
