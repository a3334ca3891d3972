/** The life of sessions: the manager's map (server/src/session/session_manager.go), its event channel,
    the event loop of StreamSessions and the streamers it starts (server/src/icecast/icecast.go). Locked
    sections, channel operations and the loop's handling of an event are the steps. */
module Lifecycle {

  type SessionID = string

  const EVENT_BUFFER: nat := 16

  datatype Event = Created(id: SessionID) | Deleted(id: SessionID)

  /** Running until it takes the way out; Leaving until its deferred endSession has deleted the id. */
  datatype Stage = Running | Leaving
  datatype Streamer = Streamer(id: SessionID, queue: nat, cancelled: bool, stage: Stage)

  datatype Loop = Receiving | Handling(event: Event) | Stopped

  /** Queues and streamers are named by counters, so that two of the same session id stay apart. */
  datatype State = State(
    sessions: map<SessionID, nat>,
    maxSessions: int,
    sending: multiset<Event>,
    channel: seq<Event>,
    loop: Loop,
    cancels: map<SessionID, nat>,
    streamers: map<nat, Streamer>,
    nextQueue: nat,
    nextStreamer: nat,
    served: set<nat>)

  function Start(maxSessions: int): State {
    State(map[], maxSessions, multiset{}, [], Receiving, map[], map[], 0, 0, {})
  }

  datatype Label =
    | Create(id: SessionID) | Delete(id: SessionID)
    | Send(event: Event) | Abandon(event: Event)
    | Receive | Handle
    | Leave(streamer: nat) | EndSession(streamer: nat)

  predicate Enabled(s: State, l: Label) {
    match l
    case Create(_) => true
    case Delete(_) => true
    case Send(e) => e in s.sending && |s.channel| < EVENT_BUFFER
    case Abandon(e) => e in s.sending
    case Receive => s.loop.Receiving? && s.channel != []
    case Handle => s.loop.Handling?
    case Leave(k) => k in s.streamers && s.streamers[k].stage.Running?
    case EndSession(k) => k in s.streamers && s.streamers[k].stage.Leaving?
  }

  predicate Admits(s: State, id: SessionID) {
    id !in s.sessions && |s.sessions| < s.maxSessions
  }

  function Next(s: State, l: Label): State
    requires Enabled(s, l)
  {
    match l
    case Create(id) =>
      if !Admits(s, id) then s
      else s.(sessions := s.sessions[id := s.nextQueue], nextQueue := s.nextQueue + 1,
              sending := s.sending + multiset{Created(id)})
    case Delete(id) => s.(sessions := s.sessions - {id}, sending := s.sending + multiset{Deleted(id)})
    case Send(e) => s.(sending := s.sending - multiset{e}, channel := s.channel + [e])
    case Abandon(e) => s.(sending := s.sending - multiset{e})
    case Receive => s.(channel := s.channel[1..], loop := Handling(s.channel[0]))
    case Handle => if s.loop.event.Created? then StartStream(s, s.loop.event.id) else StopStream(s, s.loop.event.id)
    case Leave(k) => s.(streamers := s.streamers[k := s.streamers[k].(stage := Leaving)])
    case EndSession(k) =>
      var id := s.streamers[k].id;
      s.(streamers := s.streamers - {k}, sessions := s.sessions - {id}, sending := s.sending + multiset{Deleted(id)})
  }

  /** GetQueue failing makes the whole loop return. */
  function StartStream(s: State, id: SessionID): State {
    if id !in s.sessions then s.(loop := Stopped)
    else
      var k := s.nextStreamer;
      s.(loop := Receiving, cancels := s.cancels[id := k], nextStreamer := k + 1,
         streamers := s.streamers[k := Streamer(id, s.sessions[id], false, Running)],
         served := s.served + {s.sessions[id]})
  }

  function StopStream(s: State, id: SessionID): State {
    if id !in s.cancels then s.(loop := Receiving)
    else
      var k := s.cancels[id];
      s.(loop := Receiving, cancels := s.cancels - {id},
         streamers := if k in s.streamers then s.streamers[k := s.streamers[k].(cancelled := true)] else s.streamers)
  }

  /** Events on their way: being sent, in the channel, or in the loop's hands. */
  function Pending(s: State): multiset<Event> {
    s.sending + multiset(s.channel) + if s.loop.Handling? then multiset{s.loop.event} else multiset{}
  }

  // ---- what the environment may do ----

  /** No send is given up because its context ended, but for a Deleted event that another such event makes up for,
      or that has nothing left to cancel. */
  ghost predicate SendsKept(s: State, l: Label) {
    l.Abandon? ==> l.event.Deleted? && (Pending(s)[l.event] > 1 || l.event.id !in s.cancels)
  }

  /** A client deletes a session only once its Created event has been handled. */
  ghost predicate DeletesAfterStart(s: State, l: Label) {
    l.Delete? ==> Created(l.id) !in Pending(s)
  }

  /** An id comes back only after its old streamer has ended and its Deleted events have been handled. */
  ghost predicate FreshIds(s: State, l: Label) {
    l.Create? && Admits(s, l.id) ==>
      Deleted(l.id) !in Pending(s) && NoStreamer(s, l.id)
  }

  /** Which of the three rules a run is held to. */
  datatype Rules = Rules(sends: bool, deletes: bool, ids: bool)

  const ALL_RULES := Rules(true, true, true)

  ghost predicate Allowed(rules: Rules, s: State, l: Label) {
    && (rules.sends ==> SendsKept(s, l))
    && (rules.deletes ==> DeletesAfterStart(s, l))
    && (rules.ids ==> FreshIds(s, l))
  }

  ghost predicate Polite(s: State, l: Label) {
    Allowed(ALL_RULES, s, l)
  }

  ghost predicate CanRun(s: State, run: seq<Label>)
    decreases run
  {
    run == [] || (Enabled(s, run[0]) && CanRun(Next(s, run[0]), run[1..]))
  }

  ghost function After(s: State, run: seq<Label>): State
    requires CanRun(s, run)
    decreases run
  {
    if run == [] then s else After(Next(s, run[0]), run[1..])
  }

  /** Every step of the run keeps the rules in the state it is taken in. */
  ghost predicate Obeys(s: State, run: seq<Label>, rules: Rules)
    requires CanRun(s, run)
    decreases run
  {
    run != [] ==> Allowed(rules, s, run[0]) && Obeys(Next(s, run[0]), run[1..], rules)
  }

  // ---- what then holds ----

  ghost predicate Served(s: State, id: SessionID, k: nat) {
    && k in s.streamers && s.streamers[k].id == id && !s.streamers[k].cancelled
    && id in s.sessions && s.streamers[k].queue == s.sessions[id]
  }

  ghost predicate NoStreamer(s: State, id: SessionID) {
    forall k | k in s.streamers :: s.streamers[k].id != id
  }

  /** A session in the map has either its one Created event on the way, or its one live streamer on its
      own queue, reachable through `cancels`; and no Deleted event is about. */
  ghost predicate SessionsServed(s: State, p: multiset<Event>) {
    forall id | id in s.sessions ::
      && p[Deleted(id)] == 0
      && (p[Created(id)] == 1 || p[Created(id)] == 0)
      && (p[Created(id)] == 1 ==> id !in s.cancels && s.sessions[id] !in s.served && NoStreamer(s, id))
      && (p[Created(id)] == 0 ==> id in s.cancels && Served(s, id, s.cancels[id]))
  }

  /** No Created event for a session that is gone: the loop's GetQueue cannot fail. */
  ghost predicate CreatedKnown(s: State, p: multiset<Event>) {
    forall id | id !in s.sessions :: p[Created(id)] == 0
  }

  /** A session has at most one streamer; an uncancelled one is the one `cancels` names. */
  ghost predicate StreamersNamed(s: State) {
    forall k | k in s.streamers :: !s.streamers[k].cancelled ==>
      s.streamers[k].id in s.cancels && s.cancels[s.streamers[k].id] == k
  }

  /** A cancel function belongs to a streamer of its own session, as long as that streamer runs. */
  ghost predicate CancelsNamed(s: State) {
    forall id | id in s.cancels ::
      s.cancels[id] < s.nextStreamer && (s.cancels[id] in s.streamers ==> s.streamers[s.cancels[id]].id == id)
  }

  ghost predicate OneStreamerEach(s: State) {
    forall k, j | k in s.streamers && j in s.streamers && s.streamers[k].id == s.streamers[j].id :: k == j
  }

  /** A streamer whose session left the map is cancelled, or a Deleted event that will cancel it is about. */
  ghost predicate OrphansEnd(s: State, p: multiset<Event>) {
    forall k | k in s.streamers && s.streamers[k].id !in s.sessions ::
      s.streamers[k].cancelled || p[Deleted(s.streamers[k].id)] > 0
  }

  /** No cancel function outlives its session without a Deleted event that will drop it. */
  ghost predicate CancelsEnd(s: State, p: multiset<Event>) {
    forall id | id in s.cancels && id !in s.sessions :: p[Deleted(id)] > 0
  }

  /** Queues are new when created and served once: a queue never has two players. */
  ghost predicate QueuesFresh(s: State) {
    && (forall id | id in s.sessions :: s.sessions[id] < s.nextQueue)
    && (forall q | q in s.served :: q < s.nextQueue)
    && (forall id, jd | id in s.sessions && jd in s.sessions && s.sessions[id] == s.sessions[jd] :: id == jd)
    && (forall k | k in s.streamers :: k < s.nextStreamer && s.streamers[k].queue in s.served)
    && (forall k, j | k in s.streamers && j in s.streamers && s.streamers[k].queue == s.streamers[j].queue :: k == j)
  }

  ghost predicate Bounds(s: State) {
    |s.channel| <= EVENT_BUFFER && !s.loop.Stopped? && (|s.sessions| <= s.maxSessions || s.sessions == map[])
  }

  ghost predicate EventsRight(s: State, p: multiset<Event>) {
    SessionsServed(s, p) && CreatedKnown(s, p) && OrphansEnd(s, p) && CancelsEnd(s, p)
  }

  ghost predicate NamesRight(s: State) {
    StreamersNamed(s) && CancelsNamed(s) && OneStreamerEach(s)
  }

  ghost predicate Invariant(s: State) {
    EventsRight(s, Pending(s)) && NamesRight(s) && QueuesFresh(s) && Bounds(s)
  }

  // ---- one step at a time; `p` is what is pending before it ----

  lemma PendingSend(s: State, e: Event)
    requires Enabled(s, Send(e))
    ensures Pending(Next(s, Send(e))) == Pending(s)
  {
  }

  lemma PendingReceive(s: State)
    requires Enabled(s, Receive)
    ensures Pending(Next(s, Receive)) == Pending(s)
  {
    assert s.channel == [s.channel[0]] + s.channel[1..];
  }

  lemma KeepsByCreate(s: State, id: SessionID)
    requires Invariant(s) && Polite(s, Create(id))
    ensures Invariant(Next(s, Create(id)))
  {
    var n, p := Next(s, Create(id)), Pending(s);
    if Admits(s, id) {
      assert Pending(n) == p + multiset{Created(id)};
      NotYetCancellable(s, p, id);
      CreateQueues(s, id);
      CreateEvents(s, p, id);
      CreateBounds(s, id);
      CreateNames(s, id);
    }
  }

  lemma NotYetCancellable(s: State, p: multiset<Event>, id: SessionID)
    requires CancelsEnd(s, p) && id !in s.sessions && Deleted(id) !in p
    ensures id !in s.cancels
  {
  }

  lemma CreateBounds(s: State, id: SessionID)
    requires Bounds(s) && Admits(s, id)
    ensures Bounds(Next(s, Create(id)))
  {
    assert Next(s, Create(id)).sessions.Keys == s.sessions.Keys + {id};
  }

  lemma CreateNames(s: State, id: SessionID)
    requires NamesRight(s) && Admits(s, id)
    ensures NamesRight(Next(s, Create(id)))
  {
  }

  lemma CreateEvents(s: State, p: multiset<Event>, id: SessionID)
    requires EventsRight(s, p) && QueuesFresh(s) && Admits(s, id)
    requires p[Deleted(id)] == 0 && NoStreamer(s, id) && id !in s.cancels
    ensures EventsRight(Next(s, Create(id)), p + multiset{Created(id)})
  {
  }

  lemma CreateQueues(s: State, id: SessionID)
    requires QueuesFresh(s) && Admits(s, id)
    ensures QueuesFresh(Next(s, Create(id)))
  {
  }

  lemma KeepsByDelete(s: State, id: SessionID)
    requires Invariant(s) && Polite(s, Delete(id))
    ensures Invariant(Next(s, Delete(id)))
  {
    var n, p := Next(s, Delete(id)), Pending(s);
    assert Pending(n) == p + multiset{Deleted(id)};
    assert n.sessions.Keys == s.sessions.Keys - {id};
    DeleteEvents(s, p, id, n);
  }

  /** A session leaves the map, its Created event handled, with a Deleted event on its way. */
  lemma DeleteEvents(s: State, p: multiset<Event>, id: SessionID, n: State)
    requires EventsRight(s, p) && p[Created(id)] == 0
    requires n.sessions == s.sessions - {id} && n.streamers == s.streamers && n.cancels == s.cancels && n.served == s.served
    ensures EventsRight(n, p + multiset{Deleted(id)})
  {
  }

  lemma KeepsBySend(s: State, l: Label)
    requires Invariant(s) && (l.Send? || l.Receive?) && Enabled(s, l)
    ensures Invariant(Next(s, l))
  {
    if l.Send? { PendingSend(s, l.event); } else { PendingReceive(s); }
  }

  lemma KeepsByStart(s: State)
    requires Invariant(s) && s.loop.Handling? && s.loop.event.Created?
    ensures Invariant(Next(s, Handle))
  {
    var n, id, p := Next(s, Handle), s.loop.event.id, Pending(s);
    assert p[Created(id)] > 0;
    assert id in s.sessions;
    assert Pending(n) == p - multiset{Created(id)};
    StartEvents(s, p, id);
    StartNames(s, id);
    StartQueues(s, id);
  }

  lemma StartEvents(s: State, p: multiset<Event>, id: SessionID)
    requires EventsRight(s, p) && QueuesFresh(s) && CancelsNamed(s) && id in s.sessions && p[Created(id)] == 1
    ensures EventsRight(StartStream(s, id), p - multiset{Created(id)})
  {
    var n, q := StartStream(s, id), p - multiset{Created(id)};
    assert Served(n, id, s.nextStreamer);
    forall jd | jd in n.sessions && jd != id
      ensures q[Created(jd)] == p[Created(jd)] && q[Deleted(jd)] == p[Deleted(jd)]
      ensures q[Created(jd)] == 1 ==> n.sessions[jd] !in n.served && NoStreamer(n, jd)
      ensures q[Created(jd)] == 0 ==> Served(n, jd, n.cancels[jd])
    {
    }
  }

  lemma StartNames(s: State, id: SessionID)
    requires NamesRight(s) && QueuesFresh(s) && id in s.sessions && NoStreamer(s, id)
    ensures NamesRight(StartStream(s, id))
  {
  }

  lemma StartQueues(s: State, id: SessionID)
    requires QueuesFresh(s) && id in s.sessions && s.sessions[id] !in s.served
    ensures QueuesFresh(StartStream(s, id))
  {
  }

  lemma KeepsByStop(s: State)
    requires Invariant(s) && s.loop.Handling? && s.loop.event.Deleted?
    ensures Invariant(Next(s, Handle))
  {
    var n, id, p := Next(s, Handle), s.loop.event.id, Pending(s);
    assert p[Deleted(id)] > 0;
    assert id !in s.sessions;
    assert Pending(n) == p - multiset{Deleted(id)};
    StopEvents(s, p, id);
    StopNames(s, id);
    StopQueues(s, id);
  }

  lemma StopQueues(s: State, id: SessionID)
    requires QueuesFresh(s)
    ensures QueuesFresh(StopStream(s, id))
  {
  }

  lemma StopServed(s: State, p: multiset<Event>, id: SessionID)
    requires SessionsServed(s, p) && CancelsNamed(s) && id !in s.sessions
    ensures SessionsServed(StopStream(s, id), p - multiset{Deleted(id)})
  {
    var n := StopStream(s, id);
    forall jd | jd in n.sessions && p[Created(jd)] == 0 ensures jd in n.cancels && Served(n, jd, n.cancels[jd]) {
      assert Served(s, jd, s.cancels[jd]);
    }
  }

  lemma StopEnds(s: State, p: multiset<Event>, id: SessionID)
    requires OrphansEnd(s, p) && CancelsEnd(s, p) && NamesRight(s)
    ensures OrphansEnd(StopStream(s, id), p - multiset{Deleted(id)})
    ensures CancelsEnd(StopStream(s, id), p - multiset{Deleted(id)})
  {
    var n := StopStream(s, id);
    forall k | k in n.streamers && n.streamers[k].id !in n.sessions
      ensures n.streamers[k].cancelled || (p - multiset{Deleted(id)})[Deleted(n.streamers[k].id)] > 0
    {
      assert s.streamers[k].cancelled || p[Deleted(s.streamers[k].id)] > 0;
    }
  }

  lemma StopEvents(s: State, p: multiset<Event>, id: SessionID)
    requires EventsRight(s, p) && NamesRight(s) && id !in s.sessions
    ensures EventsRight(StopStream(s, id), p - multiset{Deleted(id)})
  {
    StopServed(s, p, id);
    StopEnds(s, p, id);
  }

  lemma StopNames(s: State, id: SessionID)
    requires NamesRight(s)
    ensures NamesRight(StopStream(s, id))
  {
  }

  lemma KeepsByLeave(s: State, k: nat)
    requires Invariant(s) && Enabled(s, Leave(k))
    ensures Invariant(Next(s, Leave(k)))
  {
    assert Pending(Next(s, Leave(k))) == Pending(s);
    LeaveEvents(s, Pending(s), k);
    LeaveNames(s, k);
  }

  lemma LeaveEvents(s: State, p: multiset<Event>, k: nat)
    requires EventsRight(s, p) && Enabled(s, Leave(k))
    ensures EventsRight(Next(s, Leave(k)), p)
  {
    var n := Next(s, Leave(k));
    forall id | id in n.sessions && p[Created(id)] == 0 ensures id in n.cancels && Served(n, id, n.cancels[id]) {
      assert Served(s, id, s.cancels[id]);
    }
  }

  lemma LeaveNames(s: State, k: nat)
    requires NamesRight(s) && QueuesFresh(s) && Enabled(s, Leave(k))
    ensures NamesRight(Next(s, Leave(k))) && QueuesFresh(Next(s, Leave(k)))
  {
  }

  lemma KeepsByEndSession(s: State, k: nat)
    requires Invariant(s) && Enabled(s, EndSession(k))
    ensures Invariant(Next(s, EndSession(k)))
  {
    var n, id, p := Next(s, EndSession(k)), s.streamers[k].id, Pending(s);
    assert Pending(n) == p + multiset{Deleted(id)};
    assert n.sessions.Keys == s.sessions.Keys - {id};
    EndEvents(s, p, k);
  }

  lemma EndServed(s: State, p: multiset<Event>, k: nat)
    requires SessionsServed(s, p) && OneStreamerEach(s) && Enabled(s, EndSession(k))
    ensures SessionsServed(Next(s, EndSession(k)), p + multiset{Deleted(s.streamers[k].id)})
  {
    var n := Next(s, EndSession(k));
    forall jd | jd in n.sessions && p[Created(jd)] == 0 ensures jd in n.cancels && Served(n, jd, n.cancels[jd]) {
      assert Served(s, jd, s.cancels[jd]);
    }
  }

  lemma EndKnown(s: State, p: multiset<Event>, k: nat)
    requires SessionsServed(s, p) && CreatedKnown(s, p) && Enabled(s, EndSession(k))
    ensures CreatedKnown(Next(s, EndSession(k)), p + multiset{Deleted(s.streamers[k].id)})
  {
  }

  lemma EndEvents(s: State, p: multiset<Event>, k: nat)
    requires EventsRight(s, p) && NamesRight(s) && Enabled(s, EndSession(k))
    ensures EventsRight(Next(s, EndSession(k)), p + multiset{Deleted(s.streamers[k].id)})
  {
    EndServed(s, p, k);
    EndKnown(s, p, k);
  }

  lemma KeepsByAbandon(s: State, e: Event)
    requires Invariant(s) && Enabled(s, Abandon(e)) && Polite(s, Abandon(e))
    ensures Invariant(Next(s, Abandon(e)))
  {
    var n, p := Next(s, Abandon(e)), Pending(s);
    PendingAbandon(s, e);
    AbandonEvents(s, p, e.id);
    assert EventsRight(n, Pending(n));
  }

  lemma PendingAbandon(s: State, e: Event)
    requires Enabled(s, Abandon(e))
    ensures Pending(s)[e] > 0 && Pending(Next(s, Abandon(e))) == Pending(s) - multiset{e}
  {
  }

  /** A Deleted event that is not the last of its id, or whose id has no cancel function, may go. */
  lemma AbandonEvents(s: State, p: multiset<Event>, id: SessionID)
    requires EventsRight(s, p) && NamesRight(s) && p[Deleted(id)] > 0 && (p[Deleted(id)] > 1 || id !in s.cancels)
    ensures EventsRight(s, p - multiset{Deleted(id)})
  {
    assert id !in s.sessions;
  }

  lemma StepKeeps(s: State, l: Label)
    requires Invariant(s) && Enabled(s, l) && Polite(s, l)
    ensures Invariant(Next(s, l))
  {
    match l {
      case Create(id) => KeepsByCreate(s, id);
      case Delete(id) => KeepsByDelete(s, id);
      case Send(_) => KeepsBySend(s, l);
      case Abandon(e) => KeepsByAbandon(s, e);
      case Receive => KeepsBySend(s, l);
      case Handle => if s.loop.event.Created? { KeepsByStart(s); } else { KeepsByStop(s); }
      case Leave(k) => KeepsByLeave(s, k);
      case EndSession(k) => KeepsByEndSession(s, k);
    }
  }

  lemma StartHolds(maxSessions: int)
    ensures Invariant(Start(maxSessions))
  {
  }
}
