/** The life of sessions is sound all through a run exactly when each step keeps to three rules; and a run for each
    rule that breaks only that one. */
module LifecycleLaws {
  import opened Collections
  import opened Lifecycle

  /** The session is waiting for its streamer: one Created event is about and nothing streams. */
  ghost predicate AwaitsStreamer(s: State, id: SessionID) {
    Pending(s)[Created(id)] == 1 && NoStreamer(s, id)
  }

  /** The session has its one streamer, on its very queue, live, and no Created event is about. */
  ghost predicate HasStreamer(s: State, id: SessionID) {
    && Pending(s)[Created(id)] == 0
    && exists k :: Served(s, id, k) && forall j | j in s.streamers && s.streamers[j].id == id :: j == k
  }

  ghost predicate LifecycleSound(s: State) {
    && (forall id | id in s.sessions :: AwaitsStreamer(s, id) != HasStreamer(s, id) && Pending(s)[Deleted(id)] == 0)
    && (forall id | id !in s.sessions :: Pending(s)[Created(id)] == 0)
    && !s.loop.Stopped?
    && OrphansEnd(s, Pending(s)) && CancelsEnd(s, Pending(s))
    && |s.channel| <= 16 && (|s.sessions| <= s.maxSessions || s.sessions == map[])
    && (forall k, j | k in s.streamers && j in s.streamers && s.streamers[k].queue == s.streamers[j].queue :: k == j)
  }

  lemma ServedOnce(s: State, id: SessionID)
    requires Invariant(s) && id in s.sessions
    ensures AwaitsStreamer(s, id) != HasStreamer(s, id)
  {
    if Pending(s)[Created(id)] == 0 {
      var k := s.cancels[id];
      assert Served(s, id, k);
    }
  }

  lemma InvariantIsSound(s: State)
    requires Invariant(s)
    ensures LifecycleSound(s)
  {
    forall id | id in s.sessions ensures AwaitsStreamer(s, id) != HasStreamer(s, id) { ServedOnce(s, id); }
  }

  // ---- a step that breaks a rule breaks the property ----

  lemma AbandonedCreated(s: State, id: SessionID)
    requires Invariant(s) && Enabled(s, Abandon(Created(id)))
    ensures !LifecycleSound(Next(s, Abandon(Created(id))))
  {
    var n, p := Next(s, Abandon(Created(id))), Pending(s);
    assert p[Created(id)] > 0;
    assert id in s.sessions;
    assert Pending(n) == p - multiset{Created(id)};
    assert NoStreamer(n, id);
    assert !AwaitsStreamer(n, id) && !HasStreamer(n, id);
  }

  lemma AbandonedDeleted(s: State, id: SessionID)
    requires Invariant(s) && Enabled(s, Abandon(Deleted(id))) && !SendsKept(s, Abandon(Deleted(id)))
    ensures !LifecycleSound(Next(s, Abandon(Deleted(id))))
  {
    var n, p := Next(s, Abandon(Deleted(id))), Pending(s);
    assert p[Deleted(id)] == 1;
    assert id !in s.sessions;
    assert Pending(n) == p - multiset{Deleted(id)};
    assert !CancelsEnd(n, Pending(n));
  }

  lemma DeletedEarly(s: State, id: SessionID)
    requires Created(id) in Pending(s)
    ensures !LifecycleSound(Next(s, Delete(id)))
  {
    var n := Next(s, Delete(id));
    assert Pending(n) == Pending(s) + multiset{Deleted(id)};
    assert id !in n.sessions && Pending(n)[Created(id)] > 0;
  }

  lemma CreatedEarly(s: State, id: SessionID)
    requires Invariant(s) && Admits(s, id) && (Deleted(id) in Pending(s) || !NoStreamer(s, id))
    ensures !LifecycleSound(Next(s, Create(id)))
  {
    var n, p := Next(s, Create(id)), Pending(s);
    assert Pending(n) == p + multiset{Created(id)};
    assert id in n.sessions;
    if !NoStreamer(s, id) {
      assert !NoStreamer(n, id);
      assert !AwaitsStreamer(n, id) && !HasStreamer(n, id);
    }
  }

  /** From a state the rules have kept, a step leaves the property in force exactly when it keeps the rules. */
  lemma StepSoundIff(s: State, l: Label)
    requires Invariant(s) && Enabled(s, l)
    ensures LifecycleSound(Next(s, l)) <==> Polite(s, l)
    ensures Polite(s, l) ==> Invariant(Next(s, l))
  {
    if Polite(s, l) {
      StepKeeps(s, l);
      InvariantIsSound(Next(s, l));
    } else if l.Abandon? {
      if l.event.Created? { AbandonedCreated(s, l.event.id); } else { AbandonedDeleted(s, l.event.id); }
    } else if l.Delete? {
      DeletedEarly(s, l.id);
    } else {
      CreatedEarly(s, l.id);
    }
  }

  ghost predicate SoundThroughout(s: State, run: seq<Label>)
    requires CanRun(s, run)
    decreases run
  {
    LifecycleSound(s) && (run != [] ==> SoundThroughout(Next(s, run[0]), run[1..]))
  }

  lemma {:induction false} SoundFrom(s: State, run: seq<Label>, good: State -> bool)
    requires good(s) && CanRun(s, run)
    requires forall t | good(t) :: LifecycleSound(t)
    requires forall t, l | good(t) && Enabled(t, l) :: LifecycleSound(Next(t, l)) <==> Polite(t, l)
    requires forall t, l | good(t) && Enabled(t, l) && Polite(t, l) :: good(Next(t, l))
    ensures SoundThroughout(s, run) <==> Obeys(s, run, ALL_RULES)
    ensures Obeys(s, run, ALL_RULES) ==> good(After(s, run))
    decreases run
  {
    if run != [] {
      if Polite(s, run[0]) {
        SoundFrom(Next(s, run[0]), run[1..], good);
      } else {
        assert !SoundThroughout(Next(s, run[0]), run[1..]);
      }
    }
  }

  lemma EveryRun(maxSessions: int, run: seq<Label>)
    requires CanRun(Start(maxSessions), run)
    ensures SoundThroughout(Start(maxSessions), run) <==> Obeys(Start(maxSessions), run, ALL_RULES)
    ensures Obeys(Start(maxSessions), run, ALL_RULES) ==> Invariant(After(Start(maxSessions), run))
  {
    StartHolds(maxSessions);
    forall t | Invariant(t) ensures LifecycleSound(t) { InvariantIsSound(t); }
    forall t, l | Invariant(t) && Enabled(t, l)
      ensures LifecycleSound(Next(t, l)) <==> Polite(t, l)
      ensures Polite(t, l) ==> Invariant(Next(t, l))
    {
      StepSoundIff(t, l);
    }
    SoundFrom(Start(maxSessions), run, s => Invariant(s));
  }

  /** All through a run, exactly when each of its steps keeps the rules: each session of the map has exactly one of a
      Created event on its way and one live streamer on its queue, and no Deleted event about; the event loop's lookup
      never fails; a streamer without a session is cancelled or about to be; cancel functions are not leaked; and no
      queue has two players. */
  lemma SessionLifecycle(maxSessions: int, run: seq<Label>)
    requires CanRun(Start(maxSessions), run)
    ensures SoundThroughout(Start(maxSessions), run) <==> Obeys(Start(maxSessions), run, ALL_RULES)
  {
    EveryRun(maxSessions, run);
  }

  /** If the next step handles a Created event, its session is there and its queue has had no streamer yet. */
  ghost predicate StartsFresh(s: State) {
    s.loop.Handling? && s.loop.event.Created? ==>
      var id := s.loop.event.id;
      id in s.sessions && s.sessions[id] !in s.served && Served(Next(s, Handle), id, s.nextStreamer)
  }

  lemma InvariantStartsFresh(s: State)
    requires Invariant(s)
    ensures StartsFresh(s)
  {
    if s.loop.Handling? && s.loop.event.Created? {
      assert Pending(s)[s.loop.event] > 0;
    }
  }

  /** What follows from the invariant holds after every run that keeps the rules. */
  lemma EveryRunHas(maxSessions: int, run: seq<Label>, holds: State -> bool)
    requires CanRun(Start(maxSessions), run) && Obeys(Start(maxSessions), run, ALL_RULES)
    requires forall s | Invariant(s) :: holds(s)
    ensures holds(After(Start(maxSessions), run))
  {
    EveryRun(maxSessions, run);
  }

  /** A step that starts a streamer starts it on a queue no streamer has had before. */
  lemma QueueServedOnce(maxSessions: int, run: seq<Label>)
    requires CanRun(Start(maxSessions), run) && Obeys(Start(maxSessions), run, ALL_RULES)
    ensures StartsFresh(After(Start(maxSessions), run))
  {
    forall s | Invariant(s) ensures StartsFresh(s) { InvariantStartsFresh(s); }
    EveryRunHas(maxSessions, run, s => StartsFresh(s));
  }

  // ---- events are taken in the order they were sent ----

  function SentBy(l: Label): seq<Event> {
    if l.Send? then [l.event] else []
  }

  function Sent(run: seq<Label>): seq<Event> {
    if run == [] then [] else SentBy(run[0]) + Sent(run[1..])
  }

  /** What the loop holds after it has received. */
  function ReceivedBy(s: State, l: Label): seq<Event>
    requires Enabled(s, l)
  {
    if l.Receive? && Next(s, l).loop.Handling? then [Next(s, l).loop.event] else []
  }

  ghost function Received(s: State, run: seq<Label>): seq<Event>
    requires CanRun(s, run)
    decreases run
  {
    if run == [] then [] else ReceivedBy(s, run[0]) + Received(Next(s, run[0]), run[1..])
  }

  lemma {:induction false} ReceivedFrom(s: State, run: seq<Label>, got: seq<Event>, sent: seq<Event>)
    requires CanRun(s, run) && got + s.channel == sent
    ensures (got + Received(s, run)) + After(s, run).channel == sent + Sent(run)
    decreases run
  {
    if run == [] {
      assert got + [] == got && sent + [] == sent;
    } else {
      var n, got', sent' := Next(s, run[0]), ReceivedBy(s, run[0]), SentBy(run[0]);
      ChannelStep(s, run[0], got, sent);
      ReceivedFrom(n, run[1..], got + got', sent + sent');
      Associative(got, got', Received(n, run[1..]));
      Associative(sent, sent', Sent(run[1..]));
    }
  }

  lemma ChannelStep(s: State, l: Label, got: seq<Event>, sent: seq<Event>)
    requires Enabled(s, l) && got + s.channel == sent
    ensures (got + ReceivedBy(s, l)) + Next(s, l).channel == sent + SentBy(l)
  {
    if l.Receive? {
      assert s.channel == [s.channel[0]] + s.channel[1..];
      Associative(got, [s.channel[0]], s.channel[1..]);
    } else if l.Send? {
      Associative(got, s.channel, [l.event]);
      assert got + [] == got;
    } else {
      SameChannel(s, l);
      assert got + [] == got && sent + [] == sent;
    }
  }

  lemma SameChannel(s: State, l: Label)
    requires Enabled(s, l) && !l.Receive? && !l.Send?
    ensures Next(s, l).channel == s.channel
  {
  }

  /** In every run the events received, then those in the channel, are the events sent, in their order. */
  lemma EventsInOrder(maxSessions: int, run: seq<Label>)
    requires CanRun(Start(maxSessions), run)
    ensures Received(Start(maxSessions), run) + After(Start(maxSessions), run).channel == Sent(run)
  {
    ReceivedFrom(Start(maxSessions), run, [], []);
    assert [] + Received(Start(maxSessions), run) == Received(Start(maxSessions), run);
    assert [] + Sent(run) == Sent(run);
  }

  // ---- each rule is needed ----

  lemma OneMore(s: State, l: Label, rest: seq<Label>, rules: Rules)
    requires Enabled(s, l) && Allowed(rules, s, l) && CanRun(Next(s, l), rest) && Obeys(Next(s, l), rest, rules)
    ensures CanRun(s, [l] + rest) && Obeys(s, [l] + rest, rules) && After(s, [l] + rest) == After(Next(s, l), rest)
  {
    assert ([l] + rest)[1..] == rest;
  }

  /** The first state with a session: its Created event is being sent. */
  function JustCreated(id: SessionID): State {
    Start(1).(sessions := map[id := 0], nextQueue := 1, sending := multiset{Created(id)})
  }

  lemma FirstCreate(id: SessionID, rules: Rules)
    ensures Next(Start(1), Create(id)) == JustCreated(id) && Allowed(rules, Start(1), Create(id))
  {
  }

  /** In the map, with nothing about that would start a streamer for it, and none there. */
  ghost predicate Stranded(s: State, id: SessionID) {
    id in s.sessions && Pending(s)[Created(id)] == 0 && NoStreamer(s, id) && id !in s.cancels
  }

  ghost predicate StrandedForGood(s: State, id: SessionID) {
    forall run | CanRun(s, run) && NoDelete(run, id) :: Stranded(After(s, run), id)
  }

  ghost predicate NoDelete(run: seq<Label>, id: SessionID)
    decreases run
  {
    run != [] ==> run[0] != Delete(id) && NoDelete(run[1..], id)
  }

  lemma StrandedByStart(s: State, id: SessionID, other: SessionID)
    requires id in s.sessions && NoStreamer(s, id) && id !in s.cancels && other != id
    ensures var n := StartStream(s, other);
            id in n.sessions && NoStreamer(n, id) && id !in n.cancels && n.sending == s.sending && n.channel == s.channel
  {
  }

  lemma StrandedByHandle(s: State, id: SessionID)
    requires Stranded(s, id) && s.loop.Handling?
    ensures Stranded(Next(s, Handle), id)
  {
    assert Pending(s)[s.loop.event] > 0;
    if s.loop.event.Created? {
      StrandedByStart(s, id, s.loop.event.id);
    }
  }

  lemma StrandedStays(s: State, l: Label, id: SessionID)
    requires Stranded(s, id) && Enabled(s, l) && l != Delete(id)
    ensures Stranded(Next(s, l), id)
  {
    match l
    case Create(_) =>
    case Delete(_) =>
    case Send(e) => PendingSend(s, e);
    case Abandon(_) =>
    case Receive => PendingReceive(s);
    case Handle => StrandedByHandle(s, id);
    case Leave(_) =>
    case EndSession(_) =>
  }

  lemma {:induction false} StrandedRun(s: State, run: seq<Label>, id: SessionID)
    requires Stranded(s, id) && CanRun(s, run) && NoDelete(run, id)
    ensures Stranded(After(s, run), id)
    decreases run
  {
    if run != [] {
      StrandedStays(s, run[0], id);
      StrandedRun(Next(s, run[0]), run[1..], id);
    }
  }

  lemma StrandedLasts(s: State, id: SessionID)
    requires Stranded(s, id)
    ensures StrandedForGood(s, id)
  {
    forall run | CanRun(s, run) && NoDelete(run, id) ensures Stranded(After(s, run), id) {
      StrandedRun(s, run, id);
    }
  }

  /** A Created event given up leaves a session nobody will ever stream, whatever happens short of deleting it. */
  lemma AbandonedSendStrands(id: SessionID)
    ensures exists run ::
      && CanRun(Start(1), run) && Obeys(Start(1), run, Rules(false, true, true))
      && StrandedForGood(After(Start(1), run), id)
  {
    var rules := Rules(false, true, true);
    var s1, s2 := JustCreated(id), Start(1).(sessions := map[id := 0], nextQueue := 1);
    FirstCreate(id, rules);
    assert Next(s1, Abandon(Created(id))) == s2;
    StrandedLasts(s2, id);
    OneMore(s1, Abandon(Created(id)), [], rules);
    OneMore(Start(1), Create(id), [Abandon(Created(id))] + [], rules);
  }

  /** A client's Deleted event given up leaves a streamer running, uncancelled, for a session that is gone. */
  lemma AbandonedDeleteOrphans(id: SessionID)
    ensures exists run ::
      && CanRun(Start(1), run) && Obeys(Start(1), run, Rules(false, true, true))
      && !OrphansEnd(After(Start(1), run), Pending(After(Start(1), run)))
  {
    var rules := Rules(false, true, true);
    var s := Streaming(id);
    var gone := s.(sessions := map[], sending := multiset{Deleted(id)});
    assert Next(s, Delete(id)) == gone;
    var end := gone.(sending := multiset{});
    assert Next(gone, Abandon(Deleted(id))) == end;
    assert 0 in end.streamers && Pending(end)[Deleted(id)] == 0;
    OneMore(gone, Abandon(Deleted(id)), [], rules);
    OneMore(s, Delete(id), [Abandon(Deleted(id))] + [], rules);
    var run := FirstStream(id, [Delete(id)] + ([Abandon(Deleted(id))] + []), rules);
  }

  /** A loop that has returned takes no event and starts no streamer any more. */
  ghost predicate StoppedForGood(s: State) {
    forall run | CanRun(s, run) ::
      After(s, run).loop.Stopped? && After(s, run).streamers.Keys <= s.streamers.Keys && After(s, run).served == s.served
  }

  lemma {:induction false} StoppedRun(s: State, run: seq<Label>)
    requires s.loop.Stopped? && CanRun(s, run)
    ensures After(s, run).loop.Stopped? && After(s, run).streamers.Keys <= s.streamers.Keys && After(s, run).served == s.served
    decreases run
  {
    if run != [] {
      StoppedStep(s, run[0]);
      StoppedRun(Next(s, run[0]), run[1..]);
    }
  }

  lemma StoppedStep(s: State, l: Label)
    requires s.loop.Stopped? && Enabled(s, l)
    ensures Next(s, l).loop.Stopped? && Next(s, l).streamers.Keys <= s.streamers.Keys && Next(s, l).served == s.served
  {
  }

  lemma StoppedLasts(s: State)
    requires s.loop.Stopped?
    ensures StoppedForGood(s)
  {
    forall run | CanRun(s, run)
      ensures After(s, run).loop.Stopped? && After(s, run).streamers.Keys <= s.streamers.Keys && After(s, run).served == s.served
    {
      StoppedRun(s, run);
    }
  }

  /** Deleting a session before the loop has taken up its Created event stops the loop for every session, for good. */
  lemma EarlyDeleteStopsLoop(id: SessionID)
    ensures exists run ::
      && CanRun(Start(1), run) && Obeys(Start(1), run, Rules(true, false, true))
      && After(Start(1), run).loop.Stopped? && StoppedForGood(After(Start(1), run))
  {
    var rules := Rules(true, false, true);
    FirstCreate(id, rules);
    var tail := DeletedTooSoon(id, rules);
    OneMore(Start(1), Create(id), tail, rules);
    StoppedLasts(After(Start(1), [Create(id)] + tail));
  }

  lemma DeletedTooSoon(id: SessionID, rules: Rules) returns (run: seq<Label>)
    requires !rules.deletes
    ensures CanRun(JustCreated(id), run) && Obeys(JustCreated(id), run, rules)
    ensures After(JustCreated(id), run).loop.Stopped?
  {
    var gone := Start(1).(nextQueue := 1, sending := multiset{Created(id), Deleted(id)});
    run := UnknownCreated(id, gone, rules);
    assert Next(JustCreated(id), Delete(id)) == gone;
    OneMore(JustCreated(id), Delete(id), run, rules);
    run := [Delete(id)] + run;
  }

  /** A Created event for an id that is not in the map reaches the loop and ends it. */
  lemma UnknownCreated(id: SessionID, s: State, rules: Rules) returns (run: seq<Label>)
    requires Created(id) in s.sending && s.channel == [] && s.loop.Receiving? && id !in s.sessions
    ensures CanRun(s, run) && Obeys(s, run, rules) && After(s, run).loop.Stopped?
  {
    var sent := s.(sending := s.sending - multiset{Created(id)}, channel := [Created(id)]);
    var taken := sent.(channel := [], loop := Handling(Created(id)));
    assert Next(s, Send(Created(id))) == sent;
    assert Next(sent, Receive) == taken;
    OneMore(taken, Handle, [], rules);
    OneMore(sent, Receive, [Handle] + [], rules);
    OneMore(s, Send(Created(id)), [Receive] + ([Handle] + []), rules);
    run := [Send(Created(id))] + ([Receive] + ([Handle] + []));
  }

  /** Creating an id again while its old streamer runs lets that streamer delete the new session, whose
      Created event is still to come. */
  lemma EarlyRecreateLosesSession(id: SessionID)
    ensures exists run ::
      && CanRun(Start(1), run) && Obeys(Start(1), run, Rules(true, true, false))
      && id !in After(Start(1), run).sessions && Pending(After(Start(1), run))[Created(id)] == 1
  {
    var rules := Rules(true, true, false);
    var tail := RecreateTail(id, Streaming(id), rules);
    var run := FirstStream(id, tail, rules);
  }

  /** One session, its streamer running, everything handled. */
  function Streaming(id: SessionID): State {
    Start(1).(sessions := map[id := 0], nextQueue := 1, cancels := map[id := 0], nextStreamer := 1,
              streamers := map[0 := Streamer(id, 0, false, Running)], served := {0})
  }

  lemma FirstStream(id: SessionID, tail: seq<Label>, rules: Rules) returns (run: seq<Label>)
    requires CanRun(Streaming(id), tail) && Obeys(Streaming(id), tail, rules)
    ensures CanRun(Start(1), run) && Obeys(Start(1), run, rules) && After(Start(1), run) == After(Streaming(id), tail)
  {
    var s1 := JustCreated(id);
    FirstCreate(id, rules);
    var s2 := s1.(sending := multiset{}, channel := [Created(id)]);
    var s3 := s2.(channel := [], loop := Handling(Created(id)));
    assert Next(s1, Send(Created(id))) == s2;
    assert Next(s2, Receive) == s3;
    assert Next(s3, Handle) == Streaming(id);
    OneMore(s3, Handle, tail, rules);
    OneMore(s2, Receive, [Handle] + tail, rules);
    OneMore(s1, Send(Created(id)), [Receive] + ([Handle] + tail), rules);
    OneMore(Start(1), Create(id), [Send(Created(id))] + ([Receive] + ([Handle] + tail)), rules);
    run := [Create(id)] + ([Send(Created(id))] + ([Receive] + ([Handle] + tail)));
  }

  lemma RecreateTail(id: SessionID, s: State, rules: Rules) returns (run: seq<Label>)
    requires s == Streaming(id)
    requires !rules.ids
    ensures CanRun(s, run) && Obeys(s, run, rules)
    ensures id !in After(s, run).sessions && Pending(After(s, run))[Created(id)] == 1
  {
    var t1 := s.(sessions := map[], sending := multiset{Deleted(id)});
    var t2 := t1.(sessions := map[id := 1], nextQueue := 2, sending := multiset{Deleted(id), Created(id)});
    assert Next(s, Delete(id)) == t1;
    assert Next(t1, Create(id)) == t2;
    var tail := OldStreamerEnds(id, t2, rules);
    OneMore(t1, Create(id), tail, rules);
    OneMore(s, Delete(id), [Create(id)] + tail, rules);
    run := [Delete(id)] + ([Create(id)] + tail);
  }

  lemma EndDeletes(s: State, k: nat)
    requires Enabled(s, EndSession(k))
    ensures var n := Next(s, EndSession(k)); var id := s.streamers[k].id;
            id !in n.sessions && Pending(n) == Pending(s) + multiset{Deleted(id)}
  {
  }

  lemma LeaveOnly(s: State, k: nat)
    requires Enabled(s, Leave(k))
    ensures Enabled(Next(s, Leave(k)), EndSession(k)) && Next(s, Leave(k)).streamers[k].id == s.streamers[k].id
    ensures Pending(Next(s, Leave(k))) == Pending(s)
  {
  }

  /** endSession deletes whatever now goes by its streamer's id. */
  lemma OldStreamerEnds(id: SessionID, s: State, rules: Rules) returns (run: seq<Label>)
    requires s.streamers == map[0 := Streamer(id, 0, false, Running)] && Pending(s)[Created(id)] == 1
    ensures CanRun(s, run) && Obeys(s, run, rules)
    ensures id !in After(s, run).sessions && Pending(After(s, run))[Created(id)] == 1
  {
    LeaveOnly(s, 0);
    EndDeletes(Next(s, Leave(0)), 0);
    run := LeaveAndEnd(s, 0, rules);
  }

  lemma LeaveAndEnd(s: State, k: nat, rules: Rules) returns (run: seq<Label>)
    requires Enabled(s, Leave(k))
    ensures CanRun(s, run) && Obeys(s, run, rules) && After(s, run) == Next(Next(s, Leave(k)), EndSession(k))
  {
    OneMore(Next(s, Leave(k)), EndSession(k), [], rules);
    OneMore(s, Leave(k), [EndSession(k)] + [], rules);
    run := [Leave(k)] + ([EndSession(k)] + []);
  }
}
