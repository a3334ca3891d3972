/** What holds of every run of a session's player and its clients. */
module PlaybackLaws {
  import opened Collections
  import opened Tracks
  import opened QueueLog
  import opened Playback

  lemma EveryRun(archived: bool, run: seq<Label>)
    requires CanRun(Start(archived), run)
    ensures Keeps(archived, After(Start(archived), run))
  {
    StartHolds(archived);
    RunKeeps(Start(archived), run);
  }

  /** What follows from the invariant holds after every run. */
  lemma EveryRunHas(archived: bool, run: seq<Label>, holds: State -> bool)
    requires CanRun(Start(archived), run)
    requires forall s | Keeps(archived, s) :: holds(s)
    ensures holds(After(Start(archived), run))
  {
    EveryRun(archived, run);
  }

  lemma StartHolds(archived: bool)
    ensures Keeps(archived, Start(archived))
  {
    NoRowsYet(Start(archived));
  }

  lemma NoRowsYet(s: State)
    requires s.history == History([], [], [], [], false)
    ensures RowsAccounted(s)
  {
    var none: seq<int> := [];
    assert Ids(s.history.recorded) + none == none;
  }

  // ---- head stability ----

  /** A dequeue always finds the very track that was peeked; it never reports an empty queue. */
  ghost predicate DequeueTakesPeeked(s: State) {
    s.phase.Dequeuing? ==>
      && Next(s, Dequeue).phase == Peeking
      && Next(s, Dequeue).history.played == s.history.played + [s.phase.track]
      && Next(s, Dequeue).tracks == s.tracks[1..]
  }

  lemma HeadIsStable(archived: bool, run: seq<Label>)
    requires CanRun(Start(archived), run)
    ensures HeadStable(After(Start(archived), run)) && DequeueTakesPeeked(After(Start(archived), run))
  {
    EveryRunHas(archived, run, s => HeadStable(s));
  }

  // ---- how a track ends ----

  /** What the steps so far say of watch windows: whether the watcher of the latest one took a skip, how its ffmpeg
      ended, and how many were decided as over by a skip or by a track that finished. */
  datatype Watched = Watched(took: bool, outcome: Outcome, over: nat)

  function Note(w: Watched, l: Label): Watched {
    match l
    case Open => w.(took := false)
    case WatchTake => w.(took := true)
    case FfmpegEnd(outcome) => w.(outcome := outcome)
    case Decide => if w.took || w.outcome.Finished? then w.(over := w.over + 1) else w
    case _ => w
  }

  /** Read off the labels alone. */
  function Noted(w: Watched, run: seq<Label>): Watched
    decreases run
  {
    if run == [] then w else Noted(Note(w, run[0]), run[1..])
  }

  const NOTHING_YET := Watched(false, Finished, 0)

  /** The latest window as the player has it, and a track taken for every window that is over. */
  ghost predicate TakenWhenOver(s: State, w: Watched) {
    && |s.history.played| + (if s.phase.Dequeuing? then 1 else 0) == w.over
    && match s.phase
       case Playing(_, watch) => w.took <==> watch.TookSkip?
       case Stopping(_, watch, outcome) => (w.took <==> watch.TookSkip?) && w.outcome == outcome
       case Draining(_, skipped, outcome) => w.took == skipped && w.outcome == outcome
       case Deciding(_, skipped, outcome) => w.took == skipped && w.outcome == outcome
       case _ => true
  }

  lemma TakenByPlayer(s: State, w: Watched, l: Label)
    requires TakenWhenOver(s, w) && HeadStable(s) && ByPlayer(l) && Enabled(s, l)
    ensures TakenWhenOver(PlayerNext(s, l), Note(w, l))
  {
  }

  lemma TakenByClient(s: State, w: Watched, l: Label)
    requires TakenWhenOver(s, w) && !ByPlayer(l) && Enabled(s, l)
    ensures TakenWhenOver(ClientNext(s, l), Note(w, l))
  {
  }

  lemma {:induction false} TakenRun(s: State, w: Watched, run: seq<Label>)
    requires TakenWhenOver(s, w) && HeadStable(s) && |s.tracks| <= MAX_QUEUE_SIZE && CanRun(s, run)
    ensures TakenWhenOver(After(s, run), Noted(w, run))
    decreases run
  {
    if run != [] {
      var l := run[0];
      if ByPlayer(l) {
        HeadByPlayer(s, l);
        TakenByPlayer(s, w, l);
      } else {
        HeadByClient(s, l);
        TakenByClient(s, w, l);
      }
      TakenRun(Next(s, l), Note(w, l), run[1..]);
    }
  }

  /** In every run, the tracks dequeued and the one being dequeued number the watch windows that ended with the
      track finished or with a skip. */
  lemma FinishedLeave(archived: bool, run: seq<Label>)
    requires CanRun(Start(archived), run)
    ensures var s := After(Start(archived), run);
            |s.history.played| + (if s.phase.Dequeuing? then 1 else 0) == Noted(NOTHING_YET, run).over
  {
    TakenRun(Start(archived), NOTHING_YET, run);
  }

  /** The steps that make the player return: no connection, the timer, the context, and a track that failed to
      decode without being skipped. */
  ghost predicate Returns(w: Watched, l: Label) {
    l.ConnectFails? || l.TimeOut? || l.SeeDone? || (l.Decide? && !w.took && w.outcome.DecodeError?)
  }

  ghost predicate ReturnsOnly(s: State, w: Watched) {
    forall l | Enabled(s, l) && !s.phase.Ended? :: Next(s, l).phase.Ended? <==> Returns(w, l)
  }

  lemma PlayerReturnsOnly(s: State, w: Watched, l: Label)
    requires TakenWhenOver(s, w) && HeadStable(s) && ByPlayer(l) && Enabled(s, l)
    ensures PlayerNext(s, l).phase.Ended? <==> Returns(w, l)
  {
  }

  lemma ClientReturnsNone(s: State, w: Watched, l: Label)
    requires !ByPlayer(l) && Enabled(s, l)
    ensures ClientNext(s, l).phase == s.phase && !Returns(w, l)
  {
  }

  lemma StateReturnsOnly(s: State, w: Watched)
    requires TakenWhenOver(s, w) && HeadStable(s)
    ensures ReturnsOnly(s, w)
  {
    forall l | Enabled(s, l) && !s.phase.Ended? ensures Next(s, l).phase.Ended? <==> Returns(w, l) {
      if ByPlayer(l) { PlayerReturnsOnly(s, w, l); } else { ClientReturnsNone(s, w, l); }
    }
  }

  /** In every run the player returns by exactly those steps; so after a track that finished, or was skipped, or was
      cut off by its context, it goes on. */
  lemma ReturnsIff(archived: bool, run: seq<Label>)
    requires CanRun(Start(archived), run)
    ensures ReturnsOnly(After(Start(archived), run), Noted(NOTHING_YET, run))
  {
    TakenRun(Start(archived), NOTHING_YET, run);
    HeadIsStable(archived, run);
    StateReturnsOnly(After(Start(archived), run), Noted(NOTHING_YET, run));
  }

  /** What a step is to the queue; the handler passes no removal of index 0 on. */
  function QueueOf(l: Label): seq<QueueOp> {
    match l
    case ClientAppend(t) => [Push(t)]
    case ClientRemove(i) => if i == 0 then [] else [Drop(i)]
    case Dequeue => [Pop]
    case _ => []
  }

  function QueueOps(run: seq<Label>): seq<QueueOp> {
    if run == [] then [] else QueueOf(run[0]) + QueueOps(run[1..])
  }

  lemma QueueOpsFirst(q: seq<Track>, ops: seq<QueueOp>, rest: seq<QueueOp>)
    requires |ops| <= 1
    ensures var n := if ops == [] then q else Step(q, ops[0]); var out := if ops == [] then [] else Output(q, ops[0]);
            QueueLog.Run(q, ops + rest) == QueueLog.Run(n, rest) && Outputs(q, ops + rest) == out + Outputs(n, rest)
  {
    if ops == [] {
      assert ops + rest == rest;
    } else {
      assert (ops + rest)[1..] == rest;
    }
  }

  lemma StepQueue(s: State, l: Label)
    requires Enabled(s, l)
    ensures var ops := QueueOf(l);
            && |ops| <= 1
            && Next(s, l).tracks == (if ops == [] then s.tracks else Step(s.tracks, ops[0]))
            && Next(s, l).history.played == s.history.played + (if ops == [] then [] else Output(s.tracks, ops[0]))
  {
  }

  lemma {:induction false} QueueFrom(s: State, run: seq<Label>)
    requires CanRun(s, run)
    ensures After(s, run).tracks == QueueLog.Run(s.tracks, QueueOps(run))
    ensures After(s, run).history.played == s.history.played + Outputs(s.tracks, QueueOps(run))
    decreases run
  {
    if run != [] {
      var n, ops, rest := Next(s, run[0]), QueueOf(run[0]), QueueOps(run[1..]);
      StepQueue(s, run[0]);
      QueueFrom(n, run[1..]);
      QueueOpsFirst(s.tracks, ops, rest);
      Associative(s.history.played, if ops == [] then [] else Output(s.tracks, ops[0]), Outputs(n.tracks, rest));
    }
  }

  /** In every run the queue is what the clients' appends and removals and the player's dequeues make of it, and the
      tracks played are what the dequeues take. */
  lemma QueueFollowsSteps(archived: bool, run: seq<Label>)
    requires CanRun(Start(archived), run)
    ensures After(Start(archived), run).tracks == QueueLog.Run([], QueueOps(run))
    ensures After(Start(archived), run).history.played == Outputs([], QueueOps(run))
  {
    QueueFrom(Start(archived), run);
    assert [] + Outputs([], QueueOps(run)) == Outputs([], QueueOps(run));
  }

  /** A look at the queue holds its head, or goes to silence when there is none; every window opened over the head is
      watched; and a skip asked for while something is queued waits. */
  ghost predicate HeadIsPlayed(s: State) {
    && (s.phase.Peeking? ==> Next(s, Peek).phase == if s.tracks == [] then Silent else Recording(s.tracks[0]))
    && (s.phase.Recording? ==> Next(s, Record).phase == Opening(s.phase.track))
    && (s.phase.Opening? ==> Next(s, Open).phase == Playing(s.phase.track, Waiting) && Next(s, Open).skip == s.skip)
    && (Next(s, ClientSkip).skip <==> s.skip || s.tracks != [])
  }

  /** With a skip waiting, a watched track can be ended by it: the player takes the token, and the head leaves. */
  ghost predicate SkipWorks(s: State) {
    s.phase.Playing? && s.phase.watch.Waiting? && s.skip ==> exists run :: SkipsHead(s, run)
  }

  ghost predicate SkipsHead(s: State, run: seq<Label>) {
    && CanRun(s, run) && (forall l | l in run :: ByPlayer(l))
    && !After(s, run).skip && After(s, run).phase == Peeking
    && s.tracks != [] && After(s, run).tracks == s.tracks[1..]
    && After(s, run).history.played == s.history.played + [s.tracks[0]]
  }

  lemma SkipTakesHead(s: State)
    requires HeadStable(s) && |s.tracks| <= MAX_QUEUE_SIZE
    ensures SkipWorks(s)
  {
    if s.phase.Playing? && s.phase.watch.Waiting? && s.skip {
      var run := SkippedEnd(s);
      assert SkipsHead(s, run);
    }
  }

  lemma HeadIsHeld(s: State)
    ensures HeadIsPlayed(s)
  {
  }

  /** In every run: what the player looks at it plays under a watcher, and a skip waiting there can end it. */
  lemma SkipEndsTrack(archived: bool, run: seq<Label>)
    requires CanRun(Start(archived), run)
    ensures HeadIsPlayed(After(Start(archived), run)) && SkipWorks(After(Start(archived), run))
  {
    HeadIsHeld(After(Start(archived), run));
    forall s | Keeps(archived, s) ensures SkipWorks(s) { SkipTakesHead(s); }
    EveryRunHas(archived, run, s => SkipWorks(s));
  }

  // ---- no lost wakeup ----

  /** A live player that went silent while tracks are queued gets to play: the token is there, or one
      client's send brings it, and then its next two steps start the head. A token left over from a track
      already gone costs a silent player one look at an empty queue and nothing else. */
  lemma SilenceEnds(archived: bool, run: seq<Label>)
    requires CanRun(Start(archived), run)
    ensures WakeupPending(After(Start(archived), run))
    ensures Starved(After(Start(archived), run)) ==> CanWake(After(Start(archived), run))
    ensures StaleTokenHarmless(After(Start(archived), run))
  {
    EveryRunHas(archived, run, s => WakeupPending(s));
    if Starved(After(Start(archived), run)) { StarvedWakes(After(Start(archived), run)); }
    StaleTokenSpent(After(Start(archived), run));
  }

  ghost predicate CanWake(s: State) {
    exists wake :: Wakes(s, wake)
  }

  ghost predicate Starved(s: State) {
    s.phase.Silent? && !s.cancelled && s.tracks != []
  }

  ghost predicate Wakes(s: State, wake: seq<Label>) {
    && (wake == [TakeNotify, Peek] || wake == [ClientSend] + [TakeNotify, Peek])
    && CanRun(s, wake) && s.tracks != [] && After(s, wake).phase == Recording(s.tracks[0])
  }

  lemma StarvedWakes(s: State)
    requires Starved(s) && WakeupPending(s)
    ensures CanWake(s)
  {
    var told := s.(notify := true, sending := if s.notify then s.sending else s.sending - 1);
    TwoSteps(told, TakeNotify, Peek);
    if s.notify {
      assert Wakes(s, [TakeNotify, Peek]);
    } else {
      OneMore(s, ClientSend, [TakeNotify, Peek]);
      assert Wakes(s, [ClientSend] + [TakeNotify, Peek]);
    }
  }

  lemma OneMore(s: State, l: Label, rest: seq<Label>)
    requires Enabled(s, l) && CanRun(Next(s, l), rest)
    ensures CanRun(s, [l] + rest) && After(s, [l] + rest) == After(Next(s, l), rest)
  {
    assert ([l] + rest)[1..] == rest;
  }

  lemma TwoSteps(s: State, a: Label, b: Label)
    requires Enabled(s, a) && Enabled(Next(s, a), b)
    ensures CanRun(s, [a, b]) && After(s, [a, b]) == Next(Next(s, a), b)
  {
    OneMore(Next(s, a), b, []);
    OneMore(s, a, [b]);
    assert [b] + [] == [b] && [a] + [b] == [a, b];
  }

  ghost predicate StaleTokenHarmless(s: State) {
    s.phase.Silent? && s.notify && s.tracks == [] ==>
      CanRun(s, [TakeNotify, Peek]) && After(s, [TakeNotify, Peek]) == s.(notify := false)
  }

  lemma StaleTokenSpent(s: State)
    ensures StaleTokenHarmless(s)
  {
    if s.phase.Silent? && s.notify && s.tracks == [] { TwoSteps(s, TakeNotify, Peek); }
  }

  // ---- skip tokens ----

  /** In every run: skips accepted are tracks ended as skipped, tokens drained, the token waiting, and the
      one a watcher has taken for the track it is about to end. */
  lemma SkipTokensConserved(archived: bool, run: seq<Label>)
    requires CanRun(Start(archived), run)
    ensures TokensConserved(After(Start(archived), run))
  {
    EveryRunHas(archived, run, s => TokensConserved(s));
  }

  function SkipsIn(run: seq<Label>): nat {
    if run == [] then 0 else (if run[0].ClientSkip? then 1 else 0) + SkipsIn(run[1..])
  }

  /** A stretch of steps inside one watch window: it does not open another. */
  ghost predicate WithinWindow(run: seq<Label>) {
    forall l | l in run :: !l.Open?
  }

  lemma {:induction false} WindowGrowth(s: State, run: seq<Label>)
    requires CanRun(s, run) && WithinWindow(run)
    ensures s.tally.window <= After(s, run).tally.window <= s.tally.window + SkipsIn(run)
    decreases run
  {
    if run != [] {
      WindowStep(s, run[0]);
      WindowGrowth(Next(s, run[0]), run[1..]);
    }
  }

  lemma WindowStep(s: State, l: Label)
    requires Enabled(s, l) && !l.Open?
    ensures s.tally.window <= Next(s, l).tally.window <= s.tally.window + if l.ClientSkip? then 1 else 0
  {
  }

  /** When stop has drained, a token is left for the next track exactly when two or more were there since
      the window opened: the watcher, or else the drain, takes one. */
  lemma DrainLeavesIff(s: State)
    requires WindowAccounted(s) && s.phase.Draining?
    ensures Next(s, Drain).skip <==> s.tally.window >= 2
  {
  }

  /** One skip while a track is watched affects no later track: if the channel was empty when the watch
      opened and at most one skip came before its stop drained, it is empty again. */
  lemma OneSkipOneTrack(s: State, window: seq<Label>)
    requires WindowAccounted(s) && s.phase.Opening? && !s.skip
    requires CanRun(Next(s, Open), window) && WithinWindow(window) && SkipsIn(window) <= 1
    ensures var end := After(Next(s, Open), window);
            end.phase.Draining? ==> !Next(end, Drain).skip
  {
    var begun := Next(s, Open);
    WindowByPlayer(s, Open);
    WindowRun(begun, window);
    WindowGrowth(begun, window);
    assert begun.tally.window == 0;
    var end := After(begun, window);
    if end.phase.Draining? { DrainLeavesIff(end); }
  }

  lemma WindowRun(s: State, run: seq<Label>)
    requires WindowAccounted(s) && CanRun(s, run)
    ensures WindowAccounted(After(s, run))
  {
    forall t, l | WindowAccounted(t) && Enabled(t, l) ensures WindowAccounted(Next(t, l)) {
      if ByPlayer(l) { WindowByPlayer(t, l); } else { WindowByClient(t, l); }
    }
    Induction(s, run, t => WindowAccounted(t));
  }

  // ---- the archive ----

  /** The rows are the tracks played, in order and each once, followed by at most the current head. */
  ghost predicate LogComplete(s: State) {
    || s.history.rows == Ids(s.history.played)
    || (s.tracks != [] && s.history.rows == Ids(s.history.played) + [s.tracks[0].id])
  }

  /** The rows stop `missing` tracks short of those played. */
  ghost predicate ShortBy(s: State, missing: nat) {
    && missing <= |s.history.played|
    && s.history.rows == Ids(s.history.played[..|s.history.played| - missing]) + CurrentRow(s)
    && (LogComplete(s) <==> missing == 0)
  }

  lemma ShortByLate(s: State)
    requires RowsAccounted(s) && s.archived
    ensures ShortBy(s, |s.history.late|)
  {
    var h := s.history;
    assert h.played[..|h.played| - |h.late|] == h.recorded;
    if h.late == [] {
      assert h.recorded == h.played;
      assert CurrentRow(s) == [] ==> Ids(h.recorded) + CurrentRow(s) == Ids(h.recorded);
    } else {
      assert |h.rows| < |Ids(h.played)|;
    }
  }

  /** While the context is live the log is complete. */
  lemma ArchiveIsHistory(run: seq<Label>)
    requires CanRun(Start(true), run) && !After(Start(true), run).cancelled
    ensures LogComplete(After(Start(true), run))
  {
    EveryRun(true, run);
    ShortByLate(After(Start(true), run));
  }

  /** A session that is not archived leaves no row. */
  lemma NoArchiveNoRows(run: seq<Label>)
    requires CanRun(Start(false), run)
    ensures After(Start(false), run).history.rows == []
  {
    forall s, l | NotArchived(s) && Enabled(s, l) ensures NotArchived(Next(s, l)) { }
    Induction(Start(false), run, s => NotArchived(s));
  }

  ghost predicate NotArchived(s: State) {
    !s.archived && s.history.rows == []
  }

  function Dequeues(run: seq<Label>): nat {
    if run == [] then 0 else (if run[0].Dequeue? then 1 else 0) + Dequeues(run[1..])
  }

  /** How many of `n` tracks taken after the cancellation have no row: all but the one that had its row then. */
  function Missing(hadRow: bool, n: nat): nat {
    if hadRow && n > 0 then n - 1 else n
  }

  /** What a step after the cancellation does to the tracks without a row: only taking the head adds one, if
      that has no row. */
  ghost predicate AddsNoRow(h: History, n: History, taken: nat) {
    && n.rows == h.rows
    && |n.late| == |h.late| + Missing(h.headRecorded, taken)
    && |n.played| == |h.played| + taken
    && n.headRecorded == (h.headRecorded && taken == 0)
  }

  lemma CancelledPlayerStep(s: State, l: Label)
    requires s.cancelled && ByPlayer(l) && !l.Dequeue? && Enabled(s, l)
    ensures PlayerNext(s, l).cancelled && PlayerNext(s, l).history == s.history
  {
  }

  lemma CancelledClientStep(s: State, l: Label)
    requires s.cancelled && !ByPlayer(l) && Enabled(s, l)
    ensures ClientNext(s, l).cancelled && ClientNext(s, l).history == s.history
  {
  }

  lemma CancelledStep(s: State, l: Label)
    requires s.cancelled && HeadStable(s) && Enabled(s, l)
    ensures Next(s, l).cancelled && AddsNoRow(s.history, Next(s, l).history, if l.Dequeue? then 1 else 0)
  {
    if !ByPlayer(l) {
      CancelledClientStep(s, l);
    } else if !l.Dequeue? {
      CancelledPlayerStep(s, l);
    }
  }

  /** From a cancelled state on, no row is added, and every track taken but one recorded before is without. */
  lemma {:induction false} CancelledAddsNoRow(s: State, run: seq<Label>)
    requires s.cancelled && HeadStable(s) && |s.tracks| <= MAX_QUEUE_SIZE && CanRun(s, run)
    ensures AddsNoRow(s.history, After(s, run).history, Dequeues(run))
    decreases run
  {
    if run != [] {
      var l := run[0];
      if ByPlayer(l) { HeadByPlayer(s, l); } else { HeadByClient(s, l); }
      CancelledStep(s, l);
      CancelledAddsNoRow(Next(s, l), run[1..]);
    }
  }

  lemma {:induction false} EndedTakesNone(s: State, run: seq<Label>)
    requires s.phase.Ended? && CanRun(s, run)
    ensures Dequeues(run) == 0
    decreases run
  {
    if run != [] {
      assert !ByPlayer(run[0]);
      EndedTakesNone(Next(s, run[0]), run[1..]);
    }
  }

  /** The player has recorded the track it holds. */
  predicate HadRow(p: Phase) {
    HoldsTrack(p) && !p.Recording?
  }

  ghost predicate CancelledAfter(s: State, after: seq<Label>) {
    !s.cancelled && CanRun(Next(s, CancelContext), after)
  }

  lemma LateAfterCancel(s: State, after: seq<Label>)
    requires Keeps(true, s) && CancelledAfter(s, after)
    ensures |After(Next(s, CancelContext), after).history.late| == Missing(HadRow(s.phase), Dequeues(after))
  {
    var c := Next(s, CancelContext);
    HeadByClient(s, CancelContext);
    CancelledAddsNoRow(c, after);
    if s.phase.Ended? { EndedTakesNone(c, after); }
  }

  lemma ShortAfterCancel(s: State, after: seq<Label>)
    requires Keeps(true, s) && CancelledAfter(s, after)
    ensures ShortBy(After(Next(s, CancelContext), after), Missing(HadRow(s.phase), Dequeues(after)))
  {
    StepKeepsBoth(true, s, CancelContext);
    RunKeeps(Next(s, CancelContext), after);
    LateAfterCancel(s, after);
    ShortByLate(After(Next(s, CancelContext), after));
  }

  ghost predicate ToldAfterCancel(s: State, after: seq<Label>) {
    CancelledAfter(s, after) ==>
      var e := After(Next(s, CancelContext), after);
      && ShortBy(e, Missing(HadRow(s.phase), Dequeues(after)))
      && (LogComplete(e) <==> Dequeues(after) <= if HadRow(s.phase) then 1 else 0)
  }

  /** In every run that is cancelled, the rows are the tracks played without the last ones, then at most the
      head; the log is complete exactly when at most one track is taken after the cancellation if the player had
      recorded the track it held then, and none otherwise. */
  lemma ArchiveAfterCancel(before: seq<Label>, after: seq<Label>)
    requires CanRun(Start(true), before)
    ensures ToldAfterCancel(After(Start(true), before), after)
  {
    forall s | Keeps(true, s) ensures ToldAfterCancel(s, after) {
      if CancelledAfter(s, after) { ShortAfterCancel(s, after); }
    }
    EveryRunHas(true, before, s => ToldAfterCancel(s, after));
  }

  /** A cancelled player can play on: with a skip waiting, the watcher may prefer it to the context, and
      the track leaves the queue without ever getting a row. */
  lemma LateTrackHasNoRow(t: Track)
    ensures exists run :: CanRun(Start(true), run) && After(Start(true), run).history == History([], [t], [], [t], false)
  {
    var s := Start(true).(tracks := [t], sending := 1, cancelled := true, phase := Peeking);
    var tail := LateEnd(s.(skip := true, phase := Recording(t), tally := Tally(1, 0, 0, 1)));
    OneMore(s.(phase := Recording(t)), ClientSkip, tail);
    OneMore(s, Peek, [ClientSkip] + tail);
    LateStart(t, [Peek] + ([ClientSkip] + tail));
  }

  lemma LateStart(t: Track, tail: seq<Label>)
    requires CanRun(Start(true).(tracks := [t], sending := 1, cancelled := true, phase := Peeking), tail)
    ensures var run := [ClientAppend(t)] + ([ConnectOk] + ([CancelContext] + tail));
            && CanRun(Start(true), run)
            && After(Start(true), run)
               == After(Start(true).(tracks := [t], sending := 1, cancelled := true, phase := Peeking), tail)
  {
    var s := Start(true).(tracks := [t], sending := 1);
    OneMore(s.(phase := Peeking), CancelContext, tail);
    OneMore(s, ConnectOk, [CancelContext] + tail);
    assert Step([], Push(t)) == [t];
    OneMore(Start(true), ClientAppend(t), [ConnectOk] + ([CancelContext] + tail));
  }

  lemma LateEnd(s: State) returns (run: seq<Label>)
    requires s.phase.Recording? && s.cancelled && s.skip && s.tracks != [] && |s.tracks| <= MAX_QUEUE_SIZE
    requires !s.history.headRecorded
    ensures CanRun(s, run)
    ensures After(s, run).history == Finish(s.history, s.tracks[0])
  {
    var t := s.phase.track;
    var o := s.(phase := Opening(t));
    var w := s.(phase := Playing(t, Waiting), tally := s.tally.(window := 1));
    run := SkippedEnd(w);
    OneMore(o, Open, run);
    OneMore(s, Record, [Open] + run);
    run := [Record] + ([Open] + run);
  }

  /** A skip taken while the head is watched, up to the look at the next track. */
  function AfterSkip(s: State): State
    requires s.tracks != []
  {
    s.(skip := false, phase := Peeking, tracks := s.tracks[1..], history := Finish(s.history, s.tracks[0]),
       tally := s.tally.(skippedEnds := s.tally.skippedEnds + 1))
  }

  lemma SkippedEnd(s: State) returns (run: seq<Label>)
    requires s.phase.Playing? && s.phase.watch == Waiting && s.skip && s.tracks != [] && |s.tracks| <= MAX_QUEUE_SIZE
    ensures CanRun(s, run) && After(s, run) == AfterSkip(s) && forall l | l in run :: ByPlayer(l)
  {
    var t, w := s.phase.track, s.(skip := false);
    run := SkippedStop(w.(phase := Stopping(t, TookSkip, Cancelled)));
    OneMore(w.(phase := Playing(t, TookSkip)), FfmpegEnd(Cancelled), run);
    OneMore(s, WatchTake, [FfmpegEnd(Cancelled)] + run);
    run := [WatchTake] + ([FfmpegEnd(Cancelled)] + run);
  }

  lemma SkippedStop(s: State) returns (run: seq<Label>)
    requires s.phase.Stopping? && s.phase.watch == TookSkip && s.phase.outcome == Cancelled && !s.skip && s.tracks != []
    ensures CanRun(s, run) && After(s, run) == AfterSkip(s) && forall l | l in run :: ByPlayer(l)
  {
    var t := s.phase.track;
    TwoSteps(s.(phase := Deciding(t, true, Cancelled)), Decide, Dequeue);
    OneMore(s.(phase := Draining(t, true, Cancelled)), Drain, [Decide, Dequeue]);
    OneMore(s, Join, [Drain] + [Decide, Dequeue]);
    run := [Join] + ([Drain] + [Decide, Dequeue]);
  }

  // ---- termination ----

  function PhaseRank(p: Phase): nat {
    match p
    case Connecting => 11
    case Peeking => 10
    case Recording(_) => 9
    case Opening(_) => 8
    case Playing(_, w) => if w.Waiting? then 7 else 6
    case Stopping(_, w, _) => if w.Waiting? then 5 else 4
    case Draining(_, _, _) => 3
    case Deciding(_, _, _) => 2
    case Dequeuing(_) => 1
    case Silent => 1
    case Ended => 0
  }

  /** Each round of the player's loops uses up a queued track or a wakeup. */
  function Rank(s: State): nat {
    10 * (|s.tracks| + 2 * s.sending + TokenCount(s.notify)) + PhaseRank(s.phase)
  }

  lemma PlayerDescends(s: State, l: Label)
    requires ByPlayer(l) && Enabled(s, l)
    ensures Rank(PlayerNext(s, l)) < Rank(s)
  {
  }

  lemma ClientNeverLifts(s: State, l: Label)
    requires !ByPlayer(l) && !l.ClientAppend? && Enabled(s, l)
    ensures Rank(ClientNext(s, l)) <= Rank(s)
  {
  }

  function PlayerSteps(run: seq<Label>): nat {
    if run == [] then 0 else (if ByPlayer(run[0]) then 1 else 0) + PlayerSteps(run[1..])
  }

  ghost predicate NoAppend(run: seq<Label>) {
    forall l | l in run :: !l.ClientAppend?
  }

  lemma {:induction false} PlayerStepsBounded(s: State, run: seq<Label>)
    requires CanRun(s, run) && NoAppend(run)
    ensures PlayerSteps(run) + Rank(After(s, run)) <= Rank(s)
    decreases run
  {
    if run != [] {
      if ByPlayer(run[0]) { PlayerDescends(s, run[0]); } else { ClientNeverLifts(s, run[0]); }
      PlayerStepsBounded(Next(s, run[0]), run[1..]);
    }
  }

  lemma {:induction false} CancelledStays(s: State, run: seq<Label>)
    requires CanRun(s, run) && s.cancelled
    ensures After(s, run).cancelled
    decreases run
  {
    if run != [] {
      assert Next(s, run[0]).cancelled;
      CancelledStays(Next(s, run[0]), run[1..]);
    }
  }

  /** A cancelled player that has not returned can always take a step of its own, and need not wait for the timer
      or for ffmpeg to finish. */
  lemma CancelledNeverStuck(s: State)
    requires s.cancelled && !s.phase.Ended?
    ensures exists l :: Unprompted(l) && Enabled(s, l)
  {
    var l := match s.phase
      case Connecting => ConnectOk
      case Peeking => Peek
      case Recording(_) => Record
      case Opening(_) => Open
      case Playing(_, _) => FfmpegEnd(Cancelled)
      case Stopping(_, w, _) => if w.Waiting? then WatchQuit else Join
      case Draining(_, _, _) => Drain
      case Deciding(_, _, _) => Decide
      case Dequeuing(_) => Dequeue
      case _ => SeeDone;
    assert Unprompted(l) && Enabled(s, l);
  }

  predicate Unprompted(l: Label) {
    ByPlayer(l) && !l.TimeOut? && (l.FfmpegEnd? ==> l.outcome.Cancelled?)
  }

  /** After cancellation, with no more enqueues, every schedule makes the player return: it takes at most
      Rank steps whatever its selects prefer, and only a player that has returned has no step left, nor has to wait
      for the timer or for ffmpeg to finish. */
  lemma PlayerReturns(s: State, run: seq<Label>)
    requires CanRun(s, run) && NoAppend(run) && s.cancelled
    ensures PlayerSteps(run) <= Rank(s)
    ensures (forall l | ByPlayer(l) :: !Enabled(After(s, run), l)) <==> After(s, run).phase.Ended?
    ensures (forall l | Unprompted(l) :: !Enabled(After(s, run), l)) <==> After(s, run).phase.Ended?
  {
    PlayerStepsBounded(s, run);
    CancelledStays(s, run);
    if !After(s, run).phase.Ended? { CancelledNeverStuck(After(s, run)); }
  }
}
