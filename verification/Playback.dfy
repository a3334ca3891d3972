/** The player of one session (server/src/icecast/icecast.go) against the clients of its queue: a mutex
    section is one step, a one-slot channel is a flag, `select` is a choice among enabled steps, ffmpeg
    ends in any way its context allows. */
module Playback {
  import opened Tracks
  import opened QueueLog

  /** The goroutine of watchForSkip: waiting in its select, gone with a skip, gone without one. */
  datatype Watch = Waiting | TookSkip | Quit

  /** Result of streamTrackPCM: nil, the context's error, any other error. */
  datatype Outcome = Finished | Cancelled | DecodeError

  datatype Phase =
    | Connecting
    | Peeking
    | Recording(track: Track)
    | Opening(track: Track)
    | Playing(track: Track, watch: Watch)
    | Stopping(track: Track, watch: Watch, outcome: Outcome)
    | Draining(track: Track, skipped: bool, outcome: Outcome)
    | Deciding(track: Track, skipped: bool, outcome: Outcome)
    | Dequeuing(track: Track)
    | Silent
    | Ended

  datatype State = State(
    tracks: seq<Track>,
    notify: bool,
    skip: bool,
    cancelled: bool,
    archived: bool,
    phase: Phase,
    // clients between the locked part of Enqueue and its send
    sending: nat,
    history: History,
    tally: Tally)

  /** The archive table's rows for this session in insertion order, and what they are about: the tracks
      dequeued, of these the ones that got a row and the ones that did not, and whether the head has one. */
  datatype History = History(rows: seq<int>, played: seq<Track>, recorded: seq<Track>, late: seq<Track>,
                             headRecorded: bool)

  /** Skip tokens: put into the channel, spent on ending a track, drained by stop; and those that were in
      the channel since the current watch window opened. */
  datatype Tally = Tally(accepted: nat, skippedEnds: nat, drained: nat, window: nat)

  function Start(archived: bool): State {
    State([], false, false, false, archived, Connecting, 0, History([], [], [], [], false), Tally(0, 0, 0, 0))
  }

  datatype Label =
    | ConnectOk | ConnectFails
    | Peek | Record | Open | WatchTake | WatchQuit | FfmpegEnd(outcome: Outcome) | Join | Drain | Decide | Dequeue
    | SeeDone | TakeNotify | TimeOut
    | ClientAppend(track: Track) | ClientSend | ClientRemove(index: nat) | ClientSkip | CancelContext

  predicate ByPlayer(l: Label) {
    !(l.ClientAppend? || l.ClientSend? || l.ClientRemove? || l.ClientSkip? || l.CancelContext?)
  }

  /** Whether the context of the track being played is done: its parent is, or the watcher cancelled it. */
  predicate TrackContextDone(s: State, watch: Watch) {
    s.cancelled || watch == TookSkip
  }

  predicate Enabled(s: State, l: Label) {
    var p := s.phase;
    match l
    case ConnectOk => p.Connecting?
    case ConnectFails => p.Connecting?
    case Peek => p.Peeking?
    case Record => p.Recording?
    case Open => p.Opening?
    case WatchTake => s.skip && ((p.Playing? && p.watch.Waiting?) || (p.Stopping? && p.watch.Waiting?))
    case WatchQuit => (p.Playing? && p.watch.Waiting? && s.cancelled) || (p.Stopping? && p.watch.Waiting?)
    case FfmpegEnd(outcome) => p.Playing? && (outcome.Cancelled? ==> TrackContextDone(s, p.watch))
    case Join => p.Stopping? && !p.watch.Waiting?
    case Drain => p.Draining?
    case Decide => p.Deciding?
    case Dequeue => p.Dequeuing?
    case SeeDone => p.Silent? && s.cancelled
    case TakeNotify => p.Silent? && s.notify
    case TimeOut => p.Silent?
    case ClientAppend(_) => true
    case ClientSend => s.sending > 0
    case ClientRemove(_) => true
    case ClientSkip => true
    case CancelContext => true
  }

  /** The head leaves the queue. */
  function Finish(h: History, head: Track): History {
    if h.headRecorded
    then h.(played := h.played + [head], recorded := h.recorded + [head], headRecorded := false)
    else h.(played := h.played + [head], late := h.late + [head])
  }

  function Next(s: State, l: Label): State
    requires Enabled(s, l)
  {
    if ByPlayer(l) then PlayerNext(s, l) else ClientNext(s, l)
  }

  function PlayerNext(s: State, l: Label): State
    requires ByPlayer(l) && Enabled(s, l)
  {
    var p := s.phase;
    match l
    case ConnectOk => s.(phase := Peeking)
    case ConnectFails => s.(phase := Ended)
    case Peek => s.(phase := if s.tracks == [] then Silent else Recording(s.tracks[0]))
    case Record =>
      if s.archived && !s.cancelled
      then s.(phase := Opening(p.track), history := s.history.(rows := s.history.rows + [p.track.id], headRecorded := true))
      else s.(phase := Opening(p.track))
    case Open => s.(phase := Playing(p.track, Waiting), tally := s.tally.(window := if s.skip then 1 else 0))
    case WatchTake => s.(skip := false, phase := p.(watch := TookSkip))
    case WatchQuit => s.(phase := p.(watch := Quit))
    case FfmpegEnd(outcome) => s.(phase := Stopping(p.track, p.watch, outcome))
    case Join => s.(phase := Draining(p.track, p.watch == TookSkip, p.outcome))
    case Drain =>
      var next := Deciding(p.track, p.skipped, p.outcome);
      if !p.skipped && s.skip
      then s.(phase := next, skip := false, tally := s.tally.(drained := s.tally.drained + 1))
      else s.(phase := next)
    case Decide =>
      if p.skipped then s.(phase := Dequeuing(p.track), tally := s.tally.(skippedEnds := s.tally.skippedEnds + 1))
      else s.(phase := match p.outcome
                       case Finished => Dequeuing(p.track)
                       case Cancelled => Silent
                       case DecodeError => Ended)
    case Dequeue =>
      if s.tracks == [] then s.(phase := Ended)
      else s.(phase := Peeking, tracks := Step(s.tracks, Pop), history := Finish(s.history, s.tracks[0]))
    case SeeDone => s.(phase := Ended)
    case TakeNotify => s.(phase := Peeking, notify := false)
    case TimeOut => s.(phase := Ended)
  }

  function ClientNext(s: State, l: Label): State
    requires !ByPlayer(l) && Enabled(s, l)
  {
    match l
    case ClientAppend(t) =>
      if |s.tracks| >= MAX_QUEUE_SIZE then s
      else s.(tracks := Step(s.tracks, Push(t)), sending := s.sending + 1)
    case ClientSend => s.(notify := true, sending := s.sending - 1)
    case ClientRemove(i) =>
      // the handler refuses index 0, the track being played
      if i == 0 then s else s.(tracks := Step(s.tracks, Drop(i)))
    case ClientSkip =>
      if s.tracks == [] || s.skip then s
      else s.(skip := true, tally := s.tally.(accepted := s.tally.accepted + 1, window := s.tally.window + 1))
    case CancelContext => s.(cancelled := true)
  }

  predicate CanRun(s: State, run: seq<Label>)
    decreases run
  {
    run == [] || (Enabled(s, run[0]) && CanRun(Next(s, run[0]), run[1..]))
  }

  function After(s: State, run: seq<Label>): State
    requires CanRun(s, run)
    decreases run
  {
    if run == [] then s else After(Next(s, run[0]), run[1..])
  }

  // ---- head stability ----

  predicate HoldsTrack(p: Phase) {
    !(p.Connecting? || p.Peeking? || p.Silent? || p.Ended?)
  }

  /** While the player holds a track, that track is at the head of the queue. */
  ghost predicate HeadStable(s: State) {
    HoldsTrack(s.phase) ==> s.tracks != [] && s.tracks[0] == s.phase.track
  }

  // ---- no lost wakeup ----

  ghost predicate ContextExplains(s: State) {
    match s.phase
    case Stopping(_, watch, Cancelled) => TrackContextDone(s, watch)
    case Draining(_, skipped, Cancelled) => skipped || s.cancelled
    case Deciding(_, skipped, Cancelled) => skipped || s.cancelled
    case _ => true
  }

  /** A live player committed to silence over a queue with tracks has a token waiting or on its way. */
  ghost predicate WakeupPending(s: State) {
    s.phase.Silent? && !s.cancelled && s.tracks != [] ==> s.notify || s.sending > 0
  }

  // ---- skip tokens ----

  function TokenCount(b: bool): nat { if b then 1 else 0 }

  /** Whether the current watch window has taken a token that no track has been ended for yet. */
  predicate TookOne(p: Phase) {
    match p
    case Playing(_, w) => w == TookSkip
    case Stopping(_, w, _) => w == TookSkip
    case Draining(_, skipped, _) => skipped
    case Deciding(_, skipped, _) => skipped
    case _ => false
  }

  ghost predicate TokensConserved(s: State) {
    s.tally.accepted == s.tally.skippedEnds + s.tally.drained + TokenCount(s.skip) + TokenCount(TookOne(s.phase))
  }

  /** From the opening of a watch window until its stop has drained: the tokens that were waiting at the
      opening or came since are the one the watcher took, if any, and the one still waiting, if any. */
  ghost predicate WindowAccounted(s: State) {
    s.phase.Playing? || s.phase.Stopping? || s.phase.Draining? ==>
      s.tally.window == TokenCount(s.skip) + TokenCount(TookOne(s.phase))
  }

  // ---- the archive ----

  ghost function CurrentRow(s: State): seq<int> {
    if s.history.headRecorded && s.tracks != [] then [s.tracks[0].id] else []
  }

  /** The rows are the ids of the tracks played, then of the head if it has been recorded, except that the
      last tracks played may be late ones without a row. */
  ghost predicate RowsAccounted(s: State) {
    var h := s.history;
    s.archived ==>
      && h.played == h.recorded + h.late
      && h.rows == Ids(h.recorded) + CurrentRow(s)
      && (h.headRecorded ==> s.tracks != [] && h.late == [])
  }

  /** While the context is live every track that is started gets its row, once. */
  ghost predicate RecordedWhileLive(s: State) {
    s.archived && !s.cancelled ==>
      && s.history.late == []
      && (!s.phase.Ended? ==> (s.history.headRecorded <==> HoldsTrack(s.phase) && !s.phase.Recording?))
  }

  ghost predicate Invariant(s: State) {
    && |s.tracks| <= MAX_QUEUE_SIZE
    && HeadStable(s) && ContextExplains(s) && WakeupPending(s)
    && TokensConserved(s) && WindowAccounted(s)
    && RowsAccounted(s) && RecordedWhileLive(s)
  }

  lemma HeadByPlayer(s: State, l: Label)
    requires HeadStable(s) && |s.tracks| <= MAX_QUEUE_SIZE && ByPlayer(l) && Enabled(s, l)
    ensures HeadStable(PlayerNext(s, l)) && |PlayerNext(s, l).tracks| <= MAX_QUEUE_SIZE
  {
  }

  lemma HeadByClient(s: State, l: Label)
    requires HeadStable(s) && |s.tracks| <= MAX_QUEUE_SIZE && !ByPlayer(l) && Enabled(s, l)
    ensures HeadStable(ClientNext(s, l)) && |ClientNext(s, l).tracks| <= MAX_QUEUE_SIZE
  {
  }

  lemma ContextByPlayer(s: State, l: Label)
    requires ContextExplains(s) && ByPlayer(l) && Enabled(s, l)
    ensures ContextExplains(PlayerNext(s, l))
  {
  }

  lemma ContextByClient(s: State, l: Label)
    requires ContextExplains(s) && !ByPlayer(l) && Enabled(s, l)
    ensures ContextExplains(ClientNext(s, l))
  {
  }

  lemma WakeupByPlayer(s: State, l: Label)
    requires WakeupPending(s) && ContextExplains(s) && ByPlayer(l) && Enabled(s, l)
    ensures WakeupPending(PlayerNext(s, l))
  {
  }

  lemma WakeupByClient(s: State, l: Label)
    requires WakeupPending(s) && ContextExplains(s) && !ByPlayer(l) && Enabled(s, l)
    ensures WakeupPending(ClientNext(s, l))
  {
  }

  lemma TokensByPlayer(s: State, l: Label)
    requires TokensConserved(s) && ByPlayer(l) && Enabled(s, l)
    ensures TokensConserved(PlayerNext(s, l))
  {
  }

  lemma TokensByClient(s: State, l: Label)
    requires TokensConserved(s) && !ByPlayer(l) && Enabled(s, l)
    ensures TokensConserved(ClientNext(s, l))
  {
  }

  lemma WindowByPlayer(s: State, l: Label)
    requires WindowAccounted(s) && ByPlayer(l) && Enabled(s, l)
    ensures WindowAccounted(PlayerNext(s, l))
  {
  }

  lemma WindowByClient(s: State, l: Label)
    requires WindowAccounted(s) && !ByPlayer(l) && Enabled(s, l)
    ensures WindowAccounted(ClientNext(s, l))
  {
  }

  lemma RowsAfterDequeue(s: State)
    requires RowsAccounted(s) && s.phase.Dequeuing? && s.tracks != []
    ensures RowsAccounted(PlayerNext(s, Dequeue))
  {
    var h, head := s.history, s.tracks[0];
    if s.archived && h.headRecorded {
      assert Ids(h.recorded + [head]) == Ids(h.recorded) + [head.id];
      assert h.recorded + h.late + [head] == (h.recorded + [head]) + h.late;
    } else {
      assert h.recorded + h.late + [head] == h.recorded + (h.late + [head]);
    }
  }

  lemma RowsByPlayer(s: State, l: Label)
    requires RowsAccounted(s) && RecordedWhileLive(s) && HeadStable(s) && ByPlayer(l) && Enabled(s, l)
    ensures RowsAccounted(PlayerNext(s, l))
  {
    if l.Dequeue? {
      if s.tracks != [] { RowsAfterDequeue(s); }
    } else if l.Record? {
    } else {
      assert CurrentRow(PlayerNext(s, l)) == CurrentRow(s);
    }
  }

  lemma RowsByClient(s: State, l: Label)
    requires RowsAccounted(s) && HeadStable(s) && !ByPlayer(l) && Enabled(s, l)
    ensures RowsAccounted(ClientNext(s, l))
  {
  }

  lemma RecordedByPlayer(s: State, l: Label)
    requires RecordedWhileLive(s) && HeadStable(s) && ContextExplains(s) && ByPlayer(l) && Enabled(s, l)
    ensures RecordedWhileLive(PlayerNext(s, l))
  {
  }

  lemma RecordedByClient(s: State, l: Label)
    requires RecordedWhileLive(s) && !ByPlayer(l) && Enabled(s, l)
    ensures RecordedWhileLive(ClientNext(s, l))
  {
  }

  lemma PlayerKeeps(s: State, l: Label)
    requires Invariant(s) && ByPlayer(l) && Enabled(s, l)
    ensures Invariant(PlayerNext(s, l)) && PlayerNext(s, l).archived == s.archived
  {
    HeadByPlayer(s, l);
    ContextByPlayer(s, l);
    WakeupByPlayer(s, l);
    TokensByPlayer(s, l);
    WindowByPlayer(s, l);
    RowsByPlayer(s, l);
    RecordedByPlayer(s, l);
  }

  lemma ClientKeeps(s: State, l: Label)
    requires Invariant(s) && !ByPlayer(l) && Enabled(s, l)
    ensures Invariant(ClientNext(s, l)) && ClientNext(s, l).archived == s.archived
  {
    HeadByClient(s, l);
    ContextByClient(s, l);
    WakeupByClient(s, l);
    TokensByClient(s, l);
    WindowByClient(s, l);
    RowsByClient(s, l);
    RecordedByClient(s, l);
  }

  ghost predicate Keeps(archived: bool, s: State) {
    Invariant(s) && s.archived == archived
  }

  lemma StepKeepsBoth(archived: bool, s: State, l: Label)
    requires Keeps(archived, s) && Enabled(s, l)
    ensures Keeps(archived, Next(s, l))
  {
    if ByPlayer(l) { PlayerKeeps(s, l); } else { ClientKeeps(s, l); }
  }

  lemma {:induction false} Induction(s: State, run: seq<Label>, holds: State -> bool)
    requires holds(s) && CanRun(s, run)
    requires forall t, l | holds(t) && Enabled(t, l) :: holds(Next(t, l))
    ensures holds(After(s, run))
    decreases run
  {
    if run != [] {
      Induction(Next(s, run[0]), run[1..], holds);
    }
  }

  /** Every reachable state, whatever the clients do and however the steps interleave. */
  lemma RunKeeps(s: State, run: seq<Label>)
    requires Keeps(s.archived, s) && CanRun(s, run)
    ensures Keeps(s.archived, After(s, run))
  {
    forall t, l | Keeps(s.archived, t) && Enabled(t, l) ensures Keeps(s.archived, Next(t, l)) {
      StepKeepsBoth(s.archived, t, l);
    }
    Induction(s, run, t => Keeps(s.archived, t));
  }
}
