/** What a session queue does, on plain sequences, and a log that says what became of every track. */
module QueueLog {
  import opened Collections
  import opened Tracks

  const MAX_QUEUE_SIZE: nat := 16

  datatype QueueError = EmptyQueue | BadIndex | FullQueue

  datatype QueueOp = Push(track: Track) | Pop | Drop(index: nat)

  /** A full queue takes nothing more, an empty one gives nothing, a bad index removes nothing. */
  function Step(q: seq<Track>, op: QueueOp): seq<Track> {
    match op
    case Push(t) => if |q| >= MAX_QUEUE_SIZE then q else q + [t]
    case Pop => if q == [] then q else q[1..]
    case Drop(i) => if i >= |q| then q else RemoveAt(q, i)
  }

  /** What an operation hands to its caller, as a sequence of at most one track. */
  function Output(q: seq<Track>, op: QueueOp): seq<Track> {
    if op.Pop? && q != [] then [q[0]] else []
  }

  function Run(q: seq<Track>, ops: seq<QueueOp>): seq<Track>
    decreases ops
  {
    if ops == [] then q else Run(Step(q, ops[0]), ops[1..])
  }

  function Outputs(q: seq<Track>, ops: seq<QueueOp>): seq<Track>
    decreases ops
  {
    if ops == [] then [] else Output(q, ops[0]) + Outputs(Step(q, ops[0]), ops[1..])
  }

  // ---- the log: every accepted enqueue, in order, with its fate ----

  datatype Fate = Queued | Served | Removed
  datatype Entry = Entry(track: Track, fate: Fate)

  function With(log: seq<Entry>, fate: Fate): seq<Track> {
    if log == [] then [] else (if log[0].fate == fate then [log[0].track] else []) + With(log[1..], fate)
  }

  /** Everything enqueued, in order, except what was removed. */
  function NotRemoved(log: seq<Entry>): seq<Track> {
    if log == [] then [] else (if log[0].fate == Removed then [] else [log[0].track]) + NotRemoved(log[1..])
  }

  function ServeFirst(log: seq<Entry>): seq<Entry> {
    if log == [] then []
    else if log[0].fate == Queued then [log[0].(fate := Served)] + log[1..]
    else [log[0]] + ServeFirst(log[1..])
  }

  function RemoveNth(log: seq<Entry>, i: nat): seq<Entry> {
    if log == [] then []
    else if log[0].fate == Queued then
      if i == 0 then [log[0].(fate := Removed)] + log[1..] else [log[0]] + RemoveNth(log[1..], i - 1)
    else [log[0]] + RemoveNth(log[1..], i)
  }

  function LogStep(log: seq<Entry>, op: QueueOp): seq<Entry> {
    match op
    case Push(t) => if |With(log, Queued)| >= MAX_QUEUE_SIZE then log else log + [Entry(t, Queued)]
    case Pop => ServeFirst(log)
    case Drop(i) => RemoveNth(log, i)
  }

  function LogRun(log: seq<Entry>, ops: seq<QueueOp>): seq<Entry>
    decreases ops
  {
    if ops == [] then log else LogRun(LogStep(log, ops[0]), ops[1..])
  }

  /** Nothing is served out of turn: no queued occurrence was enqueued before a served one. */
  ghost predicate InTurn(log: seq<Entry>) {
    log != [] ==> InTurn(log[1..]) && (log[0].fate == Queued ==> With(log[1..], Served) == [])
  }

  lemma {:induction false} WithAppend(log: seq<Entry>, e: Entry, fate: Fate)
    ensures With(log + [e], fate) == With(log, fate) + if e.fate == fate then [e.track] else []
  {
    if log != [] {
      assert (log + [e])[1..] == log[1..] + [e];
      WithAppend(log[1..], e, fate);
    } else {
      assert log + [e] == [e];
    }
  }

  lemma {:induction false} InTurnAppend(log: seq<Entry>, e: Entry)
    requires InTurn(log) && e.fate != Served
    ensures InTurn(log + [e])
  {
    if log != [] {
      assert (log + [e])[1..] == log[1..] + [e];
      InTurnAppend(log[1..], e);
      WithAppend(log[1..], e, Served);
    }
  }

  lemma {:induction false} ServeFirstServes(log: seq<Entry>)
    requires InTurn(log)
    ensures var q := With(log, Queued); var l := ServeFirst(log);
            && With(l, Queued) == (if q == [] then q else q[1..])
            && With(l, Served) == With(log, Served) + (if q == [] then [] else [q[0]])
            && With(l, Removed) == With(log, Removed)
            && NotRemoved(l) == NotRemoved(log) && InTurn(l)
  {
    if log != [] {
      if log[0].fate == Queued {
        assert ServeFirst(log)[1..] == log[1..];
      } else {
        ServeFirstServes(log[1..]);
        assert ServeFirst(log)[1..] == ServeFirst(log[1..]);
      }
    }
  }

  lemma {:induction false} RemoveNthRemoves(log: seq<Entry>, i: nat)
    ensures var q := With(log, Queued);
            With(RemoveNth(log, i), Queued) == if i < |q| then RemoveAt(q, i) else q
  {
    if log != [] && log[0].fate == Queued {
      var q := With(log[1..], Queued);
      if i == 0 {
        assert RemoveNth(log, i)[1..] == log[1..];
      } else {
        RemoveNthRemoves(log[1..], i - 1);
        assert RemoveNth(log, i)[1..] == RemoveNth(log[1..], i - 1);
        if i - 1 < |q| { DropAfterHead(log[0].track, q, i - 1); }
      }
    } else if log != [] {
      RemoveNthRemoves(log[1..], i);
      assert RemoveNth(log, i)[1..] == RemoveNth(log[1..], i);
    }
  }

  lemma DropAfterHead<T>(x: T, q: seq<T>, i: nat)
    requires i < |q|
    ensures RemoveAt([x] + q, i + 1) == [x] + RemoveAt(q, i)
  {
  }

  lemma {:induction false} RemoveNthServes(log: seq<Entry>, i: nat)
    ensures With(RemoveNth(log, i), Served) == With(log, Served)
    ensures InTurn(log) ==> InTurn(RemoveNth(log, i))
  {
    if log != [] {
      if log[0].fate == Queued && i == 0 {
        assert RemoveNth(log, i)[1..] == log[1..];
      } else {
        var j := if log[0].fate == Queued then i - 1 else i;
        RemoveNthServes(log[1..], j);
        assert RemoveNth(log, i)[1..] == RemoveNth(log[1..], j);
      }
    }
  }

  /** Served then queued is all that was not removed, in the order it was enqueued. */
  lemma {:induction false} InTurnOrder(log: seq<Entry>)
    requires InTurn(log)
    ensures With(log, Served) + With(log, Queued) == NotRemoved(log)
  {
    if log != [] { InTurnOrder(log[1..]); }
  }

  lemma LogStepFollows(log: seq<Entry>, op: QueueOp)
    requires InTurn(log)
    ensures var q := With(log, Queued);
            && InTurn(LogStep(log, op))
            && With(LogStep(log, op), Queued) == Step(q, op)
            && With(LogStep(log, op), Served) == With(log, Served) + Output(q, op)
  {
    match op {
      case Push(t) =>
        WithAppend(log, Entry(t, Queued), Queued);
        WithAppend(log, Entry(t, Queued), Served);
        InTurnAppend(log, Entry(t, Queued));
      case Pop => ServeFirstServes(log);
      case Drop(i) =>
        RemoveNthRemoves(log, i);
        RemoveNthServes(log, i);
    }
  }

  lemma {:induction false} RunFollowsLog(log: seq<Entry>, ops: seq<QueueOp>)
    requires InTurn(log)
    ensures InTurn(LogRun(log, ops))
    ensures Run(With(log, Queued), ops) == With(LogRun(log, ops), Queued)
    ensures With(log, Served) + Outputs(With(log, Queued), ops) == With(LogRun(log, ops), Served)
    decreases ops
  {
    if ops != [] {
      var q, next := With(log, Queued), LogStep(log, ops[0]);
      LogStepFollows(log, ops[0]);
      RunFollowsLog(next, ops[1..]);
      Associative(With(log, Served), Output(q, ops[0]), Outputs(Step(q, ops[0]), ops[1..]));
    }
  }

  // ---- what the log says of the run ----

  function AllTracks(log: seq<Entry>): seq<Track> {
    if log == [] then [] else [log[0].track] + AllTracks(log[1..])
  }

  /** The tracks that a run of operations puts into the queue, in order. */
  function Accepted(q: seq<Track>, ops: seq<QueueOp>): seq<Track>
    decreases ops
  {
    if ops == [] then []
    else (if ops[0].Push? && |q| < MAX_QUEUE_SIZE then [ops[0].track] else []) + Accepted(Step(q, ops[0]), ops[1..])
  }

  /** The tracks that a run removes by index, in the order of their removal. */
  function DroppedBy(q: seq<Track>, ops: seq<QueueOp>): seq<Track>
    decreases ops
  {
    if ops == [] then [] else Taken(q, ops[0]) + DroppedBy(Step(q, ops[0]), ops[1..])
  }

  /** Where in the log the `i`-th queued track stands. */
  function PlaceOf(log: seq<Entry>, i: nat): (j: nat)
    requires i < |With(log, Queued)|
    ensures j < |log| && log[j].fate == Queued && |With(log[..j], Queued)| == i
    ensures log[j].track == With(log, Queued)[i]
  {
    if log[0].fate != Queued then PlaceAfter(log, i, PlaceOf(log[1..], i))
    else if i == 0 then 0
    else PlaceAfter(log, i, PlaceOf(log[1..], i - 1))
  }

  function PlaceAfter(log: seq<Entry>, i: nat, j: nat): (k: nat)
    requires j + 1 < |log|
    ensures k == j + 1 && log[..k] == [log[0]] + log[1..][..j] && log[..k][1..] == log[1..][..j]
  {
    j + 1
  }

  lemma UpdateTail<T>(s: seq<T>, j: nat, x: T)
    requires j + 1 < |s|
    ensures s[j + 1 := x] == [s[0]] + s[1..][j := x] && s[1..][j] == s[j + 1]
  {
  }

  lemma {:induction false} RemoveNthMarks(log: seq<Entry>, i: nat)
    ensures RemoveNth(log, i) ==
            if i < |With(log, Queued)| then log[PlaceOf(log, i) := log[PlaceOf(log, i)].(fate := Removed)] else log
  {
    if log != [] && !(log[0].fate == Queued && i == 0) {
      var rest, k := log[1..], if log[0].fate == Queued then i - 1 else i;
      RemoveNthMarks(rest, k);
      if k < |With(rest, Queued)| {
        UpdateTail(log, PlaceOf(rest, k), rest[PlaceOf(rest, k)].(fate := Removed));
      }
    }
  }

  lemma {:induction false} ServeFirstMarks(log: seq<Entry>)
    ensures ServeFirst(log) ==
            if With(log, Queued) != [] then log[PlaceOf(log, 0) := log[PlaceOf(log, 0)].(fate := Served)] else log
  {
    if log != [] && log[0].fate != Queued {
      var rest := log[1..];
      ServeFirstMarks(rest);
      if With(rest, Queued) != [] {
        UpdateTail(log, PlaceOf(rest, 0), rest[PlaceOf(rest, 0)].(fate := Served));
      }
    }
  }

  lemma {:induction false} MarkingKeepsTracks(log: seq<Entry>, j: nat, fate: Fate)
    requires j < |log|
    ensures AllTracks(log[j := log[j].(fate := fate)]) == AllTracks(log)
  {
    var marked := log[j := log[j].(fate := fate)];
    if j > 0 {
      assert marked[1..] == log[1..][j - 1 := log[j].(fate := fate)];
      MarkingKeepsTracks(log[1..], j - 1, fate);
    } else {
      assert marked[1..] == log[1..];
    }
  }

  lemma {:induction false} AllTracksAppend(log: seq<Entry>, e: Entry)
    ensures AllTracks(log + [e]) == AllTracks(log) + [e.track]
  {
    if log != [] {
      assert (log + [e])[1..] == log[1..] + [e];
      AllTracksAppend(log[1..], e);
    } else {
      assert log + [e] == [e];
    }
  }

  lemma StepTracks(log: seq<Entry>, op: QueueOp)
    ensures AllTracks(LogStep(log, op)) ==
            AllTracks(log) + (if op.Push? && |With(log, Queued)| < MAX_QUEUE_SIZE then [op.track] else [])
  {
    match op
    case Push(t) => AllTracksAppend(log, Entry(t, Queued));
    case Pop =>
      ServeFirstMarks(log);
      if With(log, Queued) != [] { MarkingKeepsTracks(log, PlaceOf(log, 0), Served); }
    case Drop(i) =>
      RemoveNthMarks(log, i);
      if i < |With(log, Queued)| { MarkingKeepsTracks(log, PlaceOf(log, i), Removed); }
  }

  /** The log's tracks are the accepted ones, in order. */
  lemma {:induction false} RunTracks(log: seq<Entry>, ops: seq<QueueOp>)
    requires InTurn(log)
    ensures AllTracks(LogRun(log, ops)) == AllTracks(log) + Accepted(With(log, Queued), ops)
    decreases ops
  {
    if ops != [] {
      var q := With(log, Queued);
      LogStepFollows(log, ops[0]);
      StepTracks(log, ops[0]);
      RunTracks(LogStep(log, ops[0]), ops[1..]);
      Associative(AllTracks(log), if ops[0].Push? && |q| < MAX_QUEUE_SIZE then [ops[0].track] else [],
                  Accepted(Step(q, ops[0]), ops[1..]));
    }
  }

  function One(e: Entry, fate: Fate): multiset<Track> {
    if e.fate == fate then multiset{e.track} else multiset{}
  }

  /** The tracks of one fate, however ordered. */
  function Count(log: seq<Entry>, fate: Fate): multiset<Track> {
    if log == [] then multiset{} else One(log[0], fate) + Count(log[1..], fate)
  }

  lemma RegroupCounts<T>(a: multiset<T>, b: multiset<T>, c: multiset<T>)
    ensures a + (b + c) == (a + b) + c
  {
  }

  lemma {:induction false} CountAppend(log: seq<Entry>, e: Entry, fate: Fate)
    ensures Count(log + [e], fate) == Count(log, fate) + One(e, fate)
  {
    if log == [] {
      assert log + [e] == [e];
    } else {
      assert (log + [e])[1..] == log[1..] + [e];
      CountAppend(log[1..], e, fate);
    }
  }

  lemma {:induction false} MarkingCounts(log: seq<Entry>, j: nat, fate: Fate)
    requires j < |log| && log[j].fate != Removed
    ensures Count(log[j := log[j].(fate := fate)], Removed) ==
            Count(log, Removed) + One(log[j].(fate := fate), Removed)
  {
    var e := log[j].(fate := fate);
    if j == 0 {
      assert log[0 := e][1..] == log[1..];
    } else {
      MarkingCounts(log[1..], j - 1, fate);
      UpdateTail(log, j - 1, e);
      assert log[j := e][1..] == log[1..][j - 1 := e];
      RegroupCounts(One(log[0], Removed), Count(log[1..], Removed), One(e, Removed));
    }
  }

  /** The track a step takes out, if it takes one. */
  function Taken(q: seq<Track>, op: QueueOp): seq<Track> {
    if op.Drop? && op.index < |q| then [q[op.index]] else []
  }

  lemma StepRemoved(log: seq<Entry>, op: QueueOp)
    ensures Count(LogStep(log, op), Removed) == Count(log, Removed) + multiset(Taken(With(log, Queued), op))
  {
    match op
    case Push(t) => CountAppend(log, Entry(t, Queued), Removed);
    case Pop =>
      ServeFirstMarks(log);
      if With(log, Queued) != [] { MarkingCounts(log, PlaceOf(log, 0), Served); }
    case Drop(i) =>
      RemoveNthMarks(log, i);
      if i < |With(log, Queued)| { MarkingCounts(log, PlaceOf(log, i), Removed); }
  }

  /** The removed entries are what the removals took out. */
  lemma {:induction false} RunRemoved(log: seq<Entry>, ops: seq<QueueOp>)
    requires InTurn(log)
    ensures Count(LogRun(log, ops), Removed) == Count(log, Removed) + multiset(DroppedBy(With(log, Queued), ops))
    decreases ops
  {
    if ops != [] {
      var q := With(log, Queued);
      LogStepFollows(log, ops[0]);
      StepRemoved(log, ops[0]);
      RunRemoved(LogStep(log, ops[0]), ops[1..]);
      SplitCount(Taken(q, ops[0]), DroppedBy(Step(q, ops[0]), ops[1..]));
      RegroupCounts(Count(log, Removed), multiset(Taken(q, ops[0])), multiset(DroppedBy(Step(q, ops[0]), ops[1..])));
    }
  }

  lemma SplitCount<T>(a: seq<T>, b: seq<T>)
    ensures multiset(a + b) == multiset(a) + multiset(b)
  {
  }

  /** Removing at an index marks the place of the track queued there, and nothing else. */
  ghost predicate MarksPlaces(log: seq<Entry>) {
    forall i: nat | i < |With(log, Queued)| ::
      LogStep(log, Drop(i)) == log[PlaceOf(log, i) := log[PlaceOf(log, i)].(fate := Removed)]
  }

  lemma RemovalsMarkPlaces(log: seq<Entry>)
    ensures MarksPlaces(log)
  {
    forall i: nat | i < |With(log, Queued)|
      ensures LogStep(log, Drop(i)) == log[PlaceOf(log, i) := log[PlaceOf(log, i)].(fate := Removed)]
    {
      RemoveNthMarks(log, i);
    }
  }

  /** Over every run, the log holds the accepted tracks in their order of arrival. The tracks handed out,
      followed by the tracks still queued, are these without the removed ones, in the same order; the removed
      ones are what the removals took out, each marked at the place of the track then at its index. */
  lemma FifoWithDeletion(ops: seq<QueueOp>)
    ensures AllTracks(LogRun([], ops)) == Accepted([], ops)
    ensures Outputs([], ops) + Run([], ops) == NotRemoved(LogRun([], ops))
    ensures Outputs([], ops) == With(LogRun([], ops), Served) && Run([], ops) == With(LogRun([], ops), Queued)
    ensures Count(LogRun([], ops), Removed) == multiset(DroppedBy([], ops))
    ensures MarksPlaces(LogRun([], ops))
  {
    var none, q: seq<Track> := [], [];
    assert AllTracks(none) == With(none, Queued) == q && Count(none, Removed) == multiset{};
    FifoOrder(ops);
    RunTracks(none, ops);
    RunRemoved(none, ops);
    RemovalsMarkPlaces(LogRun(none, ops));
  }

  lemma FifoOrder(ops: seq<QueueOp>)
    ensures Outputs([], ops) + Run([], ops) == NotRemoved(LogRun([], ops))
    ensures Outputs([], ops) == With(LogRun([], ops), Served) && Run([], ops) == With(LogRun([], ops), Queued)
  {
    var log: seq<Entry> := [];
    assert With(log, Queued) == With(log, Served) == [];
    RunFollowsLog(log, ops);
    assert With(log, Served) + Outputs([], ops) == Outputs([], ops);
    InTurnOrder(LogRun(log, ops));
  }

  lemma {:induction false} RunOneMore(q: seq<Track>, ops: seq<QueueOp>, op: QueueOp)
    ensures Run(q, ops + [op]) == Step(Run(q, ops), op)
    decreases ops
  {
    if ops == [] {
      assert [] + [op] == [op] && [op][1..] == [];
    } else {
      assert (ops + [op])[1..] == ops[1..] + [op];
      RunOneMore(Step(q, ops[0]), ops[1..], op);
    }
  }

  lemma {:induction false} QueueBounded(q: seq<Track>, ops: seq<QueueOp>)
    requires |q| <= 16
    ensures |Run(q, ops)| <= 16
    ensures forall t :: Step(Run(q, ops), Push(t)) == if |Run(q, ops)| == 16 then Run(q, ops) else Run(q, ops) + [t]
    decreases ops
  {
    if ops != [] { QueueBounded(Step(q, ops[0]), ops[1..]); }
  }
}
