/** Runs of the search endpoint over its cache. A request looks in the cache, and if that gives nothing it asks
    upstream and later stores the response or fails; other requests may run in between. */
module SearchCacheLaws {
  import opened Collections
  import opened Wrappers
  import opened SearchCache

  datatype Event =
    | Look(key: string, now: int)
    | Store(key: string, response: Response, now: int)
    | Fail(key: string)

  /** The cache, the requests waiting for upstream, the time, and everything ever stored. */
  datatype State = State(rows: seq<Row>, waiting: multiset<string>, clock: int, stores: seq<Row>)

  function Start(clock: int): State {
    State([], multiset{}, clock, [])
  }

  function StoredRow(e: Event): Row
    requires e.Store?
  {
    Row(e.key, Entry(e.response, e.now + CACHE_TTL_MS))
  }

  function Next(s: State, e: Event): State {
    match e
    case Look(key, now) =>
      if Answer(s.rows, key, now).Some? then s.(clock := now)
      else s.(rows := AfterLookup(s.rows, key, now), waiting := s.waiting + multiset{key}, clock := now)
    case Store(key, response, now) =>
      State(Stored(s.rows, StoredRow(e)), s.waiting - multiset{key}, now, s.stores + [StoredRow(e)])
    case Fail(key) => s.(waiting := s.waiting - multiset{key})
  }

  /** Only a waiting request stores or fails, and the clock does not go back. */
  predicate Can(s: State, e: Event) {
    && (!e.Look? ==> e.key in s.waiting)
    && (!e.Fail? ==> e.now >= s.clock)
  }

  /** No request looks while one with its key is waiting; so it is when requests are handled one at a time. */
  predicate Alone(s: State, e: Event) {
    e.Look? ==> e.key !in s.waiting
  }

  function Run(s: State, es: seq<Event>): State
    decreases es
  {
    if es == [] then s else Run(Next(s, es[0]), es[1..])
  }

  predicate CanRun(s: State, es: seq<Event>)
    decreases es
  {
    es != [] ==> Can(s, es[0]) && CanRun(Next(s, es[0]), es[1..])
  }

  predicate AloneRun(s: State, es: seq<Event>)
    decreases es
  {
    es != [] ==> Alone(s, es[0]) && AloneRun(Next(s, es[0]), es[1..])
  }

  // ---- rows ----

  lemma HasAt(rows: seq<Row>, i: nat)
    requires i < |rows|
    ensures Has(rows, rows[i].key)
  {
  }

  lemma OthersStay(rows: seq<Row>, key: string, other: string)
    requires key != other
    ensures Has(rows, other) <==> Has(Deleted(rows, key), other)
  {
    var i, rest := IndexOf(rows, key), Deleted(rows, key);
    var j, j' := IndexOf(rows, other), IndexOf(rest, other);
    if i < |rows| && j < |rows| {
      assert rest[if j < i then j else j - 1] == rows[j];
      HasAt(rest, if j < i then j else j - 1);
    }
    if i < |rows| && j' < |rest| {
      assert rest[j'] == rows[if j' < i then j' else j' + 1];
      HasAt(rows, if j' < i then j' else j' + 1);
    }
  }

  lemma WithoutOne(rows: seq<Row>, key: string)
    requires KeysDistinct(rows)
    ensures KeysDistinct(Deleted(rows, key)) && !Has(Deleted(rows, key), key)
    ensures |Deleted(rows, key)| <= |rows|
  {
    var i, rest := IndexOf(rows, key), Deleted(rows, key);
    if i < |rows| {
      assert forall j | 0 <= j < |rest| :: rest[j] == rows[if j < i then j else j + 1];
    }
  }

  predicate Sorted(rows: seq<Row>) {
    forall i, j | 0 <= i <= j < |rows| :: rows[i].entry.expiresAt <= rows[j].entry.expiresAt
  }

  // ---- any interleaving ----

  function LastStored(stores: seq<Row>, key: string): Option<Entry> {
    if stores == [] then None
    else if stores[|stores| - 1].key == key then Some(stores[|stores| - 1].entry)
    else LastStored(stores[..|stores| - 1], key)
  }

  lemma LastStoredOneMore(stores: seq<Row>, row: Row, key: string)
    ensures LastStored(stores + [row], key) == if row.key == key then Some(row.entry) else LastStored(stores, key)
  {
    assert (stores + [row])[..|stores|] == stores;
  }

  predicate Latest(rows: seq<Row>, stores: seq<Row>) {
    forall i | 0 <= i < |rows| :: LastStored(stores, rows[i].key) == Some(rows[i].entry)
  }

  predicate NotAhead(rows: seq<Row>, clock: int) {
    forall i | 0 <= i < |rows| :: rows[i].entry.expiresAt <= clock + CACHE_TTL_MS
  }

  predicate Sound(s: State) {
    && |s.rows| <= CACHE_MAX_ENTRIES && KeysDistinct(s.rows)
    && Latest(s.rows, s.stores) && NotAhead(s.rows, s.clock)
  }

  lemma DeletedIsLatest(rows: seq<Row>, key: string, stores: seq<Row>, clock: int)
    requires Latest(rows, stores) && NotAhead(rows, clock)
    ensures Latest(Deleted(rows, key), stores) && NotAhead(Deleted(rows, key), clock)
  {
    var i := IndexOf(rows, key);
    var rest := Deleted(rows, key);
    if i < |rows| {
      assert forall j | 0 <= j < |rest| :: rest[j] == rows[if j < i then j else j + 1];
    }
  }

  lemma AssignedIsLatest(rows: seq<Row>, row: Row, stores: seq<Row>, clock: int)
    requires KeysDistinct(rows) && Latest(rows, stores) && NotAhead(rows, clock)
    requires row.entry.expiresAt <= clock + CACHE_TTL_MS
    ensures KeysDistinct(Assigned(rows, row))
    ensures Latest(Assigned(rows, row), stores + [row]) && NotAhead(Assigned(rows, row), clock)
  {
    var i := IndexOf(rows, row.key);
    var after := Assigned(rows, row);
    forall j | 0 <= j < |after| ensures LastStored(stores + [row], after[j].key) == Some(after[j].entry) {
      LastStoredOneMore(stores, row, after[j].key);
    }
  }

  lemma StepStaysSound(s: State, e: Event)
    requires Sound(s) && Can(s, e)
    ensures Sound(Next(s, e))
  {
    match e
    case Look(key, now) =>
      WithoutOne(s.rows, key);
      DeletedIsLatest(s.rows, key, s.stores, now);
    case Store(key, response, now) =>
      AssignedIsLatest(Room(s.rows), StoredRow(e), s.stores, now);
    case Fail(_) =>
  }

  lemma {:induction false} RunStaysSound(s: State, es: seq<Event>)
    requires Sound(s) && CanRun(s, es)
    ensures Sound(Run(s, es))
    decreases es
  {
    if es != [] {
      StepStaysSound(s, es[0]);
      RunStaysSound(Next(s, es[0]), es[1..]);
    }
  }

  // the stores of a run, read off its events

  function StoreIn(e: Event): seq<Event> {
    if e.Store? then [e] else []
  }

  function StoresOf(es: seq<Event>): seq<Event> {
    if es == [] then [] else StoreIn(es[0]) + StoresOf(es[1..])
  }

  ghost predicate AreRowsOf(rows: seq<Row>, stores: seq<Event>) {
    && |rows| == |stores|
    && forall i | 0 <= i < |rows| :: stores[i].Store? && rows[i] == StoredRow(stores[i])
  }

  lemma StoreFollows(s: State, e: Event, before: seq<Event>)
    requires AreRowsOf(s.stores, before)
    ensures AreRowsOf(Next(s, e).stores, before + StoreIn(e))
  {
  }

  lemma {:induction false} StoresFollow(s: State, es: seq<Event>, before: seq<Event>)
    requires AreRowsOf(s.stores, before)
    ensures AreRowsOf(Run(s, es).stores, before + StoresOf(es))
    decreases es
  {
    if es == [] {
      assert before + [] == before;
    } else {
      StoreFollows(s, es[0], before);
      StoresFollow(Next(s, es[0]), es[1..], before + StoreIn(es[0]));
      Associative(before, StoreIn(es[0]), StoresOf(es[1..]));
    }
  }

  lemma StoresOfRun(clock: int, es: seq<Event>)
    ensures AreRowsOf(Run(Start(clock), es).stores, StoresOf(es))
  {
    StoresFollow(Start(clock), es, []);
    assert [] + StoresOf(es) == StoresOf(es);
  }

  /** The last store of the key. */
  ghost predicate LastOf(stores: seq<Event>, i: int, key: string) {
    && 0 <= i < |stores| && stores[i].Store? && stores[i].key == key
    && forall j | i < j < |stores| :: stores[j].key != key
  }

  lemma {:induction false} LastStoredAt(rows: seq<Row>, stores: seq<Event>, key: string) returns (i: int)
    requires AreRowsOf(rows, stores) && LastStored(rows, key).Some?
    ensures LastOf(stores, i, key) && LastStored(rows, key) == Some(StoredRow(stores[i]).entry)
    decreases |rows|
  {
    var n := |rows| - 1;
    assert rows[n] == StoredRow(stores[n]);
    if rows[n].key == key {
      i := n;
    } else {
      i := LastStoredAt(rows[..n], stores[..n], key);
    }
  }

  /** However requests interleave, the cache holds at most a thousand entries, and a hit is the response most
      recently stored under the key, at most 86,400,000 milliseconds ago. */
  lemma HitIsLatestStore(clock: int, es: seq<Event>, key: string, now: int)
    requires CanRun(Start(clock), es) && now >= Run(Start(clock), es).clock
    ensures var s := Run(Start(clock), es);
            |s.rows| <= 1000 && (Answer(s.rows, key, now).Some? ==> exists i :: HitBy(es, i, key, now, Answer(s.rows, key, now)))
  {
    RunStaysSound(Start(clock), es);
    StoresOfRun(clock, es);
    var s := Run(Start(clock), es);
    if Answer(s.rows, key, now).Some? {
      var i := LastStoredAt(s.stores, StoresOf(es), key);
      assert HitBy(es, i, key, now, Answer(s.rows, key, now));
    }
  }

  ghost predicate HitBy(es: seq<Event>, i: int, key: string, now: int, answer: Option<Response>) {
    && LastOf(StoresOf(es), i, key)
    && answer == Some(StoresOf(es)[i].response)
    && 0 <= now - StoresOf(es)[i].now < 86_400_000
  }

  // ---- one request per key at a time ----

  /** The rows from the first that is not expired. */
  function Fresh(rows: seq<Row>, now: int): seq<Row> {
    if rows == [] || rows[0].entry.expiresAt > now then rows else Fresh(rows[1..], now)
  }

  function LastThousand(rows: seq<Row>): seq<Row> {
    if |rows| > CACHE_MAX_ENTRIES then rows[|rows| - CACHE_MAX_ENTRIES..] else rows
  }

  /** The stores among the last thousand that are less than 24 hours old. */
  function Remembered(stores: seq<Row>, now: int): seq<Row> {
    Fresh(LastThousand(stores), now)
  }

  lemma {:induction false} FreshAppend(rows: seq<Row>, row: Row, now: int)
    requires row.entry.expiresAt > now
    ensures Fresh(rows + [row], now) == Fresh(rows, now) + [row]
  {
    if rows != [] {
      assert (rows + [row])[1..] == rows[1..] + [row];
      FreshAppend(rows[1..], row, now);
    }
  }

  lemma {:induction false} FreshAgain(rows: seq<Row>, before: int, now: int)
    requires before <= now
    ensures Fresh(Fresh(rows, before), now) == Fresh(rows, now)
  {
    if rows != [] {
      FreshAgain(rows[1..], before, now);
    }
  }

  lemma {:induction false} FreshIsSuffix(rows: seq<Row>, now: int)
    ensures |Fresh(rows, now)| <= |rows|
    ensures Fresh(rows, now) == rows[|rows| - |Fresh(rows, now)|..]
  {
    if rows != [] {
      FreshIsSuffix(rows[1..], now);
    }
  }

  lemma {:induction false} FreshWithoutExpired(rows: seq<Row>, i: nat, now: int)
    requires i < |rows| && Sorted(rows) && rows[i].entry.expiresAt <= now
    ensures Fresh(rows[..i] + rows[i + 1..], now) == Fresh(rows, now)
  {
    var rest := rows[..i] + rows[i + 1..];
    if i == 0 {
      assert rest == rows[1..];
    } else {
      FreshWithoutExpired(rows[1..], i - 1, now);
      assert rest[1..] == rows[1..][..i - 1] + rows[1..][i..];
    }
  }

  /** Making room drops a fresh row only when all thousand are fresh. */
  lemma FreshRoom(rows: seq<Row>, now: int)
    requires Sorted(rows) && |rows| <= CACHE_MAX_ENTRIES
    ensures Fresh(Room(rows), now) == Room(Fresh(rows, now))
  {
    FreshIsSuffix(rows, now);
    if |rows| == CACHE_MAX_ENTRIES {
      FreshIsSuffix(rows[1..], now);
      if rows[0].entry.expiresAt > now {
        assert rows[1..][0] == rows[1];
      }
    }
  }

  lemma LastThousandOneMore(stores: seq<Row>, row: Row)
    ensures LastThousand(stores + [row]) == Room(LastThousand(stores)) + [row]
  {
  }

  predicate WaitingAbsent(waiting: multiset<string>, rows: seq<Row>) {
    forall key | key in waiting :: waiting[key] == 1 && !Has(rows, key)
  }

  predicate InOrder(s: State) {
    && Sorted(s.rows) && Sorted(s.stores)
    && NotAhead(s.stores, s.clock)
  }

  predicate Exact(s: State) {
    && Sound(s) && InOrder(s)
    && WaitingAbsent(s.waiting, s.rows)
    && Fresh(s.rows, s.clock) == Remembered(s.stores, s.clock)
  }

  lemma DeletedStaysSorted(rows: seq<Row>, key: string)
    requires Sorted(rows)
    ensures Sorted(Deleted(rows, key))
  {
    var i := IndexOf(rows, key);
    var rest := Deleted(rows, key);
    if i < |rows| {
      assert forall j | 0 <= j < |rest| :: rest[j] == rows[if j < i then j else j + 1];
    }
  }

  lemma AppendStaysSorted(rows: seq<Row>, row: Row)
    requires Sorted(rows)
    requires forall i | 0 <= i < |rows| :: rows[i].entry.expiresAt <= row.entry.expiresAt
    ensures Sorted(rows + [row])
  {
  }

  lemma {:induction false} HasAny(rows: seq<Row>, key: string)
    ensures Has(rows, key) <==> exists i :: 0 <= i < |rows| && rows[i].key == key
  {
  }

  lemma RoomHasNoMore(rows: seq<Row>, row: Row, key: string)
    requires !Has(rows, key)
    ensures !Has(Room(rows), key)
    ensures key != row.key ==> !Has(Room(rows) + [row], key)
  {
    HasAny(rows, key);
    HasAny(Room(rows), key);
    HasAny(Room(rows) + [row], key);
  }

  lemma StoredAppends(s: State, e: Event)
    requires WaitingAbsent(s.waiting, s.rows) && e.Store? && Can(s, e)
    ensures Stored(s.rows, StoredRow(e)) == Room(s.rows) + [StoredRow(e)]
  {
    RoomHasNoMore(s.rows, StoredRow(e), e.key);
  }

  lemma WaitingStaysAbsent(s: State, e: Event)
    requires KeysDistinct(s.rows) && WaitingAbsent(s.waiting, s.rows) && Can(s, e) && Alone(s, e)
    ensures WaitingAbsent(Next(s, e).waiting, Next(s, e).rows)
  {
    match e
    case Look(key, now) =>
      WithoutOne(s.rows, key);
      forall other | other in s.waiting && other != key ensures !Has(Deleted(s.rows, key), other) {
        OthersStay(s.rows, key, other);
      }
    case Store(key, _, _) =>
      StoredAppends(s, e);
      forall other | other in s.waiting && other != key ensures !Has(Next(s, e).rows, other) {
        RoomHasNoMore(s.rows, StoredRow(e), other);
      }
    case Fail(_) =>
  }

  lemma StoreKeepsOrder(s: State, e: Event)
    requires Sound(s) && WaitingAbsent(s.waiting, s.rows) && InOrder(s) && Can(s, e) && e.Store?
    ensures InOrder(Next(s, e))
  {
    StoredAppends(s, e);
    RoomStaysInOrder(s.rows, s.clock);
    AppendStaysSorted(Room(s.rows), StoredRow(e));
    AppendStaysSorted(s.stores, StoredRow(e));
  }

  lemma RoomStaysInOrder(rows: seq<Row>, clock: int)
    requires Sorted(rows) && NotAhead(rows, clock)
    ensures Sorted(Room(rows)) && NotAhead(Room(rows), clock)
  {
  }

  lemma OrderStays(s: State, e: Event)
    requires Sound(s) && WaitingAbsent(s.waiting, s.rows) && InOrder(s) && Can(s, e)
    ensures InOrder(Next(s, e))
  {
    match e
    case Look(key, _) =>
      DeletedStaysSorted(s.rows, key);
    case Store(_, _, _) =>
      StoreKeepsOrder(s, e);
    case Fail(_) =>
  }

  lemma FreshStays(rows: seq<Row>, stores: seq<Row>, before: int, now: int)
    requires before <= now && Fresh(rows, before) == Remembered(stores, before)
    ensures Fresh(rows, now) == Remembered(stores, now)
  {
    FreshAgain(rows, before, now);
    FreshAgain(LastThousand(stores), before, now);
  }

  lemma LookLeavesFresh(rows: seq<Row>, key: string, now: int)
    requires Sorted(rows)
    ensures Fresh(AfterLookup(rows, key, now), now) == Fresh(rows, now)
  {
    var i := IndexOf(rows, key);
    if i < |rows| && rows[i].entry.expiresAt <= now {
      FreshWithoutExpired(rows, i, now);
    }
  }

  lemma StoreRemembers(rows: seq<Row>, stores: seq<Row>, row: Row, now: int)
    requires Sorted(rows) && |rows| <= CACHE_MAX_ENTRIES && Sorted(stores) && row.entry.expiresAt > now
    requires Fresh(rows, now) == Remembered(stores, now)
    ensures Fresh(Room(rows) + [row], now) == Remembered(stores + [row], now)
  {
    FreshRoom(rows, now);
    FreshRoom(LastThousand(stores), now);
    LastThousandOneMore(stores, row);
    FreshAppend(Room(rows), row, now);
    FreshAppend(Room(LastThousand(stores)), row, now);
  }

  lemma RememberedStays(s: State, e: Event)
    requires Sound(s) && InOrder(s) && WaitingAbsent(s.waiting, s.rows) && Can(s, e)
    requires Fresh(s.rows, s.clock) == Remembered(s.stores, s.clock)
    ensures Fresh(Next(s, e).rows, Next(s, e).clock) == Remembered(Next(s, e).stores, Next(s, e).clock)
  {
    if !e.Fail? {
      FreshStays(s.rows, s.stores, s.clock, e.now);
    }
    match e
    case Look(key, now) => LookLeavesFresh(s.rows, key, now);
    case Store(_, _, now) =>
      StoredAppends(s, e);
      StoreRemembers(s.rows, s.stores, StoredRow(e), now);
    case Fail(_) =>
  }

  lemma StepStaysExact(s: State, e: Event)
    requires Exact(s) && Can(s, e) && Alone(s, e)
    ensures Exact(Next(s, e))
  {
    StepStaysSound(s, e);
    OrderStays(s, e);
    WaitingStaysAbsent(s, e);
    RememberedStays(s, e);
  }

  lemma {:induction false} RunStaysExact(s: State, es: seq<Event>)
    requires Exact(s) && CanRun(s, es) && AloneRun(s, es)
    ensures Exact(Run(s, es))
    decreases es
  {
    if es != [] {
      StepStaysExact(s, es[0]);
      RunStaysExact(Next(s, es[0]), es[1..]);
    }
  }

  lemma AnswerFromFresh(rows: seq<Row>, key: string, now: int)
    requires KeysDistinct(rows) && Sorted(rows)
    ensures KeysDistinct(Fresh(rows, now))
    ensures Answer(Fresh(rows, now), key, now) == Answer(rows, key, now)
  {
    FreshHoldsFresh(rows, now);
    FreshIsSuffix(rows, now);
    AnswerFromSuffix(rows, |rows| - |Fresh(rows, now)|, key, now);
  }

  lemma AnswerFromSuffix(rows: seq<Row>, n: nat, key: string, now: int)
    requires KeysDistinct(rows) && n <= |rows|
    requires forall i | 0 <= i < |rows| :: rows[i].entry.expiresAt > now <==> n <= i
    ensures KeysDistinct(rows[n..]) && Answer(rows[n..], key, now) == Answer(rows, key, now)
  {
    var i, j := IndexOf(rows, key), IndexOf(rows[n..], key);
    assert forall m | n <= m < |rows| :: rows[m] == rows[n..][m - n];
    if j < |rows[n..]| {
      assert rows[n + j] == rows[n..][j];
    }
  }

  lemma {:induction false} FreshHoldsFresh(rows: seq<Row>, now: int)
    requires Sorted(rows)
    ensures |Fresh(rows, now)| <= |rows|
    ensures forall i | 0 <= i < |rows| ::
              rows[i].entry.expiresAt > now <==> i >= |rows| - |Fresh(rows, now)|
  {
    if rows != [] && rows[0].entry.expiresAt <= now {
      FreshHoldsFresh(rows[1..], now);
      assert forall i | 0 < i < |rows| :: rows[i] == rows[1..][i - 1];
    } else {
      assert forall i | 0 <= i < |rows| :: rows[0].entry.expiresAt <= rows[i].entry.expiresAt;
    }
  }

  /** A store of the key, less than 24 hours old, with fewer than a thousand after it. */
  predicate Recalled(stores: seq<Row>, i: int, key: string, now: int) {
    && 0 <= i < |stores| && |stores| - i <= CACHE_MAX_ENTRIES
    && stores[i].key == key && stores[i].entry.expiresAt > now
  }

  lemma RememberedRow(stores: seq<Row>, i: nat, now: int)
    requires Sorted(stores) && i < |stores|
    ensures var n := |stores| - |Remembered(stores, now)|;
            && n >= 0
            && (stores[i].entry.expiresAt > now && |stores| - i <= CACHE_MAX_ENTRIES <==> n <= i)
            && (n <= i ==> Remembered(stores, now)[i - n] == stores[i])
  {
    var last := LastThousand(stores);
    var cut := |stores| - |last|;
    FreshIsSuffix(last, now);
    FreshHoldsFresh(last, now);
    if i >= cut {
      assert stores[i] == last[i - cut];
    }
  }

  lemma AnswerAt(rows: seq<Row>, i: nat, now: int)
    requires KeysDistinct(rows) && i < |rows| && rows[i].entry.expiresAt > now
    ensures Answer(rows, rows[i].key, now) == Some(rows[i].entry.response)
  {
  }

  lemma RecalledIsAnswered(stores: seq<Row>, i: int, key: string, now: int)
    requires Sorted(stores) && KeysDistinct(Remembered(stores, now)) && Recalled(stores, i, key, now)
    ensures Answer(Remembered(stores, now), key, now) == Some(stores[i].entry.response)
  {
    RememberedRow(stores, i, now);
    AnswerAt(Remembered(stores, now), i - (|stores| - |Remembered(stores, now)|), now);
  }

  lemma AnsweredIsRecalled(stores: seq<Row>, key: string, now: int)
    requires Sorted(stores) && Answer(Remembered(stores, now), key, now).Some?
    ensures exists i :: Recalled(stores, i, key, now)
  {
    var kept := Remembered(stores, now);
    FreshIsSuffix(LastThousand(stores), now);
    var i := |stores| - |kept| + IndexOf(kept, key);
    RememberedRow(stores, i, now);
    assert Recalled(stores, i, key, now);
  }

  lemma AnswersRecalled(clock: int, es: seq<Event>, key: string, now: int)
    requires CanRun(Start(clock), es) && AloneRun(Start(clock), es) && now >= Run(Start(clock), es).clock
    ensures var s := Run(Start(clock), es);
            Answer(s.rows, key, now).Some? <==> exists i :: Recalled(s.stores, i, key, now)
    ensures var s := Run(Start(clock), es);
            forall i | Recalled(s.stores, i, key, now) ::
              Answer(s.rows, key, now) == Some(s.stores[i].entry.response)
  {
    RunStaysExact(Start(clock), es);
    var s := Run(Start(clock), es);
    FreshAgain(s.rows, s.clock, now);
    FreshAgain(LastThousand(s.stores), s.clock, now);
    AnswerFromFresh(s.rows, key, now);
    forall i | Recalled(s.stores, i, key, now)
      ensures Answer(s.rows, key, now) == Some(s.stores[i].entry.response)
    {
      RecalledIsAnswered(s.stores, i, key, now);
    }
    if Answer(s.rows, key, now).Some? {
      AnsweredIsRecalled(s.stores, key, now);
    }
  }

  /** A store of the key in the last 86,400,000 milliseconds, with fewer than a thousand stores after it. */
  ghost predicate RecentStore(es: seq<Event>, i: int, key: string, now: int) {
    var stores := StoresOf(es);
    && 0 <= i < |stores| && |stores| - i <= 1000
    && stores[i].Store? && stores[i].key == key && now - stores[i].now < 86_400_000
  }

  lemma RecentIsRecalled(clock: int, es: seq<Event>, i: int, key: string, now: int)
    ensures RecentStore(es, i, key, now) <==> Recalled(Run(Start(clock), es).stores, i, key, now)
    ensures RecentStore(es, i, key, now) ==>
              StoresOf(es)[i].response == Run(Start(clock), es).stores[i].entry.response
  {
    StoresOfRun(clock, es);
  }

  /** With one request per key at a time, the cache answers exactly when a response was stored under the key less
      than 24 hours ago with fewer than a thousand stores since, and it answers with that response. */
  lemma HitIff(clock: int, es: seq<Event>, key: string, now: int)
    requires CanRun(Start(clock), es) && AloneRun(Start(clock), es) && now >= Run(Start(clock), es).clock
    ensures Answer(Run(Start(clock), es).rows, key, now).Some? <==> exists i :: RecentStore(es, i, key, now)
    ensures forall i | RecentStore(es, i, key, now) ::
              Answer(Run(Start(clock), es).rows, key, now) == Some(StoresOf(es)[i].response)
  {
    AnswersRecalled(clock, es, key, now);
    forall i | RecentStore(es, i, key, now)
      ensures Answer(Run(Start(clock), es).rows, key, now) == Some(StoresOf(es)[i].response)
    {
      RecentIsRecalled(clock, es, i, key, now);
    }
    if Answer(Run(Start(clock), es).rows, key, now).Some? {
      var i :| Recalled(Run(Start(clock), es).stores, i, key, now);
      RecentIsRecalled(clock, es, i, key, now);
    }
  }

  /** With one request per key at a time the rows stand in the order they expire, so the row a full cache drops
      is the one nearest its expiry. */
  lemma EvictsNearestExpiry(clock: int, es: seq<Event>)
    requires CanRun(Start(clock), es) && AloneRun(Start(clock), es)
    ensures var rows := Run(Start(clock), es).rows;
            forall i | 0 <= i < |rows| :: rows[0].entry.expiresAt <= rows[i].entry.expiresAt
  {
    RunStaysExact(Start(clock), es);
  }

  /** Overwriting a row in its place keeps the order of expiry exactly when every row behind it expires with the
      new entry; a row added at the end always does. */
  lemma AssignedSortedIff(rows: seq<Row>, row: Row)
    requires Sorted(rows) && forall i | 0 <= i < |rows| :: rows[i].entry.expiresAt <= row.entry.expiresAt
    ensures Sorted(Assigned(rows, row)) <==> LevelBehind(rows, row)
  {
    var i, after := IndexOf(rows, row.key), Assigned(rows, row);
    if Sorted(after) {
      forall j | i < j < |rows| ensures rows[j].entry.expiresAt == row.entry.expiresAt {
        assert after[i].entry.expiresAt <= after[j].entry.expiresAt;
      }
    }
  }

  predicate LevelBehind(rows: seq<Row>, row: Row) {
    forall j | IndexOf(rows, row.key) < j < |rows| :: rows[j].entry.expiresAt == row.entry.expiresAt
  }

  /** What a store must find for the rows to stay in order, once a full cache has made room. */
  predicate InTime(s: State, e: Event) {
    e.Store? ==> LevelBehind(Room(s.rows), StoredRow(e))
  }

  lemma StepSortedIff(s: State, e: Event)
    requires Sound(s) && Sorted(s.rows) && Can(s, e)
    ensures Sorted(Next(s, e).rows) <==> InTime(s, e)
  {
    match e
    case Look(key, _) => DeletedStaysSorted(s.rows, key);
    case Store(_, _, _) =>
      RoomStaysInOrder(s.rows, s.clock);
      AssignedSortedIff(Room(s.rows), StoredRow(e));
    case Fail(_) =>
  }

  /** The rows stand in order of expiry all through the run. */
  predicate SortedThroughout(s: State, es: seq<Event>)
    decreases es
  {
    Sorted(s.rows) && (es != [] ==> SortedThroughout(Next(s, es[0]), es[1..]))
  }

  predicate AllInTime(s: State, es: seq<Event>)
    decreases es
  {
    es != [] ==> InTime(s, es[0]) && AllInTime(Next(s, es[0]), es[1..])
  }

  lemma {:induction false} SortedThroughoutFrom(s: State, es: seq<Event>)
    requires Sound(s) && Sorted(s.rows) && CanRun(s, es)
    ensures SortedThroughout(s, es) <==> AllInTime(s, es)
    decreases es
  {
    if es != [] {
      StepStaysSound(s, es[0]);
      StepSortedIff(s, es[0]);
      if InTime(s, es[0]) {
        SortedThroughoutFrom(Next(s, es[0]), es[1..]);
      } else {
        assert !SortedThroughout(Next(s, es[0]), es[1..]);
      }
    }
  }

  /** However requests interleave, the rows stand in the order they expire all along exactly when no store
      overwrites a row with one behind it that expires earlier than the new entry. */
  lemma SortedThroughoutIff(clock: int, es: seq<Event>)
    requires CanRun(Start(clock), es)
    ensures SortedThroughout(Start(clock), es) <==> AllInTime(Start(clock), es)
  {
    SortedThroughoutFrom(Start(clock), es);
  }

  // ---- what a run keeps when requests overlap ----

  /** This store makes room by dropping the key's row. */
  predicate Drops(s: State, e: Event, key: string) {
    e.Store? && |s.rows| >= CACHE_MAX_ENTRIES && s.rows[0].key == key
  }

  predicate NeverDropped(s: State, es: seq<Event>, key: string)
    decreases es
  {
    es != [] ==> !Drops(s, es[0], key) && NeverDropped(Next(s, es[0]), es[1..], key)
  }

  predicate NoStoreOf(es: seq<Event>, key: string) {
    forall e | e in es :: e.Store? ==> e.key != key
  }

  lemma RoomHas(rows: seq<Row>, key: string)
    requires KeysDistinct(rows)
    ensures Has(Room(rows), key) <==> Has(rows, key) && !(|rows| >= CACHE_MAX_ENTRIES && rows[0].key == key)
  {
    HasAny(rows, key);
    HasAny(Room(rows), key);
    if |rows| >= CACHE_MAX_ENTRIES {
      assert forall i | 0 < i < |rows| :: rows[i] == Room(rows)[i - 1];
    }
  }

  lemma AssignedHas(rows: seq<Row>, row: Row, key: string)
    requires row.key != key
    ensures Has(Assigned(rows, row), key) <==> Has(rows, key)
  {
    HasAny(rows, key);
    HasAny(Assigned(rows, row), key);
    var i := IndexOf(rows, row.key);
    assert forall j | 0 <= j < |rows| && j != i :: Assigned(rows, row)[j] == rows[j];
  }

  lemma FreshStaysIff(s: State, e: Event, key: string, entry: Entry)
    requires Sound(s) && Can(s, e) && (e.Store? ==> e.key != key)
    requires LastStored(s.stores, key) == Some(entry) && Next(s, e).clock < entry.expiresAt
    ensures Has(Next(s, e).rows, key) <==> Has(s.rows, key) && !Drops(s, e, key)
    ensures LastStored(Next(s, e).stores, key) == Some(entry)
  {
    match e
    case Look(other, now) =>
      if other != key { OthersStay(s.rows, other, key); }
    case Store(_, _, _) =>
      RoomHas(s.rows, key);
      AssignedHas(Room(s.rows), StoredRow(e), key);
      LastStoredOneMore(s.stores, StoredRow(e), key);
    case Fail(_) =>
  }

  lemma {:induction false} ClockRises(s: State, es: seq<Event>)
    requires CanRun(s, es)
    ensures s.clock <= Run(s, es).clock
    decreases es
  {
    if es != [] { ClockRises(Next(s, es[0]), es[1..]); }
  }

  lemma {:induction false} KeptIff(s: State, es: seq<Event>, key: string, entry: Entry)
    requires Sound(s) && CanRun(s, es) && NoStoreOf(es, key)
    requires LastStored(s.stores, key) == Some(entry) && Run(s, es).clock < entry.expiresAt
    ensures Has(Run(s, es).rows, key) <==> Has(s.rows, key) && NeverDropped(s, es, key)
    ensures LastStored(Run(s, es).stores, key) == Some(entry) && Sound(Run(s, es))
    decreases es
  {
    if es != [] {
      var e := es[0];
      assert e in es;
      ClockRises(Next(s, e), es[1..]);
      StepStaysSound(s, e);
      FreshStaysIff(s, e, key, entry);
      KeptIff(Next(s, e), es[1..], key, entry);
    }
  }

  lemma AssignedHasOwn(rows: seq<Row>, row: Row)
    ensures Has(Assigned(rows, row), row.key)
  {
    HasAt(Assigned(rows, row), IndexOf(rows, row.key));
  }

  lemma AnswerOf(s: State, key: string, entry: Entry, now: int)
    requires Sound(s) && LastStored(s.stores, key) == Some(entry)
    ensures Answer(s.rows, key, now) ==
            if Has(s.rows, key) && now < entry.expiresAt then Some(entry.response) else None
  {
  }

  /** However requests interleave: a response stored under a key is what the cache answers with, until another is
      stored under it, exactly for 24 hours and as long as no store has made room by dropping its row. */
  lemma InterleavedHitIff(clock: int, before: seq<Event>, store: Event, es: seq<Event>, now: int)
    requires CanRun(Start(clock), before) && store.Store? && Can(Run(Start(clock), before), store)
    requires var s := Next(Run(Start(clock), before), store);
             CanRun(s, es) && NoStoreOf(es, store.key) && Run(s, es).clock <= now
    ensures var s := Next(Run(Start(clock), before), store);
            Answer(Run(s, es).rows, store.key, now) ==
            if now - store.now < 86_400_000 && NeverDropped(s, es, store.key) then Some(store.response) else None
  {
    var s0 := Run(Start(clock), before);
    var s, row := Next(s0, store), StoredRow(store);
    RunStaysSound(Start(clock), before);
    StepStaysSound(s0, store);
    AssignedHasOwn(Room(s0.rows), row);
    LastStoredOneMore(s0.stores, row, store.key);
    RunStaysSound(s, es);
    LastStoredStays(s, es, store.key);
    AnswerOf(Run(s, es), store.key, row.entry, now);
    if now < row.entry.expiresAt {
      KeptIff(s, es, store.key, row.entry);
    }
  }

  lemma {:induction false} LastStoredStays(s: State, es: seq<Event>, key: string)
    requires NoStoreOf(es, key)
    ensures LastStored(Run(s, es).stores, key) == LastStored(s.stores, key)
    decreases es
  {
    if es != [] {
      assert es[0] in es;
      if es[0].Store? { LastStoredOneMore(s.stores, StoredRow(es[0]), key); }
      LastStoredStays(Next(s, es[0]), es[1..], key);
    }
  }

  lemma RunOne(s: State, e: Event, rest: seq<Event>)
    requires Can(s, e)
    ensures Run(s, [e] + rest) == Run(Next(s, e), rest)
    ensures CanRun(s, [e] + rest) <==> CanRun(Next(s, e), rest)
  {
    assert ([e] + rest)[1..] == rest;
  }

  lemma RunThree(s: State, t: State, u: State, v: State, a: Event, b: Event, c: Event, rest: seq<Event>)
    requires Can(s, a) && Next(s, a) == t && Can(t, b) && Next(t, b) == u && Can(u, c) && Next(u, c) == v
    ensures Run(s, [a, b, c] + rest) == Run(v, rest)
    ensures CanRun(s, [a, b, c] + rest) <==> CanRun(v, rest)
  {
    RunOne(u, c, rest);
    RunOne(t, b, [c] + rest);
    RunOne(s, a, [b] + ([c] + rest));
    assert [a, b, c] + rest == [a] + ([b] + ([c] + rest));
  }

  // Two requests for one key at once, and another between their answers.
  function Overlap(r: Response): seq<Event> {
    [Look("a", 0), Look("a", 0), Look("b", 0)] + Answers(r)
  }

  function Answers(r: Response): seq<Event> {
    [Store("a", r, 0), Store("b", r, 1), Store("a", r, 2)] + []
  }

  function AllWaiting(): State {
    State([], multiset{} + multiset{"a"} + multiset{"a"} + multiset{"b"}, 0, [])
  }

  function AllAnswered(r: Response): State {
    var a, b, a' := StoredRow(Store("a", r, 0)), StoredRow(Store("b", r, 1)), StoredRow(Store("a", r, 2));
    State([a', b], AllWaiting().waiting - multiset{"a"} - multiset{"b"} - multiset{"a"}, 2, [a, b, a'])
  }

  lemma OverlapLooks(r: Response)
    ensures Run(Start(0), Overlap(r)) == Run(AllWaiting(), Answers(r))
    ensures CanRun(Start(0), Overlap(r)) <==> CanRun(AllWaiting(), Answers(r))
  {
    var s1 := State([], multiset{} + multiset{"a"}, 0, []);
    var s2 := s1.(waiting := s1.waiting + multiset{"a"});
    var lookA, lookB := Look("a", 0), Look("b", 0);
    Missed(Start(0), lookA);
    Missed(s1, lookA);
    Missed(s2, lookB);
    RunThree(Start(0), s1, s2, AllWaiting(), lookA, lookA, lookB, Answers(r));
  }

  lemma Missed(s: State, e: Event)
    requires s.rows == [] && e.Look?
    ensures Next(s, e) == s.(waiting := s.waiting + multiset{e.key}, clock := e.now)
  {
  }

  lemma OverlapStore(r: Response)
    ensures var a, b, a' := StoredRow(Store("a", r, 0)), StoredRow(Store("b", r, 1)), StoredRow(Store("a", r, 2));
            Stored([], a) == [a] && Stored([a], b) == [a, b] && Stored([a, b], a') == [a', b]
  {
    assert "a" != "b";
  }

  function FirstAnswered(r: Response): State {
    var a := StoredRow(Store("a", r, 0));
    State([a], AllWaiting().waiting - multiset{"a"}, 0, [a])
  }

  function SecondAnswered(r: Response): State {
    var a, b := StoredRow(Store("a", r, 0)), StoredRow(Store("b", r, 1));
    State([a, b], FirstAnswered(r).waiting - multiset{"b"}, 1, [a, b])
  }

  lemma OverlapAnswers(r: Response)
    ensures var e := Store("a", r, 0); Can(AllWaiting(), e) && Next(AllWaiting(), e) == FirstAnswered(r)
    ensures var e := Store("b", r, 1); Can(FirstAnswered(r), e) && Next(FirstAnswered(r), e) == SecondAnswered(r)
    ensures var e := Store("a", r, 2); Can(SecondAnswered(r), e) && Next(SecondAnswered(r), e) == AllAnswered(r)
  {
    OverlapStore(r);
  }

  lemma OverlapStores(r: Response)
    ensures Run(AllWaiting(), Answers(r)) == AllAnswered(r) && CanRun(AllWaiting(), Answers(r))
  {
    OverlapAnswers(r);
    RunThree(AllWaiting(), FirstAnswered(r), SecondAnswered(r), AllAnswered(r),
             Store("a", r, 0), Store("b", r, 1), Store("a", r, 2), []);
  }

  /** When requests for one key overlap, the first row can expire after another. */
  lemma OverlapBreaksOrder(r: Response)
    ensures CanRun(Start(0), Overlap(r))
    ensures var rows := Run(Start(0), Overlap(r)).rows;
            |rows| == 2 && rows[0].entry.expiresAt > rows[1].entry.expiresAt
  {
    OverlapLooks(r);
    OverlapStores(r);
    var rows := AllAnswered(r).rows;
    assert rows[0].entry.expiresAt > rows[1].entry.expiresAt;
  }
}
