/** Forgetting idle keys changes no decision exactly when an idle key would be full again anyway. */
module RateLimitLaws {
  import opened Collections
  import opened RateLimit

  datatype Event = Request(key: string, at: real) | Purge(at: real)

  function Step(lim: Limits, maxIdle: real, table: Table, e: Event): Table {
    match e
    case Request(key, at) => AfterAllow(lim, table, key, at)
    case Purge(at) => Purged(table, at, maxIdle)
  }

  function StepWithoutPurge(lim: Limits, table: Table, e: Event): Table {
    match e
    case Request(key, at) => AfterAllow(lim, table, key, at)
    case Purge(_) => table
  }

  function TableAfter(lim: Limits, maxIdle: real, table: Table, events: seq<Event>): Table
    decreases events
  {
    if events == [] then table else TableAfter(lim, maxIdle, Step(lim, maxIdle, table, events[0]), events[1..])
  }

  function DecisionOn(lim: Limits, table: Table, e: Event): seq<bool> {
    if e.Request? then [Allows(lim, table, e.key, e.at)] else []
  }

  /** The answers to the requests, in order, of the limiter as it is. */
  function Decisions(lim: Limits, maxIdle: real, table: Table, events: seq<Event>): seq<bool>
    decreases events
  {
    if events == [] then [] else
    DecisionOn(lim, table, events[0]) + Decisions(lim, maxIdle, Step(lim, maxIdle, table, events[0]), events[1..])
  }

  /** The answers of one that never purges. */
  function PlainDecisions(lim: Limits, table: Table, events: seq<Event>): seq<bool>
    decreases events
  {
    if events == [] then [] else
    DecisionOn(lim, table, events[0]) + PlainDecisions(lim, StepWithoutPurge(lim, table, events[0]), events[1..])
  }

  /** Time does not go backwards, from `from` on. */
  ghost predicate Timely(events: seq<Event>, from: real)
    decreases events
  {
    events != [] ==> events[0].at >= from && Timely(events[1..], events[0].at)
  }

  ghost predicate Transparent(lim: Limits, maxIdle: real) {
    forall events | Timely(events, 0.0) :: Decisions(lim, maxIdle, map[], events) == PlainDecisions(lim, map[], events)
  }

  // ---- enough refill: the two limiters agree ----

  lemma Scaled(r: real, x: real, y: real)
    requires r >= 0.0 && x <= y
    ensures Earned(r, x) <= Earned(r, y)
  {
  }

  lemma Split(r: real, x: real, y: real, z: real)
    ensures Earned(r, y - x) + Earned(r, z - y) == Earned(r, z - x)
  {
  }

  lemma RefillNow(lim: Limits, b: Bucket)
    requires b.tokens <= lim.burst as real
    ensures Refilled(lim, b, b.last) == b.tokens
  {
    NoWait(lim.rps, b.last - b.last);
  }

  lemma NoWait(r: real, x: real)
    requires x == 0.0
    ensures Earned(r, x) == 0.0
  {
  }

  lemma RefillRange(lim: Limits, b: Bucket, now: real)
    requires 0.0 <= b.tokens <= lim.burst as real && b.last <= now && lim.rps >= 0.0
    ensures b.tokens <= Refilled(lim, b, now) <= lim.burst as real
  {
    Scaled(lim.rps, 0.0, now - b.last);
  }

  ghost predicate Sane(lim: Limits, table: Table, now: real) {
    forall key | key in table :: SaneEntry(lim, table[key], now)
  }

  ghost predicate SaneEntry(lim: Limits, e: Entry, now: real) {
    0.0 <= e.bucket.tokens <= lim.burst as real && e.bucket.last == e.lastSeen <= now
  }

  /** `e` would be full by `now`. */
  ghost predicate FullBy(lim: Limits, e: Entry, now: real) {
    e.bucket.tokens + Earned(lim.rps, now - e.bucket.last) >= lim.burst as real
  }

  /** The purging table is the plain one without some entries that are full again. */
  ghost predicate Mirrors(lim: Limits, table: Table, plain: Table, now: real) {
    && Sane(lim, plain, now)
    && (forall key | key in table :: key in plain && plain[key] == table[key])
    && (forall key | key in plain && key !in table :: FullBy(lim, plain[key], now))
  }

  lemma SpendSane(lim: Limits, table: Table, key: string, now: real, at: real)
    requires Sane(lim, table, now) && lim.rps >= 0.0 && now <= at
    ensures SaneEntry(lim, AfterAllow(lim, table, key, at)[key], at)
  {
    if key in table { assert SaneEntry(lim, table[key], now); }
    RefillRange(lim, BucketFor(lim, table, key, at), at);
  }

  /** A forgotten bucket that is full again and a new one serve the same. */
  lemma FullIsNew(lim: Limits, e: Entry, at: real)
    requires FullBy(lim, e, at)
    ensures Refilled(lim, e.bucket, at) == Refilled(lim, FullBucket(lim, at), at) == lim.burst as real
    ensures Spend(lim, e.bucket, at) == Spend(lim, FullBucket(lim, at), at)
  {
    RefillNow(lim, FullBucket(lim, at));
  }

  lemma StaysFull(lim: Limits, e: Entry, now: real, at: real)
    requires FullBy(lim, e, now) && lim.rps >= 0.0 && now <= at
    ensures FullBy(lim, e, at)
  {
    Scaled(lim.rps, now - e.bucket.last, at - e.bucket.last);
  }

  lemma FullAgain(lim: Limits, maxIdle: real, e: Entry, at: real)
    requires SaneEntry(lim, e, at) && at - e.lastSeen > maxIdle
    requires lim.rps >= 0.0 && lim.burst as real <= Earned(lim.rps, maxIdle)
    ensures FullBy(lim, e, at)
  {
    Scaled(lim.rps, maxIdle, at - e.bucket.last);
  }

  lemma MirrorsRequest(lim: Limits, table: Table, plain: Table, now: real, key: string, at: real)
    requires Mirrors(lim, table, plain, now) && now <= at && lim.rps >= 0.0
    ensures Mirrors(lim, AfterAllow(lim, table, key, at), AfterAllow(lim, plain, key, at), at)
    ensures Allows(lim, table, key, at) == Allows(lim, plain, key, at)
  {
    SpendSane(lim, plain, key, now, at);
    if key in plain && key !in table {
      StaysFull(lim, plain[key], now, at);
      FullIsNew(lim, plain[key], at);
    }
    forall k | k in plain && k !in table ensures FullBy(lim, plain[k], at) {
      StaysFull(lim, plain[k], now, at);
    }
  }

  lemma MirrorsPurge(lim: Limits, maxIdle: real, table: Table, plain: Table, now: real, at: real)
    requires Mirrors(lim, table, plain, now) && now <= at
    requires lim.rps >= 0.0 && lim.burst as real <= Earned(lim.rps, maxIdle)
    ensures Mirrors(lim, Purged(table, at, maxIdle), plain, at)
  {
    SaneLater(lim, plain, now, at);
    forall k | k in plain && k !in Purged(table, at, maxIdle) ensures FullBy(lim, plain[k], at) {
      if k in table { FullAgain(lim, maxIdle, plain[k], at); } else { StaysFull(lim, plain[k], now, at); }
    }
  }

  lemma MirrorsStep(lim: Limits, maxIdle: real, table: Table, plain: Table, now: real, e: Event)
    requires Mirrors(lim, table, plain, now) && now <= e.at
    requires lim.rps >= 0.0 && lim.burst as real <= Earned(lim.rps, maxIdle)
    ensures Mirrors(lim, Step(lim, maxIdle, table, e), StepWithoutPurge(lim, plain, e), e.at)
    ensures DecisionOn(lim, table, e) == DecisionOn(lim, plain, e)
  {
    if e.Request? { MirrorsRequest(lim, table, plain, now, e.key, e.at); } else { MirrorsPurge(lim, maxIdle, table, plain, now, e.at); }
  }

  lemma {:induction false} MirrorsRun(lim: Limits, maxIdle: real, table: Table, plain: Table, now: real, events: seq<Event>)
    requires Mirrors(lim, table, plain, now) && Timely(events, now)
    requires lim.rps >= 0.0 && lim.burst as real <= Earned(lim.rps, maxIdle)
    ensures Decisions(lim, maxIdle, table, events) == PlainDecisions(lim, plain, events)
    decreases events
  {
    if events != [] {
      var e := events[0];
      MirrorsStep(lim, maxIdle, table, plain, now, e);
      MirrorsRun(lim, maxIdle, Step(lim, maxIdle, table, e), StepWithoutPurge(lim, plain, e), e.at, events[1..]);
    }
  }

  // ---- too little refill: they differ ----

  function Burst(key: string, n: nat, at: real): seq<Event> {
    seq(n, _ => Request(key, at))
  }

  lemma {:induction false} BurstTimely(key: string, n: nat, at: real, from: real, rest: seq<Event>)
    requires from <= at && Timely(rest, at)
    ensures Timely(Burst(key, n, at) + rest, from)
    decreases n
  {
    if n == 0 {
      assert Burst(key, n, at) + rest == rest;
    } else {
      assert (Burst(key, n, at) + rest)[1..] == Burst(key, n - 1, at) + rest;
      BurstTimely(key, n - 1, at, at, rest);
    }
  }

  ghost function Yes(n: nat): seq<bool> {
    seq(n, _ => true)
  }

  /** The table once `n` requests made at time `at` have been granted. */
  function AfterBurst(lim: Limits, table: Table, key: string, n: nat, at: real): Table {
    if n == 0 then table
    else table[key := Entry(Bucket(Refilled(lim, BucketFor(lim, table, key, at), at) - n as real, at), at)]
  }

  lemma GrantOne(lim: Limits, table: Table, key: string, at: real)
    requires Allows(lim, table, key, at)
    ensures var next := AfterAllow(lim, table, key, at);
            Refilled(lim, BucketFor(lim, next, key, at), at) == Refilled(lim, BucketFor(lim, table, key, at), at) - 1.0
  {
    RefillNow(lim, AfterAllow(lim, table, key, at)[key].bucket);
  }

  lemma AfterBurstStep(lim: Limits, table: Table, key: string, n: nat, at: real)
    requires n > 0 && n as real <= Refilled(lim, BucketFor(lim, table, key, at), at)
    ensures AfterBurst(lim, AfterAllow(lim, table, key, at), key, n - 1, at) == AfterBurst(lim, table, key, n, at)
  {
    GrantOne(lim, table, key, at);
    var next := AfterAllow(lim, table, key, at);
    var end := Entry(Bucket(Refilled(lim, BucketFor(lim, table, key, at), at) - n as real, at), at);
    assert (n - 1) as real == n as real - 1.0;
    assert next[key := end] == table[key := end];
  }

  lemma DecideFirst(lim: Limits, maxIdle: real, table: Table, key: string, n: nat, at: real, rest: seq<Event>)
    requires n > 0 && Allows(lim, table, key, at)
    ensures var next := AfterAllow(lim, table, key, at); var tail := Burst(key, n - 1, at) + rest;
            && Decisions(lim, maxIdle, table, Burst(key, n, at) + rest) == [true] + Decisions(lim, maxIdle, next, tail)
            && PlainDecisions(lim, table, Burst(key, n, at) + rest) == [true] + PlainDecisions(lim, next, tail)
  {
    assert (Burst(key, n, at) + rest)[1..] == Burst(key, n - 1, at) + rest;
  }

  lemma YesMore(n: nat, rest: seq<bool>)
    requires n > 0
    ensures [true] + (Yes(n - 1) + rest) == Yes(n) + rest
  {
  }

  /** A bucket with `t` tokens at time `at` grants `n` requests made then, as long as `n <= t`. */
  lemma {:induction false} BurstGranted(lim: Limits, maxIdle: real, table: Table, key: string, n: nat, at: real, rest: seq<Event>)
    requires n as real <= Refilled(lim, BucketFor(lim, table, key, at), at)
    ensures Decisions(lim, maxIdle, table, Burst(key, n, at) + rest)
         == Yes(n) + Decisions(lim, maxIdle, AfterBurst(lim, table, key, n, at), rest)
    ensures PlainDecisions(lim, table, Burst(key, n, at) + rest)
         == Yes(n) + PlainDecisions(lim, AfterBurst(lim, table, key, n, at), rest)
    decreases n
  {
    if n == 0 {
      assert Burst(key, n, at) + rest == rest;
      assert forall s: seq<bool> :: Yes(0) + s == s;
    } else {
      var next, end := AfterAllow(lim, table, key, at), AfterBurst(lim, table, key, n, at);
      GrantOne(lim, table, key, at);
      DecideFirst(lim, maxIdle, table, key, n, at, rest);
      AfterBurstStep(lim, table, key, n, at);
      BurstGranted(lim, maxIdle, next, key, n - 1, at, rest);
      YesMore(n, Decisions(lim, maxIdle, end, rest));
      YesMore(n, PlainDecisions(lim, end, rest));
    }
  }

  /** Granting all of `n` requests at one time takes `n` tokens. */
  lemma {:induction false} AllGranted(lim: Limits, table: Table, key: string, n: nat, at: real)
    requires PlainDecisions(lim, table, Burst(key, n, at)) == Yes(n)
    ensures n == 0 || n as real <= Refilled(lim, BucketFor(lim, table, key, at), at)
    decreases n
  {
    if n > 0 {
      assert Burst(key, n, at)[1..] == Burst(key, n - 1, at);
      var next := AfterAllow(lim, table, key, at);
      FirstAndRest(Allows(lim, table, key, at), PlainDecisions(lim, next, Burst(key, n - 1, at)), n);
      AllGranted(lim, next, key, n - 1, at);
      GrantOne(lim, table, key, at);
    }
  }

  lemma FirstAndRest(first: bool, rest: seq<bool>, n: nat)
    requires n > 0 && [first] + rest == Yes(n)
    ensures first && rest == Yes(n - 1)
  {
    assert ([first] + rest)[0] == Yes(n)[0];
    assert rest == ([first] + rest)[1..] == Yes(n)[1..];
  }

  /** A wait longer than `maxIdle` that refills less than a burst. */
  lemma ShortWait(lim: Limits, maxIdle: real) returns (wait: real)
    requires lim.rps >= 0.0 && maxIdle >= 0.0 && lim.burst as real > Earned(lim.rps, maxIdle)
    ensures wait > maxIdle && Earned(lim.rps, wait) < lim.burst as real
  {
    if lim.rps == 0.0 {
      wait := maxIdle + 1.0;
    } else {
      var slack := (lim.burst as real - lim.rps * maxIdle) / 2.0;
      wait := maxIdle + slack / lim.rps;
      assert lim.rps * (slack / lim.rps) == slack;
      assert lim.rps * wait == lim.rps * maxIdle + slack;
    }
  }

  /** Emptied, forgotten too early, and emptied again. */
  lemma ForgottenTooEarly(lim: Limits, maxIdle: real)
    requires lim.rps >= 0.0 && maxIdle >= 0.0 && lim.burst as real > Earned(lim.rps, maxIdle)
    ensures !Transparent(lim, maxIdle)
  {
    var n, key := lim.burst, "client";
    var wait := ShortWait(lim, maxIdle);
    var again := Burst(key, n, wait);
    var later := [Purge(wait)] + again;
    var events := Burst(key, n, 0.0) + later;
    BurstTimely(key, n, wait, wait, []);
    assert again + [] == again && later[1..] == again;
    BurstTimely(key, n, 0.0, 0.0, later);
    RefillNow(lim, FullBucket(lim, 0.0));
    var drained := AfterBurst(lim, map[], key, n, 0.0);
    BurstGranted(lim, maxIdle, map[], key, n, 0.0, later);
    assert Purged(drained, wait, maxIdle) == map[];
    RefillNow(lim, FullBucket(lim, wait));
    BurstGranted(lim, maxIdle, map[], key, n, wait, []);
    assert Decisions(lim, maxIdle, map[], again) == Yes(n);
    SecondBurstCut(lim, drained[key], n, wait);
    assert PlainDecisions(lim, drained, later) == PlainDecisions(lim, drained, again);
    SameTail(Yes(n), Decisions(lim, maxIdle, drained, later), PlainDecisions(lim, drained, later));
    assert Timely(events, 0.0);
  }

  lemma SameTail<T>(a: seq<T>, b: seq<T>, c: seq<T>)
    ensures a + b == a + c ==> b == c
  {
    assert (a + b)[|a|..] == b && (a + c)[|a|..] == c;
  }

  lemma SecondBurstCut(lim: Limits, e: Entry, n: nat, wait: real)
    requires e == Entry(Bucket(0.0, 0.0), 0.0) && n > 0 && Earned(lim.rps, wait) < n as real
    ensures PlainDecisions(lim, map["client" := e], Burst("client", n, wait)) != Yes(n)
  {
    var table: Table := map["client" := e];
    assert Refilled(lim, e.bucket, wait) <= Earned(lim.rps, wait);
    if PlainDecisions(lim, table, Burst("client", n, wait)) == Yes(n) {
      AllGranted(lim, table, "client", n, wait);
    }
  }

  /** The cleanup is invisible exactly when a burst refills within the idle time. */
  lemma PurgeTransparentIff(lim: Limits, maxIdle: real)
    requires lim.rps >= 0.0 && maxIdle >= 0.0
    ensures Transparent(lim, maxIdle) <==> lim.burst as real <= lim.rps * maxIdle
  {
    if lim.burst as real <= Earned(lim.rps, maxIdle) {
      forall events | Timely(events, 0.0)
        ensures Decisions(lim, maxIdle, map[], events) == PlainDecisions(lim, map[], events)
      {
        MirrorsRun(lim, maxIdle, map[], map[], 0.0, events);
      }
    } else {
      ForgottenTooEarly(lim, maxIdle);
    }
  }

  // ---- how much gets through ----

  /** Requests of one client let through by the limiter as it is. */
  function Admitted(lim: Limits, maxIdle: real, table: Table, events: seq<Event>, key: string): nat
    decreases events
  {
    if events == [] then 0 else
    Cost(lim, table, events[0], key)
    + Admitted(lim, maxIdle, Step(lim, maxIdle, table, events[0]), events[1..], key)
  }

  ghost predicate AllBy(events: seq<Event>, to: real) {
    forall e | e in events :: e.at <= to
  }

  /** What a client could spend at once. */
  function Available(lim: Limits, plain: Table, key: string, now: real): real {
    if key in plain then Refilled(lim, plain[key].bucket, now) else lim.burst as real
  }

  lemma AvailableGrows(lim: Limits, plain: Table, key: string, now: real, at: real)
    requires lim.rps >= 0.0 && now <= at
    ensures Available(lim, plain, key, at) <= Available(lim, plain, key, now) + Earned(lim.rps, at - now)
  {
    Scaled(lim.rps, 0.0, at - now);
    if key in plain { Split(lim.rps, plain[key].bucket.last, now, at); }
  }

  function Cost(lim: Limits, plain: Table, e: Event, key: string): nat {
    if e.Request? && e.key == key && Allows(lim, plain, key, e.at) then 1 else 0
  }

  lemma AvailableSpent(lim: Limits, plain: Table, e: Event, key: string)
    requires Sane(lim, plain, e.at) && lim.rps >= 0.0
    ensures Available(lim, StepWithoutPurge(lim, plain, e), key, e.at) + Cost(lim, plain, e, key) as real
            <= Available(lim, plain, key, e.at)
  {
    if e.Request? && e.key == key {
      RefillNow(lim, FullBucket(lim, e.at));
      RefillNow(lim, AfterAllow(lim, plain, key, e.at)[key].bucket);
    }
  }

  lemma SaneLater(lim: Limits, table: Table, now: real, at: real)
    requires Sane(lim, table, now) && now <= at
    ensures Sane(lim, table, at)
  {
  }

  lemma {:induction false} AdmittedBound(lim: Limits, maxIdle: real, table: Table, plain: Table, now: real,
                                         events: seq<Event>, to: real, key: string)
    requires Mirrors(lim, table, plain, now) && Timely(events, now) && AllBy(events, to) && now <= to
    requires lim.rps >= 0.0 && lim.burst as real <= Earned(lim.rps, maxIdle)
    ensures Admitted(lim, maxIdle, table, events, key) as real
            <= Available(lim, plain, key, now) + Earned(lim.rps, to - now)
    decreases events
  {
    if events == [] {
      Scaled(lim.rps, 0.0, to - now);
      if key in plain { RefillRange(lim, plain[key].bucket, now); }
    } else {
      var e := events[0];
      assert e in events;
      MirrorsStep(lim, maxIdle, table, plain, now, e);
      SameCost(lim, table, plain, e, key);
      var plain' := StepWithoutPurge(lim, plain, e);
      AdmittedBound(lim, maxIdle, Step(lim, maxIdle, table, e), plain', e.at, events[1..], to, key);
      SpendOne(lim, plain, now, e, to, key);
    }
  }

  lemma SameCost(lim: Limits, table: Table, plain: Table, e: Event, key: string)
    requires DecisionOn(lim, table, e) == DecisionOn(lim, plain, e)
    ensures Cost(lim, table, e, key) == Cost(lim, plain, e, key)
  {
    if e.Request? { assert [Allows(lim, table, e.key, e.at)][0] == [Allows(lim, plain, e.key, e.at)][0]; }
  }

  lemma SpendOne(lim: Limits, plain: Table, now: real, e: Event, to: real, key: string)
    requires Sane(lim, plain, now) && now <= e.at <= to && lim.rps >= 0.0
    ensures Cost(lim, plain, e, key) as real + Available(lim, StepWithoutPurge(lim, plain, e), key, e.at) + Earned(lim.rps, to - e.at)
            <= Available(lim, plain, key, now) + Earned(lim.rps, to - now)
  {
    SaneLater(lim, plain, now, e.at);
    AvailableGrows(lim, plain, key, now, e.at);
    AvailableSpent(lim, plain, e, key);
    Split(lim.rps, now, e.at, to);
  }

  lemma {:induction false} MirrorsAfter(lim: Limits, maxIdle: real, table: Table, plain: Table, now: real, events: seq<Event>)
    returns (plain': Table)
    requires Mirrors(lim, table, plain, now) && Timely(events, now)
    requires lim.rps >= 0.0 && lim.burst as real <= Earned(lim.rps, maxIdle)
    ensures Mirrors(lim, TableAfter(lim, maxIdle, table, events), plain', if events == [] then now else events[|events| - 1].at)
    decreases events
  {
    if events == [] {
      plain' := plain;
    } else {
      var e := events[0];
      MirrorsStep(lim, maxIdle, table, plain, now, e);
      plain' := MirrorsAfter(lim, maxIdle, Step(lim, maxIdle, table, e), StepWithoutPurge(lim, plain, e), e.at, events[1..]);
    }
  }

  function LastTime(events: seq<Event>): real {
    if events == [] then 0.0 else events[|events| - 1].at
  }

  /** Whatever came before, and however often the cleanup ran: between `from` and `to` a client gets at
      most a burst and what refills in that time. */
  lemma RateBound(lim: Limits, maxIdle: real, before: seq<Event>, during: seq<Event>, from: real, to: real, key: string)
    requires lim.rps >= 0.0 && lim.burst as real <= Earned(lim.rps, maxIdle)
    requires Timely(before, 0.0) && LastTime(before) <= from
    requires Timely(during, from) && AllBy(during, to) && from <= to
    ensures Admitted(lim, maxIdle, TableAfter(lim, maxIdle, map[], before), during, key) as real
            <= lim.burst as real + Earned(lim.rps, to - from)
  {
    var plain := MirrorsAfter(lim, maxIdle, map[], map[], 0.0, before);
    var table := TableAfter(lim, maxIdle, map[], before);
    MirrorsWait(lim, table, plain, LastTime(before), from);
    AdmittedBound(lim, maxIdle, table, plain, from, during, to, key);
  }

  lemma MirrorsWait(lim: Limits, table: Table, plain: Table, now: real, at: real)
    requires Mirrors(lim, table, plain, now) && now <= at && lim.rps >= 0.0
    ensures Mirrors(lim, table, plain, at)
  {
    forall k | k in plain && k !in table ensures FullBy(lim, plain[k], at) { StaysFull(lim, plain[k], now, at); }
    SaneLater(lim, plain, now, at);
  }

  // ---- the bound, exactly ----

  /** In every stretch of every run each client gets at most a burst and what refills in that time. */
  ghost predicate RateBounded(lim: Limits, maxIdle: real) {
    forall before, during, from: real, to: real, key |
      && Timely(before, 0.0) && LastTime(before) <= from <= to
      && Timely(during, from) && AllBy(during, to) ::
      Admitted(lim, maxIdle, TableAfter(lim, maxIdle, map[], before), during, key) as real
      <= lim.burst as real + Earned(lim.rps, to - from)
  }

  function Trues(bs: seq<bool>): nat {
    if bs == [] then 0 else (if bs[0] then 1 else 0) + Trues(bs[1..])
  }

  lemma {:induction false} TruesSplit(a: seq<bool>, b: seq<bool>)
    ensures Trues(a + b) == Trues(a) + Trues(b)
  {
    if a == [] {
      assert a + b == b;
    } else {
      assert (a + b)[1..] == a[1..] + b;
      TruesSplit(a[1..], b);
    }
  }

  lemma {:induction false} TruesOfYes(n: nat)
    ensures Trues(Yes(n)) == n
    decreases n
  {
    if n > 0 {
      assert Yes(n)[1..] == Yes(n - 1);
      TruesOfYes(n - 1);
    }
  }

  ghost predicate OnlyKey(events: seq<Event>, key: string)
    decreases events
  {
    events != [] ==> (events[0].Request? ==> events[0].key == key) && OnlyKey(events[1..], key)
  }

  lemma {:induction false} AdmittedCounts(lim: Limits, maxIdle: real, table: Table, events: seq<Event>, key: string)
    requires OnlyKey(events, key)
    ensures Admitted(lim, maxIdle, table, events, key) == Trues(Decisions(lim, maxIdle, table, events))
    decreases events
  {
    if events != [] {
      var next := Step(lim, maxIdle, table, events[0]);
      AdmittedCounts(lim, maxIdle, next, events[1..], key);
      TruesSplit(DecisionOn(lim, table, events[0]), Decisions(lim, maxIdle, next, events[1..]));
    }
  }

  lemma {:induction false} BurstOnlyKey(key: string, n: nat, at: real, rest: seq<Event>)
    requires OnlyKey(rest, key)
    ensures OnlyKey(Burst(key, n, at) + rest, key)
    decreases n
  {
    if n == 0 {
      assert Burst(key, n, at) + rest == rest;
    } else {
      assert (Burst(key, n, at) + rest)[1..] == Burst(key, n - 1, at) + rest;
      BurstOnlyKey(key, n - 1, at, rest);
    }
  }

  /** A burst, a purge that forgets it, and a burst again. */
  function TwoBursts(key: string, n: nat, wait: real): seq<Event> {
    Burst(key, n, 0.0) + ([Purge(wait)] + (Burst(key, n, wait) + []))
  }

  lemma TwoBurstsGranted(lim: Limits, maxIdle: real, key: string, wait: real)
    requires wait > maxIdle
    ensures Decisions(lim, maxIdle, map[], TwoBursts(key, lim.burst, wait)) == Yes(lim.burst) + (Yes(lim.burst) + [])
  {
    var n := lim.burst;
    var again := Burst(key, n, wait) + [];
    var later := [Purge(wait)] + again;
    var drained := AfterBurst(lim, map[], key, n, 0.0);
    RefillNow(lim, FullBucket(lim, 0.0));
    BurstGranted(lim, maxIdle, map[], key, n, 0.0, later);
    assert later[1..] == again && Purged(drained, wait, maxIdle) == map[];
    RefillNow(lim, FullBucket(lim, wait));
    BurstGranted(lim, maxIdle, map[], key, n, wait, []);
    assert Decisions(lim, maxIdle, drained, later) == Decisions(lim, maxIdle, map[], again);
  }

  lemma TwoBurstsTimely(key: string, n: nat, wait: real)
    requires wait >= 0.0
    ensures Timely(TwoBursts(key, n, wait), 0.0) && AllBy(TwoBursts(key, n, wait), wait) && OnlyKey(TwoBursts(key, n, wait), key)
  {
    var again := Burst(key, n, wait) + [];
    var later := [Purge(wait)] + again;
    assert later[1..] == again;
    BurstTimely(key, n, wait, wait, []);
    BurstTimely(key, n, 0.0, 0.0, later);
    BurstOnlyKey(key, n, wait, []);
    BurstOnlyKey(key, n, 0.0, later);
  }

  lemma ForgettingExceeds(lim: Limits, maxIdle: real)
    requires lim.rps >= 0.0 && maxIdle >= 0.0 && lim.burst as real > Earned(lim.rps, maxIdle)
    ensures !RateBounded(lim, maxIdle)
  {
    var n, key := lim.burst, "client";
    var wait := ShortWait(lim, maxIdle);
    var events := TwoBursts(key, n, wait);
    TwoBurstsTimely(key, n, wait);
    TwoBurstsGranted(lim, maxIdle, key, wait);
    AdmittedCounts(lim, maxIdle, map[], events, key);
    TruesSplit(Yes(n), Yes(n) + []);
    TruesSplit(Yes(n), []);
    TruesOfYes(n);
    assert Admitted(lim, maxIdle, map[], events, key) == n + n;
    assert TableAfter(lim, maxIdle, map[], []) == map[];
    assert Earned(lim.rps, wait - 0.0) == Earned(lim.rps, wait);
    assert Timely([], 0.0) && LastTime([]) <= 0.0 <= wait;
  }

  /** Requests are held to a burst and the refill exactly when a burst refills within the idle time. */
  lemma RateBoundIff(lim: Limits, maxIdle: real)
    requires lim.rps >= 0.0 && maxIdle >= 0.0
    ensures RateBounded(lim, maxIdle) <==> lim.burst as real <= lim.rps * maxIdle
  {
    if lim.burst as real <= Earned(lim.rps, maxIdle) {
      forall before, during, from: real, to: real, key |
        && Timely(before, 0.0) && LastTime(before) <= from <= to
        && Timely(during, from) && AllBy(during, to)
        ensures Admitted(lim, maxIdle, TableAfter(lim, maxIdle, map[], before), during, key) as real
             <= lim.burst as real + Earned(lim.rps, to - from)
      {
        RateBound(lim, maxIdle, before, during, from, to, key);
      }
    } else {
      ForgettingExceeds(lim, maxIdle);
    }
  }

  // ---- every decision, exactly ----

  function TimeIfAdmitted(lim: Limits, table: Table, e: Event, key: string): seq<real> {
    if Cost(lim, table, e, key) > 0 then [e.at] else []
  }

  /** When the requests of a key were let through, in order. */
  function AdmittedTimes(lim: Limits, maxIdle: real, table: Table, events: seq<Event>, key: string): seq<real>
    decreases events
  {
    if events == [] then []
    else
      TimeIfAdmitted(lim, table, events[0], key)
      + AdmittedTimes(lim, maxIdle, Step(lim, maxIdle, table, events[0]), events[1..], key)
  }

  function CountFrom(times: seq<real>, from: real): nat {
    if times == [] then 0
    else CountFrom(times[..|times| - 1], from) + if times[|times| - 1] >= from then 1 else 0
  }

  /** With one more at `at`, the requests let through since `from` keep within a burst and the refill. */
  ghost predicate Fits(lim: Limits, times: seq<real>, from: real, at: real) {
    CountFrom(times, from) as real + 1.0 <= lim.burst as real + Earned(lim.rps, at - from)
  }

  ghost predicate FitsAlways(lim: Limits, times: seq<real>, at: real) {
    forall from: real | from <= at :: Fits(lim, times, from, at)
  }

  /** What is left at `at` to a bucket that was full, from which these requests took one each. */
  function Level(lim: Limits, times: seq<real>, at: real): real {
    if times == [] then lim.burst as real
    else
      var last := times[|times| - 1];
      Capped(lim, Level(lim, times[..|times| - 1], last) - 1.0 + Earned(lim.rps, at - last))
  }

  function Capped(lim: Limits, tokens: real): real {
    if tokens < lim.burst as real then tokens else lim.burst as real
  }

  ghost predicate Rising(times: seq<real>, to: real)
    decreases times
  {
    times != [] ==> times[|times| - 1] <= to && Rising(times[..|times| - 1], times[|times| - 1])
  }

  lemma {:induction false} NoneLater(times: seq<real>, to: real, from: real)
    requires Rising(times, to) && from > to
    ensures CountFrom(times, from) == 0
  {
    if times != [] {
      NoneLater(times[..|times| - 1], times[|times| - 1], from);
    }
  }

  /** At least `y` is left exactly when `y` and what was taken since any time fit a burst and the refill. */
  ghost predicate Leaves(lim: Limits, times: seq<real>, at: real, y: real) {
    forall from: real | from <= at :: Within(lim, times, from, at, y)
  }

  ghost predicate Within(lim: Limits, times: seq<real>, from: real, at: real, y: real) {
    y + CountFrom(times, from) as real <= lim.burst as real + Earned(lim.rps, at - from)
  }

  lemma LeavesNone(lim: Limits, at: real, y: real)
    requires lim.rps >= 0.0
    ensures Leaves(lim, [], at, y) <==> y <= lim.burst as real
  {
    NoWait(lim.rps, at - at);
    assert Leaves(lim, [], at, y) ==> Within(lim, [], at, at, y);
    forall from: real | from <= at && y <= lim.burst as real ensures Within(lim, [], from, at, y) {
      Scaled(lim.rps, 0.0, at - from);
    }
  }

  /** From a time up to the last one taken, one later look asks the same as an earlier one of the others. */
  lemma WithinBefore(lim: Limits, times: seq<real>, from: real, at: real, y: real)
    requires times != [] && from <= times[|times| - 1]
    ensures var last := times[|times| - 1];
            Within(lim, times, from, at, y)
            <==> Within(lim, times[..|times| - 1], from, last, y + 1.0 - Earned(lim.rps, at - last))
  {
    Split(lim.rps, from, times[|times| - 1], at);
  }

  lemma WithinAfter(lim: Limits, times: seq<real>, from: real, at: real, y: real)
    requires times != [] && Rising(times, at) && times[|times| - 1] < from <= at && lim.rps >= 0.0
    ensures CountFrom(times, from) == 0
    ensures y <= lim.burst as real ==> Within(lim, times, from, at, y)
  {
    NoneLater(times[..|times| - 1], times[|times| - 1], from);
    Scaled(lim.rps, 0.0, at - from);
  }

  /** The most that any look allows is at most a burst, whatever was taken at `at` itself. */
  lemma LeavesAtMostBurst(lim: Limits, times: seq<real>, at: real, y: real)
    requires Leaves(lim, times, at, y)
    ensures y <= lim.burst as real
  {
    NoWait(lim.rps, at - at);
    assert Within(lim, times, at, at, y);
  }

  lemma LeavesStep(lim: Limits, times: seq<real>, at: real, y: real)
    requires times != [] && Rising(times, at) && lim.rps >= 0.0
    ensures var last := times[|times| - 1];
            Leaves(lim, times, at, y)
            <==> y <= lim.burst as real && Leaves(lim, times[..|times| - 1], last, y + 1.0 - Earned(lim.rps, at - last))
  {
    var last, before := times[|times| - 1], times[..|times| - 1];
    var z := y + 1.0 - Earned(lim.rps, at - last);
    if Leaves(lim, times, at, y) {
      LeavesAtMostBurst(lim, times, at, y);
      forall from: real | from <= last ensures Within(lim, before, from, last, z) {
        WithinBefore(lim, times, from, at, y);
        assert Within(lim, times, from, at, y);
      }
    }
    if y <= lim.burst as real && Leaves(lim, before, last, z) {
      forall from: real | from <= at ensures Within(lim, times, from, at, y) {
        if from <= last {
          assert Within(lim, before, from, last, z);
          WithinBefore(lim, times, from, at, y);
        } else {
          WithinAfter(lim, times, from, at, y);
        }
      }
    }
  }

  lemma {:induction false} LevelIs(lim: Limits, times: seq<real>, at: real, y: real)
    requires Rising(times, at) && lim.rps >= 0.0
    ensures y <= Level(lim, times, at) <==> Leaves(lim, times, at, y)
    decreases times
  {
    if times == [] {
      LeavesNone(lim, at, y);
    } else {
      var last := times[|times| - 1];
      LevelIs(lim, times[..|times| - 1], last, y + 1.0 - Earned(lim.rps, at - last));
      LeavesStep(lim, times, at, y);
    }
  }

  // the bucket holds just that

  /** From `now` on, a client can spend what its requests let through have left. */
  ghost predicate HoldsLevel(lim: Limits, plain: Table, key: string, times: seq<real>, now: real) {
    forall at: real | at >= now :: Available(lim, plain, key, at) == Level(lim, times, at)
  }

  lemma LevelOneMore(lim: Limits, times: seq<real>, now: real, at: real)
    ensures Level(lim, times + [now], at) == Capped(lim, Level(lim, times, now) - 1.0 + Earned(lim.rps, at - now))
  {
    assert (times + [now])[..|times|] == times;
  }

  /** Looking at a bucket and taking nothing does not change what it holds later. */
  lemma RefusedCostsNothing(lim: Limits, b: Bucket, now: real, at: real)
    requires b.last <= now <= at && lim.rps >= 0.0
    ensures Capped(lim, Refilled(lim, b, now) + Earned(lim.rps, at - now)) == Refilled(lim, b, at)
  {
    Split(lim.rps, b.last, now, at);
    Scaled(lim.rps, 0.0, at - now);
  }

  lemma AskedLater(lim: Limits, plain: Table, key: string, now: real, at: real)
    requires Sane(lim, plain, now) && now <= at && lim.rps >= 0.0
    ensures var left := if Allows(lim, plain, key, now) then 1.0 else 0.0;
            Available(lim, AfterAllow(lim, plain, key, now), key, at)
            == Capped(lim, Available(lim, plain, key, now) - left + Earned(lim.rps, at - now))
  {
    RefillNow(lim, FullBucket(lim, now));
  }

  lemma RequestHolds(lim: Limits, plain: Table, key: string, times: seq<real>, now: real, at: real)
    requires Sane(lim, plain, now) && HoldsLevel(lim, plain, key, times, now) && now <= at && lim.rps >= 0.0
    ensures HoldsLevel(lim, AfterAllow(lim, plain, key, at), key, if Allows(lim, plain, key, at) then times + [at] else times, at)
  {
    var next := AfterAllow(lim, plain, key, at);
    SaneLater(lim, plain, now, at);
    forall later: real | later >= at
      ensures Available(lim, next, key, later) == Level(lim, if Allows(lim, plain, key, at) then times + [at] else times, later)
    {
      AskedLater(lim, plain, key, at, later);
      LevelOneMore(lim, times, at, later);
      if !Allows(lim, plain, key, at) {
        if key in plain {
          RefusedCostsNothing(lim, plain[key].bucket, at, later);
        } else {
          Scaled(lim.rps, 0.0, later - at);
        }
        assert Available(lim, plain, key, later) == Level(lim, times, later);
      }
    }
  }

  lemma EventHolds(lim: Limits, plain: Table, key: string, times: seq<real>, now: real, e: Event)
    requires Sane(lim, plain, now) && HoldsLevel(lim, plain, key, times, now) && now <= e.at && lim.rps >= 0.0
    ensures HoldsLevel(lim, StepWithoutPurge(lim, plain, e), key,
                       times + TimeIfAdmitted(lim, plain, e, key), e.at)
  {
    assert times + [] == times;
    if e.Request? && e.key == key {
      RequestHolds(lim, plain, key, times, now, e.at);
    } else {
      forall at: real | at >= e.at
        ensures Available(lim, StepWithoutPurge(lim, plain, e), key, at) == Level(lim, times, at)
      {
        assert Available(lim, plain, key, at) == Level(lim, times, at);
      }
    }
  }

  lemma RisingOneMore(times: seq<real>, to: real, at: real)
    requires Rising(times, to) && to <= at
    ensures Rising(times + [at], at) && Rising(times, at)
  {
    assert (times + [at])[..|times|] == times;
    if times != [] { assert times[|times| - 1] <= at; }
  }

  /** The limiter as it is, one that never purges, and the times of a key's requests let through so far. */
  ghost predicate Accounts(lim: Limits, table: Table, plain: Table, key: string, times: seq<real>, now: real) {
    Mirrors(lim, table, plain, now) && HoldsLevel(lim, plain, key, times, now) && Rising(times, now)
  }

  lemma EventAccounts(lim: Limits, maxIdle: real, table: Table, plain: Table, key: string, times: seq<real>, now: real, e: Event)
    requires Accounts(lim, table, plain, key, times, now) && now <= e.at
    requires lim.rps >= 0.0 && lim.burst as real <= Earned(lim.rps, maxIdle)
    ensures Accounts(lim, Step(lim, maxIdle, table, e), StepWithoutPurge(lim, plain, e), key,
                     times + TimeIfAdmitted(lim, table, e, key), e.at)
  {
    MirrorsStep(lim, maxIdle, table, plain, now, e);
    SameCost(lim, table, plain, e, key);
    EventHolds(lim, plain, key, times, now, e);
    RisingOneMore(times, now, e.at);
    assert times + [] == times;
  }

  lemma {:induction false} RunAccounts(lim: Limits, maxIdle: real, table: Table, plain: Table, key: string, times: seq<real>,
                                       now: real, events: seq<Event>)
    returns (plain': Table)
    requires Accounts(lim, table, plain, key, times, now) && Timely(events, now)
    requires lim.rps >= 0.0 && lim.burst as real <= Earned(lim.rps, maxIdle)
    ensures Accounts(lim, TableAfter(lim, maxIdle, table, events), plain', key,
                     times + AdmittedTimes(lim, maxIdle, table, events, key),
                     if events == [] then now else events[|events| - 1].at)
    decreases events
  {
    if events == [] {
      plain' := plain;
      assert times + [] == times;
    } else {
      var e := events[0];
      var taken, next := TimeIfAdmitted(lim, table, e, key), Step(lim, maxIdle, table, e);
      EventAccounts(lim, maxIdle, table, plain, key, times, now, e);
      plain' := RunAccounts(lim, maxIdle, next, StepWithoutPurge(lim, plain, e), key, times + taken, e.at, events[1..]);
      Associative(times, taken, AdmittedTimes(lim, maxIdle, next, events[1..], key));
    }
  }

  lemma AllowsByLevel(lim: Limits, table: Table, plain: Table, key: string, times: seq<real>, now: real, at: real)
    requires Accounts(lim, table, plain, key, times, now) && now <= at && lim.rps >= 0.0
    ensures Allows(lim, table, key, at) <==> Level(lim, times, at) >= 1.0
  {
    MirrorsRequest(lim, table, plain, now, key, at);
    RefillNow(lim, FullBucket(lim, at));
    assert Available(lim, plain, key, at) == Level(lim, times, at);
  }

  lemma {:induction false} RisesLater(times: seq<real>, now: real, at: real)
    requires Rising(times, now) && now <= at
    ensures Rising(times, at)
  {
  }

  /** Every decision of the limiter: a request is let through exactly when, with it, the requests let through since
      any time, however long ago or just now, are at most a burst and what refills since then. */
  lemma AllowsIff(lim: Limits, maxIdle: real, events: seq<Event>, key: string, at: real)
    requires lim.rps >= 0.0 && lim.burst as real <= Earned(lim.rps, maxIdle)
    requires Timely(events, 0.0) && 0.0 <= LastTime(events) <= at
    ensures Allows(lim, TableAfter(lim, maxIdle, map[], events), key, at)
            <==> FitsAlways(lim, AdmittedTimes(lim, maxIdle, map[], events, key), at)
  {
    var times := AdmittedTimes(lim, maxIdle, map[], events, key);
    var plain := RunAccounts(lim, maxIdle, map[], map[], key, [], 0.0, events);
    assert [] + times == times;
    AllowsByLevel(lim, TableAfter(lim, maxIdle, map[], events), plain, key, times, LastTime(events), at);
    RisesLater(times, LastTime(events), at);
    LevelIs(lim, times, at, 1.0);
    forall from: real | from <= at ensures Fits(lim, times, from, at) <==> Within(lim, times, from, at, 1.0) { }
  }
}
