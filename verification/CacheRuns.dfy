/** What the cache guarantees over whole runs of calls. */
module CacheRuns {
  import opened Collections
  import opened Tracks
  import opened RecencyWindow

  datatype CacheOp = Get(sourceId: string) | Touch(track: Track, inUse: set<int>)

  function Apply(w: seq<Track>, op: CacheOp): seq<Track> {
    match op
    case Get(sourceId) => GetWindow(w, sourceId)
    case Touch(track, inUse) => TouchWindow(w, track, inUse)
  }

  function Run(w: seq<Track>, ops: seq<CacheOp>): seq<Track>
    decreases ops
  {
    if ops == [] then w else Run(Apply(w, ops[0]), ops[1..])
  }

  /** The one-to-one naming of tracks by source id, as far as a run needs it. */
  ghost predicate OpNamed(op: CacheOp, idOf: string -> int) {
    op.Touch? ==> op.track.id == idOf(op.track.sourceId)
  }

  ghost function OpId(op: CacheOp, idOf: string -> int): int {
    match op
    case Get(sourceId) => idOf(sourceId)
    case Touch(track, _) => track.id
  }

  // ---- a track just used survives ----

  /** A run that starts with track `id` at the front, names at most `k` other tracks, and never has more
      than `p` tracks in use. */
  ghost predicate QuietRun(w: seq<Track>, ops: seq<CacheOp>, id: int, others: set<int>,
                           idOf: string -> int, k: nat, p: nat) {
    && DistinctIds(w) && (forall t | t in w :: t.id == idOf(t.sourceId))
    && |w| > 0 && w[0].id == id
    && |others| <= k
    && OpsWithin(ops, id, others, idOf, p)
  }

  ghost predicate OpsWithin(ops: seq<CacheOp>, id: int, others: set<int>, idOf: string -> int, p: nat) {
    forall op | op in ops ::
      && OpNamed(op, idOf)
      && (OpId(op, idOf) == id || OpId(op, idOf) in others)
      && (op.Touch? ==> |op.inUse| <= p)
  }

  /** Track `id` sits at some index with only tracks of `others` in front of it. */
  ghost predicate Shielded(w: seq<Track>, id: int, others: set<int>, at: nat) {
    at < |w| && w[at].id == id && IdSet(w[..at]) <= others
  }

  lemma {:induction false} UnpinnedAtLeast(w: seq<Track>, pinned: set<int>)
    requires DistinctIds(w)
    ensures UnpinnedCount(w, pinned) >= |w| - |pinned|
  {
    PinnedOnlyDistinct(w, pinned);
    PinnedOnlyMembers(w, pinned);
    PinnedOrNot(w, pinned);
    DistinctCount(PinnedOnly(w, pinned));
    SubsetCount(IdSet(PinnedOnly(w, pinned)), pinned);
  }

  lemma {:induction false} PinnedOrNot(w: seq<Track>, pinned: set<int>)
    ensures UnpinnedCount(w, pinned) + |PinnedOnly(w, pinned)| == |w|
  {
    if w != [] { PinnedOrNot(w[..|w| - 1], pinned); }
  }

  /** Evicting no more than the unpinned tracks behind position `at` leaves everything up to `at` alone. */
  lemma {:induction false} CutBehind(w: seq<Track>, pinned: set<int>, n: nat, at: nat)
    requires at < |w| && n <= UnpinnedCount(w[at + 1..], pinned)
    ensures Cut(w, pinned, n) > at && n <= UnpinnedCount(w, pinned)
  {
    if at == |w| - 1 {
    } else if n > 0 {
      var init := w[..|w| - 1];
      assert w[at + 1..][..|w[at + 1..]| - 1] == init[at + 1..];
      CutBehind(init, pinned, if w[|w| - 1].id in pinned then n else n - 1, at);
    }
  }

  lemma ShieldedEvict(w: seq<Track>, pinned: set<int>, id: int, others: set<int>, at: nat)
    requires DistinctIds(w) && Shielded(w, id, others, at)
    requires |pinned| + |others| < CACHE_WINDOW
    ensures Shielded(Evict(w, pinned), id, others, at)
  {
    var n := EvictionCount(w, pinned);
    DistinctCount(w[..at]);
    SubsetCount(IdSet(w[..at]), others);
    UnpinnedAtLeast(w[at + 1..], pinned);
    CutBehind(w, pinned, n, at);
    CutSplits(w, pinned, n);
    var c, r := Cut(w, pinned, n), Evict(w, pinned);
    assert w[..c] <= r;
    assert w[..at] == r[..at] && w[at] == w[..c][at] == r[at];
  }

  lemma ShieldedPromote(w: seq<Track>, t: Track, id: int, others: set<int>, at: nat) returns (at': nat)
    requires DistinctIds(w) && Shielded(w, id, others, at)
    requires t.id == id || t.id in others
    ensures Shielded(Promote(w, t), id, others, at')
  {
    if t.id == id {
      at' := 0;
      assert Promote(w, t)[..0] == [];
    } else if t.id in IdSet(w) {
      var u :| u in w && u.id == t.id;
      var i :| 0 <= i < |w| && w[i] == u;
      WithoutIsRemoveAt(w, i);
      at' := ShieldedMove(w, t, id, others, at, i);
    } else {
      WithoutAbsent(w, t.id);
      at' := at + 1;
      ShieldedBehind(w, t, id, others, at);
    }
  }

  lemma ShieldedBehind(w: seq<Track>, t: Track, id: int, others: set<int>, at: nat)
    requires Shielded(w, id, others, at) && t.id in others
    ensures Shielded([t] + w, id, others, at + 1)
  {
    assert ([t] + w)[..at + 1] == [t] + w[..at];
  }

  lemma ShieldedMove(w: seq<Track>, t: Track, id: int, others: set<int>, at: nat, i: nat) returns (at': nat)
    requires Shielded(w, id, others, at)
    requires t.id in others && i < |w| && i != at
    ensures Shielded([t] + RemoveAt(w, i), id, others, at')
  {
    var q := [t] + RemoveAt(w, i);
    if i < at {
      at' := at;
      assert q[..at] == [t] + (w[..at][..i] + w[..at][i + 1..]);
      assert forall x | x in q[..at] :: x == t || x in w[..at];
    } else {
      at' := at + 1;
      assert q[..at + 1] == [t] + w[..at];
    }
  }

  lemma ShieldedStep(w: seq<Track>, op: CacheOp, id: int, others: set<int>, idOf: string -> int, p: nat, at: nat)
    returns (at': nat)
    requires DistinctIds(w) && (forall t | t in w :: t.id == idOf(t.sourceId)) && Shielded(w, id, others, at)
    requires OpsWithin([op], id, others, idOf, p) && p + |others| < CACHE_WINDOW
    ensures Shielded(Apply(w, op), id, others, at')
    ensures DistinctIds(Apply(w, op)) && forall t | t in Apply(w, op) :: t.id == idOf(t.sourceId)
  {
    assert op in [op];
    match op {
      case Get(s) =>
        LookupFinds(w, s);
        if Lookup(w, s).Ok? {
          at' := ShieldedPromote(w, Lookup(w, s).value, id, others, at);
          PromoteKeepsDistinct(w, Lookup(w, s).value);
        } else {
          at' := at;
        }
      case Touch(t, inUse) =>
        at' := ShieldedPromote(w, t, id, others, at);
        PromoteKeepsDistinct(w, t);
        ShieldedEvict(Promote(w, t), inUse, id, others, at');
        EvictOutcome(Promote(w, t), inUse);
    }
  }

  lemma {:induction false} ShieldedRun(w: seq<Track>, ops: seq<CacheOp>, id: int, others: set<int>,
                                       idOf: string -> int, p: nat, at: nat)
    requires DistinctIds(w) && (forall t | t in w :: t.id == idOf(t.sourceId)) && Shielded(w, id, others, at)
    requires OpsWithin(ops, id, others, idOf, p) && p + |others| < CACHE_WINDOW
    ensures id in IdSet(Run(w, ops))
    decreases ops
  {
    if ops != [] {
      var at' := ShieldedStep(w, ops[0], id, others, idOf, p, at);
      ShieldedRun(Apply(w, ops[0]), ops[1..], id, others, idOf, p, at');
    }
  }

  /** Once a call put a track at the front, no run of calls on at most `k` other tracks with at most `p`
      tracks in use at a time evicts it. */
  ghost predicate Protects(k: nat, p: nat) {
    forall w, ops, id, others, idOf | QuietRun(w, ops, id, others, idOf, k, p) :: id in IdSet(Run(w, ops))
  }

  /** The protection is exactly the window's size. */
  lemma ProtectionIff(k: nat, p: nat)
    ensures Protects(k, p) <==> p + k < 50
  {
    if p + k < CACHE_WINDOW {
      forall w, ops, id, others, idOf | QuietRun(w, ops, id, others, idOf, k, p) ensures id in IdSet(Run(w, ops)) {
        ShieldedRun(w, ops, id, others, idOf, p, 0);
      }
    } else {
      Unprotected(k, p);
    }
  }

  // ---- the bound cannot be improved ----

  function Sample(i: nat): (t: Track)
    ensures t.id == |t.sourceId| == i
  {
    Track(i, seq(i, _ => 'x'), "", "", 0, "", "", 0)
  }

  /** Tracks lo, lo + 1, ..., hi - 1, in this order. */
  function Samples(lo: nat, hi: nat): (r: seq<Track>)
    requires lo <= hi
    ensures |r| == hi - lo && forall i | 0 <= i < hi - lo :: r[i] == Sample(lo + i)
  {
    seq(hi - lo, i requires 0 <= i < hi - lo => Sample(lo + i))
  }

  lemma SamplesIds(lo: nat, hi: nat)
    requires lo <= hi
    ensures DistinctIds(Samples(lo, hi)) && |IdSet(Samples(lo, hi))| == hi - lo
    ensures forall i: nat :: i in IdSet(Samples(lo, hi)) <==> lo <= i < hi
  {
    DistinctCount(Samples(lo, hi));
    forall i: nat | lo <= i < hi ensures i in IdSet(Samples(lo, hi)) {
      assert Samples(lo, hi)[i - lo] == Sample(i);
    }
  }

  /** Only tracks in use are behind position `v` of a window one over its size: that track goes. */
  lemma FrontRunnerEvicted(q: seq<Track>, pinned: set<int>, v: nat)
    requires DistinctIds(q) && v < |q| == CACHE_WINDOW + 1 && q[v].id !in pinned
    requires forall j | v < j < |q| :: q[j].id in pinned
    ensures q[v].id !in IdSet(Evict(q, pinned))
  {
    DropOneIsRemoveAt(q, pinned, v);
    WithoutIsRemoveAt(q, v);
    WithoutIds(q, q[v].id);
  }

  /** Window `r` is `w` with `n` more tracks in front, all ids below `hi`. */
  ghost predicate StackedOn(r: seq<Track>, w: seq<Track>, n: nat, hi: nat) {
    && |r| == |w| + n && r[n..] == w && DistinctIds(r)
    && forall t | t in r :: t.id < hi
  }

  lemma StackedDeeper(r: seq<Track>, x: Track, w: seq<Track>, n: nat, hi: nat)
    requires StackedOn(r, [x] + w, n, hi)
    ensures StackedOn(r, w, n + 1, hi)
  {
    TailOfTail(r, n, x, w);
  }

  /** Touching fresh tracks lo.. in turn stacks them in front while the window has room. */
  lemma {:induction false} Stacked(w: seq<Track>, lo: nat, hi: nat, pinned: set<int>)
    requires DistinctIds(w) && (forall t | t in w :: t.id < lo)
    requires lo <= hi && |w| + (hi - lo) <= CACHE_WINDOW
    ensures StackedOn(Run(w, Touches(lo, hi, pinned)), w, hi - lo, hi)
    decreases hi - lo
  {
    var ops := Touches(lo, hi, pinned);
    if lo < hi {
      StackOne(w, lo, pinned);
      var next := [Sample(lo)] + w;
      assert ops[1..] == Touches(lo + 1, hi, pinned) && ops[0] == Touch(Sample(lo), pinned);
      Stacked(next, lo + 1, hi, pinned);
      StackedDeeper(Run(next, ops[1..]), Sample(lo), w, hi - lo - 1, hi);
    } else {
      assert ops == [] && w[0..] == w;
    }
  }

  lemma TailOfTail<T>(r: seq<T>, n: nat, x: T, w: seq<T>)
    requires n <= |r| && r[n..] == [x] + w
    ensures n < |r| && r[n + 1..] == w
  {
    assert r[n + 1..] == r[n..][1..];
  }

  lemma StackOne(w: seq<Track>, lo: nat, pinned: set<int>)
    requires DistinctIds(w) && (forall t | t in w :: t.id < lo) && |w| < CACHE_WINDOW
    ensures TouchWindow(w, Sample(lo), pinned) == [Sample(lo)] + w && DistinctIds([Sample(lo)] + w)
    ensures forall t | t in [Sample(lo)] + w :: t.id < lo + 1
  {
    WithoutAbsent(w, lo);
    PromoteKeepsDistinct(w, Sample(lo));
  }

  function Touches(lo: nat, hi: nat, pinned: set<int>): (r: seq<CacheOp>)
    requires lo <= hi
    ensures |r| == hi - lo && forall i | 0 <= i < hi - lo :: r[i] == Touch(Sample(lo + i), pinned)
  {
    seq(hi - lo, i requires 0 <= i < hi - lo => Touch(Sample(lo + i), pinned))
  }

  lemma {:induction false} RunAppend(w: seq<Track>, a: seq<CacheOp>, op: CacheOp)
    ensures Run(w, a + [op]) == Apply(Run(w, a), op)
    decreases a
  {
    if a != [] {
      assert (a + [op])[0] == a[0] && (a + [op])[1..] == a[1..] + [op];
      RunAppend(Apply(w, a[0]), a[1..], op);
    } else {
      assert [op][1..] == [];
    }
  }

  lemma NotProtecting(w: seq<Track>, ops: seq<CacheOp>, others: set<int>, idOf: string -> int, k: nat, p: nat)
    requires QuietRun(w, ops, 0, others, idOf, k, p) && 0 !in IdSet(Run(w, ops))
    ensures !Protects(k, p)
  {
  }

  lemma Unprotected(k: nat, p: nat)
    requires p + k >= CACHE_WINDOW
    ensures !Protects(k, p)
  {
    var idOf := (s: string) => |s|;
    if p >= CACHE_WINDOW {
      OverfullByPins();
      var w, pinned := Samples(0, CACHE_WINDOW + 1), IdSet(Samples(1, CACHE_WINDOW + 1));
      var op := Touch(w[0], pinned);
      SamplesIds(0, CACHE_WINDOW + 1);
      SamplesIds(1, CACHE_WINDOW + 1);
      assert Run(w, [op]) == Apply(w, op);
      NotProtecting(w, [op], {}, idOf, k, p);
    } else {
      FreshQuiet(k, p, idOf);
      FreshEvicts(p);
      NotProtecting(Samples(0, 1 + p), FreshOps(p), IdSet(Samples(1 + p, CACHE_WINDOW + 1)), idOf, k, p);
    }
  }

  /** With fifty tracks in use behind it, touching track 0 itself pushes it out. */
  lemma OverfullByPins()
    ensures 0 !in IdSet(TouchWindow(Samples(0, CACHE_WINDOW + 1), Sample(0), IdSet(Samples(1, CACHE_WINDOW + 1))))
  {
    var w, pinned := Samples(0, CACHE_WINDOW + 1), IdSet(Samples(1, CACHE_WINDOW + 1));
    SamplesIds(0, CACHE_WINDOW + 1);
    SamplesIds(1, CACHE_WINDOW + 1);
    WithoutIsRemoveAt(w, 0);
    assert Promote(w, w[0]) == w;
    FrontRunnerEvicted(w, pinned, 0);
  }

  /** With `p` tracks in use behind it, fresh tracks fill the window in front of track 0, and one more. */
  function FreshOps(p: nat): seq<CacheOp>
    requires p < CACHE_WINDOW
  {
    var pinned := IdSet(Samples(1, 1 + p));
    Touches(1 + p, CACHE_WINDOW, pinned) + [Touch(Sample(CACHE_WINDOW), pinned)]
  }

  lemma FreshOpsWithin(p: nat, idOf: string -> int)
    requires p < CACHE_WINDOW && forall s :: idOf(s) == |s|
    ensures OpsWithin(FreshOps(p), 0, IdSet(Samples(1 + p, CACHE_WINDOW + 1)), idOf, p)
  {
    SamplesIds(1, 1 + p);
    SamplesIds(1 + p, CACHE_WINDOW + 1);
    forall op | op in FreshOps(p)
      ensures op.Touch? && OpNamed(op, idOf) && OpId(op, idOf) in IdSet(Samples(1 + p, CACHE_WINDOW + 1)) && |op.inUse| <= p
    {
      var i :| 0 <= i < |FreshOps(p)| && FreshOps(p)[i] == op;
      FreshOpAt(p, i);
      assert |Sample(1 + p + i).sourceId| == 1 + p + i;
    }
  }

  lemma FreshOpAt(p: nat, i: nat)
    requires p < CACHE_WINDOW && i < |FreshOps(p)|
    ensures FreshOps(p)[i] == Touch(Sample(1 + p + i), IdSet(Samples(1, 1 + p))) && 1 + p + i <= CACHE_WINDOW
  {
  }

  lemma FreshQuiet(k: nat, p: nat, idOf: string -> int)
    requires p + k >= CACHE_WINDOW > p && forall s :: idOf(s) == |s|
    ensures QuietRun(Samples(0, 1 + p), FreshOps(p), 0, IdSet(Samples(1 + p, CACHE_WINDOW + 1)), idOf, k, p)
  {
    SamplesIds(0, 1 + p);
    SamplesIds(1 + p, CACHE_WINDOW + 1);
    FreshOpsWithin(p, idOf);
  }

  lemma FreshStack(p: nat, pinned: set<int>)
    requires p < CACHE_WINDOW
    ensures var r := Run(Samples(0, 1 + p), Touches(1 + p, CACHE_WINDOW, pinned)); var at := CACHE_WINDOW - 1 - p;
            && DistinctIds(r) && |r| == CACHE_WINDOW && CACHE_WINDOW !in IdSet(r)
            && forall j | at <= j < CACHE_WINDOW :: r[j] == Samples(0, 1 + p)[j - at]
  {
    SamplesIds(0, 1 + p);
    Stacked(Samples(0, 1 + p), 1 + p, CACHE_WINDOW, pinned);
    TailIs(Run(Samples(0, 1 + p), Touches(1 + p, CACHE_WINDOW, pinned)), CACHE_WINDOW - 1 - p, Samples(0, 1 + p));
  }

  lemma FreshEvicts(p: nat)
    requires p < CACHE_WINDOW
    ensures 0 !in IdSet(Run(Samples(0, 1 + p), FreshOps(p)))
  {
    var pinned, last := IdSet(Samples(1, 1 + p)), Sample(CACHE_WINDOW);
    var lead := Touches(1 + p, CACHE_WINDOW, pinned);
    FreshStack(p, pinned);
    SamplesIds(1, 1 + p);
    OneTooMany(Run(Samples(0, 1 + p), lead), CACHE_WINDOW - 1 - p, last, pinned);
    RunAppend(Samples(0, 1 + p), lead, Touch(last, pinned));
  }

  lemma TailIs<T>(r: seq<T>, at: nat, w: seq<T>)
    requires at <= |r| && r[at..] == w
    ensures forall j | at <= j < |r| :: r[j] == w[j - at]
  {
    forall j | at <= j < |r| ensures r[j] == w[j - at] { assert r[at..][j - at] == r[j]; }
  }

  lemma OneTooMany(r: seq<Track>, at: nat, last: Track, pinned: set<int>)
    requires DistinctIds(r) && |r| == CACHE_WINDOW && last.id !in IdSet(r)
    requires at < |r| && r[at].id !in pinned && forall j | at < j < |r| :: r[j].id in pinned
    ensures r[at].id !in IdSet(TouchWindow(r, last, pinned))
  {
    WithoutAbsent(r, last.id);
    PromoteKeepsDistinct(r, last);
    FrontRunnerEvicted([last] + r, pinned, at + 1);
  }
}
