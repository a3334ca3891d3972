/** What the track cache computes, on plain sequences: index 0 is the front of the list (most recent). */
module RecencyWindow {
  import opened Collections
  import opened Tracks

  const CACHE_WINDOW: nat := 50

  // ---- sequences of tracks without some of them ----

  function Without(w: seq<Track>, id: int): (r: seq<Track>)
    ensures forall t :: t in r <==> t in w && t.id != id
  {
    if w == [] then [] else
    (if w[0].id == id then [] else [w[0]]) + Without(w[1..], id)
  }

  lemma {:induction false} WithoutAbsent(w: seq<Track>, id: int)
    requires id !in IdSet(w)
    ensures Without(w, id) == w
  {
    if w != [] {
      WithoutAbsent(w[1..], id);
    }
  }

  lemma {:induction false} WithoutIsRemoveAt(w: seq<Track>, i: nat)
    requires DistinctIds(w) && i < |w|
    ensures Without(w, w[i].id) == RemoveAt(w, i)
  {
    if i == 0 {
      WithoutAbsent(w[1..], w[0].id);
    } else {
      WithoutIsRemoveAt(w[1..], i - 1);
      assert RemoveAt(w, i) == [w[0]] + RemoveAt(w[1..], i - 1);
    }
  }

  lemma WithoutIds(w: seq<Track>, id: int)
    ensures IdSet(Without(w, id)) == IdSet(w) - {id}
  {
    forall x | x in IdSet(w) - {id} ensures x in IdSet(Without(w, id)) {
      var t :| t in w && t.id == x;
      assert t in Without(w, id);
    }
  }

  lemma RemoveAtKeepsDistinct(w: seq<Track>, i: nat)
    requires DistinctIds(w) && i < |w|
    ensures DistinctIds(RemoveAt(w, i))
  {
    var r := RemoveAt(w, i);
    forall j, k | 0 <= j < k < |r| ensures r[j].id != r[k].id {
      var j', k' := if j < i then j else j + 1, if k < i then k else k + 1;
      assert r[j] == w[j'] && r[k] == w[k'];
    }
  }

  lemma WithoutKeepsDistinct(w: seq<Track>, id: int)
    requires DistinctIds(w)
    ensures DistinctIds(Without(w, id))
    ensures |Without(w, id)| == if id in IdSet(w) then |w| - 1 else |w|
  {
    if id in IdSet(w) {
      var t :| t in w && t.id == id;
      var i :| 0 <= i < |w| && w[i] == t;
      WithoutIsRemoveAt(w, i);
      RemoveAtKeepsDistinct(w, i);
    } else {
      WithoutAbsent(w, id);
    }
  }

  // ---- looking up ----

  function Lookup(w: seq<Track>, sourceId: string): Result<Track> {
    if w == [] then Err
    else if w[0].sourceId == sourceId then Ok(w[0])
    else Lookup(w[1..], sourceId)
  }

  lemma {:induction false} LookupFinds(w: seq<Track>, sourceId: string)
    ensures Lookup(w, sourceId).Ok? ==> Lookup(w, sourceId).value in w && Lookup(w, sourceId).value.sourceId == sourceId
    ensures Lookup(w, sourceId).Err? ==> forall t | t in w :: t.sourceId != sourceId
  {
    if w != [] {
      LookupFinds(w[1..], sourceId);
    }
  }

  /** A hit moves the track to the front; a miss changes nothing. */
  function GetWindow(w: seq<Track>, sourceId: string): seq<Track> {
    var hit := Lookup(w, sourceId);
    if hit.Ok? then Promote(w, hit.value) else w
  }

  // ---- touching and evicting ----

  /** The track moves, or is inserted, to the front with its new record. */
  function Promote(w: seq<Track>, t: Track): seq<Track> {
    [t] + Without(w, t.id)
  }

  function UnpinnedCount(w: seq<Track>, pinned: set<int>): nat {
    if w == [] then 0 else
    UnpinnedCount(w[..|w| - 1], pinned) + if w[|w| - 1].id in pinned then 0 else 1
  }

  /** `w` without its `n` oldest tracks outside `pinned`, or without all of those when there are fewer. */
  function DropOldest(w: seq<Track>, pinned: set<int>, n: nat): seq<Track> {
    if n == 0 || w == [] then w
    else if w[|w| - 1].id in pinned then DropOldest(w[..|w| - 1], pinned, n) + [w[|w| - 1]]
    else DropOldest(w[..|w| - 1], pinned, n - 1)
  }

  /** How many tracks a touch evicts: the excess over the window, as far as unpinned tracks go. */
  function EvictionCount(w: seq<Track>, pinned: set<int>): nat {
    var excess := if |w| > CACHE_WINDOW then |w| - CACHE_WINDOW else 0;
    if excess < UnpinnedCount(w, pinned) then excess else UnpinnedCount(w, pinned)
  }

  function Evict(w: seq<Track>, pinned: set<int>): seq<Track> {
    DropOldest(w, pinned, EvictionCount(w, pinned))
  }

  function TouchWindow(w: seq<Track>, t: Track, pinned: set<int>): seq<Track> {
    Evict(Promote(w, t), pinned)
  }

  /** The tracks of `before` that `after` no longer holds. */
  ghost function Lost(before: seq<Track>, after: seq<Track>): set<Track> {
    set t | t in before && t !in after
  }

  ghost function Paths(ts: set<Track>): set<string> {
    set t | t in ts :: t.filePath
  }

  lemma PromoteKeepsDistinct(w: seq<Track>, t: Track)
    requires DistinctIds(w)
    ensures DistinctIds(Promote(w, t))
    ensures IdSet(Promote(w, t)) == IdSet(w) + {t.id}
    ensures |Promote(w, t)| == if t.id in IdSet(w) then |w| else |w| + 1
  {
    WithoutKeepsDistinct(w, t.id);
    WithoutIds(w, t.id);
    var rest := Without(w, t.id);
    assert Promote(w, t)[1..] == rest;
    assert forall u :: u in Promote(w, t) <==> u == t || u in rest;
  }

  /** The track used comes first, as it is now; the others follow in their order. */
  lemma PromoteIs(w: seq<Track>, t: Track)
    requires DistinctIds(w)
    ensures forall i | 0 <= i < |w| && w[i].id == t.id :: Promote(w, t) == [t] + RemoveAt(w, i)
    ensures t.id !in IdSet(w) ==> Promote(w, t) == [t] + w
  {
    forall i | 0 <= i < |w| && w[i].id == t.id ensures Promote(w, t) == [t] + RemoveAt(w, i) {
      WithoutIsRemoveAt(w, i);
    }
    if t.id !in IdSet(w) { WithoutAbsent(w, t.id); }
  }

  lemma {:induction false} WithoutReplaced(w: seq<Track>, i: nat, t: Track)
    requires i < |w| && w[i].id == t.id
    ensures Without(w[i := t], t.id) == Without(w, t.id)
  {
    if i == 0 {
      assert w[0 := t][1..] == w[1..];
    } else {
      assert w[i := t][1..] == w[1..][i - 1 := t];
      WithoutReplaced(w[1..], i - 1, t);
    }
  }

  /** The part of a listing that a fresh cache keeps. */
  function Newest(listing: seq<Track>): seq<Track> {
    if |listing| > CACHE_WINDOW then listing[..CACHE_WINDOW] else listing
  }

  // ---- what dropping the oldest means, without the recursion ----

  function PinnedOnly(w: seq<Track>, pinned: set<int>): seq<Track> {
    if w == [] then [] else
    PinnedOnly(w[..|w| - 1], pinned) + if w[|w| - 1].id in pinned then [w[|w| - 1]] else []
  }

  lemma {:induction false} PinnedOnlyMembers(w: seq<Track>, pinned: set<int>)
    ensures forall t :: t in PinnedOnly(w, pinned) <==> t in w && t.id in pinned
  {
    if w != [] {
      PinnedOnlyMembers(w[..|w| - 1], pinned);
      assert w == w[..|w| - 1] + [w[|w| - 1]];
    }
  }

  /** Where the untouched prefix ends when the `n` oldest unpinned tracks go. */
  function Cut(w: seq<Track>, pinned: set<int>, n: nat): (c: nat)
    ensures c <= |w|
  {
    if n == 0 || w == [] then |w|
    else Cut(w[..|w| - 1], pinned, if w[|w| - 1].id in pinned then n else n - 1)
  }

  lemma {:induction false} CutTail(w: seq<Track>, pinned: set<int>, n: nat)
    requires n <= UnpinnedCount(w, pinned)
    ensures var c := Cut(w, pinned, n);
            && UnpinnedCount(w[c..], pinned) == n
            && (n > 0 ==> c < |w| && w[c].id !in pinned)
  {
    if n > 0 {
      var init, last := w[..|w| - 1], w[|w| - 1];
      var m := if last.id in pinned then n else n - 1;
      CutTail(init, pinned, m);
      TailGrows(w, Cut(init, pinned, m), pinned);
    }
  }

  lemma {:induction false} DropOldestLength(w: seq<Track>, pinned: set<int>, n: nat)
    requires n <= UnpinnedCount(w, pinned)
    ensures |DropOldest(w, pinned, n)| == |w| - n
  {
    if n > 0 {
      DropOldestLength(w[..|w| - 1], pinned, if w[|w| - 1].id in pinned then n else n - 1);
    }
  }

  lemma {:induction false} CutSplits(w: seq<Track>, pinned: set<int>, n: nat)
    requires n <= UnpinnedCount(w, pinned)
    ensures DropOldest(w, pinned, n) == w[..Cut(w, pinned, n)] + PinnedOnly(w[Cut(w, pinned, n)..], pinned)
  {
    if n == 0 {
      assert w[..|w|] == w;
    } else {
      var init := w[..|w| - 1];
      var m := if w[|w| - 1].id in pinned then n else n - 1;
      CutSplits(init, pinned, m);
      SplitGrows(w, Cut(init, pinned, m), pinned);
    }
  }

  lemma SplitGrows(w: seq<Track>, c: nat, pinned: set<int>)
    requires c < |w|
    ensures var last := w[|w| - 1]; var init := w[..|w| - 1];
            w[..c] + PinnedOnly(w[c..], pinned)
            == init[..c] + PinnedOnly(init[c..], pinned) + if last.id in pinned then [last] else []
  {
    TailGrows(w, c, pinned);
    assert w[..c] == w[..|w| - 1][..c];
  }

  /** Everything newer than the cut stays as it was, in order; older than the cut exactly the pinned
      tracks stay, in order; and the tail beyond the cut held exactly `n` unpinned tracks, the first of
      it being one of them. */
  lemma DropOldestIsACut(w: seq<Track>, pinned: set<int>, n: nat)
    requires n <= UnpinnedCount(w, pinned)
    ensures exists c ::
              && 0 <= c <= |w|
              && DropOldest(w, pinned, n) == w[..c] + PinnedOnly(w[c..], pinned)
              && UnpinnedCount(w[c..], pinned) == n
              && (n > 0 ==> c < |w| && w[c].id !in pinned)
  {
    CutSplits(w, pinned, n);
    CutTail(w, pinned, n);
  }

  lemma TailGrows(w: seq<Track>, c: nat, pinned: set<int>)
    requires c < |w|
    ensures var last := w[|w| - 1]; var init := w[..|w| - 1];
            && PinnedOnly(w[c..], pinned) == PinnedOnly(init[c..], pinned) + (if last.id in pinned then [last] else [])
            && UnpinnedCount(w[c..], pinned) == UnpinnedCount(init[c..], pinned) + (if last.id in pinned then 0 else 1)
  {
    assert w[c..][..|w[c..]| - 1] == w[..|w| - 1][c..];
  }

  lemma {:induction false} NothingUnpinned(w: seq<Track>, pinned: set<int>)
    ensures UnpinnedCount(w, pinned) == 0 <==> IdSet(w) <= pinned
    ensures UnpinnedCount(w, pinned) <= |w|
  {
    if w != [] {
      var init := w[..|w| - 1];
      NothingUnpinned(init, pinned);
      AppendId(init, w[|w| - 1]);
      assert w == init + [w[|w| - 1]];
    }
  }

  lemma {:induction false} DropMore(w: seq<Track>, pinned: set<int>, k: nat)
    requires k <= UnpinnedCount(w, pinned)
    ensures DropOldest(DropOldest(w, pinned, k), pinned, 1) == DropOldest(w, pinned, k + 1)
    ensures UnpinnedCount(DropOldest(w, pinned, k), pinned) == UnpinnedCount(w, pinned) - k
  {
    if w != [] && k > 0 {
      var init, last := w[..|w| - 1], w[|w| - 1];
      if last.id in pinned {
        DropMore(init, pinned, k);
        PinnedLast(DropOldest(init, pinned, k), last, pinned);
      } else {
        DropMore(init, pinned, k - 1);
      }
    }
  }

  lemma PinnedLast(d: seq<Track>, last: Track, pinned: set<int>)
    requires last.id in pinned
    ensures DropOldest(d + [last], pinned, 1) == DropOldest(d, pinned, 1) + [last]
    ensures UnpinnedCount(d + [last], pinned) == UnpinnedCount(d, pinned)
  {
    assert (d + [last])[..|d|] == d;
  }

  /** One victim search: the oldest unpinned track is the one with only pinned tracks behind it. */
  lemma {:induction false} DropOneIsRemoveAt(w: seq<Track>, pinned: set<int>, v: nat)
    requires v < |w| && w[v].id !in pinned
    requires forall j | v < j < |w| :: w[j].id in pinned
    ensures DropOldest(w, pinned, 1) == RemoveAt(w, v)
    ensures UnpinnedCount(w, pinned) > 0
  {
    if v < |w| - 1 {
      var init, last := w[..|w| - 1], w[|w| - 1];
      DropOneIsRemoveAt(init, pinned, v);
      assert RemoveAt(w, v) == RemoveAt(init, v) + [last];
    }
  }

  /** One eviction loses one more track. */
  lemma LostOneMore(p: seq<Track>, w: seq<Track>, v: nat)
    requires v < |w| && DistinctIds(w) && (forall t | t in w :: t in p)
    ensures Paths(Lost(p, RemoveAt(w, v))) == Paths(Lost(p, w)) + {w[v].filePath}
    ensures DistinctIds(RemoveAt(w, v)) && forall t | t in RemoveAt(w, v) :: t in p
  {
    var r := RemoveAt(w, v);
    assert forall t :: t in w <==> t in r || t == w[v] by { assert w == w[..v] + [w[v]] + w[v + 1..]; }
    assert w[v] !in r;
    assert Lost(p, r) == Lost(p, w) + {w[v]};
  }

  lemma EvictKeeps(w: seq<Track>, pinned: set<int>)
    ensures var r := Evict(w, pinned);
            && |r| == |w| - EvictionCount(w, pinned)
            && (forall t | t in r :: t in w)
            && (forall t | t in w && t.id in pinned :: t in r)
  {
    var n := EvictionCount(w, pinned);
    var c := Cut(w, pinned, n);
    CutSplits(w, pinned, n);
    DropOldestLength(w, pinned, n);
    PinnedOnlyMembers(w[c..], pinned);
    assert w == w[..c] + w[c..];
  }

  lemma EvictDistinct(w: seq<Track>, pinned: set<int>)
    requires DistinctIds(w)
    ensures DistinctIds(Evict(w, pinned))
  {
    var n := EvictionCount(w, pinned);
    var c := Cut(w, pinned, n);
    CutSplits(w, pinned, n);
    PinnedOnlyMembers(w[c..], pinned);
    PinnedOnlyDistinct(w[c..], pinned);
    PrefixPlusPart(w, c, PinnedOnly(w[c..], pinned));
  }

  lemma EvictInOrder(w: seq<Track>, pinned: set<int>, i: nat, j: nat)
    requires DistinctIds(w) && i < j < |w| && w[i] !in Evict(w, pinned) && w[j].id !in pinned
    ensures w[j] !in Evict(w, pinned)
  {
    DroppedIff(w, pinned, EvictionCount(w, pinned), i);
    DroppedIff(w, pinned, EvictionCount(w, pinned), j);
    UnpinnedBehind(w, pinned, i, j);
  }

  lemma EvictEnds(w: seq<Track>, pinned: set<int>)
    ensures var r := Evict(w, pinned); |r| <= CACHE_WINDOW || IdSet(r) <= pinned
  {
    DropOldestLength(w, pinned, EvictionCount(w, pinned));
    DropMore(w, pinned, EvictionCount(w, pinned));
    NothingUnpinned(Evict(w, pinned), pinned);
  }

  /** What is left after eviction: an order-preserving part of the window that kept every pinned track,
      lost only tracks older than every unpinned one it kept, and lost exactly as many as it may. */
  lemma EvictOutcome(w: seq<Track>, pinned: set<int>)
    requires DistinctIds(w)
    ensures var r := Evict(w, pinned);
            && |r| == |w| - EvictionCount(w, pinned)
            && (forall t | t in r :: t in w)
            && (forall t | t in w && t.id in pinned :: t in r)
            && (forall i, j | 0 <= i < j < |w| && w[i] !in r && w[j].id !in pinned :: w[j] !in r)
            && DistinctIds(r)
            && (|r| <= CACHE_WINDOW || IdSet(r) <= pinned)
            && (|w| <= CACHE_WINDOW ==> r == w) && (|w| >= CACHE_WINDOW ==> |r| >= CACHE_WINDOW)
  {
    var r := Evict(w, pinned);
    EvictKeeps(w, pinned);
    EvictDistinct(w, pinned);
    EvictEnds(w, pinned);
    forall i, j | 0 <= i < j < |w| && w[i] !in r && w[j].id !in pinned ensures w[j] !in r {
      EvictInOrder(w, pinned, i, j);
    }
  }

  lemma {:induction false} UnpinnedSplits(a: seq<Track>, b: seq<Track>, pinned: set<int>)
    ensures UnpinnedCount(a + b, pinned) == UnpinnedCount(a, pinned) + UnpinnedCount(b, pinned)
  {
    if b == [] {
      assert a + b == a;
    } else {
      assert (a + b)[..|a + b| - 1] == a + b[..|b| - 1];
      UnpinnedSplits(a, b[..|b| - 1], pinned);
    }
  }

  lemma UnpinnedBehind(w: seq<Track>, pinned: set<int>, i: nat, c: nat)
    requires i <= c <= |w|
    ensures UnpinnedCount(w[i..], pinned) == UnpinnedCount(w[i..c], pinned) + UnpinnedCount(w[c..], pinned)
  {
    assert w[i..] == w[i..c] + w[c..];
    UnpinnedSplits(w[i..c], w[c..], pinned);
  }

  lemma {:induction false} UnpinnedFirst(w: seq<Track>, pinned: set<int>)
    requires w != [] && w[0].id !in pinned
    ensures UnpinnedCount(w, pinned) > 0
  {
    assert w[0] in w;
    NothingUnpinned(w, pinned);
    assert w[0].id in IdSet(w);
  }

  /** Exactly the tracks go that are not pinned and have, with those behind them, no more than `n` not pinned. */
  lemma DroppedIff(w: seq<Track>, pinned: set<int>, n: nat, i: nat)
    requires DistinctIds(w) && n <= UnpinnedCount(w, pinned) && i < |w|
    ensures w[i] !in DropOldest(w, pinned, n) <==> w[i].id !in pinned && UnpinnedCount(w[i..], pinned) <= n
  {
    var c := Cut(w, pinned, n);
    CutSplits(w, pinned, n);
    CutTail(w, pinned, n);
    PinnedOnlyMembers(w[c..], pinned);
    if i < c {
      assert w[..c][i] == w[i];
      if w[i].id !in pinned {
        UnpinnedBehind(w, pinned, i, c);
        UnpinnedFirst(w[i..c], pinned);
      }
    } else {
      UnpinnedBehind(w, pinned, c, i);
      NotInPrefix(w, c, i);
      assert w[c..][i - c] == w[i];
    }
  }

  lemma {:induction false} PinnedOnlyDistinct(w: seq<Track>, pinned: set<int>)
    requires DistinctIds(w)
    ensures DistinctIds(PinnedOnly(w, pinned))
  {
    if w != [] {
      var init, last := w[..|w| - 1], w[|w| - 1];
      PinnedOnlyDistinct(init, pinned);
      PinnedOnlyMembers(init, pinned);
      var r := PinnedOnly(init, pinned);
      forall i | 0 <= i < |r| ensures r[i].id != last.id {
        assert r[i] in init;
      }
    }
  }

  lemma NotInPrefix(w: seq<Track>, c: nat, j: nat)
    requires DistinctIds(w) && c <= j < |w|
    ensures w[j] !in w[..c]
  {
  }

  lemma PrefixPlusPart(w: seq<Track>, c: nat, part: seq<Track>)
    requires c <= |w| && DistinctIds(w) && DistinctIds(part)
    requires forall t | t in part :: t in w[c..]
    ensures DistinctIds(w[..c] + part)
  {
    var r := w[..c] + part;
    forall i, j | 0 <= i < j < |r| ensures r[i].id != r[j].id {
      if i < c <= j {
        assert part[j - c] in w[c..];
        var k :| 0 <= k < |w[c..]| && w[c..][k] == part[j - c];
        assert w[c + k] == r[j];
      }
    }
  }
}
