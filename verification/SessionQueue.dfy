/** A session's queue (server/src/session/session_queue.go): a Go slice over a backing array, and two
    one-slot channels filled by sends that never block. */
module SessionQueue {
  import opened Collections
  import opened Tracks
  import opened QueueLog

  /** A Go slice value: it aliases its array. */
  datatype Slice = Slice(arr: array<Track>, off: nat, len: nat)

  ghost predicate Bounded(s: Slice) {
    s.off + s.len <= s.arr.Length
  }

  ghost function View(s: Slice): seq<Track>
    requires Bounded(s)
    reads s.arr
  {
    s.arr[s.off..s.off + s.len]
  }

  datatype Reply<+T> = Got(value: T) | Failed(error: QueueError)

  /** A slice some caller still holds, with the tracks it showed when it was handed out. */
  datatype Loan = Loan(slice: Slice, seen: seq<Track>)

  lemma AllButLast<T>(s: seq<T>, last: T, whole: seq<T>)
    requires whole == s + [last]
    ensures |whole| == |s| + 1 && whole[..|s|] == s
  {
  }

  lemma ShiftedSlice<T>(was: seq<T>, now: seq<T>, off: nat, len: nat, index: nat)
    requires off + len <= |was| == |now| && index < len
    requires forall j | 0 <= j < off + index :: now[j] == was[j]
    requires forall j | off + index <= j < off + len - 1 :: now[j] == was[j + 1]
    requires now[off + len - 1] == was[off + len - 1]
    ensures now[off..off + len] == RemoveAt(was[off..off + len], index) + [was[off + len - 1]]
  {
    var q, shifted := was[off..off + len], now[off..off + len];
    forall j | 0 <= j < len ensures shifted[j] == (RemoveAt(q, index) + [q[len - 1]])[j] {
      assert shifted[j] == now[off + j];
    }
  }

  lemma SameBelow<T>(was: seq<T>, now: seq<T>, n: nat, lo: nat, hi: nat)
    requires lo <= hi <= n <= |was| == |now| && forall j | 0 <= j < n :: now[j] == was[j]
    ensures now[lo..hi] == was[lo..hi]
  {
  }

  class SessionQueue {
    var backing: array<Track>
    var off: nat
    var len: nat
    var notify: bool
    var skip: bool
    ghost var log: seq<Entry>
    ghost var loans: set<Loan>

    ghost predicate Shaped()
      reads this
    {
      off + len <= backing.Length
    }

    ghost function Contents(): seq<Track>
      requires Shaped()
      reads this, backing
    {
      backing[off..off + len]
    }

    ghost function LentArrays(): set<array<Track>>
      reads this
    {
      set l | l in loans :: l.slice.arr
    }

    /** Every slice lent out since the last removal still shows what it showed: it reads some retired
        array, or a part of the current one that only removal writes. */
    ghost predicate LoansIntact()
      reads this, LentArrays()
    {
      forall l | l in loans ::
        && Bounded(l.slice) && View(l.slice) == l.seen
        && (l.slice.arr == backing ==> l.slice.off + l.slice.len <= off + len)
    }

    ghost predicate Valid()
      reads this, backing, LentArrays()
    {
      && Shaped() && len <= MAX_QUEUE_SIZE
      && InTurn(log) && Contents() == With(log, Queued)
      && LoansIntact()
    }

    constructor ()
      ensures Valid() && Contents() == [] && !notify && !skip && log == [] && loans == {} && fresh(backing)
    {
      backing := new Track[MAX_QUEUE_SIZE];
      off, len := 0, 0;
      notify, skip := false, false;
      log, loans := [], {};
    }

    ghost method Record(op: QueueOp)
      requires InTurn(log)
      modifies this`log
      ensures log == LogStep(old(log), op) && InTurn(log)
      ensures With(log, Queued) == Step(With(old(log), Queued), op)
    {
      LogStepFollows(log, op);
      log := LogStep(log, op);
    }

    /** Asks for the current track to be skipped; a request already waiting absorbs this one. */
    method Skip() returns (r: Reply<()>)
      requires Valid()
      modifies this`skip
      ensures Valid()
      ensures if Contents() == [] then r == Failed(EmptyQueue) && skip == old(skip) else r == Got(()) && skip
    {
      if len == 0 {
        return Failed(EmptyQueue);
      }
      if !skip {
        skip := true;
      }
      return Got(());
    }

    /** The part of Enqueue under the lock. The append writes in place while the array has room and
        otherwise moves to a larger one; `slack` is what the runtime adds to the size needed. */
    method Append(t: Track, slack: nat) returns (r: Reply<()>)
      requires Valid()
      modifies this`backing, this`off, this`len, this`log, backing
      ensures Valid() && loans == old(loans)
      ensures Contents() == Step(old(Contents()), Push(t)) && log == LogStep(old(log), Push(t))
      ensures r == if |old(Contents())| >= MAX_QUEUE_SIZE then Failed(FullQueue) else Got(())
      ensures backing == old(backing) || fresh(backing)
    {
      if len >= MAX_QUEUE_SIZE {
        return Failed(FullQueue);
      }
      Record(Push(t));
      Extend(t, slack);
      return Got(());
    }

    method Extend(t: Track, slack: nat)
      requires Shaped() && LoansIntact()
      modifies this`backing, this`off, this`len, backing
      ensures Shaped() && LoansIntact() && len == old(len) + 1
      ensures Contents() == old(Contents()) + [t]
      ensures backing == old(backing) || fresh(backing)
    {
      if off + len == backing.Length {
        Move(slack);
      }
      Put(t);
      len := len + 1;
    }

    /** Writes behind the queue's end, where no slice lent out reaches. */
    method Put(t: Track)
      requires off + len < backing.Length && LoansIntact()
      modifies backing
      ensures backing[off..off + len] == old(Contents()) && backing[off + len] == t
      ensures LoansIntact()
    {
      backing[off + len] := t;
      forall l | l in loans ensures View(l.slice) == l.seen {
        assert forall k | 0 <= k < l.slice.len :: l.slice.arr[l.slice.off + k] == l.seen[k];
      }
    }

    method Move(slack: nat)
      requires off + len <= backing.Length && LoansIntact()
      modifies this`backing, this`off
      ensures fresh(backing) && off == 0 && len < backing.Length && backing[..len] == old(Contents())
      ensures LoansIntact()
    {
      var larger := new Track[len + 1 + slack];
      forall i | 0 <= i < len { larger[i] := backing[off + i]; }
      backing, off := larger, 0;
    }

    /** The part of Enqueue after the lock: a token for the player, unless one is waiting. */
    method SendNotify()
      modifies this`notify
      ensures notify
    {
      if !notify {
        notify := true;
      }
    }

    method Enqueue(t: Track, slack: nat) returns (r: Reply<()>)
      requires Valid()
      modifies this`backing, this`off, this`len, this`log, this`notify, backing
      ensures Valid() && loans == old(loans)
      ensures Contents() == Step(old(Contents()), Push(t)) && log == LogStep(old(log), Push(t))
      ensures r == if |old(Contents())| >= MAX_QUEUE_SIZE then Failed(FullQueue) else Got(())
      ensures notify == (r.Got? || old(notify))
      ensures backing == old(backing) || fresh(backing)
    {
      r := Append(t, slack);
      if r.Got? {
        SendNotify();
      }
    }

    method Peek() returns (r: Reply<Track>)
      requires Valid()
      ensures r == if Contents() == [] then Failed(EmptyQueue) else Got(Contents()[0])
    {
      if len == 0 {
        return Failed(EmptyQueue);
      }
      return Got(backing[off]);
    }

    method Dequeue() returns (r: Reply<Track>)
      requires Valid()
      modifies this`off, this`len, this`log
      ensures Valid()
      ensures r == if old(Contents()) == [] then Failed(EmptyQueue) else Got(old(Contents())[0])
      ensures Contents() == Step(old(Contents()), Pop) && log == LogStep(old(log), Pop)
    {
      Record(Pop);
      if len == 0 {
        return Failed(EmptyQueue);
      }
      var t := backing[off];
      off, len := off + 1, len - 1;
      return Got(t);
    }

    /** Hands out the queue's own slice, not a copy. */
    method ListQueue() returns (s: Slice)
      requires Shaped()
      ensures s == Slice(backing, off, len) && Bounded(s) && View(s) == Contents()
    {
      s := Slice(backing, off, len);
    }

    /** Notes that a caller goes on holding the slice that ListQueue gives it now. */
    ghost method Lend()
      requires Valid()
      modifies this`loans
      ensures Valid() && loans == old(loans) + {Loan(Slice(backing, off, len), Contents())}
    {
      loans := loans + {Loan(Slice(backing, off, len), Contents())};
    }

    /** The slices lent out that removing at `index` leaves alone: those on an array given up since, and those
        that end before the index. */
    ghost function Spared(index: nat): set<Loan>
      reads this
    {
      set l | l in loans && (l.slice.arr != backing || l.slice.off + l.slice.len <= off + index)
    }

    /** Removal shifts the tracks behind the index inside the array, so a slice of the whole queue handed out
        before now shows the shifted tracks and the last one twice; the spared ones show what they showed. */
    method Remove(index: nat) returns (r: Reply<()>)
      requires Valid()
      modifies this`len, this`log, this`loans, backing
      ensures Valid()
      ensures Contents() == Step(old(Contents()), Drop(index))
      ensures log == LogStep(old(log), Drop(index))
      ensures r == if index >= |old(Contents())| then Failed(BadIndex) else Got(())
      ensures loans == if r.Got? then old(Spared(index)) else old(loans)
      ensures r.Got? ==> var q := old(Contents());
                         backing[old(off)..old(off + len)] == RemoveAt(q, index) + [q[|q| - 1]]
    {
      Record(Drop(index));
      if index >= len {
        return Failed(BadIndex);
      }
      TakeOut(index);
      return Got(());
    }

    method TakeOut(index: nat)
      requires Shaped() && LoansIntact() && index < len
      modifies this`len, this`loans, backing
      ensures Shaped() && LoansIntact() && len == old(len) - 1
      ensures Contents() == RemoveAt(old(Contents()), index) && loans == old(Spared(index))
      ensures backing[off..off + old(len)] == RemoveAt(old(Contents()), index) + [old(Contents()[len - 1])]
    {
      ghost var q := Contents();
      Shift(index);
      AllButLast(RemoveAt(q, index), q[|q| - 1], backing[off..off + len]);
      loans := Spared(index);
      assert backing[off..off + (len - 1)] == backing[off..off + len][..len - 1];
      len := len - 1;
    }

    method Shift(index: nat)
      requires Shaped() && index < len && LoansIntact()
      modifies backing
      ensures backing[off..off + len] == RemoveAt(old(Contents()), index) + [old(Contents())[len - 1]]
      ensures forall l | l in Spared(index) :: View(l.slice) == l.seen
    {
      ghost var was := backing[..];
      assert was[off..off + len] == Contents();
      ShiftCells(index);
      ghost var now := backing[..];
      ShiftedSlice(was, now, off, len, index);
      assert now[off..off + len] == backing[off..off + len];
      forall l | l in Spared(index) && l.slice.arr == backing ensures View(l.slice) == l.seen {
        SameBelow(was, now, off + index, l.slice.off, l.slice.off + l.slice.len);
        assert old(View(l.slice)) == was[l.slice.off..l.slice.off + l.slice.len];
        assert View(l.slice) == now[l.slice.off..l.slice.off + l.slice.len];
      }
    }

    /** append(tracks[:index], tracks[index+1:]...) as the memory sees it. */
    method ShiftCells(index: nat)
      requires Shaped() && index < len
      modifies backing
      ensures forall j | 0 <= j < off + index :: backing[j] == old(backing[j])
      ensures forall j | off + index <= j < off + len - 1 :: backing[j] == old(backing[j + 1])
      ensures backing[off + len - 1] == old(backing[off + len - 1])
    {
      forall j | off + index <= j < off + len - 1 { backing[j] := backing[j + 1]; }
    }
  }
}
