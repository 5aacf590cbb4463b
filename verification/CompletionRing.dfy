/** The completion side of liburing. */
module CompletionRing {
  import opened Arithmetic
  import opened RingCounters
  import opened Runner

  /** The user_data liburing gives to its own timeouts. */
  const UDATA_TIMEOUT: nat := TWO_64 - 1

  datatype Cqe = Cqe(userData: nat, res: int)

  /** What a peek yields, and what it leaves in the ring. */
  datatype Peeked = Peeked(cqe: Option<Cqe>, available: nat, err: int, rest: seq<Cqe>)

  predicate IsTimeout(c: Cqe) {
    c.userData == UDATA_TIMEOUT
  }

  /** `__io_uring_peek_cqe` on the queue of unconsumed completions. */
  function Peek(q: seq<Cqe>): Peeked {
    if q == [] then Peeked(None, 0, 0, [])
    else if !IsTimeout(q[0]) then Peeked(Some(q[0]), |q|, 0, q)
    else if q[0].res < 0 then Peeked(None, |q|, q[0].res, q[1..])
    else Peek(q[1..])
  }

  /** The completions that belong to the program. */
  function Real(q: seq<Cqe>): seq<Cqe> {
    if q == [] then []
    else (if IsTimeout(q[0]) then [] else [q[0]]) + Real(q[1..])
  }

  /** Peeking loses no completion of the program, and yields the oldest of them unless a timeout
      that failed stands before it. */
  lemma {:induction false} PeekMeaning(q: seq<Cqe>)
    ensures Real(Peek(q).rest) == Real(q)
    ensures Peek(q).err == 0 ==>
      Peek(q).cqe == (if Real(q) == [] then None else Some(Real(q)[0])) && Peek(q).available == |Peek(q).rest|
    ensures Peek(q).err != 0 ==> Peek(q).cqe.None?
    ensures Peek(q).cqe.Some? ==> Peek(q).rest != [] && Peek(q).rest[0] == Peek(q).cqe.value
  {
    if q != [] && IsTimeout(q[0]) && q[0].res >= 0 {
      PeekMeaning(q[1..]);
    }
  }

  /** What a peek does, exactly: it drops the timeouts that went off in front, and then yields the
      completion behind them, or takes a failed timeout for an error and drops it too. */
  lemma {:induction false} PeekExactly(q: seq<Cqe>, k: nat)
    requires k <= |q| && forall j :: 0 <= j < k ==> q[j].userData == 0xffff_ffff_ffff_ffff && q[j].res >= 0
    requires k < |q| ==> q[k].userData != 0xffff_ffff_ffff_ffff || q[k].res < 0
    ensures Peek(q) ==
      if k == |q| then Peeked(None, 0, 0, [])
      else if q[k].userData != 0xffff_ffff_ffff_ffff then Peeked(Some(q[k]), |q| - k, 0, q[k..])
      else Peeked(None, |q| - k, q[k].res, q[k + 1..])
  {
    if k > 0 {
      PeekExactly(q[1..], k - 1);
      if k < |q| {
        assert q[1..][k - 1..] == q[k..] && q[1..][k..] == q[k + 1..];
      }
    } else if q != [] {
      assert q[0..] == q;
    }
  }

  /** A program that never asks for timeouts sees its completions untouched, in order. */
  lemma {:induction false} PeekWithoutTimeouts(q: seq<Cqe>)
    requires forall k :: 0 <= k < |q| ==> !IsTimeout(q[k])
    ensures Real(q) == q
    ensures Peek(q) == Peeked(if q == [] then None else Some(q[0]), |q|, 0, q)
  {
    if q != [] {
      PeekWithoutTimeouts(q[1..]);
    }
  }

  /** `struct io_uring_cq`. `posted` and `seen` record all completions ever posted and consumed. */
  class CompletionRing {
    const entries: nat
    const cqes: array<Cqe>
    var khead: nat
    var ktail: nat
    ghost var posted: seq<Cqe>
    ghost var seen: seq<Cqe>

    ghost predicate Valid()
      reads this, cqes
    {
      && ValidEntries(entries) && cqes.Length == entries
      && IsWord(khead) && IsWord(ktail)
      && Distance(khead, ktail) <= entries
      && posted == seen + Contents()
    }

    /** The completions waiting, oldest first. */
    ghost function Contents(): (q: seq<Cqe>)
      reads this, cqes
      requires cqes.Length == entries > 0
      ensures |q| == Ready()
    {
      Cells(cqes[..], Slots(entries, khead, ktail))
    }

    /** `io_uring_cq_ready`. */
    function Ready(): nat
      reads this
    {
      U32(ktail - khead)
    }

    constructor (entries: nat)
      requires ValidEntries(entries)
      ensures Valid() && fresh(cqes) && this.entries == entries && posted == seen == []
    {
      this.entries := entries;
      cqes := new Cqe[entries](_ => Cqe(0, 0));
      khead, ktail := 0, 0;
      posted, seen := [], [];
    }

    /** What the kernel does with a completion while there is room. */
    method Post(c: Cqe)
      requires Valid() && Ready() < entries
      modifies this`ktail, this`posted, cqes
      ensures Valid()
      ensures Contents() == old(Contents()) + [c] && posted == old(posted) + [c]
    {
      hide U32, And, IsPow2, Slots, SlotOf, Distance, Cells;
      PostSteps(entries, khead, ktail);
      CellsAfterWrite(cqes[..], Slots(entries, khead, ktail), SlotOf(entries, ktail), c);
      cqes[And(ktail, entries - 1)] := c;
      assert cqes[..] == old(cqes[..])[SlotOf(entries, ktail) := c];
      ktail := U32(ktail + 1);
      posted := posted + [c];
    }

    /** `io_uring_cq_advance`. */
    method Advance(n: nat)
      requires Valid() && n <= Ready()
      modifies this`khead, this`seen
      ensures Valid()
      ensures Contents() == old(Contents())[n..] && seen == old(seen) + old(Contents())[..n]
    {
      hide U32, And, IsPow2, Slots;
      if n > 0 {
        DistanceSteps(khead, ktail, n);
        SlotsDrop(entries, khead, ktail, n);
        WordsStay(khead + n - 1);
        seen := seen + Contents()[..n];
        khead := U32(khead + n);
        assert Contents() == old(Contents())[n..];
      }
    }

    /** `__io_uring_peek_cqe`. */
    method PeekCqe() returns (cqe: Option<Cqe>, available: nat, err: int)
      requires Valid()
      modifies this`khead, this`seen
      ensures Valid() && posted == old(posted)
      ensures Peeked(cqe, available, err, Contents()) == Peek(old(Contents()))
    {
      hide U32, And, IsPow2, Distance, Slots;
      err := 0;
      while true
        invariant Valid() && err == 0 && posted == old(posted)
        invariant Peek(Contents()) == Peek(old(Contents()))
        decreases |Contents()|
      {
        cqe := None;
        available := U32(ktail - khead);
        if available == 0 {
          break;
        }
        HeadSlot(entries, khead, ktail);
        var c := cqes[And(khead, entries - 1)];
        if c.userData == UDATA_TIMEOUT {
          if c.res < 0 {
            err := c.res;
          }
          Advance(1);
          if err == 0 {
            continue;
          }
          break;
        }
        cqe := Some(c);
        break;
      }
    }

    /** The slots of the first completions, as pointers to them. */
    method FirstSlots(slots: array<nat>, count: nat) returns (n: nat)
      requires Valid() && count <= slots.Length
      modifies slots
      ensures Valid() && n == Min(count, |Contents()|)
      ensures forall k :: 0 <= k < n ==> slots[k] < entries && slots[k] == Slots(entries, khead, ktail)[k]
      ensures forall k :: 0 <= k < n ==> cqes[slots[k]] == Contents()[k]
      ensures slots[n..] == old(slots[n..])
    {
      hide U32, And, IsPow2, Distance, Slots;
      n := 0;
      var ready := U32(ktail - khead);
      if ready > 0 {
        var head := khead;
        n := if count > ready then ready else count;
        var last := U32(head + n);
        var i := 0;
        BatchStep(khead, 0, n);
        while head != last
          invariant 0 <= i <= n && head == U32(khead + i) && (head == last <==> i == n)
          invariant forall k :: 0 <= k < i ==> slots[k] == Slots(entries, khead, ktail)[k]
          invariant slots[n..] == old(slots[n..])
          decreases n - i
        {
          SlotAt(entries, khead, ktail, i);
          BatchStep(khead, i + 1, n);
          slots[i] := And(head, entries - 1);
          head := U32(head + 1);
          i := i + 1;
        }
      }
    }

    /** What entering the kernel for an overflow flush does: completions it has kept back move into the
        ring, in order, as long as there is room. */
    method Flush(backlog: seq<Cqe>) returns (kept: seq<Cqe>)
      requires Valid()
      modifies this`ktail, this`posted, cqes
      ensures Valid()
      ensures Contents() + kept == old(Contents()) + backlog
      ensures kept == [] || |Contents()| == entries
    {
      kept := backlog;
      while kept != [] && U32(ktail - khead) < entries
        invariant Valid() && Contents() + kept == old(Contents()) + backlog
        decreases |kept|
      {
        ghost var was := Contents();
        Post(kept[0]);
        assert Contents() + kept[1..] == was + kept;
        kept := kept[1..];
      }
    }

    /** `io_uring_peek_batch_cqe`: pointers to the first completions, as slots. An empty ring is
        flushed once if the kernel has completions kept back, its backlog. */
    method PeekBatch(slots: array<nat>, count: nat, backlog: seq<Cqe>) returns (n: nat, kept: seq<Cqe>)
      requires Valid() && count <= slots.Length
      modifies this`ktail, this`posted, cqes, slots
      ensures Valid() && n == Min(count, |Contents()|)
      ensures forall k :: 0 <= k < n ==> slots[k] < entries && cqes[slots[k]] == Contents()[k]
      ensures Contents() + kept == old(Contents()) + backlog
      ensures old(Contents()) != [] ==> Contents() == old(Contents())
      ensures old(Contents()) == [] && backlog != [] ==> Contents() != []
    {
      hide U32, And, IsPow2, Distance, Slots, Cells;
      kept := backlog;
      n := FirstSlots(slots, count);
      if U32(ktail - khead) == 0 && kept != [] {
        kept := Flush(kept);
        n := FirstSlots(slots, count);
      }
    }
  }

  lemma PostSteps(entries: nat, head: nat, tail: nat)
    requires ValidEntries(entries) && IsWord(head) && IsWord(tail) && U32(tail - head) < entries
    ensures var slot, next := SlotOf(entries, tail), U32(tail + 1);
      && IsWord(next) && And(tail, entries - 1) == slot < entries && Distance(head, next) <= entries
      && Slots(entries, head, next) == Slots(entries, head, tail) + [slot]
      && AllDifferent(Slots(entries, head, tail) + [slot])
  {
    hide And, IsPow2, Slots;
    SmallWord(tail);
    Wraps(tail + 1);
    MaskedIndex(entries, tail);
    DistanceSteps(head, tail, 0);
    SlotsAppend(entries, head, tail);
    SlotsDiffer(entries, head, U32(tail + 1));
  }

  lemma SlotAt(entries: nat, head: nat, tail: nat, i: nat)
    requires ValidEntries(entries) && i < Distance(head, tail)
    ensures And(U32(head + i), entries - 1) == Slots(entries, head, tail)[i]
  {
    hide And, IsPow2, U32;
    MaskedIndex(entries, head + i);
  }

  lemma HeadSlot(entries: nat, head: nat, tail: nat)
    requires ValidEntries(entries) && IsWord(head) && U32(tail - head) != 0
    ensures |Slots(entries, head, tail)| > 0 && And(head, entries - 1) == Slots(entries, head, tail)[0]
  {
    hide And, IsPow2;
    MaskedIndex(entries, head);
  }

  lemma WordsStay(x: nat)
    ensures IsWord(U32(x + 1))
  {
  }

  /** The loop variable of a batch: it wraps like the counter, and meets the end only at the end. */
  lemma BatchStep(head: nat, i: nat, n: nat)
    requires i <= n <= 0x8000_0000 && IsWord(head)
    ensures U32(head + i) == U32(head + n) <==> i == n
    ensures i > 0 ==> U32(U32(head + i - 1) + 1) == U32(head + i)
    ensures i == 0 ==> U32(head + i) == head
  {
  }
}
