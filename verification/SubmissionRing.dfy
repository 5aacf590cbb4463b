/** The submission side of liburing: handing out entries, publishing them, and what the kernel sees. */
module SubmissionRing {
  import opened Arithmetic
  import opened RingCounters
  import opened Runner

  /** `struct io_uring_sq`. The four counters are words; `indices` is the array the kernel reads.
      `handedOut` and `consumed` record the slots of all entries ever obtained and ever taken. */
  class SubmissionRing<T> {
    const entries: nat
    const sqes: array<T>
    const indices: array<nat>
    var khead: nat
    var ktail: nat
    var sqeHead: nat
    var sqeTail: nat
    ghost var handedOut: seq<nat>
    ghost var consumed: seq<nat>

    ghost predicate Valid()
      reads this, sqes, indices
    {
      && ValidEntries(entries) && sqes.Length == indices.Length == entries
      && (sqes as object) != indices
      && IsWord(khead) && IsWord(ktail) && IsWord(sqeHead) && IsWord(sqeTail)
      && ktail == sqeHead
      && Distance(khead, ktail) + Distance(ktail, sqeTail) == Distance(khead, sqeTail) <= entries
      && Faithful(indices[..], Published())
      && handedOut == consumed + Outstanding()
    }

    /** Slots handed out and not yet consumed, oldest first. */
    ghost function Outstanding(): (slots: seq<nat>)
      reads this
      requires entries > 0
      ensures InRange(slots, entries)
    {
      Slots(entries, khead, sqeTail)
    }

    /** The part of them that the kernel can see. */
    ghost function Published(): (slots: seq<nat>)
      reads this
      requires entries > 0
      ensures InRange(slots, entries)
    {
      Slots(entries, khead, ktail)
    }

    /** The entries in the outstanding slots. */
    ghost function Queue(): (q: seq<T>)
      reads this, sqes
      requires sqes.Length == entries > 0
      ensures |q| == |Outstanding()|
    {
      Cells(sqes[..], Outstanding())
    }

    /** `io_uring_sq_ready` and `io_uring_sq_space_left`. */
    function SqReady(): nat
      reads this
    {
      U32(sqeTail - khead)
    }

    function SpaceLeft(): nat
      reads this
    {
      U32(entries - SqReady())
    }

    constructor (entries: nat, blank: T)
      requires ValidEntries(entries)
      ensures Valid() && fresh(sqes) && fresh(indices) && this.entries == entries
      ensures Outstanding() == handedOut == consumed == []
    {
      this.entries := entries;
      sqes := new T[entries](_ => blank);
      indices := new nat[entries](_ => 0);
      khead, ktail, sqeHead, sqeTail := 0, 0, 0, 0;
      handedOut, consumed := [], [];
    }

    /** No slot is out twice. */
    lemma NoSlotTwice()
      requires Valid()
      ensures AllDifferent(Outstanding())
    {
      SlotsDiffer(entries, khead, sqeTail);
    }

    /** `io_uring_get_sqe`: the next slot, or none exactly when no space is left. */
    method GetSqe() returns (slot: Option<nat>)
      requires Valid()
      modifies this`sqeTail, this`handedOut
      ensures Valid()
      ensures slot.None? <==> old(SpaceLeft()) == 0
      ensures slot.None? <==> |old(Outstanding())| == entries
      ensures slot.None? ==> Outstanding() == old(Outstanding()) && handedOut == old(handedOut)
      ensures slot.Some? ==>
        && slot.value < entries && slot.value !in old(Outstanding())
        && Outstanding() == old(Outstanding()) + [slot.value] && handedOut == old(handedOut) + [slot.value]
    {
      hide And, IsPow2, Slots, SlotOf, Distance, Faithful, U32, InRange;
      RoomTest(entries, khead, sqeTail);
      DistanceOf(khead, sqeTail);
      var next := U32(sqeTail + 1);
      slot := None;
      if U32(next - khead) <= entries {
        TailSteps(entries, khead, ktail, sqeTail);
        slot := Some(And(sqeTail, entries - 1));
        Regroup(consumed, Outstanding(), slot.value);
        sqeTail := next;
        handedOut := handedOut + [slot.value];
      }
    }

    /** Obtaining an entry and filling it in, as every `getSqe` and `io_uring_prep_*` pair does. */
    method Put(sqe: T) returns (ok: bool)
      requires Valid()
      modifies this`sqeTail, this`handedOut, sqes
      ensures Valid()
      ensures ok <==> old(SpaceLeft()) != 0
      ensures Queue() == if ok then old(Queue()) + [sqe] else old(Queue())
    {
      hide And, IsPow2, Slots, SlotOf, Distance, Faithful, U32, Cells;
      var slot := GetSqe();
      ok := slot.Some?;
      if ok {
        NoSlotTwice();
        CellsAfterWrite(sqes[..], old(Outstanding()), slot.value, sqe);
        sqes[slot.value] := sqe;
        assert sqes[..] == old(sqes[..])[slot.value := sqe];
      }
    }

    /** `__io_uring_flush_sq`: publishes every entry handed out so far, in order. */
    method FlushSq() returns (pending: nat)
      requires Valid()
      modifies this`ktail, this`sqeHead, indices
      ensures Valid()
      ensures Outstanding() == old(Outstanding()) && Queue() == old(Queue())
      ensures Published() == Outstanding() && pending == |Outstanding()|
    {
      hide And, IsPow2, Slots, SlotOf, Distance, Faithful, U32, Cells;
      var tail: nat := ktail;
      if sqeHead != sqeTail {
        DistanceOf(sqeHead, sqeTail);
        var toSubmit := U32(sqeTail - sqeHead);
        while toSubmit > 0
          invariant IsWord(tail) && tail == sqeHead
          invariant toSubmit == Distance(tail, sqeTail)
          invariant Distance(khead, tail) + toSubmit == Distance(khead, sqeTail)
          invariant Faithful(indices[..], Slots(entries, khead, tail))
          modifies this`sqeHead, indices
        {
          PublishSteps(entries, khead, tail, sqeTail, indices[..]);
          ghost var was, slot: nat := indices[..], SlotOf(entries, tail);
          indices[And(tail, entries - 1)] := And(sqeHead, entries - 1);
          assert indices[..] == was[slot := slot];
          tail := U32(tail + 1);
          sqeHead := U32(sqeHead + 1);
          toSubmit := toSubmit - 1;
        }
        ktail := tail;
      }
      SameWord(tail, sqeTail);
      DistanceOf(khead, tail);
      pending := U32(tail - khead);
    }

    /** What the kernel does for one entry: it reads the index array at its head and moves on. */
    method Consume() returns (slot: nat, sqe: T)
      requires Valid() && Published() != []
      modifies this`khead, this`consumed
      ensures Valid()
      ensures old(Outstanding()) == [slot] + Outstanding() && consumed == old(consumed) + [slot]
      ensures slot < entries && sqe == sqes[slot]
      ensures old(Queue()) == [sqe] + Queue()
      ensures Published() == old(Published())[1..]
    {
      hide And, IsPow2, Slots, SlotOf, Distance, U32, Cells;
      HeadSteps(entries, khead, ktail, sqeTail);
      slot := indices[And(khead, entries - 1)];
      assert slot == Published()[0] == Outstanding()[0];
      sqe := sqes[slot];
      khead := U32(khead + 1);
      consumed := consumed + [slot];
      assert old(Outstanding()) == [slot] + Outstanding();
      assert consumed + Outstanding() == old(consumed) + ([slot] + Outstanding());
      FaithfulRest(indices[..], slot, Published());
      CellsJoin(sqes[..], [slot], Outstanding());
      CellsOne(sqes[..], slot);
    }

    /** `io_uring_submit`: everything is published, and the kernel takes the first n entries. */
    method Submit(n: nat) returns (taken: seq<T>)
      requires Valid() && n <= |Outstanding()|
      modifies this`ktail, this`sqeHead, this`khead, this`consumed, indices
      ensures Valid()
      ensures old(Queue()) == taken + Queue() && |taken| == n
      ensures handedOut == old(handedOut)
    {
      hide Slots, Distance, Cells, Faithful;
      var pending := FlushSq();
      taken := [];
      var i := 0;
      while i < n
        invariant Valid() && 0 <= i <= n && n - i <= |Published()|
        invariant old(Queue()) == taken + Queue() && |taken| == i
        invariant handedOut == old(handedOut)
        modifies this`khead, this`consumed
      {
        var slot, sqe := Consume();
        taken := taken + [sqe];
        i := i + 1;
      }
    }
  }

  lemma Regroup(a: seq<nat>, b: seq<nat>, x: nat)
    ensures a + (b + [x]) == a + b + [x]
  {
  }

  /** The index array names, at each of these slots, the slot itself. */
  predicate Faithful(indices: seq<nat>, slots: seq<nat>) {
    InRange(slots, |indices|) && forall k :: 0 <= k < |slots| ==> indices[slots[k]] == slots[k]
  }

  lemma FaithfulRest(indices: seq<nat>, slot: nat, rest: seq<nat>)
    requires Faithful(indices, [slot] + rest)
    ensures Faithful(indices, rest)
  {
    var all := [slot] + rest;
    assert forall k :: 0 <= k < |rest| ==> rest[k] == all[k + 1];
  }

  lemma FaithfulAppend(indices: seq<nat>, slots: seq<nat>, slot: nat)
    requires Faithful(indices, slots) && slot < |indices|
    ensures Faithful(indices[slot := slot], slots + [slot])
  {
  }

  lemma CellsOne<T>(cells: seq<T>, slot: nat)
    requires slot < |cells|
    ensures Cells(cells, [slot]) == [cells[slot]]
  {
  }

  lemma DistanceOf(head: nat, tail: nat)
    ensures U32(tail - head) == Distance(head, tail)
  {
  }

  lemma SameWord(head: nat, tail: nat)
    requires IsWord(head) && IsWord(tail)
    ensures Distance(head, tail) == 0 <==> head == tail
  {
  }

  /** What moving the tail on by one changes. */
  lemma TailSteps(entries: nat, khead: nat, ktail: nat, tail: nat)
    requires ValidEntries(entries) && IsWord(khead) && IsWord(ktail) && IsWord(tail)
    requires Distance(khead, ktail) + Distance(ktail, tail) == Distance(khead, tail) < entries
    ensures var slot, next := And(tail, entries - 1), U32(tail + 1);
      && IsWord(next) && slot < entries && slot !in Slots(entries, khead, tail)
      && Slots(entries, khead, next) == Slots(entries, khead, tail) + [slot]
      && Distance(khead, next) == Distance(khead, tail) + 1 && Distance(ktail, next) == Distance(ktail, tail) + 1
  {
    hide And, IsPow2, Slots, SlotOf, Distance, U32;
    SmallWord(tail);
    Wraps(tail + 1);
    MaskedIndex(entries, tail);
    DistanceSteps(khead, tail, 0);
    DistanceSteps(ktail, tail, 0);
    SlotsAppend(entries, khead, tail);
    SlotsDiffer(entries, khead, U32(tail + 1));
    LastIsNew(Slots(entries, khead, tail), SlotOf(entries, tail));
  }

  lemma LastIsNew(slots: seq<nat>, slot: nat)
    requires AllDifferent(slots + [slot])
    ensures slot !in slots
  {
    var all := slots + [slot];
    assert forall k :: 0 <= k < |slots| ==> slots[k] == all[k] != all[|slots|];
  }

  /** What publishing one more entry changes. */
  lemma PublishSteps(entries: nat, khead: nat, ktail: nat, tail: nat, indices: seq<nat>)
    requires ValidEntries(entries) && IsWord(khead) && IsWord(ktail) && IsWord(tail) && |indices| == entries
    requires Distance(khead, ktail) + Distance(ktail, tail) == Distance(khead, tail) <= entries && Distance(ktail, tail) > 0
    requires Faithful(indices, Slots(entries, khead, ktail))
    ensures var slot, next := SlotOf(entries, ktail), U32(ktail + 1);
      && IsWord(next) && And(ktail, entries - 1) == slot < entries
      && Faithful(indices[slot := slot], Slots(entries, khead, next))
      && Distance(khead, next) == Distance(khead, ktail) + 1 && Distance(next, tail) == Distance(ktail, tail) - 1
  {
    hide And, IsPow2, Slots, SlotOf, Distance, U32, Faithful;
    SmallWord(ktail);
    Wraps(ktail + 1);
    MaskedIndex(entries, ktail);
    DistanceSteps(khead, ktail, 0);
    DistanceSteps(ktail, tail, 1);
    SlotsAppend(entries, khead, ktail);
    FaithfulAppend(indices, Slots(entries, khead, ktail), SlotOf(entries, ktail));
  }

  /** What moving the head on by one changes. */
  lemma HeadSteps(entries: nat, khead: nat, ktail: nat, tail: nat)
    requires ValidEntries(entries) && IsWord(khead) && IsWord(ktail) && IsWord(tail)
    requires Distance(khead, ktail) + Distance(ktail, tail) == Distance(khead, tail) && Distance(khead, ktail) > 0
    ensures var slot, next := And(khead, entries - 1), U32(khead + 1);
      && IsWord(next) && slot < entries
      && Slots(entries, khead, ktail) == [slot] + Slots(entries, next, ktail)
      && Slots(entries, khead, tail) == [slot] + Slots(entries, next, tail)
      && Distance(next, ktail) == Distance(khead, ktail) - 1 && Distance(next, tail) == Distance(khead, tail) - 1
  {
    hide And, IsPow2;
    SmallWord(khead);
    MaskedIndex(entries, khead);
    DistanceSteps(khead, ktail, 1);
    DistanceSteps(khead, tail, 1);
    SlotsDrop(entries, khead, ktail, 1);
    SlotsDrop(entries, khead, tail, 1);
  }
}
