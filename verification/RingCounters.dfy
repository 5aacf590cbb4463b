/** Ring counters: 32-bit words that wrap, and the slots they stand for in a power-of-two ring. */
module RingCounters {
  import opened Arithmetic

  /** Ring sizes are powers of two that a word can hold with room for one more. */
  predicate ValidEntries(entries: nat) {
    IsPow2(entries) && 0 < entries <= 0x8000_0000
  }

  predicate IsWord(x: nat) {
    x < TWO_32
  }

  /** `tail - head` on unsigned words. */
  function Distance(head: nat, tail: nat): nat {
    U32(tail - head)
  }

  /** The slot that a counter stands for. */
  function SlotOf(entries: nat, x: nat): (slot: nat)
    requires entries > 0
    ensures slot < entries
  {
    x % entries
  }

  /** The slots of the entries from head up to tail, oldest first. */
  function Slots(entries: nat, head: nat, tail: nat): (slots: seq<nat>)
    requires entries > 0
    ensures |slots| == Distance(head, tail)
    ensures forall k :: 0 <= k < |slots| ==> slots[k] < entries
  {
    seq(Distance(head, tail), k requires 0 <= k < Distance(head, tail) => (head + k) % entries)
  }

  predicate AllDifferent(slots: seq<nat>) {
    forall j, k :: 0 <= j < k < |slots| ==> slots[j] != slots[k]
  }

  /** Wrapping a counter round does not move its slot. */
  lemma WrapKeepsSlot(entries: nat, x: nat, k: nat)
    requires ValidEntries(entries)
    ensures SlotOf(entries, U32(x) + k) == SlotOf(entries, x + k)
  {
    WordsArePow2();
    Pow2Divides(entries, TWO_32);
    DivMod(x, TWO_32);
    ModProduct(TWO_32, x / TWO_32, entries);
    assert x + k == TWO_32 * (x / TWO_32) + (U32(x) + k);
    ModSum(TWO_32 * (x / TWO_32), U32(x) + k, entries);
  }

  /** The masked index of a counter is its slot. */
  lemma MaskedIndex(entries: nat, x: nat)
    requires ValidEntries(entries)
    ensures And(U32(x), entries - 1) == SlotOf(entries, x) == x % entries
  {
    MaskIsMod(U32(x), entries);
    WrapKeepsSlot(entries, x, 0);
  }

  lemma Wraps(x: nat)
    ensures IsWord(U32(x))
  {
  }

  lemma DistanceSteps(head: nat, tail: nat, n: nat)
    requires IsWord(head) && IsWord(tail)
    ensures n <= Distance(head, tail) ==> Distance(U32(head + n), tail) == Distance(head, tail) - n
    ensures Distance(head, tail) + 1 < TWO_32 ==> Distance(head, U32(tail + 1)) == Distance(head, tail) + 1
  {
    WordCases(tail - head);
    WordCases(tail + 1);
    WordCases(U32(tail + 1) - head);
    if n <= Distance(head, tail) {
      WordCases(head + n);
      WordCases(tail - U32(head + n));
    }
    hide U32;
  }

  lemma WordCases(x: int)
    requires x + TWO_32 >= 0 && x < 2 * TWO_32
    ensures U32(x) == if x < 0 then x + TWO_32 else if x < TWO_32 then x else x - TWO_32
  {
  }

  /** The slot of the k-th entry from head. */
  lemma SlotAtIndex(entries: nat, head: nat, tail: nat, k: nat)
    requires entries > 0 && k < Distance(head, tail)
    ensures Slots(entries, head, tail)[k] == SlotOf(entries, head + k)
  {
    hide Distance;
  }

  lemma DroppedSlot(entries: nat, head: nat, tail: nat, n: nat, k: nat)
    requires ValidEntries(entries) && n + k < Distance(head, tail) && k < Distance(U32(head + n), tail)
    ensures Slots(entries, U32(head + n), tail)[k] == Slots(entries, head, tail)[n + k]
  {
    hide U32, Distance, Slots, SlotOf;
    WrapKeepsSlot(entries, head + n, k);
    SlotAtIndex(entries, head, tail, n + k);
    SlotAtIndex(entries, U32(head + n), tail, k);
  }

  lemma DropIsTail(whole: seq<nat>, rest: seq<nat>, n: nat)
    requires n <= |whole| && |rest| == |whole| - n && forall k :: 0 <= k < |rest| ==> rest[k] == whole[n + k]
    ensures rest == whole[n..]
  {
  }

  /** Consuming n entries drops the n oldest slots. */
  lemma SlotsDrop(entries: nat, head: nat, tail: nat, n: nat)
    requires ValidEntries(entries) && IsWord(head) && IsWord(tail) && n <= Distance(head, tail)
    ensures Slots(entries, U32(head + n), tail) == Slots(entries, head, tail)[n..]
  {
    DistanceSteps(head, tail, n);
    var whole, rest := Slots(entries, head, tail), Slots(entries, U32(head + n), tail);
    hide U32, Distance, Slots, ValidEntries;
    forall k | 0 <= k < |rest|
      ensures rest[k] == whole[n + k]
    {
      DroppedSlot(entries, head, tail, n, k);
    }
    DropIsTail(whole, rest, n);
  }

  /** The entry behind the last is the tail's. */
  lemma TailSlot(entries: nat, head: nat, tail: nat)
    requires ValidEntries(entries) && IsWord(head) && IsWord(tail)
    ensures SlotOf(entries, head + Distance(head, tail)) == SlotOf(entries, tail)
  {
    var n := Distance(head, tail);
    assert head + n == tail || head + n == tail + TWO_32;
    assert U32(head + n) == tail;
    hide U32, Distance, SlotOf, ValidEntries;
    WrapKeepsSlot(entries, head + n, 0);
  }

  /** One more entry adds the tail's slot behind the others. */
  lemma SlotsAppend(entries: nat, head: nat, tail: nat)
    requires ValidEntries(entries) && IsWord(head) && IsWord(tail) && Distance(head, tail) + 1 < TWO_32
    ensures Slots(entries, head, U32(tail + 1)) == Slots(entries, head, tail) + [SlotOf(entries, tail)]
  {
    DistanceSteps(head, tail, 0);
    TailSlot(entries, head, tail);
    hide U32, Distance, Slots, SlotOf, ValidEntries;
    var n := Distance(head, tail);
    forall k | 0 <= k < n + 1
      ensures Slots(entries, head, U32(tail + 1))[k] == (Slots(entries, head, tail) + [SlotOf(entries, tail)])[k]
    {
      SlotAtIndex(entries, head, U32(tail + 1), k);
      if k < n {
        SlotAtIndex(entries, head, tail, k);
      }
    }
  }

  lemma NearbyDiffer(entries: nat, x: nat, y: nat)
    requires entries > 0 && x < y < x + entries
    ensures SlotOf(entries, x) != SlotOf(entries, y)
  {
    DivMod(x, entries);
    DivMod(y, entries);
    var a, b := x / entries, y / entries;
    if a < b && x % entries == y % entries {
      MulOrder(a, b, entries);
    } else if b < a {
      MulOrder(b, a, entries);
    }
  }

  /** A ring that is not overfull never uses a slot twice. */
  lemma SlotsDiffer(entries: nat, head: nat, tail: nat)
    requires entries > 0 && Distance(head, tail) <= entries
    ensures AllDifferent(Slots(entries, head, tail))
  {
    var slots := Slots(entries, head, tail);
    hide SlotOf, Slots, Distance;
    forall j, k | 0 <= j < k < |slots|
      ensures slots[j] != slots[k]
    {
      SlotAtIndex(entries, head, tail, j);
      SlotAtIndex(entries, head, tail, k);
      NearbyDiffer(entries, head + j, head + k);
    }
  }

  /** The test in `get_sqe` finds room exactly when `sq_space_left` is not zero, wrapped or not. */
  lemma RoomTest(entries: nat, head: nat, tail: nat)
    requires ValidEntries(entries) && IsWord(head) && IsWord(tail) && Distance(head, tail) <= entries
    ensures U32(U32(tail + 1) - head) <= entries <==> U32(entries - Distance(head, tail)) != 0
    ensures U32(entries - Distance(head, tail)) == entries - Distance(head, tail)
  {
    DistanceSteps(head, tail, 0);
  }

  // ---------------------------------------------------------------- the cells of a ring

  predicate InRange(slots: seq<nat>, n: nat) {
    forall k :: 0 <= k < |slots| ==> slots[k] < n
  }

  /** The contents of some cells, in the order of their slots. */
  function Cells<T>(cells: seq<T>, slots: seq<nat>): (r: seq<T>)
    requires InRange(slots, |cells|)
    ensures |r| == |slots|
  {
    seq(|slots|, k requires 0 <= k < |slots| => cells[slots[k]])
  }

  lemma CellsJoin<T>(cells: seq<T>, a: seq<nat>, b: seq<nat>)
    requires InRange(a, |cells|) && InRange(b, |cells|)
    ensures InRange(a + b, |cells|) && Cells(cells, a + b) == Cells(cells, a) + Cells(cells, b)
  {
  }

  /** Writing behind the last of several different slots adds the value behind the others. */
  lemma CellsAfterWrite<T>(cells: seq<T>, slots: seq<nat>, slot: nat, v: T)
    requires slot < |cells| && InRange(slots + [slot], |cells|) && AllDifferent(slots + [slot])
    ensures InRange(slots, |cells|) && Cells(cells[slot := v], slots + [slot]) == Cells(cells, slots) + [v]
  {
    var all := slots + [slot];
    assert forall k :: 0 <= k < |slots| ==> slots[k] == all[k] != all[|slots|];
  }
}
