/** The packed history of recent copies: 56 bits of history and a count in the top byte. */
module RollingBitset {
  import opened Arithmetic
  import opened Runner

  const TWO_56: nat := 0x100_0000_0000_0000
  const COUNT_MASK: nat := 0xFF00_0000_0000_0000
  const SET_MASK: nat := 0x00FF_FFFF_FFFF_FFFF
  const BITSET_MASK: nat := 0xFF
  const BUCKET_COUNT: nat := 9
  const WINDOW: nat := 56

  /** The bitwise `|` of two unsigned integers. */
  function Or(x: nat, y: nat): nat {
    if x == 0 then y
    else if y == 0 then x
    else 2 * Or(x / 2, y / 2) + (if x % 2 == 1 || y % 2 == 1 then 1 else 0)
  }

  /** Words without a common bit are added. */
  lemma {:induction false} OrOfDisjoint(low: nat, high: nat, p: nat)
    requires IsPow2(p) && low < p && high % p == 0
    ensures Or(low, high) == Or(high, low) == low + high
  {
    if low > 0 && high > 0 {
      var h := p / 2;
      DoubleDivMod(high, h);
      assert high % 2 == 0;
      OrOfDisjoint(low / 2, high / 2, h);
    }
  }

  // ---------------------------------------------------------------- bits

  function Bit(x: nat, i: nat): bool {
    if i == 0 then x % 2 == 1 else Bit(x / 2, i - 1)
  }

  /** The low k bits depend on the number modulo 2^k only. */
  lemma {:induction false} SameLowBits(x: nat, y: nat, k: nat, i: nat)
    requires i < k && x % Pow2(k) == y % Pow2(k)
    ensures Bit(x, i) == Bit(y, i)
  {
    Pow2IsPow2(k - 1);
    DoubleDivMod(x, Pow2(k - 1));
    DoubleDivMod(y, Pow2(k - 1));
    if i > 0 {
      SameLowBits(x / 2, y / 2, k - 1, i - 1);
    }
  }

  /** The loop of `getBitsOnCount`. */
  function PopCount(x: nat): nat {
    if x == 0 then 0 else x % 2 + PopCount(x / 2)
  }

  /** How many of the first k entries of a history are true. */
  function Trues(log: seq<bool>, k: nat): (n: nat)
    ensures n <= k
  {
    if k == 0 || log == [] then 0 else (if log[0] then 1 else 0) + Trues(log[1..], k - 1)
  }

  lemma {:induction false} PopCountIsTrues(x: nat, log: seq<bool>, k: nat)
    requires forall i: nat :: i < k ==> (Bit(x, i) <==> i < |log| && log[i])
    ensures PopCount(x % Pow2(k)) == Trues(log, k)
  {
    if k == 0 {
      assert x % 1 == 0;
    } else {
      Pow2IsPow2(k - 1);
      DoubleDivMod(x, Pow2(k - 1));
      var y := x % Pow2(k);
      assert y / 2 == (x / 2) % Pow2(k - 1) && y % 2 == x % 2;
      assert Bit(x, 0) <==> 0 < |log| && log[0];
      var rest := if log == [] then [] else log[1..];
      forall i: nat | i < k - 1
        ensures Bit(x / 2, i) <==> i < |rest| && rest[i]
      {
        assert Bit(x, i + 1) == Bit(x / 2, i);
      }
      PopCountIsTrues(x / 2, rest, k - 1);
      assert Trues(log, k) == x % 2 + Trues(rest, k - 1);
      assert PopCount(y) == y % 2 + PopCount(y / 2);
    }
  }

  // ---------------------------------------------------------------- the packed word

  function Count(log: seq<bool>): nat {
    if |log| < WINDOW then |log| else WINDOW
  }

  /** The word stands for this history, newest first. */
  predicate Represents(v: nat, log: seq<bool>) {
    && v < TWO_64
    && v / TWO_56 == Count(log)
    && forall i: nat :: i < WINDOW ==> (Bit(v, i) <==> i < |log| && log[i])
  }

  /** `getCount`. */
  function GetCount(v: nat): nat {
    And(v, COUNT_MASK) / TWO_56
  }

  function Capped(n: nat): nat {
    if n > WINDOW then WINDOW else n
  }

  /** The new value that `addToBuff` computes from the old one. */
  function Shifted(v: nat, b: bool): nat {
    var countPart := Capped(GetCount(v) + 1) * TWO_56;
    var newVal := And(Or(U64(v * 2), if b then 1 else 0), SET_MASK);
    Or(newVal, countPart)
  }

  lemma Constants()
    ensures IsPow2(TWO_56) && IsPow2(TWO_64) && IsPow2(256) && Pow2(56) == TWO_56 && Pow2(8) == 256 && IsPow2(2)
    ensures COUNT_MASK == TWO_64 - TWO_56 && SET_MASK == TWO_56 - 1
  {
    Powers();
    hide Pow2, IsPow2;
    WordsArePow2();
    Pow2IsPow2(56);
    Pow2IsPow2(8);
    Pow2IsPow2(1);
  }

  lemma Powers()
    ensures Pow2(1) == 2 && Pow2(8) == 256 && Pow2(56) == TWO_56
  {
    assert Pow2(8) == 0x100;
    assert Pow2(16) == 0x1_0000;
    assert Pow2(24) == 0x100_0000;
    assert Pow2(32) == TWO_32;
    assert Pow2(40) == 0x100_0000_0000;
    assert Pow2(48) == 0x1_0000_0000_0000;
  }

  lemma CountIsTopByte(v: nat)
    requires v < TWO_64
    ensures GetCount(v) == v / TWO_56
  {
    Constants();
    hide And, IsPow2;
    HighMask(v, TWO_64, TWO_56);
    DivMod(v, TWO_56);
    MultipleMod(v / TWO_56, TWO_56);
  }

  /** The history that a word can hold: 56 entries, and their number. */
  lemma HistoryHeld(v: nat, log: seq<bool>, i: nat)
    requires Represents(v, log)
    ensures GetCount(v) == if |log| < 56 then |log| else 56
    ensures i < 56 ==> (Bit(v, i) <==> i < |log| && log[i])
  {
    CountIsTopByte(v);
  }

  /** Shifting left on 64 bits leaves room for one bit, and loses only what the mask would clear. */
  lemma ShiftLeft(v: nat, bit: nat)
    requires v < TWO_64 && bit < 2
    ensures U64(v * 2) % 2 == 0 && (U64(v * 2) + bit) % TWO_56 == (2 * v + bit) % TWO_56
  {
  }

  lemma LowPart(v: nat, bit: nat)
    requires v < TWO_64 && bit < 2
    ensures And(Or(U64(v * 2), bit), SET_MASK) == (2 * v + bit) % TWO_56
  {
    Constants();
    hide And, Or, IsPow2, Pow2, U64;
    ShiftLeft(v, bit);
    OrOfDisjoint(bit, U64(v * 2), 2);
    MaskIsMod(U64(v * 2) + bit, TWO_56);
  }

  lemma JoinParts(low: nat, count: nat, p: nat)
    requires IsPow2(p) && low < p
    ensures Or(low, count * p) == low + count * p
  {
    MultipleMod(count, p);
    OrOfDisjoint(low, count * p, p);
  }

  /** The masks and shifts in plain arithmetic. */
  lemma ShiftedValue(v: nat, b: bool)
    requires v < TWO_64
    ensures Shifted(v, b) == (2 * v + (if b then 1 else 0)) % TWO_56 + Capped(v / TWO_56 + 1) * TWO_56
  {
    hide And, Or, IsPow2, GetCount, Pow2, U64, Shifted, Capped;
    Constants();
    CountIsTopByte(v);
    LowPart(v, if b then 1 else 0);
    ShiftedIsJoined(v, b, (2 * v + (if b then 1 else 0)) % TWO_56, Capped(v / TWO_56 + 1));
  }

  lemma ShiftedIsJoined(v: nat, b: bool, low: nat, count: nat)
    requires low == And(Or(U64(v * 2), if b then 1 else 0), SET_MASK) < TWO_56 && count == Capped(GetCount(v) + 1)
    requires IsPow2(TWO_56)
    ensures Shifted(v, b) == low + count * TWO_56
  {
    hide And, Or, IsPow2, GetCount, U64;
    JoinParts(low, count, TWO_56);
  }

  /** The new word's count and low bits. */
  lemma ShiftedParts(v: nat, b: bool)
    requires v < TWO_64
    ensures var w := Shifted(v, b);
      && w < TWO_64 && w / TWO_56 == Capped(v / TWO_56 + 1)
      && w % TWO_56 == (2 * v + (if b then 1 else 0)) % TWO_56
  {
    ShiftedValue(v, b);
    hide Shifted;
    var low := (2 * v + (if b then 1 else 0)) % TWO_56;
    DivModUnique(Shifted(v, b), TWO_56, Capped(v / TWO_56 + 1), low);
  }

  lemma ShiftedBits(v: nat, log: seq<bool>, b: bool, w: nat)
    requires forall i: nat :: i < WINDOW ==> (Bit(v, i) <==> i < |log| && log[i])
    requires w % Pow2(56) == (2 * v + (if b then 1 else 0)) % Pow2(56)
    ensures forall i: nat :: i < WINDOW ==> (Bit(w, i) <==> i < |[b] + log| && ([b] + log)[i])
  {
    hide Pow2, Bit;
    forall i: nat | i < WINDOW
      ensures Bit(w, i) <==> i < |[b] + log| && ([b] + log)[i]
    {
      SameLowBits(w, 2 * v + (if b then 1 else 0), 56, i);
      BitOfDouble(v, b, i);
    }
  }

  /** Adding a value refines pushing it onto the history. */
  lemma AddRefinesPush(v: nat, log: seq<bool>, b: bool)
    requires Represents(v, log)
    ensures Represents(Shifted(v, b), [b] + log)
  {
    Constants();
    ShiftedParts(v, b);
    hide And, Or, IsPow2, Shifted, Pow2, Bit;
    ShiftedBits(v, log, b, Shifted(v, b));
  }

  lemma BitOfDouble(v: nat, b: bool, i: nat)
    ensures Bit(2 * v + (if b then 1 else 0), i) == if i == 0 then b else Bit(v, i - 1)
  {
    assert (2 * v + (if b then 1 else 0)) / 2 == v;
  }

  /** The bucket index is the number of big copies among the last eight. */
  lemma LastEight(v: nat, log: seq<bool>)
    requires Represents(v, log)
    ensures PopCount(And(v, BITSET_MASK)) == Trues(log, 8) < BUCKET_COUNT
  {
    Constants();
    hide And, IsPow2, Pow2, PopCount, Bit;
    MaskIsMod(v, 256);
    PopCountIsTrues(v, log, 8);
  }

  function AddAll(v: nat, bs: seq<bool>): nat
    decreases |bs|
  {
    if bs == [] then v else AddAll(Shifted(v, bs[0]), bs[1..])
  }

  function PushAll(log: seq<bool>, bs: seq<bool>): seq<bool>
    decreases |bs|
  {
    if bs == [] then log else PushAll([bs[0]] + log, bs[1..])
  }

  lemma {:induction false} AddAllRefines(v: nat, log: seq<bool>, bs: seq<bool>)
    requires Represents(v, log)
    ensures Represents(AddAll(v, bs), PushAll(log, bs))
    decreases |bs|
  {
    if bs != [] {
      AddRefinesPush(v, log, bs[0]);
      hide Represents, Shifted;
      AddAllRefines(Shifted(v, bs[0]), [bs[0]] + log, bs[1..]);
    }
  }

  /** All that rivals have pushed in the first k rounds. */
  function Rounds(log: seq<bool>, rivals: seq<seq<bool>>, k: nat): seq<bool>
    requires k <= |rivals|
  {
    if k == 0 then log else PushAll(Rounds(log, rivals, k - 1), rivals[k - 1])
  }

  /** `log` is the history of all additions, newest first. */
  class RollingBitset {
    var atomicBuffer: nat
    ghost var log: seq<bool>

    ghost predicate Valid()
      reads this
    {
      Represents(atomicBuffer, log)
    }

    constructor ()
      ensures Valid() && log == []
    {
      atomicBuffer, log := 0, [];
      new;
      forall i: nat | i < WINDOW
        ensures !Bit(0, i)
      {
        ZeroBits(i);
      }
    }

    /** The compare-and-swap loop. `rivals[k]` is what other threads add between the load and the
        swap of round k. However they interleave, this value is pushed exactly once, on top of
        whatever the others had pushed by then. */
    method AddToBuff(b: bool, rivals: seq<seq<bool>>) returns (round: nat)
      requires Valid()
      modifies this
      ensures Valid()
      ensures round <= |rivals| && log == [b] + Rounds(old(log), rivals, round)
    {
      round := 0;
      while true
        invariant Valid() && 0 <= round <= |rivals| && log == Rounds(old(log), rivals, round)
        decreases |rivals| - round
      {
        var oldVal := atomicBuffer;
        var newVal := Shifted(oldVal, b);
        if round < |rivals| {
          AddAllRefines(atomicBuffer, log, rivals[round]);
          atomicBuffer := AddAll(atomicBuffer, rivals[round]);
          log := PushAll(log, rivals[round]);
          round := round + 1;
        }
        if atomicBuffer == oldVal {
          AddRefinesPush(oldVal, log, b);
          atomicBuffer := newVal;
          log := [b] + log;
          break;
        }
      }
    }

    /** `getBitsOnCount`. */
    method GetBitsOnCount(mask: nat) returns (count: nat)
      ensures count == PopCount(And(atomicBuffer, mask))
    {
      count := 0;
      var tmp := And(atomicBuffer, mask);
      while tmp != 0
        invariant count + PopCount(tmp) == PopCount(And(atomicBuffer, mask))
      {
        count := count + tmp % 2;
        tmp := tmp / 2;
      }
    }

    /** The bucket that `updateSpeedEstimate` picks once eight copies are on record. */
    method Bucket() returns (idx: Option<nat>)
      requires Valid()
      ensures idx.Some? <==> |log| >= 8
      ensures idx.Some? ==> idx.value == Trues(log, 8) < 9
    {
      hide And, Shifted, PopCount;
      CountIsTopByte(atomicBuffer);
      idx := None;
      if GetCount(atomicBuffer) >= BUCKET_COUNT - 1 {
        LastEight(atomicBuffer, log);
        var n := GetBitsOnCount(BITSET_MASK);
        idx := Some(n);
      }
    }
  }

  lemma {:induction false} ZeroBits(i: nat)
    ensures !Bit(0, i)
  {
    if i > 0 {
      ZeroBits(i - 1);
    }
  }
}
