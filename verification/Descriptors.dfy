/** Descriptor reservation, load by load and swap by swap. */
module Descriptors {
  import opened Arithmetic
  import opened Runner
  import opened Engine

  /** The adding thread inside `reserveFileDescriptor(Low)`. */
  datatype LowSide = LowAway | LowLoaded(seen: nat)

  /** The submit thread once past its `outOfFds` check: how many descriptors it still has to reserve,
      what it has loaded, and how often the present reservation has failed since `start` were used. */
  datatype HighSide = HighAway | Reserving(need: nat, seen: Option<nat>, failures: nat, start: nat)

  datatype Desk = Desk(cap: nat, used: nat, low: LowSide, high: HighSide)

  datatype Step =
    | LowLoad
    | LowSwap
    | Check(need: nat)
    | HighLoad
    | HighSwap
    | StopReserving
    | Close

  predicate Enabled(s: Desk, a: Step) {
    match a
    case LowLoad => s.low.LowAway?
    case LowSwap => s.low.LowLoaded?
    case Check(need) => s.high.HighAway? && 1 <= need <= HIGH_PRIORITY_FDS
    case HighLoad => s.high.Reserving? && s.high.seen.None?
    case HighSwap => s.high.Reserving? && s.high.seen.Some?
    case StopReserving => s.high.Reserving?
    case Close => s.high.HighAway? && s.used > RESERVED_FDS
  }

  /** Whether a compare-and-swap from the loaded value goes through below the limit. */
  predicate Reserves(s: Desk, seen: nat, limit: nat) {
    seen < limit && s.used == seen
  }

  function Next(s: Desk, a: Step): Desk
    requires Enabled(s, a) && HIGH_PRIORITY_FDS <= s.cap
  {
    match a
    case LowLoad => s.(low := LowLoaded(s.used))
    case LowSwap =>
      if Reserves(s, s.low.seen, s.cap - HIGH_PRIORITY_FDS) then s.(used := s.used + 1, low := LowAway)
      else s.(low := LowAway)
    case Check(need) =>
      if U64(s.cap - s.used) < HIGH_PRIORITY_FDS then s else s.(high := Reserving(need, None, 0, s.used))
    case HighLoad => s.(high := s.high.(seen := Some(s.used)))
    case HighSwap =>
      if !Reserves(s, s.high.seen.value, s.cap) then s.(high := s.high.(seen := None, failures := s.high.failures + 1))
      else if s.high.need <= 1 then s.(used := s.used + 1, high := HighAway)
      else s.(used := s.used + 1, high := Reserving(s.high.need - 1, None, 0, s.used + 1))
    case StopReserving => s.(high := HighAway)
    case Close => s.(used := s.used - 1)
  }

  /** Low reservations stop at the low limit, so beyond what was used at the start of a high one they
      add at most the room below it, and every failed swap is one of them. */
  predicate Inv(s: Desk) {
    && RESERVED_FDS + HIGH_PRIORITY_FDS <= s.cap < TWO_64
    && s.used <= s.cap
    && (s.high.Reserving? ==>
      var h := s.high;
      && 1 <= h.need <= HIGH_PRIORITY_FDS && s.used + h.need <= s.cap
      && h.start <= s.used && (s.used <= h.start || s.used <= s.cap - HIGH_PRIORITY_FDS)
      && match h.seen
         case None => h.failures <= s.used - h.start
         case Some(v) => h.start + h.failures <= v <= s.used)
  }

  predicate IsRun(states: seq<Desk>, steps: seq<Step>) {
    && |states| == |steps| + 1
    && forall k :: 0 <= k < |steps| ==>
      HIGH_PRIORITY_FDS <= states[k].cap && Enabled(states[k], steps[k]) && states[k + 1] == Next(states[k], steps[k])
  }

  predicate Initial(s: Desk) {
    && RESERVED_FDS + HIGH_PRIORITY_FDS <= s.cap < TWO_64
    && s.used == RESERVED_FDS && s.low.LowAway? && s.high.HighAway?
  }

  lemma StepKeepsInv(s: Desk, a: Step)
    requires Inv(s) && Enabled(s, a)
    ensures Inv(Next(s, a))
  {
    if a.Check? {
      assert U64(s.cap - s.used) == s.cap - s.used;
    }
  }

  lemma {:induction false} RunKeepsInv(states: seq<Desk>, steps: seq<Step>)
    requires IsRun(states, steps) && Initial(states[0])
    ensures Inv(states[|steps|])
    decreases |steps|
  {
    hide Enabled, Next;
    if steps != [] {
      var n := |steps| - 1;
      assert IsRun(states[..n + 1], steps[..n]);
      RunKeepsInv(states[..n + 1], steps[..n]);
      assert states[..n + 1][n] == states[n];
      StepKeepsInv(states[n], steps[n]);
    }
  }

  /** The cap holds at every moment of every interleaving, a low reservation always leaves two
      descriptors, and a high one never finds the counter at the cap: it fails only because a low
      one slipped in, which happens no more often than there was room below the low limit. */
  lemma SpinIsBounded(states: seq<Desk>, steps: seq<Step>)
    requires IsRun(states, steps) && Initial(states[0])
    ensures var s := states[|steps|];
      && s.used <= s.cap
      && (s.high.Reserving? ==>
        && s.used < s.cap
        && (s.high.seen.Some? ==> s.high.seen.value < s.cap)
        && s.high.failures <= (if s.high.start < s.cap - HIGH_PRIORITY_FDS then s.cap - HIGH_PRIORITY_FDS - s.high.start else 0))
    ensures var s := states[|steps|];
      && s.cap >= HIGH_PRIORITY_FDS
      && (Enabled(s, LowSwap) && Next(s, LowSwap).used > s.used ==> s.cap - Next(s, LowSwap).used >= HIGH_PRIORITY_FDS)
  {
    RunKeepsInv(states, steps);
  }

  /** Undisturbed, a high reservation goes through at the first attempt. */
  lemma UndisturbedSucceeds(states: seq<Desk>, steps: seq<Step>)
    requires IsRun(states, steps) && Initial(states[0]) && Enabled(states[|steps|], HighLoad)
    ensures var s := states[|steps|];
      && s.cap >= HIGH_PRIORITY_FDS && Enabled(Next(s, HighLoad), HighSwap)
      && Next(Next(s, HighLoad), HighSwap).used == s.used + 1
  {
    RunKeepsInv(states, steps);
  }

  /** So does a low one if two descriptors and one more are free, and otherwise it takes nothing; and the
      submit thread commits itself if and only if two are free. */
  lemma UndisturbedTakes(states: seq<Desk>, steps: seq<Step>, need: nat)
    requires IsRun(states, steps) && Initial(states[0])
    ensures var s := states[|steps|];
      s.cap >= 2 && (Enabled(s, LowLoad) ==>
        && Enabled(Next(s, LowLoad), LowSwap)
        && Next(Next(s, LowLoad), LowSwap).used == s.used + (if s.used + 2 < s.cap then 1 else 0))
    ensures var s := states[|steps|];
      Enabled(s, Step.Check(need)) ==> (Next(s, Step.Check(need)).high.Reserving? <==> s.cap - s.used >= 2)
  {
    RunKeepsInv(states, steps);
    var s := states[|steps|];
    assert s.used <= s.cap;
    assert U64(s.cap - s.used) == s.cap - s.used;
  }

  // ---------------------------------------------------------------- one step at a time

  /** Reservation as the engine has it: a counter, and what the submit thread is still committed to. */
  datatype Coarse = Coarse(cap: nat, used: nat, need: nat)

  datatype Move = LowTake | Commit(need: nat) | HighTake | Release | Give

  predicate MoveOk(c: Coarse, m: Move) {
    match m
    case LowTake => c.used + HIGH_PRIORITY_FDS < c.cap
    case Commit(need) => c.need == 0 && 1 <= need <= HIGH_PRIORITY_FDS && c.used + HIGH_PRIORITY_FDS <= c.cap
    case HighTake => c.need > 0 && c.used < c.cap
    case Release => c.need > 0
    case Give => c.need == 0 && c.used > RESERVED_FDS
  }

  function Moved(c: Coarse, m: Move): Coarse
    requires MoveOk(c, m)
  {
    match m
    case LowTake => c.(used := c.used + 1)
    case Commit(need) => c.(need := need)
    case HighTake => c.(used := c.used + 1, need := c.need - 1)
    case Release => c.(need := 0)
    case Give => c.(used := c.used - 1)
  }

  /** These moves, one after the other, lead from c to c'. */
  predicate Leads(c: Coarse, moves: seq<Move>, c': Coarse)
    decreases |moves|
  {
    if moves == [] then c == c' else MoveOk(c, moves[0]) && Leads(Moved(c, moves[0]), moves[1..], c')
  }

  lemma {:induction false} LeadsOn(c: Coarse, moves: seq<Move>, c': Coarse, more: seq<Move>, c'': Coarse)
    requires Leads(c, moves, c') && Leads(c', more, c'')
    ensures Leads(c, moves + more, c'')
    decreases |moves|
  {
    if moves == [] {
      assert moves + more == more;
    } else {
      assert (moves + more)[1..] == moves[1..] + more;
      LeadsOn(Moved(c, moves[0]), moves[1..], c', more, c'');
    }
  }

  function Abstract(s: Desk): Coarse {
    Coarse(s.cap, s.used, if s.high.Reserving? then s.high.need else 0)
  }

  /** A load, a failed swap and a refused check are nothing at all; every other step is one move. */
  lemma StepIsMove(s: Desk, a: Step) returns (moves: seq<Move>)
    requires Inv(s) && Enabled(s, a)
    ensures |moves| <= 1 && Leads(Abstract(s), moves, Abstract(Next(s, a)))
    ensures a.LowLoad? || a.HighLoad? ==> moves == []
  {
    moves := [];
    if Abstract(Next(s, a)) != Abstract(s) {
      var m := match a
        case LowSwap => LowTake
        case Check(need) => Commit(need)
        case HighSwap => HighTake
        case StopReserving => Release
        case _ => Give;
      moves := [m];
      assert moves[1..] == [];
      if a.Check? {
        assert U64(s.cap - s.used) == s.cap - s.used;
      }
    }
  }

  /** Why the engine may treat a reservation as one step: whatever the two threads' loads and swaps
      do in whatever order, reservations taken in one step each do too. */
  lemma {:induction false} ReservationIsAtomic(states: seq<Desk>, steps: seq<Step>) returns (moves: seq<Move>)
    requires IsRun(states, steps) && Initial(states[0])
    ensures Leads(Abstract(states[0]), moves, Abstract(states[|steps|])) && |moves| <= |steps|
    decreases |steps|
  {
    hide Enabled, Next, Leads;
    if steps == [] {
      moves := [];
      LeadsNowhere(Abstract(states[0]));
    } else {
      var n := |steps| - 1;
      assert IsRun(states[..n + 1], steps[..n]);
      var before := ReservationIsAtomic(states[..n + 1], steps[..n]);
      RunKeepsInv(states[..n + 1], steps[..n]);
      assert states[..n + 1][n] == states[n];
      var last := StepIsMove(states[n], steps[n]);
      LeadsOn(Abstract(states[0]), before, Abstract(states[n]), last, Abstract(states[n + 1]));
      moves := before + last;
    }
  }

  lemma LeadsNowhere(c: Coarse)
    ensures Leads(c, [], c)
  {
  }

  // ---------------------------------------------------------------- the descriptor object

  const NEVER_OPENED_VAL: int := -1
  const CLOSED_VAL: int := -2

  /** The queue's share of the reservation: a cap and an atomic counter. */
  class Counter {
    const cap: nat
    var used: nat

    constructor (cap: nat)
      ensures this.cap == cap && used == RESERVED_FDS
    {
      this.cap := cap;
      used := RESERVED_FDS;
    }
  }

  function Total(xs: seq<nat>): nat {
    if xs == [] then 0 else xs[0] + Total(xs[1..])
  }

  /** Room for low-priority reservations. */
  function LowRoom(cap: nat, used: nat): nat {
    if used + HIGH_PRIORITY_FDS < cap then cap - HIGH_PRIORITY_FDS - used else 0
  }

  class QueueFileDescriptor {
    const queue: Counter
    var fd: int

    ghost predicate Valid()
      reads this, queue
    {
      && RESERVED_FDS + HIGH_PRIORITY_FDS <= queue.cap
      && (fd == NEVER_OPENED_VAL || fd == CLOSED_VAL || fd > 2)
    }

    predicate IsOpen()
      reads this
    {
      fd > 0
    }

    /** The constructor: one low-priority attempt, whose failure to open is ignored. `rivals` is
        what other threads reserve between the load and the swap, and `answer` is what the system
        answers. A failed open keeps its reservation. */
    constructor (queue: Counter, rivals: nat, answer: Option<nat>)
      requires RESERVED_FDS + HIGH_PRIORITY_FDS <= queue.cap && (answer.Some? ==> answer.value > 2)
      requires queue.used + rivals <= queue.cap
      modifies queue
      ensures Valid() && this.queue == queue
      ensures var reserved := old(queue.used) < queue.cap - HIGH_PRIORITY_FDS && rivals == 0;
        && queue.used == old(queue.used) + rivals + (if reserved then 1 else 0)
        && fd == if reserved && answer.Some? then answer.value else NEVER_OPENED_VAL
    {
      this.queue := queue;
      fd := NEVER_OPENED_VAL;
      new;
      var reserved := Reserve(false, rivals);
      if reserved && answer.Some? {
        fd := answer.value;
      }
    }

    /** `reserveFileDescriptor`. */
    method Reserve(high: bool, rivals: nat) returns (ok: bool)
      requires Valid()
      modifies queue
      ensures ok <==> old(queue.used) < (if high then queue.cap else queue.cap - HIGH_PRIORITY_FDS) && rivals == 0
      ensures queue.used == old(queue.used) + rivals + (if ok then 1 else 0)
    {
      var expected := queue.used;
      var limit := if high then queue.cap else queue.cap - HIGH_PRIORITY_FDS;
      queue.used := queue.used + rivals;
      if expected >= limit || queue.used != expected {
        return false;
      }
      queue.used := queue.used + 1;
      ok := true;
    }

    /** `ensureOpened`, with `rivals[k]` low-priority reservations slipping into attempt k. It takes
        exactly one reservation, after at most as many attempts as there was room for low-priority
        ones, plus one. */
    method EnsureOpened(rivals: seq<nat>, answer: Option<nat>) returns (ok: bool, attempts: nat)
      requires Valid() && fd != CLOSED_VAL && (answer.Some? ==> answer.value > 2)
      requires fd == NEVER_OPENED_VAL ==> queue.used < queue.cap
      requires Total(rivals) <= LowRoom(queue.cap, queue.used)
      modifies this, queue
      ensures Valid() && IsOpen() == ok
      ensures old(fd) != NEVER_OPENED_VAL ==> ok && fd == old(fd) && queue.used == old(queue.used) && attempts == 0
      ensures old(fd) == NEVER_OPENED_VAL ==>
        && (ok <==> answer.Some?) && (ok ==> fd == answer.value) && (!ok ==> fd == NEVER_OPENED_VAL)
        && 1 <= attempts <= LowRoom(queue.cap, old(queue.used)) + 1
        && old(queue.used) + 1 <= queue.used <= old(queue.used) + Total(rivals) + 1 <= queue.cap
    {
      ok, attempts := true, 0;
      if fd == NEVER_OPENED_VAL {
        var left := rivals;
        var reserved := false;
        while !reserved
          invariant queue.used == old(queue.used) + (Total(rivals) - Total(left)) + (if reserved then 1 else 0)
          invariant 0 <= Total(left) <= Total(rivals)
          invariant fd == NEVER_OPENED_VAL
          invariant attempts <= Total(rivals) - Total(left) + (if reserved then 1 else 0)
          invariant reserved ==> attempts >= 1
          decreases if reserved then 0 else 1, |left|
        {
          var slipped := if left == [] then 0 else left[0];
          left := if left == [] then left else left[1..];
          attempts := attempts + 1;
          reserved := Reserve(true, slipped);
        }
        ok := answer.Some?;
        if ok {
          fd := answer.value;
        }
      }
    }

    /** `notifyClosed`. */
    method NotifyClosed()
      requires Valid() && IsOpen() && queue.used > 0
      modifies this`fd, queue
      ensures Valid() && fd == CLOSED_VAL && queue.used == old(queue.used) - 1
    {
      fd := CLOSED_VAL;
      queue.used := queue.used - 1;
    }
  }
}
