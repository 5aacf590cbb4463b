/** The engine's descriptor counter makes exactly the moves that reservation by loads and swaps amounts
    to. */
module DescriptorUse {
  import D = Descriptors
  import opened Engine
  import opened Invariant
  import opened Frames
  import opened AdderSteps
  import Progress
  import opened Runner
  import opened Theorems
  import opened Touches

  function Desk(s: State): D.Coarse
    requires s.fdsUsed >= 0
  {
    D.Coarse(s.fdCap, s.fdsUsed, FdsWanted(s))
  }

  lemma UsedIsCount(s: State)
    requires Fds(s)
    ensures s.fdsUsed >= RESERVED_FDS && s.fdsUsed + FdsWanted(s) <= s.fdCap
  {
    hide Sum;
    SumNonNegative(OpenCounts(s.files));
  }

  /** The engine's guards are the guards of the moves. */
  lemma SameGuards(s: State, low: Low, ok: bool)
    requires Inv(s)
    ensures s.fdsUsed >= 0
    ensures (s.adder.OpeningSource? || s.adder.OpeningDest?) && s.files != [] && !low.Skip? ==>
      (Enabled(s, LowOpen(low)) <==> D.MoveOk(Desk(s), D.LowTake))
    ensures (s.pc.OpenSource? || s.pc.OpenDest? || s.pc.OpenEmpty?) && IsRunner(s, s.pc.rid) && FdWanted(s).NeverOpened? ==>
      (Enabled(s, EnsureOpen(ok)) <==> D.MoveOk(Desk(s), D.HighTake))
  {
    hide Layout, Data, Counters, Fds, Outcome, Places, Rings, HeapOk;
    UsedIsCount(s);
  }

  lemma OneMove(c: D.Coarse, m: D.Move)
    requires D.MoveOk(c, m)
    ensures D.Leads(c, [m], D.Moved(c, m))
  {
    assert [m][1..] == [];
  }

  lemma TwoMoves(c: D.Coarse, m: D.Move, n: D.Move)
    requires D.MoveOk(c, m) && D.MoveOk(D.Moved(c, m), n)
    ensures D.Leads(c, [m, n], D.Moved(D.Moved(c, m), n))
  {
    assert [m, n][1..] == [n] && [n][1..] == [];
  }

  lemma WantedStays(s: State, low: Low)
    requires Layout(s) && Places(s) && Enabled(s, LowOpen(low))
    ensures FdsWanted(AfterLowOpen(s, low)) == FdsWanted(s)
  {
    if Chosen(s.pc).Some? {
      LastIsUnused(s, s.pc.rid);
    }
    hide Layout, Places;
  }

  lemma LowMoves(s: State, low: Low) returns (moves: seq<D.Move>)
    requires Inv(s) && Enabled(s, LowOpen(low))
    ensures s.fdsUsed >= 0 && AfterLowOpen(s, low).fdsUsed >= 0
    ensures D.Leads(Desk(s), moves, Desk(AfterLowOpen(s, low)))
  {
    hide Layout, Data, Counters, Fds, Outcome, Places, Rings, HeapOk;
    UsedIsCount(s);
    WantedStays(s, low);
    hide FdsWanted;
    moves := if low.Skip? then [] else [D.LowTake];
    if !low.Skip? {
      OneMove(Desk(s), D.LowTake);
    }
  }

  /** A pass commits to what the front wants when it takes it up. */
  lemma PickMoves(s: State) returns (moves: seq<D.Move>)
    requires Inv(s) && Enabled(s, PickFront)
    ensures s.fdsUsed >= 0 && AfterPick(s).fdsUsed >= 0
    ensures D.Leads(Desk(s), moves, Desk(AfterPick(s)))
  {
    hide Layout, Data, Counters, Fds, Outcome, Places, Rings, HeapOk;
    UsedIsCount(s);
    LayoutSizes(s);
    var n := FdsWanted(AfterPick(s));
    moves := if n == 0 then [] else [D.Commit(n)];
    PickWants(s);
    hide FdsWanted;
    if n > 0 {
      OneMove(Desk(s), D.Commit(n));
    }
  }

  lemma PickWants(s: State)
    requires Enabled(s, PickFront) && 0 <= s.fdsUsed <= s.fdCap < Arithmetic.TWO_64
    ensures FdsWanted(s) == 0 && FdsWanted(AfterPick(s)) <= HIGH_PRIORITY_FDS && AfterPick(s).fdsUsed == s.fdsUsed
    ensures AfterPick(s).fdCap == s.fdCap
    ensures FdsWanted(AfterPick(s)) > 0 ==> s.fdsUsed + HIGH_PRIORITY_FDS <= s.fdCap
  {
    assert Arithmetic.U64(s.fdCap - s.fdsUsed) == s.fdCap - s.fdsUsed;
  }

  /** An open takes what it was promised; one that fails gives up the rest of the promise. */
  lemma OpenMoves(s: State, ok: bool) returns (moves: seq<D.Move>)
    requires Inv(s) && Enabled(s, EnsureOpen(ok))
    ensures s.fdsUsed >= 0 && AfterOpen(s, ok).fdsUsed >= 0
    ensures D.Leads(Desk(s), moves, Desk(AfterOpen(s, ok)))
  {
    hide Layout, Data, Counters, Fds, Outcome, Places, Rings, HeapOk;
    UsedIsCount(s);
    var s', n := AfterOpen(s, ok), FdsWanted(s);
    hide FdsWanted, AfterOpen;
    if s.pc.OpenSource? {
      SourceWants(s, ok);
    } else {
      DestWants(s, ok);
    }
    if !FdWanted(s).NeverOpened? {
      moves := [];
    } else if n > 1 && !ok {
      moves := [D.HighTake, D.Release];
      TwoMoves(Desk(s), D.HighTake, D.Release);
    } else {
      moves := [D.HighTake];
      OneMove(Desk(s), D.HighTake);
    }
  }

  /** An open that was wanted has been done, and a failed one gives up the rest. */
  predicate Wants(s: State, s': State, ok: bool)
    requires Enabled(s, EnsureOpen(ok))
  {
    && s'.fdCap == s.fdCap
    && (if FdWanted(s).NeverOpened?
        then FdsWanted(s) > 0 && s'.fdsUsed == s.fdsUsed + 1 && FdsWanted(s') == (if ok then FdsWanted(s) - 1 else 0)
        else s'.fdsUsed == s.fdsUsed && FdsWanted(s') == FdsWanted(s))
  }

  lemma SourceWants(s: State, ok: bool)
    requires Enabled(s, EnsureOpen(ok)) && s.pc.OpenSource?
    ensures Wants(s, AfterOpen(s, ok), ok)
  {
  }

  lemma DestWants(s: State, ok: bool)
    requires Enabled(s, EnsureOpen(ok)) && !s.pc.OpenSource?
    ensures Wants(s, AfterOpen(s, ok), ok)
  {
  }

  function Gives(n: nat): seq<D.Move> {
    if n == 0 then [] else [D.Give] + Gives(n - 1)
  }

  lemma {:induction false} GivesLead(c: D.Coarse, n: nat)
    requires c.need == 0 && c.used >= RESERVED_FDS + n
    ensures D.Leads(c, Gives(n), c.(used := c.used - n))
    decreases n
  {
    if n > 0 {
      assert Gives(n)[1..] == Gives(n - 1);
      GivesLead(c.(used := c.used - 1), n - 1);
    }
  }

  /** Whatever leaves the submit thread where it is, and its files as they are, leaves its wants. */
  lemma WantsStay(s: State, s': State)
    requires s'.pc == s.pc && (Chosen(s.pc).Some? ==> IsRunner(s, s.pc.rid) && IsRunner(s', s.pc.rid))
    requires Chosen(s.pc).Some? ==>
      && FileOf(s', s.pc.rid).sourceFd == FileOf(s, s.pc.rid).sourceFd
      && FileOf(s', s.pc.rid).destFd == FileOf(s, s.pc.rid).destFd
    ensures FdsWanted(s') == FdsWanted(s)
  {
  }

  /** Steps of the adding thread and the kernel other than opens leave the counter alone. */
  lemma OthersWant(s: State, a: Action)
    requires Enabled(s, a) && !a.LowOpen? && IsOther(a)
    requires Chosen(s.pc).Some? ==> IsRunner(s, s.pc.rid)
    ensures Next(s, a).fdsUsed == s.fdsUsed && Next(s, a).fdCap == s.fdCap && FdsWanted(Next(s, a)) == FdsWanted(s)
  {
    OthersKeepFiles(s, a);
    hide Enabled, Next, FdsWanted;
    WantsStay(s, Next(s, a));
  }

  lemma OthersKeepFiles(s: State, a: Action)
    requires Enabled(s, a) && !a.LowOpen? && IsOther(a)
    requires Chosen(s.pc).Some? ==> IsRunner(s, s.pc.rid)
    ensures var s' := Next(s, a);
      && s'.fdsUsed == s.fdsUsed && s'.fdCap == s.fdCap && s'.pc == s.pc
      && (Chosen(s.pc).Some? ==>
           && IsRunner(s', s.pc.rid)
           && FileOf(s', s.pc.rid).sourceFd == FileOf(s, s.pc.rid).sourceFd
           && FileOf(s', s.pc.rid).destFd == FileOf(s, s.pc.rid).destFd)
  {
    if IsAdder(a) {
      AdderTouches(s, a);
      if Chosen(s.pc).Some? {
        AdderKeepsFds(s, a, s.pc.rid);
      }
    } else {
      KernelTouches(s, a);
      if Chosen(s.pc).Some? {
        KernelKeepsFds(s, a, s.pc.rid);
      }
    }
    hide Next, Enabled;
  }

  lemma LookWants(s: State)
    requires Enabled(s, Look)
    requires s.pendingContinue != [] ==> IsRunner(s, s.pendingContinue[0]) && BothOpen(FileOf(s, s.pendingContinue[0]))
    ensures AfterLook(s).fdsUsed == s.fdsUsed && AfterLook(s).fdCap == s.fdCap && FdsWanted(AfterLook(s)) == FdsWanted(s) == 0
  {
    hide TakeBuffer, RateLimited, Waiting;
    Progress.TakeBufferKeeps(s);
  }

  lemma ContinuedIsOpen(s: State)
    requires Inv(s) && s.pc.Top? && s.pendingContinue != []
    ensures IsRunner(s, s.pendingContinue[0]) && BothOpen(FileOf(s, s.pendingContinue[0]))
  {
    var i := s.pendingContinue[0];
    assert PlaceOk(s, i);
    assert IsRunner(s, i) && RunnerFds(s, i);
    hide Layout, Data, Counters, Fds, Outcome, Places, Rings, HeapOk;
  }

  /** The submit thread's other steps want nothing, and at most close files. */
  lemma ClosersWant(s: State, a: Action)
    requires Enabled(s, a) && !IsOther(a) && !a.Look? && !a.PickFront? && !a.EnsureOpen?
    ensures Next(s, a).fdsUsed <= s.fdsUsed && Next(s, a).fdCap == s.fdCap && FdsWanted(s) == FdsWanted(Next(s, a)) == 0
  {
    hide AfterReap, AfterDrop, AfterIssue;
    if a.ReapOne? {
      ReapWants(s);
    } else if a.DropRunner? {
      DropWants(s, a.closed);
    } else if a.IssueBatch? {
      IssueWants(s);
    }
  }

  lemma DropWants(s: State, closed: bool)
    requires Enabled(s, DropRunner(closed))
    ensures var s' := AfterDrop(s, closed);
      s'.fdsUsed <= s.fdsUsed && s'.fdCap == s.fdCap && FdsWanted(s) == FdsWanted(s') == 0
  {
  }

  lemma IssueWants(s: State)
    requires Enabled(s, IssueBatch)
    ensures var s' := AfterIssue(s, s.pc.rid);
      s'.fdsUsed == s.fdsUsed && s'.fdCap == s.fdCap && FdsWanted(s) == FdsWanted(s') == 0
  {
    hide ReadRequest, WriteRequest, PadOf;
  }

  lemma ReapWants(s: State)
    requires Enabled(s, ReapOne)
    ensures var s' := AfterReap(s, s.cq[0]);
      s'.fdsUsed <= s.fdsUsed && s'.fdCap == s.fdCap && FdsWanted(s) == FdsWanted(s') == 0
  {
    hide Absorb, FdsWanted, OpenCount;
    assert FdsWanted(s) == 0 by { PlaceWantsNothing(s); }
    PlaceWantsNothing(AfterReap(s, s.cq[0]));
  }

  lemma PlaceWantsNothing(s: State)
    requires !s.pc.OpenSource? && !s.pc.OpenDest? && !s.pc.OpenEmpty?
    ensures FdsWanted(s) == 0
  {
  }

  lemma LookMoves(s: State) returns (moves: seq<D.Move>)
    requires Inv(s) && Enabled(s, Look)
    ensures s.fdsUsed >= 0 && AfterLook(s).fdsUsed >= 0
    ensures D.Leads(Desk(s), moves, Desk(AfterLook(s)))
  {
    hide Layout, Data, Counters, Fds, Outcome, Places, Rings, HeapOk, AfterLook, FdsWanted;
    UsedIsCount(s);
    if s.pendingContinue != [] {
      ContinuedIsOpen(s);
    }
    LookWants(s);
    moves := [];
  }

  lemma OthersMove(s: State, a: Action) returns (moves: seq<D.Move>)
    requires Inv(s) && Enabled(s, a) && IsOther(a) && !a.LowOpen?
    ensures s.fdsUsed >= 0 && Next(s, a).fdsUsed >= 0
    ensures D.Leads(Desk(s), moves, Desk(Next(s, a)))
  {
    UsedIsCount(s);
    hide Inv, Next;
    if Chosen(s.pc).Some? {
      ChosenKnown(s);
    }
    OthersWant(s, a);
    hide Enabled;
    moves := [];
  }

  lemma ClosersMove(s: State, a: Action) returns (moves: seq<D.Move>)
    requires Inv(s) && Enabled(s, a) && !IsOther(a) && !a.Look? && !a.PickFront? && !a.EnsureOpen?
    ensures s.fdsUsed >= 0 && Next(s, a).fdsUsed >= 0
    ensures D.Leads(Desk(s), moves, Desk(Next(s, a)))
  {
    hide Layout, Data, Counters, Fds, Outcome, Places, Rings, HeapOk, Next, Enabled, FdsWanted;
    StepKeepsInv(s, a);
    UsedIsCount(s);
    UsedIsCount(Next(s, a));
    ClosersWant(s, a);
    moves := Gives(s.fdsUsed - Next(s, a).fdsUsed);
    GivesLead(Desk(s), s.fdsUsed - Next(s, a).fdsUsed);
  }

  lemma ChosenKnown(s: State)
    requires Inv(s) && Chosen(s.pc).Some?
    ensures IsRunner(s, s.pc.rid)
  {
    hide Layout, Counters, Fds, Outcome, Rings, HeapOk, PlaceOk, RunnerGood;
  }

  /** Every step of the engine is, for the descriptor counter and what the submit thread is still
      promised, a sequence of the moves that `Descriptors.ReservationIsAtomic` boils loads and swaps
      down to. */
  lemma EngineMoves(s: State, a: Action) returns (moves: seq<D.Move>)
    requires Inv(s) && Enabled(s, a)
    ensures s.fdsUsed >= 0 && Next(s, a).fdsUsed >= 0
    ensures D.Leads(Desk(s), moves, Desk(Next(s, a)))
  {
    hide Inv, AfterLowOpen, AfterPick, AfterOpen, AfterLook, Desk;
    match a
    case LowOpen(low) => moves := LowMoves(s, low);
    case PickFront => moves := PickMoves(s);
    case EnsureOpen(ok) => moves := OpenMoves(s, ok);
    case Look => moves := LookMoves(s);
    case _ =>
      hide Enabled, Next;
      if IsOther(a) {
        moves := OthersMove(s, a);
      } else {
        moves := ClosersMove(s, a);
      }
  }
}
