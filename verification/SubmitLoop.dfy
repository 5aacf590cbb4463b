/** The submit loop in its own shape: nested loops over the shared state. Every path through them is a
    run of the engine, and every pass ends. */
module SubmitLoop {
  import opened Runner
  import opened Engine
  import opened ChunkInvariant
  import opened Invariant
  import opened Theorems
  import opened Progress
  import opened Touches

  // ---------------------------------------------------------------- where each step leads

  function Pending(s: State): nat {
    |s.pendingStart| + |s.pendingContinue|
  }

  lemma LookLeads(s: State)
    requires Enabled(s, Look)
    ensures var s' := Next(s, Look);
      && s'.added == s.added && s'.runners == s.runners
      && if Pending(s) == 0 || RateLimited(s) || Waiting(s) then s'.pc.Flush? && Pending(s') == Pending(s)
         else if s.pendingContinue != [] then s'.pc == OpenSource(s.pendingContinue[0]) && Pending(s') < Pending(s)
         else if s'.nextBuffer.Some? && s'.pendingStart != [] then s'.pc.Pick? && Pending(s') == Pending(s)
         else s'.pc.Flush? && Pending(s') == Pending(s)
  {
    hide RateLimited, Waiting, TakeBuffer;
    TakeBufferKeeps(s);
  }

  lemma PickLeads(s: State)
    requires Enabled(s, PickFront)
    ensures var s', i := Next(s, PickFront), s.pendingStart[0];
      && s'.added == s.added && |s'.runners| == |s.runners| && s'.runners[i].size == s.runners[i].size
      && if OutOfFds(s) && NeedsFds(FileOf(s, i)) then s'.pc.Flush? && Pending(s') == Pending(s)
         else s'.pc == (if s.runners[i].size == 0 then OpenEmpty(i) else OpenSource(i)) && Pending(s') < Pending(s)
  {
    hide OutOfFds, NeedsFds;
  }

  lemma OpenLeads(s: State, ok: bool)
    requires Enabled(s, EnsureOpen(ok))
    ensures var s', i := Next(s, EnsureOpen(ok)), s.pc.rid;
      && s'.added == s.added && Pending(s') == Pending(s)
      && s'.pc == if s.pc.OpenEmpty? then Drop(i, ok, !ok, ToTop)
                  else if !ok then Drop(i, true, true, ToFlush)
                  else if s.pc.OpenSource? then OpenDest(i) else Issue(i)
  {
    if !FdWanted(s).NeverOpened? {
      assert ok;
    }
  }

  lemma IssueLeads(s: State)
    requires Enabled(s, IssueBatch)
    ensures var s' := Next(s, IssueBatch); s'.added && Pending(s') == Pending(s) && s'.pc.Top?
  {
    hide ReadRequest, WriteRequest, PadOf;
  }

  lemma DropLeads(s: State, closed: bool)
    requires Enabled(s, DropRunner(closed))
    ensures var s' := Next(s, DropRunner(closed));
      && s'.added == s.added && Pending(s') == Pending(s) && s'.pc == PcAfter(s.pc.back)
      && s'.cq == s.cq && s'.submissionsRunning == s.submissionsRunning
  {
  }

  /** The verdict on the completion at the head of the ring. */
  function Coming(s: State): Verdict
    requires Enabled(s, ReapOne)
  {
    var t := s.cq[0];
    var f := FileOf(s, t.rid);
    var chunks := if f.chunksRemaining >= 0 then f.chunksRemaining else 0;
    Judge(Absorb(s.runners[t.rid], t.kind, s.jobs[t].stage.res, f.align, chunks))
  }

  lemma ReapTurns(s: State)
    requires Enabled(s, ReapOne)
    ensures var s' := AfterReap(s, s.cq[0]);
      && s'.cq == s.cq[1..] && s'.submissionsRunning == s.submissionsRunning - 1
      && s'.pc == match Coming(s)
                  case Finished => Drop(s.cq[0].rid, true, false, ToReap)
                  case Failed => Drop(s.cq[0].rid, false, true, ToReap)
                  case _ => s.pc
  {
    hide Absorb;
  }

  lemma ReapLeads(s: State)
    requires Enabled(s, ReapOne)
    ensures var s' := Next(s, ReapOne);
      && s'.cq == s.cq[1..] && s'.submissionsRunning == s.submissionsRunning - 1
      && s'.pc == match Coming(s)
                  case Finished => Drop(s.cq[0].rid, true, false, ToReap)
                  case Failed => Drop(s.cq[0].rid, false, true, ToReap)
                  case _ => Reap
  {
    hide Coming, AfterReap;
    ReapTurns(s);
  }

  // ---------------------------------------------------------------- what is always enabled

  lemma FrontIsRunner(s: State)
    requires Inv(s) && s.pc.Pick?
    ensures Enabled(s, PickFront)
  {
    assert PlaceOk(s, s.pendingStart[0]);
  }

  lemma ChosenPlace(s: State, i: nat)
    requires Places(s) && Chosen(s.pc) == Some(i)
    ensures i < |s.runners|
    ensures s.pc.OpenEmpty? ==> s.runners[i].size == 0
    ensures s.pc.OpenSource? || s.pc.OpenDest? || s.pc.Issue? ==> s.runners[i].writeOffset < End(s.runners[i])
  {
    assert PlaceOk(s, i);
  }

  lemma ChosenIsRunner(s: State)
    requires Inv(s) && Chosen(s.pc).Some?
    ensures IsRunner(s, s.pc.rid)
    ensures s.pc.OpenEmpty? ==> s.runners[s.pc.rid].size == 0
    ensures s.pc.OpenSource? || s.pc.OpenDest? || s.pc.Issue? ==> s.runners[s.pc.rid].size > 0
  {
    hide Layout, Data, Counters, Fds, Outcome, Places, HeapOk, Rings;
    ChosenPlace(s, s.pc.rid);
    KnownRunner(s, s.pc.rid);
    if s.pc.OpenSource? || s.pc.OpenDest? || s.pc.Issue? {
      SizeMatters(s, s.pc.rid);
    }
  }

  lemma KnownRunner(s: State, i: nat)
    requires Data(s) && i < |s.runners|
    ensures IsRunner(s, i)
  {
    hide RunnerGood;
  }

  lemma SizeMatters(s: State, i: nat)
    requires Data(s) && i < |s.runners| && s.runners[i].writeOffset < End(s.runners[i])
    ensures s.runners[i].size > 0
  {
    hide RunnerOk, NoWrongByte;
    assert IsRunner(s, i) && RunnerGood(s, i);
    AgreementOf(s.g, s.runners[i], FileOf(s, i), JobAt(s, i, Read), JobAt(s, i, Write), BufferOf(s, i));
  }

  lemma HeadIsDone(s: State)
    requires Inv(s) && s.pc.Reap? && s.cq != [] && s.submissionsRunning != 0
    ensures Enabled(s, ReapOne)
  {
    hide Layout, Data, Counters, Fds, Outcome, Places, HeapOk, RunnerOk;
    DoneHead(s);
    TagIsLive(s, s.cq[0]);
  }

  lemma QueueHead(s: State)
    requires Inv(s) && s.pc.Submit? && s.sq != []
    ensures Enabled(s, Consume)
  {
    hide Layout, Data, Counters, Fds, Outcome, Places, HeapOk;
    assert s.sq[0] in s.jobs;
  }

  lemma ConsumeLeads(s: State)
    requires Enabled(s, Consume)
    ensures Next(s, Consume).pc == Submit(true) && |Next(s, Consume).sq| < |s.sq|
  {
  }

  /** A close is due, so it may fail. */
  predicate CloseDue(s: State)
    requires s.pc.Drop? && IsRunner(s, s.pc.rid)
  {
    s.pc.close && !s.pc.error && FileOf(s, s.pc.rid).chunksRemaining == 1 && OpenCount(FileOf(s, s.pc.rid)) > 0
  }

  lemma CanDrop(s: State, closed: bool)
    requires s.pc.Drop? && IsRunner(s, s.pc.rid) && (closed || CloseDue(s))
    ensures Enabled(s, DropRunner(closed))
  {
  }

  lemma CanOpen(s: State, ok: bool)
    requires (s.pc.OpenSource? || s.pc.OpenDest? || s.pc.OpenEmpty?) && IsRunner(s, s.pc.rid)
    requires if FdWanted(s).NeverOpened? then s.fdsUsed < s.fdCap else ok
    ensures Enabled(s, EnsureOpen(ok))
  {
  }

  lemma CanLook(s: State)
    requires s.pc.Top?
    ensures Enabled(s, Look)
  {
  }

  lemma CanIssue(s: State)
    requires s.pc.Issue? && IsRunner(s, s.pc.rid)
    ensures Enabled(s, IssueBatch)
  {
  }

  lemma CanStop(s: State)
    requires s.pc.Reap? && (s.submissionsRunning == 0 || s.cq == [])
    ensures Enabled(s, StopReaping) && Next(s, StopReaping) == s.(pc := Check)
  {
  }

  lemma SomethingQueued(s: State)
    requires Inv(s) && (s.pc == Submit(false) || (s.pc.Flush? && s.added))
    ensures s.sq != []
  {
    hide Layout, Data, Counters, Fds, Outcome, Places, HeapOk;
  }

  // ---------------------------------------------------------------- the machine

  /** The shared state, with the history of the run. `script` is what the other participants try to
      do, one batch for each moment at which the submit thread lets them in. */
  class Machine {
    var s: State
    var script: seq<seq<Action>>
    ghost var states: seq<State>
    ghost var actions: seq<Action>

    ghost predicate Valid()
      reads this
    {
      IsRun(states, actions) && Init(states[0]) && states[|actions|] == s && Inv(s)
    }

    constructor (s: State, script: seq<seq<Action>>)
      requires Init(s)
      ensures Valid() && this.s == s && this.script == script
    {
      this.s, this.script := s, script;
      states, actions := [s], [];
      InitInv(s);
    }

    lemma Reached()
      requires Valid()
      ensures Reachable(s)
    {
      hide Init, Inv, Enabled, Next;
      assert EndsIn(states, actions, s);
    }

    /** One step of whoever takes it. */
    method Do(a: Action)
      requires Valid() && Enabled(s, a)
      modifies this`s, this`states, this`actions
      ensures Valid() && s == Next(old(s), a)
    {
      hide Init, Inv, Enabled, Next;
      StepKeepsInv(s, a);
      s := Next(s, a);
      states, actions := states + [s], actions + [a];
    }

    /** The others take the next batch of their steps, as far as they can. */
    method Interfere()
      requires Valid()
      modifies this
      ensures Valid() && s.pc == old(s).pc && s.added == old(s).added
      ensures old(script) == [] ==> s == old(s) && script == []
      ensures old(script) != [] ==> script == old(script)[1..]
    {
      hide Init, Inv, Enabled, Next, IsOther, IsRun;
      if script != [] {
        var batch := script[0];
        var i := 0;
        while i < |batch|
          invariant Valid() && s.pc == old(s).pc && s.added == old(s).added && script == old(script)
        {
          if IsOther(batch[i]) && Enabled(s, batch[i]) {
            OthersKeepPc(s, batch[i]);
            Do(batch[i]);
          }
          i := i + 1;
        }
        script := script[1..];
      }
    }

    /** `ensureOpened`; the system decides whether an open succeeds. */
    method EnsureOpened() returns (ok: bool)
      requires Valid() && (s.pc.OpenSource? || s.pc.OpenDest? || s.pc.OpenEmpty?)
      modifies this`s, this`states, this`actions
      ensures Valid() && s.added == old(s).added && Pending(s) == Pending(old(s))
      ensures s.pc == if old(s).pc.OpenEmpty? then Drop(old(s).pc.rid, ok, !ok, ToTop)
                      else if !ok then Drop(old(s).pc.rid, true, true, ToFlush)
                      else if old(s).pc.OpenSource? then OpenDest(old(s).pc.rid) else Issue(old(s).pc.rid)
    {
      hide Init, Inv, IsRun, Reachable, Enabled, Next, FdWanted, Pending;
      Reached();
      HighPriorityNeverWaits(s);
      ok := *;
      if !FdWanted(s).NeverOpened? {
        ok := true;
      }
      CanOpen(s, ok);
      OpenLeads(s, ok);
      Do(EnsureOpen(ok));
    }

    /** Closing, where that is due, and deleting the runner; a failed close is reported. */
    method Finish()
      requires Valid() && s.pc.Drop?
      modifies this`s, this`states, this`actions
      ensures Valid() && s.added == old(s).added && Pending(s) == Pending(old(s)) && s.pc == PcAfter(old(s).pc.back)
      ensures s.cq == old(s).cq && s.submissionsRunning == old(s).submissionsRunning
    {
      hide Init, Inv, IsRun, Enabled, Next, CloseDue, Pending;
      ChosenIsRunner(s);
      var closed: bool := *;
      if !CloseDue(s) {
        closed := true;
      }
      CanDrop(s, closed);
      DropLeads(s, closed);
      Do(DropRunner(closed));
    }
  }

  // ---------------------------------------------------------------- the loops

  /** `addToBatch`: both files first, then the requests. */
  method AddToBatch(m: Machine) returns (ok: bool)
    requires m.Valid() && m.s.pc.OpenSource?
    modifies m
    ensures m.Valid() && |m.script| <= |old(m.script)|
    ensures old(m.script) == [] ==> m.script == [] && Pending(m.s) == Pending(old(m.s))
    ensures ok ==> m.s.pc.Top? && m.s.added
    ensures !ok ==> m.s.pc == Drop(old(m.s).pc.rid, true, true, ToFlush) && m.s.added == old(m.s).added
  {
    hide Init, Inv, IsRun, Pending, Enabled, Next;
    m.Interfere();
    ok := m.EnsureOpened();
    if ok {
      m.Interfere();
      ok := m.EnsureOpened();
    }
    if ok {
      m.Interfere();
      ChosenIsRunner(m.s);
      CanIssue(m.s);
      IssueLeads(m.s);
      m.Do(IssueBatch);
    }
  }

  /** The runner at the front is taken up unless it needs descriptors and there are too few. */
  method ChooseFront(m: Machine) returns (toAdd: Option<nat>)
    requires m.Valid() && m.s.pc.Pick?
    modifies m
    ensures m.Valid() && m.s.added == old(m.s).added
    ensures old(m.script) == [] ==> m.script == []
    ensures |m.script| <= |old(m.script)|
    ensures toAdd.None? ==> m.s.pc.Flush? && (old(m.script) == [] ==> Pending(m.s) == Pending(old(m.s)))
    ensures toAdd.Some? ==>
      && toAdd.value < |m.s.runners|
      && m.s.pc == (if m.s.runners[toAdd.value].size == 0 then OpenEmpty(toAdd.value) else OpenSource(toAdd.value))
      && (old(m.script) == [] ==> Pending(m.s) < Pending(old(m.s)))
  {
    hide Init, Inv, IsRun, Pending, Next, OutOfFds, NeedsFds;
    m.Interfere();
    FrontIsRunner(m.s);
    var temp := m.s.pendingStart[0];
    var taken := !OutOfFds(m.s) || !NeedsFds(FileOf(m.s, temp));
    PickLeads(m.s);
    m.Do(PickFront);
    toAdd := if taken then Some(temp) else None;
  }

  /** The choice of the next runner to take up, if any. */
  method Choose(m: Machine) returns (toAdd: Option<nat>)
    requires m.Valid() && m.s.pc.Top?
    modifies m
    ensures m.Valid() && m.s.added == old(m.s).added
    ensures old(m.script) == [] ==> m.script == []
    ensures |m.script| <= |old(m.script)| && (old(m.script) != [] ==> |m.script| < |old(m.script)|)
    ensures toAdd.None? ==> m.s.pc.Flush? && (old(m.script) == [] ==> Pending(m.s) == Pending(old(m.s)))
    ensures toAdd.Some? ==>
      && toAdd.value < |m.s.runners|
      && m.s.pc == (if m.s.runners[toAdd.value].size == 0 then OpenEmpty(toAdd.value) else OpenSource(toAdd.value))
      && (old(m.script) == [] ==> Pending(m.s) < Pending(old(m.s)))
  {
    hide Init, Inv, IsRun, Pending, Enabled, Next, RateLimited, Waiting;
    m.Interfere();
    var waitingForStart := |m.s.pendingStart| + |m.s.pendingContinue|;
    var rateLimited := RateLimited(m.s);
    var waitForDirectoryIteration := Waiting(m.s);
    var continued := m.s.pendingContinue;
    toAdd := None;
    PendingOf(m.s);
    CanLook(m.s);
    LookLeads(m.s);
    m.Do(Look);
    if waitingForStart == 0 || rateLimited || waitForDirectoryIteration {
      return;
    }
    if continued != [] {
      toAdd := Some(continued[0]);
      ChosenIsRunner(m.s);
    }
    if toAdd.None? && m.s.nextBuffer.Some? && |m.s.pendingStart| > 0 {
      toAdd := ChooseFront(m);
    }
  }

  lemma PendingOf(s: State)
    ensures Pending(s) == |s.pendingStart| + |s.pendingContinue|
  {
  }

  /** The submit phase: it ends, and tells whether anything was added to the ring. */
  method SubmitPhase(m: Machine) returns (runnersAdded: nat)
    requires m.Valid() && m.s.pc.Top? && !m.s.added
    modifies m
    ensures m.Valid() && m.s.pc.Flush? && (runnersAdded > 0 <==> m.s.added)
  {
    hide Init, Inv, IsRun, Pending;
    runnersAdded := 0;
    var doneAdding := false;
    while !doneAdding
      invariant m.Valid() && (runnersAdded > 0 <==> m.s.added)
      invariant if doneAdding then m.s.pc.Flush? else m.s.pc.Top?
      decreases |m.script|, Pending(m.s), !doneAdding
    {
      doneAdding := true;
      var toAdd := Choose(m);
      if toAdd.Some? {
        if m.s.runners[toAdd.value].size == 0 {
          var ok := m.EnsureOpened();
          m.Finish();
          doneAdding := false;
        } else {
          var ok := AddToBatch(m);
          if !ok {
            m.Finish();
          } else {
            doneAdding := false;
            runnersAdded := runnersAdded + 1;
          }
        }
      }
    }
  }

  method TakeChain(m: Machine)
    requires m.Valid() && m.s.pc.Submit? && m.s.sq != []
    modifies m
    ensures m.Valid() && m.s.pc == Submit(true) && |m.s.sq| < |old(m.s).sq|
  {
    hide Init, Inv, IsRun, Enabled, Next;
    QueueHead(m.s);
    ConsumeLeads(m.s);
    m.Do(Consume);
  }

  method EndSubmit(m: Machine)
    requires m.Valid() && m.s.pc == Submit(true)
    modifies m
    ensures m.Valid() && m.s.pc.Reap?
  {
    hide Init, Inv, IsRun;
    m.Do(Submitted);
  }

  /** `io_uring_submit`: the kernel takes at least the first chain. */
  method SubmitQueued(m: Machine)
    requires m.Valid() && m.s.pc == Submit(false)
    modifies m
    ensures m.Valid() && m.s.pc.Reap?
  {
    SomethingQueued(m.s);
    hide Init, Inv, IsRun, Enabled, Next;
    var more := true;
    while more && m.s.sq != []
      invariant m.Valid() && m.s.pc.Submit? && (m.s.pc.consumed || (more && m.s.sq != []))
      decreases |m.s.sq|
    {
      TakeChain(m);
      more := *;
    }
    EndSubmit(m);
  }

  /** The completion phase: one completion after another while there are any. */
  method CompletePhase(m: Machine)
    requires m.Valid() && m.s.pc.Reap?
    modifies m
    ensures m.Valid() && m.s.pc.Check?
    ensures m.s.submissionsRunning == 0 || m.s.cq == []
  {
    hide Init, Inv, IsRun, Enabled, Next, Coming;
    while m.s.submissionsRunning != 0
      invariant m.Valid() && m.s.pc.Reap?
      decreases |m.script|, |m.s.cq|
    {
      m.Interfere();
      if m.s.cq == [] || m.s.submissionsRunning == 0 {
        break;
      }
      HeadIsDone(m.s);
      var verdict := Coming(m.s);
      ReapLeads(m.s);
      m.Do(ReapOne);
      if verdict.Finished? || verdict.Failed? {
        m.Finish();
      }
    }
    CanStop(m.s);
    m.Do(StopReaping);
  }

  /** `submitLoop`, for a number of passes. If it returns and no error was reported, every
      destination equals its source. */
  method SubmitLoop(m: Machine, passes: nat) returns (returned: bool)
    requires m.Valid() && m.s.pc.Top? && !m.s.added
    modifies m
    ensures m.Valid()
    ensures returned ==> m.s.pc.Exited? && m.s.adder.Joined? && m.s.keepAlive == 0
    ensures returned && !m.s.errored ==> forall f :: 0 <= f < |m.s.files| ==> m.s.files[f].dest == m.s.files[f].src
    ensures !returned ==> m.s.pc.Top?
  {
    hide Init, Inv, IsRun, Reachable;
    var i := 0;
    while i < passes
      invariant m.Valid() && m.s.pc.Top? && !m.s.added
    {
      var runnersAdded := SubmitPhase(m);
      m.Do(FlushBatch);
      if runnersAdded > 0 {
        SubmitQueued(m);
      }
      CompletePhase(m);
      m.Interfere();
      var isDone := m.s.adder.Joined? && m.s.keepAlive == 0;
      m.Do(CheckDone);
      if isDone {
        m.Reached();
        if !m.s.errored {
          CopyIsRight(m.s);
        }
        return true;
      }
      i := i + 1;
    }
    returned := false;
  }
}
