/** How long a run can be: the submit loop spins only while the kernel holds jobs it has been handed,
    or because the engine is stuck. */
module Termination {
  import opened Runner
  import opened Engine
  import opened Invariant
  import opened Theorems
  import opened Progress
  import opened WorkBound
  import opened SubmitLoop
  import opened Faultless
  import opened Touches

  /** A pass that starts here has to take a runner up if anybody is to act again. */
  predicate OnItsOwn(s: State) {
    KernelIdle(s) && !s.added && s.keepAlive > 0
  }

  /** How far the submit thread is from the end of its pass. Where it is on its own, the start of a
      pass ranks low, because the pass is bound to take up a runner. */
  function PcRank(s: State): nat {
    match s.pc
    case Exited => 0
    case Pick => if OnItsOwn(s) then 1 else 7
    case Top => if OnItsOwn(s) then 2 else 8
    case Check => 3
    case Reap => 4
    case Submit(_) => 5
    case Flush => 6
    case _ => 8
  }

  /** The submit thread ends a pass while the kernel has been handed a job that it has not answered,
      or has answered in the meantime. */
  predicate IsWait(s: State, a: Action) {
    a.CheckDone? && !KernelIdle(s)
  }

  lemma StepWhenOnItsOwn(s: State)
    requires OnItsOwn(s) && s.adder.Joined? && !Stuck(s) && (s.pc.Top? || s.pc.Pick?)
    ensures !HeldUp(s)
  {
    hide HeldUp, KernelIdle;
  }

  /** A pass on its own that is not stuck goes straight on to take a runner up. */
  lemma LookOnItsOwn(s: State)
    requires Inv(s) && s.pc.Top? && s.adder.Joined? && OnItsOwn(s) && !Stuck(s) && !AfterLook(s).pc.OpenSource?
    ensures AfterLook(s).pc.Pick? && OnItsOwn(AfterLook(s))
  {
    StepWhenOnItsOwn(s);
    LookCases(s);
    TakeBufferKeeps(s);
    hide Inv, AfterLook, TakeBuffer, RateLimited, Starved;
  }

  lemma PickOnItsOwn(s: State)
    requires Inv(s) && s.adder.Joined? && OnItsOwn(s) && !Stuck(s) && Enabled(s, PickFront)
    ensures !AfterPick(s).pc.Flush?
  {
    StepWhenOnItsOwn(s);
    RoomAtPick(s);
    PickOutcome(s);
    hide Inv, AfterPick, RateLimited, TakeBuffer, OutOfFds, NeedsFds, KernelIdle;
  }

  lemma LookOutcomes(s: State)
    requires Enabled(s, Look) && !AfterLook(s).pc.OpenSource?
    ensures AfterLook(s).pc.Pick? || AfterLook(s).pc.Flush?
    ensures OnItsOwn(AfterLook(s)) == OnItsOwn(s)
  {
    hide TakeBuffer, RateLimited, Waiting;
    TakeBufferKeeps(s);
  }

  lemma IdleLook(s: State)
    requires Inv(s) && s.adder.Joined? && !Stuck(s) && Enabled(s, Look) && !AfterLook(s).pc.OpenSource?
    ensures PcRank(AfterLook(s)) < PcRank(s)
  {
    hide Inv, AfterLook, Stuck, OnItsOwn;
    if OnItsOwn(s) {
      LookOnItsOwn(s);
    }
    LookOutcomes(s);
  }

  lemma AliveNotNegative(s: State)
    requires Counters(s)
    ensures s.keepAlive >= 0
  {
    hide Sum;
    SumNonNegative(Lives(s.runners));
  }

  lemma CheckRank(s: State)
    requires s.adder.Joined? && Enabled(s, CheckDone) && s.keepAlive >= 0
    ensures PcRank(AfterCheck(s)) + 1 <= PcRank(s) + (if IsWait(s, CheckDone) then 6 else 0)
  {
  }

  lemma IdleRank(s: State, a: Action)
    requires Inv(s) && s.adder.Joined? && !Stuck(s) && Enabled(s, a) && !IsWork(s, a)
    ensures PcRank(Next(s, a)) + 1 <= PcRank(s) + (if IsWait(s, a) then 6 else 0)
  {
    hide AfterPick, AfterLook, AfterCheck, Layout, Data, Fds, Outcome, HeapOk, Rings, Places, Stuck, KernelIdle;
    if a.PickFront? {
      if OnItsOwn(s) {
        PickOnItsOwn(s);
      }
      assert AfterPick(s).pc.Flush?;
    } else if a.Look? {
      IdleLook(s);
    } else if a.CheckDone? {
      AliveNotNegative(s);
      CheckRank(s);
    }
  }

  function Waits(states: seq<State>, actions: seq<Action>): nat
    requires IsRun(states, actions)
    decreases |actions|
  {
    if actions == [] then 0
    else
      var n := |actions| - 1;
      Waits(states[..n + 1], actions[..n]) + Flag(IsWait(states[n], actions[n]))
  }

  const PER_WORK: nat := 16
  const PER_WAIT: nat := 6

  function Budget(s: State): int {
    PER_WORK * WorkLeft(s) + PcRank(s)
  }

  lemma StepSpends(s: State, a: Action)
    requires Inv(s) && Lively(s) && s.adder.Joined? && !Stuck(s) && Enabled(s, a) && Counts(s, a)
    ensures Budget(Next(s, a)) + 1 <= Budget(s) + PER_WAIT * Flag(IsWait(s, a))
    ensures Lively(Next(s, a)) && Next(s, a).adder.Joined?
  {
    hide Inv, Lively, WorkLeft, Counts, Enabled, IsWork, IsWait, Stuck, OnItsOwn, Next;
    if IsWork(s, a) {
      WorkStep(s, a);
    } else {
      IdleStep(s, a);
      IdleRank(s, a);
    }
  }

  lemma {:induction false} RunSpends(states: seq<State>, actions: seq<Action>)
    requires IsRun(states, actions)
    requires Inv(states[0]) && Lively(states[0]) && states[0].adder.Joined? && !Stuck(states[|actions|])
    requires forall k :: 0 <= k < |actions| ==> Counts(states[k], actions[k])
    ensures Inv(states[|actions|]) && Lively(states[|actions|]) && states[|actions|].adder.Joined?
    ensures |actions| + Budget(states[|actions|]) <= Budget(states[0]) + PER_WAIT * Waits(states, actions)
    decreases |actions|
  {
    hide Inv, Lively, Stuck, Enabled, Next, Counts, IsWait, Budget;
    if actions != [] {
      var n := |actions| - 1;
      assert IsRun(states[..n + 1], actions[..n]);
      RunKeepsInv(states[..n + 1], actions[..n]);
      assert states[..n + 1][n] == states[n];
      if Stuck(states[n]) {
        StuckStep(states[n], actions[n]);
      }
      RunSpends(states[..n + 1], actions[..n]);
      StepKeepsInv(states[n], actions[n]);
      StepSpends(states[n], actions[n]);
    }
  }

  /** The length of a run, with errors or without. From the moment additions are complete, a run that
      is not stuck at its end has at most as many steps as the work left pays for, plus six for every
      pass that ends while the kernel has been handed a job. A stuck engine never moves again
      (`StuckForever`), so this says of every run whether and how soon it ends. */
  lemma RunLength(states: seq<State>, actions: seq<Action>)
    requires IsRun(states, actions) && Reachable(states[0]) && Lively(states[0]) && states[0].adder.Joined?
    requires forall k :: 0 <= k < |actions| ==> Counts(states[k], actions[k])
    ensures Stuck(states[|actions|]) || |actions| <= PER_WORK * WorkLeft(states[0]) + 8 + PER_WAIT * Waits(states, actions)
  {
    hide Reachable, Inv, Lively, Stuck, Enabled, Next, Counts, IsWait, WorkLeft, OnItsOwn;
    ReachableInv(states[0]);
    if !Stuck(states[|actions|]) {
      RunSpends(states, actions);
      WorkLeftNotNegative(states[|actions|]);
    }
  }

  // ---------------------------------------------------------------- a kernel that keeps up

  /** The last wait of the run has not been answered: nothing has been done since. */
  predicate Unanswered(states: seq<State>, actions: seq<Action>)
    requires IsRun(states, actions)
    decreases |actions|
  {
    actions != [] &&
    var n := |actions| - 1;
    IsWait(states[n], actions[n]) || (!IsWork(states[n], actions[n]) && Unanswered(states[..n + 1], actions[..n]))
  }

  /** Between two waits something is done: the kernel takes a step it owes (see `KernelOwes`), or a
      completion is processed. */
  predicate Prompt(states: seq<State>, actions: seq<Action>)
    requires IsRun(states, actions)
  {
    forall k {:trigger actions[k]} :: 0 <= k < |actions| && IsWait(states[k], actions[k]) ==>
      IsRun(states[..k + 1], actions[..k]) && !Unanswered(states[..k + 1], actions[..k])
  }

  lemma {:induction false} WaitsArePaid(states: seq<State>, actions: seq<Action>)
    requires IsRun(states, actions) && Prompt(states, actions)
    ensures Waits(states, actions) <= WorkDone(states, actions) + Flag(Unanswered(states, actions))
    decreases |actions|
  {
    hide Enabled, Next, IsWork;
    if actions != [] {
      var n := |actions| - 1;
      assert IsRun(states[..n + 1], actions[..n]);
      PromptBefore(states, actions);
      WaitsArePaid(states[..n + 1], actions[..n]);
      if IsWait(states[n], actions[n]) {
        WaitIsNoWork(states[n], actions[n]);
      }
    }
  }

  lemma WaitIsNoWork(s: State, a: Action)
    requires Enabled(s, a) && IsWait(s, a)
    ensures !IsWork(s, a)
  {
  }

  lemma PromptBefore(states: seq<State>, actions: seq<Action>)
    requires IsRun(states, actions) && Prompt(states, actions) && actions != []
    ensures var n := |actions| - 1; IsRun(states[..n + 1], actions[..n]) && Prompt(states[..n + 1], actions[..n])
  {
    hide Enabled, Next, IsWait, Unanswered;
    var n := |actions| - 1;
    var ss, aa := states[..n + 1], actions[..n];
    assert IsRun(ss, aa);
    forall k | 0 <= k < n && IsWait(ss[k], aa[k])
      ensures IsRun(ss[..k + 1], aa[..k]) && !Unanswered(ss[..k + 1], aa[..k])
    {
      assert actions[k] == aa[k] && states[k] == ss[k];
      assert ss[..k + 1] == states[..k + 1] && aa[..k] == actions[..k];
    }
  }

  /** With a kernel that keeps up there are no waits to count: the length of any run after additions
      is bounded by the work left when they were complete, unless the engine gets stuck. */
  lemma PromptRunLength(states: seq<State>, actions: seq<Action>)
    requires IsRun(states, actions) && Reachable(states[0]) && Lively(states[0]) && states[0].adder.Joined?
    requires forall k :: 0 <= k < |actions| ==> Counts(states[k], actions[k])
    requires Prompt(states, actions)
    ensures Stuck(states[|actions|]) || |actions| <= (PER_WORK + PER_WAIT) * WorkLeft(states[0]) + 8 + PER_WAIT
  {
    hide Reachable, Lively, Stuck, Enabled, Next, Counts, IsWait, WorkLeft, Prompt, Unanswered, IsWork;
    RunLength(states, actions);
    BoundedWork(states, actions);
    WaitsArePaid(states, actions);
  }

  // ---------------------------------------------------------------- the loop ends

  /** Every submit empties the ring. */
  predicate SubmitsAll(states: seq<State>, actions: seq<Action>)
    requires IsRun(states, actions)
  {
    forall k :: 0 <= k < |actions| && actions[k].Submitted? ==> states[k].sq == []
  }

  /** Entries are in the ring only from their issue to the end of the submit that follows. */
  predicate Drained(s: State) {
    s.sq == [] || s.pc.Submit? || (InPass(s.pc) && s.added)
  }

  lemma DrainedElsewhere(s: State, a: Action)
    requires Drained(s) && Enabled(s, a) && IsOther(a)
    ensures Drained(Next(s, a))
  {
    OthersKeepPc(s, a);
    hide Enabled, Next;
  }

  lemma DrainedPass(s: State, a: Action)
    requires Drained(s) && Enabled(s, a) && (a.Look? || a.PickFront?)
    ensures Drained(Next(s, a))
  {
    hide TakeBuffer, RateLimited, Waiting, OutOfFds, NeedsFds;
    TakeBufferKeeps(s);
  }

  lemma DrainedTake(s: State, a: Action)
    requires Drained(s) && Enabled(s, a) && (a.EnsureOpen? || a.IssueBatch?)
    ensures Drained(Next(s, a))
  {
    hide ReadRequest, WriteRequest, PadOf;
  }

  lemma DrainedTurn(s: State, a: Action)
    requires Drained(s) && Enabled(s, a) && (a.Submitted? ==> s.sq == [])
    requires a.FlushBatch? || a.Consume? || a.Submitted? || a.StopReaping? || a.CheckDone?
    ensures Drained(Next(s, a))
  {
  }

  lemma DrainedDrop(s: State, a: Action)
    requires Drained(s) && Enabled(s, a) && a.DropRunner?
    ensures Drained(Next(s, a))
  {
  }

  lemma DrainedReap(s: State, a: Action)
    requires Drained(s) && Enabled(s, a) && a.ReapOne?
    ensures Drained(Next(s, a))
  {
    ReapLeads(s);
    ReapTouches(s);
    hide AfterReap, Coming;
  }

  lemma DrainedStep(s: State, a: Action)
    requires Drained(s) && Enabled(s, a) && (a.Submitted? ==> s.sq == [])
    ensures Drained(Next(s, a))
  {
    hide Drained, Enabled, Next;
    if IsOther(a) {
      DrainedElsewhere(s, a);
    } else if a.Look? || a.PickFront? {
      DrainedPass(s, a);
    } else if a.EnsureOpen? || a.IssueBatch? {
      DrainedTake(s, a);
    } else if a.DropRunner? {
      DrainedDrop(s, a);
    } else if a.ReapOne? {
      DrainedReap(s, a);
    } else {
      DrainedTurn(s, a);
    }
  }

  lemma {:induction false} DrainedRun(states: seq<State>, actions: seq<Action>)
    requires IsRun(states, actions) && Drained(states[0]) && SubmitsAll(states, actions)
    ensures Drained(states[|actions|])
    decreases |actions|
  {
    hide Drained, Enabled, Next;
    if actions != [] {
      var n := |actions| - 1;
      assert IsRun(states[..n + 1], actions[..n]);
      DrainedRun(states[..n + 1], actions[..n]);
      assert states[..n + 1][n] == states[n];
      DrainedStep(states[n], actions[n]);
    }
  }

  lemma DrainedIsNotStuck(s: State)
    requires Inv(s) && Drained(s) && !s.errored && s.ringSize >= MAX_JOBS && s.g.blocks > 0
    ensures !Stuck(s)
  {
    if Stuck(s) {
      StuckHasLeftovers(s);
    }
  }

  // ---------------------------------------------------------------- the next step

  /** A step of the submit thread that fails nothing, and submits until the ring is empty. */
  predicate Proceeds(s: State, a: Action) {
    Enabled(s, a) && !IsOther(a) && Clean(a) && (a.Submitted? ==> s.sq == []) && (a.CheckDone? ==> s.pc.Check?)
  }

  lemma ChosenAvailable(s: State) returns (a: Action)
    requires (s.pc.Issue? || s.pc.Drop?) && IsRunner(s, s.pc.rid)
    ensures Proceeds(s, a)
  {
    a := if s.pc.Issue? then IssueBatch else DropRunner(true);
  }

  lemma SubmitAvailable(s: State) returns (a: Action)
    requires Inv(s) && s.pc.Submit?
    ensures Proceeds(s, a)
  {
    hide Inv;
    if s.sq == [] {
      if !s.pc.consumed {
        SomethingQueued(s);
      }
      a := Submitted;
    } else {
      QueueHead(s);
      a := Consume;
    }
  }

  lemma ReapAvailable(s: State) returns (a: Action)
    requires Inv(s) && s.pc.Reap?
    ensures Proceeds(s, a)
  {
    hide Inv;
    a := StopReaping;
    if s.submissionsRunning != 0 && s.cq != [] {
      HeadIsDone(s);
      a := ReapOne;
    }
  }

  lemma PlainStep(s: State) returns (a: Action)
    requires s.pc.Top? || s.pc.Flush? || s.pc.Check?
    ensures Proceeds(s, a)
  {
    a := if s.pc.Top? then Look else if s.pc.Flush? then FlushBatch else CheckDone;
  }

  lemma PickAvailable(s: State) returns (a: Action)
    requires Inv(s) && s.pc.Pick?
    ensures Proceeds(s, a)
  {
    hide Inv;
    FrontIsRunner(s);
    a := PickFront;
  }

  lemma OpenAvailable(s: State) returns (a: Action)
    requires Reachable(s) && (s.pc.OpenSource? || s.pc.OpenDest? || s.pc.OpenEmpty?)
    ensures Proceeds(s, a)
  {
    hide Reachable;
    HighPriorityNeverWaits(s);
    a := EnsureOpen(true);
  }

  /** Until the loop has returned the submit thread can go on, even if no call fails any more and
      every submit is to empty the ring. */
  lemma StepAvailable(s: State) returns (a: Action)
    requires Reachable(s) && !s.pc.Exited?
    ensures Proceeds(s, a)
  {
    ReachableInv(s);
    hide Reachable, Inv, Proceeds;
    match s.pc
    case OpenSource(_) => a := OpenAvailable(s);
    case OpenDest(_) => a := OpenAvailable(s);
    case OpenEmpty(_) => a := OpenAvailable(s);
    case Issue(_) =>
      ChosenIsRunner(s);
      a := ChosenAvailable(s);
    case Drop(_, _, _, _) =>
      ChosenIsRunner(s);
      a := ChosenAvailable(s);
    case Submit(_) => a := SubmitAvailable(s);
    case Reap => a := ReapAvailable(s);
    case Pick => a := PickAvailable(s);
    case _ => a := PlainStep(s);
  }

  /** A pass that has found no completion and in which nothing was done has none at its end. */
  lemma NothingToReap(s: State, a: Action)
    requires Rings(s) && Enabled(s, a) && !IsWork(s, a) && Next(s, a).pc.Check?
    ensures Next(s, a).cq == []
  {
    if a.StopReaping? {
      if s.submissionsRunning == 0 {
        NoJobsNoCompletions(s);
      }
    } else {
      hide Rings;
      NoOtherEnd(s, a);
    }
  }

  lemma NoJobsNoCompletions(s: State)
    requires Rings(s) && s.submissionsRunning == 0
    ensures s.cq == []
  {
    assert s.jobs == map[];
    EmptyRings(s);
  }

  lemma NoOtherEnd(s: State, a: Action)
    requires Enabled(s, a) && !IsWork(s, a) && !a.StopReaping?
    ensures !Next(s, a).pc.Check?
  {
    hide TakeBuffer, RateLimited, Waiting, OutOfFds, NeedsFds;
  }

  /** Where a second wait would go unanswered, the kernel owes a step. */
  lemma OwedAtCheck(states: seq<State>, actions: seq<Action>) returns (a: Action)
    requires IsRun(states, actions) && Reachable(states[0]) && Unanswered(states, actions)
    requires IsWait(states[|actions|], CheckDone) && states[|actions|].pc.Check?
    ensures Answers(states[|actions|], a)
  {
    hide Reachable, Inv, Enabled, Next, IsWork, Answers;
    var n := |actions| - 1;
    var s := states[n + 1];
    ReachableInv(states[0]);
    RunKeepsInv(states, actions);
    RunKeepsInv(states[..n + 1], actions[..n]);
    assert states[..n + 1][n] == states[n];
    WaitGoesOn(states[n], actions[n], s);
    InvRings(states[n]);
    NothingToReap(states[n], actions[n]);
    a := OwedNow(s);
  }

  lemma InvRings(s: State)
    requires Inv(s)
    ensures Rings(s) && Data(s)
  {
    hide Rings, Data;
  }

  lemma WaitGoesOn(s: State, a: Action, s': State)
    requires Enabled(s, a) && s' == Next(s, a) && s'.pc.Check?
    ensures !IsWait(s, a)
  {
  }

  lemma OwedNow(s: State) returns (a: Action)
    requires Inv(s) && !KernelIdle(s) && s.cq == []
    ensures Answers(s, a)
  {
    hide Inv, Answers;
    var t :| t in s.jobs && !s.jobs[t].stage.Queued?;
    InvRings(s);
    var u := OwedFor(s, t);
    a := CanAnswer(s, u);
  }

  // ---------------------------------------------------------------- runs that can go on

  lemma PromptExtends(states: seq<State>, actions: seq<Action>, a: Action)
    requires IsRun(states, actions) && Prompt(states, actions) && Enabled(states[|actions|], a)
    requires IsWait(states[|actions|], a) ==> !Unanswered(states, actions)
    ensures var ss, aa := states + [Next(states[|actions|], a)], actions + [a]; IsRun(ss, aa) && Prompt(ss, aa)
  {
    hide Enabled, Next, IsWait, Unanswered;
    var n := |actions|;
    var ss, aa := states + [Next(states[n], a)], actions + [a];
    assert IsRun(ss, aa);
    forall k | 0 <= k < |aa| && IsWait(ss[k], aa[k])
      ensures IsRun(ss[..k + 1], aa[..k]) && !Unanswered(ss[..k + 1], aa[..k])
    {
      assert ss[k] == states[k];
      if k == n {
        assert ss[..k + 1] == states && aa[..k] == actions;
      } else {
        assert aa[k] == actions[k];
        assert ss[..k + 1] == states[..k + 1] && aa[..k] == actions[..k];
      }
    }
  }

  /** A run after additions with a kernel that keeps up, whose reads and lone writes move forward, whose
      submits empty the ring, with at least two ring entries and one block. */
  ghost predicate Fair(states: seq<State>, actions: seq<Action>) {
    && IsRun(states, actions)
    && Reachable(states[0]) && states[0].adder.Joined? && Lively(states[0]) && Drained(states[0])
    && (forall k :: 0 <= k < |actions| ==> Counts(states[k], actions[k]))
    && Prompt(states, actions) && SubmitsAll(states, actions)
    && states[0].ringSize >= MAX_JOBS && states[0].g.blocks > 0
  }

  lemma FairExtends(states: seq<State>, actions: seq<Action>, a: Action)
    requires Fair(states, actions) && Enabled(states[|actions|], a) && Counts(states[|actions|], a)
    requires IsWait(states[|actions|], a) ==> !Unanswered(states, actions)
    requires a.Submitted? ==> states[|actions|].sq == []
    ensures Fair(states + [Next(states[|actions|], a)], actions + [a])
  {
    hide Reachable, Lively, Drained, Counts, Prompt, Enabled, Next, IsWait, Unanswered;
    PromptExtends(states, actions, a);
    var n := |actions|;
    var ss, aa := states + [Next(states[n], a)], actions + [a];
    assert forall k :: 0 <= k < n ==> ss[k] == states[k] && aa[k] == actions[k];
    assert ss[n] == states[n] && aa[n] == a;
  }

  /** The step that goes on: the submit thread's own, or one the kernel owes where the submit thread
      would wait a second time. */
  lemma GoOn(states: seq<State>, actions: seq<Action>) returns (next: Action)
    requires IsRun(states, actions) && Reachable(states[0]) && !states[|actions|].pc.Exited?
    ensures Enabled(states[|actions|], next) && Clean(next) && Counts(states[|actions|], next)
    ensures IsWait(states[|actions|], next) ==> !Unanswered(states, actions)
    ensures next.Submitted? ==> states[|actions|].sq == []
  {
    hide Reachable, Enabled, Unanswered, KernelIdle;
    var s := states[|actions|];
    ReachableOn(states, actions);
    next := StepAvailable(s);
    if IsWait(s, next) && Unanswered(states, actions) {
      next := OwedAtCheck(states, actions);
    }
  }

  lemma {:induction false} SizesOn(states: seq<State>, actions: seq<Action>)
    requires IsRun(states, actions)
    ensures states[|actions|].ringSize == states[0].ringSize && states[|actions|].g == states[0].g
    decreases |actions|
  {
    hide Enabled, Next;
    if actions != [] {
      var n := |actions| - 1;
      assert IsRun(states[..n + 1], actions[..n]);
      SizesOn(states[..n + 1], actions[..n]);
      assert states[..n + 1][n] == states[n];
      StepKeepsSizes(states[n], actions[n]);
    }
  }

  /** The most steps such a run has. */
  function LastStep(s: State): int {
    (PER_WORK + PER_WAIT) * WorkLeft(s) + 8 + PER_WAIT
  }

  /** The loop ends. A run of this kind without errors is never stuck and its length is bounded; and
      as long as the loop has not returned, it goes on as a run of this kind, by a step in which no call
      fails. So every such run can be continued, and only to the return. */
  lemma LoopEnds(states: seq<State>, actions: seq<Action>) returns (next: Action)
    requires Fair(states, actions) && !states[|actions|].errored
    ensures !Stuck(states[|actions|]) && |actions| <= LastStep(states[0])
    ensures !states[|actions|].pc.Exited? ==>
      && Enabled(states[|actions|], next) && Clean(next)
      && Fair(states + [Next(states[|actions|], next)], actions + [next])
  {
    hide Reachable, Inv, Lively, Stuck, Drained, Enabled, Next, Counts, IsWait, WorkLeft, Prompt, SubmitsAll, Unanswered, Clean;
    ReachableInv(states[0]);
    RunKeepsInv(states, actions);
    DrainedRun(states, actions);
    SizesOn(states, actions);
    DrainedIsNotStuck(states[|actions|]);
    PromptRunLength(states, actions);
    next := Look;
    if !states[|actions|].pc.Exited? {
      next := GoOn(states, actions);
      FairExtends(states, actions, next);
    }
  }

  /** Any such run on which no error has come up or is on its way leads on to the return with no error,
      within the bound, and then every destination equals its source. */
  lemma {:induction false} LoopReturns(states: seq<State>, actions: seq<Action>)
    returns (states': seq<State>, actions': seq<Action>)
    requires Fair(states, actions) && Sound(states[|actions|])
    ensures Fair(states', actions') && states <= states' && actions <= actions' && |actions'| <= LastStep(states[0])
    ensures var s := states'[|actions'|];
      s.pc.Exited? && !s.errored && forall f :: 0 <= f < |s.files| ==> s.files[f].dest == s.files[f].src
    decreases LastStep(states[0]) - |actions|
  {
    hide Fair, Sound, Enabled, Next, LastStep, Stuck, Clean;
    FairIsRun(states, actions);
    var s := states[|actions|];
    SoundIsErrorless(s);
    var next := LoopEnds(states, actions);
    if s.pc.Exited? {
      states', actions' := states, actions;
      CopyIsRight(s);
    } else {
      SoundStep(s, next);
      var ss, aa := states + [Next(s, next)], actions + [next];
      var more := LoopEnds(ss, aa) by { SoundIsErrorless(Next(s, next)); }
      states', actions' := LoopReturns(ss, aa);
    }
  }

  lemma FairIsRun(states: seq<State>, actions: seq<Action>)
    requires Fair(states, actions)
    ensures IsRun(states, actions) && Reachable(states[|actions|])
  {
    hide Reachable, Lively, Drained, Counts, Prompt, SubmitsAll, Enabled, Next;
    ReachableOn(states, actions);
  }

  lemma SoundIsErrorless(s: State)
    requires Sound(s)
    ensures !s.errored
  {
  }

  lemma {:induction false} ReachableOn(states: seq<State>, actions: seq<Action>)
    requires IsRun(states, actions) && Reachable(states[0])
    ensures Reachable(states[|actions|])
    decreases |actions|
  {
    hide Enabled, Next, Init;
    var before, done :| EndsIn(before, done, states[0]);
    assert EndsIn(before + states[1..], done + actions, states[|actions|]);
  }
}
