/** Every failure is reported: `join` returns false exactly if a call has failed. */
module Errors {
  import opened Arithmetic
  import opened ChunkPlan
  import opened Runner
  import opened Engine
  import opened Invariant
  import opened Theorems
  import opened Touches
  import opened Progress
  import opened WorkBound
  import opened Faultless

  /** The answer to this request is a failure, and waits to be processed. */
  predicate BadAnswer(s: State, t: Tag) {
    t in s.jobs && !SoundResult(t, s.jobs[t])
  }

  /** A failure of runner i is on its way to be reported. */
  predicate Doomed(s: State, i: nat) {
    && i < |s.runners| && s.runners[i].alive
    && (s.runners[i].savedError || (s.pc.Drop? && s.pc.error && s.pc.rid == i)
        || BadAnswer(s, Tag(i, Read)) || BadAnswer(s, Tag(i, Write)))
  }

  /** The runner in whose name the call is made, if any. */
  function Caller(s: State, a: Action): Option<nat> {
    match a
    case EnsureOpen(_) => Chosen(s.pc)
    case RunRead(i, _, _) => Some(i)
    case RunWrite(i, _) => Some(i)
    case _ => None
  }

  // ---------------------------------------------------------------- a failure dooms its runner

  lemma BadReadDooms(s: State, i: nat, res: int, data: seq<byte>)
    requires Enabled(s, RunRead(i, res, data)) && res <= 0 && s.runners[i].alive
    ensures Doomed(Next(s, RunRead(i, res, data)), i)
  {
    hide KernelRead, Overwrite;
  }

  lemma BadWriteDooms(s: State, i: nat, res: int)
    requires Enabled(s, RunWrite(i, res)) && res < 0 && res != -ECANCELED && s.runners[i].alive
    ensures Doomed(Next(s, RunWrite(i, res)), i)
  {
    hide WriteAt, Slice, BufferOf;
  }

  lemma BadOpenDooms(s: State)
    requires Enabled(s, EnsureOpen(false)) && s.runners[s.pc.rid].alive
    ensures Doomed(Next(s, EnsureOpen(false)), s.pc.rid)
  {
  }

  lemma ReportedAtOnce(s: State, a: Action)
    requires Enabled(s, a) && !Clean(a) && (a.AdderError? || a.DropRunner?)
    ensures Next(s, a).errored
  {
  }

  /** A call that fails is reported at once, or dooms the runner that made it. */
  lemma FailureDooms(s: State, a: Action)
    requires Inv(s) && Enabled(s, a) && !Clean(a)
    ensures Next(s, a).errored || (Caller(s, a).Some? && Doomed(Next(s, a), Caller(s, a).value))
  {
    hide Layout, Data, Counters, Fds, Outcome, Places, HeapOk, Rings, Doomed, Next;
    match a
    case RunRead(i, res, data) =>
      InFlight(s, i);
      BadReadDooms(s, i, res, data);
    case RunWrite(i, res) =>
      InFlight(s, i);
      BadWriteDooms(s, i, res);
    case EnsureOpen(_) =>
      OpenPlaced(s, s.pc.rid);
      BadOpenDooms(s);
    case _ => ReportedAtOnce(s, a);
  }

  // ---------------------------------------------------------------- and a doomed runner reports

  /** What concerns runner i's failures is still there. */
  predicate Remembers(s: State, s': State, i: nat) {
    && i < |s'.runners| && (i < |s.runners| ==>
      s'.runners[i].alive == s.runners[i].alive && (s.runners[i].savedError ==> s'.runners[i].savedError))
    && (s.pc.Drop? ==> s'.pc == s.pc)
    && (forall kind :: BadAnswer(s, Tag(i, kind)) ==> BadAnswer(s', Tag(i, kind)) || s'.runners[i].savedError)
  }

  lemma StaysDoomed(s: State, s': State, i: nat)
    requires Doomed(s, i) && Remembers(s, s', i)
    ensures Doomed(s', i)
  {
    hide BadAnswer;
  }

  lemma AdderRemembers(s: State, a: Action, i: nat)
    requires Enabled(s, a) && IsAdder(a) && i < |s.runners|
    ensures Remembers(s, Next(s, a), i)
  {
    AdderTouches(s, a);
    AdderKeepsRunners(s, a, i);
    hide Next, Enabled;
  }

  lemma AdderKeepsRunners(s: State, a: Action, i: nat)
    requires Enabled(s, a) && IsAdder(a) && i < |s.runners|
    ensures i < |Next(s, a).runners| && Next(s, a).runners[i] == s.runners[i]
  {
    hide NextPart, PartCount, ChunkSize, Plannable, AfterLowOpen;
    if a.LowOpen? {
      LowOpenQueues(s, a.low);
    }
  }

  /** The kernel changes no job that is answered. */
  lemma KernelRemembers(s: State, a: Action, i: nat)
    requires Enabled(s, a) && IsKernel(a) && i < |s.runners|
    ensures Remembers(s, Next(s, a), i)
  {
    hide KernelRead, Overwrite, WriteAt, Slice, BufferOf;
  }

  lemma PassRemembers(s: State, a: Action, i: nat)
    requires Enabled(s, a) && (a.Look? || a.PickFront?) && i < |s.runners|
    ensures Remembers(s, Next(s, a), i)
  {
    hide TakeBuffer, RateLimited, Waiting, OutOfFds, NeedsFds, BadAnswer;
    TakeBufferKeeps(s);
    PassKeepsJobs(s, a);
    SameJobs(s, Next(s, a), i);
  }

  lemma PassKeepsJobs(s: State, a: Action)
    requires Enabled(s, a) && (a.Look? || a.PickFront?)
    ensures Next(s, a).jobs == s.jobs
  {
    hide TakeBuffer, RateLimited, Waiting, OutOfFds, NeedsFds;
    TakeBufferKeeps(s);
  }

  lemma SameJobs(s: State, s': State, i: nat)
    requires s'.jobs == s.jobs
    ensures forall kind :: BadAnswer(s', Tag(i, kind)) == BadAnswer(s, Tag(i, kind))
  {
  }

  lemma IssueRemembers(s: State, a: Action, i: nat)
    requires Enabled(s, a) && a.IssueBatch? && i < |s.runners| && !HasJob(s, s.pc.rid)
    ensures Remembers(s, Next(s, a), i)
  {
    hide ReadRequest, WriteRequest, PadOf;
  }

  lemma ConsumeRemembers(s: State, a: Action, i: nat)
    requires Enabled(s, a) && a.Consume? && i < |s.runners|
    requires forall k :: 0 <= k < |s.sq| ==> s.sq[k] in s.jobs && s.jobs[s.sq[k]].stage.Queued?
    ensures Remembers(s, Next(s, a), i)
  {
  }

  lemma TurnRemembers(s: State, a: Action, i: nat)
    requires Enabled(s, a) && (a.FlushBatch? || a.Submitted? || a.StopReaping? || a.CheckDone?) && i < |s.runners|
    ensures Remembers(s, Next(s, a), i)
  {
  }

  lemma OpenRemembers(s: State, a: Action, i: nat)
    requires Enabled(s, a) && a.EnsureOpen? && i < |s.runners|
    ensures Remembers(s, Next(s, a), i)
  {
  }

  lemma BadIsSaved(r: Chunk, t: Tag, job: Job, align: nat, chunks: nat)
    requires job.stage.Done?
    ensures Absorb(r, t.kind, job.stage.res, align, chunks).savedError <==> r.savedError || !SoundResult(t, job)
    ensures Absorb(r, t.kind, job.stage.res, align, chunks).alive == r.alive
  {
    hide AlignDown, BytesToRead;
  }

  lemma ReapRemembers(s: State, i: nat)
    requires Enabled(s, ReapOne) && i < |s.runners|
    ensures Remembers(s, AfterReap(s, s.cq[0]), i)
  {
    hide Absorb, AfterReap;
    var t := s.cq[0];
    var f := FileOf(s, t.rid);
    BadIsSaved(s.runners[t.rid], t, s.jobs[t], f.align, if f.chunksRemaining >= 0 then f.chunksRemaining else 0);
    ReapLeaves(s);
  }

  lemma ReapLeaves(s: State)
    requires Enabled(s, ReapOne)
    ensures var t, s' := s.cq[0], AfterReap(s, s.cq[0]);
      var f := FileOf(s, t.rid);
      && s'.jobs == s.jobs - {t}
      && s'.runners == s.runners[t.rid := Absorb(s.runners[t.rid], t.kind, s.jobs[t].stage.res, f.align,
           if f.chunksRemaining >= 0 then f.chunksRemaining else 0)]
  {
    hide Absorb;
  }

  /** Deleting a runner reports its failure, and forgets nobody else's. */
  lemma DropReports(s: State, closed: bool, i: nat)
    requires Places(s) && Enabled(s, DropRunner(closed)) && Doomed(s, i)
    ensures Next(s, DropRunner(closed)).errored || Doomed(Next(s, DropRunner(closed)), i)
  {
    assert PlaceOk(s, i);
  }

  lemma QueuedAll(s: State)
    requires Rings(s)
    ensures forall k :: 0 <= k < |s.sq| ==> s.sq[k] in s.jobs && s.jobs[s.sq[k]].stage.Queued?
  {
    hide Chained, ListsDone, ReadsFirst;
  }

  lemma OthersRemember(s: State, a: Action, i: nat)
    requires Inv(s) && Enabled(s, a) && i < |s.runners| && !a.DropRunner?
    ensures Remembers(s, Next(s, a), i)
  {
    hide Layout, Data, Counters, Fds, Outcome, Places, HeapOk, Rings, Next, Remembers;
    if IsAdder(a) {
      AdderRemembers(s, a, i);
    } else if IsKernel(a) {
      KernelRemembers(s, a, i);
    } else if a.Look? || a.PickFront? {
      PassRemembers(s, a, i);
    } else if a.IssueBatch? {
      IssuePlaced(s, s.pc.rid);
      IssueRemembers(s, a, i);
    } else if a.Consume? {
      QueuedAll(s);
      ConsumeRemembers(s, a, i);
    } else if a.EnsureOpen? {
      OpenRemembers(s, a, i);
    } else if a.ReapOne? {
      ReapRemembersNext(s, a, i);
    } else {
      TurnRemembers(s, a, i);
    }
  }

  lemma ReapRemembersNext(s: State, a: Action, i: nat)
    requires Enabled(s, a) && a.ReapOne? && i < |s.runners|
    ensures Remembers(s, Next(s, a), i)
  {
    hide AfterReap, Remembers;
    ReapRemembers(s, i);
  }

  lemma ErrorStays(s: State, a: Action)
    requires Enabled(s, a) && s.errored
    ensures Next(s, a).errored
  {
    if a.ReapOne? {
      hide AfterReap;
      ReapKeepsError(s);
    } else {
      hide AfterReap, KernelRead, FirstFree, ReadRequest, WriteRequest, PadOf, RateLimited, Waiting, OutOfFds, NeedsFds,
        Overwrite, WriteAt, Slice, BufferOf, NextPart, PartCount, ChunkSize, Plannable;
    }
  }

  lemma ReapKeepsError(s: State)
    requires Enabled(s, ReapOne)
    ensures AfterReap(s, s.cq[0]).errored == s.errored
  {
    hide Absorb, Judge;
  }

  /** A failure on its way stays on its way until it is reported, and a reported one stays reported. */
  lemma DoomStays(s: State, a: Action, i: nat)
    requires Inv(s) && Enabled(s, a) && (s.errored || Doomed(s, i))
    ensures Next(s, a).errored || Doomed(Next(s, a), i)
  {
    hide Layout, Data, Counters, Fds, Outcome, HeapOk, Rings, Places, Next, Enabled, Remembers;
    if s.errored {
      ErrorStays(s, a);
    } else if a.DropRunner? {
      DropReports(s, a.closed, i);
    } else {
      OthersRemember(s, a, i);
      StaysDoomed(s, Next(s, a), i);
    }
  }

  // ---------------------------------------------------------------- runs

  /** The runner that answers for the failure in step k; runner 0 where nobody does. */
  function Answerable(states: seq<State>, actions: seq<Action>, k: nat): nat
    requires k < |actions| < |states|
  {
    if Caller(states[k], actions[k]).Some? then Caller(states[k], actions[k]).value else 0
  }

  /** From a failing call on, at every moment either an error has been reported or the runner that made
      the call is alive and on its way to report it. */
  lemma {:induction false} FailureIsReported(states: seq<State>, actions: seq<Action>, k: nat)
    requires IsRun(states, actions) && Init(states[0]) && k < |actions| && !Clean(actions[k])
    ensures states[|actions|].errored || Doomed(states[|actions|], Answerable(states, actions, k))
    decreases |actions|
  {
    hide Init, Inv, Enabled, Next, Clean, Caller, Doomed;
    var n := |actions| - 1;
    assert IsRun(states[..n + 1], actions[..n]);
    InitInv(states[0]);
    RunKeepsInv(states[..n + 1], actions[..n]);
    assert states[..n + 1][n] == states[n];
    if k < n {
      assert states[..n + 1][k] == states[k] && actions[..n][k] == actions[k];
      FailureIsReported(states[..n + 1], actions[..n], k);
      DoomStays(states[n], actions[n], Answerable(states, actions, k));
    } else {
      FailureDooms(states[n], actions[n]);
    }
  }

  /** `join` returns false if and only if a call has failed: one of the adding thread, an open that was
      needed, a close, or a read or write. */
  lemma JoinTellsFailures(states: seq<State>, actions: seq<Action>)
    requires IsRun(states, actions) && Init(states[0]) && states[|actions|].pc.Exited?
    ensures states[|actions|].errored <==> exists k :: 0 <= k < |actions| && !Clean(actions[k])
  {
    hide Init, Enabled, Next, Clean, Doomed;
    if k :| 0 <= k < |actions| && !Clean(actions[k]) {
      FailureIsReported(states, actions, k);
      assert EndsIn(states, actions, states[|actions|]);
      NobodyIsLeft(states[|actions|], Answerable(states, actions, k));
    } else {
      NoFailureNoError(states, actions);
    }
  }

  lemma NobodyIsLeft(s: State, i: nat)
    requires Reachable(s) && s.pc.Exited?
    ensures !Doomed(s, i)
  {
    hide Reachable, Layout, Data, Counters, Fds, Outcome, Places, HeapOk, Rings;
    ReachableInv(s);
    AtExit(s);
    AllRetired(s);
  }
}
