/** When a pass takes a runner up, and when the engine is stuck for good. */
module Progress {
  import opened Arithmetic
  import opened ChunkPlan
  import opened Runner
  import opened Engine
  import opened ChunkInvariant
  import opened Invariant
  import opened Frames
  import opened SubmitSteps
  import opened Theorems
  import opened Touches

  // ---------------------------------------------------------------- no deadlock

  /** At the start of a pass, additions are complete, a runner is alive and nothing is with the kernel. */
  predicate Quiet(s: State) {
    s.pc.Top? && s.adder.Joined? && s.keepAlive > 0 && s.jobs == map[]
  }

  /** The submit thread cannot start the runner at the front for want of descriptors. */
  predicate Starved(s: State) {
    && s.pendingContinue == [] && s.pendingStart != [] && IsRunner(s, s.pendingStart[0])
    && OutOfFds(s) && NeedsFds(FileOf(s, s.pendingStart[0]))
  }

  lemma SomeoneIsAlive(s: State) returns (i: nat)
    requires Counters(s) && s.keepAlive > 0
    ensures i < |s.runners| && s.runners[i].alive
  {
    if forall k :: 0 <= k < |s.runners| ==> !s.runners[k].alive {
      SumOfZeros(Lives(s.runners));
    }
    i :| i < |s.runners| && s.runners[i].alive;
  }

  /** With nothing in flight a live runner waits in one of the two queues. */
  lemma SomeoneWaits(s: State)
    requires Inv(s) && Quiet(s)
    ensures s.pendingContinue != [] || s.pendingStart != []
  {
    var i := SomeoneIsAlive(s);
    assert PlaceOk(s, i);
  }

  lemma WaitingHaveNoBlock(s: State)
    requires Places(s) && Quiet(s) && s.pendingContinue == []
    ensures forall i :: 0 <= i < |s.runners| && s.runners[i].alive ==> s.runners[i].block.None?
  {
    forall i | 0 <= i < |s.runners| && s.runners[i].alive
      ensures s.runners[i].block.None?
    {
      assert PlaceOk(s, i);
    }
  }

  /** With nothing in flight and nobody to continue, the heap has a block to give. */
  lemma BlockAvailable(s: State)
    requires Inv(s) && Quiet(s) && s.pendingContinue == [] && s.g.blocks > 0
    ensures TakeBuffer(s).nextBuffer.Some?
  {
    hide FirstFree, Layout, Data, Counters, Fds, Outcome, Rings, Places;
    LayoutSizes(s);
    WaitingHaveNoBlock(s);
    FirstFreeMeaning(s.heap, 0);
    if s.nextBuffer.None? {
      assert !s.heap[0].Held?;
      assert s.heap[0].Free?;
    }
  }

  lemma LiveOfFile(s: State, f: nat) returns (i: nat)
    requires Sum(LivesOf(s.runners, f)) > 0
    ensures i < |s.runners| && s.runners[i].alive && s.runners[i].file == f
  {
    hide Sum;
    if forall k :: 0 <= k < |s.runners| ==> !(s.runners[k].alive && s.runners[k].file == f) {
      SumOfZeros(LivesOf(s.runners, f));
    }
    i :| i < |s.runners| && s.runners[i].alive && s.runners[i].file == f;
  }

  /** The runners of a file are a contiguous stretch. */
  lemma Contiguous(s: State, f: nat, i: nat, j: nat)
    requires Layout(s) && f < |s.files| && s.files[f].first <= j <= i < |s.runners| && s.runners[i].file == f
    ensures s.runners[j].file == f
  {
    hide PartAt, ChunkSize, PartsOf, Plannable, ValidConfig, AdderOk;
    assert FileLaid(s, f) && RunnerLaid(s, i) && RunnerLaid(s, j);
    assert FileLaid(s, s.runners[j].file);
  }

  lemma LiveIsQueued(s: State, i: nat)
    requires Places(s) && Quiet(s) && s.pendingContinue == [] && i < |s.runners| && s.runners[i].alive
    ensures i >= Started(s)
  {
    assert PlaceOk(s, i);
  }

  /** A file that still has parts to do has them all at or behind the front of the start queue, so a
      file that was started and is not finished is the front's own. */
  lemma StartedFileIsFront(s: State, f: nat)
    requires Inv(s) && Quiet(s) && s.pendingContinue == [] && s.pendingStart != []
    requires f < |s.files| && s.files[f].first < Started(s) && s.files[f].chunksRemaining > 0
    ensures s.runners[s.pendingStart[0]].file == f
  {
    hide Layout, Data, Fds, Outcome, Rings, HeapOk, LivesOf, Sum;
    FilePlan(s, f);
    var i := LiveOfFile(s, f);
    LiveIsQueued(s, i);
    Contiguous(s, f, i, s.pendingStart[0]);
  }

  lemma FrontWaits(s: State, front: nat)
    requires Places(s) && s.pendingStart != [] && s.pendingStart[0] == front
    ensures front == Started(s) < |s.runners| && s.runners[front].alive && s.runners[front].block.None?
  {
    assert PlaceOk(s, front);
  }

  /** The runner before the front is a part of the same file. */
  lemma PartBefore(s: State, front: nat)
    requires Layout(s) && IsRunner(s, front) && FileOf(s, front).first < front
    ensures front > 0 && s.runners[front - 1].file == s.runners[front].file && FileOf(s, front).src != []
  {
    hide PartAt, ChunkSize, Plannable, ValidConfig, AdderOk;
    var f, before := s.runners[front].file, front - 1;
    assert RunnerLaid(s, front) && RunnerLaid(s, before);
    assert FileLaid(s, f) && FileLaid(s, s.runners[before].file);
    assert s.files[f].parts >= 2;
  }

  lemma PartsHaveSize(s: State, i: nat)
    requires Data(s) && i < |s.runners|
    ensures IsRunner(s, i) && (FileOf(s, i).src != [] ==> s.runners[i].size > 0)
    ensures s.runners[i].alive && s.runners[i].block.None? ==> !s.runners[i].savedError
  {
    hide RunnerOk;
    assert IsRunner(s, i) && RunnerGood(s, i);
    SizeOf(s.g, s.runners[i], FileOf(s, i), JobAt(s, i, Read), JobAt(s, i, Write), BufferOf(s, i));
    if s.runners[i].alive && s.runners[i].block.None? {
      FreshProgress(s.g, s.runners[i], FileOf(s, i), JobAt(s, i, Read), JobAt(s, i, Write), BufferOf(s, i));
    }
  }

  lemma OpenedBefore(s: State, i: nat)
    requires Fds(s) && s.pc.Top? && s.failedHigh == 0 && 0 < i < |s.runners| && i <= Started(s)
    requires s.runners[i - 1].file == s.runners[i].file && s.runners[i - 1].size > 0
    requires s.runners[i].alive && !s.runners[i].savedError
    ensures IsRunner(s, i) && !NeedsFds(FileOf(s, i))
  {
    assert IsRunner(s, i) && RunnerFds(s, i);
    assert IsRunner(s, i - 1) && RunnerFds(s, i - 1);
  }

  /** A second part of a started file finds both files open. */
  lemma StartedFrontHasFds(s: State)
    requires Inv(s) && Quiet(s) && s.failedHigh == 0 && s.pendingStart != []
    requires IsRunner(s, s.pendingStart[0]) && FileOf(s, s.pendingStart[0]).first < Started(s)
    ensures !NeedsFds(FileOf(s, s.pendingStart[0]))
  {
    hide Layout, Data, Counters, Fds, Outcome, Places, HeapOk, Rings, NeedsFds;
    var front := s.pendingStart[0];
    FrontWaits(s, front);
    PartBefore(s, front);
    PartsHaveSize(s, front);
    PartsHaveSize(s, front - 1);
    OpenedBefore(s, front);
  }

  lemma SizeOf(g: Geometry, r: Chunk, f: File, rj: Option<Job>, wj: Option<Job>, buf: seq<byte>)
    requires RunnerOk(g, r, f, rj, wj, buf)
    ensures r.size > 0 <==> f.src != []
  {
    hide ChunkSize, Fits, Pad, RoundUp;
  }

  /** Nobody but the submit thread, working on the front's file, holds descriptors beyond the low
      limit, so either the front has its files open already or there are two descriptors free. */
  lemma NotStarved(s: State)
    requires Inv(s) && Quiet(s) && !s.errored
    ensures !Starved(s)
  {
    NoFailedOpen(s);
    hide Inv, OutOfFds, NeedsFds;
    if s.pendingContinue == [] && s.pendingStart != [] && IsRunner(s, s.pendingStart[0]) {
      var front := s.pendingStart[0];
      if FileOf(s, front).first < Started(s) {
        StartedFrontHasFds(s);
      } else {
        NoHighOpens(s, front);
        FewDescriptors(s);
      }
    }
  }

  lemma NoFailedOpen(s: State)
    requires Layout(s) && Outcome(s) && !s.errored && !s.pc.Drop?
    ensures s.failedHigh == 0 && s.fdCap < TWO_64
  {
  }

  lemma FewDescriptors(s: State)
    requires s.fdCap - s.fdsUsed >= 2 && s.fdsUsed >= 0 && s.fdCap < TWO_64
    ensures !OutOfFds(s)
  {
  }

  lemma NoHighOpens(s: State, front: nat)
    requires Inv(s) && Quiet(s) && !s.errored
    requires s.pendingContinue == [] && s.pendingStart != [] && s.pendingStart[0] == front && IsRunner(s, front)
    requires FileOf(s, front).first >= Started(s)
    ensures 0 <= s.fdsUsed <= s.fdCap - HIGH_PRIORITY_FDS
  {
    hide Layout, Data, Counters, Fds, Outcome, Places, HeapOk, Rings, Sum;
    forall f | 0 <= f < |s.files|
      ensures HighCounts(s.files)[f] == 0
    {
      if HighCount(s.files[f]) > 0 {
        ChunksNotNegative(s, f);
        HighMeansStarted(s, f);
        if s.files[f].chunksRemaining > 0 {
          StartedFileIsFront(s, f);
        }
      }
    }
    SumOfZeros(HighCounts(s.files));
    NoFailedOpen(s);
    LowLimit(s);
  }

  lemma HighMeansStarted(s: State, f: nat)
    requires Fds(s) && Outcome(s) && !s.errored && f < |s.files| && HighCount(s.files[f]) > 0
    ensures s.files[f].first < Started(s) && s.files[f].chunksRemaining != 0
  {
    assert FileFds(s, f);
  }

  lemma LowLimit(s: State)
    requires Fds(s) && Sum(HighCounts(s.files)) == 0 && s.failedHigh == 0
    ensures 0 <= s.fdsUsed <= s.fdCap - HIGH_PRIORITY_FDS
  {
    SumNonNegative(OpenCounts(s.files));
    hide Sum, FileFds, RunnerFds;
  }

  lemma ChunksNotNegative(s: State, f: nat)
    requires Layout(s) && Counters(s) && f < |s.files|
    ensures s.files[f].chunksRemaining >= 0
  {
    assert FileLaid(s, f);
    SumNonNegative(LivesOf(s.runners, f));
  }

  lemma QuietLook(s: State)
    requires Inv(s) && Quiet(s) && s.ringSize >= MAX_JOBS && s.g.blocks > 0
    ensures s.pendingContinue != [] ==> AfterLook(s).pc == OpenSource(s.pendingContinue[0])
    ensures s.pendingContinue == [] ==>
      && s.pendingStart != [] && AfterLook(s) == TakeBuffer(s).(pc := Pick)
      && TakeBuffer(s).nextBuffer.Some? && IsRunner(s, s.pendingStart[0])
  {
    hide Layout, Data, Counters, Fds, Outcome, Places, HeapOk, Rings, RateLimited;
    SomeoneWaits(s);
    QuietRing(s);
    if s.pendingContinue == [] {
      BlockAvailable(s);
      FrontRunner(s);
    }
    hide Inv, TakeBuffer;
    TakeBufferKeeps(s);
  }

  lemma QuietRing(s: State)
    requires Layout(s) && Rings(s) && s.jobs == map[] && s.ringSize >= MAX_JOBS
    ensures !RateLimited(s)
  {
    hide ListsQueued, ListsDone, Chained, ReadsFirst;
  }

  lemma TakeBufferKeeps(s: State)
    ensures var s1 := TakeBuffer(s);
      && s1 == s.(nextBuffer := s1.nextBuffer, heap := s1.heap)
  {
    hide FirstFree;
  }

  // ---------------------------------------------------------------- when a pass takes a runner up

  /** The kernel has been handed nothing that it has not answered and had its answer processed. */
  predicate KernelIdle(s: State) {
    forall t :: t in s.jobs ==> s.jobs[t].stage.Queued?
  }

  /** What keeps a pass from taking a runner up once additions are complete: too many entries
      outstanding, nobody to take up, no buffer for the front, or no descriptors for it. */
  predicate HeldUp(s: State) {
    RateLimited(s) || (s.pendingContinue == [] && (s.pendingStart == [] || TakeBuffer(s).nextBuffer.None?)) || Starved(s)
  }

  /** The pass that begins here takes a runner up. */
  predicate TakesUp(s: State) {
    var s1 := AfterLook(s);
    s1.pc.OpenSource? || (s1.pc.Pick? && Enabled(s1, PickFront) && !AfterPick(s1).pc.Flush?)
  }

  lemma OutOfFdsSame(s: State, s1: State)
    requires s1.fdCap == s.fdCap && s1.fdsUsed == s.fdsUsed
    ensures OutOfFds(s1) == OutOfFds(s)
  {
  }

  lemma StarvedSame(s: State, s1: State)
    requires s1.fdCap == s.fdCap && s1.fdsUsed == s.fdsUsed && s1.pendingStart == s.pendingStart
    requires s1.pendingContinue == s.pendingContinue && s1.runners == s.runners && s1.files == s.files
    ensures Starved(s1) == Starved(s)
  {
    OutOfFdsSame(s, s1);
    hide OutOfFds, NeedsFds;
  }

  lemma TakenStays(s: State)
    ensures var s1 := TakeBuffer(s); TakeBuffer(s1).nextBuffer == s1.nextBuffer
  {
    hide FirstFree;
  }

  /** Where `Look` leads unless it waits for more additions. */
  lemma LookCases(s: State)
    requires s.pc.Top? && !Waiting(s)
    ensures var s1 := AfterLook(s);
      if RateLimited(s) || (s.pendingContinue == [] && (s.pendingStart == [] || TakeBuffer(s).nextBuffer.None?))
      then s1.pc.Flush? && (s1 == s.(pc := Flush) || s1 == TakeBuffer(s).(pc := Flush))
      else if s.pendingContinue != [] then s1.pc.OpenSource?
      else s1 == TakeBuffer(s).(pc := Pick)
  {
    hide RateLimited, TakeBuffer, Waiting;
    TakeBufferKeeps(s);
  }

  lemma FrontRunner(s: State)
    requires Places(s) && Layout(s) && s.pendingStart != []
    ensures IsRunner(s, s.pendingStart[0])
  {
    assert PlaceOk(s, s.pendingStart[0]);
    assert RunnerLaid(s, s.pendingStart[0]);
  }

  lemma PassVerdict(s: State)
    requires s.pc.Top? && (s.pendingStart != [] ==> IsRunner(s, s.pendingStart[0]))
    ensures TakesUp(s) <==> !Waiting(s) && !HeldUp(s)
  {
    hide TakeBuffer, RateLimited, AfterPick, Waiting, OutOfFds, NeedsFds;
    TakeBufferKeeps(s);
    if !Waiting(s) {
      LookCases(s);
      if AfterLook(s).pc.Pick? {
        OutOfFdsSame(s, AfterLook(s));
        PickOutcome(AfterLook(s));
      }
    }
  }

  lemma TakenUpIsFirst(s: State)
    requires s.pc.Top? && TakesUp(s)
    ensures s.pendingContinue != [] ==> AfterLook(s).pc == OpenSource(s.pendingContinue[0])
    ensures s.pendingContinue == [] ==>
      && s.pendingStart != [] && Enabled(AfterLook(s), PickFront)
      && Chosen(AfterPick(AfterLook(s)).pc) == Some(s.pendingStart[0])
  {
    hide TakeBuffer, RateLimited, Waiting, OutOfFds, NeedsFds;
    TakeBufferKeeps(s);
  }

  lemma PickOutcome(s: State)
    requires s.pc.Pick? && s.pendingStart != [] && IsRunner(s, s.pendingStart[0])
    ensures AfterPick(s).pc.Flush? <==> OutOfFds(s) && NeedsFds(FileOf(s, s.pendingStart[0]))
    ensures AfterPick(s).pc.Flush? ==> AfterPick(s) == s.(pc := Flush)
  {
    hide OutOfFds, NeedsFds;
  }

  /** The engine is held up, and nothing that is under way can change that. */
  predicate Stuck(s: State) {
    && s.adder.Joined? && s.keepAlive > 0 && KernelIdle(s) && !s.added
    && (s.pc.Top? || s.pc.Pick? || s.pc.Flush? || s.pc.Reap? || s.pc.Check?)
    && HeldUp(s)
  }

  lemma DoneHead(s: State)
    requires Rings(s) && s.cq != []
    ensures s.cq[0] in s.jobs && s.jobs[s.cq[0]].stage.Done?
  {
  }

  lemma NoneDone(s: State)
    requires Rings(s) && KernelIdle(s)
    ensures s.cq == []
  {
    if s.cq != [] {
      DoneHead(s);
    }
  }

  lemma EmptyRings(s: State)
    requires Rings(s) && s.jobs == map[]
    ensures s.sq == [] && s.cq == []
  {
    SeqNoLongerThanMap(s.sq, s.jobs);
    SeqNoLongerThanMap(s.cq, s.jobs);
  }

  lemma StuckLook(s: State)
    requires Stuck(s) && s.pc.Top?
    ensures Stuck(AfterLook(s)) && AfterLook(s).jobs == s.jobs
  {
    LookCases(s);
    TakeBufferKeeps(s);
    TakenStays(s);
    var s1 := AfterLook(s);
    hide AfterLook, TakeBuffer;
    StarvedSame(s, s1);
    hide Starved;
    assert RateLimited(s1) == RateLimited(s);
    assert s1 == s.(pc := Flush) ==> TakeBuffer(s1).nextBuffer == TakeBuffer(s).nextBuffer by { PcIsIrrelevant(s, Flush); }
    assert TakeBuffer(TakeBuffer(s).(pc := Flush)).nextBuffer == TakeBuffer(s).nextBuffer by {
      PcIsIrrelevant(TakeBuffer(s), Flush);
    }
  }

  lemma PcIsIrrelevant(s: State, pc: Pc)
    ensures TakeBuffer(s.(pc := pc)).nextBuffer == TakeBuffer(s).nextBuffer
    ensures RateLimited(s.(pc := pc)) == RateLimited(s) && Starved(s.(pc := pc)) == Starved(s)
  {
    hide FirstFree, NeedsFds;
  }

  lemma HeldUpSame(s: State, pc: Pc)
    ensures HeldUp(s.(pc := pc)) == HeldUp(s)
  {
    PcIsIrrelevant(s, pc);
    hide TakeBuffer, RateLimited, Starved;
  }

  lemma RoomAtPick(s: State)
    requires Layout(s) && Places(s) && Rings(s) && s.pc.Pick?
    ensures !RateLimited(s) && s.pendingStart != [] && s.pendingContinue == [] && TakeBuffer(s).nextBuffer.Some?
  {
    hide ListsQueued, ListsDone, Chained, ReadsFirst, FirstFree;
    var room := s.ringSize - s.submissionsRunning;
    assert U64(room) == room;
  }

  lemma StuckPick(s: State)
    requires Inv(s) && Stuck(s) && Enabled(s, PickFront)
    ensures Stuck(AfterPick(s)) && AfterPick(s).jobs == s.jobs
  {
    RoomAtPick(s);
    PickOutcome(s);
    HeldUpSame(s, Flush);
    hide Inv, AfterPick, RateLimited, OutOfFds, NeedsFds, TakeBuffer;
  }

  /** Who can act in a stuck state: only the submit thread, going round its loop. */
  lemma StuckActions(s: State, a: Action)
    requires Stuck(s) && s.cq == [] && Enabled(s, a)
    ensures a.Look? || a.PickFront? || Next(s, a) == s.(pc := Next(s, a).pc)
    ensures !a.Look? && !a.PickFront? ==> Next(s, a).pc.Top? || Next(s, a).pc.Reap? || Next(s, a).pc.Check?
  {
    hide HeldUp, KernelRead;
  }

  lemma StuckStep(s: State, a: Action)
    requires Inv(s) && Stuck(s) && Enabled(s, a)
    ensures Stuck(Next(s, a)) && Next(s, a).jobs == s.jobs
  {
    NoneDone(s);
    hide Inv, HeldUp;
    if a.Look? {
      LookOnlyAtTop(s, a);
      StuckLook(s);
    } else if a.PickFront? {
      StuckPick(s);
    } else {
      StuckActions(s, a);
      HeldUpSame(s, Next(s, a).pc);
    }
  }

  lemma LookOnlyAtTop(s: State, a: Action)
    requires Enabled(s, a) && a.Look?
    ensures s.pc.Top? && Next(s, a) == AfterLook(s)
  {
  }

  lemma HeldUpIsStuck(s: State)
    requires s.pc.Top? && s.adder.Joined? && s.keepAlive > 0 && !s.added && KernelIdle(s)
    ensures HeldUp(s) <==> Stuck(s)
  {
    hide HeldUp, KernelIdle;
  }

  lemma QuietNotHeldUp(s: State)
    requires Inv(s) && Quiet(s) && !s.errored && s.ringSize >= MAX_JOBS && s.g.blocks > 0
    ensures !HeldUp(s)
  {
    hide Inv, AfterLook, TakeBuffer, Starved, RateLimited;
    QuietLook(s);
    LookCases(s);
    NotStarved(s);
  }

  /** The spare buffer is there, or a block is free to become it. */
  lemma BufferMeaning(s: State)
    ensures TakeBuffer(s).nextBuffer.Some? <==> s.nextBuffer.Some? || Free in s.heap
  {
    FirstFreeMeaning(s.heap, 0);
  }

  /** The wrapping subtractions of the two guards do not wrap. */
  lemma GuardsMeaning(s: State)
    requires Reachable(s)
    ensures RateLimited(s) <==> s.ringSize - s.submissionsRunning < 2
    ensures OutOfFds(s) <==> s.fdCap - s.fdsUsed < 2
  {
    hide Reachable, Layout, Data, Counters, Fds, Outcome, Places, HeapOk, Rings, Sum, OpenCounts, HighCounts;
    ReachableInv(s);
    DescriptorCap(s, Skip);
    LayoutSizes(s);
    RingBounds(s);
  }

  lemma RingBounds(s: State)
    requires Rings(s) && Layout(s)
    ensures 0 <= s.submissionsRunning <= s.ringSize < TWO_32
  {
    hide ListsQueued, ListsDone, Chained, ReadsFirst;
  }

  /** When the pass that begins takes a runner up, in any reachable state: unless joined, an eighth of
      the bytes is still more than has been copied; there is room for two entries; and a runner is to be
      continued, or one is to be started for which there are a buffer and, unless its files are open,
      two descriptors. The runner is then the first of its queue. */
  lemma PassTakesUp(s: State)
    requires Reachable(s) && s.pc.Top?
    ensures TakesUp(s) <==>
      && (s.adder.Joined? || 8 * (s.totalCopied + 1) <= s.totalToCopy)
      && s.ringSize - s.submissionsRunning >= 2
      && (s.pendingContinue != [] ||
          (s.pendingStart != [] && (s.nextBuffer.Some? || Free in s.heap) && IsRunner(s, s.pendingStart[0])
           && var f := FileOf(s, s.pendingStart[0]);
             s.fdCap - s.fdsUsed >= 2 || (f.sourceFd.Open? && f.destFd.Open?)))
    ensures TakesUp(s) && s.pendingContinue != [] ==> AfterLook(s).pc == OpenSource(s.pendingContinue[0])
    ensures TakesUp(s) && s.pendingContinue == [] ==>
      && s.pendingStart != [] && Enabled(AfterLook(s), PickFront)
      && Chosen(AfterPick(AfterLook(s)).pc) == Some(s.pendingStart[0])
  {
    hide Reachable, RateLimited, OutOfFds, TakeBuffer, TakesUp, AfterLook;
    FrontIsKnown(s);
    GuardsMeaning(s);
    BufferMeaning(s);
    PassVerdict(s);
    if TakesUp(s) {
      TakenUpIsFirst(s);
    }
  }

  lemma FrontIsKnown(s: State)
    requires Reachable(s)
    ensures s.pendingStart != [] ==> IsRunner(s, s.pendingStart[0])
  {
    hide Reachable, Layout, Data, Counters, Fds, Outcome, Places, HeapOk, Rings;
    ReachableInv(s);
    if s.pendingStart != [] {
      FrontRunner(s);
    }
  }

  /** A pass that may take runners up claims a buffer for the next start, if there is one to claim, even
      where it goes on with a runner that has its own; any other pass ends with nothing changed. */
  lemma SpareIsClaimed(s: State)
    requires Reachable(s) && s.pc.Top?
    ensures
      if s.pendingStart + s.pendingContinue != [] && s.ringSize - s.submissionsRunning >= 2
        && (s.adder.Joined? || 8 * (s.totalCopied + 1) <= s.totalToCopy)
      then AfterLook(s).nextBuffer.Some? <==> s.nextBuffer.Some? || Free in s.heap
      else AfterLook(s) == s.(pc := Flush)
    ensures var b := AfterLook(s).nextBuffer;
      b == s.nextBuffer || (b.Some? && b.value < |s.heap| && s.heap[b.value].Free? && Free !in s.heap[..b.value])
  {
    hide Reachable, RateLimited, OutOfFds, TakeBuffer;
    GuardsMeaning(s);
    BufferMeaning(s);
    TakeBufferKeeps(s);
    LowestIsTaken(s);
  }

  lemma LowestIsTaken(s: State)
    ensures var b := TakeBuffer(s).nextBuffer;
      b == s.nextBuffer || (b.Some? && b.value < |s.heap| && s.heap[b.value].Free? && Free !in s.heap[..b.value])
  {
    FirstFreeMeaning(s.heap, 0);
  }

  /** No deadlock among buffers, descriptors and ring slots. When additions are complete and the kernel
      has nothing to do, the pass that begins takes a runner up if and only if the engine is not held up;
      if it is, it is stuck (see `StuckForever`). With nothing outstanding, in a run without errors, with
      at least two ring entries and one block, it never is. */
  lemma NoDeadlock(s: State)
    requires Reachable(s) && s.pc.Top?
    ensures TakesUp(s) <==> !HeldUp(s) && (s.adder.Joined? || 8 * (s.totalCopied + 1) <= s.totalToCopy)
    ensures s.adder.Joined? && s.keepAlive > 0 && !s.added && KernelIdle(s) ==> (HeldUp(s) <==> Stuck(s))
    ensures Quiet(s) && !s.errored && s.ringSize >= MAX_JOBS && s.g.blocks > 0 ==> TakesUp(s)
  {
    hide Reachable, HeldUp, Stuck, KernelIdle, TakesUp, Inv;
    FrontIsKnown(s);
    PassVerdict(s);
    if s.adder.Joined? && s.keepAlive > 0 && !s.added && KernelIdle(s) {
      HeldUpIsStuck(s);
    }
    if Quiet(s) && !s.errored && s.ringSize >= MAX_JOBS && s.g.blocks > 0 {
      ReachableInv(s);
      QuietNotHeldUp(s);
    }
  }

  /** The other half of the condition in `NoDeadlock`: an engine that is held up while the kernel has
      nothing to do stays so for ever, keeps the entries in its ring, and never exits. */
  lemma {:induction false} StuckForever(states: seq<State>, actions: seq<Action>)
    requires IsRun(states, actions) && Inv(states[0]) && Stuck(states[0])
    ensures forall k :: 0 <= k < |states| ==> Inv(states[k]) && Stuck(states[k])
    ensures forall k :: 0 <= k < |states| ==> states[k].jobs == states[0].jobs && !states[k].pc.Exited?
    decreases |actions|
  {
    hide Inv, Enabled, Next;
    if actions != [] {
      var n := |actions| - 1;
      assert IsRun(states[..n + 1], actions[..n]);
      StuckForever(states[..n + 1], actions[..n]);
      assert forall k :: 0 <= k < n + 1 ==> states[..n + 1][k] == states[k];
      StepKeepsInv(states[n], actions[n]);
      StuckStep(states[n], actions[n]);
    }
  }

  /** A starved engine with nothing outstanding is stuck. */
  lemma {:induction false} StarvedForever(states: seq<State>, actions: seq<Action>)
    requires IsRun(states, actions) && Reachable(states[0]) && Quiet(states[0]) && Starved(states[0])
    ensures forall k :: 0 <= k < |states| ==> Stuck(states[k]) && states[k].jobs == map[] && !states[k].pc.Exited?
  {
    hide Reachable, Enabled, Next;
    ReachableInv(states[0]);
    EmptyRings(states[0]);
    hide Inv;
    StuckForever(states, actions);
  }

  // ---------------------------------------------------------------- entries left in the ring

  lemma JobMeansAlive(s: State)
    requires Inv(s) && s.jobs != map[]
    ensures s.keepAlive > 0
  {
    hide Layout, Fds, Outcome, Places, HeapOk, Sum;
    var t :| t in s.jobs;
    TagIsLive(s, t);
    SumAtLeast(Lives(s.runners), t.rid);
  }

  /** Everything outstanding is still in the submission ring, and nobody waits to be added. */
  predicate LeftBehind(s: State) {
    && s.adder.Joined? && s.jobs != map[] && !s.added
    && KernelIdle(s)
    && s.pendingStart == [] && s.pendingContinue == []
    && (s.pc.Top? || s.pc.Flush? || s.pc.Reap? || s.pc.Check?)
  }

  /** The entries that a partial submit leaves in the ring are only handed over when another runner
      is added. If none is left to add, they stay there, and the loop never exits. */
  lemma {:induction false} LeftBehindForever(states: seq<State>, actions: seq<Action>)
    requires IsRun(states, actions) && Reachable(states[0]) && LeftBehind(states[0])
    ensures forall k :: 0 <= k < |states| ==> Inv(states[k]) && Stuck(states[k])
    ensures forall k :: 0 <= k < |states| ==> states[k].jobs == states[0].jobs && !states[k].pc.Exited?
  {
    hide Reachable, Enabled, Next;
    ReachableInv(states[0]);
    hide Inv;
    JobMeansAlive(states[0]);
    StuckForever(states, actions);
  }

  /** In a run without errors, with sizes that allow a start, an engine is stuck only over entries
      left in the ring. */
  lemma StuckHasLeftovers(s: State)
    requires Inv(s) && Stuck(s) && !s.errored && s.ringSize >= MAX_JOBS && s.g.blocks > 0
    ensures s.sq != []
  {
    if s.sq == [] {
      NothingQueued(s);
      hide HeldUp;
      var s0 := s.(pc := Top);
      AtTop(s);
      HeldUpSame(s, Top);
      hide Inv;
      QuietNotHeldUp(s0);
    }
  }

  lemma NothingQueued(s: State)
    requires Rings(s) && KernelIdle(s) && s.sq == []
    ensures s.jobs == map[]
  {
  }

  lemma AtTop(s: State)
    requires Inv(s) && !s.pc.Drop? && Chosen(s.pc).None? && !s.pc.Exited? && !s.added
    ensures Inv(s.(pc := Top))
  {
    var s' := s.(pc := Top);
    hide Layout, Data, Counters, Fds, Outcome, Places, Rings, HeapOk;
    LayoutSame(s, s');
    PlacesSame(s, s');
    RingsSame(s, s');
    DataSame(s, s');
    HeapSame(s, s');
    FdsSame(s, s');
    CountersSame(s, s');
    OutcomeSame(s, s');
  }

  // ---------------------------------------------------------------- too small to start

  /** No runner has left the start queue. */
  predicate Untouched(s: State) {
    && |s.pendingStart| == |s.runners| && s.pendingContinue == [] && s.jobs == map[]
    && (s.pc.Top? || s.pc.Flush? || s.pc.Submit? || s.pc.Reap? || s.pc.Check? || s.pc.Exited?)
  }

  lemma NoBlocksNoBuffer(s: State)
    requires Layout(s) && HeapOk(s) && s.g.blocks == 0
    ensures TakeBuffer(s).nextBuffer.None?
  {
  }

  lemma NoRoomForTwo(s: State)
    requires Rings(s) && s.jobs == map[] && s.ringSize < MAX_JOBS
    ensures RateLimited(s)
  {
    hide ListsQueued, ListsDone, Chained, ReadsFirst;
  }

  lemma NothingIsLooked(s: State)
    requires Inv(s) && Untouched(s) && Enabled(s, Look) && (s.ringSize < MAX_JOBS || s.g.blocks == 0)
    ensures AfterLook(s).pc.Flush? && Untouched(AfterLook(s))
  {
    hide Layout, Data, Counters, Fds, Outcome, Places, HeapOk, Rings, TakeBuffer, RateLimited, Waiting;
    if s.g.blocks == 0 {
      NoBlocksNoBuffer(s);
    } else {
      NoRoomForTwo(s);
    }
    hide Inv;
    TakeBufferKeeps(s);
  }

  lemma AdderLeavesUntouched(s: State, a: Action)
    requires Untouched(s) && Enabled(s, a) && IsAdder(a)
    ensures Untouched(Next(s, a))
  {
    AdderTouches(s, a);
    AdderQueues(s, a);
    hide Next, Enabled;
  }

  lemma LowOpenQueues(s: State, low: Low)
    requires s.files != []
    ensures AfterLowOpen(s, low).runners == s.runners && AfterLowOpen(s, low).pendingStart == s.pendingStart
  {
  }

  lemma AdderQueues(s: State, a: Action)
    requires Enabled(s, a) && IsAdder(a)
    ensures |Next(s, a).runners| - |Next(s, a).pendingStart| == |s.runners| - |s.pendingStart|
  {
    hide NextPart, Plannable, PartCount, ChunkSize, AfterLowOpen;
    if a.LowOpen? {
      LowOpenQueues(s, a.low);
    }
  }

  /** With nothing queued or outstanding, the submit thread can only go round. */
  lemma OthersLeaveUntouched(s: State, a: Action)
    requires Untouched(s) && s.sq == [] && s.cq == [] && Enabled(s, a) && !IsAdder(a) && !a.Look?
    ensures Untouched(Next(s, a))
  {
    hide KernelRead;
  }

  lemma UntouchedStep(s: State, a: Action)
    requires Inv(s) && Untouched(s) && Enabled(s, a) && (s.ringSize < MAX_JOBS || s.g.blocks == 0)
    ensures Untouched(Next(s, a)) && Next(s, a).ringSize == s.ringSize && Next(s, a).g == s.g
  {
    hide Layout, Data, Counters, Fds, Outcome, Places, HeapOk, Rings, Untouched, Next, Enabled;
    StepKeepsSizes(s, a);
    if a.Look? {
      LookUntouched(s, a);
    } else {
      UntouchedHasNoJobs(s);
      EmptyRings(s);
      if IsAdder(a) {
        AdderLeavesUntouched(s, a);
      } else {
        OthersLeaveUntouched(s, a);
      }
    }
  }

  lemma UntouchedHasNoJobs(s: State)
    requires Untouched(s)
    ensures s.jobs == map[]
  {
  }

  lemma LookUntouched(s: State, a: Action)
    requires Inv(s) && Untouched(s) && Enabled(s, a) && a.Look? && (s.ringSize < MAX_JOBS || s.g.blocks == 0)
    ensures Untouched(Next(s, a))
  {
    hide Inv, Untouched, AfterLook;
    NothingIsLooked(s);
  }

  /** Both sizes in `NoDeadlock` are needed: with a ring of fewer than two entries, or without a
      block, no runner ever leaves the start queue. */
  lemma {:induction false} TooSmallToStart(states: seq<State>, actions: seq<Action>)
    requires IsRun(states, actions) && Init(states[0]) && (states[0].ringSize < MAX_JOBS || states[0].g.blocks == 0)
    ensures Inv(states[|actions|]) && Untouched(states[|actions|])
    ensures states[|actions|].ringSize == states[0].ringSize && states[|actions|].g == states[0].g
    decreases |actions|
  {
    if actions == [] {
      InitInv(states[0]);
    } else {
      hide Init, Inv, Enabled, Next, Untouched;
      var n := |actions| - 1;
      assert IsRun(states[..n + 1], actions[..n]);
      TooSmallToStart(states[..n + 1], actions[..n]);
      assert states[..n + 1][n] == states[n];
      StepKeepsInv(states[n], actions[n]);
      UntouchedStep(states[n], actions[n]);
    }
  }
}
