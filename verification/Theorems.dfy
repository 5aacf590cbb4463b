/** What holds of every run of the engine. */
module Theorems {
  import opened Arithmetic
  import opened ChunkPlan
  import opened Runner
  import opened Engine
  import opened ChunkInvariant
  import opened Invariant
  import opened Frames
  import opened AdderSteps
  import opened SubmitSteps
  import opened OpenSteps
  import opened RingSteps
  import opened KernelSteps
  import opened ReapSteps

  // ---------------------------------------------------------------- the invariant over runs

  lemma InitInv(s: State)
    requires Init(s)
    ensures Inv(s)
  {
    hide ChunkSize, PartAt, IsPow2;
    assert Lives(s.runners) == [] && Sizes(s.runners) == [] && Writtens(s.runners) == [];
    assert JobCounts(s.runners) == [] && OpenCounts(s.files) == [] && HighCounts(s.files) == [];
  }

  lemma PassStep(s: State, a: Action)
    requires Inv(s) && Enabled(s, a)
    requires a.FlushBatch? || a.Submitted? || a.StopReaping? || a.CheckDone?
    ensures Inv(Next(s, a))
  {
    hide Inv;
    if a.CheckDone? {
      CheckStep(s);
    } else {
      MoveOn(s, Next(s, a));
    }
  }

  /** Every step of every participant keeps the invariant. */
  lemma StepKeepsInv(s: State, a: Action)
    requires Inv(s) && Enabled(s, a)
    ensures Inv(Next(s, a))
  {
    hide Inv;
    match a
    case Look => LookStep(s);
    case PickFront => PickStep(s);
    case EnsureOpen(ok) => OpenStep(s, ok);
    case IssueBatch => IssueStep(s);
    case Consume => ConsumeStep(s);
    case ReapOne => ReapStep(s);
    case DropRunner(closed) => DropStep(s, closed);
    case RunRead(i, res, data) => ReadStep(s, i, res, data);
    case RunWrite(i, res) => WriteStep(s, i, res);
    case PostCancel(i) => CancelStep(s, i);
    case _ =>
      if IsAdder(a) {
        AdderStep(s, a);
      } else {
        PassStep(s, a);
      }
  }

  lemma {:induction false} RunKeepsInv(states: seq<State>, actions: seq<Action>)
    requires IsRun(states, actions) && Inv(states[0])
    ensures forall k :: 0 <= k < |states| ==> Inv(states[k])
    decreases |actions|
  {
    hide Inv, Enabled, Next;
    if actions != [] {
      var n := |actions| - 1;
      assert IsRun(states[..n + 1], actions[..n]);
      RunKeepsInv(states[..n + 1], actions[..n]);
      assert forall k :: 0 <= k < n + 1 ==> states[..n + 1][k] == states[k];
      StepKeepsInv(states[n], actions[n]);
    }
  }

  ghost predicate EndsIn(states: seq<State>, actions: seq<Action>, s: State) {
    IsRun(states, actions) && Init(states[0]) && states[|actions|] == s
  }

  /** Some run of the engine leads here. */
  ghost predicate Reachable(s: State) {
    exists states, actions :: EndsIn(states, actions, s)
  }

  lemma ReachableInv(s: State)
    requires Reachable(s)
    ensures Inv(s)
  {
    hide Inv, Enabled, Next;
    var states, actions :| EndsIn(states, actions, s);
    InitInv(states[0]);
    RunKeepsInv(states, actions);
  }

  // ---------------------------------------------------------------- the copy is right

  /** Whatever has happened to it, a runner's writes are in the destination, and they stay there. */
  lemma WrittenStays(s: State, i: nat)
    requires Data(s) && i < |s.runners|
    ensures IsRunner(s, i) && Agree(FileOf(s, i).dest, FileOf(s, i).src, s.runners[i].offset, s.runners[i].writeOffset)
  {
    assert IsRunner(s, i) && RunnerGood(s, i);
    AgreementOf(s.g, s.runners[i], FileOf(s, i), JobAt(s, i, Read), JobAt(s, i, Write), BufferOf(s, i)) by {
      hide RunnerOk;
    }
  }

  /** A runner that is gone has written its whole part, unless an error was reported. */
  lemma RetiredPart(s: State, i: nat)
    requires Outcome(s) && i < |s.runners| && !s.runners[i].alive && !s.errored
    ensures IsRunner(s, i)
    ensures s.runners[i].writeOffset == End(s.runners[i]) && !FileOf(s, i).destFd.NeverOpened?
  {
    assert IsRunner(s, i) && RetiredOk(s, i);
  }

  lemma AgreementOf(g: Geometry, r: Chunk, f: File, rj: Option<Job>, wj: Option<Job>, buf: seq<byte>)
    requires RunnerOk(g, r, f, rj, wj, buf)
    ensures Agree(f.dest, f.src, r.offset, r.writeOffset)
    ensures r.offset <= r.writeOffset <= End(r)
  {
    hide ChunkSize, Fits, Pad, RoundUp;
  }

  /** The runner of part k of file f. */
  lemma RunnerOfPart(s: State, f: nat, k: nat) returns (i: nat)
    requires Layout(s) && f < |s.files| && k < s.files[f].added
    ensures i < |s.runners| && s.runners[i].file == f
    ensures Part(s.runners[i].offset, s.runners[i].size)
      == PartAt(|s.files[f].src|, ChunkSize(s.g, s.files[f].align), k)
  {
    hide PartAt, ChunkSize, PartsOf, Plannable, ValidConfig, AdderOk;
    assert FileLaid(s, f);
    i := s.files[f].first + k;
    assert RunnerLaid(s, i);
    var h := s.runners[i].file;
    assert FileLaid(s, h);
  }

  lemma AllRetired(s: State)
    requires Counters(s) && s.keepAlive == 0
    ensures forall i :: 0 <= i < |s.runners| ==> !s.runners[i].alive
  {
    hide Sum;
    SumZero(Lives(s.runners));
    forall i | 0 <= i < |s.runners|
      ensures !s.runners[i].alive
    {
      assert Lives(s.runners)[i] == 0;
    }
  }

  lemma FilePlan(s: State, f: nat)
    requires Layout(s) && f < |s.files|
    ensures var file := s.files[f];
      && Plannable(s.g, file.src, file.align)
      && file.parts == PartsOf(s.g, file.src, file.align) >= 1
      && (s.adder.Joined? ==> file.added == file.parts)
  {
    hide PartAt, ChunkSize, PartCount, ValidConfig;
    assert FileLaid(s, f);
    PartsPositive(s.g, s.files[f].src, s.files[f].align);
  }

  /** All parts of the file have been added and fully written. */
  predicate Written(s: State, f: nat)
    requires f < |s.files|
  {
    && s.files[f].added == s.files[f].parts && !s.files[f].destFd.NeverOpened?
    && forall i :: 0 <= i < |s.runners| && s.runners[i].file == f ==> s.runners[i].writeOffset == End(s.runners[i])
  }

  /** Position p lies in some part, whose runner has copied it. */
  lemma PositionComplete(s: State, f: nat, p: nat)
    requires Inv(s) && f < |s.files| && Written(s, f) && p < |s.files[f].src|
    ensures Same(s.files[f].dest, s.files[f].src, p)
  {
    hide Layout, Data, Counters, Fds, Outcome, Places, Rings, HeapOk;
    FilePlan(s, f);
    var file := s.files[f];
    var k := PartHolding(|file.src|, ChunkSize(s.g, file.align), p);
    hide PartAt, ChunkSize, PartCount;
    var i := RunnerOfPart(s, f, k);
    WrittenStays(s, i);
    assert s.runners[i].offset <= p < End(s.runners[i]);
  }

  lemma FileComplete(s: State, f: nat)
    requires Inv(s) && f < |s.files| && Written(s, f)
    ensures s.files[f].dest == s.files[f].src
  {
    CleanBytes(s, f);
    var file := s.files[f];
    assert |file.dest| <= |file.src|;
    hide Inv, NoWrongByte, Same, Written;
    forall p | 0 <= p < |file.src|
      ensures Same(file.dest, file.src, p)
    {
      PositionComplete(s, f, p);
    }
    SameEverywhere(file.dest, file.src);
  }

  /** Once no runner is left and nobody has reported an error, every file is fully written. */
  lemma AllWritten(s: State, f: nat)
    requires Inv(s) && f < |s.files| && s.adder.Joined? && s.keepAlive == 0 && !s.errored
    ensures Written(s, f)
  {
    AllRetired(s);
    hide Layout, Data, Counters, Fds, Outcome, Places, Rings, HeapOk;
    FilePlan(s, f);
    var i0 := RunnerOfPart(s, f, 0);
    RetiredPart(s, i0);
    forall i | 0 <= i < |s.runners| && s.runners[i].file == f
      ensures s.runners[i].writeOffset == End(s.runners[i])
    {
      RetiredPart(s, i);
    }
  }

  lemma SameEverywhere(dest: seq<byte>, src: seq<byte>)
    requires |dest| <= |src| && forall p :: 0 <= p < |src| ==> Same(dest, src, p)
    ensures dest == src
  {
    if src != [] {
      assert Same(dest, src, |src| - 1);
    }
    forall p | 0 <= p < |src|
      ensures dest[p] == src[p]
    {
      assert Same(dest, src, p);
    }
  }

  /** End to end: when the submit loop has returned and no error was reported, which is when `join`
      returns true, every destination holds exactly the bytes of its source. This covers every
      interleaving of the two threads and the kernel, every short read and short write, every
      cancelled write and every failed low-priority open. */
  lemma CopyIsRight(s: State)
    requires Reachable(s) && s.pc.Exited? && !s.errored
    ensures forall f :: 0 <= f < |s.files| ==> s.files[f].dest == s.files[f].src
  {
    hide Reachable;
    ReachableInv(s);
    forall f | 0 <= f < |s.files|
      ensures s.files[f].dest == s.files[f].src
    {
      AllWritten(s, f);
      FileComplete(s, f);
    }
  }

  /** Errors stay with the files they hit: at any moment of any run, a file all of whose parts have
      been written is right, whatever has happened to other files. */
  lemma WrittenFileIsRight(s: State, f: nat)
    requires Reachable(s) && f < |s.files| && Written(s, f)
    ensures s.files[f].dest == s.files[f].src
  {
    hide Reachable;
    ReachableInv(s);
    FileComplete(s, f);
  }

  /** Even in runs with errors, and at every moment of every run, an opened destination never holds
      a byte that is neither the source's nor a hole left by a later part written first. */
  lemma NeverAWrongByte(s: State, f: nat)
    requires Reachable(s) && f < |s.files| && !s.files[f].destFd.NeverOpened?
    ensures NoWrongByte(s.files[f].dest, s.files[f].src)
  {
    hide Reachable;
    ReachableInv(s);
  }

  // ---------------------------------------------------------------- nothing is lost

  /** Each live runner is in exactly one place, and a deleted one is nowhere. */
  lemma OnePlaceEach(s: State, i: nat)
    requires Reachable(s) && i < |s.runners|
    ensures Flag(i in s.pendingStart) + Flag(i in s.pendingContinue) + Flag(Chosen(s.pc) == Some(i)) + Flag(HasJob(s, i))
      == Flag(s.runners[i].alive)
  {
    hide Reachable;
    ReachableInv(s);
    assert PlaceOk(s, i);
    if i >= Started(s) {
      assert s.pendingStart[i - Started(s)] == i;
    }
  }

  /** The counters mean what they are named after; the code's asserts on them hold throughout. */
  lemma CountersAreExact(s: State)
    requires Reachable(s)
    ensures s.keepAlive == Sum(Lives(s.runners))
    ensures s.submissionsRunning == |s.jobs| == Sum(JobCounts(s.runners))
    ensures |s.jobs| <= s.ringSize
    ensures forall t :: t in s.sq || t in s.cq ==> t in s.jobs
    ensures forall t :: t in s.jobs ==> t.rid < |s.runners| && s.runners[t.rid].alive
  {
    hide Reachable;
    ReachableInv(s);
    QueuedAreJobs(s.sq, s.jobs);
    DoneAreJobs(s.cq, s.jobs);
    forall t | t in s.jobs
      ensures t.rid < |s.runners| && s.runners[t.rid].alive
    {
      TagIsLive(s, t);
    }
  }

  lemma TagIsLive(s: State, t: Tag)
    requires Rings(s) && Data(s) && t in s.jobs
    ensures t.rid < |s.runners| && IsRunner(s, t.rid) && s.runners[t.rid].alive
  {
    hide RunnerOk;
    var i := t.rid;
    assert RunnerGood(s, i);
    TagShape(t);
    JobsMeanAlive(s.g, s.runners[i], FileOf(s, i), JobAt(s, i, Read), JobAt(s, i, Write), BufferOf(s, i));
  }

  /** What `join` asserts after the submit thread is gone: nothing is outstanding and every heap
      block is free. This holds with and without errors. */
  lemma NothingLeftAtExit(s: State)
    requires Reachable(s) && s.pc.Exited?
    ensures s.submissionsRunning == 0 && s.jobs == map[] && s.sq == [] && s.cq == []
    ensures s.pendingStart == [] && s.pendingContinue == []
    ensures forall b :: 0 <= b < |s.heap| ==> s.heap[b].Free?
  {
    hide Reachable;
    ReachableInv(s);
    AllRetired(s);
    forall t | t in s.jobs
      ensures false
    {
      TagIsLive(s, t);
    }
    SeqNoLongerThanMap(s.sq, s.jobs);
    SeqNoLongerThanMap(s.cq, s.jobs);
    PendingAreLive(s);
  }

  lemma PendingAreLive(s: State)
    requires Places(s)
    ensures s.pendingStart + s.pendingContinue != [] ==> exists i :: 0 <= i < |s.runners| && s.runners[i].alive
  {
    if s.pendingStart != [] {
      assert PlaceOk(s, s.pendingStart[0]);
    } else if s.pendingContinue != [] {
      assert PlaceOk(s, s.pendingContinue[0]);
    }
  }

  /** A heap block has one owner: two live runners never share one, nor one with the spare buffer. */
  lemma BlocksHaveOneOwner(s: State, i: nat, j: nat)
    requires Reachable(s) && i < |s.runners| && j < |s.runners| && i != j
    requires s.runners[i].alive && s.runners[j].alive && s.runners[i].block.Some?
    ensures s.runners[i].block != s.runners[j].block && s.runners[i].block != s.nextBuffer
  {
    hide Reachable;
    ReachableInv(s);
  }

  /** Byte conservation: the copied total is what the runners ever created have written, it never
      passes the planned total, and the two meet at the end of a run without errors. */
  lemma BytesAreConserved(s: State)
    requires Reachable(s)
    ensures s.totalCopied == Sum(Writtens(s.runners))
    ensures s.totalCopied <= Sum(Sizes(s.runners)) <= s.totalToCopy
    ensures s.pc.Exited? && !s.errored ==> s.totalCopied == s.totalToCopy
  {
    hide Reachable;
    ReachableInv(s);
    forall i | 0 <= i < |s.runners|
      ensures Writtens(s.runners)[i] <= Sizes(s.runners)[i]
      ensures s.pc.Exited? && !s.errored ==> Writtens(s.runners)[i] == Sizes(s.runners)[i]
    {
      assert IsRunner(s, i) && RunnerGood(s, i) && RetiredOk(s, i);
      AgreementOf(s.g, s.runners[i], FileOf(s, i), JobAt(s, i, Read), JobAt(s, i, Write), BufferOf(s, i)) by {
        hide RunnerOk;
      }
      if s.pc.Exited? {
        AllRetired(s);
      }
    }
    SumAtMost(Writtens(s.runners), Sizes(s.runners));
    if s.pc.Exited? && !s.errored {
      assert Writtens(s.runners) == Sizes(s.runners);
    }
  }

  // ---------------------------------------------------------------- the kernel is asked only what is allowed

  /** O_DIRECT: every read the kernel is asked for, in any round, is aligned in the file, in memory
      and in length, and its target stays inside the runner's own block. */
  lemma ReadsAreDirect(s: State, i: nat)
    requires Reachable(s) && Tag(i, Read) in s.jobs && !s.jobs[Tag(i, Read)].stage.Done?
    ensures IsRunner(s, i) && s.runners[i].block.Some?
    ensures var q := s.jobs[Tag(i, Read)].request; var align := FileOf(s, i).align; var b := s.runners[i].block.value;
      && align > 0
      && q.off % align == 0 && q.len % align == 0
      && (BlockAddress(s.g, b) + q.pos) % align == 0
      && q.pos + q.len <= s.g.blockSize
      && b < |s.heap| == s.g.blocks && s.heap[b] == Held(i)
  {
    hide Reachable, Layout, Data, Counters, Fds, Outcome, Places, HeapOk, Rings, RunnerOk, ValidGeometry, Pad;
    ReachableInv(s);
    TagIsLive(s, Tag(i, Read));
    GoodRunner(s, i);
    LayoutSizes(s);
    ReadJobIsDirect(s.g, s.runners[i], FileOf(s, i), s.jobs[Tag(i, Read)], JobAt(s, i, Write), BufferOf(s, i));
    OwnBlock(s, i);
  }

  lemma GoodRunner(s: State, i: nat)
    requires Data(s) && i < |s.runners|
    ensures IsRunner(s, i) && RunnerGood(s, i)
  {
    hide RunnerGood;
  }

  lemma OwnBlock(s: State, i: nat)
    requires HeapOk(s) && i < |s.runners| && s.runners[i].alive && s.runners[i].block.Some?
    ensures s.runners[i].block.value < |s.heap| && s.heap[s.runners[i].block.value] == Held(i)
  {
  }

  lemma ReadJobIsDirect(g: Geometry, r: Chunk, f: File, rd: Job, wj: Option<Job>, buf: seq<byte>)
    requires ValidGeometry(g) && RunnerOk(g, r, f, Some(rd), wj, buf)
    ensures r.block.Some? && f.align > 0
    ensures rd.request.off % f.align == 0 && rd.request.len % f.align == 0
    ensures (BlockAddress(g, r.block.value) + rd.request.pos) % f.align == 0
    ensures rd.request.pos + rd.request.len <= g.blockSize && r.block.value < g.blocks
  {
    hide ChunkSize, Fits, Pad, RoundUp, BlockAddress;
    ReadIsAligned(g, r, f, r.block.value);
  }

  /** Every write the kernel may run sends source bytes that are in the buffer already, to the place
      in the file they came from. */
  lemma WritesAreRead(s: State, i: nat)
    requires Reachable(s) && Tag(i, Write) in s.jobs && s.jobs[Tag(i, Write)].stage.Ready?
    ensures IsRunner(s, i)
    ensures var q := s.jobs[Tag(i, Write)].request;
      && q.pos + q.len <= |BufferOf(s, i)| && q.off + q.len <= |FileOf(s, i).src|
      && Slice(BufferOf(s, i), q.pos, q.len) == FileOf(s, i).src[q.off..q.off + q.len]
  {
    hide Reachable, Layout, Data, Counters, Fds, Outcome, Places, HeapOk, Rings, RunnerOk, ValidGeometry, Slice;
    ReachableInv(s);
    TagIsLive(s, Tag(i, Write));
    GoodRunner(s, i);
    LayoutSizes(s);
    var q := s.jobs[Tag(i, Write)].request;
    WriteSendsSource(s.g, s.runners[i], FileOf(s, i), JobAt(s, i, Read), s.jobs[Tag(i, Write)], BufferOf(s, i), q.len);
  }

  /** Between batches: the buffer holds the source up to the read offset, the destination up to the
      write offset, and no byte has been written before the whole chunk was read. */
  lemma BetweenBatches(s: State, i: nat)
    requires Reachable(s) && i < |s.runners| && s.runners[i].alive && s.runners[i].block.Some?
    ensures IsRunner(s, i)
    ensures var r := s.runners[i];
      && r.offset <= r.readOffset <= End(r) && r.offset <= r.writeOffset <= End(r)
      && (r.writeOffset > r.offset ==> r.readOffset == End(r))
      && Buffered(BufferOf(s, i), PadOf(s, i), FileOf(s, i).src, r.offset, r.readOffset)
      && Agree(FileOf(s, i).dest, FileOf(s, i).src, r.offset, r.writeOffset)
  {
    hide Reachable;
    ReachableInv(s);
    assert IsRunner(s, i) && RunnerGood(s, i);
    BufferOfChunk(s.g, s.runners[i], FileOf(s, i), JobAt(s, i, Read), JobAt(s, i, Write), BufferOf(s, i)) by {
      hide RunnerOk;
    }
  }

  lemma BufferOfChunk(g: Geometry, r: Chunk, f: File, rj: Option<Job>, wj: Option<Job>, buf: seq<byte>)
    requires RunnerOk(g, r, f, rj, wj, buf) && r.alive && r.block.Some?
    ensures Progress(r, f.align)
    ensures Buffered(buf, PadFor(g, r, f), f.src, r.offset, r.readOffset)
    ensures Agree(f.dest, f.src, r.offset, r.writeOffset)
  {
    hide ChunkSize, Fits, Pad, RoundUp;
  }

  /** The busy loop in `getSqe` exits at once: there is room for both entries of a batch. */
  lemma RingHasRoom(s: State)
    requires Reachable(s) && s.pc.Issue?
    ensures |s.sq| + MAX_JOBS <= s.ringSize
  {
    hide Reachable;
    ReachableInv(s);
    SeqNoLongerThanMap(s.sq, s.jobs);
  }

  lemma {:induction false} SeqNoLongerThanMap(q: seq<Tag>, m: map<Tag, Job>)
    requires Distinct(q) && forall k :: 0 <= k < |q| ==> q[k] in m
    ensures |q| <= |m|
  {
    if q != [] {
      var n := |q| - 1;
      var m' := m - {q[n]};
      assert m == m'[q[n] := m[q[n]]];
      SeqNoLongerThanMap(q[..n], m');
    }
  }

  /** The completion ring never holds more than the submission ring's size, half its own. */
  lemma CompletionsFit(s: State)
    requires Reachable(s)
    ensures |s.cq| <= s.ringSize && |s.sq| <= s.ringSize
  {
    hide Reachable;
    ReachableInv(s);
    SeqNoLongerThanMap(s.cq, s.jobs);
    SeqNoLongerThanMap(s.sq, s.jobs);
  }

  // ---------------------------------------------------------------- descriptors

  /** The cap holds, and low-priority opens leave two descriptors to the submit thread. */
  lemma DescriptorCap(s: State, low: Low)
    requires Reachable(s)
    ensures RESERVED_FDS <= s.fdsUsed <= s.fdCap
    ensures Enabled(s, LowOpen(low)) && !low.Skip? ==> s.fdCap - AfterLowOpen(s, low).fdsUsed >= HIGH_PRIORITY_FDS
  {
    hide Reachable;
    ReachableInv(s);
    hide Sum;
    SumNonNegative(OpenCounts(s.files));
  }

  /** Once past its check, the submit thread never waits for a descriptor: whatever low-priority
      reservations were made in between, the high-priority one succeeds. */
  lemma HighPriorityNeverWaits(s: State)
    requires Reachable(s) && (s.pc.OpenSource? || s.pc.OpenDest? || s.pc.OpenEmpty?)
    ensures IsRunner(s, s.pc.rid)
    ensures !FdWanted(s).Closed?
    ensures FdWanted(s).NeverOpened? ==> s.fdsUsed < s.fdCap
    ensures s.pc.OpenSource? && FileOf(s, s.pc.rid).destFd.NeverOpened? && FdWanted(s).NeverOpened? ==>
      s.fdsUsed + 2 <= s.fdCap
  {
    hide Reachable;
    ReachableInv(s);
    assert PlaceOk(s, s.pc.rid);
    assert IsRunner(s, s.pc.rid) && RunnerFds(s, s.pc.rid);
  }

  /** No operation on a closed or unopened descriptor: whatever the kernel has been handed and has
      not finished is on two open files. */
  lemma KernelWorksOnOpenFiles(s: State, t: Tag)
    requires Reachable(s) && t in s.jobs && (s.jobs[t].stage.Queued? || s.jobs[t].stage.Ready? || s.jobs[t].stage.Blocked?)
    ensures IsRunner(s, t.rid) && BothOpen(FileOf(s, t.rid)) && FileOf(s, t.rid).chunksRemaining >= 1
  {
    hide Reachable;
    ReachableInv(s);
    hide Layout, Counters, Outcome, Places, HeapOk, Rings, Data, Fds, RunnerOk, RunnerFds, RunnerGood;
    TagIsLive(s, t);
    LiveMeansRemaining(s, t.rid);
    WorkingRunner(s, t);
    UnfoldFds(s, t.rid);
    WorkingFds(s, t.rid);
  }

  lemma WorkingRunner(s: State, t: Tag)
    requires Data(s) && IsRunner(s, t.rid) && s.runners[t.rid].alive
    requires t in s.jobs && (s.jobs[t].stage.Queued? || s.jobs[t].stage.Ready? || s.jobs[t].stage.Blocked?)
    ensures !s.runners[t.rid].savedError && HasJob(s, t.rid)
  {
    hide RunnerOk;
    TagShape(t);
    var i := t.rid;
    assert RunnerGood(s, i);
    WorkMeansNoError(s.g, s.runners[i], FileOf(s, i), JobAt(s, i, Read), JobAt(s, i, Write), BufferOf(s, i), t.kind);
  }

  lemma WorkingFds(s: State, i: nat)
    requires IsRunner(s, i) && RunnerFds(s, i) && s.runners[i].alive && !s.runners[i].savedError && HasJob(s, i)
    ensures BothOpen(FileOf(s, i))
  {
  }

  lemma UnfoldFds(s: State, i: nat)
    requires Fds(s) && i < |s.runners|
    ensures IsRunner(s, i) && RunnerFds(s, i)
  {
  }

  lemma WorkMeansNoError(g: Geometry, r: Chunk, f: File, rj: Option<Job>, wj: Option<Job>, buf: seq<byte>, kind: Kind)
    requires RunnerOk(g, r, f, rj, wj, buf) && r.alive
    requires var j := if kind.Read? then rj else wj;
      j.Some? && (j.value.stage.Queued? || j.value.stage.Ready? || j.value.stage.Blocked?)
    ensures !r.savedError
  {
    hide ChunkSize, Fits, Pad, RoundUp;
  }

  // ---------------------------------------------------------------- the shared file object

  /** The chunk counter is exact, so the last part deletes the shared objects and nobody else does,
      and none of its parts is used afterwards. */
  lemma ChunkCounterIsExact(s: State, f: nat)
    requires Reachable(s) && f < |s.files|
    ensures s.files[f].chunksRemaining == s.files[f].parts - s.files[f].added + Sum(LivesOf(s.runners, f)) >= 0
    ensures s.files[f].chunksRemaining == 0 <==>
      s.files[f].added == s.files[f].parts && forall i :: 0 <= i < |s.runners| && s.runners[i].file == f ==> !s.runners[i].alive
  {
    hide Reachable, Layout, Data, Fds, Outcome, Places, HeapOk, Rings, Sum;
    ReachableInv(s);
    PartsToCome(s, f);
    SumNonNegative(LivesOf(s.runners, f));
    if s.files[f].chunksRemaining == 0 {
      SumZero(LivesOf(s.runners, f));
      forall i | 0 <= i < |s.runners| && s.runners[i].file == f
        ensures !s.runners[i].alive
      {
        assert LivesOf(s.runners, f)[i] == 0;
      }
    } else if s.files[f].added == s.files[f].parts
              && forall i :: 0 <= i < |s.runners| && s.runners[i].file == f ==> !s.runners[i].alive {
      SumOfZeros(LivesOf(s.runners, f));
    }
  }

  lemma PartsToCome(s: State, f: nat)
    requires Layout(s) && f < |s.files|
    ensures s.files[f].added <= s.files[f].parts
  {
    hide PartAt, ChunkSize, PartsOf, Plannable, ValidConfig, RunnerLaid;
    assert FileLaid(s, f);
  }

  lemma LastPartFds(s: State, closed: bool)
    requires Enabled(s, DropRunner(closed)) && FileOf(s, s.pc.rid).chunksRemaining == 1
    requires s.pc.rid < |s.runners| && RunnerFds(s, s.pc.rid) && PlaceOk(s, s.pc.rid) && s.runners[s.pc.rid].alive
    ensures var r, f, f' := s.runners[s.pc.rid], FileOf(s, s.pc.rid), FileOf(AfterDrop(s, closed), s.pc.rid);
      && f'.chunksRemaining == 0
      && (NoneOpen(f') <==> if r.savedError then r.errorChunks == 1 else r.size > 0 || !s.pc.error || NoneOpen(f))
  {
  }

  /** When the last part goes, its descriptors have been closed exactly if the runner finished, or
      failed to start, or saved its error while it was the only part left. A part that saved its
      error earlier, and an empty file whose destination could not be opened, leave open whatever
      was open. */
  lemma LastPartCloses(s: State, closed: bool)
    requires Reachable(s) && Enabled(s, DropRunner(closed)) && FileOf(s, s.pc.rid).chunksRemaining == 1
    ensures var r, f, f' := s.runners[s.pc.rid], FileOf(s, s.pc.rid), FileOf(AfterDrop(s, closed), s.pc.rid);
      && f'.chunksRemaining == 0
      && (NoneOpen(f') <==> if r.savedError then r.errorChunks == 1 else r.size > 0 || !s.pc.error || NoneOpen(f))
  {
    hide Reachable, Layout, Data, Counters, Fds, Outcome, Places, HeapOk, Rings, AfterDrop, RunnerFds, PlaceOk;
    ReachableInv(s);
    DroppedPlace(s);
    hide Inv, Enabled;
    LastPartFds(s, closed);
  }

  lemma DroppedPlace(s: State)
    requires Places(s) && Fds(s) && s.pc.Drop?
    ensures s.pc.rid < |s.runners| && IsRunner(s, s.pc.rid) && RunnerFds(s, s.pc.rid) && PlaceOk(s, s.pc.rid)
    ensures s.runners[s.pc.rid].alive
  {
    assert IsRunner(s, s.pc.rid) && RunnerFds(s, s.pc.rid) && PlaceOk(s, s.pc.rid);
  }

  /** In a run without errors every file is closed again, and only the reserved descriptors (and
      those lost to failed low-priority opens) are still counted at the end. */
  lemma DescriptorsReturn(s: State)
    requires Reachable(s) && s.pc.Exited? && !s.errored
    ensures forall f :: 0 <= f < |s.files| ==> NoneOpen(s.files[f])
    ensures s.fdsUsed == RESERVED_FDS + s.failedLow && s.failedHigh == 0
  {
    hide Reachable, Layout, Data, Counters, Fds, Outcome, Places, HeapOk, Rings, Sum;
    ReachableInv(s);
    AtExit(s);
    AllRetired(s);
    forall f | 0 <= f < |s.files|
      ensures NoneOpen(s.files[f])
      ensures OpenCounts(s.files)[f] == 0
    {
      ChunkCounterIsExact(s, f);
      FilePlan(s, f);
      ClosedAtEnd(s, f);
    }
    SumOfZeros(OpenCounts(s.files));
    CountedAtEnd(s);
  }

  lemma AtExit(s: State)
    requires Outcome(s) && s.pc.Exited?
    ensures s.adder.Joined? && s.keepAlive == 0
  {
  }

  lemma ClosedAtEnd(s: State, f: nat)
    requires Outcome(s) && !s.errored && f < |s.files| && s.files[f].chunksRemaining == 0
    ensures NoneOpen(s.files[f])
  {
  }

  lemma CountedAtEnd(s: State)
    requires Fds(s) && Outcome(s) && s.pc.Exited? && !s.errored && Sum(OpenCounts(s.files)) == 0
    ensures s.fdsUsed == RESERVED_FDS + s.failedLow && s.failedHigh == 0
  {
    hide Sum, FileFds, RunnerFds, RetiredOk;
  }
}
