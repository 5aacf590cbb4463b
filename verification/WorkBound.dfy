/** A measure that every piece of real work lowers: the engine cannot stay busy for ever. */
module WorkBound {
  import opened Arithmetic
  import opened ChunkPlan
  import opened Runner
  import opened Engine
  import opened ChunkInvariant
  import opened Invariant
  import opened Frames
  import opened SubmitSteps
  import opened OpenSteps
  import opened RingSteps
  import opened KernelSteps
  import opened ReapSteps
  import opened Theorems
  import opened Progress
  import opened Touches

  // ---------------------------------------------------------------- the measure

  /** Bytes a chunk has still to read and to write. */
  function Remaining(r: Chunk): int {
    (End(r) - r.readOffset) + (End(r) - r.writeOffset)
  }

  /** How far a batch has come. The write behind a processed read ranks high again: the read's bytes
      pay for it, and for the next round if there is one. */
  function BatchPhase(rj: Option<Job>, wj: Option<Job>, saved: bool): nat {
    match (rj, wj)
    case (Some(rd), Some(wr)) =>
      if rd.stage.Queued? then 10 else if rd.stage.Ready? then 9 else if wr.stage.Done? then 7 else 8
    case (None, Some(wr)) =>
      if saved then (if wr.stage.Done? then 4 else 5)
      else if wr.linked then (if wr.stage.Done? then 16 else 17)
      else if wr.stage.Queued? then 10 else if wr.stage.Done? then 8 else 9
    case _ => 2
  }

  function Phase(s: State, i: nat): nat {
    if i >= Started(s) then 15
    else if Chosen(s.pc) == Some(i) then
      (match s.pc
       case OpenSource(_) => 13
       case OpenDest(_) => 12
       case Issue(_) => 11
       case OpenEmpty(_) => 13
       case _ => 1)
    else if HasJob(s, i) then BatchPhase(JobAt(s, i, Read), JobAt(s, i, Write), i < |s.runners| && s.runners[i].savedError)
    else 14
  }

  const UNIT: nat := 32

  function Rank(s: State, i: nat): int
    requires i < |s.runners|
  {
    if s.runners[i].alive then UNIT * Remaining(s.runners[i]) + Phase(s, i) else 0
  }

  function Ranks(s: State): seq<int> {
    seq(|s.runners|, i requires 0 <= i < |s.runners| => Rank(s, i))
  }

  function WorkLeft(s: State): int {
    Sum(Ranks(s))
  }

  // ---------------------------------------------------------------- what is asked of the kernel

  /** A read that delivers anything delivers an alignment unit or reaches the end of the chunk. */
  predicate ReadCounts(r: Chunk, align: nat, res: int) {
    res > 0 ==> res >= align || r.readOffset + res == End(r)
  }

  /** A write issued without a read takes at least a byte, or fails for good. */
  predicate WriteCounts(wr: Job, res: int) {
    !wr.linked ==> res != 0 && res != -ECANCELED
  }

  /** The kernel's step moves the copy forward. */
  predicate Counts(s: State, a: Action)
    requires Enabled(s, a)
  {
    match a
    case RunRead(i, res, _) => ReadCounts(s.runners[i], FileOf(s, i).align, res)
    case RunWrite(i, res) => WriteCounts(s.jobs[Tag(i, Write)], res)
    case _ => true
  }

  /** The same of the completions that wait to be processed. */
  predicate DoneCounts(s: State, i: nat) {
    && (Tag(i, Read) in s.jobs && s.jobs[Tag(i, Read)].stage.Done? && IsRunner(s, i) ==>
      ReadCounts(s.runners[i], FileOf(s, i).align, s.jobs[Tag(i, Read)].stage.res))
    && (Tag(i, Write) in s.jobs && s.jobs[Tag(i, Write)].stage.Done? ==>
      WriteCounts(s.jobs[Tag(i, Write)], s.jobs[Tag(i, Write)].stage.res))
    && (Tag(i, Write) in s.jobs && s.jobs[Tag(i, Write)].stage.Cancelled? ==> s.jobs[Tag(i, Write)].linked)
  }

  predicate Lively(s: State) {
    forall i :: 0 <= i < |s.runners| ==> DoneCounts(s, i)
  }

  /** The steps that do something; the others only move the submit thread around its loop. */
  predicate IsWork(s: State, a: Action)
    requires Enabled(s, a)
  {
    match a
    case Look => AfterLook(s).pc.OpenSource?
    case PickFront => !AfterPick(s).pc.Flush?
    case FlushBatch => false
    case Submitted => false
    case StopReaping => false
    case CheckDone => false
    case _ => true
  }

  // ---------------------------------------------------------------- one runner moves

  /** All other runners keep their rank; this one's falls. */
  predicate Falls(s: State, s': State, i: nat) {
    && |s'.runners| == |s.runners| && i < |s.runners|
    && (forall j: nat :: j < |s.runners| && j != i ==> Rank(s', j) == Rank(s, j))
    && Rank(s', i) < Rank(s, i)
  }

  lemma FallingRank(s: State, s': State, i: nat)
    requires Falls(s, s', i)
    ensures WorkLeft(s') < WorkLeft(s)
  {
    hide Rank, Sum;
    assert Ranks(s') == Ranks(s)[i := Rank(s', i)];
    SumUpdate(Ranks(s), i, Rank(s', i));
  }

  lemma SameRanks(s: State, s': State)
    requires |s'.runners| == |s.runners|
    requires forall j: nat :: j < |s.runners| ==> Rank(s', j) == Rank(s, j)
    ensures WorkLeft(s') == WorkLeft(s)
  {
    hide Rank, Sum;
    assert Ranks(s') == Ranks(s);
  }

  // ---------------------------------------------------------------- steps of the submit thread

  /** A step that only moves the submit thread around its loop. */
  predicate Idles(s: State, s': State) {
    && s'.runners == s.runners && s'.jobs == s.jobs && s'.files == s.files && s'.pendingStart == s.pendingStart
    && s'.adder == s.adder && Chosen(s.pc).None? && Chosen(s'.pc).None?
  }

  lemma IdleIsIdles(s: State, a: Action)
    requires s.adder.Joined? && Enabled(s, a) && !IsWork(s, a)
    ensures Idles(s, Next(s, a))
  {
    if a.Look? {
      hide AfterLook, Enabled, IsWork;
      LookIdles(s, a);
    } else if a.PickFront? {
      hide AfterPick, Enabled, IsWork;
      PickIdles(s, a);
    } else {
      hide AfterLook, AfterPick;
      RestIdles(s, a);
    }
  }

  lemma LookIdles(s: State, a: Action)
    requires Enabled(s, a) && a.Look? && !IsWork(s, a)
    ensures Idles(s, Next(s, a))
  {
    hide TakeBuffer, RateLimited, Waiting;
    TakeBufferKeeps(s);
  }

  lemma PickIdles(s: State, a: Action)
    requires Enabled(s, a) && a.PickFront? && !IsWork(s, a)
    ensures Idles(s, Next(s, a))
  {
    hide OutOfFds, NeedsFds;
  }

  lemma RestIdles(s: State, a: Action)
    requires Enabled(s, a) && (a.FlushBatch? || a.Submitted? || a.StopReaping? || a.CheckDone?)
    ensures Idles(s, Next(s, a))
  {
  }

  lemma IdleStep(s: State, a: Action)
    requires Lively(s) && s.adder.Joined? && Enabled(s, a) && !IsWork(s, a)
    ensures WorkLeft(Next(s, a)) == WorkLeft(s) && Lively(Next(s, a)) && Next(s, a).adder.Joined?
  {
    hide Next, Enabled, IsWork;
    IdleIsIdles(s, a);
    var s' := Next(s, a);
    forall j: nat | j < |s.runners|
      ensures Rank(s', j) == Rank(s, j) && DoneCounts(s', j)
    {
      assert DoneCounts(s, j);
      assert HasJob(s', j) == HasJob(s, j) && JobAt(s', j, Read) == JobAt(s, j, Read) && JobAt(s', j, Write) == JobAt(s, j, Write);
    }
    SameRanks(s, s');
  }

  /** A step of the submit thread that takes runner i from one place to the next. */
  predicate Moves(s: State, s': State, i: nat) {
    && i < |s.runners| && s'.jobs == s.jobs && |s'.files| == |s.files|
    && |s'.runners| == |s.runners|
    && (forall j: nat :: j < |s.runners| ==>
      && s'.runners[j].alive == (s.runners[j].alive && !(j == i && s.pc.Drop?))
      && s'.runners[j] == s.runners[j].(block := s'.runners[j].block, alive := s'.runners[j].alive))
    && (forall f :: 0 <= f < |s.files| ==> s'.files[f].align == s.files[f].align)
    && (Chosen(s.pc) == None || Chosen(s.pc) == Some(i))
    && (Chosen(s'.pc) == None || Chosen(s'.pc) == Some(i))
    && (s'.pendingStart == s.pendingStart || (s.pendingStart != [] && s'.pendingStart == s.pendingStart[1..] && i == Started(s)))
    && s'.adder == s.adder
  }

  lemma MoveFalls(s: State, s': State, i: nat)
    requires Lively(s) && Moves(s, s', i) && s.runners[i].alive
    requires i >= Started(s) || !HasJob(s, i)
    requires s.pc.Drop? || Phase(s', i) < Phase(s, i)
    requires s.pc.Drop? ==> Remaining(s.runners[i]) >= 0 && Chosen(s.pc) == Some(i) && i < Started(s)
    ensures WorkLeft(s') < WorkLeft(s) && Lively(s')
  {
    forall j: nat | j < |s.runners| && j != i
      ensures Rank(s', j) == Rank(s, j)
    {
      assert HasJob(s', j) == HasJob(s, j) && JobAt(s', j, Read) == JobAt(s, j, Read) && JobAt(s', j, Write) == JobAt(s, j, Write);
    }
    forall j: nat | j < |s.runners|
      ensures DoneCounts(s', j)
    {
      assert DoneCounts(s, j);
    }
    assert Rank(s', i) < Rank(s, i);
    FallingRank(s, s', i);
  }

  lemma PlaceFact(s: State, i: nat)
    requires Places(s) && i < |s.runners|
    ensures PlaceOk(s, i) && |s.pendingStart| <= |s.runners|
    ensures s.pendingStart != [] ==> s.pendingStart[0] == Started(s)
  {
  }

  lemma LookMoves(s: State, i: nat)
    requires Enabled(s, Look) && AfterLook(s).pc == OpenSource(i)
    requires i < |s.runners| && i < Started(s) && !HasJob(s, i)
    ensures Moves(s, AfterLook(s), i) && Phase(AfterLook(s), i) < Phase(s, i)
  {
    hide TakeBuffer, RateLimited, Waiting;
    TakeBufferKeeps(s);
  }

  lemma LookPicks(s: State, i: nat)
    requires Enabled(s, Look) && AfterLook(s).pc == OpenSource(i)
    ensures s.pendingContinue != [] && i == s.pendingContinue[0]
  {
    hide TakeBuffer, RateLimited, Waiting;
  }

  lemma ContinuedIsPlaced(s: State, i: nat)
    requires Places(s) && s.pc.Top? && s.pendingContinue != [] && i == s.pendingContinue[0]
    ensures i < |s.runners| && s.runners[i].alive && i < Started(s) && !HasJob(s, i)
  {
    assert PlaceOk(s, i);
  }

  lemma LookWork(s: State)
    requires Inv(s) && Lively(s) && Enabled(s, Look) && AfterLook(s).pc.OpenSource?
    ensures WorkLeft(AfterLook(s)) < WorkLeft(s) && Lively(AfterLook(s))
  {
    hide Layout, Data, Counters, Fds, Outcome, Places, HeapOk, Rings, AfterLook, Lively, Moves, Phase;
    var i := AfterLook(s).pc.rid;
    LookPicks(s, i);
    ContinuedIsPlaced(s, i);
    LookMoves(s, i);
    MoveFalls(s, AfterLook(s), i);
  }

  lemma KnownRunner(s: State, i: nat)
    requires Enabled(s, PickFront) && i == s.pendingStart[0]
    ensures i < |s.runners| && s.pc.Pick?
  {
  }

  lemma FrontPlaced(s: State, i: nat)
    requires s.pendingStart != [] && s.pendingStart[0] == i < |s.runners| && Places(s) && s.pc.Pick?
    ensures s.runners[i].alive && i == Started(s) && !HasJob(s, i)
  {
    assert PlaceOk(s, i);
  }

  lemma PickMoves(s: State, i: nat)
    requires Enabled(s, PickFront) && !AfterPick(s).pc.Flush? && i == s.pendingStart[0] == Started(s)
    requires |s.pendingStart| <= |s.runners|
    ensures Moves(s, AfterPick(s), i) && Phase(AfterPick(s), i) < Phase(s, i)
  {
    hide OutOfFds, NeedsFds;
  }

  lemma PickWork(s: State)
    requires Inv(s) && Lively(s) && Enabled(s, PickFront) && !AfterPick(s).pc.Flush?
    ensures WorkLeft(AfterPick(s)) < WorkLeft(s) && Lively(AfterPick(s))
  {
    hide Layout, Data, Counters, Fds, Outcome, Places, HeapOk, Rings, AfterPick, Lively, Moves, Phase, PlaceOk;
    var i := s.pendingStart[0];
    KnownRunner(s, i);
    PlaceFact(s, i);
    FrontPlaced(s, i);
    hide Enabled, Inv;
    PickMoves(s, i);
    MoveFalls(s, AfterPick(s), i);
  }

  lemma OpenMoves(s: State, s': State, ok: bool, i: nat)
    requires Opening(s) && Opens(s, s', ok) && i == s.pc.rid && i < Started(s)
    ensures Moves(s, s', i) && Phase(s', i) < Phase(s, i)
  {
    hide OpenedFile;
    assert s'.files[s.runners[i].file].align == s.files[s.runners[i].file].align by {
      OpenedKeepsAlign(s, s.files[s.runners[i].file], s'.files[s.runners[i].file], ok);
    }
  }

  lemma OpenedKeepsAlign(s: State, f: File, f': File, ok: bool)
    requires Opening(s) && OpenedFile(s, f, f', ok)
    ensures f'.align == f.align
  {
  }

  lemma OpenWork(s: State, ok: bool)
    requires Inv(s) && Lively(s) && Enabled(s, EnsureOpen(ok))
    ensures WorkLeft(AfterOpen(s, ok)) < WorkLeft(s) && Lively(AfterOpen(s, ok))
  {
    hide Layout, Data, Counters, Fds, Outcome, Places, HeapOk, Rings, AfterOpen, Lively, Moves, Phase, Opens, Opening;
    var i := s.pc.rid;
    OpenIsOpens(s, ok);
    OpenPlaced(s, i);
    OpenMoves(s, AfterOpen(s, ok), ok, i);
    MoveFalls(s, AfterOpen(s, ok), i);
  }

  lemma OpenPlaced(s: State, i: nat)
    requires Places(s) && Opening(s) && s.pc.rid == i
    ensures i < |s.runners| && s.runners[i].alive && i < Started(s) && !HasJob(s, i)
  {
    assert PlaceOk(s, i);
  }

  lemma DropMoves(s: State, s': State, i: nat, shut: bool)
    requires Drops(s, s', i, shut)
    ensures Moves(s, s', i)
  {
  }

  lemma DropWork(s: State, closed: bool)
    requires Inv(s) && Lively(s) && Enabled(s, DropRunner(closed))
    ensures WorkLeft(Next(s, DropRunner(closed))) < WorkLeft(s) && Lively(Next(s, DropRunner(closed)))
  {
    hide Layout, Data, Counters, Fds, Outcome, Places, HeapOk, Rings, AfterDrop, Lively, Moves, Phase, Drops;
    var i := s.pc.rid;
    DropPlaced(s, i);
    DropRemaining(s, i);
    hide Inv;
    DropIsDrops(s, closed);
    DropMoves(s, AfterDrop(s, closed), i, s.pc.close && FileOf(s, i).chunksRemaining == 1);
    MoveFalls(s, AfterDrop(s, closed), i);
  }

  lemma DropPlaced(s: State, i: nat)
    requires Places(s) && s.pc.Drop? && s.pc.rid == i
    ensures i < |s.runners| && s.runners[i].alive && i < Started(s) && !HasJob(s, i)
  {
    assert PlaceOk(s, i);
  }

  lemma DropRemaining(s: State, i: nat)
    requires Data(s) && i < |s.runners|
    ensures Remaining(s.runners[i]) >= 0
  {
    hide RunnerOk;
    assert IsRunner(s, i) && RunnerGood(s, i);
    RemainingOf(s.g, s.runners[i], FileOf(s, i), JobAt(s, i, Read), JobAt(s, i, Write), BufferOf(s, i));
  }

  lemma RemainingOf(g: Geometry, r: Chunk, f: File, rj: Option<Job>, wj: Option<Job>, buf: seq<byte>)
    requires RunnerOk(g, r, f, rj, wj, buf)
    ensures Remaining(r) >= 0
  {
    hide ChunkSize, Fits, Pad, RoundUp;
  }

  // ---------------------------------------------------------------- steps that move jobs

  /** Jobs of runner i change, and perhaps the runner's offsets; all others keep theirs. */
  predicate MovesJobs(s: State, s': State, i: nat) {
    && i < |s.runners| && |s'.runners| == |s.runners| && |s'.files| == |s.files|
    && (forall j: nat :: j < |s.runners| && j != i ==> s'.runners[j] == s.runners[j])
    && (forall j: nat, kind :: j < |s.runners| && j != i ==> JobAt(s', j, kind) == JobAt(s, j, kind))
    && (forall f :: 0 <= f < |s.files| ==> s'.files[f].align == s.files[f].align)
    && s'.runners[i].alive && s.runners[i].alive && s'.runners[i].file == s.runners[i].file
    && (s'.pc == s.pc ||
        ((Chosen(s.pc) == None || Chosen(s.pc) == Some(i)) && (Chosen(s'.pc) == None || Chosen(s'.pc) == Some(i))))
    && s'.pendingStart == s.pendingStart
    && s'.adder == s.adder
  }

  lemma JobsFall(s: State, s': State, i: nat)
    requires Lively(s) && MovesJobs(s, s', i)
    requires UNIT * Remaining(s'.runners[i]) + Phase(s', i) < UNIT * Remaining(s.runners[i]) + Phase(s, i)
    requires DoneCounts(s', i)
    ensures WorkLeft(s') < WorkLeft(s) && Lively(s')
  {
    forall j: nat | j < |s.runners| && j != i
      ensures Rank(s', j) == Rank(s, j) && DoneCounts(s', j)
    {
      assert DoneCounts(s, j);
      assert JobAt(s', j, Read) == JobAt(s, j, Read) && JobAt(s', j, Write) == JobAt(s, j, Write);
      assert HasJob(s', j) == HasJob(s, j);
    }
    FallingRank(s, s', i);
  }

  lemma IssueWork(s: State)
    requires Inv(s) && Lively(s) && Enabled(s, IssueBatch)
    ensures WorkLeft(AfterIssue(s, s.pc.rid)) < WorkLeft(s) && Lively(AfterIssue(s, s.pc.rid))
  {
    hide Layout, Data, Counters, Fds, Outcome, Places, HeapOk, Rings, AfterIssue, Lively, ReadRequest, WriteRequest, PadOf, Issues, MovesJobs, Phase;
    var i := s.pc.rid;
    IssuePlaced(s, i);
    hide Enabled;
    var read, write := IssueLocal(s, i);
    IssueIsIssues(s, i, read, write);
    hide Inv;
    IssueMoves(s, AfterIssue(s, i), i, read, write);
    JobsFall(s, AfterIssue(s, i), i);
  }

  lemma IssuePlaced(s: State, i: nat)
    requires Places(s) && Enabled(s, IssueBatch) && s.pc.rid == i
    ensures s.pc == Issue(i) && IsRunner(s, i) && s.runners[i].alive && i < Started(s) && !HasJob(s, i)
  {
    assert PlaceOk(s, i);
  }

  lemma IssueMoves(s: State, s': State, i: nat, read: Option<Request>, write: Request)
    requires Issues(s, s', i, read, write) && s.pc == Issue(i) && s.runners[i].alive && i < Started(s)
    ensures MovesJobs(s, s', i) && DoneCounts(s', i)
    ensures Remaining(s'.runners[i]) == Remaining(s.runners[i]) && Phase(s', i) < Phase(s, i)
  {
  }

  lemma ConsumeWork(s: State)
    requires Inv(s) && Lively(s) && Enabled(s, Consume)
    ensures WorkLeft(AfterConsume(s)) < WorkLeft(s) && Lively(AfterConsume(s))
  {
    var i := s.sq[0].rid;
    var s' := AfterConsume(s);
    ConsumeTakes(s);
    assert s.sq[0] in s.jobs && s.jobs[s.sq[0]].stage.Queued? && HasJob(s, i);
    PlaceFact(s, i);
    TagIsLive(s, s.sq[0]);
    hide Layout, Counters, Fds, Outcome, Places, HeapOk, AfterConsume, Lively;
    if TakesPair(s, s', i) {
      PairQueued(s, s', i) by { hide ListsQueued, ListsDone, Chained, ReadsFirst; }
      hide Rings, Data;
      PairMoves(s, s', i);
    } else {
      WriteQueued(s, s', i) by { hide ListsQueued, ListsDone, Chained, ReadsFirst; }
      assert Tag(i, Read) !in s.jobs by {
        assert RunnerGood(s, i);
        UnlinkedIsAlone(s.g, s.runners[i], FileOf(s, i), JobAt(s, i, Read), s.jobs[Tag(i, Write)], BufferOf(s, i)) by { hide RunnerOk; }
      }
      assert !s.runners[i].savedError by {
        assert RunnerGood(s, i);
        QueuedNotSaved(s.g, s.runners[i], FileOf(s, i), None, s.jobs[Tag(i, Write)], BufferOf(s, i)) by { hide RunnerOk; }
      }
      hide Rings, Data;
      LoneMoves(s, s', i);
    }
    JobsFall(s, s', i);
  }

  lemma QueuedNotSaved(g: Geometry, r: Chunk, f: File, rj: Option<Job>, wr: Job, buf: seq<byte>)
    requires RunnerOk(g, r, f, rj, Some(wr), buf) && wr.stage.Queued?
    ensures !r.savedError
  {
    hide ChunkSize, Fits, Pad, RoundUp;
  }

  lemma PairMoves(s: State, s': State, i: nat)
    requires TakesPair(s, s', i) && i < |s.runners| && s.runners[i].alive && s.pc.Submit? && i < Started(s)
    requires s.jobs[Tag(i, Read)].stage.Queued? && s.jobs[Tag(i, Write)].stage.Queued?
    ensures MovesJobs(s, s', i) && DoneCounts(s', i)
    ensures Remaining(s'.runners[i]) == Remaining(s.runners[i]) && Phase(s', i) < Phase(s, i)
  {
  }

  lemma LoneMoves(s: State, s': State, i: nat)
    requires TakesWrite(s, s', i) && i < |s.runners| && s.runners[i].alive && s.pc.Submit? && i < Started(s)
    requires s.jobs[Tag(i, Write)].stage.Queued? && !s.jobs[Tag(i, Write)].linked
    requires Tag(i, Read) !in s.jobs && !s.runners[i].savedError
    ensures MovesJobs(s, s', i) && DoneCounts(s', i)
    ensures Remaining(s'.runners[i]) == Remaining(s.runners[i]) && Phase(s', i) < Phase(s, i)
  {
  }

  // ---------------------------------------------------------------- steps of the kernel

  lemma ReadWork(s: State, i: nat, res: int, data: seq<byte>)
    requires Inv(s) && Lively(s) && Enabled(s, RunRead(i, res, data)) && Counts(s, RunRead(i, res, data))
    ensures WorkLeft(Next(s, RunRead(i, res, data))) < WorkLeft(s) && Lively(Next(s, RunRead(i, res, data)))
  {
    hide Layout, Data, Counters, Fds, Outcome, Places, HeapOk, Rings, Lively, AfterRead, KernelRead, MovesJobs, Phase, DoneCounts;
    var s' := AfterRead(s, i, res, data);
    ReadParts(s, i);
    InFlight(s, i);
    LinkOf(s, i);
    hide Inv;
    ReadMoves(s, s', i, res, data);
    JobsFall(s, s', i);
  }

  lemma LinkOf(s: State, i: nat)
    requires Data(s) && i < |s.runners| && Tag(i, Read) in s.jobs && Tag(i, Write) in s.jobs
    ensures s.jobs[Tag(i, Write)].linked
  {
    hide RunnerOk;
    assert IsRunner(s, i) && RunnerGood(s, i);
    PairIsLinked(s.g, s.runners[i], FileOf(s, i), s.jobs[Tag(i, Read)], s.jobs[Tag(i, Write)], BufferOf(s, i));
  }

  lemma ReadMoves(s: State, s': State, i: nat, res: int, data: seq<byte>)
    requires Enabled(s, RunRead(i, res, data)) && Counts(s, RunRead(i, res, data)) && s' == AfterRead(s, i, res, data)
    requires s.runners[i].alive && i < Started(s) && Chosen(s.pc) != Some(i)
    requires Tag(i, Write) in s.jobs && s.jobs[Tag(i, Write)].stage.Blocked? && s.jobs[Tag(i, Write)].linked
    ensures MovesJobs(s, s', i) && DoneCounts(s', i) && Phase(s', i) < Phase(s, i)
    ensures s'.runners == s.runners
  {
    hide Overwrite, KernelRead;
  }

  lemma PairIsLinked(g: Geometry, r: Chunk, f: File, rd: Job, wr: Job, buf: seq<byte>)
    requires RunnerOk(g, r, f, Some(rd), Some(wr), buf)
    ensures wr.linked
  {
    hide ChunkSize, Fits, Pad, RoundUp;
  }

  /** What the runner's invariant says about a write that the kernel is about to complete. */
  lemma WriterPhase(g: Geometry, r: Chunk, f: File, rj: Option<Job>, wr: Job, buf: seq<byte>)
    requires RunnerOk(g, r, f, rj, Some(wr), buf) && (wr.stage.Ready? || wr.stage.Cancelled?)
    ensures r.alive
    ensures rj.Some? ==> rj.value.stage.Done?
    ensures wr.stage.Ready? ==> !r.savedError
  {
    hide ChunkSize, Fits, Pad, RoundUp;
  }

  /** A write of runner i completes, or its cancellation does. */
  predicate Completes(s: State, s': State, i: nat, res: int) {
    && i < |s.runners| && Tag(i, Write) in s.jobs && s'.runners == s.runners && |s'.files| == |s.files|
    && (forall f :: 0 <= f < |s.files| ==> s'.files[f].align == s.files[f].align)
    && s'.jobs == s.jobs[Tag(i, Write) := s.jobs[Tag(i, Write)].(stage := Done(res))]
    && s'.pc == s.pc && s'.pendingStart == s.pendingStart && s'.adder == s.adder
  }

  lemma CompleteMoves(s: State, s': State, i: nat, res: int)
    requires Completes(s, s', i, res) && s.runners[i].alive && i < Started(s) && Chosen(s.pc) != Some(i)
    requires DoneCounts(s, i)
    requires Tag(i, Read) in s.jobs ==> s.jobs[Tag(i, Read)].stage.Done?
    requires s.jobs[Tag(i, Write)].stage.Ready? || s.jobs[Tag(i, Write)].stage.Cancelled?
    requires s.jobs[Tag(i, Write)].stage.Ready? ==> !s.runners[i].savedError
    requires WriteCounts(s.jobs[Tag(i, Write)], res)
    ensures MovesJobs(s, s', i) && DoneCounts(s', i)
    ensures Phase(s', i) < Phase(s, i)
  {
    assert JobAt(s', i, Read) == JobAt(s, i, Read);
  }

  lemma CompleteWork(s: State, s': State, i: nat, res: int)
    requires Inv(s) && Lively(s) && Completes(s, s', i, res)
    requires s.jobs[Tag(i, Write)].stage.Ready? || s.jobs[Tag(i, Write)].stage.Cancelled?
    requires WriteCounts(s.jobs[Tag(i, Write)], res)
    ensures WorkLeft(s') < WorkLeft(s) && Lively(s')
  {
    PlaceFact(s, i);
    assert DoneCounts(s, i);
    assert IsRunner(s, i) && RunnerGood(s, i);
    WriterPhase(s.g, s.runners[i], FileOf(s, i), JobAt(s, i, Read), s.jobs[Tag(i, Write)], BufferOf(s, i)) by { hide RunnerOk; }
    assert i < Started(s) && Chosen(s.pc) != Some(i);
    hide Inv, Lively, PlaceOk, RunnerOk, RunnerGood, Completes;
    CompleteMoves(s, s', i, res);
    assert s'.runners[i] == s.runners[i] by { CompleteKeeps(s, s', i, res); }
    JobsFall(s, s', i);
  }

  lemma CompleteKeeps(s: State, s': State, i: nat, res: int)
    requires Completes(s, s', i, res)
    ensures s'.runners == s.runners && i < |s.runners|
  {
  }

  // ---------------------------------------------------------------- completions

  /** A processed read has paid for the next round: at least a byte, unless an error is saved. */
  lemma ReadPays(g: Geometry, r: Chunk, f: File, rd: Job, wr: Job, buf: seq<byte>, chunks: nat)
    requires ValidGeometry(g)
    requires RunnerOk(g, r, f, Some(rd), Some(wr), buf) && rd.stage.Done? && r.alive
    requires ReadCounts(r, f.align, rd.stage.res)
    ensures var r' := Absorb(r, Read, rd.stage.res, f.align, chunks);
      && (r'.savedError || r'.readOffset > r.readOffset)
      && r'.readOffset >= r.readOffset && r'.writeOffset == r.writeOffset && !r.savedError && wr.linked
  {
    ReapReadOk(g, r, f, rd, wr, buf, chunks);
    hide ChunkSize, Fits, Pad, RoundUp, AlignDown;
    ChunkSizeAligned(g, f.align);
    var res := rd.stage.res;
    if res > 0 {
      var x2 := r.(jobsRunning := r.jobsRunning - 1, readOffset := r.readOffset + res);
      SmallRest(g, f, x2);
      if End(r) != r.readOffset + res {
        AlignDownKeeps(r.readOffset, r.readOffset + res, f.align);
      }
    }
  }

  /** A processed lone write either ends the runner, or has brought bytes, or follows a read. */
  lemma WritePays(g: Geometry, r: Chunk, f: File, wr: Job, buf: seq<byte>, chunks: nat)
    requires RunnerOk(g, r, f, None, Some(wr), buf) && wr.stage.Done? && r.alive
    requires WriteCounts(wr, wr.stage.res)
    ensures var r' := Absorb(r, Write, wr.stage.res, f.align, chunks);
      && r'.readOffset == r.readOffset && r'.writeOffset >= r.writeOffset
      && (Judge(r') == Reschedule ==> !r.savedError && (wr.linked || r'.writeOffset > r.writeOffset))
  {
    ReapWriteOk(g, r, f, wr, buf, f.align, chunks);
    hide ChunkSize, Fits, Pad, RoundUp, AlignDown;
  }

  lemma ReapReadMoves(s: State, s': State, i: nat, r': Chunk, shut: bool)
    requires Reaps(s, s', Tag(i, Read), r', shut) && GoodVerdict(s, Tag(i, Read), r')
    requires s.runners[i].alive && i < Started(s) && Tag(i, Write) in s.jobs && s.jobs[Tag(i, Write)].linked
    requires DoneCounts(s, i) && !s.runners[i].savedError
    requires r'.readOffset >= s.runners[i].readOffset && (r'.savedError || r'.readOffset > s.runners[i].readOffset)
    ensures MovesJobs(s, s', i) && DoneCounts(s', i)
    ensures UNIT * Remaining(s'.runners[i]) + Phase(s', i) < UNIT * Remaining(s.runners[i]) + Phase(s, i)
  {
    assert Judge(r').Continue?;
    hide Judge;
    assert JobAt(s', i, Write) == JobAt(s, i, Write) && JobAt(s', i, Read) == None;
    assert Phase(s, i) == (if s.jobs[Tag(i, Write)].stage.Done? then 7 else 8);
    assert Remaining(s'.runners[i]) == Remaining(s.runners[i]) - (r'.readOffset - s.runners[i].readOffset);
  }

  lemma ReapWriteMoves(s: State, s': State, i: nat, r': Chunk, shut: bool)
    requires Reaps(s, s', Tag(i, Write), r', shut) && GoodVerdict(s, Tag(i, Write), r')
    requires s.runners[i].alive && i < Started(s) && Tag(i, Read) !in s.jobs
    requires r'.readOffset == s.runners[i].readOffset && r'.writeOffset >= s.runners[i].writeOffset
    requires Judge(r') == Reschedule ==>
      !s.runners[i].savedError && (s.jobs[Tag(i, Write)].linked || r'.writeOffset > s.runners[i].writeOffset)
    ensures MovesJobs(s, s', i) && DoneCounts(s', i)
    ensures UNIT * Remaining(s'.runners[i]) + Phase(s', i) < UNIT * Remaining(s.runners[i]) + Phase(s, i)
  {
    assert !Judge(r').Continue?;
    assert !HasJob(s', i);
    assert Phase(s', i) == (if Judge(r') == Reschedule then 14 else 1);
    assert Phase(s, i) >= 4;
    assert Remaining(s'.runners[i]) == Remaining(s.runners[i]) - (r'.writeOffset - s.runners[i].writeOffset);
  }

  lemma InFlight(s: State, i: nat)
    requires Places(s) && i < |s.runners| && HasJob(s, i)
    ensures s.runners[i].alive && i < Started(s) && Chosen(s.pc) != Some(i)
  {
    assert PlaceOk(s, i);
  }

  lemma UnfoldLively(s: State, i: nat)
    requires Lively(s) && i < |s.runners|
    ensures DoneCounts(s, i)
  {
  }

  /** What `ReapWork` needs to know about the runner whose completion is next. */
  lemma ReapFacts(s: State)
    requires Enabled(s, ReapOne) && Inv(s) && Lively(s)
    ensures var t := s.cq[0]; var i := t.rid;
      && s.runners[i].alive && i < Started(s) && FileOf(s, i).chunksRemaining >= 1
      && RunnerGood(s, i) && DoneCounts(s, i) && ValidGeometry(s.g)
      && t == Tag(i, t.kind)
      && (t.kind.Write? ==> Tag(i, Read) !in s.jobs)
  {
    hide RunnerGood, Lively, Layout, Data, Counters, Fds, Outcome, HeapOk, Rings, Places, DoneCounts, ValidGeometry;
    var t := s.cq[0];
    var i := t.rid;
    TagShape(t);
    assert HasJob(s, i);
    UnfoldData(s);
    UnfoldLively(s, i);
    LayoutSizes(s);
    InFlight(s, i);
    LiveMeansRemaining(s, i);
    if t.kind.Write? {
      ReadGoneFirst(s, i);
    }
  }

  lemma ReapWork(s: State)
    requires Inv(s) && Lively(s) && Enabled(s, ReapOne)
    ensures WorkLeft(Next(s, ReapOne)) < WorkLeft(s) && Lively(Next(s, ReapOne))
  {
    hide Layout, Data, Counters, Fds, Outcome, HeapOk, Rings, Places, Lively, PlaceOk, AfterReap, Reaps, GoodVerdict,
      Absorb, RunnerOk, ValidGeometry, Phase;
    var t := s.cq[0];
    var i := t.rid;
    var s' := AfterReap(s, t);
    var f, r := FileOf(s, i), s.runners[i];
    ReapFacts(s);
    var r' := Absorb(r, t.kind, s.jobs[t].stage.res, f.align, f.chunksRemaining);
    var shut := r'.savedError && !r.savedError && f.chunksRemaining == 1;
    ReapLocal(s, t, r');
    ReapIsReaps(s);
    hide Enabled;
    if t.kind.Read? {
      JobsMeanAlive(s.g, r, f, JobAt(s, i, Read), JobAt(s, i, Write), BufferOf(s, i));
      ReadPays(s.g, r, f, s.jobs[t], s.jobs[Tag(i, Write)], BufferOf(s, i), f.chunksRemaining);
      ReapReadMoves(s, s', i, r', shut);
    } else {
      WritePays(s.g, r, f, s.jobs[t], BufferOf(s, i), f.chunksRemaining);
      ReapWriteMoves(s, s', i, r', shut);
    }
    JobsFall(s, s', i);
  }

  // ---------------------------------------------------------------- runs

  lemma WorkStep(s: State, a: Action)
    requires Inv(s) && Lively(s) && s.adder.Joined? && Enabled(s, a) && IsWork(s, a) && Counts(s, a)
    ensures WorkLeft(Next(s, a)) < WorkLeft(s) && Lively(Next(s, a)) && Next(s, a).adder.Joined?
  {
    WhoWorks(s, a);
    JoinedStays(s, a);
    hide Inv, Lively, Enabled, Counts, WorkLeft, AfterLook, AfterPick, AfterOpen, AfterIssue, AfterConsume, AfterReap,
      AfterDrop, AfterRead, AfterWrite, AfterCancel;
    match a
    case Look => LookTurns(s, a);
    case PickFront => PickTurns(s, a);
    case EnsureOpen(ok) => OpenWork(s, ok);
    case IssueBatch => IssueWork(s);
    case Consume => ConsumeWork(s);
    case ReapOne => ReapWork(s);
    case DropRunner(closed) => DropWork(s, closed);
    case RunRead(i, res, data) => ReadWork(s, i, res, data);
    case RunWrite(i, res) => WriteWork(s, i, res);
    case PostCancel(i) => CancelWork(s, i);
  }

  /** Once additions are complete, work is one of these steps. */
  lemma WhoWorks(s: State, a: Action)
    requires s.adder.Joined? && Enabled(s, a) && IsWork(s, a)
    ensures a.Look? || a.PickFront? || a.EnsureOpen? || a.IssueBatch? || a.Consume? || a.ReapOne? || a.DropRunner?
      || a.RunRead? || a.RunWrite? || a.PostCancel?
  {
    hide AfterLook, AfterPick, KernelRead;
  }

  lemma NobodyAddsAfterJoin(s: State, a: Action)
    requires s.adder.Joined? && Enabled(s, a)
    ensures !IsAdder(a)
  {
    hide Plannable, KernelRead;
  }

  lemma JoinedStays(s: State, a: Action)
    requires s.adder.Joined? && Enabled(s, a)
    ensures Next(s, a).adder.Joined?
  {
    hide Next, Enabled;
    NobodyAddsAfterJoin(s, a);
    StepKeepsSizes(s, a);
  }

  lemma LookTurns(s: State, a: Action)
    requires Inv(s) && Lively(s) && Enabled(s, a) && a.Look? && IsWork(s, a)
    ensures WorkLeft(Next(s, a)) < WorkLeft(s) && Lively(Next(s, a))
  {
    hide Inv, Lively, WorkLeft, AfterLook;
    LookWork(s);
  }

  lemma PickTurns(s: State, a: Action)
    requires Inv(s) && Lively(s) && Enabled(s, a) && a.PickFront? && IsWork(s, a)
    ensures WorkLeft(Next(s, a)) < WorkLeft(s) && Lively(Next(s, a))
  {
    hide Inv, Lively, WorkLeft, AfterPick;
    PickWork(s);
  }

  lemma WriteWork(s: State, i: nat, res: int)
    requires Inv(s) && Lively(s) && Enabled(s, RunWrite(i, res)) && Counts(s, RunWrite(i, res))
    ensures WorkLeft(Next(s, RunWrite(i, res))) < WorkLeft(s) && Lively(Next(s, RunWrite(i, res)))
  {
    hide Inv, Lively, WorkLeft, WriteAt, Slice;
    CompleteWork(s, AfterWrite(s, i, res), i, res);
  }

  lemma CancelWork(s: State, i: nat)
    requires Inv(s) && Lively(s) && Enabled(s, PostCancel(i))
    ensures WorkLeft(Next(s, PostCancel(i))) < WorkLeft(s) && Lively(Next(s, PostCancel(i)))
  {
    hide Layout, Data, Counters, Fds, Outcome, Places, HeapOk, Rings, Lively, WorkLeft;
    CancelledIsLinked(s, i);
    hide Inv;
    CompleteWork(s, AfterCancel(s, i), i, -ECANCELED);
  }

  lemma CancelledIsLinked(s: State, i: nat)
    requires Rings(s) && Lively(s) && Enabled(s, PostCancel(i))
    ensures JobAt(s, i, Write).Some? && JobAt(s, i, Write).value.linked && i < |s.runners|
  {
    hide ListsQueued, ListsDone, Chained, ReadsFirst;
    assert Tag(i, Write) in s.jobs;
    assert DoneCounts(s, i);
  }

  function WorkDone(states: seq<State>, actions: seq<Action>): nat
    requires IsRun(states, actions)
    decreases |actions|
  {
    if actions == [] then 0
    else
      var n := |actions| - 1;
      WorkDone(states[..n + 1], actions[..n]) + Flag(IsWork(states[n], actions[n]))
  }

  lemma {:induction false} WorkSpent(states: seq<State>, actions: seq<Action>)
    requires IsRun(states, actions) && Inv(states[0]) && Lively(states[0]) && states[0].adder.Joined?
    requires forall k :: 0 <= k < |actions| ==> Counts(states[k], actions[k])
    ensures WorkDone(states, actions) + WorkLeft(states[|actions|]) <= WorkLeft(states[0])
    ensures Inv(states[|actions|]) && Lively(states[|actions|]) && states[|actions|].adder.Joined?
    decreases |actions|
  {
    hide Inv, Lively, Enabled, Next, IsWork, Counts, WorkLeft;
    if actions != [] {
      var n := |actions| - 1;
      assert IsRun(states[..n + 1], actions[..n]);
      assert states[..n + 1][n] == states[n];
      WorkSpent(states[..n + 1], actions[..n]);
      StepKeepsInv(states[n], actions[n]);
      if IsWork(states[n], actions[n]) {
        WorkStep(states[n], actions[n]);
      } else {
        IdleStep(states[n], actions[n]);
      }
    }
  }

  lemma WorkLeftNotNegative(s: State)
    requires Inv(s)
    ensures WorkLeft(s) >= 0
  {
    hide Sum;
    forall i | 0 <= i < |s.runners|
      ensures Ranks(s)[i] >= 0
    {
      assert IsRunner(s, i) && RunnerGood(s, i);
      RemainingOf(s.g, s.runners[i], FileOf(s, i), JobAt(s, i, Read), JobAt(s, i, Write), BufferOf(s, i)) by { hide RunnerOk; }
    }
    SumNonNegative(Ranks(s));
  }

  /** Bounded work. Once additions are complete, no run does more pieces of work than the measure of
      the state it starts in, however the threads and the kernel interleave and whatever fails, as
      long as reads and lone writes move forward. */
  lemma BoundedWork(states: seq<State>, actions: seq<Action>)
    requires IsRun(states, actions) && Reachable(states[0]) && states[0].adder.Joined? && Lively(states[0])
    requires forall k :: 0 <= k < |actions| ==> Counts(states[k], actions[k])
    ensures WorkDone(states, actions) <= WorkLeft(states[0])
  {
    hide Reachable, Inv, Lively, Enabled, Next, IsWork, Counts, WorkLeft;
    ReachableInv(states[0]);
    WorkSpent(states, actions);
    WorkLeftNotNegative(states[|actions|]);
  }

  lemma NeitherQueuedNorDone(s: State, t: Tag)
    requires Rings(s) && t in s.jobs
    ensures s.sq == [] ==> !s.jobs[t].stage.Queued?
    ensures s.cq == [] ==> !s.jobs[t].stage.Done?
  {
  }

  /** The job itself, or the read it waits for. */
  lemma OwedFor(s: State, t: Tag) returns (u: Tag)
    requires Rings(s) && Data(s) && t in s.jobs && !s.jobs[t].stage.Queued? && s.cq == []
    ensures u in s.jobs && (s.jobs[u].stage.Ready? || s.jobs[u].stage.Cancelled?)
  {
    TagIsLive(s, t);
    NeitherQueuedNorDone(s, t);
    var i := t.rid;
    assert RunnerGood(s, i) by { UnfoldData(s); }
    hide Rings, Data, RunnerOk;
    u := t;
    if t.kind.Write? {
      assert t == Tag(i, Write);
      BlockedHasReader(s.g, s.runners[i], FileOf(s, i), JobAt(s, i, Read), s.jobs[t], BufferOf(s, i));
      if s.jobs[t].stage.Blocked? {
        u := Tag(i, Read);
      }
    } else {
      assert t == Tag(i, Read);
      ReaderStages(s.g, s.runners[i], FileOf(s, i), s.jobs[t], JobAt(s, i, Write), BufferOf(s, i));
    }
  }

  /** Whenever jobs are outstanding and all have been handed over, either a completion waits to be
      processed or the kernel has a step it can take. */
  lemma KernelOwes(s: State)
    requires Reachable(s) && s.jobs != map[] && s.sq == [] && s.cq == []
    ensures exists t :: t in s.jobs && (s.jobs[t].stage.Ready? || s.jobs[t].stage.Cancelled?)
  {
    hide Reachable;
    ReachableInv(s);
    hide Layout, Data, Counters, Fds, Outcome, Places, HeapOk, Rings;
    var t :| t in s.jobs;
    NeitherQueuedNorDone(s, t);
    var u := OwedFor(s, t);
  }

  lemma BlockedHasReader(g: Geometry, r: Chunk, f: File, rj: Option<Job>, wr: Job, buf: seq<byte>)
    requires RunnerOk(g, r, f, rj, Some(wr), buf)
    ensures wr.stage.Blocked? ==> rj.Some? && rj.value.stage.Ready?
  {
    hide ChunkSize, Fits, Pad, RoundUp;
  }

  lemma ReaderStages(g: Geometry, r: Chunk, f: File, rd: Job, wj: Option<Job>, buf: seq<byte>)
    requires RunnerOk(g, r, f, Some(rd), wj, buf)
    ensures rd.stage.Queued? || rd.stage.Ready? || rd.stage.Done?
  {
    hide ChunkSize, Fits, Pad, RoundUp;
  }
}
