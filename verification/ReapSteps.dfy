/** Processing completions, deleting runners and the end of a pass keep the invariant. */
module ReapSteps {
  import opened Arithmetic
  import opened ChunkPlan
  import opened Runner
  import opened Engine
  import opened ChunkInvariant
  import opened Invariant
  import opened Frames
  import opened RingSteps
  import opened SubmitSteps

  // ---------------------------------------------------------------- one completion

  function Shut(f: File): File {
    f.(sourceFd := CloseFd(f.sourceFd), destFd := CloseFd(f.destFd))
  }

  /** What one turn of the completion loop leaves behind; `shut` says whether it closed the files. */
  predicate Reaps(s: State, s': State, t: Tag, r': Chunk, shut: bool) {
    && s.pc.Reap? && s.cq != [] && s.cq[0] == t && t in s.jobs && s.jobs[t].stage.Done? && IsRunner(s, t.rid)
    && (var i := t.rid;
        var r := s.runners[i];
        var f := FileOf(s, i);
        && SamePlace(r, r') && r'.alive == r.alive && r'.block == r.block
        && r'.jobsRunning == r.jobsRunning - 1
        && r'.writeOffset == r.writeOffset + Copied(r, t.kind, s.jobs[t].stage.res)
        && (r'.savedError && !r.savedError ==> r'.errorChunks == f.chunksRemaining)
        && (r.savedError ==> r'.savedError && r'.errorChunks == r.errorChunks)
        && shut == (r'.savedError && !r.savedError && f.chunksRemaining == 1)
        && s' == s.(runners := s.runners[i := r'],
                    totalCopied := s.totalCopied + Copied(r, t.kind, s.jobs[t].stage.res),
                    jobs := s.jobs - {t}, cq := s.cq[1..], submissionsRunning := s.submissionsRunning - 1,
                    files := if shut then s.files[r.file := Shut(f)] else s.files,
                    fdsUsed := if shut then s.fdsUsed - OpenCount(f) else s.fdsUsed,
                    pendingContinue := if Judge(r').Reschedule? then s.pendingContinue + [i] else s.pendingContinue,
                    pc := match Judge(r')
                          case Finished => Drop(i, true, false, ToReap)
                          case Failed => Drop(i, false, true, ToReap)
                          case _ => Reap))
  }

  /** What the runner's own invariant says about the completion. */
  predicate GoodVerdict(s: State, t: Tag, r': Chunk)
    requires IsRunner(s, t.rid)
  {
    var i := t.rid;
    var other := if t.kind.Read? then Tag(i, Write) else Tag(i, Read);
    && (Judge(r').Continue? <==> other in s.jobs)
    && (Judge(r').Finished? ==> !r'.savedError && r'.writeOffset == End(r'))
    && (Judge(r').Reschedule? ==> !r'.savedError && r'.writeOffset < End(r') && r'.block.Some?)
  }

  lemma ReapIsReaps(s: State)
    requires Enabled(s, ReapOne) && FileOf(s, s.cq[0].rid).chunksRemaining >= 0
    requires var t := s.cq[0]; var r := s.runners[t.rid]; var f := FileOf(s, t.rid);
      var r' := Absorb(r, t.kind, s.jobs[t].stage.res, f.align, f.chunksRemaining);
      r'.writeOffset == r.writeOffset + Copied(r, t.kind, s.jobs[t].stage.res)
    ensures var t := s.cq[0]; var r := s.runners[t.rid]; var f := FileOf(s, t.rid);
      var r' := Absorb(r, t.kind, s.jobs[t].stage.res, f.align, f.chunksRemaining);
      && Reaps(s, AfterReap(s, t), t, r', r'.savedError && !r.savedError && f.chunksRemaining == 1)
  {
    hide Absorb, Copied, AfterReap, Reaps;
    var t := s.cq[0];
    var r, f := s.runners[t.rid], FileOf(s, t.rid);
    var r' := Absorb(r, t.kind, s.jobs[t].stage.res, f.align, f.chunksRemaining);
    AbsorbKeeps(r, t.kind, s.jobs[t].stage.res, f.align, f.chunksRemaining);
    if r'.savedError && !r.savedError {
      ReapSaves(s, t, r');
    } else {
      ReapGoesOn(s, t, r');
    }
  }

  /** What `Reaps` asks of the runner. */
  predicate Taken(s: State, t: Tag, r': Chunk)
    requires Enabled(s, ReapOne) && t == s.cq[0] && FileOf(s, t.rid).chunksRemaining >= 0
  {
    var r, f := s.runners[t.rid], FileOf(s, t.rid);
    && r' == Absorb(r, t.kind, s.jobs[t].stage.res, f.align, f.chunksRemaining)
    && SamePlace(r, r') && r'.alive == r.alive && r'.block == r.block && r'.jobsRunning == r.jobsRunning - 1
    && r'.writeOffset == r.writeOffset + Copied(r, t.kind, s.jobs[t].stage.res)
    && (r'.savedError && !r.savedError ==> r'.errorChunks == f.chunksRemaining)
    && (r.savedError ==> r'.savedError && r'.errorChunks == r.errorChunks)
  }

  lemma ReapSaves(s: State, t: Tag, r': Chunk)
    requires Enabled(s, ReapOne) && t == s.cq[0] && FileOf(s, t.rid).chunksRemaining >= 0 && Taken(s, t, r')
    requires r'.savedError && !s.runners[t.rid].savedError
    ensures Reaps(s, AfterReap(s, t), t, r', FileOf(s, t.rid).chunksRemaining == 1)
  {
    hide Absorb, Copied;
  }

  lemma ReapGoesOn(s: State, t: Tag, r': Chunk)
    requires Enabled(s, ReapOne) && t == s.cq[0] && FileOf(s, t.rid).chunksRemaining >= 0 && Taken(s, t, r')
    requires r'.savedError ==> s.runners[t.rid].savedError
    ensures Reaps(s, AfterReap(s, t), t, r', false)
  {
    hide Absorb, Copied, CloseIfLast;
  }

  /** What a completion does not touch. */
  lemma AbsorbKeeps(r: Chunk, kind: Kind, res: int, align: nat, chunks: nat)
    ensures var r' := Absorb(r, kind, res, align, chunks);
      && SamePlace(r, r') && r'.alive == r.alive && r'.block == r.block && r'.jobsRunning == r.jobsRunning - 1
      && (r'.savedError && !r.savedError ==> r'.errorChunks == chunks)
      && (r.savedError ==> r'.savedError && r'.errorChunks == r.errorChunks)
  {
    hide AlignDown, BytesToRead;
  }

  lemma ReapDone(cq: seq<Tag>, jobs: map<Tag, Job>)
    requires ListsDone(cq, jobs) && cq != []
    ensures ListsDone(cq[1..], jobs - {cq[0]})
  {
    var cq', jobs' := cq[1..], jobs - {cq[0]};
    forall k | 0 <= k < |cq'|
      ensures cq'[k] in jobs' && jobs'[cq'[k]].stage.Done?
    {
      assert cq'[k] == cq[k + 1];
    }
    forall t | t in jobs' && jobs'[t].stage.Done?
      ensures t in cq'
    {
      assert t in cq;
      var k :| 0 <= k < |cq| && cq[k] == t;
      assert cq'[k - 1] == t;
    }
  }

  lemma ReapSubmissions(s: State)
    requires ListsQueued(s.sq, s.jobs) && Chained(s.sq, s.jobs)
    requires s.cq != [] && s.cq[0] in s.jobs && s.jobs[s.cq[0]].stage.Done?
    ensures ListsQueued(s.sq, s.jobs - {s.cq[0]}) && Chained(s.sq, s.jobs - {s.cq[0]})
    ensures |s.jobs - {s.cq[0]}| == |s.jobs| - 1
  {
    var jobs' := s.jobs - {s.cq[0]};
    QueuedUntouched(s.sq, s.jobs, jobs');
    assert s.sq == s.sq[0..];
    ChainedTail(s.sq, s.jobs, jobs', 0);
    assert s.jobs == jobs'[s.cq[0] := s.jobs[s.cq[0]]];
  }

  lemma ReapRings(s: State, s': State, t: Tag, r': Chunk, shut: bool)
    requires Rings(s) && Reaps(s, s', t, r', shut)
    ensures Rings(s')
  {
    hide ListsQueued, ListsDone, Chained, ReadsFirst, Judge;
    ReapDone(s.cq, s.jobs);
    ReapSubmissions(s);
    ReadsFirstTail(s.cq);
  }

  lemma ReadsFirstTail(cq: seq<Tag>)
    requires ReadsFirst(cq) && cq != []
    ensures ReadsFirst(cq[1..])
  {
  }

  lemma ReapPlaces(s: State, s': State, t: Tag, r': Chunk, shut: bool)
    requires Places(s) && Reaps(s, s', t, r', shut) && GoodVerdict(s, t, r')
    ensures Places(s')
  {
    var i := t.rid;
    assert PlaceOk(s, i);
    assert HasJob(s, i);
    hide Absorb;
    forall j | 0 <= j < |s'.runners|
      ensures PlaceOk(s', j)
    {
      assert PlaceOk(s, j);
      assert j != i ==> HasJob(s', j) == HasJob(s, j);
      assert j in s.pendingContinue + [i] <==> j in s.pendingContinue || j == i;
    }
  }

  lemma ReapData(s: State, s': State, t: Tag, r': Chunk, shut: bool)
    requires Data(s) && HeapOk(s) && |s.heap| == |s.mem| && Reaps(s, s', t, r', shut)
    requires RunnerOk(s.g, r', FileOf(s, t.rid),
      if t.kind.Read? then None else JobAt(s, t.rid, Read), if t.kind.Write? then None else JobAt(s, t.rid, Write),
      BufferOf(s, t.rid))
    ensures Data(s')
  {
    hide RunnerOk, NoWrongByte, Judge;
    var i := t.rid;
    forall f | 0 <= f < |s.files|
      ensures Evolves(s.files[f], s'.files[f])
      ensures !s'.files[f].destFd.NeverOpened? ==> NoWrongByte(s'.files[f].dest, s'.files[f].src)
    {
      EvolvesSameBytes(s.files[f], s'.files[f]);
    }
    hide Evolves;
    BystanderOk(s.g, r', FileOf(s, i), FileOf(s', i),
      if t.kind.Read? then None else JobAt(s, t.rid, Read), if t.kind.Write? then None else JobAt(s, t.rid, Write),
      BufferOf(s, i));
    assert BufferOf(s', i) == BufferOf(s, i);
    assert RunnerGood(s', i);
    DataStep(s, s', i);
  }

  lemma ShutSums(s: State, s': State, fid: nat)
    requires fid < |s.files| && s'.files == s.files[fid := Shut(s.files[fid])]
    ensures Sum(OpenCounts(s'.files)) == Sum(OpenCounts(s.files)) - OpenCount(s.files[fid])
    ensures Sum(HighCounts(s'.files)) >= Sum(HighCounts(s.files)) - OpenCount(s.files[fid])
  {
    hide Sum;
    var f' := Shut(s.files[fid]);
    assert OpenCounts(s'.files) == OpenCounts(s.files)[fid := OpenCount(f')];
    SumUpdate(OpenCounts(s.files), fid, OpenCount(f'));
    assert HighCounts(s'.files) == HighCounts(s.files)[fid := HighCount(f')];
    SumUpdate(HighCounts(s.files), fid, HighCount(f'));
  }

  lemma ReapFds(s: State, s': State, t: Tag, r': Chunk, shut: bool)
    requires Fds(s) && Reaps(s, s', t, r', shut) && s.runners[t.rid].alive
    requires FileOf(s, t.rid).chunksRemaining >= 1
    requires shut ==> FileOf(s, t.rid).added == FileOf(s, t.rid).parts
    requires shut ==> forall j :: 0 <= j < |s.runners| && j != t.rid && s.runners[j].file == s.runners[t.rid].file ==>
      !s.runners[j].alive
    requires GoodVerdict(s, t, r')
    ensures Fds(s')
  {
    hide Sum, OpenCounts, HighCounts, Judge, RunnerFds;
    var i := t.rid;
    assert RunnerFds(s, i);
    if shut {
      ShutSums(s, s', s.runners[i].file);
    }
    forall j | 0 <= j < |s'.runners|
      ensures IsRunner(s', j) && RunnerFds(s', j)
    {
      assert IsRunner(s, j) && RunnerFds(s, j);
      ReapRunnerFds(s, s', t, r', shut, j);
    }
    forall f | 0 <= f < |s'.files|
      ensures FileFds(s', f)
    {
      assert FileFds(s, f);
    }
  }

  lemma ReapRunnerFds(s: State, s': State, t: Tag, r': Chunk, shut: bool, j: nat)
    requires Reaps(s, s', t, r', shut) && s.runners[t.rid].alive && GoodVerdict(s, t, r')
    requires FileOf(s, t.rid).chunksRemaining >= 1 && IsRunner(s, j) && RunnerFds(s, j) && RunnerFds(s, t.rid)
    requires shut && j != t.rid && s.runners[j].file == s.runners[t.rid].file ==> !s.runners[j].alive
    ensures IsRunner(s', j) && RunnerFds(s', j)
  {
    hide Judge;
    var i := t.rid;
    TagShape(t);
    assert HasJob(s, i);
    assert j != i ==> HasJob(s', j) == HasJob(s, j);
    assert j in s.pendingContinue + [i] <==> j in s.pendingContinue || j == i;
  }

  lemma ReapOutcome(s: State, s': State, t: Tag, r': Chunk, shut: bool)
    requires Outcome(s) && Fds(s) && Reaps(s, s', t, r', shut) && s.runners[t.rid].alive
    requires !s.runners[t.rid].savedError ==> BothOpen(FileOf(s, t.rid))
    requires GoodVerdict(s, t, r')
    ensures Outcome(s')
  {
    hide Fds;
    forall j | 0 <= j < |s'.runners|
      ensures IsRunner(s', j) && RetiredOk(s', j)
    {
      assert IsRunner(s, j) && RetiredOk(s, j);
    }
  }

  lemma ReapHeap(s: State, s': State, t: Tag, r': Chunk, shut: bool)
    requires HeapOk(s) && Reaps(s, s', t, r', shut)
    ensures HeapOk(s')
  {
    hide Judge;
  }

  lemma ReapCounters(s: State, s': State, t: Tag, r': Chunk, shut: bool)
    requires Counters(s) && Reaps(s, s', t, r', shut) && s.runners[t.rid].alive
    ensures Counters(s')
  {
    hide Counters, Judge;
    CountersUpdate(s, s', t.rid, r');
  }

  lemma ReapLayout(s: State, s': State, t: Tag, r': Chunk, shut: bool)
    requires Layout(s) && Reaps(s, s', t, r', shut) && FileOf(s, t.rid).added > 0
    ensures Layout(s')
  {
    hide Layout, Judge;
    LayoutStep(s, s', s.runners[t.rid].file);
  }

  lemma NoReadBehindWrite(cq: seq<Tag>, jobs: map<Tag, Job>, i: nat)
    requires ListsDone(cq, jobs) && ReadsFirst(cq) && cq != [] && cq[0] == Tag(i, Write)
    ensures Tag(i, Read) in jobs ==> !jobs[Tag(i, Read)].stage.Done?
  {
    assert forall k :: 0 < k < |cq| ==> cq[k] != Tag(i, Read);
  }

  /** When a write's completion is at the head, the read of the same batch is gone already. */
  lemma ReadGoneFirst(s: State, i: nat)
    requires Rings(s) && Data(s) && s.cq != [] && s.cq[0] == Tag(i, Write) && IsRunner(s, i)
    ensures Tag(i, Read) !in s.jobs
  {
    NoReadBehindWrite(s.cq, s.jobs, i);
    assert RunnerGood(s, i);
    assert s.cq[0] in s.jobs && s.jobs[s.cq[0]].stage.Done?;
    hide Rings, Data, RunnerOk;
    WriteDoneFirst(s.g, s.runners[i], FileOf(s, i), JobAt(s, i, Read), s.jobs[Tag(i, Write)], BufferOf(s, i));
  }

  lemma WriteDoneFirst(g: Geometry, r: Chunk, f: File, rj: Option<Job>, wr: Job, buf: seq<byte>)
    requires RunnerOk(g, r, f, rj, Some(wr), buf) && wr.stage.Done?
    ensures rj.Some? ==> rj.value.stage.Done?
  {
    hide ChunkSize, Fits, Pad, RoundUp;
  }

  lemma JobsMeanAlive(g: Geometry, r: Chunk, f: File, rj: Option<Job>, wj: Option<Job>, buf: seq<byte>)
    requires RunnerOk(g, r, f, rj, wj, buf) && (rj.Some? || wj.Some?)
    ensures r.alive && r.block.Some? && wj.Some?
  {
    hide ChunkSize, Fits, Pad, RoundUp;
  }

  /** Everything the runner's invariant gives for the completion at the head of the ring. */
  lemma ReapLocal(s: State, t: Tag, r': Chunk)
    requires Layout(s) && Rings(s) && Data(s) && Enabled(s, ReapOne) && t == s.cq[0]
    requires FileOf(s, t.rid).chunksRemaining >= 0
    requires r' == Absorb(s.runners[t.rid], t.kind, s.jobs[t].stage.res, FileOf(s, t.rid).align, FileOf(s, t.rid).chunksRemaining)
    ensures s.runners[t.rid].alive
    ensures GoodVerdict(s, t, r')
    ensures r'.writeOffset == s.runners[t.rid].writeOffset + Copied(s.runners[t.rid], t.kind, s.jobs[t].stage.res)
    ensures RunnerOk(s.g, r', FileOf(s, t.rid),
      if t.kind.Read? then None else JobAt(s, t.rid, Read), if t.kind.Write? then None else JobAt(s, t.rid, Write),
      BufferOf(s, t.rid))
  {
    hide RunnerOk, Layout, Rings, Data, Absorb, ValidGeometry;
    var i := t.rid;
    UnfoldData(s);
    LayoutSizes(s);
    var r, f, buf := s.runners[i], FileOf(s, i), BufferOf(s, i);
    if t.kind.Write? {
      assert t == Tag(i, Write);
      ReadGoneFirst(s, i);
    } else {
      assert t == Tag(i, Read);
    }
    var rj, wj := JobAt(s, i, Read), JobAt(s, i, Write);
    var chunks: nat := f.chunksRemaining;
    JobsMeanAlive(s.g, r, f, rj, wj, buf);
    if t.kind.Read? {
      ReapReadOk(s.g, r, f, s.jobs[t], wj.value, buf, chunks);
    } else {
      ReapWriteOk(s.g, r, f, s.jobs[t], buf, f.align, chunks);
      AbsorbKeeps(r, t.kind, s.jobs[t].stage.res, f.align, chunks);
    }
  }

  lemma ReaperAlive(s: State, t: Tag)
    requires Data(s) && t in s.jobs && IsRunner(s, t.rid)
    ensures s.runners[t.rid].alive && HasJob(s, t.rid)
  {
    hide RunnerOk, NoWrongByte;
    assert RunnerGood(s, t.rid);
    TagShape(t);
    JobsMeanAlive(s.g, s.runners[t.rid], FileOf(s, t.rid), JobAt(s, t.rid, Read), JobAt(s, t.rid, Write), BufferOf(s, t.rid));
  }

  lemma ReaperFiles(s: State, i: nat)
    requires Fds(s) && IsRunner(s, i) && s.runners[i].alive && HasJob(s, i)
    ensures !s.runners[i].savedError ==> BothOpen(FileOf(s, i))
  {
    assert RunnerFds(s, i);
  }

  lemma AloneIfLast(s: State, i: nat)
    requires Layout(s) && Counters(s) && IsRunner(s, i) && s.runners[i].alive && FileOf(s, i).chunksRemaining == 1
    ensures FileOf(s, i).added == FileOf(s, i).parts
    ensures forall j :: 0 <= j < |s.runners| && j != i && s.runners[j].file == s.runners[i].file ==> !s.runners[j].alive
  {
    hide Layout, Counters;
    LastIsAlone(s, i, i);
    forall j | 0 <= j < |s.runners| && j != i && s.runners[j].file == s.runners[i].file
      ensures !s.runners[j].alive
    {
      LastIsAlone(s, i, j);
    }
  }

  lemma ReapStep(s: State)
    requires Inv(s) && Enabled(s, ReapOne)
    ensures Inv(Next(s, ReapOne))
  {
    hide Layout, Data, Counters, Fds, Outcome, Places, Rings, HeapOk, AfterReap, Absorb, RunnerOk, Reaps, GoodVerdict;
    var t := s.cq[0];
    var i := t.rid;
    var s' := AfterReap(s, t);
    var f := FileOf(s, i);
    ReaperAlive(s, t);
    ReaperFiles(s, i);
    LayoutSizes(s);
    LiveMeansRemaining(s, i);
    var r' := Absorb(s.runners[i], t.kind, s.jobs[t].stage.res, f.align, f.chunksRemaining);
    var shut := r'.savedError && !s.runners[i].savedError && f.chunksRemaining == 1;
    ReapLocal(s, t, r');
    ReapIsReaps(s);
    if shut {
      AloneIfLast(s, i);
    }
    ReapRings(s, s', t, r', shut);
    ReapPlaces(s, s', t, r', shut);
    ReapData(s, s', t, r', shut);
    ReapFds(s, s', t, r', shut);
    ReapOutcome(s, s', t, r', shut);
    ReapHeap(s, s', t, r', shut);
    ReapCounters(s, s', t, r', shut);
    ReapLayout(s, s', t, r', shut);
  }

  // ---------------------------------------------------------------- deleting a runner

  /** What deleting runner i leaves behind; `shut` says whether its files were closed first. */
  predicate Drops(s: State, s': State, i: nat, shut: bool) {
    && s.pc.Drop? && s.pc.rid == i && IsRunner(s, i)
    && (var r := s.runners[i];
        var f := s.files[r.file];
        var f1 := if shut then Shut(f) else f;
        && shut == (s.pc.close && f.chunksRemaining == 1)
        && s' == s.(runners := s.runners[i := r.(alive := false)],
                    files := s.files[r.file := f1.(chunksRemaining := f.chunksRemaining - 1)],
                    fdsUsed := if shut then s.fdsUsed - OpenCount(f) else s.fdsUsed,
                    keepAlive := s.keepAlive - 1,
                    heap := if r.block.Some? && r.block.value < |s.heap| then s.heap[r.block.value := Free] else s.heap,
                    errored := s'.errored,
                    pc := PcAfter(s.pc.back)))
    && (s.errored || s.pc.error ==> s'.errored)
  }

  lemma DropIsDrops(s: State, closed: bool)
    requires Enabled(s, DropRunner(closed))
    ensures Drops(s, AfterDrop(s, closed), s.pc.rid, s.pc.close && FileOf(s, s.pc.rid).chunksRemaining == 1)
  {
  }

  lemma DropPlaces(s: State, s': State, i: nat, shut: bool)
    requires Places(s) && Drops(s, s', i, shut)
    ensures Places(s')
  {
    forall j | 0 <= j < |s'.runners|
      ensures PlaceOk(s', j)
    {
      assert PlaceOk(s, j);
      assert HasJob(s', j) == HasJob(s, j);
    }
  }

  lemma DropHeap(s: State, s': State, i: nat, shut: bool)
    requires HeapOk(s) && Drops(s, s', i, shut) && s.runners[i].alive
    ensures HeapOk(s')
  {
  }

  lemma DropData(s: State, s': State, i: nat, shut: bool)
    requires Data(s) && HeapOk(s) && |s.heap| == |s.mem| && Drops(s, s', i, shut) && !HasJob(s, i)
    ensures Data(s')
  {
    hide RunnerOk, NoWrongByte;
    forall f | 0 <= f < |s.files|
      ensures Evolves(s.files[f], s'.files[f])
      ensures !s'.files[f].destFd.NeverOpened? ==> NoWrongByte(s'.files[f].dest, s'.files[f].src)
    {
      EvolvesSameBytes(s.files[f], s'.files[f]);
    }
    hide Evolves;
    assert RunnerGood(s, i);
    BystanderOk(s.g, s.runners[i], FileOf(s, i), FileOf(s', i), None, None, BufferOf(s, i));
    DeletedOk(s.g, s.runners[i], FileOf(s', i), BufferOf(s, i));
    assert BufferOf(s', i) == BufferOf(s, i);
    assert RunnerGood(s', i);
    DataStep(s, s', i);
  }

  lemma DeletedOk(g: Geometry, r: Chunk, f: File, buf: seq<byte>)
    requires RunnerOk(g, r, f, None, None, buf)
    ensures RunnerOk(g, r.(alive := false), f, None, None, buf)
  {
    hide ChunkSize, Fits, Pad, RoundUp;
  }

  lemma DropSums(s: State, s': State, i: nat, shut: bool)
    requires Drops(s, s', i, shut)
    ensures Sum(OpenCounts(s'.files)) == Sum(OpenCounts(s.files)) - (s.fdsUsed - s'.fdsUsed)
    ensures Sum(HighCounts(s'.files)) >= Sum(HighCounts(s.files)) - (s.fdsUsed - s'.fdsUsed)
  {
    hide Sum;
    var fid := s.runners[i].file;
    var f' := s'.files[fid];
    assert OpenCounts(s'.files) == OpenCounts(s.files)[fid := OpenCount(f')];
    SumUpdate(OpenCounts(s.files), fid, OpenCount(f'));
    assert HighCounts(s'.files) == HighCounts(s.files)[fid := HighCount(f')];
    SumUpdate(HighCounts(s.files), fid, HighCount(f'));
  }

  lemma DropFds(s: State, s': State, i: nat, shut: bool)
    requires Fds(s) && Drops(s, s', i, shut)
    requires shut ==> FileOf(s, i).added == FileOf(s, i).parts
    requires shut ==> forall j :: 0 <= j < |s.runners| && j != i && s.runners[j].file == s.runners[i].file ==>
      !s.runners[j].alive
    ensures Fds(s')
  {
    assert RunnerFds(s, i);
    DropSums(s, s', i, shut);
    hide Sum, OpenCounts, HighCounts;
    forall j | 0 <= j < |s'.runners|
      ensures IsRunner(s', j) && RunnerFds(s', j)
    {
      assert IsRunner(s, j) && RunnerFds(s, j);
      assert HasJob(s', j) == HasJob(s, j);
    }
    forall f | 0 <= f < |s'.files|
      ensures FileFds(s', f)
    {
      assert FileFds(s, f);
    }
  }

  lemma DropOutcome(s: State, s': State, i: nat, shut: bool)
    requires Outcome(s) && Places(s) && Drops(s, s', i, shut)
    ensures Outcome(s')
  {
    assert PlaceOk(s, i);
    assert s.pc.Drop? && !s.pc.error ==> !FileOf(s, i).destFd.NeverOpened?;
    hide Places, PlaceOk;
    forall j | 0 <= j < |s'.runners|
      ensures IsRunner(s', j) && RetiredOk(s', j)
    {
      assert IsRunner(s, j) && RetiredOk(s, j);
    }
  }

  lemma DropCounters(s: State, s': State, i: nat, shut: bool)
    requires Counters(s) && Drops(s, s', i, shut) && s.runners[i].alive && s.runners[i].jobsRunning == 0
    ensures Counters(s')
  {
    hide Counters;
    CountersUpdate(s, s', i, s.runners[i].(alive := false));
  }

  lemma DropLayout(s: State, s': State, i: nat, shut: bool)
    requires Layout(s) && Drops(s, s', i, shut) && FileOf(s, i).added > 0
    ensures Layout(s')
  {
    hide Layout;
    LayoutStep(s, s', s.runners[i].file);
  }

  lemma DropRings(s: State, s': State, i: nat, shut: bool)
    requires Rings(s) && Drops(s, s', i, shut)
    ensures Rings(s')
  {
    hide Rings;
    RingsSame(s, s');
  }

  lemma DroppedIsIdle(s: State)
    requires Places(s) && Data(s) && s.pc.Drop? && IsRunner(s, s.pc.rid)
    ensures s.runners[s.pc.rid].alive && !HasJob(s, s.pc.rid) && s.runners[s.pc.rid].jobsRunning == 0
  {
    var i := s.pc.rid;
    assert PlaceOk(s, i);
    assert RunnerGood(s, i);
    JobCountOf(s.g, s.runners[i], FileOf(s, i), None, None, BufferOf(s, i)) by { hide RunnerOk; }
  }

  lemma DropStep(s: State, closed: bool)
    requires Inv(s)
    requires Enabled(s, DropRunner(closed))
    ensures Inv(AfterDrop(s, closed))
  {
    var i := s.pc.rid;
    var s' := AfterDrop(s, closed);
    var shut := s.pc.close && FileOf(s, i).chunksRemaining == 1;
    assert |s.heap| == |s.mem|;
    hide Layout, Data, Counters, Fds, Outcome, Places, Rings, HeapOk, AfterDrop;
    DropIsDrops(s, closed);
    DroppedIsIdle(s);
    LiveMeansRemaining(s, i);
    hide Drops;
    if shut {
      forall j | 0 <= j < |s.runners| && j != i && s.runners[j].file == s.runners[i].file
        ensures !s.runners[j].alive
      {
        LastIsAlone(s, i, j);
      }
      LastIsAlone(s, i, i);
    }
    DropPlaces(s, s', i, shut);
    DropHeap(s, s', i, shut);
    DropData(s, s', i, shut);
    DropFds(s, s', i, shut);
    DropOutcome(s, s', i, shut);
    DropCounters(s, s', i, shut);
    DropLayout(s, s', i, shut);
    DropRings(s, s', i, shut);
  }

  // ---------------------------------------------------------------- the end of a pass

  lemma CheckHeap(s: State)
    requires HeapOk(s) && s.adder.Joined? && s.keepAlive == 0
    ensures HeapOk(AfterCheck(s))
  {
  }

  lemma CheckStep(s: State)
    requires Inv(s)
    requires Enabled(s, CheckDone)
    ensures Inv(AfterCheck(s))
  {
    var s' := AfterCheck(s);
    hide Layout, Data, Counters, Fds, Outcome, Places, Rings, HeapOk;
    if s.adder.Joined? && s.keepAlive == 0 {
      CheckHeap(s);
      LayoutSame(s, s');
      PlacesSame(s, s');
      RingsSame(s, s');
      DataSame(s, s');
      FdsSame(s, s');
      CountersSame(s, s');
      OutcomeSame(s, s');
    } else {
      MoveOn(s, s');
    }
  }
}
