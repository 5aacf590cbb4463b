/** The kernel's steps keep the invariant. */
module KernelSteps {
  import opened Arithmetic
  import opened ChunkPlan
  import opened Runner
  import opened Engine
  import opened ChunkInvariant
  import opened Invariant
  import opened Frames
  import opened RingSteps

  lemma PushDone(cq: seq<Tag>, jobs: map<Tag, Job>, jobs': map<Tag, Job>, t: Tag)
    requires ListsDone(cq, jobs)
    requires t in jobs && !jobs[t].stage.Done? && t in jobs' && jobs'[t].stage.Done?
    requires forall u :: u in jobs && jobs[u].stage.Done? ==> u in jobs' && jobs'[u].stage.Done?
    requires forall u :: u in jobs' && jobs'[u].stage.Done? && u != t ==> u in jobs && jobs[u].stage.Done?
    ensures ListsDone(cq + [t], jobs')
  {
    var cq' := cq + [t];
    forall u | u in jobs' && jobs'[u].stage.Done?
      ensures u in cq'
    {
      if u == t {
        assert cq'[|cq|] == t;
      } else {
        assert u in cq;
      }
    }
  }

  lemma PushReadsFirst(cq: seq<Tag>, t: Tag)
    requires ReadsFirst(cq) && (t.kind.Read? ==> Tag(t.rid, Write) !in cq)
    ensures ReadsFirst(cq + [t])
  {
    var cq' := cq + [t];
    forall j, k | 0 <= j < k < |cq'| && cq'[k].kind.Read?
      ensures cq'[j] != Tag(cq'[k].rid, Write)
    {
      assert cq'[j] == cq[j];
      assert cq[j] in cq;
    }
  }

  lemma DoneAreJobs(cq: seq<Tag>, jobs: map<Tag, Job>)
    requires ListsDone(cq, jobs)
    ensures forall t :: t in cq ==> t in jobs && jobs[t].stage.Done?
  {
  }

  /** The kernel moves jobs between stages and posts one completion. */
  predicate Posts(s: State, s': State, t: Tag) {
    && t in s.jobs && s'.jobs.Keys == s.jobs.Keys
    && !s.jobs[t].stage.Done? && s'.jobs[t].stage.Done?
    && (forall u :: u in s.jobs ==>
      && (s'.jobs[u].stage.Queued? <==> s.jobs[u].stage.Queued?)
      && (u != t ==> (s'.jobs[u].stage.Done? <==> s.jobs[u].stage.Done?))
      && s'.jobs[u].linked == s.jobs[u].linked)
    && s' == s.(mem := s'.mem, files := s'.files, jobs := s'.jobs, cq := s.cq + [t])
  }

  lemma PostRings(s: State, s': State, t: Tag)
    requires Rings(s) && Posts(s, s', t)
    requires t.kind.Read? ==> Tag(t.rid, Write) in s.jobs && !s.jobs[Tag(t.rid, Write)].stage.Done?
    ensures Rings(s')
  {
    assert s.sq == s.sq[0..];
    ChainedTail(s.sq, s.jobs, s'.jobs, 0);
    QueuedUntouched(s.sq, s.jobs, s'.jobs);
    PushDone(s.cq, s.jobs, s'.jobs, t);
    DoneAreJobs(s.cq, s.jobs);
    PushReadsFirst(s.cq, t);
    assert |s'.jobs| == |s.jobs| by { assert |s'.jobs.Keys| == |s.jobs.Keys|; }
    hide ListsQueued, ListsDone, Chained, ReadsFirst;
  }

  lemma PostFrame(s: State, s': State, t: Tag)
    requires Inv(s) && Posts(s, s', t) && s'.files == s.files
    requires |s'.mem| == |s.mem|
    ensures Places(s') && HeapOk(s') && Fds(s') && Counters(s') && Outcome(s')
  {
    hide Layout, Data, Counters, Fds, Outcome, Places, Rings, HeapOk;
    PlacesSame(s, s');
    HeapSame(s, s');
    FdsSame(s, s');
    CountersSame(s, s');
    OutcomeSame(s, s');
  }

  // ---------------------------------------------------------------- reads

  lemma ReadParts(s: State, i: nat)
    requires Data(s) && IsRunner(s, i)
    requires Tag(i, Read) in s.jobs && s.jobs[Tag(i, Read)].stage.Ready?
    ensures s.runners[i].alive && s.runners[i].block.Some?
    ensures Tag(i, Write) in s.jobs && s.jobs[Tag(i, Write)].stage.Blocked?
  {
    assert RunnerGood(s, i);
    ReadPartsLocal(s.g, s.runners[i], FileOf(s, i), s.jobs[Tag(i, Read)], JobAt(s, i, Write), BufferOf(s, i)) by {
      hide RunnerOk;
    }
  }

  lemma ReadPartsLocal(g: Geometry, r: Chunk, f: File, rd: Job, wj: Option<Job>, buf: seq<byte>)
    requires RunnerOk(g, r, f, Some(rd), wj, buf) && rd.stage.Ready?
    ensures r.alive && r.block.Some?
    ensures wj.Some? && wj.value.stage.Blocked?
  {
    hide ChunkSize, Fits, Pad, RoundUp;
  }

  lemma ReadData(s: State, s': State, i: nat, res: int, data: seq<byte>)
    requires Layout(s) && Data(s) && HeapOk(s) && Enabled(s, RunRead(i, res, data))
    requires s.runners[i].alive && s.runners[i].block.Some?
    requires Tag(i, Write) in s.jobs && s.jobs[Tag(i, Write)].stage.Blocked?
    requires s' == AfterRead(s, i, res, data)
    ensures Data(s')
  {
    hide RunnerOk, NoWrongByte, Evolves, PartAt, ChunkSize, PartsOf, Plannable, ValidGeometry;
    forall f | 0 <= f < |s.files|
      ensures Evolves(s.files[f], s'.files[f])
    {
      EvolvesReflexive(s.files[f]);
    }
    assert RunnerGood(s, i);
    var b := s.runners[i].block.value;
    assert s.heap[b] == Held(i);
    ReadOk(s.g, s.runners[i], FileOf(s, i), s.jobs[Tag(i, Read)], s.jobs[Tag(i, Write)], BufferOf(s, i), res, data);
    assert RunnerGood(s', i);
    DataStep(s, s', i);
  }

  lemma ReadLayout(s: State, s': State, i: nat, res: int, data: seq<byte>)
    requires Layout(s) && Counters(s) && Enabled(s, RunRead(i, res, data))
    requires s' == AfterRead(s, i, res, data)
    ensures Layout(s')
  {
    LiveMeansRemaining(s, i);
    hide Counters, FileLaid, RunnerLaid, AdderOk;
    LayoutStep(s, s', s.runners[i].file);
  }

  lemma ReadPosts(s: State, s': State, i: nat, res: int, data: seq<byte>)
    requires Enabled(s, RunRead(i, res, data)) && s' == AfterRead(s, i, res, data)
    ensures Posts(s, s', Tag(i, Read)) && s'.files == s.files && |s'.mem| == |s.mem|
  {
    hide Overwrite, KernelRead;
  }

  lemma ReadStep(s: State, i: nat, res: int, data: seq<byte>)
    requires Inv(s)
    requires Enabled(s, RunRead(i, res, data))
    ensures Inv(Next(s, RunRead(i, res, data)))
  {
    hide Layout, Data, Counters, Fds, Outcome, Places, Rings, HeapOk, Posts, AfterRead;
    var s' := AfterRead(s, i, res, data);
    ReadParts(s, i);
    ReadPosts(s, s', i, res, data);
    ReadData(s, s', i, res, data);
    ReadLayout(s, s', i, res, data);
    PostRings(s, s', Tag(i, Read));
    PostFrame(s, s', Tag(i, Read));
  }

  // ---------------------------------------------------------------- cancelled writes

  lemma CancelData(s: State, s': State, i: nat)
    requires Data(s) && HeapOk(s) && |s.heap| == |s.mem| && i < |s.runners|
    requires Tag(i, Write) in s.jobs && s.jobs[Tag(i, Write)].stage.Cancelled?
    requires s' == AfterCancel(s, i)
    ensures Data(s')
  {
    hide RunnerOk, NoWrongByte, Evolves;
    forall f | 0 <= f < |s.files|
      ensures Evolves(s.files[f], s'.files[f])
    {
      EvolvesReflexive(s.files[f]);
    }
    assert IsRunner(s, i) && RunnerGood(s, i);
    CancelOk(s.g, s.runners[i], FileOf(s, i), JobAt(s, i, Read), s.jobs[Tag(i, Write)], BufferOf(s, i));
    assert JobAt(s', i, Read) == JobAt(s, i, Read) && BufferOf(s', i) == BufferOf(s, i);
    assert RunnerGood(s', i);
    DataStep(s, s', i);
  }

  lemma CancelPosts(s: State, s': State, i: nat)
    requires Rings(s) && Enabled(s, PostCancel(i)) && s' == AfterCancel(s, i)
    ensures Posts(s, s', Tag(i, Write)) && s'.files == s.files && s'.mem == s.mem && i < |s.runners|
  {
    hide ListsQueued, ListsDone, Chained, ReadsFirst;
    assert Tag(i, Write) in s.jobs;
  }

  lemma CancelStep(s: State, i: nat)
    requires Inv(s)
    requires Enabled(s, PostCancel(i))
    ensures Inv(Next(s, PostCancel(i)))
  {
    hide Layout, Data, Counters, Fds, Outcome, Places, Rings, HeapOk, Posts;
    var s' := AfterCancel(s, i);
    CancelPosts(s, s', i);
    SameBlocks(s);
    CancelData(s, s', i);
    LayoutSame(s, s');
    PostRings(s, s', Tag(i, Write));
    PostFrame(s, s', Tag(i, Write));
  }

  // ---------------------------------------------------------------- writes

  lemma WriteFile(s: State, i: nat, res: int)
    requires Layout(s) && Data(s) && Enabled(s, RunWrite(i, res))
    ensures var f, f' := FileOf(s, i), FileOf(AfterWrite(s, i, res), i);
      && f' == f.(dest := f'.dest)
      && !f.destFd.NeverOpened?
      && Keeps(f.dest, f'.dest, f.src)
      && NoWrongByte(f'.dest, f.src)
  {
    hide RunnerOk, NoWrongByte, Keeps, PartAt, ChunkSize, PartsOf, Plannable, ValidGeometry, WriteAt, Slice;
    var f := FileOf(s, i);
    var wr := s.jobs[Tag(i, Write)];
    var n: nat := if res > 0 then res else 0;
    assert RunnerGood(s, i);
    WriteSendsSource(s.g, s.runners[i], f, JobAt(s, i, Read), wr, BufferOf(s, i), n);
    WriterHasDest(s.g, s.runners[i], f, JobAt(s, i, Read), wr, BufferOf(s, i));
    WriteKeepsAgreement(f.dest, f.src, wr.request.off, Slice(BufferOf(s, i), wr.request.pos, n));
  }

  lemma WriterHasDest(g: Geometry, r: Chunk, f: File, rj: Option<Job>, wr: Job, buf: seq<byte>)
    requires RunnerOk(g, r, f, rj, Some(wr), buf)
    ensures !f.destFd.NeverOpened?
  {
    hide ChunkSize, Fits, Pad, RoundUp;
  }

  lemma WriteData(s: State, s': State, i: nat, res: int)
    requires Layout(s) && Data(s) && HeapOk(s) && Enabled(s, RunWrite(i, res))
    requires s' == AfterWrite(s, i, res)
    ensures Data(s')
  {
    WriteFile(s, i, res);
    hide RunnerOk, NoWrongByte, Keeps, PartAt, ChunkSize, PartsOf, Plannable, ValidGeometry, WriteAt, Slice;
    forall f | 0 <= f < |s.files|
      ensures Evolves(s.files[f], s'.files[f])
    {
      EvolvesReflexive(s.files[f]);
    }
    hide Evolves;
    assert RunnerGood(s, i);
    WriteOk(s.g, s.runners[i], FileOf(s, i), JobAt(s, i, Read), s.jobs[Tag(i, Write)], BufferOf(s, i), res);
    assert JobAt(s', i, Read) == JobAt(s, i, Read) && BufferOf(s', i) == BufferOf(s, i);
    assert RunnerGood(s', i);
    DataStep(s, s', i);
  }

  lemma WriteFds(s: State, s': State, i: nat, f': File)
    requires Fds(s) && IsRunner(s, i) && f' == FileOf(s, i).(dest := f'.dest)
    requires s' == s.(files := s.files[s.runners[i].file := f'], jobs := s'.jobs, cq := s'.cq)
    requires s'.jobs.Keys == s.jobs.Keys
    ensures Fds(s')
  {
    hide Sum;
    assert OpenCounts(s'.files) == OpenCounts(s.files);
    assert HighCounts(s'.files) == HighCounts(s.files);
    forall j | 0 <= j < |s'.runners|
      ensures IsRunner(s', j) && RunnerFds(s', j)
    {
      assert IsRunner(s, j) && RunnerFds(s, j);
      assert HasJob(s', j) == HasJob(s, j);
    }
    forall f | 0 <= f < |s'.files|
      ensures FileFds(s', f)
    {
      assert FileFds(s, f);
    }
    if Chosen(s.pc).Some? && s.pc.rid < |s.runners| {
      assert IsRunner(s, s.pc.rid);
    }
  }

  lemma WriteOutcome(s: State, s': State, i: nat, f': File)
    requires Outcome(s) && IsRunner(s, i) && f' == FileOf(s, i).(dest := f'.dest)
    requires s' == s.(files := s.files[s.runners[i].file := f'], jobs := s'.jobs, cq := s'.cq)
    ensures Outcome(s')
  {
    forall j | 0 <= j < |s'.runners|
      ensures IsRunner(s', j) && RetiredOk(s', j)
    {
      assert IsRunner(s, j) && RetiredOk(s, j);
    }
  }

  /** A write changes one destination, one job and the completion ring. */
  predicate Writes(s: State, s': State, i: nat, f': File) {
    && IsRunner(s, i) && f' == FileOf(s, i).(dest := f'.dest)
    && s'.jobs.Keys == s.jobs.Keys
    && s' == s.(files := s.files[s.runners[i].file := f'], jobs := s'.jobs, cq := s'.cq)
  }

  lemma WriteIsWrites(s: State, s': State, i: nat, res: int)
    requires Enabled(s, RunWrite(i, res)) && s' == AfterWrite(s, i, res)
    ensures IsRunner(s', i) && Posts(s, s', Tag(i, Write)) && Writes(s, s', i, FileOf(s', i))
  {
    hide WriteAt, Slice;
  }

  lemma WriteRest(s: State, s': State, i: nat, f': File)
    requires Layout(s) && Places(s) && HeapOk(s) && Fds(s) && Counters(s) && Outcome(s) && Writes(s, s', i, f')
    ensures Layout(s') && Places(s') && HeapOk(s') && Fds(s') && Counters(s') && Outcome(s')
  {
    assert |s'.heap| == |s.heap|;
    LiveMeansRemaining(s, i);
    hide Layout, Counters, Fds, Outcome, Places, HeapOk;
    assert s'.runners == s.runners[i := s.runners[i]];
    LayoutStep(s, s', s.runners[i].file);
    CountersUpdate(s, s', i, s.runners[i]);
    WriteFds(s, s', i, f');
    WriteOutcome(s, s', i, f');
    PlacesSame(s, s');
    HeapSame(s, s');
  }

  lemma WriteStep(s: State, i: nat, res: int)
    requires Inv(s)
    requires Enabled(s, RunWrite(i, res))
    ensures Inv(Next(s, RunWrite(i, res)))
  {
    hide Layout, Data, Counters, Fds, Outcome, Places, Rings, HeapOk, Posts, Writes, AfterWrite;
    var s' := AfterWrite(s, i, res);
    WriteIsWrites(s, s', i, res);
    WriteData(s, s', i, res);
    PostRings(s, s', Tag(i, Write));
    WriteRest(s, s', i, FileOf(s', i));
  }
}
