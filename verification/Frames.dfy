/** What each group of the invariant depends on: a step that leaves those fields alone keeps it. */
module Frames {
  import opened Arithmetic
  import opened ChunkPlan
  import opened Runner
  import opened Engine
  import opened ChunkInvariant
  import opened Invariant

  predicate SameConfig(s: State, s': State) {
    s'.g == s.g && s'.ringSize == s.ringSize && s'.fdCap == s.fdCap
  }

  lemma AdderSame(s: State, s': State)
    requires AdderOk(s) && s'.adder == s.adder && s'.files == s.files && s'.runners == s.runners
    ensures AdderOk(s')
  {
  }

  lemma LayoutSame(s: State, s': State)
    requires Layout(s) && SameConfig(s, s')
    requires s'.files == s.files && s'.runners == s.runners
    requires |s'.heap| == |s.heap| && s'.mem == s.mem
    requires s'.adder == s.adder || AdderOk(s')
    ensures Layout(s')
  {
    if s'.adder == s.adder {
      AdderSame(s, s');
    }
    hide PartsOf, Plannable, PartAt, ChunkSize, AdderOk, ValidConfig;
    forall f | 0 <= f < |s'.files|
      ensures FileLaid(s', f)
    {
      assert FileLaid(s, f);
    }
    forall i | 0 <= i < |s'.runners|
      ensures RunnerLaid(s', i)
    {
      assert RunnerLaid(s, i);
    }
  }

  lemma PlacesSame(s: State, s': State)
    requires Places(s)
    requires s'.runners == s.runners && s'.pendingStart == s.pendingStart
    requires s'.pendingContinue == s.pendingContinue
    requires s'.jobs.Keys == s.jobs.Keys
    requires s'.pc == s.pc || (Chosen(s.pc).None? && Chosen(s'.pc).None?)
    requires s'.pc.Pick? ==>
      (s.pc.Pick? && s'.nextBuffer == s.nextBuffer) || (s'.pendingStart != [] && s'.pendingContinue == [] && s'.nextBuffer.Some?)
    ensures Places(s')
  {
    forall i | 0 <= i < |s'.runners|
      ensures PlaceOk(s', i)
    {
      assert PlaceOk(s, i);
      assert HasJob(s', i) == HasJob(s, i);
    }
  }

  lemma RingsSame(s: State, s': State)
    requires Rings(s)
    requires |s'.runners| >= |s.runners| && s'.sq == s.sq && s'.cq == s.cq && s'.jobs == s.jobs
    requires s'.submissionsRunning == s.submissionsRunning && s'.ringSize == s.ringSize
    requires Starting(s'.pc) ==> Starting(s.pc) || s.submissionsRunning + MAX_JOBS <= s.ringSize
    requires InPass(s'.pc) && s'.added ==> InPass(s.pc) && s.added
    requires s'.pc == Submit(false) ==> s.pc == Submit(false) || (InPass(s.pc) && s.added)
    ensures Rings(s')
  {
    hide ListsQueued, ListsDone, Chained, ReadsFirst;
  }

  lemma DataSame(s: State, s': State)
    requires Data(s) && s'.g == s.g
    requires s'.files == s.files && s'.runners == s.runners && s'.mem == s.mem && s'.jobs == s.jobs
    ensures Data(s')
  {
    hide RunnerOk, NoWrongByte;
    forall i | 0 <= i < |s'.runners|
      ensures IsRunner(s', i) && RunnerGood(s', i)
    {
      assert IsRunner(s, i) && RunnerGood(s, i);
    }
  }

  lemma HeapSame(s: State, s': State)
    requires HeapOk(s)
    requires s'.heap == s.heap && s'.runners == s.runners && s'.nextBuffer == s.nextBuffer
    ensures HeapOk(s')
  {
  }

  lemma FdsSame(s: State, s': State)
    requires Fds(s)
    requires s'.files == s.files && s'.runners == s.runners && s'.pendingStart == s.pendingStart
    requires s'.fdsUsed == s.fdsUsed && s'.failedLow == s.failedLow && s'.failedHigh == s.failedHigh
    requires s'.fdCap == s.fdCap
    requires s'.jobs.Keys == s.jobs.Keys && s'.pendingContinue == s.pendingContinue
    requires s'.pc == s.pc || (Chosen(s.pc).None? && Chosen(s'.pc).None?)
    ensures Fds(s')
  {
    hide OpenCounts, HighCounts, Sum, HighCount;
    forall i | 0 <= i < |s'.runners|
      ensures IsRunner(s', i) && RunnerFds(s', i)
    {
      assert IsRunner(s, i) && RunnerFds(s, i);
      assert HasJob(s', i) == HasJob(s, i);
    }
    forall f | 0 <= f < |s'.files|
      ensures FileFds(s', f)
    {
      assert FileFds(s, f);
    }
  }

  lemma CountersSame(s: State, s': State)
    requires Counters(s) && s'.g == s.g
    requires s'.files == s.files && s'.runners == s.runners
    requires s'.keepAlive == s.keepAlive && s'.submissionsRunning == s.submissionsRunning
    requires s'.totalToCopy == s.totalToCopy && s'.totalCopied == s.totalCopied
    requires s'.adder.Counted? == s.adder.Counted?
    ensures Counters(s')
  {
    hide Sum, Lives, LivesOf, Sizes, Writtens, JobCounts, PartAt, ChunkSize;
  }

  lemma OutcomeSame(s: State, s': State)
    requires Outcome(s)
    requires s'.files == s.files && s'.runners == s.runners
    requires s.errored ==> s'.errored
    requires s'.pc.Drop? || s.pc.Drop? ==> s'.pc == s.pc
    requires s'.failedHigh == s.failedHigh
    requires s'.pc.Exited? ==>
      || (s.pc.Exited? && s'.adder == s.adder && s'.keepAlive == s.keepAlive && s'.nextBuffer == s.nextBuffer)
      || (s'.adder.Joined? && s'.keepAlive == 0 && s'.nextBuffer.None?)
    ensures Outcome(s')
  {
    forall i | 0 <= i < |s'.runners|
      ensures IsRunner(s', i) && RetiredOk(s', i)
    {
      assert IsRunner(s, i) && RetiredOk(s, i);
    }
  }

  // ---------------------------------------------------------------- one runner acts

  /** Everything the invariant of a runner depends on is left alone for all runners but i. */
  predicate OnlyRunner(s: State, s': State, i: nat) {
    && s'.g == s.g
    && |s'.runners| == |s.runners| && |s'.files| == |s.files| && |s'.mem| == |s.mem| == |s.heap|
    && i < |s.runners|
    && (forall j :: 0 <= j < |s.runners| && j != i ==> s'.runners[j] == s.runners[j])
    && (forall f :: 0 <= f < |s.files| ==> Evolves(s.files[f], s'.files[f]))
    && (forall j: nat, kind :: j < |s.runners| && j != i ==> JobAt(s', j, kind) == JobAt(s, j, kind))
    && (forall b :: 0 <= b < |s.mem| && s.heap[b] != Held(i) ==> s'.mem[b] == s.mem[b])
  }

  lemma DeadIgnoresBuffer(g: Geometry, r: Chunk, f: File, rj: Option<Job>, wj: Option<Job>,
                          buf: seq<byte>, buf': seq<byte>)
    requires RunnerOk(g, r, f, rj, wj, buf) && !r.alive
    ensures RunnerOk(g, r, f, rj, wj, buf')
  {
    hide ChunkSize, Fits, Pad, RoundUp;
  }

  /** Block ownership is what keeps one runner's kernel reads out of another runner's data. */
  lemma BystanderGood(s: State, s': State, i: nat, j: nat)
    requires Data(s) && HeapOk(s) && |s.heap| == |s.mem|
    requires OnlyRunner(s, s', i) && j != i && j < |s.runners|
    ensures IsRunner(s', j) && RunnerGood(s', j)
  {
    hide RunnerOk, Evolves;
    assert IsRunner(s, j) && RunnerGood(s, j);
    var r := s.runners[j];
    assert JobAt(s', j, Read) == JobAt(s, j, Read);
    assert JobAt(s', j, Write) == JobAt(s, j, Write);
    BystanderOk(s.g, r, FileOf(s, j), FileOf(s', j), JobAt(s, j, Read), JobAt(s, j, Write), BufferOf(s, j));
    if r.block.Some? && r.alive {
      assert s.heap[r.block.value] == Held(j);
      assert BufferOf(s', j) == BufferOf(s, j);
    } else if !r.alive {
      DeadIgnoresBuffer(s.g, r, FileOf(s', j), JobAt(s, j, Read), JobAt(s, j, Write), BufferOf(s, j), BufferOf(s', j));
    }
  }

  lemma DataStep(s: State, s': State, i: nat)
    requires Data(s) && HeapOk(s) && |s.heap| == |s.mem|
    requires OnlyRunner(s, s', i)
    requires IsRunner(s', i) && RunnerGood(s', i)
    requires forall f :: 0 <= f < |s.files| && !s'.files[f].destFd.NeverOpened? ==>
      NoWrongByte(s'.files[f].dest, s'.files[f].src)
    ensures Data(s')
  {
    assert |s'.runners| == |s.runners| && |s'.files| == |s.files|;
    hide RunnerOk, Evolves, NoWrongByte, RunnerGood, OnlyRunner;
    forall j | 0 <= j < |s'.runners|
      ensures IsRunner(s', j) && RunnerGood(s', j)
    {
      if j != i {
        BystanderGood(s, s', i, j);
      }
    }
  }

  lemma EvolvesReflexive(f: File)
    ensures Evolves(f, f)
  {
  }

  /** A deletion or an error only ever touches counters and descriptors of the file. */
  lemma EvolvesSameBytes(f: File, f': File)
    requires f'.src == f.src && f'.align == f.align && f'.dest == f.dest
    requires f'.destFd.NeverOpened? ==> f.destFd.NeverOpened?
    ensures Evolves(f, f')
  {
  }

  // ---------------------------------------------------------------- sums after one update

  lemma LivesUpdate(rs: seq<Chunk>, i: nat, r: Chunk)
    requires i < |rs|
    ensures Sum(Lives(rs[i := r])) == Sum(Lives(rs)) - Flag(rs[i].alive) + Flag(r.alive)
  {
    assert Lives(rs[i := r]) == Lives(rs)[i := Flag(r.alive)];
    SumUpdate(Lives(rs), i, Flag(r.alive));
  }

  lemma LivesOfUpdate(rs: seq<Chunk>, f: nat, i: nat, r: Chunk)
    requires i < |rs|
    ensures Sum(LivesOf(rs[i := r], f))
      == Sum(LivesOf(rs, f)) - Flag(rs[i].alive && rs[i].file == f) + Flag(r.alive && r.file == f)
  {
    assert LivesOf(rs[i := r], f) == LivesOf(rs, f)[i := Flag(r.alive && r.file == f)];
    SumUpdate(LivesOf(rs, f), i, Flag(r.alive && r.file == f));
  }

  lemma SizesUpdate(rs: seq<Chunk>, i: nat, r: Chunk)
    requires i < |rs|
    ensures Sum(Sizes(rs[i := r])) == Sum(Sizes(rs)) - rs[i].size + r.size
  {
    assert Sizes(rs[i := r]) == Sizes(rs)[i := r.size];
    SumUpdate(Sizes(rs), i, r.size);
  }

  lemma WrittensUpdate(rs: seq<Chunk>, i: nat, r: Chunk)
    requires i < |rs|
    ensures Sum(Writtens(rs[i := r]))
      == Sum(Writtens(rs)) - (rs[i].writeOffset - rs[i].offset) + (r.writeOffset - r.offset)
  {
    assert Writtens(rs[i := r]) == Writtens(rs)[i := r.writeOffset - r.offset];
    SumUpdate(Writtens(rs), i, r.writeOffset - r.offset);
  }

  function LiveJobs(r: Chunk): int {
    if r.alive then r.jobsRunning else 0
  }

  lemma JobCountsUpdate(rs: seq<Chunk>, i: nat, r: Chunk)
    requires i < |rs|
    ensures Sum(JobCounts(rs[i := r])) == Sum(JobCounts(rs)) - LiveJobs(rs[i]) + LiveJobs(r)
  {
    assert JobCounts(rs[i := r]) == JobCounts(rs)[i := LiveJobs(r)];
    SumUpdate(JobCounts(rs), i, LiveJobs(r));
  }

  /** Replacing one runner by another of the same file and size: what the counters become. */
  lemma CountersUpdate(s: State, s': State, i: nat, r: Chunk)
    requires Counters(s) && s'.g == s.g && i < |s.runners|
    requires s'.runners == s.runners[i := r]
    requires r.file == s.runners[i].file && r.size == s.runners[i].size && r.offset == s.runners[i].offset
    requires |s'.files| == |s.files|
    requires forall f :: 0 <= f < |s.files| ==>
      && s'.files[f].src == s.files[f].src && s'.files[f].align == s.files[f].align
      && s'.files[f].parts == s.files[f].parts && s'.files[f].added == s.files[f].added
      && s'.files[f].chunksRemaining ==
           s.files[f].chunksRemaining - (if f == r.file then Flag(s.runners[i].alive) - Flag(r.alive) else 0)
    requires s'.keepAlive == s.keepAlive - Flag(s.runners[i].alive) + Flag(r.alive)
    requires s'.submissionsRunning == s.submissionsRunning - LiveJobs(s.runners[i]) + LiveJobs(r)
    requires s'.totalToCopy == s.totalToCopy && s'.adder == s.adder
    requires s'.totalCopied == s.totalCopied + r.writeOffset - s.runners[i].writeOffset
    ensures Counters(s')
  {
    hide Sum, Lives, LivesOf, Sizes, Writtens, JobCounts, PartAt, ChunkSize;
    LivesUpdate(s.runners, i, r);
    SizesUpdate(s.runners, i, r);
    WrittensUpdate(s.runners, i, r);
    JobCountsUpdate(s.runners, i, r);
    forall f | 0 <= f < |s.files|
      ensures s'.files[f].chunksRemaining == s'.files[f].parts - s'.files[f].added + Sum(LivesOf(s'.runners, f))
    {
      LivesOfUpdate(s.runners, f, i, r);
    }
  }

  // ---------------------------------------------------------------- files that keep their plan

  predicate SamePlan(f: File, f': File) {
    && f'.src == f.src && f'.align == f.align
    && f'.first == f.first && f'.parts == f.parts && f'.added == f.added
  }

  predicate SamePlace(r: Chunk, r': Chunk) {
    r'.file == r.file && r'.offset == r.offset && r'.size == r.size
  }

  /** A step on file fid, which has a runner, and on runners that stay where they are in the plan. */
  lemma LayoutStep(s: State, s': State, fid: nat)
    requires Layout(s) && SameConfig(s, s') && s'.adder == s.adder
    requires |s'.files| == |s.files| && |s'.runners| == |s.runners|
    requires |s'.heap| == |s.heap| && |s'.mem| == |s.mem|
    requires forall b :: 0 <= b < |s.mem| ==> |s'.mem[b]| == |s.mem[b]|
    requires forall f :: 0 <= f < |s.files| ==> SamePlan(s.files[f], s'.files[f])
    requires forall f :: 0 <= f < |s.files| && f != fid ==> s'.files[f] == s.files[f]
    requires fid < |s.files| && s.files[fid].added > 0
    requires forall i :: 0 <= i < |s.runners| ==> SamePlace(s.runners[i], s'.runners[i])
    ensures Layout(s')
  {
    hide PartsOf, Plannable, PartAt, ChunkSize, ValidConfig;
    forall f | 0 <= f < |s'.files|
      ensures FileLaid(s', f)
    {
      assert FileLaid(s, f);
      assert SamePlan(s.files[f], s'.files[f]);
      if f + 1 < |s.files| {
        assert SamePlan(s.files[f + 1], s'.files[f + 1]);
      }
    }
    forall f, h | 0 <= f < h < |s'.files|
      ensures s'.files[f].first + s'.files[f].added <= s'.files[h].first
    {
      assert SamePlan(s.files[f], s'.files[f]) && SamePlan(s.files[h], s'.files[h]);
    }
    forall i | 0 <= i < |s'.runners|
      ensures RunnerLaid(s', i)
    {
      assert RunnerLaid(s, i);
      assert SamePlace(s.runners[i], s'.runners[i]);
      assert SamePlan(s.files[s.runners[i].file], s'.files[s.runners[i].file]);
    }
    if s.files != [] {
      assert SamePlan(s.files[0], s'.files[0]);
      assert SamePlan(s.files[Last(s)], s'.files[Last(s)]);
    }
  }

  lemma LayoutSizes(s: State)
    requires Layout(s)
    ensures ValidGeometry(s.g) && |s.heap| == |s.mem| == s.g.blocks && s.fdCap < TWO_64
  {
    hide ValidGeometry;
  }

  /** A file that has a runner has had a part added, and a live runner keeps its counter up. */
  lemma LiveMeansRemaining(s: State, i: nat)
    requires Layout(s) && Counters(s) && IsRunner(s, i)
    ensures FileOf(s, i).added > 0 && FileOf(s, i).first <= i
    ensures s.runners[i].alive ==> FileOf(s, i).chunksRemaining >= 1
  {
    hide PartsOf, Plannable, PartAt, ChunkSize, Sum, ValidConfig;
    assert RunnerLaid(s, i);
    assert FileLaid(s, s.runners[i].file);
    if s.runners[i].alive {
      SumAtLeast(LivesOf(s.runners, s.runners[i].file), i);
    }
  }

  /** The last remaining chunk of a file has no live sibling and no part still to come. */
  lemma LastIsAlone(s: State, i: nat, j: nat)
    requires Layout(s) && Counters(s) && IsRunner(s, i) && s.runners[i].alive
    requires FileOf(s, i).chunksRemaining == 1
    ensures FileOf(s, i).added == FileOf(s, i).parts
    ensures j < |s.runners| && j != i && s.runners[j].file == s.runners[i].file ==> !s.runners[j].alive
  {
    hide PartsOf, Plannable, PartAt, ChunkSize, Sum, ValidConfig;
    var f := s.runners[i].file;
    assert FileLaid(s, f);
    SumAtLeast(LivesOf(s.runners, f), i);
    if j < |s.runners| && j != i && s.runners[j].file == f && s.runners[j].alive {
      SumOfTwo(LivesOf(s.runners, f), i, j);
    }
  }

  /** No runner acts; files only evolve. */
  lemma DataEvolves(s: State, s': State)
    requires Data(s) && s'.g == s.g && s'.runners == s.runners && s'.jobs == s.jobs && s'.mem == s.mem
    requires |s'.files| == |s.files|
    requires forall f :: 0 <= f < |s.files| ==> Evolves(s.files[f], s'.files[f])
    requires forall f :: 0 <= f < |s.files| && !s'.files[f].destFd.NeverOpened? ==>
      NoWrongByte(s'.files[f].dest, s'.files[f].src)
    ensures Data(s')
  {
    hide RunnerOk, Evolves, NoWrongByte;
    forall i | 0 <= i < |s'.runners|
      ensures IsRunner(s', i) && RunnerGood(s', i)
    {
      assert IsRunner(s, i) && RunnerGood(s, i);
      BystanderOk(s.g, s.runners[i], FileOf(s, i), FileOf(s', i), JobAt(s, i, Read), JobAt(s, i, Write), BufferOf(s, i));
      assert JobAt(s', i, Read) == JobAt(s, i, Read) && JobAt(s', i, Write) == JobAt(s, i, Write);
      assert BufferOf(s', i) == BufferOf(s, i);
    }
  }
}
