/** The adding thread keeps the invariant. */
module AdderSteps {
  import opened Arithmetic
  import opened ChunkPlan
  import opened Runner
  import opened Engine
  import opened ChunkInvariant
  import opened Invariant
  import opened Frames

  lemma PartsPositive(g: Geometry, src: seq<byte>, align: nat)
    requires Plannable(g, src, align)
    ensures PartsOf(g, src, align) >= 1
  {
    if src != [] {
      PartCountBounds(|src|, ChunkSize(g, align));
    }
  }

  // ---------------------------------------------------------------- a new file

  lemma NewFileLayout(s: State, src: seq<byte>, align: nat, stale: seq<byte>)
    requires Layout(s)
    requires Enabled(s, NewFile(src, align, stale))
    ensures Layout(AfterNewFile(s, src, align, stale))
  {
    hide ChunkSize, PartAt, PartCount, PartsOf, Next, ValidConfig, RunnerLaid, FileLaid;
    var s' := AfterNewFile(s, src, align, stale);
    PartsPositive(s.g, src, align);
    forall f | 0 <= f < |s'.files|
      ensures FileLaid(s', f)
      ensures f < |s.files| ==> s.files[f].first + s.files[f].added <= |s.runners|
    {
      if f < |s.files| {
        assert FileLaid(s, f);
      }
      NewFileLaid(s, src, align, stale, f);
    }
    forall i | 0 <= i < |s'.runners|
      ensures RunnerLaid(s', i)
    {
      assert RunnerLaid(s, i);
      NewFileRunnerLaid(s, src, align, stale, i);
    }
  }

  lemma NewFileLaid(s: State, src: seq<byte>, align: nat, stale: seq<byte>, f: nat)
    requires s.adder.Idle? && AdderOk(s) && Plannable(s.g, src, align) && f <= |s.files|
    requires f < |s.files| ==> FileLaid(s, f)
    ensures FileLaid(AfterNewFile(s, src, align, stale), f)
    ensures f < |s.files| ==> s.files[f].first + s.files[f].added <= |s.runners|
  {
    hide ChunkSize, PartCount, Fits;
  }

  lemma NewFileRunnerLaid(s: State, src: seq<byte>, align: nat, stale: seq<byte>, i: nat)
    requires Plannable(s.g, src, align) && i < |s.runners| && RunnerLaid(s, i)
    ensures RunnerLaid(AfterNewFile(s, src, align, stale), i)
  {
    hide ChunkSize, PartCount, PartAt, Fits;
  }

  lemma NewFileCounters(s: State, src: seq<byte>, align: nat, stale: seq<byte>)
    requires Layout(s) && Counters(s)
    requires Enabled(s, NewFile(src, align, stale))
    ensures Counters(AfterNewFile(s, src, align, stale))
  {
    hide ChunkSize, PartAt, Fits, PartCount;
    var s' := AfterNewFile(s, src, align, stale);
    var n := |s.files|;
    forall k | 0 <= k < |s.runners|
      ensures LivesOf(s.runners, n)[k] == 0
    {
      assert RunnerLaid(s, k);
    }
    SumOfZeros(LivesOf(s.runners, n));
  }

  lemma FdsAppend(s: State, s': State, f: File)
    requires Fds(s) && f.sourceFd.NeverOpened? && f.destFd.NeverOpened?
    requires s' == s.(files := s.files + [f], adder := OpeningSource)
    ensures Fds(s')
  {
    hide Sum;
    assert OpenCounts(s'.files) == OpenCounts(s.files) + [0];
    SumAppend(OpenCounts(s.files), 0);
    assert HighCounts(s'.files) == HighCounts(s.files) + [0];
    SumAppend(HighCounts(s.files), 0);
    forall i | 0 <= i < |s'.runners|
      ensures IsRunner(s', i) && RunnerFds(s', i)
    {
      assert IsRunner(s, i) && RunnerFds(s, i);
      assert HasJob(s', i) == HasJob(s, i);
    }
    forall k | 0 <= k < |s'.files|
      ensures FileFds(s', k)
    {
      if k < |s.files| {
        assert FileFds(s, k);
      }
    }
    assert FdsWanted(s') == FdsWanted(s) by {
      if Chosen(s.pc).Some? {
        var i := s.pc.rid;
        if i < |s.runners| {
          assert IsRunner(s, i) && IsRunner(s', i);
        }
      }
    }
  }

  lemma NewFileData(s: State, src: seq<byte>, align: nat, stale: seq<byte>)
    requires Layout(s) && Data(s) && Outcome(s)
    requires Enabled(s, NewFile(src, align, stale))
    ensures Data(AfterNewFile(s, src, align, stale)) && Outcome(AfterNewFile(s, src, align, stale))
  {
    hide Layout, PartAt, ChunkSize, Fits, PartCount, RunnerOk, NoWrongByte;
    var s' := AfterNewFile(s, src, align, stale);
    PartsPositive(s.g, src, align);
    forall i | 0 <= i < |s'.runners|
      ensures IsRunner(s', i) && RunnerGood(s', i) && RetiredOk(s', i)
    {
      assert IsRunner(s, i) && RunnerGood(s, i) && RetiredOk(s, i);
      assert JobAt(s', i, Read) == JobAt(s, i, Read) && JobAt(s', i, Write) == JobAt(s, i, Write);
    }
  }

  lemma NewFileStep(s: State, src: seq<byte>, align: nat, stale: seq<byte>)
    requires Inv(s)
    requires Enabled(s, NewFile(src, align, stale))
    ensures Inv(AfterNewFile(s, src, align, stale))
  {
    NewFileLayout(s, src, align, stale);
    NewFileCounters(s, src, align, stale);
    NewFileData(s, src, align, stale);
    hide Layout, Data, Counters, Fds, Outcome, Places, Rings, HeapOk, PartsOf, Plannable;
    var s' := AfterNewFile(s, src, align, stale);
    FdsAppend(s, s', s'.files[|s.files|]);
    PlacesSame(s, s');
    RingsSame(s, s');
    HeapSame(s, s');
  }

  // ---------------------------------------------------------------- the low-priority opens

  /** The file under construction has no runner yet. */
  lemma NothingAddedYet(s: State)
    requires Layout(s) && s.files != [] && (s.adder.OpeningSource? || s.adder.OpeningDest?)
    ensures s.files[Last(s)].added == 0
  {
    hide FileLaid, RunnerLaid, ValidConfig;
  }

  lemma LastIsUnused(s: State, i: nat)
    requires Layout(s) && s.files != [] && s.files[Last(s)].added == 0 && i < |s.runners|
    ensures s.runners[i].file < Last(s)
  {
    hide PartAt, ChunkSize, PartsOf, Plannable;
    assert RunnerLaid(s, i);
  }

  lemma LowOpenSums(s: State, low: Low)
    requires AdderOk(s) && Enabled(s, LowOpen(low))
    ensures Sum(OpenCounts(AfterLowOpen(s, low).files)) == Sum(OpenCounts(s.files)) + Flag(low.Opened?)
    ensures Sum(HighCounts(AfterLowOpen(s, low).files)) == Sum(HighCounts(s.files)) >= 0
  {
    hide Sum;
    var s' := AfterLowOpen(s, low);
    var n := Last(s);
    SumUpdate(OpenCounts(s.files), n, OpenCount(s'.files[n]));
    assert OpenCounts(s'.files) == OpenCounts(s.files)[n := OpenCount(s'.files[n])];
    SumUpdate(HighCounts(s.files), n, HighCount(s'.files[n]));
    assert HighCounts(s'.files) == HighCounts(s.files)[n := HighCount(s'.files[n])];
    SumNonNegative(HighCounts(s.files));
  }

  lemma LowOpenFds(s: State, low: Low)
    requires Layout(s) && Fds(s) && Places(s)
    requires Enabled(s, LowOpen(low))
    ensures Fds(AfterLowOpen(s, low))
  {
    LowOpenSums(s, low);
    assert Chosen(s.pc).Some? ==> s.pc.rid < |s.runners|;
    hide Sum, OpenCounts, HighCounts, Places, FileLaid, ValidConfig, RunnerLaid;
    var s' := AfterLowOpen(s, low);
    if Chosen(s.pc).Some? {
      LastIsUnused(s, s.pc.rid);
    }
    hide Layout;
    LowOpenEach(s, low);
  }

  lemma LowOpenEach(s: State, low: Low)
    requires Layout(s) && Fds(s) && Enabled(s, LowOpen(low))
    ensures var s' := AfterLowOpen(s, low);
      && (forall i :: 0 <= i < |s'.runners| ==> IsRunner(s', i) && RunnerFds(s', i))
      && (forall f :: 0 <= f < |s'.files| ==> FileFds(s', f))
  {
    var s' := AfterLowOpen(s, low);
    hide Layout, Sum, OpenCounts, HighCounts;
    forall i | 0 <= i < |s'.runners|
      ensures IsRunner(s', i) && RunnerFds(s', i)
    {
      assert IsRunner(s, i) && RunnerFds(s, i);
      LastIsUnused(s, i);
      assert HasJob(s', i) == HasJob(s, i);
    }
    forall f | 0 <= f < |s'.files|
      ensures FileFds(s', f)
    {
      assert FileFds(s, f);
    }
  }

  /** A layout survives a change that keeps every file's plan. */
  lemma PlanStays(s: State, s': State)
    requires Layout(s) && AdderOk(s') && SameConfig(s, s')
    requires s'.runners == s.runners && |s'.files| == |s.files| && s'.heap == s.heap && s'.mem == s.mem
    requires forall f :: 0 <= f < |s.files| ==> SamePlan(s.files[f], s'.files[f])
    ensures Layout(s')
  {
    hide ChunkSize, PartAt, Fits, PartCount, Plannable, PartsOf, ValidGeometry, AdderOk;
    forall f | 0 <= f < |s'.files|
      ensures FileLaid(s', f)
    {
      assert FileLaid(s, f) && SamePlan(s.files[f], s'.files[f]);
      if f + 1 < |s.files| {
        assert SamePlan(s.files[f + 1], s'.files[f + 1]);
      }
    }
    forall f, h | 0 <= f < h < |s'.files|
      ensures s'.files[f].first + s'.files[f].added <= s'.files[h].first
    {
      assert SamePlan(s.files[f], s'.files[f]) && SamePlan(s.files[h], s'.files[h]);
    }
    forall i | 0 <= i < |s'.runners|
      ensures RunnerLaid(s', i)
    {
      assert RunnerLaid(s, i) && SamePlan(s.files[s.runners[i].file], s'.files[s.runners[i].file]);
    }
    if s.files != [] {
      assert SamePlan(s.files[0], s'.files[0]);
    }
  }

  lemma LowOpenLayout(s: State, low: Low)
    requires Layout(s)
    requires Enabled(s, LowOpen(low))
    ensures Layout(AfterLowOpen(s, low))
  {
    hide ChunkSize, PartAt, Fits, PartCount, Plannable, PartsOf, ValidGeometry, FileLaid, RunnerLaid;
    var s' := AfterLowOpen(s, low);
    assert forall f :: 0 <= f < |s.files| ==> SamePlan(s.files[f], s'.files[f]);
    assert AdderOk(s');
    hide AdderOk, Layout;
    PlanStays(s, s');
  }

  lemma LowOpenData(s: State, low: Low)
    requires Layout(s) && Data(s) && Enabled(s, LowOpen(low))
    ensures Data(AfterLowOpen(s, low))
  {
    hide Layout, RunnerOk;
    var s' := AfterLowOpen(s, low);
    NothingAddedYet(s);
    forall i | 0 <= i < |s'.runners|
      ensures IsRunner(s', i) && RunnerGood(s', i)
    {
      assert IsRunner(s, i) && RunnerGood(s, i);
      LastIsUnused(s, i);
      assert JobAt(s', i, Read) == JobAt(s, i, Read) && JobAt(s', i, Write) == JobAt(s, i, Write);
    }
  }

  /** The file at hand has parts to come, so nobody has finished it. */
  lemma LastHasParts(s: State)
    requires Layout(s) && Counters(s) && s.files != [] && (s.adder.OpeningSource? || s.adder.OpeningDest?)
    ensures s.files[Last(s)].chunksRemaining >= 1
  {
    hide PartAt, ChunkSize, Fits, PartCount, Sum, PartsOf, Plannable, ValidConfig, RunnerLaid;
    var n := Last(s);
    assert FileLaid(s, n);
    PartsPositive(s.g, s.files[n].src, s.files[n].align);
    SumNonNegative(LivesOf(s.runners, n));
  }

  lemma LowOpenOutcome(s: State, low: Low)
    requires Layout(s) && Outcome(s) && Counters(s) && Enabled(s, LowOpen(low))
    ensures Outcome(AfterLowOpen(s, low))
  {
    hide Layout, Counters;
    var s' := AfterLowOpen(s, low);
    LastHasParts(s);
    NothingAddedYet(s);
    forall i | 0 <= i < |s'.runners|
      ensures IsRunner(s', i) && RetiredOk(s', i)
    {
      assert IsRunner(s, i) && RetiredOk(s, i);
      LastIsUnused(s, i);
    }
  }

  lemma LowOpenCounters(s: State, low: Low)
    requires Counters(s) && Enabled(s, LowOpen(low))
    ensures Counters(AfterLowOpen(s, low))
  {
    hide PartAt, ChunkSize, Sum;
  }

  lemma LowOpenStep(s: State, low: Low)
    requires Inv(s)
    requires Enabled(s, LowOpen(low))
    ensures Inv(AfterLowOpen(s, low))
  {
    LowOpenFds(s, low);
    LowOpenLayout(s, low);
    LowOpenData(s, low);
    LowOpenOutcome(s, low);
    LowOpenCounters(s, low);
    hide Layout, Data, Counters, Fds, Outcome, Places, Rings, HeapOk;
    var s' := AfterLowOpen(s, low);
    PlacesSame(s, s');
    RingsSame(s, s');
    HeapSame(s, s');
  }

  // ---------------------------------------------------------------- pushing a part

  lemma CountPartCounters(s: State, s': State)
    requires Layout(s) && Counters(s) && Enabled(s, CountPart) && s' == Next(s, CountPart)
    ensures Counters(s') && AdderOk(s')
  {
    hide ChunkSize, PartAt, FileLaid, RunnerLaid, Sum, Lives, LivesOf, Sizes, Writtens, JobCounts, ValidConfig;
  }

  lemma CountPartStep(s: State)
    requires Inv(s)
    requires Enabled(s, CountPart)
    ensures Inv(Next(s, CountPart))
  {
    hide Layout, Data, Counters, Fds, Outcome, Places, Rings, HeapOk, AdderOk, NextPart;
    NotExited(s);
    var s' := Next(s, CountPart);
    CountPartCounters(s, s');
    LayoutSame(s, s');
    PlacesSame(s, s');
    RingsSame(s, s');
    DataSame(s, s');
    HeapSame(s, s');
    FdsSame(s, s');
    OutcomeSame(s, s');
  }

  /** A part of the plan has the shape the runner's invariant asks for. */
  lemma PartHasShape(s: State, f: nat, k: nat, r: Chunk)
    requires Layout(s) && f < |s.files| && k < s.files[f].parts
    requires var file := s.files[f]; Part(r.offset, r.size) == PartAt(|file.src|, ChunkSize(s.g, file.align), k)
    ensures Shape(s.g, s.files[f], r)
  {
    hide IsPow2, AlignDown, ValidGeometry;
    var file := s.files[f];
    assert FileLaid(s, f);
    var chunk := ChunkSize(s.g, file.align);
    if file.src != [] {
      ChunkSizeAligned(s.g, file.align);
      FitsPositive(s.g, file.align);
      PartShape(|file.src|, chunk, k);
      ModProduct(chunk, k, file.align);
      assert k * chunk == chunk * k;
    } else {
      assert k == 0;
      assert 0 * chunk == 0;
    }
  }

  lemma PushLayout(s: State)
    requires Layout(s)
    requires Enabled(s, PushPart)
    ensures Layout(AfterPush(s))
  {
    hide ChunkSize, PartAt, Fits, PartCount, Plannable;
    var s' := AfterPush(s);
    assert FileLaid(s, Last(s));
    forall f | 0 <= f < |s'.files|
      ensures FileLaid(s', f)
    {
      assert FileLaid(s, f);
    }
    forall i | 0 <= i < |s'.runners|
      ensures RunnerLaid(s', i)
    {
      if i < |s.runners| {
        assert RunnerLaid(s, i);
      }
    }
  }

  lemma PushPlaces(s: State)
    requires Places(s) && Rings(s)
    requires Enabled(s, PushPart)
    ensures Places(AfterPush(s))
  {
    hide PartAt, ChunkSize, ListsQueued, ListsDone, Chained, ReadsFirst;
    var s' := AfterPush(s);
    var n := |s.runners|;
    assert Started(s') == Started(s);
    forall i | 0 <= i < |s'.runners|
      ensures PlaceOk(s', i)
    {
      if i < n {
        assert PlaceOk(s, i);
        assert HasJob(s', i) == HasJob(s, i);
      } else {
        assert n !in s.pendingContinue;
        assert !HasJob(s, n);
      }
    }
  }

  lemma PushData(s: State)
    requires Layout(s) && Data(s) && forall t :: t in s.jobs ==> t.rid < |s.runners|
    requires Enabled(s, PushPart)
    ensures Data(AfterPush(s))
  {
    hide ChunkSize, PartAt, Fits, PartCount, RunnerOk, NoWrongByte, Shape;
    var s' := AfterPush(s);
    var n := |s.runners|;
    var last := Last(s);
    assert FileLaid(s, last);
    PartHasShape(s, last, s.files[last].added, Fresh(last, NextPart(s)));
    assert Shape(s'.g, s'.files[last], Fresh(last, NextPart(s))) by {
      ShapeIgnoresCounters(s.g, s.files[last], s'.files[last], Fresh(last, NextPart(s)));
    }
    FreshOk(s.g, s'.files[last], last, NextPart(s));
    forall i | 0 <= i < |s'.runners|
      ensures IsRunner(s', i) && RunnerGood(s', i)
    {
      if i < n {
        assert IsRunner(s, i) && RunnerGood(s, i);
        EvolvesSameBytes(s.files[last], s'.files[last]);
        EvolvesReflexive(FileOf(s, i));
        assert Tag(i, Read) in s'.jobs <==> Tag(i, Read) in s.jobs;
        BystanderOk(s.g, s.runners[i], FileOf(s, i), FileOf(s', i), JobAt(s, i, Read), JobAt(s, i, Write), BufferOf(s, i));
        assert BufferOf(s', i) == BufferOf(s, i);
      }
    }
  }

  lemma ShapeIgnoresCounters(g: Geometry, f: File, f': File, r: Chunk)
    requires Shape(g, f, r) && f'.src == f.src && f'.align == f.align
    ensures Shape(g, f', r)
  {
    hide ChunkSize, Fits, PartCount;
  }

  lemma PushFds(s: State)
    requires Layout(s) && Fds(s) && Places(s) && Rings(s)
    requires Enabled(s, PushPart)
    ensures Fds(AfterPush(s))
  {
    hide ChunkSize, PartAt, Fits, PartCount, Sum, PartsOf, Plannable, FileLaid, PlaceOk, Rings, RunnerFds, FileFds, FdsWanted;
    var s' := AfterPush(s);
    var n := |s.runners|;
    PushWanted(s);
    assert OpenCounts(s'.files) == OpenCounts(s.files);
    assert HighCounts(s'.files) == HighCounts(s.files);
    assert Started(s') == Started(s);
    LastChunkNotClosed(s);
    forall i | 0 <= i < |s'.runners|
      ensures IsRunner(s', i) && RunnerFds(s', i)
    {
      if i < n {
        assert IsRunner(s, i) && RunnerFds(s, i);
        PushOldFds(s, i);
      } else {
        NoJobBeyond(s, n);
        PushNewFds(s);
      }
    }
    forall f | 0 <= f < |s'.files|
      ensures FileFds(s', f)
    {
      assert FileFds(s, f);
      PushFileFds(s, f);
    }
  }

  lemma PushWanted(s: State)
    requires Enabled(s, PushPart) && (Chosen(s.pc).Some? ==> IsRunner(s, s.pc.rid))
    ensures FdsWanted(AfterPush(s)) == FdsWanted(s)
  {
    hide NextPart;
  }

  lemma PushFileFds(s: State, f: nat)
    requires Enabled(s, PushPart) && f < |s.files| && FileFds(s, f)
    ensures FileFds(AfterPush(s), f)
  {
    hide NextPart;
  }

  lemma NoJobBeyond(s: State, i: nat)
    requires Rings(s) && i >= |s.runners|
    ensures !HasJob(s, i)
  {
    hide ListsQueued, ListsDone, Chained, ReadsFirst;
  }

  lemma PushOldFds(s: State, i: nat)
    requires Enabled(s, PushPart) && IsRunner(s, i) && RunnerFds(s, i)
    ensures IsRunner(AfterPush(s), i) && RunnerFds(AfterPush(s), i)
  {
    hide NextPart;
    assert HasJob(AfterPush(s), i) == HasJob(s, i);
  }

  lemma PushNewFds(s: State)
    requires Enabled(s, PushPart) && Places(s) && !HasJob(s, |s.runners|)
    requires !s.files[Last(s)].sourceFd.Closed? && !s.files[Last(s)].destFd.Closed?
    ensures IsRunner(AfterPush(s), |s.runners|) && RunnerFds(AfterPush(s), |s.runners|)
  {
    hide NextPart, PlaceOk;
    assert |s.runners| !in s.pendingContinue;
  }

  /** While parts are still to come, nobody has closed the file: that takes the last chunk. */
  lemma LastChunkNotClosed(s: State)
    requires Fds(s) && s.files != [] && s.files[Last(s)].added < s.files[Last(s)].parts
    ensures !s.files[Last(s)].sourceFd.Closed? && !s.files[Last(s)].destFd.Closed?
  {
    assert FileFds(s, Last(s));
  }

  lemma PushCounters(s: State)
    requires Layout(s) && Counters(s)
    requires Enabled(s, PushPart)
    ensures Counters(AfterPush(s))
  {
    hide ChunkSize, PartAt, Fits, PartCount, Sum, PartsOf, Plannable;
    var s' := AfterPush(s);
    var n, last := |s.runners|, Last(s);
    var r := s'.runners[n];
    assert Lives(s'.runners) == Lives(s.runners) + [1];
    SumAppend(Lives(s.runners), 1);
    assert Sizes(s'.runners) == Sizes(s.runners) + [r.size];
    SumAppend(Sizes(s.runners), r.size);
    assert Writtens(s'.runners) == Writtens(s.runners) + [0];
    SumAppend(Writtens(s.runners), 0);
    assert JobCounts(s'.runners) == JobCounts(s.runners) + [0];
    SumAppend(JobCounts(s.runners), 0);
    forall f | 0 <= f < |s'.files|
      ensures s'.files[f].chunksRemaining == s'.files[f].parts - s'.files[f].added + Sum(LivesOf(s'.runners, f))
    {
      assert LivesOf(s'.runners, f) == LivesOf(s.runners, f) + [Flag(f == last)];
      SumAppend(LivesOf(s.runners, f), Flag(f == last));
    }
  }

  lemma PushOutcome(s: State)
    requires Outcome(s) && Enabled(s, PushPart) && !s.pc.Exited?
    ensures Outcome(AfterPush(s))
  {
    hide PartAt, ChunkSize;
    var s' := AfterPush(s);
    forall i | 0 <= i < |s'.runners|
      ensures IsRunner(s', i) && RetiredOk(s', i)
    {
      if i < |s.runners| {
        assert IsRunner(s, i) && RetiredOk(s, i);
      }
    }
  }

  lemma PushHeap(s: State)
    requires HeapOk(s) && Enabled(s, PushPart)
    ensures HeapOk(AfterPush(s))
  {
    hide PartAt, ChunkSize;
  }

  lemma PushStep(s: State)
    requires Inv(s)
    requires Enabled(s, PushPart)
    ensures Inv(AfterPush(s))
  {
    assert !s.pc.Exited?;
    PushLayout(s);
    PushPlaces(s);
    PushData(s);
    PushFds(s);
    PushCounters(s);
    PushHeap(s);
    PushOutcome(s);
    hide Layout, Data, Counters, Fds, Outcome, Places, Rings, HeapOk, NextPart;
    RingsSame(s, AfterPush(s));
  }

  // ---------------------------------------------------------------- the rest

  lemma NotExited(s: State)
    requires Outcome(s) && !s.adder.Joined?
    ensures !s.pc.Exited?
  {
  }

  lemma FlagAdderOk(s: State, s': State)
    requires Layout(s) && (s.adder.Planning? || s.adder.Idle?)
    requires s.adder.Planning? ==> s.files != [] && s.files[Last(s)].added == s.files[Last(s)].parts
    requires s'.files == s.files && s'.runners == s.runners && (s'.adder.Idle? || s'.adder.Joined?)
    ensures AdderOk(s')
  {
    hide FileLaid, RunnerLaid;
  }

  lemma AdderFlagStep(s: State, a: Action)
    requires Inv(s)
    requires Enabled(s, a) && (a.FileAdded? || a.Join? || a.AdderError?)
    ensures Inv(Next(s, a))
  {
    hide Layout, Data, Counters, Fds, Outcome, Places, Rings, HeapOk, AdderOk;
    NotExited(s);
    var s' := Next(s, a);
    if !a.AdderError? {
      FlagAdderOk(s, s');
    }
    LayoutSame(s, s');
    PlacesSame(s, s');
    RingsSame(s, s');
    DataSame(s, s');
    HeapSame(s, s');
    FdsSame(s, s');
    CountersSame(s, s');
    OutcomeSame(s, s');
  }

  lemma AdderStep(s: State, a: Action)
    requires Inv(s) && Enabled(s, a) && IsAdder(a)
    ensures Inv(Next(s, a))
  {
    hide Inv;
    match a
    case NewFile(src, align, stale) => NewFileStep(s, src, align, stale);
    case LowOpen(low) => LowOpenStep(s, low);
    case CountPart => CountPartStep(s);
    case PushPart => PushStep(s);
    case _ => AdderFlagStep(s, a);
  }
}
