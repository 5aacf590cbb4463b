/** Opening files with high priority keeps the invariant. */
module OpenSteps {
  import opened Arithmetic
  import opened ChunkPlan
  import opened Runner
  import opened Engine
  import opened ChunkInvariant
  import opened Invariant
  import opened Frames

  predicate Opening(s: State) {
    (s.pc.OpenSource? || s.pc.OpenDest? || s.pc.OpenEmpty?) && IsRunner(s, s.pc.rid)
  }

  /** What an open leaves of the file it works on. */
  predicate OpenedFile(s: State, f: File, f': File, ok: bool)
    requires Opening(s)
  {
    if !FdWanted(s).NeverOpened? || !ok then f' == f
    else if s.pc.OpenSource? then f' == f.(sourceFd := Open(true))
    else f' == f.(destFd := Open(true), dest := [])
  }

  predicate Opens(s: State, s': State, ok: bool)
    requires Opening(s)
  {
    var i := s.pc.rid;
    var fid := s.runners[i].file;
    var wanted := FdWanted(s).NeverOpened?;
    && (wanted ==> s.fdsUsed < s.fdCap) && (!wanted ==> ok)
    && |s'.files| == |s.files| && s'.files == s.files[fid := s'.files[fid]] && OpenedFile(s, s.files[fid], s'.files[fid], ok)
    && s'.fdsUsed == s.fdsUsed + Flag(wanted)
    && s'.failedHigh == s.failedHigh + Flag(!ok)
    && s'.pc == (if s.pc.OpenEmpty? then Drop(i, ok, !ok, ToTop)
                 else if !ok then Drop(i, true, true, ToFlush)
                 else if s.pc.OpenSource? then OpenDest(i) else Issue(i))
    && s' == s.(files := s'.files, fdsUsed := s'.fdsUsed, failedHigh := s'.failedHigh, pc := s'.pc,
                totalFailed := s'.totalFailed)
  }

  lemma OpenIsOpens(s: State, ok: bool)
    requires Enabled(s, EnsureOpen(ok))
    ensures Opening(s) && Opens(s, AfterOpen(s, ok), ok)
  {
    if !FdWanted(s).NeverOpened? {
      OpenAlready(s);
    } else if !ok {
      OpenFails(s);
    } else {
      OpenSucceeds(s);
    }
    hide AfterOpen, Opens;
  }

  lemma OpenAlready(s: State)
    requires Enabled(s, EnsureOpen(true)) && !FdWanted(s).NeverOpened?
    ensures Opens(s, AfterOpen(s, true), true)
  {
  }

  lemma OpenFails(s: State)
    requires Enabled(s, EnsureOpen(false)) && FdWanted(s).NeverOpened?
    ensures Opens(s, AfterOpen(s, false), false)
  {
  }

  lemma OpenSucceeds(s: State)
    requires Enabled(s, EnsureOpen(true)) && FdWanted(s).NeverOpened?
    ensures Opens(s, AfterOpen(s, true), true)
  {
  }

  lemma OpenPlaces(s: State, s': State, ok: bool)
    requires Places(s) && Data(s) && Opening(s) && Opens(s, s', ok)
    ensures Places(s')
  {
    hide RunnerOk, OpenedFile, NoWrongByte;
    var i := s.pc.rid;
    assert RunnerGood(s, i);
    ProgressOf(s.g, s.runners[i], FileOf(s, i), JobAt(s, i, Read), JobAt(s, i, Write), BufferOf(s, i));
    forall j | 0 <= j < |s'.runners|
      ensures PlaceOk(s', j)
    {
      assert PlaceOk(s, j);
      assert HasJob(s', j) == HasJob(s, j);
    }
  }

  lemma ProgressOf(g: Geometry, r: Chunk, f: File, rj: Option<Job>, wj: Option<Job>, buf: seq<byte>)
    requires RunnerOk(g, r, f, rj, wj, buf)
    ensures r.offset <= r.writeOffset <= End(r)
  {
    hide ChunkSize, Fits, Pad, RoundUp;
  }

  lemma OpenData(s: State, s': State, ok: bool)
    requires Data(s) && Opening(s) && Opens(s, s', ok)
    ensures Data(s')
  {
    hide Data;
    forall f | 0 <= f < |s.files|
      ensures Evolves(s.files[f], s'.files[f])
      ensures !s'.files[f].destFd.NeverOpened? ==> NoWrongByte(s'.files[f].dest, s'.files[f].src)
    {
      CleanBytes(s, f);
    }
    DataEvolves(s, s');
  }

  lemma CleanBytes(s: State, f: nat)
    requires Data(s) && f < |s.files|
    ensures !s.files[f].destFd.NeverOpened? ==> NoWrongByte(s.files[f].dest, s.files[f].src)
  {
  }

  lemma OpenLayout(s: State, s': State, ok: bool)
    requires Layout(s) && Counters(s) && Opening(s) && Opens(s, s', ok)
    ensures Layout(s')
  {
    var i := s.pc.rid;
    LiveMeansRemaining(s, i);
    hide Layout, Counters;
    LayoutStep(s, s', s.runners[i].file);
  }

  lemma OpenCounters(s: State, s': State, ok: bool)
    requires Counters(s) && Opening(s) && Opens(s, s', ok)
    ensures Counters(s')
  {
    hide Counters;
    var i := s.pc.rid;
    assert s'.runners == s.runners[i := s.runners[i]];
    CountersUpdate(s, s', i, s.runners[i]);
  }

  lemma OpenOutcome(s: State, s': State, ok: bool)
    requires Outcome(s) && Opening(s) && Opens(s, s', ok) && FileOf(s, s.pc.rid).chunksRemaining >= 1
    requires FileOf(s, s.pc.rid).destFd.Open? || FileOf(s, s.pc.rid).destFd.NeverOpened?
    ensures Outcome(s')
  {
    forall i | 0 <= i < |s'.runners|
      ensures IsRunner(s', i) && RetiredOk(s', i)
    {
      assert IsRunner(s, i) && RetiredOk(s, i);
    }
  }

  lemma OpenFds(s: State, s': State, ok: bool)
    requires Fds(s) && Places(s) && Opening(s) && Opens(s, s', ok)
    requires FileOf(s, s.pc.rid).first <= s.pc.rid
    ensures Fds(s')
  {
    var i := s.pc.rid;
    assert PlaceOk(s, i) && RunnerFds(s, i);
    OpenSums(s, s', ok);
    hide Sum, OpenCounts, HighCounts, PlaceOk, RunnerFds, FileFds, OpenedFile;
    OpenWanted(s, s', ok);
    forall j | 0 <= j < |s'.runners|
      ensures IsRunner(s', j) && RunnerFds(s', j)
    {
      assert IsRunner(s, j) && RunnerFds(s, j);
      OpenRunnerFds(s, s', ok, j);
    }
    forall f | 0 <= f < |s'.files|
      ensures FileFds(s', f)
    {
      assert FileFds(s, f);
      OpenFileFds(s, s', ok, f);
    }
  }

  lemma OpenWanted(s: State, s': State, ok: bool)
    requires Opening(s) && Opens(s, s', ok)
    ensures FdsWanted(s') <= FdsWanted(s) - Flag(FdWanted(s).NeverOpened?)
  {
  }

  lemma OpenRunnerFds(s: State, s': State, ok: bool, j: nat)
    requires Opening(s) && Opens(s, s', ok) && IsRunner(s, j) && RunnerFds(s, j) && RunnerFds(s, s.pc.rid)
    requires PlaceOk(s, s.pc.rid) && |s.pendingStart| <= |s.runners|
    ensures IsRunner(s', j) && RunnerFds(s', j)
  {
    assert HasJob(s', j) == HasJob(s, j);
  }

  lemma OpenFileFds(s: State, s': State, ok: bool, f: nat)
    requires Opening(s) && Opens(s, s', ok) && f < |s.files| && FileFds(s, f) && PlaceOk(s, s.pc.rid)
    requires FileOf(s, s.pc.rid).first <= s.pc.rid
    ensures FileFds(s', f)
  {
  }

  lemma OpenSums(s: State, s': State, ok: bool)
    requires Opening(s) && Opens(s, s', ok)
    ensures Sum(OpenCounts(s'.files)) == Sum(OpenCounts(s.files)) + Flag(FdWanted(s).NeverOpened? && ok)
    ensures Sum(HighCounts(s'.files)) == Sum(HighCounts(s.files)) + Flag(FdWanted(s).NeverOpened? && ok)
  {
    hide Sum;
    var fid := s.runners[s.pc.rid].file;
    var f' := s'.files[fid];
    assert OpenCounts(s'.files) == OpenCounts(s.files)[fid := OpenCount(f')];
    SumUpdate(OpenCounts(s.files), fid, OpenCount(f'));
    assert HighCounts(s'.files) == HighCounts(s.files)[fid := HighCount(f')];
    SumUpdate(HighCounts(s.files), fid, HighCount(f'));
  }

  lemma ChosenFds(s: State)
    requires Fds(s) && Places(s) && Opening(s)
    ensures FileOf(s, s.pc.rid).destFd.Open? || FileOf(s, s.pc.rid).destFd.NeverOpened?
    ensures s.runners[s.pc.rid].alive
  {
    assert PlaceOk(s, s.pc.rid);
    assert RunnerFds(s, s.pc.rid);
  }

  lemma OpenStep(s: State, ok: bool)
    requires Inv(s)
    requires Enabled(s, EnsureOpen(ok))
    ensures Inv(AfterOpen(s, ok))
  {
    OpenIsOpens(s, ok);
    var s' := AfterOpen(s, ok);
    hide AfterOpen, Layout, Data, Counters, Fds, Outcome, Places, Rings, HeapOk, Enabled;
    ChosenFds(s);
    LiveMeansRemaining(s, s.pc.rid);
    OpenPlaces(s, s', ok);
    OpenData(s, s', ok);
    OpenLayout(s, s', ok);
    OpenCounters(s, s', ok);
    OpenOutcome(s, s', ok);
    OpenFds(s, s', ok);
    RingsSame(s, s');
    HeapSame(s, s');
  }
}
