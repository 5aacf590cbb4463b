/** The submit thread's choices, opens and bookkeeping keep the invariant. */
module SubmitSteps {
  import opened Arithmetic
  import opened ChunkPlan
  import opened Runner
  import opened Engine
  import opened ChunkInvariant
  import opened Invariant
  import opened Frames

  // ---------------------------------------------------------------- steps that only move on

  lemma MoveOn(s: State, s': State)
    requires Inv(s) && Chosen(s.pc).None? && Chosen(s'.pc).None?
    requires s' == s.(pc := s'.pc, added := s'.added)
    requires !s'.pc.Pick? && !s'.pc.Exited? && (InPass(s'.pc) && s'.added ==> InPass(s.pc) && s.added)
    requires s'.pc == Submit(false) ==> InPass(s.pc) && s.added
    ensures Inv(s')
  {
    hide Layout, Data, Counters, Fds, Outcome, Places, Rings, HeapOk;
    LayoutSame(s, s');
    PlacesSame(s, s');
    RingsSame(s, s');
    DataSame(s, s');
    HeapSame(s, s');
    FdsSame(s, s');
    CountersSame(s, s');
    OutcomeSame(s, s');
  }

  // ---------------------------------------------------------------- getBlock

  lemma {:induction false} FirstFreeMeaning(heap: seq<Holder>, from: nat)
    ensures match FirstFree(heap, from)
      case Some(b) => from <= b < |heap| && heap[b].Free? && (forall k :: from <= k < b ==> !heap[k].Free?)
      case None => forall k :: from <= k < |heap| ==> !heap[k].Free?
    decreases |heap| - from
  {
    if from < |heap| && !heap[from].Free? {
      FirstFreeMeaning(heap, from + 1);
    }
  }

  lemma TakeBufferHeap(s: State)
    requires HeapOk(s)
    ensures HeapOk(TakeBuffer(s))
  {
    FirstFreeMeaning(s.heap, 0);
    hide FirstFree;
  }

  lemma TakeBufferStep(s: State)
    requires Inv(s) && s.pc.Top?
    ensures Inv(TakeBuffer(s))
  {
    var s' := TakeBuffer(s);
    hide Layout, Data, Counters, Fds, Outcome, Places, Rings, HeapOk, FirstFree;
    TakeBufferHeap(s);
    LayoutSame(s, s');
    PlacesSame(s, s');
    RingsSame(s, s');
    DataSame(s, s');
    FdsSame(s, s');
    CountersSame(s, s');
    OutcomeSame(s, s');
  }

  // ---------------------------------------------------------------- choosing a continued runner

  lemma SpaceForTwo(s: State)
    requires Rings(s) && !RateLimited(s)
    ensures s.submissionsRunning + MAX_JOBS <= s.ringSize
  {
    hide ListsQueued, ListsDone, Chained, ReadsFirst;
    var room := s.ringSize - s.submissionsRunning;
    assert room < 2 ==> U64(room) == room;
  }

  lemma ContinuePlaces(s: State, s': State)
    requires Places(s) && s.pc.Top? && s.pendingContinue != []
    requires s' == s.(pendingContinue := s.pendingContinue[1..], pc := OpenSource(s.pendingContinue[0]))
    ensures Places(s')
  {
    var q := s.pendingContinue;
    forall i | 0 <= i < |s'.runners|
      ensures PlaceOk(s', i)
    {
      assert PlaceOk(s, i);
      assert HasJob(s', i) == HasJob(s, i);
      assert i in q[1..] <==> i in q && i != q[0];
    }
  }

  lemma ContinueFds(s: State, s': State)
    requires Fds(s) && Places(s) && s.pc.Top? && s.pendingContinue != []
    requires s' == s.(pendingContinue := s.pendingContinue[1..], pc := OpenSource(s.pendingContinue[0]))
    ensures Fds(s')
  {
    hide Sum;
    var front := s.pendingContinue[0];
    assert PlaceOk(s, front);
    assert IsRunner(s, front) && RunnerFds(s, front);
    forall i | 0 <= i < |s'.runners|
      ensures IsRunner(s', i) && RunnerFds(s', i)
    {
      assert IsRunner(s, i) && RunnerFds(s, i);
      assert HasJob(s', i) == HasJob(s, i);
    }
    forall f | 0 <= f < |s'.files|
      ensures FileFds(s', f)
    {
      assert FileFds(s, f);
    }
  }

  lemma ContinueStep(s: State)
    requires Inv(s) && s.pc.Top? && s.pendingContinue != [] && !RateLimited(s)
    ensures Inv(s.(pendingContinue := s.pendingContinue[1..], pc := OpenSource(s.pendingContinue[0])))
  {
    var s' := s.(pendingContinue := s.pendingContinue[1..], pc := OpenSource(s.pendingContinue[0]));
    ContinuePlaces(s, s');
    ContinueFds(s, s');
    SpaceForTwo(s);
    hide Layout, Data, Counters, Fds, Outcome, Places, Rings, HeapOk;
    LayoutSame(s, s');
    RingsSame(s, s');
    DataSame(s, s');
    HeapSame(s, s');
    CountersSame(s, s');
    OutcomeSame(s, s');
  }

  lemma ToPick(s: State)
    requires Inv(s) && s.pc.Top? && s.nextBuffer.Some? && s.pendingStart != [] && s.pendingContinue == [] && !RateLimited(s)
    ensures Inv(s.(pc := Pick))
  {
    var s' := s.(pc := Pick);
    SpaceForTwo(s);
    hide Layout, Data, Counters, Fds, Outcome, Places, Rings, HeapOk;
    LayoutSame(s, s');
    PlacesSame(s, s');
    RingsSame(s, s');
    DataSame(s, s');
    HeapSame(s, s');
    FdsSame(s, s');
    CountersSame(s, s');
    OutcomeSame(s, s');
  }

  lemma LookStep(s: State)
    requires Inv(s) && Enabled(s, Look)
    ensures Inv(AfterLook(s))
  {
    hide Inv, FirstFree;
    if |s.pendingStart| + |s.pendingContinue| == 0 || RateLimited(s) || Waiting(s) {
      MoveOn(s, s.(pc := Flush));
    } else {
      TakeBufferStep(s);
      var s1 := TakeBuffer(s);
      assert RateLimited(s1) == RateLimited(s);
      if s.pendingContinue != [] {
        ContinueStep(s1);
      } else if s1.nextBuffer.Some? && s.pendingStart != [] {
        ToPick(s1);
      } else {
        MoveOn(s1, s1.(pc := Flush));
      }
    }
  }

  // ---------------------------------------------------------------- choosing a new runner

  predicate Picks(s: State, s': State) {
    && s.pc.Pick? && s.pendingStart != [] && IsRunner(s, s.pendingStart[0])
    && !(OutOfFds(s) && NeedsFds(FileOf(s, s.pendingStart[0])))
    && s' == AfterPick(s)
  }

  /** The front leaves the start queue, and nothing changes but its buffer. */
  predicate FrontLeaves(s: State, s': State)
    requires s.pendingStart != [] && IsRunner(s, s.pendingStart[0])
  {
    var i := s.pendingStart[0];
    && |s'.heap| == |s.heap|
    && |s'.runners| == |s.runners| && s'.runners == s.runners[i := s'.runners[i]]
    && s'.runners[i] == s.runners[i].(block := s'.runners[i].block)
    && s'.pc == (if s.runners[i].size == 0 then OpenEmpty(i) else OpenSource(i))
    && s' == s.(runners := s'.runners, heap := s'.heap, nextBuffer := s'.nextBuffer,
                pendingStart := s.pendingStart[1..], pc := s'.pc)
  }

  lemma PickLeaves(s: State, s': State)
    requires Picks(s, s')
    ensures FrontLeaves(s, s')
  {
    hide OutOfFds, NeedsFds;
  }

  lemma FrontStarted(s: State, s': State)
    requires Places(s) && s.pendingStart != [] && IsRunner(s, s.pendingStart[0]) && FrontLeaves(s, s')
    ensures s.pendingStart[0] == Started(s) && Started(s') == Started(s) + 1
  {
    hide PlaceOk;
  }

  lemma PickPlaces(s: State, s': State)
    requires Places(s) && HeapOk(s) && Picks(s, s')
    requires forall i :: 0 <= i < |s.runners| ==> IsRunner(s, i) && RunnerGood(s, i)
    ensures Places(s')
  {
    hide RunnerOk, OutOfFds, NeedsFds;
    var front := s.pendingStart[0];
    PickLeaves(s, s');
    FrontStarted(s, s');
    forall i | 0 <= i < |s'.runners|
      ensures PlaceOk(s', i)
    {
      assert PlaceOk(s, i);
      assert HasJob(s', i) == HasJob(s, i);
      if i == front {
        assert RunnerGood(s, i);
        FreshProgress(s.g, s.runners[i], FileOf(s, i), JobAt(s, i, Read), JobAt(s, i, Write), BufferOf(s, i));
      }
    }
  }

  lemma FreshProgress(g: Geometry, r: Chunk, f: File, rj: Option<Job>, wj: Option<Job>, buf: seq<byte>)
    requires RunnerOk(g, r, f, rj, wj, buf) && r.alive && r.block.None?
    ensures !r.savedError && r.writeOffset == r.readOffset == r.offset && rj.None? && wj.None?
  {
    hide ChunkSize, Fits, Pad, RoundUp;
  }

  lemma PickHeap(s: State, s': State)
    requires HeapOk(s) && Places(s) && Picks(s, s')
    ensures HeapOk(s')
  {
    var front := s.pendingStart[0];
    assert PlaceOk(s, front);
    assert s.runners[front].alive && s.runners[front].block.None?;
    hide Places, PlaceOk, OutOfFds, NeedsFds;
  }

  lemma PickData(s: State, s': State)
    requires Layout(s) && Data(s) && HeapOk(s) && Places(s) && Picks(s, s')
    ensures Data(s')
  {
    hide RunnerOk, NoWrongByte, ChunkSize, PartAt, PartsOf, Evolves;
    var i := s.pendingStart[0];
    var r := s.runners[i];
    assert PlaceOk(s, i);
    assert RunnerGood(s, i);
    FreshProgress(s.g, r, FileOf(s, i), JobAt(s, i, Read), JobAt(s, i, Write), BufferOf(s, i));
    forall f | 0 <= f < |s.files|
      ensures Evolves(s.files[f], s'.files[f])
    {
      EvolvesReflexive(s.files[f]);
    }
    if NeedsBuffer(r) {
      var b := s.nextBuffer.value;
      assert BufferOf(s, i) == [];
      GiveBufferOk(s.g, r, FileOf(s, i), b, s.mem[b]);
    }
    assert OnlyRunner(s, s', i);
    DataStep(s, s', i);
  }

  lemma PickWanted(s: State, s': State)
    requires Fds(s) && Places(s) && Picks(s, s')
    ensures s'.fdsUsed + FdsWanted(s') <= s.fdCap
  {
    hide Sum;
    var room := s.fdCap - s.fdsUsed;
    assert 0 <= room < 2 ==> U64(room) == room;
    var front := s.pendingStart[0];
    assert PlaceOk(s, front);
    assert RunnerFds(s, front);
  }

  lemma PickFds(s: State, s': State)
    requires Fds(s) && Places(s) && Picks(s, s') && IsRunner(s, s.pendingStart[0])
    requires FileOf(s, s.pendingStart[0]).first <= s.pendingStart[0]
    ensures Fds(s')
  {
    hide Sum, AfterPick, OutOfFds, NeedsFds, FdsWanted, PlaceOk, RunnerFds, FileFds, FrontLeaves;
    PickWanted(s, s');
    PickLeaves(s, s');
    FrontStarted(s, s');
    LeavesKeep(s, s');
    forall i | 0 <= i < |s'.runners|
      ensures IsRunner(s', i) && RunnerFds(s', i)
    {
      assert IsRunner(s, i) && RunnerFds(s, i);
      LeavesRunnerFds(s, s', i);
    }
    forall f | 0 <= f < |s'.files|
      ensures FileFds(s', f)
    {
      assert FileFds(s, f);
      LeavesFileFds(s, s', f);
    }
  }

  lemma LeavesKeep(s: State, s': State)
    requires s.pendingStart != [] && IsRunner(s, s.pendingStart[0]) && FrontLeaves(s, s')
    ensures s'.files == s.files && |s'.runners| == |s.runners| && s'.fdsUsed == s.fdsUsed && s'.fdCap == s.fdCap
    ensures s'.failedHigh == s.failedHigh && s'.failedLow == s.failedLow
  {
  }

  lemma LeavesRunnerFds(s: State, s': State, i: nat)
    requires s.pc.Pick? && s.pendingStart != [] && IsRunner(s, s.pendingStart[0]) && FrontLeaves(s, s')
    requires s.pendingStart[0] == Started(s) && IsRunner(s, i) && RunnerFds(s, i)
    ensures IsRunner(s', i) && RunnerFds(s', i)
  {
    assert HasJob(s', i) == HasJob(s, i);
  }

  lemma LeavesFileFds(s: State, s': State, f: nat)
    requires s.pendingStart != [] && IsRunner(s, s.pendingStart[0]) && FrontLeaves(s, s')
    requires f < |s.files| && FileFds(s, f)
    ensures f < |s'.files| && FileFds(s', f)
  {
  }

  lemma PickLayout(s: State, s': State)
    requires Layout(s) && Picks(s, s')
    ensures Layout(s')
  {
    hide PartsOf, Plannable, PartAt, ChunkSize, ValidConfig, AfterPick, OutOfFds, NeedsFds;
    PickLeaves(s, s');
    forall f | 0 <= f < |s'.files|
      ensures FileLaid(s', f)
    {
      assert FileLaid(s, f);
    }
    forall i | 0 <= i < |s'.runners|
      ensures RunnerLaid(s', i)
    {
      assert RunnerLaid(s, i);
    }
  }

  lemma PickCounters(s: State, s': State)
    requires Counters(s) && Picks(s, s')
    ensures Counters(s')
  {
    hide Counters;
    var i := s.pendingStart[0];
    assert s'.runners == s.runners[i := s'.runners[i]];
    CountersUpdate(s, s', i, s'.runners[i]);
  }

  lemma PickOutcome(s: State, s': State)
    requires Outcome(s) && Picks(s, s')
    ensures Outcome(s')
  {
    forall i | 0 <= i < |s'.runners|
      ensures IsRunner(s', i) && RetiredOk(s', i)
    {
      assert IsRunner(s, i) && RetiredOk(s, i);
    }
  }

  lemma PickRings(s: State, s': State)
    requires Rings(s) && Picks(s, s')
    ensures Rings(s')
  {
    hide Rings;
    RingsSame(s, s');
  }

  lemma PickStep(s: State)
    requires Inv(s) && Enabled(s, PickFront)
    ensures Inv(AfterPick(s))
  {
    hide Layout, Data, Counters, Fds, Outcome, Places, Rings, HeapOk;
    var s' := AfterPick(s);
    if OutOfFds(s) && NeedsFds(FileOf(s, s.pendingStart[0])) {
      MoveOn(s, s');
    } else {
      assert Picks(s, s');
      hide AfterPick, Picks;
      PickPlaces(s, s') by { assert Data(s); UnfoldData(s); }
      PickHeap(s, s');
      PickData(s, s');
      PickFds(s, s') by { UnfoldLayout(s, s.pendingStart[0]); }
      PickLayout(s, s');
      PickCounters(s, s');
      PickOutcome(s, s');
      PickRings(s, s');
    }
  }

  lemma UnfoldLayout(s: State, i: nat)
    requires Layout(s) && i < |s.runners|
    ensures RunnerLaid(s, i)
  {
  }

  lemma UnfoldData(s: State)
    requires Data(s)
    ensures forall i :: 0 <= i < |s.runners| ==> IsRunner(s, i) && RunnerGood(s, i)
  {
  }
}
