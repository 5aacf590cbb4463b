/** What the environment may do: no answer, failure or moment is shut out from the runs. */
module Choices {
  import opened Runner
  import opened Engine
  import opened Invariant
  import opened Touches
  import opened Theorems
  import opened Progress

  // ---------------------------------------------------------------- sizes

  /** Runs start from every heap of whole, aligned blocks, with every ring, and with every cap from the
      four descriptors on that the constructor asks for; two of them are counted from the start. */
  lemma AnySizes(g: ChunkPlan.Geometry, ringSize: nat, fdCap: nat)
    ensures (exists s :: Init(s) && s.g == g && s.ringSize == ringSize && s.fdCap == fdCap) <==>
      && Arithmetic.IsPow2(g.heapAlign) && g.heapBase % g.heapAlign == 0 && g.blockSize % g.heapAlign == 0
      && 0 < g.blockSize < 0x1_0000_0000 && g.heapBase + g.blockSize * g.blocks <= 0x1_0000_0000_0000_0000
      && ringSize < 0x1_0000_0000 && 4 <= fdCap < 0x1_0000_0000_0000_0000
    ensures forall s :: Init(s) ==> s.fdsUsed == 2 && !s.errored && s.files == [] && s.jobs == map[]
  {
    if ValidConfig(g, ringSize, fdCap) {
      var s := State(g, ringSize, fdCap, Idle, Top, false, [], [], [], [], None,
        seq(g.blocks, i => Free), seq(g.blocks, i => seq(g.blockSize, k => 0)), [], [], map[],
        0, 0, RESERVED_FDS, 0, 0, 0, 0, 0, false);
      assert Init(s) && s.g == g && s.ringSize == ringSize && s.fdCap == fdCap;
    }
  }

  // ---------------------------------------------------------------- the kernel and the files

  /** A read that has been handed over may fail in any way, or deliver any number of bytes up to what
      was asked for and what the file holds there, whatever the other participants are doing. */
  lemma AnyRead(s: State, i: nat, res: int)
    requires Reachable(s) && Tag(i, Read) in s.jobs && s.jobs[Tag(i, Read)].stage.Ready?
    ensures IsRunner(s, i)
    ensures var q := s.jobs[Tag(i, Read)].request; var src := FileOf(s, i).src;
      res <= 0 || (res <= q.len && q.off + res <= |src|) <==> exists data :: Enabled(s, RunRead(i, res, data))
  {
    hide Reachable, Layout, Data, Counters, Fds, Outcome, Places, HeapOk, Rings;
    ReachableInv(s);
    TagIsLive(s, Tag(i, Read));
    var q := s.jobs[Tag(i, Read)].request;
    var src := FileOf(s, i).src;
    hide Inv;
    if res <= 0 || (res <= q.len && q.off + res <= |src|) {
      var data := Slice(src, q.off, q.len);
      if res > 0 {
        assert data[..res] == src[q.off..q.off + res];
      }
      assert Enabled(s, RunRead(i, res, data));
    }
  }

  lemma AnyWrite(s: State, i: nat, res: int)
    requires Reachable(s) && Tag(i, Write) in s.jobs
    ensures Enabled(s, RunWrite(i, res)) <==> s.jobs[Tag(i, Write)].stage.Ready? && res <= s.jobs[Tag(i, Write)].request.len
    ensures Enabled(s, PostCancel(i)) <==> s.jobs[Tag(i, Write)].stage.Cancelled?
  {
    hide Reachable, Layout, Data, Counters, Fds, Outcome, Places, HeapOk, Rings;
    ReachableInv(s);
    TagIsLive(s, Tag(i, Write));
    hide Inv;
  }

  /** Every open that is called for may succeed or fail, and one of a file that is open succeeds. */
  lemma AnyOpen(s: State, ok: bool)
    requires Reachable(s) && (s.pc.OpenSource? || s.pc.OpenDest? || s.pc.OpenEmpty?)
    ensures IsRunner(s, s.pc.rid)
    ensures var f := FileOf(s, s.pc.rid);
      Enabled(s, EnsureOpen(ok)) <==> ok || (if s.pc.OpenSource? then f.sourceFd.NeverOpened? else f.destFd.NeverOpened?)
  {
    hide Reachable;
    HighPriorityNeverWaits(s);
  }

  /** Every close that is due may fail: where the last part of a file goes without an error and one of its
      two files is open. */
  lemma AnyClose(s: State, closed: bool)
    requires Reachable(s) && s.pc.Drop?
    ensures IsRunner(s, s.pc.rid)
    ensures var f := FileOf(s, s.pc.rid);
      Enabled(s, DropRunner(closed)) <==>
        closed || (!s.pc.error && f.chunksRemaining == 1 && (f.sourceFd.Open? || f.destFd.Open?))
  {
    hide Reachable, Layout, Data, Counters, Fds, Outcome, HeapOk, Rings, Places;
    ReachableInv(s);
    DropKnown(s);
  }

  lemma DropKnown(s: State)
    requires Places(s) && Fds(s) && s.pc.Drop?
    ensures IsRunner(s, s.pc.rid) && (!s.pc.error ==> s.pc.close)
  {
    assert PlaceOk(s, s.pc.rid);
    assert IsRunner(s, s.pc.rid) && RunnerFds(s, s.pc.rid);
  }

  /** The adding thread may report an error at any moment, add files or end additions between files, and
      try its early opens with any outcome as long as they leave two descriptors. */
  lemma AnyAddition(s: State)
    requires Reachable(s)
    ensures Enabled(s, AdderError) <==> !s.adder.Joined?
    ensures Enabled(s, Join) <==> s.adder.Idle?
    ensures s.adder.OpeningSource? || s.adder.OpeningDest? ==>
      && Enabled(s, LowOpen(Skip))
      && (Enabled(s, LowOpen(Opened)) <==> s.fdsUsed + 2 < s.fdCap)
      && (Enabled(s, LowOpen(OpenFailed)) <==> s.fdsUsed + 2 < s.fdCap)
    ensures s.adder.Planning? ==> Enabled(s, CountPart) || Enabled(s, FileAdded)
    ensures s.adder.Counted? ==> Enabled(s, PushPart)
  {
    hide Reachable, Layout, Data, Counters, Fds, Outcome, HeapOk, Rings, Places;
    ReachableInv(s);
    PartsLeft(s);
    hide Inv;
  }

  lemma PartsLeft(s: State)
    requires Layout(s)
    ensures !s.adder.Idle? && !s.adder.Joined? ==> s.files != [] && s.files[Last(s)].added <= s.files[Last(s)].parts
  {
    hide RunnerLaid, ValidConfig, PartsOf, Plannable;
    if s.files != [] {
      assert FileLaid(s, Last(s));
    }
  }

  // ---------------------------------------------------------------- what a submit takes

  lemma SubmitMoves(s: State, a: Action)
    requires Enabled(s, a) && s.pc.Submit?
    ensures var s' := Next(s, a);
      && |s'.sq| <= |s.sq|
      && (s'.pc.Submit? ==> s'.pc == s.pc || (s'.pc.consumed && |s'.sq| < |s.sq|))
      && (!s'.pc.Submit? ==> s'.pc.Reap? && s.pc.consumed)
  {
    if IsOther(a) {
      OthersKeepPc(s, a);
      hide Next, Enabled;
    }
  }

  /** A submit takes at least one entry, as the assertion behind it demands, and adds none. */
  lemma {:induction false} SubmitTakes(states: seq<State>, actions: seq<Action>)
    requires IsRun(states, actions) && states[0].pc == Submit(false)
    requires forall k :: 0 <= k < |actions| ==> states[k].pc.Submit?
    ensures |states[|actions|].sq| <= |states[0].sq|
    ensures states[|actions|].pc != Submit(false) ==> |states[|actions|].sq| < |states[0].sq|
    ensures !states[|actions|].pc.Submit? ==> states[|actions|].pc.Reap?
    decreases |actions|
  {
    hide Enabled, Next;
    if actions != [] {
      var n := |actions| - 1;
      assert IsRun(states[..n + 1], actions[..n]);
      SubmitTakes(states[..n + 1], actions[..n]);
      assert states[..n + 1][n] == states[n];
      SubmitMoves(states[n], actions[n]);
    }
  }

  // ---------------------------------------------------------------- first come, first served

  /** Each queue loses its head to the submit thread or gets somebody at its end. */
  lemma QueuesMove(s: State, a: Action)
    requires Enabled(s, a)
    ensures var s' := Next(s, a);
      && (s'.pendingContinue == s.pendingContinue
          || (a.Look? && s.pendingContinue != [] && s'.pendingContinue == s.pendingContinue[1..]
              && Chosen(s'.pc) == Some(s.pendingContinue[0]))
          || (a.ReapOne? && s.cq != [] && s'.pendingContinue == s.pendingContinue + [s.cq[0].rid]))
      && (s'.pendingStart == s.pendingStart
          || (a.PickFront? && s.pendingStart != [] && s'.pendingStart == s.pendingStart[1..]
              && Chosen(s'.pc) == Some(s.pendingStart[0]))
          || (a.PushPart? && s'.pendingStart == s.pendingStart + [|s.runners|]))
  {
    if a.ReapOne? {
      hide AfterReap;
      ReapQueues(s);
    } else if IsAdder(a) {
      AdderTouches(s, a);
      AdderAppends(s, a);
      hide Next, Enabled;
    } else if IsKernel(a) {
      KernelTouches(s, a);
      hide Next, Enabled;
    } else {
      hide Next, Enabled;
      SubmitQueues(s, a);
    }
  }

  lemma ReapQueues(s: State)
    requires Enabled(s, ReapOne)
    ensures var s' := AfterReap(s, s.cq[0]);
      && (s'.pendingContinue == s.pendingContinue || s'.pendingContinue == s.pendingContinue + [s.cq[0].rid])
      && s'.pendingStart == s.pendingStart
  {
    hide Absorb, Judge;
  }

  lemma AdderAppends(s: State, a: Action)
    requires Enabled(s, a) && IsAdder(a)
    ensures Next(s, a).pendingStart == if a.PushPart? then s.pendingStart + [|s.runners|] else s.pendingStart
  {
    hide ChunkPlan.PartCount, ChunkPlan.ChunkSize, NextPart, Plannable, AfterLowOpen;
    if a.LowOpen? {
      LowOpenQueues(s, a.low);
    }
  }

  lemma SubmitQueues(s: State, a: Action)
    requires Enabled(s, a) && !IsOther(a) && !a.ReapOne?
    ensures var s' := Next(s, a);
      && (s'.pendingContinue == s.pendingContinue
          || (a.Look? && s.pendingContinue != [] && s'.pendingContinue == s.pendingContinue[1..]
              && Chosen(s'.pc) == Some(s.pendingContinue[0])))
      && (s'.pendingStart == s.pendingStart
          || (a.PickFront? && s.pendingStart != [] && s'.pendingStart == s.pendingStart[1..]
              && Chosen(s'.pc) == Some(s.pendingStart[0])))
  {
    if a.Look? || a.PickFront? {
      hide TakeBuffer, RateLimited, Waiting, OutOfFds, NeedsFds;
      TakeBufferKeeps(s);
    } else {
      hide Next, Enabled;
      RestQueues(s, a);
    }
  }

  lemma RestQueues(s: State, a: Action)
    requires Enabled(s, a) && !IsOther(a) && !a.ReapOne? && !a.Look? && !a.PickFront?
    ensures Next(s, a).pendingContinue == s.pendingContinue && Next(s, a).pendingStart == s.pendingStart
  {
    hide AfterDrop, AfterOpen, AfterIssue;
    if a.DropRunner? {
      DropQueues(s, a.closed);
    } else if a.EnsureOpen? {
      OpenQueues(s, a.ok);
    } else if a.IssueBatch? {
      IssueQueues(s);
    }
  }

  lemma DropQueues(s: State, closed: bool)
    requires Enabled(s, DropRunner(closed))
    ensures AfterDrop(s, closed).pendingContinue == s.pendingContinue && AfterDrop(s, closed).pendingStart == s.pendingStart
  {
  }

  lemma OpenQueues(s: State, ok: bool)
    requires Enabled(s, EnsureOpen(ok))
    ensures AfterOpen(s, ok).pendingContinue == s.pendingContinue && AfterOpen(s, ok).pendingStart == s.pendingStart
  {
  }

  lemma IssueQueues(s: State)
    requires Enabled(s, IssueBatch)
    ensures var s' := AfterIssue(s, s.pc.rid); s'.pendingContinue == s.pendingContinue && s'.pendingStart == s.pendingStart
  {
    hide ReadRequest, WriteRequest, PadOf;
  }

  /** Nobody is overtaken: a runner that waits at place k of either queue has been taken up in the
      meantime, or waits at no later place. */
  lemma {:induction false} NobodyOvertakes(states: seq<State>, actions: seq<Action>, k: nat)
    requires IsRun(states, actions)
    ensures k < |states[0].pendingContinue| ==>
      || StillWaits(states[|actions|].pendingContinue, k, states[0].pendingContinue[k])
      || TakenUp(states, states[0].pendingContinue[k])
    ensures k < |states[0].pendingStart| ==>
      StillWaits(states[|actions|].pendingStart, k, states[0].pendingStart[k]) || TakenUp(states, states[0].pendingStart[k])
    decreases |actions|
  {
    hide Enabled, Next, Chosen, StillWaits;
    if actions == [] {
      WaitsAlready(states[0].pendingContinue, k);
      WaitsAlready(states[0].pendingStart, k);
    } else {
      var n := |actions| - 1;
      var before := states[..n + 1];
      assert IsRun(before, actions[..n]);
      NobodyOvertakes(before, actions[..n], k);
      assert before[n] == states[n] && before[0] == states[0];
      QueuesMove(states[n], actions[n]);
      MovesUp(states[n].pendingContinue, states[n + 1].pendingContinue, k);
      MovesUp(states[n].pendingStart, states[n + 1].pendingStart, k);
      if k < |states[0].pendingContinue| && TakenUp(before, states[0].pendingContinue[k]) {
        StillTakenUp(states, n, states[0].pendingContinue[k]);
      }
      if k < |states[0].pendingStart| && TakenUp(before, states[0].pendingStart[k]) {
        StillTakenUp(states, n, states[0].pendingStart[k]);
      }
      assert Chosen(states[n + 1].pc).Some? ==> TakenUp(states, Chosen(states[n + 1].pc).value);
    }
  }

  predicate StillWaits(queue: seq<nat>, k: nat, i: nat) {
    exists j :: 0 <= j < |queue| && j <= k && queue[j] == i
  }

  lemma WaitsAlready(queue: seq<nat>, k: nat)
    ensures k < |queue| ==> StillWaits(queue, k, queue[k])
  {
  }

  lemma MovesUp(queue: seq<nat>, after: seq<nat>, k: nat)
    requires after == queue || (queue != [] && after == queue[1..]) || (|after| > 0 && after[..|after| - 1] == queue)
    ensures forall i :: StillWaits(queue, k, i) ==>
      StillWaits(after, k, i) || (queue != [] && queue[0] == i && after == queue[1..])
  {
    forall i | StillWaits(queue, k, i)
      ensures StillWaits(after, k, i) || (queue != [] && queue[0] == i && after == queue[1..])
    {
      var j :| 0 <= j < |queue| && j <= k && queue[j] == i;
      if after == queue {
      } else if queue != [] && after == queue[1..] {
        if j > 0 {
          assert after[j - 1] == i;
        }
      } else {
        assert after[j] == after[..|after| - 1][j] == i;
      }
    }
  }

  predicate TakenUp(states: seq<State>, i: nat) {
    exists m :: 0 <= m < |states| && Chosen(states[m].pc) == Some(i)
  }

  lemma StillTakenUp(states: seq<State>, n: nat, i: nat)
    requires n + 1 <= |states| && TakenUp(states[..n + 1], i)
    ensures TakenUp(states, i)
  {
  }
}
