/** Runs that show where a stronger claim would be false. */
module Examples {
  import opened Arithmetic
  import opened ChunkPlan
  import opened Runner
  import opened Engine
  import opened Theorems
  import opened Progress

  lemma ReachNext(s: State, a: Action)
    requires Reachable(s) && Enabled(s, a)
    ensures Reachable(Next(s, a))
  {
    hide Enabled, Next, Init;
    var states, actions :| EndsIn(states, actions, s);
    assert EndsIn(states + [Next(s, a)], actions + [a], Next(s, a));
  }

  const SMALL := Geometry(1, 1, 1, 0)

  function Started(fdCap: nat): State {
    State(SMALL, 2, fdCap, Idle, Top, false, [], [], [], [], None, [Free], [[0]], [], [], map[],
      0, 0, RESERVED_FDS, 0, 0, 0, 0, 0, false)
  }

  lemma StartReachable(fdCap: nat)
    requires RESERVED_FDS + HIGH_PRIORITY_FDS <= fdCap < TWO_64
    ensures Reachable(Started(fdCap))
  {
    var s := Started(fdCap);
    assert Init(s);
    assert EndsIn([s], [], s);
  }

  function EmptyFile(source: Fd, chunks: nat, first: nat, added: nat): File {
    File([], 1, [], source, NeverOpened, chunks, first, 1, added)
  }

  /** Queueing an empty file, its source opened early or not. */
  function WithEmptyFile(s: State, low: Low): State {
    s.(files := s.files + [EmptyFile(if low.Opened? then Open(false) else NeverOpened, 1, |s.runners|, 1)],
       runners := s.runners + [Fresh(|s.files|, Part(0, 0))],
       pendingStart := s.pendingStart + [|s.runners|],
       keepAlive := s.keepAlive + 1,
       fdsUsed := s.fdsUsed + (if low.Opened? then 1 else 0))
  }

  /** The empty file is known, and its opens have been tried. */
  function Known(s: State, low: Low): State {
    s.(files := s.files + [EmptyFile(if low.Opened? then Open(false) else NeverOpened, 1, |s.runners|, 0)],
       adder := Planning,
       fdsUsed := s.fdsUsed + (if low.Opened? then 1 else 0))
  }

  lemma MeetEmptyFile(s: State, low: Low)
    requires Reachable(s) && s.adder.Idle? && s.g == SMALL
    requires low.Skip? || (low.Opened? && s.fdsUsed < s.fdCap - HIGH_PRIORITY_FDS)
    ensures Reachable(Known(s, low))
  {
    hide Reachable;
    var k := Known(s, low);
    ReachNext(s, NewFile([], 1, []));
    var s1 := Next(s, NewFile([], 1, []));
    assert s1 == s.(files := s.files + [EmptyFile(NeverOpened, 1, |s.runners|, 0)], adder := OpeningSource);
    ReachNext(s1, LowOpen(low));
    assert Next(s1, LowOpen(low)) == k.(adder := OpeningDest);
    ReachNext(k.(adder := OpeningDest), LowOpen(Skip));
  }

  lemma AddEmptyFile(s: State, low: Low)
    requires Reachable(s) && s.adder.Idle? && s.g == SMALL
    requires low.Skip? || (low.Opened? && s.fdsUsed < s.fdCap - HIGH_PRIORITY_FDS)
    ensures Reachable(WithEmptyFile(s, low))
  {
    hide Reachable;
    MeetEmptyFile(s, low);
    var s3 := Known(s, low);
    assert NextPart(s3) == Part(0, 0);
    ReachNext(s3, CountPart);
    var s4 := s3.(adder := Counted);
    assert Next(s3, CountPart) == s4;
    ReachNext(s4, PushPart);
    var s5 := WithEmptyFile(s, low).(adder := Planning);
    assert Next(s4, PushPart).files == s5.files;
    assert Next(s4, PushPart) == s5;
    ReachNext(s5, FileAdded);
  }

  /** Runner 0 waits at the front, is the only part of an empty file, and that file's destination is
      not open yet. */
  predicate EmptyInFront(s: State) {
    && s.pendingContinue == [] && s.pendingStart != [] && s.pendingStart[0] == 0
    && s.runners != [] && s.runners[0] == Fresh(0, Part(0, 0)) && s.files != []
    && s.files[0].destFd.NeverOpened? && s.files[0].chunksRemaining == 1
    && 2 <= s.fdsUsed && s.fdsUsed + 2 <= s.fdCap < TWO_64
  }

  function AfterTaking(s: State): State
    requires EmptyInFront(s)
  {
    s.(pendingStart := s.pendingStart[1..], nextBuffer := Some(0), heap := [Spare], pc := OpenEmpty(0))
  }

  lemma Take(s: State)
    requires Reachable(s) && s.adder.Joined? && s.pc.Top? && EmptyInFront(s)
    requires s.ringSize == 2 && s.submissionsRunning == 0 && s.nextBuffer.None? && s.heap == [Free]
    ensures Reachable(AfterTaking(s))
  {
    hide Reachable;
    ReachNext(s, Look);
    var s1 := s.(nextBuffer := Some(0), heap := [Spare], pc := Pick);
    assert FirstFree(s.heap, 0) == Some(0);
    assert Next(s, Look) == s1;
    ReachNext(s1, PickFront);
    assert Next(s1, PickFront) == AfterTaking(s);
  }

  /** The state once the open has failed and the runner is gone. */
  function AfterFailing(s: State): State
    requires EmptyInFront(s)
  {
    s.(pendingStart := s.pendingStart[1..],
       nextBuffer := Some(0), heap := [Spare], fdsUsed := s.fdsUsed + 1, failedHigh := s.failedHigh + 1, errored := true,
       keepAlive := s.keepAlive - 1,
       runners := s.runners[0 := s.runners[0].(alive := false)],
       files := s.files[0 := s.files[0].(chunksRemaining := 0)])
  }

  lemma OpenAndFail(s: State)
    requires Reachable(s) && s.adder.Joined? && s.pc.Top? && EmptyInFront(s)
    requires s.ringSize == 2 && s.submissionsRunning == 0 && s.nextBuffer.None? && s.heap == [Free]
    ensures Reachable(AfterFailing(s))
  {
    hide Reachable;
    Take(s);
    var s2 := AfterTaking(s);
    ReachNext(s2, EnsureOpen(false));
    var s3 := s2.(fdsUsed := s.fdsUsed + 1, failedHigh := s.failedHigh + 1, pc := Drop(0, false, true, ToTop));
    assert Next(s2, EnsureOpen(false)) == s3;
    ReachNext(s3, DropRunner(true));
    assert Next(s3, DropRunner(true)).pc == s.pc;
  }

  /** A failed open keeps its reservation, so with the smallest cap one file that cannot be opened
      leaves the next one without descriptors: by `StarvedForever` the copy then never ends. */
  lemma OneFailedOpenStarves() returns (s: State)
    ensures Reachable(s) && Quiet(s) && Starved(s) && s.failedHigh == 1 && s.fdCap == RESERVED_FDS + HIGH_PRIORITY_FDS
  {
    hide Reachable;
    StartReachable(4);
    var s0 := Started(4);
    AddEmptyFile(s0, Skip);
    var s1 := WithEmptyFile(s0, Skip);
    AddEmptyFile(s1, Skip);
    var s2 := WithEmptyFile(s1, Skip);
    ReachNext(s2, Join);
    var s3 := s2.(adder := Joined);
    assert Next(s2, Join) == s3;
    OpenAndFail(s3);
    s := AfterFailing(s3);
    assert s.pendingStart == [1];
  }

  /** An empty file whose source was opened early and whose destination cannot be opened is given up
      with its source still open. */
  lemma SourceLeftOpen() returns (s: State)
    ensures Reachable(s) && |s.files| == 1 && s.files[0].chunksRemaining == 0 && s.files[0].sourceFd.Open? && s.errored
  {
    hide Reachable;
    StartReachable(5);
    var s0 := Started(5);
    AddEmptyFile(s0, Opened);
    var s1 := WithEmptyFile(s0, Opened);
    ReachNext(s1, Join);
    var s2 := s1.(adder := Joined);
    assert Next(s1, Join) == s2;
    OpenAndFail(s2);
    s := AfterFailing(s2);
  }
}
