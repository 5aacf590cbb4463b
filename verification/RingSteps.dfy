/** Issuing a batch and handing its chains to the kernel keep the invariant. */
module RingSteps {
  import opened Arithmetic
  import opened ChunkPlan
  import opened Runner
  import opened Engine
  import opened ChunkInvariant
  import opened Invariant
  import opened Frames

  // ---------------------------------------------------------------- queues and jobs

  lemma PushQueued(sq: seq<Tag>, jobs: map<Tag, Job>, t: Tag, job: Job)
    requires ListsQueued(sq, jobs) && t !in jobs && job.stage.Queued?
    ensures ListsQueued(sq + [t], jobs[t := job])
  {
    var sq', jobs' := sq + [t], jobs[t := job];
    forall u | u in jobs' && jobs'[u].stage.Queued?
      ensures u in sq'
    {
      if u == t {
        assert sq'[|sq|] == t;
      } else {
        assert u in sq;
      }
    }
  }

  /** A job that is neither queued nor becomes queued leaves the list of queued jobs alone. */
  lemma QueuedUntouched(sq: seq<Tag>, jobs: map<Tag, Job>, jobs': map<Tag, Job>)
    requires ListsQueued(sq, jobs)
    requires forall t :: t in jobs && jobs[t].stage.Queued? ==> t in jobs' && jobs'[t].stage.Queued?
    requires forall t :: t in jobs' && jobs'[t].stage.Queued? ==> t in jobs && jobs[t].stage.Queued?
    ensures ListsQueued(sq, jobs')
  {
  }

  lemma DoneUntouched(cq: seq<Tag>, jobs: map<Tag, Job>, jobs': map<Tag, Job>)
    requires ListsDone(cq, jobs)
    requires forall t :: t in jobs && jobs[t].stage.Done? ==> t in jobs' && jobs'[t].stage.Done?
    requires forall t :: t in jobs' && jobs'[t].stage.Done? ==> t in jobs && jobs[t].stage.Done?
    ensures ListsDone(cq, jobs')
  {
  }

  /** The head of the queue leaves it: its job moves on to another stage. */
  lemma PopQueued(sq: seq<Tag>, jobs: map<Tag, Job>, job: Job)
    requires ListsQueued(sq, jobs) && sq != [] && !job.stage.Queued?
    ensures ListsQueued(sq[1..], jobs[sq[0] := job])
  {
    var sq', jobs' := sq[1..], jobs[sq[0] := job];
    forall k | 0 <= k < |sq'|
      ensures sq'[k] in jobs' && jobs'[sq'[k]].stage.Queued?
    {
      assert sq'[k] == sq[k + 1];
    }
    forall t | t in jobs' && jobs'[t].stage.Queued?
      ensures t in sq'
    {
      assert t in sq;
      var k :| 0 <= k < |sq| && sq[k] == t;
      assert sq'[k - 1] == t;
    }
  }

  // ---------------------------------------------------------------- issue

  /** What `submitReadWriteCommands` adds for runner i. */
  predicate Issues(s: State, s': State, i: nat, read: Option<Request>, write: Request) {
    && i < |s.runners|
    && Tag(i, Read) !in s.jobs && Tag(i, Write) !in s.jobs
    && (var jobs1 := if read.Some? then s.jobs[Tag(i, Read) := Job(read.value, true, Queued)] else s.jobs;
        var n := if read.Some? then 2 else 1;
        s' == s.(jobs := jobs1[Tag(i, Write) := Job(write, read.Some?, Queued)],
                 sq := (if read.Some? then s.sq + [Tag(i, Read)] else s.sq) + [Tag(i, Write)],
                 runners := s.runners[i := s.runners[i].(jobsRunning := s.runners[i].jobsRunning + n)],
                 submissionsRunning := s.submissionsRunning + n,
                 added := true, pc := Top))
  }

  lemma IssueQueued(s: State, s': State, i: nat, read: Option<Request>, write: Request)
    requires ListsQueued(s.sq, s.jobs) && Issues(s, s', i, read, write)
    ensures ListsQueued(s'.sq, s'.jobs)
  {
    if read.Some? {
      PushQueued(s.sq, s.jobs, Tag(i, Read), Job(read.value, true, Queued));
      PushQueued(s.sq + [Tag(i, Read)], s.jobs[Tag(i, Read) := Job(read.value, true, Queued)],
        Tag(i, Write), Job(write, true, Queued));
    } else {
      PushQueued(s.sq, s.jobs, Tag(i, Write), Job(write, false, Queued));
    }
  }

  lemma IssueChained(s: State, s': State, i: nat, read: Option<Request>, write: Request)
    requires ListsQueued(s.sq, s.jobs) && Chained(s.sq, s.jobs) && Issues(s, s', i, read, write)
    ensures Chained(s'.sq, s'.jobs)
  {
    hide ListsQueued;
    var sq' := s'.sq;
    assert Tag(i, Write) !in s.sq && Tag(i, Read) !in s.sq by { QueuedAreJobs(s.sq, s.jobs); }
    forall k | 0 <= k < |sq'| && sq'[k].kind.Read?
      ensures k + 1 < |sq'| && sq'[k + 1] == Tag(sq'[k].rid, Write)
    {
      if k < |s.sq| {
        assert sq'[k] == s.sq[k];
        assert s.sq[k + 1] == sq'[k + 1];
      }
    }
    forall k | 0 <= k < |sq'| && sq'[k].kind.Write? && sq'[k] in s'.jobs && s'.jobs[sq'[k]].linked
      ensures k > 0 && sq'[k - 1] == Tag(sq'[k].rid, Read)
    {
      if k < |s.sq| {
        assert sq'[k] == s.sq[k] && s.sq[k] in s.sq;
        assert s.sq[k] in s.jobs && s'.jobs[s.sq[k]] == s.jobs[s.sq[k]];
        assert s.sq[k - 1] == sq'[k - 1];
      }
    }
  }

  lemma QueuedAreJobs(sq: seq<Tag>, jobs: map<Tag, Job>)
    requires ListsQueued(sq, jobs)
    ensures forall t :: t in sq ==> t in jobs
  {
  }

  lemma IssueDone(s: State, s': State, i: nat, read: Option<Request>, write: Request)
    requires ListsDone(s.cq, s.jobs) && Issues(s, s', i, read, write)
    ensures ListsDone(s'.cq, s'.jobs)
  {
    DoneUntouched(s.cq, s.jobs, s'.jobs);
  }

  lemma IssueRings(s: State, s': State, i: nat, read: Option<Request>, write: Request)
    requires Rings(s) && s.pc.Issue? && Issues(s, s', i, read, write)
    ensures Rings(s')
  {
    hide ListsQueued, ListsDone, Chained, ReadsFirst;
    IssueQueued(s, s', i, read, write);
    IssueChained(s, s', i, read, write);
    IssueDone(s, s', i, read, write);
    assert s'.sq != [];
  }

  lemma IssuePlaces(s: State, s': State, i: nat, read: Option<Request>, write: Request)
    requires Places(s) && s.pc == Issue(i) && Issues(s, s', i, read, write)
    ensures Places(s')
  {
    forall j | 0 <= j < |s'.runners|
      ensures PlaceOk(s', j)
    {
      assert PlaceOk(s, j);
      assert j != i ==> HasJob(s', j) == HasJob(s, j);
      assert HasJob(s', i);
    }
  }

  lemma IssueFds(s: State, s': State, i: nat, read: Option<Request>, write: Request)
    requires Fds(s) && s.pc == Issue(i) && Issues(s, s', i, read, write)
    ensures Fds(s')
  {
    hide Sum;
    forall j | 0 <= j < |s'.runners|
      ensures IsRunner(s', j) && RunnerFds(s', j)
    {
      assert IsRunner(s, j) && RunnerFds(s, j);
      assert j != i ==> HasJob(s', j) == HasJob(s, j);
    }
    forall f | 0 <= f < |s'.files|
      ensures FileFds(s', f)
    {
      assert FileFds(s, f);
    }
  }

  lemma IssueData(s: State, s': State, i: nat, read: Option<Request>, write: Request)
    requires Data(s) && HeapOk(s) && |s.heap| == |s.mem| && Issues(s, s', i, read, write)
    requires IsRunner(s, i)
    requires RunnerOk(s.g, s'.runners[i], FileOf(s, i),
      if read.Some? then Some(Job(read.value, true, Queued)) else None,
      Some(Job(write, read.Some?, Queued)), BufferOf(s, i))
    ensures Data(s')
  {
    hide RunnerOk, NoWrongByte, Evolves;
    forall f | 0 <= f < |s.files|
      ensures Evolves(s.files[f], s'.files[f])
    {
      EvolvesReflexive(s.files[f]);
    }
    assert BufferOf(s', i) == BufferOf(s, i);
    assert RunnerGood(s', i);
    DataStep(s, s', i);
  }

  lemma IssueCounters(s: State, s': State, i: nat, read: Option<Request>, write: Request)
    requires Counters(s) && Issues(s, s', i, read, write) && s.runners[i].alive
    ensures Counters(s')
  {
    hide Counters;
    CountersUpdate(s, s', i, s'.runners[i]);
  }

  lemma IssueOutcome(s: State, s': State, i: nat, read: Option<Request>, write: Request)
    requires Outcome(s) && HeapOk(s) && Issues(s, s', i, read, write)
    requires s.runners[i].alive && s.pc.Issue?
    ensures Outcome(s') && HeapOk(s')
  {
    forall j | 0 <= j < |s'.runners|
      ensures IsRunner(s', j) && RetiredOk(s', j)
    {
      assert IsRunner(s, j) && RetiredOk(s, j);
    }
  }

  lemma IssueIsIssues(s: State, i: nat, read: Option<Request>, write: Request)
    requires Enabled(s, IssueBatch) && s.pc == Issue(i)
    requires Tag(i, Read) !in s.jobs && Tag(i, Write) !in s.jobs
    requires read == ReadRequest(s.runners[i], FileOf(s, i).align, PadOf(s, i))
    requires Some(write) == WriteRequest(s.runners[i], PadOf(s, i))
    ensures Issues(s, AfterIssue(s, i), i, read, write)
  {
    hide ReadRequest, WriteRequest, PadOf;
  }

  lemma IssueLocal(s: State, i: nat) returns (read: Option<Request>, write: Request)
    requires Inv(s) && Enabled(s, IssueBatch) && s.pc == Issue(i)
    ensures Tag(i, Read) !in s.jobs && Tag(i, Write) !in s.jobs && s.runners[i].alive && s.runners[i].jobsRunning == 0
    ensures read == ReadRequest(s.runners[i], FileOf(s, i).align, PadOf(s, i))
    ensures Some(write) == WriteRequest(s.runners[i], PadOf(s, i))
    ensures RunnerOk(s.g, s.runners[i].(jobsRunning := if read.Some? then 2 else 1), FileOf(s, i),
      if read.Some? then Some(Job(read.value, true, Queued)) else None,
      Some(Job(write, read.Some?, Queued)), BufferOf(s, i))
  {
    IssueReady(s, i);
    hide *;
    read := ReadRequest(s.runners[i], FileOf(s, i).align, PadOf(s, i));
    IssueOk(s.g, s.runners[i], FileOf(s, i), BufferOf(s, i));
    write := WriteRequest(s.runners[i], PadOf(s, i)).value;
  }

  lemma IssueReady(s: State, i: nat)
    requires Layout(s) && Places(s) && Data(s) && Fds(s) && IsRunner(s, i) && s.pc == Issue(i)
    ensures ValidGeometry(s.g)
    ensures Tag(i, Read) !in s.jobs && Tag(i, Write) !in s.jobs && s.runners[i].alive && s.runners[i].jobsRunning == 0
    ensures RunnerOk(s.g, s.runners[i], FileOf(s, i), None, None, BufferOf(s, i))
    ensures s.runners[i].block.Some? && !s.runners[i].savedError
    ensures s.runners[i].writeOffset < End(s.runners[i]) && FileOf(s, i).destFd.Open?
    ensures PadOf(s, i) == PadFor(s.g, s.runners[i], FileOf(s, i))
  {
    assert PlaceOk(s, i);
    assert RunnerFds(s, i);
    assert RunnerGood(s, i);
    assert !HasJob(s, i);
    JobCountOf(s.g, s.runners[i], FileOf(s, i), None, None, BufferOf(s, i)) by { hide RunnerOk; }
  }

  lemma JobCountOf(g: Geometry, r: Chunk, f: File, rj: Option<Job>, wj: Option<Job>, buf: seq<byte>)
    requires RunnerOk(g, r, f, rj, wj, buf) && r.alive
    ensures r.jobsRunning == Present(rj) + Present(wj)
  {
    hide ChunkSize, Fits, Pad, RoundUp;
  }

  lemma SameBlocks(s: State)
    requires Layout(s)
    ensures |s.heap| == |s.mem|
  {
  }

  lemma IssueLayout(s: State, s': State, i: nat, read: Option<Request>, write: Request)
    requires Layout(s) && Issues(s, s', i, read, write) && IsRunner(s, i) && FileOf(s, i).added > 0
    ensures Layout(s')
  {
    hide Layout;
    LayoutStep(s, s', s.runners[i].file);
  }

  lemma IssueStep(s: State)
    requires Inv(s)
    requires Enabled(s, IssueBatch)
    ensures Inv(Next(s, IssueBatch))
  {
    hide AfterIssue, ReadRequest, WriteRequest, Layout, Data, Counters, Fds, Outcome, Places, Rings, HeapOk, RunnerOk, PadOf, Issues;
    var i := s.pc.rid;
    var read, write := IssueLocal(s, i);
    IssueIsIssues(s, i, read, write);
    var s' := AfterIssue(s, i);
    SameBlocks(s);
    LiveMeansRemaining(s, i);
    IssueRings(s, s', i, read, write);
    IssuePlaces(s, s', i, read, write);
    IssueFds(s, s', i, read, write);
    IssueRunnerSame(s, s', i, read, write);
    IssueData(s, s', i, read, write);
    IssueCounters(s, s', i, read, write);
    IssueOutcome(s, s', i, read, write);
    IssueLayout(s, s', i, read, write);
  }

  lemma IssueRunnerSame(s: State, s': State, i: nat, read: Option<Request>, write: Request)
    requires Issues(s, s', i, read, write) && s.runners[i].jobsRunning == 0
    ensures s'.runners[i] == s.runners[i].(jobsRunning := if read.Some? then 2 else 1)
  {
  }

  // ---------------------------------------------------------------- consume

  predicate TakesPair(s: State, s': State, i: nat) {
    && |s.sq| > 1 && s.sq[0] == Tag(i, Read) && s.sq[1] == Tag(i, Write)
    && Tag(i, Read) in s.jobs && Tag(i, Write) in s.jobs
    && s' == s.(jobs := s.jobs[Tag(i, Read) := s.jobs[Tag(i, Read)].(stage := Ready)]
                              [Tag(i, Write) := s.jobs[Tag(i, Write)].(stage := Blocked)],
                sq := s.sq[2..], pc := Submit(true))
  }

  predicate TakesWrite(s: State, s': State, i: nat) {
    && s.sq != [] && s.sq[0] == Tag(i, Write) && Tag(i, Write) in s.jobs
    && s' == s.(jobs := s.jobs[Tag(i, Write) := s.jobs[Tag(i, Write)].(stage := Ready)],
                sq := s.sq[1..], pc := Submit(true))
  }

  /** The kernel only ever finds a runner's own write behind its read, so the link means what the
      runner wants it to mean. */
  lemma ConsumeTakes(s: State)
    requires Rings(s) && Enabled(s, Consume)
    ensures TakesPair(s, AfterConsume(s), s.sq[0].rid) || TakesWrite(s, AfterConsume(s), s.sq[0].rid)
    ensures s.sq[0].rid < |s.runners|
  {
    var t := s.sq[0];
    if t.kind.Read? {
      assert s.sq[1] == Tag(t.rid, Write);
      assert s.sq[1] in s.sq;
    } else {
      assert t == Tag(t.rid, Write);
    }
  }

  lemma ChainedTail(sq: seq<Tag>, jobs: map<Tag, Job>, jobs': map<Tag, Job>, n: nat)
    requires Chained(sq, jobs) && n <= |sq|
    requires n > 0 ==> sq[n - 1].kind.Write?
    requires forall t :: t in jobs' ==> t in jobs && jobs'[t].linked == jobs[t].linked
    ensures Chained(sq[n..], jobs')
  {
    var tail := sq[n..];
    forall k | 0 <= k < |tail| && tail[k].kind.Read?
      ensures k + 1 < |tail| && tail[k + 1] == Tag(tail[k].rid, Write)
    {
      assert sq[n + k + 1] == Tag(sq[n + k].rid, Write);
    }
    forall k | 0 <= k < |tail| && tail[k].kind.Write? && tail[k] in jobs' && jobs'[tail[k]].linked
      ensures k > 0 && tail[k - 1] == Tag(tail[k].rid, Read)
    {
      assert sq[n + k - 1] == Tag(sq[n + k].rid, Read);
    }
  }

  lemma PairQueued(s: State, s': State, i: nat)
    requires ListsQueued(s.sq, s.jobs) && TakesPair(s, s', i)
    ensures s.jobs[Tag(i, Read)].stage.Queued? && s.jobs[Tag(i, Write)].stage.Queued?
    ensures ListsQueued(s'.sq, s'.jobs)
  {
    var r, w := Tag(i, Read), Tag(i, Write);
    assert s.jobs[s.sq[0]].stage.Queued? && s.jobs[s.sq[1]].stage.Queued?;
    var jobs1 := s.jobs[r := s.jobs[r].(stage := Ready)];
    PopQueued(s.sq, s.jobs, s.jobs[r].(stage := Ready));
    PopQueued(s.sq[1..], jobs1, s.jobs[w].(stage := Blocked));
    assert s.sq[1..][1..] == s.sq[2..];
  }

  lemma WriteQueued(s: State, s': State, i: nat)
    requires ListsQueued(s.sq, s.jobs) && Chained(s.sq, s.jobs) && TakesWrite(s, s', i)
    ensures s.jobs[Tag(i, Write)].stage.Queued? && !s.jobs[Tag(i, Write)].linked
    ensures ListsQueued(s'.sq, s'.jobs)
  {
    assert s.jobs[s.sq[0]].stage.Queued?;
    PopQueued(s.sq, s.jobs, s.jobs[Tag(i, Write)].(stage := Ready));
  }

  /** Only stages of queued jobs changed, to stages that are not Done. */
  lemma RestOfRings(s: State, s': State, n: nat)
    requires Rings(s) && s.pc.Submit? && ListsQueued(s'.sq, s'.jobs)
    requires s' == s.(jobs := s'.jobs, sq := s'.sq, pc := Submit(true))
    requires n <= |s.sq| && s'.sq == s.sq[n..] && (n > 0 ==> s.sq[n - 1].kind.Write?)
    requires s'.jobs.Keys == s.jobs.Keys
    requires forall t :: t in s.jobs ==>
      s'.jobs[t].linked == s.jobs[t].linked && (s'.jobs[t].stage.Done? <==> s.jobs[t].stage.Done?)
    ensures Rings(s')
  {
    ChainedTail(s.sq, s.jobs, s'.jobs, n) by { hide ListsQueued, ListsDone, Chained, ReadsFirst; }
    DoneUntouched(s.cq, s.jobs, s'.jobs) by { hide ListsQueued, ListsDone, Chained, ReadsFirst; }
    hide ListsQueued, ListsDone, Chained, ReadsFirst;
    assert |s'.jobs| == |s.jobs| by { assert |s'.jobs.Keys| == |s.jobs.Keys|; }
  }

  lemma PairStages(s: State, s': State, i: nat)
    requires TakesPair(s, s', i)
    requires s.jobs[Tag(i, Read)].stage.Queued? && s.jobs[Tag(i, Write)].stage.Queued?
    ensures s'.jobs.Keys == s.jobs.Keys
    ensures forall t :: t in s.jobs ==>
      s'.jobs[t].linked == s.jobs[t].linked && (s'.jobs[t].stage.Done? <==> s.jobs[t].stage.Done?)
  {
  }

  lemma PairRings(s: State, s': State, i: nat)
    requires Rings(s) && s.pc.Submit? && TakesPair(s, s', i)
    ensures Rings(s')
  {
    PairQueued(s, s', i);
    PairStages(s, s', i);
    assert s.sq[2 - 1].kind.Write? && s'.sq == s.sq[2..] && s' == s.(jobs := s'.jobs, sq := s'.sq, pc := Submit(true));
    hide Rings, ListsQueued, TakesPair;
    RestOfRings(s, s', 2);
  }

  lemma WriteRings(s: State, s': State, i: nat)
    requires Rings(s) && s.pc.Submit? && TakesWrite(s, s', i)
    ensures Rings(s') && s.jobs[Tag(i, Write)].stage.Queued? && !s.jobs[Tag(i, Write)].linked
  {
    WriteQueued(s, s', i);
    hide Rings, ListsQueued;
    RestOfRings(s, s', 1);
  }

  lemma ConsumeFrame(s: State, s': State)
    requires Inv(s) && s.pc.Submit? && s'.pc == Submit(true)
    requires s' == s.(jobs := s'.jobs, sq := s'.sq, pc := s'.pc)
    requires s'.jobs.Keys == s.jobs.Keys
    ensures Layout(s') && Places(s') && HeapOk(s') && Fds(s') && Counters(s') && Outcome(s')
  {
    hide Layout, Data, Counters, Fds, Outcome, Places, Rings, HeapOk;
    LayoutSame(s, s');
    PlacesSame(s, s');
    HeapSame(s, s');
    FdsSame(s, s');
    CountersSame(s, s');
    OutcomeSame(s, s');
  }

  lemma ConsumePairData(s: State, s': State, i: nat)
    requires Data(s) && HeapOk(s) && |s.heap| == |s.mem| && i < |s.runners| && TakesPair(s, s', i)
    requires s.jobs[Tag(i, Read)].stage.Queued?
    ensures Data(s')
  {
    hide RunnerOk, NoWrongByte, Evolves;
    forall f | 0 <= f < |s.files|
      ensures Evolves(s.files[f], s'.files[f])
    {
      EvolvesReflexive(s.files[f]);
    }
    assert IsRunner(s, i) && RunnerGood(s, i);
    ConsumePairOk(s.g, s.runners[i], FileOf(s, i), s.jobs[Tag(i, Read)], s.jobs[Tag(i, Write)], BufferOf(s, i));
    assert BufferOf(s', i) == BufferOf(s, i);
    assert RunnerGood(s', i);
    DataStep(s, s', i);
  }

  lemma ConsumeWriteData(s: State, s': State, i: nat)
    requires Data(s) && HeapOk(s) && |s.heap| == |s.mem| && i < |s.runners| && TakesWrite(s, s', i)
    requires s.jobs[Tag(i, Write)].stage.Queued? && !s.jobs[Tag(i, Write)].linked
    ensures Data(s')
  {
    hide RunnerOk, NoWrongByte, Evolves;
    forall f | 0 <= f < |s.files|
      ensures Evolves(s.files[f], s'.files[f])
    {
      EvolvesReflexive(s.files[f]);
    }
    assert IsRunner(s, i) && RunnerGood(s, i);
    UnlinkedIsAlone(s.g, s.runners[i], FileOf(s, i), JobAt(s, i, Read), s.jobs[Tag(i, Write)], BufferOf(s, i));
    ConsumeWriteOk(s.g, s.runners[i], FileOf(s, i), s.jobs[Tag(i, Write)], BufferOf(s, i));
    assert BufferOf(s', i) == BufferOf(s, i);
    assert RunnerGood(s', i);
    DataStep(s, s', i);
  }

  lemma UnlinkedIsAlone(g: Geometry, r: Chunk, f: File, rj: Option<Job>, wr: Job, buf: seq<byte>)
    requires RunnerOk(g, r, f, rj, Some(wr), buf) && !wr.linked
    ensures rj.None?
  {
    hide ChunkSize, Fits, Pad, RoundUp;
  }

  lemma ConsumePairStep(s: State, s': State, i: nat)
    requires Inv(s) && s.pc.Submit? && TakesPair(s, s', i) && i < |s.runners|
    ensures Inv(s')
  {
    PairQueued(s, s', i);
    PairStages(s, s', i);
    hide Layout, Data, Counters, Fds, Outcome, Places, Rings, HeapOk, ListsQueued;
    SameBlocks(s);
    PairRings(s, s', i);
    ConsumePairData(s, s', i);
    ConsumeFrame(s, s');
  }

  lemma ConsumeWriteStep(s: State, s': State, i: nat)
    requires Inv(s) && s.pc.Submit? && TakesWrite(s, s', i) && i < |s.runners|
    ensures Inv(s')
  {
    hide Layout, Data, Counters, Fds, Outcome, Places, Rings, HeapOk;
    SameBlocks(s);
    assert s'.jobs.Keys == s.jobs.Keys;
    WriteRings(s, s', i);
    ConsumeWriteData(s, s', i);
    ConsumeFrame(s, s');
  }

  lemma ConsumeStep(s: State)
    requires Inv(s)
    requires Enabled(s, Consume)
    ensures Inv(AfterConsume(s))
  {
    hide Layout, Data, Counters, Fds, Outcome, Places, Rings, HeapOk, AfterConsume, TakesPair, TakesWrite;
    ConsumeTakes(s);
    var s', i := AfterConsume(s), s.sq[0].rid;
    if TakesPair(s, s', i) {
      ConsumePairStep(s, s', i);
    } else {
      ConsumeWriteStep(s, s', i);
    }
  }
}
