/** Runs in which no call fails, and an answer without failure for everything the kernel owes. */
module Faultless {
  import opened Arithmetic
  import opened ChunkPlan
  import opened Runner
  import opened Engine
  import opened ChunkInvariant
  import opened Invariant
  import opened WorkBound

  /** No call made in this step fails. Early opens may: the file is opened again later. A write may be
      cancelled: it is issued again. */
  predicate Clean(a: Action) {
    match a
    case AdderError => false
    case EnsureOpen(ok) => ok
    case DropRunner(closed) => closed
    case RunRead(_, res, _) => res > 0
    case RunWrite(_, res) => res >= 0 || res == -ECANCELED
    case _ => true
  }

  predicate SoundResult(t: Tag, job: Job) {
    job.stage.Done? ==> if t.kind.Read? then job.stage.res > 0 else job.stage.res >= 0 || job.stage.res == -ECANCELED
  }

  predicate SoundRunners(rs: seq<Chunk>) {
    forall i :: 0 <= i < |rs| ==> !rs[i].savedError
  }

  predicate SoundJobs(jobs: map<Tag, Job>) {
    forall t :: t in jobs ==> SoundResult(t, jobs[t])
  }

  /** No error has been reported, and none is on its way. */
  predicate Sound(s: State) {
    !s.errored && (s.pc.Drop? ==> !s.pc.error) && SoundRunners(s.runners) && SoundJobs(s.jobs)
  }

  // ---------------------------------------------------------------- without failures there is no error

  lemma SoundAdder(s: State, a: Action)
    requires Sound(s) && Enabled(s, a) && Clean(a) && IsAdder(a)
    ensures Sound(Next(s, a))
  {
    hide NextPart, PartCount, ChunkSize;
  }

  lemma SoundPass(s: State, a: Action)
    requires Sound(s) && Enabled(s, a) && (a.Look? || a.PickFront? || a.IssueBatch?)
    ensures Sound(Next(s, a))
  {
    hide FirstFree, RateLimited, Waiting, OutOfFds, NeedsFds, ReadRequest, WriteRequest, PadOf;
  }

  lemma SoundOpen(s: State, a: Action)
    requires Sound(s) && Enabled(s, a) && Clean(a) && (a.EnsureOpen? || a.DropRunner?)
    ensures Sound(Next(s, a))
  {
  }

  lemma SoundTurn(s: State, a: Action)
    requires Sound(s) && Enabled(s, a) && (a.FlushBatch? || a.Submitted? || a.StopReaping? || a.CheckDone?)
    ensures Sound(Next(s, a))
  {
  }

  lemma SoundConsume(s: State, a: Action)
    requires Sound(s) && Enabled(s, a) && a.Consume?
    ensures Sound(Next(s, a))
  {
  }

  lemma SoundKernel(s: State, a: Action)
    requires Sound(s) && Enabled(s, a) && Clean(a) && IsKernel(a)
    ensures Sound(Next(s, a))
  {
    hide KernelRead, Overwrite, WriteAt, Slice, BufferOf;
  }

  lemma SoundAbsorb(r: Chunk, t: Tag, job: Job, align: nat, chunks: nat)
    requires !r.savedError && job.stage.Done? && SoundResult(t, job)
    ensures !Absorb(r, t.kind, job.stage.res, align, chunks).savedError
  {
    hide AlignDown, BytesToRead;
  }

  lemma SoundReap(s: State, a: Action)
    requires Sound(s) && Enabled(s, a) && a.ReapOne?
    ensures Sound(Next(s, a))
  {
    var t := s.cq[0];
    var f := FileOf(s, t.rid);
    SoundAbsorb(s.runners[t.rid], t, s.jobs[t], f.align, if f.chunksRemaining >= 0 then f.chunksRemaining else 0);
    hide Absorb;
  }

  /** A step in which no call fails leads on without an error. */
  lemma SoundStep(s: State, a: Action)
    requires Sound(s) && Enabled(s, a) && Clean(a)
    ensures Sound(Next(s, a))
  {
    hide Sound, Enabled, Next;
    if IsAdder(a) {
      SoundAdder(s, a);
    } else if IsKernel(a) {
      SoundKernel(s, a);
    } else if a.EnsureOpen? || a.DropRunner? {
      SoundOpen(s, a);
    } else if a.Look? || a.PickFront? || a.IssueBatch? {
      SoundPass(s, a);
    } else if a.Consume? {
      SoundConsume(s, a);
    } else if a.ReapOne? {
      SoundReap(s, a);
    } else {
      SoundTurn(s, a);
    }
  }

  /** Errors come from failing calls alone: a run in which none fails, with any short transfers and
      cancellations, reports no error and has none on its way. */
  lemma {:induction false} NoFailureNoError(states: seq<State>, actions: seq<Action>)
    requires IsRun(states, actions) && Init(states[0]) && forall k :: 0 <= k < |actions| ==> Clean(actions[k])
    ensures Sound(states[|actions|])
    decreases |actions|
  {
    if actions != [] {
      hide Init, Sound, Enabled, Next, Clean;
      var n := |actions| - 1;
      assert IsRun(states[..n + 1], actions[..n]);
      NoFailureNoError(states[..n + 1], actions[..n]);
      assert states[..n + 1][n] == states[n];
      SoundStep(states[n], actions[n]);
    }
  }

  // ---------------------------------------------------------------- what the kernel owes

  /** A read can deliver what is left of the chunk. */
  lemma WholeRead(g: Geometry, r: Chunk, f: File, rd: Job, wj: Option<Job>, buf: seq<byte>) returns (data: seq<byte>)
    requires RunnerOk(g, r, f, Some(rd), wj, buf) && rd.stage.Ready?
    ensures r.readOffset < End(r) && KernelRead(f.src, rd.request, End(r) - r.readOffset, data)
  {
    hide ChunkSize, Fits, Pad, RoundUp, Buffered, Agree;
    var rest := End(r) - r.readOffset;
    RoundUpMeaning(rest, f.align);
    data := Slice(f.src, rd.request.off, rd.request.len);
    assert data[..rest] == f.src[rd.request.off..rd.request.off + rest];
  }

  lemma WholeWrite(g: Geometry, r: Chunk, f: File, rj: Option<Job>, wr: Job, buf: seq<byte>)
    requires RunnerOk(g, r, f, rj, Some(wr), buf) && wr.stage.Ready?
    ensures wr.request.len > 0
  {
    hide ChunkSize, Fits, Pad, RoundUp, Buffered, Agree;
  }

  lemma ReadsAreNotCancelled(g: Geometry, r: Chunk, f: File, rd: Job, wj: Option<Job>, buf: seq<byte>)
    requires RunnerOk(g, r, f, Some(rd), wj, buf)
    ensures !rd.stage.Cancelled?
  {
    hide ChunkSize, Fits, Pad, RoundUp, Buffered, Agree;
  }

  /** A step of the kernel that completes this job, fails nothing and moves the copy forward. */
  predicate Answers(s: State, a: Action) {
    Enabled(s, a) && IsKernel(a) && Clean(a) && Counts(s, a)
  }

  lemma AnswerRead(s: State, i: nat) returns (a: Action)
    requires IsRunner(s, i) && RunnerGood(s, i) && JobAt(s, i, Read).Some?
    requires JobAt(s, i, Read).value.stage.Ready? || JobAt(s, i, Read).value.stage.Cancelled?
    ensures Answers(s, a)
  {
    hide RunnerOk, KernelRead;
    var rd := s.jobs[Tag(i, Read)];
    ReadsAreNotCancelled(s.g, s.runners[i], FileOf(s, i), rd, JobAt(s, i, Write), BufferOf(s, i));
    var data := WholeRead(s.g, s.runners[i], FileOf(s, i), rd, JobAt(s, i, Write), BufferOf(s, i));
    a := RunRead(i, End(s.runners[i]) - s.runners[i].readOffset, data);
  }

  lemma AnswerWrite(s: State, i: nat) returns (a: Action)
    requires IsRunner(s, i) && RunnerGood(s, i) && JobAt(s, i, Write).Some?
    requires JobAt(s, i, Write).value.stage.Ready? || JobAt(s, i, Write).value.stage.Cancelled?
    ensures Answers(s, a)
  {
    hide RunnerOk;
    var wr := s.jobs[Tag(i, Write)];
    if wr.stage.Ready? {
      WholeWrite(s.g, s.runners[i], FileOf(s, i), JobAt(s, i, Read), wr, BufferOf(s, i));
      a := RunWrite(i, wr.request.len);
    } else {
      a := PostCancel(i);
    }
  }

  lemma KnownTag(s: State, t: Tag)
    requires Rings(s) && Data(s) && t in s.jobs
    ensures IsRunner(s, t.rid) && RunnerGood(s, t.rid)
  {
    hide ListsQueued, ListsDone, Chained, ReadsFirst, RunnerGood;
  }

  /** Whatever the kernel owes, it can answer without a failure. */
  lemma CanAnswer(s: State, t: Tag) returns (a: Action)
    requires Inv(s) && t in s.jobs && (s.jobs[t].stage.Ready? || s.jobs[t].stage.Cancelled?)
    ensures Answers(s, a)
  {
    hide Layout, Data, Counters, Fds, Outcome, Places, HeapOk, Rings, RunnerGood, Answers;
    KnownTag(s, t);
    TagShape(t);
    if t.kind.Read? {
      a := AnswerRead(s, t.rid);
    } else {
      a := AnswerWrite(s, t.rid);
    }
  }
}
