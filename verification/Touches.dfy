/** Which fields each kind of step leaves alone. */
module Touches {
  import opened ChunkPlan
  import opened Runner
  import opened Engine

  predicate SameSizes(s: State, s': State) {
    s'.g == s.g && s'.ringSize == s.ringSize && s'.fdCap == s.fdCap
  }

  lemma LowOpenTouches(s: State, low: Low)
    requires s.files != []
    ensures var s' := AfterLowOpen(s, low);
      && SameSizes(s, s') && s'.pc == s.pc && s'.added == s.added && s'.sq == s.sq && s'.cq == s.cq && s'.jobs == s.jobs
      && s'.pendingContinue == s.pendingContinue && s'.submissionsRunning == s.submissionsRunning
  {
  }

  lemma AdderTouches(s: State, a: Action)
    requires Enabled(s, a) && IsAdder(a)
    ensures var s' := Next(s, a);
      && SameSizes(s, s') && s'.pc == s.pc && s'.added == s.added && s'.sq == s.sq && s'.cq == s.cq && s'.jobs == s.jobs
      && s'.pendingContinue == s.pendingContinue && s'.submissionsRunning == s.submissionsRunning
      && (!a.LowOpen? ==> s'.fdsUsed == s.fdsUsed)
  {
    hide NextPart, Plannable, PartCount, ChunkSize, AfterLowOpen;
    if a.LowOpen? {
      LowOpenTouches(s, a.low);
    }
  }

  lemma KernelTouches(s: State, a: Action)
    requires Enabled(s, a) && IsKernel(a)
    ensures var s' := Next(s, a); s' == s.(mem := s'.mem, files := s'.files, jobs := s'.jobs, cq := s'.cq)
  {
    hide KernelRead, Overwrite, WriteAt, Slice, BufferOf;
  }

  lemma ReapTouches(s: State)
    requires Enabled(s, ReapOne)
    ensures var s' := AfterReap(s, s.cq[0]);
      SameSizes(s, s') && s'.adder == s.adder && s'.sq == s.sq && s'.added == s.added
  {
    hide Absorb, Judge;
  }

  lemma PassTouches(s: State, a: Action)
    requires Enabled(s, a) && (a.Look? || a.PickFront? || a.IssueBatch?)
    ensures SameSizes(s, Next(s, a)) && Next(s, a).adder == s.adder
  {
    hide FirstFree, RateLimited, Waiting, OutOfFds, NeedsFds, ReadRequest, WriteRequest, PadOf;
  }

  lemma FileTouches(s: State, a: Action)
    requires Enabled(s, a) && (a.EnsureOpen? || a.DropRunner?)
    ensures SameSizes(s, Next(s, a)) && Next(s, a).adder == s.adder
  {
  }

  lemma TurnTouches(s: State, a: Action)
    requires Enabled(s, a) && (a.FlushBatch? || a.Consume? || a.Submitted? || a.StopReaping? || a.CheckDone?)
    ensures SameSizes(s, Next(s, a)) && Next(s, a).adder == s.adder
  {
  }

  /** The sizes never change, and only the adding thread moves the adder. */
  lemma StepKeepsSizes(s: State, a: Action)
    requires Enabled(s, a)
    ensures SameSizes(s, Next(s, a)) && (!IsAdder(a) ==> Next(s, a).adder == s.adder)
  {
    if a.ReapOne? {
      ReapTouches(s);
      hide AfterReap;
    } else {
      hide Next, Enabled;
      if IsAdder(a) {
        AdderTouches(s, a);
      } else if IsKernel(a) {
        KernelTouches(s, a);
      } else if a.Look? || a.PickFront? || a.IssueBatch? {
        PassTouches(s, a);
      } else if a.EnsureOpen? || a.DropRunner? {
        FileTouches(s, a);
      } else {
        TurnTouches(s, a);
      }
    }
  }

  /** A step of the adding thread or the kernel leaves the submit thread where it is. */
  lemma OthersKeepPc(s: State, a: Action)
    requires Enabled(s, a) && IsOther(a)
    ensures var s' := Next(s, a);
      && s'.pc == s.pc && s'.added == s.added && s'.sq == s.sq
      && s'.pendingContinue == s.pendingContinue && s'.submissionsRunning == s.submissionsRunning
  {
    if IsAdder(a) {
      AdderTouches(s, a);
    } else {
      KernelTouches(s, a);
    }
    hide Next, Enabled;
  }

  predicate SameFds(f: File, f': File) {
    f'.sourceFd == f.sourceFd && f'.destFd == f.destFd
  }

  lemma AdderKeepsFds(s: State, a: Action, i: nat)
    requires Enabled(s, a) && IsAdder(a) && !a.LowOpen? && IsRunner(s, i)
    ensures IsRunner(Next(s, a), i) && SameFds(FileOf(s, i), FileOf(Next(s, a), i))
  {
    hide NextPart, Plannable;
  }

  lemma KernelKeepsFds(s: State, a: Action, i: nat)
    requires Enabled(s, a) && IsKernel(a) && IsRunner(s, i)
    ensures IsRunner(Next(s, a), i) && SameFds(FileOf(s, i), FileOf(Next(s, a), i))
  {
    hide KernelRead, Overwrite, WriteAt, Slice, BufferOf;
  }
}
