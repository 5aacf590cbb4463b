/** The invariant of the whole engine, in groups. */
module Invariant {
  import opened ChunkPlan
  import opened Runner
  import opened Engine
  import opened ChunkInvariant

  // ---------------------------------------------------------------- sums

  function Sum(xs: seq<int>): int {
    if xs == [] then 0 else Sum(xs[..|xs| - 1]) + xs[|xs| - 1]
  }

  lemma SumAppend(xs: seq<int>, x: int)
    ensures Sum(xs + [x]) == Sum(xs) + x
  {
    assert (xs + [x])[..|xs|] == xs;
  }

  lemma {:induction false} SumUpdate(xs: seq<int>, i: nat, x: int)
    requires i < |xs|
    ensures Sum(xs[i := x]) == Sum(xs) - xs[i] + x
  {
    var n := |xs| - 1;
    if i < n {
      SumUpdate(xs[..n], i, x);
      assert xs[i := x][..n] == xs[..n][i := x];
    } else {
      assert xs[i := x][..n] == xs[..n];
    }
  }

  lemma {:induction false} SumAtLeast(xs: seq<int>, i: nat)
    requires i < |xs| && forall k :: 0 <= k < |xs| ==> xs[k] >= 0
    ensures Sum(xs) >= xs[i]
  {
    var n := |xs| - 1;
    SumNonNegative(xs[..n]);
    if i < n {
      SumAtLeast(xs[..n], i);
    }
  }

  lemma {:induction false} SumNonNegative(xs: seq<int>)
    requires forall k :: 0 <= k < |xs| ==> xs[k] >= 0
    ensures Sum(xs) >= 0
  {
    if xs != [] {
      SumNonNegative(xs[..|xs| - 1]);
    }
  }

  /** Two different positive entries: how the last live chunk of a file is known to be alone. */
  lemma SumOfTwo(xs: seq<int>, i: nat, j: nat)
    requires i < |xs| && j < |xs| && i != j && forall k :: 0 <= k < |xs| ==> xs[k] >= 0
    ensures Sum(xs) >= xs[i] + xs[j]
  {
    SumUpdate(xs, i, 0);
    SumAtLeast(xs[i := 0], j);
  }

  lemma {:induction false} SumZero(xs: seq<int>)
    requires forall k :: 0 <= k < |xs| ==> xs[k] >= 0
    requires Sum(xs) <= 0
    ensures forall k :: 0 <= k < |xs| ==> xs[k] == 0
  {
    forall k | 0 <= k < |xs|
      ensures xs[k] == 0
    {
      SumAtLeast(xs, k);
    }
  }

  lemma {:induction false} SumOfZeros(xs: seq<int>)
    requires forall k :: 0 <= k < |xs| ==> xs[k] == 0
    ensures Sum(xs) == 0
  {
    if xs != [] {
      SumOfZeros(xs[..|xs| - 1]);
    }
  }

  lemma {:induction false} SumAtMost(xs: seq<int>, ys: seq<int>)
    requires |xs| == |ys| && forall k :: 0 <= k < |xs| ==> xs[k] <= ys[k]
    ensures Sum(xs) <= Sum(ys)
    ensures Sum(xs) == Sum(ys) ==> xs == ys
  {
    if xs != [] {
      var n := |xs| - 1;
      SumAtMost(xs[..n], ys[..n]);
      if Sum(xs) == Sum(ys) {
        assert xs == xs[..n] + [xs[n]];
        assert ys == ys[..n] + [ys[n]];
      }
    }
  }

  function Flag(b: bool): int {
    if b then 1 else 0
  }

  function Lives(rs: seq<Chunk>): seq<int> {
    seq(|rs|, i requires 0 <= i < |rs| => Flag(rs[i].alive))
  }

  function LivesOf(rs: seq<Chunk>, f: nat): seq<int> {
    seq(|rs|, i requires 0 <= i < |rs| => Flag(rs[i].alive && rs[i].file == f))
  }

  function Sizes(rs: seq<Chunk>): seq<int> {
    seq(|rs|, i requires 0 <= i < |rs| => rs[i].size)
  }

  function Writtens(rs: seq<Chunk>): seq<int> {
    seq(|rs|, i requires 0 <= i < |rs| => rs[i].writeOffset - rs[i].offset)
  }

  function JobCounts(rs: seq<Chunk>): seq<int> {
    seq(|rs|, i requires 0 <= i < |rs| => if rs[i].alive then rs[i].jobsRunning else 0)
  }

  function OpenCounts(files: seq<File>): seq<int> {
    seq(|files|, i requires 0 <= i < |files| => OpenCount(files[i]))
  }

  function HighCount(f: File): nat {
    Flag(f.sourceFd == Open(true)) + Flag(f.destFd == Open(true))
  }

  function HighCounts(files: seq<File>): seq<int> {
    seq(|files|, i requires 0 <= i < |files| => HighCount(files[i]))
  }

  // ---------------------------------------------------------------- layout

  function PartsOf(g: Geometry, src: seq<byte>, align: nat): nat
    requires src != [] ==> ChunkSize(g, align) > 0
  {
    if src == [] then 1 else PartCount(|src|, ChunkSize(g, align))
  }

  predicate FileLaid(s: State, f: nat)
    requires f < |s.files|
  {
    var file := s.files[f];
    && Plannable(s.g, file.src, file.align)
    && file.parts == PartsOf(s.g, file.src, file.align)
    && file.added <= file.parts
    && file.first + file.added <= |s.runners|
    && (if f + 1 < |s.files| then file.added == file.parts && s.files[f + 1].first == file.first + file.added
        else file.first + file.added == |s.runners|)
  }

  predicate RunnerLaid(s: State, i: nat)
    requires i < |s.runners|
  {
    var r := s.runners[i];
    && r.file < |s.files|
    && (var f := s.files[r.file];
        && f.first <= i < f.first + f.added
        && Part(r.offset, r.size) == PartAt(|f.src|, ChunkSize(s.g, f.align), i - f.first))
  }

  predicate AdderOk(s: State) {
    && (s.files == [] ==> s.runners == [] && (s.adder.Idle? || s.adder.Joined?))
    && (s.files != [] ==>
      var f := s.files[Last(s)];
      match s.adder
      case OpeningSource => f.added == 0 && f.sourceFd.NeverOpened? && f.destFd.NeverOpened?
      case OpeningDest => f.added == 0 && f.destFd.NeverOpened?
      case Planning => true
      case Counted => f.added < f.parts
      case _ => f.added == f.parts)
  }

  predicate Layout(s: State) {
    && ValidConfig(s.g, s.ringSize, s.fdCap)
    && |s.heap| == |s.mem| == s.g.blocks
    && (forall b :: 0 <= b < |s.mem| ==> |s.mem[b]| == s.g.blockSize)
    && (forall f :: 0 <= f < |s.files| ==> FileLaid(s, f))
    && (forall f, h :: 0 <= f < h < |s.files| ==> s.files[f].first + s.files[f].added <= s.files[h].first)
    && (forall i :: 0 <= i < |s.runners| ==> RunnerLaid(s, i))
    && (s.files != [] ==> s.files[0].first == 0)
    && AdderOk(s)
  }

  // ---------------------------------------------------------------- where a runner is

  /** The runners before this one have left `copiesPendingStart`. */
  function Started(s: State): int {
    |s.runners| - |s.pendingStart|
  }

  function Chosen(pc: Pc): Option<nat> {
    match pc
    case OpenSource(i) => Some(i)
    case OpenDest(i) => Some(i)
    case OpenEmpty(i) => Some(i)
    case Issue(i) => Some(i)
    case Drop(i, _, _, _) => Some(i)
    case _ => None
  }

  predicate HasJob(s: State, i: nat) {
    Tag(i, Read) in s.jobs || Tag(i, Write) in s.jobs
  }

  predicate PlaceOk(s: State, i: nat)
    requires i < |s.runners|
  {
    var r := s.runners[i];
    && Flag(i >= Started(s)) + Flag(i in s.pendingContinue) + Flag(Chosen(s.pc) == Some(i)) + Flag(HasJob(s, i))
         == Flag(r.alive)
    && (i >= Started(s) ==> r.block.None?)
    && (i in s.pendingContinue ==> r.block.Some? && !r.savedError && r.writeOffset < End(r))
    && (Chosen(s.pc) == Some(i) && !s.pc.Drop? ==>
      !r.savedError && (if s.pc.OpenEmpty? then r.size == 0 else r.block.Some? && r.writeOffset < End(r)))
    && (Chosen(s.pc) == Some(i) && s.pc.Drop? && !s.pc.error ==>
      s.pc.close && !r.savedError && r.writeOffset == End(r))
    && (Chosen(s.pc) == Some(i) && s.pc.Drop? && s.pc.error ==> (s.pc.close <==> !r.savedError && r.size > 0))
  }

  predicate Places(s: State) {
    && |s.pendingStart| <= |s.runners|
    && (forall k :: 0 <= k < |s.pendingStart| ==> s.pendingStart[k] == Started(s) + k)
    && (forall j, k :: 0 <= j < k < |s.pendingContinue| ==> s.pendingContinue[j] != s.pendingContinue[k])
    && (forall k :: 0 <= k < |s.pendingContinue| ==> s.pendingContinue[k] < |s.runners|)
    && (Chosen(s.pc).Some? ==> Chosen(s.pc).value < |s.runners|)
    && (forall i :: 0 <= i < |s.runners| ==> PlaceOk(s, i))
    && (s.pc.Pick? ==> s.pendingStart != [] && s.pendingContinue == [] && s.nextBuffer.Some?)
  }

  // ---------------------------------------------------------------- rings

  predicate Distinct(q: seq<Tag>) {
    forall j, k :: 0 <= j < k < |q| ==> q[j] != q[k]
  }

  predicate ListsQueued(sq: seq<Tag>, jobs: map<Tag, Job>) {
    && Distinct(sq)
    && (forall k :: 0 <= k < |sq| ==> sq[k] in jobs && jobs[sq[k]].stage.Queued?)
    && (forall t :: t in jobs && jobs[t].stage.Queued? ==> t in sq)
  }

  predicate ListsDone(cq: seq<Tag>, jobs: map<Tag, Job>) {
    && Distinct(cq)
    && (forall k :: 0 <= k < |cq| ==> cq[k] in jobs && jobs[cq[k]].stage.Done?)
    && (forall t :: t in jobs && jobs[t].stage.Done? ==> t in cq)
  }

  /** A read is followed by its own write, and a linked write stands behind its own read. */
  predicate Chained(sq: seq<Tag>, jobs: map<Tag, Job>) {
    && (forall k :: 0 <= k < |sq| && sq[k].kind.Read? ==> k + 1 < |sq| && sq[k + 1] == Tag(sq[k].rid, Write))
    && (forall k :: 0 <= k < |sq| && sq[k].kind.Write? && sq[k] in jobs && jobs[sq[k]].linked ==>
      k > 0 && sq[k - 1] == Tag(sq[k].rid, Read))
  }

  /** A read completes before the write of the same runner does. */
  predicate ReadsFirst(cq: seq<Tag>) {
    forall j, k :: 0 <= j < k < |cq| && cq[k].kind.Read? ==> cq[j] != Tag(cq[k].rid, Write)
  }

  predicate InPass(pc: Pc) {
    pc.Top? || pc.Pick? || pc.OpenSource? || pc.OpenDest? || pc.OpenEmpty? || pc.Issue? || pc.Flush?
    || (pc.Drop? && !pc.back.ToReap?)
  }

  predicate Starting(pc: Pc) {
    pc.Pick? || pc.OpenSource? || pc.OpenDest? || pc.OpenEmpty? || pc.Issue?
  }

  predicate Rings(s: State) {
    && ListsQueued(s.sq, s.jobs) && Chained(s.sq, s.jobs)
    && ListsDone(s.cq, s.jobs) && ReadsFirst(s.cq)
    && (forall t :: t in s.jobs ==> t.rid < |s.runners|)
    && s.submissionsRunning == |s.jobs| <= s.ringSize
    && (Starting(s.pc) ==> s.submissionsRunning + MAX_JOBS <= s.ringSize)
    && (InPass(s.pc) && s.added ==> s.sq != [])
    && (s.pc == Submit(false) ==> s.sq != [])
  }

  // ---------------------------------------------------------------- data

  predicate RunnerGood(s: State, i: nat)
    requires IsRunner(s, i)
  {
    RunnerOk(s.g, s.runners[i], FileOf(s, i), JobAt(s, i, Read), JobAt(s, i, Write), BufferOf(s, i))
  }

  predicate Data(s: State) {
    && (forall i :: 0 <= i < |s.runners| ==> IsRunner(s, i) && RunnerGood(s, i))
    && (forall f :: 0 <= f < |s.files| && !s.files[f].destFd.NeverOpened? ==>
      NoWrongByte(s.files[f].dest, s.files[f].src))
  }

  // ---------------------------------------------------------------- heap

  predicate HeapOk(s: State) {
    && (forall b :: 0 <= b < |s.heap| ==>
      match s.heap[b]
      case Free => true
      case Spare => s.nextBuffer == Some(b)
      case Held(i) => i < |s.runners| && s.runners[i].alive && s.runners[i].block == Some(b))
    && (forall i :: 0 <= i < |s.runners| && s.runners[i].alive && s.runners[i].block.Some? ==>
      s.runners[i].block.value < |s.heap| && s.heap[s.runners[i].block.value] == Held(i))
    && (s.nextBuffer.Some? ==> s.nextBuffer.value < |s.heap| && s.heap[s.nextBuffer.value] == Spare)
  }

  // ---------------------------------------------------------------- descriptors

  /** High-priority reservations the submit thread is still committed to. */
  function FdsWanted(s: State): nat {
    match s.pc
    case OpenSource(i) =>
      if IsRunner(s, i) then Flag(FileOf(s, i).sourceFd.NeverOpened?) + Flag(FileOf(s, i).destFd.NeverOpened?) else 0
    case OpenDest(i) => if IsRunner(s, i) then Flag(FileOf(s, i).destFd.NeverOpened?) else 0
    case OpenEmpty(i) => if IsRunner(s, i) then Flag(FileOf(s, i).destFd.NeverOpened?) else 0
    case _ => 0
  }

  predicate BothOpen(f: File) {
    f.sourceFd.Open? && f.destFd.Open?
  }

  predicate NoneOpen(f: File) {
    !f.sourceFd.Open? && !f.destFd.Open?
  }

  predicate RunnerFds(s: State, i: nat)
    requires IsRunner(s, i)
  {
    var r, f := s.runners[i], FileOf(s, i);
    && (r.alive && !r.savedError ==> !f.sourceFd.Closed? && !f.destFd.Closed?)
    && (r.alive && !r.savedError && (HasJob(s, i) || i in s.pendingContinue || s.pc == Issue(i)) ==> BothOpen(f))
    && (s.pc == OpenDest(i) ==> f.sourceFd.Open?)
    && (r.alive && r.savedError ==>
      r.errorChunks >= 1 && if r.errorChunks == 1 then f.sourceFd.Closed? && f.destFd.Closed? else BothOpen(f))
    && (i < Started(s) && r.size > 0 && s.failedHigh == 0 && s.pc != OpenSource(i) && s.pc != OpenDest(i) ==>
      !f.sourceFd.NeverOpened? && !f.destFd.NeverOpened?)
  }

  predicate FileFds(s: State, f: nat)
    requires f < |s.files|
  {
    && (HighCount(s.files[f]) > 0 ==> s.files[f].first < Started(s))
    && (s.files[f].added < s.files[f].parts ==> !s.files[f].sourceFd.Closed? && !s.files[f].destFd.Closed?)
  }

  predicate Fds(s: State) {
    && s.fdsUsed == RESERVED_FDS + Sum(OpenCounts(s.files)) + s.failedLow + s.failedHigh
    && s.fdsUsed <= s.fdCap - HIGH_PRIORITY_FDS + Sum(HighCounts(s.files)) + s.failedHigh
    && s.fdsUsed + FdsWanted(s) <= s.fdCap
    && (forall i :: 0 <= i < |s.runners| ==> IsRunner(s, i) && RunnerFds(s, i))
    && (forall f :: 0 <= f < |s.files| ==> FileFds(s, f))
  }

  // ---------------------------------------------------------------- counters and outcome

  predicate Counters(s: State) {
    && s.keepAlive == Sum(Lives(s.runners))
    && (forall f :: 0 <= f < |s.files| ==>
      s.files[f].chunksRemaining == s.files[f].parts - s.files[f].added + Sum(LivesOf(s.runners, f)))
    && s.submissionsRunning == Sum(JobCounts(s.runners))
    && s.totalToCopy == Sum(Sizes(s.runners)) + (if s.adder.Counted? && s.files != [] then NextPart(s).size else 0)
    && s.totalCopied == Sum(Writtens(s.runners))
  }

  predicate RetiredOk(s: State, i: nat)
    requires IsRunner(s, i)
  {
    !s.runners[i].alive && !s.errored ==>
      s.runners[i].writeOffset == End(s.runners[i]) && !FileOf(s, i).destFd.NeverOpened?
  }

  predicate Outcome(s: State) {
    && (forall i :: 0 <= i < |s.runners| ==> IsRunner(s, i) && RetiredOk(s, i))
    && (forall f :: 0 <= f < |s.files| && s.files[f].chunksRemaining == 0 && !s.errored ==> NoneOpen(s.files[f]))
    && (s.failedHigh > 0 && !s.errored ==> s.pc.Drop? && s.pc.error)
    && (s.pc.Drop? && !s.pc.error ==> IsRunner(s, s.pc.rid) && !FileOf(s, s.pc.rid).destFd.NeverOpened?)
    && (s.pc.Exited? ==> s.adder.Joined? && s.keepAlive == 0 && s.nextBuffer.None?)
  }

  predicate Inv(s: State) {
    Layout(s) && Places(s) && Rings(s) && Data(s) && HeapOk(s) && Fds(s) && Counters(s) && Outcome(s)
  }
}
