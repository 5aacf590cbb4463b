/** The copy engine as one transition system: the adding thread, the submit thread and the kernel. */
module Engine {
  import opened Arithmetic
  import opened ChunkPlan
  import opened Runner

  newtype byte = x: int | 0 <= x < 256

  const RESERVED_FDS: nat := 2
  const HIGH_PRIORITY_FDS: nat := 2
  const MAX_JOBS: nat := 2

  datatype Fd = NeverOpened | Open(high: bool) | Closed

  /** One copy job: the two descriptors, the shared chunk counter and the bytes on disk. `first`,
      `parts` and `added` say which runners the job has (first .. first + added). */
  datatype File = File(
    src: seq<byte>, align: nat, dest: seq<byte>,
    sourceFd: Fd, destFd: Fd, chunksRemaining: int,
    first: nat, parts: nat, added: nat)

  /** The user_data of a submission: a runner and one of its two event buffers. */
  datatype Tag = Tag(rid: nat, kind: Kind)

  /** Queued: in the submission ring. Blocked: behind a linked read. Ready: the kernel may run it.
      Cancelled: its linked read fell short. Done: its completion is in the completion ring. */
  datatype Stage = Queued | Blocked | Ready | Cancelled | Done(res: int)

  datatype Job = Job(request: Request, linked: bool, stage: Stage)

  datatype Holder = Free | Spare | Held(rid: nat)

  datatype Adder = Idle | OpeningSource | OpeningDest | Planning | Counted | Joined

  datatype Back = ToTop | ToFlush | ToReap

  /** Where the submit thread stands. `Drop` is on its way to delete a runner, after closing its files
      or after reporting an error. */
  datatype Pc =
    | Top | Pick | OpenSource(rid: nat) | OpenDest(rid: nat) | OpenEmpty(rid: nat) | Issue(rid: nat)
    | Flush | Submit(consumed: bool) | Reap | Check | Exited
    | Drop(rid: nat, close: bool, error: bool, back: Back)

  datatype State = State(
    g: Geometry, ringSize: nat, fdCap: nat,
    adder: Adder, pc: Pc, added: bool,
    files: seq<File>, runners: seq<Chunk>,
    pendingStart: seq<nat>, pendingContinue: seq<nat>,
    nextBuffer: Option<nat>, heap: seq<Holder>, mem: seq<seq<byte>>,
    sq: seq<Tag>, cq: seq<Tag>, jobs: map<Tag, Job>,
    submissionsRunning: int, keepAlive: int,
    fdsUsed: int, failedLow: nat, failedHigh: nat,
    totalToCopy: int, totalCopied: int, totalFailed: int,
    errored: bool)

  datatype Low = Skip | Opened | OpenFailed

  datatype Action =
    // the adding thread
    | NewFile(src: seq<byte>, align: nat, stale: seq<byte>)
    | LowOpen(low: Low)
    | CountPart
    | PushPart
    | FileAdded
    | Join
    | AdderError
    // the submit thread
    | Look
    | PickFront
    | EnsureOpen(ok: bool)
    | IssueBatch
    | FlushBatch
    | Consume
    | Submitted
    | ReapOne
    | DropRunner(closed: bool)
    | StopReaping
    | CheckDone
    // the kernel
    | RunRead(reader: nat, res: int, data: seq<byte>)
    | RunWrite(writer: nat, res: int)
    | PostCancel(cancelled: nat)

  predicate IsAdder(a: Action) {
    a.NewFile? || a.LowOpen? || a.CountPart? || a.PushPart? || a.FileAdded? || a.Join? || a.AdderError?
  }

  predicate IsKernel(a: Action) {
    a.RunRead? || a.RunWrite? || a.PostCancel?
  }

  /** All steps but those of the submit thread. */
  predicate IsOther(a: Action) {
    IsAdder(a) || IsKernel(a)
  }

  // ---------------------------------------------------------------- bytes

  /** Overwrites a stretch of memory; what falls outside is lost (and never happens). */
  function Overwrite(buf: seq<byte>, pos: nat, data: seq<byte>): (r: seq<byte>)
    ensures |r| == |buf|
  {
    seq(|buf|, k requires 0 <= k < |buf| => if pos <= k < pos + |data| then data[k - pos] else buf[k])
  }

  /** The bytes [pos, pos + len) of a buffer, zero where it has none. */
  function Slice(buf: seq<byte>, pos: nat, len: nat): (r: seq<byte>)
    ensures |r| == len
  {
    seq(len, k requires 0 <= k < len => if pos + k < |buf| then buf[pos + k] else 0)
  }

  /** `pwrite`: a file grows to hold the data, and a gap reads as zeros. */
  function WriteAt(file: seq<byte>, off: nat, data: seq<byte>): (r: seq<byte>)
    ensures data == [] ==> r == file
    ensures data != [] ==> |r| == (if |file| < off + |data| then off + |data| else |file|)
  {
    if data == [] then file
    else
      var n := if |file| < off + |data| then off + |data| else |file|;
      seq(n, k requires 0 <= k < n =>
        if off <= k < off + |data| then data[k - off] else if k < |file| then file[k] else 0)
  }

  // ---------------------------------------------------------------- pieces of state

  function Last(s: State): nat
    requires s.files != []
  {
    |s.files| - 1
  }

  function JobAt(s: State, i: nat, kind: Kind): Option<Job> {
    if Tag(i, kind) in s.jobs then Some(s.jobs[Tag(i, kind)]) else None
  }

  predicate IsRunner(s: State, i: nat) {
    i < |s.runners| && s.runners[i].file < |s.files|
  }

  function FileOf(s: State, i: nat): File
    requires IsRunner(s, i)
  {
    s.files[s.runners[i].file]
  }

  function PadOf(s: State, i: nat): nat
    requires IsRunner(s, i)
  {
    var r := s.runners[i];
    if r.block.Some? then Pad(s.g, r.block.value, FileOf(s, i).align) else 0
  }

  function BufferOf(s: State, i: nat): seq<byte>
    requires i < |s.runners|
  {
    var r := s.runners[i];
    if r.block.Some? && r.block.value < |s.mem| then s.mem[r.block.value] else []
  }

  predicate NeedsFds(f: File) {
    !f.sourceFd.Open? || !f.destFd.Open?
  }

  function NextPart(s: State): Part
    requires s.files != []
  {
    var f := s.files[Last(s)];
    PartAt(|f.src|, ChunkSize(s.g, f.align), f.added)
  }

  /** The first free block, as `getBlock` scans for it. */
  function FirstFree(heap: seq<Holder>, from: nat): Option<nat>
    decreases |heap| - from
  {
    if from >= |heap| then None
    else if heap[from].Free? then Some(from)
    else FirstFree(heap, from + 1)
  }

  function CloseFd(fd: Fd): Fd {
    if fd.Open? then Closed else fd
  }

  function OpenCount(f: File): nat {
    (if f.sourceFd.Open? then 1 else 0) + (if f.destFd.Open? then 1 else 0)
  }

  /** `handleFileClose`: closes both files for the last remaining chunk only. */
  function CloseIfLast(s: State, fid: nat): State
    requires fid < |s.files|
  {
    var f := s.files[fid];
    if f.chunksRemaining == 1 then
      s.(files := s.files[fid := f.(sourceFd := CloseFd(f.sourceFd), destFd := CloseFd(f.destFd))],
         fdsUsed := s.fdsUsed - OpenCount(f))
    else s
  }

  /** `~CopyRunner`. */
  function Delete(s: State, i: nat): State
    requires IsRunner(s, i)
  {
    var r := s.runners[i];
    var f := s.files[r.file];
    s.(runners := s.runners[i := r.(alive := false)],
       files := s.files[r.file := f.(chunksRemaining := f.chunksRemaining - 1)],
       keepAlive := s.keepAlive - 1,
       heap := if r.block.Some? && r.block.value < |s.heap| then s.heap[r.block.value := Free] else s.heap)
  }

  // ---------------------------------------------------------------- guards

  predicate RateLimited(s: State) {
    U64(s.ringSize - s.submissionsRunning) < MAX_JOBS
  }

  predicate OutOfFds(s: State) {
    U64(s.fdCap - s.fdsUsed) < HIGH_PRIORITY_FDS
  }

  predicate Waiting(s: State) {
    !s.adder.Joined? && s.totalCopied >= s.totalToCopy / 8
  }

  /** Files the planner accepts: the code aborts on the others. */
  predicate Plannable(g: Geometry, src: seq<byte>, align: nat) {
    src != [] ==>
      && Fits(g, align)
      && ChunkSize(g, align) > 0
      && PartCount(|src|, ChunkSize(g, align)) <= INT32_MAX
  }

  predicate Enabled(s: State, a: Action) {
    match a
    case NewFile(src, align, _) => s.adder.Idle? && Plannable(s.g, src, align)
    case LowOpen(low) =>
      && (s.adder.OpeningSource? || s.adder.OpeningDest?) && s.files != []
      && (low.Skip? || s.fdsUsed < s.fdCap - HIGH_PRIORITY_FDS)
    case CountPart => s.adder.Planning? && s.files != [] && s.files[Last(s)].added < s.files[Last(s)].parts
    case PushPart => s.adder.Counted? && s.files != []
    case FileAdded => s.adder.Planning? && s.files != [] && s.files[Last(s)].added == s.files[Last(s)].parts
    case Join => s.adder.Idle?
    case AdderError => !s.adder.Joined?
    case Look => s.pc.Top?
    case PickFront => s.pc.Pick? && s.pendingStart != [] && IsRunner(s, s.pendingStart[0])
    case EnsureOpen(ok) =>
      && (s.pc.OpenSource? || s.pc.OpenDest? || s.pc.OpenEmpty?) && IsRunner(s, s.pc.rid)
      && (FdWanted(s).NeverOpened? ==> s.fdsUsed < s.fdCap)
      && (!FdWanted(s).NeverOpened? ==> ok)
    case IssueBatch => s.pc.Issue? && IsRunner(s, s.pc.rid)
    case FlushBatch => s.pc.Flush?
    case Consume => s.pc.Submit? && s.sq != [] && s.sq[0] in s.jobs
    case Submitted => s.pc.Submit? && s.pc.consumed
    case ReapOne =>
      && s.pc.Reap? && s.submissionsRunning != 0 && s.cq != []
      && s.cq[0] in s.jobs && s.jobs[s.cq[0]].stage.Done? && IsRunner(s, s.cq[0].rid)
    case DropRunner(closed) =>
      && s.pc.Drop? && IsRunner(s, s.pc.rid)
      && (closed || (s.pc.close && !s.pc.error && FileOf(s, s.pc.rid).chunksRemaining == 1 && OpenCount(FileOf(s, s.pc.rid)) > 0))
    case StopReaping => s.pc.Reap? && (s.submissionsRunning == 0 || s.cq == [])
    case CheckDone => s.pc.Check?
    case RunRead(i, res, data) =>
      && IsRunner(s, i) && Tag(i, Read) in s.jobs && s.jobs[Tag(i, Read)].stage.Ready?
      && KernelRead(FileOf(s, i).src, s.jobs[Tag(i, Read)].request, res, data)
    case RunWrite(i, res) =>
      && IsRunner(s, i) && Tag(i, Write) in s.jobs && s.jobs[Tag(i, Write)].stage.Ready?
      && res <= s.jobs[Tag(i, Write)].request.len
    case PostCancel(i) => Tag(i, Write) in s.jobs && s.jobs[Tag(i, Write)].stage.Cancelled?
  }

  /** What a read may do: fail, or deliver a prefix of what the file holds there. The rest of the
      target range may be left with anything in it. */
  predicate KernelRead(src: seq<byte>, q: Request, res: int, data: seq<byte>) {
    && |data| == q.len
    && res <= q.len
    && (res > 0 ==> q.off + res <= |src| && data[..res] == src[q.off..q.off + res])
  }

  /** The descriptor the submit thread is about to make sure of. */
  function FdWanted(s: State): Fd
    requires (s.pc.OpenSource? || s.pc.OpenDest? || s.pc.OpenEmpty?) && IsRunner(s, s.pc.rid)
  {
    if s.pc.OpenSource? then FileOf(s, s.pc.rid).sourceFd else FileOf(s, s.pc.rid).destFd
  }

  // ---------------------------------------------------------------- effects

  function Next(s: State, a: Action): State
    requires Enabled(s, a)
  {
    match a
    case NewFile(src, align, stale) => AfterNewFile(s, src, align, stale)
    case LowOpen(low) => AfterLowOpen(s, low)
    case CountPart => s.(totalToCopy := s.totalToCopy + NextPart(s).size, adder := Counted)
    case PushPart => AfterPush(s)
    case FileAdded => s.(adder := Idle)
    case Join => s.(adder := Joined)
    case AdderError => s.(errored := true)
    case Look => AfterLook(s)
    case PickFront => AfterPick(s)
    case EnsureOpen(ok) => AfterOpen(s, ok)
    case IssueBatch => AfterIssue(s, s.pc.rid)
    case FlushBatch => s.(pc := if s.added then Submit(false) else Reap)
    case Consume => AfterConsume(s)
    case Submitted => s.(pc := Reap)
    case ReapOne => AfterReap(s, s.cq[0])
    case DropRunner(closed) => AfterDrop(s, closed)
    case StopReaping => s.(pc := Check)
    case CheckDone => AfterCheck(s)
    case RunRead(i, res, data) => AfterRead(s, i, res, data)
    case RunWrite(i, res) => AfterWrite(s, i, res)
    case PostCancel(i) => AfterCancel(s, i)
  }

  function AfterNewFile(s: State, src: seq<byte>, align: nat, stale: seq<byte>): State
    requires src != [] ==> ChunkSize(s.g, align) > 0
  {
    var parts := if src == [] then 1 else PartCount(|src|, ChunkSize(s.g, align));
    var f := File(src, align, stale, NeverOpened, NeverOpened, parts, |s.runners|, parts, 0);
    s.(files := s.files + [f], adder := OpeningSource)
  }

  function AfterLowOpen(s: State, low: Low): State
    requires s.files != []
  {
    var f := s.files[Last(s)];
    var then' := if s.adder.OpeningSource? then OpeningDest else Planning;
    match low
    case Skip => s.(adder := then')
    case OpenFailed => s.(adder := then', fdsUsed := s.fdsUsed + 1, failedLow := s.failedLow + 1)
    case Opened =>
      var f' := if s.adder.OpeningSource? then f.(sourceFd := Open(false))
                else f.(destFd := Open(false), dest := []);
      s.(adder := then', fdsUsed := s.fdsUsed + 1, files := s.files[Last(s) := f'])
  }

  function AfterPush(s: State): State
    requires s.files != []
  {
    var f := s.files[Last(s)];
    s.(runners := s.runners + [Fresh(Last(s), NextPart(s))],
       pendingStart := s.pendingStart + [|s.runners|],
       keepAlive := s.keepAlive + 1,
       files := s.files[Last(s) := f.(added := f.added + 1)],
       adder := Planning)
  }

  function TakeBuffer(s: State): State {
    if s.nextBuffer.Some? then s
    else
      var b := FirstFree(s.heap, 0);
      if b.Some? && b.value < |s.heap| then s.(nextBuffer := b, heap := s.heap[b.value := Spare]) else s
  }

  function AfterLook(s: State): State {
    if |s.pendingStart| + |s.pendingContinue| == 0 || RateLimited(s) || Waiting(s) then s.(pc := Flush)
    else
      var s1 := TakeBuffer(s);
      if s.pendingContinue != [] then
        s1.(pendingContinue := s.pendingContinue[1..], pc := OpenSource(s.pendingContinue[0]))
      else if s1.nextBuffer.Some? && s.pendingStart != [] then s1.(pc := Pick)
      else s1.(pc := Flush)
  }

  function AfterPick(s: State): State
    requires s.pendingStart != [] && IsRunner(s, s.pendingStart[0])
  {
    var i := s.pendingStart[0];
    var r := s.runners[i];
    if OutOfFds(s) && NeedsFds(FileOf(s, i)) then s.(pc := Flush)
    else
      var s1 := if NeedsBuffer(r) && s.nextBuffer.Some? && s.nextBuffer.value < |s.heap|
                then s.(runners := s.runners[i := r.(block := s.nextBuffer)],
                        heap := s.heap[s.nextBuffer.value := Held(i)],
                        nextBuffer := None)
                else s;
      s1.(pendingStart := s.pendingStart[1..],
          pc := if r.size == 0 then OpenEmpty(i) else OpenSource(i))
  }

  function PcAfter(back: Back): Pc {
    match back
    case ToTop => Top
    case ToFlush => Flush
    case ToReap => Reap
  }

  /** `closed` is false when a close has failed, which is reported; the file counts as closed anyway. */
  function AfterDrop(s: State, closed: bool): State
    requires s.pc.Drop? && IsRunner(s, s.pc.rid)
  {
    var i := s.pc.rid;
    var s1 := if s.pc.close then CloseIfLast(s, s.runners[i].file) else s;
    Delete(s1, i).(errored := s.errored || s.pc.error || !closed, pc := PcAfter(s.pc.back))
  }

  /** `ensureOpened`. A start that fails to open a file gives up its runner and ends the pass; an
      empty file is finished once its destination exists. */
  function AfterOpen(s: State, ok: bool): State
    requires (s.pc.OpenSource? || s.pc.OpenDest? || s.pc.OpenEmpty?) && IsRunner(s, s.pc.rid)
  {
    var i := s.pc.rid;
    var fid := s.runners[i].file;
    var f := s.files[fid];
    var s1 :=
      if !FdWanted(s).NeverOpened? then s
      else if !ok then s.(fdsUsed := s.fdsUsed + 1, failedHigh := s.failedHigh + 1)
      else
        var f' := if s.pc.OpenSource? then f.(sourceFd := Open(true))
                  else f.(destFd := Open(true), dest := []);
        s.(fdsUsed := s.fdsUsed + 1, files := s.files[fid := f']);
    if s.pc.OpenEmpty? then s1.(pc := Drop(i, ok, !ok, ToTop))
    else if !ok then s1.(pc := Drop(i, true, true, ToFlush), totalFailed := s.totalFailed + s.runners[i].size)
    else if s.pc.OpenSource? then s1.(pc := OpenDest(i))
    else s1.(pc := Issue(i))
  }

  /** `submitReadWriteCommands` once both files are open. */
  function AfterIssue(s: State, i: nat): State
    requires IsRunner(s, i)
  {
    var r := s.runners[i];
    var read := ReadRequest(r, FileOf(s, i).align, PadOf(s, i));
    var write := WriteRequest(r, PadOf(s, i));
    var n := (if read.Some? then 1 else 0) + (if write.Some? then 1 else 0);
    var jobs1 := if read.Some? then s.jobs[Tag(i, Read) := Job(read.value, true, Queued)] else s.jobs;
    var jobs2 := if write.Some? then jobs1[Tag(i, Write) := Job(write.value, read.Some?, Queued)] else jobs1;
    s.(jobs := jobs2,
       sq := s.sq + (if read.Some? then [Tag(i, Read)] else []) + (if write.Some? then [Tag(i, Write)] else []),
       runners := s.runners[i := r.(jobsRunning := r.jobsRunning + n)],
       submissionsRunning := s.submissionsRunning + n,
       added := true, pc := Top)
  }

  /** The kernel takes one chain off the submission ring: an entry with the link flag takes the
      entry behind it along, whatever that entry is. */
  function AfterConsume(s: State): State
    requires s.sq != [] && s.sq[0] in s.jobs
  {
    var t := s.sq[0];
    var head := s.jobs[t];
    if t.kind.Read? && |s.sq| > 1 && s.sq[1] in s.jobs then
      var t2 := s.sq[1];
      s.(jobs := s.jobs[t := head.(stage := Ready)][t2 := s.jobs[t2].(stage := Blocked)],
         sq := s.sq[2..], pc := Submit(true))
    else
      s.(jobs := s.jobs[t := head.(stage := Ready)], sq := s.sq[1..], pc := Submit(true))
  }

  function AfterRead(s: State, i: nat, res: int, data: seq<byte>): State
    requires IsRunner(s, i) && Tag(i, Read) in s.jobs
  {
    var job := s.jobs[Tag(i, Read)];
    var b := s.runners[i].block;
    var mem := if b.Some? && b.value < |s.mem|
               then s.mem[b.value := Overwrite(s.mem[b.value], job.request.pos, data)] else s.mem;
    var jobs1 := s.jobs[Tag(i, Read) := job.(stage := Done(res))];
    var jobs2 :=
      if Tag(i, Write) in s.jobs && s.jobs[Tag(i, Write)].stage.Blocked?
      then jobs1[Tag(i, Write) :=
        s.jobs[Tag(i, Write)].(stage := if res == job.request.len then Ready else Cancelled)]
      else jobs1;
    s.(mem := mem, jobs := jobs2, cq := s.cq + [Tag(i, Read)])
  }

  function AfterWrite(s: State, i: nat, res: int): State
    requires IsRunner(s, i) && Tag(i, Write) in s.jobs
  {
    var job := s.jobs[Tag(i, Write)];
    var f := FileOf(s, i);
    var data := Slice(BufferOf(s, i), job.request.pos, if res > 0 then res else 0);
    s.(files := s.files[s.runners[i].file := f.(dest := WriteAt(f.dest, job.request.off, data))],
       jobs := s.jobs[Tag(i, Write) := job.(stage := Done(res))],
       cq := s.cq + [Tag(i, Write)])
  }

  function AfterCancel(s: State, i: nat): State
    requires Tag(i, Write) in s.jobs
  {
    s.(jobs := s.jobs[Tag(i, Write) := s.jobs[Tag(i, Write)].(stage := Done(-ECANCELED))],
       cq := s.cq + [Tag(i, Write)])
  }

  /** One turn of the completion loop. */
  function AfterReap(s: State, t: Tag): State
    requires t in s.jobs && s.jobs[t].stage.Done? && IsRunner(s, t.rid)
    requires s.cq != []
  {
    var i, res := t.rid, s.jobs[t].stage.res;
    var r := s.runners[i];
    var chunks := if FileOf(s, i).chunksRemaining >= 0 then FileOf(s, i).chunksRemaining else 0;
    var r' := Absorb(r, t.kind, res, FileOf(s, i).align, chunks);
    var s1 := s.(runners := s.runners[i := r'],
                 totalCopied := s.totalCopied + Copied(r, t.kind, res),
                 jobs := s.jobs - {t}, cq := s.cq[1..],
                 submissionsRunning := s.submissionsRunning - 1);
    var s2 := if r'.savedError && !r.savedError then CloseIfLast(s1, r.file) else s1;
    match Judge(r')
    case Continue => s2
    case Reschedule => s2.(pendingContinue := s2.pendingContinue + [i])
    case Finished => s2.(pc := Drop(i, true, false, ToReap))
    case Failed => s2.(pc := Drop(i, false, true, ToReap))
  }

  /** `isDone`, and the return of the spare buffer on the way out. */
  function AfterCheck(s: State): State {
    if s.adder.Joined? && s.keepAlive == 0 then
      var heap := if s.nextBuffer.Some? && s.nextBuffer.value < |s.heap|
                  then s.heap[s.nextBuffer.value := Free] else s.heap;
      s.(pc := Exited, heap := heap, nextBuffer := None)
    else s.(pc := Top, added := false)
  }

  lemma TagShape(t: Tag)
    ensures t == Tag(t.rid, Read) || t == Tag(t.rid, Write)
  {
    match t.kind
    case Read => assert t == Tag(t.rid, Read);
    case Write => assert t == Tag(t.rid, Write);
  }

  // ---------------------------------------------------------------- runs

  predicate ValidConfig(g: Geometry, ringSize: nat, fdCap: nat) {
    ValidGeometry(g) && ringSize < TWO_32 && RESERVED_FDS + HIGH_PRIORITY_FDS <= fdCap < TWO_64
  }

  /** The state `start()` leaves behind. */
  predicate Init(s: State) {
    && ValidConfig(s.g, s.ringSize, s.fdCap)
    && s.adder.Idle? && s.pc.Top? && !s.added
    && s.files == [] && s.runners == [] && s.pendingStart == [] && s.pendingContinue == []
    && s.nextBuffer.None?
    && |s.heap| == |s.mem| == s.g.blocks
    && (forall b :: 0 <= b < |s.heap| ==> s.heap[b].Free?)
    && (forall b :: 0 <= b < |s.mem| ==> |s.mem[b]| == s.g.blockSize)
    && s.sq == [] && s.cq == [] && s.jobs == map[]
    && s.submissionsRunning == s.keepAlive == 0
    && s.fdsUsed == RESERVED_FDS && s.failedLow == s.failedHigh == 0
    && s.totalToCopy == s.totalCopied == s.totalFailed == 0
    && !s.errored
  }

  predicate IsRun(states: seq<State>, actions: seq<Action>) {
    && |states| == |actions| + 1
    && forall k :: 0 <= k < |actions| ==> Enabled(states[k], actions[k]) && states[k + 1] == Next(states[k], actions[k])
  }
}
