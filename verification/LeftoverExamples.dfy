/** Three runs of a two-part file: one that leaves entries in the ring for ever, one that submits them
    all and returns, and one in which an error in one part leaves both files open. */
module LeftoverExamples {
  import opened Arithmetic
  import opened ChunkPlan
  import opened Runner
  import opened Engine
  import opened Theorems
  import opened Progress
  import opened WorkBound
  import opened Faultless
  import opened Termination
  import opened Examples

  const TWO_BLOCKS := Geometry(2, 1, 1, 0)

  /** The two-part file: its descriptors, its bytes on disk and its chunk counter. */
  function FileA(source: Fd, destFd: Fd, dest: seq<byte>, chunks: int, added: nat): File {
    File([7, 8], 1, dest, source, destFd, chunks, 0, 2, added)
  }

  function FileB(chunks: int, added: nat): File {
    File([9], 1, [], NeverOpened, NeverOpened, chunks, 2, 1, added)
  }

  function Base(adder: Adder, files: seq<File>, runners: seq<Chunk>, pending: seq<nat>, keepAlive: int, total: int): State {
    State(TWO_BLOCKS, 4, 4, adder, Top, false, files, runners, pending, [], None, [Free, Free], [[0], [0]], [], [], map[],
      0, keepAlive, RESERVED_FDS, 0, 0, total, 0, 0, false)
  }

  function PartA(k: nat): Chunk {
    Fresh(0, Part(k, 1))
  }

  function PartB(): Chunk {
    Fresh(1, Part(0, 1))
  }

  lemma Sizes()
    ensures ChunkSize(TWO_BLOCKS, 1) == 1 && PartCount(2, 1) == 2 && PartCount(1, 1) == 1
    ensures PartAt(2, 1, 0) == Part(0, 1) && PartAt(2, 1, 1) == Part(1, 1) && PartAt(1, 1, 0) == Part(0, 1)
    ensures Plannable(TWO_BLOCKS, [7, 8], 1) && Plannable(TWO_BLOCKS, [9], 1)
  {
  }

  lemma AddPart(s: State)
    requires Reachable(s) && s.adder.Planning? && s.files != [] && s.files[Last(s)].added < s.files[Last(s)].parts
    ensures Reachable(AfterPush(s.(totalToCopy := s.totalToCopy + NextPart(s).size)))
  {
    hide Reachable;
    ReachNext(s, CountPart);
    var s1 := s.(totalToCopy := s.totalToCopy + NextPart(s).size, adder := Counted);
    ReachNext(s1, PushPart);
    assert NextPart(s1) == NextPart(s);
    assert Next(s1, PushPart) == AfterPush(s.(totalToCopy := s.totalToCopy + NextPart(s).size));
  }

  lemma AddFile(s: State, src: seq<byte>)
    requires Reachable(s) && s.adder.Idle? && Plannable(s.g, src, 1)
    ensures Reachable(AfterNewFile(s, src, 1, []).(adder := Planning))
  {
    hide Reachable;
    ReachNext(s, NewFile(src, 1, []));
    var s1 := AfterNewFile(s, src, 1, []);
    ReachNext(s1, LowOpen(Skip));
    ReachNext(s1.(adder := OpeningDest), LowOpen(Skip));
  }

  /** Both files are queued and additions are complete. */
  function AllAdded(): State {
    Base(Joined, [FileA(NeverOpened, NeverOpened, [], 2, 2), FileB(1, 1)], [PartA(0), PartA(1), PartB()], [0, 1, 2], 3, 3)
  }

  lemma ReachAdded()
    ensures Reachable(AllAdded())
  {
    Sizes();
    hide Reachable, ChunkSize, PartAt, PartCount, Plannable;
    var s0 := Base(Idle, [], [], [], 0, 0);
    assert Reachable(s0) by { ReachBase(); }
    AddFile(s0, [7, 8]);
    var a0 := Base(Planning, [FileA(NeverOpened, NeverOpened, [], 2, 0)], [], [], 0, 0);
    assert AfterNewFile(s0, [7, 8], 1, []).(adder := Planning) == a0;
    AddPart(a0);
    var a1 := Base(Planning, [FileA(NeverOpened, NeverOpened, [], 2, 1)], [PartA(0)], [0], 1, 1);
    assert AfterPush(a0.(totalToCopy := 1)) == a1;
    AddPart(a1);
    var a2 := Base(Planning, [FileA(NeverOpened, NeverOpened, [], 2, 2)], [PartA(0), PartA(1)], [0, 1], 2, 2);
    assert AfterPush(a1.(totalToCopy := 2)) == a2;
    ReachNext(a2, FileAdded);
    ReachAdded2(a2.(adder := Idle));
  }

  lemma ReachBase()
    ensures Reachable(Base(Idle, [], [], [], 0, 0))
  {
    var s := Base(Idle, [], [], [], 0, 0);
    assert Init(s);
    assert EndsIn([s], [], s);
  }

  lemma ReachAdded2(s: State)
    requires Reachable(s)
    requires s == Base(Idle, [FileA(NeverOpened, NeverOpened, [], 2, 2)], [PartA(0), PartA(1)], [0, 1], 2, 2)
    ensures Reachable(AllAdded())
  {
    Sizes();
    hide Reachable, ChunkSize, PartAt, PartCount, Plannable;
    var fileA := FileA(NeverOpened, NeverOpened, [], 2, 2);
    AddFile(s, [9]);
    var b0 := Base(Planning, [fileA, FileB(1, 0)], [PartA(0), PartA(1)], [0, 1], 2, 2);
    assert AfterNewFile(s, [9], 1, []).(adder := Planning) == b0;
    AddPart(b0);
    var b1 := Base(Planning, [fileA, FileB(1, 1)], [PartA(0), PartA(1), PartB()], [0, 1, 2], 3, 3);
    assert AfterPush(b0.(totalToCopy := 3)) == b1;
    ReachNext(b1, FileAdded);
    ReachNext(b1.(adder := Idle), Join);
  }

  // ---------------------------------------------------------------- issuing both parts

  function Busy(k: nat): Chunk {
    PartA(k).(block := Some(k), jobsRunning := 2)
  }

  /** The job of part k of the two-part file. */
  function JobOf(k: nat, stage: Stage): Job {
    Job(Request(0, k, 1), true, stage)
  }

  function PairJobs(k: nat, jobs: map<Tag, Job>): map<Tag, Job> {
    jobs[Tag(k, Read) := JobOf(k, Queued)][Tag(k, Write) := JobOf(k, Queued)]
  }

  function OneIssued(): State {
    AllAdded().(files := [FileA(Open(true), Open(true), [], 2, 2), FileB(1, 1)],
                runners := [Busy(0), PartA(1), PartB()], pendingStart := [1, 2], heap := [Held(0), Free],
                jobs := PairJobs(0, map[]), sq := [Tag(0, Read), Tag(0, Write)],
                submissionsRunning := 2, fdsUsed := 4, added := true)
  }

  function BothIssued(): State {
    OneIssued().(runners := [Busy(0), Busy(1), PartB()], pendingStart := [2], heap := [Held(0), Held(1)],
                 jobs := PairJobs(1, PairJobs(0, map[])),
                 sq := [Tag(0, Read), Tag(0, Write), Tag(1, Read), Tag(1, Write)],
                 submissionsRunning := 4)
  }

  /** Blocks of one byte need no padding. */
  lemma NoPad(block: nat)
    requires block < 2
    ensures Pad(TWO_BLOCKS, block, 1) == 0
  {
    AlignAddressMeaning(BlockAddress(TWO_BLOCKS, block), 1);
    hide AlignAddress;
  }

  lemma Requests(k: nat)
    requires k < 2
    ensures ReadRequest(Busy(k).(jobsRunning := 0), 1, 0) == Some(Request(0, k, 1))
    ensures WriteRequest(Busy(k).(jobsRunning := 0), 0) == Some(Request(0, k, 1))
  {
    RoundUpMeaning(1, 1);
    SmallWord(1);
    hide RoundUp, U32;
  }

  function FirstTaken(): State {
    AllAdded().(runners := [Busy(0).(jobsRunning := 0), PartA(1), PartB()], heap := [Held(0), Free],
                pendingStart := [1, 2], pc := OpenSource(0))
  }

  lemma TakeFirst()
    requires Reachable(AllAdded())
    ensures Reachable(FirstTaken())
  {
    hide Reachable;
    var s0 := AllAdded();
    ReachNext(s0, Look);
    var s1 := s0.(nextBuffer := Some(0), heap := [Spare, Free], pc := Pick);
    assert FirstFree(s0.heap, 0) == Some(0);
    assert Next(s0, Look) == s1;
    ReachNext(s1, PickFront);
    assert Next(s1, PickFront) == FirstTaken();
  }

  function FirstOpened(): State {
    FirstTaken().(files := [FileA(Open(true), Open(true), [], 2, 2), FileB(1, 1)], fdsUsed := 4, pc := Issue(0))
  }

  lemma OpenFirst()
    requires Reachable(FirstTaken())
    ensures Reachable(FirstOpened())
  {
    hide Reachable;
    var s2 := FirstTaken();
    ReachNext(s2, EnsureOpen(true));
    var s3 := s2.(files := [FileA(Open(true), NeverOpened, [], 2, 2), FileB(1, 1)], fdsUsed := 3, pc := OpenDest(0));
    assert Next(s2, EnsureOpen(true)) == s3;
    ReachNext(s3, EnsureOpen(true));
    assert Next(s3, EnsureOpen(true)) == FirstOpened();
  }

  /** A full batch, spelled out. */
  lemma IssueSpelled(s: State, i: nat, q: Request)
    requires Reachable(s) && Enabled(s, IssueBatch) && i == s.pc.rid
    requires ReadRequest(s.runners[i], FileOf(s, i).align, PadOf(s, i)) == Some(q)
    requires WriteRequest(s.runners[i], PadOf(s, i)) == Some(q)
    ensures Reachable(s.(jobs := s.jobs[Tag(i, Read) := Job(q, true, Queued)][Tag(i, Write) := Job(q, true, Queued)],
      sq := s.sq + [Tag(i, Read)] + [Tag(i, Write)],
      runners := s.runners[i := s.runners[i].(jobsRunning := s.runners[i].jobsRunning + 2)],
      submissionsRunning := s.submissionsRunning + 2, added := true, pc := Top))
  {
    hide Reachable, ReadRequest, WriteRequest, PadOf;
    ReachNext(s, IssueBatch);
  }

  lemma FirstRequests()
    ensures var s := FirstOpened();
      && IsRunner(s, 0) && PadOf(s, 0) == 0 && s.runners[0] == Busy(0).(jobsRunning := 0) && FileOf(s, 0).align == 1
  {
    hide Pad;
    NoPad(0);
  }

  lemma IssueFirst()
    requires Reachable(FirstOpened())
    ensures Reachable(OneIssued())
  {
    hide Reachable, PadOf, ReadRequest, WriteRequest;
    FirstRequests();
    Requests(0);
    var s4 := FirstOpened();
    IssueSpelled(s4, 0, Request(0, 0, 1));
    assert s4.runners[0 := Busy(0)] == OneIssued().runners;
    assert s4.sq + [Tag(0, Read)] + [Tag(0, Write)] == OneIssued().sq;
  }

  function SecondOpened(): State {
    OneIssued().(runners := [Busy(0), Busy(1).(jobsRunning := 0), PartB()], heap := [Held(0), Held(1)],
                 pendingStart := [2], pc := Issue(1))
  }

  lemma TakeSecond()
    requires Reachable(OneIssued())
    ensures Reachable(SecondOpened())
  {
    hide Reachable;
    var s0 := OneIssued();
    ReachNext(s0, Look);
    var s1 := s0.(nextBuffer := Some(1), heap := [Held(0), Spare], pc := Pick);
    assert FirstFree(s0.heap, 0) == FirstFree(s0.heap, 1) == Some(1);
    assert Next(s0, Look) == s1;
    ReachNext(s1, PickFront);
    var s2 := SecondOpened().(pc := OpenSource(1));
    assert Next(s1, PickFront) == s2;
    ReachNext(s2, EnsureOpen(true));
    var s3 := s2.(pc := OpenDest(1));
    assert Next(s2, EnsureOpen(true)) == s3;
    ReachNext(s3, EnsureOpen(true));
    assert Next(s3, EnsureOpen(true)) == SecondOpened();
  }

  lemma SecondRequests()
    ensures var s := SecondOpened();
      && IsRunner(s, 1) && PadOf(s, 1) == 0 && s.runners[1] == Busy(1).(jobsRunning := 0) && FileOf(s, 1).align == 1
  {
    hide Pad;
    NoPad(1);
  }

  lemma IssueSecond()
    requires Reachable(SecondOpened())
    ensures Reachable(BothIssued())
  {
    hide Reachable, PadOf, ReadRequest, WriteRequest;
    SecondRequests();
    Requests(1);
    var s4 := SecondOpened();
    IssueSpelled(s4, 1, Request(0, 1, 1));
    assert s4.runners[1 := Busy(1)] == BothIssued().runners;
    assert s4.sq + [Tag(1, Read)] + [Tag(1, Write)] == BothIssued().sq;
  }

  /** Both parts are in the ring, and the pass is over. */
  lemma ReachSubmit()
    ensures Reachable(BothIssued().(pc := Submit(false)))
  {
    hide Reachable;
    ReachAdded();
    TakeFirst();
    OpenFirst();
    IssueFirst();
    TakeSecond();
    IssueSecond();
    var s0 := BothIssued();
    ReachNext(s0, Look);
    assert RateLimited(s0);
    assert Next(s0, Look) == s0.(pc := Flush);
    ReachNext(s0.(pc := Flush), FlushBatch);
  }

  // ---------------------------------------------------------------- a partial submit

  /** The first pair is with the kernel, the second still in the ring. */
  function OneTaken(): State {
    BothIssued().(jobs := PairJobs(1, map[Tag(0, Read) := JobOf(0, Ready), Tag(0, Write) := JobOf(0, Stage.Blocked)]),
                  sq := [Tag(1, Read), Tag(1, Write)], pc := Reap)
  }

  /** After the first chain the submit may end, or go on. */
  lemma ReachFirstChain()
    ensures Reachable(OneTaken().(pc := Submit(true)))
  {
    hide Reachable;
    ReachSubmit();
    var s0 := BothIssued().(pc := Submit(false));
    ReachNext(s0, Consume);
    var s1 := OneTaken().(pc := Submit(true));
    assert Next(s0, Consume).jobs == s1.jobs;
    assert Next(s0, Consume) == s1;
  }

  lemma ReachOneTaken()
    ensures Reachable(OneTaken())
  {
    hide Reachable;
    ReachFirstChain();
    ReachNext(OneTaken().(pc := Submit(true)), Submitted);
  }

  function OneAnswered(): State {
    OneTaken().(files := [FileA(Open(true), Open(true), [7], 2, 2), FileB(1, 1)], mem := [[7], [0]],
                jobs := PairJobs(1, map[Tag(0, Read) := JobOf(0, Done(1)), Tag(0, Write) := JobOf(0, Done(1))]),
                cq := [Tag(0, Read), Tag(0, Write)])
  }

  function FirstRead(): State {
    OneTaken().(mem := [[7], [0]],
                jobs := PairJobs(1, map[Tag(0, Read) := JobOf(0, Done(1)), Tag(0, Write) := JobOf(0, Ready)]),
                cq := [Tag(0, Read)])
  }

  lemma ReachFirstRead()
    ensures Reachable(FirstRead())
  {
    hide Reachable;
    ReachOneTaken();
    var s0 := OneTaken();
    ReachNext(s0, RunRead(0, 1, [7]));
    assert Overwrite([0], 0, [7]) == [7];
    assert Next(s0, RunRead(0, 1, [7])).jobs == FirstRead().jobs;
    assert Next(s0, RunRead(0, 1, [7])) == FirstRead();
  }

  lemma ReachOneAnswered()
    ensures Reachable(OneAnswered())
  {
    hide Reachable;
    ReachFirstRead();
    var s1 := FirstRead();
    ReachNext(s1, RunWrite(0, 1));
    assert Slice([7], 0, 1) == [7];
    assert WriteAt([], 0, [7]) == [7];
    assert Next(s1, RunWrite(0, 1)).jobs == OneAnswered().jobs;
    assert Next(s1, RunWrite(0, 1)) == OneAnswered();
  }

  /** The first part is copied and gone; the second waits in the ring behind nobody. */
  function Leftover(): State {
    OneAnswered().(files := [FileA(Open(true), Open(true), [7], 1, 2), FileB(1, 1)],
                   runners := [Busy(0).(jobsRunning := 0, readOffset := 1, writeOffset := 1, alive := false), Busy(1), PartB()],
                   heap := [Free, Held(1)], jobs := PairJobs(1, map[]), cq := [],
                   submissionsRunning := 2, keepAlive := 2, totalCopied := 1, added := false, pc := Top)
  }

  lemma Absorbed(k: nat)
    requires k < 2
    ensures Absorb(Busy(k), Read, 1, 1, 2) == Busy(k).(jobsRunning := 1, readOffset := k + 1)
    ensures Absorb(Busy(k).(jobsRunning := 1, readOffset := k + 1), Write, 1, 1, 2)
      == Busy(k).(jobsRunning := 0, readOffset := k + 1, writeOffset := k + 1)
  {
  }

  /** A completion that closes nothing, spelled out. */
  lemma ReapSpelled(s: State, t: Tag, r': Chunk)
    requires Reachable(s) && Enabled(s, ReapOne) && t == s.cq[0] && FileOf(s, t.rid).chunksRemaining == 2
    requires r' == Absorb(s.runners[t.rid], t.kind, s.jobs[t].stage.res, FileOf(s, t.rid).align, 2)
    ensures var s1 := s.(runners := s.runners[t.rid := r'], jobs := s.jobs - {t}, cq := s.cq[1..],
        totalCopied := s.totalCopied + Copied(s.runners[t.rid], t.kind, s.jobs[t].stage.res),
        submissionsRunning := s.submissionsRunning - 1);
      Reachable(match Judge(r')
                case Continue => s1
                case Reschedule => s1.(pendingContinue := s1.pendingContinue + [t.rid])
                case Finished => s1.(pc := Drop(t.rid, true, false, ToReap))
                case Failed => s1.(pc := Drop(t.rid, false, true, ToReap)))
  {
    hide Reachable, Absorb, Judge, Copied;
    ReachNext(s, ReapOne);
  }

  function OneReaped(): State {
    OneAnswered().(runners := [Busy(0).(jobsRunning := 1, readOffset := 1), Busy(1), PartB()],
                   jobs := PairJobs(1, map[Tag(0, Write) := JobOf(0, Done(1))]), cq := [Tag(0, Write)],
                   submissionsRunning := 3)
  }

  lemma ReapRead()
    requires Reachable(OneAnswered())
    ensures Reachable(OneReaped())
  {
    hide Reachable, Absorb;
    Absorbed(0);
    ReapSpelled(OneAnswered(), Tag(0, Read), Busy(0).(jobsRunning := 1, readOffset := 1));
    assert OneAnswered().jobs - {Tag(0, Read)} == OneReaped().jobs;
    assert OneAnswered().runners[0 := Busy(0).(jobsRunning := 1, readOffset := 1)] == OneReaped().runners;
    assert OneAnswered().cq[1..] == OneReaped().cq;
  }

  function TwoReaped(): State {
    OneReaped().(runners := [Busy(0).(jobsRunning := 0, readOffset := 1, writeOffset := 1), Busy(1), PartB()],
                 jobs := PairJobs(1, map[]), cq := [], submissionsRunning := 2, totalCopied := 1,
                 pc := Drop(0, true, false, ToReap))
  }

  lemma ReapWrite()
    requires Reachable(OneReaped())
    ensures Reachable(TwoReaped())
  {
    hide Reachable, Absorb;
    Absorbed(0);
    ReapSpelled(OneReaped(), Tag(0, Write), Busy(0).(jobsRunning := 0, readOffset := 1, writeOffset := 1));
    assert OneReaped().jobs - {Tag(0, Write)} == TwoReaped().jobs;
    assert OneReaped().runners[0 := Busy(0).(jobsRunning := 0, readOffset := 1, writeOffset := 1)] == TwoReaped().runners;
    assert OneReaped().cq[1..] == TwoReaped().cq;
  }

  function FirstDropped(): State {
    Leftover().(added := true, pc := Reap)
  }

  lemma DropFirst()
    requires Reachable(TwoReaped())
    ensures Reachable(FirstDropped())
  {
    hide Reachable;
    ReachNext(TwoReaped(), DropRunner(true));
    assert Next(TwoReaped(), DropRunner(true)) == FirstDropped();
  }

  lemma ReachLeftover()
    ensures Reachable(Leftover())
  {
    hide Reachable, OneAnswered, OneReaped, TwoReaped;
    ReachOneAnswered();
    ReapRead();
    ReapWrite();
    DropFirst();
    ReachNext(FirstDropped(), StopReaping);
    ReachNext(FirstDropped().(pc := Check), CheckDone);
  }

  /** A partial submit in a run without errors can end the copy for good: the entries left behind
      hold the descriptors that the next file waits for, and only the next file would hand them over.
      By `StuckForever` the loop never returns. */
  lemma LeftoversStarve() returns (s: State)
    ensures Reachable(s) && Stuck(s) && !s.errored && s.pc.Top?
    ensures s.jobs != map[] && s.pendingStart != [] && s.ringSize >= MAX_JOBS && s.g.blocks > 0
  {
    ReachLeftover();
    hide Reachable;
    s := Leftover();
    assert Tag(1, Read) in s.jobs;
    assert Starved(s);
  }

  /** No completion waits, so none has stood still. */
  lemma FirstChainLively()
    ensures Lively(OneTaken().(pc := Submit(true))) && Sound(OneTaken().(pc := Submit(true)))
  {
  }

  lemma FirstChainFair()
    ensures Fair([OneTaken().(pc := Submit(true))], [])
  {
    hide Reachable, Lively, Enabled, Next;
    ReachFirstChain();
    FirstChainLively();
  }

  /** The same run before the partial submit ends: if it goes on until the ring is empty instead, the
      loop can still return, with both files right. */
  lemma FullSubmitReturns() returns (states: seq<State>, actions: seq<Action>)
    ensures IsRun(states, actions) && states[0] == OneTaken().(pc := Submit(true))
    ensures var s := states[|actions|];
      s.pc.Exited? && !s.errored && forall f :: 0 <= f < |s.files| ==> s.files[f].dest == s.files[f].src
  {
    hide OneTaken, Fair, Sound, Enabled, Next;
    var s := OneTaken().(pc := Submit(true));
    FirstChainFair();
    FirstChainLively();
    states, actions := LoopReturns([s], []);
    FairIsRun(states, actions);
    assert [s] <= states;
  }

  // ---------------------------------------------------------------- an error in one of two parts

  function BothTaken(): State {
    BothIssued().(jobs := map[Tag(0, Read) := JobOf(0, Ready), Tag(0, Write) := JobOf(0, Stage.Blocked),
                              Tag(1, Read) := JobOf(1, Ready), Tag(1, Write) := JobOf(1, Stage.Blocked)],
                  sq := [], pc := Reap)
  }

  lemma ReachBothTaken()
    ensures Reachable(BothTaken())
  {
    hide Reachable;
    ReachFirstChain();
    var s1 := OneTaken().(pc := Submit(true));
    ReachNext(s1, Consume);
    var s2 := BothTaken().(pc := Submit(true));
    assert Next(s1, Consume).jobs == s2.jobs;
    assert Next(s1, Consume) == s2;
    ReachNext(s2, Submitted);
  }

  /** Part 0 fails to read, part 1 is copied, and only then is the cancelled write of part 0 posted. */
  function AllPosted(): State {
    BothTaken().(files := [FileA(Open(true), Open(true), [0, 8], 2, 2), FileB(1, 1)], mem := [[0], [8]],
                 jobs := map[Tag(0, Read) := JobOf(0, Done(-5)), Tag(0, Write) := JobOf(0, Done(-ECANCELED)),
                             Tag(1, Read) := JobOf(1, Done(1)), Tag(1, Write) := JobOf(1, Done(1))],
                 cq := [Tag(0, Read), Tag(1, Read), Tag(1, Write), Tag(0, Write)])
  }

  function ReadsPosted(): State {
    BothTaken().(mem := [[0], [8]],
                 jobs := map[Tag(0, Read) := JobOf(0, Done(-5)), Tag(0, Write) := JobOf(0, Cancelled),
                             Tag(1, Read) := JobOf(1, Done(1)), Tag(1, Write) := JobOf(1, Ready)],
                 cq := [Tag(0, Read), Tag(1, Read)])
  }

  function FailurePosted(): State {
    BothTaken().(jobs := map[Tag(0, Read) := JobOf(0, Done(-5)), Tag(0, Write) := JobOf(0, Cancelled),
                             Tag(1, Read) := JobOf(1, Ready), Tag(1, Write) := JobOf(1, Stage.Blocked)],
                 cq := [Tag(0, Read)])
  }

  lemma PostFailure()
    requires Reachable(BothTaken())
    ensures Reachable(FailurePosted())
  {
    hide Reachable;
    var s0 := BothTaken();
    ReachNext(s0, RunRead(0, -5, [0]));
    assert Overwrite([0], 0, [0]) == [0];
    assert Next(s0, RunRead(0, -5, [0])).jobs == FailurePosted().jobs;
    assert Next(s0, RunRead(0, -5, [0])) == FailurePosted();
  }

  lemma PostRead()
    requires Reachable(FailurePosted())
    ensures Reachable(ReadsPosted())
  {
    hide Reachable;
    var s1 := FailurePosted();
    ReachNext(s1, RunRead(1, 1, [8]));
    assert Overwrite([0], 0, [8]) == [8];
    assert Next(s1, RunRead(1, 1, [8])).jobs == ReadsPosted().jobs;
    assert Next(s1, RunRead(1, 1, [8])) == ReadsPosted();
  }

  function WritePosted(): State {
    ReadsPosted().(files := [FileA(Open(true), Open(true), [0, 8], 2, 2), FileB(1, 1)],
                   jobs := map[Tag(0, Read) := JobOf(0, Done(-5)), Tag(0, Write) := JobOf(0, Cancelled),
                               Tag(1, Read) := JobOf(1, Done(1)), Tag(1, Write) := JobOf(1, Done(1))],
                   cq := [Tag(0, Read), Tag(1, Read), Tag(1, Write)])
  }

  lemma PostWrite()
    requires Reachable(ReadsPosted())
    ensures Reachable(WritePosted())
  {
    hide Reachable;
    var s0 := ReadsPosted();
    ReachNext(s0, RunWrite(1, 1));
    assert Slice([8], 0, 1) == [8];
    assert WriteAt([], 1, [8]) == [0, 8];
    assert Next(s0, RunWrite(1, 1)).jobs == WritePosted().jobs;
    assert Next(s0, RunWrite(1, 1)) == WritePosted();
  }

  lemma PostCancelled()
    requires Reachable(WritePosted())
    ensures Reachable(AllPosted())
  {
    hide Reachable;
    var s1 := WritePosted();
    ReachNext(s1, PostCancel(0));
    assert Next(s1, PostCancel(0)).jobs == AllPosted().jobs;
    assert Next(s1, PostCancel(0)) == AllPosted();
  }

  function Failing(jobs: int): Chunk {
    Busy(0).(jobsRunning := jobs, savedError := true, errorChunks := 2)
  }

  lemma FailureAbsorbed()
    ensures Absorb(Busy(0), Read, -5, 1, 2) == Failing(1)
    ensures Absorb(Failing(1), Write, -ECANCELED, 1, 1) == Failing(0)
  {
  }

  /** The error is saved while two parts are left, then the other part finishes. */
  function OtherDone(): State {
    AllPosted().(runners := [Failing(1), Busy(1).(jobsRunning := 0, readOffset := 2, writeOffset := 2), PartB()],
                 jobs := map[Tag(0, Write) := JobOf(0, Done(-ECANCELED))], cq := [Tag(0, Write)],
                 submissionsRunning := 1, totalCopied := 1, pc := Drop(1, true, false, ToReap))
  }

  function FailureReaped(): State {
    AllPosted().(runners := [Failing(1), Busy(1), PartB()],
                 jobs := map[Tag(0, Write) := JobOf(0, Done(-ECANCELED)),
                             Tag(1, Read) := JobOf(1, Done(1)), Tag(1, Write) := JobOf(1, Done(1))],
                 cq := [Tag(1, Read), Tag(1, Write), Tag(0, Write)], submissionsRunning := 3)
  }

  function OtherRead(): State {
    FailureReaped().(runners := [Failing(1), Busy(1).(jobsRunning := 1, readOffset := 2), PartB()],
                     jobs := map[Tag(0, Write) := JobOf(0, Done(-ECANCELED)), Tag(1, Write) := JobOf(1, Done(1))],
                     cq := [Tag(1, Write), Tag(0, Write)], submissionsRunning := 2)
  }

  lemma ReapFailure()
    requires Reachable(AllPosted())
    ensures Reachable(FailureReaped())
  {
    hide Reachable, Absorb;
    FailureAbsorbed();
    var s0, s1 := AllPosted(), FailureReaped();
    ReapSpelled(s0, Tag(0, Read), Failing(1));
    assert s0.jobs - {Tag(0, Read)} == s1.jobs && s0.cq[1..] == s1.cq;
    assert s0.runners[0 := Failing(1)] == s1.runners;
  }

  lemma ReapOtherRead()
    requires Reachable(FailureReaped())
    ensures Reachable(OtherRead())
  {
    hide Reachable, Absorb;
    Absorbed(1);
    var s0, s1 := FailureReaped(), OtherRead();
    ReapSpelled(s0, Tag(1, Read), Busy(1).(jobsRunning := 1, readOffset := 2));
    assert s0.jobs - {Tag(1, Read)} == s1.jobs && s0.cq[1..] == s1.cq;
    assert s0.runners[1 := Busy(1).(jobsRunning := 1, readOffset := 2)] == s1.runners;
  }

  lemma ReapOtherWrite()
    requires Reachable(OtherRead())
    ensures Reachable(OtherDone())
  {
    hide Reachable, Absorb;
    Absorbed(1);
    var s0, s1 := OtherRead(), OtherDone();
    ReapSpelled(s0, Tag(1, Write), Busy(1).(jobsRunning := 0, readOffset := 2, writeOffset := 2));
    assert s0.jobs - {Tag(1, Write)} == s1.jobs && s0.cq[1..] == s1.cq;
    assert s0.runners[1 := Busy(1).(jobsRunning := 0, readOffset := 2, writeOffset := 2)] == s1.runners;
  }

  function FailureLeft(): State {
    OtherDone().(files := [FileA(Open(true), Open(true), [0, 8], 1, 2), FileB(1, 1)],
                 runners := [Failing(1), Busy(1).(jobsRunning := 0, readOffset := 2, writeOffset := 2, alive := false), PartB()],
                 heap := [Held(0), Free], keepAlive := 2, pc := Reap)
  }

  lemma DropOther()
    requires Reachable(OtherDone())
    ensures Reachable(FailureLeft())
  {
    hide Reachable;
    ReachNext(OtherDone(), DropRunner(true));
    assert Next(OtherDone(), DropRunner(true)) == FailureLeft();
  }

  function FailureDone(): State {
    FailureLeft().(runners := [Failing(0), Busy(1).(jobsRunning := 0, readOffset := 2, writeOffset := 2, alive := false), PartB()],
                   jobs := map[], cq := [], submissionsRunning := 0, pc := Drop(0, false, true, ToReap))
  }

  lemma ReapCancelled()
    requires Reachable(FailureLeft())
    ensures Reachable(FailureDone())
  {
    hide Reachable, Absorb;
    FailureAbsorbed();
    var s0, s1 := FailureLeft(), FailureDone();
    ReachNext(s0, ReapOne);
    assert s0.jobs - {Tag(0, Write)} == s1.jobs && s0.cq[1..] == s1.cq;
    assert s0.runners[0 := Failing(0)] == s1.runners;
    assert Next(s0, ReapOne) == s1;
  }

  function GivenUp(): State {
    FailureDone().(files := [FileA(Open(true), Open(true), [0, 8], 0, 2), FileB(1, 1)],
                   runners := [Failing(0).(alive := false),
                               Busy(1).(jobsRunning := 0, readOffset := 2, writeOffset := 2, alive := false), PartB()],
                   heap := [Free, Free], keepAlive := 1, errored := true, pc := Reap)
  }

  lemma DropFailed()
    requires Reachable(FailureDone())
    ensures Reachable(GivenUp())
  {
    hide Reachable;
    ReachNext(FailureDone(), DropRunner(true));
    assert Next(FailureDone(), DropRunner(true)) == GivenUp();
  }

  lemma ReachFailureLeft()
    ensures Reachable(FailureLeft())
  {
    hide Reachable, BothTaken, FailurePosted, ReadsPosted, WritePosted, AllPosted, FailureReaped, OtherRead, OtherDone, FailureLeft;
    ReachBothTaken();
    PostFailure();
    PostRead();
    PostWrite();
    PostCancelled();
    ReapFailure();
    ReapOtherRead();
    ReapOtherWrite();
    DropOther();
  }

  /** An error saved while another part was still to go, and that part finishing in between: the last
      part goes without anybody having closed the two files. */
  lemma BothLeftOpen() returns (s: State)
    ensures Reachable(s) && |s.files| == 2 && s.files[0].parts == 2 && s.errored
    ensures s.files[0].chunksRemaining == 0 && s.files[0].sourceFd.Open? && s.files[0].destFd.Open?
  {
    hide Reachable;
    ReachFailureLeft();
    ReapCancelled();
    DropFailed();
    s := GivenUp();
  }
}
