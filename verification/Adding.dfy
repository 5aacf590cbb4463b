/** The adding thread from one file to the next: which files it accepts, and what it makes of them. */
module Adding {
  import opened Arithmetic
  import opened ChunkPlan
  import opened Runner
  import opened Engine
  import opened Progress
  import opened Theorems

  // ---------------------------------------------------------------- which files are accepted

  /** A file is accepted if and only if it is empty, or its alignment is a power of two for which the
      largest chunk that fits anywhere is not empty and cuts it into at most 2^31 - 1 parts. */
  lemma Accepted(s: State, src: seq<byte>, align: nat, stale: seq<byte>)
    requires s.adder.Idle? && ValidGeometry(s.g)
    ensures Enabled(s, NewFile(src, align, stale)) <==>
      src == [] || (IsPow2(align) && exists c: nat :: Largest(s.g, align, c) && 0 < c && |src| <= c * 0x7fff_ffff)
  {
    hide ChunkSize, Fits, Largest, FitsAnywhere, ValidGeometry, PartCount, IsPow2;
    if src != [] {
      FitsIsPow2(s.g, align);
      if IsPow2(align) {
        Pow2Positive(align);
        ChunkSizeLargest(s.g, align);
        if Fits(s.g, align) {
          var c := ChunkSize(s.g, align);
          ChunkSizeAligned(s.g, align);
          FewParts(|src|, c);
          forall d: nat | Largest(s.g, align, d)
            ensures d == c
          {
            LargestIsOne(s.g, align, c, d);
          }
        } else {
          forall c: nat | Largest(s.g, align, c)
            ensures c == 0
          {
            NoneFits(s.g, align, c);
          }
        }
      }
    }
  }

  lemma FitsIsPow2(g: Geometry, align: nat)
    ensures Fits(g, align) ==> IsPow2(align)
  {
  }

  lemma FewParts(fileSize: nat, chunk: nat)
    requires chunk > 0 && fileSize > 0
    ensures PartCount(fileSize, chunk) <= INT32_MAX <==> fileSize <= chunk * 0x7fff_ffff
  {
    PartCountBounds(fileSize, chunk);
    var n := PartCount(fileSize, chunk);
    hide PartCount;
    if n <= INT32_MAX {
      MulAtMost(n, INT32_MAX, chunk);
    } else {
      MulAtMost(INT32_MAX, n - 1, chunk);
    }
  }

  /** If not even one unit fits, nothing but the empty stretch does. */
  lemma NoneFits(g: Geometry, align: nat, c: nat)
    requires align > 0 && Largest(g, align, c) && !FitsAnywhere(g, align, align)
    ensures c == 0
  {
    MultiplesApart(0, c, align);
  }

  // ---------------------------------------------------------------- what becomes of them

  function FreshParts(file: nat, parts: seq<Part>): seq<Chunk> {
    seq(|parts|, k requires 0 <= k < |parts| => Fresh(file, parts[k]))
  }

  function Ids(from: nat, n: nat): seq<nat> {
    seq(n, k => from + k)
  }

  /** A file whose first k parts of n have been added, all other fields as a new file has them. */
  function Planned(s: State, src: seq<byte>, align: nat, stale: seq<byte>, n: nat, k: nat): File {
    File(src, align, stale, NeverOpened, NeverOpened, n, |s.runners|, n, k)
  }

  /** The state in which k parts of the file have been queued; `bytes` is their length. */
  function Queued(s: State, src: seq<byte>, align: nat, stale: seq<byte>, parts: seq<Part>, k: nat, bytes: nat): State
    requires k <= |parts|
  {
    s.(adder := Planning,
       files := s.files + [Planned(s, src, align, stale, |parts|, k)],
       runners := s.runners + FreshParts(|s.files|, parts[..k]),
       pendingStart := s.pendingStart + Ids(|s.runners|, k),
       keepAlive := s.keepAlive + k,
       totalToCopy := s.totalToCopy + bytes)
  }

  /** How many of the file's bytes its first k parts cover. */
  function Covered(src: seq<byte>, c: nat, k: nat): nat {
    Min(k * c, |src|)
  }

  lemma OneMore(s: State, src: seq<byte>, align: nat, stale: seq<byte>, parts: seq<Part>, k: nat, bytes: nat)
    requires k < |parts| && parts[k] == PartAt(|src|, ChunkSize(s.g, align), k)
    ensures var q := Queued(s, src, align, stale, parts, k, bytes);
      && Enabled(q, CountPart) && Enabled(Next(q, CountPart), PushPart)
      && Next(Next(q, CountPart), PushPart) == Queued(s, src, align, stale, parts, k + 1, bytes + parts[k].size)
  {
    hide ChunkSize, PartAt;
    var q := Queued(s, src, align, stale, parts, k, bytes);
    var r := Next(q, CountPart);
    assert NextPart(q) == NextPart(r) == parts[k];
    var z := Queued(s, src, align, stale, parts, k + 1, bytes + parts[k].size);
    assert parts[..k + 1] == parts[..k] + [parts[k]];
    assert FreshParts(|s.files|, parts[..k + 1]) == FreshParts(|s.files|, parts[..k]) + [Fresh(|s.files|, parts[k])];
    assert q.runners + [Fresh(|s.files|, parts[k])] == z.runners;
    assert q.pendingStart + [|q.runners|] == z.pendingStart;
    assert Next(r, PushPart).files == z.files;
  }

  /** A run of the adding thread alone, which neither reports an error nor ends additions. */
  predicate IsAdding(states: seq<State>, actions: seq<Action>) {
    && IsRun(states, actions)
    && forall k :: 0 <= k < |actions| ==> IsAdder(actions[k]) && !actions[k].Join? && !actions[k].AdderError?
  }

  lemma AddingStep(states: seq<State>, actions: seq<Action>, a: Action)
    requires IsAdding(states, actions) && Enabled(states[|actions|], a) && IsAdder(a) && !a.Join? && !a.AdderError?
    ensures IsAdding(states + [Next(states[|actions|], a)], actions + [a])
  {
    hide Enabled, Next;
    var n := |actions|;
    var ss, aa := states + [Next(states[n], a)], actions + [a];
    assert forall k :: 0 <= k <= n ==> ss[k] == states[k];
    assert forall k :: 0 <= k < n ==> aa[k] == actions[k];
  }

  /** The new file is there, and both early opens have been passed over. */
  lemma BeginFile(s: State, src: seq<byte>, align: nat, stale: seq<byte>)
      returns (states: seq<State>, actions: seq<Action>)
    requires Enabled(s, NewFile(src, align, stale))
    ensures IsAdding(states, actions) && states[0] == s
    ensures states[|actions|] == Queued(s, src, align, stale, PlannedParts(s.g, |src|, align), 0, 0)
  {
    hide ChunkSize, PartCount, Parts, Fits;
    var q := Queued(s, src, align, stale, PlannedParts(s.g, |src|, align), 0, 0);
    var s1 := q.(adder := OpeningSource);
    assert FreshParts(|s.files|, []) == [] && Ids(|s.runners|, 0) == [];
    assert PlannedParts(s.g, |src|, align)[..0] == [];
    assert Next(s, NewFile(src, align, stale)) == s1;
    states, actions := [s], [];
    AddingStep(states, actions, NewFile(src, align, stale));
    states, actions := [s, s1], [NewFile(src, align, stale)];
    AddingStep(states, actions, LowOpen(Skip));
    states, actions := states + [q.(adder := OpeningDest)], actions + [LowOpen(Skip)];
    AddingStep(states, actions, LowOpen(Skip));
    states, actions := states + [q], actions + [LowOpen(Skip)];
  }

  /** The parts cover the file one after the other. */
  lemma CoveredBy(src: seq<byte>, g: Geometry, align: nat, k: nat)
    requires src != [] ==> ChunkSize(g, align) > 0
    requires k < |PlannedParts(g, |src|, align)|
    ensures var p := PlannedParts(g, |src|, align)[k];
      && p == PartAt(|src|, ChunkSize(g, align), k)
      && Covered(src, ChunkSize(g, align), k + 1) == Covered(src, ChunkSize(g, align), k) + p.size
  {
    hide ChunkSize;
    if src != [] {
      StartOf(|src|, ChunkSize(g, align), k);
    }
  }

  lemma {:induction false} AddParts(s: State, src: seq<byte>, align: nat, stale: seq<byte>, k: nat)
      returns (states: seq<State>, actions: seq<Action>)
    requires Enabled(s, NewFile(src, align, stale)) && k <= |PlannedParts(s.g, |src|, align)|
    ensures IsAdding(states, actions) && states[0] == s
    ensures states[|actions|]
      == Queued(s, src, align, stale, PlannedParts(s.g, |src|, align), k, Covered(src, ChunkSize(s.g, align), k))
  {
    hide ChunkSize, PartAt, PlannedParts, Queued, Covered, Next;
    var parts := PlannedParts(s.g, |src|, align);
    if k == 0 {
      states, actions := BeginFile(s, src, align, stale);
      NothingCovered(src, ChunkSize(s.g, align));
    } else {
      states, actions := AddParts(s, src, align, stale, k - 1);
      CoveredBy(src, s.g, align, k - 1);
      OneMore(s, src, align, stale, parts, k - 1, Covered(src, ChunkSize(s.g, align), k - 1));
      var q := states[|actions|];
      AddingStep(states, actions, CountPart);
      states, actions := states + [Next(q, CountPart)], actions + [CountPart];
      AddingStep(states, actions, PushPart);
      states, actions := states + [Next(Next(q, CountPart), PushPart)], actions + [PushPart];
    }
  }

  lemma NothingCovered(src: seq<byte>, c: nat)
    ensures Covered(src, c, 0) == 0
  {
  }

  lemma AllCovered(src: seq<byte>, g: Geometry, align: nat)
    requires src != [] ==> ChunkSize(g, align) > 0
    ensures Covered(src, ChunkSize(g, align), |PlannedParts(g, |src|, align)|) == |src|
  {
    hide ChunkSize;
    if src != [] {
      StartOf(|src|, ChunkSize(g, align), PartCount(|src|, ChunkSize(g, align)));
    }
  }

  /** Every accepted file can be added: steps of the adding thread alone lead to an idle state with one
      new file, which has the source's bytes, no open descriptor and a counter at the number of its
      parts, and with the parts of `ChunkPlan.AddCopyJob` as new runners at the end of the start queue;
      nothing else has changed but the two totals. */
  lemma CanBeAdded(s: State, src: seq<byte>, align: nat, stale: seq<byte>)
      returns (states: seq<State>, actions: seq<Action>)
    requires Enabled(s, NewFile(src, align, stale))
    ensures IsAdding(states, actions) && states[0] == s
    ensures var parts := PlannedParts(s.g, |src|, align);
      states[|actions|] == s.(
        files := s.files + [File(src, align, stale, NeverOpened, NeverOpened, |parts|, |s.runners|, |parts|, |parts|)],
        runners := s.runners + seq(|parts|, k requires 0 <= k < |parts| => Fresh(|s.files|, parts[k])),
        pendingStart := s.pendingStart + seq(|parts|, k => |s.runners| + k),
        keepAlive := s.keepAlive + |parts|,
        totalToCopy := s.totalToCopy + |src|)
  {
    hide ChunkSize, PlannedParts, Covered, Enabled, Next;
    AcceptedSize(s, src, align, stale);
    var parts := PlannedParts(s.g, |src|, align);
    states, actions := AddParts(s, src, align, stale, |parts|);
    AllCovered(src, s.g, align);
    var q := states[|actions|];
    assert parts[..|parts|] == parts;
    CanFinish(s, src, align, stale, parts, q);
    AddingStep(states, actions, FileAdded);
    states, actions := states + [Next(q, FileAdded)], actions + [FileAdded];
    assert s.adder.Idle?;
  }

  lemma AcceptedSize(s: State, src: seq<byte>, align: nat, stale: seq<byte>)
    requires Enabled(s, NewFile(src, align, stale))
    ensures s.adder.Idle? && (src != [] ==> ChunkSize(s.g, align) > 0)
  {
  }

  lemma CanFinish(s: State, src: seq<byte>, align: nat, stale: seq<byte>, parts: seq<Part>, q: State)
    requires q == Queued(s, src, align, stale, parts, |parts|, |src|)
    ensures Enabled(q, FileAdded) && Next(q, FileAdded) == q.(adder := Idle)
  {
  }

  // ---------------------------------------------------------------- what goes in comes out

  function Sources(files: seq<File>): seq<seq<byte>> {
    seq(|files|, f requires 0 <= f < |files| => files[f].src)
  }

  function Dests(files: seq<File>): seq<seq<byte>> {
    seq(|files|, f requires 0 <= f < |files| => files[f].dest)
  }

  /** The sources of the files that a run has been given, in order. */
  function Given(actions: seq<Action>): seq<seq<byte>> {
    if actions == [] then []
    else
      var n := |actions| - 1;
      Given(actions[..n]) + (if actions[n].NewFile? then [actions[n].src] else [])
  }

  lemma LowOpenSources(s: State, low: Low)
    requires s.files != []
    ensures Sources(AfterLowOpen(s, low).files) == Sources(s.files)
  {
  }

  lemma AdderSources(s: State, a: Action)
    requires Enabled(s, a) && IsAdder(a)
    ensures Sources(Next(s, a).files) == Sources(s.files) + (if a.NewFile? then [a.src] else [])
  {
    hide NextPart, PartCount, ChunkSize, Plannable, AfterLowOpen;
    if a.LowOpen? {
      LowOpenSources(s, a.low);
    }
  }

  lemma KernelSources(s: State, a: Action)
    requires Enabled(s, a) && IsKernel(a)
    ensures Sources(Next(s, a).files) == Sources(s.files)
  {
    hide KernelRead, Overwrite, WriteAt, Slice, BufferOf;
  }

  lemma OpenSources(s: State, a: Action)
    requires Enabled(s, a) && a.EnsureOpen?
    ensures Sources(Next(s, a).files) == Sources(s.files)
  {
  }

  lemma CloseSources(s: State, fid: nat)
    requires fid < |s.files|
    ensures Sources(CloseIfLast(s, fid).files) == Sources(s.files) && CloseIfLast(s, fid).runners == s.runners
  {
  }

  lemma DropSources(s: State, a: Action)
    requires Enabled(s, a) && a.DropRunner?
    ensures Sources(Next(s, a).files) == Sources(s.files)
  {
    hide CloseIfLast;
    CloseSources(s, s.runners[s.pc.rid].file);
    var s1 := if s.pc.close then CloseIfLast(s, s.runners[s.pc.rid].file) else s;
    assert |Sources(s1.files)| == |Sources(s.files)|;
    assert Sources(Delete(s1, s.pc.rid).files) == Sources(s1.files);
  }

  lemma ReapSources(s: State, a: Action)
    requires Enabled(s, a) && a.ReapOne?
    ensures Sources(Next(s, a).files) == Sources(s.files)
  {
    hide Absorb;
  }

  lemma PassSources(s: State, a: Action)
    requires Enabled(s, a) && (a.Look? || a.PickFront? || a.IssueBatch?)
    ensures Next(s, a).files == s.files
  {
    hide TakeBuffer, RateLimited, Waiting, OutOfFds, NeedsFds, ReadRequest, WriteRequest, PadOf;
    TakeBufferKeeps(s);
  }

  lemma TurnSources(s: State, a: Action)
    requires Enabled(s, a) && (a.FlushBatch? || a.Consume? || a.Submitted? || a.StopReaping? || a.CheckDone?)
    ensures Next(s, a).files == s.files
  {
  }

  /** Only a new file changes what the files' sources are. */
  lemma SourcesStay(s: State, a: Action)
    requires Enabled(s, a)
    ensures Sources(Next(s, a).files) == Sources(s.files) + (if a.NewFile? then [a.src] else [])
  {
    hide Enabled, Next, Sources;
    if IsAdder(a) {
      AdderSources(s, a);
    } else if IsKernel(a) {
      KernelSources(s, a);
    } else if a.EnsureOpen? {
      OpenSources(s, a);
    } else if a.DropRunner? {
      DropSources(s, a);
    } else if a.ReapOne? {
      ReapSources(s, a);
    } else if a.Look? || a.PickFront? || a.IssueBatch? {
      PassSources(s, a);
    } else {
      TurnSources(s, a);
    }
  }

  lemma {:induction false} FilesAreGiven(states: seq<State>, actions: seq<Action>)
    requires IsRun(states, actions) && Init(states[0])
    ensures Sources(states[|actions|].files) == Given(actions)
    decreases |actions|
  {
    if actions != [] {
      hide Init, Enabled, Next, Sources;
      var n := |actions| - 1;
      assert IsRun(states[..n + 1], actions[..n]);
      FilesAreGiven(states[..n + 1], actions[..n]);
      assert states[..n + 1][n] == states[n];
      SourcesStay(states[n], actions[n]);
    }
  }

  /** From end to end: in a run that returns without an error, the destinations are, one for one and in
      order, the sources that the adding thread was given. */
  lemma GivenIsCopied(states: seq<State>, actions: seq<Action>)
    requires IsRun(states, actions) && Init(states[0])
    requires states[|actions|].pc.Exited? && !states[|actions|].errored
    ensures Dests(states[|actions|].files) == Given(actions)
  {
    hide Init, Enabled, Next;
    FilesAreGiven(states, actions);
    assert EndsIn(states, actions, states[|actions|]);
    CopyIsRight(states[|actions|]);
    assert Sources(states[|actions|].files) == Dests(states[|actions|].files);
  }
}
