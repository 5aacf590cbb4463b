/** The heap shared by several threads, each scanning with one compare-and-swap at a time. */
module HeapSharing {
  import opened Heap
  import Invariant

  /** Where a thread is in `getBlock`; `clean` says that no block has come back since it began. */
  datatype Scan = Away | At(i: nat, clean: bool)

  datatype Shared = Shared(used: seq<bool>, held: seq<set<nat>>, scans: seq<Scan>)

  datatype Step = Begin(thread: nat) | Try(thread: nat) | GiveUp(thread: nat) | Return(thread: nat, block: nat)

  predicate Enabled(s: Shared, a: Step) {
    && |s.held| == |s.scans| && a.thread < |s.scans|
    && match a
       case Begin(t) => s.scans[t].Away?
       case Try(t) => s.scans[t].At? && s.scans[t].i < |s.used|
       case GiveUp(t) => s.scans[t].At? && s.scans[t].i == |s.used|
       case Return(t, b) => s.scans[t].Away? && b in s.held[t] && b < |s.used|
  }

  function Dirty(scan: Scan): Scan {
    if scan.At? then At(scan.i, false) else scan
  }

  function Next(s: Shared, a: Step): Shared
    requires Enabled(s, a)
  {
    match a
    case Begin(t) => s.(scans := s.scans[t := At(0, true)])
    case Try(t) =>
      var i := s.scans[t].i;
      if s.used[i] then s.(scans := s.scans[t := At(i + 1, s.scans[t].clean)])
      else Shared(s.used[i := true], s.held[t := s.held[t] + {i}], s.scans[t := Away])
    case GiveUp(t) => s.(scans := s.scans[t := Away])
    case Return(t, b) =>
      Shared(s.used[b := false], s.held[t := s.held[t] - {b}],
        seq(|s.scans|, u requires 0 <= u < |s.scans| => Dirty(s.scans[u])))
  }

  predicate Initial(s: Shared) {
    && |s.held| == |s.scans|
    && (forall b :: 0 <= b < |s.used| ==> !s.used[b])
    && (forall t :: 0 <= t < |s.held| ==> s.held[t] == {} && s.scans[t].Away?)
  }

  function Sizes(held: seq<set<nat>>): seq<int> {
    seq(|held|, t requires 0 <= t < |held| => |held[t]|)
  }

  /** A block is flagged exactly when one thread holds it; a clean scan has seen only flagged blocks. */
  ghost predicate Inv(s: Shared) {
    && |s.held| == |s.scans|
    && (forall t :: 0 <= t < |s.held| ==> HeldOk(s.used, s.held[t]))
    && (forall b: nat :: b < |s.used| && s.used[b] ==> Holder(s, b))
    && (forall t, u :: 0 <= t < u < |s.held| ==> s.held[t] !! s.held[u])
    && (forall t :: 0 <= t < |s.scans| ==> ScanOk(s.used, s.scans[t]))
    && Invariant.Sum(Sizes(s.held)) + CountFree(s.used) == |s.used|
  }

  predicate HeldOk(used: seq<bool>, blocks: set<nat>) {
    forall b :: b in blocks ==> b < |used| && used[b]
  }

  predicate ScanOk(used: seq<bool>, scan: Scan) {
    scan.At? ==> scan.i <= |used| && (scan.clean ==> forall b: nat :: b < scan.i ==> used[b])
  }

  ghost predicate Holder(s: Shared, b: nat) {
    exists t :: 0 <= t < |s.held| && b in s.held[t]
  }

  lemma InitialInv(s: Shared)
    requires Initial(s)
    ensures Inv(s)
  {
    NoneFree(s.used);
    Invariant.SumOfZeros(Sizes(s.held));
  }

  lemma SizesUpdate(held: seq<set<nat>>, t: nat, blocks: set<nat>)
    requires t < |held|
    ensures Invariant.Sum(Sizes(held[t := blocks])) == Invariant.Sum(Sizes(held)) - |held[t]| + |blocks|
  {
    Invariant.SumUpdate(Sizes(held), t, |blocks|);
    assert Sizes(held[t := blocks]) == Sizes(held)[t := |blocks|];
  }

  lemma OtherHolders(s: Shared, s': Shared, t: nat, i: nat)
    requires Inv(s) && t < |s.held| && |s'.used| == |s.used| && |s'.held| == |s.held|
    requires forall u :: 0 <= u < |s.held| && u != t ==> s'.held[u] == s.held[u]
    requires forall b :: b in s.held[t] && b != i ==> b in s'.held[t]
    ensures forall b: nat :: b < |s.used| && b != i && s.used[b] ==> Holder(s', b)
  {
    forall b: nat | b < |s.used| && b != i && s.used[b]
      ensures Holder(s', b)
    {
      assert Holder(s, b);
      var u :| 0 <= u < |s.held| && b in s.held[u];
      assert b in s'.held[u];
    }
  }

  /** A scan survives as long as flags only go up. */
  lemma ScansStay(s: Shared, s': Shared)
    requires Inv(s) && |s'.used| == |s.used| && |s'.scans| == |s.scans|
    requires forall b :: 0 <= b < |s.used| && s.used[b] ==> s'.used[b]
    requires forall u :: 0 <= u < |s.scans| ==> s'.scans[u] == s.scans[u] || s'.scans[u].Away?
    ensures forall u :: 0 <= u < |s.scans| ==> ScanOk(s'.used, s'.scans[u])
  {
    forall u | 0 <= u < |s.scans|
      ensures ScanOk(s'.used, s'.scans[u])
    {
      assert ScanOk(s.used, s.scans[u]);
    }
  }

  /** One thread's blocks change by block i, and the flag of i with them. */
  lemma BlockMoves(s: Shared, s': Shared, t: nat, i: nat, flag: bool)
    requires Inv(s) && t < |s.held| && i < |s.used| && s.used[i] != flag
    requires s'.used == s.used[i := flag]
    requires s'.held == s.held[t := if flag then s.held[t] + {i} else s.held[t] - {i}]
    requires !flag ==> i in s.held[t]
    ensures forall u :: 0 <= u < |s'.held| ==> HeldOk(s'.used, s'.held[u])
    ensures forall b: nat :: b < |s'.used| && s'.used[b] ==> Holder(s', b)
    ensures forall u, v :: 0 <= u < v < |s'.held| ==> s'.held[u] !! s'.held[v]
  {
    hide Invariant.Sum, Sizes, CountFree, ScanOk;
    OtherHolders(s, s', t, i);
    assert flag ==> i in s'.held[t];
    forall u | 0 <= u < |s'.held|
      ensures HeldOk(s'.used, s'.held[u])
      ensures u != t ==> i !in s.held[u]
    {
      assert HeldOk(s.used, s.held[u]);
      if u != t && !flag {
        assert if u < t then s.held[u] !! s.held[t] else s.held[t] !! s.held[u];
      }
    }
    forall u, v | 0 <= u < v < |s'.held|
      ensures s'.held[u] !! s'.held[v]
    {
      assert s.held[u] !! s.held[v];
    }
  }

  lemma FreeIsNotHeld(s: Shared, t: nat, i: nat)
    requires Inv(s) && t < |s.held| && i < |s.used| && !s.used[i]
    ensures i !in s.held[t]
  {
    hide Invariant.Sum, Sizes, CountFree, ScanOk, Holder;
    assert HeldOk(s.used, s.held[t]);
  }

  lemma HeldIsUsed(s: Shared, t: nat, b: nat)
    requires Inv(s) && t < |s.held| && b in s.held[t]
    ensures b < |s.used| && s.used[b]
  {
    hide Invariant.Sum, Sizes, CountFree, ScanOk, Holder;
    assert HeldOk(s.used, s.held[t]);
  }

  lemma TakeKeepsInv(s: Shared, t: nat)
    requires Inv(s) && Enabled(s, Try(t)) && !s.used[s.scans[t].i]
    ensures Inv(Next(s, Try(t)))
  {
    hide Invariant.Sum, Sizes, CountFree, HeldOk, ScanOk, Holder;
    var i := s.scans[t].i;
    var s' := Next(s, Try(t));
    FreeIsNotHeld(s, t, i);
    CountFreeUpdate(s.used, i, true);
    SizesUpdate(s.held, t, s.held[t] + {i});
    BlockMoves(s, s', t, i, true);
    ScansStay(s, s');
  }

  /** A return spoils the scans under way that have passed the block. */
  lemma ScansSpoil(s: Shared, t: nat, b: nat)
    requires Inv(s) && Enabled(s, Return(t, b)) && b < |s.used|
    ensures var s' := Next(s, Return(t, b)); forall u :: 0 <= u < |s'.scans| ==> ScanOk(s'.used, s'.scans[u])
  {
    hide Invariant.Sum, Sizes, CountFree, HeldOk, Holder;
    var s' := Next(s, Return(t, b));
    forall u | 0 <= u < |s.scans|
      ensures ScanOk(s'.used, s'.scans[u])
    {
      assert ScanOk(s.used, s.scans[u]);
    }
  }

  lemma ReturnKeepsInv(s: Shared, t: nat, b: nat)
    requires Inv(s) && Enabled(s, Return(t, b))
    ensures Inv(Next(s, Return(t, b)))
  {
    hide Invariant.Sum, Sizes, CountFree, HeldOk, ScanOk, Holder;
    var s' := Next(s, Return(t, b));
    HeldIsUsed(s, t, b);
    CountFreeUpdate(s.used, b, false);
    SizesUpdate(s.held, t, s.held[t] - {b});
    BlockMoves(s, s', t, b, false);
    ScansSpoil(s, t, b);
  }

  lemma StepKeepsInv(s: Shared, a: Step)
    requires Inv(s) && Enabled(s, a)
    ensures Inv(Next(s, a))
  {
    match a
    case Return(t, b) => ReturnKeepsInv(s, t, b);
    case Try(t) =>
      if !s.used[s.scans[t].i] {
        TakeKeepsInv(s, t);
      } else {
        assert ScanOk(s.used, s.scans[t]);
        ScanKeepsInv(s, t, At(s.scans[t].i + 1, s.scans[t].clean));
      }
    case Begin(t) => ScanKeepsInv(s, t, At(0, true));
    case GiveUp(t) => ScanKeepsInv(s, t, Away);
  }

  lemma ScanKeepsInv(s: Shared, t: nat, scan: Scan)
    requires Inv(s) && t < |s.scans| && ScanOk(s.used, scan)
    ensures Inv(s.(scans := s.scans[t := scan]))
  {
    hide Invariant.Sum, Sizes, CountFree;
    var s' := s.(scans := s.scans[t := scan]);
    forall b: nat | b < |s'.used| && s'.used[b]
      ensures Holder(s', b)
    {
      assert Holder(s, b);
    }
    forall u | 0 <= u < |s'.scans|
      ensures ScanOk(s'.used, s'.scans[u])
    {
      assert ScanOk(s.used, s.scans[u]);
    }
  }

  predicate IsRun(states: seq<Shared>, steps: seq<Step>) {
    && |states| == |steps| + 1
    && forall k :: 0 <= k < |steps| ==> Enabled(states[k], steps[k]) && states[k + 1] == Next(states[k], steps[k])
  }

  lemma {:induction false} RunKeepsInv(states: seq<Shared>, steps: seq<Step>)
    requires IsRun(states, steps) && Initial(states[0])
    ensures Inv(states[|steps|])
    decreases |steps|
  {
    if steps == [] {
      InitialInv(states[0]);
    } else {
      var n := |steps| - 1;
      assert IsRun(states[..n + 1], steps[..n]);
      hide Inv, Enabled, Next;
      RunKeepsInv(states[..n + 1], steps[..n]);
      assert states[..n + 1][n] == states[n];
      StepKeepsInv(states[n], steps[n]);
    }
  }

  /** However the threads' swaps interleave: no block has two holders, and free blocks and held
      blocks always add up to the heap. */
  lemma OneHolderEach(states: seq<Shared>, steps: seq<Step>, t: nat, u: nat)
    requires IsRun(states, steps) && Initial(states[0])
    requires var s := states[|steps|]; t < |s.held| && u < |s.held| && t != u
    ensures var s := states[|steps|];
      && s.held[t] !! s.held[u]
      && Invariant.Sum(Sizes(s.held)) + CountFree(s.used) == |s.used|
  {
    RunKeepsInv(states, steps);
    var s := states[|steps|];
    hide Invariant.Sum, Sizes, CountFree;
    assert if t < u then s.held[t] !! s.held[u] else s.held[u] !! s.held[t];
  }

  /** `getBlock` yields null without a return in between only when every block is held. */
  lemma NullMeansFull(states: seq<Shared>, steps: seq<Step>, t: nat)
    requires IsRun(states, steps) && Initial(states[0]) && Enabled(states[|steps|], GiveUp(t))
    requires states[|steps|].scans[t].clean
    ensures CountFree(states[|steps|].used) == 0
  {
    RunKeepsInv(states, steps);
    var s := states[|steps|];
    assert ScanOk(s.used, s.scans[t]);
    NoneFree(s.used);
  }

  /** A scan that nobody has disturbed by a return is clean. */
  lemma {:induction false} CleanScan(states: seq<Shared>, steps: seq<Step>, j: nat, t: nat)
    requires IsRun(states, steps) && Initial(states[0]) && j < |steps| && steps[j] == Begin(t)
    requires forall k :: j < k < |steps| ==> !steps[k].Return?
    ensures var s := states[|steps|]; t < |s.scans| && (s.scans[t].At? ==> s.scans[t].clean)
    decreases |steps|
  {
    var n := |steps| - 1;
    if j < n {
      assert IsRun(states[..n + 1], steps[..n]);
      assert states[..n + 1][n] == states[n];
      CleanScan(states[..n + 1], steps[..n], j, t);
    }
  }

  /** So null, if no block has come back since the call began, means that every block is held. */
  lemma NullWithoutReturns(states: seq<Shared>, steps: seq<Step>, j: nat, t: nat)
    requires IsRun(states, steps) && Initial(states[0]) && j < |steps| && steps[j] == Begin(t)
    requires forall k :: j < k < |steps| ==> !steps[k].Return?
    requires Enabled(states[|steps|], GiveUp(t))
    ensures CountFree(states[|steps|].used) == 0
  {
    CleanScan(states, steps, j, t);
    NullMeansFull(states, steps, t);
  }

  /** And while every block is held and none comes back, nobody gets one. */
  lemma {:induction false} FullGivesNothing(states: seq<Shared>, steps: seq<Step>)
    requires IsRun(states, steps) && CountFree(states[0].used) == 0
    requires forall k :: 0 <= k < |steps| ==> !steps[k].Return?
    ensures states[|steps|].used == states[0].used && states[|steps|].held == states[0].held
    decreases |steps|
  {
    if steps != [] {
      var n := |steps| - 1;
      assert IsRun(states[..n + 1], steps[..n]);
      FullGivesNothing(states[..n + 1], steps[..n]);
      assert states[..n + 1][n] == states[n];
      NoneFree(states[0].used);
    }
  }
}
