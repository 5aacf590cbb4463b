/** The engine's block owners are the heap's flags. */
module HeapUse {
  import opened Heap
  import Engine

  function Flags(owners: seq<Engine.Holder>): (used: seq<bool>)
    ensures |used| == |owners|
  {
    seq(|owners|, b requires 0 <= b < |owners| => !owners[b].Free?)
  }

  /** The engine takes the block that `getBlock` returns. */
  lemma {:induction false} SameBlock(owners: seq<Engine.Holder>, from: nat)
    requires from <= |owners|
    ensures Engine.FirstFree(owners, from) == FirstUnused(Flags(owners), from)
    decreases |owners| - from
  {
    if from < |owners| && !owners[from].Free? {
      SameBlock(owners, from + 1);
    }
  }

  /** `join` sees every block free exactly when no owner is left. */
  lemma AllFree(owners: seq<Engine.Holder>)
    ensures CountFree(Flags(owners)) == |owners| <==> forall b :: 0 <= b < |owners| ==> owners[b].Free?
  {
    NoneFree(Flags(owners));
    forall b | 0 <= b < |owners|
      ensures Flags(owners)[b] == !owners[b].Free?
    {
    }
  }
}
