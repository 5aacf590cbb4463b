/** The slab heap: a flag per block, taken and given back. */
module Heap {
  import opened Arithmetic
  import opened Runner

  /** The first block whose flag is down. */
  function FirstUnused(used: seq<bool>, from: nat): (i: Option<nat>)
    requires from <= |used|
    ensures i.Some? ==> from <= i.value < |used| && !used[i.value] && forall j :: from <= j < i.value ==> used[j]
    ensures i.None? ==> forall j :: from <= j < |used| ==> used[j]
    decreases |used| - from
  {
    if from == |used| then None
    else if !used[from] then Some(from)
    else FirstUnused(used, from + 1)
  }

  function CountFree(used: seq<bool>): nat {
    if used == [] then 0
    else CountFree(used[..|used| - 1]) + (if used[|used| - 1] then 0 else 1)
  }

  lemma {:induction false} CountFreeUpdate(used: seq<bool>, i: nat, flag: bool)
    requires i < |used|
    ensures CountFree(used[i := flag]) + (if used[i] then 0 else 1) == CountFree(used) + (if flag then 0 else 1)
  {
    var n := |used| - 1;
    if i < n {
      CountFreeUpdate(used[..n], i, flag);
      assert used[i := flag][..n] == used[..n][i := flag];
    } else {
      assert used[i := flag][..n] == used[..n];
    }
  }

  /** The heap is exhausted exactly when the count says so. */
  lemma {:induction false} NoneFree(used: seq<bool>)
    ensures CountFree(used) == 0 <==> forall i :: 0 <= i < |used| ==> used[i]
    ensures CountFree(used) == |used| <==> forall i :: 0 <= i < |used| ==> !used[i]
    ensures CountFree(used) <= |used|
  {
    if used != [] {
      var n := |used| - 1;
      NoneFree(used[..n]);
      assert forall i :: 0 <= i < n ==> used[..n][i] == used[i];
    }
  }

  class Heap {
    const data: nat
    const blocks: nat
    const blockSize: nat
    const usedList: array<bool>

    ghost predicate Valid()
      reads this, usedList
    {
      usedList.Length == blocks && blockSize > 0
    }

    function Address(i: nat): nat {
      data + blockSize * i
    }

    /** The block an address was made from. */
    function IndexOf(block: nat): nat
      requires blockSize > 0 && block >= data
    {
      (block - data) / blockSize
    }

    constructor (blocks: nat, blockSize: nat, data: nat)
      requires blockSize > 0
      ensures Valid() && fresh(usedList) && this.blocks == blocks && this.blockSize == blockSize && this.data == data
      ensures CountFree(usedList[..]) == blocks
    {
      this.blocks := blocks;
      this.blockSize := blockSize;
      this.data := data;
      usedList := new bool[blocks](_ => false);
      new;
      NoneFree(usedList[..]);
    }

    /** The division in `returnBlock` undoes the multiplication in `getBlock`, and different blocks
        do not overlap. */
    lemma AddressesAreBlocks(i: nat, j: nat)
      requires blockSize > 0
      ensures IndexOf(Address(i)) == i && (Address(i) - data) % blockSize == 0
      ensures i < j ==> Address(i) + blockSize <= Address(j)
      ensures i < blocks ==> Address(i) < data + blocks * blockSize
    {
      MultipleMod(i, blockSize);
      assert blockSize * i == i * blockSize && blockSize * j == j * blockSize;
      if i < j {
        MulOrder(i, j, blockSize);
      }
      if i < blocks {
        MulOrder(i, blocks, blockSize);
      }
    }

    /** `getBlock`: the first free block; null exactly when none is free. */
    method GetBlock() returns (block: Option<nat>)
      requires Valid()
      modifies usedList
      ensures block.None? <==> CountFree(old(usedList[..])) == 0
      ensures block.None? ==> usedList[..] == old(usedList[..])
      ensures block.Some? ==>
        && var i := FirstUnused(old(usedList[..]), 0);
        && i.Some? && block.value == Address(i.value)
        && usedList[..] == old(usedList[..])[i.value := true]
        && CountFree(usedList[..]) == CountFree(old(usedList[..])) - 1
    {
      ghost var used := usedList[..];
      NoneFree(used);
      var i := 0;
      while i < blocks
        invariant 0 <= i <= blocks && usedList[..] == used
        invariant FirstUnused(used, 0) == FirstUnused(used, i)
      {
        if !usedList[i] {
          usedList[i] := true;
          CountFreeUpdate(used, i, true);
          assert usedList[..] == used[i := true];
          return Some(data + blockSize * i);
        }
        i := i + 1;
      }
      block := None;
    }

    /** `returnBlock`; its asserts are the precondition. */
    method ReturnBlock(block: nat)
      requires Valid() && block >= data && (block - data) % blockSize == 0
      requires IndexOf(block) < blocks && usedList[IndexOf(block)]
      modifies usedList
      ensures usedList[..] == old(usedList[..])[IndexOf(block) := false]
      ensures CountFree(usedList[..]) == CountFree(old(usedList[..])) + 1
      ensures block == Address(IndexOf(block))
    {
      ghost var used := usedList[..];
      DivMod(block - data, blockSize);
      var i := (block - data) / blockSize;
      usedList[i] := false;
      CountFreeUpdate(used, i, false);
      assert usedList[..] == used[i := false];
    }

    /** `getFreeBlocksCount`. */
    method GetFreeBlocksCount() returns (sum: nat)
      requires Valid()
      ensures sum == CountFree(usedList[..])
    {
      sum := 0;
      var i := 0;
      while i < blocks
        invariant 0 <= i <= blocks && sum == CountFree(usedList[..i])
      {
        assert usedList[..i + 1][..i] == usedList[..i];
        if !usedList[i] {
          sum := sum + 1;
        }
        i := i + 1;
      }
      assert usedList[..blocks] == usedList[..];
    }
  }
}
