/** How one file is cut into parts, and where a part's bytes sit inside a heap block. */
module ChunkPlan {
  import opened Arithmetic

  const INT32_MAX: nat := 0x7fff_ffff

  datatype Part = Part(offset: nat, size: nat)

  /** The slab heap: `blocks` blocks of `blockSize` bytes from an aligned base address. */
  datatype Geometry = Geometry(blocks: nat, blockSize: nat, heapAlign: nat, heapBase: nat)

  /** `aligned_alloc` gives an aligned base inside the address space. The last two conjuncts are
      what the rest of the engine silently relies on: see `ReadsNeedWholeBlocks` and
      `WideChunk.CanFinish`. */
  predicate ValidGeometry(g: Geometry) {
    && IsPow2(g.heapAlign)
    && g.heapBase % g.heapAlign == 0
    && g.heapBase + g.blockSize * g.blocks <= TWO_64
    && g.blockSize % g.heapAlign == 0
    && 0 < g.blockSize < TWO_32
  }

  /** The chunk size `addCopyJob` settles on; the subtraction is unsigned and may wrap. */
  function ChunkSize(g: Geometry, align: nat): nat {
    if align > g.heapAlign then AlignDown(U64(g.blockSize - (align - 1)), align)
    else g.blockSize
  }

  /** The alignments for which `addCopyJob` plans usable chunks: see `ChunkSizeUsable`. */
  predicate Fits(g: Geometry, align: nat) {
    IsPow2(align) && (align <= g.heapAlign || 2 * align - 1 <= g.blockSize)
  }

  function PartCount(fileSize: nat, chunk: nat): nat
    requires chunk > 0
  {
    if fileSize == 0 then 1
    else fileSize / chunk + (if fileSize % chunk != 0 then 1 else 0)
  }

  function PartAt(fileSize: nat, chunk: nat, k: nat): Part {
    if k * chunk <= fileSize then Part(k * chunk, Min(chunk, fileSize - k * chunk)) else Part(0, 0)
  }

  function BlockAddress(g: Geometry, block: nat): nat {
    g.heapBase + g.blockSize * block
  }

  /** How far `giveBuffer` moves into a block to find an aligned address. */
  function Pad(g: Geometry, block: nat, align: nat): nat {
    var address := BlockAddress(g, block);
    var aligned := AlignAddress(address, align);
    if aligned >= address then aligned - address else 0
  }

  /** The two release asserts at the end of `giveBuffer`. */
  predicate GiveBufferAsserts(g: Geometry, block: nat, align: nat, size: nat) {
    align > 0
    && AlignAddress(BlockAddress(g, block), align) % align == 0
    && AlignAddress(BlockAddress(g, block), align) + size <= BlockAddress(g, block) + g.blockSize
  }

  lemma PartCountBounds(fileSize: nat, chunk: nat)
    requires chunk > 0 && fileSize > 0
    ensures PartCount(fileSize, chunk) > 0
    ensures (PartCount(fileSize, chunk) - 1) * chunk < fileSize <= PartCount(fileSize, chunk) * chunk
  {
    DivMod(fileSize, chunk);
    var q := fileSize / chunk;
    assert (q + 1) * chunk == q * chunk + chunk;
    if fileSize % chunk == 0 {
      assert q > 0;
      assert (q - 1) * chunk == q * chunk - chunk;
    }
  }

  /** Part k of a non-empty file: where it starts, how long it is, and when it is the last one. */
  lemma PartShape(fileSize: nat, chunk: nat, k: nat)
    requires chunk > 0 && fileSize > 0
    requires k < PartCount(fileSize, chunk)
    ensures var p := PartAt(fileSize, chunk, k);
      && p.offset == k * chunk
      && 0 < p.size <= chunk
      && p.offset + p.size <= fileSize
      && (k + 1 < PartCount(fileSize, chunk) ==> p.size == chunk && p.offset + p.size == (k + 1) * chunk)
      && (k + 1 == PartCount(fileSize, chunk) ==> p.offset + p.size == fileSize)
  {
    PartCountBounds(fileSize, chunk);
    var n := PartCount(fileSize, chunk);
    assert (k + 1) * chunk == k * chunk + chunk;
    if k + 1 < n {
      if k + 1 < n - 1 {
        MulOrder(k + 1, n - 1, chunk);
      }
    }
  }

  /** Every byte position of the file falls into exactly one part. */
  lemma PartHolding(fileSize: nat, chunk: nat, p: nat) returns (k: nat)
    requires chunk > 0 && p < fileSize
    ensures k < PartCount(fileSize, chunk)
    ensures PartAt(fileSize, chunk, k).offset <= p
      < PartAt(fileSize, chunk, k).offset + PartAt(fileSize, chunk, k).size
  {
    DivMod(p, chunk);
    k := p / chunk;
    PartCountBounds(fileSize, chunk);
    var n := PartCount(fileSize, chunk);
    if k >= n {
      if k > n {
        MulOrder(n, k, chunk);
      }
      assert false;
    }
    PartShape(fileSize, chunk, k);
  }

  /** Parts do not overlap: a later part starts at or after the end of an earlier one. */
  lemma PartsDisjoint(fileSize: nat, chunk: nat, j: nat, k: nat)
    requires chunk > 0 && fileSize > 0
    requires j < k < PartCount(fileSize, chunk)
    ensures PartAt(fileSize, chunk, j).offset + PartAt(fileSize, chunk, j).size <= PartAt(fileSize, chunk, k).offset
  {
    PartShape(fileSize, chunk, j);
    PartShape(fileSize, chunk, k);
    if j + 1 < k {
      MulOrder(j + 1, k, chunk);
    }
  }

  /** For an alignment above the heap's, the plan is usable exactly when the block has room for
      one aligned unit wherever the block happens to start. Below that the code either trips its
      own `chunkSize > 0` assert or wraps round to a chunk longer than the block. */
  lemma ChunkSizeUsable(g: Geometry, align: nat)
    requires align > g.heapAlign && g.blockSize < TWO_64 && align < 0x8000_0000_0000_0000
    requires 0 < g.blockSize < 0x8000_0000_0000_0000
    ensures 0 < ChunkSize(g, align) <= g.blockSize <==> 2 * align - 1 <= g.blockSize
    ensures ChunkSize(g, align) == 0 <==> align - 1 <= g.blockSize < 2 * align - 1
    ensures g.blockSize < align - 1 ==>
      && ChunkSize(g, align) <= TWO_64 - (align - 1 - g.blockSize) < ChunkSize(g, align) + align
      && ChunkSize(g, align) % align == 0
  {
    var room: int := g.blockSize - (align - 1);
    AlignDownMeaning(U64(room), align);
    var chunk := ChunkSize(g, align);
    if room < 0 {
      assert U64(room) == room + TWO_64;
      assert chunk > g.blockSize;
    } else {
      assert U64(room) == room;
      if room < align {
        MultiplesApart(0, chunk, align);
        assert chunk == 0;
      } else {
        MultiplesApart(chunk, align, align);
        AlignDownKeeps(0, room, align);
      }
    }
  }

  /** The chunk size is a multiple of the required alignment and leaves room for the padding. */
  lemma ChunkSizeAligned(g: Geometry, align: nat)
    requires ValidGeometry(g) && Fits(g, align)
    ensures 0 < ChunkSize(g, align) <= g.blockSize
    ensures ChunkSize(g, align) % align == 0
    ensures align > g.heapAlign ==> ChunkSize(g, align) + align - 1 <= g.blockSize
    ensures align <= g.blockSize
  {
    if align <= g.heapAlign {
      Pow2Divides(align, g.heapAlign);
      ModTransitive(g.blockSize, g.heapAlign, align);
      MultiplesApart(0, g.blockSize, g.heapAlign);
    } else {
      var room: int := g.blockSize - (align - 1);
      assert U64(room) == room;
      AlignDownMeaning(room, align);
      AlignDownKeeps(0, room, align);
    }
  }

  // ---------------------------------------------------------------- the largest chunk

  /** The bytes from an address to the next multiple of the alignment. */
  function Gap(address: nat, align: nat): (gap: nat)
    requires align > 0
    ensures gap < align
  {
    (align - address % align) % align
  }

  /** An aligned stretch of c bytes fits wherever a block may start. Blocks start at multiples of the
      heap's alignment; for a larger alignment the planner reckons with any address. */
  ghost predicate FitsAnywhere(g: Geometry, align: nat, c: nat) {
    && align > 0
    && forall address: nat :: (align > g.heapAlign || address % g.heapAlign == 0) ==> Gap(address, align) + c <= g.blockSize
  }

  /** c is the largest multiple of the alignment that fits so. */
  ghost predicate Largest(g: Geometry, align: nat, c: nat) {
    && align > 0 && c % align == 0 && FitsAnywhere(g, align, c)
    && forall d: nat :: d % align == 0 && FitsAnywhere(g, align, d) ==> d <= c
  }

  lemma GapOfMultiple(address: nat, align: nat)
    requires align > 0 && address % align == 0
    ensures Gap(address, align) == 0
  {
    DivModUnique(align, align, 1, 0);
  }

  lemma GapOfOne(align: nat)
    requires align > 1
    ensures Gap(1, align) == align - 1
  {
    DivModUnique(1, align, 0, 1);
    DivModUnique(align - 1, align, 0, align - 1);
  }

  /** What fits anywhere, as a bound. */
  lemma RoomAnywhere(g: Geometry, align: nat, c: nat)
    requires IsPow2(align) && IsPow2(g.heapAlign)
    ensures FitsAnywhere(g, align, c) <==> (if align <= g.heapAlign then c <= g.blockSize else align - 1 + c <= g.blockSize)
  {
    Pow2Positive(align);
    Pow2Positive(g.heapAlign);
    if align <= g.heapAlign {
      Pow2Divides(align, g.heapAlign);
      hide IsPow2, Gap;
      GapOfMultiple(0, align);
      ModProduct(g.heapAlign, 0, g.heapAlign);
      forall address: nat | address % g.heapAlign == 0
        ensures Gap(address, align) == 0
      {
        ModTransitive(address, g.heapAlign, align);
        GapOfMultiple(address, align);
      }
      if FitsAnywhere(g, align, c) {
        assert Gap(0, align) + c <= g.blockSize;
      }
    } else {
      hide IsPow2, Gap;
      GapOfOne(align);
      if FitsAnywhere(g, align, c) {
        assert Gap(1, align) + c <= g.blockSize;
      }
    }
  }

  /** The planner wastes nothing: a usable chunk size is the largest that fits wherever a block may
      start, and there is a usable one if and only if an aligned unit fits so. */
  lemma ChunkSizeLargest(g: Geometry, align: nat)
    requires ValidGeometry(g) && IsPow2(align)
    ensures Fits(g, align) <==> FitsAnywhere(g, align, align)
    ensures Fits(g, align) ==> Largest(g, align, ChunkSize(g, align))
  {
    RoomAnywhere(g, align, align);
    if align <= g.heapAlign {
      Pow2Divides(align, g.heapAlign);
      ModTransitive(g.blockSize, g.heapAlign, align);
      MultiplesApart(0, g.blockSize, align);
    }
    if Fits(g, align) {
      hide IsPow2, FitsAnywhere, AlignDown;
      ChunkSizeAligned(g, align);
      var c := ChunkSize(g, align);
      RoomAnywhere(g, align, c);
      forall d: nat | d % align == 0 && FitsAnywhere(g, align, d)
        ensures d <= c
      {
        RoomAnywhere(g, align, d);
        if align > g.heapAlign {
          NoneLarger(g, align, d);
        }
      }
    }
  }

  lemma NoneLarger(g: Geometry, align: nat, d: nat)
    requires ValidGeometry(g) && Fits(g, align) && align > g.heapAlign && d % align == 0 && align - 1 + d <= g.blockSize
    ensures d <= ChunkSize(g, align)
  {
    hide IsPow2, AlignDown;
    var room: nat := g.blockSize - (align - 1);
    SmallWord(room);
    AlignDownKeeps(d, room, align);
  }

  lemma LargestIsOne(g: Geometry, align: nat, c: nat, d: nat)
    requires Largest(g, align, c) && Largest(g, align, d)
    ensures c == d
  {
    hide FitsAnywhere;
  }

  /** The stretch fits at every address at which a block can start. */
  ghost predicate FitsInBlocks(g: Geometry, align: nat, c: nat)
    requires align > 0 && g.heapAlign > 0
  {
    forall address: nat :: address % g.heapAlign == 0 ==> Gap(address, align) + c <= g.blockSize
  }

  lemma GapOfUnit(unit: nat, align: nat)
    requires 0 < unit < align
    ensures Gap(unit, align) == align - unit
  {
    DivModUnique(unit, align, 0, unit);
    DivModUnique(align - unit, align, 0, align - unit);
  }

  /** Multiples of the heap's alignment leave gaps that are multiples of it. */
  lemma GapAtMost(address: nat, unit: nat, align: nat)
    requires 0 < unit < align && address % unit == 0 && align % unit == 0
    ensures Gap(address, align) <= align - unit
  {
    DivMod(address, align);
    var r := address % align;
    ModProduct(align, address / align, unit);
    ModDifference(align * (address / align), address, unit);
    assert r == address - align * (address / align);
    if r == 0 {
      GapOfMultiple(address, align);
    } else {
      DivModUnique(align - r, align, 0, align - r);
      MultiplesApart(0, r, unit);
    }
  }

  lemma RoomInBlocks(g: Geometry, align: nat, c: nat)
    requires IsPow2(align) && IsPow2(g.heapAlign) && align > g.heapAlign
    ensures g.heapAlign > 0
    ensures FitsInBlocks(g, align, c) <==> align - g.heapAlign + c <= g.blockSize
  {
    Pow2Positive(g.heapAlign);
    Pow2Divides(g.heapAlign, align);
    hide IsPow2, Gap;
    GapOfUnit(g.heapAlign, align);
    MultipleMod(1, g.heapAlign);
    if FitsInBlocks(g, align, c) {
      assert Gap(g.heapAlign, align) + c <= g.blockSize;
    }
    forall address: nat | address % g.heapAlign == 0
      ensures Gap(address, align) <= align - g.heapAlign
    {
      GapAtMost(address, g.heapAlign, align);
    }
  }

  /** Since blocks start at multiples of the heap's alignment, reckoning with any address can give away
      one unit: another one would fit if and only if the heap's alignment is above one byte and the
      block falls short of a multiple of the chunk's alignment by just the heap's. */
  lemma UnitGivenAway(g: Geometry, align: nat)
    requires ValidGeometry(g) && IsPow2(align) && Fits(g, align) && align > g.heapAlign
    ensures g.heapAlign > 0
    ensures FitsInBlocks(g, align, ChunkSize(g, align) + align) <==> g.heapAlign > 1 && (g.blockSize + g.heapAlign) % align == 0
    ensures !FitsInBlocks(g, align, ChunkSize(g, align) + 2 * align)
  {
    hide IsPow2, FitsInBlocks, ChunkSize, ValidGeometry;
    var unit, c := g.heapAlign, ChunkSize(g, align);
    UnitParts(g, align);
    RoomInBlocks(g, align, c + align);
    RoomInBlocks(g, align, c + 2 * align);
    if unit > 1 {
      UnitBehind(g.blockSize + unit, c + 2 * align, unit, align);
    }
  }

  lemma UnitParts(g: Geometry, align: nat)
    requires ValidGeometry(g) && Fits(g, align) && align > g.heapAlign
    ensures IsPow2(g.heapAlign) && g.heapAlign > 0 && align % g.heapAlign == 0 && (g.blockSize + g.heapAlign) % g.heapAlign == 0
    ensures (ChunkSize(g, align) + 2 * align) % align == 0
    ensures ChunkSize(g, align) + align - 1 <= g.blockSize < ChunkSize(g, align) + 2 * align - 1
  {
    Pow2Positive(g.heapAlign);
    Pow2Divides(g.heapAlign, align);
    ChunkSizeAligned(g, align);
    hide IsPow2;
    var room: nat := g.blockSize - (align - 1);
    SmallWord(room);
    AlignDownMeaning(room, align);
    hide AlignDown, ChunkSize;
    ModSum(g.blockSize, g.heapAlign, g.heapAlign);
    MultipleMod(1, g.heapAlign);
    MultipleMod(2, align);
    ModSum(ChunkSize(g, align), 2 * align, align);
  }

  /** It can even make the planner refuse a file whose chunks would fit one unit: just when the block is
      as long as two units less the heap's alignment. */
  lemma UnitRefused(g: Geometry, align: nat)
    requires ValidGeometry(g) && IsPow2(align) && align > g.heapAlign
    ensures align > 0 && g.heapAlign > 0
    ensures !Fits(g, align) && FitsInBlocks(g, align, align) <==> g.heapAlign > 1 && g.blockSize + g.heapAlign == 2 * align
  {
    RoomInBlocks(g, align, align);
    Pow2Divides(g.heapAlign, align);
    hide IsPow2, FitsInBlocks;
    MultipleMod(2, align);
    ModTransitive(2 * align, align, g.heapAlign);
    ModSum(g.blockSize, g.heapAlign, g.heapAlign);
    MultipleMod(1, g.heapAlign);
    MultiplesApart(2 * align, g.blockSize + g.heapAlign, g.heapAlign);
  }

  /** The gap is the padding that `giveBuffer` leaves. */
  lemma PadIsGap(g: Geometry, block: nat, align: nat)
    requires ValidGeometry(g) && Fits(g, align) && block < g.blocks
    ensures align > 0 && Pad(g, block, align) == Gap(BlockAddress(g, block), align)
  {
    Pow2Positive(align);
    PadFits(g, block, align, 0);
    ChunkSizeAligned(g, align);
    BlockInside(g, block);
    AlignAddressMeaning(BlockAddress(g, block), align);
    hide IsPow2, AlignAddress, ChunkSize, Fits, ValidGeometry;
    GapReaches(BlockAddress(g, block), Pad(g, block, align), align);
  }

  lemma GapReaches(address: nat, pad: nat, align: nat)
    requires 0 <= pad < align && (address + pad) % align == 0
    ensures pad == Gap(address, align)
  {
    DivMod(address, align);
    var q, r := address / align, address % align;
    if pad + r < align {
      assert address + pad == q * align + (pad + r);
      DivModUnique(address + pad, align, q, pad + r);
      GapOfMultiple(address, align);
    } else {
      assert (q + 1) * align == q * align + align;
      DivModUnique(address + pad, align, q + 1, pad + r - align);
      DivModUnique(align - r, align, 0, align - r);
    }
  }

  /** Two multiples of a unit, one of them of the alignment, less than a unit apart or at least one. */
  lemma UnitBehind(x: nat, y: nat, unit: nat, align: nat)
    requires 0 < unit < align && x % unit == 0 && y % align == 0 && align % unit == 0
    requires y - align < x < y + unit
    ensures y <= x <==> x % align == 0
  {
    ModTransitive(y, align, unit);
    if x > y {
      MultiplesApart(y, x, unit);
    }
    if x % align == 0 && x < y {
      MultiplesApart(x, y, align);
    }
  }

  lemma BlockInside(g: Geometry, block: nat)
    requires ValidGeometry(g) && block < g.blocks
    ensures BlockAddress(g, block) + g.blockSize <= TWO_64
    ensures BlockAddress(g, block) % g.heapAlign == 0
  {
    MulOrder(block, g.blocks, g.blockSize);
    assert g.blockSize * block + g.blockSize <= g.blockSize * g.blocks;
    ModProduct(g.blockSize, block, g.heapAlign);
    ModSum(g.heapBase, g.blockSize * block, g.heapAlign);
  }

  /** The padded start is aligned and the rounded-up part stays inside its block. */
  lemma PadFits(g: Geometry, block: nat, align: nat, size: nat)
    requires ValidGeometry(g) && Fits(g, align) && block < g.blocks
    requires size <= ChunkSize(g, align)
    ensures Pad(g, block, align) + RoundUp(size, align) <= g.blockSize
    ensures (BlockAddress(g, block) + Pad(g, block, align)) % align == 0
    ensures AlignAddress(BlockAddress(g, block), align) == BlockAddress(g, block) + Pad(g, block, align)
  {
    hide IsPow2, AlignAddress, AlignDown;
    BlockInside(g, block);
    ChunkSizeAligned(g, align);
    var address := BlockAddress(g, block);
    assert align > 0 by { FitsPositive(g, align); }
    AlignAddressMeaning(address, align);
    RoundUpFits(size, ChunkSize(g, align), align);
    if align <= g.heapAlign {
      Pow2Divides(align, g.heapAlign);
      ModTransitive(address, g.heapAlign, align);
    }
  }

  lemma FitsPositive(g: Geometry, align: nat)
    requires Fits(g, align)
    ensures align > 0
  {
  }

  /** With the geometry of `ValidGeometry`, the release asserts in `giveBuffer` never fire. */
  lemma GiveBufferNeverAsserts(g: Geometry, block: nat, align: nat, fileSize: nat, k: nat)
    requires ValidGeometry(g) && Fits(g, align) && block < g.blocks
    requires fileSize > 0
    requires ChunkSize(g, align) > 0 && k < PartCount(fileSize, ChunkSize(g, align))
    ensures GiveBufferAsserts(g, block, align, PartAt(fileSize, ChunkSize(g, align), k).size)
  {
    hide AlignAddress, RoundUp, ChunkSize;
    FitsPositive(g, align);
    PartShape(fileSize, ChunkSize(g, align), k);
    var size := PartAt(fileSize, ChunkSize(g, align), k).size;
    PadFits(g, block, align, size);
    RoundUpMeaning(size, align);
  }

  /** Why blocks must be a whole number of alignment units: for an alignment the heap serves
      without shrinking the chunk, full chunks pass the asserts in every block of a heap with at
      least two blocks exactly when the block size is a multiple of the alignment. */
  lemma AssertsNeedWholeBlocks(g: Geometry, align: nat)
    requires IsPow2(align) && IsPow2(g.heapAlign) && align <= g.heapAlign
    requires g.heapBase % align == 0 && align < TWO_64
    requires g.blocks >= 2 && g.heapBase + g.blockSize * g.blocks + align <= TWO_64
    ensures (forall b :: 0 <= b < g.blocks ==> GiveBufferAsserts(g, b, align, ChunkSize(g, align)))
      <==> g.blockSize % align == 0
  {
    hide AlignAddress, IsPow2;
    assert align > 0 by { Pow2Positive(align); }
    if g.blockSize % align == 0 {
      forall b: nat | b < g.blocks
        ensures GiveBufferAsserts(g, b, align, ChunkSize(g, align))
      {
        MulOrder(b, g.blocks, g.blockSize);
        ModProduct(g.blockSize, b, align);
        ModSum(g.heapBase, g.blockSize * b, align);
        AlignAddressMeaning(BlockAddress(g, b), align);
      }
    } else {
      MulOrder(1, g.blocks, g.blockSize);
      AlignAddressMeaning(BlockAddress(g, 1), align);
      ModSum(g.heapBase, g.blockSize, align);
      assert BlockAddress(g, 1) == g.heapBase + g.blockSize;
      assert !GiveBufferAsserts(g, 1, align, ChunkSize(g, align));
    }
  }

  /** The reads are stricter than the asserts: for such an alignment the read of a full chunk stays
      inside every block of a heap, even of a single one, exactly when the block size is a multiple
      of the alignment. */
  lemma ReadsNeedWholeBlocks(g: Geometry, align: nat)
    requires IsPow2(align) && align <= g.heapAlign && g.heapBase % align == 0 && align < TWO_64
    requires g.blocks >= 1 && g.heapBase + g.blockSize * g.blocks + align <= TWO_64
    ensures (forall b :: 0 <= b < g.blocks ==> Pad(g, b, align) + RoundUp(ChunkSize(g, align), align) <= g.blockSize)
      <==> g.blockSize % align == 0
  {
    hide AlignAddress, IsPow2, RoundUp;
    assert align > 0 by { Pow2Positive(align); }
    RoundUpMeaning(g.blockSize, align);
    if g.blockSize % align == 0 {
      forall b: nat | b < g.blocks
        ensures Pad(g, b, align) == 0
      {
        MulOrder(b, g.blocks, g.blockSize);
        ModProduct(g.blockSize, b, align);
        ModSum(g.heapBase, g.blockSize * b, align);
        AlignAddressMeaning(BlockAddress(g, b), align);
      }
    } else {
      assert Pad(g, 0, align) + RoundUp(ChunkSize(g, align), align) > g.blockSize;
    }
  }

  datatype Planned = Aborted | Planned(parts: seq<Part>, tracker: int)

  /** The parts `addCopyJob` creates for a non-empty file, in order. */
  function Parts(fileSize: nat, chunk: nat, n: nat): (parts: seq<Part>)
    ensures |parts| == n
    ensures forall k :: 0 <= k < n ==> parts[k] == PartAt(fileSize, chunk, k)
  {
    if n == 0 then [] else Parts(fileSize, chunk, n - 1) + [PartAt(fileSize, chunk, n - 1)]
  }

  function Counted(fileSize: nat, chunk: nat): int
    requires chunk > 0
  {
    var whole := I32(fileSize / chunk);
    if fileSize % chunk != 0 then I32(whole + 1) else whole
  }

  lemma CountedMeaning(fileSize: nat, chunk: nat)
    requires chunk > 0 && fileSize > 0
    ensures Counted(fileSize, chunk) == PartCount(fileSize, chunk) <==> PartCount(fileSize, chunk) <= INT32_MAX
    ensures Wraps32(PartCount(fileSize, chunk), Counted(fileSize, chunk))
  {
    hide I32;
    var q := fileSize / chunk;
    NarrowTwice(q);
    NarrowTwice(q + 1);
    NarrowWraps(q);
    NarrowWraps(q + 1);
  }

  /** What an `int32_t` makes of a count: the number in its range that differs by whole 2^32. */
  predicate Wraps32(n: nat, x: int) {
    -0x8000_0000 <= x <= 0x7fff_ffff && (n - x) % 0x1_0000_0000 == 0
  }

  lemma NarrowWraps(n: nat)
    ensures Wraps32(n, I32(n))
  {
    NarrowRange(n);
    hide I32;
    var k := NarrowSpan(n);
    SpanIsZero(k);
    assert n - I32(n) == k * TWO_32;
  }

  lemma NarrowRange(n: nat)
    ensures -0x8000_0000 <= I32(n) <= 0x7fff_ffff
  {
  }

  lemma SpanIsZero(k: int)
    ensures (k * TWO_32) % TWO_32 == 0
  {
  }

  lemma NarrowTwice(n: nat)
    ensures I32(n) == n <==> n <= INT32_MAX
    ensures n > 0 ==> I32(I32(n - 1) + 1) == I32(n)
  {
    NarrowOnce(n);
    if n > 0 {
      var k := NarrowSpan(n - 1);
      hide I32;
      SpanAway(I32(n - 1) + 1, k);
    }
  }

  lemma NarrowOnce(n: nat)
    ensures I32(n) == n <==> n <= INT32_MAX
  {
  }

  /** Narrowing takes whole spans of 2^32 away. */
  lemma NarrowSpan(n: nat) returns (k: int)
    ensures I32(n) == n - k * TWO_32
  {
    DivMod(n, TWO_32);
    k := if n % TWO_32 < 0x8000_0000 then n / TWO_32 else n / TWO_32 + 1;
  }

  lemma SpanAway(x: int, k: int)
    ensures I32(x + k * TWO_32) == I32(x)
  {
    assert (x + k * TWO_32) % TWO_32 == x % TWO_32;
  }

  /** Where the planner's `offset` stands after k parts. */
  function Start(fileSize: nat, chunk: nat, k: nat): nat {
    Min(k * chunk, fileSize)
  }

  lemma StartOf(fileSize: nat, chunk: nat, k: nat)
    requires chunk > 0 && fileSize > 0
    requires k <= PartCount(fileSize, chunk)
    ensures k == 0 ==> Start(fileSize, chunk, k) == 0
    ensures Start(fileSize, chunk, k) <= fileSize
    ensures Start(fileSize, chunk, k) == fileSize <==> k == PartCount(fileSize, chunk)
    ensures k < PartCount(fileSize, chunk) ==>
      && PartAt(fileSize, chunk, k) == Part(Start(fileSize, chunk, k), Min(chunk, fileSize - Start(fileSize, chunk, k)))
      && PartAt(fileSize, chunk, k).offset + PartAt(fileSize, chunk, k).size == Start(fileSize, chunk, k + 1)
  {
    PartCountBounds(fileSize, chunk);
    if k < PartCount(fileSize, chunk) {
      PartShape(fileSize, chunk, k);
      assert (k + 1) * chunk == k * chunk + chunk;
    }
  }

  /** The loop of `addCopyJob` that cuts a file into parts. */
  method AddParts(fileSize: nat, chunkSize: nat) returns (parts: seq<Part>)
    requires chunkSize > 0 && fileSize > 0
    ensures parts == Parts(fileSize, chunkSize, PartCount(fileSize, chunkSize))
  {
    hide PartCount, Start, PartAt;
    parts := [];
    var i := 0;
    var offset := 0;
    ghost var n := PartCount(fileSize, chunkSize);
    StartOf(fileSize, chunkSize, 0);
    while offset != fileSize
      invariant 0 <= i <= n
      invariant parts == Parts(fileSize, chunkSize, i)
      invariant offset == Start(fileSize, chunkSize, i) && (offset == fileSize <==> i == n)
      decreases n - i
    {
      StartOf(fileSize, chunkSize, i);
      var count := Min(chunkSize, fileSize - offset);
      StartOf(fileSize, chunkSize, i + 1);
      parts := parts + [Part(offset, count)];
      offset := offset + count;
      i := i + 1;
    }
  }

  /** The chunk size that `addCopyJob` computes. */
  method FindChunkSize(g: Geometry, align: nat) returns (chunkSize: nat)
    requires align > 0
    ensures chunkSize == ChunkSize(g, align)
  {
    hide U64;
    chunkSize := g.blockSize;
    if align > g.heapAlign {
      var bytesRemaining := U64(g.blockSize - (align - 1));
      var alignmentBlocks := bytesRemaining / align;
      DivMod(bytesRemaining, align);
      chunkSize := alignmentBlocks * align;
    }
  }

  /** The number of chunks that it puts into an `int32_t`. */
  method CountChunks(fileSize: nat, chunkSize: nat) returns (chunkCount: int)
    requires chunkSize > 0 && fileSize > 0
    ensures chunkCount == PartCount(fileSize, chunkSize) <==> PartCount(fileSize, chunkSize) <= INT32_MAX
    ensures Wraps32(PartCount(fileSize, chunkSize), chunkCount)
  {
    hide I32, PartCount;
    chunkCount := I32(fileSize / chunkSize);
    if fileSize % chunkSize != 0 {
      chunkCount := I32(chunkCount + 1);
    }
    CountedMeaning(fileSize, chunkSize);
  }

  /** The file is cut into stretches of c bytes, the last one as long as what is left. */
  predicate Cut(parts: seq<Part>, fileSize: nat, c: nat) {
    && (|parts| - 1) * c < fileSize <= |parts| * c
    && forall k :: 0 <= k < |parts| ==>
      parts[k].offset == k * c && parts[k].size == (if k + 1 < |parts| then c else fileSize - k * c)
  }

  lemma PartsAreCut(fileSize: nat, chunk: nat)
    requires chunk > 0 && fileSize > 0
    ensures Cut(Parts(fileSize, chunk, PartCount(fileSize, chunk)), fileSize, chunk)
  {
    var n := PartCount(fileSize, chunk);
    PartCountBounds(fileSize, chunk);
    hide PartCount;
    forall k: nat | k < n
      ensures var p := PartAt(fileSize, chunk, k);
        p.offset == k * chunk && p.size == (if k + 1 < n then chunk else fileSize - k * chunk)
    {
      PartShape(fileSize, chunk, k);
    }
  }

  /** What there is to cut a file into, whoever cuts it. */
  lemma {:induction false} CutIsOne(parts: seq<Part>, other: seq<Part>, fileSize: nat, c: nat)
    requires Cut(parts, fileSize, c) && Cut(other, fileSize, c)
    ensures parts == other
  {
    if |parts| < |other| {
      MulAtMost(|parts|, |other| - 1, c);
    } else if |other| < |parts| {
      MulAtMost(|other|, |parts| - 1, c);
    }
    assert forall k :: 0 <= k < |parts| ==> parts[k].offset == other[k].offset && parts[k].size == other[k].size;
  }

  lemma MulAtMost(j: nat, k: nat, c: nat)
    requires j <= k
    ensures j * c <= k * c
  {
    if j < k {
      MulOrder(j, k, c);
    }
  }

  /** The parts `addCopyJob` queues for a file that it plans. */
  function PlannedParts(g: Geometry, fileSize: nat, align: nat): seq<Part>
    requires fileSize > 0 ==> ChunkSize(g, align) > 0
  {
    if fileSize == 0 then [Part(0, 0)]
    else Parts(fileSize, ChunkSize(g, align), PartCount(fileSize, ChunkSize(g, align)))
  }

  /** `addCopyJob` from the sizes on: the parts it queues, and the value the shared chunk counter
      starts from. */
  method AddCopyJob(g: Geometry, fileSize: nat, align: nat) returns (plan: Planned)
    requires align > 0
    ensures plan.Aborted? <==> fileSize != 0 && ChunkSize(g, align) == 0
    ensures fileSize == 0 ==> plan == Planned([Part(0, 0)], 1)
    ensures plan.Planned? ==> plan.parts == PlannedParts(g, fileSize, align)
    ensures ValidGeometry(g) && IsPow2(align) && FitsAnywhere(g, align, align) && fileSize != 0 ==>
      plan.Planned? && exists c: nat :: Largest(g, align, c) && Cut(plan.parts, fileSize, c)
    ensures plan.Planned? ==> (plan.tracker == |plan.parts| <==> |plan.parts| <= INT32_MAX)
    ensures plan.Planned? ==> Wraps32(|plan.parts|, plan.tracker)
  {
    if fileSize == 0 {
      return Planned([Part(0, 0)], 1);
    }
    hide ChunkSize, PartCount, PartAt, Parts, Cut, Largest, FitsAnywhere, ValidGeometry, IsPow2, Fits;
    var chunkSize := FindChunkSize(g, align);
    if ValidGeometry(g) && IsPow2(align) {
      ChunkSizeLargest(g, align);
      if Fits(g, align) {
        ChunkSizeAligned(g, align);
      }
    }
    if chunkSize == 0 {
      return Aborted;
    }
    var chunkCount := CountChunks(fileSize, chunkSize);
    var parts := AddParts(fileSize, chunkSize);
    PartsAreCut(fileSize, chunkSize);
    plan := Planned(parts, chunkCount);
  }
}
