/** What is true of one runner, its file, its outstanding jobs and its buffer, and why every event
    that touches them keeps it true. */
module ChunkInvariant {
  import opened Arithmetic
  import opened ChunkPlan
  import opened Runner
  import opened Engine

  predicate Same(dest: seq<byte>, src: seq<byte>, p: nat) {
    p < |dest| && p < |src| && dest[p] == src[p]
  }

  /** dest holds the source's bytes on [lo, hi). */
  predicate Agree(dest: seq<byte>, src: seq<byte>, lo: nat, hi: nat) {
    forall p :: lo <= p < hi ==> Same(dest, src, p)
  }

  /** The buffer, read from `pos`, holds the source's bytes on [lo, hi). */
  predicate Buffered(buf: seq<byte>, pos: nat, src: seq<byte>, lo: nat, hi: nat) {
    forall p :: lo <= p < hi ==> InBuffer(buf, pos, src, lo, p)
  }

  predicate InBuffer(buf: seq<byte>, pos: nat, src: seq<byte>, lo: nat, p: nat) {
    lo <= p < |src| && pos + (p - lo) < |buf| && buf[pos + (p - lo)] == src[p]
  }

  /** How a chunk sits in its file. */
  predicate Shape(g: Geometry, f: File, r: Chunk) {
    && Plannable(g, f.src, f.align)
    && (r.size == 0 <==> f.src == [])
    && (r.size == 0 ==> r.offset == 0)
    && (r.size > 0 ==>
      && r.offset % f.align == 0
      && End(r) <= |f.src|
      && r.size <= ChunkSize(g, f.align)
      && (End(r) == |f.src| || r.size % f.align == 0))
  }

  /** The requests a runner makes, without the 32-bit squeeze: see `RequestsAreExact`. */
  function ReadOf(r: Chunk, align: nat, pad: nat): Request
    requires r.offset <= r.readOffset <= End(r)
  {
    Request(pad + (r.readOffset - r.offset), r.readOffset, RoundUp(End(r) - r.readOffset, align))
  }

  function WriteOf(r: Chunk, pad: nat): Request
    requires r.offset <= r.writeOffset <= End(r)
  {
    Request(pad + (r.writeOffset - r.offset), r.writeOffset, End(r) - r.writeOffset)
  }

  /** Offsets stay in the chunk; nothing is written before all of it is read; between reads the
      read offset is aligned. */
  predicate Progress(r: Chunk, align: nat) {
    && r.offset <= r.readOffset <= End(r)
    && r.offset <= r.writeOffset <= End(r)
    && (r.writeOffset > r.offset ==> r.readOffset == End(r))
    && (r.readOffset < End(r) ==> align > 0 && r.readOffset % align == 0)
  }

  predicate PairOk(r: Chunk, f: File, rd: Job, wr: Job, buf: seq<byte>, pad: nat)
    requires Progress(r, f.align)
  {
    && r.readOffset < End(r) && r.writeOffset == r.offset
    && rd.request == ReadOf(r, f.align, pad) && wr.request == WriteOf(r, pad)
    && rd.linked && wr.linked
    && match rd.stage
       case Queued => wr.stage.Queued?
       case Ready => wr.stage.Blocked?
       case Done(res) =>
         && res <= End(r) - r.readOffset
         && (res > 0 ==> Buffered(buf, pad, f.src, r.offset, r.readOffset + res))
         && (match wr.stage
             case Ready => res == rd.request.len
             case Cancelled => res != rd.request.len
             case Done(w) =>
               if w >= 0 then res == rd.request.len && w <= r.size && Agree(f.dest, f.src, r.offset, r.offset + w)
               else res == rd.request.len || w == -ECANCELED
             case _ => false)
       case _ => false
  }

  predicate LoneWriteOk(r: Chunk, f: File, wr: Job, pad: nat)
    requires Progress(r, f.align)
  {
    && r.writeOffset < End(r)
    && wr.request == WriteOf(r, pad)
    && match wr.stage
       case Queued => !wr.linked && !r.savedError && r.readOffset == End(r)
       case Ready => !r.savedError && r.readOffset == End(r)
       case Cancelled => r.writeOffset == r.offset
       case Done(w) => w >= 0 ==>
         && !r.savedError && r.readOffset == End(r)
         && w <= End(r) - r.writeOffset
         && Agree(f.dest, f.src, r.writeOffset, r.writeOffset + w)
       case Blocked => false
  }

  predicate JobsOk(r: Chunk, f: File, rj: Option<Job>, wj: Option<Job>, buf: seq<byte>, pad: nat)
    requires Progress(r, f.align)
  {
    match (rj, wj)
    case (None, None) => true
    case (Some(rd), None) => false
    case (Some(rd), Some(wr)) => !r.savedError && PairOk(r, f, rd, wr, buf, pad)
    case (None, Some(wr)) => LoneWriteOk(r, f, wr, pad)
  }

  function Present(j: Option<Job>): int {
    if j.Some? then 1 else 0
  }

  function PadFor(g: Geometry, r: Chunk, f: File): nat {
    if r.block.Some? then Pad(g, r.block.value, f.align) else 0
  }

  /** The invariant of one runner. */
  predicate RunnerOk(g: Geometry, r: Chunk, f: File, rj: Option<Job>, wj: Option<Job>, buf: seq<byte>) {
    && Shape(g, f, r)
    && Progress(r, f.align)
    && JobsOk(r, f, rj, wj, buf, PadFor(g, r, f))
    && Agree(f.dest, f.src, r.offset, r.writeOffset)
    && (f.destFd.NeverOpened? ==> r.writeOffset == r.offset && rj.None? && wj.None?)
    && (!r.alive ==> rj.None? && wj.None?)
    && (r.alive ==>
      && r.jobsRunning == Present(rj) + Present(wj)
      && (r.block.None? ==> r.readOffset == r.writeOffset == r.offset && !r.savedError && rj.None? && wj.None?)
      && (r.block.Some? ==>
        && r.size > 0 && r.block.value < g.blocks && |buf| == g.blockSize
        && Buffered(buf, PadFor(g, r, f), f.src, r.offset, r.readOffset))
      && (r.savedError ==>
        wj.None? || wj.value.stage.Cancelled? || (wj.value.stage.Done? && wj.value.stage.res < 0)))
  }

  /** The 32-bit byte counts lose nothing, and a read's rounded-up length ends inside the block. */
  lemma RequestsAreExact(g: Geometry, r: Chunk, f: File, block: nat)
    requires ValidGeometry(g) && Shape(g, f, r) && Progress(r, f.align)
    requires block < g.blocks && r.size > 0
    ensures var pad := Pad(g, block, f.align);
      && pad + RoundUp(r.size, f.align) <= g.blockSize
      && ReadRequest(r, f.align, pad) ==
           (if r.readOffset < End(r) then Some(ReadOf(r, f.align, pad)) else None)
      && WriteRequest(r, pad) == (if r.writeOffset < End(r) then Some(WriteOf(r, pad)) else None)
    ensures r.readOffset < End(r) ==>
      ReadOf(r, f.align, Pad(g, block, f.align)).pos + ReadOf(r, f.align, Pad(g, block, f.align)).len
        == Pad(g, block, f.align) + RoundUp(r.size, f.align)
  {
    hide Pad, ChunkSize, RoundUp, U32, Fits;
    PadFits(g, block, f.align, r.size);
    assert f.align > 0 by { FitsPositive(g, f.align); }
    RoundUpMeaning(r.size, f.align);
    SmallWord(End(r) - r.readOffset);
    SmallWord(End(r) - r.writeOffset);
    if r.readOffset < End(r) {
      ModDifference(r.offset, r.readOffset, f.align);
      RoundUpSplit(r.readOffset - r.offset, End(r) - r.readOffset, f.align);
      SmallWord(RoundUp(End(r) - r.readOffset, f.align));
    }
  }

  /** O_DIRECT: file offset, memory address and length of every read are multiples of the alignment. */
  lemma ReadIsAligned(g: Geometry, r: Chunk, f: File, block: nat)
    requires ValidGeometry(g) && Shape(g, f, r) && Progress(r, f.align)
    requires block < g.blocks && r.size > 0 && r.readOffset < End(r)
    ensures var q := ReadOf(r, f.align, Pad(g, block, f.align));
      && f.align > 0
      && q.off % f.align == 0
      && (BlockAddress(g, block) + q.pos) % f.align == 0
      && q.len % f.align == 0
      && q.pos + q.len <= g.blockSize
  {
    hide Pad, ChunkSize, RoundUp, Fits, BlockAddress;
    RequestsAreExact(g, r, f, block);
    PadFits(g, block, f.align, r.size);
    RoundUpMeaning(End(r) - r.readOffset, f.align);
    ModDifference(r.offset, r.readOffset, f.align);
    ModSum(BlockAddress(g, block) + Pad(g, block, f.align), r.readOffset - r.offset, f.align);
  }

  /** A read never gets past the end of its chunk, and a full read reaches exactly it. */
  lemma ReadStaysInChunk(g: Geometry, r: Chunk, f: File, res: int)
    requires Shape(g, f, r) && Progress(r, f.align)
    requires r.readOffset < End(r)
    requires res <= RoundUp(End(r) - r.readOffset, f.align)
    requires res > 0 ==> r.readOffset + res <= |f.src|
    ensures res <= End(r) - r.readOffset
    ensures res == RoundUp(End(r) - r.readOffset, f.align) ==> res == End(r) - r.readOffset
  {
    hide ChunkSize, RoundUp, Fits;
    RoundUpMeaning(End(r) - r.readOffset, f.align);
    if End(r) != |f.src| {
      ModSum(r.offset, r.size, f.align);
      ModDifference(r.readOffset, End(r), f.align);
    }
  }

  // ---------------------------------------------------------------- the events of one runner

  lemma FreshOk(g: Geometry, f: File, file: nat, part: Part)
    requires var r := Fresh(file, part); Shape(g, f, r)
    ensures RunnerOk(g, Fresh(file, part), f, None, None, [])
  {
    if f.src != [] {
      FitsPositive(g, f.align);
    }
    hide ChunkSize, Fits;
  }

  lemma GiveBufferOk(g: Geometry, r: Chunk, f: File, b: nat, buf: seq<byte>)
    requires RunnerOk(g, r, f, None, None, []) && r.alive && r.block.None? && r.size > 0
    requires b < g.blocks && |buf| == g.blockSize
    ensures RunnerOk(g, r.(block := Some(b)), f, None, None, buf)
  {
    hide ChunkSize, Fits, Pad;
  }

  lemma IssueOk(g: Geometry, r: Chunk, f: File, buf: seq<byte>)
    requires ValidGeometry(g)
    requires RunnerOk(g, r, f, None, None, buf) && r.alive && r.block.Some? && !r.savedError
    requires r.writeOffset < End(r) && f.destFd.Open?
    ensures var pad := PadFor(g, r, f);
      var read := ReadRequest(r, f.align, pad);
      var write := WriteRequest(r, pad);
      && write.Some?
      && (read.Some? ==> RunnerOk(g, r.(jobsRunning := 2), f,
            Some(Job(read.value, true, Queued)), Some(Job(write.value, true, Queued)), buf))
      && (read.None? ==> RunnerOk(g, r.(jobsRunning := 1), f, None, Some(Job(write.value, false, Queued)), buf))
  {
    hide ChunkSize, Fits, Pad, RoundUp, ReadRequest, WriteRequest;
    RequestsAreExact(g, r, f, r.block.value);
  }

  lemma ConsumePairOk(g: Geometry, r: Chunk, f: File, rd: Job, wr: Job, buf: seq<byte>)
    requires RunnerOk(g, r, f, Some(rd), Some(wr), buf) && rd.stage.Queued?
    ensures RunnerOk(g, r, f, Some(rd.(stage := Ready)), Some(wr.(stage := Blocked)), buf)
  {
    hide ChunkSize, Fits, Pad, RoundUp;
  }

  lemma ConsumeWriteOk(g: Geometry, r: Chunk, f: File, wr: Job, buf: seq<byte>)
    requires RunnerOk(g, r, f, None, Some(wr), buf) && wr.stage.Queued?
    ensures RunnerOk(g, r, f, None, Some(wr.(stage := Ready)), buf)
  {
    hide ChunkSize, Fits, Pad, RoundUp;
  }

  lemma ReadOk(g: Geometry, r: Chunk, f: File, rd: Job, wr: Job, buf: seq<byte>, res: int, data: seq<byte>)
    requires ValidGeometry(g)
    requires RunnerOk(g, r, f, Some(rd), Some(wr), buf) && rd.stage.Ready?
    requires KernelRead(f.src, rd.request, res, data)
    ensures rd.request.pos + rd.request.len <= |buf|
    ensures RunnerOk(g, r, f, Some(rd.(stage := Done(res))),
      Some(wr.(stage := if res == rd.request.len then Ready else Cancelled)),
      Overwrite(buf, rd.request.pos, data))
  {
    hide ChunkSize, Fits, Pad, RoundUp;
    RequestsAreExact(g, r, f, r.block.value);
    ReadStaysInChunk(g, r, f, res);
    var pad := PadFor(g, r, f);
    var buf' := Overwrite(buf, rd.request.pos, data);
    forall p | r.offset <= p < r.readOffset + (if res > 0 then res else 0)
      ensures InBuffer(buf', pad, f.src, r.offset, p)
    {
      if p < r.readOffset {
        assert InBuffer(buf, pad, f.src, r.offset, p);
      }
      if p >= r.readOffset {
        assert data[..res][p - r.readOffset] == f.src[r.readOffset..r.readOffset + res][p - r.readOffset];
      }
    }
  }

  lemma CancelOk(g: Geometry, r: Chunk, f: File, rj: Option<Job>, wr: Job, buf: seq<byte>)
    requires RunnerOk(g, r, f, rj, Some(wr), buf) && wr.stage.Cancelled?
    ensures RunnerOk(g, r, f, rj, Some(wr.(stage := Done(-ECANCELED))), buf)
  {
    hide ChunkSize, Fits, Pad, RoundUp;
  }

  /** A write sends bytes of the source, whatever length the kernel takes. */
  lemma WriteSendsSource(g: Geometry, r: Chunk, f: File, rj: Option<Job>, wr: Job, buf: seq<byte>, n: nat)
    requires ValidGeometry(g)
    requires RunnerOk(g, r, f, rj, Some(wr), buf) && wr.stage.Ready? && n <= wr.request.len
    ensures wr.request.pos + wr.request.len <= |buf|
    ensures wr.request.off + n <= |f.src|
    ensures forall k :: 0 <= k < n ==> Slice(buf, wr.request.pos, n)[k] == f.src[wr.request.off + k]
  {
    hide ChunkSize, Fits, Pad, RoundUp;
    RequestsAreExact(g, r, f, r.block.value);
    assert f.align > 0 by { FitsPositive(g, f.align); }
    RoundUpMeaning(r.size, f.align);
    var pad := PadFor(g, r, f);
    if rj.Some? {
      ReadStaysInChunk(g, r, f, rj.value.stage.res) by { RoundUpMeaning(End(r) - r.readOffset, f.align); }
    }
    assert Buffered(buf, pad, f.src, r.offset, End(r));
    forall k | 0 <= k < n
      ensures Slice(buf, wr.request.pos, n)[k] == f.src[wr.request.off + k]
    {
      var p := wr.request.off + k;
      assert InBuffer(buf, pad, f.src, r.offset, p);
    }
  }

  /** Positions that already hold the source's byte keep it. */
  predicate Keeps(dest: seq<byte>, dest': seq<byte>, src: seq<byte>) {
    forall p :: 0 <= p < |dest| && Same(dest, src, p) ==> Same(dest', src, p)
  }

  lemma KeepsAgreement(dest: seq<byte>, dest': seq<byte>, src: seq<byte>, lo: nat, hi: nat)
    requires Keeps(dest, dest', src) && Agree(dest, src, lo, hi)
    ensures Agree(dest', src, lo, hi)
  {
  }

  lemma AgreeJoin(dest: seq<byte>, src: seq<byte>, lo: nat, mid: nat, hi: nat)
    requires Agree(dest, src, lo, mid) && Agree(dest, src, mid, hi)
    ensures Agree(dest, src, lo, hi)
  {
  }

  /** Writing source bytes where they belong keeps every agreement and adds one. */
  lemma WriteKeepsAgreement(dest: seq<byte>, src: seq<byte>, off: nat, data: seq<byte>)
    requires off + |data| <= |src|
    requires forall k :: 0 <= k < |data| ==> data[k] == src[off + k]
    ensures Agree(WriteAt(dest, off, data), src, off, off + |data|)
    ensures Keeps(dest, WriteAt(dest, off, data), src)
    ensures |dest| <= |src| ==> |WriteAt(dest, off, data)| <= |src|
    ensures NoWrongByte(dest, src) ==> NoWrongByte(WriteAt(dest, off, data), src)
  {
    var dest' := WriteAt(dest, off, data);
    forall p | 0 <= p < |dest| && Same(dest, src, p)
      ensures Same(dest', src, p)
    {
      if off <= p < off + |data| {
        assert data[p - off] == src[off + (p - off)];
      }
    }
    forall p | off <= p < off + |data|
      ensures Same(dest', src, p)
    {
      assert data[p - off] == src[off + (p - off)];
    }
    if NoWrongByte(dest, src) {
      forall p | 0 <= p < |dest'|
        ensures Same(dest', src, p) || dest'[p] == 0
      {
        if off <= p < off + |data| {
          assert data[p - off] == src[off + (p - off)];
        } else if p < |dest| {
          assert Same(dest, src, p) || dest[p] == 0;
        }
      }
    }
  }

  /** No byte of the destination is anything but the source's byte or a hole not yet written. */
  predicate NoWrongByte(dest: seq<byte>, src: seq<byte>) {
    |dest| <= |src| && forall p :: 0 <= p < |dest| ==> Same(dest, src, p) || dest[p] == 0
  }

  lemma WriteOk(g: Geometry, r: Chunk, f: File, rj: Option<Job>, wr: Job, buf: seq<byte>, res: int)
    requires ValidGeometry(g)
    requires RunnerOk(g, r, f, rj, Some(wr), buf) && wr.stage.Ready? && res <= wr.request.len
    ensures var f' := f.(dest := WriteAt(f.dest, wr.request.off, Slice(buf, wr.request.pos, if res > 0 then res else 0)));
      RunnerOk(g, r, f', rj, Some(wr.(stage := Done(res))), buf)
  {
    hide ChunkSize, Fits, Pad, RoundUp, WriteAt, Slice, Plannable, ValidGeometry;
    var n: nat := if res > 0 then res else 0;
    var data := Slice(buf, wr.request.pos, n);
    WriteSendsSource(g, r, f, rj, wr, buf, n);
    WriteKeepsAgreement(f.dest, f.src, wr.request.off, data);
    var f' := f.(dest := WriteAt(f.dest, wr.request.off, data));
    KeepsAgreement(f.dest, f'.dest, f.src, r.offset, r.writeOffset);
    hide Agree, Keeps, Buffered;
    if rj.Some? {
      assert wr.request.off == r.offset;
    }
  }

  lemma ReapReadOk(g: Geometry, r: Chunk, f: File, rd: Job, wr: Job, buf: seq<byte>, chunks: nat)
    requires ValidGeometry(g)
    requires RunnerOk(g, r, f, Some(rd), Some(wr), buf) && rd.stage.Done? && r.alive
    ensures var r' := Absorb(r, Read, rd.stage.res, f.align, chunks);
      && RunnerOk(g, r', f, None, Some(wr), buf)
      && r'.jobsRunning == 1 && Judge(r') == Continue
      && r'.readOffset >= r.readOffset && r'.writeOffset == r.writeOffset
  {
    hide ChunkSize, Fits, Pad, RoundUp, AlignDown;
    ChunkSizeAligned(g, f.align);
    var res := rd.stage.res;
    var x := r.(jobsRunning := r.jobsRunning - 1);
    if res >= 0 {
      var x2 := x.(readOffset := r.readOffset + res);
      SmallRest(g, f, x2);
      if End(r) != r.readOffset + res {
        AlignDownMeaning(r.readOffset + res, f.align);
        AlignDownKeeps(r.readOffset, r.readOffset + res, f.align);
      }
    }
    if res == rd.request.len {
      RoundUpMeaning(End(r) - r.readOffset, f.align);
    }
  }

  lemma SmallRest(g: Geometry, f: File, r: Chunk)
    requires Shape(g, f, r) && ChunkSize(g, f.align) < TWO_32
    requires r.offset <= r.readOffset <= End(r)
    ensures BytesToRead(r) == End(r) - r.readOffset
  {
    SmallWord(End(r) - r.readOffset);
  }

  lemma ReapWriteOk(g: Geometry, r: Chunk, f: File, wr: Job, buf: seq<byte>, align: nat, chunks: nat)
    requires RunnerOk(g, r, f, None, Some(wr), buf) && wr.stage.Done? && r.alive
    ensures var r' := Absorb(r, Write, wr.stage.res, align, chunks);
      && r'.jobsRunning == 0 && Judge(r') != Continue
      && r'.writeOffset == r.writeOffset + Copied(r, Write, wr.stage.res)
      && r'.readOffset == r.readOffset
      && (Judge(r') == Failed <==> r'.savedError)
      && (Judge(r') == Finished ==> r'.writeOffset == End(r'))
      && (Judge(r') == Reschedule ==> r'.writeOffset < End(r'))
      && RunnerOk(g, r', f, None, None, buf)
  {
    hide ChunkSize, Fits, Pad, RoundUp, AlignDown;
    var w := wr.stage.res;
    if w >= 0 {
      AgreeJoin(f.dest, f.src, r.offset, r.writeOffset, r.writeOffset + w);
    }
  }

  // ---------------------------------------------------------------- what others do to the file

  /** The ways a file changes under a runner that is not acting. */
  predicate Evolves(f: File, f': File) {
    && f'.src == f.src && f'.align == f.align
    && (f'.destFd.NeverOpened? ==> f.destFd.NeverOpened?)
    && (f.destFd.NeverOpened? || Keeps(f.dest, f'.dest, f.src))
  }

  lemma BystanderOk(g: Geometry, r: Chunk, f: File, f': File, rj: Option<Job>, wj: Option<Job>, buf: seq<byte>)
    requires RunnerOk(g, r, f, rj, wj, buf)
    requires Evolves(f, f')
    ensures RunnerOk(g, r, f', rj, wj, buf)
  {
    hide ChunkSize, Fits, Pad, RoundUp;
    if !f.destFd.NeverOpened? {
      KeepsAgreement(f.dest, f'.dest, f.src, r.offset, r.writeOffset);
      if wj.Some? && wj.value.stage.Done? && wj.value.stage.res >= 0 {
        KeepsAgreement(f.dest, f'.dest, f.src, r.writeOffset, r.writeOffset + wj.value.stage.res);
      }
    }
  }
}
