/** The state machine of one chunk: what a runner asks of the kernel and what it makes of the answers. */
module Runner {
  import opened Arithmetic
  import opened ChunkPlan

  datatype Option<+T> = None | Some(value: T)

  const ECANCELED: int := 125

  datatype Kind = Read | Write

  /** A byte range: position in the heap block, offset in the file, length. */
  datatype Request = Request(pos: nat, off: nat, len: nat)

  /** `errorChunks` is the value of the shared chunk counter when the first error was saved;
      `alive` turns false when the runner is deleted. Neither is a field of the original. */
  datatype Chunk = Chunk(
    file: nat, offset: nat, size: nat, block: Option<nat>,
    readOffset: nat, writeOffset: nat, jobsRunning: int,
    savedError: bool, errorChunks: nat, alive: bool)

  function End(r: Chunk): nat {
    r.offset + r.size
  }

  function Fresh(file: nat, part: Part): Chunk {
    Chunk(file, part.offset, part.size, None, part.offset, part.offset, 0, false, 0, true)
  }

  predicate NeedsBuffer(r: Chunk) {
    r.block.None? && r.size > 0
  }

  /** `bytesToRead`: the remainder, squeezed into an `unsigned int`. */
  function BytesToRead(r: Chunk): nat {
    U32(End(r) - r.readOffset)
  }

  function ReadRequest(r: Chunk, align: nat, pad: nat): Option<Request> {
    if BytesToRead(r) == 0 || r.readOffset < r.offset then None
    else Some(Request(pad + (r.readOffset - r.offset), r.readOffset, U32(RoundUp(BytesToRead(r), align))))
  }

  function WriteRequest(r: Chunk, pad: nat): Option<Request> {
    if End(r) <= r.writeOffset || r.writeOffset < r.offset then None
    else Some(Request(pad + (r.writeOffset - r.offset), r.writeOffset, U32(End(r) - r.writeOffset)))
  }

  function SaveError(r: Chunk, chunks: nat): Chunk {
    if r.savedError then r else r.(savedError := true, errorChunks := chunks)
  }

  /** `onCompletionEvent` for a read. */
  function AbsorbRead(r: Chunk, res: int, align: nat, chunks: nat): Chunk {
    if res < 0 then SaveError(r, chunks)
    else
      var r1 := if res == 0 then SaveError(r, chunks) else r;
      var r2 := r1.(readOffset := r.readOffset + res);
      if BytesToRead(r2) != 0 then r2.(readOffset := AlignDown(r2.readOffset, align)) else r2
  }

  /** `onCompletionEvent` for a write. */
  function AbsorbWrite(r: Chunk, res: int, chunks: nat): Chunk {
    if res >= 0 then r.(writeOffset := r.writeOffset + res)
    else if res == -ECANCELED then r
    else SaveError(r, chunks)
  }

  /** A runner that has saved an error only counts its outstanding jobs down. */
  function Absorb(r: Chunk, kind: Kind, res: int, align: nat, chunks: nat): Chunk {
    var r0 := r.(jobsRunning := r.jobsRunning - 1);
    if r0.savedError then r0
    else if kind.Read? then AbsorbRead(r0, res, align, chunks)
    else AbsorbWrite(r0, res, chunks)
  }

  datatype Verdict = Continue | Reschedule | Finished | Failed

  function Judge(r: Chunk): Verdict {
    if r.jobsRunning != 0 then Continue
    else if r.savedError then Failed
    else if r.writeOffset == End(r) then Finished
    else Reschedule
  }

  /** How many bytes the completion adds to `totalBytesCopied`. */
  function Copied(r: Chunk, kind: Kind, res: int): nat {
    if kind.Write? && !r.savedError && res > 0 then res else 0
  }

  /** Which answers are failures: any error of a read, a read that brings nothing, and any error of a
      write but that of a cancelled one. What comes after a failure changes nothing but the count of
      outstanding jobs. */
  lemma FailuresAreSaved(r: Chunk, kind: Kind, res: int, align: nat, chunks: nat)
    ensures var r' := Absorb(r, kind, res, align, chunks);
      if r.savedError then r' == r.(jobsRunning := r.jobsRunning - 1)
      else r'.savedError <==> if kind.Read? then res <= 0 else res < 0 && res != -125
  {
    hide AlignDown, BytesToRead;
  }

  /** The first batch and the 32-bit byte count: a fresh chunk starts without a read exactly if its
      length is a multiple of 2^32; then it asks for an empty write, whose completion brings back the
      very same runner. What becomes of other wide chunks is proved in `WideChunk`. */
  lemma WideChunkSkipsRead(r: Chunk, align: nat, pad: nat, chunks: nat)
    requires r.size > 0 && r.readOffset == r.writeOffset == r.offset && r.jobsRunning == 0 && !r.savedError
    ensures r.size % TWO_32 != 0 <==> ReadRequest(r, align, pad).Some?
    ensures r.size % TWO_32 == 0 ==>
      && WriteRequest(r, pad) == Some(Request(pad, r.offset, 0))
      && Absorb(r.(jobsRunning := 1), Write, 0, align, chunks) == r
      && Judge(r) == Reschedule
  {
  }

  /** A short read that stops inside the chunk moves the read offset on exactly if it delivered a
      whole alignment unit; otherwise stepping back takes all of it away again. */
  lemma ShortReadStandsStill(r: Chunk, res: int, align: nat, chunks: nat)
    requires align > 0 && r.readOffset % align == 0 && !r.savedError
    requires 0 < res && r.readOffset + res < End(r) && r.size < TWO_32 && r.offset <= r.readOffset
    ensures var r' := Absorb(r, Read, res, align, chunks);
      && r.readOffset <= r'.readOffset <= r.readOffset + res
      && (r'.readOffset == r.readOffset <==> res < align)
  {
    var n := r.readOffset + res;
    StepBackStays(r.readOffset, n, align);
    SmallWord(End(r) - n);
    hide AlignDown, U32;
    assert BytesToRead(r.(readOffset := n)) == End(r) - n;
  }

  lemma StepBackStays(low: nat, n: nat, align: nat)
    requires align > 0 && low % align == 0 && low <= n
    ensures low <= AlignDown(n, align) <= n
    ensures AlignDown(n, align) == low <==> n < low + align
  {
    AlignDownKeeps(low, n, align);
    AlignDownMeaning(n, align);
    hide AlignDown;
    MultiplesApart(low, AlignDown(n, align), align);
  }
}
