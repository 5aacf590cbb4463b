/** The runner as an object: its methods do to fields what the engine's functions do to values. */
module CopyRunner {
  import opened Arithmetic
  import opened ChunkPlan
  import opened Runner
  import opened Engine
  import opened Invariant

  /** What the runners of all files share. */
  class Queue {
    const g: Geometry
    var keepAlive: int
    var submissionsRunning: int
    var totalCopied: int
    var totalFailed: int
    var fdsUsed: int

    constructor (g: Geometry)
      ensures this.g == g && keepAlive == submissionsRunning == totalCopied == totalFailed == 0 && fdsUsed == RESERVED_FDS
    {
      this.g := g;
      keepAlive, submissionsRunning, totalCopied, totalFailed, fdsUsed := 0, 0, 0, 0, RESERVED_FDS;
    }
  }

  /** What the runners of one file share. */
  class SharedFile {
    var sourceFd: Fd
    var destFd: Fd
    var chunksRemaining: int

    constructor (sourceFd: Fd, destFd: Fd, chunkCount: int)
      ensures this.sourceFd == sourceFd && this.destFd == destFd && chunksRemaining == chunkCount
    {
      this.sourceFd, this.destFd, chunksRemaining := sourceFd, destFd, chunkCount;
    }

    function OpenFds(): nat
      reads this
    {
      (if sourceFd.Open? then 1 else 0) + (if destFd.Open? then 1 else 0)
    }
  }

  class CopyRunner {
    const queue: Queue
    const shared: SharedFile
    const file: nat
    const offset: nat
    const size: nat
    const alignment: nat
    var buffer: Option<nat>
    var bufferAligned: nat
    var readOffset: nat
    var writeOffset: nat
    var jobsRunning: int
    var savedError: bool
    ghost var errorChunks: nat
    ghost var alive: bool

    /** The engine's picture of this object. */
    ghost function View(): Chunk
      reads this
    {
      Chunk(file, offset, size, buffer, readOffset, writeOffset, jobsRunning, savedError, errorChunks, alive)
    }

    /** The distance from the block's address to the aligned one. */
    ghost function PadHere(): int
      reads this
    {
      if buffer.Some? then bufferAligned - BlockAddress(queue.g, buffer.value) else 0
    }

    ghost predicate Valid()
      reads this
    {
      && offset <= readOffset && offset <= writeOffset <= offset + size
      && (buffer.Some? ==> PadHere() == Pad(queue.g, buffer.value, alignment))
    }

    constructor (queue: Queue, shared: SharedFile, file: nat, part: Part, alignment: nat)
      modifies queue
      ensures Valid() && View() == Fresh(file, part)
      ensures this.queue == queue && this.shared == shared && this.alignment == alignment
      ensures queue.keepAlive == old(queue.keepAlive) + 1
      ensures queue.submissionsRunning == old(queue.submissionsRunning) && queue.totalCopied == old(queue.totalCopied)
      ensures queue.fdsUsed == old(queue.fdsUsed) && queue.totalFailed == old(queue.totalFailed)
    {
      this.queue, this.shared, this.file, this.alignment := queue, shared, file, alignment;
      offset, size := part.offset, part.size;
      buffer, bufferAligned := None, 0;
      readOffset, writeOffset := part.offset, part.offset;
      jobsRunning, savedError, errorChunks, alive := 0, false, 0, true;
      new;
      queue.keepAlive := queue.keepAlive + 1;
    }

    /** `giveBuffer`, with both of its release asserts. */
    method GiveBuffer(block: nat)
      requires Valid() && NeedsBuffer(View())
      requires ValidGeometry(queue.g) && Fits(queue.g, alignment) && block < queue.g.blocks
      requires size <= ChunkSize(queue.g, alignment)
      modifies this`buffer, this`bufferAligned
      ensures Valid() && View() == old(View()).(block := Some(block))
      ensures bufferAligned % alignment == 0
      ensures BlockAddress(queue.g, block) <= bufferAligned
      ensures bufferAligned + RoundUp(size, alignment) <= BlockAddress(queue.g, block) + queue.g.blockSize
    {
      FitsPositive(queue.g, alignment);
      PadFits(queue.g, block, alignment, size);
      RoundUpMeaning(size, alignment);
      hide AlignAddress, IsPow2, RoundUp, ChunkSize, Fits, ValidGeometry;
      buffer := Some(block);
      bufferAligned := AlignAddress(BlockAddress(queue.g, block), alignment);
      assert bufferAligned % alignment == 0;
      assert bufferAligned + size <= BlockAddress(queue.g, block) + queue.g.blockSize;
    }

    /** `getSqe`, whose wait for a free entry ends at once: see `Theorems.RingHasRoom`. */
    method GetSqe()
      modifies this`jobsRunning, queue`submissionsRunning
      ensures jobsRunning == old(jobsRunning) + 1
      ensures queue.submissionsRunning == old(queue.submissionsRunning) + 1
    {
      jobsRunning := jobsRunning + 1;
      queue.submissionsRunning := queue.submissionsRunning + 1;
    }

    /** The requests of a batch, relative to the heap block. */
    method IssueRequests() returns (read: Option<Request>, write: Option<Request>)
      requires Valid() && jobsRunning == 0 && buffer.Some? && alignment > 0
      modifies this`jobsRunning, queue`submissionsRunning
      ensures Valid()
      ensures read == ReadRequest(old(View()), alignment, Pad(queue.g, buffer.value, alignment))
      ensures write == WriteRequest(old(View()), Pad(queue.g, buffer.value, alignment))
      ensures var n := (if read.Some? then 1 else 0) + (if write.Some? then 1 else 0);
        && View() == old(View()).(jobsRunning := n)
        && queue.submissionsRunning == old(queue.submissionsRunning) + n
    {
      hide Pad;
      read, write := None, None;
      var block := BlockAddress(queue.g, buffer.value);
      var bytesToRead := U32(offset + size - readOffset);
      if bytesToRead != 0 {
        GetSqe();
        if bytesToRead % alignment != 0 {
          var blocks := bytesToRead / alignment + 1;
          bytesToRead := U32(blocks * alignment);
        } else {
          SmallWord(bytesToRead);
        }
        read := Some(Request(bufferAligned + readOffset - offset - block, readOffset, bytesToRead));
      }
      if writeOffset < offset + size {
        GetSqe();
        var bytesToWrite := U32(offset + size - writeOffset);
        write := Some(Request(bufferAligned + writeOffset - offset - block, writeOffset, bytesToWrite));
      }
    }

    /** `handleFileClose`: both files, for the last remaining chunk only. `sourceCloses` and
        `destCloses` say whether the system closes without an error; a file counts as closed anyway. */
    method HandleFileClose(sourceCloses: bool, destCloses: bool) returns (ok: bool)
      modifies shared`sourceFd, shared`destFd, queue`fdsUsed
      ensures ClosesIf(shared.chunksRemaining == 1)
      ensures ok <==>
        (shared.chunksRemaining == 1 ==>
          (old(shared.sourceFd).Open? ==> sourceCloses) && (old(shared.destFd).Open? ==> destCloses))
    {
      ok := true;
      if shared.chunksRemaining == 1 {
        if shared.sourceFd.Open? {
          ok := sourceCloses;
          shared.sourceFd := Closed;
          queue.fdsUsed := queue.fdsUsed - 1;
        }
        if shared.destFd.Open? {
          if ok {
            ok := destCloses;
          }
          shared.destFd := Closed;
          queue.fdsUsed := queue.fdsUsed - 1;
        }
      }
    }

    /** `ensureOpened` on the source or the destination; `opens` is what the system answers. The wait
        for a reservation is the subject of `Descriptors`. */
    method EnsureOpened(source: bool, opens: bool) returns (ok: bool)
      modifies shared`sourceFd, shared`destFd, queue`fdsUsed
      ensures var wanted := (if source then old(shared.sourceFd) else old(shared.destFd)).NeverOpened?;
        && (ok <==> !wanted || opens)
        && queue.fdsUsed == old(queue.fdsUsed) + (if wanted then 1 else 0)
        && shared.sourceFd == (if source && wanted && opens then Open(true) else old(shared.sourceFd))
        && shared.destFd == (if !source && wanted && opens then Open(true) else old(shared.destFd))
    {
      var fd := if source then shared.sourceFd else shared.destFd;
      ok := true;
      if fd.NeverOpened? {
        queue.fdsUsed := queue.fdsUsed + 1;
        ok := opens;
        if opens {
          if source {
            shared.sourceFd := Open(true);
          } else {
            shared.destFd := Open(true);
          }
        }
      }
    }

    /** Both files can be had: they are open, or the system opens them. */
    ghost predicate FilesAnswer(source: Fd, destFd: Fd, sourceOpens: bool, destOpens: bool) {
      (source.NeverOpened? ==> sourceOpens) && (destFd.NeverOpened? ==> destOpens)
    }

    /** `submitReadWriteCommands`: source before destination before the requests. If a file cannot be
        opened, the chunk counts as failed, the files are closed if it is the last, and nothing is
        asked of the kernel. */
    method SubmitReadWriteCommands(sourceOpens: bool, destOpens: bool)
        returns (ok: bool, read: Option<Request>, write: Option<Request>)
      requires Valid() && jobsRunning == 0 && buffer.Some? && alignment > 0
      modifies this`jobsRunning, queue`submissionsRunning, queue`totalFailed, queue`fdsUsed
      modifies shared`sourceFd, shared`destFd
      ensures Valid()
      ensures ok <==> FilesAnswer(old(shared.sourceFd), old(shared.destFd), sourceOpens, destOpens)
      ensures ok ==>
        && read == ReadRequest(old(View()), alignment, Pad(queue.g, buffer.value, alignment))
        && write == WriteRequest(old(View()), Pad(queue.g, buffer.value, alignment))
        && shared.sourceFd == (if old(shared.sourceFd).NeverOpened? then Open(true) else old(shared.sourceFd))
        && shared.destFd == (if old(shared.destFd).NeverOpened? then Open(true) else old(shared.destFd))
        && queue.totalFailed == old(queue.totalFailed)
        && queue.fdsUsed == old(queue.fdsUsed) + Flag(old(shared.sourceFd).NeverOpened?) + Flag(old(shared.destFd).NeverOpened?)
      ensures var n := (if read.Some? then 1 else 0) + (if write.Some? then 1 else 0);
        && View() == old(View()).(jobsRunning := n)
        && queue.submissionsRunning == old(queue.submissionsRunning) + n
      ensures !ok ==>
        && read.None? && write.None?
        && queue.totalFailed == old(queue.totalFailed) + size
        && (var source := if old(shared.sourceFd).NeverOpened? && sourceOpens then Open(true) else old(shared.sourceFd);
            var last := shared.chunksRemaining == 1;
            && shared.sourceFd == (if last then CloseFd(source) else source)
            && shared.destFd == (if last then CloseFd(old(shared.destFd)) else old(shared.destFd))
            && queue.fdsUsed == old(queue.fdsUsed) + Flag(old(shared.sourceFd).NeverOpened?)
                 + Flag(!source.NeverOpened? && old(shared.destFd).NeverOpened?)
                 - (if last then Flag(source.Open?) + Flag(old(shared.destFd).Open?) else 0))
    {
      hide Pad, ReadRequest, WriteRequest;
      read, write := None, None;
      ok := EnsureOpened(true, sourceOpens);
      if ok {
        ok := EnsureOpened(false, destOpens);
      }
      if !ok {
        queue.totalFailed := queue.totalFailed + size;
        var closed := HandleFileClose(true, true);
        return;
      }
      read, write := IssueRequests();
    }

    /** `saveError`: the first error closes the files if this chunk is the last. */
    method SaveError()
      requires shared.chunksRemaining >= 0
      modifies this`savedError, this`errorChunks, shared`sourceFd, shared`destFd, queue`fdsUsed
      ensures View() == Runner.SaveError(old(View()), shared.chunksRemaining)
      ensures ClosesIf(!old(savedError) && shared.chunksRemaining == 1)
    {
      if !savedError {
        savedError, errorChunks := true, shared.chunksRemaining;
        var closed := HandleFileClose(true, true);
      }
    }

    twostate predicate ClosesIf(shut: bool)
      reads shared, queue
    {
      && shared.sourceFd == (if shut then CloseFd(old(shared.sourceFd)) else old(shared.sourceFd))
      && shared.destFd == (if shut then CloseFd(old(shared.destFd)) else old(shared.destFd))
      && queue.fdsUsed == old(queue.fdsUsed) - (if shut then old(shared.OpenFds()) else 0)
    }

    /** The read case of `onCompletionEvent`. */
    method OnRead(res: int)
      requires Valid() && shared.chunksRemaining >= 0 && alignment > 0 && offset % alignment == 0
      requires !savedError
      modifies this`savedError, this`errorChunks, this`readOffset
      modifies shared`sourceFd, shared`destFd, queue`fdsUsed
      ensures Valid()
      ensures View() == AbsorbRead(old(View()), res, alignment, shared.chunksRemaining)
      ensures ClosesIf(savedError && shared.chunksRemaining == 1)
    {
      hide U32, AlignDown;
      if res == 0 {
        SaveError();
      }
      if res < 0 {
        SaveError();
      } else {
        readOffset := readOffset + res;
        var bytesToRead := U32(offset + size - readOffset);
        if bytesToRead != 0 {
          AlignDownKeeps(offset, readOffset, alignment);
          StepBack(readOffset, alignment);
          readOffset := (readOffset / alignment) * alignment;
        }
      }
    }

    /** The write case of `onCompletionEvent`. */
    method OnWrite(res: int)
      requires Valid() && shared.chunksRemaining >= 0 && writeOffset + res <= offset + size
      requires !savedError
      modifies this`savedError, this`errorChunks, this`writeOffset
      modifies shared`sourceFd, shared`destFd, queue`fdsUsed, queue`totalCopied
      ensures Valid()
      ensures View() == AbsorbWrite(old(View()), res, shared.chunksRemaining)
      ensures queue.totalCopied == old(queue.totalCopied) + Copied(old(View()), Write, res)
      ensures ClosesIf(savedError && shared.chunksRemaining == 1)
    {
      if res < 0 {
        if res != -ECANCELED {
          SaveError();
        }
      } else {
        writeOffset := writeOffset + res;
        queue.totalCopied := queue.totalCopied + res;
      }
    }

    /** `onCompletionEvent`. */
    method OnCompletionEvent(kind: Kind, res: int) returns (verdict: Verdict)
      requires Valid() && shared.chunksRemaining >= 0 && alignment > 0
      requires kind.Write? ==> writeOffset + res <= offset + size
      requires kind.Read? ==> offset % alignment == 0
      modifies this`jobsRunning, this`savedError, this`errorChunks, this`readOffset, this`writeOffset
      modifies shared`sourceFd, shared`destFd, queue`fdsUsed, queue`totalCopied
      ensures Valid()
      ensures View() == Absorb(old(View()), kind, res, alignment, shared.chunksRemaining)
      ensures verdict == Judge(View())
      ensures queue.totalCopied == old(queue.totalCopied) + Copied(old(View()), kind, res)
      ensures ClosesIf(savedError && !old(savedError) && shared.chunksRemaining == 1)
    {
      hide AbsorbRead, AbsorbWrite, Pad;
      jobsRunning := jobsRunning - 1;
      if !savedError {
        match kind
        case Read => OnRead(res);
        case Write => OnWrite(res);
      }
      if jobsRunning == 0 {
        if savedError {
          return Failed;
        } else if writeOffset == offset + size {
          return Finished;
        } else {
          return Reschedule;
        }
      }
      verdict := Continue;
    }

    /** `~CopyRunner`: what goes back to the heap, and whether the shared objects go too. */
    method Delete() returns (freed: Option<nat>, last: bool)
      requires jobsRunning == 0 && shared.chunksRemaining >= 1
      modifies this`alive, shared`chunksRemaining, queue`keepAlive
      ensures View() == old(View()).(alive := false) && freed == buffer
      ensures queue.keepAlive == old(queue.keepAlive) - 1
      ensures shared.chunksRemaining == old(shared.chunksRemaining) - 1
      ensures last <==> shared.chunksRemaining == 0
    {
      freed := buffer;
      alive := false;
      queue.keepAlive := queue.keepAlive - 1;
      shared.chunksRemaining := shared.chunksRemaining - 1;
      last := shared.chunksRemaining == 0;
    }
  }

  lemma StepBack(n: nat, align: nat)
    requires align > 0
    ensures AlignDown(n, align) == (n / align) * align
  {
  }
}
