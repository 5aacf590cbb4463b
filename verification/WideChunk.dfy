/** What becomes of a chunk that the 32-bit byte counts cannot hold. */
module WideChunk {
  import opened Arithmetic
  import opened Runner

  // ---------------------------------------------------------------- when requests are exact

  /** Offsets as a runner has them between batches. */
  predicate Within(r: Chunk, align: nat)
    requires align > 0
  {
    && r.offset <= r.readOffset <= End(r) && r.offset <= r.writeOffset <= End(r)
    && (r.readOffset == End(r) || (r.readOffset - r.offset) % align == 0)
  }

  /** The requests ask for what is left, the read rounded up. */
  predicate Exact(r: Chunk, align: nat)
    requires align > 0 && Within(r, align)
  {
    && ReadRequest(r, align, 0) ==
       (if r.readOffset == End(r) then None
        else Some(Request(r.readOffset - r.offset, r.readOffset, RoundUp(End(r) - r.readOffset, align))))
    && WriteRequest(r, 0) ==
       (if r.writeOffset == End(r) then None
        else Some(Request(r.writeOffset - r.offset, r.writeOffset, End(r) - r.writeOffset)))
  }

  lemma ExactIfNarrow(r: Chunk, align: nat)
    requires align > 0 && Within(r, align) && RoundUp(r.size, align) < TWO_32
    ensures Exact(r, align)
  {
    RoundUpMeaning(r.size, align);
    var left, unsaved := End(r) - r.readOffset, End(r) - r.writeOffset;
    SmallWord(left);
    SmallWord(unsaved);
    if left > 0 {
      RoundUpSplit(r.readOffset - r.offset, left, align);
      RoundUpMeaning(left, align);
      SmallWord(RoundUp(left, align));
    }
    hide RoundUp, U32;
  }

  lemma FirstInexact(r: Chunk, align: nat)
    requires align > 0 && r.size > 0 && r.readOffset == r.writeOffset == r.offset && RoundUp(r.size, align) >= TWO_32
    ensures Within(r, align) && !Exact(r, align)
  {
    hide RoundUp, U32, WriteRequest;
    assert (r.readOffset - r.offset) % align == 0 by { ModDifference(0, 0, align); }
    WordIsSmall(RoundUp(BytesToRead(r), align));
  }

  lemma WordIsSmall(n: nat)
    ensures U32(n) < TWO_32
  {
  }

  /** All requests of a chunk are exact, in every state between batches, if and only if its size,
      rounded up to the alignment, fits 32 bits. For sizes that are whole alignment units that is
      the size itself; but a tail just short of 2^32 bytes already fails. */
  lemma ExactRequests(c: Chunk, align: nat)
    requires align > 0 && c.size > 0
    ensures (forall r: Chunk :: r.offset == c.offset && r.size == c.size && Within(r, align) ==> Exact(r, align))
      <==> RoundUp(c.size, align) < TWO_32
    ensures c.size % align == 0 ==> RoundUp(c.size, align) == c.size
  {
    RoundUpMeaning(c.size, align);
    var first := c.(readOffset := c.offset, writeOffset := c.offset);
    if RoundUp(c.size, align) < TWO_32 {
      forall r: Chunk | r.offset == c.offset && r.size == c.size && Within(r, align)
        ensures Exact(r, align)
      {
        ExactIfNarrow(r, align);
      }
    } else {
      FirstInexact(first, align);
    }
  }

  // ---------------------------------------------------------------- rounds

  /** What the kernel returns for the read and the write of one batch. */
  datatype Answer = Answer(read: int, write: int)

  /** Between batches, with something left to write. */
  predicate Ready(r: Chunk) {
    r.jobsRunning == 0 && !r.savedError && r.offset <= r.readOffset && r.offset <= r.writeOffset < End(r)
  }

  /** A read returns at most what was asked; the write linked to it is cancelled unless it got that. */
  predicate Answers(r: Chunk, align: nat, a: Answer) {
    var rd, wr := ReadRequest(r, align, 0), WriteRequest(r, 0);
    && (rd.Some? ==> a.read <= rd.value.len)
    && (wr.Some? ==>
      if rd.None? || a.read == rd.value.len then a.write <= wr.value.len else a.write == -ECANCELED)
  }

  /** One batch from issue to its last completion. */
  function Round(r: Chunk, align: nat, a: Answer): Chunk {
    var rd, wr := ReadRequest(r, align, 0), WriteRequest(r, 0);
    var r0 := r.(jobsRunning := (if rd.Some? then 1 else 0) + (if wr.Some? then 1 else 0));
    var r1 := if rd.Some? then Absorb(r0, Read, a.read, align, 1) else r0;
    if wr.Some? then Absorb(r1, Write, a.write, align, 1) else r1
  }

  predicate History(r: Chunk, align: nat, answers: seq<Answer>)
    decreases |answers|
  {
    answers != [] ==>
      Ready(r) && Answers(r, align, answers[0]) && History(Round(r, align, answers[0]), align, answers[1..])
  }

  function After(r: Chunk, align: nat, answers: seq<Answer>): Chunk
    decreases |answers|
  {
    if answers == [] then r else After(Round(r, align, answers[0]), align, answers[1..])
  }

  predicate Untouched(c: Chunk) {
    c.size > 0 && c.readOffset == c.writeOffset == c.offset && c.jobsRunning == 0 && !c.savedError
  }

  // ---------------------------------------------------------------- a wide chunk never finishes

  /** What a write may take is less than one 32-bit span, and never the span itself. */
  lemma WideRound(r: Chunk, align: nat, a: Answer)
    requires Ready(r) && Answers(r, align, a) && End(r) - r.writeOffset >= TWO_32
    ensures var r' := Round(r, align, a); End(r') == End(r) && End(r') - r'.writeOffset >= TWO_32
  {
    hide ReadRequest, AlignDown, BytesToRead;
    SpanLeft(End(r) - r.writeOffset);
    hide U32;
  }

  lemma SpanLeft(n: nat)
    requires n >= TWO_32
    ensures n - U32(n) >= TWO_32
  {
  }

  lemma {:induction false} WideNeverFinishes(r: Chunk, align: nat, answers: seq<Answer>)
    requires History(r, align, answers) && End(r) - r.writeOffset >= TWO_32
    ensures !Judge(After(r, align, answers)).Finished?
    decreases |answers|
  {
    if answers != [] {
      WideRound(r, align, answers[0]);
      WideNeverFinishes(Round(r, align, answers[0]), align, answers[1..]);
    }
  }

  /** Where a size below a power of two rounds up to it or beyond, it rounds up to a multiple of it. */
  lemma RoundsToSpan(size: nat, align: nat, span: nat)
    requires IsPow2(align) && IsPow2(span) && 0 < size < span <= RoundUp(size, align)
    ensures RoundUp(size, align) % span == 0
  {
    assert align > 0;
    if align <= span {
      Pow2Divides(align, span);
      hide IsPow2, RoundUp;
      RoundUpFits(size, span, align);
      DivModUnique(span, span, 1, 0);
    } else {
      Pow2Divides(span, align);
      hide IsPow2, RoundUp;
      DivModUnique(align, align, 1, 0);
      RoundUpUnique(size, align, align);
    }
  }

  /** So it asks for a read of no bytes. */
  lemma EmptyFirstRead(size: nat, align: nat)
    requires IsPow2(align) && 0 < size < TWO_32 <= RoundUp(size, align)
    ensures U32(RoundUp(U32(size), align)) == 0
  {
    WordsArePow2();
    RoundsToSpan(size, align, TWO_32);
    hide IsPow2, RoundUp;
    SmallWord(size);
  }

  lemma FirstRoundFails(c: Chunk, align: nat, a: Answer)
    requires IsPow2(align) && Untouched(c) && c.size < TWO_32 <= RoundUp(c.size, align) && Answers(c, align, a)
    ensures var r := Round(c, align, a); r.savedError && r.jobsRunning == 0
  {
    EmptyFirstRead(c.size, align);
    SmallWord(c.size);
    hide RoundUp, U32, AlignDown, IsPow2;
    assert BytesToRead(c) == c.size;
    assert ReadRequest(c, align, 0) == Some(Request(0, c.offset, 0));
    hide BytesToRead;
  }

  /** A batch of two, spelled out. */
  lemma PairRound(r: Chunk, align: nat, a: Answer)
    requires Ready(r) && ReadRequest(r, align, 0).Some? && WriteRequest(r, 0).Some?
    ensures var r1 := AbsorbRead(r.(jobsRunning := 1), a.read, align, 1);
      Round(r, align, a) ==
        (if r1.savedError then r1.(jobsRunning := r1.jobsRunning - 1)
         else AbsorbWrite(r1.(jobsRunning := r1.jobsRunning - 1), a.write, 1))
  {
    hide ReadRequest, WriteRequest, AbsorbRead, AbsorbWrite;
  }

  lemma ReadWhole(r: Chunk, align: nat)
    requires r.readOffset == r.offset && r.size > 0
    ensures AbsorbRead(r, r.size, align, 1) == r.(readOffset := End(r))
  {
    SmallWord(0);
    hide AlignDown, U32;
  }

  lemma FirstRequests(c: Chunk, align: nat)
    requires align > 0 && Untouched(c) && RoundUp(c.size, align) < TWO_32
    ensures ReadRequest(c, align, 0) == Some(Request(0, c.offset, RoundUp(c.size, align)))
    ensures WriteRequest(c, 0) == Some(Request(0, c.offset, c.size))
  {
    assert (c.readOffset - c.offset) % align == 0;
    ExactIfNarrow(c, align);
    hide RoundUp, ReadRequest, WriteRequest;
  }

  /** The two batches a chunk may need: the read with its write, and the write alone. */
  lemma WholeRound(c: Chunk, align: nat)
    requires align > 0 && Untouched(c) && RoundUp(c.size, align) < TWO_32
    ensures var cut := RoundUp(c.size, align) != c.size;
      && Answers(c, align, Answer(c.size, if cut then -ECANCELED else c.size))
      && Round(c, align, Answer(c.size, if cut then -ECANCELED else c.size))
        == c.(readOffset := End(c), writeOffset := if cut then c.offset else End(c))
  {
    RoundUpMeaning(c.size, align);
    hide RoundUp, ReadRequest, WriteRequest, AbsorbRead, Round;
    FirstRequests(c, align);
    var cut := RoundUp(c.size, align) != c.size;
    PairRound(c, align, Answer(c.size, if cut then -ECANCELED else c.size));
    ReadWhole(c.(jobsRunning := 1), align);
  }

  lemma WriteAlone(r: Chunk, align: nat)
    requires align > 0 && Ready(r) && r.readOffset == End(r) && r.writeOffset == r.offset && RoundUp(r.size, align) < TWO_32
    ensures Answers(r, align, Answer(0, r.size)) && Round(r, align, Answer(0, r.size)) == r.(writeOffset := End(r))
  {
    ExactIfNarrow(r, align);
    hide RoundUp, AlignDown, ReadRequest, WriteRequest, U32;
  }

  lemma OneBatch(r: Chunk, align: nat, a: Answer)
    requires Ready(r) && Answers(r, align, a)
    ensures History(r, align, [a]) && After(r, align, [a]) == Round(r, align, a)
  {
    hide Answers, Round, Ready;
    assert [a][1..] == [];
    assert After(Round(r, align, a), align, []) == Round(r, align, a);
  }

  /** A read that brings the whole chunk, and then its write. */
  lemma NarrowFinishes(c: Chunk, align: nat) returns (answers: seq<Answer>)
    requires align > 0 && Untouched(c) && RoundUp(c.size, align) < TWO_32
    ensures History(c, align, answers) && Judge(After(c, align, answers)).Finished?
  {
    WholeRound(c, align);
    hide RoundUp, Answers, Round;
    if RoundUp(c.size, align) == c.size {
      answers := [Answer(c.size, c.size)];
      OneBatch(c, align, answers[0]);
    } else {
      answers := [Answer(c.size, -ECANCELED), Answer(0, c.size)];
      var r := c.(readOffset := End(c));
      WriteAlone(r, align);
      OneBatch(r, align, answers[1]);
      assert answers[1..] == [answers[1]];
    }
  }

  /** The 32-bit byte count, exactly: some answers of the kernel let a fresh chunk finish if and only
      if its size, rounded up to the alignment, fits 32 bits. */
  lemma CanFinish(c: Chunk, align: nat)
    requires IsPow2(align) && Untouched(c)
    ensures (exists answers :: History(c, align, answers) && Judge(After(c, align, answers)).Finished?)
      <==> RoundUp(c.size, align) < TWO_32
  {
    assert align > 0;
    RoundUpMeaning(c.size, align);
    hide RoundUp;
    if RoundUp(c.size, align) < TWO_32 {
      var answers := NarrowFinishes(c, align);
    } else {
      forall answers | History(c, align, answers)
        ensures !Judge(After(c, align, answers)).Finished?
      {
        if c.size >= TWO_32 {
          WideNeverFinishes(c, align, answers);
        } else {
          TailNeverFinishes(c, align, answers);
        }
      }
    }
  }

  lemma TailNeverFinishes(c: Chunk, align: nat, answers: seq<Answer>)
    requires IsPow2(align) && Untouched(c) && c.size < TWO_32 <= RoundUp(c.size, align) && History(c, align, answers)
    ensures !Judge(After(c, align, answers)).Finished?
  {
    hide RoundUp, Round, Answers;
    if answers != [] {
      FirstRoundFails(c, align, answers[0]);
      assert answers[1..] == [];
    }
  }

  // ---------------------------------------------------------------- and where it gets stuck

  /** What is left to read and to write are multiples of 2^32, and something is left. */
  predicate StandsStill(r: Chunk) {
    U32(End(r) - r.readOffset) == 0 && U32(End(r) - r.writeOffset) == 0 && r.writeOffset < End(r)
  }

  /** Exactly then the next batch is an empty write alone, and its completion brings back the very
      same runner. */
  lemma EmptyBatch(r: Chunk, align: nat, a: Answer)
    requires Ready(r)
    ensures StandsStill(r) <==> ReadRequest(r, align, 0).None? && WriteRequest(r, 0).Some? && WriteRequest(r, 0).value.len == 0
    ensures StandsStill(r) && a.write == 0 ==> Round(r, align, a) == r
  {
    hide RoundUp, AlignDown;
  }

  /** A batch that moves forward: the read brings an alignment unit, a write alone brings a byte, and
      no error is reported. */
  predicate Forward(r: Chunk, align: nat, a: Answer) {
    if ReadRequest(r, align, 0).Some? then a.read >= align && (a.write >= 0 || a.write == -ECANCELED)
    else a.write > 0
  }

  /** What the 32-bit counts still see. */
  function Seen(r: Chunk): nat {
    U32(End(r) - r.readOffset) + U32(End(r) - r.writeOffset)
  }

  predicate Aligned(r: Chunk, align: nat) {
    && IsPow2(align) && 0 < align <= TWO_32
    && r.offset % align == 0 && r.size % align == 0 && r.readOffset % align == 0 && r.readOffset <= End(r)
  }

  lemma WordMinus(n: nat, k: nat)
    requires k <= U32(n)
    ensures U32(n - k) == U32(n) - k
  {
  }

  lemma WordAligned(n: nat, align: nat)
    requires IsPow2(align) && 0 < align <= TWO_32 && n % align == 0
    ensures U32(n) % align == 0
  {
    WordsArePow2();
    Pow2Divides(align, TWO_32);
    hide IsPow2;
    DivMod(n, TWO_32);
    ModProduct(TWO_32, n / TWO_32, align);
    assert n == TWO_32 * (n / TWO_32) + U32(n);
    ModDifference(TWO_32 * (n / TWO_32), n, align);
  }

  /** The read half of a forward batch of an aligned chunk. */
  lemma ForwardRead(r: Chunk, align: nat, res: int)
    requires Aligned(r, align) && r.offset <= r.readOffset && !r.savedError
    requires align <= res <= U32(End(r) - r.readOffset)
    ensures var r' := AbsorbRead(r, res, align, 1);
      && r' == r.(readOffset := r'.readOffset) && r.readOffset < r'.readOffset <= r.readOffset + res
      && r'.readOffset % align == 0 && r'.readOffset <= End(r)
      && U32(End(r) - r'.readOffset) < U32(End(r) - r.readOffset)
  {
    hide AlignDown, U32, IsPow2;
    var n := r.readOffset + res;
    var left := End(r) - r.readOffset;
    WordAtMost(left);
    WordMinus(left, res);
    assert End(r) - n == left - res;
    ForwardStep(r.readOffset, n, align);
    if U32(End(r) - n) == 0 {
      ModSum(r.offset, r.size, align);
      ModDifference(r.readOffset, End(r), align);
      WordAligned(left, align);
      ModSum(r.readOffset, res, align);
    }
    var n' := AbsorbRead(r, res, align, 1).readOffset;
    WordMinus(left, n' - r.readOffset);
    assert End(r) - n' == left - (n' - r.readOffset);
  }

  lemma WordAtMost(n: nat)
    ensures U32(n) <= n
  {
  }

  /** Stepping back from at least a unit ahead stays ahead. */
  lemma ForwardStep(low: nat, n: nat, align: nat)
    requires align > 0 && low % align == 0 && low + align <= n
    ensures low < AlignDown(n, align) <= n && AlignDown(n, align) % align == 0
  {
    hide AlignDown;
    AlignDownKeeps(low, n, align);
    AlignDownMeaning(n, align);
  }

  lemma ReadLength(r: Chunk, align: nat)
    requires Aligned(r, align) && r.offset <= r.readOffset
    ensures var m := U32(End(r) - r.readOffset);
      ReadRequest(r, align, 0) == if m == 0 then None else Some(Request(r.readOffset - r.offset, r.readOffset, m))
  {
    ModSum(r.offset, r.size, align);
    ModDifference(r.readOffset, End(r), align);
    WordAligned(End(r) - r.readOffset, align);
    hide IsPow2;
    var m := U32(End(r) - r.readOffset);
    RoundUpMeaning(m, align);
    SmallWord(m);
    hide RoundUp;
  }

  /** A batch that reads. */
  lemma ForwardPair(r: Chunk, align: nat, a: Answer)
    requires Ready(r) && Aligned(r, align) && End(r) - r.writeOffset >= TWO_32 && U32(End(r) - r.readOffset) > 0
    requires Answers(r, align, a) && Forward(r, align, a)
    ensures var r' := Round(r, align, a);
      Ready(r') && Aligned(r', align) && End(r') - r'.writeOffset >= TWO_32 && Seen(r') < Seen(r)
  {
    hide ReadRequest, IsPow2, U32, Round, AbsorbRead;
    WideRound(r, align, a);
    ReadLength(r, align);
    var unsaved := End(r) - r.writeOffset;
    assert a.write <= U32(unsaved);
    if a.write >= 0 {
      WordMinus(unsaved, a.write);
      assert End(r) - (r.writeOffset + a.write) == unsaved - a.write;
    }
    ForwardRead(r.(jobsRunning := 1), align, a.read);
    PairRound(r, align, a);
  }

  /** A batch that only writes. */
  lemma ForwardWrite(r: Chunk, align: nat, a: Answer)
    requires Ready(r) && Aligned(r, align) && End(r) - r.writeOffset >= TWO_32 && U32(End(r) - r.readOffset) == 0
    requires Answers(r, align, a) && Forward(r, align, a)
    ensures var r' := Round(r, align, a);
      Ready(r') && Aligned(r', align) && End(r') - r'.writeOffset >= TWO_32 && Seen(r') < Seen(r)
  {
    WideRound(r, align, a);
    ReadLength(r, align);
    hide ReadRequest, IsPow2;
    WordMinus(End(r) - r.writeOffset, a.write);
    hide AbsorbRead, U32;
  }

  /** A forward batch of a wide, aligned chunk lowers what the counts still see. */
  lemma ForwardRound(r: Chunk, align: nat, a: Answer)
    requires Ready(r) && Aligned(r, align) && End(r) - r.writeOffset >= TWO_32 && !StandsStill(r)
    requires Answers(r, align, a) && Forward(r, align, a)
    ensures var r' := Round(r, align, a);
      Ready(r') && Aligned(r', align) && End(r') - r'.writeOffset >= TWO_32 && Seen(r') < Seen(r)
  {
    hide Ready, Aligned, Answers, Forward, Round, Seen;
    if U32(End(r) - r.readOffset) > 0 {
      ForwardPair(r, align, a);
    } else {
      ForwardWrite(r, align, a);
    }
  }

  /** No state on the way stands still, and every batch moves forward. */
  predicate MovesOn(r: Chunk, align: nat, answers: seq<Answer>)
    decreases |answers|
  {
    answers != [] ==>
      !StandsStill(r) && Forward(r, align, answers[0]) && MovesOn(Round(r, align, answers[0]), align, answers[1..])
  }

  /** Every forward run of a wide, aligned chunk comes to stand still: it has no more batches before
      that than the counts see bytes. */
  lemma {:induction false} WideChunkStalls(r: Chunk, align: nat, answers: seq<Answer>)
    requires Ready(r) && Aligned(r, align) && End(r) - r.writeOffset >= TWO_32
    requires History(r, align, answers) && MovesOn(r, align, answers)
    ensures |answers| <= Seen(r)
    decreases |answers|
  {
    if answers != [] {
      ForwardRound(r, align, answers[0]);
      hide Ready, Aligned, StandsStill, Answers, Forward, Round, Seen;
      WideChunkStalls(Round(r, align, answers[0]), align, answers[1..]);
    }
  }
}
