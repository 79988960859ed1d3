/**
 What loop_buffer.sv does not check: the fetch address while it captures, the
 stall when it is armed, and a fetch that leaves the loop. Each with what the
 replay then returns, for any program. Misfetches has a run for each.
 */
module LoopBufferLimits {
  import opened Words
  import opened Datapath
  import opened Execution
  import opened LoopBuffer
  import opened Refinement
  import C = Core
  import P = Preservation
  import BP = Predictor

  // ---- capture does not look at the fetch address ----

  /** One captured word: fetched at pc, no flush, no stall. */
  function CaptureOne(lb: LoopState, imem: InstrMem, pc: Word): LoopState {
    Next(lb, Inputs(pc, Fetch(imem, pc), false, 0, false, false))
  }

  function Capture(lb: LoopState, imem: InstrMem, pcs: seq<Word>): LoopState {
    if pcs == [] then lb else CaptureOne(Capture(lb, imem, pcs[..|pcs| - 1]), imem, pcs[|pcs| - 1])
  }

  /** A capture from its start to the loop's branch. */
  predicate CompleteCapture(lb: LoopState, pcs: seq<Word>) {
    && lb.phase == Recording && lb.writePtr == 0 && 1 <= |pcs| <= DEPTH
    && 4 <= lb.end && pcs[|pcs| - 1] == lb.end - 4 && forall k :: 0 <= k < |pcs| - 1 ==> pcs[k] != lb.end - 4
  }

  lemma {:induction false} CaptureSlots(lb: LoopState, imem: InstrMem, pcs: seq<Word>, n: nat)
    requires CompleteCapture(lb, pcs) && n <= |pcs|
    ensures var c := Capture(lb, imem, pcs[..n]);
            && c.start == lb.start && c.end == lb.end && c.writePtr == n
            && c.phase == (if n == |pcs| then Looping else Recording)
            && forall k :: 0 <= k < n ==> c.slots[k] == Fetch(imem, pcs[k])
  {
    hide Fetch;
    if n > 0 {
      CaptureSlots(lb, imem, pcs, n - 1);
      assert pcs[..n][..n - 1] == pcs[..n - 1];
      EndMinusFour(lb.end);
    }
  }

  lemma EndMinusFour(end: Word)
    requires 4 <= end
    ensures Sub(end, 4) == end - 4
  {
  }

  predicate SameWordOfMemory(a: Word, b: Word) {
    a / 4 % 1024 == b / 4 % 1024
  }

  /** A read at pc during the replay, with the bus frozen at the loop's branch. */
  function Replayed(lb: LoopState, imem: InstrMem, pcs: seq<Word>, pc: Word): Word
    requires 4 <= lb.end
  {
    InstructionOut(Capture(lb, imem, pcs), pc, Fetch(imem, lb.end - 4))
  }

  /** The address whose word that read returns: pcs[k] for word k of the loop. */
  function SourceOf(lb: LoopState, pcs: seq<Word>, pc: Word): Word
    requires 4 <= lb.end
  {
    if lb.start <= pc < lb.end && ReadIndex(lb, pc) < |pcs| then pcs[ReadIndex(lb, pc)] else lb.end - 4
  }

  lemma ReplaysSource(lb: LoopState, imem: InstrMem, pcs: seq<Word>, pc: Word)
    requires CompleteCapture(lb, pcs)
    ensures Replayed(lb, imem, pcs, pc) == Fetch(imem, SourceOf(lb, pcs, pc))
  {
    hide Fetch;
    CaptureSlots(lb, imem, pcs, |pcs|);
    assert pcs[..|pcs|] == pcs;
  }

  /** Two addresses hold the same word in every memory if and only if they are the
      same word of memory. */
  lemma SameInEveryMemory(a: Word, b: Word)
    ensures (forall imem: InstrMem :: Fetch(imem, a) == Fetch(imem, b)) <==> SameWordOfMemory(a, b)
  {
    var numbered: InstrMem := seq(1024, i => i);
    if !SameWordOfMemory(a, b) {
      assert Fetch(numbered, a) != Fetch(numbered, b);
    }
  }

  /** The replay of what was fetched during the capture is right for every memory
      if and only if each of those words was put where it is looked up. */
  lemma ReplayRightIff(lb: LoopState, pcs: seq<Word>)
    requires CompleteCapture(lb, pcs)
    ensures (forall imem: InstrMem, a <- pcs :: Replayed(lb, imem, pcs, a) == Fetch(imem, a))
            <==> forall a <- pcs :: SameWordOfMemory(SourceOf(lb, pcs, a), a)
  {
    hide Fetch, Capture, InstructionOut, ReadIndex, SameWordOfMemory;
    forall imem: InstrMem, a <- pcs
      ensures Replayed(lb, imem, pcs, a) == Fetch(imem, SourceOf(lb, pcs, a))
    {
      ReplaysSource(lb, imem, pcs, a);
    }
    forall a <- pcs
      ensures (forall imem: InstrMem :: Fetch(imem, SourceOf(lb, pcs, a)) == Fetch(imem, a))
              <==> SameWordOfMemory(SourceOf(lb, pcs, a), a)
    {
      SameInEveryMemory(SourceOf(lb, pcs, a), a);
    }
  }

  /** Word k of the loop, if it was fetched, is right for every memory if and only
      if it was the k-th word fetched. */
  lemma WordRightIff(lb: LoopState, pcs: seq<Word>, k: nat, a: Word)
    requires CompleteCapture(lb, pcs) && k < |pcs| && a == lb.start + 4 * k && a < lb.end && a in pcs
    ensures (forall imem: InstrMem :: Replayed(lb, imem, pcs, a) == Fetch(imem, a)) <==> SameWordOfMemory(pcs[k], a)
  {
    hide Fetch, Capture, InstructionOut, ReadIndex, SameWordOfMemory;
    ReadIndexExact(lb, a, k);
    SameInEveryMemory(pcs[k], a);
    forall imem: InstrMem
      ensures Replayed(lb, imem, pcs, a) == Fetch(imem, pcs[k])
    {
      ReplaysSource(lb, imem, pcs, a);
    }
  }

  /** A capture of a loop that fits, whose branches and jumps all go forward. */
  predicate ForwardCapture(lb: LoopState, pcs: seq<Word>) {
    && CompleteCapture(lb, pcs) && lb.end <= lb.start + 64 && pcs[0] == lb.start
    && (forall k :: 0 <= k < |pcs| ==> pcs[k] % 4 == 0)
    && (forall j, k :: 0 <= j < k < |pcs| ==> pcs[j] < pcs[k])
  }

  /** Such a loop is replayed right for every memory if and only if nothing was
      skipped, except perhaps just before the loop's branch. */
  lemma ForwardReplayRightIff(lb: LoopState, pcs: seq<Word>)
    requires ForwardCapture(lb, pcs)
    ensures (forall imem: InstrMem, a <- pcs :: Replayed(lb, imem, pcs, a) == Fetch(imem, a))
            <==> forall k :: 0 <= k < |pcs| - 1 ==> pcs[k] == lb.start + 4 * k
  {
    hide Fetch, Capture, InstructionOut, ReadIndex, SameWordOfMemory, SourceOf, Replayed;
    ReplayRightIff(lb, pcs);
    if forall k :: 0 <= k < |pcs| - 1 ==> pcs[k] == lb.start + 4 * k {
      forall a <- pcs
        ensures SameWordOfMemory(SourceOf(lb, pcs, a), a)
      {
        var i :| 0 <= i < |pcs| && pcs[i] == a;
        StraightSource(lb, pcs, i);
      }
    } else {
      var i: nat :| i < |pcs| - 1 && pcs[i] != lb.start + 4 * i;
      var j := FirstGap(lb, pcs, i);
      GapSource(lb, pcs, j);
    }
  }

  lemma StraightSource(lb: LoopState, pcs: seq<Word>, i: nat)
    requires ForwardCapture(lb, pcs) && i < |pcs|
    requires forall k :: 0 <= k < |pcs| - 1 ==> pcs[k] == lb.start + 4 * k
    ensures SameWordOfMemory(SourceOf(lb, pcs, pcs[i]), pcs[i])
  {
    hide ReadIndex;
    if i < |pcs| - 1 {
      ReadIndexExact(lb, pcs[i], i);
    } else {
      ReadIndexExact(lb, pcs[i], (pcs[i] - lb.start) / 4);
    }
  }

  lemma FirstGap(lb: LoopState, pcs: seq<Word>, i: nat) returns (j: nat)
    requires ForwardCapture(lb, pcs) && i < |pcs| && pcs[i] != lb.start + 4 * i
    ensures j <= i && pcs[j] != lb.start + 4 * j && forall k :: 0 <= k < j ==> pcs[k] == lb.start + 4 * k
  {
    j := 0;
    while pcs[j] == lb.start + 4 * j
      invariant j <= i && forall k :: 0 <= k < j ==> pcs[k] == lb.start + 4 * k
      decreases i - j
    {
      j := j + 1;
    }
  }

  lemma GapSource(lb: LoopState, pcs: seq<Word>, j: nat)
    requires ForwardCapture(lb, pcs) && j < |pcs| - 1 && pcs[j] != lb.start + 4 * j
    requires forall k :: 0 <= k < j ==> pcs[k] == lb.start + 4 * k
    ensures !SameWordOfMemory(SourceOf(lb, pcs, pcs[j]), pcs[j])
  {
    hide ReadIndex;
    var d := (pcs[j] - lb.start) / 4;
    ReadIndexExact(lb, pcs[j], d);
    assert d > j;
  }

  // ---- a stall at the moment of arming ----

  /** If a load-use stall holds the loop's branch in IF when it arms the buffer,
      the branch itself is captured as word 0 and the replay starts at once. */
  lemma StalledBranchLoopsAtOnce(lb: LoopState, i: Inputs, i': Inputs, x: Word)
    requires lb.phase == Idle && !i.flush && BackwardPrediction(i) && i.stall && i.ifPc + 4 < TWO_TO_32
    requires i'.ifPc == i.ifPc && !i'.flush && !i'.stall
    ensures var looping := Next(Next(lb, i), i');
            && looping.phase == Looping && looping.writePtr == 1
            && InstructionOut(looping, i.predictTarget, x) == i'.instructionIn
  {
    ArmedAtBranch(i.ifPc);
    hide Add, Sub, ReadIndex;
    ReadIndexExact(Next(Next(lb, i), i'), i.predictTarget, 0);
  }

  lemma ArmedAtBranch(pc: Word)
    requires pc + 4 < TWO_TO_32
    ensures Sub(Add(pc, 4), 4) == pc && Add(pc, 4) == pc + 4
  {
  }

  lemma LoadIsNoTransfer(w: Word)
    ensures Decode(w).memRead ==> !Decode(w).branch && !Decode(w).jump
  {
    hide Opcode, Funct3, Funct7, AluControlReg, AluControlImm;
  }

  lemma LoadInEx(c: C.Core)
    ensures var x := C.NextIdEx(c).ctrl; x.memRead ==> !x.branch && !x.jump
  {
    hide Decode, ImmGen, Rs1, Rs2, Rd, Funct3, C.ReadPort, C.Flush, C.Stall;
    LoadIsNoTransfer(c.ifid.instr);
  }

  /** The instruction that another one waits for is a load. */
  lemma StallMeansLoad(p: Execution, slots: Slots, n: nat)
    requires C.Stall(Reached(p, slots, n))
    ensures !C.Resolving(Reached(p, slots, n))
  {
    hide Rs1, Rs2, C.NextIdEx, C.NextPc, C.NextIfId, C.NextExMem, C.NextMemWb, C.NextRegs, C.NextRam, C.NextBp, Next;
    if n > 0 {
      LoadInEx(Reached(p, slots, n - 1));
    }
  }

  /** In any program: two cycles after such a stall fetch is at the loop's top and
      the word entering ID is the branch. */
  lemma StalledBranchIsFetchedAgain(p: Execution, slots: Slots, n: nat)
    requires var c := Reached(p, slots, n);
             && c.lb.phase == Idle && c.pc + 4 < TWO_TO_32 && C.Stall(c)
             && BP.PredictTaken(c.bp, c.pc) && BP.PredictTarget(c.bp, c.pc) < c.pc
    ensures var c, e := Reached(p, slots, n), Reached(p, slots, n + 2);
            && e.pc == BP.PredictTarget(c.bp, c.pc) && Gated(e.lb)
            && C.InstructionOut(p.imem, e) == Fetch(p.imem, c.pc)
  {
    hide BP.PredictTaken, BP.PredictTarget, C.Stall, C.Resolving, Fetch, Next, C.NextIfId, C.NextExMem, C.NextMemWb,
         C.NextRegs, C.NextRam, InstructionOut, C.Reset, C.ExOut;
    var c, d, e := Reached(p, slots, n), Reached(p, slots, n + 1), Reached(p, slots, n + 2);
    StallMeansLoad(p, slots, n);
    P.BubbleIsQuiet(d);
    StalledBranchLoopsAtOnce(c.lb, C.LoopInputs(p.imem, c), C.LoopInputs(p.imem, d), C.InstructionIn(p.imem, e));
    ArmedPhase(c.lb, C.LoopInputs(p.imem, c));
  }

  lemma ArmedPhase(lb: LoopState, i: Inputs)
    requires lb.phase == Idle
    ensures !Gated(Next(lb, i))
  {
  }

  // ---- a fetch that leaves the loop, or misses its captured words ----

  /** In a gated cycle of any program a read that misses takes the word of the
      loop's branch for its own: right for every memory if and only if fetch is at
      that word of memory. */
  lemma MissFetchesBranch(p: Execution, slots: Slots, n: nat)
    requires Gated(Reached(p, slots, n).lb) && !ReadHits(Reached(p, slots, n).lb, Reached(p, slots, n).pc)
    ensures var c := Reached(p, slots, n);
            var branch := Sub(c.lb.end, 4);
            && C.InstructionOut(p.imem, c) == Fetch(p.imem, branch)
            && ((forall imem: InstrMem :: C.InstructionOut(imem, c) == Fetch(imem, c.pc))
                <==> SameWordOfMemory(c.pc, branch))
  {
    var c := Reached(p, slots, n);
    hide Fetch, ReadHits, Sub, SameWordOfMemory, C.Reset, C.Next;
    FrozenAtLoopBranch(p, slots, n);
    SameInEveryMemory(Sub(c.lb.end, 4), c.pc);
    SameWordSymmetric(c.pc, Sub(c.lb.end, 4));
  }

  lemma SameWordSymmetric(a: Word, b: Word)
    ensures SameWordOfMemory(a, b) == SameWordOfMemory(b, a)
  {
  }

  /** Out of the loop's range every read misses: a fetch that leaves the loop
      without a flush is given the loop's branch. */
  lemma LeavingFetchesBranch(p: Execution, slots: Slots, n: nat)
    requires var c := Reached(p, slots, n); Gated(c.lb) && !(c.lb.start <= c.pc < c.lb.end)
    ensures var c := Reached(p, slots, n);
            var branch := Sub(c.lb.end, 4);
            && C.InstructionOut(p.imem, c) == Fetch(p.imem, branch)
            && ((forall imem: InstrMem :: C.InstructionOut(imem, c) == Fetch(imem, c.pc))
                <==> SameWordOfMemory(c.pc, branch))
  {
    hide Sub, SameWordOfMemory, C.Reset, C.Next, C.InstructionOut;
    MissFetchesBranch(p, slots, n);
  }
}
