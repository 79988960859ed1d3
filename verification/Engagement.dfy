/**
 The loop buffer does its work: a loop that fits is captured and replayed, with
 the address bus frozen, for as long as the program goes round it.
 */
module Engagement {
  import opened Words
  import opened Datapath
  import opened Sequential
  import opened Execution
  import opened Core
  import opened Invariant
  import opened Preservation
  import opened LoopPreservation
  import opened Refinement
  import BP = Predictor
  import LB = LoopBuffer

  /** In cycle n the loop's own branch is in EX and goes somewhere else. */
  ghost predicate LeavesLoop(p: Execution, slots: LB.Slots, n: nat, top: Word, branch: int) {
    var c, k := Reached(p, slots, n), ExIndex(p, slots, n);
    c.idex.valid && Flush(c) && p.At(k).pc == branch && p.At(k + 1).pc != top
  }

  /** At most 16 words. */
  predicate Fits(lb: LB.LoopState) {
    lb.end <= lb.start + 64
  }

  function WordsLeft(lb: LB.LoopState): int {
    (lb.end - lb.start) / 4 - lb.writePtr
  }

  /** What the invariant says of an armed buffer whose loop fits. */
  lemma ArmedFacts(p: Execution, slots: LB.Slots, n: nat)
    requires WellBehaved(p) && Armed(Reached(p, slots, n).lb) && Fits(Reached(p, slots, n).lb)
    ensures var c := Reached(p, slots, n);
            && StraightArmed(p, c) && c.lb.start % 4 == 0 && LoopBranch(c.lb) % 4 == 0 && c.lb.start <= LoopBranch(c.lb)
            && (c.idex.valid ==> LoopInstr(c.lb, c.idex.pc, c.idex.predTaken, c.idex.predTarget))
  {
    var c := Reached(p, slots, n);
    hide Inv, LoopInvariant, WellBehaved, StraightLoop, OverflowingLoop, Reset, Retired, Armed, LoopInstr;
    ReachedInv(p, slots, n);
    PartsOf(p, c, Retired(p, slots, n));
    LoopAligned(p, c);
    FittingLoopsAreStraight(p, slots, n);
    StraightParts(p, c);
  }

  lemma StraightParts(p: Execution, c: Core)
    requires StraightArmed(p, c)
    ensures c.lb.start <= LoopBranch(c.lb)
    ensures c.idex.valid ==> LoopInstr(c.lb, c.idex.pc, c.idex.predTaken, c.idex.predTarget)
  {
    hide Resolved, BP.PredictTaken, BP.PredictTarget, LoopInstr, CapturedUpTo, StraightLoop;
  }

  /** While the buffer is armed for such a loop, a flush means that the program
      leaves the loop at its own branch. */
  lemma FlushLeavesLoop(p: Execution, slots: LB.Slots, n: nat)
    requires WellBehaved(p) && Armed(Reached(p, slots, n).lb) && Fits(Reached(p, slots, n).lb)
    requires Flush(Reached(p, slots, n))
    ensures LeavesLoop(p, slots, n, Reached(p, slots, n).lb.start, LoopBranch(Reached(p, slots, n).lb))
  {
    var c, r := Reached(p, slots, n), Retired(p, slots, n);
    hide WellBehaved, StraightLoop, Reset, Retired, BackEnd, TableSound, LoopInvariant, Armed, Run, IsControlFlow,
         ExOut, ExMatches, IdMatches, CapturedUpTo, Add, Next;
    ReachedInv(p, slots, n);
    ArmedFacts(p, slots, n);
    FlushInLoop(p, c, r);
    SuccessorOfEx(p, c, r);
  }

  /** A flush inside a straight loop comes from its branch, which was predicted
      taken to the top. */
  lemma FlushInLoop(p: Execution, c: Core, r: nat)
    requires WellBehaved(p) && Inv(p, c, r) && Flush(c)
    requires StraightArmed(p, c) && c.lb.start <= LoopBranch(c.lb)
    requires c.idex.valid ==> LoopInstr(c.lb, c.idex.pc, c.idex.predTaken, c.idex.predTarget)
    ensures c.idex.valid && c.idex.pc == LoopBranch(c.lb) && FlushTarget(c) != c.lb.start
  {
    hide BackEnd, TableSound, LoopInvariant, Fetch, IsControlFlow, Run, ExOut, StraightLoop, WellBehaved, Decode,
         ReadReg, ImmGen, Rs1, Rs2, Rd, Funct3, Resolved, Add;
    SuccessorOfEx(p, c, r);
    IdAligned(p, c, r);
    if c.idex.pc != LoopBranch(c.lb) {
      BodyWord(p, c, c.idex.pc);
    }
    LoopAligned(p, c);
    CleanBounds(p, c.lb.start, LoopBranch(c.lb));
    PlusFour(LoopBranch(c.lb));
  }

  // ---- capture ----

  /** One clock of the buffer while it captures at the word it is to store next. */
  lemma CaptureClock(lb: LB.LoopState, i: LB.Inputs)
    requires lb.phase == LB.Recording && Fits(lb) && !i.flush && lb.start % 4 == 0 && lb.end % 4 == 0
    requires i.ifPc == lb.start + 4 * lb.writePtr && i.ifPc < lb.end
    ensures var lb' := LB.Next(lb, i);
            && WordsLeft(lb) > 0
            && if i.stall then
                 lb' == lb
               else
                 && lb'.start == lb.start && lb'.end == lb.end && WordsLeft(lb') == WordsLeft(lb) - 1
                 && lb'.phase == (if WordsLeft(lb) == 1 then LB.Looping else LB.Recording)
  {
    hide Sub;
    LoopEnd(lb);
  }

  /** A stall lasts one cycle. */
  lemma BufferNext(imem: InstrMem, c: Core)
    ensures Next(imem, c).lb == LB.Next(c.lb, LoopInputs(imem, c))
    ensures Stall(c) ==> !Stall(Next(imem, c))
  {
    hide Stall, NextPc, NextIfId, NextExMem, NextMemWb, NextRegs, NextRam, NextBp, Flush, LB.Next, LoopInputs;
    if Stall(c) {
      BubbleIsQuiet(Next(imem, c));
    }
  }

  /** One cycle of a capture. */
  lemma CaptureEdge(p: Execution, slots: LB.Slots, n: nat)
    requires WellBehaved(p) && !Flush(Reached(p, slots, n))
    requires Reached(p, slots, n).lb.phase == LB.Recording && Fits(Reached(p, slots, n).lb)
    ensures var c, c' := Reached(p, slots, n), Reached(p, slots, n + 1);
            && WordsLeft(c.lb) > 0
            && c'.lb.start == c.lb.start && c'.lb.end == c.lb.end
            && if Stall(c) then
                 c'.lb == c.lb && !Stall(c')
               else
                 && WordsLeft(c'.lb) == WordsLeft(c.lb) - 1
                 && c'.lb.phase == (if WordsLeft(c.lb) == 1 then LB.Looping else LB.Recording)
  {
    var c := Reached(p, slots, n);
    hide WellBehaved, StraightLoop, Reset, Next, Flush, Stall, StraightArmed, InstructionIn, LB.Next, WordsLeft,
         LoopInstr, BP.PredictTaken, BP.PredictTarget;
    ArmedFacts(p, slots, n);
    StraightPosition(p, c);
    CaptureClock(c.lb, LoopInputs(p.imem, c));
    BufferNext(p.imem, c);
  }

  /** A capture of a loop that fits ends in replay after at most two cycles a word,
      unless the program leaves the loop before that. */
  lemma {:induction false} CaptureEngages(p: Execution, slots: LB.Slots, n: nat) returns (m: nat)
    requires WellBehaved(p)
    requires Reached(p, slots, n).lb.phase == LB.Recording && Fits(Reached(p, slots, n).lb)
    ensures var lb, lb' := Reached(p, slots, n).lb, Reached(p, slots, m).lb;
            && n <= m <= n + 2 * WordsLeft(lb) - (if Stall(Reached(p, slots, n)) then 0 else 1)
            && lb'.start == lb.start && lb'.end == lb.end
            && (LB.Gated(lb') || LeavesLoop(p, slots, m, lb.start, LoopBranch(lb)))
    decreases 2 * WordsLeft(Reached(p, slots, n).lb) + if Stall(Reached(p, slots, n)) then 1 else 0
  {
    hide WellBehaved, Reset, Next, Flush, Stall, LeavesLoop;
    var c := Reached(p, slots, n);
    if Flush(c) {
      FlushLeavesLoop(p, slots, n);
      CaptureHasRoom(p, slots, n);
      m := n;
    } else {
      CaptureEdge(p, slots, n);
      m := n + 1;
      if !LB.Gated(Reached(p, slots, n + 1).lb) {
        m := CaptureEngages(p, slots, n + 1);
      }
    }
  }

  lemma CaptureHasRoom(p: Execution, slots: LB.Slots, n: nat)
    requires WellBehaved(p)
    requires Reached(p, slots, n).lb.phase == LB.Recording && Fits(Reached(p, slots, n).lb)
    ensures WordsLeft(Reached(p, slots, n).lb) > 0
  {
    var c := Reached(p, slots, n);
    hide WellBehaved, Reached, StraightArmed, LoopInstr;
    ArmedFacts(p, slots, n);
    StraightPosition(p, c);
  }

  /** From the cycle in which an idle buffer sees a backward prediction whose loop
      fits, replay is at most 33 cycles away, unless the program leaves the loop. */
  lemma BackwardPredictionEngages(p: Execution, slots: LB.Slots, n: nat) returns (m: nat)
    requires WellBehaved(p)
    requires var c := Reached(p, slots, n);
             && c.lb.phase == LB.Idle && BP.PredictTaken(c.bp, c.pc)
             && c.pc < BP.PredictTarget(c.bp, c.pc) + 64 && BP.PredictTarget(c.bp, c.pc) < c.pc
    ensures n < m <= n + 33
    ensures var c, lb := Reached(p, slots, n), Reached(p, slots, m).lb;
            && lb.start == BP.PredictTarget(c.bp, c.pc) && LoopBranch(lb) == c.pc
            && (LB.Gated(lb) || LeavesLoop(p, slots, m, lb.start, LoopBranch(lb)))
  {
    var c := Reached(p, slots, n);
    hide WellBehaved, Reset, Inv, NextPc, NextIfId, NextIdEx, NextExMem, NextMemWb, NextRegs, NextRam, NextBp, Flush,
         Stall, LeavesLoop, Add, BP.PredictTaken, BP.PredictTarget, StraightLoop, OverflowingLoop, FrontEnd, OnPath,
         Chained, TableSound, InstructionIn, Retired, Resolved, Resolving, Run;
    ReachedInv(p, slots, n);
    ArmsAt(p, c, Retired(p, slots, n));
    m := CaptureEngages(p, slots, n + 1);
  }

  lemma FittingStraight(p: Execution, top: Word, branch: Word)
    requires WellBehaved(p) && Resolved(p, branch, top) && top < branch < top + 64
    ensures StraightLoop(p, top, branch) && top % 4 == 0 && branch % 4 == 0
  {
    hide WellBehaved, Resolved, StraightLoop, OverflowingLoop, Fetch, IsControlFlow;
    ResolvedFacts(p, branch, top);
    if !StraightLoop(p, top, branch) {
      LongBounds(p, top, branch);
    }
  }

  lemma ArmsAt(p: Execution, c: Core, r: nat)
    requires WellBehaved(p) && Inv(p, c, r) && c.lb.phase == LB.Idle
    requires BP.PredictTaken(c.bp, c.pc) && BP.PredictTarget(c.bp, c.pc) < c.pc < BP.PredictTarget(c.bp, c.pc) + 64
    ensures var lb := Next(p.imem, c).lb;
            && lb.phase == LB.Recording && lb.writePtr == 0 && Fits(lb)
            && lb.start == BP.PredictTarget(c.bp, c.pc) && lb.end == c.pc + 4
  {
    hide WellBehaved, NextPc, NextIfId, NextIdEx, NextExMem, NextMemWb, NextRegs, NextRam, NextBp, Flush, Stall,
         Add, BP.PredictTaken, BP.PredictTarget, StraightLoop, OverflowingLoop, FrontEnd, OnPath, Chained,
         TableSound, InstructionIn, Resolved, Resolving, Run, LoopInvariant, BackEnd;
    EntryFacts(p, c, r, BP.PredictTarget(c.bp, c.pc));
    FittingStraight(p, BP.PredictTarget(c.bp, c.pc), c.pc);
    PlusFour(c.pc);
  }

  // ---- replay ----

  /** Once it has begun the replay goes on, with the bus frozen, as long as the
      program goes round the loop. */
  lemma {:induction false} ReplayLasts(p: Execution, slots: LB.Slots, n: nat, m: nat)
    requires WellBehaved(p) && n <= m && LB.Gated(Reached(p, slots, n).lb)
    requires var lb := Reached(p, slots, n).lb;
             forall k: nat :: n <= k < m ==> !LeavesLoop(p, slots, k, lb.start, LoopBranch(lb))
    ensures Reached(p, slots, m).lb == Reached(p, slots, n).lb && Reached(p, slots, m).frozen == Reached(p, slots, n).frozen
  {
    hide WellBehaved, Reset, Next, Flush, LeavesLoop;
    if n < m {
      ReplayLasts(p, slots, n, m - 1);
      ReplayEdge(p, slots, m - 1);
    }
  }

  lemma ReplayEdge(p: Execution, slots: LB.Slots, n: nat)
    requires WellBehaved(p) && LB.Gated(Reached(p, slots, n).lb)
    ensures var c, c' := Reached(p, slots, n), Reached(p, slots, n + 1);
            (c'.lb == c.lb && c'.frozen == c.frozen) || LeavesLoop(p, slots, n, c.lb.start, LoopBranch(c.lb))
  {
    var c := Reached(p, slots, n);
    hide WellBehaved, Reset, NextPc, NextIfId, NextIdEx, NextExMem, NextMemWb, NextRegs, NextRam, NextBp, Flush, Stall,
         LeavesLoop, LB.ReadHits, InstructionIn;
    GatingIsSafe(p, slots, n);
    if Flush(c) {
      FlushLeavesLoop(p, slots, n);
    }
  }
}
