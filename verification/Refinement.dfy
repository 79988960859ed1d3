/**
 The main results about the core: every reachable state refines the sequential
 run, and the four mechanisms that make it fast do not show.
 */
module Refinement {
  import opened Words
  import opened Datapath
  import opened Sequential
  import opened Execution
  import opened Core
  import opened Invariant
  import opened Preservation
  import opened LoopPreservation
  import BP = Predictor
  import LB = LoopBuffer

  lemma NextPreservesInv(p: Execution, c: Core, r: nat)
    requires WellBehaved(p) && Inv(p, c, r)
    ensures Inv(p, Next(p.imem, c), NextRetired(c, r))
  {
    hide Next, WellBehaved, FrontEnd, OnPath, Chained, TableSound, LoopInvariant, BackEnd, NextRetired, NextBp;
    BackEndStep(p, c, r);
    FrontEndStep(p, c, r);
    ChainedStep(p, c);
    OnPathStep(p, c, r);
    TableStep(p, c, r);
    NextTable(p, c);
    LoopStep(p, c, r);
  }

  lemma NextTable(p: Execution, c: Core)
    ensures Next(p.imem, c).bp == NextBp(c)
  {
    hide NextBp, NextPc, NextIfId, NextIdEx, NextExMem, NextMemWb, NextRegs, NextRam, LB.Next;
  }

  lemma ResetInv(p: Execution, slots: LB.Slots)
    ensures Inv(p, Reset(p.ram, slots), 0)
  {
    hide Resolved, Decode, ImmGen, Fetch;
  }

  // ---- reachable states ----

  /** The core n clock edges after reset, with program p loaded. */
  ghost function Reached(p: Execution, slots: LB.Slots, n: nat): Core {
    Cycle(p.imem, Reset(p.ram, slots), n)
  }

  /** Instructions that have left WB in the first n cycles. */
  ghost function Retired(p: Execution, slots: LB.Slots, n: nat): nat {
    if n == 0 then 0 else NextRetired(Reached(p, slots, n - 1), Retired(p, slots, n - 1))
  }

  lemma {:induction false} ReachedInv(p: Execution, slots: LB.Slots, n: nat)
    requires WellBehaved(p)
    ensures Inv(p, Reached(p, slots, n), Retired(p, slots, n))
  {
    hide Next, Inv, WellBehaved, NextRetired, Reset;
    if n == 0 {
      ResetInv(p, slots);
    } else {
      ReachedInv(p, slots, n - 1);
      NextPreservesInv(p, Reached(p, slots, n - 1), Retired(p, slots, n - 1));
    }
  }

  // ---- what the invariant says of every reachable cycle ----

  /** Fetch transparency: replayed, stalled or live, the word entering ID is the
      one at the fetch address. */
  lemma FetchIsTransparent(p: Execution, slots: LB.Slots, n: nat)
    requires WellBehaved(p)
    ensures var c := Reached(p, slots, n);
            InstructionOut(p.imem, c) == Fetch(p.imem, c.pc)
  {
    ReachedInv(p, slots, n);
    FetchTransparent(p, Reached(p, slots, n));
  }

  /** Gating safety: while the fetch address is frozen, fetch stays inside the
      captured loop and hits the buffer, the address does not move, and only a
      flush ends the replay. */
  lemma GatingIsSafe(p: Execution, slots: LB.Slots, n: nat)
    requires WellBehaved(p) && LB.Gated(Reached(p, slots, n).lb)
    ensures var c, c' := Reached(p, slots, n), Reached(p, slots, n + 1);
            && LB.ReadHits(c.lb, c.pc) && InLoop(c.lb, c.pc)
            && c'.frozen == c.frozen
            && (LB.Gated(c'.lb) <==> !Flush(c))
            && c.lb.end == c.lb.start + 4 * c.lb.writePtr && c.lb.writePtr <= 16
  {
    hide Fetch, Run, Resolved, Flush, Stall, BP.PredictTaken, BP.PredictTarget, InstructionIn, LoopInstr, CapturedUpTo,
         WellBehaved, BackEnd, FrontEnd, OnPath, TableSound, Chained, NextPc, NextIfId, NextIdEx, NextExMem, NextMemWb,
         NextRegs, NextRam, NextBp, LB.ReadIndex, LB.ReadHits, InstructionOut, LoopInvariant, Reset;
    var c := Reached(p, slots, n);
    ReachedInv(p, slots, n);
    PartsOf(p, c, Retired(p, slots, n));
    FetchTransparent(p, c);
    LoopingBounds(p, c);
  }

  lemma PartsOf(p: Execution, c: Core, r: nat)
    requires Inv(p, c, r)
    ensures LoopInvariant(p, c) && FrontEnd(p, c) && c.pc % 4 == 0
  {
    hide BackEnd, LoopInvariant, OnPath, Chained, TableSound, ExMatches, IdMatches, Quiet;
  }

  lemma LoopingBounds(p: Execution, c: Core)
    requires LoopInvariant(p, c) && LB.Gated(c.lb)
    ensures InLoop(c.lb, c.pc) && c.lb.start <= c.pc < c.lb.end
    ensures c.lb.end == c.lb.start + 4 * c.lb.writePtr && c.lb.writePtr <= 16
  {
    hide Fetch, Run, Resolved, BP.PredictTaken, BP.PredictTarget, LoopInstr, CapturedUpTo;
    CapturedBounds(p.imem, c.lb);
  }

  /** The address bus is frozen at the loop's branch, for any program at all. */
  lemma {:induction false} FrozenAtLoopBranch(p: Execution, slots: LB.Slots, n: nat)
    ensures var c := Reached(p, slots, n);
            LB.Gated(c.lb) ==> c.frozen == Sub(c.lb.end, 4)
  {
    hide Sub, Reset, NextPc, NextIfId, NextIdEx, NextExMem, NextMemWb, NextRegs, NextRam, NextBp, Flush, Stall,
         InstructionIn, BP.PredictTaken, BP.PredictTarget;
    if n == 0 {
      NotGatedAtReset(p, slots);
    } else {
      FrozenAtLoopBranch(p, slots, n - 1);
    }
  }

  lemma NotGatedAtReset(p: Execution, slots: LB.Slots)
    ensures !LB.Gated(Reset(p.ram, slots).lb)
  {
  }

  /** An armed loop that fits the buffer is straight-line code. */
  lemma FittingLoopsAreStraight(p: Execution, slots: LB.Slots, n: nat)
    requires WellBehaved(p) && Armed(Reached(p, slots, n).lb)
    ensures var lb := Reached(p, slots, n).lb;
            0 <= LoopBranch(lb) && (LoopBranch(lb) < lb.start + 64 ==> StraightLoop(p, lb.start, LoopBranch(lb)))
  {
    var c := Reached(p, slots, n);
    hide Inv, LoopInvariant, WellBehaved, StraightLoop, OverflowingLoop, Reset, Retired, Armed;
    ReachedInv(p, slots, n);
    PartsOf(p, c, Retired(p, slots, n));
    LoopAligned(p, c);
    if !StraightLoop(p, c.lb.start, LoopBranch(c.lb)) {
      LongBounds(p, c.lb.start, LoopBranch(c.lb));
    }
  }

  /** From the start of a straight loop's capture to the next flush only the
      loop's own branch trains the predictor, and it goes on being predicted taken
      to the top. */
  lemma OnlyLoopBranchTrains(p: Execution, slots: LB.Slots, n: nat)
    requires WellBehaved(p) && Armed(Reached(p, slots, n).lb) && !Flush(Reached(p, slots, n))
    requires var lb := Reached(p, slots, n).lb; 0 <= LoopBranch(lb) && StraightLoop(p, lb.start, LoopBranch(lb))
    ensures var c := Reached(p, slots, n);
            && 0 <= LoopBranch(c.lb)
            && (Resolving(c) ==> c.idex.pc == LoopBranch(c.lb) && ActualTaken(c) && ExOut(c).target == c.lb.start)
            && BP.PredictTaken(NextBp(c), LoopBranch(c.lb))
            && BP.PredictTarget(NextBp(c), LoopBranch(c.lb)) == c.lb.start
  {
    var c := Reached(p, slots, n);
    hide WellBehaved, StraightLoop, Reset, Retired, LoopHolds, BackEnd, FrontEnd, OnPath, Chained, TableSound, NextBp,
         ExOut, Flush, Resolving, ActualTaken, BP.PredictTaken, BP.PredictTarget, Next;
    ReachedInv(p, slots, n);
    PredictionKept(p, c, Retired(p, slots, n));
  }

  /** BTB soundness: a prediction is only ever made at a branch or jump, for a
      target it has resolved to, whatever addresses share its index. */
  lemma PredictionsAreSound(p: Execution, slots: LB.Slots, n: nat, pc: Word)
    requires WellBehaved(p) && pc % 4 == 0 && BP.PredictTaken(Reached(p, slots, n).bp, pc)
    ensures IsControlFlow(Fetch(p.imem, pc))
    ensures ResolvedBefore(p, ExIndex(p, slots, n), pc, BP.PredictTarget(Reached(p, slots, n).bp, pc))
  {
    var c := Reached(p, slots, n);
    ReachedInv(p, slots, n);
    PredictionSoundFromTable(p, ExIndex(p, slots, n), c.bp, pc);
    ResolvedFacts(p, pc, BP.PredictTarget(c.bp, pc));
  }

  /** Program-order index of the instruction in EX in cycle n. */
  ghost function ExIndex(p: Execution, slots: LB.Slots, n: nat): nat {
    HeadIndex(Reached(p, slots, n), Retired(p, slots, n))
  }

  /** Operand correctness: whatever stalls and bubbles came before, EX computes
      on the architectural operands of its instruction. */
  lemma OperandsAreArchitectural(p: Execution, slots: LB.Slots, n: nat)
    requires WellBehaved(p) && Reached(p, slots, n).idex.valid
    ensures var c, k := Reached(p, slots, n), ExIndex(p, slots, n);
            && c.idex.pc == p.At(k).pc
            && FwdRs1(c) == ReadReg(p.At(k).regs, Rs1(p.WordAt(k)))
            && FwdRs2(c) == ReadReg(p.At(k).regs, Rs2(p.WordAt(k)))
            && ExOut(c) == p.OutcomeAt(k)
  {
    hide Decode, ImmGen, Fetch, Rs1, Rs2, Rd, Funct3, Run, Resolved, ReadReg, ExOut, FwdRs1, FwdRs2,
         WellBehaved, BackEnd, TableSound, LoopInvariant, Outcome;
    var c, r := Reached(p, slots, n), Retired(p, slots, n);
    ReachedInv(p, slots, n);
    ExOutCorrect(p, c, r);
  }

  /** A load in MEM is never the forwarding source of an operand in EX. */
  lemma LoadsAreNeverForwardedFromMem(p: Execution, slots: LB.Slots, n: nat)
    requires WellBehaved(p)
    ensures var c := Reached(p, slots, n);
            c.idex.valid && MemWrites(c.exmem) && c.exmem.memRead ==>
              ForwardUnit(c.idex.rs1, MemWrites(c.exmem), c.exmem.rd, WbWrites(c.memwb), c.memwb.rd) != FromExMem &&
              ForwardUnit(c.idex.rs2, MemWrites(c.exmem), c.exmem.rd, WbWrites(c.memwb), c.memwb.rd) != FromExMem
  {
    hide Decode, ImmGen, Fetch, Rs1, Rs2, Rd, Funct3, Run, Resolved, ReadReg, ExMatches, IdMatches,
         WellBehaved, BackEnd, TableSound, LoopInvariant, OnPath, Chained;
    ReachedInv(p, slots, n);
  }

  /** Squash precision: a flush sends fetch to the true successor, empties IF/ID
      and ID/EX, and never meets a stall; with no flush the prediction was the
      true successor. */
  lemma SquashIsPrecise(p: Execution, slots: LB.Slots, n: nat)
    requires WellBehaved(p) && Reached(p, slots, n).idex.valid
    ensures var c, c', next := Reached(p, slots, n), Reached(p, slots, n + 1), p.At(ExIndex(p, slots, n) + 1).pc;
            if Flush(c) then
              c'.pc == next && c'.ifid == IFID_BUBBLE && c'.idex == IDEX_BUBBLE && !Stall(c)
            else
              c.ifid.valid && c.ifid.pc == next
  {
    var c, r := Reached(p, slots, n), Retired(p, slots, n);
    ReachedInv(p, slots, n);
    SuccessorOfEx(p, c, r);
    hide Decode, ImmGen, Fetch, Rs1, Rs2, Rd, Funct3, Run, Resolved, ReadReg, ExMatches, IdMatches, Flush, Stall,
         WellBehaved, BackEnd, TableSound, LoopInvariant, OnPath, FlushTarget, PredictedNext, LoadSeparated,
         NextExMem, NextMemWb, NextRegs, NextRam, NextBp, LB.Next;
  }
}
