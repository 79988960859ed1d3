/**
 When each instruction is executed: exactly one cycle per instruction, plus one
 per load-use pair and two per mispredict.
 */
module Timing {
  import opened Words
  import opened Datapath
  import opened Sequential
  import opened Execution
  import opened Core
  import opened Invariant
  import opened Preservation
  import opened Refinement
  import LB = LoopBuffer

  /** Instruction k - 1 is a load to a register other than x0, and instruction k
      has the number of that register in its rs1 or rs2 field. */
  ghost predicate UsesLoad(p: Execution, k: nat) {
    k >= 1 &&
    var load, w := p.WordAt(k - 1), p.WordAt(k);
    Opcode(load) == OP_LOAD && Rd(load) != 0 && Rd(load) in {Rs1(w), Rs2(w)}
  }

  /** hazard_unit.sv sees just these pairs. */
  lemma HazardIsLoadUse(load: Word, w: Word)
    ensures LoadUseHazard(Rs1(w), Rs2(w), Decode(load).memRead, Rd(load)) <==>
            Opcode(load) == OP_LOAD && Rd(load) != 0 && Rd(load) in {Rs1(w), Rs2(w)}
  {
    hide Opcode, Rd, Rs1, Rs2, Funct3, Funct7, AluControlReg, AluControlImm;
  }

  /** Load-use pairs among instructions 0 .. k. */
  ghost function LoadUsePairs(p: Execution, k: nat): nat {
    if k == 0 then 0 else LoadUsePairs(p, k - 1) + if UsesLoad(p, k) then 1 else 0
  }

  /** The branch or jump in EX in cycle n goes another way in the run than was
      predicted for it: taken or not, or taken to another target. */
  ghost predicate Mispredicted(p: Execution, slots: LB.Slots, n: nat) {
    var x, k := Reached(p, slots, n).idex, ExIndex(p, slots, n);
    x.valid && IsControlFlow(p.WordAt(k)) &&
    (p.OutcomeAt(k).taken != x.predTaken || (x.predTaken && p.At(k + 1).pc != x.predTarget))
  }

  /** Mispredicts resolved before cycle n. */
  ghost function Mispredicts(p: Execution, slots: LB.Slots, n: nat): nat {
    if n == 0 then 0
    else Mispredicts(p, slots, n - 1) + if Mispredicted(p, slots, n - 1) then 1 else 0
  }

  /** The core flushes just then. */
  lemma FlushIsMispredict(p: Execution, slots: LB.Slots, n: nat)
    requires WellBehaved(p)
    ensures Flush(Reached(p, slots, n)) <==> Mispredicted(p, slots, n)
  {
    hide Decode, ImmGen, Fetch, Rs1, Rs2, Rd, Funct3, Run, Resolved, ReadReg, ExOut, FwdRs1, FwdRs2, WellBehaved,
         BackEnd, TableSound, LoopInvariant, Outcome, IsControlFlow, Retired, LoadSeparated, Reached, StepRegs,
         StepRam;
    var c, r := Reached(p, slots, n), Retired(p, slots, n);
    ReachedInv(p, slots, n);
    if c.idex.valid {
      ExOutCorrect(p, c, r);
      ControlFlowByDecode(p.WordAt(HeadIndex(c, r)));
      AtNext(p, HeadIndex(c, r));
    }
  }

  function HeadDepth(c: Core): nat {
    if c.idex.valid then 2 else if c.ifid.valid then 1 else 0
  }

  /** Which stages an edge leaves full. */
  lemma StagesStep(imem: InstrMem, c: Core, r: nat)
    ensures var c' := Next(imem, c);
            && HeadIndex(c', NextRetired(c, r)) == HeadIndex(c, r) + (if c.idex.valid then 1 else 0)
            && c'.idex.valid == (!Flush(c) && !Stall(c) && c.ifid.valid)
            && c'.ifid.valid == (!Flush(c) && (!Stall(c) || c.ifid.valid))
  {
    hide Flush, Stall, NextPc, NextRegs, NextRam, NextBp, LB.Next, InstructionOut, ExOut, FwdRs2, ReadPort, Decode,
         ImmGen, Rs1, Rs2, Rd, Funct3, LoadData;
  }

  /** The instruction in ID waits exactly if it uses the load in EX. */
  lemma StallIsLoadUse(p: Execution, c: Core, r: nat)
    requires WellBehaved(p) && Inv(p, c, r) && c.idex.valid && !Flush(c)
    ensures Stall(c) == UsesLoad(p, HeadIndex(c, r) + 1)
  {
    hide Decode, ImmGen, Fetch, Rs1, Rs2, Rd, Funct3, Run, Resolved, ReadReg, Flush, BackEnd, TableSound, LoopInvariant,
         FlushTarget, PredictedNext, LoadSeparated, WellBehaved, LandsOn, IsControlFlow, PredictionSound, Opcode,
         LoadUseHazard;
    SuccessorOfEx(p, c, r);
    HazardIsLoadUse(p.WordAt(HeadIndex(c, r)), p.WordAt(HeadIndex(c, r) + 1));
  }

  /** A branch or jump that flushes is no load, so its successor does not wait. */
  lemma FlushUsesNoLoad(p: Execution, c: Core, r: nat)
    requires WellBehaved(p) && Inv(p, c, r) && c.idex.valid && Flush(c)
    ensures !Stall(c) && !UsesLoad(p, HeadIndex(c, r) + 1)
  {
    hide Decode, ImmGen, Fetch, Rs1, Rs2, Rd, Funct3, Run, Resolved, ReadReg, Flush, Stall, BackEnd, TableSound,
         LoopInvariant, FlushTarget, PredictedNext, LoadSeparated, WellBehaved, LandsOn,
         PredictionSound, Instr, LoadUseHazard, Opcode;
    SuccessorOfEx(p, c, r);
    ControlFlowByDecode(p.WordAt(HeadIndex(c, r)));
    HazardIsLoadUse(p.WordAt(HeadIndex(c, r)), p.WordAt(HeadIndex(c, r) + 1));
  }

  lemma FullStages(p: Execution, c: Core, r: nat)
    requires Inv(p, c, r)
    ensures FrontEnd(p, c) && (c.idex.valid ==> c.ifid.valid)
  {
    hide BackEnd, OnPath, Chained, TableSound, LoopInvariant, ExMatches, IdMatches, Quiet, LoadSeparated;
  }

  /** How one clock edge moves the head. */
  lemma HeadStep(p: Execution, c: Core, r: nat)
    requires WellBehaved(p) && Inv(p, c, r)
    ensures var c', k := Next(p.imem, c), HeadIndex(c, r);
            && HeadIndex(c', NextRetired(c, r)) == (if c.idex.valid then k + 1 else k)
            && HeadDepth(c') ==
               (if !c.idex.valid then HeadDepth(c) + 1 else if Flush(c) then 0 else if Stall(c) then 1 else 2)
            && (c.idex.valid ==> Stall(c) == UsesLoad(p, k + 1))
            && !(Flush(c) && Stall(c))
            && (!c.idex.valid ==> !Flush(c))
  {
    hide Flush, Stall, Next, Inv, WellBehaved, UsesLoad, FrontEnd;
    StagesStep(p.imem, c, r);
    FullStages(p, c, r);
    if c.idex.valid {
      if Flush(c) {
        FlushUsesNoLoad(p, c, r);
      } else {
        StallIsLoadUse(p, c, r);
      }
    } else {
      NoFlushOrStall(p, c);
    }
  }

  /** HeadStep, from one reachable cycle to the next. */
  lemma Advance(p: Execution, slots: LB.Slots, n: nat)
    requires WellBehaved(p)
    ensures var c, c', k := Reached(p, slots, n), Reached(p, slots, n + 1), ExIndex(p, slots, n);
            && ExIndex(p, slots, n + 1) == (if c.idex.valid then k + 1 else k)
            && HeadDepth(c') ==
               (if !c.idex.valid then HeadDepth(c) + 1
                else if Mispredicted(p, slots, n) then 0
                else if UsesLoad(p, k + 1) then 1 else 2)
            && (Mispredicted(p, slots, n) ==> c.idex.valid && !UsesLoad(p, k + 1))
  {
    hide Next, Inv, WellBehaved, Reset, Flush, Stall, UsesLoad, NextRetired, HeadDepth, HeadIndex, Mispredicted;
    ReachedInv(p, slots, n);
    HeadStep(p, Reached(p, slots, n), Retired(p, slots, n));
    FlushIsMispredict(p, slots, n);
  }

  /** Exact timing, for the oldest instruction that has not left EX. */
  lemma {:induction false} HeadTiming(p: Execution, slots: LB.Slots, n: nat)
    requires WellBehaved(p)
    ensures var c, k := Reached(p, slots, n), ExIndex(p, slots, n);
            n == HeadDepth(c) + k + LoadUsePairs(p, k) + 2 * Mispredicts(p, slots, n)
  {
    hide Next, Inv, WellBehaved, Reset, UsesLoad, NextRetired, Mispredicted;
    if n == 0 {
      ResetIsEmpty(p, slots);
    } else {
      HeadTiming(p, slots, n - 1);
      Advance(p, slots, n - 1);
    }
  }

  lemma ResetIsEmpty(p: Execution, slots: LB.Slots)
    ensures HeadDepth(Reset(p.ram, slots)) == 0 && HeadIndex(Reset(p.ram, slots), 0) == 0
  {
  }

  /** Instruction k is in EX in cycle 2 + k, one later for every load-use pair up
      to it and two later for every mispredict before it. */
  lemma ExactTiming(p: Execution, slots: LB.Slots, n: nat)
    requires WellBehaved(p) && Reached(p, slots, n).idex.valid
    ensures var k := ExIndex(p, slots, n);
            n == 2 + k + LoadUsePairs(p, k) + 2 * Mispredicts(p, slots, n)
  {
    HeadTiming(p, slots, n);
  }

  ghost predicate InEx(p: Execution, slots: LB.Slots, n: nat, k: nat) {
    Reached(p, slots, n).idex.valid && ExIndex(p, slots, n) == k
  }

  /** The successor of the instruction in EX is there one cycle later, two after
      a load it depends on, three after a mispredict. */
  lemma NextInEx(p: Execution, slots: LB.Slots, n: nat, k: nat)
    requires WellBehaved(p) && InEx(p, slots, n, k)
    ensures var gap := 1 + (if UsesLoad(p, k + 1) then 1 else 0) + (if Mispredicted(p, slots, n) then 2 else 0);
            gap <= 3 && InEx(p, slots, n + gap, k + 1)
  {
    hide Next, Inv, WellBehaved, Reset, Mispredicted, UsesLoad, NextRetired, Retired;
    Advance(p, slots, n);
    Advance(p, slots, n + 1);
    Advance(p, slots, n + 2);
  }

  /** Progress: every instruction of the run reaches EX, at most three cycles per
      instruction after reset. */
  lemma {:induction false} EveryInstructionExecutes(p: Execution, slots: LB.Slots, k: nat) returns (n: nat)
    requires WellBehaved(p)
    ensures n <= 2 + 3 * k && InEx(p, slots, n, k)
  {
    hide Next, Inv, WellBehaved, Reset, Mispredicted, UsesLoad, NextRetired;
    if k == 0 {
      ResetIsEmpty(p, slots);
      Advance(p, slots, 0);
      Advance(p, slots, 1);
      n := 2;
    } else {
      var m := EveryInstructionExecutes(p, slots, k - 1);
      NextInEx(p, slots, m, k - 1);
      n := m + 1 + (if UsesLoad(p, k) then 1 else 0) + (if Mispredicted(p, slots, m) then 2 else 0);
    }
  }

  // ---- retirement ----

  /** EX/MEM and MEM/WB advance every cycle. */
  lemma StagesAdvance(p: Execution, slots: LB.Slots, n: nat)
    ensures var c, c' := Reached(p, slots, n), Reached(p, slots, n + 1);
            && c'.exmem.valid == c.idex.valid && c'.memwb.valid == c.exmem.valid
            && Retired(p, slots, n + 1) == MemIndex(c, Retired(p, slots, n))
  {
    hide NextPc, NextIfId, NextIdEx, NextRegs, NextRam, NextBp, LB.Next, ExOut, FwdRs2, LoadData, Reset;
  }

  /** An instruction in EX is in WB, about to retire, exactly two cycles later. */
  lemma RetiresTwoLater(p: Execution, slots: LB.Slots, n: nat, k: nat)
    requires InEx(p, slots, n, k)
    ensures Reached(p, slots, n + 2).memwb.valid && Retired(p, slots, n + 2) == k
  {
    hide Next, Reset, Retired;
    StagesAdvance(p, slots, n);
    StagesAdvance(p, slots, n + 1);
  }

  lemma {:induction false} RetiredGrows(p: Execution, slots: LB.Slots, n: nat, m: nat)
    requires n <= m
    ensures Retired(p, slots, n) <= Retired(p, slots, m)
  {
    hide Next, Reset, Retired;
    if n < m {
      RetiredGrows(p, slots, n, m - 1);
      StagesAdvance(p, slots, m - 1);
    }
  }

  /** Consecutive instructions retire at most three cycles apart. */
  lemma RetirementGap(p: Execution, slots: LB.Slots, n: nat, k: nat) returns (gap: nat)
    requires WellBehaved(p) && InEx(p, slots, n, k)
    ensures 1 <= gap <= 3
    ensures Reached(p, slots, n + 2).memwb.valid && Retired(p, slots, n + 2) == k
    ensures Reached(p, slots, n + 2 + gap).memwb.valid && Retired(p, slots, n + 2 + gap) == k + 1
  {
    hide Next, Inv, WellBehaved, Reset, Mispredicted, UsesLoad, NextRetired, Retired;
    gap := 1 + (if UsesLoad(p, k + 1) then 1 else 0) + (if Mispredicted(p, slots, n) then 2 else 0);
    NextInEx(p, slots, n, k);
    RetiresTwoLater(p, slots, n, k);
    RetiresTwoLater(p, slots, n + gap, k + 1);
  }

  /** r instructions have retired after at most 3 * r + 4 cycles. */
  lemma RetiredBy(p: Execution, slots: LB.Slots, r: nat, n: nat)
    requires WellBehaved(p) && n >= 3 * r + 4
    ensures Retired(p, slots, n) >= r
  {
    hide Next, Inv, WellBehaved, Reset, Retired, InEx;
    var m := EveryInstructionExecutes(p, slots, r);
    RetiresTwoLater(p, slots, m, r);
    RetiredGrows(p, slots, m + 2, n);
  }
}
