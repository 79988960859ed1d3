/**
 One clock edge preserves the invariant, stage by stage.
 */
module Preservation {
  import opened Words
  import opened Datapath
  import opened Sequential
  import opened Execution
  import opened Core
  import opened Invariant
  import BP = Predictor
  import LB = LoopBuffer

  /** The retired count after one more clock edge. */
  function NextRetired(c: Core, r: nat): nat {
    MemIndex(c, r)
  }

  // ---- operands ----

  lemma WbDataCorrect(p: Execution, c: Core, r: nat)
    requires BackEnd(p, c, r) && c.memwb.valid
    ensures WbData(c.memwb) == RdValue(p.WordAt(r), p.At(r))
  {
    hide Decode, ImmGen, Execute, Fetch, Rd, Add, Run, ReadRam;
  }

  lemma RegsAfterWb(p: Execution, c: Core, r: nat)
    requires BackEnd(p, c, r)
    ensures NextRegs(c) == p.At(MemIndex(c, r)).regs
  {
    hide Decode, ImmGen, Execute, Fetch, Rd, Add, Run, RdValue, WbData;
    if c.memwb.valid {
      WbDataCorrect(p, c, r);
      AtNext(p, r);
    }
  }

  /** reg_file's bypass hands ID the register as of the instruction in MEM. */
  lemma ReadPortCorrect(c: Core, rs: RegIdx)
    ensures ReadPort(c.regs, c.memwb, rs) == ReadReg(NextRegs(c), rs)
  {
    hide WbData;
  }

  lemma LoadsOnly(w: Word)
    ensures Decode(w).memToReg == Decode(w).memRead
    ensures Decode(w).memRead ==> Decode(w).regWrite
  {
  }

  /** A producer in MEM that is not a load forwards the value it will write. */
  lemma ExMemForwardCorrect(p: Execution, c: Core, r: nat)
    requires BackEnd(p, c, r) && c.exmem.valid && !c.exmem.memRead
    ensures ExMemForward(c.exmem) == RdValue(p.WordAt(MemIndex(c, r)), p.At(MemIndex(c, r)))
  {
    hide Decode, ImmGen, Execute, Fetch, Rd, Add, Run;
    LoadsOnly(p.WordAt(MemIndex(c, r)));
  }

  /** What register rs holds after the instruction at k. */
  lemma ReadAfter(p: Execution, k: nat, rs: RegIdx)
    ensures var w := p.WordAt(k);
            ReadReg(p.At(k + 1).regs, rs) ==
            if Decode(w).regWrite && rs != 0 && Rd(w) == rs then RdValue(w, p.At(k)) else ReadReg(p.At(k).regs, rs)
  {
    hide Decode, Run, RdValue, Rd, Instr, StepPc, StepRam;
    AtNext(p, k);
  }

  lemma OperandCorrect(p: Execution, c: Core, r: nat, rs: RegIdx, latched: Word)
    requires BackEnd(p, c, r)
    requires latched == ReadReg(c.regs, rs)
    requires c.exmem.valid && c.exmem.memRead && c.exmem.rd != 0 ==> c.exmem.rd != rs
    ensures Operand(c, rs, latched) == ReadReg(p.At(HeadIndex(c, r)).regs, rs)
  {
    hide Decode, ImmGen, Outcome, Fetch, Rd, Add, Run, RdValue, WbData, ExMemForward, Instr, LoadedValue, StoredValue,
         ReadReg;
    if c.memwb.valid {
      ReadAfter(p, r, rs);
      WbDataCorrect(p, c, r);
    }
    if c.exmem.valid {
      ReadAfter(p, MemIndex(c, r), rs);
      if !c.exmem.memRead {
        ExMemForwardCorrect(p, c, r);
      }
    }
    ZeroReads(p.At(HeadIndex(c, r)).regs, rs);
    ZeroReads(c.regs, rs);
  }

  lemma ZeroReads(regs: Regs, rs: RegIdx)
    ensures rs == 0 ==> ReadReg(regs, rs) == 0
  {
  }

  lemma ExOutCorrect(p: Execution, c: Core, r: nat)
    requires BackEnd(p, c, r) && FrontEnd(p, c) && OnPath(p, c, r) && c.idex.valid
    ensures FwdRs1(c) == ReadReg(p.At(HeadIndex(c, r)).regs, c.idex.rs1)
    ensures FwdRs2(c) == StoredValue(p.WordAt(HeadIndex(c, r)), p.At(HeadIndex(c, r)))
    ensures ExOut(c) == p.OutcomeAt(HeadIndex(c, r))
  {
    hide Decode, ImmGen, Execute, Operand, Fetch, Rs1, Rs2, Rd, Funct3, Add, Run, Resolved;
    OperandCorrect(p, c, r, c.idex.rs1, c.idex.rs1Data);
    OperandCorrect(p, c, r, c.idex.rs2, c.idex.rs2Data);
  }

  lemma WbStep(p: Execution, c: Core, r: nat)
    requires BackEnd(p, c, r) && c.exmem.valid
    ensures WbMatches(p, NextMemWb(c), MemIndex(c, r))
  {
    hide Decode, ImmGen, Outcome, Fetch, Rd, Add, Run, Instr, ReadRam;
  }

  lemma MemStep(p: Execution, c: Core, r: nat)
    requires BackEnd(p, c, r) && FrontEnd(p, c) && OnPath(p, c, r) && c.idex.valid
    ensures MemMatches(p, NextExMem(c), HeadIndex(c, r))
  {
    hide Decode, ImmGen, Outcome, Fetch, Rs1, Rs2, Rd, Funct3, Add, Run, Resolved, StoredValue, ExOut, FwdRs2;
    ExOutCorrect(p, c, r);
  }

  lemma RamStep(p: Execution, c: Core, r: nat)
    requires BackEnd(p, c, r)
    ensures NextRam(c) == p.At(HeadIndex(c, r)).ram
  {
    hide Decode, ImmGen, Outcome, Fetch, Rd, Add, Run, Instr, StoredValue, WriteRam, StepPc, StepRegs;
    if c.exmem.valid {
      AtNext(p, MemIndex(c, r));
    }
  }

  lemma BackEndStep(p: Execution, c: Core, r: nat)
    requires BackEnd(p, c, r) && FrontEnd(p, c) && OnPath(p, c, r)
    ensures BackEnd(p, Next(p.imem, c), NextRetired(c, r))
  {
    hide Decode, Operand, Run, Resolved, Stall, Flush, ExOut, NextPc, NextIfId, NextIdEx, NextBp, NextRegs, NextRam,
         WbMatches, MemMatches, LB.Next, LB.Gated;
    RegsAfterWb(p, c, r);
    RamStep(p, c, r);
    if c.exmem.valid {
      WbStep(p, c, r);
    }
    if c.idex.valid {
      MemStep(p, c, r);
    }
  }

  // ---- the front end ----

  /** The word on the instruction bus is the one at the fetch address, in every
      phase of the loop buffer. */
  lemma FetchTransparent(p: Execution, c: Core)
    requires LoopInvariant(p, c) && c.pc % 4 == 0
    requires WellBehaved(p)
    ensures InstructionOut(p.imem, c) == Fetch(p.imem, c.pc)
    ensures LB.Gated(c.lb) ==> LB.ReadHits(c.lb, c.pc)
  {
    hide Run, Resolved, BP.PredictTaken, BP.PredictTarget, LoopInstr, Fetch, CleanLoop, WellBehaved, LB.ReadIndex;
    if c.lb.phase == LB.Looping {
      ResolvedFacts(p, LoopBranch(c.lb), c.lb.start);
      var j := (c.pc - c.lb.start) / 4;
      LB.ReadIndexExact(c.lb, c.pc, j);
      assert c.lb.slots[j] == Fetch(p.imem, c.lb.start + 4 * j);
    }
  }

  lemma PredictionSoundFromTable(p: Execution, n: nat, t: BP.Table, pc: Word)
    requires TableSound(p, n, t) && pc % 4 == 0
    ensures BP.PredictTaken(t, pc) ==> ResolvedBefore(p, n, pc, BP.PredictTarget(t, pc))
    ensures PredictionSound(p, pc, BP.PredictTaken(t, pc), BP.PredictTarget(t, pc))
  {
    hide Run, TakenTo, Resolved, ResolvedBefore, BP.Index, BP.Tag, EntryPc;
    EntryPcOfIndex(pc);
    assert EntrySound(p, n, t[BP.Index(pc)], BP.Index(pc));
    BeforeIsResolved(p, n, pc, BP.PredictTarget(t, pc));
  }

  lemma BeforeIsResolved(p: Execution, n: nat, a: Word, t: Word)
    ensures ResolvedBefore(p, n, a, t) ==> Resolved(p, a, t)
  {
    hide TakenTo;
  }

  lemma TakenOnlyByControlFlow(k: Control, f3: int, pc: Word, imm: Word, a: Word, b: Word)
    ensures Execute(k, f3, pc, imm, a, b).taken ==> k.branch || k.jump
  {
    hide Alu, AluOverflow, SignBit;
  }

  /** Fetch resumes at the true successor after a flush, and the prediction was
      the true successor when there is no flush. */
  lemma SuccessorOfEx(p: Execution, c: Core, r: nat)
    requires WellBehaved(p)
    requires BackEnd(p, c, r) && FrontEnd(p, c) && OnPath(p, c, r) && c.idex.valid
    ensures var next := p.At(HeadIndex(c, r) + 1).pc;
            if Flush(c) then FlushTarget(c) == next
            else PredictedNext(c.idex.pc, c.idex.predTaken, c.idex.predTarget) == next
    ensures Flush(c) ==> IsControlFlow(p.WordAt(HeadIndex(c, r)))
    ensures Flush(c) ==> !Stall(c)
  {
    hide Decode, ImmGen, Execute, Fetch, Rs1, Rs2, Rd, Funct3, Add, Run, Resolved, ExOut, IsControlFlow,
         StepRegs, StepRam, WellBehaved, BackEnd, LoadSeparated, CleanLoop, ReadReg;
    var e := HeadIndex(c, r);
    var w := p.WordAt(e);
    ExOutCorrect(p, c, r);
    ControlFlowByDecode(w);
    TakenOnlyByControlFlow(Decode(w), Funct3(w), p.At(e).pc, ImmGen(w),
      ReadReg(p.At(e).regs, Rs1(w)), ReadReg(p.At(e).regs, Rs2(w)));
    AtNext(p, e);
    if c.idex.predTaken {
      ResolvedFacts(p, c.idex.pc, c.idex.predTarget);
    }
  }

  lemma IdExStep(p: Execution, c: Core)
    requires FrontEnd(p, c) && c.ifid.valid && !Flush(c) && !Stall(c)
    ensures ExMatches(p, NextIdEx(c), NextRegs(c)) && NextIdEx(c).valid
  {
    ReadPortCorrect(c, Rs1(c.ifid.instr));
    ReadPortCorrect(c, Rs2(c.ifid.instr));
    hide Decode, ImmGen, Fetch, Rs1, Rs2, Rd, Funct3, Add, Run, Resolved, ReadPort, ReadReg, NextRegs, Flush, Stall,
         LoadSeparated, ExMatches;
    var x := NextIdEx(c);
    assert x.ctrl == Decode(c.ifid.instr);
    ExMatchesIntro(p, c, x, NextRegs(c));
  }

  lemma ExMatchesIntro(p: Execution, c: Core, x: IdEx, regs: Regs)
    requires IdMatches(p, c.ifid)
    requires var w := c.ifid.instr;
             x == IdEx(true, c.ifid.pc, c.ifid.pcPlus4, ReadReg(regs, Rs1(w)), ReadReg(regs, Rs2(w)), ImmGen(w),
                       Rs1(w), Rs2(w), Rd(w), Funct3(w), c.ifid.predTaken, c.ifid.predTarget, Decode(w))
    ensures ExMatches(p, x, regs)
  {
    hide Decode, ImmGen, Fetch, Rs1, Rs2, Rd, Funct3, Add, Run, Resolved, ReadReg;
  }

  lemma IfIdStep(p: Execution, c: Core, r: nat)
    requires WellBehaved(p) && FrontEnd(p, c) && TableSound(p, HeadIndex(c, r), c.bp) && LoopInvariant(p, c)
    requires !Flush(c) && !Stall(c)
    ensures IdMatches(p, NextIfId(p.imem, c)) && NextIfId(p.imem, c).valid
    ensures NextPc(c) % 4 == 0
  {
    hide Fetch, Run, Resolved, Flush, Stall, InstructionOut, WellBehaved, TableSound, LoopInvariant, CleanLoop, Add,
         IsControlFlow, BP.PredictTaken, BP.PredictTarget, ExMatches, LoadSeparated;
    FetchTransparent(p, c);
    PredictionSoundFromTable(p, HeadIndex(c, r), c.bp, c.pc);
    if BP.PredictTaken(c.bp, c.pc) {
      ResolvedFacts(p, c.pc, BP.PredictTarget(c.bp, c.pc));
    }
    AlignedSuccessor(c.pc);
  }

  lemma StallNeedsLoad(p: Execution, c: Core)
    requires FrontEnd(p, c) && Stall(c)
    ensures c.idex.valid && c.ifid.valid && c.idex.ctrl.memRead && !Flush(c) && !Resolving(c)
  {
    hide Decode, ImmGen, Fetch, Rs1, Rs2, Rd, Funct3, Add, Run, Resolved, ReadReg, IdMatches, LoadSeparated,
         PredictionSound, ActualTaken, ExOut;
    if c.idex.valid {
      ControlFlowByDecode(Fetch(p.imem, c.idex.pc));
    }
  }

  lemma FrontEndStep(p: Execution, c: Core, r: nat)
    requires WellBehaved(p)
    requires BackEnd(p, c, r) && FrontEnd(p, c) && OnPath(p, c, r) && TableSound(p, HeadIndex(c, r), c.bp)
    requires LoopInvariant(p, c)
    ensures FrontEnd(p, Next(p.imem, c))
  {
    hide Decode, ImmGen, Fetch, Rs1, Rs2, Rd, Funct3, Add, Run, Resolved, ReadReg, IdMatches, PredictionSound,
         ActualTaken, ExOut, FlushTarget, Flush, ExMatches, TableSound, LoopInvariant, BackEnd, OnPath, ReadPort,
         LB.Next, LB.Gated, InstructionOut, BP.PredictTaken, BP.PredictTarget, NextRegs, NextRam, NextBp, NextMemWb,
         IsControlFlow, WellBehaved, FwdRs2, Resolving;
    if Flush(c) {
      SuccessorOfEx(p, c, r) by { FlushNeedsEx(c); }
      assert GoodTransfer(p, HeadIndex(c, r) + 1) by { GoodAt(p, HeadIndex(c, r) + 1); }
    } else if Stall(c) {
      StallNeedsLoad(p, c);
    } else {
      IfIdStep(p, c, r);
      if c.ifid.valid {
        IdExStep(p, c);
      } else {
        BubbleStep(c);
      }
    }
  }

  lemma GoodAt(p: Execution, k: nat)
    requires WellBehaved(p)
    ensures GoodTransfer(p, k)
  {
  }

  lemma FlushNeedsEx(c: Core)
    requires Flush(c)
    ensures c.idex.valid
  {
  }

  lemma BubbleStep(c: Core)
    requires !c.ifid.valid
    ensures !NextIdEx(c).valid && Quiet(NextIdEx(c).ctrl)
  {
    hide Decode, ImmGen, Rs1, Rs2, Rd, Funct3, Flush, Stall, ReadPort;
  }

  lemma ChainedStep(p: Execution, c: Core)
    requires Chained(c) && FrontEnd(p, c)
    ensures Chained(Next(p.imem, c))
  {
    hide Decode, ImmGen, Fetch, Rs1, Rs2, Rd, Funct3, Add, ReadReg, IdMatches,
         ActualTaken, ExOut, FlushTarget, Flush, ExMatches, ReadPort,
         LB.Next, LB.Gated, InstructionOut, BP.PredictTaken, BP.PredictTarget, NextRegs, NextRam, NextBp, NextMemWb,
         FwdRs2, LoadSeparated, Stall;
    if Stall(c) {
      StallNeedsLoad(p, c);
    }
  }

  lemma OnPathStep(p: Execution, c: Core, r: nat)
    requires WellBehaved(p)
    requires BackEnd(p, c, r) && FrontEnd(p, c) && OnPath(p, c, r) && Chained(c)
    ensures OnPath(p, Next(p.imem, c), NextRetired(c, r))
  {
    var e := HeadIndex(c, r);
    hide Decode, ImmGen, Fetch, Rs1, Rs2, Rd, Funct3, Add, Run, Resolved, ReadReg, IdMatches, PredictionSound,
         ActualTaken, ExOut, FlushTarget, Flush, ExMatches, BackEnd, ReadPort,
         LB.Next, LB.Gated, InstructionOut, BP.PredictTaken, BP.PredictTarget, NextRegs, NextRam, NextBp,
         IsControlFlow, WellBehaved, FwdRs2, LoadSeparated, Stall, PredictedNext, LandsOn;
    if c.idex.valid {
      SuccessorOfEx(p, c, r);
      if Flush(c) {
        LandsAfterControlFlow(p, e);
      }
    } else {
      NoFlushOrStall(p, c);
    }
  }

  lemma LandsAfterControlFlow(p: Execution, k: nat)
    requires IsControlFlow(p.WordAt(k))
    ensures LandsOn(p, k + 1)
  {
  }

  lemma BubbleIsQuiet(c: Core)
    requires c.idex == IDEX_BUBBLE
    ensures !Stall(c) && !Flush(c)
  {
    hide ExOut;
  }

  lemma NoFlushOrStall(p: Execution, c: Core)
    requires FrontEnd(p, c) && !c.idex.valid
    ensures !Flush(c) && !Stall(c)
  {
    if Stall(c) {
      StallNeedsLoad(p, c);
    }
  }

  // ---- the predictor table ----

  lemma EntryPcOfIndex(pc: Word)
    requires pc % 4 == 0
    ensures EntryPc(BP.Tag(pc), BP.Index(pc)) == pc
  {
    BP.FromIndexAndTag(pc);
    hide BP.Index, BP.Tag;
  }

  lemma EntryKept(p: Execution, n: nat, m: nat, e: BP.Entry, i: nat)
    requires EntrySound(p, n, e, i) && n <= m
    ensures EntrySound(p, m, e, i)
  {
    hide TakenTo;
  }

  lemma TableStep(p: Execution, c: Core, r: nat)
    requires BackEnd(p, c, r) && FrontEnd(p, c) && OnPath(p, c, r) && TableSound(p, HeadIndex(c, r), c.bp) && WellBehaved(p)
    ensures TableSound(p, HeadIndex(Next(p.imem, c), NextRetired(c, r)), NextBp(c))
  {
    var e := HeadIndex(c, r);
    HeadMoves(p.imem, c, r);
    hide Next, NextRetired, HeadIndex;
    if Resolving(c) {
      TakenByEx(p, c, r);
      EntryPcOfIndex(c.idex.pc);
      hide Decode, ImmGen, Fetch, Rs1, Rs2, Rd, Funct3, Run, TakenTo, ReadReg, ExOut, WellBehaved, BackEnd,
           LoadSeparated, IsControlFlow, BP.Tag, BP.Index, StepRegs, StepRam, Outcome;
    }
    forall i | 0 <= i < 64
      ensures EntrySound(p, if c.idex.valid then e + 1 else e, NextBp(c)[i], i)
    {
      EntryKept(p, e, if c.idex.valid then e + 1 else e, c.bp[i], i);
    }
  }

  lemma HeadMoves(imem: InstrMem, c: Core, r: nat)
    ensures HeadIndex(Next(imem, c), NextRetired(c, r)) == if c.idex.valid then HeadIndex(c, r) + 1 else HeadIndex(c, r)
  {
    hide NextPc, NextIfId, NextIdEx, NextRegs, NextRam, NextBp, LB.Next, ExOut, FwdRs2, LoadData;
  }

  /** A branch or jump taken in EX is the head's resolution. */
  lemma TakenByEx(p: Execution, c: Core, r: nat)
    requires BackEnd(p, c, r) && FrontEnd(p, c) && OnPath(p, c, r) && WellBehaved(p) && Resolving(c)
    ensures c.idex.pc % 4 == 0
    ensures ActualTaken(c) ==> TakenTo(p, HeadIndex(c, r), c.idex.pc, ExOut(c).target)
  {
    var e := HeadIndex(c, r);
    ExOutCorrect(p, c, r);
    ControlFlowByDecode(p.WordAt(e));
    GoodAt(p, e);
    AtNext(p, e);
    hide Decode, ImmGen, Fetch, Rs1, Rs2, Rd, Funct3, Run, ReadReg, ExOut, WellBehaved, BackEnd,
         LoadSeparated, IsControlFlow, StepRegs, StepRam, Outcome;
  }
}
