/**
 The loop buffer's part of the invariant: capture starts on a quiet front end,
 records consecutive words, and is ended only by a flush or by a full buffer.
 */
module LoopPreservation {
  import opened Words
  import opened Datapath
  import opened Sequential
  import opened Execution
  import opened Core
  import opened Invariant
  import opened Preservation
  import BP = Predictor
  import LB = LoopBuffer

  /** An instruction in (top, branch] that was reached through prediction was
      reached by falling through from the word before it. */
  lemma ReachedByFallThrough(p: Execution, top: Word, branch: Word, from: Word, taken: bool, target: Word, pc: Word)
    requires NoEntry(p, top, branch)
    requires PredictionSound(p, from, taken, target) && from % 4 == 0
    requires pc == PredictedNext(from, taken, target) && top < pc <= branch
    ensures from + 4 == pc && !taken
  {
    hide NoEntry, Resolved;
    if taken {
      ResolvedLands(p, from, target, top, branch);
    }
  }

  lemma NotLanding(p: Execution, k: nat, top: Word, branch: Word)
    requires NoEntry(p, top, branch) && LandsOn(p, k)
    ensures !(top < p.At(k).pc <= branch)
  {
    assert LandsOutside(p, k, top, branch);
  }

  /** When a transfer that is only fallen into is in IF, the word before it is in
      ID. */
  lemma FellIn(p: Execution, c: Core, r: nat, top: Word)
    requires WellBehaved(p) && FrontEnd(p, c) && OnPath(p, c, r) && Chained(c)
    requires NoEntry(p, top, c.pc) && top + 4 <= c.pc
    ensures c.ifid.valid && c.ifid.pc == c.pc - 4
  {
    hide NoEntry, WellBehaved, Decode, ImmGen, Fetch, Rs1, Rs2, Rd, Funct3, Run, Resolved, ReadReg, LandsOn;
    if !c.ifid.valid {
      NotLanding(p, HeadIndex(c, r), top, c.pc);
      assert false;
    }
    IdAligned(p, c, r);
    ReachedByFallThrough(p, top, c.pc, c.ifid.pc, c.ifid.predTaken, c.ifid.predTarget, c.pc);
  }

  /** When the branch of a straight loop is in IF, the two words before it are in
      ID and EX (or EX is empty): no stall, no flush, nothing trains. */
  lemma QuietEntry(p: Execution, c: Core, r: nat, top: Word)
    requires WellBehaved(p) && FrontEnd(p, c) && OnPath(p, c, r) && Chained(c)
    requires StraightLoop(p, top, c.pc) && top % 4 == 0
    ensures c.ifid.valid && c.ifid.pc == c.pc - 4
    ensures !Stall(c) && !Flush(c) && !Resolving(c)
  {
    var branch := c.pc;
    FellIn(p, c, r, top);
    IdAligned(p, c, r);
    if c.idex.valid {
      ReachedByFallThrough(p, top, branch, c.idex.pc, c.idex.predTaken, c.idex.predTarget, c.ifid.pc);
      assert !IsControlFlow(Fetch(p.imem, branch - 8));
      ControlFlowByDecode(Fetch(p.imem, branch - 8));
      hide Decode, ImmGen, Fetch, Rs1, Rs2, Rd, Funct3, Add, Run, Resolved, ReadReg, ActualTaken, NoEntry, WellBehaved;
    } else {
      NoFlushOrStall(p, c);
    }
  }

  /** A branch or jump in EX makes nothing wait. */
  lemma TransferNoStall(p: Execution, c: Core)
    requires FrontEnd(p, c) && c.idex.valid && IsControlFlow(Fetch(p.imem, c.idex.pc))
    ensures !Stall(c)
  {
    hide Decode, ImmGen, Fetch, Rs1, Rs2, Rd, Funct3, Resolved, ReadReg, IsControlFlow, Add;
    ControlFlowByDecode(Fetch(p.imem, c.idex.pc));
  }

  lemma LastWordsNoStall(p: Execution, c: Core)
    requires FrontEnd(p, c) && c.idex.valid && c.ifid.valid && NoTransferStall(p.imem, c.pc)
    requires c.idex.pc == c.pc - 8 && c.ifid.pc == c.pc - 4
    ensures !Stall(c)
  {
    hide Decode, ImmGen, Fetch, Rs1, Rs2, Rd, Funct3, Resolved, ReadReg, Add;
  }

  /** When the branch of an overflowing loop is in IF there is at least no stall:
      EX holds the word two before it, or a branch or jump. */
  lemma NoStallEntry(p: Execution, c: Core, r: nat, top: Word)
    requires WellBehaved(p) && FrontEnd(p, c) && OnPath(p, c, r) && Chained(c)
    requires OverflowingLoop(p, top, c.pc) && top % 4 == 0
    ensures !Stall(c)
  {
    hide WellBehaved, OnPath, NoEntry, Fetch, IsControlFlow, Stall, StraightWords, NoTransferStall, CleanLoop,
         Resolved, Add, LoadSeparated, ReadReg;
    FellIn(p, c, r, c.pc - 4);
    if !c.idex.valid {
      NoFlushOrStall(p, c);
    } else if c.idex.predTaken {
      IdAligned(p, c, r);
      ResolvedFacts(p, c.idex.pc, c.idex.predTarget);
      TransferNoStall(p, c);
    } else {
      FellFrom(c.idex.pc, c.pc - 4);
      LastWordsNoStall(p, c);
    }
  }

  lemma FellFrom(from: Word, pc: Word)
    requires Add(from, 4) == pc && pc >= 4
    ensures from == pc - 4
  {
  }

  lemma IdAligned(p: Execution, c: Core, r: nat)
    requires WellBehaved(p) && FrontEnd(p, c) && OnPath(p, c, r) && Chained(c)
    ensures c.idex.valid ==> c.idex.pc % 4 == 0
    ensures c.ifid.valid ==> c.ifid.pc % 4 == 0
  {
    hide Decode, ImmGen, Fetch, Rs1, Rs2, Rd, Funct3, Add, Run, Resolved, ReadReg, WellBehaved;
    GoodAt(p, HeadIndex(c, r));
    if c.idex.valid {
      AlignedSuccessor(c.idex.pc);
      if c.idex.predTaken {
        ResolvedFacts(p, c.idex.pc, c.idex.predTarget);
      }
    }
  }

  /** The buffer holds, or is capturing, a straight loop. */
  ghost predicate StraightArmed(p: Execution, c: Core) {
    LoopInvariant(p, c) && Armed(c.lb) && 0 <= LoopBranch(c.lb) && StraightLoop(p, c.lb.start, LoopBranch(c.lb))
  }

  /** Inside the loop only its own branch is predicted taken. */
  lemma LoopFetch(p: Execution, c: Core, r: nat)
    requires WellBehaved(p) && TableSound(p, HeadIndex(c, r), c.bp) && StraightArmed(p, c) && c.pc % 4 == 0
    ensures if c.pc == LoopBranch(c.lb) then
              BP.PredictTaken(c.bp, c.pc) && BP.PredictTarget(c.bp, c.pc) == c.lb.start
            else
              !BP.PredictTaken(c.bp, c.pc) && Add(c.pc, 4) == c.pc + 4
    ensures c.lb.start % 4 == 0 && LoopBranch(c.lb) % 4 == 0
  {
    LoopAligned(p, c);
    if c.pc != LoopBranch(c.lb) {
      BodyWord(p, c, c.pc);
      NotPredicted(p, c, r);
    }
    hide Fetch, IsControlFlow, BP.PredictTaken, BP.PredictTarget, Run, Resolved, WellBehaved, StraightLoop, TableSound,
         CapturedUpTo;
  }

  /** A word that is no branch or jump is never predicted taken. */
  lemma NotPredicted(p: Execution, c: Core, r: nat)
    requires WellBehaved(p) && TableSound(p, HeadIndex(c, r), c.bp) && c.pc % 4 == 0
    requires !IsControlFlow(Fetch(p.imem, c.pc))
    ensures !BP.PredictTaken(c.bp, c.pc)
  {
    hide Fetch, IsControlFlow, BP.PredictTaken, BP.PredictTarget, Run, Resolved, WellBehaved, CleanLoop, TableSound;
    PredictionSoundFromTable(p, HeadIndex(c, r), c.bp, c.pc);
    if BP.PredictTaken(c.bp, c.pc) {
      ResolvedFacts(p, c.pc, BP.PredictTarget(c.bp, c.pc));
    }
  }

  lemma LoopAligned(p: Execution, c: Core)
    requires WellBehaved(p) && LoopInvariant(p, c) && Armed(c.lb)
    ensures c.lb.start % 4 == 0 && LoopBranch(c.lb) % 4 == 0 && 0 <= LoopBranch(c.lb)
    ensures CleanLoop(p, c.lb.start, LoopBranch(c.lb))
  {
    hide Fetch, IsControlFlow, BP.PredictTaken, BP.PredictTarget, Run, Resolved, WellBehaved, CapturedUpTo, CleanLoop,
         StraightLoop, StraightHolds;
    ResolvedFacts(p, LoopBranch(c.lb), c.lb.start);
  }

  lemma BodyWord(p: Execution, c: Core, x: Word)
    requires 0 <= LoopBranch(c.lb) && StraightLoop(p, c.lb.start, LoopBranch(c.lb))
    requires InLoop(c.lb, x) && x != LoopBranch(c.lb) && x % 4 == 0
    ensures !IsControlFlow(Fetch(p.imem, x))
    ensures Add(x, 4) == x + 4
  {
  }

  /** Only a straight loop's own branch trains the predictor while the buffer is
      armed, and it leaves the prediction of that branch as it was. */
  lemma PredictionKept(p: Execution, c: Core, r: nat)
    requires WellBehaved(p) && FrontEnd(p, c) && OnPath(p, c, r) && Chained(c)
    requires StraightArmed(p, c) && !Flush(c)
    ensures Resolving(c) ==> c.idex.pc == LoopBranch(c.lb) && ActualTaken(c) && ExOut(c).target == c.lb.start
    ensures BP.PredictTaken(NextBp(c), LoopBranch(c.lb))
    ensures BP.PredictTarget(NextBp(c), LoopBranch(c.lb)) == c.lb.start
  {
    if Resolving(c) {
      IdAligned(p, c, r);
      ControlFlowByDecode(Fetch(p.imem, c.idex.pc));
      if c.idex.pc != LoopBranch(c.lb) {
        BodyWord(p, c, c.idex.pc);
      }
      hide Decode, ImmGen, Fetch, Rs1, Rs2, Rd, Funct3, Add, Run, Resolved, ReadReg, ExOut, BP.Tag, StraightLoop,
           WellBehaved, CapturedUpTo, IsControlFlow;
    }
  }

  // ---- preservation, by phase ----

  lemma CleanBounds(p: Execution, top: Word, branch: Word)
    requires CleanLoop(p, top, branch)
    ensures top + 8 <= branch && branch + 4 < TWO_TO_32
  {
    hide StraightWords, NoEntry, NoTransferStall;
  }

  lemma CaptureStarts(p: Execution, bp: BP.Table, top: Word, branch: Word, slots: LB.Slots, d: IfId, x: IdEx)
    requires Resolved(p, branch, top) && top + 8 <= branch && branch + 4 < TWO_TO_32
    requires BP.PredictTaken(bp, branch) && BP.PredictTarget(bp, branch) == top
    requires d.pc == branch && d.predTaken && d.predTarget == top
    requires StraightLoop(p, top, branch) && x.valid ==> x.pc == branch - 4
    ensures LoopHolds(p, LB.LoopState(LB.Recording, top, branch + 4, 0, slots), bp, top, d, x)
  {
    hide Resolved, BP.PredictTaken, BP.PredictTarget, Fetch, StraightLoop;
  }

  lemma CaptureStartsLong(p: Execution, bp: BP.Table, top: Word, branch: Word, slots: LB.Slots, d: IfId, x: IdEx)
    requires Resolved(p, branch, top) && top + 8 <= branch && branch + 4 < TWO_TO_32
    requires !StraightLoop(p, top, branch)
    ensures LoopHolds(p, LB.LoopState(LB.Recording, top, branch + 4, 0, slots), bp, top, d, x)
  {
    hide Resolved, Fetch, StraightLoop;
  }

  lemma EntryFacts(p: Execution, c: Core, r: nat, top: Word)
    requires WellBehaved(p) && FrontEnd(p, c) && OnPath(p, c, r) && Chained(c) && TableSound(p, HeadIndex(c, r), c.bp)
    requires BP.PredictTaken(c.bp, c.pc) && BP.PredictTarget(c.bp, c.pc) == top && top < c.pc
    ensures Resolved(p, c.pc, top) && top + 8 <= c.pc && c.pc + 4 < TWO_TO_32 && !Stall(c)
    ensures StraightLoop(p, top, c.pc) ==> c.ifid.valid && c.ifid.pc == c.pc - 4 && !Flush(c) && !Resolving(c)
  {
    hide Run, Resolved, WellBehaved, IsControlFlow, FrontEnd, OnPath, Chained, TableSound, Flush, Stall,
         Resolving, BP.PredictTaken, BP.PredictTarget, Fetch, StraightLoop, OverflowingLoop;
    PredictionSoundFromTable(p, HeadIndex(c, r), c.bp, c.pc) by { FrontEndAligned(p, c); }
    ResolvedFacts(p, c.pc, top);
    CleanBounds(p, top, c.pc);
    if StraightLoop(p, top, c.pc) {
      QuietEntry(p, c, r, top);
    } else {
      NoStallEntry(p, c, r, top);
    }
  }

  /** IDLE to RECORDING. */
  lemma StartCapture(p: Execution, c: Core, r: nat)
    requires WellBehaved(p) && FrontEnd(p, c) && OnPath(p, c, r) && Chained(c) && TableSound(p, HeadIndex(c, r), c.bp)
    requires c.lb.phase == LB.Idle && Armed(Next(p.imem, c).lb)
    ensures LoopInvariant(p, Next(p.imem, c))
  {
    hide Decode, ImmGen, Fetch, Rs1, Rs2, Rd, Funct3, Run, Resolved, ReadReg, ExOut, FlushTarget, ActualTaken, Add,
         InstructionOut, BP.PredictTaken, BP.PredictTarget, NextRegs, NextRam, NextMemWb, FwdRs2, ReadPort, NextExMem,
         StraightLoop, WellBehaved, IsControlFlow, FrontEnd, OnPath, Chained, TableSound, InstructionIn, Flush, Stall,
         Resolving, LoopHolds;
    var top := BP.PredictTarget(c.bp, c.pc);
    EntryFacts(p, c, r, top);
    PlusFour(c.pc);
    if StraightLoop(p, top, c.pc) {
      CaptureStarts(p, c.bp, top, c.pc, c.lb.slots, NextIfId(p.imem, c), NextIdEx(c));
    } else {
      CaptureStartsLong(p, NextBp(c), top, c.pc, c.lb.slots, NextIfId(p.imem, c), NextIdEx(c));
    }
  }

  lemma PlusFour(pc: Word)
    requires pc + 4 < TWO_TO_32
    ensures Add(pc, 4) == pc + 4
  {
  }

  /** The capture slots after one more word. */
  lemma CaptureStep(imem: InstrMem, lb: LB.LoopState, lb': LB.LoopState, word: Word)
    requires CapturedUpTo(imem, lb) && lb.writePtr < 16 && lb.start + 4 * lb.writePtr < lb.end
    requires lb.end % 4 == 0 && lb.start % 4 == 0
    requires word == Fetch(imem, lb.start + 4 * lb.writePtr)
    requires lb'.start == lb.start && lb'.end == lb.end && lb'.writePtr == lb.writePtr + 1
    requires lb'.slots == lb.slots[lb.writePtr := word]
    ensures CapturedUpTo(imem, lb')
  {
    hide Fetch;
  }

  /** Where fetch goes next inside an armed straight loop. */
  lemma LoopPc(p: Execution, c: Core, r: nat)
    requires WellBehaved(p) && TableSound(p, HeadIndex(c, r), c.bp) && StraightArmed(p, c) && FrontEnd(p, c)
    requires !Flush(c)
    ensures NextPc(c) == if Stall(c) then c.pc else if c.pc == LoopBranch(c.lb) then c.lb.start else c.pc + 4
    ensures Stall(c) ==> c.ifid.valid
    ensures NextIfId(p.imem, c).valid ==>
              LoopInstr(c.lb, NextIfId(p.imem, c).pc, NextIfId(p.imem, c).predTaken, NextIfId(p.imem, c).predTarget)
    ensures NextIdEx(c).valid ==> LoopInstr(c.lb, NextIdEx(c).pc, NextIdEx(c).predTaken, NextIdEx(c).predTarget)
  {
    LoopFetch(p, c, r);
    if Stall(c) {
      StallNeedsLoad(p, c);
    }
    hide Decode, ImmGen, Fetch, Rs1, Rs2, Rd, Funct3, Run, Resolved, Flush, Stall, InstructionOut, BP.PredictTaken,
         BP.PredictTarget, ReadPort, StraightLoop, WellBehaved, IsControlFlow, FrontEnd, TableSound, CapturedUpTo, Add;
  }

  /** The fields of an armed buffer after a clock edge that leaves it armed. */
  lemma ArmedBuffer(p: Execution, c: Core)
    requires LoopInvariant(p, c) && Armed(c.lb) && c.lb.start % 4 == 0 && LoopBranch(c.lb) % 4 == 0
    requires c.lb.phase == LB.Recording ==> c.pc == c.lb.start + 4 * c.lb.writePtr && c.pc < c.lb.end
    requires c.lb.phase == LB.Looping ==> c.lb.end == c.lb.start + 4 * c.lb.writePtr
    requires Armed(LB.Next(c.lb, LoopInputs(p.imem, c)))
    ensures var lb' := LB.Next(c.lb, LoopInputs(p.imem, c));
            && !Flush(c) && lb'.start == c.lb.start && lb'.end == c.lb.end && CapturedUpTo(p.imem, lb')
            && (lb'.phase == LB.Recording ==>
                  lb'.start + 4 * lb'.writePtr == if Stall(c) then c.pc else c.pc + 4)
            && (lb'.phase == LB.Looping ==> lb'.end == lb'.start + 4 * lb'.writePtr)
            && (c.lb.phase == LB.Looping ==> lb' == c.lb)
            && (lb'.phase == LB.Recording && !Stall(c) ==> c.pc != LoopBranch(c.lb) && c.lb.writePtr < 16)
            && (c.lb.phase == LB.Recording && lb'.phase == LB.Looping ==> c.pc == LoopBranch(c.lb) && c.lb.writePtr < 16)
  {
    var lb' := LB.Next(c.lb, LoopInputs(p.imem, c));
    hide Fetch, Run, Resolved, Flush, Stall, BP.PredictTaken, BP.PredictTarget, InstructionIn, LoopInstr, CapturedUpTo,
         Sub, Add, StraightLoop, StraightHolds;
    LoopEnd(c.lb);
    CapturedBounds(p.imem, c.lb);
    if c.lb.phase == LB.Recording && !Stall(c) {
      UngatedFetch(p.imem, c);
      CaptureStep(p.imem, c.lb, lb', InstructionIn(p.imem, c));
    }
  }

  lemma StraightPosition(p: Execution, c: Core)
    requires StraightArmed(p, c)
    ensures c.lb.phase == LB.Recording ==> c.pc == c.lb.start + 4 * c.lb.writePtr && c.pc < c.lb.end
    ensures c.lb.phase == LB.Looping ==> c.lb.end == c.lb.start + 4 * c.lb.writePtr
  {
    hide Resolved, BP.PredictTaken, BP.PredictTarget, LoopInstr, CapturedUpTo, StraightLoop;
  }

  /** RECORDING and LOOPING of a straight loop. */
  lemma ArmedStep(p: Execution, c: Core, r: nat)
    requires WellBehaved(p) && FrontEnd(p, c) && OnPath(p, c, r) && Chained(c) && TableSound(p, HeadIndex(c, r), c.bp)
    requires StraightArmed(p, c) && Armed(Next(p.imem, c).lb)
    ensures LoopInvariant(p, Next(p.imem, c))
  {
    hide Decode, ImmGen, Fetch, Rs1, Rs2, Rd, Funct3, Run, Resolved, ReadReg, ExOut, FlushTarget, ActualTaken, Add,
         InstructionOut, BP.PredictTaken, BP.PredictTarget, NextRegs, NextRam, NextMemWb, FwdRs2, ReadPort, NextPc,
         NextIfId, NextIdEx, NextBp, NextExMem, Sub, LoopInputs, LB.Next,
         StraightLoop, WellBehaved, IsControlFlow, FrontEnd, OnPath, Chained, TableSound, InstructionIn, Flush, Stall,
         Resolving, CapturedUpTo;
    LoopAligned(p, c);
    StraightPosition(p, c);
    ArmedBuffer(p, c);
    FrontEndAligned(p, c);
    LoopPc(p, c, r);
    PredictionKept(p, c, r);
  }

  /** A word of the first 16 of an overflowing loop. */
  lemma LongWord(p: Execution, top: Word, branch: Word, x: Word)
    requires OverflowingLoop(p, top, branch) && top <= x < top + 64 && x % 4 == 0
    ensures !IsControlFlow(Fetch(p.imem, x)) && x < branch && Add(x, 4) == x + 4
  {
    hide Fetch, IsControlFlow, NoEntry, NoTransferStall;
  }

  lemma LongPosition(p: Execution, c: Core)
    requires WellBehaved(p) && LoopInvariant(p, c) && Armed(c.lb) && 0 <= LoopBranch(c.lb)
    requires !StraightLoop(p, c.lb.start, LoopBranch(c.lb)) && c.pc % 4 == 0
    ensures c.lb.phase == LB.Recording && c.pc == c.lb.start + 4 * c.lb.writePtr && c.pc < c.lb.end
    ensures c.lb.writePtr < 16 ==> c.pc < LoopBranch(c.lb) && !IsControlFlow(Fetch(p.imem, c.pc)) && Add(c.pc, 4) == c.pc + 4
  {
    hide Resolved, Fetch, IsControlFlow, WellBehaved, StraightLoop, OverflowingLoop, CapturedUpTo, StraightHolds;
    LoopAligned(p, c);
    LongBounds(p, c.lb.start, LoopBranch(c.lb));
    CapturedBounds(p.imem, c.lb);
    if c.lb.writePtr < 16 {
      LongWord(p, c.lb.start, LoopBranch(c.lb), c.pc);
    }
  }

  lemma LongBounds(p: Execution, top: Word, branch: Word)
    requires OverflowingLoop(p, top, branch)
    ensures top + 64 <= branch
  {
    hide Fetch, IsControlFlow, NoEntry, NoTransferStall, StraightWords;
  }

  /** RECORDING of an overflowing loop: it goes straight on until the buffer is
      full. */
  lemma LongStep(p: Execution, c: Core, r: nat)
    requires WellBehaved(p) && FrontEnd(p, c) && TableSound(p, HeadIndex(c, r), c.bp)
    requires LoopInvariant(p, c) && Armed(c.lb) && 0 <= LoopBranch(c.lb)
    requires !StraightLoop(p, c.lb.start, LoopBranch(c.lb)) && Armed(Next(p.imem, c).lb)
    ensures LoopInvariant(p, Next(p.imem, c))
  {
    hide Decode, ImmGen, Fetch, Rs1, Rs2, Rd, Funct3, Run, Resolved, ReadReg, ExOut, FlushTarget, ActualTaken, Add,
         InstructionOut, BP.PredictTaken, BP.PredictTarget, NextRegs, NextRam, NextMemWb, FwdRs2, ReadPort,
         NextIfId, NextIdEx, NextBp, NextExMem, Sub, LoopInputs, LB.Next,
         StraightLoop, WellBehaved, IsControlFlow, FrontEnd, TableSound, InstructionIn, Flush, Stall,
         Resolving, CapturedUpTo, StraightHolds;
    FrontEndAligned(p, c);
    LongPosition(p, c);
    LoopAligned(p, c);
    ArmedBuffer(p, c);
    if !Stall(c) && c.lb.writePtr < 16 {
      NotPredicted(p, c, r);
    }
  }

  lemma FrontEndAligned(p: Execution, c: Core)
    requires FrontEnd(p, c)
    ensures c.pc % 4 == 0
  {
  }

  lemma LoopEnd(lb: LB.LoopState)
    requires 4 <= lb.end
    ensures Sub(lb.end, 4) == lb.end - 4
  {
  }

  lemma CapturedBounds(imem: InstrMem, lb: LB.LoopState)
    requires CapturedUpTo(imem, lb)
    ensures lb.writePtr <= 16 && lb.start + 4 * lb.writePtr <= lb.end
  {
  }

  lemma UngatedFetch(imem: InstrMem, c: Core)
    requires c.lb.phase != LB.Looping
    ensures InstructionIn(imem, c) == Fetch(imem, c.pc)
  {
  }

  lemma NotArmedStep(p: Execution, c: Core)
    requires c.lb.phase == LB.Invalid
    ensures !Armed(Next(p.imem, c).lb)
  {
  }

  lemma LoopStep(p: Execution, c: Core, r: nat)
    requires WellBehaved(p) && Inv(p, c, r)
    ensures LoopInvariant(p, Next(p.imem, c))
  {
    hide Next, WellBehaved, FrontEnd, OnPath, Chained, TableSound, LoopHolds, BackEnd, StraightLoop, CleanLoop;
    if Armed(Next(p.imem, c).lb) {
      match c.lb.phase
      case Idle => StartCapture(p, c, r);
      case Invalid => NotArmedStep(p, c);
      case _ =>
        LoopAligned(p, c);
        if StraightLoop(p, c.lb.start, LoopBranch(c.lb)) {
          ArmedStep(p, c, r);
        } else {
          LongStep(p, c, r);
        }
    }
  }
}
