/**
 What every reachable state of the core satisfies, relative to the sequential
 run of the same program. The number r of retired instructions is the index of
 the instruction in WB; the other stages hold the ones that follow it.
 */
module Invariant {
  import opened Words
  import opened Datapath
  import opened Sequential
  import opened Execution
  import opened Core
  import BP = Predictor
  import LB = LoopBuffer

  // ---- program-order indices of the stages ----

  function MemIndex(c: Core, r: nat): nat {
    if c.memwb.valid then r + 1 else r
  }

  /** Index of the oldest instruction that has not left EX: the one in EX if
      there is one, else the one in ID, else the one being fetched. */
  function HeadIndex(c: Core, r: nat): nat {
    MemIndex(c, r) + if c.exmem.valid then 1 else 0
  }

  // ---- contents of the stages ----

  ghost predicate WbMatches(p: Execution, m: MemWb, k: nat) {
    var s, w := p.At(k), p.WordAt(k);
    && m.pc == s.pc && m.pcPlus4 == Add(s.pc, 4) && m.alu == Outcome(w, s).alu && m.imm == ImmGen(w)
    && m.rd == Rd(w) && m.load == LoadedValue(w, s)
    && m.regWrite == Decode(w).regWrite && m.memToReg == Decode(w).memToReg
    && m.jump == Decode(w).jump && m.lui == Decode(w).lui
  }

  ghost predicate MemMatches(p: Execution, m: ExMem, k: nat) {
    var s, w := p.At(k), p.WordAt(k);
    && m.pc == s.pc && m.pcPlus4 == Add(s.pc, 4) && m.alu == Outcome(w, s).alu && m.imm == ImmGen(w)
    && m.rd == Rd(w) && m.storeData == StoredValue(w, s)
    && m.regWrite == Decode(w).regWrite && m.memToReg == Decode(w).memToReg
    && m.memRead == Decode(w).memRead && m.memWrite == Decode(w).memWrite
    && m.jump == Decode(w).jump && m.lui == Decode(w).lui
  }

  /** The latched operands are the ones the register file holds now. */
  ghost predicate ExMatches(p: Execution, x: IdEx, regs: Regs) {
    var w := Fetch(p.imem, x.pc);
    && x.pcPlus4 == Add(x.pc, 4) && x.imm == ImmGen(w) && x.rs1 == Rs1(w) && x.rs2 == Rs2(w) && x.rd == Rd(w)
    && x.funct3 == Funct3(w) && x.ctrl == Decode(w)
    && x.rs1Data == ReadReg(regs, x.rs1) && x.rs2Data == ReadReg(regs, x.rs2)
    && PredictionSound(p, x.pc, x.predTaken, x.predTarget)
  }

  ghost predicate IdMatches(p: Execution, d: IfId) {
    && d.instr == Fetch(p.imem, d.pc) && d.pcPlus4 == Add(d.pc, 4)
    && PredictionSound(p, d.pc, d.predTaken, d.predTarget)
  }

  ghost predicate PredictionSound(p: Execution, pc: Word, taken: bool, target: Word) {
    taken ==> Resolved(p, pc, target)
  }

  predicate Quiet(k: Control) {
    !k.regWrite && !k.memRead && !k.memWrite && !k.branch && !k.jump
  }

  /** MEM and WB hold the instructions at their indices; the register file and
      the data memory are the sequential machine's at those indices. */
  ghost predicate BackEnd(p: Execution, c: Core, r: nat) {
    && c.regs == p.At(r).regs
    && c.ram == p.At(MemIndex(c, r)).ram
    && (c.memwb.valid ==> WbMatches(p, c.memwb, r))
    && (if c.exmem.valid then MemMatches(p, c.exmem, MemIndex(c, r)) else !c.exmem.memWrite)
  }

  /** No load in MEM produces an operand of the instruction in EX. */
  predicate LoadSeparated(c: Core) {
    c.idex.valid && c.exmem.valid ==> !LoadUseHazard(c.idex.rs1, c.idex.rs2, c.exmem.memRead, c.exmem.rd)
  }

  /** ID and EX hold correctly fetched and decoded words, or bubbles. */
  ghost predicate FrontEnd(p: Execution, c: Core) {
    && (if c.idex.valid then ExMatches(p, c.idex, c.regs) else Quiet(c.idex.ctrl))
    && (if c.ifid.valid then IdMatches(p, c.ifid) else c.ifid == IFID_BUBBLE && !c.idex.valid)
    && LoadSeparated(c)
    && c.pc % 4 == 0
  }

  function PredictedNext(pc: Word, taken: bool, target: Word): Word {
    if taken then target else Add(pc, 4)
  }

  /** Each younger instruction is the predicted successor of the older one. */
  predicate Chained(c: Core) {
    && (c.ifid.valid ==> c.pc == PredictedNext(c.ifid.pc, c.ifid.predTaken, c.ifid.predTarget))
    && (c.idex.valid ==> c.ifid.pc == PredictedNext(c.idex.pc, c.idex.predTaken, c.idex.predTarget))
  }

  function HeadPc(c: Core): Word {
    if c.idex.valid then c.idex.pc else if c.ifid.valid then c.ifid.pc else c.pc
  }

  /** The head is on the sequential path, and an empty front end means the run
      lands on the fetch address. */
  ghost predicate OnPath(p: Execution, c: Core, r: nat) {
    && HeadPc(c) == p.At(HeadIndex(c, r)).pc
    && (!c.ifid.valid ==> LandsOn(p, HeadIndex(c, r)))
  }

  function EntryPc(tag: nat, index: nat): int {
    tag * 256 + index * 4
  }

  /** Every valid predictor entry names a branch or jump and a target it was
      taken to by one of the first n instructions. */
  ghost predicate EntrySound(p: Execution, n: nat, e: BP.Entry, i: nat) {
    e.valid ==> EntryPc(e.tag, i) < TWO_TO_32 && ResolvedBefore(p, n, EntryPc(e.tag, i), e.target)
  }

  ghost predicate TableSound(p: Execution, n: nat, t: BP.Table) {
    forall i :: 0 <= i < 64 ==> EntrySound(p, n, t[i], i)
  }

  // ---- the loop buffer ----

  predicate Armed(lb: LB.LoopState) {
    lb.phase == LB.Recording || lb.phase == LB.Looping
  }

  function LoopBranch(lb: LB.LoopState): int {
    lb.end - 4
  }

  predicate InLoop(lb: LB.LoopState, pc: Word) {
    lb.start <= pc <= LoopBranch(lb)
  }

  /** An instruction of the loop, and if it is the loop's own branch it was
      predicted taken to the top. */
  predicate LoopInstr(lb: LB.LoopState, pc: Word, taken: bool, target: Word) {
    InLoop(lb, pc) && (pc == LoopBranch(lb) ==> taken && target == lb.start)
  }

  predicate CapturedUpTo(imem: InstrMem, lb: LB.LoopState) {
    lb.writePtr <= 16 && lb.start + 4 * lb.writePtr <= lb.end &&
    forall j :: 0 <= j < lb.writePtr ==> lb.slots[j] == Fetch(imem, lb.start + 4 * j)
  }

  /** A straight loop keeps the front end inside it until a flush. */
  ghost predicate StraightHolds(lb: LB.LoopState, bp: BP.Table, pc: Word, d: IfId, x: IdEx) {
    && 0 <= LoopBranch(lb)
    && BP.PredictTaken(bp, LoopBranch(lb)) && BP.PredictTarget(bp, LoopBranch(lb)) == lb.start
    && InLoop(lb, pc)
    && (d.valid ==> LoopInstr(lb, d.pc, d.predTaken, d.predTarget))
    && (x.valid ==> LoopInstr(lb, x.pc, x.predTaken, x.predTarget))
    && if lb.phase == LB.Recording then pc == lb.start + 4 * lb.writePtr
       else lb.end == lb.start + 4 * lb.writePtr
  }

  ghost predicate LoopHolds(p: Execution, lb: LB.LoopState, bp: BP.Table, pc: Word, d: IfId, x: IdEx) {
    && 0 <= LoopBranch(lb)
    && Resolved(p, LoopBranch(lb), lb.start) && lb.start < LoopBranch(lb)
    && CapturedUpTo(p.imem, lb)
    && if StraightLoop(p, lb.start, LoopBranch(lb)) then StraightHolds(lb, bp, pc, d, x)
       else lb.phase == LB.Recording && pc == lb.start + 4 * lb.writePtr
  }

  ghost predicate LoopInvariant(p: Execution, c: Core) {
    Armed(c.lb) ==> LoopHolds(p, c.lb, c.bp, c.pc, c.ifid, c.idex)
  }

  ghost predicate Inv(p: Execution, c: Core, r: nat) {
    && BackEnd(p, c, r)
    && FrontEnd(p, c)
    && Chained(c)
    && OnPath(p, c, r)
    && TableSound(p, HeadIndex(c, r), c.bp)
    && LoopInvariant(p, c)
  }
}
