/**
 The front end on its own. In a short program whose branches are all taken come
 what may, fetch, ID and EX run without the registers: a run can be followed
 cycle by cycle on word numbers, and the core is proved to follow it.
 */
module FetchTrace {
  import opened Words
  import opened Datapath
  import opened Sequential
  import opened Execution
  import opened Core
  import opened Refinement
  import BP = Predictor
  import LB = LoopBuffer

  // ---- programs of at most 64 words, one predictor entry each ----

  /** An instruction as the front end sees it; a jump goes offset words on. */
  datatype Op = Op(jump: bool, offset: int, load: bool, rs1: RegIdx, rs2: RegIdx, rd: RegIdx)

  const NOP_OP := Op(false, 0, false, 0, 0, 0)

  /** No branch or jump, jal, or beq x0, x0. */
  predicate Unconditional(w: Word) {
    !IsControlFlow(w) || Opcode(w) == OP_JAL || (Opcode(w) == OP_BRANCH && Funct3(w) == 0 && Rs1(w) == 0 && Rs2(w) == 0)
  }

  predicate Encodes(w: Word, o: Op) {
    && Unconditional(w) && IsControlFlow(w) == o.jump && (o.jump ==> ImmGen(w) == Wrap(4 * o.offset))
    && Decode(w).memRead == o.load && Rs1(w) == o.rs1 && Rs2(w) == o.rs2 && Rd(w) == o.rd
  }

  function OpAt(ops: seq<Op>, a: int): Op {
    if 0 <= a < |ops| then ops[a] else NOP_OP
  }

  predicate Holds(imem: InstrMem, ops: seq<Op>) {
    forall i :: 0 <= i < 64 ==> Encodes(imem[i], OpAt(ops, i))
  }

  // ---- the front end on word numbers ----

  /** ID or EX: the word of number src, fetched for number pc. */
  datatype Slot = Empty | Held(pc: int, src: int, taken: bool, target: int)

  /** What the predictor has learnt, the latest first. */
  datatype Known = Nothing | Learnt(pc: int, target: int, rest: Known)

  datatype Phase = Idle | Recording(start: int, end: int) | Looping(start: int, end: int) | Invalid

  datatype Front = Front(pc: int, frozen: int, id: Slot, ex: Slot, known: Known, phase: Phase, captured: seq<int>)

  predicate Knows(k: Known, pc: int) {
    k.Learnt? && (k.pc == pc || Knows(k.rest, pc))
  }

  function TargetOf(k: Known, pc: int): int {
    if k.Nothing? then 0 else if k.pc == pc then k.target else TargetOf(k.rest, pc)
  }

  function Resolved(ops: seq<Op>, f: Front): int {
    if f.ex.Held? then f.ex.pc + OpAt(ops, f.ex.src).offset else 0
  }

  predicate Jumps(ops: seq<Op>, f: Front) {
    f.ex.Held? && OpAt(ops, f.ex.src).jump
  }

  predicate Flushes(ops: seq<Op>, f: Front) {
    Jumps(ops, f) && !(f.ex.taken && f.ex.target == Resolved(ops, f))
  }

  predicate Stalls(ops: seq<Op>, f: Front) {
    f.id.Held? && f.ex.Held? &&
    var d, x := OpAt(ops, f.id.src), OpAt(ops, f.ex.src);
    LoadUseHazard(d.rs1, d.rs2, x.load, x.rd)
  }

  function Bus(f: Front): int {
    if f.phase.Looping? then f.frozen else f.pc
  }

  /** Number of the word that enters ID. */
  function Fetched(f: Front): int {
    if f.phase.Looping? && f.phase.start <= f.pc < f.phase.end && (f.pc - f.phase.start) % 16 < |f.captured|
    then f.captured[(f.pc - f.phase.start) % 16]
    else Bus(f)
  }

  function Learn(k: Known, pc: int, target: int): Known {
    if Knows(k, pc) && TargetOf(k, pc) == target then k else Learnt(pc, target, k)
  }

  function NextPhase(ops: seq<Op>, f: Front): Phase {
    match f.phase
    case Idle =>
      if !Flushes(ops, f) && Knows(f.known, f.pc) && TargetOf(f.known, f.pc) < f.pc
      then Recording(TargetOf(f.known, f.pc), f.pc + 1) else Idle
    case Recording(start, end) =>
      if Flushes(ops, f) then Invalid
      else if Stalls(ops, f) then f.phase
      else if |f.captured| >= 16 then Invalid
      else if f.pc == end - 1 then Looping(start, end) else f.phase
    case Looping(start, end) =>
      if Flushes(ops, f) || f.pc < start || f.pc >= end then Invalid else f.phase
    case Invalid => Idle
  }

  function NextCaptured(ops: seq<Op>, f: Front): seq<int> {
    match f.phase
    case Recording(_, _) =>
      if !Flushes(ops, f) && !Stalls(ops, f) && |f.captured| < 16 then f.captured + [Bus(f)] else f.captured
    case Looping(_, _) => f.captured
    case _ => []
  }

  function FrontNext(ops: seq<Op>, f: Front): Front {
    var flush, stall := Flushes(ops, f), Stalls(ops, f);
    var taken, target := Knows(f.known, f.pc), TargetOf(f.known, f.pc);
    Front(
      if flush then Resolved(ops, f) else if stall then f.pc else if taken then target else f.pc + 1,
      if f.phase.Looping? then f.frozen else f.pc,
      if flush then Empty else if stall then f.id else Held(f.pc, Fetched(f), taken, target),
      if flush || stall then Empty else f.id,
      if Jumps(ops, f) then Learn(f.known, f.ex.pc, Resolved(ops, f)) else f.known,
      NextPhase(ops, f),
      NextCaptured(ops, f))
  }

  const RESET_FRONT := Front(0, 0, Empty, Empty, Nothing, Idle, [])

  // ---- everything within the 64 words ----

  predicate Small(a: int) {
    0 <= a < 64
  }

  predicate SmallSlot(s: Slot) {
    s.Held? ==> Small(s.pc) && Small(s.src) && (s.taken ==> Small(s.target))
  }

  predicate SmallKnown(k: Known) {
    k.Learnt? ==> Small(k.pc) && Small(k.target) && SmallKnown(k.rest)
  }

  predicate SmallFront(ops: seq<Op>, f: Front) {
    && Small(f.pc) && Small(f.frozen) && SmallSlot(f.id) && SmallSlot(f.ex) && SmallKnown(f.known)
    && (Jumps(ops, f) ==> Small(Resolved(ops, f)))
    && (forall k :: 0 <= k < |f.captured| ==> Small(f.captured[k]))
  }

  // ---- what the core shows of it ----

  predicate IdShows(imem: InstrMem, d: IfId, s: Slot) {
    match s
    case Empty => d == IFID_BUBBLE
    case Held(pc, src, taken, target) =>
      && SmallSlot(s)
      && d == IfId(true, 4 * pc, 4 * pc + 4, imem[src], taken, d.predTarget) && (taken ==> d.predTarget == 4 * target)
  }

  predicate ExHolds(x: IdEx, pc: Word, w: Word) {
    && x.valid && x.pc == pc && x.pcPlus4 == Add(pc, 4) && x.imm == ImmGen(w) && x.funct3 == Funct3(w)
    && x.ctrl == Decode(w) && x.rs1 == Rs1(w) && x.rs2 == Rs2(w) && x.rd == Rd(w)
    && (x.rs1 == 0 ==> x.rs1Data == 0) && (x.rs2 == 0 ==> x.rs2Data == 0)
  }

  predicate ExShows(imem: InstrMem, x: IdEx, s: Slot) {
    match s
    case Empty => !x.valid && !x.ctrl.memRead
    case Held(pc, src, taken, target) =>
      SmallSlot(s) && ExHolds(x, 4 * pc, imem[src]) && x.predTaken == taken && (taken ==> x.predTarget == 4 * target)
  }

  predicate EntryShows(e: BP.Entry, k: Known, a: int) {
    && e.counter >= 1
    && (e.valid == Knows(k, a))
    && (e.valid ==> e.tag == 0 && e.counter >= 2 && e.target == 4 * TargetOf(k, a))
  }

  predicate TableShows(t: BP.Table, k: Known) {
    forall a :: 0 <= a < 64 ==> EntryShows(t[a], k, a)
  }

  predicate SlotsShow(imem: InstrMem, lb: LB.LoopState, captured: seq<int>) {
    && |captured| <= 16 && lb.writePtr == |captured|
    && forall k :: 0 <= k < |captured| ==> Small(captured[k]) && lb.slots[k] == imem[captured[k]]
  }

  predicate BufferShows(imem: InstrMem, lb: LB.LoopState, f: Front) {
    match f.phase
    case Idle => lb.phase == LB.Idle
    case Invalid => lb.phase == LB.Invalid
    case Recording(start, end) =>
      lb.phase == LB.Recording && Small(start) && 1 <= end <= 64 && lb.start == 4 * start && lb.end == 4 * end
      && SlotsShow(imem, lb, f.captured)
    case Looping(start, end) =>
      lb.phase == LB.Looping && Small(start) && 1 <= end <= 64 && lb.start == 4 * start && lb.end == 4 * end
      && SlotsShow(imem, lb, f.captured)
  }

  predicate Shows(imem: InstrMem, c: Core, f: Front) {
    && Small(f.pc) && Small(f.frozen) && c.pc == 4 * f.pc && c.frozen == 4 * f.frozen
    && IdShows(imem, c.ifid, f.id) && ExShows(imem, c.idex, f.ex)
    && TableShows(c.bp, f.known) && BufferShows(imem, c.lb, f)
  }

  // ---- EX ----

  lemma ZeroOperand(c: Core, rs: RegIdx, latched: Word)
    requires rs == 0 && latched == 0
    ensures Operand(c, rs, latched) == 0
  {
    hide WbData, ExMemForward;
  }

  lemma EqualOperandsTaken()
    ensures Sub(0, 0) == 0
  {
  }

  /** EX resolves an unconditional word without its operands. */
  lemma ExResolves(c: Core, pc: Word, w: Word)
    requires ExHolds(c.idex, pc, w) && Unconditional(w)
    ensures Resolving(c) == IsControlFlow(w) && ActualTaken(c) == IsControlFlow(w)
    ensures IsControlFlow(w) ==> ExOut(c).target == Add(pc, ImmGen(w))
  {
    ControlFlowByDecode(w);
    EqualOperandsTaken();
    if Opcode(w) == OP_BRANCH && IsControlFlow(w) {
      ZeroOperand(c, c.idex.rs1, c.idex.rs1Data);
      ZeroOperand(c, c.idex.rs2, c.idex.rs2Data);
    }
    hide Operand, ImmGen, Rs1, Rs2, Rd, Opcode, Funct3, Funct7, Add, Sub, AluOverflow, SignBit, Bitwise32, ShiftLeft,
         ShiftRight, ShiftRightArith, Signed, AluControlReg, AluControlImm;
  }

  lemma EmptyResolves(c: Core)
    requires !c.idex.valid
    ensures !Resolving(c) && !ActualTaken(c) && !Flush(c)
  {
    hide ExOut;
  }

  lemma JumpTarget(a: int, offset: int)
    requires Small(a) && Small(a + offset)
    ensures Add(4 * a, Wrap(4 * offset)) == 4 * (a + offset)
  {
    WrapIsSelf(4 * (a + offset), offset);
  }

  lemma WrapIsSelf(sum: int, offset: int)
    requires 0 <= sum < 256
    ensures Wrap(sum - 4 * offset + Wrap(4 * offset)) == sum
  {
  }

  lemma OpHeld(imem: InstrMem, ops: seq<Op>, a: int)
    requires Holds(imem, ops) && Small(a)
    ensures Encodes(imem[a], OpAt(ops, a))
  {
  }

  lemma EncodesParts(w: Word, o: Op)
    requires Encodes(w, o)
    ensures Unconditional(w) && IsControlFlow(w) == o.jump && (o.jump ==> ImmGen(w) == Wrap(4 * o.offset))
    ensures Decode(w).memRead == o.load && Rs1(w) == o.rs1 && Rs2(w) == o.rs2 && Rd(w) == o.rd
  {
  }

  lemma FlushShown(imem: InstrMem, ops: seq<Op>, c: Core, f: Front)
    requires Holds(imem, ops) && Shows(imem, c, f) && SmallFront(ops, f)
    ensures Flush(c) == Flushes(ops, f) && Resolving(c) == Jumps(ops, f)
    ensures Jumps(ops, f) ==> ActualTaken(c) && ExOut(c).target == 4 * Resolved(ops, f) && c.idex.pc == 4 * f.ex.pc
    ensures Flush(c) ==> FlushTarget(c) == 4 * Resolved(ops, f)
  {
    hide Holds, Encodes, ExHolds, ExOut, Add, Unconditional, ActualTaken, Resolving, IsControlFlow, TableShows,
         BufferShows, ImmGen, Wrap, OpAt, SmallKnown;
    if f.ex.Held? {
      OpHeld(imem, ops, f.ex.src);
      EncodesParts(imem[f.ex.src], OpAt(ops, f.ex.src));
      ExResolves(c, 4 * f.ex.pc, imem[f.ex.src]);
      ExPc(c.idex, 4 * f.ex.pc, imem[f.ex.src]);
      if Jumps(ops, f) {
        JumpTarget(f.ex.pc, OpAt(ops, f.ex.src).offset);
      }
    } else {
      EmptyResolves(c);
    }
  }

  lemma ExPc(x: IdEx, pc: Word, w: Word)
    requires ExHolds(x, pc, w)
    ensures x.valid && x.pc == pc && x.ctrl.memRead == Decode(w).memRead && x.rd == Rd(w)
  {
  }

  lemma BubbleFields()
    ensures Rs1(0) == 0 && Rs2(0) == 0
  {
  }

  lemma StallShown(imem: InstrMem, ops: seq<Op>, c: Core, f: Front)
    requires Holds(imem, ops) && Shows(imem, c, f)
    ensures Stall(c) == Stalls(ops, f)
  {
    hide Holds, Encodes, ExHolds, TableShows, BufferShows, OpAt, Rs1, Rs2, Rd, Decode;
    BubbleFields();
    if f.id.Held? {
      OpHeld(imem, ops, f.id.src);
      EncodesParts(imem[f.id.src], OpAt(ops, f.id.src));
    }
    if f.ex.Held? {
      OpHeld(imem, ops, f.ex.src);
      EncodesParts(imem[f.ex.src], OpAt(ops, f.ex.src));
      ExPc(c.idex, 4 * f.ex.pc, imem[f.ex.src]);
    }
  }

  // ---- ID to EX ----

  lemma HeldShown(imem: InstrMem, x: IdEx, s: Slot)
    requires s.Held? && SmallSlot(s) && x.predTaken == s.taken && (s.taken ==> x.predTarget == 4 * s.target)
    requires var w := imem[s.src];
             && x == IdEx(true, 4 * s.pc, 4 * s.pc + 4, x.rs1Data, x.rs2Data, ImmGen(w), Rs1(w), Rs2(w), Rd(w), Funct3(w),
                          x.predTaken, x.predTarget, Decode(w))
             && (Rs1(w) == 0 ==> x.rs1Data == 0) && (Rs2(w) == 0 ==> x.rs2Data == 0)
    ensures ExShows(imem, x, s)
  {
    hide ImmGen, Rs1, Rs2, Rd, Funct3, Decode;
  }

  lemma IdExShown(imem: InstrMem, c: Core, f: Front)
    requires Shows(imem, c, f) && !Flush(c) && !Stall(c)
    ensures ExShows(imem, NextIdEx(c), f.id)
  {
    hide ImmGen, Rs1, Rs2, Rd, Funct3, Decode, Flush, Stall, WbData, ExHolds, TableShows, BufferShows;
    if f.id.Held? {
      HeldShown(imem, NextIdEx(c), f.id);
    }
  }

  lemma SquashShown(imem: InstrMem, c: Core)
    requires Flush(c) || Stall(c)
    ensures ExShows(imem, NextIdEx(c), Empty)
  {
    hide Flush, Stall;
  }

  // ---- IF ----

  lemma IndexOfSmall(a: int)
    requires Small(a)
    ensures BP.Index(4 * a) == a && BP.Tag(4 * a) == 0
  {
  }

  lemma PredictionShown(t: BP.Table, k: Known, a: int)
    requires TableShows(t, k) && Small(a)
    ensures BP.PredictTaken(t, 4 * a) == Knows(k, a)
    ensures Knows(k, a) ==> BP.PredictTarget(t, 4 * a) == 4 * TargetOf(k, a)
  {
    IndexOfSmall(a);
    hide BP.Index, BP.Tag, Knows, TargetOf;
  }

  lemma LearnFacts(k: Known, pc: int, target: int, a: int)
    ensures Knows(Learn(k, pc, target), a) == (a == pc || Knows(k, a))
    ensures TargetOf(Learn(k, pc, target), a) == (if a == pc then target else TargetOf(k, a))
  {
  }

  lemma TrainingShown(t: BP.Table, k: Known, pc: int, target: int)
    requires TableShows(t, k) && Small(pc) && Small(target)
    ensures TableShows(BP.Train(t, 4 * pc, true, 4 * target), Learn(k, pc, target))
  {
    IndexOfSmall(pc);
    hide BP.Index, BP.Tag, Knows, TargetOf, Learn;
    forall a | 0 <= a < 64
      ensures EntryShows(BP.Train(t, 4 * pc, true, 4 * target)[a], Learn(k, pc, target), a)
    {
      assert EntryShows(t[a], k, a);
      LearnFacts(k, pc, target, a);
    }
  }

  lemma BusShown(imem: InstrMem, c: Core, f: Front)
    requires Shows(imem, c, f)
    ensures Small(Bus(f)) && InstructionIn(imem, c) == imem[Bus(f)]
  {
    hide IdShows, ExShows, TableShows, SlotsShow;
  }

  lemma GatedShown(imem: InstrMem, c: Core, f: Front)
    requires Shows(imem, c, f)
    ensures LB.Gated(c.lb) == f.phase.Looping?
  {
    hide IdShows, ExShows, TableShows, SlotsShow;
  }

  lemma OffsetShown(lb: LB.LoopState, pc: int, start: int)
    requires Small(pc) && Small(start) && start <= pc && lb.start == 4 * start
    ensures LB.ReadIndex(lb, 4 * pc) == (pc - start) % 16
  {
  }

  lemma FetchShown(imem: InstrMem, c: Core, f: Front)
    requires Shows(imem, c, f)
    ensures Small(Fetched(f)) && InstructionOut(imem, c) == imem[Fetched(f)]
  {
    BusShown(imem, c, f);
    if f.phase.Looping? && f.phase.start <= f.pc < f.phase.end {
      OffsetShown(c.lb, f.pc, f.phase.start);
    }
    hide IdShows, ExShows, TableShows, InstructionIn, LB.ReadIndex, Bus;
  }

  lemma WordPlusOne(a: int)
    requires Small(a)
    ensures Add(4 * a, 4) == 4 * (a + 1) && Sub(4 * (a + 1), 4) == 4 * a
  {
  }

  lemma PhaseShown(imem: InstrMem, ops: seq<Op>, c: Core, f: Front)
    requires Shows(imem, c, f) && SmallFront(ops, f)
    requires Flush(c) == Flushes(ops, f) && Stall(c) == Stalls(ops, f)
    ensures BufferShows(imem, LB.Next(c.lb, LoopInputs(imem, c)), FrontNext(ops, f))
  {
    hide IdShows, ExShows, InstructionIn, Flush, Stall, Flushes, Stalls, Bus, Knows, TargetOf, Add, Sub,
         BP.PredictTaken, BP.PredictTarget, Resolved, Jumps, TableShows, Fetched;
    BusShown(imem, c, f);
    PredictionShown(c.bp, f.known, f.pc);
    KnownSmall(f.known, f.pc);
    WordPlusOne(f.pc);
    if f.phase.Recording? {
      WordPlusOne(f.phase.end - 1);
    }
  }

  lemma KnownSmall(k: Known, a: int)
    requires SmallKnown(k)
    ensures Knows(k, a) ==> Small(TargetOf(k, a))
  {
  }

  // ---- one clock edge, and whole runs ----

  lemma FrontStep(imem: InstrMem, ops: seq<Op>, c: Core, f: Front)
    requires Holds(imem, ops) && Shows(imem, c, f) && SmallFront(ops, f) && Small(FrontNext(ops, f).pc)
    ensures Shows(imem, Next(imem, c), FrontNext(ops, f))
  {
    hide Flush, Stall, Flushes, Stalls, NextIdEx, NextExMem, NextMemWb, NextRegs, NextRam, LB.Next, BP.Train,
         BP.PredictTaken, BP.PredictTarget, Add, FlushTarget, ExShows, TableShows, BufferShows, Knows, TargetOf,
         InstructionOut, Resolved, Holds, ActualTaken, Resolving, ExOut, LoopInputs, NextPhase, NextCaptured, Learn,
         Fetched, SmallKnown;
    FlushShown(imem, ops, c, f);
    StallShown(imem, ops, c, f);
    GatedShown(imem, c, f);
    FetchShown(imem, c, f);
    PredictionShown(c.bp, f.known, f.pc);
    KnownSmall(f.known, f.pc);
    WordPlusOne(f.pc);
    PhaseShown(imem, ops, c, f);
    if Jumps(ops, f) {
      TrainingShown(c.bp, f.known, f.ex.pc, Resolved(ops, f));
    }
    if !Flush(c) && !Stall(c) {
      IdExShown(imem, c, f);
    } else {
      SquashShown(imem, c);
    }
  }

  ghost predicate ShownAt(p: Execution, slots: LB.Slots, n: nat, f: Front) {
    Shows(p.imem, Reached(p, slots, n), f)
  }

  lemma ResetShown(p: Execution, slots: LB.Slots)
    ensures ShownAt(p, slots, 0, RESET_FRONT)
  {
  }

  /** One more cycle of a run followed so far. */
  lemma Follow(p: Execution, slots: LB.Slots, ops: seq<Op>, n: nat, f: Front, f': Front)
    requires Holds(p.imem, ops) && ShownAt(p, slots, n, f)
    requires SmallFront(ops, f) && Small(f'.pc) && FrontNext(ops, f) == f'
    ensures ShownAt(p, slots, n + 1, f')
  {
    hide Next, FrontNext, Shows, Reset, SmallFront, Holds;
    FrontStep(p.imem, ops, Reached(p, slots, n), f);
  }
}
