/**
 The golden model's view of a generated program: the same words loaded at
 another base address in one unified memory, with arbitrary registers left
 behind by a boot stub. Run for run it differs from the core only by the base.
 */
module Relocation {
  import opened Words
  import opened Datapath
  import opened Sequential
  import opened Execution
  import opened Generator
  import opened GeneratedRun
  import opened GeneratedClass
  import opened Equivalence
  import opened AddressWindow

  // ---- an RV32I machine whose 1024 words of memory start at base ----

  function InstrAt(base: Word, s: Arch): Word {
    ReadRam(s.ram, Sub(s.pc, base))
  }

  function LoadedAt(base: Word, w: Word, s: Arch): Word {
    if Decode(w).memRead then ReadRam(s.ram, Sub(Outcome(w, s).alu, base)) else 0
  }

  function RdValueAt(base: Word, w: Word, s: Arch): Word {
    var k := Decode(w);
    WriteBack(k.lui, k.jump, k.memToReg, ImmGen(w), Add(s.pc, 4), LoadedAt(base, w, s), Outcome(w, s).alu)
  }

  function StepRegsAt(base: Word, w: Word, s: Arch): Regs {
    if Decode(w).regWrite then WriteReg(s.regs, Rd(w), RdValueAt(base, w, s)) else s.regs
  }

  function StepRamAt(base: Word, w: Word, s: Arch): DataMem {
    if Decode(w).memWrite then WriteRam(s.ram, Sub(Outcome(w, s).alu, base), StoredValue(w, s)) else s.ram
  }

  function StepAt(base: Word, s: Arch): Arch {
    var w := InstrAt(base, s);
    Arch(StepPc(w, s), StepRegsAt(base, w, s), StepRamAt(base, w, s))
  }

  function RunAt(base: Word, s: Arch, k: nat): Arch {
    if k == 0 then s else StepAt(base, RunAt(base, s, k - 1))
  }

  // ---- states that differ by the base ----

  /** x0 .. x30 agree as far as the preamble has cleared them; x31 agrees when
      cleared and differs by the base once auipc has run. */
  ghost predicate RegsShifted(site: nat, base: Word, r0: Regs, r1: Regs) {
    && r0[0] == 0 && r1[0] == 0
    && (forall r :: 1 <= r <= 30 && r <= site ==> r1[r] == r0[r])
    && (site == PREAMBLE_WORDS ==> r1[31] == r0[31])
    && (site > PREAMBLE_WORDS ==> r1[31] == Add(r0[31], base))
  }

  /** The unified memory holds the text, and the words the program may touch are
      those of the separate data memory. */
  ghost predicate SameImage(imem: InstrMem, n: nat, ram0: DataMem, ram1: DataMem) {
    && (forall i :: 0 <= i < 1024 && i < TotalWords(n) ==> ram1[i] == imem[i])
    && (forall i :: 0 <= i < 1024 && TotalWords(n) <= i <= TotalWords(n) + 16 ==> ram1[i] == ram0[i])
  }

  ghost predicate Shifted(imem: InstrMem, n: nat, base: Word, s0: Arch, s1: Arch) {
    && s1.pc == Add(s0.pc, base)
    && RegsShifted(Site(s0), base, s0.regs, s1.regs)
    && SameImage(imem, n, s0.ram, s1.ram)
  }

  // ---- arithmetic of the base ----

  lemma SubBase(a: Word, base: Word)
    ensures Sub(Add(a, base), base) == a
  {
  }

  lemma AddSwap(a: Word, base: Word, x: Word)
    ensures Add(Add(a, base), x) == Add(Add(a, x), base)
  {
    hide Wrap;
    WrapAdd(a + base, x);
    WrapAdd(a + x, base);
  }

  lemma WrapAdd(a: int, x: int)
    ensures Wrap(Wrap(a) + x) == Wrap(a + x)
  {
    var q := a / TWO_TO_32;
    assert a == q * TWO_TO_32 + Wrap(a);
    WrapShift(Wrap(a) + x, q);
  }

  lemma WrapShift(a: int, q: int)
    ensures Wrap(a + q * TWO_TO_32) == Wrap(a)
  {
  }

  // ---- one word on both machines ----

  predicate SameOperand(r: RegIdx, s0: Arch, s1: Arch) {
    ReadReg(s1.regs, r) == ReadReg(s0.regs, r)
  }

  lemma ArithmeticSame(base: Word, w: Word, s0: Arch, s1: Arch)
    requires Opcode(w) == OP_IMM || (Opcode(w) == OP_REG && SameOperand(Rs2(w), s0, s1))
    requires SameOperand(Rs1(w), s0, s1)
    ensures RdValueAt(base, w, s1) == RdValue(w, s0)
    ensures Decode(w).regWrite && !Decode(w).memWrite && !IsControlFlow(w)
  {
    hide ImmGen, Add, Alu, AluOverflow, SignBit, Opcode, Rs1, Rs2, ReadReg, AluControlImm, AluControlReg, Funct7,
         Funct3;
  }

  lemma AuipcShifted(base: Word, w: Word, s0: Arch, s1: Arch)
    requires Opcode(w) == OP_AUIPC && s1.pc == Add(s0.pc, base)
    ensures RdValueAt(base, w, s1) == Add(RdValue(w, s0), base)
    ensures Decode(w).regWrite && !Decode(w).memWrite && !IsControlFlow(w)
  {
    hide ImmGen, Add, AluOverflow, SignBit, Opcode, Rs1, Rs2, ReadReg, Funct7, Funct3;
    AddSwap(s0.pc, base, ImmGen(w));
  }

  /** addi x31, x31, imm. */
  lemma BaseAddiShifted(base: Word, w: Word, imm: int, s0: Arch, s1: Arch)
    requires IsAddi(w, 31, 31, imm) && s1.regs[31] == Add(s0.regs[31], base)
    ensures RdValueAt(base, w, s1) == Add(RdValue(w, s0), base)
    ensures Decode(w).regWrite && !Decode(w).memWrite && !IsControlFlow(w)
  {
    hide ImmGen, Add, AluOverflow, SignBit, Opcode, Rs1, Rs2, Funct7, Funct3, Offset;
    AddSwap(s0.regs[31], base, ImmGen(w));
  }

  lemma AddressShifted(base: Word, w: Word, s0: Arch, s1: Arch)
    requires Opcode(w) in {OP_LOAD, OP_STORE} && Rs1(w) == 31 && s0.regs[0] == 0 && s1.regs[0] == 0
    requires s1.regs[31] == Add(s0.regs[31], base)
    ensures Outcome(w, s1).alu == Add(Outcome(w, s0).alu, base)
    ensures Sub(Outcome(w, s1).alu, base) == Outcome(w, s0).alu
  {
    hide ImmGen, Add, Sub, Outcome, Opcode, Rs1;
    AddressAgrees(w, s0);
    AddressAgrees(w, s1);
    AddSwap(s0.regs[31], base, ImmGen(w));
    SubBase(Outcome(w, s0).alu, base);
  }

  lemma LoadSame(base: Word, w: Word, s0: Arch, s1: Arch)
    requires Opcode(w) == OP_LOAD
    requires Sub(Outcome(w, s1).alu, base) == Outcome(w, s0).alu
    requires ReadRam(s1.ram, Outcome(w, s0).alu) == ReadRam(s0.ram, Outcome(w, s0).alu)
    ensures RdValueAt(base, w, s1) == RdValue(w, s0)
    ensures Decode(w).regWrite && !Decode(w).memWrite && !IsControlFlow(w)
  {
    hide ImmGen, Add, Sub, Outcome, Opcode, Rs1, Rs2, ReadRam, Funct7, Funct3;
  }

  lemma StoreSame(w: Word)
    requires Opcode(w) == OP_STORE
    ensures Decode(w).memWrite && !Decode(w).regWrite && !IsControlFlow(w)
  {
    hide Opcode, Funct7, Funct3;
  }

  lemma ControlSame(base: Word, w: Word, s0: Arch, s1: Arch)
    requires Opcode(w) == OP_JAL || (Opcode(w) == OP_BRANCH && SameOperand(Rs1(w), s0, s1) && SameOperand(Rs2(w), s0, s1))
    requires s1.pc == Add(s0.pc, base)
    ensures StepPc(w, s1) == Add(StepPc(w, s0), base)
    ensures !Decode(w).memWrite && Decode(w).regWrite == (Opcode(w) == OP_JAL)
  {
    hide ImmGen, Add, Alu, AluOverflow, SignBit, Opcode, Rs1, Rs2, ReadReg, Funct7, Funct3, Outcome;
    AddSwap(s0.pc, base, ImmGen(w));
    AddSwap(s0.pc, base, 4);
    DirectControlStep(w, s0);
    DirectControlStep(w, s1);
    TakenSame(w, s0, s1);
  }

  lemma TakenSame(w: Word, s0: Arch, s1: Arch)
    requires Opcode(w) == OP_JAL || (Opcode(w) == OP_BRANCH && SameOperand(Rs1(w), s0, s1) && SameOperand(Rs2(w), s0, s1))
    ensures Outcome(w, s1).taken == Outcome(w, s0).taken
  {
    hide ImmGen, Add, Alu, AluOverflow, SignBit, Opcode, Rs1, Rs2, ReadReg, Funct7, Funct3, BranchTaken;
  }

  lemma StraightSame(base: Word, w: Word, s0: Arch, s1: Arch)
    requires !IsControlFlow(w) && s1.pc == Add(s0.pc, base)
    ensures StepPc(w, s1) == Add(StepPc(w, s0), base)
  {
    hide Add, Outcome, IsControlFlow, StepPc;
    NonControlStep(w, s0);
    NonControlStep(w, s1);
    AddSwap(s0.pc, base, 4);
  }

  // ---- what one retirement shows of itself ----

  /** How the two machines' effects compare: nothing written, the same value, or
      values a base apart; and the same for a store's address. */
  ghost predicate EffectsMatch(base: Word, w: Word, s0: Arch, s1: Arch) {
    && (Decode(w).regWrite && Rd(w) != 0 ==>
          RdValueAt(base, w, s1) == RdValue(w, s0) || RdValueAt(base, w, s1) == Add(RdValue(w, s0), base))
    && (Decode(w).memWrite ==>
          Outcome(w, s1).alu == Add(Outcome(w, s0).alu, base) && StoredValue(w, s1) == StoredValue(w, s0))
  }

  // ---- register files ----

  lemma WriteBoth(site: nat, site': nat, base: Word, r0: Regs, r1: Regs, rd: RegIdx, v: Word)
    requires RegsShifted(site, base, r0, r1) && rd <= 30 && site > PREAMBLE_WORDS && site' > PREAMBLE_WORDS
    ensures RegsShifted(site', base, WriteReg(r0, rd, v), WriteReg(r1, rd, v))
  {
    hide Add;
  }

  lemma WriteBase(site: nat, base: Word, r0: Regs, r1: Regs, v: Word)
    requires RegsShifted(site, base, r0, r1) && site >= PREAMBLE_WORDS
    ensures RegsShifted(site + 1, base, WriteReg(r0, 31, v), WriteReg(r1, 31, Add(v, base)))
  {
    hide Add;
  }

  lemma WriteCleared(site: nat, base: Word, r0: Regs, r1: Regs)
    requires RegsShifted(site, base, r0, r1) && site < PREAMBLE_WORDS
    ensures RegsShifted(site + 1, base, WriteReg(r0, site + 1, 0), WriteReg(r1, site + 1, 0))
  {
    hide Add;
  }

  lemma OperandFromRegs(site: nat, base: Word, s0: Arch, s1: Arch, r: RegIdx)
    requires RegsShifted(site, base, s0.regs, s1.regs) && r <= 30 && r <= site
    ensures SameOperand(r, s0, s1)
  {
    hide Add;
  }

  // ---- memory ----

  lemma WindowRead(imem: InstrMem, n: nat, ram0: DataMem, ram1: DataMem, a: Word)
    requires SameImage(imem, n, ram0, ram1) && a % 4 == 0 && ProgramEnd(n) <= a <= ProgramEnd(n) + 64 && a <= 4092
    ensures ReadRam(ram1, a) == ReadRam(ram0, a)
  {
    var i := a / 4;
    assert TotalWords(n) <= i <= TotalWords(n) + 16 && i < 1024;
  }

  lemma WindowWrite(imem: InstrMem, n: nat, ram0: DataMem, ram1: DataMem, a: Word, v: Word)
    requires SameImage(imem, n, ram0, ram1) && a % 4 == 0 && ProgramEnd(n) <= a <= ProgramEnd(n) + 64 && a <= 4092
    ensures SameImage(imem, n, WriteRam(ram0, a, v), WriteRam(ram1, a, v))
  {
    var i := a / 4;
    assert TotalWords(n) <= i <= TotalWords(n) + 16 && i < 1024;
  }

  lemma SameFetch(imem: InstrMem, ws: seq<Word>, ranges: seq<Range>, base: Word, s0: Arch, s1: Arch)
    requires Loaded(imem, ws, ranges) && StateOk(ws, ranges, s0) && Shifted(imem, |ws|, base, s0, s1)
    ensures InstrAt(base, s1) == Instr(imem, s0)
  {
    hide Loaded, StateOk, RegsShifted, Sub, Add, Instr;
    InstrAtSite(imem, ws, ranges, s0);
    SiteBound(ws, ranges, s0);
    SubBase(s0.pc, base);
  }

  // ---- one step ----

  /** The step of both machines on word w, from its three parts. */
  lemma ShiftedFromParts(imem: InstrMem, n: nat, base: Word, s0: Arch, s1: Arch, w: Word)
    requires w == Instr(imem, s0) && w == InstrAt(base, s1)
    requires StepPc(w, s1) == Add(StepPc(w, s0), base)
    requires RegsShifted(Site(Step(imem, s0)), base, StepRegs(w, s0), StepRegsAt(base, w, s1))
    requires SameImage(imem, n, StepRam(w, s0), StepRamAt(base, w, s1))
    ensures Shifted(imem, n, base, Step(imem, s0), StepAt(base, s1))
  {
    hide RegsShifted, SameImage, StepPc, StepRegs, StepRam, StepRegsAt, StepRamAt, Instr, InstrAt, Add;
  }

  lemma PreambleShifted(imem: InstrMem, ws: seq<Word>, ranges: seq<Range>, base: Word, s0: Arch, s1: Arch)
    requires Loaded(imem, ws, ranges) && StateOk(ws, ranges, s0) && Shifted(imem, |ws|, base, s0, s1)
    requires Site(s0) < PREAMBLE_WORDS
    ensures Shifted(imem, |ws|, base, Step(imem, s0), StepAt(base, s1)) && EffectsMatch(base, Instr(imem, s0), s0, s1)
  {
    var w, a := Instr(imem, s0), Site(s0);
    hide Loaded, StateOk, SameImage, IsAddi, Instr, InstrAt, Step, StepAt, Add, WriteReg, RdValue, RdValueAt, Decode,
         Rd, Rs1, ImmGen, Opcode, Outcome, StepPc;
    SameFetch(imem, ws, ranges, base, s0, s1);
    InstrAtSite(imem, ws, ranges, s0);
    PreambleWord(imem, ws, ranges, a);
    PreambleStep(imem, ws, ranges, s0);
    AddiFacts(w, a + 1, 0, 0);
    AddiStep(w, a + 1, 0, 0, s0);
    OperandFromRegs(a, base, s0, s1, 0);
    ArithmeticSame(base, w, s0, s1);
    StraightSame(base, w, s0, s1);
    ZeroOffset(w);
    AddZero();
    WriteCleared(a, base, s0.regs, s1.regs);
    ShiftedFromParts(imem, |ws|, base, s0, s1, w);
  }

  lemma AddZero()
    ensures Add(0, 0) == 0
  {
  }

  lemma AddiFacts(w: Word, rd: RegIdx, rs1: RegIdx, imm: int)
    requires IsAddi(w, rd, rs1, imm)
    ensures Opcode(w) == OP_IMM && Rd(w) == rd && Rs1(w) == rs1 && Offset(w) == imm
  {
  }

  lemma AuipcShiftedStep(imem: InstrMem, ws: seq<Word>, ranges: seq<Range>, base: Word, s0: Arch, s1: Arch)
    requires Loaded(imem, ws, ranges) && StateOk(ws, ranges, s0) && Shifted(imem, |ws|, base, s0, s1)
    requires Site(s0) == PREAMBLE_WORDS
    ensures Shifted(imem, |ws|, base, Step(imem, s0), StepAt(base, s1)) && EffectsMatch(base, Instr(imem, s0), s0, s1)
  {
    var w := Instr(imem, s0);
    hide Loaded, StateOk, SameImage, IsAddi, Instr, InstrAt, Step, StepAt, Add, WriteReg, RdValue, RdValueAt, Decode,
         Rd, Rs1, ImmGen, Opcode, Outcome, StepPc, Stream, Hi20;
    SameFetch(imem, ws, ranges, base, s0, s1);
    InstrAtSite(imem, ws, ranges, s0);
    NonEmpty(imem, ws, ranges);
    StreamWord(imem, ws, ranges, 0);
    BaseWords(ws, ranges);
    AuipcAtBase(imem, ws, ranges, s0);
    AuipcStep(w, 31, s0);
    AuipcShifted(base, w, s0, s1);
    StraightSame(base, w, s0, s1);
    WriteBase(PREAMBLE_WORDS, base, s0.regs, s1.regs, RdValue(w, s0));
    ShiftedFromParts(imem, |ws|, base, s0, s1, w);
  }

  lemma BaseAddiShiftedStep(imem: InstrMem, ws: seq<Word>, ranges: seq<Range>, base: Word, s0: Arch, s1: Arch)
    requires Loaded(imem, ws, ranges) && StateOk(ws, ranges, s0) && Shifted(imem, |ws|, base, s0, s1)
    requires Site(s0) == PREAMBLE_WORDS + 1 && |ws| > 1
    ensures Shifted(imem, |ws|, base, Step(imem, s0), StepAt(base, s1)) && EffectsMatch(base, Instr(imem, s0), s0, s1)
  {
    var w := Instr(imem, s0);
    hide Loaded, StateOk, SameImage, IsAddi, Instr, InstrAt, Step, StepAt, Add, WriteReg, RdValue, RdValueAt, Decode,
         Rd, Rs1, ImmGen, Opcode, Outcome, StepPc, Stream, Lo12, Offset;
    SameFetch(imem, ws, ranges, base, s0, s1);
    InstrAtSite(imem, ws, ranges, s0);
    NonEmpty(imem, ws, ranges);
    StreamWord(imem, ws, ranges, 1);
    BaseWords(ws, ranges);
    AddiAtBase(imem, ws, ranges, s0);
    AddiFacts(w, 31, 31, Lo12(|ws|));
    AddiStep(w, 31, 31, Lo12(|ws|), s0);
    BaseAddiShifted(base, w, Lo12(|ws|), s0, s1);
    StraightSame(base, w, s0, s1);
    WriteBase(PREAMBLE_WORDS + 1, base, s0.regs, s1.regs, RdValue(w, s0));
    ShiftedFromParts(imem, |ws|, base, s0, s1, w);
  }

  // ---- the words after the set-up ----

  predicate ArithmeticOn30(w: Word) {
    Rd(w) <= 30 && Rs1(w) <= 30 && (Opcode(w) == OP_IMM || (Opcode(w) == OP_REG && Rs2(w) <= 30))
  }

  predicate ControlOn30(w: Word) {
    (Opcode(w) == OP_BRANCH && Rs1(w) <= 30 && Rs2(w) <= 30) || (Opcode(w) == OP_JAL && Rd(w) == 0)
  }

  /** Nothing but loads and stores reads x31, and nothing writes it. */
  predicate StreamKind(w: Word) {
    ArithmeticOn30(w) || LoadWord(w) || StoreWord(w) || ControlOn30(w)
  }

  lemma BodyKind(w: Word)
    requires BodyWord(w)
    ensures StreamKind(w)
  {
    hide Opcode, Rd, Rs1, Rs2, Funct3, Funct7, Offset;
  }

  lemma TopKind(w: Word, pos: nat, total: nat, ranges: seq<Range>)
    requires TopWord(w, pos, total, ranges)
    ensures StreamKind(w)
  {
    hide Opcode, Rd, Rs1, Rs2, Funct3, Funct7, Offset, InAnyRange, InWindow;
  }

  lemma CounterKind(w: Word, rs1: RegIdx, imm: int)
    requires IsAddi(w, 30, rs1, imm) && rs1 <= 30
    ensures StreamKind(w)
  {
    hide Opcode, Rd, Rs1, Rs2, Funct3, Offset;
  }

  lemma LoopBranchKind(w: Word, imm: int)
    requires IsLoopBranch(w, imm)
    ensures StreamKind(w)
  {
    hide Opcode, Rd, Rs1, Rs2, Funct3, Offset;
  }

  lemma SelfBranchKind(w: Word)
    requires IsSelfBranch(w)
    ensures StreamKind(w)
  {
    hide Opcode, Rd, Rs1, Rs2, Funct3, Offset;
  }

  lemma LoopKind(ws: seq<Word>, r: Range, i: nat)
    requires LoopInPlace(ws, r) && InRange(i, r)
    ensures StreamKind(ws[i])
  {
    hide BodyWord, Trip, IsAddi, IsLoopBranch, StreamKind;
    if i == r.lo {
      CounterKind(ws[i], 0, Trip(ws, r));
    } else if i == r.hi - 2 {
      CounterKind(ws[i], 30, -1);
    } else if i == r.hi - 1 {
      LoopBranchKind(ws[i], -4 * (r.hi - r.lo - 2));
    } else {
      BodyKind(ws[i]);
    }
  }

  lemma KindInStream(ws: seq<Word>, ranges: seq<Range>, i: nat)
    requires Stream(ws, ranges) && StreamStart(|ws|) <= i < |ws|
    ensures StreamKind(ws[i])
  {
    hide Stream, TopWord, LoopInPlace, StreamKind;
    if InAnyRange(i, ranges) {
      var j :| 0 <= j < |ranges| && InRange(i, ranges[j]);
      LoopAt(ws, ranges, j);
      LoopKind(ws, ranges[j], i);
    } else {
      TopWordAt(ws, ranges, i);
      TopKind(ws[i], i, |ws|, ranges);
    }
  }

  lemma KindAfterSetUp(imem: InstrMem, ws: seq<Word>, ranges: seq<Range>, s: Arch)
    requires Loaded(imem, ws, ranges) && StateOk(ws, ranges, s)
    requires Site(s) >= PREAMBLE_WORDS + StreamStart(|ws|)
    ensures StreamKind(Instr(imem, s))
  {
    hide Loaded, StateOk, Site, Instr, Stream, StreamKind, IsSelfBranch;
    NonEmpty(imem, ws, ranges);
    SiteBound(ws, ranges, s);
    InstrAtSite(imem, ws, ranges, s);
    var i := Site(s) - PREAMBLE_WORDS;
    if i == |ws| {
      EpilogueIsSelfBranch(imem, ws, ranges);
      SelfBranchKind(imem[Site(s)]);
    } else {
      StreamWord(imem, ws, ranges, i);
      KindInStream(ws, ranges, i);
    }
  }

  // ---- their steps, register file by register file ----

  ghost predicate RegsStepShifted(base: Word, w: Word, s0: Arch, s1: Arch) {
    forall site :: site > PREAMBLE_WORDS ==> RegsShifted(site, base, StepRegs(w, s0), StepRegsAt(base, w, s1))
  }

  lemma SameValueWritten(site: nat, base: Word, w: Word, s0: Arch, s1: Arch)
    requires RegsShifted(site, base, s0.regs, s1.regs) && site > PREAMBLE_WORDS
    requires Decode(w).regWrite && Rd(w) <= 30 && RdValueAt(base, w, s1) == RdValue(w, s0)
    ensures RegsStepShifted(base, w, s0, s1)
  {
    hide Decode, Rd, RdValue, RdValueAt, WriteReg, RegsShifted;
    forall site': nat | site' > PREAMBLE_WORDS
      ensures RegsShifted(site', base, StepRegs(w, s0), StepRegsAt(base, w, s1))
    {
      WriteBoth(site, site', base, s0.regs, s1.regs, Rd(w), RdValue(w, s0));
    }
  }

  lemma NothingWritten(site: nat, base: Word, w: Word, s0: Arch, s1: Arch)
    requires RegsShifted(site, base, s0.regs, s1.regs) && site > PREAMBLE_WORDS
    requires Decode(w).regWrite ==> Rd(w) == 0
    ensures RegsStepShifted(base, w, s0, s1)
  {
    hide Decode, Rd, RdValue, RdValueAt;
  }

  lemma ArithmeticShifted(site: nat, base: Word, w: Word, s0: Arch, s1: Arch)
    requires ArithmeticOn30(w) && RegsShifted(site, base, s0.regs, s1.regs) && site > PREAMBLE_WORDS
    requires s1.pc == Add(s0.pc, base)
    ensures RegsStepShifted(base, w, s0, s1) && StepPc(w, s1) == Add(StepPc(w, s0), base)
    ensures EffectsMatch(base, w, s0, s1) && !Decode(w).memWrite
  {
    hide Decode, Rd, Rs1, Rs2, Opcode, RdValue, RdValueAt, RegsShifted, RegsStepShifted, StepPc, Add, Outcome,
         IsControlFlow, SameOperand;
    OperandFromRegs(site, base, s0, s1, Rs1(w));
    if Opcode(w) == OP_REG {
      OperandFromRegs(site, base, s0, s1, Rs2(w));
    }
    ArithmeticSame(base, w, s0, s1);
    StraightSame(base, w, s0, s1);
    SameValueWritten(site, base, w, s0, s1);
  }

  lemma ControlShifted(site: nat, base: Word, w: Word, s0: Arch, s1: Arch)
    requires ControlOn30(w) && RegsShifted(site, base, s0.regs, s1.regs) && site > PREAMBLE_WORDS
    requires s1.pc == Add(s0.pc, base)
    ensures RegsStepShifted(base, w, s0, s1) && StepPc(w, s1) == Add(StepPc(w, s0), base)
    ensures EffectsMatch(base, w, s0, s1) && !Decode(w).memWrite
  {
    hide Decode, Rd, Rs1, Rs2, Opcode, RdValue, RdValueAt, RegsShifted, RegsStepShifted, StepPc, Add, Outcome,
         SameOperand;
    if Opcode(w) == OP_BRANCH {
      OperandFromRegs(site, base, s0, s1, Rs1(w));
      OperandFromRegs(site, base, s0, s1, Rs2(w));
    }
    ControlSame(base, w, s0, s1);
    NothingWritten(site, base, w, s0, s1);
  }

  // ---- loads and stores ----

  predicate InGeneratedWindow(n: nat, a: Word) {
    a % 4 == 0 && ProgramEnd(n) <= a <= ProgramEnd(n) + 64 && a <= 4092
  }

  lemma BaseRegisters(site: nat, base: Word, s0: Arch, s1: Arch)
    requires RegsShifted(site, base, s0.regs, s1.regs) && site > PREAMBLE_WORDS
    ensures s0.regs[0] == 0 && s1.regs[0] == 0 && s1.regs[31] == Add(s0.regs[31], base)
  {
    hide Add;
  }

  lemma LoadShifted(imem: InstrMem, n: nat, base: Word, w: Word, s0: Arch, s1: Arch)
    requires LoadWord(w) && Shifted(imem, n, base, s0, s1) && Site(s0) > PREAMBLE_WORDS
    requires InGeneratedWindow(n, Outcome(w, s0).alu)
    ensures RegsStepShifted(base, w, s0, s1) && StepPc(w, s1) == Add(StepPc(w, s0), base)
    ensures EffectsMatch(base, w, s0, s1) && !Decode(w).memWrite
  {
    hide Decode, Rd, Rs1, Rs2, Opcode, RdValue, RdValueAt, RegsShifted, RegsStepShifted, StepPc, Add, Sub, Outcome,
         IsControlFlow, ReadRam, SameImage, Site, Funct3, InWindow, Offset;
    BaseRegisters(Site(s0), base, s0, s1);
    AddressShifted(base, w, s0, s1);
    WindowRead(imem, n, s0.ram, s1.ram, Outcome(w, s0).alu);
    LoadSame(base, w, s0, s1);
    StraightSame(base, w, s0, s1);
    SameValueWritten(Site(s0), base, w, s0, s1);
  }

  lemma StoreShifted(imem: InstrMem, n: nat, base: Word, w: Word, s0: Arch, s1: Arch)
    requires StoreWord(w) && Shifted(imem, n, base, s0, s1) && Site(s0) > PREAMBLE_WORDS
    requires InGeneratedWindow(n, Outcome(w, s0).alu)
    ensures RegsStepShifted(base, w, s0, s1) && StepPc(w, s1) == Add(StepPc(w, s0), base)
    ensures EffectsMatch(base, w, s0, s1) && SameImage(imem, n, StepRam(w, s0), StepRamAt(base, w, s1))
  {
    hide Decode, Rd, Rs1, Rs2, Opcode, RdValue, RdValueAt, RegsShifted, RegsStepShifted, StepPc, Add, Sub, Outcome,
         IsControlFlow, WriteRam, SameImage, Site, Funct3, InWindow, Offset, ReadReg;
    BaseRegisters(Site(s0), base, s0, s1);
    AddressShifted(base, w, s0, s1);
    OperandFromRegs(Site(s0), base, s0, s1, Rs2(w));
    StoreSame(w);
    WindowWrite(imem, n, s0.ram, s1.ram, Outcome(w, s0).alu, StoredValue(w, s0));
    StraightSame(base, w, s0, s1);
    NothingWritten(Site(s0), base, w, s0, s1);
  }

  lemma NothingStored(imem: InstrMem, n: nat, base: Word, w: Word, s0: Arch, s1: Arch)
    requires SameImage(imem, n, s0.ram, s1.ram) && !Decode(w).memWrite
    ensures SameImage(imem, n, StepRam(w, s0), StepRamAt(base, w, s1))
  {
    hide Decode;
  }

  lemma WordShifted(imem: InstrMem, n: nat, base: Word, w: Word, s0: Arch, s1: Arch)
    requires StreamKind(w) && Shifted(imem, n, base, s0, s1) && Site(s0) > PREAMBLE_WORDS
    requires LoadWord(w) || StoreWord(w) ==> InGeneratedWindow(n, Outcome(w, s0).alu)
    ensures RegsStepShifted(base, w, s0, s1) && StepPc(w, s1) == Add(StepPc(w, s0), base)
    ensures EffectsMatch(base, w, s0, s1) && SameImage(imem, n, StepRam(w, s0), StepRamAt(base, w, s1))
  {
    hide Decode, RegsShifted, RegsStepShifted, StepPc, StepRam, StepRamAt, Add, Outcome, SameImage, Site, LoadWord,
         StoreWord, ArithmeticOn30, ControlOn30, EffectsMatch, InGeneratedWindow;
    if LoadWord(w) {
      LoadShifted(imem, n, base, w, s0, s1);
      NothingStored(imem, n, base, w, s0, s1);
    } else if StoreWord(w) {
      StoreShifted(imem, n, base, w, s0, s1);
    } else if ArithmeticOn30(w) {
      ArithmeticShifted(Site(s0), base, w, s0, s1);
      NothingStored(imem, n, base, w, s0, s1);
    } else {
      ControlShifted(Site(s0), base, w, s0, s1);
      NothingStored(imem, n, base, w, s0, s1);
    }
  }

  /** The run never returns to the set-up. */
  lemma PastSetUp(imem: InstrMem, ws: seq<Word>, ranges: seq<Range>, s: Arch)
    requires Loaded(imem, ws, ranges) && StateOk(ws, ranges, s)
    requires Site(s) >= PREAMBLE_WORDS + StreamStart(|ws|)
    ensures Site(Step(imem, s)) >= PREAMBLE_WORDS + StreamStart(|ws|)
  {
    var i := Site(s) - PREAMBLE_WORDS;
    hide Loaded, StateOk, Step, Stream, Site, LoopInPlace, Trip;
    NonEmpty(imem, ws, ranges);
    SiteBound(ws, ranges, s);
    if i == |ws| {
      EpilogueKeepsState(imem, ws, ranges, s);
    } else if InAnyRange(i, ranges) {
      var j :| 0 <= j < |ranges| && InRange(i, ranges[j]);
      LoopKeepsState(imem, ws, ranges, s, j);
      LoopAt(ws, ranges, j);
      LoopLength(ws, ranges[j]);
    } else {
      TopLevelKeepsState(imem, ws, ranges, s);
    }
  }

  lemma LoadStoreOpcode(w: Word)
    ensures LoadWord(w) ==> Opcode(w) == OP_LOAD
    ensures StoreWord(w) ==> Opcode(w) == OP_STORE
  {
  }

  lemma StreamShifted(imem: InstrMem, ws: seq<Word>, ranges: seq<Range>, base: Word, s0: Arch, s1: Arch)
    requires Loaded(imem, ws, ranges) && StateOk(ws, ranges, s0) && Shifted(imem, |ws|, base, s0, s1)
    requires Site(s0) >= PREAMBLE_WORDS + StreamStart(|ws|)
    ensures Shifted(imem, |ws|, base, Step(imem, s0), StepAt(base, s1)) && EffectsMatch(base, Instr(imem, s0), s0, s1)
  {
    var w := Instr(imem, s0);
    hide Loaded, StateOk, Step, StepAt, Site, Instr, InstrAt, RegsShifted, SameImage, StreamKind, LoadWord, StoreWord,
         Opcode, EffectsMatch, StepPc, StepRegs, StepRam, StepRegsAt, StepRamAt, Add, Outcome, Shifted, Executable;
    SameFetch(imem, ws, ranges, base, s0, s1);
    KindAfterSetUp(imem, ws, ranges, s0);
    LoadStoreOpcode(w);
    StateIsExecutable(imem, ws, ranges, s0);
    WordShifted(imem, |ws|, base, w, s0, s1);
    PastSetUp(imem, ws, ranges, s0);
    ShiftedFromParts(imem, |ws|, base, s0, s1, w);
  }

  /** One instruction: the machines stay a base apart, and show the same effects
      up to the base. */
  lemma StepShifted(imem: InstrMem, ws: seq<Word>, ranges: seq<Range>, base: Word, s0: Arch, s1: Arch)
    requires Loaded(imem, ws, ranges) && StateOk(ws, ranges, s0) && Shifted(imem, |ws|, base, s0, s1)
    ensures Shifted(imem, |ws|, base, Step(imem, s0), StepAt(base, s1)) && EffectsMatch(base, Instr(imem, s0), s0, s1)
    ensures InstrAt(base, s1) == Instr(imem, s0)
  {
    hide Loaded, StateOk, Step, StepAt, Site, Instr, InstrAt, EffectsMatch, Shifted;
    SameFetch(imem, ws, ranges, base, s0, s1);
    if Site(s0) < PREAMBLE_WORDS {
      PreambleShifted(imem, ws, ranges, base, s0, s1);
    } else if Site(s0) == PREAMBLE_WORDS {
      AuipcShiftedStep(imem, ws, ranges, base, s0, s1);
    } else if Site(s0) < PREAMBLE_WORDS + StreamStart(|ws|) {
      BaseAddiShiftedStep(imem, ws, ranges, base, s0, s1);
    } else {
      StreamShifted(imem, ws, ranges, base, s0, s1);
    }
  }

  // ---- whole runs ----

  /** What the golden model starts from: the program at base, x0 zero, the other
      registers arbitrary, and the data window equal to the core's. */
  ghost predicate GoldenStart(p: Execution, n: nat, base: Word, g: Arch) {
    g.pc == base && g.regs[0] == 0 && SameImage(p.imem, n, p.ram, g.ram)
  }

  lemma StartShifted(p: Execution, n: nat, base: Word, g: Arch)
    requires GoldenStart(p, n, base, g)
    ensures Shifted(p.imem, n, base, p.At(0), g)
  {
    hide SameImage;
  }

  /** Relocation: run for run, for ever, whatever the boot stub left behind. */
  lemma {:induction false} RunsShifted(p: Execution, ws: seq<Word>, ranges: seq<Range>, base: Word, g: Arch, k: nat)
    requires Loaded(p.imem, ws, ranges) && GoldenStart(p, |ws|, base, g)
    ensures Shifted(p.imem, |ws|, base, p.At(k), RunAt(base, g, k))
  {
    hide Loaded, StateOk, Step, StepAt, Shifted, Start, EffectsMatch, GoldenStart;
    if k == 0 {
      StartShifted(p, |ws|, base, g);
    } else {
      RunsShifted(p, ws, ranges, base, g, k - 1);
      ReachedState(p, ws, ranges, k - 1);
      StepShifted(p.imem, ws, ranges, base, p.At(k - 1), RunAt(base, g, k - 1));
    }
  }

  /** After the preamble x0 .. x30 agree, and pc and, once set up, x31 differ by
      exactly the base. */
  lemma AfterPreamble(p: Execution, ws: seq<Word>, ranges: seq<Range>, base: Word, g: Arch, k: nat)
    requires Loaded(p.imem, ws, ranges) && GoldenStart(p, |ws|, base, g)
    ensures RunAt(base, g, k).pc == Add(p.At(k).pc, base)
    ensures Site(p.At(k)) >= PREAMBLE_WORDS ==>
              forall r: RegIdx :: r <= 30 ==> RunAt(base, g, k).regs[r] == p.At(k).regs[r]
    ensures Site(p.At(k)) > PREAMBLE_WORDS ==> RunAt(base, g, k).regs[31] == Add(p.At(k).regs[31], base)
  {
    hide Loaded, GoldenStart, Run, RunAt, Start, Shifted, Site;
    RunsShifted(p, ws, ranges, base, g, k);
    ShiftedParts(p.imem, |ws|, base, p.At(k), RunAt(base, g, k));
  }

  lemma ShiftedParts(imem: InstrMem, n: nat, base: Word, s0: Arch, s1: Arch)
    requires Shifted(imem, n, base, s0, s1)
    ensures s1.pc == Add(s0.pc, base)
    ensures Site(s0) >= PREAMBLE_WORDS ==> forall r: RegIdx :: r <= 30 ==> s1.regs[r] == s0.regs[r]
    ensures Site(s0) > PREAMBLE_WORDS ==> s1.regs[31] == Add(s0.regs[31], base)
  {
    hide Add, SameImage, Site;
  }
}
