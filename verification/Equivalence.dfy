/**
 The sequential machine built from the RTL's decoder, immediate generator and
 ALU agrees with the C++ simulator, one instruction at a time and over whole
 runs.
 */
module Equivalence {
  import opened Words
  import opened Bits
  import opened Datapath
  import opened Sequential
  import opened Execution
  import opened CppSimulator

  // ---- immediates ----

  lemma SignExtend12Agrees(imm: Word)
    requires imm < 4096
    ensures SignExtend12(imm) == if imm >= 2048 then 0xFFFF_F000 + imm else imm
  {
    PowersUsed();
    hide BitOr, Pow2;
    if imm >= 2048 {
      OrSwap(imm, 0xFFFF_F000);
      OrIsSum(0xF_FFFF, imm, 12, 4096);
    }
  }

  lemma AssembleSSum(hi: nat, lo: nat)
    requires hi < 128 && lo < 32
    ensures AssembleS(hi, lo) == (if hi >= 64 then 0xFFFF_F000 else 0) + hi * 32 + lo
  {
    PowersUsed();
    hide BitOr, Pow2;
    OrIsSum(hi, lo, 5, 32);
    var imm := hi * 32 + lo;
    if hi >= 64 {
      OrSwap(imm, 0xFFFF_F000);
      OrIsSum(0xF_FFFF, imm, 12, 4096);
    }
  }

  lemma AssembleBSum(b12: nat, b11: nat, b10: nat, b4: nat)
    requires b12 < 2 && b11 < 2 && b10 < 64 && b4 < 16
    ensures AssembleB(b12, b11, b10, b4) ==
            (if b12 == 1 then 0xFFFF_F000 else 0) + b11 * 2048 + b10 * 32 + b4 * 2
  {
    PowersUsed();
    hide BitOr, Pow2;
    OrIsSum(b12, b11 * 2048, 12, 4096);
    OrIsSum(b12 * 2 + b11, b10 * 32, 11, 2048);
    OrIsSum(b12 * 128 + b11 * 64 + b10, b4 * 2, 5, 32);
    var imm := b12 * 4096 + b11 * 2048 + b10 * 32 + b4 * 2;
    if b12 == 1 {
      OrSwap(imm, 0xFFFF_E000);
      OrIsSum(0x7_FFFF, imm, 13, 8192);
    }
  }

  lemma AssembleJSum(b20: nat, b10: nat, b11: nat, b19: nat)
    requires b20 < 2 && b10 < 1024 && b11 < 2 && b19 < 256
    ensures AssembleJ(b20, b10, b11, b19) ==
            (if b20 == 1 then 0xFFF0_0000 else 0) + b19 * 4096 + b11 * 2048 + b10 * 2
  {
    PowersUsed();
    hide BitOr, Pow2;
    var x20, x10, x11, x19 := b20 * 1048576, b10 * 2, b11 * 2048, b19 * 4096;
    OrRotate(x20, x10, x11);
    OrRotate(BitOr(x20, x11), x10, x19);
    OrRotate(x20, x11, x19);
    OrIsSum(b20, x19, 20, 1048576);
    OrIsSum(b20 * 256 + b19, x11, 12, 4096);
    OrIsSum(b20 * 512 + b19 * 2 + b11, x10, 11, 2048);
    var imm := x20 + x19 + x11 + x10;
    if b20 == 1 {
      OrSwap(imm, 0xFFE0_0000);
      OrIsSum(0x7FF, imm, 21, 2097152);
    }
  }

  lemma StoreImmediateAgrees(w: Word)
    requires Opcode(w) == OP_STORE
    ensures DecodeImmS(w) == ImmGen(w)
  {
    hide AssembleS, Opcode;
    AssembleSSum(w / 33554432 % 128, w / 128 % 32);
  }

  lemma BranchImmediateAgrees(w: Word)
    requires Opcode(w) == OP_BRANCH
    ensures DecodeImmB(w) == ImmGen(w)
  {
    hide AssembleB, Opcode;
    AssembleBSum(w / 0x8000_0000, w / 128 % 2, w / 33554432 % 64, w / 256 % 16);
  }

  lemma JumpImmediateAgrees(w: Word)
    requires Opcode(w) == OP_JAL
    ensures DecodeImmJ(w) == ImmGen(w)
  {
    hide AssembleJ, Opcode;
    AssembleJSum(w / 0x8000_0000, w / 2097152 % 1024, w / 1048576 % 2, w / 4096 % 256);
  }

  /** Every immediate decoder of main.cpp computes what imm_gen.sv does. */
  lemma ImmediatesAgree(w: Word)
    ensures Opcode(w) in {OP_IMM, OP_LOAD, OP_JALR} ==> SignExtend12(w / 1048576) == ImmGen(w)
    ensures Opcode(w) == OP_STORE ==> DecodeImmS(w) == ImmGen(w)
    ensures Opcode(w) == OP_BRANCH ==> DecodeImmB(w) == ImmGen(w)
    ensures Opcode(w) == OP_JAL ==> DecodeImmJ(w) == ImmGen(w)
  {
    hide SignExtend12, DecodeImmS, DecodeImmB, DecodeImmJ, Opcode;
    if Opcode(w) == OP_STORE {
      StoreImmediateAgrees(w);
    } else if Opcode(w) == OP_BRANCH {
      BranchImmediateAgrees(w);
    } else if Opcode(w) == OP_JAL {
      JumpImmediateAgrees(w);
    } else {
      SignExtend12Agrees(w / 1048576);
    }
  }

  // ---- one instruction ----

  /** The opcodes and function codes on which the two agree: RV32I without byte
      and half-word accesses, unsigned branches, FENCE and ECALL. */
  predicate Supported(w: Word) {
    var op := Opcode(w);
    || op in {OP_IMM, OP_JAL, OP_JALR, OP_LUI, OP_AUIPC}
    || (op == OP_REG && Funct7(w) in {0, 0x20})
    || (op in {OP_LOAD, OP_STORE} && Funct3(w) == 2)
    || (op == OP_BRANCH && Funct3(w) in {0, 1, 4, 5})
  }

  lemma ShiftAmount(w: Word)
    requires Opcode(w) == OP_IMM
    ensures ImmGen(w) % 32 == Rs2(w)
    ensures w / 1073741824 % 2 == Funct7(w) / 32 % 2
  {
    hide Opcode;
    NestedQuotient(w, 33554432, 32);
    LowFive(SignFill12(w) / 32, w / 1048576);
  }

  lemma LowFive(q: int, x: int)
    ensures (32 * q + x) % 32 == x % 32
  {
  }

  lemma ImmediateAluAgrees(w: Word, a: Word)
    requires Opcode(w) == OP_IMM
    ensures Alu(Decode(w).aluControl, a, ImmGen(w)) == ImmResult(w, a)
  {
    ShiftAmount(w);
    ImmediatesAgree(w);
    hide ImmGen, SignExtend12, Bitwise32, Add, Sub, ShiftLeft, ShiftRight, ShiftRightArith, Rs2, Signed, Opcode, Funct3,
         Funct7;
  }

  lemma RegisterAluAgrees(w: Word, a: Word, b: Word)
    requires Opcode(w) == OP_REG && Funct7(w) in {0, 0x20}
    ensures Alu(Decode(w).aluControl, a, b) == RegResult(w, a, b)
  {
    hide Bitwise32, Add, Sub, ShiftLeft, ShiftRight, ShiftRightArith, Signed, Opcode;
  }

  /** The flag tests of riscv_core.sv decide the C++ comparisons. */
  lemma BranchFlagsAgree(f3: int, a: Word, b: Word)
    requires f3 in {0, 1, 4, 5}
    ensures BranchTaken(f3, Alu(1, a, b) == 0, SignBit(Alu(1, a, b)), AluOverflow(1, a, b)) == BranchCondition(f3, a, b)
  {
    var d := Alu(1, a, b);
    assert d == if a >= b then a - b else a - b + TWO_TO_32;
    hide Sub;
  }

  lemma SubAdd(a: Word)
    ensures Add(Sub(a, 4), 4) == a
  {
  }

  /** What both sides make of one instruction's registers and pc. */
  predicate RegistersAndPcAgree(w: Word, s: Arch, cs: CppState) {
    var cs' := DecodeAndExecute(cs, w);
    cs'.regs == StepRegs(w, s) && Add(cs'.pc, 4) == StepPc(w, s)
  }

  predicate SameRegisters(s: Arch, cs: CppState) {
    cs.pc == s.pc && cs.regs == s.regs && s.regs[0] == 0
  }

  lemma ArithmeticAgrees(w: Word, s: Arch, cs: CppState)
    requires SameRegisters(s, cs) && Supported(w) && Opcode(w) in {OP_IMM, OP_REG}
    ensures RegistersAndPcAgree(w, s, cs)
  {
    hide ImmGen, Alu, Add, Rs1, Rs2, Rd, Opcode, Funct3, Funct7, ImmResult, RegResult, WriteReg, AluControlImm,
         AluControlReg, AluOverflow, SignBit;
    var a, b := s.regs[Rs1(w)], s.regs[Rs2(w)];
    if Opcode(w) == OP_IMM {
      ImmediateAluAgrees(w, a);
    } else {
      RegisterAluAgrees(w, a, b);
    }
  }

  lemma BranchAgrees(w: Word, s: Arch, cs: CppState)
    requires SameRegisters(s, cs) && Supported(w) && Opcode(w) == OP_BRANCH
    ensures RegistersAndPcAgree(w, s, cs)
  {
    hide ImmGen, Alu, Add, Sub, Rs1, Rs2, Rd, Opcode, Funct3, Funct7, WriteReg, AluOverflow, SignBit, BranchTaken,
         BranchCondition, DecodeImmB;
    ImmediatesAgree(w);
    BranchFlagsAgree(Funct3(w), s.regs[Rs1(w)], s.regs[Rs2(w)]);
    SubAdd(Add(s.pc, DecodeImmB(w)));
  }

  lemma JalAgrees(w: Word, s: Arch, cs: CppState)
    requires SameRegisters(s, cs) && Opcode(w) == OP_JAL
    ensures RegistersAndPcAgree(w, s, cs)
  {
    hide ImmGen, Add, Sub, Rs1, Rs2, Rd, Opcode, Funct3, Funct7, WriteReg, AluOverflow, SignBit, DecodeImmJ, Alu;
    ImmediatesAgree(w);
    SubAdd(Add(s.pc, DecodeImmJ(w)));
  }

  lemma JalrAgrees(w: Word, s: Arch, cs: CppState)
    requires SameRegisters(s, cs) && Opcode(w) == OP_JALR
    ensures RegistersAndPcAgree(w, s, cs)
  {
    hide ImmGen, Add, Sub, Rs1, Rs2, Rd, Opcode, Funct3, Funct7, WriteReg, AluOverflow, SignBit, SignExtend12;
    ImmediatesAgree(w);
    var t := Add(s.regs[Rs1(w)], SignExtend12(w / 1048576));
    SubAdd(t - t % 2);
  }

  lemma UpperAgrees(w: Word, s: Arch, cs: CppState)
    requires SameRegisters(s, cs) && Opcode(w) in {OP_LUI, OP_AUIPC}
    ensures RegistersAndPcAgree(w, s, cs)
  {
    hide ImmGen, Add, Sub, Rs1, Rs2, Rd, Opcode, Funct3, Funct7, WriteReg, AluOverflow, SignBit;
    UpperImmediate(w);
  }

  lemma UpperImmediate(w: Word)
    requires Opcode(w) in {OP_LUI, OP_AUIPC}
    ensures ImmGen(w) == w / 4096 * 4096
  {
  }

  // ---- memory ----

  lemma {:induction false} WordAfterStore(mem: Memory, a: Word, v: Word, b: Word)
    requires a % 4 == 0 && a < 4096 && b % 4 == 0 && b < 4096
    ensures GetWord(PutWord(mem, a, v), b) == if a == b then v else GetWord(mem, b)
  {
    SmallOffsets(a);
    SmallOffsets(b);
    hide Add;
    if a == b {
      BytesOfWord(v);
    }
  }

  lemma SmallOffsets(a: Word)
    requires a < 4096
    ensures Add(a, 1) == a + 1 && Add(a, 2) == a + 2 && Add(a, 3) == a + 3
  {
  }

  lemma BytesOfWord(v: Word)
    ensures v % 256 + v / 256 % 256 * 256 + v / 65536 % 256 * 65536 + v / 16777216 * 16777216 == v
  {
    assert v / 256 / 256 == v / 65536;
    assert v / 65536 / 256 == v / 16777216;
  }

  /** The simulator's one memory holds the program below textEnd and the data
      words from textEnd up. */
  ghost predicate SameMemory(imem: InstrMem, ram: DataMem, mem: Memory, textEnd: int) {
    forall i :: 0 <= i < 1024 ==> GetWord(mem, 4 * i) == if 4 * i < textEnd then imem[i] else ram[i]
  }

  ghost predicate Related(imem: InstrMem, s: Arch, cs: CppState, textEnd: int) {
    SameRegisters(s, cs) && SameMemory(imem, s.ram, cs.mem, textEnd)
  }

  predicate InDataWindow(addr: Word, textEnd: int) {
    addr % 4 == 0 && textEnd <= addr <= 4092
  }

  /** An instruction the two machines agree on: in the program text, in the
      subset, and with its data access, if any, an aligned word above the text. */
  predicate Executable(imem: InstrMem, s: Arch, textEnd: int) {
    var w := Instr(imem, s);
    && s.pc % 4 == 0 && s.pc < textEnd && w != 0
    && Supported(w)
    && (Opcode(w) in {OP_LOAD, OP_STORE} ==> InDataWindow(Outcome(w, s).alu, textEnd))
  }

  lemma AddressAgrees(w: Word, s: Arch)
    requires Opcode(w) in {OP_LOAD, OP_STORE} && s.regs[0] == 0
    ensures Outcome(w, s).alu == Add(s.regs[Rs1(w)], ImmGen(w))
  {
    hide ImmGen, Add, Rs1, Rs2, Opcode, Funct3, Funct7, AluOverflow, SignBit;
  }

  lemma LoadAgrees(imem: InstrMem, s: Arch, cs: CppState, textEnd: int)
    requires Related(imem, s, cs, textEnd) && 0 <= textEnd && Executable(imem, s, textEnd)
    requires Opcode(Instr(imem, s)) == OP_LOAD
    ensures RegistersAndPcAgree(Instr(imem, s), s, cs)
  {
    var w := Instr(imem, s);
    AddressAgrees(w, s);
    ImmediatesAgree(w);
    var addr := Outcome(w, s).alu;
    SmallOffsets(addr);
    assert GetWord(cs.mem, 4 * (addr / 4)) == s.ram[addr / 4];
    assert LoadEffect(cs, w) == WriteReg(s.regs, Rd(w), ReadRam(s.ram, addr)) by {
      hide ImmGen, Rs1, Rs2, Rd, Opcode, Outcome, SignExtend12, WriteReg, GetWord, Add;
    }
    LoadResult(w, s);
    hide ImmGen, Add, Rs1, Rs2, Rd, Opcode, Funct3, Funct7, AluOverflow, SignBit, Outcome, LoadEffect, WriteReg,
         RdValue;
  }

  lemma LoadResult(w: Word, s: Arch)
    requires Opcode(w) == OP_LOAD
    ensures RdValue(w, s) == ReadRam(s.ram, Outcome(w, s).alu) && Decode(w).regWrite
    ensures !Outcome(w, s).taken
  {
    hide ImmGen, Add, Alu, Rs1, Rs2, Opcode, Funct3, Funct7, AluOverflow, SignBit, ReadRam, ReadReg;
  }

  lemma SameMemoryAfterStore(imem: InstrMem, ram: DataMem, mem: Memory, addr: Word, v: Word, textEnd: int)
    requires SameMemory(imem, ram, mem, textEnd) && InDataWindow(addr, textEnd) && textEnd % 4 == 0
    ensures SameMemory(imem, WriteRam(ram, addr, v), PutWord(mem, addr, v), textEnd)
  {
    hide PutWord, GetWord;
    forall i | 0 <= i < 1024
      ensures GetWord(PutWord(mem, addr, v), 4 * i) == if 4 * i < textEnd then imem[i] else WriteRam(ram, addr, v)[i]
    {
      WordAfterStore(mem, addr, v, 4 * i);
    }
  }

  lemma StoreMemory(w: Word, cs: CppState)
    requires Opcode(w) == OP_STORE && Funct3(w) == 2
    ensures DecodeAndExecute(cs, w).mem == PutWord(cs.mem, Add(cs.regs[Rs1(w)], DecodeImmS(w)), cs.regs[Rs2(w)])
    ensures DecodeAndExecute(cs, w).regs == cs.regs && DecodeAndExecute(cs, w).pc == cs.pc
  {
    hide Add, Rs1, Rs2, Rd, Opcode, Funct3, PutWord, DecodeImmS;
  }

  lemma StoreAgrees(imem: InstrMem, s: Arch, cs: CppState, textEnd: int)
    requires Related(imem, s, cs, textEnd) && 0 <= textEnd && textEnd % 4 == 0 && Executable(imem, s, textEnd)
    requires Opcode(Instr(imem, s)) == OP_STORE
    ensures var w := Instr(imem, s);
            RegistersAndPcAgree(w, s, cs) && SameMemory(imem, StepRam(w, s), DecodeAndExecute(cs, w).mem, textEnd)
  {
    var w := Instr(imem, s);
    hide Instr, Outcome, Opcode, Funct3, ImmGen, Add, Rs1, Rs2, Rd, Step, StepRam, StepPc, StepRegs, DecodeAndExecute,
         PutWord, DecodeImmS, WriteRam, SameMemory;
    AddressAgrees(w, s);
    ImmediatesAgree(w);
    StoreResult(w, s);
    StoreMemory(w, cs);
    SameMemoryAfterStore(imem, s.ram, cs.mem, Outcome(w, s).alu, s.regs[Rs2(w)], textEnd);
  }

  lemma StoreResult(w: Word, s: Arch)
    requires Opcode(w) == OP_STORE && s.regs[0] == 0
    ensures StepRam(w, s) == WriteRam(s.ram, Outcome(w, s).alu, s.regs[Rs2(w)])
    ensures StepRegs(w, s) == s.regs && StepPc(w, s) == Add(s.pc, 4)
  {
    hide ImmGen, Add, Alu, Rs1, Rs2, Opcode, Funct3, Funct7, AluOverflow, SignBit;
  }

  lemma FetchAgrees(imem: InstrMem, s: Arch, cs: CppState, textEnd: int)
    requires Related(imem, s, cs, textEnd) && textEnd <= 4096 && Executable(imem, s, textEnd)
    ensures GetWord(cs.mem, cs.pc) == Instr(imem, s) && Running(cs)
  {
    hide GetWord, Supported, Outcome, Opcode;
    assert GetWord(cs.mem, 4 * (s.pc / 4)) == imem[s.pc / 4];
  }

  lemma OnlyStoresWrite(w: Word, s: Arch, cs: CppState)
    requires Opcode(w) != OP_STORE
    ensures DecodeAndExecute(cs, w).mem == cs.mem && StepRam(w, s) == s.ram
  {
    hide ImmGen, Add, Sub, Alu, Rs1, Rs2, Rd, Opcode, Funct3, Funct7, WriteReg, LoadEffect, ImmResult, RegResult;
  }

  lemma ZeroRegisterKept(w: Word, s: Arch)
    ensures StepRegs(w, s)[0] == s.regs[0]
  {
    hide Decode, RdValue, Rd;
  }

  /** One instruction: register file, pc and memory of the RTL's sequential
      machine stay those of the C++ simulator. */
  lemma StepAgrees(imem: InstrMem, s: Arch, cs: CppState, textEnd: int)
    requires 0 <= textEnd <= 4096 && textEnd % 4 == 0
    requires Related(imem, s, cs, textEnd) && Executable(imem, s, textEnd)
    ensures Running(cs) && Related(imem, Step(imem, s), Iterate(cs), textEnd)
  {
    hide DecodeAndExecute, StepRegs, StepPc, StepRam, GetWord, Opcode, Add, Instr;
    var w := Instr(imem, s);
    FetchAgrees(imem, s, cs, textEnd);
    ZeroRegisterKept(w, s);
    if Opcode(w) == OP_STORE {
      StoreAgrees(imem, s, cs, textEnd);
    } else {
      OnlyStoresWrite(w, s, cs);
      if Opcode(w) == OP_LOAD {
        LoadAgrees(imem, s, cs, textEnd);
      } else if Opcode(w) == OP_BRANCH {
        BranchAgrees(w, s, cs);
      } else if Opcode(w) == OP_JAL {
        JalAgrees(w, s, cs);
      } else if Opcode(w) == OP_JALR {
        JalrAgrees(w, s, cs);
      } else if Opcode(w) in {OP_IMM, OP_REG} {
        ArithmeticAgrees(w, s, cs);
      } else {
        UpperAgrees(w, s, cs);
      }
    }
  }

  /** Whole runs: the simulator's registers, pc and memory after k iterations are
      the sequential machine's after k instructions. */
  lemma {:induction false} RunAgrees(p: Execution, cs: CppState, textEnd: int, k: nat)
    requires 0 <= textEnd <= 4096 && textEnd % 4 == 0
    requires Related(p.imem, p.At(0), cs, textEnd)
    requires forall j: nat :: j < k ==> Executable(p.imem, p.At(j), textEnd)
    ensures Related(p.imem, p.At(k), Simulate(cs, k), textEnd)
  {
    hide Related, Executable, Step, Iterate, Running;
    if k > 0 {
      RunAgrees(p, cs, textEnd, k - 1);
      assert Executable(p.imem, p.At(k - 1), textEnd);
      StepAgrees(p.imem, p.At(k - 1), Simulate(cs, k - 1), textEnd);
    }
  }
}
