/**
 RV32I as the manual has it: what an instruction word does to rd, pc and memory,
 said with bits, congruences and inequalities. The sequential machine and the C++
 simulator are each proved to do that.
 */
module Isa {
  import opened Words
  import opened Datapath
  import opened AluLaws
  import opened Sequential
  import opened Execution
  import opened CppSimulator
  import opened Equivalence

  // ---- immediates, as signed numbers ----

  function ImmI(w: Word): int {
    Signed(w) / 1048576
  }

  function ImmS(w: Word): int {
    Signed(w) / 33554432 * 32 + w / 128 % 32
  }

  function ImmB(w: Word): int {
    (if Signed(w) < 0 then -4096 else 0) + w / 128 % 2 * 2048 + w / 33554432 % 64 * 32 + w / 256 % 16 * 2
  }

  function ImmU(w: Word): int {
    w - w % 4096
  }

  function ImmJ(w: Word): int {
    (if Signed(w) < 0 then -1048576 else 0) + w / 4096 % 256 * 4096 + w / 1048576 % 2 * 2048 + w / 2097152 % 1024 * 2
  }

  lemma TwelveBits(w: Word)
    ensures Congruent(SignFill12(w) + w / 1048576, ImmI(w))
    ensures Congruent(SignFill12(w) + w / 33554432 * 32 + w / 128 % 32, ImmS(w))
  {
  }

  lemma BranchBits(w: Word)
    ensures Congruent(SignFill12(w) + w / 128 % 2 * 2048 + w / 33554432 % 64 * 32 + w / 256 % 16 * 2, ImmB(w))
  {
  }

  lemma JumpBits(w: Word)
    ensures Congruent(SignFill20(w) + w / 4096 % 256 * 4096 + w / 1048576 % 2 * 2048 + w / 2097152 % 1024 * 2, ImmJ(w))
  {
  }

  lemma UpperBits(w: Word)
    ensures Congruent(w / 4096 * 4096, ImmU(w))
  {
  }

  /** What imm_gen.sv makes of each format. */
  lemma ImmediateIs(w: Word)
    ensures Opcode(w) in {OP_IMM, OP_LOAD, OP_JALR} ==> Congruent(ImmGen(w), ImmI(w))
    ensures Opcode(w) == OP_STORE ==> Congruent(ImmGen(w), ImmS(w))
    ensures Opcode(w) == OP_BRANCH ==> Congruent(ImmGen(w), ImmB(w))
    ensures Opcode(w) in {OP_LUI, OP_AUIPC} ==> Congruent(ImmGen(w), ImmU(w))
    ensures Opcode(w) == OP_JAL ==> Congruent(ImmGen(w), ImmJ(w))
  {
    hide ImmI, ImmS, ImmB, ImmU, ImmJ, Congruent, Opcode, SignFill12, SignFill20;
    TwelveBits(w);
    BranchBits(w);
    JumpBits(w);
    UpperBits(w);
  }

  // ---- results ----

  /** OP and OP-IMM by function code; alternate is bit 30. */
  predicate Arithmetic(f3: int, alternate: bool, a: Word, b: Word, r: Word) {
    match f3
    case 0 => Congruent(r, if alternate then a - b else a + b)
    case 1 => MovedUp(a, b % 32, r)
    case 2 => IsTruth(r, Signed(a) < Signed(b))
    case 3 => IsTruth(r, a < b)
    case 4 => IsXor(a, b, r)
    case 5 => if alternate then MovedDown(Signed(a), b % 32, Signed(r)) else MovedDown(a, b % 32, r)
    case 6 => IsOr(a, b, r)
    case _ => IsAnd(a, b, r)
  }

  /** r is what a word that is no load writes to rd. */
  predicate Result(w: Word, pc: Word, regs: Regs, r: Word) {
    var a, b, op := regs[Rs1(w)], regs[Rs2(w)], Opcode(w);
    if op == OP_REG then Arithmetic(Funct3(w), Funct7(w) == 0x20, a, b, r)
    else if op == OP_IMM then Arithmetic(Funct3(w), Funct3(w) == 5 && w / 1073741824 % 2 == 1, a, Wrap(ImmI(w)), r)
    else if op == OP_LUI then Congruent(r, ImmU(w))
    else if op == OP_AUIPC then Congruent(r, pc + ImmU(w))
    else Congruent(r, pc + 4)
  }

  predicate Compares(f3: int, a: Word, b: Word) {
    match f3
    case 0 => a == b
    case 1 => a != b
    case 4 => Signed(a) < Signed(b)
    case 5 => Signed(b) <= Signed(a)
    case 6 => a < b
    case 7 => b <= a
    case _ => false
  }

  predicate GoesTo(w: Word, pc: Word, regs: Regs, next: Word) {
    var a, b, op := regs[Rs1(w)], regs[Rs2(w)], Opcode(w);
    if op == OP_JAL then Congruent(next, pc + ImmJ(w))
    else if op == OP_JALR then next % 2 == 0 && (Congruent(next, a + ImmI(w)) || Congruent(next + 1, a + ImmI(w)))
    else if op == OP_BRANCH && Compares(Funct3(w), a, b) then Congruent(next, pc + ImmB(w))
    else Congruent(next, pc + 4)
  }

  predicate HasResult(w: Word) {
    Opcode(w) in {OP_REG, OP_IMM, OP_LUI, OP_AUIPC, OP_JAL, OP_JALR}
  }

  /** Every register but rd keeps its value, x0 always. */
  predicate OnlyRd(regs: Regs, regs': Regs, rd: RegIdx) {
    forall i :: 0 <= i < 32 && (i != rd || i == 0) ==> regs'[i] == regs[i]
  }

  // ---- the sequential machine ----

  /** Both ALUs, through both decoders. */
  lemma ArithmeticIs(w: Word, pc: Word, regs: Regs)
    requires Opcode(w) == OP_IMM || (Opcode(w) == OP_REG && Funct7(w) in {0, 0x20})
    ensures var a, b := regs[Rs1(w)], regs[Rs2(w)];
            Result(w, pc, regs, Alu(Decode(w).aluControl, a, if Opcode(w) == OP_REG then b else ImmGen(w)))
  {
    var a, b := regs[Rs1(w)], if Opcode(w) == OP_REG then regs[Rs2(w)] else ImmGen(w);
    hide Alu, IsAnd, IsOr, IsXor, MovedUp, MovedDown, Congruent, IsTruth, Opcode, Funct7, ImmGen, ImmI, Rs1, Rs2, Wrap;
    AluComputes(Decode(w).aluControl, a, b);
    if Opcode(w) == OP_IMM {
      ShiftAmount(w);
      ImmediateIs(w);
      CongruentWord(ImmGen(w), ImmI(w));
    }
  }

  lemma CongruentWord(r: Word, x: int)
    ensures Congruent(r, x) <==> r == Wrap(x)
  {
  }

  lemma UpperIs(w: Word, pc: Word, regs: Regs)
    requires Opcode(w) in {OP_LUI, OP_AUIPC}
    ensures Result(w, pc, regs, if Opcode(w) == OP_LUI then w / 4096 * 4096 else Add(pc, w / 4096 * 4096))
  {
    hide Rs1, Rs2, Opcode;
  }

  lemma LinkIs(w: Word, pc: Word, regs: Regs)
    requires Opcode(w) in {OP_JAL, OP_JALR}
    ensures Result(w, pc, regs, Add(pc, 4))
  {
    hide Rs1, Rs2, Opcode;
  }

  /** The value written to rd. */
  lemma SequentialResult(w: Word, s: Arch)
    requires HasResult(w) && Supported(w) && s.regs[0] == 0
    ensures Decode(w).regWrite && Result(w, s.pc, s.regs, RdValue(w, s))
  {
    hide Result, Alu, Rs1, Rs2, Opcode, Funct3, Funct7, ImmGen, Add, AluOverflow, SignBit, BranchTaken, AluControlReg,
         AluControlImm;
    if Opcode(w) in {OP_REG, OP_IMM} {
      ArithmeticIs(w, s.pc, s.regs);
    } else if Opcode(w) in {OP_LUI, OP_AUIPC} {
      UpperIs(w, s.pc, s.regs);
      UpperImmediate(w);
      AddIsAlu(s.pc, ImmGen(w));
    } else {
      LinkIs(w, s.pc, s.regs);
    }
  }

  lemma AddIsAlu(a: Word, b: Word)
    ensures Alu(0, a, b) == Add(a, b)
  {
  }

  lemma SumCongruent(a: Word, b: Word, x: int)
    requires Congruent(b, x)
    ensures Congruent(Add(a, b), a + x)
  {
  }

  lemma JumpIs(w: Word, pc: Word, regs: Regs)
    requires Opcode(w) == OP_JAL
    ensures GoesTo(w, pc, regs, Add(pc, ImmGen(w)))
  {
    hide ImmGen, ImmJ, Rs1, Rs2, Opcode, Congruent, Add;
    ImmediateIs(w);
    SumCongruent(pc, ImmGen(w), ImmJ(w));
  }

  lemma IndirectIs(w: Word, pc: Word, regs: Regs)
    requires Opcode(w) == OP_JALR
    ensures var t := Add(regs[Rs1(w)], ImmGen(w)); GoesTo(w, pc, regs, t - t % 2)
  {
    hide ImmGen, ImmI, Rs1, Rs2, Opcode, Congruent, Add;
    ImmediateIs(w);
    SumCongruent(regs[Rs1(w)], ImmGen(w), ImmI(w));
  }

  lemma BranchIs(w: Word, pc: Word, regs: Regs)
    requires Opcode(w) == OP_BRANCH
    ensures GoesTo(w, pc, regs, if BranchCondition(Funct3(w), regs[Rs1(w)], regs[Rs2(w)]) then Add(pc, ImmGen(w))
                                else Add(pc, 4))
  {
    hide ImmGen, ImmB, Rs1, Rs2, Opcode, Funct3, Congruent, Add, Signed;
    ImmediateIs(w);
    SumCongruent(pc, ImmGen(w), ImmB(w));
    FourCongruent(pc);
  }

  lemma FourCongruent(pc: Word)
    ensures Congruent(Add(pc, 4), pc + 4)
  {
  }

  lemma SequentialGoesTo(w: Word, s: Arch)
    requires Supported(w) && s.regs[0] == 0
    ensures GoesTo(w, s.pc, s.regs, StepPc(w, s))
  {
    hide Alu, Rs1, Rs2, Opcode, Funct3, Funct7, ImmGen, Add, AluOverflow, SignBit, BranchTaken, AluControlReg,
         AluControlImm, BranchCondition;
    if Opcode(w) == OP_JAL {
      JumpIs(w, s.pc, s.regs);
    } else if Opcode(w) == OP_JALR {
      IndirectIs(w, s.pc, s.regs);
      AddIsAlu(s.regs[Rs1(w)], ImmGen(w));
    } else if Opcode(w) == OP_BRANCH {
      BranchIs(w, s.pc, s.regs);
      BranchFlagsAgree(Funct3(w), s.regs[Rs1(w)], s.regs[Rs2(w)]);
    } else {
      NextIs(w, s.pc, s.regs);
    }
  }

  lemma NextIs(w: Word, pc: Word, regs: Regs)
    requires Opcode(w) !in {OP_JAL, OP_JALR, OP_BRANCH}
    ensures GoesTo(w, pc, regs, Add(pc, 4))
  {
    hide Rs1, Rs2, Opcode;
  }

  /** The data memory and rd after a word load or store whose address is addr. */
  lemma SequentialAccess(w: Word, s: Arch, addr: Word)
    requires Supported(w) && s.regs[0] == 0 && addr < 4096
    ensures Opcode(w) == OP_LOAD && Congruent(addr, s.regs[Rs1(w)] + ImmI(w)) ==>
              Decode(w).regWrite && RdValue(w, s) == s.ram[addr / 4]
    ensures Opcode(w) == OP_STORE && Congruent(addr, s.regs[Rs1(w)] + ImmS(w)) ==>
              StepRam(w, s) == s.ram[addr / 4 := s.regs[Rs2(w)]]
  {
    hide Rs1, Rs2, Opcode, ImmGen, ImmI, ImmS, Outcome, RdValue, Wrap;
    ImmediateIs(w);
    if Opcode(w) == OP_LOAD && Congruent(addr, s.regs[Rs1(w)] + ImmI(w)) {
      AddressAgrees(w, s);
      SumOfCongruent(s.regs[Rs1(w)], ImmGen(w), ImmI(w), addr);
      LoadResult(w, s);
    }
    if Opcode(w) == OP_STORE && Congruent(addr, s.regs[Rs1(w)] + ImmS(w)) {
      AddressAgrees(w, s);
      SumOfCongruent(s.regs[Rs1(w)], ImmGen(w), ImmS(w), addr);
    }
  }

  lemma SumOfCongruent(a: Word, b: Word, x: int, sum: Word)
    requires Congruent(b, x) && Congruent(sum, a + x)
    ensures Add(a, b) == sum
  {
  }

  /** One instruction, from s to s'. A data access counts if it is in the data
      memory. */
  ghost predicate Manual(w: Word, s: Arch, s': Arch) {
    && GoesTo(w, s.pc, s.regs, s'.pc)
    && OnlyRd(s.regs, s'.regs, Rd(w))
    && (HasResult(w) && Rd(w) != 0 ==> Result(w, s.pc, s.regs, s'.regs[Rd(w)]))
    && (Opcode(w) in {OP_BRANCH, OP_STORE} ==> s'.regs == s.regs)
    && (Opcode(w) != OP_STORE ==> s'.ram == s.ram)
    && forall addr: Word :: addr < 4096 ==> Accesses(w, s, s', addr)
  }

  predicate Accesses(w: Word, s: Arch, s': Arch, addr: Word)
    requires addr < 4096
  {
    && (Opcode(w) == OP_LOAD && Rd(w) != 0 && Congruent(addr, s.regs[Rs1(w)] + ImmI(w)) ==>
          s'.regs[Rd(w)] == s.ram[addr / 4])
    && (Opcode(w) == OP_STORE && Congruent(addr, s.regs[Rs1(w)] + ImmS(w)) ==>
          s'.ram == s.ram[addr / 4 := s.regs[Rs2(w)]])
  }

  lemma SequentialMeetsIsa(imem: InstrMem, s: Arch)
    requires Supported(Instr(imem, s)) && s.regs[0] == 0
    ensures Manual(Instr(imem, s), s, Step(imem, s))
  {
    hide Rs1, Rs2, Rd, Opcode, Funct3, Funct7, ImmI, ImmS, Result, GoesTo, RdValue, Outcome, Congruent, StepPc, Fetch,
         StoredValue, AluControlReg, AluControlImm;
    var w := Instr(imem, s);
    SequentialGoesTo(w, s);
    if HasResult(w) {
      SequentialResult(w, s);
    }
    forall addr: Word | addr < 4096
      ensures Accesses(w, s, Step(imem, s), addr)
    {
      SequentialAccess(w, s, addr);
    }
  }

  lemma {:induction false} ZeroRegister(p: Execution, k: nat)
    ensures p.At(k).regs[0] == 0
  {
    hide Outcome, RdValue, StepPc, StepRam;
    if k > 0 {
      ZeroRegister(p, k - 1);
    }
  }

  /** Every run of the sequential machine, and so what the core logs of it, is the
      manual's, instruction by instruction. */
  lemma RunMeetsIsa(p: Execution, k: nat)
    requires Supported(p.WordAt(k))
    ensures Manual(p.WordAt(k), p.At(k), p.At(k + 1))
  {
    hide Step, Manual, Start;
    ZeroRegister(p, k);
    SequentialMeetsIsa(p.imem, p.At(k));
  }

  /** What the RTL makes of words outside the subset: the codes of OP it does not
      know run as the ones they resemble, unknown branches fall through, and unknown
      opcodes do nothing. */
  lemma BeyondTheSubset(w: Word, s: Arch)
    requires !Supported(w) && s.regs[0] == 0
    ensures Opcode(w) == OP_REG ==>
              Arithmetic(Funct3(w), if Funct3(w) == 0 then Funct7(w) == 0x20 else Funct7(w) / 32 % 2 == 1,
                         s.regs[Rs1(w)], s.regs[Rs2(w)], RdValue(w, s))
    ensures Opcode(w) == OP_BRANCH ==> StepPc(w, s) == Add(s.pc, 4) && StepRegs(w, s) == s.regs && StepRam(w, s) == s.ram
    ensures Opcode(w) !in {OP_REG, OP_BRANCH, OP_LOAD, OP_STORE} ==>
              StepPc(w, s) == Add(s.pc, 4) && StepRegs(w, s) == s.regs && StepRam(w, s) == s.ram
  {
    hide Alu, Rs1, Rs2, Opcode, Funct7, ImmGen, Add, AluOverflow, SignBit, IsAnd, IsOr, IsXor, MovedUp, MovedDown,
         Congruent, IsTruth;
    AluComputes(Decode(w).aluControl, s.regs[Rs1(w)], s.regs[Rs2(w)]);
  }

  // ---- the C++ simulator ----

  function AluCode(op: AluOp): nat {
    match op
    case ADD => 0 case SUB => 1 case AND => 2 case OR => 3 case XOR => 4
    case SLL => 5 case SRL => 6 case SRA => 7 case SLT => 8 case SLTU => 9
  }

  lemma CppAlu(a: Word, b: Word, op: AluOp)
    requires op in {SLL, SRL, SRA} ==> b < 32
    ensures Computes(AluCode(op), a, b, ExecuteAlu(a, b, op))
  {
    hide IsAnd, IsOr, IsXor, MovedUp, MovedDown, Congruent, IsTruth, Add, Sub, Bitwise32, ShiftLeft, ShiftRight,
         ShiftRightArith;
    AluComputes(AluCode(op), a, b);
  }

  /** OP words of any funct7. */
  lemma CppRegister(w: Word, a: Word, b: Word)
    ensures Arithmetic(Funct3(w), Funct7(w) == 0x20, a, b, RegResult(w, a, b))
  {
    hide IsAnd, IsOr, IsXor, IsTruth, ExecuteAlu, Funct3, Funct7, Congruent, MovedUp, MovedDown, Signed;
    LowFive(b / 32, b % 32);
    Funct3Range(w);
    CppAlu(a, b, if Funct7(w) == 0x20 then SUB else ADD);
    CppAlu(a, b, SLT);
    CppAlu(a, b, SLTU);
    CppAlu(a, b, XOR);
    CppAlu(a, b, OR);
    CppAlu(a, b, AND);
    CppAlu(a, b % 32, SLL);
    CppAlu(a, b % 32, if Funct7(w) == 0x20 then SRA else SRL);
  }

  /** Every instruction with a result and no load, OP with any funct7. */
  lemma CppResult(w: Word, s: CppState)
    requires HasResult(w)
    ensures var s' := CppSimulator.DecodeAndExecute(s, w);
            OnlyRd(s.regs, s'.regs, Rd(w)) && (Rd(w) != 0 ==> Result(w, s.pc, s.regs, s'.regs[Rd(w)])) && s'.mem == s.mem
  {
    hide Result, Alu, Rs1, Rs2, Rd, Opcode, Funct3, Funct7, ImmGen, Add, Sub, ImmResult, RegResult, DecodeImmJ,
         SignExtend12, AluControlReg, AluControlImm, Arithmetic;
    if Opcode(w) == OP_IMM {
      ArithmeticIs(w, s.pc, s.regs);
      ImmediateAluAgrees(w, s.regs[Rs1(w)]);
    } else if Opcode(w) == OP_REG {
      CppRegister(w, s.regs[Rs1(w)], s.regs[Rs2(w)]);
      RegisterIs(w, s.pc, s.regs, RegResult(w, s.regs[Rs1(w)], s.regs[Rs2(w)]));
    } else if Opcode(w) in {OP_LUI, OP_AUIPC} {
      UpperIs(w, s.pc, s.regs);
    } else {
      LinkIs(w, s.pc, s.regs);
    }
  }

  lemma RegisterIs(w: Word, pc: Word, regs: Regs, r: Word)
    requires Opcode(w) == OP_REG
    ensures Result(w, pc, regs, r) <==>
            Arithmetic(Funct3(w), Funct7(w) == 0x20, regs[Rs1(w)], regs[Rs2(w)], r)
  {
    hide Arithmetic, Opcode, Funct3, Funct7, Rs1, Rs2;
  }

  /** All six branches, both jumps, and everything that goes on; ECALL apart. */
  lemma CppGoesTo(w: Word, s: CppState)
    requires Opcode(w) != OP_SYSTEM
    ensures var s' := CppSimulator.DecodeAndExecute(s, w);
            && GoesTo(w, s.pc, s.regs, Add(s'.pc, 4))
            && (Opcode(w) == OP_BRANCH ==> s'.regs == s.regs && s'.mem == s.mem)
  {
    hide Rs1, Rs2, Rd, Opcode, Funct3, Funct7, ImmGen, Add, Sub, ImmResult, RegResult, DecodeImmJ, DecodeImmB,
         DecodeImmS, SignExtend12, BranchCondition, GoesTo, LoadEffect, StoreValue;
    ImmediatesAgree(w);
    if Opcode(w) == OP_JAL {
      JumpIs(w, s.pc, s.regs);
      SubAdd(Add(s.pc, ImmGen(w)));
    } else if Opcode(w) == OP_JALR {
      IndirectIs(w, s.pc, s.regs);
      var t := Add(s.regs[Rs1(w)], ImmGen(w));
      SubAdd(t - t % 2);
    } else if Opcode(w) == OP_BRANCH {
      BranchIs(w, s.pc, s.regs);
      SubAdd(Add(s.pc, ImmGen(w)));
    } else {
      NextIs(w, s.pc, s.regs);
    }
  }

  /** FENCE and every opcode it does not know. */
  lemma CppNothing(w: Word, s: CppState)
    requires !HasResult(w) && Opcode(w) !in {OP_BRANCH, OP_LOAD, OP_STORE, OP_SYSTEM}
    ensures CppSimulator.DecodeAndExecute(s, w) == s
  {
    hide Opcode;
  }

  /** ECALL ends the program exactly if x17 is 10, and changes nothing else. */
  lemma CppEcall(s: CppState)
    requires Opcode(GetWord(s.mem, s.pc)) == OP_SYSTEM && s.pc < 4096
    ensures var s' := Iterate(s);
            && s'.regs == s.regs && s'.mem == s.mem
            && (s.regs[17] == 10 ==> s'.pc >= 4096) && (s.regs[17] != 10 ==> s'.pc == s.pc + 4)
  {
    hide GetWord, Opcode;
  }

  /** Bytes, half-words and words read from addr, extended as the load says. */
  predicate Read(f3: int, mem: Memory, addr: nat, v: Word)
    requires addr + 4 <= 4096
  {
    var b0: int, b1: int, b2: int, b3: int := mem[addr], mem[addr + 1], mem[addr + 2], mem[addr + 3];
    var half := b0 + b1 * 256;
    match f3
    case 0 => -128 <= Signed(v) < 128 && (Signed(v) - b0) % 256 == 0
    case 1 => -32768 <= Signed(v) < 32768 && (Signed(v) - half) % 65536 == 0
    case 2 => v == half + b2 * 65536 + b3 * 16777216
    case 4 => v == b0
    case 5 => v == half
    case _ => false
  }

  /** All five loads. */
  lemma CppLoad(w: Word, s: CppState, addr: Word)
    requires Opcode(w) == OP_LOAD && Congruent(addr, s.regs[Rs1(w)] + ImmI(w))
    ensures var s' := CppSimulator.DecodeAndExecute(s, w);
            && OnlyRd(s.regs, s'.regs, Rd(w)) && s'.mem == s.mem
            && (Add(addr, 3) >= 4096 || Funct3(w) in {3, 6, 7} ==> s'.regs == s.regs)
            && (addr + 4 <= 4096 && Funct3(w) !in {3, 6, 7} && Rd(w) != 0 ==>
                  Read(Funct3(w), s.mem, addr, s'.regs[Rd(w)]))
  {
    hide Rs1, Rs2, Rd, Opcode, Funct3, ImmI, SignExtend12, ImmGen, LoadValue, Read, Add;
    ImmediateIs(w);
    ImmediatesAgree(w);
    SumOfCongruent(s.regs[Rs1(w)], ImmGen(w), ImmI(w), addr);
    Funct3Range(w);
    if addr + 4 <= 4096 {
      ThreeUp(addr);
    }
    if addr + 4 <= 4096 && Funct3(w) !in {3, 6, 7} {
      ReadIs(Funct3(w), s.mem, addr);
    }
    LoadNothing(Funct3(w), s.mem, addr);
  }

  lemma Funct3Range(w: Word)
    ensures 0 <= Funct3(w) < 8
  {
  }

  lemma ThreeUp(addr: Word)
    requires addr + 4 <= 4096
    ensures Add(addr, 3) < 4096
  {
  }

  lemma LoadNothing(f3: int, mem: Memory, addr: Word)
    ensures LoadValue(f3, mem, addr).NoValue? <==> f3 !in {0, 1, 2, 4, 5}
  {
    hide GetWord, SignExtendByte, SignExtendHalf, GetByte;
  }

  lemma ReadIs(f3: int, mem: Memory, addr: Word)
    requires addr + 4 <= 4096 && f3 in {0, 1, 2, 4, 5}
    ensures LoadValue(f3, mem, addr).Value? && Read(f3, mem, addr, LoadValue(f3, mem, addr).v)
  {
    SmallOffsets(addr);
    hide Add;
  }

  function Bytes(f3: int): int {
    match f3 case 0 => 1 case 1 => 2 case 2 => 4 case _ => 0
  }

  /** All three stores: the low bytes of the register, lowest first. */
  lemma CppStore(w: Word, s: CppState, addr: Word)
    requires Opcode(w) == OP_STORE && Congruent(addr, s.regs[Rs1(w)] + ImmS(w)) && addr + 4 <= 4096
    ensures var s', v := CppSimulator.DecodeAndExecute(s, w), s.regs[Rs2(w)];
            && s'.regs == s.regs
            && forall i :: 0 <= i < 4096 ==>
                 s'.mem[i] == if addr <= i < addr + Bytes(Funct3(w)) then v / Pow2(8 * (i - addr)) % 256 else s.mem[i]
  {
    hide Rs1, Rs2, Rd, Opcode, Funct3, ImmS, DecodeImmS, ImmGen, StoreValue, Add, Pow2, Bytes;
    ImmediateIs(w);
    ImmediatesAgree(w);
    SumOfCongruent(s.regs[Rs1(w)], ImmGen(w), ImmS(w), addr);
    Funct3Range(w);
    StoreIs(Funct3(w), s.mem, addr, s.regs[Rs2(w)]);
  }

  lemma WordIs(mem: Memory, addr: Word, v: Word)
    requires addr + 4 <= 4096
    ensures forall i :: 0 <= i < 4096 ==>
              PutWord(mem, addr, v)[i] == if addr <= i < addr + 4 then v / Pow2(8 * (i - addr)) % 256 else mem[i]
  {
    SmallOffsets(addr);
    BytePowers();
    hide Add, Pow2;
  }

  lemma StoreIs(f3: int, mem: Memory, addr: Word, v: Word)
    requires addr + 4 <= 4096
    ensures forall i :: 0 <= i < 4096 ==>
              StoreValue(f3, mem, addr, v)[i] ==
              if addr <= i < addr + Bytes(f3) then v / Pow2(8 * (i - addr)) % 256 else mem[i]
  {
    hide Add, Pow2, PutWord;
    if f3 == 2 {
      WordIs(mem, addr, v);
    } else {
      SmallOffsets(addr);
      BytePowers();
    }
  }

  lemma BytePowers()
    ensures Pow2(0) == 1 && Pow2(8) == 256 && Pow2(16) == 65536 && Pow2(24) == 16777216
  {
    assert Pow2(8) == 256;
    hide Pow2;
    Pow2Adds(8, 8);
    Pow2Adds(16, 8);
    assert Pow2(0) == 1 by { Pow2AtZero(); }
  }

  lemma Pow2AtZero()
    ensures Pow2(0) == 1
  {
  }
}
