/**
 src/main.cpp: the instruction-set simulator. State is the three globals of the
 program; the class keeps them in place, and CppState is their value.

 Accesses past the 4096-byte memory, undefined in C++, read 0 and write nothing.
 */
module CppSimulator {
  import opened Words
  import opened Bits
  import opened Datapath

  type Byte = x: int | 0 <= x < 256
  type Memory = s: seq<Byte> | |s| == 4096 witness seq(4096, _ => 0)

  datatype CppState = CppState(regs: Regs, pc: Word, mem: Memory)

  // ---- execute_alu ----

  datatype AluOp = ADD | SUB | AND | OR | XOR | SLT | SLTU | SLL | SRL | SRA

  function ExecuteAlu(a: Word, b: Word, op: AluOp): Word {
    match op
    case ADD => Add(a, b)
    case SUB => Sub(a, b)
    case AND => Bitwise32(And, a, b)
    case OR => Bitwise32(Or, a, b)
    case XOR => Bitwise32(Xor, a, b)
    case SLT => if Signed(a) < Signed(b) then 1 else 0
    case SLTU => if a < b then 1 else 0
    case SLL => ShiftLeft(a, b)
    case SRL => ShiftRight(a, b)
    case SRA => ShiftRightArith(a, b)
  }

  // ---- immediate decoders ----

  function SignExtend12(imm: Word): Word {
    if imm / 2048 % 2 == 1 then BitOr(imm, 0xFFFF_F000) else imm
  }

  function AssembleB(b12: nat, b11: nat, b10: nat, b4: nat): Word
    requires b12 < 2 && b11 < 2 && b10 < 64 && b4 < 16
  {
    var imm := BitOr(BitOr(BitOr(b12 * 4096, b11 * 2048), b10 * 32), b4 * 2);
    if imm / 4096 % 2 == 1 then BitOr(imm, 0xFFFF_E000) else imm
  }

  function DecodeImmB(w: Word): Word {
    AssembleB(w / 0x8000_0000, w / 128 % 2, w / 33554432 % 64, w / 256 % 16)
  }

  function AssembleJ(b20: nat, b10: nat, b11: nat, b19: nat): Word
    requires b20 < 2 && b10 < 1024 && b11 < 2 && b19 < 256
  {
    var imm := BitOr(BitOr(BitOr(b20 * 1048576, b10 * 2), b11 * 2048), b19 * 4096);
    if imm / 1048576 % 2 == 1 then BitOr(imm, 0xFFE0_0000) else imm
  }

  function DecodeImmJ(w: Word): Word {
    AssembleJ(w / 0x8000_0000, w / 2097152 % 1024, w / 1048576 % 2, w / 4096 % 256)
  }

  function AssembleS(hi: nat, lo: nat): Word
    requires hi < 128 && lo < 32
  {
    var imm := BitOr(hi * 32, lo);
    if imm / 2048 % 2 == 1 then BitOr(imm, 0xFFFF_F000) else imm
  }

  function DecodeImmS(w: Word): Word {
    AssembleS(w / 33554432 % 128, w / 128 % 32)
  }

  // ---- memory ----

  function GetByte(mem: Memory, a: Word): Byte {
    if a < 4096 then mem[a] else 0
  }

  function PutByte(mem: Memory, a: Word, v: Byte): Memory {
    if a < 4096 then mem[a := v] else mem
  }

  /** Little-endian word at a. */
  function GetWord(mem: Memory, a: Word): Word {
    GetByte(mem, a) + GetByte(mem, Add(a, 1)) * 256 + GetByte(mem, Add(a, 2)) * 65536
    + GetByte(mem, Add(a, 3)) * 16777216
  }

  function PutHalf(mem: Memory, a: Word, v: Word): Memory {
    PutByte(PutByte(mem, a, v % 256), Add(a, 1), v / 256 % 256)
  }

  function PutWord(mem: Memory, a: Word, v: Word): Memory {
    PutByte(PutByte(PutHalf(mem, a, v), Add(a, 2), v / 65536 % 256), Add(a, 3), v / 16777216)
  }

  // ---- decode_and_execute ----

  function SignExtendByte(b: Byte): Word {
    if b >= 128 then 0xFFFF_FF00 + b else b
  }

  function SignExtendHalf(lo: Byte, hi: Byte): Word {
    if hi >= 128 then 0xFFFF_0000 + hi * 256 + lo else hi * 256 + lo
  }

  function ImmResult(w: Word, a: Word): Word {
    var imm := SignExtend12(w / 1048576);
    match Funct3(w)
    case 0 => ExecuteAlu(a, imm, ADD)
    case 1 => ExecuteAlu(a, Rs2(w), SLL)
    case 2 => ExecuteAlu(a, imm, SLT)
    case 3 => ExecuteAlu(a, imm, SLTU)
    case 4 => ExecuteAlu(a, imm, XOR)
    case 5 => ExecuteAlu(a, Rs2(w), if w / 1073741824 % 2 == 1 then SRA else SRL)
    case 6 => ExecuteAlu(a, imm, OR)
    case _ => ExecuteAlu(a, imm, AND)
  }

  function RegResult(w: Word, a: Word, b: Word): Word {
    match Funct3(w)
    case 0 => ExecuteAlu(a, b, if Funct7(w) == 0x20 then SUB else ADD)
    case 1 => ExecuteAlu(a, b % 32, SLL)
    case 2 => ExecuteAlu(a, b, SLT)
    case 3 => ExecuteAlu(a, b, SLTU)
    case 4 => ExecuteAlu(a, b, XOR)
    case 5 => ExecuteAlu(a, b % 32, if Funct7(w) == 0x20 then SRA else SRL)
    case 6 => ExecuteAlu(a, b, OR)
    case _ => ExecuteAlu(a, b, AND)
  }

  predicate BranchCondition(f3: int, a: Word, b: Word) {
    match f3
    case 0 => a == b
    case 1 => a != b
    case 4 => Signed(a) < Signed(b)
    case 5 => Signed(a) >= Signed(b)
    case 6 => a < b
    case 7 => a >= b
    case _ => false
  }

  datatype Loaded = NoValue | Value(v: Word)

  function LoadValue(f3: int, mem: Memory, a: Word): Loaded {
    match f3
    case 0 => Value(SignExtendByte(GetByte(mem, a)))
    case 1 => Value(SignExtendHalf(GetByte(mem, a), GetByte(mem, Add(a, 1))))
    case 2 => Value(GetWord(mem, a))
    case 4 => Value(GetByte(mem, a))
    case 5 => Value(GetByte(mem, a) + GetByte(mem, Add(a, 1)) * 256)
    case _ => NoValue
  }

  function StoreValue(f3: int, mem: Memory, a: Word, v: Word): Memory {
    match f3
    case 0 => PutByte(mem, a, v % 256)
    case 1 => PutHalf(mem, a, v)
    case 2 => PutWord(mem, a, v)
    case _ => mem
  }

  const OP_SYSTEM := 0x73

  function LoadEffect(s: CppState, w: Word): Regs {
    var addr := Add(s.regs[Rs1(w)], SignExtend12(w / 1048576));
    if Add(addr, 3) >= 4096 then s.regs
    else
      match LoadValue(Funct3(w), s.mem, addr)
      case NoValue => s.regs
      case Value(v) => WriteReg(s.regs, Rd(w), v)
  }

  /** The three globals after decode_and_execute; run_sim still adds 4 to pc.
      FENCE and unknown opcodes change nothing. */
  function DecodeAndExecute(s: CppState, w: Word): CppState {
    var a, b := s.regs[Rs1(w)], s.regs[Rs2(w)];
    var op := Opcode(w);
    if op == OP_IMM then s.(regs := WriteReg(s.regs, Rd(w), ImmResult(w, a)))
    else if op == OP_REG then s.(regs := WriteReg(s.regs, Rd(w), RegResult(w, a, b)))
    else if op == OP_STORE then s.(mem := StoreValue(Funct3(w), s.mem, Add(a, DecodeImmS(w)), b))
    else if op == OP_BRANCH then
      s.(pc := if BranchCondition(Funct3(w), a, b) then Sub(Add(s.pc, DecodeImmB(w)), 4) else s.pc)
    else if op == OP_LOAD then s.(regs := LoadEffect(s, w))
    else if op == OP_JALR then
      var target := Add(a, SignExtend12(w / 1048576));
      s.(regs := WriteReg(s.regs, Rd(w), Add(s.pc, 4)), pc := Sub(target - target % 2, 4))
    else if op == OP_LUI then s.(regs := WriteReg(s.regs, Rd(w), w / 4096 * 4096))
    else if op == OP_AUIPC then s.(regs := WriteReg(s.regs, Rd(w), Add(s.pc, w / 4096 * 4096)))
    else if op == OP_JAL then
      s.(regs := WriteReg(s.regs, Rd(w), Add(s.pc, 4)), pc := Sub(Add(s.pc, DecodeImmJ(w)), 4))
    else if op == OP_SYSTEM then s.(pc := if s.regs[17] == 10 then 4096 else s.pc)
    else s
  }

  /** One iteration of run_sim's loop. */
  function Iterate(s: CppState): CppState {
    var s' := DecodeAndExecute(s, GetWord(s.mem, s.pc));
    s'.(pc := Add(s'.pc, 4))
  }

  predicate Running(s: CppState) {
    s.pc < 4096 && GetWord(s.mem, s.pc) != 0
  }

  /** run_sim cut off after n iterations. */
  function Simulate(s: CppState, n: nat): CppState
    decreases n
  {
    hide Iterate, Running;
    if n == 0 then s
    else
      var t := Simulate(s, n - 1);
      if Running(t) then Iterate(t) else t
  }
}
