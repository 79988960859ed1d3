/**
 The stateless parts of the core: instruction fields, imm_gen.sv,
 control_unit.sv, alu.sv, hazard_unit.sv, forward_unit.sv, and the EX-stage and
 WB-stage multiplexers of riscv_core.sv.
 */
module Datapath {
  import opened Words

  // ---- instruction fields ----

  function Opcode(w: Word): int { w % 128 }
  function Rd(w: Word): RegIdx { w / 128 % 32 }
  function Funct3(w: Word): int { w / 4096 % 8 }
  function Rs1(w: Word): RegIdx { w / 32768 % 32 }
  function Rs2(w: Word): RegIdx { w / 1048576 % 32 }
  function Funct7(w: Word): int { w / 33554432 }

  const OP_REG := 0x33
  const OP_IMM := 0x13
  const OP_LOAD := 0x03
  const OP_STORE := 0x23
  const OP_BRANCH := 0x63
  const OP_JAL := 0x6F
  const OP_JALR := 0x67
  const OP_LUI := 0x37
  const OP_AUIPC := 0x17

  // ---- imm_gen.sv ----

  /** The replicated sign bits {20{w[31]}} and {12{w[31]}} at the top of a word. */
  function SignFill12(w: Word): int {
    if w >= 0x8000_0000 then 0xFFFF_F000 else 0
  }

  function SignFill20(w: Word): int {
    if w >= 0x8000_0000 then 0xFFF0_0000 else 0
  }

  function ImmGen(w: Word): Word {
    var op := Opcode(w);
    if op == OP_IMM || op == OP_LOAD || op == OP_JALR then
      SignFill12(w) + w / 1048576
    else if op == OP_STORE then
      SignFill12(w) + Funct7(w) * 32 + Rd(w)
    else if op == OP_BRANCH then
      SignFill12(w) + w / 128 % 2 * 2048 + w / 33554432 % 64 * 32 + w / 256 % 16 * 2
    else if op == OP_JAL then
      SignFill20(w) + w / 4096 % 256 * 4096 + w / 1048576 % 2 * 2048 + w / 2097152 % 1024 * 2
    else if op == OP_LUI || op == OP_AUIPC then
      w / 4096 * 4096
    else
      0
  }

  // ---- control_unit.sv ----

  datatype Control = Control(
    regWrite: bool, aluSrc: bool, aluControl: nat, memToReg: bool, memRead: bool,
    memWrite: bool, branch: bool, jump: bool, jalr: bool, lui: bool, auipc: bool)

  const NO_CONTROL := Control(false, false, 0, false, false, false, false, false, false, false, false)

  function AluControlReg(f3: int, f7: int): nat {
    match f3
    case 0 => if f7 == 0x20 then 1 else 0
    case 7 => 2
    case 6 => 3
    case 1 => 5
    case 4 => 4
    case 5 => if f7 / 32 % 2 == 1 then 7 else 6
    case 2 => 8
    case 3 => 9
    case _ => 0
  }

  function AluControlImm(f3: int, f7: int): nat {
    match f3
    case 0 => 0
    case 7 => 2
    case 6 => 3
    case 4 => 4
    case 1 => 5
    case 5 => if f7 / 32 % 2 == 1 then 7 else 6
    case 2 => 8
    case 3 => 9
    case _ => 0
  }

  function ControlUnit(opcode: int, f3: int, f7: int): Control {
    if opcode == OP_REG then
      NO_CONTROL.(regWrite := true, aluControl := AluControlReg(f3, f7))
    else if opcode == OP_IMM then
      NO_CONTROL.(regWrite := true, aluSrc := true, aluControl := AluControlImm(f3, f7))
    else if opcode == OP_LOAD then
      NO_CONTROL.(regWrite := true, aluSrc := true, memToReg := true, memRead := true)
    else if opcode == OP_STORE then
      NO_CONTROL.(aluSrc := true, memWrite := true)
    else if opcode == OP_BRANCH then
      NO_CONTROL.(branch := true, aluControl := 1)
    else if opcode == OP_JAL then
      NO_CONTROL.(jump := true, regWrite := true)
    else if opcode == OP_JALR then
      NO_CONTROL.(jump := true, jalr := true, regWrite := true, aluSrc := true)
    else if opcode == OP_LUI then
      NO_CONTROL.(lui := true, regWrite := true)
    else if opcode == OP_AUIPC then
      NO_CONTROL.(auipc := true, regWrite := true, aluSrc := true)
    else
      NO_CONTROL
  }

  function Decode(w: Word): Control {
    ControlUnit(Opcode(w), Funct3(w), Funct7(w))
  }

  // ---- alu.sv ----

  function Alu(ctl: nat, a: Word, b: Word): Word {
    match ctl
    case 0 => Add(a, b)
    case 1 => Sub(a, b)
    case 2 => Bitwise32(And, a, b)
    case 3 => Bitwise32(Or, a, b)
    case 4 => Bitwise32(Xor, a, b)
    case 5 => ShiftLeft(a, b % 32)
    case 6 => ShiftRight(a, b % 32)
    case 7 => ShiftRightArith(a, b % 32)
    case 8 => if Signed(a) < Signed(b) then 1 else 0
    case 9 => if a < b then 1 else 0
    case _ => 0
  }

  function SignBit(a: Word): bool {
    a >= 0x8000_0000
  }

  function AluOverflow(ctl: nat, a: Word, b: Word): bool {
    ctl == 1 && SignBit(a) != SignBit(b) && SignBit(Alu(ctl, a, b)) != SignBit(a)
  }

  // ---- EX stage of riscv_core.sv: operand selection, ALU, branch resolution ----

  datatype ExResult = ExResult(alu: Word, taken: bool, target: Word)

  function BranchTaken(f3: int, zero: bool, negative: bool, overflow: bool): bool {
    match f3
    case 0 => zero
    case 1 => !zero
    case 4 => negative != overflow
    case 5 => negative == overflow
    case _ => false
  }

  function Execute(ctrl: Control, f3: int, pc: Word, imm: Word, rs1: Word, rs2: Word): ExResult {
    var a := if ctrl.auipc then pc else rs1;
    var b := if ctrl.aluSrc then imm else rs2;
    var alu := Alu(ctrl.aluControl, a, b);
    var branchTaken :=
      ctrl.branch && BranchTaken(f3, alu == 0, SignBit(alu), AluOverflow(ctrl.aluControl, a, b));
    ExResult(
      alu,
      ctrl.jump || branchTaken,
      if ctrl.jalr then alu - alu % 2 else Add(pc, imm))
  }

  /** The multiplexer in front of the register file's write port. */
  function WriteBack(lui: bool, jump: bool, memToReg: bool, imm: Word, pcPlus4: Word, load: Word, alu: Word): Word {
    if lui then imm else if jump then pcPlus4 else if memToReg then load else alu
  }

  // ---- hazard_unit.sv and forward_unit.sv ----

  predicate LoadUseHazard(idRs1: RegIdx, idRs2: RegIdx, exMemRead: bool, exRd: RegIdx) {
    exMemRead && exRd != 0 && (exRd == idRs1 || exRd == idRs2)
  }

  datatype Source = FromIdEx | FromExMem | FromMemWb

  function ForwardUnit(rs: RegIdx, exMemWrites: bool, exMemRd: RegIdx, memWbWrites: bool, memWbRd: RegIdx): Source {
    if exMemWrites && exMemRd != 0 && exMemRd == rs then FromExMem
    else if memWbWrites && memWbRd != 0 && memWbRd == rs then FromMemWb
    else FromIdEx
  }

  // ---- the two memories and the register file's read port ----

  type InstrMem = s: seq<Word> | |s| == 1024 witness seq(1024, _ => 0)
  type DataMem = s: seq<Word> | |s| == 1024 witness seq(1024, _ => 0)
  type Regs = s: seq<Word> | |s| == 32 witness seq(32, _ => 0)

  /** instruction_mem.sv: mem[addr[11:2]]. */
  function Fetch(imem: InstrMem, addr: Word): Word {
    imem[addr / 4 % 1024]
  }

  /** data_mem.sv: a read outside ram[0:1023] is given the value 0 here. */
  function ReadRam(ram: DataMem, addr: Word): Word {
    if addr / 4 < 1024 then ram[addr / 4] else 0
  }

  /** data_mem.sv: a write outside ram[0:1023] has no effect. */
  function WriteRam(ram: DataMem, addr: Word, value: Word): DataMem {
    if addr / 4 < 1024 then ram[addr / 4 := value] else ram
  }

  function ReadReg(regs: Regs, i: RegIdx): Word {
    if i == 0 then 0 else regs[i]
  }

  function WriteReg(regs: Regs, i: RegIdx, value: Word): Regs {
    if i == 0 then regs else regs[i := value]
  }
}
