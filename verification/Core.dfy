/**
 riscv_core.sv: the five-stage pipeline as a clocked state machine. A Core value
 is everything held in flip-flops and memories; Next is one clock edge.
 */
module Core {
  import opened Words
  import opened Datapath
  import BP = Predictor
  import LB = LoopBuffer

  datatype IfId = IfId(valid: bool, pc: Word, pcPlus4: Word, instr: Word, predTaken: bool, predTarget: Word)

  datatype IdEx = IdEx(
    valid: bool, pc: Word, pcPlus4: Word, rs1Data: Word, rs2Data: Word, imm: Word,
    rs1: RegIdx, rs2: RegIdx, rd: RegIdx, funct3: int, predTaken: bool, predTarget: Word, ctrl: Control)

  datatype ExMem = ExMem(
    valid: bool, pc: Word, pcPlus4: Word, alu: Word, storeData: Word, imm: Word, rd: RegIdx,
    regWrite: bool, memToReg: bool, memRead: bool, memWrite: bool, jump: bool, lui: bool)

  datatype MemWb = MemWb(
    valid: bool, pc: Word, pcPlus4: Word, alu: Word, load: Word, imm: Word, rd: RegIdx,
    regWrite: bool, memToReg: bool, jump: bool, lui: bool)

  const IFID_BUBBLE := IfId(false, 0, 0, 0, false, 0)
  const IDEX_BUBBLE := IdEx(false, 0, 0, 0, 0, 0, 0, 0, 0, 0, false, 0, NO_CONTROL)
  const EXMEM_BUBBLE := ExMem(false, 0, 0, 0, 0, 0, 0, false, false, false, false, false, false)
  const MEMWB_BUBBLE := MemWb(false, 0, 0, 0, 0, 0, 0, false, false, false, false)

  datatype Core = Core(
    pc: Word,
    frozen: Word,
    ifid: IfId,
    idex: IdEx,
    exmem: ExMem,
    memwb: MemWb,
    regs: Regs,
    ram: DataMem,
    bp: BP.Table,
    lb: LB.LoopState)

  /** State after reset; the two memories are loaded, not reset. The capture
      slots of the loop buffer have no reset value. */
  function Reset(ram: DataMem, slots: LB.Slots): Core {
    Core(0, 0, IFID_BUBBLE, IDEX_BUBBLE, EXMEM_BUBBLE, MEMWB_BUBBLE,
         seq(32, _ => 0), ram, BP.ResetTable(), LB.LoopState(LB.Idle, 0, 0, 0, slots))
  }

  // ---- IF ----

  function FetchAddress(c: Core): Word {
    if LB.Gated(c.lb) then c.frozen else c.pc
  }

  function InstructionIn(imem: InstrMem, c: Core): Word {
    Fetch(imem, FetchAddress(c))
  }

  function InstructionOut(imem: InstrMem, c: Core): Word {
    LB.InstructionOut(c.lb, c.pc, InstructionIn(imem, c))
  }

  // ---- ID ----

  predicate Stall(c: Core) {
    LoadUseHazard(Rs1(c.ifid.instr), Rs2(c.ifid.instr), c.idex.ctrl.memRead, c.idex.rd)
  }

  // ---- WB (feeds ID and EX) ----

  function WbData(m: MemWb): Word {
    WriteBack(m.lui, m.jump, m.memToReg, m.imm, m.pcPlus4, m.load, m.alu)
  }

  predicate WbWrites(m: MemWb) {
    m.valid && m.regWrite
  }

  /** reg_file.sv's read port with its same-cycle write bypass. */
  function ReadPort(regs: Regs, m: MemWb, rs: RegIdx): Word {
    if rs == 0 then 0 else if WbWrites(m) && m.rd == rs then WbData(m) else regs[rs]
  }

  // ---- EX ----

  predicate MemWrites(m: ExMem) {
    m.valid && m.regWrite
  }

  function ExMemForward(m: ExMem): Word {
    if m.lui then m.imm else if m.jump then m.pcPlus4 else m.alu
  }

  function Operand(c: Core, rs: RegIdx, latched: Word): Word {
    match ForwardUnit(rs, MemWrites(c.exmem), c.exmem.rd, WbWrites(c.memwb), c.memwb.rd)
    case FromExMem => ExMemForward(c.exmem)
    case FromMemWb => WbData(c.memwb)
    case FromIdEx => latched
  }

  function FwdRs1(c: Core): Word { Operand(c, c.idex.rs1, c.idex.rs1Data) }
  function FwdRs2(c: Core): Word { Operand(c, c.idex.rs2, c.idex.rs2Data) }

  function ExOut(c: Core): ExResult {
    Execute(c.idex.ctrl, c.idex.funct3, c.idex.pc, c.idex.imm, FwdRs1(c), FwdRs2(c))
  }

  predicate ActualTaken(c: Core) {
    c.idex.valid && ExOut(c).taken
  }

  /** is_control_flow_ex, which is also the predictor's train_valid. */
  predicate Resolving(c: Core) {
    c.idex.valid && (c.idex.ctrl.branch || c.idex.ctrl.jump)
  }

  predicate Flush(c: Core) {
    Resolving(c) &&
    (ActualTaken(c) != c.idex.predTaken || (ActualTaken(c) && ExOut(c).target != c.idex.predTarget))
  }

  function FlushTarget(c: Core): Word {
    if ActualTaken(c) then ExOut(c).target else c.idex.pcPlus4
  }

  // ---- next state, one stage at a time ----

  function NextPc(c: Core): Word {
    if Flush(c) then FlushTarget(c)
    else if Stall(c) then c.pc
    else if BP.PredictTaken(c.bp, c.pc) then BP.PredictTarget(c.bp, c.pc)
    else Add(c.pc, 4)
  }

  function NextIfId(imem: InstrMem, c: Core): IfId {
    if Flush(c) then IFID_BUBBLE
    else if Stall(c) then c.ifid
    else IfId(true, c.pc, Add(c.pc, 4), InstructionOut(imem, c),
              BP.PredictTaken(c.bp, c.pc), BP.PredictTarget(c.bp, c.pc))
  }

  function NextIdEx(c: Core): IdEx {
    if Flush(c) || Stall(c) then IDEX_BUBBLE
    else
      var w, v := c.ifid.instr, c.ifid.valid;
      var k := Decode(w);
      IdEx(v, c.ifid.pc, c.ifid.pcPlus4,
           ReadPort(c.regs, c.memwb, Rs1(w)), ReadPort(c.regs, c.memwb, Rs2(w)),
           ImmGen(w), Rs1(w), Rs2(w), Rd(w), Funct3(w), c.ifid.predTaken, c.ifid.predTarget,
           k.(regWrite := k.regWrite && v, memRead := k.memRead && v, memWrite := k.memWrite && v,
              branch := k.branch && v, jump := k.jump && v))
  }

  function NextExMem(c: Core): ExMem {
    var x := c.idex;
    ExMem(x.valid, x.pc, x.pcPlus4, ExOut(c).alu, FwdRs2(c), x.imm, x.rd,
          x.ctrl.regWrite, x.ctrl.memToReg, x.ctrl.memRead, x.ctrl.memWrite, x.ctrl.jump, x.ctrl.lui)
  }

  function LoadData(c: Core): Word {
    if c.exmem.memRead then ReadRam(c.ram, c.exmem.alu) else 0
  }

  function NextMemWb(c: Core): MemWb {
    var m := c.exmem;
    MemWb(m.valid, m.pc, m.pcPlus4, m.alu, LoadData(c), m.imm, m.rd,
          m.regWrite, m.memToReg, m.jump, m.lui)
  }

  function NextRegs(c: Core): Regs {
    if WbWrites(c.memwb) then WriteReg(c.regs, c.memwb.rd, WbData(c.memwb)) else c.regs
  }

  function NextRam(c: Core): DataMem {
    if c.exmem.memWrite then WriteRam(c.ram, c.exmem.alu, c.exmem.storeData) else c.ram
  }

  function NextBp(c: Core): BP.Table {
    if Resolving(c) then BP.Train(c.bp, c.idex.pc, ActualTaken(c), ExOut(c).target) else c.bp
  }

  function LoopInputs(imem: InstrMem, c: Core): LB.Inputs {
    LB.Inputs(c.pc, InstructionIn(imem, c), BP.PredictTaken(c.bp, c.pc), BP.PredictTarget(c.bp, c.pc),
              Flush(c), Stall(c))
  }

  function Next(imem: InstrMem, c: Core): Core {
    Core(NextPc(c),
         if LB.Gated(c.lb) then c.frozen else c.pc,
         NextIfId(imem, c), NextIdEx(c), NextExMem(c), NextMemWb(c),
         NextRegs(c), NextRam(c), NextBp(c), LB.Next(c.lb, LoopInputs(imem, c)))
  }

  /** The core's state n clock edges after reset. */
  function Cycle(imem: InstrMem, start: Core, n: nat): Core {
    if n == 0 then start else Next(imem, Cycle(imem, start, n - 1))
  }
}
