/**
 riscv_core.sv as the source writes it: pipeline registers, memories and the
 three stateful units, updated in place at every clock edge. State() is its
 value, and Tick is proved to be Core's next-state function.
 */
module Pipeline {
  import opened Words
  import opened Datapath
  import opened Core
  import BP = Predictor
  import LB = LoopBuffer
  import RF = RegFile

  datatype Signals = Signals(
    wbData: Word, storeData: Word, ex: ExResult, taken: bool, controlFlow: bool, flush: bool, flushTarget: Word,
    stall: bool, decoded: IdEx, gated: bool, instrIf: Word, predictTaken: bool, predictTarget: Word,
    instrFinal: Word, loadData: Word)

  /** The wires carry what the core's functions say of state c. */
  ghost predicate SignalsOf(imem: InstrMem, c: Core, s: Signals) {
    && s.wbData == WbData(c.memwb) && s.storeData == FwdRs2(c) && s.ex == ExOut(c)
    && s.taken == ActualTaken(c) && s.controlFlow == Resolving(c)
    && s.flush == Flush(c) && s.flushTarget == FlushTarget(c) && s.stall == Stall(c)
    && (!s.flush && !s.stall ==> s.decoded == NextIdEx(c))
    && s.gated == LB.Gated(c.lb) && s.instrIf == InstructionIn(imem, c) && s.instrFinal == InstructionOut(imem, c)
    && s.predictTaken == BP.PredictTaken(c.bp, c.pc) && s.predictTarget == BP.PredictTarget(c.bp, c.pc)
    && s.loadData == LoadData(c)
  }

  class RiscvCore {
    var pc: Word
    var frozenAddr: Word
    var ifId: IfId
    var idEx: IdEx
    var exMem: ExMem
    var memWb: MemWb
    const regFile: RF.RegisterFile
    const predictor: BP.BranchPredictor
    const loopBuffer: LB.Buffer
    const ram: array<Word>

    ghost predicate Valid()
      reads this, loopBuffer
    {
      && ram.Length == 1024 && regFile.Valid() && predictor.Valid() && loopBuffer.Valid()
      && ram != regFile.rf && ram != predictor.btb && ram != loopBuffer.slots
      && regFile.rf != predictor.btb && regFile.rf != loopBuffer.slots && predictor.btb != loopBuffer.slots
    }

    ghost function State(): Core
      requires Valid()
      reads this, loopBuffer, loopBuffer.slots, ram, regFile.rf
      reads predictor.bht, predictor.btb, predictor.btbValid, predictor.btbTag
    {
      Core(pc, frozenAddr, ifId, idEx, exMem, memWb, regFile.Contents(), ram[..], predictor.Contents(), loopBuffer.Contents())
    }

    /** Reset, with the data memory loaded. */
    constructor (data: DataMem)
      ensures Valid() && State() == Reset(data, State().lb.slots)
      ensures fresh(regFile) && fresh(predictor) && fresh(loopBuffer) && fresh(ram)
      ensures fresh(regFile.rf) && fresh(loopBuffer.slots)
      ensures fresh(predictor.bht) && fresh(predictor.btb) && fresh(predictor.btbValid) && fresh(predictor.btbTag)
    {
      pc, frozenAddr := 0, 0;
      ifId, idEx, exMem, memWb := IFID_BUBBLE, IDEX_BUBBLE, EXMEM_BUBBLE, MEMWB_BUBBLE;
      regFile := new RF.RegisterFile();
      predictor := new BP.BranchPredictor();
      loopBuffer := new LB.Buffer();
      ram := new Word[1024](i requires 0 <= i < 1024 => data[i]);
      new;
      assert ram[..] == data;
    }

    // ---- combinational signals ----

    /** One forwarding multiplexer of EX. */
    method Forward(rs: RegIdx, latched: Word, wbData: Word) returns (v: Word)
      requires Valid() && wbData == WbData(memWb)
      ensures v == Operand(State(), rs, latched)
    {
      hide ForwardUnit, WbData;
      var source := ForwardUnit(rs, exMem.valid && exMem.regWrite, exMem.rd, memWb.valid && memWb.regWrite, memWb.rd);
      if source == FromExMem {
        v := if exMem.lui then exMem.imm else if exMem.jump then exMem.pcPlus4 else exMem.alu;
      } else if source == FromMemWb {
        v := wbData;
      } else {
        v := latched;
      }
    }

    /** EX: forwarded operands, ALU and branch conditions. */
    method ExStage(wbData: Word) returns (rs2: Word, x: ExResult)
      requires Valid() && wbData == WbData(memWb)
      ensures rs2 == FwdRs2(State()) && x == ExOut(State())
    {
      hide Execute, Operand, WbData;
      var rs1 := Forward(idEx.rs1, idEx.rs1Data, wbData);
      rs2 := Forward(idEx.rs2, idEx.rs2Data, wbData);
      x := Execute(idEx.ctrl, idEx.funct3, idEx.pc, idEx.imm, rs1, rs2);
    }

    /** ID: decode and read the register file through its bypass. */
    method IdStage(wbData: Word) returns (next: IdEx)
      requires Valid() && wbData == WbData(memWb)
      ensures !Flush(State()) && !Stall(State()) ==> next == NextIdEx(State())
    {
      hide ControlUnit, Opcode, Funct3, Funct7, Rs1, Rs2, Rd, ImmGen, WbData, Flush, Stall;
      var w, v := ifId.instr, ifId.valid;
      var wbWrites := memWb.valid && memWb.regWrite;
      var rs1Data := regFile.Read(wbWrites, memWb.rd, wbData, Rs1(w));
      var rs2Data := regFile.Read(wbWrites, memWb.rd, wbData, Rs2(w));
      var k := ControlUnit(Opcode(w), Funct3(w), Funct7(w));
      next := IdEx(v, ifId.pc, ifId.pcPlus4, rs1Data, rs2Data, ImmGen(w), Rs1(w), Rs2(w), Rd(w), Funct3(w),
                   ifId.predTaken, ifId.predTarget,
                   k.(regWrite := k.regWrite && v, memRead := k.memRead && v, memWrite := k.memWrite && v,
                      branch := k.branch && v, jump := k.jump && v));
    }

    /** EX: what the branch or jump, if there is one, does to fetch. */
    method Resolve(x: ExResult) returns (taken: bool, controlFlow: bool, flush: bool, flushTarget: Word)
      requires Valid() && x == ExOut(State())
      ensures taken == ActualTaken(State()) && controlFlow == Resolving(State())
      ensures flush == Flush(State()) && flushTarget == FlushTarget(State())
    {
      hide ExOut;
      taken := idEx.valid && x.taken;
      controlFlow := idEx.valid && (idEx.ctrl.branch || idEx.ctrl.jump);
      flush := controlFlow && (taken != idEx.predTaken || (taken && x.target != idEx.predTarget));
      flushTarget := if taken then x.target else idEx.pcPlus4;
    }

    /** IF: the fetch address, the predictor's answer and the replay multiplexer. */
    method IfStage(imem: InstrMem) returns (gated: bool, instrIf: Word, taken: bool, target: Word, instrFinal: Word)
      requires Valid()
      ensures gated == LB.Gated(State().lb)
      ensures instrIf == InstructionIn(imem, State()) && instrFinal == InstructionOut(imem, State())
      ensures taken == BP.PredictTaken(State().bp, State().pc) && target == BP.PredictTarget(State().bp, State().pc)
    {
      hide Fetch, BP.PredictTaken, BP.PredictTarget, LB.InstructionOut;
      gated := loopBuffer.phase == LB.Looping;
      instrIf := Fetch(imem, if gated then frozenAddr else pc);
      taken, target := predictor.Lookup(pc);
      instrFinal := loopBuffer.Replay(pc, instrIf);
    }

    /** MEM: the data memory's read port. */
    method MemStage() returns (loadData: Word)
      requires Valid()
      ensures loadData == LoadData(State())
    {
      var word := exMem.alu / 4;
      loadData := if exMem.memRead && word < 1024 then ram[word] else 0;
    }

    /** Everything computed between two clock edges. */
    method Combinational(imem: InstrMem) returns (s: Signals)
      requires Valid()
      ensures SignalsOf(imem, State(), s)
    {
      hide ExOut, FwdRs2, BP.PredictTaken, BP.PredictTarget, NextIdEx, Rs1, Rs2, LoadUseHazard, ActualTaken,
           Resolving, Flush, FlushTarget, InstructionIn, InstructionOut, LoadData;
      var wbData := if memWb.lui then memWb.imm else if memWb.jump then memWb.pcPlus4
                    else if memWb.memToReg then memWb.load else memWb.alu;
      var storeData, x := ExStage(wbData);
      var taken, controlFlow, flush, flushTarget := Resolve(x);
      var stall := LoadUseHazard(Rs1(ifId.instr), Rs2(ifId.instr), idEx.ctrl.memRead, idEx.rd);
      var decoded := IdStage(wbData);
      var gated, instrIf, predictTaken, predictTarget, instrFinal := IfStage(imem);
      var loadData := MemStage();
      s := Signals(wbData, storeData, x, taken, controlFlow, flush, flushTarget, stall, decoded, gated, instrIf, predictTaken,
                   predictTarget, instrFinal, loadData);
    }

    // ---- the clock edge ----

    method ClockMemory()
      requires Valid()
      modifies ram
      ensures ram[..] == NextRam(old(State()))
    {
      var word := exMem.alu / 4;
      if exMem.memWrite && word < 1024 {
        ram[word] := exMem.storeData;
      }
    }

    method ClockRegFile(wbData: Word)
      requires Valid() && wbData == WbData(memWb)
      modifies regFile.rf
      ensures regFile.Contents() == NextRegs(old(State()))
    {
      hide WbData, Datapath.WriteReg;
      regFile.Clock(memWb.valid && memWb.regWrite, memWb.rd, wbData);
    }

    /** The stateful units and the data memory. */
    method ClockUnits(imem: InstrMem, s: Signals)
      requires Valid() && SignalsOf(imem, State(), s)
      modifies loopBuffer, loopBuffer.slots, ram, regFile.rf
      modifies predictor.bht, predictor.btb, predictor.btbValid, predictor.btbTag
      ensures Valid()
      ensures var c := old(State());
              State() == c.(regs := NextRegs(c), ram := NextRam(c), bp := NextBp(c),
                            lb := LB.Next(c.lb, LoopInputs(imem, c)))
    {
      hide ExOut, FwdRs2, InstructionIn, InstructionOut, LB.Next, BP.Train, BP.PredictTaken, BP.PredictTarget,
           NextIdEx, WriteReg, WriteBack, FlushTarget, Flush, Stall, LoadData, NextRam, ActualTaken, WbData;
      ClockMemory();
      ClockRegFile(s.wbData);
      predictor.Clock(s.controlFlow, idEx.pc, s.taken, s.ex.target);
      loopBuffer.Clock(LB.Inputs(pc, s.instrIf, s.predictTaken, s.predictTarget, s.flush, s.stall));
    }

    /** EX/MEM and MEM/WB: never stalled and never squashed. */
    method ClockBackEnd(imem: InstrMem, s: Signals, ghost c: Core)
      requires Valid() && SignalsOf(imem, c, s)
      requires State() == c.(regs := State().regs, ram := State().ram, bp := State().bp, lb := State().lb)
      modifies this`memWb, this`exMem
      ensures Valid()
      ensures State() == old(State()).(exmem := NextExMem(c), memwb := NextMemWb(c))
    {
      hide ExOut, FwdRs2, InstructionIn, InstructionOut, FlushTarget, Flush, Stall, LoadData, BP.PredictTaken,
           BP.PredictTarget, NextIdEx, ActualTaken, Resolving, WbData;
      memWb := MemWb(exMem.valid, exMem.pc, exMem.pcPlus4, exMem.alu, s.loadData, exMem.imm, exMem.rd,
                     exMem.regWrite, exMem.memToReg, exMem.jump, exMem.lui);
      exMem := ExMem(idEx.valid, idEx.pc, idEx.pcPlus4, s.ex.alu, s.storeData, idEx.imm, idEx.rd, idEx.ctrl.regWrite,
                     idEx.ctrl.memToReg, idEx.ctrl.memRead, idEx.ctrl.memWrite, idEx.ctrl.jump, idEx.ctrl.lui);
    }

    /** pc, the frozen address, IF/ID and ID/EX. */
    method ClockFrontEnd(imem: InstrMem, s: Signals, ghost c: Core)
      requires Valid() && SignalsOf(imem, c, s)
      requires pc == c.pc && frozenAddr == c.frozen && ifId == c.ifid && idEx == c.idex
      modifies this`pc, this`frozenAddr, this`ifId, this`idEx
      ensures Valid()
      ensures State() == old(State()).(pc := NextPc(c), frozen := if LB.Gated(c.lb) then c.frozen else c.pc,
                                       ifid := NextIfId(imem, c), idex := NextIdEx(c))
    {
      hide ExOut, FwdRs2, InstructionIn, InstructionOut, FlushTarget, Flush, Stall, LoadData, BP.PredictTaken,
           BP.PredictTarget, ActualTaken, Resolving, WbData, ReadPort, Decode;
      if !s.gated {
        frozenAddr := pc;
      }
      idEx := if s.flush || s.stall then IDEX_BUBBLE else s.decoded;
      if s.flush {
        ifId := IFID_BUBBLE;
      } else if !s.stall {
        ifId := IfId(true, pc, Add(pc, 4), s.instrFinal, s.predictTaken, s.predictTarget);
      }
      if s.flush || !s.stall {
        pc := if s.flush then s.flushTarget else if s.predictTaken then s.predictTarget else Add(pc, 4);
      }
    }

    lemma RegistersOf()
      requires Valid()
      ensures pc == State().pc && frozenAddr == State().frozen && ifId == State().ifid && idEx == State().idex
    {
    }

    /** One clock edge of the whole core. */
    method Tick(imem: InstrMem)
      requires Valid()
      modifies this, loopBuffer, loopBuffer.slots, ram, regFile.rf
      modifies predictor.bht, predictor.btb, predictor.btbValid, predictor.btbTag
      ensures Valid() && State() == Next(imem, old(State()))
    {
      hide State, SignalsOf, NextPc, NextIfId, NextIdEx, NextExMem, NextMemWb, NextRegs, NextRam, NextBp, LB.Next;
      ghost var c := State();
      var s := Combinational(imem);
      ClockUnits(imem, s);
      ClockBackEnd(imem, s, c);
      RegistersOf();
      ClockFrontEnd(imem, s, c);
    }
  }
}
