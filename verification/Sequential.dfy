/**
 The one-instruction-at-a-time machine built from the same decoder and ALU, and
 its retirement trace. The pipeline is proved to refine this machine; Equivalence
 proves that it agrees with the C++ simulator.
 */
module Sequential {
  import opened Words
  import opened Datapath

  datatype Arch = Arch(pc: Word, regs: Regs, ram: DataMem)

  function Start(ram: DataMem): Arch {
    Arch(0, seq(32, _ => 0), ram)
  }

  // ---- the instruction at an architectural state ----

  function Instr(imem: InstrMem, s: Arch): Word {
    Fetch(imem, s.pc)
  }

  function Outcome(w: Word, s: Arch): ExResult {
    Execute(Decode(w), Funct3(w), s.pc, ImmGen(w), ReadReg(s.regs, Rs1(w)), ReadReg(s.regs, Rs2(w)))
  }

  function LoadedValue(w: Word, s: Arch): Word {
    if Decode(w).memRead then ReadRam(s.ram, Outcome(w, s).alu) else 0
  }

  function RdValue(w: Word, s: Arch): Word {
    var k := Decode(w);
    WriteBack(k.lui, k.jump, k.memToReg, ImmGen(w), Add(s.pc, 4), LoadedValue(w, s), Outcome(w, s).alu)
  }

  function StoredValue(w: Word, s: Arch): Word {
    ReadReg(s.regs, Rs2(w))
  }

  function StepPc(w: Word, s: Arch): Word {
    if Outcome(w, s).taken then Outcome(w, s).target else Add(s.pc, 4)
  }

  function StepRegs(w: Word, s: Arch): Regs {
    if Decode(w).regWrite then WriteReg(s.regs, Rd(w), RdValue(w, s)) else s.regs
  }

  function StepRam(w: Word, s: Arch): DataMem {
    if Decode(w).memWrite then WriteRam(s.ram, Outcome(w, s).alu, StoredValue(w, s)) else s.ram
  }

  function Step(imem: InstrMem, s: Arch): Arch {
    var w := Instr(imem, s);
    Arch(StepPc(w, s), StepRegs(w, s), StepRam(w, s))
  }

  /** The state in which instruction k of the run (counting from 0) executes. */
  function Run(imem: InstrMem, s: Arch, k: nat): Arch {
    if k == 0 then s else Step(imem, Run(imem, s, k - 1))
  }

  predicate IsControlFlow(w: Word) {
    Opcode(w) == OP_BRANCH || Opcode(w) == OP_JAL || Opcode(w) == OP_JALR
  }

  lemma ControlFlowByDecode(w: Word)
    ensures IsControlFlow(w) == (Decode(w).branch || Decode(w).jump)
    ensures Decode(w).memRead ==> !IsControlFlow(w)
    ensures !IsControlFlow(w) ==> !Decode(w).jalr
  {
  }
}
