/**
 Runs of the core, from reset, in which the loop buffer goes wrong: one short
 program for each thing it does not check, followed cycle by cycle to the wrong
 word and on to the wrong line of the log. And one run in which it does its work.
 */
module Misfetches {
  import opened Words
  import opened Datapath
  import opened Sequential
  import opened Execution
  import opened ProgramClass
  import opened Core
  import opened Refinement
  import opened CommitLog
  import opened FetchTrace
  import LB = LoopBuffer

  /** The words from address 0, and nops in the rest of the memory. */
  predicate Loads(imem: InstrMem, words: seq<Word>) {
    forall i :: 0 <= i < 1024 ==> imem[i] == if i < |words| then words[i] else NOP
  }

  function Pass(pc: int, src: int): Slot {
    Held(pc, src, false, 0)
  }

  function Jump(pc: int, src: int, target: int): Slot {
    Held(pc, src, true, target)
  }

  // ---- a pc that is not the program's ----

  ghost predicate NeverAt(p: Execution, x: Word) {
    forall k: nat :: p.At(k).pc != x
  }

  /** The log is not the trace of any number of instructions and stores. */
  ghost predicate LogIsNoTrace(p: Execution, slots: LB.Slots, n: nat) {
    forall r: nat, m: nat ::
      ParseLines(LogAfter(p, slots, n).lines) != Parsed(PcsUpTo(p, r), RegsUpTo(p, r), MemsUpTo(p, m))
  }

  lemma WbLineParsed(lines: seq<Line>, l: LogState, w: MemWb)
    requires w.valid
    ensures var q := ParseLines(lines + WbLines(l, w)); l.wbIdx in q.pcs && q.pcs[l.wbIdx] == w.pc
  {
    var pcLine, regLine := PcLine(l.wbIdx, w.pc), RegLine(l.wbIdx, w.rd, WbData(w));
    hide ParseLines, WbData;
    ParseAppend(lines, pcLine);
    ParseAppend(lines + [pcLine], regLine);
    assert [pcLine] + [] == [pcLine];
    assert lines + [pcLine] + [regLine] == lines + ([pcLine] + [regLine]);
  }

  lemma PcStep(p: Execution, slots: LB.Slots, n: nat)
    ensures var c, c' := Reached(p, slots, n), Reached(p, slots, n + 1);
            && c'.exmem.valid == c.idex.valid && c'.exmem.pc == c.idex.pc
            && c'.memwb.valid == c.exmem.valid && c'.memwb.pc == c.exmem.pc
  {
    hide NextPc, NextIfId, NextIdEx, NextRegs, NextRam, NextBp, LB.Next, ExOut, FwdRs2, LoadData, Reset;
  }

  lemma NotInTrace(p: Execution, r: nat, k: nat, x: Word)
    requires NeverAt(p, x)
    ensures k in PcsUpTo(p, r) ==> PcsUpTo(p, r)[k] != x
  {
    hide Run, Start;
  }

  /** Once such a pc is in EX it is logged three cycles later. */
  lemma StrayPcIsLogged(p: Execution, slots: LB.Slots, n: nat, x: Word)
    requires Reached(p, slots, n).idex.valid && Reached(p, slots, n).idex.pc == x && NeverAt(p, x)
    ensures LogIsNoTrace(p, slots, n + 3)
  {
    hide Next, Reset, ParseLines, Run, Start, NeverAt, MemLines, WbLines, RegsUpTo, MemsUpTo;
    PcStep(p, slots, n);
    PcStep(p, slots, n + 1);
    var l, c := LogAfter(p, slots, n + 2), Reached(p, slots, n + 2);
    WbLineParsed(l.lines + MemLines(l, c.exmem), l, c.memwb);
    forall r: nat
      ensures l.wbIdx in PcsUpTo(p, r) ==> PcsUpTo(p, r)[l.wbIdx] != x
    {
      NotInTrace(p, r, l.wbIdx, x);
    }
  }

  // ---- where the sequential machine goes ----

  lemma AlwaysTaken(w: Word, s: Arch)
    requires Unconditional(w) && IsControlFlow(w)
    ensures Outcome(w, s).taken && IsDirect(w)
  {
    EqualOperandsTaken();
    hide ImmGen, Rs1, Rs2, Opcode, Funct3, Funct7, Add, Sub, AluOverflow, SignBit, Bitwise32, ShiftLeft, ShiftRight,
         ShiftRightArith, Signed, AluControlReg, AluControlImm;
  }

  function After(ops: seq<Op>, a: int): int {
    a + if OpAt(ops, a).jump then OpAt(ops, a).offset else 1
  }

  lemma SequentialNext(p: Execution, ops: seq<Op>, k: nat, a: int)
    requires Holds(p.imem, ops) && Small(a) && Small(After(ops, a)) && p.At(k).pc == 4 * a
    ensures p.At(k + 1).pc == 4 * After(ops, a)
  {
    hide Run, Start, Fetch, Outcome, ImmGen, Add, IsControlFlow, Holds, Encodes, Unconditional, IsDirect, Opcode, Wrap;
    FetchSmall(p.imem, a);
    OpHeld(p.imem, ops, a);
    EncodesParts(p.imem[a], OpAt(ops, a));
    NextAddress(p, k);
    if OpAt(ops, a).jump {
      AlwaysTaken(p.WordAt(k), p.At(k));
      JumpTarget(a, OpAt(ops, a).offset);
    } else {
      WordPlusOne(a);
    }
  }

  lemma FetchSmall(imem: InstrMem, a: int)
    requires Small(a)
    ensures Fetch(imem, 4 * a) == imem[a]
  {
  }

  /** The words a program goes to, its first among them. */
  predicate Closed(ops: seq<Op>, path: set<int>) {
    0 in path && forall a :: a in path ==> Small(a) && After(ops, a) in path
  }

  lemma {:induction false} StaysOnPath(p: Execution, ops: seq<Op>, path: set<int>, k: nat) returns (a: int)
    requires Holds(p.imem, ops) && Closed(ops, path)
    ensures a in path && Small(a) && p.At(k).pc == 4 * a
  {
    hide Run, Holds, After;
    if k == 0 {
      StartsAtZero(p);
      a := 0;
    } else {
      var b := StaysOnPath(p, ops, path, k - 1);
      a := After(ops, b);
      SequentialNext(p, ops, k - 1, b);
    }
  }

  lemma NeverOffPath(p: Execution, ops: seq<Op>, path: set<int>, x: int)
    requires Holds(p.imem, ops) && Closed(ops, path) && Small(x) && x !in path
    ensures NeverAt(p, 4 * x)
  {
    hide Run, Holds, Closed;
    forall k: nat
      ensures p.At(k).pc != 4 * x
    {
      var a := StaysOnPath(p, ops, path, k);
    }
  }

  /** Such a log is no class program's. */
  lemma OutsideTheClass(p: Execution, slots: LB.Slots, n: nat)
    requires LogIsNoTrace(p, slots, n)
    ensures !WellBehaved(p)
  {
    hide WellBehaved, ParseLines, PcsUpTo, RegsUpTo, MemsUpTo, LogAfter, Retired, LogMatches;
    if WellBehaved(p) {
      LogIsSequentialTrace(p, slots, n);
    }
  }

  /** Fetch at word pc, with word src entering ID instead. */
  ghost predicate Misfetched(p: Execution, slots: LB.Slots, n: nat, pc: Word, src: Word) {
    var c := Reached(p, slots, n);
    && LB.Gated(c.lb) && c.pc == pc && !Flush(c)
    && InstructionOut(p.imem, c) == Fetch(p.imem, src) != Fetch(p.imem, pc)
  }

  lemma MisfetchShown(p: Execution, slots: LB.Slots, ops: seq<Op>, n: nat, f: Front)
    requires Holds(p.imem, ops) && ShownAt(p, slots, n, f) && SmallFront(ops, f)
    requires f.phase.Looping? && !Flushes(ops, f) && p.imem[Fetched(f)] != p.imem[f.pc]
    ensures Small(Fetched(f)) && Misfetched(p, slots, n, 4 * f.pc, 4 * Fetched(f))
  {
    hide Holds, Shows, SmallFront, Flushes, Fetched, Reset, Fetch, Flush, InstructionOut;
    var c := Reached(p, slots, n);
    FlushShown(p.imem, ops, c, f);
    GatedShown(p.imem, c, f);
    FetchShown(p.imem, c, f);
    PcShown(p.imem, c, f);
    FetchSmall(p.imem, f.pc);
    FetchSmall(p.imem, Fetched(f));
  }

  lemma PcShown(imem: InstrMem, c: Core, f: Front)
    requires Shows(imem, c, f)
    ensures Small(f.pc) && c.pc == 4 * f.pc
    ensures f.ex.Held? ==> Small(f.ex.pc) && c.idex.valid && c.idex.pc == 4 * f.ex.pc
  {
    hide TableShows, BufferShows, IdShows;
  }

  // ---- words ----

  const JAL_8: Word := 0x80006F // jal x0, 8
  const JAL_16: Word := 0x100006F // jal x0, 16
  const JAL_12: Word := 0xC0006F // jal x0, 12
  const JAL_BACK_8: Word := 0xFF9FF06F // jal x0, -8
  const BEQ_8: Word := 0x463 // beq x0, x0, 8
  const BEQ_BACK_12: Word := 0xFE000AE3 // beq x0, x0, -12
  const BEQ_BACK_4: Word := 0xFE000EE3 // beq x0, x0, -4
  const BEQ_BACK_8: Word := 0xFE000CE3 // beq x0, x0, -8
  const NOP: Word := 0x13 // nop
  const ADDI: Word := 0x700293 // addi x5, x0, 7
  const LW: Word := 0x2083 // lw x1, 0(x0)
  const ADD: Word := 0x108133 // add x2, x1, x1

  lemma JalsEncoded()
    ensures Encodes(JAL_8, Op(true, 2, false, 0, 8, 0))
    ensures Encodes(JAL_16, Op(true, 4, false, 0, 16, 0))
    ensures Encodes(JAL_12, Op(true, 3, false, 0, 12, 0))
    ensures Encodes(JAL_BACK_8, Op(true, -2, false, 31, 25, 0))
  {
  }

  lemma BranchesEncoded()
    ensures Encodes(BEQ_8, Op(true, 2, false, 0, 0, 8))
    ensures Encodes(BEQ_BACK_4, Op(true, -1, false, 0, 0, 29))
  {
  }

  lemma LoopBranchesEncoded()
    ensures Encodes(BEQ_BACK_12, Op(true, -3, false, 0, 0, 21))
    ensures Encodes(BEQ_BACK_8, Op(true, -2, false, 0, 0, 25))
  {
  }

  lemma OthersEncoded()
    ensures Encodes(NOP, NOP_OP)
    ensures Encodes(ADDI, Op(false, 0, false, 0, 7, 5))
    ensures Encodes(LW, Op(false, 0, true, 0, 0, 1))
    ensures Encodes(ADD, Op(false, 0, false, 1, 1, 2))
  {
  }

  /** A loop from word 2 to word 5 whose first word branches over the second. It is
      captured as 2, 4, 5, so in cycle 17 word 4 is looked up in the slot of word 5.
      The branch found there leads to word 1. */
  const FORWARD_IN_BODY: seq<Word> := [JAL_8, NOP, BEQ_8, NOP, ADDI, BEQ_BACK_12]

  const FORWARD_IN_BODY_OPS: seq<Op> :=
    [Op(true, 2, false, 0, 8, 0), NOP_OP, Op(true, 2, false, 0, 0, 8),
     NOP_OP, Op(false, 0, false, 0, 7, 5), Op(true, -3, false, 0, 0, 21)]

  lemma ForwardProgram(imem: InstrMem)
    requires Loads(imem, FORWARD_IN_BODY)
    ensures Holds(imem, FORWARD_IN_BODY_OPS)
  {
    hide Encodes;
    JalsEncoded();
    BranchesEncoded();
    LoopBranchesEncoded();
    OthersEncoded();
  }

  const FORWARD_10 := Front(2, 7, Empty, Empty, Learnt(5, 2, Learnt(2, 4, Learnt(0, 2, Nothing))), Idle, [])

  lemma ForwardCycle10(p: Execution, slots: LB.Slots)
    requires Loads(p.imem, FORWARD_IN_BODY)
    ensures ShownAt(p, slots, 10, FORWARD_10)
  {
    hide ShownAt, Loads, Holds;
    ForwardProgram(p.imem);
    ResetShown(p, slots);
    var k1 := Learnt(0, 2, Nothing);
    var k2 := Learnt(2, 4, k1);
    var k3 := Learnt(5, 2, k2);
    var ops, f0 := FORWARD_IN_BODY_OPS, Front(0, 0, Empty, Empty, Nothing, Idle, []);
    var f1 := Front(1, 0, Pass(0, 0), Empty, Nothing, Idle, []);
    Follow(p, slots, ops, 0, f0, f1);
    var f2 := Front(2, 1, Pass(1, 1), Pass(0, 0), Nothing, Idle, []);
    Follow(p, slots, ops, 1, f1, f2);
    var f3 := Front(2, 2, Empty, Empty, k1, Idle, []);
    Follow(p, slots, ops, 2, f2, f3);
    var f4 := Front(3, 2, Pass(2, 2), Empty, k1, Idle, []);
    Follow(p, slots, ops, 3, f3, f4);
    var f5 := Front(4, 3, Pass(3, 3), Pass(2, 2), k1, Idle, []);
    Follow(p, slots, ops, 4, f4, f5);
    var f6 := Front(4, 4, Empty, Empty, k2, Idle, []);
    Follow(p, slots, ops, 5, f5, f6);
    var f7 := Front(5, 4, Pass(4, 4), Empty, k2, Idle, []);
    Follow(p, slots, ops, 6, f6, f7);
    var f8 := Front(6, 5, Pass(5, 5), Pass(4, 4), k2, Idle, []);
    Follow(p, slots, ops, 7, f7, f8);
    var f9 := Front(7, 6, Pass(6, 6), Pass(5, 5), k2, Idle, []);
    Follow(p, slots, ops, 8, f8, f9);
    var f10 := Front(2, 7, Empty, Empty, k3, Idle, []);
    Follow(p, slots, ops, 9, f9, f10);
  }

  const FORWARD_17 :=
    Front(4, 5, Jump(2, 2, 4), Jump(5, 5, 2),
          Learnt(5, 2, Learnt(2, 4, Learnt(0, 2, Nothing))), Looping(2, 6), [2, 4, 5])

  lemma ForwardCycle17(p: Execution, slots: LB.Slots)
    requires Loads(p.imem, FORWARD_IN_BODY)
    ensures ShownAt(p, slots, 17, FORWARD_17)
  {
    hide ShownAt, Loads, Holds;
    ForwardProgram(p.imem);
    ForwardCycle10(p, slots);
    var k1 := Learnt(0, 2, Nothing);
    var k2 := Learnt(2, 4, k1);
    var k3 := Learnt(5, 2, k2);
    var ops, f10 := FORWARD_IN_BODY_OPS, Front(2, 7, Empty, Empty, k3, Idle, []);
    var f11 := Front(4, 2, Jump(2, 2, 4), Empty, k3, Idle, []);
    Follow(p, slots, ops, 10, f10, f11);
    var f12 := Front(5, 4, Pass(4, 4), Jump(2, 2, 4), k3, Idle, []);
    Follow(p, slots, ops, 11, f11, f12);
    var f13 := Front(2, 5, Jump(5, 5, 2), Pass(4, 4), k3, Recording(2, 6), []);
    Follow(p, slots, ops, 12, f12, f13);
    var f14 := Front(4, 2, Jump(2, 2, 4), Jump(5, 5, 2), k3, Recording(2, 6), [2]);
    Follow(p, slots, ops, 13, f13, f14);
    var f15 := Front(5, 4, Pass(4, 4), Jump(2, 2, 4), k3, Recording(2, 6), [2, 4]);
    Follow(p, slots, ops, 14, f14, f15);
    var f16 := Front(2, 5, Jump(5, 5, 2), Pass(4, 4), k3, Looping(2, 6), [2, 4, 5]);
    Follow(p, slots, ops, 15, f15, f16);
    var f17 := Front(4, 5, Jump(2, 2, 4), Jump(5, 5, 2), k3, Looping(2, 6), [2, 4, 5]);
    Follow(p, slots, ops, 16, f16, f17);
  }

  const FORWARD_22 :=
    Front(4, 2, Jump(2, 2, 4), Pass(1, 1), Learnt(4, 1, Learnt(5, 2, Learnt(2, 4, Learnt(0, 2, Nothing)))), Idle, [])

  lemma ForwardCycle22(p: Execution, slots: LB.Slots)
    requires Loads(p.imem, FORWARD_IN_BODY)
    ensures ShownAt(p, slots, 22, FORWARD_22)
  {
    hide ShownAt, Loads, Holds;
    ForwardProgram(p.imem);
    ForwardCycle17(p, slots);
    var k1 := Learnt(0, 2, Nothing);
    var k2 := Learnt(2, 4, k1);
    var k3 := Learnt(5, 2, k2);
    var k4 := Learnt(4, 1, k3);
    var ops, f17 := FORWARD_IN_BODY_OPS, Front(4, 5, Jump(2, 2, 4), Jump(5, 5, 2), k3, Looping(2, 6), [2, 4, 5]);
    var f18 := Front(5, 5, Pass(4, 5), Jump(2, 2, 4), k3, Looping(2, 6), [2, 4, 5]);
    Follow(p, slots, ops, 17, f17, f18);
    var f19 := Front(2, 5, Jump(5, 5, 2), Pass(4, 5), k3, Looping(2, 6), [2, 4, 5]);
    Follow(p, slots, ops, 18, f18, f19);
    var f20 := Front(1, 5, Empty, Empty, k4, Invalid, [2, 4, 5]);
    Follow(p, slots, ops, 19, f19, f20);
    var f21 := Front(2, 1, Pass(1, 1), Empty, k4, Idle, []);
    Follow(p, slots, ops, 20, f20, f21);
    var f22 := Front(4, 2, Jump(2, 2, 4), Pass(1, 1), k4, Idle, []);
    Follow(p, slots, ops, 21, f21, f22);
  }

  /** A loop from word 4 to word 7 whose load is used just before its branch. In
      cycle 13 the branch arms the buffer while the add waits for the load; in
      cycle 14 the branch, still in IF, is captured as the loop's first word. */
  const LOAD_BEFORE_BRANCH: seq<Word> := [JAL_16, NOP, NOP, NOP, ADDI, LW, ADD, BEQ_BACK_12]

  const LOAD_BEFORE_BRANCH_OPS: seq<Op> :=
    [Op(true, 4, false, 0, 16, 0), NOP_OP, NOP_OP, NOP_OP,
     Op(false, 0, false, 0, 7, 5), Op(false, 0, true, 0, 0, 1), Op(false, 0, false, 1, 1, 2),
     Op(true, -3, false, 0, 0, 21)]

  lemma StalledProgram(imem: InstrMem)
    requires Loads(imem, LOAD_BEFORE_BRANCH)
    ensures Holds(imem, LOAD_BEFORE_BRANCH_OPS)
  {
    hide Encodes;
    JalsEncoded();
    BranchesEncoded();
    LoopBranchesEncoded();
    OthersEncoded();
  }

  const STALLED_15 :=
    Front(4, 7, Jump(7, 7, 4), Pass(6, 6), Learnt(7, 4, Learnt(0, 4, Nothing)), Looping(4, 8), [7])

  lemma StalledCycle15(p: Execution, slots: LB.Slots)
    requires Loads(p.imem, LOAD_BEFORE_BRANCH)
    ensures ShownAt(p, slots, 15, STALLED_15)
  {
    hide ShownAt, Loads, Holds;
    StalledProgram(p.imem);
    ResetShown(p, slots);
    var k1 := Learnt(0, 4, Nothing);
    var k2 := Learnt(7, 4, k1);
    var ops, f0 := LOAD_BEFORE_BRANCH_OPS, Front(0, 0, Empty, Empty, Nothing, Idle, []);
    var f1 := Front(1, 0, Pass(0, 0), Empty, Nothing, Idle, []);
    Follow(p, slots, ops, 0, f0, f1);
    var f2 := Front(2, 1, Pass(1, 1), Pass(0, 0), Nothing, Idle, []);
    Follow(p, slots, ops, 1, f1, f2);
    var f3 := Front(4, 2, Empty, Empty, k1, Idle, []);
    Follow(p, slots, ops, 2, f2, f3);
    var f4 := Front(5, 4, Pass(4, 4), Empty, k1, Idle, []);
    Follow(p, slots, ops, 3, f3, f4);
    var f5 := Front(6, 5, Pass(5, 5), Pass(4, 4), k1, Idle, []);
    Follow(p, slots, ops, 4, f4, f5);
    var f6 := Front(7, 6, Pass(6, 6), Pass(5, 5), k1, Idle, []);
    Follow(p, slots, ops, 5, f5, f6);
    var f7 := Front(7, 7, Pass(6, 6), Empty, k1, Idle, []);
    Follow(p, slots, ops, 6, f6, f7);
    var f8 := Front(8, 7, Pass(7, 7), Pass(6, 6), k1, Idle, []);
    Follow(p, slots, ops, 7, f7, f8);
    var f9 := Front(9, 8, Pass(8, 8), Pass(7, 7), k1, Idle, []);
    Follow(p, slots, ops, 8, f8, f9);
    var f10 := Front(4, 9, Empty, Empty, k2, Idle, []);
    Follow(p, slots, ops, 9, f9, f10);
    var f11 := Front(5, 4, Pass(4, 4), Empty, k2, Idle, []);
    Follow(p, slots, ops, 10, f10, f11);
    var f12 := Front(6, 5, Pass(5, 5), Pass(4, 4), k2, Idle, []);
    Follow(p, slots, ops, 11, f11, f12);
    var f13 := Front(7, 6, Pass(6, 6), Pass(5, 5), k2, Idle, []);
    Follow(p, slots, ops, 12, f12, f13);
    var f14 := Front(7, 7, Pass(6, 6), Empty, k2, Recording(4, 8), []);
    Follow(p, slots, ops, 13, f13, f14);
    var f15 := Front(4, 7, Jump(7, 7, 4), Pass(6, 6), k2, Looping(4, 8), [7]);
    Follow(p, slots, ops, 14, f14, f15);
  }

  const STALLED_20 :=
    Front(3, 2, Pass(2, 2), Pass(1, 1), Learnt(4, 1, Learnt(7, 4, Learnt(0, 4, Nothing))), Idle, [])

  lemma StalledCycle20(p: Execution, slots: LB.Slots)
    requires Loads(p.imem, LOAD_BEFORE_BRANCH)
    ensures ShownAt(p, slots, 20, STALLED_20)
  {
    hide ShownAt, Loads, Holds;
    StalledProgram(p.imem);
    StalledCycle15(p, slots);
    var k1 := Learnt(0, 4, Nothing);
    var k2 := Learnt(7, 4, k1);
    var k3 := Learnt(4, 1, k2);
    var ops, f15 := LOAD_BEFORE_BRANCH_OPS, Front(4, 7, Jump(7, 7, 4), Pass(6, 6), k2, Looping(4, 8), [7]);
    var f16 := Front(5, 7, Pass(4, 7), Jump(7, 7, 4), k2, Looping(4, 8), [7]);
    Follow(p, slots, ops, 15, f15, f16);
    var f17 := Front(6, 7, Pass(5, 7), Pass(4, 7), k2, Looping(4, 8), [7]);
    Follow(p, slots, ops, 16, f16, f17);
    var f18 := Front(1, 7, Empty, Empty, k3, Invalid, [7]);
    Follow(p, slots, ops, 17, f17, f18);
    var f19 := Front(2, 1, Pass(1, 1), Empty, k3, Idle, []);
    Follow(p, slots, ops, 18, f18, f19);
    var f20 := Front(3, 2, Pass(2, 2), Pass(1, 1), k3, Idle, []);
    Follow(p, slots, ops, 19, f19, f20);
  }

  /** A loop from word 4 to word 6 that goes by way of word 3. Capture and replay
      follow it there: in cycle 18 fetch is at word 3, outside the loop, with the bus
      frozen at word 6. The jump found there leads to word 1. */
  const DETOUR: seq<Word> := [JAL_12, NOP, NOP, JAL_12, BEQ_BACK_4, NOP, JAL_BACK_8]

  const DETOUR_OPS: seq<Op> :=
    [Op(true, 3, false, 0, 12, 0), NOP_OP, NOP_OP, Op(true, 3, false, 0, 12, 0),
     Op(true, -1, false, 0, 0, 29), NOP_OP, Op(true, -2, false, 31, 25, 0)]

  lemma DetourProgram(imem: InstrMem)
    requires Loads(imem, DETOUR)
    ensures Holds(imem, DETOUR_OPS)
  {
    hide Encodes;
    JalsEncoded();
    BranchesEncoded();
    LoopBranchesEncoded();
    OthersEncoded();
  }

  const DETOUR_12 :=
    Front(3, 6, Empty, Empty, Learnt(4, 3, Learnt(6, 4, Learnt(3, 6, Learnt(0, 3, Nothing)))), Idle, [])

  lemma DetourCycle12(p: Execution, slots: LB.Slots)
    requires Loads(p.imem, DETOUR)
    ensures ShownAt(p, slots, 12, DETOUR_12)
  {
    hide ShownAt, Loads, Holds;
    DetourProgram(p.imem);
    ResetShown(p, slots);
    var k1 := Learnt(0, 3, Nothing);
    var k2 := Learnt(3, 6, k1);
    var k3 := Learnt(6, 4, k2);
    var k4 := Learnt(4, 3, k3);
    var ops, f0 := DETOUR_OPS, Front(0, 0, Empty, Empty, Nothing, Idle, []);
    var f1 := Front(1, 0, Pass(0, 0), Empty, Nothing, Idle, []);
    Follow(p, slots, ops, 0, f0, f1);
    var f2 := Front(2, 1, Pass(1, 1), Pass(0, 0), Nothing, Idle, []);
    Follow(p, slots, ops, 1, f1, f2);
    var f3 := Front(3, 2, Empty, Empty, k1, Idle, []);
    Follow(p, slots, ops, 2, f2, f3);
    var f4 := Front(4, 3, Pass(3, 3), Empty, k1, Idle, []);
    Follow(p, slots, ops, 3, f3, f4);
    var f5 := Front(5, 4, Pass(4, 4), Pass(3, 3), k1, Idle, []);
    Follow(p, slots, ops, 4, f4, f5);
    var f6 := Front(6, 5, Empty, Empty, k2, Idle, []);
    Follow(p, slots, ops, 5, f5, f6);
    var f7 := Front(7, 6, Pass(6, 6), Empty, k2, Idle, []);
    Follow(p, slots, ops, 6, f6, f7);
    var f8 := Front(8, 7, Pass(7, 7), Pass(6, 6), k2, Idle, []);
    Follow(p, slots, ops, 7, f7, f8);
    var f9 := Front(4, 8, Empty, Empty, k3, Idle, []);
    Follow(p, slots, ops, 8, f8, f9);
    var f10 := Front(5, 4, Pass(4, 4), Empty, k3, Idle, []);
    Follow(p, slots, ops, 9, f9, f10);
    var f11 := Front(6, 5, Pass(5, 5), Pass(4, 4), k3, Idle, []);
    Follow(p, slots, ops, 10, f10, f11);
    var f12 := Front(3, 6, Empty, Empty, k4, Idle, []);
    Follow(p, slots, ops, 11, f11, f12);
  }

  const DETOUR_18 :=
    Front(3, 6, Jump(4, 4, 3), Jump(6, 6, 4),
          Learnt(4, 3, Learnt(6, 4, Learnt(3, 6, Learnt(0, 3, Nothing)))), Looping(4, 7), [4, 3, 6])

  lemma DetourCycle18(p: Execution, slots: LB.Slots)
    requires Loads(p.imem, DETOUR)
    ensures ShownAt(p, slots, 18, DETOUR_18)
  {
    hide ShownAt, Loads, Holds;
    DetourProgram(p.imem);
    DetourCycle12(p, slots);
    var k1 := Learnt(0, 3, Nothing);
    var k2 := Learnt(3, 6, k1);
    var k3 := Learnt(6, 4, k2);
    var k4 := Learnt(4, 3, k3);
    var ops, f12 := DETOUR_OPS, Front(3, 6, Empty, Empty, k4, Idle, []);
    var f13 := Front(6, 3, Jump(3, 3, 6), Empty, k4, Idle, []);
    Follow(p, slots, ops, 12, f12, f13);
    var f14 := Front(4, 6, Jump(6, 6, 4), Jump(3, 3, 6), k4, Recording(4, 7), []);
    Follow(p, slots, ops, 13, f13, f14);
    var f15 := Front(3, 4, Jump(4, 4, 3), Jump(6, 6, 4), k4, Recording(4, 7), [4]);
    Follow(p, slots, ops, 14, f14, f15);
    var f16 := Front(6, 3, Jump(3, 3, 6), Jump(4, 4, 3), k4, Recording(4, 7), [4, 3]);
    Follow(p, slots, ops, 15, f15, f16);
    var f17 := Front(4, 6, Jump(6, 6, 4), Jump(3, 3, 6), k4, Looping(4, 7), [4, 3, 6]);
    Follow(p, slots, ops, 16, f16, f17);
    var f18 := Front(3, 6, Jump(4, 4, 3), Jump(6, 6, 4), k4, Looping(4, 7), [4, 3, 6]);
    Follow(p, slots, ops, 17, f17, f18);
  }

  const DETOUR_23 :=
    Front(3, 2, Pass(2, 2), Pass(1, 1),
          Learnt(3, 1, Learnt(4, 3, Learnt(6, 4, Learnt(3, 6, Learnt(0, 3, Nothing))))), Idle, [])

  lemma DetourCycle23(p: Execution, slots: LB.Slots)
    requires Loads(p.imem, DETOUR)
    ensures ShownAt(p, slots, 23, DETOUR_23)
  {
    hide ShownAt, Loads, Holds;
    DetourProgram(p.imem);
    DetourCycle18(p, slots);
    var k1 := Learnt(0, 3, Nothing);
    var k2 := Learnt(3, 6, k1);
    var k3 := Learnt(6, 4, k2);
    var k4 := Learnt(4, 3, k3);
    var k5 := Learnt(3, 1, k4);
    var ops, f18 := DETOUR_OPS, Front(3, 6, Jump(4, 4, 3), Jump(6, 6, 4), k4, Looping(4, 7), [4, 3, 6]);
    var f19 := Front(6, 6, Jump(3, 6, 6), Jump(4, 4, 3), k4, Invalid, [4, 3, 6]);
    Follow(p, slots, ops, 18, f18, f19);
    var f20 := Front(4, 6, Jump(6, 6, 4), Jump(3, 6, 6), k4, Idle, []);
    Follow(p, slots, ops, 19, f19, f20);
    var f21 := Front(1, 4, Empty, Empty, k5, Idle, []);
    Follow(p, slots, ops, 20, f20, f21);
    var f22 := Front(2, 1, Pass(1, 1), Empty, k5, Idle, []);
    Follow(p, slots, ops, 21, f21, f22);
    var f23 := Front(3, 2, Pass(2, 2), Pass(1, 1), k5, Idle, []);
    Follow(p, slots, ops, 22, f22, f23);
  }

  /** Two words and a branch back: armed in cycle 7, captured in 8, 9 and 10, and
      replayed from cycle 11 on. */
  const THREE_WORDS: seq<Word> := [NOP, NOP, BEQ_BACK_8]

  const THREE_WORDS_OPS: seq<Op> :=
    [NOP_OP, NOP_OP, Op(true, -2, false, 0, 0, 25)]

  lemma ReplayProgram(imem: InstrMem)
    requires Loads(imem, THREE_WORDS)
    ensures Holds(imem, THREE_WORDS_OPS)
  {
    hide Encodes;
    JalsEncoded();
    BranchesEncoded();
    LoopBranchesEncoded();
    OthersEncoded();
  }

  const REPLAY_7 := Front(2, 1, Pass(1, 1), Pass(0, 0), Learnt(2, 0, Nothing), Idle, [])

  lemma ReplayCycle7(p: Execution, slots: LB.Slots)
    requires Loads(p.imem, THREE_WORDS)
    ensures ShownAt(p, slots, 7, REPLAY_7)
  {
    hide ShownAt, Loads, Holds;
    ReplayProgram(p.imem);
    ResetShown(p, slots);
    var k1 := Learnt(2, 0, Nothing);
    var ops, f0 := THREE_WORDS_OPS, Front(0, 0, Empty, Empty, Nothing, Idle, []);
    var f1 := Front(1, 0, Pass(0, 0), Empty, Nothing, Idle, []);
    Follow(p, slots, ops, 0, f0, f1);
    var f2 := Front(2, 1, Pass(1, 1), Pass(0, 0), Nothing, Idle, []);
    Follow(p, slots, ops, 1, f1, f2);
    var f3 := Front(3, 2, Pass(2, 2), Pass(1, 1), Nothing, Idle, []);
    Follow(p, slots, ops, 2, f2, f3);
    var f4 := Front(4, 3, Pass(3, 3), Pass(2, 2), Nothing, Idle, []);
    Follow(p, slots, ops, 3, f3, f4);
    var f5 := Front(0, 4, Empty, Empty, k1, Idle, []);
    Follow(p, slots, ops, 4, f4, f5);
    var f6 := Front(1, 0, Pass(0, 0), Empty, k1, Idle, []);
    Follow(p, slots, ops, 5, f5, f6);
    var f7 := Front(2, 1, Pass(1, 1), Pass(0, 0), k1, Idle, []);
    Follow(p, slots, ops, 6, f6, f7);
  }

  const REPLAY_11 := Front(0, 2, Jump(2, 2, 0), Pass(1, 1), Learnt(2, 0, Nothing), Looping(0, 3), [0, 1, 2])

  lemma ReplayCycle11(p: Execution, slots: LB.Slots)
    requires Loads(p.imem, THREE_WORDS)
    ensures ShownAt(p, slots, 11, REPLAY_11)
  {
    hide ShownAt, Loads, Holds;
    ReplayProgram(p.imem);
    ReplayCycle7(p, slots);
    var k1 := Learnt(2, 0, Nothing);
    var ops, f7 := THREE_WORDS_OPS, Front(2, 1, Pass(1, 1), Pass(0, 0), k1, Idle, []);
    var f8 := Front(0, 2, Jump(2, 2, 0), Pass(1, 1), k1, Recording(0, 3), []);
    Follow(p, slots, ops, 7, f7, f8);
    var f9 := Front(1, 0, Pass(0, 0), Jump(2, 2, 0), k1, Recording(0, 3), [0]);
    Follow(p, slots, ops, 8, f8, f9);
    var f10 := Front(2, 1, Pass(1, 1), Pass(0, 0), k1, Recording(0, 3), [0, 1]);
    Follow(p, slots, ops, 9, f9, f10);
    var f11 := Front(0, 2, Jump(2, 2, 0), Pass(1, 1), k1, Looping(0, 3), [0, 1, 2]);
    Follow(p, slots, ops, 10, f10, f11);
  }

  // ---- what they show ----

  /** Case one: capture does not look at the fetch address. */
  lemma ForwardBranchIsMisfetched(p: Execution, slots: LB.Slots)
    requires Loads(p.imem, FORWARD_IN_BODY)
    ensures Misfetched(p, slots, 17, 16, 20)
    ensures LogIsNoTrace(p, slots, 25) && !WellBehaved(p)
  {
    hide ShownAt, Holds, Misfetched, LogIsNoTrace, WellBehaved, NeverAt, Reset;
    ForwardProgram(p.imem);
    ForwardCycle17(p, slots);
    MisfetchShown(p, slots, FORWARD_IN_BODY_OPS, 17, FORWARD_17);
    ForwardCycle22(p, slots);
    NeverOffPath(p, FORWARD_IN_BODY_OPS, {0, 2, 4, 5}, 1);
    StrayShown(p, slots, 22, FORWARD_22);
    OutsideTheClass(p, slots, 25);
  }

  /** Case two: arming does not look at the stall. */
  lemma StalledBranchIsMisfetched(p: Execution, slots: LB.Slots)
    requires Loads(p.imem, LOAD_BEFORE_BRANCH)
    ensures Misfetched(p, slots, 15, 16, 28)
    ensures LogIsNoTrace(p, slots, 23) && !WellBehaved(p)
  {
    hide ShownAt, Holds, Misfetched, LogIsNoTrace, WellBehaved, NeverAt, Reset;
    StalledProgram(p.imem);
    StalledCycle15(p, slots);
    MisfetchShown(p, slots, LOAD_BEFORE_BRANCH_OPS, 15, STALLED_15);
    StalledCycle20(p, slots);
    NeverOffPath(p, LOAD_BEFORE_BRANCH_OPS, {0, 4, 5, 6, 7}, 1);
    StrayShown(p, slots, 20, STALLED_20);
    OutsideTheClass(p, slots, 23);
  }

  /** Case three: fetch leaves the loop during replay without a flush, and takes
      the word on the frozen bus for its own. */
  lemma DetourIsMisfetched(p: Execution, slots: LB.Slots)
    requires Loads(p.imem, DETOUR)
    ensures Misfetched(p, slots, 18, 12, 24)
    ensures var lb := Reached(p, slots, 18).lb; !(lb.start <= 12 < lb.end)
    ensures LogIsNoTrace(p, slots, 26) && !WellBehaved(p)
  {
    hide ShownAt, Holds, Misfetched, LogIsNoTrace, WellBehaved, NeverAt, Reset;
    DetourProgram(p.imem);
    DetourCycle18(p, slots);
    MisfetchShown(p, slots, DETOUR_OPS, 18, DETOUR_18);
    RangeShown(p, slots, 18, DETOUR_18);
    DetourCycle23(p, slots);
    NeverOffPath(p, DETOUR_OPS, {0, 3, 4, 6}, 1);
    StrayShown(p, slots, 23, DETOUR_23);
    OutsideTheClass(p, slots, 26);
  }

  lemma StrayShown(p: Execution, slots: LB.Slots, n: nat, f: Front)
    requires ShownAt(p, slots, n, f) && f.ex.Held? && Small(f.ex.pc) && NeverAt(p, 4 * f.ex.pc)
    ensures LogIsNoTrace(p, slots, n + 3)
  {
    hide Shows, NeverAt, LogIsNoTrace, Reset;
    PcShown(p.imem, Reached(p, slots, n), f);
    StrayPcIsLogged(p, slots, n, 4 * f.ex.pc);
  }

  lemma RangeShown(p: Execution, slots: LB.Slots, n: nat, f: Front)
    requires ShownAt(p, slots, n, f) && f.phase.Looping?
    ensures var lb := Reached(p, slots, n).lb; lb.start == 4 * f.phase.start && lb.end == 4 * f.phase.end
  {
    hide IdShows, ExShows, TableShows, SlotsShow, Reset;
  }

  /** Words 0, 1 and 2 are a straight loop, and the whole program. */
  lemma ThreeWordsLoop(p: Execution, k: nat)
    requires Loads(p.imem, THREE_WORDS)
    ensures p.At(k).pc % 4 == 0 && LandsOutside(p, k, 0, 8)
    ensures p.At(k + 1).pc < p.At(k).pc ==> p.At(k).pc == 8 && p.At(k + 1).pc == 0
  {
    hide Run, Start, Holds, IsControlFlow, Instr, Loads;
    ReplayProgram(p.imem);
    var a := StaysOnPath(p, THREE_WORDS_OPS, {0, 1, 2}, k);
    SequentialNext(p, THREE_WORDS_OPS, k, a);
    if k == 0 {
      StartsAtZero(p);
    } else {
      var b := StaysOnPath(p, THREE_WORDS_OPS, {0, 1, 2}, k - 1);
      SequentialNext(p, THREE_WORDS_OPS, k - 1, b);
      ControlAt(p, THREE_WORDS_OPS, k - 1, b);
    }
  }

  lemma ControlAt(p: Execution, ops: seq<Op>, k: nat, a: int)
    requires Holds(p.imem, ops) && Small(a) && p.At(k).pc == 4 * a
    ensures IsControlFlow(p.WordAt(k)) == OpAt(ops, a).jump
  {
    hide Holds, Encodes, IsControlFlow, Run, Start, Fetch;
    FetchSmall(p.imem, a);
    OpHeld(p.imem, ops, a);
    EncodesParts(p.imem[a], OpAt(ops, a));
  }

  lemma ThreeWordsText(imem: InstrMem)
    requires Loads(imem, THREE_WORDS)
    ensures StraightWords(imem, 0, 8) && NoTransferStall(imem, 8)
  {
    hide Encodes, IsControlFlow, Fetch, LoadUseHazard, Decode, Rs1, Rs2, Rd;
    OthersEncoded();
    EncodesParts(NOP, NOP_OP);
    FetchSmall(imem, 0);
    FetchSmall(imem, 1);
    NoHazard();
  }

  lemma NoHazard()
    ensures !LoadUseHazard(Rs1(NOP), Rs2(NOP), Decode(NOP).memRead, Rd(NOP))
  {
  }

  /** Three words of straight-line loop are a class program, and are replayed. */
  lemma ThreeWordsAreReplayed(p: Execution, slots: LB.Slots)
    requires Loads(p.imem, THREE_WORDS)
    ensures WellBehaved(p) && LB.Gated(Reached(p, slots, 11).lb)
  {
    hide Holds, Reset, Run, Start, LandsOutside, StraightWords, NoTransferStall, Loads, Instr, IsControlFlow, Outcome;
    ReplayCycle11(p, slots);
    GatedShown(p.imem, Reached(p, slots, 11), REPLAY_11);
    ThreeWordsText(p.imem);
    forall k: nat
      ensures LandsOutside(p, k, 0, 8)
    {
      ThreeWordsLoop(p, k);
    }
    forall k: nat
      ensures GoodTransfer(p, k)
    {
      ThreeWordsLoop(p, k);
    }
  }
}
