/**
 Where generated programs touch memory: the base register is exact, every data
 access is an aligned word just above the program, and so the C++ simulator,
 the sequential machine and the pipeline all agree on every generated program.
 */
module AddressWindow {
  import opened Words
  import opened Datapath
  import opened Sequential
  import opened Execution
  import opened Generator
  import opened GeneratedRun
  import opened GeneratedClass
  import opened Equivalence
  import opened CommitLog
  import CppSimulator
  import opened Core
  import opened Invariant
  import opened Refinement
  import LB = LoopBuffer

  /** Past the set-up the base register is program_end + 32, through the
      hi20/lo12 split and the hardware's auipc and addi. */
  lemma BaseRegisterIsExact(p: Execution, ws: seq<Word>, ranges: seq<Range>, k: nat)
    requires Loaded(p.imem, ws, ranges) && Site(p.At(k)) >= PREAMBLE_WORDS + 2
    ensures p.At(k).regs[31] == ProgramEnd(|ws|) + 32 && |ws| >= 2
  {
    hide Loaded, StateOk, Site, Run, Start;
    ReachedState(p, ws, ranges, k);
    BaseAt(ws, ranges, p.At(k));
  }

  lemma BaseAt(ws: seq<Word>, ranges: seq<Range>, s: Arch)
    requires StateOk(ws, ranges, s)
    ensures Site(s) >= PREAMBLE_WORDS + 2 ==> s.regs[31] == DataBase(|ws|) && |ws| >= 2
  {
    hide CounterOk, Hi20;
  }

  // ---- the kinds of word a run meets ----

  predicate SetUpWord(w: Word) {
    Opcode(w) in {OP_IMM, OP_AUIPC}
  }

  predicate ControlWord(w: Word) {
    (Opcode(w) == OP_BRANCH && Funct3(w) in {0, 1, 4, 5}) || Opcode(w) == OP_JAL
  }

  lemma AddiIsSetUp(w: Word, rd: RegIdx, rs1: RegIdx, imm: int)
    requires IsAddi(w, rd, rs1, imm)
    ensures SetUpWord(w)
  {
    hide Opcode, Funct3, Rd, Rs1, Rs2, Offset;
  }

  lemma TopWordKinds(w: Word, pos: nat, total: nat, ranges: seq<Range>)
    requires TopWord(w, pos, total, ranges)
    ensures BodyWord(w) || ControlWord(w)
  {
    hide Opcode, Funct3, Rd, Rs1, Rs2, Offset, InAnyRange, BodyWord;
  }

  lemma LoopBranchIsControl(w: Word, imm: int)
    requires IsLoopBranch(w, imm)
    ensures ControlWord(w)
  {
    hide Opcode, Funct3, Rd, Rs1, Rs2, Offset;
  }

  lemma SelfBranchIsControl(w: Word)
    requires IsSelfBranch(w)
    ensures ControlWord(w)
  {
    hide Opcode, Funct3, Rd, Rs1, Rs2, Offset;
  }

  lemma LoopWordKinds(ws: seq<Word>, r: Range, i: nat)
    requires LoopInPlace(ws, r) && InRange(i, r)
    ensures SetUpWord(ws[i]) || BodyWord(ws[i]) || ControlWord(ws[i])
  {
    hide SetUpWord, ControlWord, BodyWord, Trip, IsAddi, IsLoopBranch;
    if i == r.lo {
      AddiIsSetUp(ws[i], 30, 0, Trip(ws, r));
    } else if i == r.hi - 2 {
      AddiIsSetUp(ws[i], 30, 30, -1);
    } else if i == r.hi - 1 {
      LoopBranchIsControl(ws[i], -4 * (r.hi - r.lo - 2));
    }
  }

  /** A word of the stream after the base register's two. */
  lemma StreamWordKinds(ws: seq<Word>, ranges: seq<Range>, i: nat)
    requires Stream(ws, ranges) && StreamStart(|ws|) <= i < |ws|
    ensures SetUpWord(ws[i]) || BodyWord(ws[i]) || ControlWord(ws[i])
  {
    hide Stream, SetUpWord, BodyWord, ControlWord, TopWord, LoopInPlace;
    if InAnyRange(i, ranges) {
      var j :| 0 <= j < |ranges| && InRange(i, ranges[j]);
      LoopAt(ws, ranges, j);
      LoopWordKinds(ws, ranges[j], i);
    } else {
      TopWordAt(ws, ranges, i);
      TopWordKinds(ws[i], i, |ws|, ranges);
    }
  }

  lemma WordKinds(imem: InstrMem, ws: seq<Word>, ranges: seq<Range>, s: Arch)
    requires Loaded(imem, ws, ranges) && StateOk(ws, ranges, s)
    ensures var w := Instr(imem, s);
            SetUpWord(w) || ControlWord(w) || (BodyWord(w) && s.regs[31] == DataBase(|ws|) && |ws| >= 2)
  {
    hide Loaded, StateOk, Site, Instr, Stream, BodyWord, ControlWord, IsAddi, SetUpWord;
    NonEmpty(imem, ws, ranges);
    SiteBound(ws, ranges, s);
    InstrAtSite(imem, ws, ranges, s);
    BaseAt(ws, ranges, s);
    var i := Site(s) - PREAMBLE_WORDS;
    if i < StreamStart(|ws|) {
      SetUpKinds(imem, ws, ranges, Site(s));
    } else if i == |ws| {
      EpilogueIsSelfBranch(imem, ws, ranges);
      SelfBranchIsControl(imem[Site(s)]);
    } else {
      StreamWord(imem, ws, ranges, i);
      StreamWordKinds(ws, ranges, i);
    }
  }

  lemma SetUpKinds(imem: InstrMem, ws: seq<Word>, ranges: seq<Range>, a: nat)
    requires Loaded(imem, ws, ranges) && a < PREAMBLE_WORDS + StreamStart(|ws|)
    ensures a < 1024 && SetUpWord(imem[a])
  {
    hide Loaded, Stream, IsAddi, Opcode, Rd, ImmGen, Hi20, Lo12;
    NonEmpty(imem, ws, ranges);
    BaseWords(ws, ranges);
    if a < PREAMBLE_WORDS {
      PreambleWord(imem, ws, ranges, a);
      AddiIsSetUp(imem[a], a + 1, 0, 0);
    } else {
      StreamWord(imem, ws, ranges, a - PREAMBLE_WORDS);
      if a == PREAMBLE_WORDS + 1 {
        AddiIsSetUp(imem[a], 31, 31, Lo12(|ws|));
      }
    }
  }

  // ---- data addresses ----

  lemma KindsAreSupported(w: Word)
    requires SetUpWord(w) || ControlWord(w) || BodyWord(w)
    ensures Supported(w) && w != 0
    ensures Opcode(w) in {OP_LOAD, OP_STORE} ==> Rs1(w) == 31 && InWindow(Offset(w))
    ensures SetUpWord(w) || ControlWord(w) ==> Opcode(w) !in {OP_LOAD, OP_STORE}
  {
    hide Opcode, Funct3, Funct7, Rd, Rs1, Rs2, Offset;
    ZeroWord(w);
  }

  lemma ZeroWord(w: Word)
    ensures w == 0 ==> Opcode(w) == 0
  {
  }

  lemma WindowArithmetic(n: nat, offset: int)
    requires Fits(n) && InWindow(offset)
    ensures var a := DataBase(n) + offset;
            a % 4 == 0 && ProgramEnd(n) <= a <= ProgramEnd(n) + 64 && a <= 4092
  {
  }

  /** Every executed load or store is one of the 17 words from the end of the
      program on, inside the data memory; every word is in the common subset. */
  lemma AccessesInWindow(p: Execution, ws: seq<Word>, ranges: seq<Range>, k: nat)
    requires Loaded(p.imem, ws, ranges)
    ensures Executable(p.imem, p.At(k), ProgramEnd(|ws|))
    ensures Opcode(p.WordAt(k)) in {OP_LOAD, OP_STORE} ==>
              var a := p.OutcomeAt(k).alu;
              a % 4 == 0 && ProgramEnd(|ws|) <= a <= ProgramEnd(|ws|) + 64 && a <= 4092
  {
    hide Loaded, StateOk, Executable, Opcode, Run, Start, Outcome, Instr;
    var s := p.At(k);
    ReachedState(p, ws, ranges, k);
    StateIsExecutable(p.imem, ws, ranges, s);
  }

  lemma StateIsExecutable(imem: InstrMem, ws: seq<Word>, ranges: seq<Range>, s: Arch)
    requires Loaded(imem, ws, ranges) && StateOk(ws, ranges, s)
    ensures Executable(imem, s, ProgramEnd(|ws|))
    ensures Opcode(Instr(imem, s)) in {OP_LOAD, OP_STORE} ==>
              var a := Outcome(Instr(imem, s), s).alu;
              a % 4 == 0 && ProgramEnd(|ws|) <= a <= ProgramEnd(|ws|) + 64 && a <= 4092
  {
    hide Loaded, StateOk, Site, Instr, Outcome, Opcode, SetUpWord, ControlWord, BodyWord, Supported, Offset, Rs1,
         Stream;
    var w := Instr(imem, s);
    NonEmpty(imem, ws, ranges);
    SiteBound(ws, ranges, s);
    WordKinds(imem, ws, ranges, s);
    KindsAreSupported(w);
    if Opcode(w) in {OP_LOAD, OP_STORE} {
      AddressAgrees(w, s);
      WindowArithmetic(|ws|, Offset(w));
      AddSigned(s.regs[31], w, Offset(w));
    }
  }

  // ---- every generated program runs the same on all three machines ----

  /** The C++ simulator, started on the program's text and the same data words,
      has the sequential machine's registers, pc and data memory for ever. */
  lemma GeneratedRunAgrees(p: Execution, ws: seq<Word>, ranges: seq<Range>, cs: CppSimulator.CppState, k: nat)
    requires Loaded(p.imem, ws, ranges) && Related(p.imem, p.At(0), cs, ProgramEnd(|ws|))
    ensures Related(p.imem, p.At(k), CppSimulator.Simulate(cs, k), ProgramEnd(|ws|))
  {
    hide Loaded, Related, Executable, Run, Start, CppSimulator.Simulate;
    NonEmpty(p.imem, ws, ranges);
    forall j: nat | j < k
      ensures Executable(p.imem, p.At(j), ProgramEnd(|ws|))
    {
      AccessesInWindow(p, ws, ranges, j);
    }
    RunAgrees(p, cs, ProgramEnd(|ws|), k);
  }

  /** End to end: in any cycle of any generated program the pipeline's register
      file and data memory are those of the C++ simulator after as many
      instructions, and its log is the sequential trace. */
  lemma PipelineMatchesSimulator(p: Execution, ws: seq<Word>, ranges: seq<Range>, cs: CppSimulator.CppState,
                                 slots: LB.Slots, n: nat)
    requires Loaded(p.imem, ws, ranges) && Related(p.imem, p.At(0), cs, ProgramEnd(|ws|))
    ensures var c, r := Reached(p, slots, n), Retired(p, slots, n);
            var m := MemIndex(c, r);
            && c.regs == CppSimulator.Simulate(cs, r).regs
            && (forall i :: ProgramEnd(|ws|) <= 4 * i < 4096 ==>
                  c.ram[i] == CppSimulator.GetWord(CppSimulator.Simulate(cs, m).mem, 4 * i))
            && ParseLines(LogAfter(p, slots, n).lines) == Parsed(PcsUpTo(p, r), RegsUpTo(p, r), MemsUpTo(p, m))
  {
    var c, r := Reached(p, slots, n), Retired(p, slots, n);
    var m := MemIndex(c, r);
    hide Loaded, WellBehaved, PcsUpTo, RegsUpTo, MemsUpTo, ParseLines, Inv, Related, Retired, Reached, LogAfter, Run,
         Start, CppSimulator.Simulate, BackEnd;
    GeneratedIsWellBehaved(p, ws, ranges);
    LogIsSequentialTrace(p, slots, n);
    ReachedInv(p, slots, n);
    BackEndOf(p, c, r);
    MemoriesOf(p, c, r);
    GeneratedRunAgrees(p, ws, ranges, cs, r);
    GeneratedRunAgrees(p, ws, ranges, cs, m);
    RelatedParts(p.imem, p.At(r), CppSimulator.Simulate(cs, r), ProgramEnd(|ws|));
    RelatedParts(p.imem, p.At(m), CppSimulator.Simulate(cs, m), ProgramEnd(|ws|));
  }

  lemma MemoriesOf(p: Execution, c: Core, r: nat)
    requires BackEnd(p, c, r)
    ensures c.regs == p.At(r).regs && c.ram == p.At(MemIndex(c, r)).ram
  {
    hide WbMatches, MemMatches, Run, Start;
  }

  lemma RelatedParts(imem: InstrMem, s: Arch, cs: CppSimulator.CppState, textEnd: int)
    requires Related(imem, s, cs, textEnd)
    ensures cs.regs == s.regs
    ensures forall i :: 0 <= i && textEnd <= 4 * i < 4096 ==> s.ram[i] == CppSimulator.GetWord(cs.mem, 4 * i)
  {
    hide CppSimulator.GetWord;
  }
}
