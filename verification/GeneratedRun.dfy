/**
 How a generated program runs: the pc stays on the text, the base register and
 the loop counter hold what the generator reserved them for, and control moves
 only as the layout allows.
 */
module GeneratedRun {
  import opened Words
  import opened Datapath
  import opened Sequential
  import opened Generator
  import Equivalence

  // ---- what single words do ----

  lemma NonControlStep(w: Word, s: Arch)
    requires !IsControlFlow(w)
    ensures StepPc(w, s) == Add(s.pc, 4)
  {
    hide ImmGen, Add, Alu, AluOverflow, SignBit, ReadReg, Rs1, Rs2, AluControlImm, AluControlReg;
  }

  /** Where a branch or jal can go. */
  lemma DirectControlStep(w: Word, s: Arch)
    requires Opcode(w) in {OP_BRANCH, OP_JAL}
    ensures Outcome(w, s).target == Add(s.pc, ImmGen(w))
    ensures StepPc(w, s) == if Outcome(w, s).taken then Add(s.pc, ImmGen(w)) else Add(s.pc, 4)
    ensures Opcode(w) == OP_JAL ==> Outcome(w, s).taken
  {
    hide ImmGen, Add, Alu, AluOverflow, SignBit, ReadReg, Rs1, Rs2, Opcode;
  }

  lemma AddOffset(a: Word, w: Word)
    requires 0 <= a + Offset(w) < TWO_TO_32
    ensures Add(a, ImmGen(w)) == a + Offset(w)
  {
    hide ImmGen;
  }

  lemma AddiStep(w: Word, rd: RegIdx, rs1: RegIdx, imm: int, s: Arch)
    requires IsAddi(w, rd, rs1, imm)
    ensures StepRegs(w, s) == WriteReg(s.regs, rd, Add(ReadReg(s.regs, rs1), ImmGen(w)))
    ensures Decode(w).regWrite && RdValue(w, s) == Add(ReadReg(s.regs, rs1), ImmGen(w))
    ensures StepRam(w, s) == s.ram && !IsControlFlow(w)
  {
    hide ImmGen, Add, Opcode, Rd, Rs1, Rs2, Funct3, Funct7, ReadReg, WriteReg, Offset, AluOverflow, SignBit;
  }

  lemma AuipcStep(w: Word, rd: RegIdx, s: Arch)
    requires Opcode(w) == OP_AUIPC && Rd(w) == rd
    ensures StepRegs(w, s) == WriteReg(s.regs, rd, Add(s.pc, ImmGen(w)))
    ensures Decode(w).regWrite && RdValue(w, s) == Add(s.pc, ImmGen(w))
    ensures StepRam(w, s) == s.ram && !IsControlFlow(w)
  {
    hide ImmGen, Add, Opcode, Rd, Rs1, Rs2, Funct3, Funct7, ReadReg, WriteReg, AluOverflow, SignBit;
  }

  /** Body words and forward jumps leave x0, x30 and x31 alone. */
  lemma ReservedRegistersKept(w: Word, s: Arch)
    requires BodyWord(w) || Opcode(w) == OP_BRANCH || (Opcode(w) == OP_JAL && Rd(w) == 0)
    ensures var r := StepRegs(w, s); r[0] == s.regs[0] && r[30] == s.regs[30] && r[31] == s.regs[31]
  {
    hide ImmGen, Add, Rs1, Rs2, Funct7, ReadReg, RdValue, Offset, Opcode, Rd, Funct3;
  }

  lemma BodyWordIsNotControl(w: Word)
    requires BodyWord(w)
    ensures !IsControlFlow(w)
  {
    hide ImmGen, Rs1, Rs2, Funct7, Offset, Rd, Funct3;
  }

  /** bne x30, x0. */
  lemma LoopBranchDecides(w: Word, imm: int, s: Arch)
    requires IsLoopBranch(w, imm)
    ensures Outcome(w, s).taken == (s.regs[30] != 0)
  {
    hide ImmGen, Add, Alu, AluOverflow, SignBit, Rs1, Rs2, Opcode, Funct3, Offset, BranchTaken;
    Equivalence.BranchFlagsAgree(1, ReadReg(s.regs, 30), 0);
  }

  lemma SelfBranchTaken(w: Word, s: Arch)
    requires IsSelfBranch(w)
    ensures Outcome(w, s).taken
  {
    hide ImmGen, Add, Alu, AluOverflow, SignBit, Rs1, Rs2, Opcode, Funct3, Offset, BranchTaken;
    Equivalence.BranchFlagsAgree(0, 0, 0);
  }

  // ---- the program in instruction memory ----

  /** The text of a generated program is loaded at address 0. */
  ghost predicate Loaded(imem: InstrMem, ws: seq<Word>, ranges: seq<Range>) {
    Fits(|ws|) && FullText(imem[..TotalWords(|ws|)], ws, ranges)
  }

  /** What the loader makes of the words BuildFullProgram returns. */
  lemma TextIsLoaded(imem: InstrMem, text: seq<Word>, ws: seq<Word>, ranges: seq<Range>)
    requires FullText(text, ws, ranges) && |text| <= 1024
    requires forall a :: 0 <= a < |text| ==> imem[a] == text[a]
    ensures Loaded(imem, ws, ranges)
  {
    hide IsAddi, IsSelfBranch, BlockAt, TopWord;
    assert imem[..TotalWords(|ws|)] == text;
  }

  /** Word index of the instruction at s. */
  function Site(s: Arch): nat {
    s.pc / 4
  }

  function Epilogue(n: nat): nat {
    PREAMBLE_WORDS + n
  }

  function Trip(ws: seq<Word>, r: Range): int {
    if r.lo < |ws| then Offset(ws[r.lo]) else 0
  }

  function DataBase(n: nat): int {
    ProgramEnd(n) + LOAD_STORE_WINDOW
  }

  /** x31 along the way: cleared, then set by auipc, then the data base. */
  predicate BaseOk(n: nat, site: nat, x31: Word) {
    && (site == PREAMBLE_WORDS ==> x31 == 0)
    && (site == PREAMBLE_WORDS + 1 ==> x31 == 4 * PREAMBLE_WORDS + 4096 * Hi20(n))
    && (site >= PREAMBLE_WORDS + 2 ==> x31 == DataBase(n))
  }

  /** x30 inside a loop: the iterations left, counting the current one until it
      is decremented. */
  predicate CounterOk(ws: seq<Word>, r: Range, i: int, x30: Word) {
    && (r.lo < i < r.hi - 1 ==> 1 <= x30 <= Trip(ws, r))
    && (i == r.hi - 1 ==> x30 <= Trip(ws, r) - 1)
  }

  ghost predicate StateOk(ws: seq<Word>, ranges: seq<Range>, s: Arch) {
    && s.pc % 4 == 0 && Site(s) <= Epilogue(|ws|)
    && s.regs[0] == 0
    && BaseOk(|ws|, Site(s), s.regs[31])
    && forall j :: 0 <= j < |ranges| ==> CounterOk(ws, ranges[j], Site(s) - PREAMBLE_WORDS, s.regs[30])
  }

  // ---- the word at each site ----

  lemma InstrAtSite(imem: InstrMem, ws: seq<Word>, ranges: seq<Range>, s: Arch)
    requires Loaded(imem, ws, ranges) && StateOk(ws, ranges, s)
    ensures Site(s) < 1024 && s.pc == 4 * Site(s) && Instr(imem, s) == imem[Site(s)]
  {
    hide FullText, BaseOk, CounterOk;
  }

  lemma PreambleWord(imem: InstrMem, ws: seq<Word>, ranges: seq<Range>, a: nat)
    requires Loaded(imem, ws, ranges) && a < PREAMBLE_WORDS
    ensures IsAddi(imem[a], a + 1, 0, 0)
  {
    hide IsAddi, Stream, IsSelfBranch;
    var text := imem[..TotalWords(|ws|)];
    assert IsAddi(text[a], a + 1, 0, 0);
  }

  lemma StreamWord(imem: InstrMem, ws: seq<Word>, ranges: seq<Range>, i: nat)
    requires Loaded(imem, ws, ranges) && i < |ws|
    ensures PREAMBLE_WORDS + i < 1024 && imem[PREAMBLE_WORDS + i] == ws[i]
    ensures Stream(ws, ranges)
  {
    hide IsAddi, Stream, IsSelfBranch;
    var text := imem[..TotalWords(|ws|)];
    assert text[PREAMBLE_WORDS + i] == ws[i];
  }

  lemma EpilogueIsSelfBranch(imem: InstrMem, ws: seq<Word>, ranges: seq<Range>)
    requires Loaded(imem, ws, ranges)
    ensures Epilogue(|ws|) < 1024 && IsSelfBranch(imem[Epilogue(|ws|)])
  {
    hide IsAddi, Stream, IsSelfBranch;
  }

  /** init, body, decrement, branch back, in place. */
  ghost predicate LoopInPlace(ws: seq<Word>, r: Range) {
    && r.lo + 4 <= r.hi <= |ws| && r.hi <= r.lo + 8
    && 2 <= Trip(ws, r) <= 8
    && IsAddi(ws[r.lo], 30, 0, Trip(ws, r))
    && (forall i :: r.lo < i < r.hi - 2 ==> BodyWord(ws[i]))
    && IsAddi(ws[r.hi - 2], 30, 30, -1)
    && IsLoopBranch(ws[r.hi - 1], -4 * (r.hi - r.lo - 2))
  }

  lemma BlockInPlace(ws: seq<Word>, r: Range)
    requires BlockAt(ws, r)
    ensures LoopInPlace(ws, r)
  {
    hide BodyWord, IsAddi, IsLoopBranch, Offset;
    var block := ws[r.lo..r.hi];
    forall i | r.lo < i < r.hi - 2
      ensures BodyWord(ws[i])
    {
      assert ws[i] == block[i - r.lo];
    }
  }

  lemma LoopAt(ws: seq<Word>, ranges: seq<Range>, j: nat)
    requires Stream(ws, ranges) && j < |ranges|
    ensures StreamStart(|ws|) <= ranges[j].lo && LoopInPlace(ws, ranges[j])
  {
    hide TopWord, LoopWords, InAnyRange, Hi20, Lo12, Offset, Opcode, Rd, ImmGen, IsAddi, LoopInPlace;
    assert BlockAt(ws, ranges[j]);
    BlockInPlace(ws, ranges[j]);
  }

  lemma TopWordAt(ws: seq<Word>, ranges: seq<Range>, i: nat)
    requires Stream(ws, ranges) && StreamStart(|ws|) <= i < |ws| && !InAnyRange(i, ranges)
    ensures TopWord(ws[i], i, |ws|, ranges)
  {
    hide TopWord, BlockAt, IsAddi, InAnyRange;
    assert TopLevel(i, |ws|, ranges);
  }

  lemma BaseWords(ws: seq<Word>, ranges: seq<Range>)
    requires Stream(ws, ranges)
    ensures |ws| >= 1 && Opcode(ws[0]) == OP_AUIPC && Rd(ws[0]) == 31 && ImmGen(ws[0]) == 4096 * Hi20(|ws|)
    ensures |ws| > 1 ==> IsAddi(ws[1], 31, 31, Lo12(|ws|))
  {
    hide TopWord, BlockAt, IsAddi, InAnyRange, Opcode, Rd, ImmGen, Hi20, Lo12;
  }

  /** At most one block holds a given word. */
  lemma OneBlock(ws: seq<Word>, ranges: seq<Range>, j: nat, k: nat, i: int)
    requires Stream(ws, ranges) && j < |ranges| && k < |ranges| && InRange(i, ranges[j]) && InRange(i, ranges[k])
    ensures j == k
  {
    hide TopWord, BlockAt, IsAddi, InAnyRange, Opcode, Rd, ImmGen, Hi20, Lo12;
  }

  // ---- one step, site by site ----

  /** Moving one word on. */
  lemma FallThrough(s: Arch, n: nat)
    requires s.pc % 4 == 0 && Site(s) <= Epilogue(n) && Fits(n)
    ensures Add(s.pc, 4) % 4 == 0 && Add(s.pc, 4) / 4 == Site(s) + 1
  {
  }

  lemma PreambleStep(imem: InstrMem, ws: seq<Word>, ranges: seq<Range>, s: Arch)
    requires Loaded(imem, ws, ranges) && StateOk(ws, ranges, s) && Site(s) < PREAMBLE_WORDS
    ensures var s' := Step(imem, s);
            && s'.pc % 4 == 0 && Site(s') == Site(s) + 1
            && s'.regs == WriteReg(s.regs, Site(s) + 1, 0) && s'.ram == s.ram
  {
    var a := Site(s);
    InstrAtSite(imem, ws, ranges, s);
    PreambleWord(imem, ws, ranges, a);
    AddiStep(imem[a], a + 1, 0, 0, s);
    NonControlStep(imem[a], s);
    ZeroOffset(imem[a]);
    FallThrough(s, |ws|) by { hide FullText; }
    hide Loaded, StateOk, IsAddi, StepRegs, StepPc, StepRam, Instr, WriteReg, ImmGen;
  }

  lemma ZeroOffset(w: Word)
    requires Offset(w) == 0
    ensures ImmGen(w) == 0
  {
    hide ImmGen;
  }

  predicate Inside(i: int, r: Range) {
    r.lo < i < r.hi
  }

  lemma NotInside(ws: seq<Word>, r: Range, i: int, x30: Word)
    requires !Inside(i, r) && r.lo + 4 <= r.hi
    ensures CounterOk(ws, r, i, x30)
  {
  }

  /** Outside every loop body the counter is unconstrained. */
  lemma CountersOutside(ws: seq<Word>, ranges: seq<Range>, i: int, x30: Word)
    requires Stream(ws, ranges)
    requires forall j :: 0 <= j < |ranges| ==> !Inside(i, ranges[j])
    ensures forall j :: 0 <= j < |ranges| ==> CounterOk(ws, ranges[j], i, x30)
  {
    hide Stream, CounterOk, Inside, LoopInPlace;
    forall j | 0 <= j < |ranges|
      ensures CounterOk(ws, ranges[j], i, x30)
    {
      LoopAt(ws, ranges, j);
      LoopLength(ws, ranges[j]);
      assert !Inside(i, ranges[j]);
      NotInside(ws, ranges[j], i, x30);
    }
  }

  lemma LoopLength(ws: seq<Word>, r: Range)
    requires LoopInPlace(ws, r)
    ensures r.lo + 4 <= r.hi <= |ws| && r.hi <= r.lo + 8 && 2 <= Trip(ws, r) <= 8
  {
  }

  /** Inside block k only its own constraint matters. */
  lemma CountersInside(ws: seq<Word>, ranges: seq<Range>, k: nat, i: int, x30: Word)
    requires Stream(ws, ranges) && k < |ranges| && Inside(i, ranges[k]) && CounterOk(ws, ranges[k], i, x30)
    ensures forall j :: 0 <= j < |ranges| ==> CounterOk(ws, ranges[j], i, x30)
  {
    hide Stream, CounterOk, LoopInPlace;
    forall j | 0 <= j < |ranges|
      ensures CounterOk(ws, ranges[j], i, x30)
    {
      LoopAt(ws, ranges, j);
      LoopLength(ws, ranges[j]);
      if Inside(i, ranges[j]) {
        OneBlock(ws, ranges, j, k, i);
      } else {
        NotInside(ws, ranges[j], i, x30);
      }
    }
  }

  lemma AuipcAtBase(imem: InstrMem, ws: seq<Word>, ranges: seq<Range>, s: Arch)
    requires Loaded(imem, ws, ranges) && StateOk(ws, ranges, s) && Site(s) == PREAMBLE_WORDS
    ensures var s' := Step(imem, s);
            && s'.pc % 4 == 0 && Site(s') == Site(s) + 1
            && s'.regs == WriteReg(s.regs, 31, 4 * PREAMBLE_WORDS + 4096 * Hi20(|ws|)) && s'.ram == s.ram
  {
    hide Loaded, StateOk, IsAddi, StepRegs, StepPc, StepRam, Instr, WriteReg, ImmGen, Stream, Hi20, Lo12, Add;
    NonEmpty(imem, ws, ranges);
    InstrAtSite(imem, ws, ranges, s);
    StreamWord(imem, ws, ranges, 0);
    BaseWords(ws, ranges);
    AuipcStep(ws[0], 31, s);
    NonControlStep(ws[0], s);
    StateAligned(ws, ranges, s);
    FallThrough(s, |ws|);
    AuipcSum(|ws|);
  }

  lemma StateAligned(ws: seq<Word>, ranges: seq<Range>, s: Arch)
    requires StateOk(ws, ranges, s)
    ensures s.pc % 4 == 0 && Site(s) <= Epilogue(|ws|)
  {
    hide BaseOk, CounterOk;
  }

  lemma AuipcSum(n: nat)
    requires n >= 1 && Fits(n)
    ensures 0 <= 4096 * Hi20(n) < TWO_TO_32
    ensures Add(4 * PREAMBLE_WORDS, 4096 * Hi20(n)) == 4 * PREAMBLE_WORDS + 4096 * Hi20(n)
  {
    hide Hi20, Lo12;
    SplitOffset(n);
  }

  lemma NonEmpty(imem: InstrMem, ws: seq<Word>, ranges: seq<Range>)
    requires Loaded(imem, ws, ranges)
    ensures |ws| >= 1 && Stream(ws, ranges) && Fits(|ws|)
  {
    hide BlockAt, TopWord, IsAddi, IsSelfBranch;
  }

  lemma AddiAtBase(imem: InstrMem, ws: seq<Word>, ranges: seq<Range>, s: Arch)
    requires Loaded(imem, ws, ranges) && StateOk(ws, ranges, s) && Site(s) == PREAMBLE_WORDS + 1 && |ws| > 1
    ensures var s' := Step(imem, s);
            && s'.pc % 4 == 0 && Site(s') == Site(s) + 1
            && s'.regs == WriteReg(s.regs, 31, DataBase(|ws|)) && s'.ram == s.ram
  {
    InstrAtSite(imem, ws, ranges, s);
    StreamWord(imem, ws, ranges, 1);
    NonEmpty(imem, ws, ranges);
    BaseWords(ws, ranges);
    AddiStep(ws[1], 31, 31, Lo12(|ws|), s);
    NonControlStep(ws[1], s);
    FallThrough(s, |ws|);
    SplitOffset(|ws|);
    AddSigned(s.regs[31], ws[1], Lo12(|ws|));
    hide FullText, CounterOk, IsAddi, StepRegs, StepPc, StepRam, Instr, WriteReg, ImmGen, Stream, Hi20, Lo12, Offset;
  }

  lemma AddSigned(a: Word, w: Word, imm: int)
    requires Offset(w) == imm
    ensures 0 <= a + imm < TWO_TO_32 ==> Add(a, ImmGen(w)) == a + imm
  {
    hide ImmGen;
  }

  predicate ReservedSame(s: Arch, s': Arch) {
    s'.regs[0] == s.regs[0] && s'.regs[30] == s.regs[30] && s'.regs[31] == s.regs[31]
  }

  /** A body word, in a loop or at top level. */
  lemma BodyStep(imem: InstrMem, w: Word, s: Arch, n: nat)
    requires Instr(imem, s) == w && BodyWord(w)
    requires s.pc % 4 == 0 && Site(s) < Epilogue(n) && Fits(n)
    ensures var s' := Step(imem, s);
            s'.pc % 4 == 0 && Site(s') == Site(s) + 1 && ReservedSame(s, s')
  {
    hide BodyWord, StepRegs, StepPc, StepRam, Instr, Add;
    BodyWordIsNotControl(w);
    NonControlStep(w, s);
    ReservedRegistersKept(w, s);
    FallThrough(s, n);
  }

  lemma WordMove(pc: int, offset: int)
    requires pc % 4 == 0 && offset % 4 == 0
    ensures (pc + offset) % 4 == 0 && (pc + offset) / 4 == pc / 4 + offset / 4
  {
  }

  /** A top-level branch or jal. */
  lemma ForwardStep(imem: InstrMem, w: Word, s: Arch, n: nat, ranges: seq<Range>)
    requires Instr(imem, s) == w && PREAMBLE_WORDS <= Site(s) < Epilogue(n) && Fits(n) && s.pc % 4 == 0
    requires var i := Site(s) - PREAMBLE_WORDS; ForwardBranch(w, i, n, ranges) || ForwardJal(w, i, n, ranges)
    ensures var s' := Step(imem, s);
            && s'.pc % 4 == 0 && Site(s) < Site(s') <= Epilogue(n) && ReservedSame(s, s')
            && (Site(s') == Site(s) + 1 || !InAnyRange(Site(s') - PREAMBLE_WORDS, ranges))
  {
    hide StepRegs, StepPc, StepRam, Instr, Add, Outcome, ImmGen, Offset, InAnyRange, Rd, Rs1, Rs2, Opcode, Funct3;
    DirectControlStep(w, s);
    ReservedRegistersKept(w, s);
    FallThrough(s, n);
    WordMove(s.pc, Offset(w));
    AddOffset(s.pc, w);
  }

  lemma LoopInitStep(imem: InstrMem, ws: seq<Word>, r: Range, s: Arch, n: nat)
    requires LoopInPlace(ws, r) && Instr(imem, s) == ws[r.lo]
    requires s.pc % 4 == 0 && Site(s) < Epilogue(n) && Fits(n)
    ensures var s' := Step(imem, s);
            && s'.pc % 4 == 0 && Site(s') == Site(s) + 1 && s'.ram == s.ram
            && s'.regs == WriteReg(s.regs, 30, Trip(ws, r))
  {
    var w := ws[r.lo];
    AddiStep(w, 30, 0, Trip(ws, r), s);
    NonControlStep(w, s);
    FallThrough(s, n);
    AddSigned(0, w, Trip(ws, r));
    AddiOffset(w, 30, 0, Trip(ws, r));
    hide BodyWord, IsAddi, StepRegs, StepPc, StepRam, Instr, WriteReg, ImmGen, Offset, IsLoopBranch, Trip;
  }

  lemma DecrementStep(imem: InstrMem, ws: seq<Word>, r: Range, s: Arch, n: nat)
    requires LoopInPlace(ws, r) && Instr(imem, s) == ws[r.hi - 2]
    requires s.pc % 4 == 0 && Site(s) < Epilogue(n) && Fits(n) && s.regs[30] >= 1
    ensures var s' := Step(imem, s);
            && s'.pc % 4 == 0 && Site(s') == Site(s) + 1 && s'.ram == s.ram
            && s'.regs == WriteReg(s.regs, 30, s.regs[30] - 1)
  {
    var w := ws[r.hi - 2];
    AddiStep(w, 30, 30, -1, s);
    NonControlStep(w, s);
    FallThrough(s, n);
    AddSigned(s.regs[30], w, -1);
    AddiOffset(w, 30, 30, -1);
    hide BodyWord, IsAddi, StepRegs, StepPc, StepRam, Instr, WriteReg, ImmGen, Offset, IsLoopBranch, Trip;
  }

  /** The loop's own branch: back to the body while x30 is not zero. */
  lemma LoopBranchStep(imem: InstrMem, ws: seq<Word>, r: Range, s: Arch, n: nat)
    requires LoopInPlace(ws, r) && Instr(imem, s) == ws[r.hi - 1]
    requires s.pc % 4 == 0 && Site(s) == PREAMBLE_WORDS + r.hi - 1 && Site(s) < Epilogue(n) && Fits(n)
    ensures var s' := Step(imem, s);
            && s'.pc % 4 == 0 && ReservedSame(s, s')
            && Site(s') == PREAMBLE_WORDS + (if s.regs[30] != 0 then r.lo + 1 else r.hi)
  {
    hide BodyWord, IsAddi, StepRegs, StepPc, StepRam, Instr, ImmGen, Offset, IsLoopBranch, Trip, Outcome, Add, Opcode;
    var w := ws[r.hi - 1];
    LoopBranchDecides(w, -4 * (r.hi - r.lo - 2), s);
    LoopBranchOpcode(w, -4 * (r.hi - r.lo - 2));
    DirectControlStep(w, s);
    ReservedRegistersKept(w, s);
    FallThrough(s, n);
    AddOffset(s.pc, w);
  }

  lemma LoopBranchOpcode(w: Word, imm: int)
    requires IsLoopBranch(w, imm)
    ensures Opcode(w) == OP_BRANCH && Offset(w) == imm
  {
  }

  lemma EpilogueStep(imem: InstrMem, w: Word, s: Arch)
    requires Instr(imem, s) == w && IsSelfBranch(w)
    ensures var s' := Step(imem, s); s'.pc == s.pc && ReservedSame(s, s')
  {
    hide StepRegs, StepPc, StepRam, Instr, ImmGen, Offset, Outcome, Add, Rs1, Rs2, Funct3;
    SelfBranchTaken(w, s);
    DirectControlStep(w, s);
    ReservedRegistersKept(w, s);
    AddOffset(s.pc, w);
  }

  // ---- the state invariant is kept ----

  lemma SetUpKeepsState(imem: InstrMem, ws: seq<Word>, ranges: seq<Range>, s: Arch)
    requires Loaded(imem, ws, ranges) && StateOk(ws, ranges, s)
    requires Site(s) < PREAMBLE_WORDS + StreamStart(|ws|)
    ensures StateOk(ws, ranges, Step(imem, s)) && Site(Step(imem, s)) == Site(s) + 1
  {
    hide Loaded, Stream, CounterOk, Step, Hi20, DataBase;
    var s' := Step(imem, s);
    NonEmpty(imem, ws, ranges);
    if Site(s) < PREAMBLE_WORDS {
      PreambleStep(imem, ws, ranges, s);
    } else if Site(s) == PREAMBLE_WORDS {
      AuipcAtBase(imem, ws, ranges, s);
    } else {
      AddiAtBase(imem, ws, ranges, s);
    }
    NoBlockBefore(ws, ranges, Site(s') - PREAMBLE_WORDS);
    CountersOutside(ws, ranges, Site(s') - PREAMBLE_WORDS, s'.regs[30]);
  }

  lemma NoBlockBefore(ws: seq<Word>, ranges: seq<Range>, i: int)
    requires Stream(ws, ranges) && i <= StreamStart(|ws|)
    ensures forall j :: 0 <= j < |ranges| ==> !Inside(i, ranges[j])
  {
    hide TopWord, BlockAt, IsAddi, Opcode, Rd, ImmGen, Hi20, Lo12;
  }

  /** After a top-level word: the next word starts a block or is in none. */
  lemma AfterTopLevel(ws: seq<Word>, ranges: seq<Range>, i: int)
    requires Stream(ws, ranges) && !InAnyRange(i, ranges)
    ensures forall j :: 0 <= j < |ranges| ==> !Inside(i + 1, ranges[j]) && !Inside(i, ranges[j])
  {
    forall j | 0 <= j < |ranges|
      ensures !Inside(i + 1, ranges[j]) && !Inside(i, ranges[j])
    {
      assert !InRange(i, ranges[j]);
    }
  }

  lemma TopLevelKeepsState(imem: InstrMem, ws: seq<Word>, ranges: seq<Range>, s: Arch)
    requires Loaded(imem, ws, ranges) && StateOk(ws, ranges, s)
    requires PREAMBLE_WORDS + StreamStart(|ws|) <= Site(s) < Epilogue(|ws|)
    requires !InAnyRange(Site(s) - PREAMBLE_WORDS, ranges)
    ensures StateOk(ws, ranges, Step(imem, s))
    ensures var s' := Step(imem, s);
            && Site(s) < Site(s') <= Epilogue(|ws|)
            && (Site(s') == Site(s) + 1 || !InAnyRange(Site(s') - PREAMBLE_WORDS, ranges))
            && (BodyWord(Instr(imem, s)) ==> Site(s') == Site(s) + 1)
  {
    var s', n, i := Step(imem, s), |ws|, Site(s) - PREAMBLE_WORDS;
    NonEmpty(imem, ws, ranges);
    InstrAtSite(imem, ws, ranges, s);
    StreamWord(imem, ws, ranges, i);
    TopWordAt(ws, ranges, i);
    if BodyWord(ws[i]) {
      BodyStep(imem, ws[i], s, n);
    } else {
      ForwardStep(imem, ws[i], s, n, ranges);
    }
    AfterTopLevel(ws, ranges, i);
    hide Loaded, Stream, CounterOk, Step, Hi20, DataBase, Instr, BodyWord, InAnyRange, ForwardBranch, ForwardJal,
         Inside;
    if Site(s') != Site(s) + 1 {
      AfterTopLevel(ws, ranges, Site(s') - PREAMBLE_WORDS);
    }
    CountersOutside(ws, ranges, Site(s') - PREAMBLE_WORDS, s'.regs[30]);
  }

  /** One instruction inside loop block r. */
  predicate LoopMoved(ws: seq<Word>, r: Range, s: Arch, s': Arch) {
    var i := Site(s) - PREAMBLE_WORDS;
    && s'.pc % 4 == 0
    && Site(s') == (if i == r.hi - 1 && s.regs[30] != 0 then PREAMBLE_WORDS + r.lo + 1 else Site(s) + 1)
    && s'.regs[0] == s.regs[0] && s'.regs[31] == s.regs[31]
    && (i == r.lo ==> s'.regs[30] == Trip(ws, r))
    && (i == r.hi - 2 ==> s.regs[30] >= 1 && s'.regs[30] == s.regs[30] - 1)
    && (i != r.lo && i != r.hi - 2 ==> s'.regs[30] == s.regs[30])
  }

  lemma LoopMoveCases(imem: InstrMem, ws: seq<Word>, r: Range, s: Arch, n: nat)
    requires LoopInPlace(ws, r) && n == |ws| && Fits(n)
    requires s.pc % 4 == 0 && Site(s) < Epilogue(n) && InRange(Site(s) - PREAMBLE_WORDS, r)
    requires Instr(imem, s) == ws[Site(s) - PREAMBLE_WORDS]
    requires Site(s) - PREAMBLE_WORDS == r.hi - 2 ==> s.regs[30] >= 1
    ensures LoopMoved(ws, r, s, Step(imem, s))
  {
    var i := Site(s) - PREAMBLE_WORDS;
    hide Step, Instr, BodyWord, IsAddi, IsLoopBranch, Trip;
    if i == r.lo {
      LoopInitStep(imem, ws, r, s, n);
    } else if i < r.hi - 2 {
      BodyStep(imem, ws[i], s, n);
    } else if i == r.hi - 2 {
      DecrementStep(imem, ws, r, s, n);
    } else {
      LoopBranchStep(imem, ws, r, s, n);
    }
  }

  lemma LoopMoves(imem: InstrMem, ws: seq<Word>, ranges: seq<Range>, s: Arch, j: nat)
    requires Loaded(imem, ws, ranges) && StateOk(ws, ranges, s)
    requires j < |ranges| && InRange(Site(s) - PREAMBLE_WORDS, ranges[j])
    ensures LoopMoved(ws, ranges[j], s, Step(imem, s))
  {
    var r, i := ranges[j], Site(s) - PREAMBLE_WORDS;
    assert CounterOk(ws, r, i, s.regs[30]);
    hide Loaded, Stream, Step, BaseOk, Instr, LoopInPlace, Trip, LoopMoved;
    NonEmpty(imem, ws, ranges);
    LoopAt(ws, ranges, j);
    LoopLength(ws, r);
    InstrAtSite(imem, ws, ranges, s);
    StreamWord(imem, ws, ranges, i);
    LoopMoveCases(imem, ws, r, s, |ws|);
  }

  lemma CounterMoves(ws: seq<Word>, r: Range, s: Arch, s': Arch)
    requires LoopMoved(ws, r, s, s') && r.lo + 4 <= r.hi && 2 <= Trip(ws, r)
    requires InRange(Site(s) - PREAMBLE_WORDS, r) && CounterOk(ws, r, Site(s) - PREAMBLE_WORDS, s.regs[30])
    ensures var i' := Site(s') - PREAMBLE_WORDS;
            i' == r.hi || (Inside(i', r) && CounterOk(ws, r, i', s'.regs[30]))
  {
    hide Trip;
  }

  lemma LoopKeepsState(imem: InstrMem, ws: seq<Word>, ranges: seq<Range>, s: Arch, j: nat)
    requires Loaded(imem, ws, ranges) && StateOk(ws, ranges, s)
    requires j < |ranges| && InRange(Site(s) - PREAMBLE_WORDS, ranges[j])
    ensures StateOk(ws, ranges, Step(imem, s)) && LoopMoved(ws, ranges[j], s, Step(imem, s))
  {
    var s', r := Step(imem, s), ranges[j];
    hide Loaded, StateOk, Stream, Step, LoopInPlace, Trip, CounterOk, LoopMoved, Site, Inside;
    NonEmpty(imem, ws, ranges);
    LoopMoves(imem, ws, ranges, s, j);
    LoopAt(ws, ranges, j);
    LoopLength(ws, r);
    CounterInBlock(ws, ranges, s, j);
    CounterMoves(ws, r, s, s');
    CountersNearBlock(ws, ranges, j, Site(s') - PREAMBLE_WORDS, s'.regs[30]);
    MovedState(ws, ranges, s, s', j);
  }

  lemma CountersNearBlock(ws: seq<Word>, ranges: seq<Range>, j: nat, i: int, x30: Word)
    requires Stream(ws, ranges) && j < |ranges|
    requires i == ranges[j].hi || (Inside(i, ranges[j]) && CounterOk(ws, ranges[j], i, x30))
    ensures forall k :: 0 <= k < |ranges| ==> CounterOk(ws, ranges[k], i, x30)
  {
    hide Stream, CounterOk, Inside;
    if i == ranges[j].hi {
      AfterBlock(ws, ranges, j);
      CountersOutside(ws, ranges, i, x30);
    } else {
      CountersInside(ws, ranges, j, i, x30);
    }
  }

  lemma CounterInBlock(ws: seq<Word>, ranges: seq<Range>, s: Arch, j: nat)
    requires StateOk(ws, ranges, s) && j < |ranges|
    ensures CounterOk(ws, ranges[j], Site(s) - PREAMBLE_WORDS, s.regs[30])
  {
    hide CounterOk, BaseOk;
  }

  lemma MovedState(ws: seq<Word>, ranges: seq<Range>, s: Arch, s': Arch, j: nat)
    requires StateOk(ws, ranges, s) && j < |ranges| && LoopMoved(ws, ranges[j], s, s')
    requires StreamStart(|ws|) <= ranges[j].lo && ranges[j].lo + 4 <= ranges[j].hi <= |ws|
    requires InRange(Site(s) - PREAMBLE_WORDS, ranges[j])
    requires forall k :: 0 <= k < |ranges| ==> CounterOk(ws, ranges[k], Site(s') - PREAMBLE_WORDS, s'.regs[30])
    ensures StateOk(ws, ranges, s')
  {
    hide CounterOk, Trip, DataBase, Hi20;
  }

  lemma AfterBlock(ws: seq<Word>, ranges: seq<Range>, j: nat)
    requires Stream(ws, ranges) && j < |ranges|
    ensures forall k :: 0 <= k < |ranges| ==> !Inside(ranges[j].hi, ranges[k])
  {
    hide TopWord, BlockAt, IsAddi, Opcode, Rd, ImmGen, Hi20, Lo12;
    forall k | 0 <= k < |ranges|
      ensures !Inside(ranges[j].hi, ranges[k])
    {
      if k < j {
        assert ranges[k].hi <= ranges[j].lo;
      } else if j < k {
        assert ranges[j].hi <= ranges[k].lo;
      }
    }
  }

  lemma EpilogueKeepsState(imem: InstrMem, ws: seq<Word>, ranges: seq<Range>, s: Arch)
    requires Loaded(imem, ws, ranges) && StateOk(ws, ranges, s) && Site(s) == Epilogue(|ws|)
    ensures StateOk(ws, ranges, Step(imem, s)) && Site(Step(imem, s)) == Site(s)
  {
    hide Loaded, Stream, CounterOk, Step, Hi20, DataBase, Instr, IsSelfBranch;
    InstrAtSite(imem, ws, ranges, s);
    EpilogueIsSelfBranch(imem, ws, ranges);
    EpilogueStep(imem, imem[Site(s)], s);
  }

  lemma StepKeepsState(imem: InstrMem, ws: seq<Word>, ranges: seq<Range>, s: Arch)
    requires Loaded(imem, ws, ranges) && StateOk(ws, ranges, s)
    ensures StateOk(ws, ranges, Step(imem, s))
  {
    var i := Site(s) - PREAMBLE_WORDS;
    if i < StreamStart(|ws|) {
      SetUpKeepsState(imem, ws, ranges, s) by { NonEmpty(imem, ws, ranges); hide Step; }
    } else if i == |ws| {
      EpilogueKeepsState(imem, ws, ranges, s);
    } else if InAnyRange(i, ranges) {
      var j :| 0 <= j < |ranges| && InRange(i, ranges[j]);
      LoopKeepsState(imem, ws, ranges, s, j);
    } else {
      TopLevelKeepsState(imem, ws, ranges, s);
    }
    hide Loaded, StateOk, Step;
  }
}
