/**
 Every generated program is in the class the pipeline is proved correct for, and
 in the subset and address window on which the C++ simulator agrees.
 */
module GeneratedClass {
  import opened Words
  import opened Datapath
  import opened Sequential
  import opened Execution
  import opened Generator
  import opened GeneratedRun

  // ---- reachable states ----

  lemma StartState(ws: seq<Word>, ranges: seq<Range>, ram: DataMem)
    requires Stream(ws, ranges)
    ensures StateOk(ws, ranges, Start(ram))
  {
    hide Stream, CounterOk, Hi20, DataBase;
    NoBlockBefore(ws, ranges, -PREAMBLE_WORDS);
    CountersOutside(ws, ranges, -PREAMBLE_WORDS, 0);
  }

  lemma {:induction false} ReachedState(p: Execution, ws: seq<Word>, ranges: seq<Range>, k: nat)
    requires Loaded(p.imem, ws, ranges)
    ensures StateOk(ws, ranges, p.At(k))
  {
    hide Loaded, StateOk, Step, Start;
    if k == 0 {
      NonEmpty(p.imem, ws, ranges);
      StartState(ws, ranges, p.ram);
    } else {
      ReachedState(p, ws, ranges, k - 1);
      StepKeepsState(p.imem, ws, ranges, p.At(k - 1));
    }
  }

  // ---- where control can go ----

  /** Inside a block only the last word is a branch. */
  lemma LoopWordControl(imem: InstrMem, ws: seq<Word>, ranges: seq<Range>, j: nat, i: nat)
    requires Loaded(imem, ws, ranges) && j < |ranges| && InRange(i, ranges[j]) && i != ranges[j].hi - 1
    ensures PREAMBLE_WORDS + i < 1024 && !IsControlFlow(imem[PREAMBLE_WORDS + i])
  {
    hide Loaded, Stream, LoopInPlace, Trip, IsControlFlow;
    NonEmpty(imem, ws, ranges);
    LoopAt(ws, ranges, j);
    LoopLength(ws, ranges[j]);
    StreamWord(imem, ws, ranges, i);
    BlockWordControl(ws, ranges[j], i);
  }

  lemma BlockWordControl(ws: seq<Word>, r: Range, i: nat)
    requires LoopInPlace(ws, r) && InRange(i, r) && i != r.hi - 1
    ensures !IsControlFlow(ws[i])
  {
    hide BodyWord, IsLoopBranch, Offset, Trip;
    if i == r.lo || i == r.hi - 2 {
      assert Opcode(ws[i]) == OP_IMM;
    } else {
      BodyWordIsNotControl(ws[i]);
    }
  }

  /** Word i is past the top of block r. */
  predicate PastTop(i: int, r: Range) {
    r.lo + 1 < i < r.hi
  }

  lemma InBlock(ranges: seq<Range>, j: nat, i: int)
    requires j < |ranges|
    ensures ranges[j].lo <= i < ranges[j].hi ==> InAnyRange(i, ranges)
  {
    if ranges[j].lo <= i < ranges[j].hi {
      assert InRange(i, ranges[j]);
    }
  }

  lemma SetUpLands(imem: InstrMem, ws: seq<Word>, ranges: seq<Range>, j: nat, s: Arch)
    requires Loaded(imem, ws, ranges) && StateOk(ws, ranges, s) && j < |ranges|
    requires Site(s) < PREAMBLE_WORDS + StreamStart(|ws|)
    ensures !PastTop(Site(Step(imem, s)) - PREAMBLE_WORDS, ranges[j])
  {
    hide Loaded, StateOk, Step, Stream, LoopInPlace, Site;
    NonEmpty(imem, ws, ranges);
    SetUpKeepsState(imem, ws, ranges, s);
    LoopAt(ws, ranges, j);
  }

  lemma TopLevelLands(imem: InstrMem, ws: seq<Word>, ranges: seq<Range>, j: nat, s: Arch)
    requires Loaded(imem, ws, ranges) && StateOk(ws, ranges, s) && j < |ranges|
    requires PREAMBLE_WORDS + StreamStart(|ws|) <= Site(s) < Epilogue(|ws|)
    requires !InAnyRange(Site(s) - PREAMBLE_WORDS, ranges)
    ensures !PastTop(Site(Step(imem, s)) - PREAMBLE_WORDS, ranges[j])
  {
    hide Loaded, StateOk, Step, Stream, LoopInPlace, Site, InAnyRange;
    TopLevelKeepsState(imem, ws, ranges, s);
    InBlock(ranges, j, Site(s) - PREAMBLE_WORDS);
    InBlock(ranges, j, Site(Step(imem, s)) - PREAMBLE_WORDS);
  }

  /** Neither the top of a block nor the word after it is past a top. */
  lemma BlockExits(ws: seq<Word>, ranges: seq<Range>, j: nat, m: nat)
    requires Stream(ws, ranges) && j < |ranges| && m < |ranges|
    ensures !PastTop(ranges[m].lo + 1, ranges[j]) && !PastTop(ranges[m].hi, ranges[j])
  {
    hide Stream, LoopInPlace;
    LoopAt(ws, ranges, m);
    LoopLength(ws, ranges[m]);
    AfterBlock(ws, ranges, m);
    assert !Inside(ranges[m].hi, ranges[j]);
    if InRange(ranges[m].lo + 1, ranges[j]) {
      OneBlock(ws, ranges, j, m, ranges[m].lo + 1);
    }
  }

  lemma BlockLands(imem: InstrMem, ws: seq<Word>, ranges: seq<Range>, j: nat, m: nat, s: Arch)
    requires Loaded(imem, ws, ranges) && StateOk(ws, ranges, s) && j < |ranges| && m < |ranges|
    requires InRange(Site(s) - PREAMBLE_WORDS, ranges[m]) && IsControlFlow(Instr(imem, s))
    ensures !PastTop(Site(Step(imem, s)) - PREAMBLE_WORDS, ranges[j])
  {
    hide Loaded, StateOk, Step, Stream, LoopInPlace, IsControlFlow, Instr, Site, Trip, PastTop;
    NonEmpty(imem, ws, ranges);
    InstrAtSite(imem, ws, ranges, s);
    LoopKeepsState(imem, ws, ranges, s, m);
    BlockExits(ws, ranges, j, m);
    if Site(s) - PREAMBLE_WORDS != ranges[m].hi - 1 {
      LoopWordControl(imem, ws, ranges, m, Site(s) - PREAMBLE_WORDS);
    }
  }

  /** A branch or jump never goes past the top of a loop block. */
  lemma ControlLands(imem: InstrMem, ws: seq<Word>, ranges: seq<Range>, j: nat, s: Arch)
    requires Loaded(imem, ws, ranges) && StateOk(ws, ranges, s) && j < |ranges| && IsControlFlow(Instr(imem, s))
    ensures !PastTop(Site(Step(imem, s)) - PREAMBLE_WORDS, ranges[j])
  {
    hide Loaded, StateOk, Step, Stream, LoopInPlace, IsControlFlow, Instr, Site;
    var a := Site(s) - PREAMBLE_WORDS;
    NonEmpty(imem, ws, ranges);
    SiteBound(ws, ranges, s);
    if a < StreamStart(|ws|) {
      SetUpLands(imem, ws, ranges, j, s);
    } else if a == |ws| {
      EpilogueKeepsState(imem, ws, ranges, s);
      LoopAt(ws, ranges, j);
      LoopLength(ws, ranges[j]);
    } else if InAnyRange(a, ranges) {
      var m :| 0 <= m < |ranges| && InRange(a, ranges[m]);
      BlockLands(imem, ws, ranges, j, m, s);
    } else {
      TopLevelLands(imem, ws, ranges, j, s);
    }
  }

  lemma SiteBound(ws: seq<Word>, ranges: seq<Range>, s: Arch)
    requires StateOk(ws, ranges, s)
    ensures Site(s) <= Epilogue(|ws|) && s.pc == 4 * Site(s) && s.regs[0] == 0
  {
    hide CounterOk, BaseOk;
  }

  lemma AtStep(p: Execution, k: nat)
    ensures p.At(k + 1) == Step(p.imem, p.At(k)) && p.WordAt(k) == Instr(p.imem, p.At(k))
  {
  }

  // ---- every backward transfer is a loop block's own branch ----

  lemma BackwardIsLoopBranch(imem: InstrMem, ws: seq<Word>, ranges: seq<Range>, s: Arch) returns (j: nat)
    requires Loaded(imem, ws, ranges) && StateOk(ws, ranges, s) && Step(imem, s).pc < s.pc
    ensures j < |ranges| && Site(s) == PREAMBLE_WORDS + ranges[j].hi - 1
    ensures Step(imem, s).pc == 4 * (PREAMBLE_WORDS + ranges[j].lo + 1)
  {
    var a := Site(s) - PREAMBLE_WORDS;
    j := 0;
    hide Loaded, StateOk, Step, Stream, LoopInPlace, Site, Trip;
    NonEmpty(imem, ws, ranges);
    SiteBound(ws, ranges, s);
    StepKeepsState(imem, ws, ranges, s);
    SiteBound(ws, ranges, Step(imem, s));
    if a < StreamStart(|ws|) {
      SetUpKeepsState(imem, ws, ranges, s);
    } else if a == |ws| {
      EpilogueKeepsState(imem, ws, ranges, s);
    } else if InAnyRange(a, ranges) {
      var m :| 0 <= m < |ranges| && InRange(a, ranges[m]);
      LoopKeepsState(imem, ws, ranges, s, m);
      j := m;
    } else {
      TopLevelKeepsState(imem, ws, ranges, s);
    }
  }

  lemma FetchBySite(imem: InstrMem, x: Word)
    requires x < 4096 && x % 4 == 0
    ensures Fetch(imem, x) == imem[x / 4]
  {
  }

  /** The words of a loop block before its branch are straight-line code. */
  lemma LoopBodyStraight(imem: InstrMem, ws: seq<Word>, ranges: seq<Range>, j: nat, x: Word)
    requires Loaded(imem, ws, ranges) && j < |ranges| && x % 4 == 0
    requires 4 * (PREAMBLE_WORDS + ranges[j].lo + 1) <= x < 4 * (PREAMBLE_WORDS + ranges[j].hi - 1)
    ensures !IsControlFlow(Fetch(imem, x))
  {
    hide Loaded, IsControlFlow, Fetch;
    var i := x / 4 - PREAMBLE_WORDS;
    LoopWordControl(imem, ws, ranges, j, i);
    FetchBySite(imem, x);
  }

  lemma LoopDecrementHazard(imem: InstrMem, ws: seq<Word>, ranges: seq<Range>, j: nat)
    requires Loaded(imem, ws, ranges) && j < |ranges|
    ensures var b := PREAMBLE_WORDS + ranges[j].hi;
            && 8 <= b <= 1024
            && !LoadUseHazard(Rs1(imem[b - 2]), Rs2(imem[b - 2]), Decode(imem[b - 3]).memRead, Rd(imem[b - 3]))
  {
    var r := ranges[j];
    hide Loaded, Stream, LoopInPlace, BodyWord, IsAddi, Decode, Rs1, Rs2, Rd, Trip;
    NonEmpty(imem, ws, ranges);
    LoopAt(ws, ranges, j);
    LoopLength(ws, r);
    LoopTail(ws, r);
    StreamWord(imem, ws, ranges, r.hi - 3);
    StreamWord(imem, ws, ranges, r.hi - 2);
    BlockFits(|ws|, r);
    LoopBodyLoads(ws[r.hi - 3]);
    LoopDecrementSources(ws[r.hi - 2]);
  }

  lemma LoopTail(ws: seq<Word>, r: Range)
    requires LoopInPlace(ws, r)
    ensures 0 <= r.hi - 3 && r.hi <= |ws| && BodyWord(ws[r.hi - 3]) && IsAddi(ws[r.hi - 2], 30, 30, -1)
  {
    hide BodyWord, IsAddi, IsLoopBranch, Trip;
  }

  lemma LoopBodyLoads(w: Word)
    requires BodyWord(w)
    ensures Decode(w).memRead ==> Rd(w) <= 29
  {
    hide Rd, Rs1, Rs2, Offset, Funct3, Funct7;
  }

  lemma LoopDecrementSources(w: Word)
    requires IsAddi(w, 30, 30, -1)
    ensures Rs1(w) == 30 && Rs2(w) == 31
  {
    hide Rs1, Rs2, Rd, Offset, Opcode, Funct3;
  }

  lemma LandsOutsideBlock(p: Execution, ws: seq<Word>, ranges: seq<Range>, j: nat, k: nat)
    requires Loaded(p.imem, ws, ranges) && j < |ranges|
    requires 4 * (PREAMBLE_WORDS + ranges[j].lo + 1) < 4 * (PREAMBLE_WORDS + ranges[j].hi) < 4096
    ensures LandsOutside(p, k, 4 * (PREAMBLE_WORDS + ranges[j].lo + 1), 4 * (PREAMBLE_WORDS + ranges[j].hi - 1))
  {
    hide Loaded, StateOk, Step, Site, IsControlFlow, Instr, Run, Start;
    ReachedState(p, ws, ranges, k);
    SiteBound(ws, ranges, p.At(k));
    if k == 0 {
      StartsAtZero(p);
    } else if LandsOn(p, k) {
      ReachedState(p, ws, ranges, k - 1);
      AtStep(p, k - 1);
      ControlLands(p.imem, ws, ranges, j, p.At(k - 1));
    }
  }

  lemma StallBySite(imem: InstrMem, site: nat)
    requires 2 <= site < 1024
    requires !LoadUseHazard(Rs1(imem[site - 1]), Rs2(imem[site - 1]), Decode(imem[site - 2]).memRead, Rd(imem[site - 2]))
    ensures NoTransferStall(imem, 4 * site)
  {
    hide LoadUseHazard, Decode, Rs1, Rs2, Rd, Fetch;
    FetchBySite(imem, 4 * site - 4);
    FetchBySite(imem, 4 * site - 8);
  }

  lemma BlockStraight(imem: InstrMem, ws: seq<Word>, ranges: seq<Range>, j: nat)
    requires Loaded(imem, ws, ranges) && j < |ranges|
    ensures var top, branch := 4 * (PREAMBLE_WORDS + ranges[j].lo + 1), 4 * (PREAMBLE_WORDS + ranges[j].hi - 1);
            forall x: Word :: top <= x < branch && x % 4 == 0 ==> !IsControlFlow(Fetch(imem, x))
  {
    hide Loaded, IsControlFlow, Fetch;
    var top, branch := 4 * (PREAMBLE_WORDS + ranges[j].lo + 1), 4 * (PREAMBLE_WORDS + ranges[j].hi - 1);
    forall x: Word | top <= x < branch && x % 4 == 0
      ensures !IsControlFlow(Fetch(imem, x))
    {
      LoopBodyStraight(imem, ws, ranges, j, x);
    }
  }

  lemma BlockEntry(p: Execution, ws: seq<Word>, ranges: seq<Range>, j: nat, top: Word, branch: Word)
    requires Loaded(p.imem, ws, ranges) && j < |ranges| && top < branch < 4092
    requires top == 4 * (PREAMBLE_WORDS + ranges[j].lo + 1) && branch == 4 * (PREAMBLE_WORDS + ranges[j].hi - 1)
    ensures forall k: nat :: LandsOutside(p, k, top, branch)
  {
    hide Loaded, LandsOutside;
    forall k: nat
      ensures LandsOutside(p, k, top, branch)
    {
      LandsOutsideBlock(p, ws, ranges, j, k);
    }
  }

  lemma BlockIsCleanLoop(p: Execution, ws: seq<Word>, ranges: seq<Range>, j: nat, top: Word, branch: Word)
    requires Loaded(p.imem, ws, ranges) && j < |ranges|
    requires top == 4 * (PREAMBLE_WORDS + ranges[j].lo + 1) && branch == 4 * (PREAMBLE_WORDS + ranges[j].hi - 1)
    ensures CleanLoop(p, top, branch)
  {
    var r := ranges[j];
    hide Loaded, Stream, IsControlFlow, Fetch, LandsOutside, LoopInPlace, Trip, Run, NoTransferStall, Decode, Rs1, Rs2,
         Rd, LoadUseHazard;
    NonEmpty(p.imem, ws, ranges);
    LoopAt(ws, ranges, j);
    LoopLength(ws, r);
    BlockFits(|ws|, r);
    LoopDecrementHazard(p.imem, ws, ranges, j);
    StallBySite(p.imem, PREAMBLE_WORDS + r.hi - 1);
    BlockStraight(p.imem, ws, ranges, j);
    BlockEntry(p, ws, ranges, j, top, branch);
  }

  lemma BlockFits(n: nat, r: Range)
    requires Fits(n) && r.hi <= n
    ensures 4 * (PREAMBLE_WORDS + r.hi) < 4096
  {
  }

  /** Every program the generator can emit is in the pipeline's class. */
  lemma GeneratedIsWellBehaved(p: Execution, ws: seq<Word>, ranges: seq<Range>)
    requires Loaded(p.imem, ws, ranges)
    ensures WellBehaved(p)
  {
    hide Loaded, GoodTransfer;
    forall k: nat
      ensures GoodTransfer(p, k)
    {
      GeneratedTransfer(p, ws, ranges, k);
    }
  }

  lemma GeneratedTransfer(p: Execution, ws: seq<Word>, ranges: seq<Range>, k: nat)
    requires Loaded(p.imem, ws, ranges)
    ensures GoodTransfer(p, k)
  {
    hide Loaded, StateOk, Step, Site, IsControlFlow, Instr, CleanLoop, Run, Outcome;
    ReachedState(p, ws, ranges, k);
    SiteBound(ws, ranges, p.At(k));
    AtStep(p, k);
    if p.At(k + 1).pc < p.At(k).pc {
      var j := BackwardIsLoopBranch(p.imem, ws, ranges, p.At(k));
      BlockIsCleanLoop(p, ws, ranges, j, p.At(k + 1).pc, p.At(k).pc);
    }
  }
}
