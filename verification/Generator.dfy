/**
 gen_program.py: the random program generator. The random number generator is
 any choice within the stated range, so what the methods ensure holds for every
 sequence of choices.
 */
module Generator {
  import opened Wrappers
  import opened Words
  import opened Datapath
  import opened Encoding

  const PREAMBLE_WORDS := 31
  const DATA_MEM_BYTES := 4096
  const LOAD_STORE_WINDOW := 32

  const R_TYPE: seq<(nat, nat)> :=
    [(0, 0), (0, 0x20), (1, 0), (2, 0), (3, 0), (4, 0), (5, 0), (5, 0x20), (6, 0), (7, 0)]
  const I_ARITH: seq<nat> := [0, 2, 3, 4, 6, 7]
  const I_SHIFT: seq<(nat, nat)> := [(1, 0), (5, 0), (5, 0x20)]
  const BRANCHES: seq<nat> := [0, 1, 4, 5]

  datatype Range = Range(lo: nat, hi: nat)

  // ---- what generated words look like ----

  /** The signed immediate of a word. */
  function Offset(w: Word): int {
    Signed(ImmGen(w))
  }

  predicate InWindow(offset: int) {
    -LOAD_STORE_WINDOW <= offset <= LOAD_STORE_WINDOW && offset % 4 == 0
  }

  /** Arithmetic on x0 .. x29. */
  predicate PlainWord(w: Word) {
    && Rd(w) <= 29 && Rs1(w) <= 29
    && (|| (Opcode(w) == OP_REG && Funct7(w) in {0, 0x20} && Rs2(w) <= 29)
        || Opcode(w) == OP_IMM)
  }

  predicate RTypeWord(w: Word) {
    Opcode(w) == OP_REG && (Funct3(w), Funct7(w)) in R_TYPE && Rd(w) <= 29 && Rs1(w) <= 29 && Rs2(w) <= 29
  }

  predicate ArithmeticWord(w: Word) {
    Opcode(w) == OP_IMM && Funct3(w) in I_ARITH && Rd(w) <= 29 && Rs1(w) <= 29
  }

  predicate ShiftWord(w: Word) {
    Opcode(w) == OP_IMM && (Funct3(w), Funct7(w)) in I_SHIFT && Rd(w) <= 29 && Rs1(w) <= 29
  }

  predicate LoadWord(w: Word) {
    Opcode(w) == OP_LOAD && Funct3(w) == 2 && Rd(w) <= 29 && Rs1(w) == 31 && InWindow(Offset(w))
  }

  predicate StoreWord(w: Word) {
    Opcode(w) == OP_STORE && Funct3(w) == 2 && Rs1(w) == 31 && Rs2(w) <= 29 && InWindow(Offset(w))
  }

  /** A word that may stand in a loop body. */
  predicate BodyWord(w: Word) {
    PlainWord(w) || LoadWord(w) || StoreWord(w)
  }

  predicate InRange(i: int, r: Range) {
    r.lo <= i < r.hi
  }

  predicate InAnyRange(i: int, ranges: seq<Range>) {
    exists j :: 0 <= j < |ranges| && InRange(i, ranges[j])
  }

  /** A target strictly ahead, at most 8 words, no further than the epilogue,
      and in no loop block. */
  predicate ForwardTarget(w: Word, pos: nat, total: nat, ranges: seq<Range>) {
    Offset(w) % 4 == 0 && 4 <= Offset(w) <= 32 && pos + Offset(w) / 4 <= total &&
    !InAnyRange(pos + Offset(w) / 4, ranges)
  }

  /** A span that a branch or jump at pos may take. The last word before the end may
      go to the end. */
  predicate FreeSpan(pos: nat, total: nat, ranges: seq<Range>, d: nat) {
    1 <= d <= 8 && pos + d <= (if pos + 1 < total then total - 1 else total) && !InAnyRange(pos + d, ranges)
  }

  ghost predicate HasTarget(pos: nat, total: nat, ranges: seq<Range>) {
    exists d: nat :: FreeSpan(pos, total, ranges, d)
  }

  predicate ForwardBranch(w: Word, pos: nat, total: nat, ranges: seq<Range>) {
    Opcode(w) == OP_BRANCH && Funct3(w) in {0, 1, 4, 5} && Rs1(w) <= 29 && Rs2(w) <= 29 &&
    ForwardTarget(w, pos, total, ranges)
  }

  predicate ForwardJal(w: Word, pos: nat, total: nat, ranges: seq<Range>) {
    Opcode(w) == OP_JAL && Rd(w) == 0 && ForwardTarget(w, pos, total, ranges)
  }

  predicate TopWord(w: Word, pos: nat, total: nat, ranges: seq<Range>) {
    BodyWord(w) || ForwardBranch(w, pos, total, ranges) || ForwardJal(w, pos, total, ranges)
  }

  predicate IsAddi(w: Word, rd: RegIdx, rs1: RegIdx, imm: int) {
    Opcode(w) == OP_IMM && Funct3(w) == 0 && Rd(w) == rd && Rs1(w) == rs1 && Rs2(w) == imm % 32 && Offset(w) == imm
  }

  predicate IsLoopBranch(w: Word, imm: int) {
    Opcode(w) == OP_BRANCH && Funct3(w) == 1 && Rs1(w) == 30 && Rs2(w) == 0 && Offset(w) == imm
  }

  /** init, body, decrement, branch back to the body. */
  predicate LoopWords(ws: seq<Word>) {
    && 4 <= |ws| <= 8
    && IsAddi(ws[0], 30, 0, Offset(ws[0])) && 2 <= Offset(ws[0]) <= 8
    && (forall j :: 1 <= j < |ws| - 2 ==> BodyWord(ws[j]))
    && IsAddi(ws[|ws| - 2], 30, 30, -1)
    && IsLoopBranch(ws[|ws| - 1], -4 * (|ws| - 2))
  }

  /** 1 + trip_count * (body_len + 2). */
  function LoopRetirements(ws: seq<Word>): int {
    if |ws| == 0 then 0 else 1 + Offset(ws[0]) * (|ws| - 1)
  }

  // ---- the random choices ----

  method RandInt(lo: int, hi: int) returns (r: int)
    requires lo <= hi
    ensures lo <= r <= hi
  {
    assert lo <= lo <= hi;
    r :| lo <= r <= hi;
  }

  method RandReg() returns (r: RegIdx)
    ensures r <= 29
  {
    r := RandInt(0, 29);
  }

  method Choice<T>(xs: seq<T>) returns (x: T)
    requires |xs| > 0
    ensures x in xs
  {
    var i := RandInt(0, |xs| - 1);
    x := xs[i];
  }

  /** sorted(written_offsets) */
  method Sorted(written: set<int>) returns (offsets: seq<int>)
    requires forall o :: o in written ==> InWindow(o)
    ensures forall o :: o in offsets <==> o in written
    ensures forall i, j :: 0 <= i < j < |offsets| ==> offsets[i] < offsets[j]
  {
    offsets := [];
    for step := 0 to 17
      invariant forall o :: o in offsets <==> o in written && o < -LOAD_STORE_WINDOW + 4 * step
      invariant forall i, j :: 0 <= i < j < |offsets| ==> offsets[i] < offsets[j]
    {
      var o := -LOAD_STORE_WINDOW + 4 * step;
      assert forall x :: x in written && o <= x < o + 4 ==> x == o;
      if o in written {
        assert forall k :: 0 <= k < |offsets| ==> offsets[k] in offsets;
        offsets := offsets + [o];
      }
    }
  }

  // ---- _gen_one_instr, one category at a time ----

  method RandomRType() returns (w: Word)
    ensures RTypeWord(w) && PlainWord(w)
  {
    hide EncR, Opcode, Rd, Rs1, Rs2, Funct3, Funct7;
    var f := Choice(R_TYPE);
    var rd := RandReg();
    var rs1 := RandReg();
    var rs2 := RandReg();
    w := EncR(OP_REG, f.0, f.1, rd, rs1, rs2);
    RoundTripR(OP_REG, f.0, f.1, rd, rs1, rs2);
  }

  method RandomArithmetic() returns (w: Word)
    ensures ArithmeticWord(w) && PlainWord(w)
  {
    hide EncI, Opcode, Rd, Rs1, Rs2, Funct3, Funct7, ImmGen, Signed;
    var f3 := Choice(I_ARITH);
    var rd := RandReg();
    var rs1 := RandReg();
    var imm := RandInt(-2048, 2047);
    w := EncI(OP_IMM, f3, rd, rs1, imm);
    RoundTripI(OP_IMM, f3, rd, rs1, imm);
  }

  method RandomShift() returns (w: Word)
    ensures ShiftWord(w) && PlainWord(w)
  {
    hide EncShift, Opcode, Rd, Rs1, Rs2, Funct3, Funct7;
    var f := Choice(I_SHIFT);
    var rd := RandReg();
    var rs1 := RandReg();
    var shamt := RandInt(0, 31);
    w := EncShift(OP_IMM, f.0, f.1, rd, rs1, shamt);
    RoundTripShift(OP_IMM, f.0, f.1, rd, rs1, shamt);
  }

  method RandomLoad(offsets: seq<int>) returns (w: Word)
    requires |offsets| > 0 && forall o :: o in offsets ==> InWindow(o)
    ensures LoadWord(w) && Offset(w) in offsets
  {
    hide EncI, Opcode, Rd, Rs1, Rs2, Funct3, Funct7, ImmGen, Signed;
    var offset := Choice(offsets);
    var rd := RandReg();
    w := EncI(OP_LOAD, 2, rd, 31, offset);
    RoundTripI(OP_LOAD, 2, rd, 31, offset);
  }

  method RandomStore(written: set<int>) returns (w: Word, written': set<int>)
    requires forall o :: o in written ==> InWindow(o)
    ensures StoreWord(w)
    ensures written' == written + {Offset(w)} && forall o :: o in written' ==> InWindow(o)
  {
    hide EncS, Opcode, Rd, Rs1, Rs2, Funct3, Funct7, ImmGen, Signed;
    var step := RandInt(0, 2 * LOAD_STORE_WINDOW / 4);
    var offset := -LOAD_STORE_WINDOW + 4 * step;
    var rs2 := RandReg();
    written' := written + {offset};
    w := EncS(OP_STORE, 2, 31, rs2, offset);
    RoundTripS(2, 31, rs2, offset);
  }

  /** The spans a forward branch or jump at pos may take: those within reach whose
      target is no word of a loop block. */
  method Candidates(pos: nat, total: nat, ranges: seq<Range>) returns (ds: seq<nat>)
    requires pos < total
    ensures forall d :: d in ds <==> FreeSpan(pos, total, ranges, d)
  {
    var maxSpan := if total - 1 - pos < 8 then total - 1 - pos else 8;
    if maxSpan == 0 {
      maxSpan := 1;
    }
    ds := [];
    for d := 1 to maxSpan + 1
      invariant forall x :: x in ds <==> 1 <= x < d && !InAnyRange(pos + x, ranges)
    {
      if !InAnyRange(pos + d, ranges) {
        ds := ds + [d];
      }
    }
  }

  method RandomBranch(pos: nat, total: nat, ranges: seq<Range>) returns (w: Word)
    requires pos < total
    ensures if HasTarget(pos, total, ranges) then ForwardBranch(w, pos, total, ranges) else RTypeWord(w) && PlainWord(w)
  {
    hide EncB, Opcode, Rd, Rs1, Rs2, Funct3, Funct7, ImmGen, InAnyRange, PlainWord, RTypeWord, Signed;
    var f3 := Choice(BRANCHES);
    var ds := Candidates(pos, total, ranges);
    if ds == [] {
      w := RandomRType();
    } else {
      var d := Choice(ds);
      var rs1 := RandReg();
      var rs2 := RandReg();
      w := EncB(OP_BRANCH, f3, rs1, rs2, 4 * d);
      RoundTripB(f3, rs1, rs2, 4 * d);
    }
  }

  method RandomJal(pos: nat, total: nat, ranges: seq<Range>) returns (w: Word)
    requires pos < total
    ensures if HasTarget(pos, total, ranges) then ForwardJal(w, pos, total, ranges) else RTypeWord(w) && PlainWord(w)
  {
    hide EncJ, Opcode, Rd, Rs1, Rs2, Funct3, Funct7, ImmGen, InAnyRange, PlainWord, RTypeWord, Signed;
    var ds := Candidates(pos, total, ranges);
    if ds == [] {
      w := RandomRType();
    } else {
      var d := Choice(ds);
      w := EncJ(OP_JAL, 0, 4 * d);
      RoundTripJ(0, 4 * d);
    }
  }

  datatype Category = RType | IArith | IShift | Load | Store | Branch | Jal

  /** Branches and jumps are for the top-level stream, loads for offsets already
      written. */
  predicate Allowed(category: Category, allowBranchJal: bool, allowLoad: bool) {
    (category.Branch? || category.Jal? ==> allowBranchJal) && (category.Load? ==> allowLoad)
  }

  /** What a draw of each category comes to. */
  ghost predicate KindOf(category: Category, w: Word, pos: nat, total: nat, ranges: seq<Range>) {
    match category
    case RType => RTypeWord(w)
    case IArith => ArithmeticWord(w)
    case IShift => ShiftWord(w)
    case Load => LoadWord(w)
    case Store => StoreWord(w)
    case Branch => if HasTarget(pos, total, ranges) then ForwardBranch(w, pos, total, ranges) else RTypeWord(w)
    case Jal => if HasTarget(pos, total, ranges) then ForwardJal(w, pos, total, ranges) else RTypeWord(w)
  }

  method Categories(allowBranchJal: bool, allowLoad: bool) returns (categories: seq<Category>)
    ensures |categories| > 0
    ensures forall c: Category :: c in categories <==> Allowed(c, allowBranchJal, allowLoad)
  {
    categories := [RType, IArith, IShift, Store];
    if allowBranchJal {
      categories := categories + [Branch, Jal];
    }
    if allowLoad {
      categories := categories + [Load];
    }
    forall c: Category
      ensures Allowed(c, allowBranchJal, allowLoad) ==> c in categories
    {
      match c {
        case RType => assert categories[0] == c;
        case IArith => assert categories[1] == c;
        case IShift => assert categories[2] == c;
        case Store => assert categories[3] == c;
        case Branch => assert allowBranchJal ==> categories[4] == c;
        case Jal => assert allowBranchJal ==> categories[5] == c;
        case Load => assert allowLoad ==> categories[|categories| - 1] == c;
      }
    }
  }

  /** Loop bodies are generated with allowBranchJal false, the top-level stream
      with it true and the finished list of loop blocks. The categories drawn from
      and the one drawn are returned too. */
  method GenOneInstr(written: set<int>, allowBranchJal: bool, pos: nat, total: nat, ranges: seq<Range>)
    returns (w: Word, written': set<int>, categories: seq<Category>, category: Category)
    requires forall o :: o in written ==> InWindow(o)
    requires allowBranchJal ==> pos < total
    ensures category in categories
    ensures forall c: Category :: c in categories <==> Allowed(c, allowBranchJal, exists o :: o in written)
    ensures KindOf(category, w, pos, total, ranges)
    ensures category.Load? ==> Offset(w) in written
    ensures written' == if category.Store? then written + {Offset(w)} else written
    ensures BodyWord(w) || (allowBranchJal && (ForwardBranch(w, pos, total, ranges) || ForwardJal(w, pos, total, ranges)))
    ensures written <= written' && forall o :: o in written' ==> InWindow(o)
  {
    hide PlainWord, RTypeWord, ArithmeticWord, ShiftWord, LoadWord, StoreWord, Offset, ForwardBranch, ForwardJal,
         HasTarget;
    var offsets := Sorted(written);
    assert |offsets| > 0 ==> offsets[0] in offsets;
    categories := Categories(allowBranchJal, |offsets| > 0);
    category := Choice(categories);
    written' := written;
    match category {
      case RType => w := RandomRType();
      case IArith => w := RandomArithmetic();
      case IShift => w := RandomShift();
      case Load => w := RandomLoad(offsets);
      case Store => w, written' := RandomStore(written);
      case Branch => w := RandomBranch(pos, total, ranges);
      case Jal => w := RandomJal(pos, total, ranges);
    }
  }

  // ---- random_loop_block ----

  method AddiWord(rd: RegIdx, rs1: RegIdx, imm: int) returns (w: Word)
    requires -2048 <= imm < 2048
    ensures IsAddi(w, rd, rs1, imm)
  {
    hide EncI, Opcode, Rd, Rs1, Rs2, Funct3, Funct7, ImmGen, Signed;
    w := EncI(OP_IMM, 0, rd, rs1, imm);
    RoundTripI(OP_IMM, 0, rd, rs1, imm);
  }

  method LoopBranchWord(bodyLen: nat) returns (w: Word)
    requires bodyLen <= 5
    ensures IsLoopBranch(w, -4 * (bodyLen + 1))
  {
    hide EncB, Opcode, Rd, Rs1, Rs2, Funct3, Funct7, ImmGen, Signed;
    w := EncB(OP_BRANCH, 1, 30, 0, -4 * (bodyLen + 1));
    RoundTripB(1, 30, 0, -4 * (bodyLen + 1));
  }

  method RandomLoopBlock(written: set<int>, budget: nat)
    returns (words: Option<seq<Word>>, retireCount: nat, written': set<int>)
    requires forall o :: o in written ==> InWindow(o)
    ensures words.None? <==> budget < 4
    ensures words.Some? ==>
              LoopWords(words.value) && |words.value| <= budget && retireCount == LoopRetirements(words.value)
    ensures written <= written' && forall o :: o in written' ==> InWindow(o)
  {
    hide BodyWord, IsAddi, IsLoopBranch;
    written', retireCount := written, 0;
    var maxBody := if budget - 3 < 5 then budget - 3 else 5;
    if maxBody < 1 {
      return None, 0, written;
    }
    var bodyLen := RandInt(1, maxBody);
    var tripCount := RandInt(2, 8);
    var init := AddiWord(30, 0, tripCount);
    var body: seq<Word> := [];
    for b := 0 to bodyLen
      invariant |body| == b && forall j :: 0 <= j < b ==> BodyWord(body[j])
      invariant written <= written' && forall o :: o in written' ==> InWindow(o)
    {
      var w, categories, category;
      w, written', categories, category := GenOneInstr(written', false, 0, 0, []);
      body := body + [w];
    }
    var decrement := AddiWord(30, 30, -1);
    var branchBack := LoopBranchWord(bodyLen);
    AddiOffset(init, 30, 0, tripCount);
    var ws := [init] + body + [decrement, branchBack];
    assert forall j :: 1 <= j < |ws| - 2 ==> ws[j] == body[j - 1];
    retireCount := 1 + tripCount * (bodyLen + 2);
    words := Some(ws);
  }

  lemma AddiOffset(w: Word, rd: RegIdx, rs1: RegIdx, imm: int)
    requires IsAddi(w, rd, rs1, imm)
    ensures Offset(w) == imm
  {
  }

  // ---- random_program ----

  function TotalWords(n: nat): nat {
    PREAMBLE_WORDS + n + 1
  }

  function ProgramEnd(n: nat): nat {
    4 * TotalWords(n)
  }

  /** What the auipc/addi pair adds to the auipc's own address. */
  function DataOffset(n: nat): int {
    ProgramEnd(n) - 4 * PREAMBLE_WORDS + LOAD_STORE_WINDOW
  }

  function Lo12(n: nat): int {
    var lo := DataOffset(n) % 4096;
    if lo / 2048 % 2 == 1 then lo - 4096 else lo
  }

  function Hi20(n: nat): int {
    var lo := DataOffset(n) % 4096;
    DataOffset(n) / 4096 + if lo / 2048 % 2 == 1 then 1 else 0
  }

  /** The generator's own length assertion. */
  predicate Fits(n: nat) {
    ProgramEnd(n) <= DATA_MEM_BYTES - 4 - 2 * LOAD_STORE_WINDOW
  }

  function StreamStart(n: nat): nat {
    if n > 1 then 2 else 1
  }

  predicate BlockAt(ws: seq<Word>, r: Range) {
    r.lo < r.hi <= |ws| && LoopWords(ws[r.lo..r.hi])
  }

  /** Loop blocks in order, disjoint, between start and end. */
  predicate Ordered(ranges: seq<Range>, start: nat, end: nat) {
    && (forall j :: 0 <= j < |ranges| ==> start <= ranges[j].lo < ranges[j].hi <= end)
    && (forall i, j :: 0 <= i < j < |ranges| ==> ranges[i].hi <= ranges[j].lo)
  }

  predicate TopLevel(i: int, n: nat, ranges: seq<Range>) {
    StreamStart(n) <= i < n && !InAnyRange(i, ranges)
  }

  /** A generated stream: base register set-up, loop blocks, and top-level words
      everywhere else. */
  ghost predicate Stream(ws: seq<Word>, ranges: seq<Range>) {
    var n := |ws|;
    && n >= 1 && Fits(n)
    && Opcode(ws[0]) == OP_AUIPC && Rd(ws[0]) == 31 && ImmGen(ws[0]) == 4096 * Hi20(n)
    && (n > 1 ==> IsAddi(ws[1], 31, 31, Lo12(n)))
    && Ordered(ranges, StreamStart(n), n)
    && (forall j :: 0 <= j < |ranges| ==> BlockAt(ws, ranges[j]))
    && (forall i :: TopLevel(i, n, ranges) ==> TopWord(ws[i], i, n, ranges))
  }

  /** What the loop blocks add to one retirement per word. */
  function LoopSurplus(blocks: seq<seq<Word>>): int {
    if blocks == [] then 0
    else
      var b := blocks[|blocks| - 1];
      LoopSurplus(blocks[..|blocks| - 1]) + LoopRetirements(b) - |b|
  }

  function BlockWords(ws: seq<Word>, r: Range): seq<Word> {
    if r.lo <= r.hi <= |ws| then ws[r.lo..r.hi] else []
  }

  function Blocks(ws: seq<Word>, ranges: seq<Range>): seq<seq<Word>> {
    seq(|ranges|, j requires 0 <= j < |ranges| => BlockWords(ws, ranges[j]))
  }

  /** The generator's return value: one retirement per preamble word, per stream
      word outside the base register's set-up and per loop instruction run, and
      one for the epilogue. */
  function EstimatedRetirements(ws: seq<Word>, ranges: seq<Range>): int {
    PREAMBLE_WORDS + (|ws| - StreamStart(|ws|) + LoopSurplus(Blocks(ws, ranges))) + 1
  }

  lemma SplitOffset(n: nat)
    requires n >= 1 && Fits(n)
    ensures -2048 <= Lo12(n) < 2048 && 0 <= Hi20(n) <= 1
    ensures 4096 * Hi20(n) + Lo12(n) == DataOffset(n)
  {
  }

  /** The words of a block are in their slots. */
  predicate Placed(instrs: seq<Option<Word>>, r: Range, block: seq<Word>) {
    && LoopWords(block) && r.hi - r.lo == |block| && r.hi <= |instrs|
    && forall k :: r.lo <= k < r.hi ==> instrs[k] == Some(block[k - r.lo])
  }

  /** The first pass up to word i: every word from start to i is in a placed
      block or is one of the slots left open. */
  ghost predicate PassOne(instrs: seq<Option<Word>>, ranges: seq<Range>, blocks: seq<seq<Word>>, slots: seq<nat>,
                          start: nat, i: nat)
  {
    && start <= i <= |instrs| && |blocks| == |ranges|
    && Ordered(ranges, start, i)
    && (forall j :: 0 <= j < |ranges| ==> Placed(instrs, ranges[j], blocks[j]))
    && (forall s :: s in slots ==> start <= s < i && !InAnyRange(s, ranges))
    && (forall a, b :: 0 <= a < b < |slots| ==> slots[a] < slots[b])
    && (forall x :: start <= x < i ==> InAnyRange(x, ranges) || x in slots)
    && (forall x :: i <= x < |instrs| ==> instrs[x] == None)
    && (forall s :: s in slots ==> instrs[s] == None)
  }

  lemma PlaceBlock(instrs: seq<Option<Word>>, instrs': seq<Option<Word>>, ranges: seq<Range>, blocks: seq<seq<Word>>,
                   slots: seq<nat>, start: nat, i: nat, block: seq<Word>)
    requires PassOne(instrs, ranges, blocks, slots, start, i)
    requires LoopWords(block) && i + |block| <= |instrs| && |instrs'| == |instrs|
    requires forall k :: 0 <= k < |instrs| ==>
               instrs'[k] == if i <= k < i + |block| then Some(block[k - i]) else instrs[k]
    ensures PassOne(instrs', ranges + [Range(i, i + |block|)], blocks + [block], slots, start, i + |block|)
  {
    hide LoopWords;
    var r := Range(i, i + |block|);
    var ranges' := ranges + [r];
    assert |block| >= 4 by { BlockLength(block); }
    forall x
      ensures InAnyRange(x, ranges') <==> InAnyRange(x, ranges) || InRange(x, r)
    {
      RangeAppend(x, ranges, r);
    }
    forall j | 0 <= j < |ranges'|
      ensures Placed(instrs', ranges'[j], (blocks + [block])[j])
    {
      if j < |ranges| {
        assert Placed(instrs, ranges[j], blocks[j]);
      }
    }
  }

  lemma BlockLength(block: seq<Word>)
    requires LoopWords(block)
    ensures 4 <= |block| <= 8
  {
  }

  lemma RangeAppend(x: int, ranges: seq<Range>, r: Range)
    ensures InAnyRange(x, ranges + [r]) <==> InAnyRange(x, ranges) || InRange(x, r)
  {
    var ranges' := ranges + [r];
    if InAnyRange(x, ranges) {
      var j :| 0 <= j < |ranges| && InRange(x, ranges[j]);
      assert InRange(x, ranges'[j]);
    }
    if InRange(x, r) {
      assert InRange(x, ranges'[|ranges|]);
    }
  }

  // ---- what was drawn ----

  /** Where a loop was drawn, the words left for the second pass, and for each of
      those the categories on offer and the one drawn. */
  datatype Draws = Draws(loops: seq<nat>, slots: seq<nat>, offers: seq<seq<Category>>, kinds: seq<Category>)

  predicate StartsBlock(s: nat, ranges: seq<Range>) {
    exists j :: 0 <= j < |ranges| && ranges[j].lo == s
  }

  /** Of n words, a loop drawn at s before i became a block if there was room. */
  predicate LoopsDrawn(loops: seq<nat>, ranges: seq<Range>, n: nat, i: nat) {
    && (forall s :: s in loops ==> s < i && (StartsBlock(s, ranges) <==> s + 4 <= n))
    && (forall j :: 0 <= j < |ranges| ==> ranges[j].lo in loops)
  }

  /** The stream holds what was drawn, everywhere. */
  ghost predicate FollowsDraws(draws: Draws, ws: seq<Word>, ranges: seq<Range>) {
    && LoopsDrawn(draws.loops, ranges, |ws|, |ws|)
    && |draws.kinds| == |draws.offers| == |draws.slots|
    && (forall a :: 0 <= a < |draws.slots| ==> Drawn(draws.offers[a], draws.kinds[a]))
    && (forall a :: 0 <= a < |draws.slots| ==>
          draws.slots[a] < |ws| && KindOf(draws.kinds[a], ws[draws.slots[a]], draws.slots[a], |ws|, ranges))
    && (forall i :: i in draws.slots <==> TopLevel(i, |ws|, ranges))
  }

  lemma StartAppend(s: nat, ranges: seq<Range>, r: Range)
    ensures StartsBlock(s, ranges + [r]) <==> StartsBlock(s, ranges) || s == r.lo
  {
    var ranges' := ranges + [r];
    assert ranges'[|ranges|] == r;
    if StartsBlock(s, ranges) {
      var j :| 0 <= j < |ranges| && ranges[j].lo == s;
      assert ranges'[j].lo == s;
    }
  }

  /** A loop drawn at i becomes a block, */
  lemma DrawnBlock(loops: seq<nat>, ranges: seq<Range>, n: nat, i: nat, r: Range)
    requires LoopsDrawn(loops, ranges, n, i) && r.lo == i && i + 4 <= r.hi <= n
    ensures LoopsDrawn(loops + [i], ranges + [r], n, r.hi)
  {
    hide StartsBlock;
    forall s: nat
      ensures StartsBlock(s, ranges + [r]) <==> StartsBlock(s, ranges) || s == i
    {
      StartAppend(s, ranges, r);
    }
  }

  /** or is given up where there is no room for one. */
  lemma DrawnInVain(loops: seq<nat>, ranges: seq<Range>, n: nat, i: nat)
    requires LoopsDrawn(loops, ranges, n, i) && n < i + 4
    ensures LoopsDrawn(loops + [i], ranges, n, i + 1)
  {
  }

  lemma NotDrawn(loops: seq<nat>, ranges: seq<Range>, n: nat, i: nat)
    requires LoopsDrawn(loops, ranges, n, i)
    ensures LoopsDrawn(loops, ranges, n, i + 1)
  {
  }

  lemma NothingDrawn(n: nat, i: nat)
    ensures LoopsDrawn([], [], n, i)
  {
  }

  /** Before the first pass only the base register's set-up is in place. */
  lemma PassOneStarts(instrs: seq<Option<Word>>, start: nat)
    requires start <= |instrs| && forall x :: start <= x < |instrs| ==> instrs[x] == None
    ensures PassOne(instrs, [], [], [], start, start)
  {
  }

  lemma PassOneBounds(instrs: seq<Option<Word>>, ranges: seq<Range>, blocks: seq<seq<Word>>, slots: seq<nat>,
                      start: nat, i: nat)
    requires PassOne(instrs, ranges, blocks, slots, start, i)
    ensures start <= i <= |instrs| && |blocks| == |ranges|
  {
    hide InAnyRange, Placed;
  }

  lemma SlotsAreTopLevel(instrs: seq<Option<Word>>, ranges: seq<Range>, blocks: seq<seq<Word>>, slots: seq<nat>)
    requires PassOne(instrs, ranges, blocks, slots, StreamStart(|instrs|), |instrs|)
    ensures forall i :: i in slots <==> TopLevel(i, |instrs|, ranges)
  {
    hide InAnyRange, Placed, Ordered;
  }

  /** instrs[i : i + len(words)] = words */
  method PutWords(instrs: seq<Option<Word>>, i: nat, words: seq<Word>) returns (instrs': seq<Option<Word>>)
    requires i + |words| <= |instrs|
    ensures |instrs'| == |instrs|
    ensures forall k :: 0 <= k < |instrs| ==> instrs'[k] == if i <= k < i + |words| then Some(words[k - i]) else instrs[k]
  {
    instrs' := instrs[..i] + seq(|words|, k requires 0 <= k < |words| => Some(words[k])) + instrs[i + |words|..];
  }

  method RandomProgram(n: nat) returns (ws: seq<Word>, expectedRetire: int, ranges: seq<Range>, draws: Draws)
    requires n >= 1 && Fits(n)
    ensures |ws| == n && Stream(ws, ranges) && FollowsDraws(draws, ws, ranges)
    ensures expectedRetire == n - StreamStart(n) + LoopSurplus(Blocks(ws, ranges))
  {
    hide LoopWords, TopWord, IsAddi, Opcode, ImmGen, Rd, Lo12, Hi20, InAnyRange, LoopRetirements, Placed, KindOf,
         LoopsDrawn, PassOne, Ordered, BlockAt;
    var instrs: seq<Option<Word>> := seq(n, _ => None);
    var auipc, addi := BaseRegister(n);
    instrs := instrs[0 := Some(auipc)];
    if n > 1 {
      instrs := instrs[1 := Some(addi)];
    }
    var start := StreamStart(n);
    var written: set<int> := {};
    expectedRetire := 0;
    ranges := [];
    var loops: seq<nat>, slots: seq<nat> := [], [];
    ghost var blocks: seq<seq<Word>> := [];
    var i := start;
    PassOneStarts(instrs, start);
    NothingDrawn(n, start);
    while i < n
      invariant start <= i <= n && |blocks| == |ranges|
      invariant |instrs| == n && instrs[0] == Some(auipc) && (n > 1 ==> instrs[1] == Some(addi))
      invariant forall o :: o in written ==> InWindow(o)
      invariant PassOne(instrs, ranges, blocks, slots, start, i) && LoopsDrawn(loops, ranges, n, i)
      invariant expectedRetire == i - start + LoopSurplus(blocks)
    {
      var emitLoop := Choice([false, true]);
      var block: Option<seq<Word>>, retireCount := None, 0;
      if emitLoop {
        block, retireCount, written := RandomLoopBlock(written, n - i);
      }
      if block.Some? {
        var words := block.value;
        BlockLength(words);
        var instrs' := PutWords(instrs, i, words);
        PlaceBlock(instrs, instrs', ranges, blocks, slots, start, i, words);
        DrawnBlock(loops, ranges, n, i, Range(i, i + |words|));
        loops := loops + [i];
        assert (blocks + [words])[..|blocks|] == blocks;
        instrs, ranges, blocks := instrs', ranges + [Range(i, i + |words|)], blocks + [words];
        expectedRetire := expectedRetire + retireCount;
        i := i + |words|;
      } else {
        LeaveSlot(instrs, ranges, blocks, slots, start, i);
        if emitLoop {
          DrawnInVain(loops, ranges, n, i);
          loops := loops + [i];
        } else {
          NotDrawn(loops, ranges, n, i);
        }
        slots := slots + [i];
        expectedRetire := expectedRetire + 1;
        i := i + 1;
      }
    }
    SlotsAreTopLevel(instrs, ranges, blocks, slots);
    var offers: seq<seq<Category>>, kinds: seq<Category>;
    ws, offers, kinds := FillSlots(instrs, written, ranges, blocks, slots);
    StreamFromPasses(instrs, ws, ranges, blocks, slots, auipc, addi);
    draws := Draws(loops, slots, offers, kinds);
  }

  /** A block's range is not open: every word of it holds an instruction. */
  lemma RangeIsFilled(instrs: seq<Option<Word>>, ranges: seq<Range>, blocks: seq<seq<Word>>, k: nat)
    requires |blocks| == |ranges| && k < |instrs| && InAnyRange(k, ranges)
    requires forall j :: 0 <= j < |ranges| ==> Placed(instrs, ranges[j], blocks[j])
    ensures instrs[k].Some?
  {
    var j :| 0 <= j < |ranges| && InRange(k, ranges[j]);
    assert Placed(instrs, ranges[j], blocks[j]);
  }

  /** At the top level every category but the load is always on offer. */
  predicate Drawn(offer: seq<Category>, category: Category) {
    category in offer && forall c: Category :: c != Load ==> c in offer
  }

  /** Slot i holds a word of the kind drawn for it. */
  ghost predicate Filled(instrs: seq<Option<Word>>, i: nat, offer: seq<Category>, category: Category, ranges: seq<Range>) {
    && i < |instrs| && instrs[i].Some? && TopWord(instrs[i].value, i, |instrs|, ranges)
    && Drawn(offer, category) && KindOf(category, instrs[i].value, i, |instrs|, ranges)
  }

  /** The first t slots are filled, the others still open, and no other word has
      changed. */
  ghost predicate FilledUpTo(instrs0: seq<Option<Word>>, instrs: seq<Option<Word>>, slots: seq<nat>, t: nat,
                             offers: seq<seq<Category>>, kinds: seq<Category>, ranges: seq<Range>) {
    && |instrs| == |instrs0| && t == |offers| == |kinds| <= |slots|
    && (forall k :: 0 <= k < |instrs| && instrs0[k].Some? ==> instrs[k] == instrs0[k])
    && (forall a :: 0 <= a < t ==> Filled(instrs, slots[a], offers[a], kinds[a], ranges))
  }

  lemma FillStep(instrs0: seq<Option<Word>>, instrs: seq<Option<Word>>, slots: seq<nat>, t: nat,
                 offers: seq<seq<Category>>, kinds: seq<Category>, ranges: seq<Range>,
                 w: Word, offer: seq<Category>, category: Category)
    requires FilledUpTo(instrs0, instrs, slots, t, offers, kinds, ranges) && t < |slots|
    requires forall a, b :: 0 <= a < b < |slots| ==> slots[a] < slots[b]
    requires slots[t] < |instrs0| && instrs0[slots[t]].None?
    requires Filled(instrs[slots[t] := Some(w)], slots[t], offer, category, ranges)
    ensures FilledUpTo(instrs0, instrs[slots[t] := Some(w)], slots, t + 1, offers + [offer], kinds + [category], ranges)
  {
    hide TopWord, KindOf, Drawn;
  }

  lemma AllFilled(instrs0: seq<Option<Word>>, instrs: seq<Option<Word>>, ranges: seq<Range>, blocks: seq<seq<Word>>,
                  slots: seq<nat>, offers: seq<seq<Category>>, kinds: seq<Category>)
    requires PassOne(instrs0, ranges, blocks, slots, StreamStart(|instrs0|), |instrs0|)
    requires forall k :: 0 <= k < StreamStart(|instrs0|) ==> instrs0[k].Some?
    requires FilledUpTo(instrs0, instrs, slots, |slots|, offers, kinds, ranges)
    ensures forall k :: 0 <= k < |instrs| ==> instrs[k].Some?
  {
    hide TopWord, KindOf, Drawn, InAnyRange, Placed;
    forall k | 0 <= k < |instrs|
      ensures instrs[k].Some?
    {
      if InAnyRange(k, ranges) {
        RangeIsFilled(instrs0, ranges, blocks, k);
      } else if k >= StreamStart(|instrs|) {
        assert k in slots;
      }
    }
  }

  /** The second pass: each open slot is filled once, with the block list final. */
  method FillSlots(instrs0: seq<Option<Word>>, written0: set<int>, ranges: seq<Range>,
                   ghost blocks: seq<seq<Word>>, slots: seq<nat>)
    returns (ws: seq<Word>, offers: seq<seq<Category>>, kinds: seq<Category>)
    requires PassOne(instrs0, ranges, blocks, slots, StreamStart(|instrs0|), |instrs0|)
    requires forall k :: 0 <= k < StreamStart(|instrs0|) ==> instrs0[k].Some?
    requires forall o :: o in written0 ==> InWindow(o)
    ensures |ws| == |instrs0|
    ensures forall k :: 0 <= k < |ws| && instrs0[k].Some? ==> ws[k] == instrs0[k].value
    ensures forall s :: s in slots ==> s < |ws| && TopWord(ws[s], s, |ws|, ranges)
    ensures |kinds| == |offers| == |slots| && forall a :: 0 <= a < |slots| ==> Drawn(offers[a], kinds[a])
    ensures forall a :: 0 <= a < |slots| ==> slots[a] < |ws| && KindOf(kinds[a], ws[slots[a]], slots[a], |ws|, ranges)
  {
    hide TopWord, KindOf, FilledUpTo, Ordered, Placed, InAnyRange;
    var n := |instrs0|;
    var instrs, written := instrs0, written0;
    offers, kinds := [], [];
    NoneFilled(instrs0, slots, ranges);
    assert forall a :: 0 <= a < |slots| ==> slots[a] in slots;
    for t := 0 to |slots|
      invariant |instrs| == n && FilledUpTo(instrs0, instrs, slots, t, offers, kinds, ranges)
      invariant forall o :: o in written ==> InWindow(o)
    {
      var i := slots[t];
      var w, categories, category;
      w, written, categories, category := GenOneInstr(written, true, i, n, ranges);
      TopWordIntro(w, i, n, ranges);
      FillStep(instrs0, instrs, slots, t, offers, kinds, ranges, w, categories, category);
      instrs, offers, kinds := instrs[i := Some(w)], offers + [categories], kinds + [category];
    }
    AllFilled(instrs0, instrs, ranges, blocks, slots, offers, kinds);
    ws := seq(n, k requires 0 <= k < n => instrs[k].value);
    SecondPassDone(instrs0, instrs, ws, slots, offers, kinds, ranges);
  }

  lemma NoneFilled(instrs: seq<Option<Word>>, slots: seq<nat>, ranges: seq<Range>)
    ensures FilledUpTo(instrs, instrs, slots, 0, [], [], ranges)
  {
  }

  lemma SecondPassDone(instrs0: seq<Option<Word>>, instrs: seq<Option<Word>>, ws: seq<Word>, slots: seq<nat>,
                       offers: seq<seq<Category>>, kinds: seq<Category>, ranges: seq<Range>)
    requires FilledUpTo(instrs0, instrs, slots, |slots|, offers, kinds, ranges)
    requires |ws| == |instrs| && forall k :: 0 <= k < |ws| ==> instrs[k] == Some(ws[k])
    ensures |instrs| == |instrs0| && |kinds| == |offers| == |slots|
    ensures forall k :: 0 <= k < |ws| && instrs0[k].Some? ==> ws[k] == instrs0[k].value
    ensures forall s :: s in slots ==> s < |ws| && TopWord(ws[s], s, |ws|, ranges)
    ensures forall a :: 0 <= a < |slots| ==> Drawn(offers[a], kinds[a])
    ensures forall a :: 0 <= a < |slots| ==> slots[a] < |ws| && KindOf(kinds[a], ws[slots[a]], slots[a], |ws|, ranges)
  {
    hide TopWord, KindOf, Drawn;
  }

  lemma TopWordIntro(w: Word, pos: nat, total: nat, ranges: seq<Range>)
    requires BodyWord(w) || ForwardBranch(w, pos, total, ranges) || ForwardJal(w, pos, total, ranges)
    ensures TopWord(w, pos, total, ranges)
  {
  }

  lemma StreamFromPasses(instrs: seq<Option<Word>>, ws: seq<Word>, ranges: seq<Range>, blocks: seq<seq<Word>>,
                         slots: seq<nat>, auipc: Word, addi: Word)
    requires var n := |ws|; n >= 1 && Fits(n) && |instrs| == n && PassOne(instrs, ranges, blocks, slots, StreamStart(n), n)
    requires forall k :: 0 <= k < |ws| && instrs[k].Some? ==> ws[k] == instrs[k].value
    requires forall s :: s in slots ==> s < |ws| && TopWord(ws[s], s, |ws|, ranges)
    requires instrs[0] == Some(auipc) && (|ws| > 1 ==> instrs[1] == Some(addi))
    requires Opcode(auipc) == OP_AUIPC && Rd(auipc) == 31 && ImmGen(auipc) == 4096 * Hi20(|ws|)
    requires IsAddi(addi, 31, 31, Lo12(|ws|))
    ensures Stream(ws, ranges) && Blocks(ws, ranges) == blocks
  {
    hide LoopWords, TopWord, InAnyRange, Opcode, Rd, ImmGen, IsAddi, Lo12, Hi20;
    forall j | 0 <= j < |ranges|
      ensures ranges[j].lo < ranges[j].hi <= |ws| && ws[ranges[j].lo..ranges[j].hi] == blocks[j]
      ensures BlockAt(ws, ranges[j])
    {
      var r, block := ranges[j], blocks[j];
      assert Placed(instrs, r, block);
      assert ws[r.lo..r.hi] == block;
    }
  }

  lemma BeyondTheBlocks(ranges: seq<Range>, start: nat, i: nat)
    requires Ordered(ranges, start, i)
    ensures !InAnyRange(i, ranges)
  {
  }

  lemma LeaveSlot(instrs: seq<Option<Word>>, ranges: seq<Range>, blocks: seq<seq<Word>>, slots: seq<nat>,
                  start: nat, i: nat)
    requires PassOne(instrs, ranges, blocks, slots, start, i) && i < |instrs|
    ensures PassOne(instrs, ranges, blocks, slots + [i], start, i + 1)
  {
    hide LoopWords, InAnyRange, Placed;
    assert forall a :: 0 <= a < |slots| ==> slots[a] in slots;
    BeyondTheBlocks(ranges, start, i);
  }

  method BaseRegister(n: nat) returns (auipc: Word, addi: Word)
    requires n >= 1 && Fits(n)
    ensures Opcode(auipc) == OP_AUIPC && Rd(auipc) == 31 && ImmGen(auipc) == 4096 * Hi20(n)
    ensures IsAddi(addi, 31, 31, Lo12(n))
  {
    SplitOffset(n);
    auipc := EncU(OP_AUIPC, 31, Hi20(n));
    RoundTripU(OP_AUIPC, 31, Hi20(n));
    hide Opcode, Rd, ImmGen, EncU, Hi20, Lo12;
    addi := AddiWord(31, 31, Lo12(n));
  }

  // ---- build_full_program ----

  /** beq x0, x0, 0 */
  predicate IsSelfBranch(w: Word) {
    Opcode(w) == OP_BRANCH && Funct3(w) == 0 && Rs1(w) == 0 && Rs2(w) == 0 && Offset(w) == 0
  }

  /** addi xr, x0, 0 for r = 1 .. 31, the stream, the self-branch. */
  ghost predicate FullText(text: seq<Word>, ws: seq<Word>, ranges: seq<Range>) {
    && |text| == TotalWords(|ws|)
    && (forall a :: 0 <= a < PREAMBLE_WORDS ==> IsAddi(text[a], a + 1, 0, 0))
    && (forall i :: 0 <= i < |ws| ==> text[PREAMBLE_WORDS + i] == ws[i])
    && IsSelfBranch(text[PREAMBLE_WORDS + |ws|])
    && Stream(ws, ranges)
  }

  method ClearAllRegsPreamble() returns (ws: seq<Word>)
    ensures |ws| == PREAMBLE_WORDS && forall a :: 0 <= a < PREAMBLE_WORDS ==> IsAddi(ws[a], a + 1, 0, 0)
  {
    hide IsAddi;
    ws := [];
    for r := 1 to 32
      invariant |ws| == r - 1 && forall a :: 0 <= a < r - 1 ==> IsAddi(ws[a], a + 1, 0, 0)
    {
      var w := AddiWord(r, 0, 0);
      ws := ws + [w];
    }
  }

  /** expectedRetire counts the preamble, the stream without the base register's
      two words, and the first retirement of the self-branch. */
  method BuildFullProgram(n: nat)
    returns (text: seq<Word>, expectedRetire: int, ws: seq<Word>, ranges: seq<Range>, draws: Draws)
    requires n >= 1 && Fits(n)
    ensures |ws| == n && FullText(text, ws, ranges) && FollowsDraws(draws, ws, ranges)
    ensures expectedRetire == EstimatedRetirements(ws, ranges)
  {
    hide IsAddi, EncB, Stream, IsSelfBranch, LoopSurplus, Blocks, FollowsDraws;
    var retire: int;
    ws, retire, ranges, draws := RandomProgram(n);
    var preamble := ClearAllRegsPreamble();
    var epilogue := EpilogueWord();
    text := preamble + ws + [epilogue];
    expectedRetire := 31 + retire + 1;
  }

  method EpilogueWord() returns (w: Word)
    ensures IsSelfBranch(w)
  {
    w := EncB(OP_BRANCH, 0, 0, 0, 0);
    RoundTripB(0, 0, 0, 0);
    hide Opcode, Funct3, Rs1, Rs2, ImmGen, Signed, EncB;
  }
}
