/**
 tb_commit_log.sv and sv_log_parser.py: the retirement log. A store's MEM line is
 written a cycle before the PC and REG lines of the same instruction, so two
 counters number the lines and the parser joins them by number.
 */
module CommitLog {
  import opened Words
  import opened Datapath
  import opened Sequential
  import opened Execution
  import opened Core
  import opened Invariant
  import opened Preservation
  import opened Refinement
  import LB = LoopBuffer

  datatype Line =
    | MemLine(idx: nat, addr: Word, value: Word)
    | PcLine(idx: nat, pc: Word)
    | RegLine(idx: nat, rd: RegIdx, value: Word)

  datatype LogState = LogState(memIdx: nat, wbIdx: nat, lines: seq<Line>)

  const EMPTY_LOG := LogState(0, 0, [])

  function MemLines(l: LogState, m: ExMem): seq<Line> {
    if m.valid && m.memWrite then [MemLine(l.memIdx, m.alu, m.storeData)] else []
  }

  function WbLines(l: LogState, m: MemWb): seq<Line> {
    if m.valid then
      [PcLine(l.wbIdx, m.pc)] + if m.regWrite then [RegLine(l.wbIdx, m.rd, WbData(m))] else []
    else []
  }

  /** What one clock edge appends. */
  function Observe(l: LogState, c: Core): LogState {
    LogState(l.memIdx + if c.exmem.valid then 1 else 0,
             l.wbIdx + if c.memwb.valid then 1 else 0,
             l.lines + MemLines(l, c.exmem) + WbLines(l, c.memwb))
  }

  // ---- sv_log_parser.py ----

  datatype Parsed = Parsed(pcs: map<nat, Word>, regs: map<nat, (RegIdx, Word)>, mems: map<nat, (Word, Word)>)

  function AddLine(q: Parsed, l: Line): Parsed {
    match l
    case MemLine(i, a, v) => q.(mems := q.mems[i := (a, v)])
    case PcLine(i, pc) => q.(pcs := q.pcs[i := pc])
    case RegLine(i, rd, v) => q.(regs := q.regs[i := (rd, v)])
  }

  function ParseLines(lines: seq<Line>): Parsed {
    if lines == [] then Parsed(map[], map[], map[])
    else AddLine(ParseLines(lines[..|lines| - 1]), lines[|lines| - 1])
  }

  /** Lines of one kind and number. */
  predicate SameSlot(a: Line, b: Line) {
    a.idx == b.idx && a.MemLine? == b.MemLine? && a.PcLine? == b.PcLine?
  }

  predicate IsLast(lines: seq<Line>, j: nat) {
    j < |lines| && forall k :: j < k < |lines| ==> !SameSlot(lines[k], lines[j])
  }

  predicate Joined(q: Parsed, l: Line) {
    match l
    case MemLine(i, a, v) => i in q.mems && q.mems[i] == (a, v)
    case PcLine(i, pc) => i in q.pcs && q.pcs[i] == pc
    case RegLine(i, rd, v) => i in q.regs && q.regs[i] == (rd, v)
  }

  /** Whatever the lines and their order, a record's entry of each kind is that of
      the last line of that kind and number. */
  lemma {:induction false} LastLineCounts(lines: seq<Line>, j: nat)
    requires IsLast(lines, j)
    ensures Joined(ParseLines(lines), lines[j])
  {
    var n := |lines| - 1;
    if j < n {
      assert lines[..n][j] == lines[j];
      LastLineCounts(lines[..n], j);
      assert !SameSlot(lines[n], lines[j]);
    }
  }

  predicate Has(q: Parsed, l: Line) {
    match l
    case MemLine(i, _, _) => i in q.mems
    case PcLine(i, _) => i in q.pcs
    case RegLine(i, _, _) => i in q.regs
  }

  /** And there is no entry without a line. */
  lemma {:induction false} EntryHasLine(lines: seq<Line>, l: Line) returns (j: nat)
    requires Has(ParseLines(lines), l)
    ensures IsLast(lines, j) && SameSlot(lines[j], l)
  {
    var n := |lines| - 1;
    if SameSlot(lines[n], l) {
      j := n;
    } else {
      j := EntryHasLine(lines[..n], l);
      assert lines[..n][j] == lines[j];
    }
  }

  // ---- the sequential machine's log ----

  ghost function PcsUpTo(p: Execution, r: nat): map<nat, Word> {
    map k: nat | k < r :: p.At(k).pc
  }

  ghost function RegsUpTo(p: Execution, r: nat): map<nat, (RegIdx, Word)> {
    map k: nat | k < r && Decode(p.WordAt(k)).regWrite :: (Rd(p.WordAt(k)), RdValue(p.WordAt(k), p.At(k)))
  }

  ghost function MemsUpTo(p: Execution, m: nat): map<nat, (Word, Word)> {
    map k: nat | k < m && Decode(p.WordAt(k)).memWrite :: (p.OutcomeAt(k).alu, StoredValue(p.WordAt(k), p.At(k)))
  }

  ghost predicate LogMatches(p: Execution, l: LogState, c: Core, r: nat) {
    && l.wbIdx == r && l.memIdx == MemIndex(c, r)
    && ParseLines(l.lines) == Parsed(PcsUpTo(p, r), RegsUpTo(p, r), MemsUpTo(p, MemIndex(c, r)))
  }

  lemma ParseAppend(lines: seq<Line>, l: Line)
    ensures ParseLines(lines + [l]) == AddLine(ParseLines(lines), l)
  {
    assert (lines + [l])[..|lines|] == lines;
  }

  lemma MemsExtend(p: Execution, m: nat)
    ensures MemsUpTo(p, m + 1) ==
            if Decode(p.WordAt(m)).memWrite
            then MemsUpTo(p, m)[m := (p.OutcomeAt(m).alu, StoredValue(p.WordAt(m), p.At(m)))]
            else MemsUpTo(p, m)
  {
    hide Decode, Run, StoredValue, Outcome, Instr;
  }

  lemma RegsExtend(p: Execution, r: nat)
    ensures RegsUpTo(p, r + 1) ==
            if Decode(p.WordAt(r)).regWrite
            then RegsUpTo(p, r)[r := (Rd(p.WordAt(r)), RdValue(p.WordAt(r), p.At(r)))]
            else RegsUpTo(p, r)
  {
    hide Decode, Run, Rd, RdValue, Instr;
  }

  lemma PcsExtend(p: Execution, r: nat)
    ensures PcsUpTo(p, r + 1) == PcsUpTo(p, r)[r := p.At(r).pc]
  {
    hide Run;
  }

  lemma AppendMem(p: Execution, l: LogState, c: Core, r: nat, q: Parsed)
    requires BackEnd(p, c, r) && l.memIdx == MemIndex(c, r)
    requires q == ParseLines(l.lines) && q.mems == MemsUpTo(p, MemIndex(c, r))
    ensures ParseLines(l.lines + MemLines(l, c.exmem)) == q.(mems := MemsUpTo(p, HeadIndex(c, r)))
  {
    var m := MemIndex(c, r);
    hide Decode, ImmGen, Fetch, Rd, Run, StoredValue, Outcome, MemsUpTo, ParseLines;
    MemsExtend(p, m);
    assert l.lines + [] == l.lines;
    if c.exmem.valid && c.exmem.memWrite {
      ParseAppend(l.lines, MemLine(m, c.exmem.alu, c.exmem.storeData));
    }
  }

  lemma AppendWb(p: Execution, l: LogState, lines: seq<Line>, c: Core, r: nat, q: Parsed)
    requires BackEnd(p, c, r) && l.wbIdx == r
    requires q == ParseLines(lines) && q.pcs == PcsUpTo(p, r) && q.regs == RegsUpTo(p, r)
    ensures ParseLines(lines + WbLines(l, c.memwb)) ==
            q.(pcs := PcsUpTo(p, MemIndex(c, r)), regs := RegsUpTo(p, MemIndex(c, r)))
  {
    hide Decode, ImmGen, Fetch, Rd, Run, RdValue, WbData, Outcome, PcsUpTo, RegsUpTo, ParseLines;
    PcsExtend(p, r);
    RegsExtend(p, r);
    assert lines + [] == lines;
    if c.memwb.valid {
      WbDataCorrect(p, c, r);
      var pcLine, regLine := PcLine(r, c.memwb.pc), RegLine(r, c.memwb.rd, WbData(c.memwb));
      ParseAppend(lines, pcLine);
      ParseAppend(lines + [pcLine], regLine);
      assert [pcLine] + [] == [pcLine];
      assert lines + [pcLine] + [regLine] == lines + ([pcLine] + [regLine]);
    }
  }

  lemma ObserveStep(p: Execution, l: LogState, c: Core, r: nat)
    requires BackEnd(p, c, r) && LogMatches(p, l, c, r)
    ensures LogMatches(p, Observe(l, c), Next(p.imem, c), NextRetired(c, r))
  {
    hide BackEnd, PcsUpTo, RegsUpTo, MemsUpTo, MemLines, WbLines, ParseLines, NextPc, NextIfId, NextIdEx, NextExMem,
         NextRegs, NextRam, NextBp, LB.Next, LoadData;
    var q := ParseLines(l.lines);
    AppendMem(p, l, c, r, q);
    AppendWb(p, l, l.lines + MemLines(l, c.exmem), c, r, q.(mems := MemsUpTo(p, HeadIndex(c, r))));
  }

  /** The testbench's log after n clock edges. */
  ghost function LogAfter(p: Execution, slots: LB.Slots, n: nat): LogState {
    if n == 0 then EMPTY_LOG else Observe(LogAfter(p, slots, n - 1), Reached(p, slots, n - 1))
  }

  /** Refinement: in every cycle the log, joined by number, is the sequential
      machine's trace: pc and register commits of the retired instructions, and
      the stores of those and possibly of one more. */
  lemma {:induction false} LogIsSequentialTrace(p: Execution, slots: LB.Slots, n: nat)
    requires WellBehaved(p)
    ensures var r, m := Retired(p, slots, n), MemIndex(Reached(p, slots, n), Retired(p, slots, n));
            && r <= m <= r + 1
            && ParseLines(LogAfter(p, slots, n).lines) == Parsed(PcsUpTo(p, r), RegsUpTo(p, r), MemsUpTo(p, m))
    ensures LogMatches(p, LogAfter(p, slots, n), Reached(p, slots, n), Retired(p, slots, n))
  {
    hide Next, Inv, WellBehaved, Reset, PcsUpTo, RegsUpTo, MemsUpTo, ParseLines, Observe, NextRetired;
    if n == 0 {
      EmptyLogMatches(p, slots);
    } else {
      LogIsSequentialTrace(p, slots, n - 1);
      ReachedInv(p, slots, n - 1);
      BackEndOf(p, Reached(p, slots, n - 1), Retired(p, slots, n - 1));
      ObserveStep(p, LogAfter(p, slots, n - 1), Reached(p, slots, n - 1), Retired(p, slots, n - 1));
    }
  }

  lemma BackEndOf(p: Execution, c: Core, r: nat)
    requires Inv(p, c, r)
    ensures BackEnd(p, c, r)
  {
  }

  lemma EmptyLogMatches(p: Execution, slots: LB.Slots)
    ensures LogMatches(p, EMPTY_LOG, Reset(p.ram, slots), 0)
  {
    assert PcsUpTo(p, 0) == map[] && RegsUpTo(p, 0) == map[] && MemsUpTo(p, 0) == map[];
  }
}
