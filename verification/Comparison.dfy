/**
 The whole accuracy run: any generated program on the pipeline and on a golden
 model at 0x80000000, through both logs, both parsers, both cuts and the
 comparison, scores full marks.
 */
module Comparison {
  import opened Wrappers
  import opened Words
  import opened Datapath
  import opened Sequential
  import opened Execution
  import opened Generator
  import opened GeneratedRun
  import opened GeneratedClass
  import opened Relocation
  import opened Invariant
  import opened Refinement
  import opened CommitLog
  import opened SvLog
  import opened SpikeLog
  import opened TraceCompare
  import opened Termination
  import opened Testbench
  import LB = LoopBuffer

  // ---- the golden model's retirements ----

  /** What the golden model prints of an instruction: no commit for x0. */
  ghost function GoldenExec(g: Arch): Exec {
    var w := InstrAt(ENTRY, g);
    Exec(g.pc, w,
         if Decode(w).regWrite && Rd(w) != 0 then Some((Rd(w), RdValueAt(ENTRY, w, g))) else None,
         if Decode(w).memWrite then Some((Outcome(w, g).alu, StoredValue(w, g))) else None)
  }

  ghost function GoldenRun(g: Arch, m: nat): seq<Exec> {
    seq(m, k requires 0 <= k < m => GoldenExec(RunAt(ENTRY, g, k)))
  }

  function RecordOf(e: Exec): Record {
    Record(e.pc, e.reg, e.mem)
  }

  function RecordsOf(es: seq<Exec>): seq<Record> {
    seq(|es|, k requires 0 <= k < |es| => RecordOf(es[k]))
  }

  // ---- one retirement ----

  lemma PcDelta(pc: Word)
    ensures Sub(Add(pc, ENTRY), Add(0, ENTRY)) == Sub(pc, 0)
  {
  }

  lemma ShiftMatches(v: Word)
    ensures ValuesMatch(v, Add(v, BASE_OFFSET)) && ValuesMatch(v, v)
  {
  }

  /** compare accepts the pair of records of one instruction. */
  lemma StatesAgree(p: Execution, ws: seq<Word>, ranges: seq<Range>, k: nat, g: Arch)
    requires Loaded(p.imem, ws, ranges) && Shifted(p.imem, |ws|, ENTRY, p.At(k), g)
    ensures Agree(RecordOf(GoldenExec(g)), CoreRecord(p, k), Add(0, ENTRY), 0)
  {
    hide Loaded, StateOk, Shifted, Site, Run, Start, Decode, Rd, RdValue, RdValueAt, Outcome, StoredValue, Add, Sub,
         ValuesMatch, Instr, InstrAt, Step, StepAt;
    ReachedState(p, ws, ranges, k);
    StepShifted(p.imem, ws, ranges, ENTRY, p.At(k), g);
    ShiftedParts(p.imem, |ws|, ENTRY, p.At(k), g);
    var w := p.WordAt(k);
    PcDelta(p.At(k).pc);
    ShiftMatches(RdValue(w, p.At(k)));
    ShiftMatches(Outcome(w, p.At(k)).alu);
  }

  // ---- the golden log ----

  /** A complete Spike log: its own boot stub, then m instructions of g. */
  ghost predicate GoldenLog(lines: seq<SpikeLine>, boot: seq<Exec>, g: Arch, m: nat, n: nat) {
    && LogOf(lines, boot + GoldenRun(g, m))
    && FixedShape(boot)
    && forall i :: 0 <= i < |boot| ==> !(ENTRY <= boot[i].pc <= ENTRY + ProgramEnd(n))
  }

  lemma GoldenShape(g: Arch, h: Arch)
    requires InstrAt(ENTRY, g) == InstrAt(ENTRY, h)
    ensures GoldenExec(g).reg.Some? == GoldenExec(h).reg.Some?
    ensures GoldenExec(g).mem.Some? == GoldenExec(h).mem.Some?
  {
    hide Decode, Rd, RdValueAt, Outcome, StoredValue, InstrAt;
  }

  /** The golden run stays on the relocated text. */
  lemma GoldenPc(p: Execution, ws: seq<Word>, ranges: seq<Range>, g: Arch, k: nat)
    requires Loaded(p.imem, ws, ranges) && GoldenStart(p, |ws|, ENTRY, g)
    ensures GoldenExec(RunAt(ENTRY, g, k)).pc == ENTRY + p.At(k).pc <= ENTRY + ProgramEnd(|ws|) < TWO_TO_32
  {
    hide Loaded, StateOk, Site, Run, RunAt, Start, Shifted, GoldenStart, InstrAt, Decode, Rd, RdValueAt, Outcome,
         StoredValue;
    ReachedState(p, ws, ranges, k);
    SiteBound(ws, ranges, p.At(k));
    NonEmpty(p.imem, ws, ranges);
    RunsShifted(p, ws, ranges, ENTRY, g, k);
    ShiftedParts(p.imem, |ws|, ENTRY, p.At(k), RunAt(ENTRY, g, k));
  }

  lemma ShapesFixed(p: Execution, ws: seq<Word>, ranges: seq<Range>,
                    lines: seq<SpikeLine>, boot: seq<Exec>, g: Arch, m: nat)
    requires Loaded(p.imem, ws, ranges) && GoldenStart(p, |ws|, ENTRY, g) && GoldenLog(lines, boot, g, m, |ws|)
    ensures FixedShape(boot + GoldenRun(g, m))
  {
    hide Loaded, GoldenStart, RunAt, GoldenExec, LogOf;
    var es := boot + GoldenRun(g, m);
    forall i, j | 0 <= i < j < |es| && KeyOf(es[i]) == KeyOf(es[j])
      ensures es[i].reg.Some? == es[j].reg.Some? && es[i].mem.Some? == es[j].mem.Some?
    {
      if i >= |boot| {
        GoldenKey(RunAt(ENTRY, g, i - |boot|));
        GoldenKey(RunAt(ENTRY, g, j - |boot|));
        GoldenShape(RunAt(ENTRY, g, i - |boot|), RunAt(ENTRY, g, j - |boot|));
      } else if j >= |boot| {
        GoldenPc(p, ws, ranges, g, j - |boot|);
      }
    }
  }

  lemma GoldenKey(g: Arch)
    ensures GoldenExec(g).pc == g.pc && GoldenExec(g).instr == InstrAt(ENTRY, g)
  {
    hide Decode, Rd, RdValueAt, Outcome, StoredValue, InstrAt;
  }

  ghost function SpikeRecords(lines: seq<SpikeLine>): seq<Record> {
    seq(|Plains(lines)|, k requires 0 <= k < |Plains(lines)| => RecordAt(lines, k))
  }

  /** What compare works on: parsed, trimmed, cut at the self-loop. */
  ghost predicate SpikeTrace(lines: seq<SpikeLine>, spike: seq<Record>) {
    exists trimmed :: Trimmed(SpikeRecords(lines), ENTRY, trimmed) && Truncated(trimmed, 3, spike)
  }

  ghost predicate SvTrace(lines: seq<Line>, sv: seq<Record>) {
    exists records :: SvRecords(ParseLines(lines), records) && Truncated(records, 3, sv)
  }

  /** compare_accuracy.py from the two logs to the score. */
  method CompareLogs(spikeLines: seq<SpikeLine>, svLines: seq<Line>)
    returns (total: nat, passed: nat, mismatches: seq<nat>)
    ensures exists spike, sv :: SpikeTrace(spikeLines, spike) && SvTrace(svLines, sv) &&
              total == Min(|spike|, |sv|) && passed == total - |Disagreements(spike, sv, total)| &&
              mismatches == Disagreements(spike, sv, total)[..Min(15, |Disagreements(spike, sv, total)|)]
  {
    hide Plains, RecordAt, Trimmed, Truncated, SvRecords, ParseLines, Disagreements;
    var spikeRaw := ParseSpikeLog(spikeLines);
    var svRaw := ParseSvLog(svLines);
    assert spikeRaw == SpikeRecords(spikeLines);
    var trimmed := TrimBootStub(spikeRaw, ENTRY);
    var spike := TruncateAtSelfLoop(trimmed, 3);
    var sv := TruncateAtSelfLoop(svRaw, 3);
    assert SpikeTrace(spikeLines, spike) && SvTrace(svLines, sv);
    total, passed, mismatches := Compare(spike, sv);
  }

  /** Parsing and trimming a golden log leaves the run itself. */
  lemma GoldenTrimmed(p: Execution, ws: seq<Word>, ranges: seq<Range>,
                      lines: seq<SpikeLine>, boot: seq<Exec>, g: Arch, m: nat, trimmed: seq<Record>)
    requires Loaded(p.imem, ws, ranges) && GoldenStart(p, |ws|, ENTRY, g) && GoldenLog(lines, boot, g, m, |ws|) && m > 0
    requires Trimmed(SpikeRecords(lines), ENTRY, trimmed)
    ensures trimmed == RecordsOf(GoldenRun(g, m))
  {
    hide Loaded, GoldenStart, RunAt, GoldenExec, Trimmed, FixedShape, RecordAt, Plains;
    var es := boot + GoldenRun(g, m);
    ShapesFixed(p, ws, ranges, lines, boot, g, m);
    forall k | 0 <= k < |es|
      ensures k < |Plains(lines)| && RecordAt(lines, k) == RecordOf(es[k])
    {
      RecordsAreExecutions(lines, es, k);
    }
    LogLength(lines, es);
    assert SpikeRecords(lines) == RecordsOf(boot) + RecordsOf(GoldenRun(g, m));
    GoldenPc(p, ws, ranges, g, 0);
    StartsAtZero(p);
    StubTrimmed(RecordsOf(boot), RecordsOf(GoldenRun(g, m)), ENTRY, trimmed);
  }

  lemma LogLength(lines: seq<SpikeLine>, es: seq<Exec>)
    requires LogOf(lines, es)
    ensures |Plains(lines)| == |es|
  {
    hide Plains, Commits;
  }

  // ---- both traces end in the same self-loop ----

  /** Only the epilogue repeats its pc. */
  lemma OnlyEpilogueRepeats(imem: InstrMem, ws: seq<Word>, ranges: seq<Range>, s: Arch)
    requires Loaded(imem, ws, ranges) && StateOk(ws, ranges, s) && Site(s) < Epilogue(|ws|)
    ensures Step(imem, s).pc != s.pc
  {
    var a := Site(s) - PREAMBLE_WORDS;
    hide Loaded, StateOk, Step, Stream, LoopInPlace, Site, Trip;
    NonEmpty(imem, ws, ranges);
    SiteBound(ws, ranges, s);
    StepKeepsState(imem, ws, ranges, s);
    SiteBound(ws, ranges, Step(imem, s));
    if a < StreamStart(|ws|) {
      SetUpKeepsState(imem, ws, ranges, s);
    } else if InAnyRange(a, ranges) {
      var j :| 0 <= j < |ranges| && InRange(a, ranges[j]);
      LoopKeepsState(imem, ws, ranges, s, j);
      LoopAt(ws, ranges, j);
      LoopLength(ws, ranges[j]);
    } else {
      TopLevelKeepsState(imem, ws, ranges, s);
    }
  }

  ghost predicate ArrivesAt(p: Execution, n: nat, e: nat) {
    forall k: nat :: Site(p.At(k)) == Epilogue(n) <==> k >= e
  }

  lemma EpiloguePc(p: Execution, ws: seq<Word>, ranges: seq<Range>, e: nat, k: nat)
    requires Loaded(p.imem, ws, ranges) && ArrivesAt(p, |ws|, e)
    ensures k >= e ==> p.At(k).pc == 4 * Epilogue(|ws|)
    ensures k < e ==> p.At(k + 1).pc != p.At(k).pc
  {
    hide Loaded, StateOk, Site, Run, Start, Step;
    ReachedState(p, ws, ranges, k);
    SiteBound(ws, ranges, p.At(k));
    AtStep(p, k);
    if k < e {
      OnlyEpilogueRepeats(p.imem, ws, ranges, p.At(k));
    }
  }

  /** What is left of a trace of r retirements that reaches the epilogue after e. */
  function Kept(e: nat, r: nat): nat {
    if r >= e + 3 then e + 1 else r
  }

  lemma NoEarlyRun(p: Execution, ws: seq<Word>, ranges: seq<Range>, e: nat, r: nat, k: nat)
    requires Loaded(p.imem, ws, ranges) && ArrivesAt(p, |ws|, e) && k < e
    ensures !SamePc(CoreTrace(p, r), k, 3)
  {
    hide Loaded, Site, Run, Start, ArrivesAt;
    EpiloguePc(p, ws, ranges, e, k);
    CorePc(p, k);
    CorePc(p, k + 1);
    var t := CoreTrace(p, r);
    assert k + 1 < r ==> t[k + 1].pc != t[k].pc;
  }

  lemma CoreRepeats(p: Execution, ws: seq<Word>, ranges: seq<Range>, e: nat, r: nat)
    requires Loaded(p.imem, ws, ranges) && ArrivesAt(p, |ws|, e) && r >= e + 3
    ensures FirstRun(CoreTrace(p, r), e, 3)
  {
    hide Loaded, Site, Run, Start, ArrivesAt, CoreRecord;
    var t := CoreTrace(p, r);
    forall k | e <= k < e + 3
      ensures t[k].pc == 4 * Epilogue(|ws|)
    {
      CorePc(p, k);
      EpiloguePc(p, ws, ranges, e, k);
    }
    forall k: nat | k < e
      ensures !SamePc(t, k, 3)
    {
      NoEarlyRun(p, ws, ranges, e, r, k);
    }
  }

  /** Where the core's trace is cut. */
  lemma CoreCut(p: Execution, ws: seq<Word>, ranges: seq<Range>, e: nat, r: nat, sv: seq<Record>)
    requires Loaded(p.imem, ws, ranges) && ArrivesAt(p, |ws|, e) && Truncated(CoreTrace(p, r), 3, sv)
    ensures |sv| == Kept(e, r)
  {
    hide Loaded, Site, Run, Start, ArrivesAt, CoreRecord;
    if r >= e + 3 {
      CoreRepeats(p, ws, ranges, e, r);
    } else if |sv| > 0 && FirstRun(CoreTrace(p, r), |sv| - 1, 3) {
      NoEarlyRun(p, ws, ranges, e, r, |sv| - 1);
      assert false;
    }
  }

  /** The golden trace is cut where the core's trace of the same length is. */
  lemma GoldenCut(p: Execution, ws: seq<Word>, ranges: seq<Range>, e: nat, g: Arch, m: nat, spike: seq<Record>)
    requires Loaded(p.imem, ws, ranges) && ArrivesAt(p, |ws|, e) && GoldenStart(p, |ws|, ENTRY, g)
    requires Truncated(RecordsOf(GoldenRun(g, m)), 3, spike)
    ensures |spike| == Kept(e, m)
  {
    hide Loaded, ArrivesAt, GoldenStart, Truncated, CoreTrace, GoldenRun, RecordsOf, PcsShifted;
    TracesShifted(p, ws, ranges, g, m, m);
    TraceLengths(p, g, m, m);
    TruncatedPrefix(RecordsOf(GoldenRun(g, m)), spike);
    CutShifted(CoreTrace(p, m), RecordsOf(GoldenRun(g, m)), ENTRY, 3, spike);
    CoreCut(p, ws, ranges, e, m, CoreTrace(p, m)[..|spike|]);
  }

  lemma CorePc(p: Execution, k: nat)
    ensures CoreRecord(p, k).pc == p.At(k).pc
  {
    hide Decode, Rd, RdValue, Outcome, StoredValue, Run, Start, Instr;
  }

  lemma TracesShifted(p: Execution, ws: seq<Word>, ranges: seq<Range>, g: Arch, r: nat, m: nat)
    requires Loaded(p.imem, ws, ranges) && GoldenStart(p, |ws|, ENTRY, g)
    ensures PcsShifted(CoreTrace(p, r), RecordsOf(GoldenRun(g, m)), ENTRY)
  {
    hide Loaded, GoldenStart, RunAt, GoldenExec, Run, Start, CoreRecord;
    forall k | 0 <= k < r && k < m
      ensures RecordsOf(GoldenRun(g, m))[k].pc == Add(CoreTrace(p, r)[k].pc, ENTRY)
    {
      CorePc(p, k);
      GoldenPc(p, ws, ranges, g, k);
    }
  }

  // ---- the score ----

  /** No false alarm: for every generated program, wherever either simulator is
      stopped, no pair of retirements that compare looks at fails a check. */
  lemma NoFalseAlarm(p: Execution, ws: seq<Word>, ranges: seq<Range>, slots: LB.Slots, n: nat, sv: seq<Record>,
                     g: Arch, m: nat, boot: seq<Exec>, lines: seq<SpikeLine>, spike: seq<Record>)
    requires Loaded(p.imem, ws, ranges) && SvTrace(LogAfter(p, slots, n).lines, sv)
    requires GoldenStart(p, |ws|, ENTRY, g) && GoldenLog(lines, boot, g, m, |ws|) && m > 0 && SpikeTrace(lines, spike)
    ensures Disagreements(spike, sv, Min(|spike|, |sv|)) == [] && AllSame(spike, sv, Min(|spike|, |sv|))
  {
    hide Loaded, GoldenStart, GoldenLog, CoreTrace, GoldenRun, RecordsOf, Truncated, Trimmed, SvRecords, ParseLines,
         Retired, LogAfter, Reached, Disagreements, SpikeRecords;
    var r, t := Retired(p, slots, n), Min(|spike|, |sv|);
    var trimmed := GoldenPart(p, ws, ranges, g, m, boot, lines, spike);
    var records := CorePart(p, ws, ranges, slots, n, sv);
    TruncatedPrefix(records, sv);
    TruncatedPrefix(trimmed, spike);
    TraceLengths(p, g, r, m);
    if t > 0 {
      PrefixesAgree(p, ws, ranges, g, r, m, t, sv, spike);
    } else {
      NothingCompared(spike, sv);
    }
    ScoreMeans(spike, sv, t);
  }

  /** The golden trace is the program's run, cut at its self-loop. */
  lemma GoldenPart(p: Execution, ws: seq<Word>, ranges: seq<Range>,
                   g: Arch, m: nat, boot: seq<Exec>, lines: seq<SpikeLine>, spike: seq<Record>)
    returns (trimmed: seq<Record>)
    requires Loaded(p.imem, ws, ranges) && GoldenStart(p, |ws|, ENTRY, g) && GoldenLog(lines, boot, g, m, |ws|) && m > 0
    requires SpikeTrace(lines, spike)
    ensures trimmed == RecordsOf(GoldenRun(g, m)) && Truncated(trimmed, 3, spike)
  {
    hide Loaded, GoldenStart, GoldenLog, GoldenRun, RecordsOf, Truncated, Trimmed, SpikeRecords;
    trimmed :| Trimmed(SpikeRecords(lines), ENTRY, trimmed) && Truncated(trimmed, 3, spike);
    GoldenTrimmed(p, ws, ranges, lines, boot, g, m, trimmed);
  }

  /** The core's trace is the program's run, cut at its self-loop. */
  lemma CorePart(p: Execution, ws: seq<Word>, ranges: seq<Range>, slots: LB.Slots, n: nat, sv: seq<Record>)
    returns (records: seq<Record>)
    requires Loaded(p.imem, ws, ranges) && SvTrace(LogAfter(p, slots, n).lines, sv)
    ensures records == CoreTrace(p, Retired(p, slots, n)) && Truncated(records, 3, sv)
  {
    hide Loaded, CoreTrace, Truncated, SvRecords, ParseLines, Retired, LogAfter, Reached, WellBehaved, PcsUpTo,
         RegsUpTo, MemsUpTo;
    GeneratedIsWellBehaved(p, ws, ranges);
    LogIsSequentialTrace(p, slots, n);
    records :| SvRecords(ParseLines(LogAfter(p, slots, n).lines), records) && Truncated(records, 3, sv);
    var r := Retired(p, slots, n);
    ParsedTrace(p, r, MemIndex(Reached(p, slots, n), r), records);
  }

  /** Full marks, at whatever budgets: both traces are cut right after the first
      epilogue retirement if they hold three of them and not at all otherwise, and
      every pair of retirements both hold passes every check. */
  lemma GeneratedProgramScoresFully(p: Execution, ws: seq<Word>, ranges: seq<Range>, e: nat,
                                    slots: LB.Slots, n: nat, sv: seq<Record>,
                                    g: Arch, m: nat, boot: seq<Exec>, lines: seq<SpikeLine>, spike: seq<Record>)
    requires Loaded(p.imem, ws, ranges) && ArrivesAt(p, |ws|, e) && SvTrace(LogAfter(p, slots, n).lines, sv)
    requires GoldenStart(p, |ws|, ENTRY, g) && GoldenLog(lines, boot, g, m, |ws|) && m > 0 && SpikeTrace(lines, spike)
    ensures |sv| == Kept(e, Retired(p, slots, n)) && |spike| == Kept(e, m)
    ensures Disagreements(spike, sv, Min(|spike|, |sv|)) == []
  {
    hide Loaded, GoldenStart, GoldenLog, ArrivesAt, GoldenRun, CoreTrace, RecordsOf, Truncated, SvTrace, SpikeTrace,
         Retired, LogAfter, Disagreements;
    var trimmed := GoldenPart(p, ws, ranges, g, m, boot, lines, spike);
    var records := CorePart(p, ws, ranges, slots, n, sv);
    CoreCut(p, ws, ranges, e, Retired(p, slots, n), sv);
    GoldenCut(p, ws, ranges, e, g, m, spike);
    NoFalseAlarm(p, ws, ranges, slots, n, sv, g, m, boot, lines, spike);
  }

  lemma TraceLengths(p: Execution, g: Arch, r: nat, m: nat)
    ensures |CoreTrace(p, r)| == r && |RecordsOf(GoldenRun(g, m))| == m
  {
  }

  lemma TruncatedPrefix(records: seq<Record>, r: seq<Record>)
    requires Truncated(records, 3, r)
    ensures |r| <= |records| && r == records[..|r|]
  {
  }

  lemma PrefixesAgree(p: Execution, ws: seq<Word>, ranges: seq<Range>, g: Arch, r: nat, m: nat, t: nat,
                      sv: seq<Record>, spike: seq<Record>)
    requires Loaded(p.imem, ws, ranges) && GoldenStart(p, |ws|, ENTRY, g) && 0 < t <= |sv| <= r && t <= |spike| <= m
    requires sv == CoreTrace(p, r)[..|sv|] && spike == RecordsOf(GoldenRun(g, m))[..|spike|]
    ensures Disagreements(spike, sv, t) == []
  {
    hide Loaded, GoldenStart, RunAt, GoldenExec, Run, Start, CoreRecord, Agree, Disagreements, Shifted;
    forall k | 0 <= k < t
      ensures AgreeAt(spike, sv, k)
    {
      RunsShifted(p, ws, ranges, ENTRY, g, k);
      StatesAgree(p, ws, ranges, k, RunAt(ENTRY, g, k));
      GoldenPc(p, ws, ranges, g, 0);
      CorePc(p, 0);
      StartsAtZero(p);
    }
    FullScore(spike, sv, t);
  }

  /** With the testbench's budget the core's trace reaches the epilogue, so all the
      golden model has retired up to there is compared, however early it was
      stopped, and passes. Four instructions past the generator's estimate, that is
      the whole program. */
  lemma AccuracyRunIsPerfect(p: Execution, ws: seq<Word>, ranges: seq<Range>, slots: LB.Slots, n: nat, sv: seq<Record>,
                             g: Arch, m: nat, boot: seq<Exec>, lines: seq<SpikeLine>, spike: seq<Record>)
    returns (e: nat)
    requires Loaded(p.imem, ws, ranges)
    requires LogAfter(p, slots, n).wbIdx >= MAX_RETIRE && SvTrace(LogAfter(p, slots, n).lines, sv)
    requires GoldenStart(p, |ws|, ENTRY, g) && GoldenLog(lines, boot, g, m, |ws|) && m > 0 && SpikeTrace(lines, spike)
    ensures ArrivesAt(p, |ws|, e) && |sv| == e + 1 <= EstimatedRetirements(ws, ranges) + 2
    ensures |spike| == Kept(e, m) <= |sv| + 1
    ensures m >= EstimatedRetirements(ws, ranges) + 4 ==> |spike| == |sv|
    ensures Disagreements(spike, sv, Min(|spike|, |sv|)) == []
  {
    hide Loaded, GoldenStart, RunAt, GoldenExec, Run, Start, GoldenLog, SvTrace, SpikeTrace, Retired, LogAfter, Reached,
         WellBehaved, Disagreements, EstimatedRetirements, Site, ParseLines, PcsUpTo, RegsUpTo, MemsUpTo, Stream;
    NonEmpty(p.imem, ws, ranges);
    e := ProgramTerminates(p, ws, ranges);
    EstimateIsSmall(p, ws, ranges);
    GeneratedIsWellBehaved(p, ws, ranges);
    LogIsSequentialTrace(p, slots, n);
    GeneratedProgramScoresFully(p, ws, ranges, e, slots, n, sv, g, m, boot, lines, spike);
  }
}
