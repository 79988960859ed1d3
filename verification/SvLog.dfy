/**
 sv_log_parser.py: joining the testbench's numbered lines into records.
 */
module SvLog {
  import opened Wrappers
  import opened Words
  import opened Datapath
  import opened Sequential
  import opened Execution
  import opened CommitLog
  import opened TraceCompare

  function RegOf(q: Parsed, i: nat): Option<(nat, Word)> {
    if i in q.regs then Some((q.regs[i].0, q.regs[i].1)) else None
  }

  function MemOf(q: Parsed, i: nat): Option<(nat, Word)> {
    if i in q.mems then Some((q.mems[i].0, q.mems[i].1)) else None
  }

  /** The records numbered below n, in numeric order. */
  function RecordsBelow(q: Parsed, n: nat): seq<Record> {
    if n == 0 then []
    else
      RecordsBelow(q, n - 1) +
      if n - 1 in q.pcs then [Record(q.pcs[n - 1], RegOf(q, n - 1), MemOf(q, n - 1))] else []
  }

  ghost predicate SvRecords(q: Parsed, records: seq<Record>) {
    exists n: nat :: (forall i :: i in q.pcs ==> i < n) && records == RecordsBelow(q, n)
  }

  method ParseSvLog(lines: seq<Line>) returns (records: seq<Record>)
    ensures SvRecords(ParseLines(lines), records)
  {
    hide RegOf, MemOf;
    var q := Parsed(map[], map[], map[]);
    var bound := 0;
    for i := 0 to |lines|
      invariant q == ParseLines(lines[..i])
      invariant forall k :: k in q.pcs ==> k < bound
    {
      assert lines[..i + 1][..i] == lines[..i];
      match lines[i] {
        case PcLine(idx, pc) =>
          q := q.(pcs := q.pcs[idx := pc]);
          if idx >= bound {
            bound := idx + 1;
          }
        case RegLine(idx, rd, value) => q := q.(regs := q.regs[idx := (rd, value)]);
        case MemLine(idx, addr, value) => q := q.(mems := q.mems[idx := (addr, value)]);
      }
    }
    assert lines[..|lines|] == lines;
    records := [];
    for i := 0 to bound
      invariant records == RecordsBelow(q, i)
    {
      if i in q.pcs {
        records := records + [Record(q.pcs[i], RegOf(q, i), MemOf(q, i))];
      }
    }
  }

  lemma {:induction false} NothingAbove(q: Parsed, r: nat, n: nat)
    requires r <= n && forall i :: i in q.pcs ==> i < r
    ensures RecordsBelow(q, n) == RecordsBelow(q, r)
  {
    if r < n {
      NothingAbove(q, r, n - 1);
    }
  }

  // ---- the core's records ----

  /** What instruction k of the run shows in the core's log. */
  ghost function CoreRecord(p: Execution, k: nat): Record {
    var s, w := p.At(k), p.WordAt(k);
    Record(s.pc,
           if Decode(w).regWrite then Some((Rd(w), RdValue(w, s))) else None,
           if Decode(w).memWrite then Some((p.OutcomeAt(k).alu, StoredValue(w, s))) else None)
  }

  ghost function CoreTrace(p: Execution, r: nat): seq<Record> {
    seq(r, k requires 0 <= k < r => CoreRecord(p, k))
  }

  lemma {:induction false} TraceBelow(p: Execution, r: nat, m: nat, n: nat)
    requires n <= r <= m
    ensures RecordsBelow(Parsed(PcsUpTo(p, r), RegsUpTo(p, r), MemsUpTo(p, m)), n) == CoreTrace(p, n)
  {
    hide Decode, Rd, RdValue, StoredValue, Run, Outcome, Start, Instr;
    if n > 0 {
      TraceBelow(p, r, m, n - 1);
      assert CoreTrace(p, n) == CoreTrace(p, n - 1) + [CoreRecord(p, n - 1)];
    }
  }

  /** Joining the lines of a log of r retirements gives the first r records of
      the run, even when one more store has already been logged. */
  lemma ParsedTrace(p: Execution, r: nat, m: nat, records: seq<Record>)
    requires r <= m && SvRecords(Parsed(PcsUpTo(p, r), RegsUpTo(p, r), MemsUpTo(p, m)), records)
    ensures records == CoreTrace(p, r)
  {
    hide Decode, Rd, RdValue, StoredValue, Run, Outcome, Start, Instr, RecordsBelow, CoreTrace;
    var q := Parsed(PcsUpTo(p, r), RegsUpTo(p, r), MemsUpTo(p, m));
    var n: nat :| (forall i :: i in q.pcs ==> i < n) && records == RecordsBelow(q, n);
    if r > 0 {
      assert r - 1 in q.pcs;
    }
    assert r <= n;
    NothingAbove(q, r, n);
    TraceBelow(p, r, m, r);
  }
}
