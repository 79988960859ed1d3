/**
 spike_log_parser.py from classified lines on: commit lines are queued by
 (pc, instruction) and handed out first in, first out.
 */
module SpikeLog {
  import opened Wrappers
  import opened Words
  import opened TraceCompare

  type Key = (nat, nat)

  /** A register number or an address, and the value written there. */
  type Commit = (nat, Word)

  /** Other stands for every line that is counted or skipped but not used:
      warnings, exceptions, loads' commit lines, bare commits, noise. */
  datatype SpikeLine =
    | Plain(pc: nat, instr: nat)
    | RegCommit(pc: nat, instr: nat, rd: nat, value: nat)
    | MemCommit(pc: nat, instr: nat, addr: nat, value: nat)
    | Other

  // ---- what each line contributes ----

  function RegPart(l: SpikeLine): (Key, Option<Commit>) {
    match l
    case RegCommit(pc, instr, rd, v) => ((pc, instr), Some((rd, Wrap(v))))
    case _ => ((0, 0), None)
  }

  function MemPart(l: SpikeLine): (Key, Option<Commit>) {
    match l
    case MemCommit(pc, instr, addr, v) => ((pc, instr), Some((addr, Wrap(v))))
    case _ => ((0, 0), None)
  }

  /** The commits of one key, in order. */
  function Commits<L>(xs: seq<L>, part: L -> (Key, Option<Commit>), key: Key): seq<Commit> {
    if xs == [] then []
    else
      var (k, v) := part(xs[|xs| - 1]);
      Commits(xs[..|xs| - 1], part, key) + if k == key && v.Some? then [v.value] else []
  }

  /** One key per disassembly line, in order; addresses are cut to 32 bits. */
  function Plains(lines: seq<SpikeLine>): seq<Key> {
    if lines == [] then []
    else
      var l := lines[|lines| - 1];
      Plains(lines[..|lines| - 1]) + if l.Plain? then [(Wrap(l.pc), Wrap(l.instr))] else []
  }

  function Occurrences(keys: seq<Key>, n: nat, key: Key): nat
    requires n <= |keys|
  {
    if n == 0 then 0 else Occurrences(keys, n - 1, key) + if keys[n - 1] == key then 1 else 0
  }

  function Nth<T>(q: seq<T>, i: nat): Option<T> {
    if i < |q| then Some(q[i]) else None
  }

  function After<T>(q: seq<T>, i: nat): seq<T> {
    if i <= |q| then q[i..] else []
  }

  /** Record k takes the commit queued for the same occurrence of its key. */
  function RecordAt(lines: seq<SpikeLine>, k: nat): Record
    requires k < |Plains(lines)|
  {
    var keys := Plains(lines);
    var key, n := keys[k], Occurrences(keys, k, keys[k]);
    Record(Wrap(key.0), Nth(Commits(lines, RegPart, key), n), Nth(Commits(lines, MemPart, key), n))
  }

  // ---- parse_spike_log ----

  function Queue<T>(queues: map<Key, seq<T>>, key: Key): seq<T> {
    if key in queues then queues[key] else []
  }

  /** setdefault(key, []).append(v) */
  method Enqueue<T>(queues: map<Key, seq<T>>, key: Key, v: T) returns (queues': map<Key, seq<T>>)
    ensures forall k :: Queue(queues', k) == if k == key then Queue(queues, k) + [v] else Queue(queues, k)
  {
    queues' := queues[key := Queue(queues, key) + [v]];
  }

  /** pop(0) if there is anything to pop */
  method Dequeue<T>(queues: map<Key, seq<T>>, key: Key) returns (head: Option<T>, queues': map<Key, seq<T>>)
    ensures head == Nth(Queue(queues, key), 0)
    ensures forall k :: Queue(queues', k) == if k == key then After(Queue(queues, k), 1) else Queue(queues, k)
  {
    if key in queues && |queues[key]| > 0 {
      head := Some(queues[key][0]);
      queues' := queues[key := queues[key][1..]];
    } else {
      head, queues' := None, queues;
    }
  }

  lemma AfterNext<T>(q: seq<T>, n: nat)
    ensures Nth(After(q, n), 0) == Nth(q, n) && After(After(q, n), 1) == After(q, n + 1)
  {
  }

  function OneCommit(part: (Key, Option<Commit>), key: Key): seq<Commit> {
    if part.0 == key && part.1.Some? then [part.1.value] else []
  }

  /** What line i adds. */
  lemma NextLine(lines: seq<SpikeLine>, i: nat, part: SpikeLine -> (Key, Option<Commit>))
    requires i < |lines|
    ensures forall k :: Commits(lines[..i + 1], part, k) == Commits(lines[..i], part, k) + OneCommit(part(lines[i]), k)
    ensures Plains(lines[..i + 1]) ==
            Plains(lines[..i]) + if lines[i].Plain? then [(Wrap(lines[i].pc), Wrap(lines[i].instr))] else []
  {
    hide Wrap;
    assert lines[..i + 1][..i] == lines[..i];
  }

  lemma NothingCollected(part: SpikeLine -> (Key, Option<Commit>))
    ensures forall k :: Commits([], part, k) == []
    ensures Plains([]) == []
  {
  }

  method CollectLines(lines: seq<SpikeLine>)
    returns (keys: seq<Key>, regs: map<Key, seq<Commit>>, mems: map<Key, seq<Commit>>)
    ensures keys == Plains(lines)
    ensures forall k :: Queue(regs, k) == Commits(lines, RegPart, k)
    ensures forall k :: Queue(mems, k) == Commits(lines, MemPart, k)
  {
    hide Wrap, Commits, Plains;
    keys, regs, mems := [], map[], map[];
    NothingCollected(RegPart);
    NothingCollected(MemPart);
    for i := 0 to |lines|
      invariant keys == Plains(lines[..i])
      invariant forall k :: Queue(regs, k) == Commits(lines[..i], RegPart, k)
      invariant forall k :: Queue(mems, k) == Commits(lines[..i], MemPart, k)
    {
      NextLine(lines, i, RegPart);
      NextLine(lines, i, MemPart);
      match lines[i] {
        case RegCommit(pc, instr, rd, v) => regs := Enqueue(regs, (pc, instr), (rd, Wrap(v)));
        case MemCommit(pc, instr, addr, v) => mems := Enqueue(mems, (pc, instr), (addr, Wrap(v)));
        case Plain(pc, instr) => keys := keys + [(Wrap(pc), Wrap(instr))];
        case Other =>
      }
    }
    assert lines[..|lines|] == lines;
  }

  /** What is left in the queues when the first k records are out. */
  ghost predicate Remaining(queues: map<Key, seq<Commit>>, lines: seq<SpikeLine>,
                            part: SpikeLine -> (Key, Option<Commit>), keys: seq<Key>, k: nat)
    requires k <= |keys|
  {
    forall key :: Queue(queues, key) == After(Commits(lines, part, key), Occurrences(keys, k, key))
  }

  lemma RemainingStep(queues: map<Key, seq<Commit>>, queues': map<Key, seq<Commit>>, head: Option<Commit>,
                      lines: seq<SpikeLine>, part: SpikeLine -> (Key, Option<Commit>), keys: seq<Key>, k: nat)
    requires k < |keys| && Remaining(queues, lines, part, keys, k)
    requires head == Nth(Queue(queues, keys[k]), 0)
    requires forall key ::
               Queue(queues', key) == if key == keys[k] then After(Queue(queues, key), 1) else Queue(queues, key)
    ensures Remaining(queues', lines, part, keys, k + 1)
    ensures head == Nth(Commits(lines, part, keys[k]), Occurrences(keys, k, keys[k]))
  {
    hide Commits, After, Nth, Queue;
    AfterNext(Commits(lines, part, keys[k]), Occurrences(keys, k, keys[k]));
  }

  method ParseSpikeLog(lines: seq<SpikeLine>) returns (records: seq<Record>)
    ensures |records| == |Plains(lines)|
    ensures forall k :: 0 <= k < |records| ==> records[k] == RecordAt(lines, k)
  {
    hide Wrap, Commits, Plains, Queue, Nth, Remaining, Occurrences;
    var keys, regs, mems := CollectLines(lines);
    NothingTaken(regs, lines, RegPart, keys);
    NothingTaken(mems, lines, MemPart, keys);
    records := [];
    for k := 0 to |keys|
      invariant |records| == k
      invariant Remaining(regs, lines, RegPart, keys, k) && Remaining(mems, lines, MemPart, keys, k)
      invariant forall j :: 0 <= j < k ==> records[j] == RecordAt(lines, j)
    {
      var key := keys[k];
      var reg, regs' := Dequeue(regs, key);
      var mem, mems' := Dequeue(mems, key);
      RemainingStep(regs, regs', reg, lines, RegPart, keys, k);
      RemainingStep(mems, mems', mem, lines, MemPart, keys, k);
      regs, mems := regs', mems';
      records := records + [Record(Wrap(key.0), reg, mem)];
    }
  }

  lemma NothingTaken(queues: map<Key, seq<Commit>>, lines: seq<SpikeLine>,
                     part: SpikeLine -> (Key, Option<Commit>), keys: seq<Key>)
    requires forall key :: Queue(queues, key) == Commits(lines, part, key)
    ensures Remaining(queues, lines, part, keys, 0)
  {
    hide Commits, Queue;
  }

  // ---- what was executed ----

  /** One executed instruction and what it committed. */
  datatype Exec = Exec(pc: Word, instr: Word, reg: Option<Commit>, mem: Option<Commit>)

  function KeyOf(e: Exec): Key { (e.pc, e.instr) }
  function ExecReg(e: Exec): (Key, Option<Commit>) { (KeyOf(e), e.reg) }
  function ExecMem(e: Exec): (Key, Option<Commit>) { (KeyOf(e), e.mem) }

  function Keys(es: seq<Exec>): seq<Key> {
    seq(|es|, i requires 0 <= i < |es| => KeyOf(es[i]))
  }

  /** A complete log of es: a disassembly line per execution in order, and for
      each key its commits in order, however the lines of different keys and
      kinds interleave. */
  ghost predicate LogOf(lines: seq<SpikeLine>, es: seq<Exec>) {
    && Plains(lines) == Keys(es)
    && (forall key :: Commits(lines, RegPart, key) == Commits(es, ExecReg, key))
    && (forall key :: Commits(lines, MemPart, key) == Commits(es, ExecMem, key))
  }

  /** No execution that commits nothing comes before one of the same key that
      commits something. */
  ghost predicate CommitsFirst(es: seq<Exec>, part: Exec -> (Key, Option<Commit>)) {
    forall i, j :: 0 <= i < j < |es| && part(es[i]).0 == part(es[j]).0 && part(es[j]).1.Some? ==> part(es[i]).1.Some?
  }

  function CommitAt(es: seq<Exec>, part: Exec -> (Key, Option<Commit>), k: nat): Option<Commit>
    requires k < |es|
  {
    Nth(Commits(es, part, KeyOf(es[k])), Occurrences(Keys(es), k, KeyOf(es[k])))
  }

  lemma CommitsStep<L>(xs: seq<L>, part: L -> (Key, Option<Commit>), key: Key, n: nat)
    requires n < |xs|
    ensures Commits(xs[..n + 1], part, key) ==
            Commits(xs[..n], part, key) +
            if part(xs[n]).0 == key && part(xs[n]).1.Some? then [part(xs[n]).1.value] else []
  {
    assert xs[..n + 1][..n] == xs[..n];
  }

  lemma {:induction false} CommitsPrefix<L>(xs: seq<L>, part: L -> (Key, Option<Commit>), key: Key, n: nat, m: nat)
    requires n <= m <= |xs|
    ensures Commits(xs[..n], part, key) <= Commits(xs[..m], part, key)
  {
    hide Commits;
    if n < m {
      CommitsPrefix(xs, part, key, n, m - 1);
      CommitsStep(xs, part, key, m - 1);
    }
  }

  ghost predicate KeysOfPart(part: Exec -> (Key, Option<Commit>)) {
    forall e :: part(e).0 == KeyOf(e)
  }

  /** At most one commit per occurrence; exactly one if none is missing. */
  lemma {:induction false} CommitsCount(es: seq<Exec>, part: Exec -> (Key, Option<Commit>), key: Key, n: nat)
    requires n <= |es| && KeysOfPart(part)
    ensures |Commits(es[..n], part, key)| <= Occurrences(Keys(es), n, key)
    ensures (forall i :: 0 <= i < n && KeyOf(es[i]) == key ==> part(es[i]).1.Some?) ==>
              |Commits(es[..n], part, key)| == Occurrences(Keys(es), n, key)
  {
    hide Commits;
    if n > 0 {
      CommitsCount(es, part, key, n - 1);
      CommitsStep(es, part, key, n - 1);
    } else {
      CommitsEmpty(es, part, key);
    }
  }

  lemma CommitsEmpty(es: seq<Exec>, part: Exec -> (Key, Option<Commit>), key: Key)
    ensures Commits(es[..0], part, key) == []
  {
  }

  /** Commits after the last one of a key. */
  lemma {:induction false} NoMoreCommits(es: seq<Exec>, part: Exec -> (Key, Option<Commit>), key: Key, n: nat, m: nat)
    requires n <= m <= |es| && KeysOfPart(part)
    requires forall i :: n <= i < m && KeyOf(es[i]) == key ==> part(es[i]).1.None?
    ensures Commits(es[..m], part, key) == Commits(es[..n], part, key)
  {
    hide Commits;
    if n < m {
      NoMoreCommits(es, part, key, n, m - 1);
      CommitsStep(es, part, key, m - 1);
    }
  }

  lemma {:induction false} OccurrencesGrow(keys: seq<Key>, key: Key, n: nat, m: nat)
    requires n <= m <= |keys|
    ensures Occurrences(keys, n, key) <= Occurrences(keys, m, key)
  {
    if n < m {
      OccurrencesGrow(keys, key, n, m - 1);
    }
  }

  lemma WholePrefix<T>(s: seq<T>)
    ensures s[..|s|] == s
  {
  }

  /** If commits come first, each execution gets its own. */
  lemma OwnCommit(es: seq<Exec>, part: Exec -> (Key, Option<Commit>), k: nat)
    requires k < |es| && KeysOfPart(part) && CommitsFirst(es, part)
    ensures CommitAt(es, part, k) == part(es[k]).1
  {
    hide Commits;
    var key := KeyOf(es[k]);
    CommitsCount(es, part, key, k);
    WholePrefix(es);
    if part(es[k]).1.Some? {
      CommitsStep(es, part, key, k);
      CommitsPrefix(es, part, key, k + 1, |es|);
    } else {
      NoMoreCommits(es, part, key, k, |es|);
    }
  }

  /** FIFO correlation, exactly: every execution gets its own commit if and only
      if, key by key, those that commit come before those that do not. */
  lemma CorrelationExact(es: seq<Exec>, part: Exec -> (Key, Option<Commit>))
    requires KeysOfPart(part)
    ensures CommitsFirst(es, part) <==> forall k :: 0 <= k < |es| ==> CommitAt(es, part, k) == part(es[k]).1
  {
    if CommitsFirst(es, part) {
      forall k | 0 <= k < |es|
        ensures CommitAt(es, part, k) == part(es[k]).1
      {
        OwnCommit(es, part, k);
      }
    } else {
      MissingCommitMisleads(es, part);
    }
  }

  lemma MissingCommitMisleads(es: seq<Exec>, part: Exec -> (Key, Option<Commit>))
    requires KeysOfPart(part) && !CommitsFirst(es, part)
    ensures exists k :: 0 <= k < |es| && CommitAt(es, part, k) != part(es[k]).1
  {
    hide Commits;
    var i, j :| 0 <= i < j < |es| && part(es[i]).0 == part(es[j]).0 && part(es[j]).1.Some? && part(es[i]).1.None?;
    OccurrencesGrow(Keys(es), KeyOf(es[i]), i, j);
    assert CommitAt(es, part, i) != part(es[i]).1 || CommitAt(es, part, j) != part(es[j]).1;
  }

  /** Instructions whose executions always commit, or never do. */
  ghost predicate FixedShape(es: seq<Exec>) {
    forall i, j :: 0 <= i < j < |es| && KeyOf(es[i]) == KeyOf(es[j]) ==>
      es[i].reg.Some? == es[j].reg.Some? && es[i].mem.Some? == es[j].mem.Some?
  }

  /** In a complete log of instructions of fixed shape, record k is the k-th
      execution, whatever the length and however often addresses repeat. */
  lemma RecordsAreExecutions(lines: seq<SpikeLine>, es: seq<Exec>, k: nat)
    requires LogOf(lines, es) && FixedShape(es) && k < |es|
    ensures k < |Plains(lines)| && RecordAt(lines, k) == Record(es[k].pc, es[k].reg, es[k].mem)
  {
    hide Commits, Plains, Occurrences;
    OwnCommit(es, ExecReg, k);
    OwnCommit(es, ExecMem, k);
    assert Keys(es)[k] == KeyOf(es[k]);
  }

  /** A commit line whose pc and instruction both fit 32 bits, or no commit. */
  predicate NarrowLine(l: SpikeLine) {
    l.RegCommit? || l.MemCommit? ==> l.pc < TWO_TO_32 && l.instr < TWO_TO_32
  }

  function NarrowLines(lines: seq<SpikeLine>): seq<SpikeLine> {
    if lines == [] then []
    else NarrowLines(lines[..|lines| - 1]) + if NarrowLine(lines[|lines| - 1]) then [lines[|lines| - 1]] else []
  }

  /** Record keys are cut to 32 bits but commit keys are not, so a commit printed
      with a wider address is lost: without those lines every record is the same. */
  lemma WideCommitsAreLost(lines: seq<SpikeLine>, k: nat)
    requires k < |Plains(lines)|
    ensures Plains(NarrowLines(lines)) == Plains(lines) && RecordAt(NarrowLines(lines), k) == RecordAt(lines, k)
  {
    NarrowPlains(lines);
    KeysAreNarrow(lines);
    NarrowCommits(lines, Plains(lines)[k]);
    hide Plains, Commits, NarrowLines, Wrap;
  }

  lemma {:induction false} NarrowPlains(lines: seq<SpikeLine>)
    ensures Plains(NarrowLines(lines)) == Plains(lines)
  {
    if lines != [] {
      var rest, l := lines[..|lines| - 1], lines[|lines| - 1];
      NarrowPlains(rest);
      PlainsAppend(NarrowLines(rest), [l]);
      assert NarrowLines(rest) + [] == NarrowLines(rest);
      assert lines == rest + [l];
      PlainsAppend(rest, [l]);
    }
  }

  lemma {:induction false} KeysAreNarrow(lines: seq<SpikeLine>)
    ensures forall k :: 0 <= k < |Plains(lines)| ==> Plains(lines)[k].0 < TWO_TO_32 && Plains(lines)[k].1 < TWO_TO_32
  {
    if lines != [] {
      KeysAreNarrow(lines[..|lines| - 1]);
    }
  }

  lemma {:induction false} NarrowCommits(lines: seq<SpikeLine>, key: Key)
    requires key.0 < TWO_TO_32 && key.1 < TWO_TO_32
    ensures Commits(NarrowLines(lines), RegPart, key) == Commits(lines, RegPart, key)
    ensures Commits(NarrowLines(lines), MemPart, key) == Commits(lines, MemPart, key)
  {
    hide Wrap;
    if lines != [] {
      var rest, l := lines[..|lines| - 1], lines[|lines| - 1];
      NarrowCommits(rest, key);
      CommitsAppend(NarrowLines(rest), [l], RegPart, key);
      CommitsAppend(NarrowLines(rest), [l], MemPart, key);
      assert NarrowLines(rest) + [] == NarrowLines(rest);
    }
  }

  // ---- the log as Spike writes it, execution by execution ----

  function LinesOf(e: Exec): seq<SpikeLine> {
    [Plain(e.pc, e.instr)]
    + (if e.reg.Some? then [RegCommit(e.pc, e.instr, e.reg.value.0, e.reg.value.1)] else [])
    + (if e.mem.Some? then [MemCommit(e.pc, e.instr, e.mem.value.0, e.mem.value.1)] else [])
  }

  function Printed(es: seq<Exec>): seq<SpikeLine> {
    if es == [] then [] else Printed(es[..|es| - 1]) + LinesOf(es[|es| - 1])
  }

  lemma {:induction false} CommitsAppend<L>(xs: seq<L>, ys: seq<L>, part: L -> (Key, Option<Commit>), key: Key)
    ensures Commits(xs + ys, part, key) == Commits(xs, part, key) + Commits(ys, part, key)
  {
    if ys == [] {
      assert xs + ys == xs;
    } else {
      assert (xs + ys)[..|xs + ys| - 1] == xs + ys[..|ys| - 1];
      CommitsAppend(xs, ys[..|ys| - 1], part, key);
    }
  }

  lemma {:induction false} PlainsAppend(xs: seq<SpikeLine>, ys: seq<SpikeLine>)
    ensures Plains(xs + ys) == Plains(xs) + Plains(ys)
  {
    if ys == [] {
      assert xs + ys == xs;
    } else {
      assert (xs + ys)[..|xs + ys| - 1] == xs + ys[..|ys| - 1];
      PlainsAppend(xs, ys[..|ys| - 1]);
    }
  }

  lemma OneLine(l: SpikeLine, key: Key)
    ensures Plains([l]) == if l.Plain? then [(Wrap(l.pc), Wrap(l.instr))] else []
    ensures forall part :: Commits([l], part, key) ==
              if part(l).0 == key && part(l).1.Some? then [part(l).1.value] else []
  {
    hide Wrap;
    assert [l][..0] == [];
  }

  lemma NoLines(key: Key)
    ensures Plains([]) == []
    ensures Commits([], RegPart, key) == [] && Commits([], MemPart, key) == []
  {
  }

  lemma WordsUnwrapped(a: Word)
    ensures Wrap(a) == a
  {
  }

  lemma LinesOfOne(e: Exec, key: Key)
    ensures Plains(LinesOf(e)) == [KeyOf(e)]
    ensures Commits(LinesOf(e), RegPart, key) == if KeyOf(e) == key && e.reg.Some? then [e.reg.value] else []
    ensures Commits(LinesOf(e), MemPart, key) == if KeyOf(e) == key && e.mem.Some? then [e.mem.value] else []
  {
    hide Plains, Commits, Wrap;
    var plain := [Plain(e.pc, e.instr)];
    var reg := if e.reg.Some? then [RegCommit(e.pc, e.instr, e.reg.value.0, e.reg.value.1)] else [];
    var mem := if e.mem.Some? then [MemCommit(e.pc, e.instr, e.mem.value.0, e.mem.value.1)] else [];
    NoLines(key);
    OneLine(plain[0], key);
    WordsUnwrapped(e.pc);
    WordsUnwrapped(e.instr);
    if e.reg.Some? {
      OneLine(reg[0], key);
      WordsUnwrapped(e.reg.value.1);
    }
    if e.mem.Some? {
      OneLine(mem[0], key);
      WordsUnwrapped(e.mem.value.1);
    }
    CommitsAppend(plain + reg, mem, RegPart, key);
    CommitsAppend(plain, reg, RegPart, key);
    CommitsAppend(plain + reg, mem, MemPart, key);
    CommitsAppend(plain, reg, MemPart, key);
    PlainsAppend(plain + reg, mem);
    PlainsAppend(plain, reg);
  }

  lemma {:induction false} PrintedIsLogOf(es: seq<Exec>)
    ensures LogOf(Printed(es), es)
  {
    hide Plains, Commits, LinesOf;
    if es == [] {
      NothingPrinted();
    } else {
      var rest, e := es[..|es| - 1], es[|es| - 1];
      PrintedIsLogOf(rest);
      PlainsAppend(Printed(rest), LinesOf(e));
      LinesOfOne(e, KeyOf(e));
      assert Keys(es) == Keys(rest) + [KeyOf(e)];
      forall key
        ensures Commits(Printed(es), RegPart, key) == Commits(es, ExecReg, key)
        ensures Commits(Printed(es), MemPart, key) == Commits(es, ExecMem, key)
      {
        CommitsOfLast(es, key);
        CommitsAppend(Printed(rest), LinesOf(e), RegPart, key);
        CommitsAppend(Printed(rest), LinesOf(e), MemPart, key);
        LinesOfOne(e, key);
      }
    }
  }

  lemma NothingPrinted()
    ensures LogOf(Printed([]), [])
  {
  }

  lemma CommitsOfLast(es: seq<Exec>, key: Key)
    requires |es| > 0
    ensures var rest, e := es[..|es| - 1], es[|es| - 1];
            && Commits(es, ExecReg, key) ==
               Commits(rest, ExecReg, key) + (if KeyOf(e) == key && e.reg.Some? then [e.reg.value] else [])
            && Commits(es, ExecMem, key) ==
               Commits(rest, ExecMem, key) + (if KeyOf(e) == key && e.mem.Some? then [e.mem.value] else [])
  {
  }
}
