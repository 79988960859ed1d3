/**
 What the predictor says after any history of resolved branches and jumps, and
 that the history it sees in the core is the program's own.
 */
module PredictorHistory {
  import opened Wrappers
  import opened Words
  import opened Datapath
  import opened Sequential
  import opened Execution
  import opened Predictor
  import opened Invariant
  import opened Preservation
  import opened Refinement
  import opened Timing
  import C = Core
  import LB = LoopBuffer

  datatype Resolution = Resolution(pc: Word, taken: bool, target: Word)

  /** The table after a history, from reset. */
  function Trained(h: seq<Resolution>): Table {
    if h == [] then ResetTable()
    else
      var last := h[|h| - 1];
      Train(Trained(h[..|h| - 1]), last.pc, last.taken, last.target)
  }

  // ---- what a history amounts to for one address ----

  /** The two addresses share an entry. */
  predicate Shares(a: Word, b: Word) {
    a / 4 % 64 == b / 4 % 64
  }

  /** Taken resolutions less not-taken ones at that entry, from 1 on, held between 0
      and 3 all the way. */
  function Count(h: seq<Resolution>, pc: Word): int {
    if h == [] then 1
    else
      var c, last := Count(h[..|h| - 1], pc), h[|h| - 1];
      if !Shares(last.pc, pc) then c
      else if last.taken then (if c + 1 > 3 then 3 else c + 1)
      else if c - 1 < 0 then 0 else c - 1
  }

  function LastTaken(h: seq<Resolution>, pc: Word): Option<Resolution> {
    if h == [] then None
    else
      var last := h[|h| - 1];
      if last.taken && Shares(last.pc, pc) then Some(last) else LastTaken(h[..|h| - 1], pc)
  }

  lemma SharesIndex(a: Word, b: Word)
    ensures Shares(a, b) <==> Index(a) == Index(b)
  {
  }

  lemma {:induction false} EntryIs(h: seq<Resolution>, pc: Word)
    ensures var e, last := Trained(h)[Index(pc)], LastTaken(h, pc);
            && e.counter == Count(h, pc) && e.valid == last.Some?
            && (last.Some? ==> e.tag == Tag(last.value.pc) && e.target == last.value.target && Shares(last.value.pc, pc))
  {
    hide Index, Tag, Shares;
    if h != [] {
      var last := h[|h| - 1];
      EntryIs(h[..|h| - 1], pc);
      SharesIndex(last.pc, pc);
    }
  }

  /** A branch is predicted exactly if the count at its entry is at least 2 and the
      last taken resolution there was its own; the target is that one's. */
  lemma PredictionIs(h: seq<Resolution>, pc: Word)
    requires pc % 4 == 0 && forall i :: 0 <= i < |h| ==> h[i].pc % 4 == 0
    ensures PredictTaken(Trained(h), pc) <==>
            Count(h, pc) >= 2 && LastTaken(h, pc).Some? && LastTaken(h, pc).value.pc == pc
    ensures PredictTaken(Trained(h), pc) ==> PredictTarget(Trained(h), pc) == LastTaken(h, pc).value.target
  {
    hide Index, Tag, Shares;
    EntryIs(h, pc);
    LastIsAligned(h, pc);
    if LastTaken(h, pc).Some? {
      var last := LastTaken(h, pc).value;
      SharesIndex(last.pc, pc);
      if Tag(last.pc) == Tag(pc) {
        SameIndexSameTag(last.pc, pc);
      }
    }
  }

  lemma {:induction false} LastIsAligned(h: seq<Resolution>, pc: Word)
    requires forall i :: 0 <= i < |h| ==> h[i].pc % 4 == 0
    ensures LastTaken(h, pc).Some? ==> LastTaken(h, pc).value.pc % 4 == 0
  {
    hide Shares;
    if h != [] {
      LastIsAligned(h[..|h| - 1], pc);
    }
  }

  // ---- in the core ----

  /** The branches and jumps among the first k instructions of the run. */
  ghost function History(p: Execution, k: nat): seq<Resolution> {
    if k == 0 then []
    else if !IsControlFlow(p.WordAt(k - 1)) then History(p, k - 1)
    else
      var x := p.OutcomeAt(k - 1);
      History(p, k - 1) + [Resolution(p.At(k - 1).pc, x.taken, x.target)]
  }

  lemma {:induction false} HistoryAligned(p: Execution, k: nat)
    requires WellBehaved(p)
    ensures forall i :: 0 <= i < |History(p, k)| ==> History(p, k)[i].pc % 4 == 0
  {
    hide Run, Start, Outcome, IsControlFlow, Instr, WellBehaved;
    if k > 0 {
      HistoryAligned(p, k - 1);
      GoodAt(p, k - 1);
    }
  }

  /** What EX hands to the predictor. */
  lemma TrainedByEx(p: Execution, slots: LB.Slots, n: nat)
    requires WellBehaved(p)
    ensures var c, k := Reached(p, slots, n), ExIndex(p, slots, n);
            && C.Resolving(c) == (c.idex.valid && IsControlFlow(p.WordAt(k)))
            && (C.Resolving(c) ==>
                  c.idex.pc == p.At(k).pc && C.ActualTaken(c) == p.OutcomeAt(k).taken
                  && C.ExOut(c).target == p.OutcomeAt(k).target)
  {
    hide Decode, ImmGen, Fetch, Rs1, Rs2, Rd, Funct3, Run, Resolved, ReadReg, C.ExOut, C.FwdRs1, C.FwdRs2,
         WellBehaved, BackEnd, TableSound, LoopInvariant, Outcome, IsControlFlow, Retired, LoadSeparated, Reached;
    var c, r := Reached(p, slots, n), Retired(p, slots, n);
    ReachedInv(p, slots, n);
    if c.idex.valid {
      ExOutCorrect(p, c, r);
      ControlFlowByDecode(p.WordAt(HeadIndex(c, r)));
    }
  }

  /** In every cycle the table is what the history before the instruction in EX
      makes of it, stalls, squashes and replays or not. */
  lemma {:induction false} TableIsHistory(p: Execution, slots: LB.Slots, n: nat)
    requires WellBehaved(p)
    ensures Reached(p, slots, n).bp == Trained(History(p, ExIndex(p, slots, n)))
  {
    hide WellBehaved, C.Next, C.Reset, C.Resolving, C.ActualTaken, C.ExOut, Train, HeadIndex, IsControlFlow, Run,
         Outcome, UsesLoad, Mispredicted, HeadDepth, Retired;
    if n == 0 {
      ResetTrained(p, slots);
    } else {
      TableIsHistory(p, slots, n - 1);
      TrainedByEx(p, slots, n - 1);
      Advance(p, slots, n - 1);
      NextTable(p, Reached(p, slots, n - 1));
      var h := History(p, ExIndex(p, slots, n - 1));
      var h' := History(p, ExIndex(p, slots, n));
      assert h' == h || (|h'| == |h| + 1 && h'[..|h|] == h);
    }
  }

  lemma ResetTrained(p: Execution, slots: LB.Slots)
    ensures Reached(p, slots, 0).bp == ResetTable() && ExIndex(p, slots, 0) == 0
  {
  }

  /** So in every cycle of a class program the prediction for any address is decided
      by the instructions executed before. */
  lemma PredictionIsHistory(p: Execution, slots: LB.Slots, n: nat, pc: Word)
    requires WellBehaved(p) && pc % 4 == 0
    ensures var h, t := History(p, ExIndex(p, slots, n)), Reached(p, slots, n).bp;
            && (PredictTaken(t, pc) <==>
                  Count(h, pc) >= 2 && LastTaken(h, pc).Some? && LastTaken(h, pc).value.pc == pc)
            && (PredictTaken(t, pc) ==> PredictTarget(t, pc) == LastTaken(h, pc).value.target)
  {
    hide WellBehaved, Reached, ExIndex, History, Count, LastTaken, PredictTaken, PredictTarget, Trained;
    var k := ExIndex(p, slots, n);
    TableIsHistory(p, slots, n);
    HistoryAligned(p, k);
    PredictionIs(History(p, k), pc);
  }
}
