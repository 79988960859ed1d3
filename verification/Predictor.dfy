/**
 branch_predictor.sv: 64 direct-mapped entries, each a 2-bit counter, a target,
 a valid bit and a tag. The class updates the four arrays in place at the clock
 edge; a Table is their value, on which the properties are proved.
 */
module Predictor {
  import opened Words

  const ENTRIES := 64

  type Counter = x: int | 0 <= x < 4

  datatype Entry = Entry(counter: Counter, target: Word, valid: bool, tag: nat)

  type Table = s: seq<Entry> | |s| == 64 witness seq(64, _ => RESET_ENTRY)

  const RESET_ENTRY := Entry(1, 0, false, 0)

  function ResetTable(): Table {
    seq(64, _ => RESET_ENTRY)
  }

  /** pc[7:2] and pc[31:8]. */
  function Index(pc: Word): (i: nat)
    ensures i < 64
  {
    pc / 4 % 64
  }

  function Tag(pc: Word): nat {
    pc / 256
  }

  predicate PredictTaken(t: Table, pc: Word) {
    var e := t[Index(pc)];
    e.valid && e.tag == Tag(pc) && e.counter >= 2
  }

  function PredictTarget(t: Table, pc: Word): Word {
    t[Index(pc)].target
  }

  function Train(t: Table, pc: Word, taken: bool, target: Word): Table {
    var e := t[Index(pc)];
    if taken then
      t[Index(pc) := Entry(if e.counter != 3 then e.counter + 1 else 3, target, true, Tag(pc))]
    else
      t[Index(pc) := e.(counter := if e.counter != 0 then e.counter - 1 else 0)]
  }

  // ---- what training does ----

  /** Two taken resolutions in a row, and the branch is predicted taken to the
      latest target, whatever the table held. */
  lemma TwoTakenArePredicted(t: Table, pc: Word, first: Word, second: Word)
    ensures var t' := Train(Train(t, pc, true, first), pc, true, second);
            PredictTaken(t', pc) && PredictTarget(t', pc) == second
  {
    hide Index, Tag;
    var i := Index(pc);
    assert Train(t, pc, true, first)[i].counter >= 1;
  }

  /** Two not-taken resolutions in a row, and it is not; one is not enough once
      the counter is saturated. */
  lemma TwoNotTakenAreForgotten(t: Table, pc: Word, x: Word)
    ensures !PredictTaken(Train(Train(t, pc, false, x), pc, false, x), pc)
    ensures PredictTaken(t, pc) && t[Index(pc)].counter == 3 ==>
              PredictTaken(Train(t, pc, false, x), pc) && PredictTarget(Train(t, pc, false, x), pc) == PredictTarget(t, pc)
  {
    hide Index, Tag;
    assert Train(t, pc, false, x)[Index(pc)].counter <= 2;
  }

  lemma SameIndexSameTag(a: Word, b: Word)
    requires a % 4 == 0 && b % 4 == 0 && Index(a) == Index(b) && Tag(a) == Tag(b)
    ensures a == b
  {
    hide Index, Tag;
    FromIndexAndTag(a);
    FromIndexAndTag(b);
  }

  lemma FromIndexAndTag(a: Word)
    requires a % 4 == 0
    ensures a == Tag(a) * 256 + Index(a) * 4
  {
    assert a / 4 / 64 == a / 256;
  }

  /** A taken resolution is never served to another word: at the same index it
      evicts the other's entry, at another index nothing changes. */
  lemma TrainingIsPrivate(t: Table, pc: Word, target: Word, other: Word)
    requires pc % 4 == 0 && other % 4 == 0 && other != pc
    ensures var t' := Train(t, pc, true, target);
            if Index(other) == Index(pc) then !PredictTaken(t', other)
            else PredictTaken(t', other) == PredictTaken(t, other) && PredictTarget(t', other) == PredictTarget(t, other)
  {
    hide Index, Tag;
    if Index(other) == Index(pc) && Tag(other) == Tag(pc) {
      SameIndexSameTag(pc, other);
    }
  }

  class BranchPredictor {
    const bht: array<Counter>
    const btb: array<Word>
    const btbValid: array<bool>
    const btbTag: array<nat>

    ghost predicate Valid() {
      bht.Length == btb.Length == btbValid.Length == btbTag.Length == ENTRIES
    }

    ghost function Contents(): Table
      requires Valid()
      reads bht, btb, btbValid, btbTag
    {
      seq(64, i requires 0 <= i < 64 reads bht, btb, btbValid, btbTag => Entry(bht[i], btb[i], btbValid[i], btbTag[i]))
    }

    /** The reset loop. */
    constructor ()
      ensures Valid() && fresh(bht) && fresh(btb) && fresh(btbValid) && fresh(btbTag)
      ensures Contents() == ResetTable()
    {
      bht, btb, btbValid, btbTag := new Counter[ENTRIES], new Word[ENTRIES], new bool[ENTRIES], new nat[ENTRIES];
      new;
      for i := 0 to ENTRIES
        invariant forall k :: 0 <= k < i ==> bht[k] == 1 && btb[k] == 0 && !btbValid[k] && btbTag[k] == 0
      {
        bht[i], btbValid[i], btb[i], btbTag[i] := 1, false, 0, 0;
      }
    }

    method Lookup(ifPc: Word) returns (taken: bool, target: Word)
      requires Valid()
      ensures taken == PredictTaken(Contents(), ifPc) && target == PredictTarget(Contents(), ifPc)
    {
      var idx := Index(ifPc);
      taken := btbValid[idx] && btbTag[idx] == Tag(ifPc) && bht[idx] >= 2;
      target := btb[idx];
    }

    method Clock(trainValid: bool, trainPc: Word, trainTaken: bool, trainTarget: Word)
      requires Valid()
      modifies bht, btb, btbValid, btbTag
      ensures Contents() == if trainValid then Train(old(Contents()), trainPc, trainTaken, trainTarget) else old(Contents())
    {
      if trainValid {
        var idx := Index(trainPc);
        if trainTaken {
          if bht[idx] != 3 {
            bht[idx] := bht[idx] + 1;
          }
          btb[idx] := trainTarget;
          btbValid[idx] := true;
          btbTag[idx] := Tag(trainPc);
        } else if bht[idx] != 0 {
          bht[idx] := bht[idx] - 1;
        }
      }
    }
  }
}
