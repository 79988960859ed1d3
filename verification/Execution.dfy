/**
 A program together with its sequential run from reset, and the conditions on
 that run under which the loop buffer is invisible.
 */
module Execution {
  import opened Words
  import opened Datapath
  import opened Sequential

  datatype Execution = Execution(imem: InstrMem, ram: DataMem) {

    ghost function At(k: nat): Arch {
      Run(imem, Start(ram), k)
    }

    ghost function WordAt(k: nat): Word {
      Instr(imem, At(k))
    }

    ghost function OutcomeAt(k: nat): ExResult {
      Outcome(WordAt(k), At(k))
    }
  }

  lemma StartsAtZero(p: Execution)
    ensures p.At(0).pc == 0
  {
  }

  lemma AtNext(p: Execution, k: nat)
    ensures p.At(k + 1) ==
            Arch(StepPc(p.WordAt(k), p.At(k)), StepRegs(p.WordAt(k), p.At(k)), StepRam(p.WordAt(k), p.At(k)))
  {
  }

  /** Instruction k is a branch or jump at a that was taken to t. */
  ghost predicate TakenTo(p: Execution, k: nat, a: Word, t: Word) {
    p.At(k).pc == a && IsControlFlow(p.WordAt(k)) && p.OutcomeAt(k).taken && p.At(k + 1).pc == t
  }

  /** Some execution of the instruction at a was taken to t. */
  ghost predicate Resolved(p: Execution, a: Word, t: Word) {
    exists k: nat :: TakenTo(p, k, a, t)
  }

  /** One of the first n instructions was: the one at a, taken to t. */
  ghost predicate ResolvedBefore(p: Execution, n: nat, a: Word, t: Word) {
    exists k: nat :: k < n && TakenTo(p, k, a, t)
  }

  /** Instruction k is the first one, or follows a branch or jump. */
  ghost predicate LandsOn(p: Execution, k: nat) {
    k == 0 || IsControlFlow(p.WordAt(k - 1))
  }

  ghost predicate LandsOutside(p: Execution, k: nat, top: Word, branch: Word) {
    LandsOn(p, k) ==> !(top < p.At(k).pc <= branch)
  }

  /** The instruction before the transfer does not wait for a load. */
  predicate NoTransferStall(imem: InstrMem, branch: Word) {
    branch >= 8 &&
    var w, load := Fetch(imem, branch - 4), Fetch(imem, branch - 8);
    !LoadUseHazard(Rs1(w), Rs2(w), Decode(load).memRead, Rd(load))
  }

  ghost predicate NoEntry(p: Execution, top: Word, branch: Word) {
    forall k: nat :: LandsOutside(p, k, top, branch)
  }

  predicate StraightWords(imem: InstrMem, from: Word, to: int) {
    forall x: Word :: from <= x < to && x % 4 == 0 ==> !IsControlFlow(Fetch(imem, x))
  }

  /** The loop from top to the backward transfer at branch has a straight-line
      body of at least two words that is entered only at its top, and no
      load-use stall can hold the transfer in IF. */
  ghost predicate StraightLoop(p: Execution, top: Word, branch: Word) {
    && top + 8 <= branch && branch + 4 < TWO_TO_32
    && StraightWords(p.imem, top, branch)
    && NoEntry(p, top, branch)
    && NoTransferStall(p.imem, branch)
  }

  /** A loop of more than 16 words whose first 16 are straight-line code fills the
      capture before its transfer is reached. The rest of its body, which may hold
      loops of its own, is free as long as the transfer is only fallen into. */
  ghost predicate OverflowingLoop(p: Execution, top: Word, branch: Word) {
    && top + 64 <= branch && branch + 4 < TWO_TO_32
    && StraightWords(p.imem, top, top + 64)
    && !IsControlFlow(Fetch(p.imem, branch - 4))
    && NoEntry(p, branch - 4, branch)
    && NoTransferStall(p.imem, branch)
  }

  ghost predicate CleanLoop(p: Execution, top: Word, branch: Word) {
    StraightLoop(p, top, branch) || OverflowingLoop(p, top, branch)
  }

  ghost predicate GoodTransfer(p: Execution, k: nat) {
    && p.At(k).pc % 4 == 0
    && (TakenTo(p, k, p.At(k).pc, p.At(k + 1).pc) && p.At(k + 1).pc < p.At(k).pc ==>
          CleanLoop(p, p.At(k + 1).pc, p.At(k).pc))
  }

  /** The class of programs the pipeline is proved correct for. */
  ghost predicate WellBehaved(p: Execution) {
    forall k: nat :: GoodTransfer(p, k)
  }

  lemma ResolvedFacts(p: Execution, a: Word, t: Word)
    requires WellBehaved(p) && Resolved(p, a, t)
    ensures a % 4 == 0 && t % 4 == 0
    ensures IsControlFlow(Fetch(p.imem, a))
    ensures t < a ==> CleanLoop(p, t, a)
  {
    var k: nat :| TakenTo(p, k, a, t);
    assert GoodTransfer(p, k) && GoodTransfer(p, k + 1);
  }

  /** A resolved target is somewhere the run lands. */
  lemma ResolvedLands(p: Execution, a: Word, t: Word, top: Word, branch: Word)
    requires NoEntry(p, top, branch) && Resolved(p, a, t)
    ensures !(top < t <= branch)
  {
    hide Run, Outcome, IsControlFlow, Instr;
    var k: nat :| TakenTo(p, k, a, t);
    assert LandsOutside(p, k + 1, top, branch);
  }
}
