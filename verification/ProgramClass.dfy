/**
 A condition on the program text that puts a program in the pipeline's class:
 everything but the targets of jalr can be read off the instruction words.
 */
module ProgramClass {
  import opened Words
  import opened Datapath
  import opened Sequential
  import opened Execution
  import opened GeneratedRun

  predicate IsDirect(w: Word) {
    Opcode(w) == OP_BRANCH || Opcode(w) == OP_JAL
  }

  function TargetOf(imem: InstrMem, a: Word): Word {
    Add(a, ImmGen(Fetch(imem, a)))
  }

  predicate DirectAt(imem: InstrMem, a: Word) {
    a % 4 == 0 && IsDirect(Fetch(imem, a))
  }

  ghost predicate NoDirectEntry(imem: InstrMem, top: Word, branch: Word) {
    forall b: Word :: DirectAt(imem, b) ==> !(top < TargetOf(imem, b) <= branch)
  }

  /** A loop of at least three words with a straight-line body that no branch or
      jump enters below its top, and no load-use pair just before its branch. */
  ghost predicate StraightText(imem: InstrMem, top: Word, branch: Word) {
    && top + 8 <= branch && branch + 4 < TWO_TO_32
    && StraightWords(imem, top, branch) && NoDirectEntry(imem, top, branch) && NoTransferStall(imem, branch)
  }

  /** A loop of more than 16 words, the first 16 and the last before its branch
      straight-line code, whose branch no other branch or jump goes to. It may
      hold loops of its own. */
  ghost predicate OverflowingText(imem: InstrMem, top: Word, branch: Word) {
    && top + 64 <= branch && branch + 4 < TWO_TO_32
    && StraightWords(imem, top, top + 64) && StraightWords(imem, branch - 4, branch)
    && NoDirectEntry(imem, branch - 4, branch) && NoTransferStall(imem, branch)
  }

  ghost predicate CleanText(imem: InstrMem, top: Word, branch: Word) {
    StraightText(imem, top, branch) || OverflowingText(imem, top, branch)
  }

  ghost predicate GoodDirect(imem: InstrMem, a: Word) {
    && TargetOf(imem, a) % 4 == 0
    && (TargetOf(imem, a) < a ==> CleanText(imem, TargetOf(imem, a), a))
  }

  ghost predicate GoodText(imem: InstrMem) {
    forall a: Word :: DirectAt(imem, a) ==> GoodDirect(imem, a)
  }

  /** The part of a loop from which entry is barred: all of it below its top, or
      its branch alone. */
  ghost predicate OutsideLoopOf(imem: InstrMem, a: Word, t: Word) {
    DirectAt(imem, a) && 4 <= a && TargetOf(imem, a) < a ==>
      if StraightText(imem, TargetOf(imem, a), a) then !(TargetOf(imem, a) < t <= a) else !(a - 4 < t <= a)
  }

  /** Every jalr the run executes goes forward, to a word outside all loops. */
  ghost predicate GoodJalr(p: Execution, k: nat) {
    Opcode(p.WordAt(k)) == OP_JALR ==>
      var t := p.At(k + 1).pc;
      t % 4 == 0 && t > p.At(k).pc && forall a: Word :: OutsideLoopOf(p.imem, a, t)
  }

  ghost predicate InClass(p: Execution) {
    GoodText(p.imem) && forall k: nat :: GoodJalr(p, k)
  }

  lemma NextAddress(p: Execution, k: nat)
    ensures var a, w := p.At(k).pc, p.WordAt(k);
            && w == Fetch(p.imem, a)
            && (!IsControlFlow(w) ==> p.At(k + 1).pc == Add(a, 4))
            && (IsDirect(w) ==> p.At(k + 1).pc == if p.OutcomeAt(k).taken then TargetOf(p.imem, a) else Add(a, 4))
  {
    hide Run, StepPc, StepRegs, StepRam, Outcome, Add, ImmGen, Start, Opcode;
    AtNext(p, k);
    var w := p.WordAt(k);
    if IsDirect(w) {
      DirectControlStep(w, p.At(k));
    } else if !IsControlFlow(w) {
      NonControlStep(w, p.At(k));
    }
  }

  lemma KindsOfControl(w: Word)
    ensures IsControlFlow(w) <==> IsDirect(w) || Opcode(w) == OP_JALR
  {
    hide Opcode;
  }

  lemma NextIsAligned(p: Execution, k: nat)
    requires InClass(p) && p.At(k).pc % 4 == 0
    ensures p.At(k + 1).pc % 4 == 0
  {
    hide Run, Start, Opcode, Add, Fetch, Outcome, TargetOf, OutsideLoopOf, Instr, CleanText;
    var a := p.At(k).pc;
    NextAddress(p, k);
    KindsOfControl(p.WordAt(k));
    AlignedSuccessor(a);
    assert GoodJalr(p, k);
    if IsDirect(p.WordAt(k)) {
      assert DirectAt(p.imem, a);
      assert GoodDirect(p.imem, a);
    }
  }

  lemma {:induction false} AlwaysAligned(p: Execution, k: nat)
    requires InClass(p)
    ensures p.At(k).pc % 4 == 0
  {
    hide InClass;
    if k > 0 {
      AlwaysAligned(p, k - 1);
      NextIsAligned(p, k - 1);
    }
  }

  /** Nor does a branch that is not taken fall into the loop. */
  lemma FallsOutside(imem: InstrMem, top: Word, branch: Word, a: Word)
    requires StraightWords(imem, top, branch) && a % 4 == 0 && top % 4 == 0 && IsControlFlow(Fetch(imem, a))
    requires branch + 4 < TWO_TO_32
    ensures !(top < Add(a, 4) <= branch)
  {
    hide Fetch, IsControlFlow;
  }

  /** Every jalr lands outside (top, branch]. */
  ghost predicate NoJalrEntry(p: Execution, top: Word, branch: Word) {
    forall k: nat :: Opcode(p.WordAt(k)) == OP_JALR ==> !(top < p.At(k + 1).pc <= branch)
  }

  /** The run lands only where branches, jumps and their fall-throughs can. */
  lemma LandsOutsideText(p: Execution, top: Word, branch: Word, k: nat)
    requires InClass(p) && top % 4 == 0 && branch + 4 < TWO_TO_32
    requires StraightWords(p.imem, top, branch) && NoDirectEntry(p.imem, top, branch) && NoJalrEntry(p, top, branch)
    ensures LandsOutside(p, k, top, branch)
  {
    hide Run, Start, Opcode, Add, Fetch, Outcome, TargetOf, NoJalrEntry, StraightWords, NoDirectEntry, InClass,
         IsControlFlow, Instr;
    if k == 0 {
      StartsAtZero(p);
    } else if LandsOn(p, k) {
      AlwaysAligned(p, k - 1);
      LandingTargets(p, top, branch, k - 1);
    }
  }

  lemma LandingTargets(p: Execution, top: Word, branch: Word, k: nat)
    requires top % 4 == 0 && branch + 4 < TWO_TO_32
    requires StraightWords(p.imem, top, branch) && NoDirectEntry(p.imem, top, branch) && NoJalrEntry(p, top, branch)
    requires p.At(k).pc % 4 == 0 && IsControlFlow(p.WordAt(k))
    ensures !(top < p.At(k + 1).pc <= branch)
  {
    hide Run, Start, Opcode, Add, Outcome, TargetOf, IsControlFlow, Fetch, Instr, StraightWords;
    NextAddress(p, k);
    KindsOfControl(p.WordAt(k));
    if IsDirect(p.WordAt(k)) {
      assert DirectAt(p.imem, p.At(k).pc);
      FallsOutside(p.imem, top, branch, p.At(k).pc);
    }
  }

  lemma JalrOutside(p: Execution, a: Word, top: Word)
    requires InClass(p) && DirectAt(p.imem, a) && 4 <= a && TargetOf(p.imem, a) < a
    requires if StraightText(p.imem, TargetOf(p.imem, a), a) then top == TargetOf(p.imem, a) else top == a - 4
    ensures NoJalrEntry(p, top, a)
  {
    hide Run, Start, Opcode, Outcome, TargetOf, Fetch, Instr, StraightText, GoodText, DirectAt;
    forall k: nat | Opcode(p.WordAt(k)) == OP_JALR
      ensures !(top < p.At(k + 1).pc <= a)
    {
      assert GoodJalr(p, k);
      assert OutsideLoopOf(p.imem, a, p.At(k + 1).pc);
    }
  }

  lemma NoEntryToText(p: Execution, top: Word, branch: Word)
    requires InClass(p) && top % 4 == 0 && branch + 4 < TWO_TO_32
    requires StraightWords(p.imem, top, branch) && NoDirectEntry(p.imem, top, branch) && NoJalrEntry(p, top, branch)
    ensures NoEntry(p, top, branch)
  {
    hide InClass, StraightWords, NoDirectEntry, NoJalrEntry, LandsOutside;
    forall k: nat
      ensures LandsOutside(p, k, top, branch)
    {
      LandsOutsideText(p, top, branch, k);
    }
  }

  lemma LoopIsClean(p: Execution, a: Word)
    requires InClass(p) && DirectAt(p.imem, a) && TargetOf(p.imem, a) < a
    ensures CleanLoop(p, TargetOf(p.imem, a), a)
  {
    hide InClass, TargetOf, Fetch, IsControlFlow, NoTransferStall, NoEntry, StraightWords, NoDirectEntry, NoJalrEntry,
         IsDirect;
    var top := TargetOf(p.imem, a);
    TextAt(p, a);
    if StraightText(p.imem, top, a) {
      JalrOutside(p, a, top);
      NoEntryToText(p, top, a);
    } else {
      JalrOutside(p, a, a - 4);
      NoEntryToText(p, a - 4, a);
      LastWord(p.imem, a);
    }
  }

  lemma LastWord(imem: InstrMem, a: Word)
    requires 4 <= a && a % 4 == 0 && StraightWords(imem, a - 4, a)
    ensures !IsControlFlow(Fetch(imem, a - 4))
  {
    hide Fetch, IsControlFlow;
  }

  lemma TextAt(p: Execution, a: Word)
    requires InClass(p) && DirectAt(p.imem, a)
    ensures GoodDirect(p.imem, a)
  {
    hide DirectAt, GoodDirect, GoodJalr;
  }

  /** Every program whose text is good and whose jalrs go forward is in the class
      the pipeline is proved correct for, whatever its data. */
  lemma ClassIsWellBehaved(p: Execution)
    requires InClass(p)
    ensures WellBehaved(p)
  {
    hide InClass, GoodTransfer;
    forall k: nat
      ensures GoodTransfer(p, k)
    {
      TransferIsGood(p, k);
    }
  }

  lemma TransferIsGood(p: Execution, k: nat)
    requires InClass(p)
    ensures GoodTransfer(p, k)
  {
    hide Run, Start, Opcode, Add, Outcome, TargetOf, CleanLoop, Fetch, Instr, OutsideLoopOf, GoodText;
    AlwaysAligned(p, k);
    NextAddress(p, k);
    KindsOfControl(p.WordAt(k));
    assert GoodJalr(p, k);
    if TakenTo(p, k, p.At(k).pc, p.At(k + 1).pc) && p.At(k + 1).pc < p.At(k).pc {
      LoopIsClean(p, p.At(k).pc);
    }
  }
}
