/**
 loop_buffer.sv: captures the body of a predicted backward loop and replays it
 while the fetch address is frozen.
 */
module LoopBuffer {
  import opened Words

  const DEPTH := 16

  datatype Phase = Idle | Recording | Looping | Invalid

  type Slots = s: seq<Word> | |s| == 16 witness seq(16, _ => 0)

  /** end is exclusive: the first address after the branch. */
  datatype LoopState = LoopState(phase: Phase, start: Word, end: Word, writePtr: nat, slots: Slots)

  datatype Inputs = Inputs(ifPc: Word, instructionIn: Word, predictTaken: bool, predictTarget: Word,
                           flush: bool, stall: bool)

  predicate Gated(lb: LoopState) {
    lb.phase == Looping
  }

  /** Word offset of ifPc from the loop's start, truncated to the 4 index bits. */
  function ReadIndex(lb: LoopState, ifPc: Word): (i: nat)
    ensures i < 16
  {
    Sub(ifPc, lb.start) / 4 % 16
  }

  lemma ReadIndexExact(lb: LoopState, ifPc: Word, j: nat)
    requires ifPc == lb.start + 4 * j && j < 16
    ensures ReadIndex(lb, ifPc) == j
  {
  }

  predicate ReadHits(lb: LoopState, ifPc: Word) {
    lb.phase == Looping && lb.start <= ifPc < lb.end && ReadIndex(lb, ifPc) < lb.writePtr
  }

  function InstructionOut(lb: LoopState, ifPc: Word, instructionIn: Word): Word {
    if ReadHits(lb, ifPc) then lb.slots[ReadIndex(lb, ifPc)] else instructionIn
  }

  predicate BackwardPrediction(i: Inputs) {
    i.predictTaken && i.predictTarget < i.ifPc
  }

  function Next(lb: LoopState, i: Inputs): LoopState {
    match lb.phase
    case Idle =>
      if !i.flush && BackwardPrediction(i) then
        LoopState(Recording, i.predictTarget, Add(i.ifPc, 4), 0, lb.slots)
      else
        lb
    case Recording =>
      if i.flush then lb.(phase := Invalid)
      else if i.stall then lb
      else if lb.writePtr >= DEPTH then lb.(phase := Invalid)
      else lb.(
        phase := if i.ifPc == Sub(lb.end, 4) then Looping else Recording,
        writePtr := lb.writePtr + 1,
        slots := lb.slots[lb.writePtr := i.instructionIn])
    case Looping =>
      if i.flush || i.ifPc < lb.start || i.ifPc >= lb.end then lb.(phase := Invalid) else lb
    case Invalid =>
      LoopState(Idle, 0, 0, 0, lb.slots)
  }

  class Buffer {
    var phase: Phase
    var loopStart: Word
    var loopEnd: Word
    var writePtr: nat
    const slots: array<Word>

    ghost predicate Valid() {
      slots.Length == DEPTH
    }

    ghost function Contents(): LoopState
      requires Valid()
      reads this, slots
    {
      LoopState(phase, loopStart, loopEnd, writePtr, slots[..])
    }

    /** Reset clears the registers but not the capture slots. */
    constructor ()
      ensures Valid() && fresh(slots)
      ensures Contents() == LoopState(Idle, 0, 0, 0, Contents().slots)
    {
      phase, loopStart, loopEnd, writePtr := Idle, 0, 0, 0;
      slots := new Word[DEPTH];
    }

    method Replay(ifPc: Word, instructionIn: Word) returns (instructionOut: Word)
      requires Valid()
      ensures instructionOut == InstructionOut(Contents(), ifPc, instructionIn)
    {
      var readIdx := Sub(ifPc, loopStart) / 4 % DEPTH;
      if phase == Looping && loopStart <= ifPc && ifPc < loopEnd && readIdx < writePtr {
        instructionOut := slots[readIdx];
      } else {
        instructionOut := instructionIn;
      }
    }

    method Clock(i: Inputs)
      requires Valid()
      modifies this, slots
      ensures Contents() == Next(old(Contents()), i)
    {
      if phase == Recording && !i.flush && !i.stall && writePtr < DEPTH {
        slots[writePtr] := i.instructionIn;
      }
      match phase {
        case Idle =>
          if !i.flush && i.predictTaken && i.predictTarget < i.ifPc {
            phase, loopStart, loopEnd, writePtr := Recording, i.predictTarget, Add(i.ifPc, 4), 0;
          }
        case Recording =>
          if i.flush {
            phase := Invalid;
          } else if i.stall {
          } else if writePtr >= DEPTH {
            phase := Invalid;
          } else {
            writePtr := writePtr + 1;
            if i.ifPc == Sub(loopEnd, 4) {
              phase := Looping;
            }
          }
        case Looping =>
          if i.flush {
            phase := Invalid;
          } else if i.ifPc < loopStart || i.ifPc >= loopEnd {
            phase := Invalid;
          }
        case Invalid =>
          loopStart, loopEnd, writePtr := 0, 0, 0;
          phase := Idle;
      }
    }
  }
}
