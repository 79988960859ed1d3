/**
 tb_commit_log.sv as the source writes it: counters and a log updated at each
 clock edge, around a core that is ticked until enough has retired.
 */
module Testbench {
  import opened Datapath
  import opened Core
  import opened Execution
  import opened Refinement
  import opened CommitLog
  import opened Pipeline
  import opened Invariant
  import opened Timing
  import LB = LoopBuffer

  /** The budget, and the hard timeout of 4000000 time units at 20 per cycle. */
  const MAX_RETIRE := 20000
  const TIMEOUT_CYCLES := 200000

  class CommitLogger {
    var memCommitIdx: nat
    var wbCommitIdx: nat
    var lines: seq<Line>

    ghost function Contents(): LogState
      reads this
    {
      LogState(memCommitIdx, wbCommitIdx, lines)
    }

    constructor ()
      ensures Contents() == EMPTY_LOG
    {
      memCommitIdx, wbCommitIdx, lines := 0, 0, [];
    }

    /** c is the core's state just before the edge. */
    method OnPosedge(exMem: ExMem, memWb: MemWb, ghost c: Core)
      requires exMem == c.exmem && memWb == c.memwb
      modifies this
      ensures Contents() == Observe(old(Contents()), c)
    {
      if exMem.valid {
        if exMem.memWrite {
          lines := lines + [MemLine(memCommitIdx, exMem.alu, exMem.storeData)];
        }
        memCommitIdx := memCommitIdx + 1;
      }
      if memWb.valid {
        lines := lines + [PcLine(wbCommitIdx, memWb.pc)];
        if memWb.regWrite {
          lines := lines + [RegLine(wbCommitIdx, memWb.rd, WbData(memWb))];
        }
        wbCommitIdx := wbCommitIdx + 1;
      }
      hide WbData;
    }
  }

  /** The hard timeout is never what ends the run of a program in the class. */
  lemma TimeoutIsNeverReached(p: Execution, slots: LB.Slots)
    requires WellBehaved(p)
    ensures LogAfter(p, slots, TIMEOUT_CYCLES).wbIdx >= MAX_RETIRE
  {
    hide Next, Inv, WellBehaved, Reset, Retired, ParseLines, PcsUpTo, RegsUpTo, MemsUpTo, LogAfter, Reached;
    RetiredBy(p, slots, MAX_RETIRE, TIMEOUT_CYCLES);
    LogIsSequentialTrace(p, slots, TIMEOUT_CYCLES);
  }

  /** The testbench's run: reset, then clock until maxRetire instructions have
      retired or the hard timeout is reached. Its lines are the log of some
      number of cycles from reset, whatever the capture slots held at power-up. */
  method RunTestbench(imem: InstrMem, data: DataMem, maxRetire: nat, maxCycles: nat) returns (lines: seq<Line>)
    ensures exists slots: LB.Slots, n: nat :: n <= maxCycles &&
              lines == LogAfter(Execution(imem, data), slots, n).lines &&
              (n == maxCycles || LogAfter(Execution(imem, data), slots, n).wbIdx >= maxRetire)
  {
    hide Next, Observe;
    ghost var p := Execution(imem, data);
    var core := new RiscvCore(data);
    var logger := new CommitLogger();
    ghost var slots := core.State().lb.slots;
    var cycles := 0;
    while logger.wbCommitIdx < maxRetire && cycles < maxCycles
      invariant cycles <= maxCycles && core.Valid()
      invariant fresh(core) && fresh(logger) && fresh(core.loopBuffer) && fresh(core.loopBuffer.slots) && fresh(core.ram)
      invariant fresh(core.regFile.rf) && fresh(core.predictor.bht) && fresh(core.predictor.btb)
      invariant fresh(core.predictor.btbValid) && fresh(core.predictor.btbTag)
      invariant core.State() == Reached(p, slots, cycles)
      invariant logger.Contents() == LogAfter(p, slots, cycles)
      decreases maxCycles - cycles
    {
      ghost var c := core.State();
      logger.OnPosedge(core.exMem, core.memWb, c);
      core.Tick(imem);
      cycles := cycles + 1;
      assert LogAfter(p, slots, cycles) == Observe(LogAfter(p, slots, cycles - 1), Reached(p, slots, cycles - 1));
    }
    lines := logger.lines;
    assert lines == LogAfter(p, slots, cycles).lines;
  }
}
