# A verified model of the RV32I pipeline and its accuracy test

The repository holds a five-stage RV32I core in SystemVerilog with a tagged branch predictor and a loop buffer that
replays small loops while the instruction-memory address is frozen (`rtl/`), an instruction-set simulator in C++
(`src/main.cpp`), and a test that runs random programs on the core and on Spike and compares every retirement
(`shared/spike/`). This project models all three in Dafny and proves what they are for.

`dafny verify dfyconfig.toml` checks everything.

## What is proved

1. **The fast core is invisible.** For every program in a stated class and every number of cycles, the testbench's log,
   joined by its two counters, is the trace of a one-instruction-at-a-time machine (`CommitLog.LogIsSequentialTrace`).
   One invariant (`Invariant.Inv`) carries forwarding, stalls, squashes, predictor contents and loop replay together.
   From it follow fetch transparency, gating safety, predictor soundness, operand correctness, squash precision, and
   the exact cycle in which every instruction executes and retires, counted in load-use pairs of the program and
   mispredicted branches of its run. In every cycle the predictor is what a two-bit count makes of the branches already
   executed (`PredictorHistory.PredictionIsHistory`). The loop buffer is also shown to do its work: a
   backward prediction whose loop has at most 16 words leads to replay within 33 cycles unless the program leaves the
   loop first, and then the address bus stays frozen until it does (`Engagement`).
2. **The class is what the programs need.** Every program the generator can emit is in it
   (`GeneratedClass.GeneratedIsWellBehaved`); so is every program whose text passes a static check and whose `jalr`s go
   forward (`ProgramClass.ClassIsWellBehaved`). Loops too long for the buffer may nest and branch after their first 16
   words; shorter ones must be straight-line code entered at the top. Outside the class the core is wrong: `Misfetches`
   follows three programs of at most eight words from reset, with a forward branch in a loop, a load-use pair just
   before a loop's branch, and a loop that goes by way of a word outside it, to a cycle in which the wrong word enters
   ID and on to a log that is the trace of no run. `LoopBufferLimits` says for any program what a replay returns, and
   exactly when that is right.
3. **All machines are RV32I, and agree.** What the manual says of each instruction is written down with bits, congruences
   and inequalities alone (`Isa`, `AluLaws`); every instruction of the RTL's subset in any run of the
   sequential machine does that (`Isa.RunMeetsIsa`), and so does every instruction of the C++ simulator, byte and
   half-word accesses, unsigned branches and ECALL included. Control unit, immediate generator, ALU flags and write-back agree with the C++ step on
   every supported word, and therefore over whole runs; for generated programs the pipeline's registers and data memory
   are those of the C++ simulator (`AddressWindow.PipelineMatchesSimulator`).
4. **Generated programs end.** A measure every instruction lowers, starting at the generator's own estimate, which is
   exact if and only if no branch or jump skips a word (`Termination.EstimateExactIff`); loops retire exactly the
   counted number of instructions; every data access is one of the 17 words from the
   program's end to 64 bytes beyond it.
5. **The accuracy test raises no false alarm.** The same program at another base address, with arbitrary registers left
   by a boot stub, differs only by the base. Through both logs, both parsers, both cuts and the comparison, every pair
   of retirements of every generated program passes, wherever either simulator is stopped
   (`Comparison.NoFalseAlarm`); how many pairs are compared is exact too (`Comparison.GeneratedProgramScoresFully`), and
   with the testbench's budget and a golden run four instructions past the generator's estimate it is the whole program
   (`Comparison.AccuracyRunIsPerfect`). What a pass leaves open is exact as well: a pair is accepted if and only
   if the records show the same retirement up to the base, register values and addresses up to their top bit
   (`TraceCompare.AgreeIsSame`, `TraceCompare.ScoreMeans`).

## How it is laid out

| files | what they model |
|---|---|
| Words, Bits, Wrappers | 32-bit words as integers with explicit wrap-around, bitwise or as addition of fields |
| Datapath, RegFile, Predictor, LoopBuffer, Core, Pipeline | the RTL: stateless units as functions, stateful units as classes proved against next-state functions |
| AluLaws, Isa | what the ALU computes and what each RV32I instruction does, independently of the code |
| Sequential, Execution, ProgramClass | the one-instruction machine, its runs, the class of programs |
| Invariant, Preservation, LoopPreservation, Refinement, Timing, Engagement, PredictorHistory | the pipeline proof |
| LoopBufferLimits, FetchTrace, Misfetches | where the loop buffer needs the class: what it does in general, runs of short programs on word numbers, and the three failing ones |
| CommitLog, Testbench, SvLog | the testbench's log and its parser |
| CppSimulator, Simulator, Equivalence | the C++ simulator and its agreement with the RTL's datapath |
| Encoding, Generator, GeneratedRun, GeneratedClass, AddressWindow, Termination | the program generator and how its programs run |
| Relocation, TraceCompare, SpikeLog, Comparison | the golden model's side and the comparison |

Where the code's comments claim more than the code does, the model follows the code:

- `rtl/riscv_core.sv:70-75` says the frozen word is never consumed while the address is gated, and
  `rtl/loop_buffer.sv:112-119` says leaving the loop costs nothing. Both hold for the class. In general a gated cycle
  whose read misses, as it does whenever fetch is outside the loop, takes the word of the loop's branch for its own
  (`LoopBufferLimits.MissFetchesBranch`), and `Misfetches.DetourIsMisfetched` is a run in which that happens.
- `shared/spike/gen_program.py:27`, its comments and its assertion message speak of a 256-byte data memory; the code and
  `rtl/data_mem.sv:10` use 4096 bytes.
- The estimate returned by `build_full_program` leaves out the base register's two words, so a run may retire up to two
  more (`Termination.ProgramTerminates`).
- `shared/spike/gen_program.py:404-413` reads as if a load only ever reads an offset already stored. It does not
  follow: forward branches skip stores. The comparison is proved for equal starting data windows instead.

## Model

| member | source | states |
|---|---|---|
| CommitLog.LogIsSequentialTrace | rtl/tb_commit_log.sv:79-94 | In every cycle of every program of the class the log joined by number is the sequential trace: pc and register lines of the r retired instructions, store lines of those and of at most one more |
| CommitLog.ObserveStep | rtl/tb_commit_log.sv:79-94 | One clock edge extends the log by exactly the commits of the instructions leaving MEM and WB, so the two counters always name the same instruction |
| CommitLog.AppendMem | rtl/tb_commit_log.sv:81-85 | The store line written from EX/MEM is the sequential store of the instruction whose number it carries |
| CommitLog.AppendWb | rtl/tb_commit_log.sv:87-92 | The pc and register lines written from MEM/WB are the sequential pc and rd value of the instruction whose number they carry |
| Refinement.NextPreservesInv | rtl/riscv_core.sv:34-395 | One clock edge of the whole core keeps the refinement invariant: pipeline contents are consecutive instructions of the run, register file and memory are the run's at WB and MEM, predictor and loop buffer are sound |
| Refinement.ReachedInv | rtl/riscv_core.sv:34-395 | The invariant holds in every reachable cycle |
| Refinement.FetchIsTransparent | rtl/riscv_core.sv:76-116 | Live, stalled or replayed, the word that enters ID is the instruction-memory word at the fetch address |
| Refinement.GatingIsSafe | rtl/loop_buffer.sv:51-160 | While the address is frozen fetch is inside the captured loop, the read hits, the address does not move, only a flush ends the replay, and the loop has at most 16 words, all captured |
| Refinement.FrozenAtLoopBranch | rtl/riscv_core.sv:60-66 | For any program at all, in every gated cycle the frozen address is that of the loop's branch |
| Refinement.FittingLoopsAreStraight | rtl/loop_buffer.sv:98-99 | Whatever loop the buffer is armed for in a class program, if it has at most 16 words it is straight-line code entered at its top |
| Refinement.OnlyLoopBranchTrains | rtl/branch_predictor.sv:66-91 | From the start of a straight loop's capture to the next flush only the loop's own branch trains the predictor, taken to the top, and it stays predicted so |
| Refinement.PredictionsAreSound | rtl/branch_predictor.sv:57-92 | In every reachable state a prediction is made only at a branch or jump and names a target it was taken to by an instruction already resolved in EX, despite index aliasing |
| Refinement.OperandsAreArchitectural | rtl/riscv_core.sv:258-316 | Under any stalls and bubbles EX computes on the architectural rs1 and rs2 of its instruction and gets its architectural outcome |
| Refinement.LoadsAreNeverForwardedFromMem | rtl/forward_unit.sv:18-32 | A load in EX/MEM is never selected as a forwarding source for a valid instruction in EX |
| Refinement.SquashIsPrecise | rtl/riscv_core.sv:121-136 | A flush sends fetch to the true successor, empties IF/ID and ID/EX and never coincides with a stall; without one the next instruction in ID is the true successor |
| Preservation.OperandCorrect | rtl/forward_unit.sv:18-32 | The forwarding priority EX/MEM, MEM/WB, latched value yields the register as of the instruction in EX |
| Preservation.ReadPortCorrect | rtl/reg_file.sv:24-27 | The bypassed read is the value the register file holds after this cycle's write |
| Preservation.ExOutCorrect | rtl/riscv_core.sv:280-318 | ALU result, taken flag and target in EX are those of the sequential machine |
| Preservation.BackEndStep | rtl/riscv_core.sv:337-395 | EX/MEM, MEM/WB, register file and data memory stay those of the run at their indices |
| Preservation.FrontEndStep | rtl/riscv_core.sv:121-240 | IF/ID and ID/EX hold correctly fetched and decoded words of the run, or bubbles |
| Preservation.SuccessorOfEx | rtl/riscv_core.sv:311-329 | The flush target, or without a flush the prediction, is the pc of the next instruction of the run |
| Preservation.FetchTransparent | rtl/loop_buffer.sv:157-160 | In every phase of the loop buffer the multiplexed word is the one at the fetch address, and a gated read hits |
| Preservation.TableStep | rtl/branch_predictor.sv:78-91 | Training keeps every valid entry's tag and index naming a branch or jump and its target one it was taken to by an instruction already resolved |
| LoopPreservation.QuietEntry | rtl/loop_buffer.sv:70-77 | When a straight loop's branch is in IF no load-use stall, flush or training can coincide with it |
| LoopPreservation.PredictionKept | rtl/branch_predictor.sv:78-91 | Training by the loop's own branch leaves its tag, target and taken prediction in place |
| LoopPreservation.CaptureStep | rtl/loop_buffer.sv:79-106 | A capture step without a flush stores the word of its own address and moves on by one word |
| LoopPreservation.LongStep | rtl/loop_buffer.sv:87-99 | The capture of an overflowing loop takes each word at its own address, stalls or not, and never turns into replay |
| LoopPreservation.LoopStep | rtl/loop_buffer.sv:63-155 | Every transition of the four-state machine keeps the captured words, the range and the prediction of the loop |
| Timing.ExactTiming | rtl/hazard_unit.sv:18-21 | Instruction k is in EX in cycle 2 + k + loads up to it whose rd, not x0, the next word names + 2 * branches and jumps before it that went another way than predicted, exactly |
| Timing.HazardIsLoadUse | rtl/hazard_unit.sv:18-21 | The hazard unit stalls exactly a word that names in rs1 or rs2 the destination, other than x0, of the load before it |
| Timing.FlushIsMispredict | rtl/riscv_core.sv:311-329 | The core flushes exactly when the branch or jump in EX goes in the sequential run another way than was predicted for it |
| Timing.HeadStep | rtl/riscv_core.sv:205-215 | How one clock edge moves the oldest unfinished instruction: a stall costs one cycle, a flush two, and they exclude each other |
| Timing.NextInEx | rtl/riscv_core.sv:37-37 | The successor of the instruction in EX is there after exactly 1 cycle, 2 if it uses the load before it, 3 if that went another way than predicted |
| Timing.EveryInstructionExecutes | rtl/riscv_core.sv:34-37 | Progress: every instruction of the run reaches EX within three cycles per instruction |
| Timing.RetirementGap | rtl/riscv_core.sv:337-386 | Consecutive instructions retire at most three cycles apart |
| Timing.RetiredBy | rtl/tb_commit_log.sv:122-124 | r instructions have retired after at most 3 * r + 4 cycles |
| Engagement.CaptureEngages | rtl/loop_buffer.sv:79-106 | In a class program the capture of a loop of at most 16 words becomes replay after at most two cycles a word, unless the program leaves the loop at its branch before that |
| Engagement.BackwardPredictionEngages | rtl/loop_buffer.sv:70-77 | From IDLE, a backward prediction whose loop has at most 16 words is followed by replay of that loop within 33 cycles, unless the program leaves it |
| Engagement.FlushLeavesLoop | rtl/loop_buffer.sv:79-110 | While the buffer is armed for such a loop, a flush means that the loop's own branch goes elsewhere in the sequential run |
| Engagement.ReplayLasts | rtl/riscv_core.sv:60-66 | Replay goes on with the captured words and the bus frozen as long as the sequential run goes round the loop |
| ProgramClass.ClassIsWellBehaved | rtl/loop_buffer.sv:41-160 | A program whose text passes the static loop check and whose jalrs go forward outside all loops is in the class the core is correct for |
| LoopBufferLimits.ReplayRightIff | rtl/loop_buffer.sv:98-105 | The replay of all words fetched during a capture is right for every memory if and only if each of them is the word of memory that was put where it is looked up |
| LoopBufferLimits.WordRightIff | rtl/loop_buffer.sv:98-105 | Word k of a loop, if it was fetched, is replayed right for every memory if and only if it was the k-th word fetched, which the capture does not check |
| LoopBufferLimits.ForwardReplayRightIff | rtl/loop_buffer.sv:98-105 | A loop of at most 16 words whose body only goes forward is replayed right for every memory if and only if nothing was skipped, except perhaps just before its branch |
| LoopBufferLimits.StalledBranchLoopsAtOnce | rtl/loop_buffer.sv:70-77 | A stall while the branch arms the buffer makes the branch itself word 0 of the loop and starts the replay at once |
| LoopBufferLimits.StalledBranchIsFetchedAgain | rtl/riscv_core.sv:121-136 | In any run of any program, two cycles after an idle buffer's backward prediction meets a load-use stall, fetch is at the loop's top and the word entering ID is the branch |
| LoopBufferLimits.MissFetchesBranch | rtl/riscv_core.sv:70-76 | In any gated cycle of any program, a read that misses takes the loop branch's word for its own, which is right for every memory if and only if fetch is at that word of memory |
| LoopBufferLimits.LeavingFetchesBranch | rtl/loop_buffer.sv:112-119 | So it is when fetch leaves the loop without a flush: the word entering ID is the loop's branch |
| LoopBufferLimits.CaptureSlots | rtl/loop_buffer.sv:149-153 | A complete capture of at most 16 words reaches LOOPING exactly at the branch with slot k holding the k-th captured word |
| FetchTrace.FrontStep | rtl/riscv_core.sv:34-240 | In a program whose branches are taken come what may, one edge of the core's fetch, ID, EX, predictor and loop buffer is one step of the same machine on word numbers, whatever registers and memory hold |
| FetchTrace.FetchShown | rtl/loop_buffer.sv:157-160 | The word entering ID is the memory word whose number that machine computes |
| Misfetches.ForwardBranchIsMisfetched | rtl/loop_buffer.sv:98-105 | A reachable failure: in a six-word program with a forward branch in a loop, the word of address 20 is executed as that of 16 in cycle 17, and the log of cycle 25 is the trace of no number of instructions |
| Misfetches.StalledBranchIsMisfetched | rtl/loop_buffer.sv:70-77 | A reachable failure: in an eight-word program with a load used just before a loop's branch, the branch is executed as the loop's first word in cycle 15, and the log of cycle 23 is no trace |
| Misfetches.DetourIsMisfetched | rtl/riscv_core.sv:70-76 | A reachable failure: fetch leaves the captured range in a gated cycle without a flush, takes the word at the frozen address for its own, and the log of cycle 26 is no trace |
| Misfetches.StrayPcIsLogged | rtl/tb_commit_log.sv:87-92 | A pc in EX that the sequential run never visits is in the log three cycles later, which is then the trace of no number of instructions and stores |
| Misfetches.OutsideTheClass | rtl/tb_commit_log.sv:79-94 | A program with such a log is not in the class |
| Misfetches.ThreeWordsAreReplayed | rtl/loop_buffer.sv:51-160 | Two words and a branch back are a class program and are replayed from cycle 11 on |
| LoopBuffer.Buffer.Clock | rtl/loop_buffer.sv:137-155 | The in-place state machine and capture array step as the next-state function says |
| LoopBuffer.Buffer.Replay | rtl/loop_buffer.sv:47-61 | The replay multiplexer returns the captured word exactly on a hit |
| LoopBuffer.Buffer.constructor | rtl/loop_buffer.sv:138-142 | Reset clears state, bounds and pointer and leaves the slots as they were |
| Predictor.BranchPredictor.Clock | rtl/branch_predictor.sv:78-91 | The four arrays updated in place step as the training function, whose effect over any history is `PredictorHistory.PredictionIs` |
| Predictor.BranchPredictor.Lookup | rtl/branch_predictor.sv:66-67 | Lookup over the arrays is a valid, tag-matching, counter-set entry's target |
| Predictor.BranchPredictor.constructor | rtl/branch_predictor.sv:71-77 | The reset loop leaves every entry invalid and weakly not-taken |
| Predictor.TwoTakenArePredicted | rtl/branch_predictor.sv:78-88 | After two taken resolutions the branch is predicted taken to the latest target, whatever the table held |
| Predictor.TwoNotTakenAreForgotten | rtl/branch_predictor.sv:88-90 | Two not-taken resolutions end the prediction, one does not once the counter is saturated |
| Predictor.TrainingIsPrivate | rtl/branch_predictor.sv:81-87 | A taken resolution is never served to another word: same index evicts, another index is untouched |
| PredictorHistory.PredictionIs | rtl/branch_predictor.sv:57-92 | After any history of resolutions a branch is predicted if and only if the saturating count at its entry, from 1 and held in 0..3, is at least 2 and the last taken resolution there was its own, whose target is predicted |
| PredictorHistory.TableIsHistory | rtl/branch_predictor.sv:69-92 | In every cycle of a class program the table is what the branches and jumps executed before the instruction in EX make of it |
| PredictorHistory.PredictionIsHistory | rtl/riscv_core.sv:83-97 | So in every cycle the prediction for any address is decided by that history of the sequential run alone |
| RegFile.RegisterFile.Read | rtl/reg_file.sv:24-27 | A read port shows the value the register will hold after this cycle's write, x0 always 0 |
| RegFile.RegisterFile.Clock | rtl/reg_file.sv:38-41 | The clock edge writes rd unless it is x0 or writing is off, and nothing else |
| RegFile.RegisterFile.constructor | rtl/reg_file.sv:31-37 | The reset loop clears all 32 registers |
| Pipeline.RiscvCore.Tick | rtl/riscv_core.sv:34-395 | The core with its registers, memories and units updated in place takes exactly the step of the next-state function |
| Pipeline.RiscvCore.Combinational | rtl/riscv_core.sv:34-329 | The wires computed stage by stage between two edges carry what the stage functions say |
| Pipeline.RiscvCore.ClockUnits | rtl/riscv_core.sv:87-116 | Predictor, loop buffer, register file and data memory are clocked with the pre-edge signals |
| Pipeline.RiscvCore.ClockFrontEnd | rtl/riscv_core.sv:60-136 | pc, frozen address, IF/ID and ID/EX hold, squash or load as flush, stall and gating say |
| Pipeline.RiscvCore.ClockBackEnd | rtl/riscv_core.sv:337-386 | EX/MEM and MEM/WB are loaded on every edge, never stalled and never squashed |
| Testbench.CommitLogger.OnPosedge | rtl/tb_commit_log.sv:79-94 | Both counters and the appended lines after an edge, from the state before it |
| Testbench.RunTestbench | rtl/tb_commit_log.sv:122-124 | The run's lines are the log of some number of cycles from reset, ended by the retirement budget or the timeout, whatever the capture slots held at power-up |
| Testbench.TimeoutIsNeverReached | rtl/tb_commit_log.sv:54-58 | For every program of the class 20000 retirements fit in the hard timeout |
| SvLog.ParseSvLog | shared/spike/sv_log_parser.py:31-65 | The three dictionaries filled line by line give the records in numeric order |
| SvLog.ParsedTrace | shared/spike/sv_log_parser.py:59-65 | A log of r retirements parses to exactly the first r records of the run, even when one more store line is already in it |
| CommitLog.LastLineCounts | shared/spike/sv_log_parser.py:38-57 | Whatever lines a log holds and in whatever order, a record's pc, register and store are those of the last line of that kind and number |
| CommitLog.EntryHasLine | shared/spike/sv_log_parser.py:38-57 | And there is no entry without such a line |
| Equivalence.ImmediatesAgree | src/main.cpp:102-146 | Every C++ immediate decoder computes imm_gen's value on every word of its format |
| Equivalence.BranchFlagsAgree | rtl/alu.sv:26-29 | Zero, negative and overflow decide BEQ, BNE, BLT and BGE as the C++ comparisons do, for all operands |
| AluLaws.AluComputes | rtl/alu.sv:11-23 | Sum and difference modulo 2^32; and, or, xor bit by bit; left shift by where each bit comes from; right shifts as division rounded down of the unsigned or signed value; comparisons |
| AluLaws.ComputesOne | rtl/alu.sv:11-23 | Those statements leave one result for every control code |
| Isa.ImmediateIs | rtl/imm_gen.sv:9-46 | The immediate of each format is the signed number its fields spell, modulo 2^32 |
| Isa.SequentialMeetsIsa | rtl/riscv_core.sv:258-395 | One instruction of the subset: next pc, rd, memory and everything left alone are what the manual says, in bits and numbers |
| Isa.RunMeetsIsa | rtl/riscv_core.sv:258-395 | So is every instruction of the subset in every run |
| Isa.BeyondTheSubset | rtl/control_unit.sv:34-157 | OP words of other funct7 run as the ones they resemble, unsigned branches fall through, unknown opcodes do nothing |
| Isa.CppResult | src/main.cpp:167-266 | The C++ results of OP-IMM, OP with any funct7, LUI, AUIPC, JAL and JALR are the manual's |
| Isa.CppGoesTo | src/main.cpp:295-328 | All six branches, both jumps and the fall-through of the C++ step go where the manual says |
| Isa.CppLoad | src/main.cpp:329-369 | LB, LH, LW, LBU and LHU give the little-endian bytes, sign- or zero-extended; out of bounds or unknown they write nothing |
| Isa.CppStore | src/main.cpp:267-294 | SB, SH and SW put the low bytes of the register, lowest first, and change no other byte |
| Isa.CppEcall | src/main.cpp:413-418 | ECALL ends the program if and only if x17 is 10 and changes nothing else |
| Isa.CppNothing | src/main.cpp:410-422 | FENCE and unknown opcodes change nothing |
| Equivalence.ImmediateAluAgrees | src/main.cpp:167-214 | Every OP-IMM word gives the same result through control unit and ALU as through the C++ switch |
| Equivalence.RegisterAluAgrees | src/main.cpp:215-266 | Every OP word with funct7 0 or 0x20 gives the same result on both sides |
| Equivalence.BranchAgrees | src/main.cpp:295-328 | A branch leaves registers alone and moves pc to the same address on both sides |
| Equivalence.JalrAgrees | src/main.cpp:371-387 | jalr: same link value, same target with bit 0 cleared, also when rd is rs1 |
| Equivalence.LoadAgrees | src/main.cpp:329-369 | An aligned word load from byte memory and from the RTL's word memory write the same value |
| Equivalence.StoreAgrees | src/main.cpp:267-294 | An aligned word store keeps byte memory and word memory equal and the program text intact |
| Equivalence.WordAfterStore | src/main.cpp:282-287 | Little-endian byte stores read back as the word at that address and change no other word |
| Equivalence.StepAgrees | src/main.cpp:157-423 | For every supported word and all operands: same registers, next pc and memory effect |
| Equivalence.RunAgrees | src/main.cpp:475-483 | Whole runs: after k iterations the simulator's globals are the sequential machine's after k instructions |
| Simulator.Simulator.DecodeAndExecute | src/main.cpp:157-423 | The three globals changed in place are the decode-and-execute function of their old values |
| Simulator.Simulator.RunSim | src/main.cpp:475-483 | The loop cut after a limit leaves the state of that many iterations, and reports an end if and only if before one of them pc had left the memory or was at a zero word |
| Simulator.SimulateNext | src/main.cpp:475-483 | One more iteration is run if and only if pc is below 4096 and not at a zero word |
| Simulator.Simulator.LoadWords | src/main.cpp:426-451 | After loading, word i of memory is the last line of the file whose 32-bit address is 4 * i, and nothing else changes |
| Simulator.LineForIsLine | src/main.cpp:433-441 | In a file of at most 2^30 lines that is line i, or the word is as it was |
| Simulator.LineForIsLast | src/main.cpp:433-441 | In a longer one, whose addresses wrap, it is the last line whose number is i modulo 2^30 |
| Simulator.Simulator.Store | src/main.cpp:272-293 | Byte, half-word and word stores write exactly their bytes |
| Simulator.Simulator.FetchInstruction | src/main.cpp:47-52 | Fetch assembles the little-endian word |
| Simulator.LoadedIsRelated | src/main.cpp:28-30 | A zeroed, loaded simulator starts in the state the agreement needs |
| Encoding.RoundTripR | shared/spike/gen_program.py:49-50 | enc_r then the RTL's slices returns every field |
| Encoding.RoundTripI | shared/spike/gen_program.py:53-54 | enc_i then slices and imm_gen returns every field and the signed immediate |
| Encoding.RoundTripShift | shared/spike/gen_program.py:57-58 | enc_shift then the slices returns every field, the shift amount modulo 32 |
| Encoding.RoundTripS | shared/spike/gen_program.py:61-63 | enc_s then slices and imm_gen returns every field and the signed immediate |
| Encoding.RoundTripB | shared/spike/gen_program.py:66-71 | enc_b then slices and imm_gen returns every field and the even offset |
| Encoding.RoundTripU | shared/spike/gen_program.py:74-75 | enc_u then imm_gen returns the upper immediate |
| Encoding.RoundTripJ | shared/spike/gen_program.py:78-82 | enc_j then imm_gen returns the even offset |
| Encoding.ImmediateSurvivesIff | shared/spike/gen_program.py:53-54 | For any integer at all the decoded immediate is its 12-bit folding, and it survives if and only if it fits |
| Encoding.BranchOffsetSurvivesIff | shared/spike/gen_program.py:66-71 | A branch offset survives if and only if it fits in 13 bits |
| Encoding.LargeDataOffsetIsFolded | shared/spike/gen_program.py:349-357 | 2836 in a single addi becomes -1260 |
| Generator.Sorted | shared/spike/gen_program.py:175-175 | The written offsets in ascending order, each once |
| Generator.Candidates | shared/spike/gen_program.py:196-197 | Exactly the forward distances in reach that land in no loop block |
| Generator.RandomLoad | shared/spike/gen_program.py:174-176 | A word load off x31 at an already written offset, to x0..x29 |
| Generator.RandomStore | shared/spike/gen_program.py:177-180 | A word store off x31 in the window, and the offset recorded |
| Generator.RandomBranch | shared/spike/gen_program.py:181-209 | A forward branch to a word in no loop block if any of the next eight within reach is one, an R-type word if and only if none is |
| Generator.RandomJal | shared/spike/gen_program.py:210-249 | A forward jal to x0 to a word in no loop block if any within reach is one, an R-type word if and only if none is |
| Generator.Categories | shared/spike/gen_program.py:154-160 | The categories on offer: branch and jal at the top level only, the load only once an offset has been written, the others always |
| Generator.GenOneInstr | shared/spike/gen_program.py:133-249 | The category drawn is on offer and decides the kind of word; only a store adds to the written offsets; x30 and x31 are never a destination |
| Generator.RandomLoopBlock | shared/spike/gen_program.py:252-279 | None exactly when fewer than four words are left; else init, control-free body, decrement, branch back, with the exact retirement count |
| Generator.SplitOffset | shared/spike/gen_program.py:364-368 | hi20 and lo12 fit their fields and add up to the data offset for every admitted length |
| Generator.FillSlots | shared/spike/gen_program.py:414-416 | The second pass fills each open slot once, with a word of the kind drawn for it and against the final list of loop blocks, and touches no other word |
| Generator.RandomProgram | shared/spike/gen_program.py:282-416 | Every word is filled; a loop drawn becomes a block exactly where four words are left; blocks are disjoint and whole; every other word is of the kind drawn; every top-level target is ahead, in the program and in no block; the count is exact |
| Generator.ClearAllRegsPreamble | shared/spike/gen_program.py:424-438 | addi xr, x0, 0 for r = 1 .. 31 in order |
| Generator.BuildFullProgram | shared/spike/gen_program.py:441-448 | Preamble, stream and self-branch in place, and the returned estimate |
| GeneratedRun.TextIsLoaded | rtl/instruction_mem.sv:13-16 | The words the builder returns, loaded from address 0, are the program the run lemmas speak of |
| GeneratedRun.StepKeepsState | shared/spike/gen_program.py:95-105 | One instruction keeps pc on the text, x31 at its stage of set-up and x30 within the trip count of the block it is in |
| GeneratedRun.TopLevelKeepsState | shared/spike/gen_program.py:146-153 | A top-level word moves strictly ahead, to the next word or to one in no loop block |
| GeneratedRun.LoopKeepsState | shared/spike/gen_program.py:252-279 | A loop word moves to the next one, or from the branch back to the body while x30 is not zero |
| GeneratedRun.LoopBranchStep | shared/spike/gen_program.py:272-277 | The block's branch goes back to the first body word exactly while x30 is not zero |
| GeneratedRun.EpilogueKeepsState | shared/spike/gen_program.py:421-421 | The self-branch stays where it is |
| GeneratedClass.GeneratedIsWellBehaved | shared/spike/gen_program.py:376-416 | Every program the generator can emit is in the class the core is correct for |
| GeneratedClass.BackwardIsLoopBranch | shared/spike/gen_program.py:272-277 | The only backward transfers of a generated program are its blocks' own branches, to their first body words |
| GeneratedClass.ControlLands | shared/spike/gen_program.py:146-153 | No branch or jump of the run lands in a loop block past its first body word |
| GeneratedClass.BlockIsCleanLoop | shared/spike/gen_program.py:252-279 | A block is long enough, straight-line, entered only at its top, and free of a load-use pair that could hold its branch in IF |
| AddressWindow.BaseRegisterIsExact | shared/spike/gen_program.py:327-373 | Through split, encoders and the hardware's auipc and addi, x31 is program_end + 32 |
| AddressWindow.AccessesInWindow | shared/spike/gen_program.py:302-373 | Every executed load and store is one of the 17 aligned words of [program_end, program_end + 64] and at most 4092 |
| AddressWindow.GeneratedRunAgrees | src/main.cpp:475-483 | The C++ simulator runs every generated program as the sequential machine does, for ever |
| AddressWindow.PipelineMatchesSimulator | rtl/riscv_core.sv:34-395 | In any cycle of any generated program the core's registers and data words are the C++ simulator's, and its log is the sequential trace |
| Termination.LeftDecreases | shared/spike/gen_program.py:252-279 | Every instruction before the epilogue lowers the bound on what is left |
| Termination.ProgramTerminates | shared/spike/gen_program.py:441-448 | A generated program reaches its epilogue, never leaves it, and has then retired at most the estimate plus the base register's words |
| Termination.EstimateExactIff | shared/spike/gen_program.py:441-448 | It has retired exactly that many if and only if no branch or jump on its way skipped a word |
| Termination.LoopRetiresExactly | shared/spike/gen_program.py:252-279 | A loop entered at its top retires exactly 1 + trip_count * (body_len + 2) instructions, all its own, and falls out of its end |
| Termination.EstimateIsSmall | shared/spike/gen_program.py:330-338 | Every admitted program's estimate is below 8000 retirements |
| Relocation.StepShifted | shared/spike/compare_accuracy.py:105-175 | One instruction at both bases: states stay a base apart and effects match up to the base |
| Relocation.RunsShifted | shared/spike/gen_program.py:210-249 | For every generated program, base and starting registers, the relocated run differs by the base for ever |
| Relocation.AfterPreamble | shared/spike/gen_program.py:424-438 | After the preamble x0..x30 are equal and pc and x31 differ by exactly the base |
| TraceCompare.MatchIgnoresTopBit | shared/spike/compare_accuracy.py:27-38 | Two words match exactly when they agree in all bits but the top one |
| TraceCompare.AgreeIsSame | shared/spike/compare_accuracy.py:105-169 | The checks accept a pair if and only if, in the fields of the records, the pcs are equally far from their bases, both write the same register or none but x0, values equal modulo 2^31, and both store the same word or nothing, 32-bit addresses equal modulo 2^31 |
| TraceCompare.CheckPair | shared/spike/compare_accuracy.py:105-169 | The body of compare's loop accepts exactly those pairs |
| TraceCompare.Compare | shared/spike/compare_accuracy.py:101-175 | Passed equals total if and only if every pair is the same retirement in that sense; the counts and the kept mismatches are those of the disagreeing indices |
| TraceCompare.ScoreMeans | shared/spike/compare_accuracy.py:101-178 | An index is listed as a mismatch if and only if its pair is not the same retirement |
| TraceCompare.ListedInOrder | shared/spike/compare_accuracy.py:101-178 | Mismatches are listed once each and in order |
| TraceCompare.FullScore | shared/spike/compare_accuracy.py:171-178 | The score is full if and only if every pair agrees |
| TraceCompare.TrimBootStub | shared/spike/compare_accuracy.py:41-50 | Everything from the first record at the entry address, or everything |
| TraceCompare.StubTrimmed | shared/spike/compare_accuracy.py:41-50 | A stub that never visits the entry address is cut off exactly |
| TraceCompare.TruncateAtSelfLoop | shared/spike/spike_log_parser.py:146-162 | For a threshold of at least 2 exactly one record of the first run of that length is kept, or everything; for a smaller one the cut is behind the first pair of equal pcs, further on the smaller the threshold |
| TraceCompare.TruncatedUnique | shared/spike/spike_log_parser.py:146-162 | That description has one result, so both parsers cut alike |
| TraceCompare.TruncateIdempotent | shared/spike/spike_log_parser.py:146-162 | Truncating twice is truncating once |
| TraceCompare.TruncateIgnoresTail | shared/spike/sv_log_parser.py:68-84 | The result does not depend on how many further repeats follow |
| TraceCompare.CutShifted | shared/spike/spike_log_parser.py:146-162 | Two traces of equal length a base apart are cut at the same place |
| TraceCompare.TruncateShifted | shared/spike/spike_log_parser.py:146-162 | Two simulators stopped at different budgets in the epilogue are cut to the same length, pc for pc a base apart |
| SpikeLog.ParseSpikeLog | shared/spike/spike_log_parser.py:72-143 | Record k is disassembly line k with the commits queued for the same occurrence of its key |
| SpikeLog.CorrelationExact | shared/spike/spike_log_parser.py:126-141 | Every execution gets its own commit if and only if, key by key, executions that commit come before those that do not |
| SpikeLog.RecordsAreExecutions | shared/spike/spike_log_parser.py:126-141 | In a complete log of instructions of fixed shape, of any length and interleaving, record k is the k-th execution |
| SpikeLog.PrintedIsLogOf | shared/spike/spike_log_parser.py:72-124 | The log printed execution by execution is a complete log |
| SpikeLog.WideCommitsAreLost | shared/spike/spike_log_parser.py:122-139 | Commits printed with an address or word of more than 32 bits are lost: the records are those of the log without them |
| Comparison.StatesAgree | shared/spike/compare_accuracy.py:105-169 | The two records of any instruction of any generated program pass every check |
| Comparison.CompareLogs | shared/spike/compare_accuracy.py:53-178 | From two logs to the score: parse, trim, cut at the self-loop, compare |
| Comparison.GoldenTrimmed | shared/spike/compare_accuracy.py:41-57 | Parsing and trimming a golden log with any boot stub leaves exactly the program's run |
| Comparison.CoreRepeats | shared/spike/spike_log_parser.py:154-159 | The first three-fold repeat of a pc is the epilogue's |
| Comparison.NoFalseAlarm | shared/spike/compare_accuracy.py:53-178 | For every generated program and wherever either simulator is stopped, no pair of retirements that compare looks at fails a check |
| Comparison.GeneratedProgramScoresFully | shared/spike/compare_accuracy.py:53-178 | At whatever budgets each trace is cut right after the first epilogue retirement if it holds three of them, not at all otherwise, and every pair both hold passes |
| Comparison.AccuracyRunIsPerfect | shared/spike/compare_accuracy.py:53-178 | Any generated program, the testbench's budget, any golden run: all the golden model has retired up to the epilogue is compared and passes; four past the estimate that is the whole program |

## Left out

- StepAgrees: only for the words `Equivalence.Supported` admits (the documented subset): byte and half-word accesses,
  BLTU, BGEU, FENCE, ECALL and OP words with other funct7 values are not in the RTL, or are decoded differently
  (`Isa.BeyondTheSubset`).
- RunSim: the C++ loop has no iteration limit; the method takes one, and says so by returning whether the program ended.
- LogIsSequentialTrace: for programs of the class only; it fails for the three programs of `Misfetches`. The class is
  sufficient, not necessary: a loop that skips only the words just before its branch is outside it and is replayed
  right (`LoopBufferLimits.ForwardReplayRightIff`).
- NoFalseAlarm: the golden run has retired at least one instruction of the program, and both sides start with equal data
  windows, since a generated load may read a word never stored.
- File reading, regular expressions, printing, ELF writing, command lines and the run scripts: the models start from
  classified log lines and end at counts.
- The generator's random numbers: every choice is any value in its range, so probabilities and weights play no part.
  The contracts say what each draw gives, not that every value of a range comes up. The random program methods return
  the list of loop blocks and the draws as well, so that contracts can speak of them.
- The `|` of the Python encoders and of the C++ decoders is `Bits.BitOr`; shifts are multiplications and divisions by
  powers of two. `rd`, `rs1`, `rs2`, funct fields and opcodes are in range, as the callers pass them.
- Reset timing, X values, `$display` and Verilog scheduling: runs start in the state after reset and each clock edge is
  one step. The capture slots have arbitrary contents at power-up.
- Data accesses outside the 1024 words: reads give 0 and writes do nothing in the sequential machine and the pipeline
  alike; out-of-bounds accesses of the C++ arrays, undefined there, do the same.
- The golden model is an RV32I machine with 1024 words of memory at its base and the retirement lines described in
  `shared/spike/compare_accuracy.py:114-121`; Spike itself is not part of this model, its boot stub is any prefix of
  executions of fixed shape away from the program's addresses.
- The single spare edge on which the testbench may still log after its budget is reached is not modelled.
- `rtl/instruction_mem_bram.sv` and the directed testbenches: unused by the core, and finite runs.
