/**
 Generated programs always reach their epilogue and stay there: a bound that
 every instruction lowers, and that starts at the generator's own estimate.
 */
module Termination {
  import opened Words
  import opened Datapath
  import opened Sequential
  import opened Execution
  import opened Generator
  import opened GeneratedRun
  import opened GeneratedClass

  /** Words of an iteration: body, decrement, branch. */
  function IterationLength(r: Range): int {
    r.hi - r.lo - 1
  }

  /** Iterations of block r still to start when word i is next. */
  function IterationsLeft(ws: seq<Word>, r: Range, i: int, x30: Word): int {
    if i <= r.lo then Trip(ws, r) - 1
    else if i < r.hi - 1 then x30 - 1
    else if i == r.hi - 1 then x30
    else 0
  }

  function Extra(ws: seq<Word>, r: Range, i: int, x30: Word): int {
    IterationsLeft(ws, r, i, x30) * IterationLength(r)
  }

  /** What the first m blocks add to one retirement per word. */
  function ExtraSum(ws: seq<Word>, ranges: seq<Range>, m: nat, i: int, x30: Word): int
    requires m <= |ranges|
  {
    if m == 0 then 0 else ExtraSum(ws, ranges, m - 1, i, x30) + Extra(ws, ranges[m - 1], i, x30)
  }

  /** An upper bound on the instructions before the epilogue. */
  function Left(ws: seq<Word>, ranges: seq<Range>, s: Arch): int {
    var i := Site(s) - PREAMBLE_WORDS;
    |ws| - i + ExtraSum(ws, ranges, |ranges|, i, s.regs[30])
  }

  // ---- sums ----

  predicate SameExtra(ws: seq<Word>, r: Range, i: int, x: Word, i': int, x': Word) {
    Extra(ws, r, i', x') == Extra(ws, r, i, x)
  }

  lemma {:induction false} SumChanges(ws: seq<Word>, ranges: seq<Range>, m: nat, j: nat, i: int, x: Word, i': int, x': Word)
    requires m <= |ranges|
    requires forall k :: 0 <= k < m && k != j ==> SameExtra(ws, ranges[k], i, x, i', x')
    ensures ExtraSum(ws, ranges, m, i', x') ==
            ExtraSum(ws, ranges, m, i, x) +
            if j < m then Extra(ws, ranges[j], i', x') - Extra(ws, ranges[j], i, x) else 0
  {
    hide Extra;
    if m > 0 {
      SumChanges(ws, ranges, m - 1, j, i, x, i', x');
      assert m - 1 != j ==> SameExtra(ws, ranges[m - 1], i, x, i', x');
    }
  }

  predicate NoMoreExtra(ws: seq<Word>, r: Range, i: int, x: Word, i': int, x': Word) {
    Extra(ws, r, i', x') <= Extra(ws, r, i, x)
  }

  lemma {:induction false} SumDrops(ws: seq<Word>, ranges: seq<Range>, m: nat, i: int, x: Word, i': int, x': Word)
    requires m <= |ranges|
    requires forall k :: 0 <= k < m ==> NoMoreExtra(ws, ranges[k], i, x, i', x')
    ensures ExtraSum(ws, ranges, m, i', x') <= ExtraSum(ws, ranges, m, i, x)
  {
    hide Extra;
    if m > 0 {
      SumDrops(ws, ranges, m - 1, i, x, i', x');
      assert NoMoreExtra(ws, ranges[m - 1], i, x, i', x');
    }
  }

  lemma {:induction false} SumNonNegative(ws: seq<Word>, ranges: seq<Range>, m: nat, i: int, x30: Word)
    requires m <= |ranges|
    requires forall k :: 0 <= k < m ==> Extra(ws, ranges[k], i, x30) >= 0
    ensures ExtraSum(ws, ranges, m, i, x30) >= 0
  {
    hide Extra;
    if m > 0 {
      SumNonNegative(ws, ranges, m - 1, i, x30);
    }
  }

  // ---- one block ----

  lemma ProductSign(a: int, b: int)
    requires b >= 0
    ensures a >= 0 ==> a * b >= 0
  {
  }

  lemma ExtraNonNegative(ws: seq<Word>, r: Range, i: int, x30: Word)
    requires r.lo + 4 <= r.hi && 2 <= Trip(ws, r) && CounterOk(ws, r, i, x30)
    ensures Extra(ws, r, i, x30) >= 0
  {
    hide Trip;
    ProductSign(IterationsLeft(ws, r, i, x30), IterationLength(r));
  }

  lemma NothingLeftAfter(ws: seq<Word>, r: Range, i: int, x30: Word)
    ensures i >= r.hi > r.lo ==> Extra(ws, r, i, x30) == 0
  {
    hide Trip;
  }

  lemma AllLeftBefore(ws: seq<Word>, r: Range, i: int, x30: Word)
    ensures i <= r.lo ==> Extra(ws, r, i, x30) == (Trip(ws, r) - 1) * IterationLength(r)
  {
    hide Trip, IterationLength;
  }

  /** What one instruction of block r does to its iterations. */
  lemma IterationsMove(ws: seq<Word>, r: Range, s: Arch, s': Arch)
    requires LoopMoved(ws, r, s, s') && r.lo + 4 <= r.hi
    requires InRange(Site(s) - PREAMBLE_WORDS, r)
    ensures var i, i', x, x' := Site(s) - PREAMBLE_WORDS, Site(s') - PREAMBLE_WORDS, s.regs[30], s'.regs[30];
            if i == r.hi - 1 && x != 0 then
              i' == r.lo + 1 && IterationsLeft(ws, r, i', x') == IterationsLeft(ws, r, i, x) - 1
            else
              i' == i + 1 && IterationsLeft(ws, r, i', x') == IterationsLeft(ws, r, i, x)
  {
    hide Trip;
  }

  lemma OneFewer(a: int, b: int, l: int)
    requires a == b - 1
    ensures a * l == b * l - l
  {
  }

  /** Retirements left in block r. */
  function BlockLeft(ws: seq<Word>, r: Range, s: Arch): int {
    var i := Site(s) - PREAMBLE_WORDS;
    r.hi - i + Extra(ws, r, i, s.regs[30])
  }

  lemma BlockLeftMoves(ws: seq<Word>, r: Range, s: Arch, s': Arch)
    requires LoopMoved(ws, r, s, s') && r.lo + 4 <= r.hi && InRange(Site(s) - PREAMBLE_WORDS, r)
    ensures BlockLeft(ws, r, s') == BlockLeft(ws, r, s) - 1
    ensures r.lo <= Site(s') - PREAMBLE_WORDS <= r.hi
  {
    hide LoopMoved, IterationsLeft;
    IterationsMove(ws, r, s, s');
    var i, i' := Site(s) - PREAMBLE_WORDS, Site(s') - PREAMBLE_WORDS;
    if i' != i + 1 {
      OneFewer(IterationsLeft(ws, r, i', s'.regs[30]), IterationsLeft(ws, r, i, s.regs[30]), IterationLength(r));
    }
  }

  /** The other blocks do not notice. */
  lemma OtherBlocksSame(ws: seq<Word>, ranges: seq<Range>, j: nat, i: int, x: Word, i': int, x': Word)
    requires Stream(ws, ranges) && j < |ranges|
    requires ranges[j].lo <= i <= ranges[j].hi && ranges[j].lo <= i' <= ranges[j].hi
    ensures forall k :: 0 <= k < |ranges| && k != j ==> SameExtra(ws, ranges[k], i, x, i', x')
  {
    hide Stream, Extra;
    BlocksOrdered(ws, ranges);
    forall k | 0 <= k < |ranges| && k != j
      ensures SameExtra(ws, ranges[k], i, x, i', x')
    {
      assert if k < j then ranges[k].hi <= ranges[j].lo else ranges[j].hi <= ranges[k].lo;
      NothingLeftAfter(ws, ranges[k], i, x);
      NothingLeftAfter(ws, ranges[k], i', x');
      AllLeftBefore(ws, ranges[k], i, x);
      AllLeftBefore(ws, ranges[k], i', x');
    }
  }

  lemma BlocksOrdered(ws: seq<Word>, ranges: seq<Range>)
    requires Stream(ws, ranges)
    ensures Ordered(ranges, StreamStart(|ws|), |ws|)
  {
    hide BlockAt, TopWord, IsAddi, Opcode, Rd, ImmGen, Hi20, Lo12, InAnyRange;
  }

  // ---- every instruction lowers the bound ----

  lemma BlockLeftDecreases(imem: InstrMem, ws: seq<Word>, ranges: seq<Range>, s: Arch, j: nat)
    requires Loaded(imem, ws, ranges) && StateOk(ws, ranges, s)
    requires j < |ranges| && InRange(Site(s) - PREAMBLE_WORDS, ranges[j])
    ensures BlockLeft(ws, ranges[j], Step(imem, s)) == BlockLeft(ws, ranges[j], s) - 1
    ensures ranges[j].lo <= Site(Step(imem, s)) - PREAMBLE_WORDS <= ranges[j].hi
  {
    hide Loaded, StateOk, Step, Stream, LoopInPlace, LoopMoved, Site, Trip, BlockLeft;
    NonEmpty(imem, ws, ranges);
    LoopKeepsState(imem, ws, ranges, s, j);
    LoopAt(ws, ranges, j);
    LoopLength(ws, ranges[j]);
    BlockLeftMoves(ws, ranges[j], s, Step(imem, s));
  }

  lemma LeftFollowsBlock(ws: seq<Word>, ranges: seq<Range>, s: Arch, s': Arch, j: nat)
    requires Stream(ws, ranges) && j < |ranges|
    requires ranges[j].lo <= Site(s) - PREAMBLE_WORDS <= ranges[j].hi
    requires ranges[j].lo <= Site(s') - PREAMBLE_WORDS <= ranges[j].hi
    requires BlockLeft(ws, ranges[j], s') == BlockLeft(ws, ranges[j], s) - 1
    ensures Left(ws, ranges, s') == Left(ws, ranges, s) - 1
  {
    hide Stream, Site, Extra, ExtraSum, SameExtra;
    var i, i' := Site(s) - PREAMBLE_WORDS, Site(s') - PREAMBLE_WORDS;
    OtherBlocksSame(ws, ranges, j, i, s.regs[30], i', s'.regs[30]);
    SumChanges(ws, ranges, |ranges|, j, i, s.regs[30], i', s'.regs[30]);
  }

  lemma LeftInBlock(imem: InstrMem, ws: seq<Word>, ranges: seq<Range>, s: Arch, j: nat)
    requires Loaded(imem, ws, ranges) && StateOk(ws, ranges, s)
    requires j < |ranges| && InRange(Site(s) - PREAMBLE_WORDS, ranges[j])
    ensures Left(ws, ranges, Step(imem, s)) == Left(ws, ranges, s) - 1
  {
    hide Loaded, StateOk, Step, Stream, Site, Left, BlockLeft;
    NonEmpty(imem, ws, ranges);
    BlockLeftDecreases(imem, ws, ranges, s, j);
    LeftFollowsBlock(ws, ranges, s, Step(imem, s), j);
  }

  /** Moving on from outside every block drops at most the blocks jumped over. */
  lemma ForwardDrops(ws: seq<Word>, ranges: seq<Range>, i: int, x: Word, i': int, x': Word)
    requires Stream(ws, ranges) && !InAnyRange(i, ranges) && i < i'
    requires i' == i + 1 || !InAnyRange(i', ranges)
    ensures forall k :: 0 <= k < |ranges| ==> NoMoreExtra(ws, ranges[k], i, x, i', x')
    ensures i' == i + 1 ==> forall k :: 0 <= k < |ranges| ==> SameExtra(ws, ranges[k], i, x, i', x')
  {
    hide Stream, Extra, InAnyRange, LoopInPlace, Trip;
    forall k | 0 <= k < |ranges|
      ensures NoMoreExtra(ws, ranges[k], i, x, i', x')
      ensures i' == i + 1 ==> SameExtra(ws, ranges[k], i, x, i', x')
    {
      var r := ranges[k];
      LoopAt(ws, ranges, k);
      LoopLength(ws, r);
      InBlock(ranges, k, i);
      InBlock(ranges, k, i');
      NothingLeftAfter(ws, r, i, x);
      NothingLeftAfter(ws, r, i', x');
      AllLeftBefore(ws, r, i, x);
      AllLeftBefore(ws, r, i', x');
      ProductSign(Trip(ws, r) - 1, IterationLength(r));
    }
  }

  lemma LeftOutsideBlocks(imem: InstrMem, ws: seq<Word>, ranges: seq<Range>, s: Arch)
    requires Loaded(imem, ws, ranges) && StateOk(ws, ranges, s)
    requires Site(s) < Epilogue(|ws|) && !InAnyRange(Site(s) - PREAMBLE_WORDS, ranges)
    ensures var s' := Step(imem, s);
            && Left(ws, ranges, s') <= Left(ws, ranges, s) - 1
            && (Site(s') == Site(s) + 1 <==> Left(ws, ranges, s') == Left(ws, ranges, s) - 1)
  {
    var s' := Step(imem, s);
    hide Loaded, StateOk, Step, Stream, Site, Extra, InAnyRange;
    NonEmpty(imem, ws, ranges);
    if Site(s) < PREAMBLE_WORDS + StreamStart(|ws|) {
      SetUpKeepsState(imem, ws, ranges, s);
    } else {
      TopLevelKeepsState(imem, ws, ranges, s);
    }
    var i, i', x, x' := Site(s) - PREAMBLE_WORDS, Site(s') - PREAMBLE_WORDS, s.regs[30], s'.regs[30];
    ForwardDrops(ws, ranges, i, x, i', x');
    SumDrops(ws, ranges, |ranges|, i, x, i', x');
    if i' == i + 1 {
      SumChanges(ws, ranges, |ranges|, |ranges|, i, x, i', x');
    }
  }

  lemma LeftDecreases(imem: InstrMem, ws: seq<Word>, ranges: seq<Range>, s: Arch)
    requires Loaded(imem, ws, ranges) && StateOk(ws, ranges, s) && Site(s) < Epilogue(|ws|)
    ensures Left(ws, ranges, Step(imem, s)) < Left(ws, ranges, s)
  {
    hide Loaded, StateOk, Step, Stream, Site, Left;
    if InAnyRange(Site(s) - PREAMBLE_WORDS, ranges) {
      var j :| 0 <= j < |ranges| && InRange(Site(s) - PREAMBLE_WORDS, ranges[j]);
      LeftInBlock(imem, ws, ranges, s, j);
    } else {
      LeftOutsideBlocks(imem, ws, ranges, s);
    }
  }

  /** The instruction goes past the word after it; only a word outside every block
      does that. */
  ghost predicate Skips(imem: InstrMem, ranges: seq<Range>, s: Arch) {
    !InAnyRange(Site(s) - PREAMBLE_WORDS, ranges) && Site(Step(imem, s)) != Site(s) + 1
  }

  lemma LeftFallsByOne(imem: InstrMem, ws: seq<Word>, ranges: seq<Range>, s: Arch)
    requires Loaded(imem, ws, ranges) && StateOk(ws, ranges, s) && Site(s) < Epilogue(|ws|)
    ensures !Skips(imem, ranges, s) <==> Left(ws, ranges, Step(imem, s)) == Left(ws, ranges, s) - 1
  {
    hide Loaded, StateOk, Step, Stream, Site, Left;
    if InAnyRange(Site(s) - PREAMBLE_WORDS, ranges) {
      var j :| 0 <= j < |ranges| && InRange(Site(s) - PREAMBLE_WORDS, ranges[j]);
      LeftInBlock(imem, ws, ranges, s, j);
    } else {
      LeftOutsideBlocks(imem, ws, ranges, s);
    }
  }

  lemma LeftNonNegative(imem: InstrMem, ws: seq<Word>, ranges: seq<Range>, s: Arch)
    requires Loaded(imem, ws, ranges) && StateOk(ws, ranges, s)
    ensures Left(ws, ranges, s) >= Epilogue(|ws|) - Site(s) >= 0
  {
    hide Loaded, StateOk, Stream, Site, Extra, ExtraSum, CounterOk, LoopInPlace, Trip;
    NonEmpty(imem, ws, ranges);
    SiteBound(ws, ranges, s);
    forall k | 0 <= k < |ranges|
      ensures Extra(ws, ranges[k], Site(s) - PREAMBLE_WORDS, s.regs[30]) >= 0
    {
      BlockFilled(imem, ws, ranges, k);
      CounterInBlock(ws, ranges, s, k);
      ExtraNonNegative(ws, ranges[k], Site(s) - PREAMBLE_WORDS, s.regs[30]);
    }
    SumNonNegative(ws, ranges, |ranges|, Site(s) - PREAMBLE_WORDS, s.regs[30]);
  }

  // ---- termination ----

  /** From any reachable state the epilogue is Left instructions away at most. */
  lemma {:induction false} ReachesEpilogueFrom(p: Execution, ws: seq<Word>, ranges: seq<Range>, k: nat) returns (e: nat)
    requires Loaded(p.imem, ws, ranges)
    ensures k <= e <= k + Left(ws, ranges, p.At(k)) && Site(p.At(e)) == Epilogue(|ws|)
    ensures forall j: nat :: k <= j < e ==> Site(p.At(j)) < Epilogue(|ws|)
    decreases Left(ws, ranges, p.At(k))
  {
    hide Loaded, StateOk, Step, Site, Left, Run, Start;
    var s := p.At(k);
    ReachedState(p, ws, ranges, k);
    SiteBound(ws, ranges, s);
    LeftNonNegative(p.imem, ws, ranges, s);
    if Site(s) == Epilogue(|ws|) {
      e := k;
    } else {
      AtStep(p, k);
      LeftDecreases(p.imem, ws, ranges, s);
      ReachedState(p, ws, ranges, k + 1);
      LeftNonNegative(p.imem, ws, ranges, p.At(k + 1));
      e := ReachesEpilogueFrom(p, ws, ranges, k + 1);
    }
  }

  lemma {:induction false} StaysAtEpilogue(p: Execution, ws: seq<Word>, ranges: seq<Range>, e: nat, d: nat)
    requires Loaded(p.imem, ws, ranges) && Site(p.At(e)) == Epilogue(|ws|)
    ensures Site(p.At(e + d)) == Epilogue(|ws|)
  {
    hide Loaded, StateOk, Step, Site, Run, Start;
    if d > 0 {
      StaysAtEpilogue(p, ws, ranges, e, d - 1);
      ReachedState(p, ws, ranges, e + d - 1);
      EpilogueKeepsState(p.imem, ws, ranges, p.At(e + d - 1));
      AtStep(p, e + d - 1);
    }
  }

  // ---- the estimate ----

  lemma SurplusOfBlock(trip: int, length: int)
    ensures 1 + trip * (length - 1) - length == (trip - 1) * (length - 1)
  {
  }

  lemma SurplusOfPrefix(bs: seq<seq<Word>>, m: nat)
    requires 0 < m <= |bs|
    ensures LoopSurplus(bs[..m]) == LoopSurplus(bs[..m - 1]) + LoopRetirements(bs[m - 1]) - |bs[m - 1]|
  {
    hide LoopRetirements;
    assert bs[..m][..m - 1] == bs[..m - 1] && bs[..m][m - 1] == bs[m - 1];
  }

  lemma ExtraOfBlock(ws: seq<Word>, r: Range, i: int, x30: Word)
    requires i <= r.lo && r.lo + 4 <= r.hi <= |ws|
    ensures Extra(ws, r, i, x30) == LoopRetirements(BlockWords(ws, r)) - |BlockWords(ws, r)|
  {
    hide Offset, Extra;
    AllLeftBefore(ws, r, i, x30);
    SurplusOfBlock(Trip(ws, r), r.hi - r.lo);
  }

  /** At the start the blocks' extra is what the generator counted. */
  lemma {:induction false} ExtraAtStart(ws: seq<Word>, ranges: seq<Range>, m: nat, i: int, x30: Word)
    requires Stream(ws, ranges) && m <= |ranges| && i <= StreamStart(|ws|)
    ensures ExtraSum(ws, ranges, m, i, x30) == LoopSurplus(Blocks(ws, ranges)[..m])
  {
    hide Stream, Extra, LoopInPlace, LoopSurplus, LoopRetirements, BlockWords, Trip;
    if m > 0 {
      ExtraAtStart(ws, ranges, m - 1, i, x30);
      SurplusOfPrefix(Blocks(ws, ranges), m);
      LoopAt(ws, ranges, m - 1);
      LoopLength(ws, ranges[m - 1]);
      ExtraOfBlock(ws, ranges[m - 1], i, x30);
    } else {
      NoSurplus(Blocks(ws, ranges));
    }
  }

  lemma NoSurplus(bs: seq<seq<Word>>)
    ensures LoopSurplus(bs[..0]) == 0
  {
  }

  lemma StartLeft(p: Execution, ws: seq<Word>, ranges: seq<Range>)
    requires Stream(ws, ranges)
    ensures Left(ws, ranges, p.At(0)) == PREAMBLE_WORDS + |ws| + LoopSurplus(Blocks(ws, ranges))
  {
    hide Stream, Extra, Blocks;
    ExtraAtStart(ws, ranges, |ranges|, -PREAMBLE_WORDS, 0);
    var bs := Blocks(ws, ranges);
    BlockCount(ws, ranges);
    assert bs[..|ranges|] == bs;
  }

  lemma BlockCount(ws: seq<Word>, ranges: seq<Range>)
    ensures |Blocks(ws, ranges)| == |ranges|
  {
  }

  /** Termination: a generated program reaches its epilogue, stays there, and has
      then retired at most the generator's estimate plus the base register's
      words, which the estimate leaves out. */
  lemma ProgramTerminates(p: Execution, ws: seq<Word>, ranges: seq<Range>) returns (e: nat)
    requires Loaded(p.imem, ws, ranges)
    ensures forall k: nat :: Site(p.At(k)) == Epilogue(|ws|) <==> k >= e
    ensures e + 1 <= EstimatedRetirements(ws, ranges) + StreamStart(|ws|)
  {
    hide Loaded, Run, Site, Left, Blocks, LoopSurplus, Start;
    NonEmpty(p.imem, ws, ranges);
    e := ReachesEpilogueFrom(p, ws, ranges, 0);
    StartLeft(p, ws, ranges);
    forall k: nat | k >= e
      ensures Site(p.At(k)) == Epilogue(|ws|)
    {
      StaysAtEpilogue(p, ws, ranges, e, k - e);
    }
  }

  // ---- when the estimate is exact ----

  lemma {:induction false} NoExtraAtEnd(ws: seq<Word>, ranges: seq<Range>, m: nat, x30: Word)
    requires Stream(ws, ranges) && m <= |ranges|
    ensures ExtraSum(ws, ranges, m, |ws|, x30) == 0
  {
    hide Stream, Extra, LoopInPlace, Trip;
    if m > 0 {
      NoExtraAtEnd(ws, ranges, m - 1, x30);
      LoopAt(ws, ranges, m - 1);
      LoopLength(ws, ranges[m - 1]);
      NothingLeftAfter(ws, ranges[m - 1], |ws|, x30);
    }
  }

  ghost predicate SkipsBefore(p: Execution, ranges: seq<Range>, k: nat) {
    exists j: nat :: j < k && Skips(p.imem, ranges, p.At(j))
  }

  lemma {:induction false} LeftAlongRun(p: Execution, ws: seq<Word>, ranges: seq<Range>, k: nat)
    requires Loaded(p.imem, ws, ranges) && forall j: nat :: j < k ==> Site(p.At(j)) < Epilogue(|ws|)
    ensures Left(ws, ranges, p.At(k)) + k <= Left(ws, ranges, p.At(0))
    ensures Left(ws, ranges, p.At(k)) + k == Left(ws, ranges, p.At(0)) <==> !SkipsBefore(p, ranges, k)
  {
    hide Loaded, StateOk, Step, Site, Left, Run, Start, Skips;
    if k > 0 {
      LeftAlongRun(p, ws, ranges, k - 1);
      ReachedState(p, ws, ranges, k - 1);
      AtStep(p, k - 1);
      LeftDecreases(p.imem, ws, ranges, p.At(k - 1));
      LeftFallsByOne(p.imem, ws, ranges, p.At(k - 1));
      assert SkipsBefore(p, ranges, k) <==> SkipsBefore(p, ranges, k - 1) || Skips(p.imem, ranges, p.At(k - 1));
    }
  }

  lemma NothingLeftAtEpilogue(ws: seq<Word>, ranges: seq<Range>, s: Arch)
    requires Stream(ws, ranges) && Site(s) == Epilogue(|ws|)
    ensures Left(ws, ranges, s) == 0
  {
    hide Stream, Site, Extra;
    NoExtraAtEnd(ws, ranges, |ranges|, s.regs[30]);
  }

  /** The program retires exactly the estimate and the base register's words if and
      only if no branch or jump on its way skips a word. */
  lemma EstimateExactIff(p: Execution, ws: seq<Word>, ranges: seq<Range>, e: nat)
    requires Loaded(p.imem, ws, ranges) && forall k: nat :: Site(p.At(k)) == Epilogue(|ws|) <==> k >= e
    ensures e + 1 == EstimatedRetirements(ws, ranges) + StreamStart(|ws|) <==> !SkipsBefore(p, ranges, e)
  {
    hide Loaded, StateOk, Run, Site, Left, Blocks, LoopSurplus, Start, SkipsBefore;
    NonEmpty(p.imem, ws, ranges);
    forall j: nat | j < e
      ensures Site(p.At(j)) < Epilogue(|ws|)
    {
      ReachedState(p, ws, ranges, j);
      SiteBound(ws, ranges, p.At(j));
    }
    LeftAlongRun(p, ws, ranges, e);
    StartLeft(p, ws, ranges);
    NothingLeftAtEpilogue(ws, ranges, p.At(e));
  }

  // ---- how large the estimate can be ----

  lemma ProductBound(a: int, b: int)
    requires a <= 7 && b >= 0
    ensures a * b <= 7 * b
  {
  }

  function EndOf(ranges: seq<Range>, m: nat): nat
    requires m <= |ranges|
  {
    if m == 0 then 0 else ranges[m - 1].hi
  }

  /** No block runs more than eight times. */
  lemma {:induction false} ExtraBound(ws: seq<Word>, ranges: seq<Range>, m: nat, i: int, x30: Word)
    requires Stream(ws, ranges) && m <= |ranges| && i <= StreamStart(|ws|)
    ensures ExtraSum(ws, ranges, m, i, x30) <= 7 * EndOf(ranges, m)
    ensures EndOf(ranges, m) <= |ws|
  {
    hide Stream, Extra, LoopInPlace, Trip;
    if m > 0 {
      ExtraBound(ws, ranges, m - 1, i, x30);
      LoopAt(ws, ranges, m - 1);
      LoopLength(ws, ranges[m - 1]);
      AllLeftBefore(ws, ranges[m - 1], i, x30);
      ProductBound(Trip(ws, ranges[m - 1]) - 1, IterationLength(ranges[m - 1]));
      BlocksOrdered(ws, ranges);
      assert m > 1 ==> ranges[m - 2].hi <= ranges[m - 1].lo;
    }
  }

  /** Every program the generator's own length check admits ends well within
      the testbench's 20000 retirements. */
  lemma EstimateIsSmall(p: Execution, ws: seq<Word>, ranges: seq<Range>)
    requires Stream(ws, ranges)
    ensures EstimatedRetirements(ws, ranges) < 8000
  {
    hide Stream, Extra, LoopSurplus, Blocks;
    StartLeft(p, ws, ranges);
    ExtraBound(ws, ranges, |ranges|, -PREAMBLE_WORDS, 0);
    StreamFits(ws, ranges);
  }

  lemma StreamFits(ws: seq<Word>, ranges: seq<Range>)
    requires Stream(ws, ranges)
    ensures |ws| <= 975
  {
    hide BlockAt, TopWord, IsAddi, Opcode, Rd, ImmGen, Hi20, Lo12, InAnyRange;
  }

  // ---- loop blocks ----

  lemma {:induction false} BlockRuns(p: Execution, ws: seq<Word>, ranges: seq<Range>, j: nat, k: nat, d: nat)
    requires Loaded(p.imem, ws, ranges) && j < |ranges|
    requires Site(p.At(k)) == PREAMBLE_WORDS + ranges[j].lo && d <= BlockLeft(ws, ranges[j], p.At(k))
    ensures BlockLeft(ws, ranges[j], p.At(k + d)) == BlockLeft(ws, ranges[j], p.At(k)) - d
    ensures ranges[j].lo <= Site(p.At(k + d)) - PREAMBLE_WORDS <= ranges[j].hi
    ensures d < BlockLeft(ws, ranges[j], p.At(k)) ==> Site(p.At(k + d)) - PREAMBLE_WORDS < ranges[j].hi
  {
    hide Loaded, StateOk, Step, Site, Run, Start, BlockLeft;
    if d == 0 {
      BlockFilled(p.imem, ws, ranges, j);
    } else {
      BlockRuns(p, ws, ranges, j, k, d - 1);
      ReachedState(p, ws, ranges, k + d - 1);
      AtStep(p, k + d - 1);
      BlockLeftDecreases(p.imem, ws, ranges, p.At(k + d - 1), j);
    }
    AtBlockEnd(ws, ranges[j], p.At(k + d)) by { BlockFilled(p.imem, ws, ranges, j); }
  }

  lemma BlockFilled(imem: InstrMem, ws: seq<Word>, ranges: seq<Range>, j: nat)
    requires Loaded(imem, ws, ranges) && j < |ranges|
    ensures ranges[j].lo + 4 <= ranges[j].hi <= |ws| && 2 <= Trip(ws, ranges[j]) <= 8
  {
    hide Loaded, LoopInPlace, Stream, Trip;
    NonEmpty(imem, ws, ranges);
    LoopAt(ws, ranges, j);
    LoopLength(ws, ranges[j]);
  }

  lemma AtBlockEnd(ws: seq<Word>, r: Range, s: Arch)
    requires r.lo < r.hi
    ensures Site(s) - PREAMBLE_WORDS == r.hi ==> BlockLeft(ws, r, s) == 0
  {
    hide Extra;
    NothingLeftAfter(ws, r, r.hi, s.regs[30]);
  }

  /** A loop entered at its top word runs 1 + trip_count * (body_len + 2)
      instructions, all of them its own, and falls out of its end. */
  lemma LoopRetiresExactly(p: Execution, ws: seq<Word>, ranges: seq<Range>, j: nat, k: nat)
    requires Loaded(p.imem, ws, ranges) && j < |ranges|
    requires Site(p.At(k)) == PREAMBLE_WORDS + ranges[j].lo
    ensures var total := LoopRetirements(BlockWords(ws, ranges[j]));
            && total >= 1 && Site(p.At(k + total)) == PREAMBLE_WORDS + ranges[j].hi
            && forall m: nat :: k <= m < k + total ==> InRange(Site(p.At(m)) - PREAMBLE_WORDS, ranges[j])
  {
    hide Loaded, Site, Run, Start, BlockLeft, LoopRetirements, Trip, InRange, BlockWords;
    BlockFilled(p.imem, ws, ranges, j);
    BlockTotal(ws, ranges[j], p.At(k));
    BlockFinishes(p, ws, ranges, j, k, BlockLeft(ws, ranges[j], p.At(k)));
    BlockStays(p, ws, ranges, j, k);
  }

  lemma BlockFinishes(p: Execution, ws: seq<Word>, ranges: seq<Range>, j: nat, k: nat, b: nat)
    requires Loaded(p.imem, ws, ranges) && j < |ranges|
    requires Site(p.At(k)) == PREAMBLE_WORDS + ranges[j].lo && b == BlockLeft(ws, ranges[j], p.At(k))
    ensures Site(p.At(k + b)) == PREAMBLE_WORDS + ranges[j].hi
  {
    hide Loaded, StateOk, Site, Run, Start, BlockLeft, Trip;
    BlockFilled(p.imem, ws, ranges, j);
    BlockRuns(p, ws, ranges, j, k, b);
    ReachedState(p, ws, ranges, k + b);
    BlockEnds(ws, ranges, j, p.At(k + b));
  }

  lemma BlockStays(p: Execution, ws: seq<Word>, ranges: seq<Range>, j: nat, k: nat)
    requires Loaded(p.imem, ws, ranges) && j < |ranges|
    requires Site(p.At(k)) == PREAMBLE_WORDS + ranges[j].lo
    ensures forall m: nat :: k <= m < k + BlockLeft(ws, ranges[j], p.At(k)) ==>
              InRange(Site(p.At(m)) - PREAMBLE_WORDS, ranges[j])
  {
    hide Loaded, Site, Run, Start, BlockLeft;
    forall m: nat | k <= m < k + BlockLeft(ws, ranges[j], p.At(k))
      ensures InRange(Site(p.At(m)) - PREAMBLE_WORDS, ranges[j])
    {
      BlockRuns(p, ws, ranges, j, k, m - k);
    }
  }

  lemma BlockTotal(ws: seq<Word>, r: Range, s: Arch)
    requires Site(s) == PREAMBLE_WORDS + r.lo && r.lo + 4 <= r.hi <= |ws| && 2 <= Trip(ws, r)
    ensures BlockLeft(ws, r, s) == LoopRetirements(BlockWords(ws, r)) >= 1
  {
    hide Site, Offset;
    SurplusOfBlock(Trip(ws, r), r.hi - r.lo);
    AllLeftBefore(ws, r, r.lo, s.regs[30]);
    ProductSign(Trip(ws, r) - 1, IterationLength(r));
  }

  /** Nothing left in the block means its end. */
  lemma BlockEnds(ws: seq<Word>, ranges: seq<Range>, j: nat, s: Arch)
    requires StateOk(ws, ranges, s) && j < |ranges| && BlockLeft(ws, ranges[j], s) == 0
    requires ranges[j].lo + 4 <= ranges[j].hi && 2 <= Trip(ws, ranges[j])
    requires ranges[j].lo <= Site(s) - PREAMBLE_WORDS <= ranges[j].hi
    ensures Site(s) == PREAMBLE_WORDS + ranges[j].hi
  {
    hide StateOk, Extra, CounterOk, Trip;
    CounterInBlock(ws, ranges, s, j);
    ExtraNonNegative(ws, ranges[j], Site(s) - PREAMBLE_WORDS, s.regs[30]);
  }
}
