/**
 compare_accuracy.py and the truncation shared by both log parsers: what makes
 two retirement records agree, and how the two traces are cut to the same end.
 */
module TraceCompare {
  import opened Wrappers
  import opened Words

  /** One retirement. The instruction word and the index a record also carries
      take no part in the comparison. */
  datatype Record = Record(pc: Word, reg: Option<(nat, Word)>, mem: Option<(nat, Word)>)

  const BASE_OFFSET: Word := 0x8000_0000
  const ENTRY: Word := 0x8000_0000

  // ---- values_match_allowing_pc_base ----

  predicate ValuesMatch(sv: nat, spike: nat) {
    || sv == spike
    || (sv + BASE_OFFSET) % TWO_TO_32 == spike
    || sv == (spike + BASE_OFFSET) % TWO_TO_32
  }

  /** Two words match exactly when they agree in all bits but the top one. */
  lemma MatchIgnoresTopBit(sv: Word, spike: Word)
    ensures ValuesMatch(sv, spike) <==> sv % 0x8000_0000 == spike % 0x8000_0000
  {
  }

  // ---- one pair of records ----

  /** The register write a record shows: writes to x0 do not count. */
  function Effective(reg: Option<(nat, Word)>): Option<(nat, Word)> {
    if reg.Some? && reg.value.0 == 0 then None else reg
  }

  predicate RegsAgree(spike: Option<(nat, Word)>, sv: Option<(nat, Word)>) {
    match (Effective(spike), Effective(sv))
    case (None, None) => true
    case (Some(a), Some(b)) => a.0 == b.0 && ValuesMatch(b.1, a.1)
    case _ => false
  }

  predicate MemsAgree(spike: Option<(nat, Word)>, sv: Option<(nat, Word)>) {
    match (spike, sv)
    case (None, None) => true
    case (Some(a), Some(b)) => ValuesMatch(b.0, a.0) && b.1 == a.1
    case _ => false
  }

  predicate Agree(spike: Record, sv: Record, spikeBase: Word, svBase: Word) {
    && Sub(spike.pc, spikeBase) == Sub(sv.pc, svBase)
    && RegsAgree(spike.reg, sv.reg)
    && MemsAgree(spike.mem, sv.mem)
  }

  predicate NoWrite(reg: Option<(nat, Word)>) {
    reg.None? || reg.value.0 == 0
  }

  predicate SameBelowTop(x: nat, y: nat) {
    x % 0x8000_0000 == y % 0x8000_0000
  }

  lemma ValuesOfWords(sv: Word, spike: Word)
    ensures ValuesMatch(sv, spike) <==> SameBelowTop(spike, sv)
  {
    MatchIgnoresTopBit(sv, spike);
  }

  /** Addresses of 32 bits may differ in the top one. A wider one, which a log may
      hold, is the same address, or 2^31 away from a narrower one modulo 2^32. */
  predicate SameAddress(x: nat, y: nat) {
    if x < TWO_TO_32 && y < TWO_TO_32 then SameBelowTop(x, y)
    else x == y || ((x < TWO_TO_32 || y < TWO_TO_32) && (x - y - BASE_OFFSET) % TWO_TO_32 == 0)
  }

  lemma OffByBase(x: nat, y: nat)
    ensures (x + BASE_OFFSET) % TWO_TO_32 == y <==> y < TWO_TO_32 && (x - y - BASE_OFFSET) % TWO_TO_32 == 0
  {
    var d := x - y - BASE_OFFSET;
    assert x + BASE_OFFSET == y + (d + TWO_TO_32);
    if y < TWO_TO_32 {
      SameRemainder(y, d);
    }
  }

  lemma SameRemainder(y: nat, d: int)
    requires y < TWO_TO_32
    ensures (y + (d + TWO_TO_32)) % TWO_TO_32 == y <==> d % TWO_TO_32 == 0
  {
  }

  /** Half of 2^32 either way is the same. */
  lemma EitherWay(x: int, y: int)
    ensures (x - y - BASE_OFFSET) % TWO_TO_32 == 0 <==> (y - x - BASE_OFFSET) % TWO_TO_32 == 0
  {
  }

  lemma AddressesMatch(sv: nat, spike: nat)
    ensures ValuesMatch(sv, spike) <==> SameAddress(spike, sv)
  {
    if sv < TWO_TO_32 && spike < TWO_TO_32 {
      ValuesOfWords(sv, spike);
    } else {
      OffByBase(sv, spike);
      OffByBase(spike, sv);
      EitherWay(sv, spike);
    }
    hide SameBelowTop;
  }

  /** What acceptance means, in the fields of the records: both are as far from
      their base; neither writes a register other than x0, or both write the same
      one; neither stores, or both store the same word at the same address. Register
      values and addresses are the same up to the top bit. */
  predicate SameRetirement(spike: Record, sv: Record, spikeBase: Word, svBase: Word) {
    && (spike.pc - spikeBase - (sv.pc - svBase)) % TWO_TO_32 == 0
    && (|| (NoWrite(spike.reg) && NoWrite(sv.reg))
        || (!NoWrite(spike.reg) && !NoWrite(sv.reg) && spike.reg.value.0 == sv.reg.value.0
            && SameBelowTop(spike.reg.value.1, sv.reg.value.1)))
    && (|| (spike.mem.None? && sv.mem.None?)
        || (spike.mem.Some? && sv.mem.Some? && SameAddress(spike.mem.value.0, sv.mem.value.0)
            && spike.mem.value.1 == sv.mem.value.1))
  }

  lemma SameDistance(a: Word, b: Word, c: Word, d: Word)
    ensures Sub(a, b) == Sub(c, d) <==> (a - b - (c - d)) % TWO_TO_32 == 0
  {
  }

  /** The checks accept exactly the same retirements. */
  lemma AgreeIsSame(spike: Record, sv: Record, spikeBase: Word, svBase: Word)
    ensures Agree(spike, sv, spikeBase, svBase) <==> SameRetirement(spike, sv, spikeBase, svBase)
  {
    hide Sub, ValuesMatch, SameBelowTop, SameAddress;
    SameDistance(spike.pc, spikeBase, sv.pc, svBase);
    if spike.reg.Some? && sv.reg.Some? {
      ValuesOfWords(sv.reg.value.1, spike.reg.value.1);
    }
    if spike.mem.Some? && sv.mem.Some? {
      AddressesMatch(sv.mem.value.0, spike.mem.value.0);
    }
  }

  /** The body of compare's loop, check by check. */
  method CheckPair(spike: Record, sv: Record, spikeBase: Word, svBase: Word) returns (ok: bool)
    ensures ok <==> Agree(spike, sv, spikeBase, svBase)
    ensures ok <==> SameRetirement(spike, sv, spikeBase, svBase)
  {
    hide Sub, ValuesMatch, SameRetirement;
    AgreeIsSame(spike, sv, spikeBase, svBase);
    ok := true;
    if Sub(spike.pc, spikeBase) != Sub(sv.pc, svBase) {
      ok := false;
    }
    var spikeReg, svReg := spike.reg, sv.reg;
    if spikeReg.None? && svReg.Some? && svReg.value.0 == 0 {
      svReg := None;
    }
    if svReg.None? && spikeReg.Some? && spikeReg.value.0 == 0 {
      spikeReg := None;
    }
    if spikeReg.None? != svReg.None? {
      ok := false;
    } else if spikeReg.Some? {
      var (spikeRd, spikeVal) := spikeReg.value;
      var (svRd, svVal) := svReg.value;
      if spikeRd == 0 {
        spikeVal := 0;
      }
      if svRd == 0 {
        svVal := 0;
      }
      assert ValuesMatch(0, 0) by { ZeroMatches(); }
      if spikeRd != svRd {
        ok := false;
      } else if !ValuesMatch(svVal, spikeVal) {
        ok := false;
      }
    }
    if spike.mem.None? != sv.mem.None? {
      ok := false;
    } else if spike.mem.Some? {
      var addrOk := ValuesMatch(sv.mem.value.0, spike.mem.value.0);
      var valOk := sv.mem.value.1 == spike.mem.value.1;
      if !(addrOk && valOk) {
        ok := false;
      }
    }
  }

  lemma ZeroMatches()
    ensures ValuesMatch(0, 0)
  {
  }

  // ---- compare ----

  function Min(a: nat, b: nat): nat {
    if a < b then a else b
  }

  predicate AgreeAt(spike: seq<Record>, sv: seq<Record>, i: nat)
    requires i < |spike| && i < |sv|
  {
    Agree(spike[i], sv[i], spike[0].pc, sv[0].pc)
  }

  /** Indices below n at which the traces disagree, in order. */
  function Disagreements(spike: seq<Record>, sv: seq<Record>, n: nat): seq<nat>
    requires n <= |spike| && n <= |sv|
  {
    if n == 0 then []
    else Disagreements(spike, sv, n - 1) + if AgreeAt(spike, sv, n - 1) then [] else [n - 1]
  }

  /** The first n pairs are the same retirements, seen from the first pair. */
  ghost predicate AllSame(spike: seq<Record>, sv: seq<Record>, n: nat)
    requires n <= |spike| && n <= |sv|
  {
    forall i :: 0 <= i < n ==> SameRetirement(spike[i], sv[i], spike[0].pc, sv[0].pc)
  }

  /** A pair is listed exactly if it is not the same retirement. */
  lemma {:induction false} ScoreMeans(spike: seq<Record>, sv: seq<Record>, n: nat)
    requires n <= |spike| && n <= |sv|
    ensures |Disagreements(spike, sv, n)| <= n
    ensures |Disagreements(spike, sv, n)| == 0 <==> AllSame(spike, sv, n)
    ensures forall i: nat :: i in Disagreements(spike, sv, n) <==>
              i < n && !SameRetirement(spike[i], sv[i], spike[0].pc, sv[0].pc)
  {
    hide Agree, SameRetirement;
    if n > 0 {
      ScoreMeans(spike, sv, n - 1);
      AgreeIsSame(spike[n - 1], sv[n - 1], spike[0].pc, sv[0].pc);
    }
  }

  predicate Ascending(d: seq<nat>, n: nat) {
    (forall i :: 0 <= i < |d| ==> d[i] < n) && (forall i, j :: 0 <= i < j < |d| ==> d[i] < d[j])
  }

  lemma AscendingOn(d: seq<nat>, n: nat)
    requires Ascending(d, n)
    ensures Ascending(d, n + 1) && Ascending(d + [], n + 1) && Ascending(d + [n], n + 1)
  {
    assert d + [] == d;
  }

  /** And once, in order. */
  lemma {:induction false} ListedInOrder(spike: seq<Record>, sv: seq<Record>, n: nat)
    requires n <= |spike| && n <= |sv|
    ensures Ascending(Disagreements(spike, sv, n), n)
  {
    hide AgreeAt;
    if n > 0 {
      ListedInOrder(spike, sv, n - 1);
      AscendingOn(Disagreements(spike, sv, n - 1), n - 1);
    }
  }

  lemma NextPair(spike: seq<Record>, sv: seq<Record>, i: nat)
    requires i < |spike| && i < |sv|
    ensures Disagreements(spike, sv, i + 1) ==
            Disagreements(spike, sv, i) + if AgreeAt(spike, sv, i) then [] else [i]
  {
    hide Agree;
  }

  lemma NothingCompared(spike: seq<Record>, sv: seq<Record>)
    ensures Disagreements(spike, sv, 0) == []
  {
  }

  /** compare on two trimmed and truncated traces; at most 15 mismatches are kept
      for the report. */
  method Compare(spike: seq<Record>, sv: seq<Record>) returns (total: nat, passed: nat, mismatches: seq<nat>)
    ensures total == Min(|spike|, |sv|)
    ensures passed <= total && (passed == total <==> AllSame(spike, sv, total))
    ensures passed == total - |Disagreements(spike, sv, total)|
    ensures mismatches == Disagreements(spike, sv, total)[..Min(15, |Disagreements(spike, sv, total)|)]
  {
    hide Agree, SameRetirement, AllSame, Disagreements;
    var n := Min(|spike|, |sv|);
    ScoreMeans(spike, sv, n);
    NothingCompared(spike, sv);
    total, passed, mismatches := 0, 0, [];
    if n == 0 {
      return;
    }
    for i := 0 to n
      invariant total == i
      invariant passed == i - |Disagreements(spike, sv, i)|
      invariant mismatches == Disagreements(spike, sv, i)[..Min(15, |Disagreements(spike, sv, i)|)]
    {
      NextPair(spike, sv, i);
      total := total + 1;
      var ok := CheckPair(spike[i], sv[i], spike[0].pc, sv[0].pc);
      if ok {
        passed := passed + 1;
      } else if |mismatches| < 15 {
        mismatches := mismatches + [i];
      }
    }
  }

  /** The score is full exactly when every pair of records agrees. */
  lemma {:induction false} FullScore(spike: seq<Record>, sv: seq<Record>, n: nat)
    requires n <= |spike| && n <= |sv|
    ensures |Disagreements(spike, sv, n)| == 0 <==> forall i :: 0 <= i < n ==> AgreeAt(spike, sv, i)
    ensures |Disagreements(spike, sv, n)| <= n
  {
    hide Agree;
    if n > 0 {
      FullScore(spike, sv, n - 1);
    }
  }

  // ---- trim_boot_stub ----

  /** Everything from the first record at entry; all of it if there is none. */
  predicate Trimmed(records: seq<Record>, entry: Word, r: seq<Record>) {
    && |r| <= |records| && r == records[|records| - |r|..]
    && (forall k :: 0 <= k < |records| - |r| ==> records[k].pc != entry)
    && ((|r| > 0 && r[0].pc == entry) || (r == records && forall k :: 0 <= k < |records| ==> records[k].pc != entry))
  }

  method TrimBootStub(records: seq<Record>, entry: Word) returns (r: seq<Record>)
    ensures Trimmed(records, entry, r)
  {
    for i := 0 to |records|
      invariant forall k :: 0 <= k < i ==> records[k].pc != entry
    {
      if records[i].pc == entry {
        return records[i..];
      }
    }
    return records;
  }

  /** A stub that never visits entry is cut off exactly. */
  lemma StubTrimmed(stub: seq<Record>, program: seq<Record>, entry: Word, r: seq<Record>)
    requires Trimmed(stub + program, entry, r)
    requires forall k :: 0 <= k < |stub| ==> stub[k].pc != entry
    requires |program| > 0 && program[0].pc == entry
    ensures r == program
  {
    var all := stub + program;
    assert all[|stub|].pc == entry && all[|stub|..] == program;
    assert forall k :: 0 <= k < |stub| ==> all[k] == stub[k];
  }

  // ---- truncate_at_self_loop ----

  /** t consecutive records from s with one pc. */
  predicate SamePc(records: seq<Record>, s: nat, t: nat) {
    s + t <= |records| && forall j :: s <= j < s + t ==> records[j].pc == records[s].pc
  }

  predicate FirstRun(records: seq<Record>, s: nat, t: nat) {
    SamePc(records, s, t) && forall k: nat :: k < s ==> !SamePc(records, k, t)
  }

  /** Cut after the first record of the first run of t; whole if there is none. */
  ghost predicate Truncated(records: seq<Record>, t: nat, r: seq<Record>) {
    && |r| <= |records| && r == records[..|r|]
    && ((|r| > 0 && FirstRun(records, |r| - 1, t)) ||
        (r == records && forall s: nat :: !SamePc(records, s, t)))
  }

  /** What a threshold below 2 gives: the first repeat of a pc is already a run, so
      the cut is behind the first pair of equal pcs, and further on the smaller the
      threshold. */
  ghost predicate CutAtPair(records: seq<Record>, threshold: int, r: seq<Record>)
    requires threshold < 2
  {
    || (exists s: nat :: FirstRun(records, s, 2) && r == records[..Least(s + 3 - threshold, |records|)])
    || (r == records && forall s: nat :: !SamePc(records, s, 2))
  }

  function Least(a: int, b: int): int {
    if a < b then a else b
  }

  method TruncateAtSelfLoop(records: seq<Record>, threshold: int) returns (r: seq<Record>)
    ensures threshold >= 2 ==> Truncated(records, threshold, r)
    ensures threshold < 2 ==> CutAtPair(records, threshold, r)
  {
    if records == [] {
      return records;
    }
    var runPc, runLen := records[0].pc, 1;
    ghost var t := if threshold < 2 then 2 else threshold;
    for i := 1 to |records|
      invariant 1 <= runLen <= i && runLen < t
      invariant forall j :: i - runLen <= j < i ==> records[j].pc == runPc
      invariant i - runLen == 0 || records[i - runLen - 1].pc != runPc
      invariant forall s: nat :: s + t <= i ==> !SamePc(records, s, t)
    {
      if records[i].pc == runPc {
        runLen := runLen + 1;
        if runLen >= threshold {
          assert FirstRun(records, i - t + 1, t);
          return records[..Least(i - threshold + 2, |records|)];
        }
      } else {
        runPc := records[i].pc;
        runLen := 1;
      }
    }
    return records;
  }

  /** The result is unique, so Truncated is a function of the records. */
  lemma TruncatedUnique(records: seq<Record>, t: nat, r: seq<Record>, r': seq<Record>)
    requires Truncated(records, t, r) && Truncated(records, t, r')
    ensures r == r'
  {
    if |r| > 0 && FirstRun(records, |r| - 1, t) && |r'| > 0 && FirstRun(records, |r'| - 1, t) {
      assert |r| == |r'|;
    }
  }

  /** Truncating twice is truncating once. */
  lemma TruncateIdempotent(records: seq<Record>, t: nat, r: seq<Record>)
    requires t >= 2 && Truncated(records, t, r)
    ensures Truncated(r, t, r)
  {
    assert r == r[..|r|];
    forall s: nat
      ensures !SamePc(r, s, t)
    {
      if SamePc(r, s, t) {
        assert SamePc(records, s, t);
      }
    }
  }

  /** How much longer the simulator spun does not matter. */
  lemma TruncateIgnoresTail(records: seq<Record>, t: nat, s: nat, more: seq<Record>, r: seq<Record>)
    requires t >= 1 && FirstRun(records, s, t) && Truncated(records, t, r)
    ensures |r| == s + 1 && Truncated(records + more, t, r)
  {
    assert SamePc(records, s, t) && |r| == s + 1;
    assert (records + more)[..s + 1] == records[..s + 1];
    assert SamePc(records + more, s, t);
    forall k: nat | k < s
      ensures !SamePc(records + more, k, t)
    {
      assert !SamePc(records, k, t);
    }
  }

  /** pcs a base apart, as far as both traces go. */
  predicate PcsShifted(a: seq<Record>, b: seq<Record>, base: Word) {
    forall i :: 0 <= i < |a| && i < |b| ==> b[i].pc == Add(a[i].pc, base)
  }

  lemma AddInjective(a: Word, b: Word, base: Word)
    ensures Add(a, base) == Add(b, base) <==> a == b
  {
  }

  lemma SamePcShifted(a: seq<Record>, b: seq<Record>, base: Word, s: nat, t: nat)
    requires PcsShifted(a, b, base) && s + t <= |a| && s + t <= |b|
    ensures SamePc(a, s, t) <==> SamePc(b, s, t)
  {
    hide Add;
    forall j | s <= j < s + t
      ensures a[j].pc == a[s].pc <==> b[j].pc == b[s].pc
    {
      AddInjective(a[j].pc, a[s].pc, base);
    }
  }

  /** Traces of equal length are cut at the same place. */
  lemma CutShifted(a: seq<Record>, b: seq<Record>, base: Word, t: nat, rb: seq<Record>)
    requires PcsShifted(a, b, base) && |a| == |b| && Truncated(b, t, rb)
    ensures Truncated(a, t, a[..|rb|])
  {
    hide Add, SamePc;
    forall s: nat
      ensures SamePc(a, s, t) <==> SamePc(b, s, t)
    {
      if s + t <= |a| {
        SamePcShifted(a, b, base, s, t);
      } else {
        RunTooLong(a, s, t);
        RunTooLong(b, s, t);
      }
    }
    assert a[..|a|] == a;
  }

  lemma RunTooLong(a: seq<Record>, s: nat, t: nat)
    requires s + t > |a|
    ensures !SamePc(a, s, t)
  {
  }

  /** Two simulators stopped at different budgets inside the same self-loop are
      cut to equally many records, pc for pc a base apart. */
  lemma TruncateShifted(a: seq<Record>, b: seq<Record>, base: Word, t: nat, s: nat, ra: seq<Record>, rb: seq<Record>)
    requires t >= 1 && PcsShifted(a, b, base) && Truncated(a, t, ra) && Truncated(b, t, rb)
    requires FirstRun(a, s, t) && s + t <= |b|
    ensures |ra| == s + 1 && |rb| == s + 1 && PcsShifted(ra, rb, base)
  {
    hide Add, SamePc;
    RunFits(a, s, t);
    assert FirstRun(b, s, t) by {
      SamePcShifted(a, b, base, s, t);
      forall k: nat | k < s
        ensures !SamePc(b, k, t)
      {
        SamePcShifted(a, b, base, k, t);
      }
    }
    assert SamePc(a, s, t) && SamePc(b, s, t);
  }

  lemma RunFits(a: seq<Record>, s: nat, t: nat)
    requires FirstRun(a, s, t)
    ensures s + t <= |a|
  {
  }
}
