/**
 src/main.cpp as the source writes it: three globals changed in place, proved
 against CppSimulator's functions.
 */
module Simulator {
  import opened Words
  import opened Datapath
  import opened CppSimulator
  import opened Sequential
  import opened Equivalence

  class Simulator {
    const registers: array<Word>
    var pc: Word
    const memory: array<Byte>

    ghost predicate Valid() {
      registers.Length == 32 && memory.Length == 4096
    }

    ghost function State(): CppState
      requires Valid()
      reads this, registers, memory
    {
      CppState(registers[..], pc, memory[..])
    }

    /** The zero-initialised globals. */
    constructor ()
      ensures Valid() && fresh(registers) && fresh(memory)
      ensures State() == CppState(seq(32, _ => 0), 0, seq(4096, _ => 0))
    {
      registers, memory := new Word[32](_ => 0), new Byte[4096](_ => 0);
      pc := 0;
    }

    method WriteReg(rd: RegIdx, value: Word)
      requires Valid()
      modifies registers
      ensures registers[..] == Datapath.WriteReg(old(State()).regs, rd, value)
    {
      if rd != 0 {
        registers[rd] := value;
      }
    }

    method PutByte(address: Word, value: Byte)
      requires Valid()
      modifies memory
      ensures memory[..] == CppSimulator.PutByte(old(State()).mem, address, value)
    {
      if address < 4096 {
        memory[address] := value;
      }
    }

    /** store_word, which ignores a word that does not fit. */
    method StoreWord(address: Word, value: Word)
      requires Valid()
      modifies memory
      ensures memory[..] == if Add(address, 3) >= 4096 then old(State()).mem else PutWord(old(State()).mem, address, value)
    {
      hide Add, CppSimulator.PutByte;
      if Add(address, 3) >= 4096 {
        return;
      }
      PutByte(address, value % 256);
      PutByte(Add(address, 1), value / 256 % 256);
      PutByte(Add(address, 2), value / 65536 % 256);
      PutByte(Add(address, 3), value / 16777216);
    }

    /** load_from_file on the words of the file's lines. */
    method LoadWords(words: seq<Word>)
      requires Valid()
      modifies memory
      ensures forall i :: 0 <= i < 1024 ==>
                GetWord(memory[..], 4 * i) == LineFor(words, i, GetWord(old(State()).mem, 4 * i))
    {
      hide GetWord, PutWord, Add;
      var address: Word := 0;
      for k := 0 to |words|
        invariant address == Wrap(4 * k)
        invariant forall i :: 0 <= i < 1024 ==>
                    GetWord(memory[..], 4 * i) == LineFor(words[..k], i, GetWord(old(State()).mem, 4 * i))
      {
        ghost var before := memory[..];
        assert words[..k + 1][..k] == words[..k];
        NextAddress(k);
        LastByte(address);
        StoreWord(address, words[k]);
        forall i | 0 <= i < 1024
          ensures GetWord(memory[..], 4 * i) == if i == k % ADDRESSES then words[k] else GetWord(before, 4 * i)
        {
          if k % ADDRESSES < 1024 {
            WordAfterStore(before, address, words[k], 4 * i);
          }
        }
        address := Add(address, 4);
      }
      assert words[..|words|] == words;
    }

    method FetchInstruction(address: Word) returns (w: Word)
      requires Valid()
      ensures w == GetWord(memory[..], address)
    {
      var a1, a2, a3 := Add(address, 1), Add(address, 2), Add(address, 3);
      var b0: int := if address < 4096 then memory[address] else 0;
      var b1: int := if a1 < 4096 then memory[a1] else 0;
      var b2: int := if a2 < 4096 then memory[a2] else 0;
      var b3: int := if a3 < 4096 then memory[a3] else 0;
      w := b0 + b1 * 256 + b2 * 65536 + b3 * 16777216;
    }

    /** The byte, half-word and word stores of case 0x23. */
    method Store(f3: int, address: Word, value: Word)
      requires Valid()
      modifies memory
      ensures memory[..] == StoreValue(f3, old(State()).mem, address, value)
    {
      hide Add, CppSimulator.PutByte;
      if f3 == 0 {
        PutByte(address, value % 256);
      } else if f3 == 1 {
        PutByte(address, value % 256);
        PutByte(Add(address, 1), value / 256 % 256);
      } else if f3 == 2 {
        PutByte(address, value % 256);
        PutByte(Add(address, 1), value / 256 % 256);
        PutByte(Add(address, 2), value / 65536 % 256);
        PutByte(Add(address, 3), value / 16777216);
      }
    }

    method Load(w: Word)
      requires Valid()
      modifies registers
      ensures registers[..] == LoadEffect(old(State()), w)
    {
      hide Add, SignExtend12, LoadValue, Datapath.WriteReg, Funct3, Rs1, Rd;
      var address := Add(registers[Rs1(w)], SignExtend12(w / 1048576));
      if Add(address, 3) < 4096 {
        match LoadValue(Funct3(w), memory[..], address) {
          case NoValue =>
          case Value(v) => WriteReg(Rd(w), v);
        }
      }
    }

    method Branch(w: Word)
      requires Valid()
      modifies this`pc
      ensures pc == if BranchCondition(Funct3(w), registers[Rs1(w)], registers[Rs2(w)])
                    then Sub(Add(old(pc), DecodeImmB(w)), 4) else old(pc)
    {
      hide Add, Sub, DecodeImmB, BranchCondition, Funct3, Rs1, Rs2;
      if BranchCondition(Funct3(w), registers[Rs1(w)], registers[Rs2(w)]) {
        pc := Sub(Add(pc, DecodeImmB(w)), 4);
      }
    }

    method DecodeAndExecute(w: Word)
      requires Valid()
      modifies this, registers, memory
      ensures State() == CppSimulator.DecodeAndExecute(old(State()), w)
    {
      hide Add, Sub, SignExtend12, DecodeImmB, DecodeImmJ, DecodeImmS, ImmResult, RegResult, LoadEffect, StoreValue,
           BranchCondition, Datapath.WriteReg, Opcode, Funct3, Funct7, Rd, Rs1, Rs2;
      var op, a, b := Opcode(w), registers[Rs1(w)], registers[Rs2(w)];
      if op == OP_IMM {
        WriteReg(Rd(w), ImmResult(w, a));
      } else if op == OP_REG {
        WriteReg(Rd(w), RegResult(w, a, b));
      } else if op == OP_STORE {
        Store(Funct3(w), Add(a, DecodeImmS(w)), b);
      } else if op == OP_BRANCH {
        Branch(w);
      } else if op == OP_LOAD {
        Load(w);
      } else if op == OP_JALR {
        var target := Add(a, SignExtend12(w / 1048576));
        target := target - target % 2;
        WriteReg(Rd(w), Add(pc, 4));
        pc := Sub(target, 4);
      } else if op == OP_LUI {
        WriteReg(Rd(w), w / 4096 * 4096);
      } else if op == OP_AUIPC {
        WriteReg(Rd(w), Add(pc, w / 4096 * 4096));
      } else if op == OP_JAL {
        WriteReg(Rd(w), Add(pc, 4));
        pc := Sub(Add(pc, DecodeImmJ(w)), 4);
      } else if op == OP_SYSTEM {
        if registers[17] == 10 {
          pc := 4096;
        }
      }
    }

    /** run_sim, stopped after limit iterations if the program has not ended: all of
        them were run, or the program ended before. */
    method RunSim(limit: nat) returns (ended: bool)
      requires Valid()
      modifies this, registers, memory
      ensures State() == Simulate(old(State()), limit)
      ensures ended ==> pc >= 4096 || GetWord(memory[..], pc) == 0
      ensures ended <==> exists i: nat :: i < limit && Ended(Simulate(old(State()), i))
    {
      hide CppSimulator.DecodeAndExecute, GetWord;
      ghost var start := State();
      for i := 0 to limit
        invariant State() == Simulate(start, i)
        invariant forall k: nat :: k < i ==> !Ended(Simulate(start, k))
      {
        var w := FetchInstruction(pc);
        if pc >= 4096 || w == 0 {
          SimulateStuck(start, i, limit);
          assert Ended(Simulate(start, i));
          return true;
        }
        DecodeAndExecute(w);
        pc := Add(pc, 4);
      }
      ended := false;
    }
  }

  /** Words a 32-bit address can name. */
  const ADDRESSES := 0x4000_0000

  /** The line that ends up in word i: the addresses of a long file wrap, so it is
      the last one whose number is i modulo 2^30. */
  function LineFor(words: seq<Word>, i: nat, start: Word): Word {
    if words == [] then start
    else if (|words| - 1) % ADDRESSES == i then words[|words| - 1]
    else LineFor(words[..|words| - 1], i, start)
  }

  /** In a file whose addresses do not wrap that is line i. */
  lemma {:induction false} LineForIsLine(words: seq<Word>, i: nat, start: Word)
    requires |words| <= ADDRESSES
    ensures LineFor(words, i, start) == if i < |words| then words[i] else start
  {
    if words != [] {
      LineForIsLine(words[..|words| - 1], i, start);
    }
  }

  /** In any file it is a line at distance a multiple of 2^30, with none after it. */
  lemma {:induction false} LineForIsLast(words: seq<Word>, i: nat, start: Word, j: nat)
    requires j < |words| <= j + ADDRESSES && j % ADDRESSES == i
    ensures LineFor(words, i, start) == words[j]
  {
    if j < |words| - 1 {
      NoOtherLine(|words| - 1, j);
      LineForIsLast(words[..|words| - 1], i, start, j);
    }
  }

  lemma NoOtherLine(k: nat, j: nat)
    requires j < k < j + ADDRESSES
    ensures k % ADDRESSES != j % ADDRESSES
  {
  }

  lemma NextAddress(k: nat)
    ensures Wrap(4 * k) == 4 * (k % ADDRESSES) && Add(Wrap(4 * k), 4) == Wrap(4 * (k + 1))
  {
  }

  lemma LastByte(a: Word)
    requires a % 4 == 0
    ensures Add(a, 3) == a + 3
  {
  }

  /** A zeroed simulator with the program loaded starts related to the sequential
      machine with the same program and a zeroed data memory. */
  lemma LoadedIsRelated(imem: InstrMem, words: seq<Word>, cs: CppState)
    requires |words| <= 1024 && cs.pc == 0 && cs.regs == seq(32, _ => 0)
    requires forall i :: 0 <= i < |words| ==> imem[i] == words[i]
    requires forall i :: 0 <= i < 1024 ==> GetWord(cs.mem, 4 * i) == LineFor(words, i, 0)
    ensures Related(imem, Start(seq(1024, _ => 0)), cs, 4 * |words|)
  {
    hide GetWord, LineFor;
    forall i: nat
      ensures LineFor(words, i, 0) == if i < |words| then words[i] else 0
    {
      LineForIsLine(words, i, 0);
    }
  }

  /** pc has left the memory, or is at a zero word. */
  predicate Ended(s: CppState) {
    s.pc >= 4096 || GetWord(s.mem, s.pc) == 0
  }

  /** One more iteration is run exactly if the program has not ended. */
  lemma SimulateNext(s: CppState, n: nat)
    ensures var t := Simulate(s, n);
            Simulate(s, n + 1) == if Ended(t) then t else Iterate(t)
  {
    hide GetWord, Iterate;
  }

  /** Once the loop's condition fails nothing changes any more. */
  lemma {:induction false} SimulateStuck(s: CppState, n: nat, m: nat)
    requires n <= m && !Running(Simulate(s, n))
    ensures Simulate(s, m) == Simulate(s, n)
  {
    hide Iterate, Running;
    if n < m {
      SimulateStuck(s, n, m - 1);
    }
  }
}
