/**
 gen_program.py's instruction encoders, and the round trip through the RTL's
 field slices and imm_gen.sv.
 */
module Encoding {
  import opened Words
  import opened Bits
  import opened Datapath

  // ---- the encoders: shifts and ors, immediates masked to their width ----

  function EncR(op: nat, f3: nat, f7: nat, rd: RegIdx, rs1: RegIdx, rs2: RegIdx): Word
    requires op < 128 && f3 < 8 && f7 < 128
  {
    BitOr(BitOr(BitOr(BitOr(BitOr(f7 * 33554432, rs2 * 1048576), rs1 * 32768), f3 * 4096), rd * 128), op)
  }

  function EncI(op: nat, f3: nat, rd: RegIdx, rs1: RegIdx, imm: int): Word
    requires op < 128 && f3 < 8
  {
    BitOr(BitOr(BitOr(BitOr(imm % 4096 * 1048576, rs1 * 32768), f3 * 4096), rd * 128), op)
  }

  function EncShift(op: nat, f3: nat, f7: nat, rd: RegIdx, rs1: RegIdx, shamt: int): Word
    requires op < 128 && f3 < 8 && f7 < 128
  {
    BitOr(BitOr(BitOr(BitOr(BitOr(f7 * 33554432, shamt % 32 * 1048576), rs1 * 32768), f3 * 4096), rd * 128), op)
  }

  function EncS(op: nat, f3: nat, rs1: RegIdx, rs2: RegIdx, imm: int): Word
    requires op < 128 && f3 < 8
  {
    var m := imm % 4096;
    BitOr(BitOr(BitOr(BitOr(BitOr(m / 32 * 33554432, rs2 * 1048576), rs1 * 32768), f3 * 4096), m % 32 * 128), op)
  }

  function EncB(op: nat, f3: nat, rs1: RegIdx, rs2: RegIdx, imm: int): Word
    requires op < 128 && f3 < 8
  {
    var m := imm % 8192;
    var b12, b11, b10, b4 := m / 4096 % 2, m / 2048 % 2, m / 32 % 64, m / 2 % 16;
    BitOr(BitOr(BitOr(BitOr(BitOr(BitOr(BitOr(
      b12 * 0x8000_0000, b10 * 33554432), rs2 * 1048576), rs1 * 32768), f3 * 4096), b4 * 256), b11 * 128), op)
  }

  function EncU(op: nat, rd: RegIdx, imm20: int): Word
    requires op < 128
  {
    BitOr(BitOr(imm20 % 1048576 * 4096, rd * 128), op)
  }

  function EncJ(op: nat, rd: RegIdx, imm: int): Word
    requires op < 128
  {
    var m := imm % 2097152;
    var b20, b19, b11, b10 := m / 1048576 % 2, m / 4096 % 256, m / 2048 % 2, m / 2 % 1024;
    BitOr(BitOr(BitOr(BitOr(BitOr(
      b20 * 0x8000_0000, b19 * 4096), b11 * 1048576), b10 * 2097152), rd * 128), op)
  }

  // ---- words as six fields ----

  function Pack(f7: nat, rs2: nat, rs1: nat, f3: nat, rd: nat, op: nat): Word
    requires f7 < 128 && rs2 < 32 && rs1 < 32 && f3 < 8 && rd < 32 && op < 128
  {
    f7 * 33554432 + rs2 * 1048576 + rs1 * 32768 + f3 * 4096 + rd * 128 + op
  }

  /** Or-ing the six fields in from the top is Pack. */
  lemma OrsArePack(f7: nat, rs2: nat, rs1: nat, f3: nat, rd: nat, op: nat)
    requires f7 < 128 && rs2 < 32 && rs1 < 32 && f3 < 8 && rd < 32 && op < 128
    ensures BitOr(BitOr(BitOr(BitOr(BitOr(f7 * 33554432, rs2 * 1048576), rs1 * 32768), f3 * 4096), rd * 128), op)
            == Pack(f7, rs2, rs1, f3, rd, op)
    ensures BitOr(BitOr(BitOr(BitOr((f7 * 32 + rs2) * 1048576, rs1 * 32768), f3 * 4096), rd * 128), op)
            == Pack(f7, rs2, rs1, f3, rd, op)
    ensures BitOr(BitOr((f7 * 8192 + rs2 * 256 + rs1 * 8 + f3) * 4096, rd * 128), op) == Pack(f7, rs2, rs1, f3, rd, op)
  {
    PowersUsed();
    hide BitOr, Pow2;
    OrIsSum(f7, rs2 * 1048576, 25, 33554432);
    OrIsSum(f7 * 32 + rs2, rs1 * 32768, 20, 1048576);
    OrIsSum(f7 * 1024 + rs2 * 32 + rs1, f3 * 4096, 15, 32768);
    OrIsSum(f7 * 8192 + rs2 * 256 + rs1 * 8 + f3, rd * 128, 12, 4096);
    OrIsSum(f7 * 262144 + rs2 * 8192 + rs1 * 256 + f3 * 32 + rd, op, 7, 128);
  }

  /** The word shifted right by each field boundary. */
  lemma PackShifts(f7: nat, rs2: nat, rs1: nat, f3: nat, rd: nat, op: nat)
    requires f7 < 128 && rs2 < 32 && rs1 < 32 && f3 < 8 && rd < 32 && op < 128
    ensures var w := Pack(f7, rs2, rs1, f3, rd, op);
            && w % 128 == op
            && w / 128 == f7 * 262144 + rs2 * 8192 + rs1 * 256 + f3 * 32 + rd
            && w / 256 == f7 * 131072 + rs2 * 4096 + rs1 * 128 + f3 * 16 + rd / 2
            && w / 4096 == f7 * 8192 + rs2 * 256 + rs1 * 8 + f3
            && w / 32768 == f7 * 1024 + rs2 * 32 + rs1
            && w / 1048576 == f7 * 32 + rs2
            && w / 2097152 == f7 * 16 + rs2 / 2
            && w / 33554432 == f7
  {
    var w := Pack(f7, rs2, rs1, f3, rd, op);
    SplitAt(w, f7 * 262144 + rs2 * 8192 + rs1 * 256 + f3 * 32 + rd, op, 128);
    SplitAt(w, f7 * 131072 + rs2 * 4096 + rs1 * 128 + f3 * 16 + rd / 2, rd % 2 * 128 + op, 256);
    SplitAt(w, f7 * 8192 + rs2 * 256 + rs1 * 8 + f3, rd * 128 + op, 4096);
    SplitAt(w, f7 * 1024 + rs2 * 32 + rs1, f3 * 4096 + rd * 128 + op, 32768);
    SplitAt(w, f7 * 32 + rs2, rs1 * 32768 + f3 * 4096 + rd * 128 + op, 1048576);
    SplitAt(w, f7 * 16 + rs2 / 2, rs2 % 2 * 1048576 + rs1 * 32768 + f3 * 4096 + rd * 128 + op, 2097152);
    SplitAt(w, f7, rs2 * 1048576 + rs1 * 32768 + f3 * 4096 + rd * 128 + op, 33554432);
  }

  /** The RTL's slices take the fields apart again. */
  lemma PackFields(f7: nat, rs2: nat, rs1: nat, f3: nat, rd: nat, op: nat)
    requires f7 < 128 && rs2 < 32 && rs1 < 32 && f3 < 8 && rd < 32 && op < 128
    ensures var w := Pack(f7, rs2, rs1, f3, rd, op);
            Opcode(w) == op && Rd(w) == rd && Funct3(w) == f3 && Rs1(w) == rs1 && Rs2(w) == rs2 && Funct7(w) == f7
  {
    PackShifts(f7, rs2, rs1, f3, rd, op);
    SplitAt(f7 * 262144 + rs2 * 8192 + rs1 * 256 + f3 * 32 + rd, f7 * 8192 + rs2 * 256 + rs1 * 8 + f3, rd, 32);
    SplitAt(f7 * 8192 + rs2 * 256 + rs1 * 8 + f3, f7 * 1024 + rs2 * 32 + rs1, f3, 8);
    SplitAt(f7 * 1024 + rs2 * 32 + rs1, f7 * 32 + rs2, rs1, 32);
    SplitAt(f7 * 32 + rs2, f7, rs2, 32);
    hide Pack;
  }

  /** The bit groups imm_gen.sv picks out. */
  lemma PackLowBits(f7: nat, rs2: nat, rs1: nat, f3: nat, rd: nat, op: nat)
    requires f7 < 128 && rs2 < 32 && rs1 < 32 && f3 < 8 && rd < 32 && op < 128
    ensures var w := Pack(f7, rs2, rs1, f3, rd, op);
            w / 128 % 2 == rd % 2 && w / 256 % 16 == rd / 2 && w / 4096 % 256 == rs1 * 8 + f3
  {
    PackShifts(f7, rs2, rs1, f3, rd, op);
    hide Pack;
    SplitAt(f7 * 262144 + rs2 * 8192 + rs1 * 256 + f3 * 32 + rd, f7 * 131072 + rs2 * 4096 + rs1 * 128 + f3 * 16 + rd / 2,
            rd % 2, 2);
    SplitAt(f7 * 131072 + rs2 * 4096 + rs1 * 128 + f3 * 16 + rd / 2, f7 * 8192 + rs2 * 256 + rs1 * 8 + f3, rd / 2, 16);
    SplitAt(f7 * 8192 + rs2 * 256 + rs1 * 8 + f3, f7 * 32 + rs2, rs1 * 8 + f3, 256);
  }

  lemma PackHighBits(f7: nat, rs2: nat, rs1: nat, f3: nat, rd: nat, op: nat)
    requires f7 < 128 && rs2 < 32 && rs1 < 32 && f3 < 8 && rd < 32 && op < 128
    ensures var w := Pack(f7, rs2, rs1, f3, rd, op);
            w / 1048576 % 2 == rs2 % 2 && w / 2097152 % 1024 == f7 % 64 * 16 + rs2 / 2
  {
    PackShifts(f7, rs2, rs1, f3, rd, op);
    hide Pack;
    SplitAt(f7 * 32 + rs2, f7 * 16 + rs2 / 2, rs2 % 2, 2);
    SplitAt(f7 * 16 + rs2 / 2, f7 / 64, f7 % 64 * 16 + rs2 / 2, 1024);
  }

  lemma PackSign(f7: nat, rs2: nat, rs1: nat, f3: nat, rd: nat, op: nat)
    requires f7 < 128 && rs2 < 32 && rs1 < 32 && f3 < 8 && rd < 32 && op < 128
    ensures Pack(f7, rs2, rs1, f3, rd, op) >= 0x8000_0000 <==> f7 >= 64
  {
  }

  /** imm_gen.sv on the six fields. */
  lemma PackImm(f7: nat, rs2: nat, rs1: nat, f3: nat, rd: nat, op: nat)
    requires f7 < 128 && rs2 < 32 && rs1 < 32 && f3 < 8 && rd < 32 && op < 128
    ensures var imm := ImmGen(Pack(f7, rs2, rs1, f3, rd, op));
            var sign := if f7 >= 64 then 0xFFFF_F000 else 0;
            && (op in {OP_IMM, OP_LOAD, OP_JALR} ==> imm == sign + f7 * 32 + rs2)
            && (op == OP_STORE ==> imm == sign + f7 * 32 + rd)
            && (op == OP_BRANCH ==> imm == sign + rd % 2 * 2048 + f7 % 64 * 32 + rd / 2 * 2)
            && (op == OP_JAL ==> imm == (if f7 >= 64 then 0xFFF0_0000 else 0)
                                        + (rs1 * 8 + f3) * 4096 + rs2 % 2 * 2048 + (f7 % 64 * 16 + rs2 / 2) * 2)
            && (op in {OP_LUI, OP_AUIPC} ==> imm == (f7 * 8192 + rs2 * 256 + rs1 * 8 + f3) * 4096)
  {
    hide Pack, Opcode, Funct7, Rd;
    PackFields(f7, rs2, rs1, f3, rd, op);
    PackShifts(f7, rs2, rs1, f3, rd, op);
    PackLowBits(f7, rs2, rs1, f3, rd, op);
    PackHighBits(f7, rs2, rs1, f3, rd, op);
    PackSign(f7, rs2, rs1, f3, rd, op);
  }

  predicate HasFields(w: Word, op: nat, f3: nat, f7: nat, rd: nat, rs1: nat, rs2: nat) {
    Opcode(w) == op && Funct3(w) == f3 && Funct7(w) == f7 && Rd(w) == rd && Rs1(w) == rs1 && Rs2(w) == rs2
  }

  // ---- round trips: encode, then slice and extend as the RTL does ----

  lemma RoundTripR(op: nat, f3: nat, f7: nat, rd: RegIdx, rs1: RegIdx, rs2: RegIdx)
    requires op < 128 && f3 < 8 && f7 < 128
    ensures HasFields(EncR(op, f3, f7, rd, rs1, rs2), op, f3, f7, rd, rs1, rs2)
  {
    hide BitOr, Pack, Opcode, Funct3, Funct7, Rd, Rs1, Rs2;
    OrsArePack(f7, rs2, rs1, f3, rd, op);
    PackFields(f7, rs2, rs1, f3, rd, op);
  }

  lemma RoundTripShift(op: nat, f3: nat, f7: nat, rd: RegIdx, rs1: RegIdx, shamt: int)
    requires op < 128 && f3 < 8 && f7 < 128
    ensures HasFields(EncShift(op, f3, f7, rd, rs1, shamt), op, f3, f7, rd, rs1, shamt % 32)
  {
    hide BitOr, Pack, Opcode, Funct3, Funct7, Rd, Rs1, Rs2;
    OrsArePack(f7, shamt % 32, rs1, f3, rd, op);
    PackFields(f7, shamt % 32, rs1, f3, rd, op);
  }

  lemma RoundTripI(op: nat, f3: nat, rd: RegIdx, rs1: RegIdx, imm: int)
    requires op in {OP_IMM, OP_LOAD, OP_JALR} && f3 < 8 && -2048 <= imm < 2048
    ensures var w := EncI(op, f3, rd, rs1, imm);
            HasFields(w, op, f3, imm % 4096 / 32, rd, rs1, imm % 32) && Signed(ImmGen(w)) == imm
  {
    hide BitOr, Pack, Opcode, Funct3, Funct7, Rd, Rs1, Rs2, ImmGen;
    var hi, lo := imm % 4096 / 32, imm % 32;
    assert imm % 4096 == hi * 32 + lo;
    OrsArePack(hi, lo, rs1, f3, rd, op);
    PackFields(hi, lo, rs1, f3, rd, op);
    PackImm(hi, lo, rs1, f3, rd, op);
  }

  lemma RoundTripS(f3: nat, rs1: RegIdx, rs2: RegIdx, imm: int)
    requires f3 < 8 && -2048 <= imm < 2048
    ensures var w := EncS(OP_STORE, f3, rs1, rs2, imm);
            HasFields(w, OP_STORE, f3, imm % 4096 / 32, imm % 32, rs1, rs2) && Signed(ImmGen(w)) == imm
  {
    hide BitOr, Pack, Opcode, Funct3, Funct7, Rd, Rs1, Rs2, ImmGen;
    var hi, lo := imm % 4096 / 32, imm % 32;
    assert imm % 4096 == hi * 32 + lo;
    OrsArePack(hi, rs2, rs1, f3, lo, OP_STORE);
    PackFields(hi, rs2, rs1, f3, lo, OP_STORE);
    PackImm(hi, rs2, rs1, f3, lo, OP_STORE);
  }

  lemma PackImmB(b12: nat, b11: nat, b10: nat, b4: nat, rs2: nat, rs1: nat, f3: nat)
    requires b12 < 2 && b11 < 2 && b10 < 64 && b4 < 16 && rs2 < 32 && rs1 < 32 && f3 < 8
    ensures ImmGen(Pack(b12 * 64 + b10, rs2, rs1, f3, b4 * 2 + b11, OP_BRANCH)) ==
            (if b12 == 1 then 0xFFFF_F000 else 0) + b11 * 2048 + b10 * 32 + b4 * 2
  {
    hide Pack, ImmGen;
    PackImm(b12 * 64 + b10, rs2, rs1, f3, b4 * 2 + b11, OP_BRANCH);
    SplitAt(b12 * 64 + b10, b12, b10, 64);
    SplitAt(b4 * 2 + b11, b4, b11, 2);
  }

  lemma WrappedB(imm: int)
    requires -4096 <= imm < 4096 && imm % 2 == 0
    ensures imm % 8192 == (if imm < 0 then imm + 8192 else imm) && imm % 8192 % 2 == 0
  {
  }

  lemma BitsOf13(m: nat)
    requires m < 8192 && m % 2 == 0
    ensures m == m / 4096 % 2 * 4096 + m / 2048 % 2 * 2048 + m / 32 % 64 * 32 + m / 2 % 16 * 2
    ensures m / 4096 % 2 == 1 <==> m >= 4096
  {
    NestedQuotient(m, 2048, 2);
    NestedQuotient(m, 32, 64);
    NestedQuotient(m, 2, 16);
  }

  lemma BitsOfB(imm: int)
    requires -4096 <= imm < 4096 && imm % 2 == 0
    ensures var m := imm % 8192;
            var b12, b11, b10, b4 := m / 4096 % 2, m / 2048 % 2, m / 32 % 64, m / 2 % 16;
            m == b12 * 4096 + b11 * 2048 + b10 * 32 + b4 * 2 && (b12 == 1 <==> imm < 0)
  {
    WrappedB(imm);
    BitsOf13(imm % 8192);
  }

  lemma RoundTripB(f3: nat, rs1: RegIdx, rs2: RegIdx, imm: int)
    requires f3 < 8 && -4096 <= imm < 4096 && imm % 2 == 0
    ensures var w := EncB(OP_BRANCH, f3, rs1, rs2, imm);
            Opcode(w) == OP_BRANCH && Funct3(w) == f3 && Rs1(w) == rs1 && Rs2(w) == rs2 && Signed(ImmGen(w)) == imm
  {
    hide EncB, Opcode, Funct3, Rs1, Rs2, ImmGen, Signed;
    var m := imm % 8192;
    var b12, b11, b10, b4 := m / 4096 % 2, m / 2048 % 2, m / 32 % 64, m / 2 % 16;
    BitsOfB(imm);
    EncodedB(f3, rs1, rs2, imm, b12, b11, b10, b4);
    SignedOfB(imm, b12, b11 * 2048 + b10 * 32 + b4 * 2);
  }

  lemma EncodedB(f3: nat, rs1: RegIdx, rs2: RegIdx, imm: int, b12: nat, b11: nat, b10: nat, b4: nat)
    requires f3 < 8
    requires var m := imm % 8192;
             b12 == m / 4096 % 2 && b11 == m / 2048 % 2 && b10 == m / 32 % 64 && b4 == m / 2 % 16
    ensures var w := EncB(OP_BRANCH, f3, rs1, rs2, imm);
            && Opcode(w) == OP_BRANCH && Funct3(w) == f3 && Rs1(w) == rs1 && Rs2(w) == rs2
            && ImmGen(w) == (if b12 == 1 then 0xFFFF_F000 else 0) + b11 * 2048 + b10 * 32 + b4 * 2
  {
    hide BitOr, Pack, Opcode, Funct3, Funct7, Rd, Rs1, Rs2, ImmGen;
    BranchOrs(b12, b11, b10, b4, rs2, rs1, f3);
    PackFields(b12 * 64 + b10, rs2, rs1, f3, b4 * 2 + b11, OP_BRANCH);
    PackImmB(b12, b11, b10, b4, rs2, rs1, f3);
  }

  lemma SignedOfB(imm: int, b12: nat, rest: nat)
    requires -4096 <= imm < 4096 && b12 < 2 && (b12 == 1 <==> imm < 0)
    requires imm % 8192 == b12 * 4096 + rest && rest < 4096
    ensures Signed((if b12 == 1 then 0xFFFF_F000 else 0) + rest) == imm
  {
  }

  lemma BranchOrs(b12: nat, b11: nat, b10: nat, b4: nat, rs2: nat, rs1: nat, f3: nat)
    requires b12 < 2 && b11 < 2 && b10 < 64 && b4 < 16 && rs2 < 32 && rs1 < 32 && f3 < 8
    ensures BitOr(BitOr(BitOr(BitOr(BitOr(BitOr(BitOr(b12 * 0x8000_0000, b10 * 33554432), rs2 * 1048576),
              rs1 * 32768), f3 * 4096), b4 * 256), b11 * 128), OP_BRANCH)
            == Pack(b12 * 64 + b10, rs2, rs1, f3, b4 * 2 + b11, OP_BRANCH)
  {
    PowersUsed();
    hide BitOr, Pow2;
    var f7 := b12 * 64 + b10;
    OrIsSum(b12, b10 * 33554432, 31, 0x8000_0000);
    OrIsSum(f7, rs2 * 1048576, 25, 33554432);
    OrIsSum(f7 * 32 + rs2, rs1 * 32768, 20, 1048576);
    OrIsSum(f7 * 1024 + rs2 * 32 + rs1, f3 * 4096, 15, 32768);
    OrIsSum(f7 * 8192 + rs2 * 256 + rs1 * 8 + f3, b4 * 256, 12, 4096);
    OrIsSum(f7 * 131072 + rs2 * 4096 + rs1 * 128 + f3 * 16 + b4, b11 * 128, 8, 256);
    OrIsSum(f7 * 262144 + rs2 * 8192 + rs1 * 256 + f3 * 32 + b4 * 2 + b11, OP_BRANCH, 7, 128);
  }

  lemma BitsOfU(imm20: nat)
    requires imm20 < 1048576
    ensures var f7, rs2, rs1, f3 := imm20 / 8192, imm20 / 256 % 32, imm20 / 8 % 32, imm20 % 8;
            imm20 == f7 * 8192 + rs2 * 256 + rs1 * 8 + f3 && f7 < 128
  {
    NestedQuotient(imm20, 256, 32);
    NestedQuotient(imm20, 8, 32);
  }

  lemma EncodedU(op: nat, rd: RegIdx, imm20: nat, f7: nat, rs2: nat, rs1: nat, f3: nat)
    requires op in {OP_LUI, OP_AUIPC} && f7 < 128 && rs2 < 32 && rs1 < 32 && f3 < 8
    requires imm20 == f7 * 8192 + rs2 * 256 + rs1 * 8 + f3
    ensures var w := EncU(op, rd, imm20);
            Opcode(w) == op && Rd(w) == rd && ImmGen(w) == imm20 * 4096
  {
    hide BitOr, Pack, Opcode, Funct3, Funct7, Rd, Rs1, Rs2, ImmGen;
    OrsArePack(f7, rs2, rs1, f3, rd, op);
    PackFields(f7, rs2, rs1, f3, rd, op);
    PackImm(f7, rs2, rs1, f3, rd, op);
  }

  lemma RoundTripU(op: nat, rd: RegIdx, imm20: nat)
    requires op in {OP_LUI, OP_AUIPC} && imm20 < 1048576
    ensures var w := EncU(op, rd, imm20);
            Opcode(w) == op && Rd(w) == rd && ImmGen(w) == imm20 * 4096
  {
    BitsOfU(imm20);
    EncodedU(op, rd, imm20, imm20 / 8192, imm20 / 256 % 32, imm20 / 8 % 32, imm20 % 8);
  }

  lemma PackImmJ(b20: nat, b19: nat, b11: nat, b10: nat, rd: RegIdx)
    requires b20 < 2 && b19 < 256 && b11 < 2 && b10 < 1024
    ensures ImmGen(Pack(b20 * 64 + b10 / 16, b10 % 16 * 2 + b11, b19 / 8, b19 % 8, rd, OP_JAL)) ==
            (if b20 == 1 then 0xFFF0_0000 else 0) + b19 * 4096 + b11 * 2048 + b10 * 2
  {
    hide Pack, ImmGen;
    PackImm(b20 * 64 + b10 / 16, b10 % 16 * 2 + b11, b19 / 8, b19 % 8, rd, OP_JAL);
    SplitAt(b20 * 64 + b10 / 16, b20, b10 / 16, 64);
    SplitAt(b10 % 16 * 2 + b11, b10 % 16, b11, 2);
  }

  lemma WrappedJ(imm: int)
    requires -1048576 <= imm < 1048576 && imm % 2 == 0
    ensures imm % 2097152 == (if imm < 0 then imm + 2097152 else imm) && imm % 2097152 % 2 == 0
  {
  }

  lemma BitsOf21(m: nat)
    requires m < 2097152 && m % 2 == 0
    ensures m == m / 1048576 % 2 * 1048576 + m / 4096 % 256 * 4096 + m / 2048 % 2 * 2048 + m / 2 % 1024 * 2
    ensures m / 1048576 % 2 == 1 <==> m >= 1048576
  {
    NestedQuotient(m, 4096, 256);
    NestedQuotient(m, 2048, 2);
    NestedQuotient(m, 2, 1024);
  }

  lemma BitsOfJ(imm: int)
    requires -1048576 <= imm < 1048576 && imm % 2 == 0
    ensures var m := imm % 2097152;
            var b20, b19, b11, b10 := m / 1048576 % 2, m / 4096 % 256, m / 2048 % 2, m / 2 % 1024;
            m == b20 * 1048576 + b19 * 4096 + b11 * 2048 + b10 * 2 && (b20 == 1 <==> imm < 0)
  {
    WrappedJ(imm);
    BitsOf21(imm % 2097152);
  }

  lemma EncodedJ(rd: RegIdx, imm: int, b20: nat, b19: nat, b11: nat, b10: nat)
    requires var m := imm % 2097152;
             b20 == m / 1048576 % 2 && b19 == m / 4096 % 256 && b11 == m / 2048 % 2 && b10 == m / 2 % 1024
    ensures var w := EncJ(OP_JAL, rd, imm);
            && Opcode(w) == OP_JAL && Rd(w) == rd
            && ImmGen(w) == (if b20 == 1 then 0xFFF0_0000 else 0) + b19 * 4096 + b11 * 2048 + b10 * 2
  {
    hide BitOr, Pack, Opcode, Funct3, Funct7, Rd, Rs1, Rs2, ImmGen;
    JumpOrs(b20, b19, b11, b10, rd);
    PackFields(b20 * 64 + b10 / 16, b10 % 16 * 2 + b11, b19 / 8, b19 % 8, rd, OP_JAL);
    PackImmJ(b20, b19, b11, b10, rd);
  }

  lemma SignedOfJ(imm: int, b20: nat, rest: nat)
    requires -1048576 <= imm < 1048576 && b20 < 2 && (b20 == 1 <==> imm < 0)
    requires imm % 2097152 == b20 * 1048576 + rest && rest < 1048576
    ensures Signed((if b20 == 1 then 0xFFF0_0000 else 0) + rest) == imm
  {
  }

  lemma RoundTripJ(rd: RegIdx, imm: int)
    requires -1048576 <= imm < 1048576 && imm % 2 == 0
    ensures var w := EncJ(OP_JAL, rd, imm);
            Opcode(w) == OP_JAL && Rd(w) == rd && Signed(ImmGen(w)) == imm
  {
    hide EncJ, Opcode, Rd, ImmGen, Signed;
    var m := imm % 2097152;
    var b20, b19, b11, b10 := m / 1048576 % 2, m / 4096 % 256, m / 2048 % 2, m / 2 % 1024;
    BitsOfJ(imm);
    EncodedJ(rd, imm, b20, b19, b11, b10);
    SignedOfJ(imm, b20, b19 * 4096 + b11 * 2048 + b10 * 2);
  }

  lemma JumpOrs(b20: nat, b19: nat, b11: nat, b10: nat, rd: RegIdx)
    requires b20 < 2 && b19 < 256 && b11 < 2 && b10 < 1024
    ensures BitOr(BitOr(BitOr(BitOr(BitOr(b20 * 0x8000_0000, b19 * 4096), b11 * 1048576), b10 * 2097152),
              rd * 128), OP_JAL)
            == Pack(b20 * 64 + b10 / 16, b10 % 16 * 2 + b11, b19 / 8, b19 % 8, rd, OP_JAL)
  {
    PowersUsed();
    hide BitOr, Pow2;
    var x20, x19, x11, x10 := b20 * 0x8000_0000, b19 * 4096, b11 * 1048576, b10 * 2097152;
    OrRotate(x20, x19, x11);
    OrRotate(BitOr(x20, x11), x19, x10);
    OrRotate(x20, x11, x10);
    OrIsSum(b20, x10, 31, 0x8000_0000);
    OrIsSum(b20 * 1024 + b10, x11, 21, 2097152);
    OrIsSum(b20 * 2048 + b10 * 2 + b11, x19, 20, 1048576);
    OrIsSum((b20 * 2048 + b10 * 2 + b11) * 256 + b19, rd * 128, 12, 4096);
    OrIsSum(((b20 * 2048 + b10 * 2 + b11) * 256 + b19) * 32 + rd, OP_JAL, 7, 128);
  }

  // ---- immediates that do not fit ----

  /** The signed value left of x in 12 and in 13 bits. */
  function Fold12(x: int): int { (x + 2048) % 4096 - 2048 }
  function Fold13(x: int): int { (x + 4096) % 8192 - 4096 }

  lemma Fold12Facts(x: int)
    ensures -2048 <= Fold12(x) < 2048 && Fold12(x) % 4096 == x % 4096
    ensures Fold12(x) == x <==> -2048 <= x < 2048
  {
    assert x - Fold12(x) == 4096 * ((x + 2048) / 4096);
  }

  lemma Fold13Facts(x: int)
    ensures -4096 <= Fold13(x) < 4096 && Fold13(x) % 8192 == x % 8192
    ensures Fold13(x) == x <==> -4096 <= x < 4096
    ensures x % 2 == 0 ==> Fold13(x) % 2 == 0
  {
    var q := (x + 4096) / 8192;
    assert Fold13(x) == x - 8192 * q;
    hide Fold13;
    SameResidue(x, q);
    SameParity(x, 4096 * q);
  }

  lemma SameResidue(x: int, q: int)
    ensures (x - 8192 * q) % 8192 == x % 8192
  {
  }

  lemma SameParity(x: int, q: int)
    ensures (x - 2 * q) % 2 == x % 2
  {
  }

  /** enc_i never fails: an immediate out of range is silently folded, and it
      survives the round trip if and only if it fits in 12 bits. */
  lemma ImmediateSurvivesIff(op: nat, f3: nat, rd: RegIdx, rs1: RegIdx, imm: int)
    requires op in {OP_IMM, OP_LOAD, OP_JALR} && f3 < 8
    ensures Signed(ImmGen(EncI(op, f3, rd, rs1, imm))) == Fold12(imm)
    ensures Signed(ImmGen(EncI(op, f3, rd, rs1, imm))) == imm <==> -2048 <= imm < 2048
  {
    hide Fold12, ImmGen, Signed, BitOr;
    Fold12Facts(imm);
    RoundTripI(op, f3, rd, rs1, Fold12(imm));
  }

  /** The same for a branch offset, of which bit 0 is dropped as well. */
  lemma BranchOffsetSurvivesIff(f3: nat, rs1: RegIdx, rs2: RegIdx, imm: int)
    requires f3 < 8 && imm % 2 == 0
    ensures Signed(ImmGen(EncB(OP_BRANCH, f3, rs1, rs2, imm))) == Fold13(imm)
    ensures Signed(ImmGen(EncB(OP_BRANCH, f3, rs1, rs2, imm))) == imm <==> -4096 <= imm < 4096
  {
    hide Fold13, ImmGen, Signed, BitOr;
    Fold13Facts(imm);
    RoundTripB(f3, rs1, rs2, Fold13(imm));
  }

  /** Why a data offset of 2836 cannot be added by one addi: it becomes -1260. */
  lemma LargeDataOffsetIsFolded(f3: nat, rd: RegIdx, rs1: RegIdx)
    requires f3 < 8
    ensures Signed(ImmGen(EncI(OP_IMM, f3, rd, rs1, 2836))) == -1260
  {
    hide ImmGen, Signed, EncI;
    ImmediateSurvivesIff(OP_IMM, f3, rd, rs1, 2836);
  }
}
