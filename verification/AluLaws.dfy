/**
 What alu.sv computes, bit by bit and as numbers, said without the operations it
 is built from.
 */
module AluLaws {
  import opened Words
  import opened Datapath
  import opened Bits

  predicate Bit(x: nat, i: nat) {
    x / Pow2(i) % 2 == 1
  }

  /** The bits of x above the lowest are those of x / 2. */
  lemma BitAbove(x: nat, i: nat)
    requires i > 0
    ensures Bit(x, i) == Bit(x / 2, i - 1)
  {
    NestedQuotient(x, 2, Pow2(i - 1));
  }

  lemma {:induction false} SameBits(a: nat, b: nat, n: nat)
    requires a < Pow2(n) && b < Pow2(n) && forall i: nat :: i < n ==> Bit(a, i) == Bit(b, i)
    ensures a == b
  {
    if n > 0 {
      forall i: nat | i < n - 1
        ensures Bit(a / 2, i) == Bit(b / 2, i)
      {
        BitAbove(a, i + 1);
        BitAbove(b, i + 1);
      }
      SameBits(a / 2, b / 2, n - 1);
      assert Bit(a, 0) == Bit(b, 0);
    }
  }

  // ---- and, or, xor ----

  predicate Combined(op: BitOp, x: bool, y: bool) {
    match op
    case And => x && y
    case Or => x || y
    case Xor => x != y
  }

  lemma LowestBit(x: nat)
    ensures Bit(x, 0) == (x % 2 == 1)
  {
  }

  /** One step of a bitwise operation. */
  lemma BitwiseStep(op: BitOp, a: nat, b: nat, n: nat)
    requires n > 0
    ensures var r := Bitwise(op, a, b, n);
            r / 2 == Bitwise(op, a / 2, b / 2, n - 1) && (r % 2 == 1) == Combined(op, a % 2 == 1, b % 2 == 1)
  {
    hide Pow2;
  }

  lemma {:induction false} BitwiseBits(op: BitOp, a: nat, b: nat, n: nat, i: nat)
    requires i < n
    ensures Bit(Bitwise(op, a, b, n), i) == Combined(op, Bit(a, i), Bit(b, i))
  {
    hide Bit, Bitwise, Pow2;
    BitwiseStep(op, a, b, n);
    if i == 0 {
      LowestBit(a);
      LowestBit(b);
      LowestBit(Bitwise(op, a, b, n));
    } else {
      BitwiseBits(op, a / 2, b / 2, n - 1, i - 1);
      BitAbove(a, i);
      BitAbove(b, i);
      BitAbove(Bitwise(op, a, b, n), i);
    }
  }

  // ---- shifts ----

  lemma {:induction false} BitShifted(a: nat, s: nat, i: nat)
    ensures Bit(a * Pow2(s), i) == (s <= i && Bit(a, i - s))
  {
    if s > 0 {
      var half := a * Pow2(s - 1);
      assert a * Pow2(s) == 2 * half;
      if i > 0 {
        BitAbove(2 * half, i);
        BitShifted(a, s - 1, i - 1);
      }
    }
  }

  lemma HalfOfRest(x: nat, m: nat)
    requires m > 0
    ensures x % (2 * m) / 2 == x / 2 % m && x % (2 * m) % 2 == x % 2
  {
    DivMod(x / 2, m);
    SplitAt(x, x / 2 / m, x / 2 % m * 2 + x % 2, 2 * m);
  }

  /** Cutting a number to n bits leaves those bits. */
  lemma {:induction false} BitBelow(x: nat, n: nat, i: nat)
    requires i < n
    ensures Bit(x % Pow2(n), i) == Bit(x, i)
  {
    HalfOfRest(x, Pow2(n - 1));
    if i > 0 {
      BitAbove(x, i);
      BitAbove(x % Pow2(n), i);
      BitBelow(x / 2, n - 1, i - 1);
    }
  }

  lemma ShiftLeftBits(a: Word, s: nat, i: nat)
    requires i < 32
    ensures Bit(ShiftLeft(a, s), i) == (s <= i && Bit(a, i - s))
  {
    Pow2At32();
    BitBelow(a * Pow2(s), 32, i);
    BitShifted(a, s, i);
  }

  lemma ProductMonotone(p: int, q: int, m: nat)
    requires p <= q
    ensures p * m <= q * m
  {
    assert 0 <= (q - p) * m;
  }

  lemma FloorBounds(x: int, m: nat)
    requires m > 0
    ensures x / m * m <= x < (x / m + 1) * m
  {
    assert x == x / m * m + x % m;
  }

  lemma FloorRange(x: int, m: nat)
    requires m > 0
    ensures 0 <= x ==> 0 <= x / m <= x
    ensures x < 0 ==> x <= x / m < 0
  {
    FloorBounds(x, m);
    var q := x / m;
    if q < 0 {
      ProductMonotone(q, -1, m);
      ProductMonotone(q + 1, 0, m);
      ProductMonotone(1, m, -q - 1);
    } else {
      ProductMonotone(0, q, m);
      ProductMonotone(1, m, q);
    }
  }

  lemma SignedWrap(y: int)
    requires -0x8000_0000 <= y < 0x8000_0000
    ensures Signed(Wrap(y)) == y
  {
  }

  lemma FloorUnique(x: int, m: nat, q: int, q': int)
    requires q * m <= x < (q + 1) * m && q' * m <= x < (q' + 1) * m
    ensures q == q'
  {
    if q < q' {
      ProductMonotone(q + 1, q', m);
    } else if q' < q {
      ProductMonotone(q' + 1, q, m);
    }
  }

  // ---- the whole unit ----

  predicate IsTruth(r: Word, holds: bool) {
    r == if holds then 1 else 0
  }

  predicate Congruent(r: Word, x: int) {
    (r - x) % TWO_TO_32 == 0
  }

  predicate IsAnd(a: Word, b: Word, r: Word) {
    forall i: nat :: i < 32 ==> Bit(r, i) == (Bit(a, i) && Bit(b, i))
  }

  predicate IsOr(a: Word, b: Word, r: Word) {
    forall i: nat :: i < 32 ==> Bit(r, i) == (Bit(a, i) || Bit(b, i))
  }

  predicate IsXor(a: Word, b: Word, r: Word) {
    forall i: nat :: i < 32 ==> Bit(r, i) == (Bit(a, i) != Bit(b, i))
  }

  /** Bit i comes from bit i - s, and zeros come in from below. */
  predicate MovedUp(a: Word, s: nat, r: Word) {
    forall i: nat :: i < 32 ==> Bit(r, i) == (s <= i && Bit(a, i - s))
  }

  /** r is a divided by 2^s, rounded down. */
  predicate MovedDown(a: int, s: nat, r: int) {
    r * Pow2(s) <= a < (r + 1) * Pow2(s)
  }

  /** What each control code stands for. */
  predicate Computes(ctl: nat, a: Word, b: Word, r: Word) {
    match ctl
    case 0 => Congruent(r, a + b)
    case 1 => Congruent(r, a - b)
    case 2 => IsAnd(a, b, r)
    case 3 => IsOr(a, b, r)
    case 4 => IsXor(a, b, r)
    case 5 => MovedUp(a, b % 32, r)
    case 6 => MovedDown(a, b % 32, r)
    case 7 => MovedDown(Signed(a), b % 32, Signed(r))
    case 8 => IsTruth(r, Signed(a) < Signed(b))
    case 9 => IsTruth(r, a < b)
    case _ => r == 0
  }

  lemma AluBitwise(ctl: nat, a: Word, b: Word)
    requires 2 <= ctl <= 4
    ensures Computes(ctl, a, b, Alu(ctl, a, b))
  {
    hide Bit;
    var op := if ctl == 2 then And else if ctl == 3 then Or else Xor;
    forall i: nat | i < 32
      ensures Bit(Alu(ctl, a, b), i) == Combined(op, Bit(a, i), Bit(b, i))
    {
      BitwiseBits(op, a, b, 32, i);
    }
  }

  lemma AluShift(ctl: nat, a: Word, b: Word)
    requires 5 <= ctl <= 7
    ensures Computes(ctl, a, b, Alu(ctl, a, b))
  {
    hide Bit, Pow2, Wrap, Signed;
    var s := b % 32;
    if ctl == 5 {
      forall i: nat | i < 32
        ensures Bit(ShiftLeft(a, s), i) == (s <= i && Bit(a, i - s))
      {
        ShiftLeftBits(a, s, i);
      }
    } else if ctl == 6 {
      FloorBounds(a, Pow2(s));
    } else {
      FloorBounds(Signed(a), Pow2(s));
      FloorRange(Signed(a), Pow2(s));
      SignedReading(a);
      SignedWrap(Signed(a) / Pow2(s));
    }
  }

  /** Two's complement: the signed reading of a word differs from it by a multiple
      of 2^32, and is negative exactly if its top bit is set. */
  lemma SignedReading(a: Word)
    ensures -0x8000_0000 <= Signed(a) < 0x8000_0000 && Congruent(a, Signed(a))
    ensures Signed(a) < 0 <==> Bit(a, 31)
  {
    PowersUsed();
  }

  /** The unit computes what its control codes stand for. */
  lemma AluComputes(ctl: nat, a: Word, b: Word)
    ensures Computes(ctl, a, b, Alu(ctl, a, b))
  {
    hide IsAnd, IsOr, IsXor, MovedUp, MovedDown;
    if 2 <= ctl <= 4 {
      AluBitwise(ctl, a, b);
    } else if 5 <= ctl <= 7 {
      AluShift(ctl, a, b);
    }
  }

  lemma CongruentOne(r: Word, r': Word, x: int)
    requires Congruent(r, x) && Congruent(r', x)
    ensures r == r'
  {
  }

  lemma SignedOne(r: Word, r': Word)
    requires Signed(r) == Signed(r')
    ensures r == r'
  {
  }

  /** And that leaves no other result. */
  lemma ComputesOne(ctl: nat, a: Word, b: Word, r: Word, r': Word)
    requires Computes(ctl, a, b, r) && Computes(ctl, a, b, r')
    ensures r == r'
  {
    hide Bit, Pow2, Congruent, Signed;
    if ctl <= 1 {
      CongruentOne(r, r', if ctl == 0 then a + b else a - b);
    } else if ctl <= 5 {
      Pow2At32();
      SameBits(r, r', 32);
    } else if ctl == 6 {
      FloorUnique(a, Pow2(b % 32), r, r');
    } else if ctl == 7 {
      FloorUnique(Signed(a), Pow2(b % 32), Signed(r), Signed(r'));
      SignedOne(r, r');
    }
  }
}
