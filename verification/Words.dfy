/**
 32-bit machine words as integers in [0, 2^32). Every operation that wraps,
 truncates or reinterprets the sign says so explicitly.
 */
module Words {
  const TWO_TO_32: int := 0x1_0000_0000

  type Word = x: int | 0 <= x < 0x1_0000_0000
  type RegIdx = x: int | 0 <= x < 32

  /** Truncation to 32 bits. */
  function Wrap(x: int): Word {
    x % TWO_TO_32
  }

  function Add(a: Word, b: Word): Word {
    Wrap(a + b)
  }

  lemma AlignedSuccessor(a: Word)
    requires a % 4 == 0
    ensures Add(a, 4) % 4 == 0
  {
  }

  function Sub(a: Word, b: Word): Word {
    Wrap(a - b)
  }

  /** Two's complement reading of a word. */
  function Signed(a: Word): int {
    if a < 0x8000_0000 then a else a - TWO_TO_32
  }

  function Pow2(n: nat): (p: nat)
    ensures p >= 1
  {
    if n == 0 then 1 else 2 * Pow2(n - 1)
  }

  datatype BitOp = And | Or | Xor

  function BitOf(op: BitOp, a: int, b: int): int {
    match op
    case And => if a % 2 == 1 && b % 2 == 1 then 1 else 0
    case Or => if a % 2 == 1 || b % 2 == 1 then 1 else 0
    case Xor => if a % 2 != b % 2 then 1 else 0
  }

  /** The low n bits of a bitwise operation. */
  function Bitwise(op: BitOp, a: nat, b: nat, n: nat): (r: nat)
    ensures r < Pow2(n)
  {
    if n == 0 then 0 else BitOf(op, a, b) + 2 * Bitwise(op, a / 2, b / 2, n - 1)
  }

  lemma {:induction false} Pow2Adds(m: nat, n: nat)
    ensures Pow2(m + n) == Pow2(m) * Pow2(n)
  {
    if n > 0 {
      Pow2Adds(m, n - 1);
      assert Pow2(m + n) == 2 * Pow2(m + (n - 1));
    }
  }

  lemma Pow2At32()
    ensures Pow2(32) == TWO_TO_32
  {
    assert Pow2(8) == 256;
    hide Pow2;
    Pow2Adds(8, 8);
    Pow2Adds(16, 16);
  }

  function Bitwise32(op: BitOp, a: Word, b: Word): Word {
    Pow2At32();
    Bitwise(op, a, b, 32)
  }

  function ShiftLeft(a: Word, s: nat): Word {
    Wrap(a * Pow2(s))
  }

  lemma QuotientBounds(a: int, d: nat)
    requires d >= 1
    ensures 0 <= a ==> 0 <= a / d <= a
  {
  }

  function ShiftRight(a: Word, s: nat): Word {
    QuotientBounds(a, Pow2(s));
    a / Pow2(s)
  }

  /** Arithmetic right shift: division of the signed value, rounding down. */
  function ShiftRightArith(a: Word, s: nat): Word {
    Wrap(Signed(a) / Pow2(s))
  }
}
