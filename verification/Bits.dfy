/**
 Disjoint bit fields: or-ing a shifted field over lower bits is addition. Used
 for the C++ immediate decoders and the Python encoders, both of which assemble
 words with shifts and ors.
 */
module Bits {
  import opened Words

  function BitOr(a: Word, b: Word): Word {
    Bitwise32(Or, a, b)
  }

  lemma {:induction false} OrZero(a: nat, n: nat)
    requires a < Pow2(n)
    ensures Bitwise(Or, a, 0, n) == a
  {
    if n > 0 {
      OrZero(a / 2, n - 1);
    }
  }

  lemma {:induction false} OrCommutes(a: nat, b: nat, n: nat)
    ensures Bitwise(Or, a, b, n) == Bitwise(Or, b, a, n)
  {
    if n > 0 {
      OrCommutes(a / 2, b / 2, n - 1);
    }
  }

  lemma {:induction false} OrAssociates(a: nat, b: nat, c: nat, n: nat)
    ensures Bitwise(Or, Bitwise(Or, a, b, n), c, n) == Bitwise(Or, a, Bitwise(Or, b, c, n), n)
  {
    if n > 0 {
      OrAssociates(a / 2, b / 2, c / 2, n - 1);
    }
  }

  lemma {:induction false} OrDisjoint(q: nat, lo: nat, k: nat, n: nat)
    requires lo < Pow2(k) && q * Pow2(k) + lo < Pow2(n)
    ensures Bitwise(Or, q * Pow2(k), lo, n) == q * Pow2(k) + lo
  {
    if k == 0 {
      OrZero(q, n);
    } else if n > 0 {
      var h, p := q * Pow2(k - 1), Pow2(n - 1);
      assert q * Pow2(k) == 2 * h && Pow2(n) == 2 * p && Pow2(k) == 2 * Pow2(k - 1);
      hide Pow2;
      OrDisjoint(q, lo / 2, k - 1, n - 1);
      assert 2 * h / 2 == h && BitOf(Or, 2 * h, lo) == lo % 2;
    }
  }

  /** A field shifted up by k bits, or-ed over a value that fits in k bits. */
  lemma OrIsSum(q: nat, lo: Word, k: nat, p: nat)
    requires p == Pow2(k) && lo < p && q * p + lo < TWO_TO_32
    requires q * p < TWO_TO_32
    ensures BitOr(q * p, lo) == q * p + lo
  {
    Pow2At32();
    OrDisjoint(q, lo, k, 32);
  }

  lemma OrSwap(a: Word, b: Word)
    ensures BitOr(a, b) == BitOr(b, a)
  {
    OrCommutes(a, b, 32);
  }

  lemma OrRotate(a: Word, b: Word, c: Word)
    ensures BitOr(BitOr(a, b), c) == BitOr(BitOr(a, c), b)
  {
    OrAssociates(a, b, c, 32);
    OrAssociates(a, c, b, 32);
    OrCommutes(b, c, 32);
  }

  lemma PowersUsed()
    ensures Pow2(1) == 2 && Pow2(5) == 32 && Pow2(7) == 128 && Pow2(8) == 256 && Pow2(11) == 2048 && Pow2(12) == 4096
    ensures Pow2(13) == 8192 && Pow2(15) == 32768 && Pow2(20) == 1048576 && Pow2(21) == 2097152
    ensures Pow2(24) == 16777216 && Pow2(25) == 33554432 && Pow2(31) == 0x8000_0000
  {
    assert Pow2(1) == 2 && Pow2(5) == 32 && Pow2(7) == 128 && Pow2(8) == 256;
    hide Pow2;
    Pow2Adds(5, 5);
    Pow2Adds(10, 1);
    Pow2Adds(7, 5);
    Pow2Adds(8, 5);
    Pow2Adds(8, 7);
    Pow2Adds(15, 5);
    Pow2Adds(20, 1);
    Pow2Adds(12, 12);
    Pow2Adds(20, 5);
    Pow2Adds(24, 7);
  }

  // ---- quotients ----

  lemma SplitAt(w: nat, q: nat, lo: nat, m: nat)
    requires w == q * m + lo && lo < m
    ensures w / m == q && w % m == lo
  {
    var d := q - w / m;
    assert d * m == w % m - lo;
    MultipleBounds(d, m);
  }

  lemma MultipleBounds(d: int, m: nat)
    ensures d >= 1 ==> d * m >= m
    ensures d <= -1 ==> d * m + m <= 0
  {
  }

  lemma SplitProduct(a: nat, q: nat, d: nat, r: nat, m: nat, n: nat)
    requires a == (d * n + r) * m + q && q < m && r < n
    ensures a == d * (m * n) + (r * m + q) && r * m + q < m * n
  {
    assert (d * n + r) * m == d * (m * n) + r * m;
    assert (r + 1) * m <= n * m;
  }

  lemma DivMod(a: nat, m: nat)
    requires m > 0
    ensures a == a / m * m + a % m && a % m < m
  {
  }

  lemma NestedFrom(a: nat, m: nat, n: nat, b: nat, q: nat, d: nat, r: nat)
    requires a == b * m + q && q < m && b == d * n + r && r < n
    ensures m * n > 0 && a / (m * n) == d
  {
    SplitProduct(a, q, d, r, m, n);
    SplitAt(a, d, r * m + q, m * n);
  }

  /** Dividing twice is dividing by the product. */
  lemma NestedQuotient(a: nat, m: nat, n: nat)
    requires m > 0 && n > 0
    ensures m * n > 0 && a / m / n == a / (m * n) && a / m == a / (m * n) * n + a / m % n
  {
    DivMod(a, m);
    DivMod(a / m, n);
    NestedFrom(a, m, n, a / m, a % m, a / m / n, a / m % n);
  }
}
