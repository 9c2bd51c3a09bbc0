/** The 32-bit mixing hash every generated value is drawn from (`h` in generate.py). */
module Hash {
  const WORD := 0x1_0000_0000

  type Word = x: int | 0 <= x < WORD

  const ODD1 := 2654435761
  const ODD2 := 2246822519
  // Multiplicative inverses of the two odd constants modulo 2^32.
  const INV1 := 244002641
  const INV2 := 3066638151

  /** Bitwise exclusive or of two naturals. */
  function Xor(a: nat, b: nat): nat
    decreases a + b
  {
    if a == 0 && b == 0 then 0 else (if a % 2 == b % 2 then 0 else 1) + 2 * Xor(a / 2, b / 2)
  }

  function Pow2(k: nat): (p: nat)
    ensures p > 0
  {
    if k == 0 then 1 else 2 * Pow2(k - 1)
  }

  /** `x >> k` */
  function Shift(x: nat, k: nat): nat
  {
    if k == 0 then x else Shift(x / 2, k - 1)
  }

  function Times(x: int, k: int): Word {
    (x * k) % WORD
  }

  /** `x ^ (x >> k)` */
  function XorShift(x: nat, k: nat): nat {
    Xor(x, Shift(x, k))
  }

  /** One round of the hash: multiply, then fold the high bits onto the low ones. */
  function Round(x: int, k: int, shift: nat): (r: nat)
    ensures r < WORD
  {
    XorShiftBound(Times(x, k), shift);
    XorShift(Times(x, k), shift)
  }

  function H(value: int): Word {
    Round(Round(value, ODD1, 15), ODD2, 13)
  }

  /** Undoes `XorShift(_, k)` on 32-bit words when `3 * k` reaches the word length. */
  function Unshift(y: nat, k: nat): nat {
    Xor(Xor(y, Shift(y, k)), Shift(Shift(y, k), k))
  }

  function Unround(y: nat, inv: int, shift: nat): Word {
    Times(Unshift(y, shift), inv)
  }

  /** Undoes `H`, one round at a time from the outside in. */
  function HInverse(y: Word): Word {
    Unround(Unround(y, INV2, 13), INV1, 15)
  }

  lemma XorBound(a: nat, b: nat, k: nat)
    requires a < Pow2(k) && b < Pow2(k)
    ensures Xor(a, b) < Pow2(k)
  {
    if k > 0 && a + b > 0 {
      XorBound(a / 2, b / 2, k - 1);
    }
  }

  lemma XorZero(a: nat)
    ensures Xor(a, 0) == a && Xor(0, a) == a && Xor(a, a) == 0
  {
  }

  lemma {:induction false} XorAssoc(a: nat, b: nat, c: nat)
    ensures Xor(Xor(a, b), c) == Xor(a, Xor(b, c))
    decreases a + b + c
  {
    if a + b + c > 0 {
      XorAssoc(a / 2, b / 2, c / 2);
      var l, r := Xor(Xor(a, b), c), Xor(a, Xor(b, c));
      assert l / 2 == r / 2 by {
        XorHalf(a, b);
        XorHalf(b, c);
        XorHalf(Xor(a, b), c);
        XorHalf(a, Xor(b, c));
      }
      XorAssocLow(a, b, c);
      SameHalves(l, r);
    }
  }

  lemma XorAssocLow(a: nat, b: nat, c: nat)
    ensures Xor(Xor(a, b), c) % 2 == Xor(a, Xor(b, c)) % 2
  {
    XorHalf(a, b);
    XorHalf(b, c);
    XorHalf(Xor(a, b), c);
    XorHalf(a, Xor(b, c));
  }

  lemma SameHalves(l: nat, r: nat)
    requires l / 2 == r / 2 && l % 2 == r % 2
    ensures l == r
  {
  }

  lemma XorHalf(a: nat, b: nat)
    ensures Xor(a, b) / 2 == Xor(a / 2, b / 2)
    ensures Xor(a, b) % 2 == if a % 2 == b % 2 then 0 else 1
  {
  }

  lemma {:induction false} XorShifted(a: nat, b: nat, k: nat)
    ensures Shift(Xor(a, b), k) == Xor(Shift(a, k), Shift(b, k))
  {
    if k > 0 {
      XorHalf(a, b);
      XorShifted(a / 2, b / 2, k - 1);
    }
  }

  lemma {:induction false} ShiftBound(x: nat, k: nat, n: nat)
    requires x < Pow2(n)
    ensures Shift(x, k) <= x
    ensures k >= n ==> Shift(x, k) == 0
  {
    if k > 0 {
      if n > 0 {
        ShiftBound(x / 2, k - 1, n - 1);
      } else {
        ShiftBound(x / 2, k - 1, 0);
      }
    }
  }

  lemma {:induction false} ShiftTwice(x: nat, j: nat, k: nat)
    ensures Shift(Shift(x, j), k) == Shift(x, j + k)
  {
    if j > 0 {
      ShiftTwice(x / 2, j - 1, k);
    }
  }

  lemma WordIsPow2()
    ensures Pow2(32) == WORD
  {
    assert Pow2(8) == 256;
    assert Pow2(16) == 65536;
    assert Pow2(24) == 16777216;
  }

  lemma XorShiftBound(x: Word, k: nat)
    ensures XorShift(x, k) < WORD
  {
    WordIsPow2();
    ShiftBound(x, k, 32);
    XorBound(x, Shift(x, k), 32);
  }

  /** `(x ^ y) ^ (y ^ z) ^ z == x` */
  lemma XorCancels(x: nat, y: nat, z: nat)
    ensures Xor(Xor(Xor(x, y), Xor(y, z)), z) == x
  {
    calc {
      Xor(Xor(Xor(x, y), Xor(y, z)), z);
      { XorAssoc(Xor(x, y), Xor(y, z), z); XorAssoc(y, z, z); XorZero(z); XorZero(y); }
      Xor(Xor(x, y), y);
      { XorAssoc(x, y, y); XorZero(y); XorZero(x); }
      x;
    }
  }

  lemma UnshiftUndoes(x: Word, k: nat)
    requires 3 * k >= 32
    ensures XorShift(x, k) < WORD && Unshift(XorShift(x, k), k) == x
    ensures Unshift(x, k) < WORD && XorShift(Unshift(x, k), k) == x
  {
    WordIsPow2();
    XorShiftBound(x, k);
    var x1, x2 := Shift(x, k), Shift(Shift(x, k), k);
    assert Shift(x2, k) == 0 by {
      ShiftTwice(x, k, k);
      ShiftTwice(x, 2 * k, k);
      ShiftBound(x, 3 * k, 32);
    }
    XorShifted(x, x1, k);
    XorShifted(x1, x2, k);
    XorZero(x2);
    XorCancels(x, x1, x2);
    ShiftBound(x, k, 32);
    ShiftBound(x1, k, 32);
    XorBound(x, x1, 32);
    XorBound(Xor(x, x1), x2, 32);
    XorShifted(Xor(x, x1), x2, k);
    XorZero(Xor(x1, x2));
    assert Shift(Unshift(x, k), k) == Xor(x1, x2);
    calc {
      XorShift(Unshift(x, k), k);
      Xor(Xor(Xor(x, x1), x2), Xor(x1, x2));
      { XorAssoc(x, x1, x2); }
      Xor(Xor(x, Xor(x1, x2)), Xor(x1, x2));
      { XorAssoc(x, Xor(x1, x2), Xor(x1, x2)); XorZero(Xor(x1, x2)); XorZero(x); }
      x;
    }
  }

  lemma AddMultiple(x: int, q: int)
    ensures (x + q * WORD) % WORD == x % WORD
  {
  }

  /** `inv` undoes `k` modulo 2^32, with quotient `q`. */
  predicate Inverses(k: int, inv: int, q: int) {
    k * inv == 1 + q * WORD
  }

  /** Multiplying by a number and then by its inverse is the identity modulo 2^32. */
  lemma TimesUndoes(x: int, k: int, inv: int, q: int)
    requires Inverses(k, inv, q)
    ensures Times(Times(x, k), inv) == x % WORD
  {
    var t := (x * k) / WORD;
    assert x * k == t * WORD + Times(x, k);
    calc {
      Times(x, k) * inv;
      (x * k - t * WORD) * inv;
      x * (k * inv) - t * WORD * inv;
      x * (1 + q * WORD) - t * WORD * inv;
      x + (x * q - t * inv) * WORD;
    }
    AddMultiple(x, x * q - t * inv);
  }

  lemma CongruentTimes(x: int, y: int, k: int)
    requires x % WORD == y % WORD
    ensures Times(x, k) == Times(y, k)
  {
    var q := x / WORD - y / WORD;
    assert x == y + q * WORD;
    assert x * k == y * k + (q * k) * WORD;
    AddMultiple(y * k, q * k);
  }

  lemma RoundUndoes(x: int, k: int, inv: int, q: int, shift: nat)
    requires Inverses(k, inv, q) && 3 * shift >= 32
    ensures Unround(Round(x, k, shift), inv, shift) == x % WORD
  {
    hide Inverses, Times, XorShift, Unshift;
    UnshiftUndoes(Times(x, k), shift);
    TimesUndoes(x, k, inv, q);
  }

  lemma RoundIsOnto(y: Word, k: int, inv: int, q: int, shift: nat)
    requires Inverses(inv, k, q) && 3 * shift >= 32
    ensures Round(Unround(y, inv, shift), k, shift) == y
  {
    hide Inverses, Times, XorShift, Unshift;
    UnshiftUndoes(y, shift);
    var x: Word := Unshift(y, shift);
    TimesUndoes(x, inv, k, q);
  }

  lemma RoundOfWord(x: int, k: int, shift: nat)
    ensures Round(x % WORD, k, shift) == Round(x, k, shift)
  {
    CongruentTimes(x, x % WORD, k);
  }

  lemma TwoRoundsUndo(x: int, k1: int, inv1: int, q1: int, k2: int, inv2: int, q2: int)
    requires Inverses(k1, inv1, q1) && Inverses(k2, inv2, q2)
    ensures Unround(Unround(Round(Round(x, k1, 15), k2, 13), inv2, 13), inv1, 15) == x % WORD
  {
    hide Inverses, Times, Round, Unround;
    var r := Round(x, k1, 15);
    RoundUndoes(r, k2, inv2, q2, 13);
    assert r % WORD == r;
    RoundUndoes(x, k1, inv1, q1, 15);
  }

  /** On 32-bit words `HInverse` undoes `H`, whatever multiple of 2^32 the argument carries. */
  lemma HInverts(x: int)
    ensures HInverse(H(x)) == x % WORD
  {
    TwoRoundsUndo(x, ODD1, INV1, 150801925, ODD2, INV2, 1604247758);
  }

  /** Every 32-bit word is the hash of its inverse image, so `H` permutes the words. */
  lemma HIsOnto(y: Word)
    ensures H(HInverse(y)) == y
  {
    RoundIsOnto(Unround(y, INV2, 13), ODD1, INV1, 150801925, 15);
    RoundIsOnto(y, ODD2, INV2, 1604247758, 13);
  }

  /** Two arguments collide exactly when they agree modulo 2^32. */
  lemma HCollides(x: int, y: int)
    ensures H(x) == H(y) <==> x % WORD == y % WORD
  {
    HInverts(x);
    HInverts(y);
    if x % WORD == y % WORD {
      RoundOfWord(x, ODD1, 15);
      RoundOfWord(y, ODD1, 15);
    }
  }
}
