/**
 * Fixed-width unsigned words as bounded integers, with bitwise exclusive or
 * defined one binary digit at a time.  `u8` stands for C's `uint8_t` and
 * `u32` for `uint32_t`; shifts right by k bits are divisions by 2^k and
 * masks of the low k bits are remainders modulo 2^k.
 */
module Bits {

  newtype u8 = x: int | 0 <= x < 0x100
  newtype u32 = x: int | 0 <= x < 0x1_0000_0000
  newtype i32 = x: int | -0x8000_0000 <= x < 0x8000_0000

  function Pow2(k: nat): (p: nat)
    ensures p >= 1
  {
    if k == 0 then 1 else 2 * Pow2(k - 1)
  }

  lemma {:induction false} Pow2Add(a: nat, b: nat)
    ensures Pow2(a + b) == Pow2(a) * Pow2(b)
  {
    if b > 0 {
      Pow2Add(a, b - 1);
      assert Pow2(a + b) == 2 * Pow2(a + b - 1);
    }
  }

  lemma Pow2Values()
    ensures Pow2(8) == 0x100 && Pow2(32) == 0x1_0000_0000
  {
    assert Pow2(4) == 16;
    Pow2Add(4, 4);
    Pow2Add(8, 8);
    Pow2Add(16, 16);
  }

  /** Bitwise exclusive or of two naturals. */
  function Xor(a: nat, b: nat): nat
    decreases a + b
  {
    if a == 0 && b == 0 then 0 else 2 * Xor(a / 2, b / 2) + (a + b) % 2
  }

  /** The defining equation of `Xor`, digit by digit, for every pair of operands. */
  lemma XorDigits(a: nat, b: nat)
    ensures Xor(a, b) == 2 * Xor(a / 2, b / 2) + (a + b) % 2
    ensures Xor(a, b) / 2 == Xor(a / 2, b / 2) && Xor(a, b) % 2 == (a + b) % 2
  {
  }

  lemma {:induction false} XorZero(a: nat)
    ensures Xor(a, 0) == a && Xor(0, a) == a
    decreases a
  {
    if a > 0 {
      XorZero(a / 2);
      XorDigits(a, 0);
      XorDigits(0, a);
    }
  }

  lemma {:induction false} XorSelf(a: nat)
    ensures Xor(a, a) == 0
    decreases a
  {
    if a > 0 {
      XorSelf(a / 2);
      XorDigits(a, a);
    }
  }

  lemma {:induction false} XorComm(a: nat, b: nat)
    ensures Xor(a, b) == Xor(b, a)
    decreases a + b
  {
    if a + b > 0 {
      XorComm(a / 2, b / 2);
      XorDigits(a, b);
      XorDigits(b, a);
    }
  }

  lemma {:induction false} XorAssoc(a: nat, b: nat, c: nat)
    ensures Xor(Xor(a, b), c) == Xor(a, Xor(b, c))
    decreases a + b + c
  {
    if a + b + c > 0 {
      var ab, bc := Xor(a, b), Xor(b, c);
      XorAssoc(a / 2, b / 2, c / 2);
      XorDigits(a, b);
      XorDigits(b, c);
      XorDigits(ab, c);
      XorDigits(a, bc);
      ParityOfSum(a, b, c, ab, bc);
    }
  }

  lemma ParityOfSum(a: nat, b: nat, c: nat, ab: nat, bc: nat)
    requires ab % 2 == (a + b) % 2 && bc % 2 == (b + c) % 2
    ensures (ab + c) % 2 == (a + bc) % 2
  {
  }

  /** Exclusive or never sets a bit at or above the highest bit of its operands. */
  lemma {:induction false} XorBelow(a: nat, b: nat, k: nat)
    requires a < Pow2(k) && b < Pow2(k)
    ensures Xor(a, b) < Pow2(k)
  {
    XorDigits(a, b);
    if k == 0 {
      assert a == 0 && b == 0;
    } else {
      XorBelow(a / 2, b / 2, k - 1);
    }
  }

  /** When the operands occupy disjoint bit ranges, exclusive or is addition. */
  lemma {:induction false} XorDisjoint(a: nat, q: nat, k: nat)
    requires a < Pow2(k)
    ensures Xor(a, Pow2(k) * q) == a + Pow2(k) * q
  {
    if k == 0 {
      XorZero(q);
    } else {
      var h := Pow2(k - 1) * q;
      var m := Pow2(k) * q;
      assert m == 2 * h;
      XorDisjointStep(a, m, h, Pow2(k - 1));
      XorDisjoint(a / 2, q, k - 1);
    }
  }

  lemma XorDisjointStep(a: nat, m: nat, h: nat, p: nat)
    requires m == 2 * h && a < 2 * p
    ensures a / 2 < p
    ensures Xor(a / 2, h) == a / 2 + h ==> Xor(a, m) == a + m
  {
    XorDigits(a, m);
    HalfOfSum(a, h);
  }

  lemma HalfOfSum(a: nat, h: nat)
    ensures (a + 2 * h) / 2 == a / 2 + h && (a + 2 * h) % 2 == a % 2
    ensures 2 * (a / 2 + h) + a % 2 == a + 2 * h
  {
  }

  function Xor8(a: u8, b: u8): (r: u8)
    ensures r as int == Xor(a as nat, b as nat)
  {
    Pow2Values();
    XorBelow(a as nat, b as nat, 8);
    Xor(a as nat, b as nat) as u8
  }

  function Xor32(a: u32, b: u32): (r: u32)
    ensures r as int == Xor(a as nat, b as nat)
  {
    Pow2Values();
    XorBelow(a as nat, b as nat, 32);
    Xor(a as nat, b as nat) as u32
  }

  /** Exclusive or with the same byte twice gives back the first operand. */
  lemma Xor8Twice(d: u8, k: u8)
    ensures Xor8(Xor8(d, k), k) == d
  {
    XorAssoc(d as nat, k as nat, k as nat);
    XorSelf(k as nat);
    XorZero(d as nat);
  }
}
