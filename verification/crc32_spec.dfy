/**
 * The CRC-32 that `pad_crc32` (lib/pad_common.c) computes: the bit-at-a-time
 * definition, the table entries and the byte update of the table-driven
 * loop, and the proof that the two updates agree.  Register values are
 * naturals below 2^32; `c >> 1` is `c / 2`, `c & 1` is `c % 2`,
 * `c >> 8` is `c / 256` and `c & 0xFF` is `c % 256`.
 */
module Crc32Spec {
  import opened Bits

  /** The reflected IEEE 802.3 polynomial. */
  const POLY: nat := 0xEDB8_8320

  /** Shifts per byte. */
  const ROUNDS: nat := 8

  /** Preset of the register and mask applied to the result. */
  const ALL_ONES: nat := 0xFFFF_FFFF

  /** One shift of the bit-at-a-time reflected CRC register. */
  function Step(c: nat): nat {
    if c % 2 == 1 then Xor(POLY, c / 2) else c / 2
  }

  /** `k` shifts of the register. */
  function Steps(c: nat, k: nat): nat {
    if k == 0 then c else Step(Steps(c, k - 1))
  }

  /** Entry `i` of the lookup table: `i` after eight shifts. */
  function TableEntry(i: nat): nat {
    Steps(i, ROUNDS)
  }

  /** Feeding one byte to the bit-at-a-time register. */
  function BitwiseUpdate(crc: nat, b: u8): nat {
    Steps(Xor(crc, b as nat), ROUNDS)
  }

  /** The register after the bytes of `data`, fed from the first to the last. */
  function Register(init: nat, data: seq<u8>): nat {
    if data == [] then init else BitwiseUpdate(Register(init, data[..|data| - 1]), data[|data| - 1])
  }

  /** The CRC-32 of IEEE 802.3 (clause 3.2.9): register preset to all ones, result complemented. */
  function Crc32(data: seq<u8>): nat {
    Xor(Register(ALL_ONES, data), ALL_ONES)
  }

  /** The update `table[(crc ^ b) & 0xFF] ^ (crc >> 8)` of the table-driven loop. */
  function TableUpdate(crc: nat, b: u8): nat {
    Xor(TableEntry(Xor(crc, b as nat) % 256), crc / 256)
  }

  /** A shift never leaves 32 bits. */
  lemma StepBelow(c: nat)
    requires c < 0x1_0000_0000
    ensures Step(c) < 0x1_0000_0000
  {
    Pow2Values();
    XorBelow(POLY, c / 2, 32);
  }

  lemma {:induction false} StepsBelow(c: nat, k: nat)
    requires c < 0x1_0000_0000
    ensures Steps(c, k) < 0x1_0000_0000
  {
    if k > 0 {
      StepsBelow(c, k - 1);
      StepBelow(Steps(c, k - 1));
    }
  }

  lemma {:induction false} RegisterBelow(init: nat, data: seq<u8>)
    requires init < 0x1_0000_0000
    ensures Register(init, data) < 0x1_0000_0000
  {
    if data != [] {
      var r := Register(init, data[..|data| - 1]);
      RegisterBelow(init, data[..|data| - 1]);
      Pow2Values();
      XorBelow(r, data[|data| - 1] as nat, 32);
      StepsBelow(Xor(r, data[|data| - 1] as nat), ROUNDS);
    }
  }

  /** The checksum is a 32-bit value, like the `uint32_t` the source returns. */
  lemma Crc32Below(data: seq<u8>)
    ensures Crc32(data) < 0x1_0000_0000
  {
    RegisterBelow(ALL_ONES, data);
    Pow2Values();
    XorBelow(Register(ALL_ONES, data), ALL_ONES, 32);
  }

  /** Regrouping that moves a common operand `p` to the front. */
  lemma XorFront(p: nat, a: nat, b: nat)
    ensures Xor(a, Xor(p, b)) == Xor(p, Xor(a, b))
  {
    XorAssoc(a, p, b);
    XorComm(a, p);
    XorAssoc(p, a, b);
  }

  /** One shift is linear over exclusive or. */
  lemma StepXor(x: nat, y: nat)
    ensures Step(Xor(x, y)) == Xor(Step(x), Step(y))
  {
    XorDigits(x, y);
    SumParity(x, y);
    var hx, hy := x / 2, y / 2;
    if x % 2 == 1 && y % 2 == 1 {
      BothFedBack(hx, hy);
    } else if x % 2 == 1 {
      XorAssoc(POLY, hx, hy);
    } else if y % 2 == 1 {
      XorFront(POLY, hx, hy);
    }
  }

  lemma SumParity(x: nat, y: nat)
    ensures (x + y) % 2 == (if x % 2 == y % 2 then 0 else 1)
  {
  }

  /** When both shifted-out bits are 1 the two polynomials cancel. */
  lemma BothFedBack(hx: nat, hy: nat)
    ensures Xor(Xor(POLY, hx), Xor(POLY, hy)) == Xor(hx, hy)
  {
    XorFront(POLY, hx, hy);
    XorAssoc(POLY, hx, Xor(POLY, hy));
    XorAssoc(POLY, POLY, Xor(hx, hy));
    XorSelf(POLY);
    XorZero(Xor(hx, hy));
  }

  /** Any number of shifts is linear over exclusive or. */
  lemma {:induction false} StepsXor(x: nat, y: nat, k: nat)
    ensures Steps(Xor(x, y), k) == Xor(Steps(x, k), Steps(y, k))
  {
    if k > 0 {
      StepsXor(x, y, k - 1);
      StepXor(Steps(x, k - 1), Steps(y, k - 1));
    }
  }

  /** Shifting a register whose low `j` bits are clear `j` times drops those bits. */
  lemma {:induction false} ShiftOut(q: nat, j: nat)
    ensures Steps(Pow2(j) * q, j) == q
    decreases j
  {
    if j > 0 {
      var m := Pow2(j - 1);
      assert Pow2(j) * q == m * (2 * q);
      ShiftOut(2 * q, j - 1);
    }
  }

  /** `x` split into its low byte and its upper bits, as the table-driven loop splits it. */
  lemma SplitLowByte(x: nat)
    ensures Xor(x % 256, Pow2(8) * (x / 256)) == x
  {
    Pow2Values();
    XorDisjoint(x % 256, x / 256, 8);
  }

  /** Exclusive or with a byte leaves the bits above the low byte alone. */
  lemma XorByte(crc: nat, b: u8) returns (l: nat)
    ensures l < 256 && l == Xor(crc % 256, b as nat)
    ensures Xor(crc, b as nat) == Xor(l, Pow2(8) * (crc / 256))
  {
    var lo, high := crc % 256, Pow2(8) * (crc / 256);
    l := Xor(lo, b as nat);
    assert l < 256 by {
      Pow2Values();
      XorBelow(lo, b as nat, 8);
    }
    assert Xor(lo, high) == crc by {
      SplitLowByte(crc);
    }
    Regroup(lo, high, b as nat);
  }

  lemma Regroup(a: nat, h: nat, b: nat)
    ensures Xor(Xor(a, h), b) == Xor(Xor(a, b), h)
  {
    XorAssoc(a, h, b);
    XorComm(h, b);
    XorAssoc(a, b, h);
  }

  /** The table-driven byte update agrees with eight bit-at-a-time shifts. */
  lemma TableUpdateIsBitwise(crc: nat, b: u8)
    ensures TableUpdate(crc, b) == BitwiseUpdate(crc, b)
  {
    var l := XorByte(crc, b);
    var q := crc / 256;
    Pow2Values();
    XorDisjoint(l, q, 8);
    LowAndHigh(Xor(crc, b as nat), l, q);
    StepsXor(l, Pow2(8) * q, ROUNDS);
    ShiftOut(q, ROUNDS);
  }

  lemma LowAndHigh(x: nat, l: nat, q: nat)
    requires l < 256 && x == l + 256 * q
    ensures x % 256 == l && x / 256 == q
  {
  }

  /** The CRC of no bytes is zero. */
  lemma Crc32OfEmpty()
    ensures Crc32([]) == 0
  {
    XorSelf(ALL_ONES);
  }
}
