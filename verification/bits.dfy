/** Bitwise operators on naturals, defined bit by bit, and 32-bit words. */
module Bits {
  const WORD := 0x1_0000_0000

  type Word = n: int | 0 <= n < WORD
  type Byte = n: int | 0 <= n < 256

  datatype Op = And | Or | Xor

  // ----- shifts -----

  /** `x` times two to the `k`. */
  function Shl(x: nat, k: nat): nat {
    if k == 0 then x else 2 * Shl(x, k - 1)
  }

  /** `x` divided by two to the `k`, rounded down. */
  function Shr(x: nat, k: nat): nat {
    if k == 0 then x else Shr(x / 2, k - 1)
  }

  lemma {:induction false} ShlAdd(x: nat, y: nat, k: nat)
    ensures Shl(x + y, k) == Shl(x, k) + Shl(y, k)
  {
    if k != 0 {
      ShlAdd(x, y, k - 1);
    }
  }

  lemma {:induction false} ShlShl(x: nat, j: nat, k: nat)
    ensures Shl(Shl(x, j), k) == Shl(x, j + k)
  {
    if k != 0 {
      ShlShl(x, j, k - 1);
    }
  }

  lemma ShlValues(x: nat)
    ensures Shl(x, 8) == 0x100 * x && Shl(x, 16) == 0x1_0000 * x
    ensures Shl(x, 24) == 0x100_0000 * x && Shl(x, 32) == WORD * x
  {
    Shl8(x);
    ShlShl(x, 8, 8);
    Shl8(Shl(x, 8));
    ShlShl(x, 16, 8);
    Shl8(Shl(x, 16));
    ShlShl(x, 24, 8);
    Shl8(Shl(x, 24));
  }

  lemma Shl8(x: nat)
    ensures Shl(x, 8) == 0x100 * x
  {
    assert Shl(x, 4) == 2 * Shl(x, 3) == 4 * Shl(x, 2) == 8 * Shl(x, 1) == 16 * x;
    assert Shl(x, 8) == 2 * Shl(x, 7) == 4 * Shl(x, 6) == 8 * Shl(x, 5) == 16 * Shl(x, 4);
  }

  /** Every number splits at bit `k` into a high and a low part. */
  lemma {:induction false} ShrSplit(x: nat, k: nat)
    ensures Shl(Shr(x, k), k) <= x < Shl(Shr(x, k), k) + Shl(1, k)
  {
    if k != 0 {
      ShrSplit(x / 2, k - 1);
    }
  }

  lemma {:induction false} ShrOfParts(hi: nat, lo: nat, k: nat)
    requires lo < Shl(1, k)
    ensures Shr(Shl(hi, k) + lo, k) == hi
  {
    if k != 0 {
      assert (Shl(hi, k) + lo) / 2 == Shl(hi, k - 1) + lo / 2;
      ShrOfParts(hi, lo / 2, k - 1);
    }
  }

  lemma {:induction false} ShlMonotone(x: nat, y: nat, k: nat)
    requires x <= y
    ensures Shl(x, k) <= Shl(y, k)
  {
    if k != 0 {
      ShlMonotone(x, y, k - 1);
    }
  }

  // ----- bitwise operators -----

  function Bit(op: Op, x: nat, y: nat): nat {
    match op
    case And => if x == 1 && y == 1 then 1 else 0
    case Or => if x == 1 || y == 1 then 1 else 0
    case Xor => if x == y then 0 else 1
  }

  /** Applies `op` to each of the low `n` bits of `x` and `y`. */
  function Comb(op: Op, x: nat, y: nat, n: nat): (r: nat)
    ensures r < Shl(1, n)
  {
    if n == 0 then 0 else Bit(op, x % 2, y % 2) + 2 * Comb(op, x / 2, y / 2, n - 1)
  }

  /** A bitwise operator works on the low and the high part of its operands independently. */
  lemma {:induction false} CombSplit(op: Op, xl: nat, xh: nat, yl: nat, yh: nat, k: nat, m: nat)
    requires xl < Shl(1, k) && yl < Shl(1, k)
    ensures Comb(op, xl + Shl(xh, k), yl + Shl(yh, k), k + m)
         == Comb(op, xl, yl, k) + Shl(Comb(op, xh, yh, m), k)
  {
    if k != 0 {
      CombSplit(op, xl / 2, xh, yl / 2, yh, k - 1, m);
      var x, y := xl + Shl(xh, k), yl + Shl(yh, k);
      assert x / 2 == xl / 2 + Shl(xh, k - 1) && x % 2 == xl % 2;
      assert y / 2 == yl / 2 + Shl(yh, k - 1) && y % 2 == yl % 2;
    }
  }

  /** Each bit of the result is the operator on the two bits there. */
  lemma {:induction false} CombBit(op: Op, x: nat, y: nat, n: nat, k: nat)
    requires k < n
    ensures var a, b, c := Shr(x, k) % 2 == 1, Shr(y, k) % 2 == 1, Shr(Comb(op, x, y, n), k) % 2 == 1;
      c <==> match op case And => a && b case Or => a || b case Xor => a != b
  {
    var c := Comb(op, x, y, n);
    assert c % 2 == Bit(op, x % 2, y % 2) && c / 2 == Comb(op, x / 2, y / 2, n - 1);
    if k != 0 {
      CombBit(op, x / 2, y / 2, n - 1, k - 1);
    }
  }

  lemma {:induction false} CombZero(op: Op, x: nat, n: nat)
    requires op != And && x < Shl(1, n)
    ensures Comb(op, x, 0, n) == x && Comb(op, 0, x, n) == x
  {
    if n != 0 {
      CombZero(op, x / 2, n - 1);
    }
  }

  lemma {:induction false} ShlZero(k: nat)
    ensures Shl(0, k) == 0
  {
    if k != 0 {
      ShlZero(k - 1);
    }
  }

  lemma {:induction false} ShlPositive(k: nat)
    ensures 0 < Shl(1, k)
  {
    if k != 0 {
      ShlPositive(k - 1);
    }
  }

  /** Or-ing parts that share no bit adds them. */
  lemma OrDisjoint(lo: nat, hi: nat, k: nat, m: nat)
    requires lo < Shl(1, k) && hi < Shl(1, m)
    ensures Comb(Or, Shl(hi, k), lo, k + m) == Shl(hi, k) + lo
    ensures Comb(Or, lo, Shl(hi, k), k + m) == Shl(hi, k) + lo
  {
    hide Comb, Shl;
    ShlZero(k);
    ShlPositive(k);
    CombSplit(Or, 0, hi, lo, 0, k, m);
    CombSplit(Or, lo, 0, 0, hi, k, m);
    CombZero(Or, lo, k);
    CombZero(Or, hi, m);
  }

  function Word32(op: Op, x: Word, y: Word): Word {
    ShlValues(1);
    Comb(op, x, y, 32)
  }

  function Not32(x: Word): Word { WORD - 1 - x }

  function Add32(x: Word, y: Word): Word { (x + y) % WORD }

  // ----- little-endian bytes of a word -----

  function FromBytes(b0: Byte, b1: Byte, b2: Byte, b3: Byte): Word {
    b0 + 0x100 * b1 + 0x1_0000 * b2 + 0x100_0000 * b3
  }

  /** The bytes of a word, the low-order one first. */
  function ByteAt(w: Word, k: nat): Byte
    requires k < 4
  {
    (if k == 0 then w else if k == 1 then w / 0x100 else if k == 2 then w / 0x1_0000 else w / 0x100_0000) % 256
  }

  lemma ZeroBytes()
    ensures ByteAt(0, 0) == ByteAt(0, 1) == ByteAt(0, 2) == ByteAt(0, 3) == 0
  {
  }

  lemma ByteByShift(w: Word, k: nat)
    requires k < 4
    ensures ByteAt(w, k) == Shr(w, 8 * k) % 256
  {
    hide Shr;
    var n := 8 * k;
    ShlValues(1);
    ShlValues(Shr(w, n));
    ShrSplit(w, n);
  }

  lemma BytesOfWord(w: Word)
    ensures FromBytes(ByteAt(w, 0), ByteAt(w, 1), ByteAt(w, 2), ByteAt(w, 3)) == w
  {
    var w1, w2, w3 := w / 0x100, w / 0x1_0000, w / 0x100_0000;
    assert w == 0x100 * w1 + w % 256;
    assert w1 == 0x100 * w2 + w1 % 256;
    assert w2 == 0x100 * w3 + w2 % 256;
  }

  lemma WordOfBytes(b0: Byte, b1: Byte, b2: Byte, b3: Byte)
    ensures ByteAt(FromBytes(b0, b1, b2, b3), 0) == b0
    ensures ByteAt(FromBytes(b0, b1, b2, b3), 1) == b1
    ensures ByteAt(FromBytes(b0, b1, b2, b3), 2) == b2
    ensures ByteAt(FromBytes(b0, b1, b2, b3), 3) == b3
  {
    var w := FromBytes(b0, b1, b2, b3);
    assert w / 0x100 == b1 + 0x100 * b2 + 0x1_0000 * b3;
    assert w / 0x1_0000 == b2 + 0x100 * b3;
    assert w / 0x100_0000 == b3;
  }

  function XorByte(a: Byte, b: Byte): Byte {
    ShlValues(1);
    Comb(Xor, a, b, 8)
  }

  lemma XorLowByte(a: Byte, x: nat, p: nat, b: Byte, y: nat, q: nat, m: nat, c: nat)
    requires p == a + 0x100 * x && q == b + 0x100 * y && c == Comb(Xor, x, y, m)
    ensures Comb(Xor, p, q, 8 + m) == XorByte(a, b) + 0x100 * c
  {
    ShlValues(1);
    Shl8(x);
    Shl8(y);
    CombSplit(Xor, a, x, b, y, 8, m);
    Shl8(c);
  }

  lemma XorTwoBytes(a0: Byte, a1: Byte, b0: Byte, b1: Byte)
    ensures Comb(Xor, a0 + 0x100 * a1, b0 + 0x100 * b1, 16) == XorByte(a0, b0) + 0x100 * XorByte(a1, b1)
  {
    assert XorByte(a1, b1) == Comb(Xor, a1, b1, 8);
    hide Comb, XorByte;
    XorLowByte(a0, a1, a0 + 0x100 * a1, b0, b1, b0 + 0x100 * b1, 8, XorByte(a1, b1));
  }

  /** Exclusive or of two words, byte by byte. */
  lemma XorBytes(a0: Byte, a1: Byte, a2: Byte, a3: Byte, b0: Byte, b1: Byte, b2: Byte, b3: Byte)
    ensures Word32(Xor, FromBytes(a0, a1, a2, a3), FromBytes(b0, b1, b2, b3))
         == FromBytes(XorByte(a0, b0), XorByte(a1, b1), XorByte(a2, b2), XorByte(a3, b3))
  {
    hide Comb, XorByte;
    XorUpper(a1, a2, a3, b1, b2, b3);
    XorLowByte(a0, a1 + 0x100 * (a2 + 0x100 * a3), FromBytes(a0, a1, a2, a3),
               b0, b1 + 0x100 * (b2 + 0x100 * b3), FromBytes(b0, b1, b2, b3),
               24, XorByte(a1, b1) + 0x100 * (XorByte(a2, b2) + 0x100 * XorByte(a3, b3)));
  }

  lemma XorUpper(a1: Byte, a2: Byte, a3: Byte, b1: Byte, b2: Byte, b3: Byte)
    ensures Comb(Xor, a1 + 0x100 * (a2 + 0x100 * a3), b1 + 0x100 * (b2 + 0x100 * b3), 24)
         == XorByte(a1, b1) + 0x100 * (XorByte(a2, b2) + 0x100 * XorByte(a3, b3))
  {
    hide Comb, XorByte;
    XorTwoBytes(a2, a3, b2, b3);
    var p, q := a2 + 0x100 * a3, b2 + 0x100 * b3;
    XorLowByte(a1, p, a1 + 0x100 * p, b1, q, b1 + 0x100 * q, 16, XorByte(a2, b2) + 0x100 * XorByte(a3, b3));
  }

  // ----- rotation -----

  /** Circular shift left by one bit. */
  function Rot1(x: Word): Word {
    if x < 0x8000_0000 then 2 * x else 2 * x - WORD + 1
  }

  /** Circular shift left by `s` bits. */
  function Rot(x: Word, s: nat): Word {
    if s == 0 then x else Rot1(Rot(x, s - 1))
  }

  lemma PartsBound(hi: nat, lo: nat, s: nat, r: nat)
    requires hi < Shl(1, s) && lo < Shl(1, r)
    ensures Shl(hi, r) + lo < Shl(1, s + r)
  {
    ShlShl(1, s, r);
    ShlMonotone(hi, Shl(1, s) - 1, r);
    ShlAdd(Shl(1, s) - 1, 1, r);
  }

  /** Rotating by `s` exchanges the high `s` bits and the low `r` bits. */
  lemma {:induction false} RotParts(hi: nat, lo: nat, s: nat, r: nat)
    requires s + r == 32 && hi < Shl(1, s) && lo < Shl(1, r)
    ensures Shl(hi, r) + lo < WORD
    ensures Rot(Shl(hi, r) + lo, s) == Shl(lo, s) + hi
  {
    PartsBound(hi, lo, s, r);
    ShlValues(1);
    if s == 0 {
      ShlZero(r);
    } else {
      // one bit moves from the low end of `hi` to the top of the remaining part
      var h, bit := hi / 2, hi % 2;
      TakeLowBit(hi, r);
      assert h < Shl(1, s - 1);
      PartsBound(bit, lo, 1, r);
      RotParts(h, Shl(bit, r) + lo, s - 1, r + 1);
      RotTop(h, bit, lo, Shl(hi, r) + lo, s - 1, r);
    }
  }

  lemma TakeLowBit(x: nat, r: nat)
    ensures Shl(x, r) == Shl(x / 2, r + 1) + Shl(x % 2, r)
  {
    ShlAdd(x / 2, x / 2, r);
    ShlAdd(2 * (x / 2), x % 2, r);
  }

  lemma RotTop(h: nat, bit: nat, lo: nat, x: Word, s: nat, r: nat)
    requires s + r == 31 && h < Shl(1, s) && bit < 2 && lo < Shl(1, r)
    requires Rot(x, s) == Shl(Shl(bit, r) + lo, s) + h
    ensures Rot(x, s + 1) == Shl(lo, s + 1) + 2 * h + bit
  {
    ShlAdd(Shl(bit, r), lo, s);
    ShlShl(bit, r, s);
    PartsBound(lo, h, r, s);
    TopBit(bit);
  }

  lemma TopBit(bit: nat)
    requires bit < 2
    ensures Shl(bit, 31) == bit * 0x8000_0000 && Shl(1, 31) == 0x8000_0000
  {
    ShlValues(1);
    assert Shl(1, 32) == 2 * Shl(1, 31);
    ShlZero(31);
  }

  lemma {:induction false} RotCompose(x: Word, s: nat, t: nat)
    ensures Rot(Rot(x, s), t) == Rot(x, s + t)
  {
    if t != 0 {
      RotCompose(x, s, t - 1);
    }
  }

  /** A full turn is the identity. */
  lemma RotFull(x: Word)
    ensures Rot(x, 32) == x
  {
    ShlValues(1);
    RotParts(x, 0, 32, 0);
    ShlZero(32);
  }
}
