/** JavaScript's 32-bit integer operators. Numbers are exact integers; every operand is first taken modulo two to the 32. */
module JsNumbers {
  import opened Bits

  function ToUint32(n: int): Word { n % WORD }

  /** The signed reading of a 32-bit pattern. */
  function Signed(w: Word): int {
    if w < 0x8000_0000 then w else w - WORD
  }

  function ToInt32(n: int): int { Signed(ToUint32(n)) }

  function BitOp(op: Op, x: int, y: int): int { Signed(Word32(op, ToUint32(x), ToUint32(y))) }

  function BitNot(x: int): int { -1 - ToInt32(x) }

  function ShiftLeft(x: int, k: int): int { Signed(Shl(ToUint32(x), k % 32) % WORD) }

  /** The sign-propagating right shift. */
  function ShiftRight(x: int, k: int): int {
    var s := ToInt32(x);
    if s >= 0 then Shr(s, k % 32) else -1 - Shr(-1 - s, k % 32)
  }

  /** The zero-filling right shift. */
  function ShiftRightU(x: int, k: int): nat { Shr(ToUint32(x), k % 32) }

  // ----- what the operators mean on words -----

  lemma SignedWord(w: Word)
    ensures ToUint32(Signed(w)) == w
  {
  }

  lemma BitOpWord(op: Op, x: int, y: int)
    ensures ToUint32(BitOp(op, x, y)) == Word32(op, ToUint32(x), ToUint32(y))
  {
  }

  lemma BitNotWord(x: int)
    ensures ToUint32(BitNot(x)) == Not32(ToUint32(x))
  {
    SignedWord(Not32(ToUint32(x)));
  }

  lemma {:induction false} AndOnes(x: nat, n: nat)
    requires x < Shl(1, n)
    ensures Comb(And, x, Shl(1, n) - 1, n) == x
  {
    if n != 0 {
      AndOnes(x / 2, n - 1);
    }
  }

  lemma {:induction false} AndZero(x: nat, n: nat)
    ensures Comb(And, x, 0, n) == 0
  {
    if n != 0 {
      AndZero(x / 2, n - 1);
    }
  }

  /** Masking with ones keeps the low bits. */
  lemma LowBits(x: int, k: nat, mask: Word)
    requires k <= 32 && mask == Shl(1, k) - 1
    ensures 0 <= ToUint32(x) - Shl(Shr(ToUint32(x), k), k) < WORD
    ensures BitOp(And, x, mask) == Signed(ToUint32(x) - Shl(Shr(ToUint32(x), k), k))
  {
    hide Comb, Shr, Shl;
    var u := ToUint32(x);
    var hi := Shr(u, k);
    ShrSplit(u, k);
    CombSplit(And, u - Shl(hi, k), hi, mask, 0, k, 32 - k);
    AndOnes(u - Shl(hi, k), k);
    AndZero(hi, 32 - k);
    ShlZero(k);
  }

  lemma Low16(x: int)
    ensures BitOp(And, x, 0xffff) == ToUint32(x) % 0x1_0000
  {
    hide BitOp, Shr;
    ShlValues(1);
    LowBits(x, 16, 0xffff);
    ShrBy16(ToUint32(x));
    ShlValues(ToUint32(x) / 0x1_0000);
  }

  lemma Low8(x: int)
    ensures BitOp(And, x, 0xff) == ToUint32(x) % 0x100
  {
    hide BitOp, Shr;
    ShlValues(1);
    LowBits(x, 8, 0xff);
    ShrSplit(ToUint32(x), 8);
    ShlValues(Shr(ToUint32(x), 8));
  }

  lemma ShrBy16(n: nat)
    ensures Shr(n, 16) == n / 0x1_0000
  {
    ShrSplit(n, 16);
    ShlValues(Shr(n, 16));
    ShlValues(1);
  }

  lemma High16(x: int)
    ensures ShiftRight(x, 16) == ToInt32(x) / 0x1_0000
  {
    var s := ToInt32(x);
    ShrBy16(if s >= 0 then s else -1 - s);
  }

  lemma ShiftLeftWord(x: int, k: nat)
    requires k < 32
    ensures ToUint32(ShiftLeft(x, k)) == Shl(ToUint32(x), k) % WORD
  {
    hide Shl, Signed, ToUint32;
    SignedWord(Shl(ToUint32(x), k) % WORD);
  }

  lemma ShiftRightWord(x: int, k: nat)
    requires k < 32
    ensures ToUint32(ShiftRightU(x, k)) == ShiftRightU(x, k) == Shr(ToUint32(x), k)
  {
    var u := ToUint32(x);
    ShrSplit(u, k);
    ShlGrows(Shr(u, k), k);
  }

  lemma {:induction false} ShlGrows(x: nat, k: nat)
    ensures x <= Shl(x, k)
  {
    if k != 0 {
      ShlGrows(x, k - 1);
    }
  }
}
