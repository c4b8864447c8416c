/** The MD5 and HMAC-MD5 of the Font Awesome conflict detector, over JavaScript numbers and growing sparse arrays. */
module Md5 {
  import opened Bits
  import opened JsNumbers
  import opened Rfc1321

  function SafeAdd(x: int, y: int): int {
    var lsw := BitOp(And, x, 0xffff) + BitOp(And, y, 0xffff);
    var msw := ShiftRight(x, 16) + ShiftRight(y, 16) + ShiftRight(lsw, 16);
    BitOp(Or, ShiftLeft(msw, 16), BitOp(And, lsw, 0xffff))
  }

  function BitRotateLeft(num: int, cnt: int): int {
    BitOp(Or, ShiftLeft(num, cnt), ShiftRightU(num, 32 - cnt))
  }

  function Md5cmn(q: int, a: int, b: int, x: int, s: int, t: int): int {
    SafeAdd(BitRotateLeft(SafeAdd(SafeAdd(a, q), SafeAdd(x, t)), s), b)
  }

  function Md5ff(a: int, b: int, c: int, d: int, x: int, s: int, t: int): int {
    Md5cmn(BitOp(Or, BitOp(And, b, c), BitOp(And, BitNot(b), d)), a, b, x, s, t)
  }

  function Md5gg(a: int, b: int, c: int, d: int, x: int, s: int, t: int): int {
    Md5cmn(BitOp(Or, BitOp(And, b, d), BitOp(And, c, BitNot(d))), a, b, x, s, t)
  }

  function Md5hh(a: int, b: int, c: int, d: int, x: int, s: int, t: int): int {
    Md5cmn(BitOp(Xor, BitOp(Xor, b, c), d), a, b, x, s, t)
  }

  function Md5ii(a: int, b: int, c: int, d: int, x: int, s: int, t: int): int {
    Md5cmn(BitOp(Xor, c, BitOp(Or, b, BitNot(d))), a, b, x, s, t)
  }

  // ----- the word operations -----

  /** Putting a half above another one. */
  lemma JoinHalves(msw: int, lo: nat)
    requires lo < 0x1_0000
    ensures BitOp(Or, ShiftLeft(msw, 16), lo) == ToInt32(0x1_0000 * msw + lo)
  {
    hide ShiftLeft, Comb, Shl, ToUint32;
    var hi := ToUint32(msw) % 0x1_0000;
    ShiftLeftWord(msw, 16);
    ShlValues(ToUint32(msw));
    ShlValues(hi);
    ShlValues(1);
    HalfModulo(msw, lo);
    HalfModulo(msw, 0);
    HalfModulo(0, lo);
    HalfModulo(ToUint32(msw), 0);
    OrDisjoint(lo, hi, 16, 16);
  }

  lemma ModWord(q: int, r: Word)
    ensures (r + WORD * q) % WORD == r
  {
  }

  lemma HalfModulo(msw: int, lo: nat)
    requires lo < 0x1_0000
    ensures (0x1_0000 * msw + lo) % WORD == 0x1_0000 * (ToUint32(msw) % 0x1_0000) + lo
    ensures ToUint32(0x1_0000 * msw + lo) == (0x1_0000 * msw + lo) % WORD
    ensures ToUint32(ToUint32(msw)) == ToUint32(msw)
    ensures ToUint32(lo) == lo
  {
    ModWord(0, lo);
    ModWord(0, ToUint32(msw));
    HalfSplit(msw, ToUint32(msw), msw / WORD, ToUint32(msw) / 0x1_0000, ToUint32(msw) % 0x1_0000, lo);
  }

  lemma HalfSplit(msw: int, m: int, i: int, j: int, r: nat, lo: nat)
    requires msw == m + WORD * i && m == r + 0x1_0000 * j && r < 0x1_0000 && lo < 0x1_0000
    ensures (0x1_0000 * msw + lo) % WORD == 0x1_0000 * r + lo
  {
    ModWord(j + 0x1_0000 * i, 0x1_0000 * r + lo);
  }

  lemma HighHalf(x: int)
    ensures 0x1_0000 * (ToInt32(x) / 0x1_0000) + ToUint32(x) % 0x1_0000 == ToInt32(x)
  {
    var u := ToUint32(x);
    assert u == u % 0x1_0000 + 0x1_0000 * (u / 0x1_0000);
    assert u - WORD == u % 0x1_0000 + 0x1_0000 * (u / 0x1_0000 - 0x1_0000);
  }

  lemma SignedShift(x: int) returns (k: int)
    ensures x == ToInt32(x) + WORD * k
  {
    k := x / WORD + if ToUint32(x) < 0x8000_0000 then 0 else 1;
  }

  lemma ShiftedWord(n: int, k: int)
    ensures ToUint32(n + WORD * k) == ToUint32(n)
  {
    var q := n / WORD;
    assert n == ToUint32(n) + WORD * q;
    ModWord(q + k, ToUint32(n));
  }

  lemma ToInt32Sum(x: int, y: int)
    ensures ToInt32(ToInt32(x) + ToInt32(y)) == ToInt32(x + y)
  {
    var i := SignedShift(x);
    var j := SignedShift(y);
    ShiftedWord(ToInt32(x) + ToInt32(y), i + j);
  }

  /** Despite the 16-bit halves, `SafeAdd` is addition wrapped to a signed 32-bit number. */
  lemma SafeAddWraps(x: int, y: int)
    ensures SafeAdd(x, y) == ToInt32(x + y)
  {
    hide BitOp, ShiftRight, ShiftLeft, ToInt32, ToUint32;
    var lsw := ToUint32(x) % 0x1_0000 + ToUint32(y) % 0x1_0000;
    Low16(x);
    Low16(y);
    Low16(lsw);
    High16(x);
    High16(y);
    High16(lsw);
    SmallNumber(lsw);
    JoinHalves(ToInt32(x) / 0x1_0000 + ToInt32(y) / 0x1_0000 + lsw / 0x1_0000, lsw % 0x1_0000);
    HighHalf(x);
    HighHalf(y);
    ToInt32Sum(x, y);
  }

  lemma SmallNumber(n: nat)
    requires n < 0x8000_0000
    ensures ToInt32(n) == ToUint32(n) == n
  {
  }

  /** For the counts 1 to 31 `BitRotateLeft` is the circular shift. */
  lemma BitRotateLeftRotates(num: int, cnt: int)
    requires 0 < cnt < 32
    ensures BitRotateLeft(num, cnt) == Signed(Rot(ToUint32(num), cnt))
  {
    hide ShiftLeft, ShiftRightU, Comb, Rot;
    var x, r := ToUint32(num), 32 - cnt;
    var hi := Shr(x, r);
    var lo := LowPart(x, cnt, r);
    RotParts(hi, lo, cnt, r);
    ShiftLeftWord(num, cnt);
    ShiftRightWord(num, r);
    OrDisjoint(hi, lo, cnt, r);
  }

  /** The word below its `cnt` high bits. */
  lemma LowPart(x: Word, cnt: nat, r: nat) returns (lo: nat)
    requires cnt + r == 32
    ensures lo < Shl(1, r) && x == Shl(Shr(x, r), r) + lo && Shr(x, r) < Shl(1, cnt)
    ensures Shl(x, cnt) % WORD == Shl(lo, cnt)
  {
    hide Shr, Shl;
    var hi := Shr(x, r);
    ShrSplit(x, r);
    lo := x - Shl(hi, r);
    ShlValues(1);
    ShlShl(1, cnt, r);
    if hi >= Shl(1, cnt) {
      ShlMonotone(Shl(1, cnt), hi, r);
    }
    ShiftedOut(hi, lo, cnt, r);
  }

  /** Shifting a word by `cnt` loses its `cnt` high bits. */
  lemma ShiftedOut(hi: nat, lo: nat, cnt: nat, r: nat)
    requires cnt + r == 32 && lo < Shl(1, r) && hi < Shl(1, cnt)
    ensures Shl(Shl(hi, r) + lo, cnt) % WORD == Shl(lo, cnt)
  {
    hide Shr;
    ShlValues(1);
    ShlAdd(Shl(hi, r), lo, cnt);
    ShlShl(hi, r, cnt);
    ShlValues(hi);
    PartsBound(lo, 0, r, cnt);
  }

  /** Rotating on by the complement restores the number. */
  lemma BitRotateLeftInverse(num: int, cnt: int)
    requires 0 < cnt < 32
    ensures BitRotateLeft(BitRotateLeft(num, cnt), 32 - cnt) == ToInt32(num)
  {
    hide BitRotateLeft, Rot;
    BitRotateLeftRotates(num, cnt);
    BitRotateLeftRotates(BitRotateLeft(num, cnt), 32 - cnt);
    RotCompose(ToUint32(num), cnt, 32 - cnt);
    RotFull(ToUint32(num));
  }

  lemma SumWord(x: int, y: int)
    ensures ToUint32(SafeAdd(x, y)) == Add32(ToUint32(x), ToUint32(y))
  {
    hide SafeAdd;
    SafeAddWraps(x, y);
    SignedWord(ToUint32(x + y));
    ToInt32Sum(x, y);
  }

  lemma Sum4(a: Word, q: Word, x: Word, t: Word)
    ensures Add32(Add32(a, q), Add32(x, t)) == (a + q + x + t) % WORD
  {
    var i, j := (a + q) / WORD, (x + t) / WORD;
    assert a + q + x + t == Add32(a, q) + Add32(x, t) + WORD * (i + j);
  }

  lemma CmnWord(q: int, a: int, b: int, x: int, s: int, t: int)
    requires 0 < s < 32
    ensures ToUint32(Md5cmn(q, a, b, x, s, t))
         == Add32(ToUint32(b), Rot((ToUint32(a) + ToUint32(q) + ToUint32(x) + ToUint32(t)) % WORD, s))
  {
    hide SafeAdd, BitRotateLeft, ToUint32, Rot, Add32;
    var aq, xt := SafeAdd(a, q), SafeAdd(x, t);
    var r := BitRotateLeft(SafeAdd(aq, xt), s);
    SumWord(a, q);
    SumWord(x, t);
    SumWord(aq, xt);
    Sum4(ToUint32(a), ToUint32(q), ToUint32(x), ToUint32(t));
    SumWord(r, b);
    BitRotateLeftRotates(SafeAdd(aq, xt), s);
    SignedWord(Rot(ToUint32(SafeAdd(aq, xt)), s));
    AddCommutes(ToUint32(r), ToUint32(b));
  }

  lemma AddCommutes(x: Word, y: Word)
    ensures Add32(x, y) == Add32(y, x)
  {
  }

  // ----- sparse arrays -----

  datatype JsVal = Undefined | Num(n: int)

  /** The number a bitwise operator sees at index `i`: holes and indices past the end read as undefined, which counts as 0. */
  function Operand(x: seq<JsVal>, i: int): int {
    if 0 <= i < |x| && x[i].Num? then x[i].n else 0
  }

  /** An assignment at index `i`; past the end it leaves holes, and a negative index is no array element. */
  function Stored(x: seq<JsVal>, i: int, v: JsVal): seq<JsVal> {
    if i < 0 then x
    else if i < |x| then x[i := v]
    else x + seq(i - |x|, _ => Undefined) + [v]
  }

  class JsArray {
    var elems: seq<JsVal>

    constructor (elems: seq<JsVal>)
      ensures this.elems == elems
    {
      this.elems := elems;
    }

    method Put(i: int, v: JsVal)
      modifies this
      ensures elems == Stored(old(elems), i, v)
    {
      elems := Stored(elems, i, v);
    }
  }

  // ----- one block -----

  /** The registers read as words. */
  function Regs(a: int, b: int, c: int, d: int): Quad {
    Quad(ToUint32(a), ToUint32(b), ToUint32(c), ToUint32(d))
  }

  /** The reference run that the unrolled steps follow: from the registers `q`, over the block of `p` at word `w`. */
  datatype Run = Run(q: Quad, p: seq<Byte>, w: nat) {
    ghost predicate Reads(x: seq<JsVal>, i: int) {
      && ToUint32(Operand(x, i)) == WordAt(p, w)
      && ToUint32(Operand(x, i + 1)) == WordAt(p, w + 1)
      && ToUint32(Operand(x, i + 2)) == WordAt(p, w + 2)
      && ToUint32(Operand(x, i + 3)) == WordAt(p, w + 3)
      && ToUint32(Operand(x, i + 4)) == WordAt(p, w + 4)
      && ToUint32(Operand(x, i + 5)) == WordAt(p, w + 5)
      && ToUint32(Operand(x, i + 6)) == WordAt(p, w + 6)
      && ToUint32(Operand(x, i + 7)) == WordAt(p, w + 7)
      && ToUint32(Operand(x, i + 8)) == WordAt(p, w + 8)
      && ToUint32(Operand(x, i + 9)) == WordAt(p, w + 9)
      && ToUint32(Operand(x, i + 10)) == WordAt(p, w + 10)
      && ToUint32(Operand(x, i + 11)) == WordAt(p, w + 11)
      && ToUint32(Operand(x, i + 12)) == WordAt(p, w + 12)
      && ToUint32(Operand(x, i + 13)) == WordAt(p, w + 13)
      && ToUint32(Operand(x, i + 14)) == WordAt(p, w + 14)
      && ToUint32(Operand(x, i + 15)) == WordAt(p, w + 15)
    }

    /** The registers hold what the first `n` operations leave, in the roles they have then. */
    ghost predicate At(n: nat, a: int, b: int, c: int, d: int) {
      n <= 64 && Regs(a, b, c, d) == Steps(q, p, w, n)
    }

    /** Operation `n` reads the word `x` and adds the constant `t`. */
    ghost predicate Feeds(n: nat, x: int, s: int, t: int) {
      n < 64 && ToUint32(x) == WordAt(p, w + WordIndex(n)) && s == Shift(n) && ToUint32(t) == T(n)
    }
  }

  lemma MixWord(b: int, c: int, d: int)
    ensures ToUint32(BitOp(Or, BitOp(And, b, c), BitOp(And, BitNot(b), d))) == F(ToUint32(b), ToUint32(c), ToUint32(d))
    ensures ToUint32(BitOp(Or, BitOp(And, b, d), BitOp(And, c, BitNot(d)))) == G(ToUint32(b), ToUint32(c), ToUint32(d))
    ensures ToUint32(BitOp(Xor, BitOp(Xor, b, c), d)) == H(ToUint32(b), ToUint32(c), ToUint32(d))
    ensures ToUint32(BitOp(Xor, c, BitOp(Or, b, BitNot(d)))) == I(ToUint32(b), ToUint32(c), ToUint32(d))
  {
    hide BitOp, BitNot, Word32, Not32, ToUint32;
    BitNotWord(b);
    BitNotWord(d);
    BitOpWord(And, b, c);
    BitOpWord(And, BitNot(b), d);
    BitOpWord(Or, BitOp(And, b, c), BitOp(And, BitNot(b), d));
    BitOpWord(And, b, d);
    BitOpWord(And, c, BitNot(d));
    BitOpWord(Or, BitOp(And, b, d), BitOp(And, c, BitNot(d)));
    BitOpWord(Xor, b, c);
    BitOpWord(Xor, BitOp(Xor, b, c), d);
    BitOpWord(Or, b, BitNot(d));
    BitOpWord(Xor, c, BitOp(Or, b, BitNot(d)));
  }

  method Ff(ghost run: Run, ghost n: nat, a: int, b: int, c: int, d: int, x: int, s: int, t: int) returns (r: int)
    requires n < 16 && run.At(n, a, b, c, d) && run.Feeds(n, x, s, t)
    ensures run.At(n + 1, d, r, b, c)
  {
    hide Md5cmn, ToUint32, Word32, Not32, Add32, Rot, WordAt, F, BitOp, BitNot, T;
    r := Md5ff(a, b, c, d, x, s, t);
    MixWord(b, c, d);
    CmnWord(BitOp(Or, BitOp(And, b, c), BitOp(And, BitNot(b), d)), a, b, x, s, t);
  }

  method Gg(ghost run: Run, ghost n: nat, a: int, b: int, c: int, d: int, x: int, s: int, t: int) returns (r: int)
    requires 16 <= n < 32 && run.At(n, a, b, c, d) && run.Feeds(n, x, s, t)
    ensures run.At(n + 1, d, r, b, c)
  {
    hide Md5cmn, ToUint32, Word32, Not32, Add32, Rot, WordAt, G, BitOp, BitNot, T;
    r := Md5gg(a, b, c, d, x, s, t);
    MixWord(b, c, d);
    CmnWord(BitOp(Or, BitOp(And, b, d), BitOp(And, c, BitNot(d))), a, b, x, s, t);
  }

  method Hh(ghost run: Run, ghost n: nat, a: int, b: int, c: int, d: int, x: int, s: int, t: int) returns (r: int)
    requires 32 <= n < 48 && run.At(n, a, b, c, d) && run.Feeds(n, x, s, t)
    ensures run.At(n + 1, d, r, b, c)
  {
    hide Md5cmn, ToUint32, Word32, Not32, Add32, Rot, WordAt, H, BitOp, BitNot, T;
    r := Md5hh(a, b, c, d, x, s, t);
    MixWord(b, c, d);
    CmnWord(BitOp(Xor, BitOp(Xor, b, c), d), a, b, x, s, t);
  }

  method Ii(ghost run: Run, ghost n: nat, a: int, b: int, c: int, d: int, x: int, s: int, t: int) returns (r: int)
    requires 48 <= n < 64 && run.At(n, a, b, c, d) && run.Feeds(n, x, s, t)
    ensures run.At(n + 1, d, r, b, c)
  {
    hide Md5cmn, ToUint32, Word32, Not32, Add32, Rot, WordAt, I, BitOp, BitNot, T;
    r := Md5ii(a, b, c, d, x, s, t);
    MixWord(b, c, d);
    CmnWord(BitOp(Xor, c, BitOp(Or, b, BitNot(d))), a, b, x, s, t);
  }

  method RoundOne(ghost run: Run, x: seq<JsVal>, i: nat, a0: int, b0: int, c0: int, d0: int) returns (a: int, b: int, c: int, d: int)
    requires run.Reads(x, i) && run.At(0, a0, b0, c0, d0)
    ensures run.At(16, a, b, c, d)
  {
    TableOne();
    hide WordAt, Operand, T, Run.At;
    a, b, c, d := a0, b0, c0, d0;
    a := Ff(run, 0, a, b, c, d, Operand(x, i), 7, -680876936);
    d := Ff(run, 1, d, a, b, c, Operand(x, i + 1), 12, -389564586);
    c := Ff(run, 2, c, d, a, b, Operand(x, i + 2), 17, 606105819);
    b := Ff(run, 3, b, c, d, a, Operand(x, i + 3), 22, -1044525330);
    a := Ff(run, 4, a, b, c, d, Operand(x, i + 4), 7, -176418897);
    d := Ff(run, 5, d, a, b, c, Operand(x, i + 5), 12, 1200080426);
    c := Ff(run, 6, c, d, a, b, Operand(x, i + 6), 17, -1473231341);
    b := Ff(run, 7, b, c, d, a, Operand(x, i + 7), 22, -45705983);
    a := Ff(run, 8, a, b, c, d, Operand(x, i + 8), 7, 1770035416);
    d := Ff(run, 9, d, a, b, c, Operand(x, i + 9), 12, -1958414417);
    c := Ff(run, 10, c, d, a, b, Operand(x, i + 10), 17, -42063);
    b := Ff(run, 11, b, c, d, a, Operand(x, i + 11), 22, -1990404162);
    a := Ff(run, 12, a, b, c, d, Operand(x, i + 12), 7, 1804603682);
    d := Ff(run, 13, d, a, b, c, Operand(x, i + 13), 12, -40341101);
    c := Ff(run, 14, c, d, a, b, Operand(x, i + 14), 17, -1502002290);
    b := Ff(run, 15, b, c, d, a, Operand(x, i + 15), 22, 1236535329);
  }

  method RoundTwo(ghost run: Run, x: seq<JsVal>, i: nat, a0: int, b0: int, c0: int, d0: int) returns (a: int, b: int, c: int, d: int)
    requires run.Reads(x, i) && run.At(16, a0, b0, c0, d0)
    ensures run.At(32, a, b, c, d)
  {
    TableTwo();
    hide WordAt, Operand, T, Run.At;
    a, b, c, d := a0, b0, c0, d0;
    a := Gg(run, 16, a, b, c, d, Operand(x, i + 1), 5, -165796510);
    d := Gg(run, 17, d, a, b, c, Operand(x, i + 6), 9, -1069501632);
    c := Gg(run, 18, c, d, a, b, Operand(x, i + 11), 14, 643717713);
    b := Gg(run, 19, b, c, d, a, Operand(x, i), 20, -373897302);
    a := Gg(run, 20, a, b, c, d, Operand(x, i + 5), 5, -701558691);
    d := Gg(run, 21, d, a, b, c, Operand(x, i + 10), 9, 38016083);
    c := Gg(run, 22, c, d, a, b, Operand(x, i + 15), 14, -660478335);
    b := Gg(run, 23, b, c, d, a, Operand(x, i + 4), 20, -405537848);
    a := Gg(run, 24, a, b, c, d, Operand(x, i + 9), 5, 568446438);
    d := Gg(run, 25, d, a, b, c, Operand(x, i + 14), 9, -1019803690);
    c := Gg(run, 26, c, d, a, b, Operand(x, i + 3), 14, -187363961);
    b := Gg(run, 27, b, c, d, a, Operand(x, i + 8), 20, 1163531501);
    a := Gg(run, 28, a, b, c, d, Operand(x, i + 13), 5, -1444681467);
    d := Gg(run, 29, d, a, b, c, Operand(x, i + 2), 9, -51403784);
    c := Gg(run, 30, c, d, a, b, Operand(x, i + 7), 14, 1735328473);
    b := Gg(run, 31, b, c, d, a, Operand(x, i + 12), 20, -1926607734);
  }

  method RoundThree(ghost run: Run, x: seq<JsVal>, i: nat, a0: int, b0: int, c0: int, d0: int) returns (a: int, b: int, c: int, d: int)
    requires run.Reads(x, i) && run.At(32, a0, b0, c0, d0)
    ensures run.At(48, a, b, c, d)
  {
    TableThree();
    hide WordAt, Operand, T, Run.At;
    a, b, c, d := a0, b0, c0, d0;
    a := Hh(run, 32, a, b, c, d, Operand(x, i + 5), 4, -378558);
    d := Hh(run, 33, d, a, b, c, Operand(x, i + 8), 11, -2022574463);
    c := Hh(run, 34, c, d, a, b, Operand(x, i + 11), 16, 1839030562);
    b := Hh(run, 35, b, c, d, a, Operand(x, i + 14), 23, -35309556);
    a := Hh(run, 36, a, b, c, d, Operand(x, i + 1), 4, -1530992060);
    d := Hh(run, 37, d, a, b, c, Operand(x, i + 4), 11, 1272893353);
    c := Hh(run, 38, c, d, a, b, Operand(x, i + 7), 16, -155497632);
    b := Hh(run, 39, b, c, d, a, Operand(x, i + 10), 23, -1094730640);
    a := Hh(run, 40, a, b, c, d, Operand(x, i + 13), 4, 681279174);
    d := Hh(run, 41, d, a, b, c, Operand(x, i), 11, -358537222);
    c := Hh(run, 42, c, d, a, b, Operand(x, i + 3), 16, -722521979);
    b := Hh(run, 43, b, c, d, a, Operand(x, i + 6), 23, 76029189);
    a := Hh(run, 44, a, b, c, d, Operand(x, i + 9), 4, -640364487);
    d := Hh(run, 45, d, a, b, c, Operand(x, i + 12), 11, -421815835);
    c := Hh(run, 46, c, d, a, b, Operand(x, i + 15), 16, 530742520);
    b := Hh(run, 47, b, c, d, a, Operand(x, i + 2), 23, -995338651);
  }

  method RoundFour(ghost run: Run, x: seq<JsVal>, i: nat, a0: int, b0: int, c0: int, d0: int) returns (a: int, b: int, c: int, d: int)
    requires run.Reads(x, i) && run.At(48, a0, b0, c0, d0)
    ensures run.At(64, a, b, c, d)
  {
    TableFour();
    hide WordAt, Operand, T, Run.At;
    a, b, c, d := a0, b0, c0, d0;
    a := Ii(run, 48, a, b, c, d, Operand(x, i), 6, -198630844);
    d := Ii(run, 49, d, a, b, c, Operand(x, i + 7), 10, 1126891415);
    c := Ii(run, 50, c, d, a, b, Operand(x, i + 14), 15, -1416354905);
    b := Ii(run, 51, b, c, d, a, Operand(x, i + 5), 21, -57434055);
    a := Ii(run, 52, a, b, c, d, Operand(x, i + 12), 6, 1700485571);
    d := Ii(run, 53, d, a, b, c, Operand(x, i + 3), 10, -1894986606);
    c := Ii(run, 54, c, d, a, b, Operand(x, i + 10), 15, -1051523);
    b := Ii(run, 55, b, c, d, a, Operand(x, i + 1), 21, -2054922799);
    a := Ii(run, 56, a, b, c, d, Operand(x, i + 8), 6, 1873313359);
    d := Ii(run, 57, d, a, b, c, Operand(x, i + 15), 10, -30611744);
    c := Ii(run, 58, c, d, a, b, Operand(x, i + 6), 15, -1560198380);
    b := Ii(run, 59, b, c, d, a, Operand(x, i + 13), 21, 1309151649);
    a := Ii(run, 60, a, b, c, d, Operand(x, i + 4), 6, -145523070);
    d := Ii(run, 61, d, a, b, c, Operand(x, i + 11), 10, -1120210379);
    c := Ii(run, 62, c, d, a, b, Operand(x, i + 2), 15, 718787259);
    b := Ii(run, 63, b, c, d, a, Operand(x, i + 9), 21, -343485551);
  }

  // ----- words packed in arrays -----

  /** The elements are the little-endian words of `b`, as if zeros followed it. */
  ghost predicate Holds(x: seq<JsVal>, b: seq<Byte>) {
    forall j :: 0 <= j < |x| ==> ToUint32(Operand(x, j)) == WordAt(b, j)
  }

  /** The array holds the words of `b`, the last one filled up with zeros, and no more. */
  ghost predicate Packs(x: seq<JsVal>, b: seq<Byte>) {
    |x| == (|b| + 3) / 4 && Holds(x, b)
  }

  /** The array with the marker bit and the bit length stored, as `BinlMD5` leaves it. */
  function PaddedArray(x: seq<JsVal>, len: nat): seq<JsVal> {
    var m := ShiftRight(len, 5);
    var y := Stored(x, m, Num(BitOp(Or, Operand(x, m), ShiftLeft(0x80, len % 32))));
    Stored(y, ShiftLeft(ShiftRightU(len + 64, 9), 4) + 14, Num(len))
  }

  lemma SmallShifts(x: nat)
    ensures Shl(x, 4) == 16 * x && Shl(x, 5) == 32 * x && Shl(x, 9) == 512 * x
  {
    Shl8(x);
    assert Shl(x, 9) == 2 * Shl(x, 8);
    assert Shl(x, 4) == 2 * Shl(x, 3) == 4 * Shl(x, 2) == 8 * Shl(x, 1) == 16 * x;
    assert Shl(x, 5) == 2 * Shl(x, 4);
  }

  lemma ShiftIndices(n: nat)
    requires 8 * n < 0x8000_0000
    ensures ShiftRight(8 * n, 5) == n / 4
    ensures ShiftLeft(ShiftRightU(8 * n + 64, 9), 4) == 16 * ((n + 8) / 64)
  {
    hide Shr, Shl, ShiftRight, ShiftLeft;
    var k := (n + 8) / 64;
    ShiftToWord(n);
    SmallShifts(1);
    SmallShifts(k);
    ShrOfParts(k, 8 * ((n + 8) % 64), 9);
    SmallShiftLeft(k);
  }

  lemma SmallShiftLeft(k: nat)
    requires 16 * k < 0x8000_0000
    ensures ShiftLeft(k, 4) == 16 * k
  {
    hide Shl;
    SmallShifts(k);
    SmallNumber(k);
  }

  lemma ShiftToWord(n: nat)
    requires 8 * n < 0x8000_0000
    ensures ShiftRight(8 * n, 5) == n / 4
  {
    hide Shr, Shl, ToInt32;
    SmallNumber(8 * n);
    SmallShifts(1);
    SmallShifts(n / 4);
    ShrOfParts(n / 4, 8 * (n % 4), 5);
  }

  lemma ShlNone(x: nat)
    ensures Shl(x, 0) == x
  {
  }

  /** Or-ing a byte into its place appends it to the packed bytes. */
  lemma AppendByte(b: seq<Byte>, v: Byte, w: int)
    requires ToUint32(w) == WordAt(b, |b| / 4)
    ensures ToUint32(BitOp(Or, w, ShiftLeft(v, 8 * |b| % 32))) == WordAt(b + [v], |b| / 4)
  {
    hide Comb, Shl, BitOp, ShiftLeft, ToUint32, WordAt;
    var k := 8 * (|b| % 4);
    var lo := WordAt(b, |b| / 4);
    AppendByteSum(b, v, k);
    ShiftLeftWord(v, k);
    SmallNumber(v);
    BitOpWord(Or, w, ShiftLeft(v, k));
    OrDisjoint(lo, v, k, 32 - k);
  }

  lemma AppendByteSum(b: seq<Byte>, v: Byte, k: nat)
    requires k == 8 * (|b| % 4)
    ensures WordAt(b, |b| / 4) < Shl(1, k) && v < Shl(1, 32 - k) && Shl(v, k) < WORD
    ensures WordAt(b + [v], |b| / 4) == Shl(v, k) + WordAt(b, |b| / 4)
  {
    hide Shl;
    ShlValues(v);
    ShlValues(1);
    ShlNone(v);
    ShlNone(1);
  }

  /** The stored marker and length turn the packed message into the words of its padding; one trailing zero word stays unwritten. */
  lemma PaddedLayout(x: seq<JsVal>, b: seq<Byte>)
    requires Packs(x, b) && 8 * |b| < 0x8000_0000
    ensures var y := PaddedArray(x, 8 * |b|);
      && |y| + 1 == |Padded(b)| / 4
      && forall j :: 0 <= j <= |y| ==> ToUint32(Operand(y, j)) == WordAt(Padded(b), j)
  {
    hide BitOp, ShiftLeft, ShiftRight, ShiftRightU, WordAt, Padded;
    var n, p := |b|, Padded(b);
    var m, last := n / 4, 16 * ((n + 8) / 64) + 14;
    ShiftIndices(n);
    PaddedSize(b);
    var w := Operand(x, m);
    assert ToUint32(w) == WordAt(b, m) by {
      if m >= |x| {
        EmptyWord(b, m);
      }
    }
    AppendByte(b, 0x80, w);
    var y1 := Stored(x, m, Num(BitOp(Or, w, ShiftLeft(0x80, 8 * n % 32))));
    assert |y1| <= last;
    var y := PaddedArray(x, 8 * n);
    assert y == Stored(y1, last, Num(8 * n));
    forall j | 0 <= j <= |y| ensures ToUint32(Operand(y, j)) == WordAt(p, j) {
      PaddedWord(b, j);
      if j < m {
        assert Operand(y, j) == Operand(x, j);
      }
    }
  }

  lemma EmptyWord(b: seq<Byte>, j: nat)
    requires 4 * j >= |b|
    ensures WordAt(b, j) == 0
  {
  }

  lemma Mod64(q: int, r: nat)
    requires r < 64
    ensures (64 * q + r) % 64 == r
  {
  }

  lemma PaddingLength(n: nat)
    ensures n + 1 + (55 - n) % 64 == 64 * ((n + 8) / 64) + 56
  {
    var k, r := (n + 8) / 64, (n + 8) % 64;
    Mod64(-k, 63 - r);
    assert 55 - n == 64 * -k + (63 - r);
  }

  lemma PaddedSize(b: seq<Byte>)
    ensures |Padded(b)| == 64 * ((|b| + 8) / 64) + 64
    ensures |b| + 1 + (55 - |b|) % 64 == 64 * ((|b| + 8) / 64) + 56
  {
    hide LengthBytes;
    PaddingLength(|b|);
  }

  lemma PaddedByte(b: seq<Byte>, i: nat)
    requires 8 * |b| < 0x8000_0000 && i < |Padded(b)|
    ensures var e := 64 * ((|b| + 8) / 64) + 56;
      Padded(b)[i] == if i <= |b| then (b + [0x80])[i]
                      else if e <= i < e + 4 then WordBytes(8 * |b|)[i - e]
                      else 0
  {
    hide ByteAt;
    PaddedSize(b);
    ZeroBytes();
    var n := 8 * |b|;
    assert n % WORD == n && n / WORD % WORD == 0;
  }

  /** The words of the padding: the message, the marker, zeros and the length. */
  lemma PaddedWord(b: seq<Byte>, j: nat)
    requires 8 * |b| < 0x8000_0000 && 4 * j < |Padded(b)|
    ensures WordAt(Padded(b), j) == if j < |b| / 4 then WordAt(b, j)
                                    else if j == |b| / 4 then WordAt(b + [0x80], j)
                                    else if j == 16 * ((|b| + 8) / 64) + 14 then 8 * |b|
                                    else 0
  {
    hide ByteAt, Padded, FromBytes;
    PaddedSize(b);
    PaddedByte(b, 4 * j);
    PaddedByte(b, 4 * j + 1);
    PaddedByte(b, 4 * j + 2);
    PaddedByte(b, 4 * j + 3);
    BytesOfWord(8 * |b|);
    BytesOfWord(0);
    ZeroBytes();
  }

  // ----- messages of 2^31 bits and more -----

  /** The marker's index is never so high: the shift reads the length as a signed number. */
  lemma MarkerBelow(len: nat)
    ensures ShiftRight(len, 5) < 0x400_0000
  {
    hide Shl, Shr;
    var s := ToInt32(len);
    if s >= 0 {
      ShrSplit(s, 5);
      SmallShifts(Shr(s, 5));
    }
  }

  lemma LengthIndex(len: nat)
    ensures ShiftLeft(ShiftRightU(len + 64, 9), 4) == 16 * (ToUint32(len + 64) / 0x200)
  {
    hide Shl, Shr, ShiftLeft, ToUint32;
    var u := ToUint32(len + 64);
    ShrSplit(u, 9);
    SmallShifts(Shr(u, 9));
    SmallShifts(1);
    SmallShiftLeft(Shr(u, 9));
  }

  /** Nor does the length go where the marker belongs. */
  lemma LengthElsewhere(n: nat)
    requires 8 * n >= 0x8000_0000
    ensures 16 * (ToUint32(8 * n + 64) / 0x200) + 14 != n / 4
  {
    var u, v := ToUint32(8 * n + 64), 8 * n + 64;
    if v < WORD {
      assert u == v && v / 0x200 == (n + 8) / 64;
    } else if v < WORD + 0x20 {
      WrapsOnce(v);
    }
  }

  lemma WrapsOnce(v: nat)
    requires WORD <= v < 2 * WORD
    ensures ToUint32(v) == v - WORD
  {
  }

  /** Words that differ in a byte differ. */
  lemma WordsDiffer(p: seq<Byte>, q: seq<Byte>, n: nat)
    requires ByteOrZero(p, n) != ByteOrZero(q, n)
    ensures WordAt(p, n / 4) != WordAt(q, n / 4)
  {
    hide ByteAt, FromBytes, ByteOrZero;
    var j := n / 4;
    WordOfBytes(ByteOrZero(p, 4 * j), ByteOrZero(p, 4 * j + 1), ByteOrZero(p, 4 * j + 2), ByteOrZero(p, 4 * j + 3));
    WordOfBytes(ByteOrZero(q, 4 * j), ByteOrZero(q, 4 * j + 1), ByteOrZero(q, 4 * j + 2), ByteOrZero(q, 4 * j + 3));
    assert n == 4 * j || n == 4 * j + 1 || n == 4 * j + 2 || n == 4 * j + 3;
  }

  lemma StoredElsewhere(x: seq<JsVal>, i: int, v: JsVal, j: nat)
    requires i != j
    ensures Operand(Stored(x, i, v), j) == Operand(x, j)
  {
  }

  /** The array where the marker belongs, before the stores. */
  lemma MarkerWord(x: seq<JsVal>, b: seq<Byte>)
    requires Packs(x, b)
    ensures ToUint32(Operand(x, |b| / 4)) == WordAt(b, |b| / 4)
  {
    hide ToUint32, WordAt;
    assert ToUint32(0) == 0 by { SmallNumber(0); }
    if |b| / 4 >= |x| {
      EmptyWord(b, |b| / 4);
    }
  }

  lemma MarkerMissing(b: seq<Byte>)
    ensures WordAt(Padded(b), |b| / 4) != WordAt(b, |b| / 4)
    ensures WordAt(Padded(b), |b| / 4) != 0
  {
    assert ByteOrZero(b, |b|) == ByteOrZero([], |b|) == 0 && ByteOrZero(Padded(b), |b|) == 0x80;
    EmptyWord([], |b| / 4);
    hide WordAt, Padded, ByteOrZero;
    WordsDiffer(b, Padded(b), |b|);
    WordsDiffer([], Padded(b), |b|);
  }

  lemma StoresElsewhere(x: seq<JsVal>, n: nat)
    requires 8 * n >= 0x8000_0000
    ensures Operand(PaddedArray(x, 8 * n), n / 4) == Operand(x, n / 4)
  {
    hide BitOp, ShiftLeft, ShiftRight, ShiftRightU, ToUint32, Operand, Stored;
    MarkerBelow(8 * n);
    LengthIndex(8 * n);
    LengthElsewhere(n);
    var m := ShiftRight(8 * n, 5);
    var w := Num(BitOp(Or, Operand(x, m), ShiftLeft(0x80, 8 * n % 32)));
    StoredElsewhere(x, m, w, n / 4);
    StoredElsewhere(Stored(x, m, w), ShiftLeft(ShiftRightU(8 * n + 64, 9), 4) + 14, Num(8 * n), n / 4);
  }

  /** An array that packs bytes from index 0x400_0000 on only as zeros: no shifted bit index reaches those. */
  ghost predicate LowOnly(x: seq<JsVal>) {
    forall j: nat :: j >= 0x400_0000 ==> Operand(x, j) == 0
  }

  /**
   * What the packing of `b` leaves: the packed bytes, or, for too many of them, at least no marker where it would belong,
   * because that element is zero or has the last bytes.
   */
  ghost predicate Received(x: seq<JsVal>, b: seq<Byte>) {
    if 8 * |b| < 0x8000_0000 then Packs(x, b)
    else var w := ToUint32(Operand(x, |b| / 4)); w == 0 || w == WordAt(b, |b| / 4)
  }

  lemma PacksReceived(x: seq<JsVal>, b: seq<Byte>)
    requires Packs(x, b)
    ensures Received(x, b)
  {
    hide Packs, WordAt, ToUint32;
    MarkerWord(x, b);
  }

  lemma LowReceived(x: seq<JsVal>, b: seq<Byte>)
    requires LowOnly(x) && 8 * |b| >= 0x8000_0000
    ensures Received(x, b)
  {
    SmallNumber(0);
  }

  /** From 2^31 bits on the marker is missing from the word it belongs in. */
  lemma MarkerLost(x: seq<JsVal>, b: seq<Byte>)
    requires Received(x, b) && 8 * |b| >= 0x8000_0000
    ensures ToUint32(Operand(PaddedArray(x, 8 * |b|), |b| / 4)) != WordAt(Padded(b), |b| / 4)
  {
    hide Packs, PaddedArray, ToUint32, Operand, WordAt, Padded;
    MarkerMissing(b);
    StoresElsewhere(x, |b|);
  }

  /** The words of the array are those of the padding of RFC 1321; what lies past its end reads as zero. */
  ghost predicate IsPadding(x: seq<JsVal>, b: seq<Byte>) {
    forall j :: 0 <= j < |Padded(b)| / 4 ==> ToUint32(Operand(x, j)) == WordAt(Padded(b), j)
  }

  /** The two stores make the padding exactly for the messages of fewer than 2^31 bits. */
  lemma PaddingIff(x: seq<JsVal>, b: seq<Byte>)
    requires Received(x, b)
    ensures IsPadding(PaddedArray(x, 8 * |b|), b) <==> 8 * |b| < 0x8000_0000
  {
    hide PaddedArray, ToUint32, Operand, WordAt, Packs;
    if 8 * |b| < 0x8000_0000 {
      PaddedLayout(x, b);
    } else {
      MarkerLost(x, b);
      MarkerInside(b);
    }
  }

  lemma MarkerInside(b: seq<Byte>)
    ensures |b| / 4 < |Padded(b)| / 4
  {
  }

  method AppendPadding(x: JsArray, len: nat, ghost msg: seq<Byte>)
    requires Received(x.elems, msg) && len == 8 * |msg|
    modifies x
    ensures IsPadding(x.elems, msg) <==> 8 * |msg| < 0x8000_0000
    ensures 8 * |msg| < 0x8000_0000 ==> |x.elems| + 1 == |Padded(msg)| / 4
    ensures x.elems == PaddedArray(old(x.elems), len)
  {
    hide Stored, BitOp, ShiftLeft, ShiftRight, ShiftRightU, ToUint32, WordAt, Padded, Operand, Packs, IsPadding;
    PaddingIff(x.elems, msg);
    if 8 * |msg| < 0x8000_0000 {
      PaddedLayout(x.elems, msg);
    }
    var m := ShiftRight(len, 5);
    x.Put(m, Num(BitOp(Or, Operand(x.elems, m), ShiftLeft(0x80, len % 32))));
    x.Put(ShiftLeft(ShiftRightU(len + 64, 9), 4) + 14, Num(len));
  }

  method BinlMD5(x: JsArray, len: nat, ghost msg: seq<Byte>) returns (hash: JsArray)
    requires len == 8 * |msg| < 0x8000_0000
    requires Packs(x.elems, msg)
    modifies x
    ensures fresh(hash) && Packs(hash.elems, Digest(msg)) && |hash.elems| == 4
    ensures x.elems == PaddedArray(old(x.elems), len)
  {
    hide Padded, WordAt, PaddedArray, Block, Digest, ToUint32, Operand;
    AppendPadding(x, len, msg);
    ghost var p := Padded(msg);
    PaddedSize(msg);
    InitialRegisters();
    var a, b, c, d := 1732584193, -271733879, -1732584194, 271733878;
    var i := 0;
    ghost var y, k, blocks := x.elems, 0, |p| / 64;
    assert |y| == 16 * blocks - 1;
    while i < |x.elems|
      invariant x.elems == y && i == 16 * k && k <= blocks
      invariant Regs(a, b, c, d) == Blocks(p, k)
    {
      a, b, c, d := OneBlock(x.elems, i, a, b, c, d, p);
      i, k := i + 16, k + 1;
    }
    hash := new JsArray([Num(a), Num(b), Num(c), Num(d)]);
    PacksOutput(hash.elems, a, b, c, d);
    DigestIs(msg);
  }

  lemma InitialRegisters()
    ensures Regs(1732584193, -271733879, -1732584194, 271733878) == INIT
  {
  }

  method OneBlock(x: seq<JsVal>, i: nat, olda: int, oldb: int, oldc: int, oldd: int, ghost p: seq<Byte>)
      returns (a: int, b: int, c: int, d: int)
    requires forall j :: i <= j < i + 16 ==> ToUint32(Operand(x, j)) == WordAt(p, j)
    ensures Regs(a, b, c, d) == Block(Regs(olda, oldb, oldc, oldd), p, i)
  {
    hide WordAt, SafeAdd, ToUint32, Add32;
    ghost var run := Run(Regs(olda, oldb, oldc, oldd), p, i);
    a, b, c, d := RoundOne(run, x, i, olda, oldb, oldc, oldd);
    a, b, c, d := RoundTwo(run, x, i, a, b, c, d);
    a, b, c, d := RoundThree(run, x, i, a, b, c, d);
    a, b, c, d := RoundFour(run, x, i, a, b, c, d);
    SumWord(a, olda);
    SumWord(b, oldb);
    SumWord(c, oldc);
    SumWord(d, oldd);
    a, b, c, d := SafeAdd(a, olda), SafeAdd(b, oldb), SafeAdd(c, oldc), SafeAdd(d, oldd);
  }

  lemma DigestIs(msg: seq<Byte>)
    ensures Digest(msg) == Output(Blocks(Padded(msg), |Padded(msg)| / 64))
  {
  }

  lemma PacksOutput(x: seq<JsVal>, a: int, b: int, c: int, d: int)
    requires x == [Num(a), Num(b), Num(c), Num(d)]
    ensures Packs(x, Output(Regs(a, b, c, d)))
  {
    hide ByteAt, ToUint32;
    BytesOfWord(ToUint32(a));
    BytesOfWord(ToUint32(b));
    BytesOfWord(ToUint32(c));
    BytesOfWord(ToUint32(d));
  }

  // ----- strings of code units -----

  type CodeUnit = n: int | 0 <= n < 0x1_0000

  /** The low bytes of the code units; a raw string has no others. */
  function LowBytes(s: seq<CodeUnit>): (b: seq<Byte>)
    ensures |b| == |s|
  {
    seq(|s|, i requires 0 <= i < |s| => s[i] % 256)
  }

  /** How many words are in use when `k` of the `n` bytes are packed. */
  function WordsUsed(n: nat, k: nat): nat { if n / 4 < (k + 3) / 4 then (k + 3) / 4 else n / 4 }

  lemma OneMoreByte(n: nat, k: nat)
    ensures WordsUsed(n, 0) == n / 4 && WordsUsed(n, n) == (n + 3) / 4
    ensures (k + 3) / 4 <= WordsUsed(n, k)
    ensures WordsUsed(n, k + 1) == if k / 4 < WordsUsed(n, k) then WordsUsed(n, k) else k / 4 + 1
  {
  }

  /** The loop body: one byte into its place in its word, as long as the bits are few enough to be counted. */
  method PackByte(output: JsArray, unit: CodeUnit, i: nat, ghost b: seq<Byte>)
    requires i == 8 * |b| && LowOnly(output.elems)
    requires i < 0x8000_0000 ==> Holds(output.elems, b) && (|b| + 3) / 4 <= |output.elems|
    modifies output
    ensures LowOnly(output.elems)
    ensures i < 0x8000_0000 ==>
      && Holds(output.elems, b + [unit % 256])
      && |output.elems| == if |b| / 4 < |old(output.elems)| then |old(output.elems)| else |b| / 4 + 1
  {
    hide WordAt, BitOp, ShiftLeft, ShiftRight, ToUint32, Holds;
    if i < 0x8000_0000 {
      ShiftsOfIndex(i, |b|);
      Low8(unit);
      SmallNumber(unit);
      HoldsAppend(output.elems, b, unit % 256);
    }
    var q := ShiftRight(i, 5);
    MarkerBelow(i);
    var v := Num(BitOp(Or, Operand(output.elems, q), ShiftLeft(BitOp(And, unit, 0xff), i % 32)));
    LowStore(output.elems, q, v);
    output.Put(q, v);
  }

  lemma LowStore(x: seq<JsVal>, i: int, v: JsVal)
    requires LowOnly(x) && i < 0x400_0000
    ensures LowOnly(Stored(x, i, v))
  {
    hide Operand, Stored;
    forall j: nat | j >= 0x400_0000 ensures Operand(Stored(x, i, v), j) == 0 {
      StoredElsewhere(x, i, v, j);
    }
  }

  /** The array with a zero for each whole word. */
  method ZeroWords(n: nat) returns (output: JsArray)
    ensures fresh(output) && LowOnly(output.elems) && Holds(output.elems, [])
    ensures n < 0x8000_0000 ==> |output.elems| == n / 4
  {
    hide ShiftRight, ToUint32, WordAt;
    output := new JsArray([]);
    if n < 0x8000_0000 {
      ShiftsOfLength(n);
    }
    output.Put(ShiftRight(n, 2) - 1, Undefined);
    ghost var length := |output.elems|;
    var i := 0;
    while i < |output.elems|
      invariant i <= |output.elems| == length
      invariant forall j :: 0 <= j < i ==> output.elems[j] == Num(0)
    {
      output.Put(i, Num(0));
      i := i + 1;
    }
    EmptyWords();
  }

  method Rstr2binl(input: seq<CodeUnit>) returns (output: JsArray)
    ensures fresh(output) && LowOnly(output.elems) && Received(output.elems, LowBytes(input))
    ensures 8 * |input| < 0x8000_0000 ==> Packs(output.elems, LowBytes(input))
  {
    hide Holds, WordsUsed, LowOnly, WordAt, ToUint32;
    ghost var b := LowBytes(input);
    output := ZeroWords(|input|);
    OneMoreByte(|input|, 0);
    var i := 0;
    ghost var k := 0;
    while i < 8 * |input|
      invariant i == 8 * k && k <= |input| && LowOnly(output.elems)
      invariant 8 * |input| < 0x8000_0000 ==> |output.elems| == WordsUsed(|input|, k)
      invariant i <= 0x8000_0000 ==> Holds(output.elems, b[..k]) && (k + 3) / 4 <= |output.elems|
    {
      OneMoreByte(|input|, k);
      assert b[..k + 1] == b[..k] + [b[k]];
      PackByte(output, input[i / 8], i, b[..k]);
      i, k := i + 8, k + 1;
    }
    assert b[..k] == b;
    if 8 * |input| >= 0x8000_0000 {
      LowReceived(output.elems, b);
    }
  }

  /** The padded array of a string: right exactly when the string has fewer than 2^31 bits. */
  method PadString(s: seq<CodeUnit>) returns (x: JsArray)
    ensures fresh(x) && (IsPadding(x.elems, LowBytes(s)) <==> 8 * |s| < 0x8000_0000)
  {
    hide *;
    x := Rstr2binl(s);
    AppendPadding(x, |s| * 8, LowBytes(s));
  }

  lemma HoldsAppend(x: seq<JsVal>, b: seq<Byte>, v: Byte)
    requires Holds(x, b) && (|b| + 3) / 4 <= |x|
    ensures var q := |b| / 4;
      Holds(Stored(x, q, Num(BitOp(Or, Operand(x, q), ShiftLeft(v, 8 * |b| % 32)))), b + [v])
  {
    hide WordAt, BitOp, ShiftLeft, ToUint32;
    var q := |b| / 4;
    ZeroWord(b, q);
    AppendByte(b, v, Operand(x, q));
    var y := Stored(x, q, Num(BitOp(Or, Operand(x, q), ShiftLeft(v, 8 * |b| % 32))));
    forall j | 0 <= j < |y| ensures ToUint32(Operand(y, j)) == WordAt(b + [v], j) {
      if j != q {
        OtherWord(b, v, j);
        assert Operand(y, j) == Operand(x, j);
      }
    }
  }

  lemma ShlTwo(x: nat)
    ensures Shl(x, 2) == 4 * x
  {
    assert Shl(x, 2) == 2 * Shl(x, 1) && Shl(x, 1) == 2 * Shl(x, 0);
  }

  lemma ShiftsOfLength(n: nat)
    requires n < 0x8000_0000
    ensures ShiftRight(n, 2) == n / 4
  {
    SmallNumber(n);
    ShlTwo(n / 4);
    ShlTwo(1);
    ShrOfParts(n / 4, n % 4, 2);
  }

  lemma ShiftsOfIndex(i: nat, k: nat)
    requires i == 8 * k < 0x8000_0000
    ensures ShiftRight(i, 5) == k / 4 && i % 32 == 8 * (k % 4)
  {
    hide ShiftRight;
    ShiftToWord(k);
  }

  lemma EmptyWords()
    ensures ToUint32(0) == 0 && forall j: nat :: WordAt([], j) == 0
  {
  }

  lemma ZeroWord(b: seq<Byte>, j: nat)
    ensures 4 * j >= |b| ==> WordAt(b, j) == ToUint32(0)
  {
  }

  lemma OtherWord(b: seq<Byte>, v: Byte, j: nat)
    requires j != |b| / 4
    ensures WordAt(b + [v], j) == WordAt(b, j)
  {
  }

  /** All bytes of the words, the low-order byte of each word first. */
  function Unpacked(x: seq<JsVal>): (b: seq<Byte>)
    ensures |b| == 4 * |x|
  {
    seq(4 * |x|, i requires 0 <= i < 4 * |x| => ByteAt(ToUint32(Operand(x, i / 4)), i % 4))
  }

  method Binl2rstr(input: JsArray) returns (output: seq<CodeUnit>)
    requires 32 * |input.elems| < 0x8000_0000
    ensures output == Unpacked(input.elems)
  {
    hide BitOp, ShiftRight, ToUint32, Operand;
    output := [];
    var length32 := |input.elems| * 32;
    var i := 0;
    ghost var k := 0;
    while i < length32
      invariant i == 8 * k && k <= 4 * |input.elems|
      invariant output == Unpacked(input.elems)[..k]
    {
      ShiftsOfIndex(i, k);
      ByteOfWord(Operand(input.elems, k / 4), k % 4);
      output := output + [BitOp(And, ShiftRightU(Operand(input.elems, ShiftRight(i, 5)), i % 32), 0xff)];
      i, k := i + 8, k + 1;
    }
  }

  lemma ByteOfWord(w: int, r: nat)
    requires r < 4
    ensures BitOp(And, ShiftRightU(w, 8 * r), 0xff) == ByteAt(ToUint32(w), r)
  {
    hide BitOp, ByteAt;
    ShiftRightWord(w, 8 * r);
    Low8(ShiftRightU(w, 8 * r));
    ByteByShift(ToUint32(w), r);
  }

  /** Unpacking restores the packed bytes, followed only by zeros up to a multiple of four. */
  lemma UnpackedPacked(x: seq<JsVal>, b: seq<Byte>)
    requires Packs(x, b)
    ensures Unpacked(x) == b + Zeros((4 - |b| % 4) % 4)
    ensures |b| % 4 == 0 ==> Unpacked(x) == b
  {
    hide Unpacked;
    var u := Unpacked(x);
    forall i | 0 <= i < |u| ensures u[i] == ByteOrZero(b, i) {
      UnpackedByte(x, b, i);
    }
  }

  lemma UnpackedByte(x: seq<JsVal>, b: seq<Byte>, i: nat)
    requires Packs(x, b) && i < 4 * |x|
    ensures Unpacked(x)[i] == ByteOrZero(b, i)
  {
    hide ByteAt, ToUint32, Operand, ByteOrZero, FromBytes;
    var j := i / 4;
    WordOfBytes(ByteOrZero(b, 4 * j), ByteOrZero(b, 4 * j + 1), ByteOrZero(b, 4 * j + 2), ByteOrZero(b, 4 * j + 3));
  }

  method RstrMD5(s: seq<CodeUnit>) returns (r: seq<CodeUnit>)
    requires 8 * |s| < 0x8000_0000
    ensures r == Digest(LowBytes(s))
  {
    hide *;
    var x := Rstr2binl(s);
    var hash := BinlMD5(x, |s| * 8, LowBytes(s));
    UnpackedPacked(hash.elems, Digest(LowBytes(s)));
    r := Binl2rstr(hash);
  }

  method RstrHMACMD5(key: seq<CodeUnit>, data: seq<CodeUnit>) returns (r: seq<CodeUnit>)
    requires 8 * |key| < 0x8000_0000 && 512 + 8 * |data| < 0x8000_0000
    ensures r == Hmac(LowBytes(key), LowBytes(data))
  {
    hide Digest, Unpacked, WordAt, XorWith, BitOp, ToUint32;
    ghost var kb, db := LowBytes(key), LowBytes(data);
    var bkey := Rstr2binl(key);
    var ipad := new JsArray([]);
    var opad := new JsArray([]);
    ipad.Put(15, Undefined);
    opad.Put(15, Undefined);
    ghost var k := if |kb| > 64 then Digest(kb) else kb;
    if |bkey.elems| > 16 {
      bkey := BinlMD5(bkey, |key| * 8, kb);
    }
    assert Packs(bkey.elems, k);
    var i := 0;
    while i < 16
      invariant i <= 16 && |ipad.elems| == |opad.elems| == 16
      invariant Packs(bkey.elems, k) && ipad != opad && bkey != ipad && bkey != opad
      invariant forall j :: 0 <= j < i ==> ipad.elems[j] == Num(BitOp(Xor, Operand(bkey.elems, j), 0x36363636))
      invariant forall j :: 0 <= j < i ==> opad.elems[j] == Num(BitOp(Xor, Operand(bkey.elems, j), 0x5c5c5c5c))
    {
      ipad.Put(i, Num(BitOp(Xor, Operand(bkey.elems, i), 0x36363636)));
      opad.Put(i, Num(BitOp(Xor, Operand(bkey.elems, i), 0x5c5c5c5c)));
      i := i + 1;
    }
    ghost var ik, ok := XorWith(BlockKey(kb), 0x36), XorWith(BlockKey(kb), 0x5c);
    PacksPad(bkey.elems, k, ipad.elems, 0x36, 0x36363636);
    PacksPad(bkey.elems, k, opad.elems, 0x5c, 0x5c5c5c5c);
    var d := Rstr2binl(data);
    PacksConcat(ipad.elems, ik, d.elems, db);
    var inner := new JsArray(ipad.elems + d.elems);
    var hash := BinlMD5(inner, 512 + |data| * 8, ik + db);
    PacksConcat(opad.elems, ok, hash.elems, Digest(ik + db));
    var outer := new JsArray(opad.elems + hash.elems);
    var mac := BinlMD5(outer, 512 + 128, ok + Digest(ik + db));
    UnpackedPacked(mac.elems, Digest(ok + Digest(ik + db)));
    r := Binl2rstr(mac);
  }

  /** Concatenating arrays concatenates the packed bytes when the first fills its words. */
  lemma PacksConcat(x: seq<JsVal>, a: seq<Byte>, y: seq<JsVal>, b: seq<Byte>)
    requires Packs(x, a) && Packs(y, b) && |a| % 4 == 0
    ensures Packs(x + y, a + b)
  {
    hide WordAt, ToUint32;
    forall j | 0 <= j < |x + y| ensures ToUint32(Operand(x + y, j)) == WordAt(a + b, j) {
      ConcatWord(a, b, j);
    }
  }

  /** The same for data of any length: what HMAC hashes first is padded right exactly below 2^31 bits, key block included. */
  lemma ReceivedConcat(x: seq<JsVal>, a: seq<Byte>, y: seq<JsVal>, b: seq<Byte>)
    requires Packs(x, a) && Received(y, b) && |a| % 4 == 0
    ensures Received(x + y, a + b)
    ensures IsPadding(PaddedArray(x + y, 8 * |a + b|), a + b) <==> 8 * |a + b| < 0x8000_0000
  {
    hide WordAt, ToUint32, PaddedArray, IsPadding;
    if 8 * |b| < 0x8000_0000 {
      PacksConcat(x, a, y, b);
      PacksReceived(x + y, a + b);
    } else {
      ConcatWord(a, b, |a + b| / 4);
      assert Operand(x + y, |a + b| / 4) == Operand(y, |b| / 4);
    }
    PaddingIff(x + y, a + b);
  }

  lemma ConcatWord(a: seq<Byte>, b: seq<Byte>, j: nat)
    requires |a| % 4 == 0
    ensures WordAt(a + b, j) == if j < |a| / 4 then WordAt(a, j) else WordAt(b, j - |a| / 4)
  {
    hide FromBytes;
  }

  /** Exclusive or with the repeated pad byte, word by word, is the byte-wise one on the zero-extended key. */
  lemma PacksPad(x: seq<JsVal>, k: seq<Byte>, y: seq<JsVal>, pad: Byte, mask: int)
    requires Packs(x, k) && |k| <= 64 && |y| == 16 && mask == FromBytes(pad, pad, pad, pad)
    requires forall j :: 0 <= j < 16 ==> y[j] == Num(BitOp(Xor, Operand(x, j), mask))
    ensures Packs(y, XorWith(k + Zeros(64 - |k|), pad))
  {
    hide BitOp, ToUint32, XorByte, Comb, WordAt;
    var z := k + Zeros(64 - |k|);
    assert ToUint32(mask) == mask by { SmallWord(mask); }
    forall j | 0 <= j < 16 ensures ToUint32(Operand(y, j)) == WordAt(XorWith(z, pad), j) {
      BitOpWord(Xor, Operand(x, j), mask);
      assert ToUint32(Operand(x, j)) == WordAt(z, j) by { ExtendedWord(x, k, j); }
      WordXor(z, pad, j);
    }
  }

  lemma SmallWord(n: Word)
    ensures ToUint32(n) == n
  {
  }

  lemma ExtendedWord(x: seq<JsVal>, k: seq<Byte>, j: nat)
    requires Packs(x, k) && |k| <= 64 && j < 16
    ensures ToUint32(Operand(x, j)) == WordAt(k + Zeros(64 - |k|), j)
  {
    var z := k + Zeros(64 - |k|);
    assert forall i :: 0 <= i < 64 ==> ByteOrZero(z, i) == ByteOrZero(k, i);
    assert WordAt(z, j) == WordAt(k, j);
    ZeroWord(k, j);
  }

  lemma WordXor(z: seq<Byte>, pad: Byte, j: nat)
    requires 4 * j + 4 <= |z|
    ensures WordAt(XorWith(z, pad), j) == Word32(Xor, WordAt(z, j), FromBytes(pad, pad, pad, pad))
  {
    hide XorByte, Word32, FromBytes;
    XorBytes(z[4 * j], z[4 * j + 1], z[4 * j + 2], z[4 * j + 3], pad, pad, pad, pad);
  }
}