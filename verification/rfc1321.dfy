/** The MD5 message digest as sections 2 and 3 of RFC 1321 and HMAC as section 2 of RFC 2104 define them, on bytes. */
module Rfc1321 {
  import opened Bits

  datatype Quad = Quad(a: Word, b: Word, c: Word, d: Word)

  // section 3.3
  const INIT := Quad(0x67452301, 0xefcdab89, 0x98badcfe, 0x10325476)

  // ----- sections 3.1 and 3.2: padding and length -----

  function Zeros(n: nat): (z: seq<Byte>)
    ensures |z| == n && forall i :: 0 <= i < n ==> z[i] == 0
  {
    seq(n, _ => 0)
  }

  function WordBytes(w: Word): (b: seq<Byte>)
    ensures |b| == 4
  {
    [ByteAt(w, 0), ByteAt(w, 1), ByteAt(w, 2), ByteAt(w, 3)]
  }

  /** The bit length, low-order word first, modulo two to the 64. */
  function LengthBytes(bits: nat): (b: seq<Byte>)
    ensures |b| == 8
  {
    WordBytes(bits % WORD) + WordBytes(bits / WORD % WORD)
  }

  function Padded(msg: seq<Byte>): (p: seq<Byte>) {
    msg + [0x80] + Zeros((55 - |msg|) % 64) + LengthBytes(8 * |msg|)
  }

  /** The `j`-th little-endian word of a byte string that is read as if zeros followed it. */
  function WordAt(p: seq<Byte>, j: nat): Word {
    FromBytes(ByteOrZero(p, 4 * j), ByteOrZero(p, 4 * j + 1), ByteOrZero(p, 4 * j + 2), ByteOrZero(p, 4 * j + 3))
  }

  function ByteOrZero(p: seq<Byte>, i: nat): Byte {
    if i < |p| then p[i] else 0
  }

  // ----- section 3.4: the four rounds -----

  function F(x: Word, y: Word, z: Word): Word { Word32(Or, Word32(And, x, y), Word32(And, Not32(x), z)) }
  function G(x: Word, y: Word, z: Word): Word { Word32(Or, Word32(And, x, z), Word32(And, y, Not32(z))) }
  function H(x: Word, y: Word, z: Word): Word { Word32(Xor, Word32(Xor, x, y), z) }
  function I(x: Word, y: Word, z: Word): Word { Word32(Xor, y, Word32(Or, x, Not32(z))) }

  function Mix(i: nat, x: Word, y: Word, z: Word): Word {
    if i < 16 then F(x, y, z) else if i < 32 then G(x, y, z) else if i < 48 then H(x, y, z) else I(x, y, z)
  }

  /** Which of the sixteen words step `i` uses. */
  function WordIndex(i: nat): (k: nat)
    ensures k < 16
  {
    (if i < 16 then i else if i < 32 then 5 * i + 1 else if i < 48 then 3 * i + 5 else 7 * i) % 16
  }

  function Shift(i: nat): (s: nat)
    ensures 0 < s < 32
  {
    var j := i % 4;
    if i < 16 then (if j == 0 then 7 else if j == 1 then 12 else if j == 2 then 17 else 22)
    else if i < 32 then (if j == 0 then 5 else if j == 1 then 9 else if j == 2 then 14 else 20)
    else if i < 48 then (if j == 0 then 4 else if j == 1 then 11 else if j == 2 then 16 else 23)
    else (if j == 0 then 6 else if j == 1 then 10 else if j == 2 then 15 else 21)
  }

  // The integer part of 4294967296 times abs(sin(i + 1)), round by round.
  const T1: seq<Word> := [
    0xd76aa478, 0xe8c7b756, 0x242070db, 0xc1bdceee,
    0xf57c0faf, 0x4787c62a, 0xa8304613, 0xfd469501,
    0x698098d8, 0x8b44f7af, 0xffff5bb1, 0x895cd7be,
    0x6b901122, 0xfd987193, 0xa679438e, 0x49b40821
  ]
  const T2: seq<Word> := [
    0xf61e2562, 0xc040b340, 0x265e5a51, 0xe9b6c7aa,
    0xd62f105d, 0x02441453, 0xd8a1e681, 0xe7d3fbc8,
    0x21e1cde6, 0xc33707d6, 0xf4d50d87, 0x455a14ed,
    0xa9e3e905, 0xfcefa3f8, 0x676f02d9, 0x8d2a4c8a
  ]
  const T3: seq<Word> := [
    0xfffa3942, 0x8771f681, 0x6d9d6122, 0xfde5380c,
    0xa4beea44, 0x4bdecfa9, 0xf6bb4b60, 0xbebfbc70,
    0x289b7ec6, 0xeaa127fa, 0xd4ef3085, 0x04881d05,
    0xd9d4d039, 0xe6db99e5, 0x1fa27cf8, 0xc4ac5665
  ]
  const T4: seq<Word> := [
    0xf4292244, 0x432aff97, 0xab9423a7, 0xfc93a039,
    0x655b59c3, 0x8f0ccc92, 0xffeff47d, 0x85845dd1,
    0x6fa87e4f, 0xfe2ce6e0, 0xa3014314, 0x4e0811a1,
    0xf7537e82, 0xbd3af235, 0x2ad7d2bb, 0xeb86d391
  ]

  function T(i: nat): Word
    requires i < 64
  {
    if i < 16 then T1[i] else if i < 32 then T2[i - 16] else if i < 48 then T3[i - 32] else T4[i - 48]
  }

  lemma TableOne()
    ensures T(0) == 0xd76aa478 && T(1) == 0xe8c7b756 && T(2) == 0x242070db && T(3) == 0xc1bdceee
    ensures T(4) == 0xf57c0faf && T(5) == 0x4787c62a && T(6) == 0xa8304613 && T(7) == 0xfd469501
    ensures T(8) == 0x698098d8 && T(9) == 0x8b44f7af && T(10) == 0xffff5bb1 && T(11) == 0x895cd7be
    ensures T(12) == 0x6b901122 && T(13) == 0xfd987193 && T(14) == 0xa679438e && T(15) == 0x49b40821
  {
  }

  lemma TableTwo()
    ensures T(16) == 0xf61e2562 && T(17) == 0xc040b340 && T(18) == 0x265e5a51 && T(19) == 0xe9b6c7aa
    ensures T(20) == 0xd62f105d && T(21) == 0x02441453 && T(22) == 0xd8a1e681 && T(23) == 0xe7d3fbc8
    ensures T(24) == 0x21e1cde6 && T(25) == 0xc33707d6 && T(26) == 0xf4d50d87 && T(27) == 0x455a14ed
    ensures T(28) == 0xa9e3e905 && T(29) == 0xfcefa3f8 && T(30) == 0x676f02d9 && T(31) == 0x8d2a4c8a
  {
  }

  lemma TableThree()
    ensures T(32) == 0xfffa3942 && T(33) == 0x8771f681 && T(34) == 0x6d9d6122 && T(35) == 0xfde5380c
    ensures T(36) == 0xa4beea44 && T(37) == 0x4bdecfa9 && T(38) == 0xf6bb4b60 && T(39) == 0xbebfbc70
    ensures T(40) == 0x289b7ec6 && T(41) == 0xeaa127fa && T(42) == 0xd4ef3085 && T(43) == 0x04881d05
    ensures T(44) == 0xd9d4d039 && T(45) == 0xe6db99e5 && T(46) == 0x1fa27cf8 && T(47) == 0xc4ac5665
  {
  }

  lemma TableFour()
    ensures T(48) == 0xf4292244 && T(49) == 0x432aff97 && T(50) == 0xab9423a7 && T(51) == 0xfc93a039
    ensures T(52) == 0x655b59c3 && T(53) == 0x8f0ccc92 && T(54) == 0xffeff47d && T(55) == 0x85845dd1
    ensures T(56) == 0x6fa87e4f && T(57) == 0xfe2ce6e0 && T(58) == 0xa3014314 && T(59) == 0x4e0811a1
    ensures T(60) == 0xf7537e82 && T(61) == 0xbd3af235 && T(62) == 0x2ad7d2bb && T(63) == 0xeb86d391
  {
  }

  /** One operation: a = b + ((a + Mix(b, c, d) + x + t) <<< s), after which the registers change roles. */
  function Step(q: Quad, i: nat, x: Word, t: Word): Quad {
    Quad(q.d, Add32(q.b, Rot((q.a + Mix(i, q.b, q.c, q.d) + x + t) % WORD, Shift(i))), q.b, q.c)
  }

  /** The first `n` of the 64 operations on the block of `p` that starts at word `w`. */
  function Steps(q: Quad, p: seq<Byte>, w: nat, n: nat): Quad
    requires n <= 64
  {
    if n == 0 then q else Step(Steps(q, p, w, n - 1), n - 1, WordAt(p, w + WordIndex(n - 1)), T(n - 1))
  }

  function AddQuad(q: Quad, r: Quad): Quad {
    Quad(Add32(q.a, r.a), Add32(q.b, r.b), Add32(q.c, r.c), Add32(q.d, r.d))
  }

  function Block(q: Quad, p: seq<Byte>, w: nat): Quad {
    AddQuad(Steps(q, p, w, 64), q)
  }

  /** The registers after the first `k` blocks. */
  function Blocks(p: seq<Byte>, k: nat): Quad {
    if k == 0 then INIT else Block(Blocks(p, k - 1), p, 16 * (k - 1))
  }

  // ----- section 3.5: output -----

  function Output(q: Quad): (b: seq<Byte>)
    ensures |b| == 16
  {
    WordBytes(q.a) + WordBytes(q.b) + WordBytes(q.c) + WordBytes(q.d)
  }

  function Digest(msg: seq<Byte>): (b: seq<Byte>)
    ensures |b| == 16
  {
    Output(Blocks(Padded(msg), |Padded(msg)| / 64))
  }

  // ----- RFC 2104 with the 64-byte blocks of MD5 -----

  function XorWith(b: seq<Byte>, pad: Byte): (r: seq<Byte>)
    ensures |r| == |b|
  {
    seq(|b|, i requires 0 <= i < |b| => XorByte(b[i], pad))
  }

  /** The key hashed when longer than a block, then extended with zeros to a block. */
  function BlockKey(key: seq<Byte>): (k: seq<Byte>)
    ensures |k| == 64
  {
    var k := if |key| > 64 then Digest(key) else key;
    k + Zeros(64 - |k|)
  }

  function Hmac(key: seq<Byte>, text: seq<Byte>): seq<Byte> {
    Digest(XorWith(BlockKey(key), 0x5c) + Digest(XorWith(BlockKey(key), 0x36) + text))
  }
}
