/**
  The MD5 message digest as sections 3.1 to 3.5 of RFC 1321 describe it: padding, appended length,
  and one table-driven step repeated sixty-four times for each block of sixteen words.
*/
module Md5Spec {
  import opened Bytes

  type Byte = bv8
  type Word = bv32

  datatype Registers = Registers(a: Word, b: Word, c: Word, d: Word)

  const START := Registers(0x67452301, 0xefcdab89, 0x98badcfe, 0x10325476)

  // ----- sections 3.1 and 3.2: padding and length -----

  const TWO_64 := 0x1_0000_0000_0000_0000

  /** The lowest `count` bytes of a number, low-order byte first. */
  function LittleEndian(n: nat, count: nat): (bytes: seq<Byte>)
    ensures |bytes| == count
  {
    if count == 0 then [] else [(n % 256) as bv8] + LittleEndian(n / 256, count - 1)
  }

  /** The length in bits, its low-order 64 bits only. */
  function LengthBytes(bytes: nat): seq<Byte> {
    LittleEndian(8 * bytes % TWO_64, 8)
  }

  /** The number of zero bytes after the byte 0x80: the least that leaves room for exactly the length. */
  function Zeros(bytes: nat): (z: nat)
    ensures z < 64 && (bytes + 1 + z + 8) % 64 == 0
  {
    (119 - bytes % 64) % 64
  }

  function Padded(message: seq<Byte>): (p: seq<Byte>)
    ensures |p| % 64 == 0
  {
    message + [0x80] + seq(Zeros(|message|), i => 0) + LengthBytes(|message|)
  }

  // ----- section 3.4: blocks -----

  /** A word with its low-order byte first. */
  function WordAt(bytes: seq<Byte>, i: nat): Word
    requires i + 4 <= |bytes|
  {
    (bytes[i] as bv32) | ((bytes[i + 1] as bv32) << 8) | ((bytes[i + 2] as bv32) << 16) | ((bytes[i + 3] as bv32) << 24)
  }

  function WordsOf(block: seq<Byte>): (x: seq<Word>)
    requires |block| == 64
    ensures |x| == 16
  {
    seq(16, i requires 0 <= i < 16 => WordAt(block, 4 * i))
  }

  /** In each bit position: if `c` then `t` else `e`. */
  function Select(c: Word, t: Word, e: Word): Word {
    e ^ (c & (t ^ e))
  }

  /** The auxiliary function of a round. */
  function Mixed(round: nat, x: Word, y: Word, z: Word): Word
    requires round < 4
  {
    if round == 0 then Select(x, y, z)
    else if round == 1 then Select(z, x, y)
    else if round == 2 then x ^ y ^ z
    else y ^ (x | !z)
  }

  type Shift = s: Word | 0 < s < 32 witness 1

  /** Circular shifts by the amounts of the four rounds. */
  const SHIFTS: seq<seq<Shift>> := [[7, 12, 17, 22], [5, 9, 14, 20], [4, 11, 16, 23], [6, 10, 15, 21]]

  /**
    Entry i - 1, counted along the rows, is the integer part of 4294967296 times the absolute value of
    sin(i), i in radians.
  */
  const T: seq<seq<Word>> := [
    [0xd76aa478, 0xe8c7b756, 0x242070db, 0xc1bdceee],
    [0xf57c0faf, 0x4787c62a, 0xa8304613, 0xfd469501],
    [0x698098d8, 0x8b44f7af, 0xffff5bb1, 0x895cd7be],
    [0x6b901122, 0xfd987193, 0xa679438e, 0x49b40821],
    [0xf61e2562, 0xc040b340, 0x265e5a51, 0xe9b6c7aa],
    [0xd62f105d, 0x02441453, 0xd8a1e681, 0xe7d3fbc8],
    [0x21e1cde6, 0xc33707d6, 0xf4d50d87, 0x455a14ed],
    [0xa9e3e905, 0xfcefa3f8, 0x676f02d9, 0x8d2a4c8a],
    [0xfffa3942, 0x8771f681, 0x6d9d6122, 0xfde5380c],
    [0xa4beea44, 0x4bdecfa9, 0xf6bb4b60, 0xbebfbc70],
    [0x289b7ec6, 0xeaa127fa, 0xd4ef3085, 0x04881d05],
    [0xd9d4d039, 0xe6db99e5, 0x1fa27cf8, 0xc4ac5665],
    [0xf4292244, 0x432aff97, 0xab9423a7, 0xfc93a039],
    [0x655b59c3, 0x8f0ccc92, 0xffeff47d, 0x85845dd1],
    [0x6fa87e4f, 0xfe2ce6e0, 0xa3014314, 0x4e0811a1],
    [0xf7537e82, 0xbd3af235, 0x2ad7d2bb, 0xeb86d391]]

  /** The words that the steps use, four steps to a row. */
  const INDEX: seq<seq<nat>> := [
    [0, 1, 2, 3], [4, 5, 6, 7], [8, 9, 10, 11], [12, 13, 14, 15],
    [1, 6, 11, 0], [5, 10, 15, 4], [9, 14, 3, 8], [13, 2, 7, 12],
    [5, 8, 11, 14], [1, 4, 7, 10], [13, 0, 3, 6], [9, 12, 15, 2],
    [0, 7, 14, 5], [12, 3, 10, 1], [8, 15, 6, 13], [4, 11, 2, 9]]

  /** x <<< s */
  function Circular(x: Word, s: Shift): Word {
    (x << s) | (x >> (32 - s))
  }

  /** b + ((a + f + x + t) <<< s) */
  function Combined(a: Word, b: Word, f: Word, x: Word, s: Shift, t: Word): Word {
    Circular(a + f + x + t, s) + b
  }

  function Stepped(round: nat, a: Word, b: Word, c: Word, d: Word, x: Word, s: Shift, t: Word): Word
    requires round < 4
  {
    Combined(a, b, Mixed(round, b, c, d), x, s, t)
  }

  /** One step; the registers change places. */
  function Step(r: Registers, x: seq<Word>, i: nat): Registers
    requires |x| == 16 && i < 64
  {
    var word, shift := x[INDEX[i / 4][i % 4]], SHIFTS[i / 16][i % 4];
    Registers(r.d, Stepped(i / 16, r.a, r.b, r.c, r.d, word, shift, T[i / 4][i % 4]), r.b, r.c)
  }

  function Steps(r: Registers, x: seq<Word>, from: nat, to: nat): Registers
    requires |x| == 16 && from <= to <= 64
  {
    if from == to then r else Step(Steps(r, x, from, to - 1), x, to - 1)
  }

  function Added(r: Registers, s: Registers): Registers {
    Registers(r.a + s.a, r.b + s.b, r.c + s.c, r.d + s.d)
  }

  function Block(r: Registers, x: seq<Word>): Registers
    requires |x| == 16
  {
    Added(r, Steps(r, x, 0, 64))
  }

  function Blocks(r: Registers, bytes: seq<Byte>): Registers
    requires |bytes| % 64 == 0
  {
    if bytes == [] then r
    else Block(Blocks(r, bytes[..|bytes| - 64]), WordsOf(bytes[|bytes| - 64..]))
  }

  // ----- section 3.5: output -----

  function BytesOf(w: Word): (bytes: seq<Byte>)
    ensures |bytes| == 4
  {
    [(w & 0xff) as bv8, ((w >> 8) & 0xff) as bv8, ((w >> 16) & 0xff) as bv8, (w >> 24) as bv8]
  }

  function Digest(message: seq<Byte>): seq<Byte> {
    var r := Blocks(START, Padded(message));
    BytesOf(r.a) + BytesOf(r.b) + BytesOf(r.c) + BytesOf(r.d)
  }

  // ----- what the circular shift is -----

  /** Bit `i`, counted from the low-order end. */
  function Bit(x: Word, i: Word): Word
    requires i < 32
  {
    (x >> i) & 1
  }

  lemma BitsMove(x: Word, s: Word, i: Word)
    requires 0 < s < 32 && i < 32
    ensures (((x << s) | (x >> (32 - s))) >> ((i + s) & 31)) & 1 == (x >> i) & 1
  {
  }

  /** x <<< s moves every bit s places up, and those at the top to the bottom. */
  lemma CircularMovesBits(x: Word, s: Shift, i: Word)
    requires i < 32
    ensures Bit(Circular(x, s), (i + s) & 31) == Bit(x, i)
  {
    BitsMove(x, s, i);
    assert Circular(x, s) == (x << s) | (x >> (32 - s));
    hide Circular;
  }

  // ----- the message can be recovered from its padding -----

  /** The number whose little-endian bytes these are. */
  function NumberOf(bytes: seq<Byte>): nat {
    if bytes == [] then 0 else bytes[0] as int + 256 * NumberOf(bytes[1..])
  }

  function Unpadded(padded: seq<Byte>): seq<Byte>
    requires |padded| >= 8
  {
    var length := NumberOf(padded[|padded| - 8..]) / 8;
    if length <= |padded| then padded[..length] else padded
  }

  function Pow256(k: nat): nat {
    if k == 0 then 1 else 256 * Pow256(k - 1)
  }

  lemma {:induction false} NumberOfLittleEndian(n: nat, count: nat)
    requires n < Pow256(count)
    ensures NumberOf(LittleEndian(n, count)) == n
  {
    if count > 0 {
      NumberOfLittleEndian(n / 256, count - 1);
      ByteValue(n % 256);
      assert LittleEndian(n, count)[1..] == LittleEndian(n / 256, count - 1);
    }
  }

  lemma Pow256Of8()
    ensures Pow256(8) == TWO_64
  {
    assert Pow256(2) == 0x1_0000;
    assert Pow256(4) == 0x1_0000_0000;
    assert Pow256(6) == 0x1_0000_0000_0000;
  }

  lemma UnpaddedIs(padded: seq<Byte>, message: seq<Byte>)
    requires message <= padded && |padded| >= 8
    requires NumberOf(padded[|padded| - 8..]) == 8 * |message|
    ensures Unpadded(padded) == message
  {
  }

  lemma LastEight(message: seq<Byte>)
    ensures |Padded(message)| >= 8 && message <= Padded(message)
    ensures Padded(message)[|Padded(message)| - 8..] == LengthBytes(|message|)
  {
  }

  lemma LengthValue(bytes: nat)
    requires bytes < 0x2000_0000_0000_0000
    ensures NumberOf(LengthBytes(bytes)) == 8 * bytes
  {
    hide LittleEndian, NumberOf, Pow256;
    Pow256Of8();
    NumberOfLittleEndian(8 * bytes, 8);
  }

  /** For messages shorter than 2^61 bytes the padding can be undone, so no two of them are padded alike. */
  lemma PaddingIsInvertible(message: seq<Byte>)
    requires |message| < 0x2000_0000_0000_0000
    ensures Unpadded(Padded(message)) == message
  {
    LastEight(message);
    LengthValue(|message|);
    UnpaddedIs(Padded(message), message);
  }

  lemma LeastMultiple(n: nat, z: nat, length: nat)
    requires z < 64 && (n + 9 + z) % 64 == 0
    requires length % 64 == 0 && length >= n + 9
    ensures n + 9 + z <= length
  {
    assert 64 * ((n + 9 + z) / 64) < 64 * (length / 64) + 64;
  }

  /** The padded length is the least multiple of 64 that holds the message, the byte 0x80 and the length. */
  lemma PaddingIsLeast(message: seq<Byte>, length: nat)
    requires length % 64 == 0 && length >= |message| + 9
    ensures |Padded(message)| <= length
  {
    LeastMultiple(|message|, Zeros(|message|), length);
    assert |Padded(message)| == |message| + 9 + Zeros(|message|);
  }
}

/** Numbers as bytes, and bytes as numbers. */
module Bytes {
  lemma NextByte(b: bv8)
    requires b != 255
    ensures (b + 1) as int == b as int + 1
  {
  }

  lemma ByteBack(b: bv8)
    ensures (b as int) as bv8 == b
  {
  }

  lemma {:induction false} ByteOf(n: nat) returns (b: bv8)
    requires n < 256
    ensures b as int == n
  {
    if n == 0 {
      b := 0;
    } else {
      var before := ByteOf(n - 1);
      NextByte(before);
      b := before + 1;
    }
  }

  lemma ByteValue(n: nat)
    requires n < 256
    ensures (n as bv8) as int == n
  {
    var b := ByteOf(n);
    ByteBack(b);
  }
}
