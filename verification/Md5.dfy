/**
  The digest as lib/src/md5.cc computes it: a growing buffer, sixty-four hand-unrolled operations per
  block, and byte reversals on machines that are not little-endian. It is proved to compute the text of
  `Md5Spec.Digest`, on either kind of machine.
*/
module Md5 {
  import opened Md5Spec

  // ----- the memory of the machine -----

  function Reverse(bytes: seq<Byte>): (r: seq<Byte>)
    ensures |r| == |bytes|
  {
    seq(|bytes|, i requires 0 <= i < |bytes| => bytes[|bytes| - 1 - i])
  }

  /** The bytes of a 32-bit variable in memory. */
  function Stored(little: bool, w: Word): seq<Byte> {
    if little then BytesOf(w) else Reverse(BytesOf(w))
  }

  /** The value of a 32-bit variable whose memory holds these bytes. */
  function Loaded(little: bool, bytes: seq<Byte>): Word
    requires |bytes| == 4
  {
    if little then WordAt(bytes, 0) else WordAt(Reverse(bytes), 0)
  }

  /** `transform__`: the bytes of the variable are reversed in memory. */
  function Transformed(little: bool, w: Word): Word {
    Loaded(little, Reverse(Stored(little, w)))
  }

  lemma BytesOfWordAt(bytes: seq<Byte>)
    requires |bytes| == 4
    ensures BytesOf(WordAt(bytes, 0)) == bytes
  {
  }

  lemma ReverseReverse(bytes: seq<Byte>)
    ensures Reverse(Reverse(bytes)) == bytes
  {
  }

  /** On a big-endian machine, loading a word and reversing it in memory gives its little-endian value. */
  lemma TransformedLoad(bytes: seq<Byte>)
    requires |bytes| == 4
    ensures Transformed(false, Loaded(false, bytes)) == WordAt(bytes, 0)
  {
    hide WordAt, BytesOf, Reverse;
    var w := Loaded(false, bytes);
    BytesOfWordAt(Reverse(bytes));
    ReverseReverse(bytes);
    assert Stored(false, w) == bytes;
    ReverseReverse(Reverse(bytes));
  }

  /** Reversing a word in memory and storing it gives its bytes in little-endian order. */
  lemma StoredTransformed(w: Word)
    ensures Stored(false, Transformed(false, w)) == BytesOf(w)
  {
    hide WordAt, BytesOf, Reverse;
    var bytes := BytesOf(w);
    ReverseReverse(bytes);
    assert Reverse(Stored(false, w)) == bytes;
    assert Transformed(false, w) == WordAt(Reverse(bytes), 0);
    BytesOfWordAt(Reverse(bytes));
  }

  // ----- the operations -----

  datatype Func = F | G | H | I

  function Called(f: Func, x: Word, y: Word, z: Word): Word {
    match f
    case F => (x & y) | (!x & z)
    case G => (x & z) | (y & !z)
    case H => x ^ y ^ z
    case I => y ^ (x | !z)
  }

  function RoundOf(f: Func): (r: nat)
    ensures r < 4
  {
    match f
    case F => 0
    case G => 1
    case H => 2
    case I => 3
  }

  const S11: Shift := 7
  const S12: Shift := 12
  const S13: Shift := 17
  const S14: Shift := 22
  const S21: Shift := 5
  const S22: Shift := 9
  const S23: Shift := 14
  const S24: Shift := 20
  const S31: Shift := 4
  const S32: Shift := 11
  const S33: Shift := 16
  const S34: Shift := 23
  const S41: Shift := 6
  const S42: Shift := 10
  const S43: Shift := 15
  const S44: Shift := 21

  lemma SelectF(x: Word, y: Word, z: Word)
    ensures (x & y) | (!x & z) == z ^ (x & (y ^ z))
  {
  }

  lemma SelectG(x: Word, y: Word, z: Word)
    ensures (x & z) | (y & !z) == y ^ (z & (x ^ y))
  {
  }

  lemma MixAgreesF(x: Word, y: Word, z: Word)
    ensures Called(F, x, y, z) == Mixed(0, x, y, z)
  {
    SelectF(x, y, z);
  }

  lemma MixAgreesG(x: Word, y: Word, z: Word)
    ensures Called(G, x, y, z) == Mixed(1, x, y, z)
  {
    SelectG(x, y, z);
  }

  lemma MixAgreesH(x: Word, y: Word, z: Word)
    ensures Called(H, x, y, z) == Mixed(2, x, y, z)
  {
  }

  lemma MixAgreesI(x: Word, y: Word, z: Word)
    ensures Called(I, x, y, z) == Mixed(3, x, y, z)
  {
  }

  lemma MixAgrees(f: Func, x: Word, y: Word, z: Word)
    ensures Called(f, x, y, z) == Mixed(RoundOf(f), x, y, z)
  {
    hide Called, Mixed;
    match f
    case F => MixAgreesF(x, y, z);
    case G => MixAgreesG(x, y, z);
    case H => MixAgreesH(x, y, z);
    case I => MixAgreesI(x, y, z);
  }

  /** `OP__`, which is the step of RFC 1321 for the round its function belongs to. */
  function Op(f: Func, a: Word, b: Word, c: Word, d: Word, x: Word, s: Shift, t: Word): (r: Word)
    ensures r == Stepped(RoundOf(f), a, b, c, d, x, s, t)
  {
    hide Called, Mixed, Combined;
    MixAgrees(f, b, c, d);
    Combined(a, b, Called(f, b, c, d), x, s, t)
  }

  // ----- the four rounds -----

  lemma FourSteps(r: Registers, x: seq<Word>, from: nat, i: nat)
    requires |x| == 16 && from <= i && i + 4 <= 64
    ensures Steps(r, x, from, i + 4) == Step(Step(Step(Step(Steps(r, x, from, i), x, i), x, i + 1), x, i + 2), x, i + 3)
  {
    hide Step;
    assert Steps(r, x, from, i + 1) == Step(Steps(r, x, from, i), x, i);
    assert Steps(r, x, from, i + 2) == Step(Steps(r, x, from, i + 1), x, i + 1);
    assert Steps(r, x, from, i + 3) == Step(Steps(r, x, from, i + 2), x, i + 2);
    assert Steps(r, x, from, i + 4) == Step(Steps(r, x, from, i + 3), x, i + 3);
  }

  function Four(r: Registers, x: seq<Word>, i: nat): Registers
    requires |x| == 16 && i + 4 <= 64
  {
    Step(Step(Step(Step(r, x, i), x, i + 1), x, i + 2), x, i + 3)
  }

  function Sixteen(r: Registers, x: seq<Word>, i: nat): Registers
    requires |x| == 16 && i + 16 <= 64
  {
    Four(Four(Four(Four(r, x, i), x, i + 4), x, i + 8), x, i + 12)
  }

  lemma FourFours(r: Registers, x: seq<Word>, i: nat, r1: Registers, r2: Registers, r3: Registers, r4: Registers)
    requires |x| == 16 && i + 16 <= 64
    requires r1 == Four(r, x, i) && r2 == Four(r1, x, i + 4) && r3 == Four(r2, x, i + 8) && r4 == Four(r3, x, i + 12)
    ensures r4 == Sixteen(r, x, i)
  {
  }

  lemma SixteenIsSteps(r: Registers, x: seq<Word>, i: nat)
    requires |x| == 16 && i + 16 <= 64
    ensures Sixteen(r, x, i) == Steps(r, x, i, i + 16)
  {
    hide Step;
    assert Steps(r, x, i, i) == r;
    FourSteps(r, x, i, i);
    FourSteps(r, x, i, i + 4);
    FourSteps(r, x, i, i + 8);
    FourSteps(r, x, i, i + 12);
  }

  /** The words, shifts and constants of four steps. */
  predicate Row(x: seq<Word>, k: seq<nat>, s: seq<Shift>, t: seq<Word>) {
    |x| == 16 && |k| == |s| == |t| == 4 && forall j :: 0 <= j < 4 ==> k[j] < 16
  }

  /** One line of a round; the registers change places. */
  function Turn(f: Func, r: Registers, x: Word, s: Shift, t: Word): Registers {
    Registers(r.d, Op(f, r.a, r.b, r.c, r.d, x, s, t), r.b, r.c)
  }

  /** Four lines of a round. */
  function Ops(f: Func, r: Registers, x: seq<Word>, k: seq<nat>, s: seq<Shift>, t: seq<Word>): Registers
    requires Row(x, k, s, t)
  {
    Turn(f, Turn(f, Turn(f, Turn(f, r, x[k[0]], s[0], t[0]), x[k[1]], s[1], t[1]), x[k[2]], s[2], t[2]),
         x[k[3]], s[3], t[3])
  }

  lemma StepIsTurn(f: Func, r: Registers, x: seq<Word>, row: nat, j: nat, k: seq<nat>, s: seq<Shift>, t: seq<Word>)
    requires Row(x, k, s, t) && row < 16 && j < 4 && RoundOf(f) == row / 4
    requires INDEX[row] == k && SHIFTS[row / 4] == s && T[row] == t
    ensures Step(r, x, 4 * row + j) == Turn(f, r, x[k[j]], s[j], t[j])
  {
    hide Stepped, Op, INDEX, T, SHIFTS;
    assert (4 * row + j) / 4 == row && (4 * row + j) / 16 == row / 4 && (4 * row + j) % 4 == j;
  }

  lemma OpsAreFour(f: Func, r: Registers, x: seq<Word>, row: nat, k: seq<nat>, s: seq<Shift>, t: seq<Word>)
    requires Row(x, k, s, t) && row < 16 && RoundOf(f) == row / 4
    requires INDEX[row] == k && SHIFTS[row / 4] == s && T[row] == t
    ensures Ops(f, r, x, k, s, t) == Four(r, x, 4 * row)
  {
    hide Step, Turn, RoundOf, INDEX, T, SHIFTS;
    StepIsTurn(f, r, x, row, 0, k, s, t);
    var r1 := Step(r, x, 4 * row);
    StepIsTurn(f, r1, x, row, 1, k, s, t);
    var r2 := Step(r1, x, 4 * row + 1);
    StepIsTurn(f, r2, x, row, 2, k, s, t);
    var r3 := Step(r2, x, 4 * row + 2);
    StepIsTurn(f, r3, x, row, 3, k, s, t);
  }

  lemma Rows1()
    ensures |SHIFTS| == 4 && |INDEX| == 16 && |T| == 16
    ensures SHIFTS[0] == [S11, S12, S13, S14]
    ensures INDEX[0] == [0, 1, 2, 3] && T[0] == [0xd76aa478, 0xe8c7b756, 0x242070db, 0xc1bdceee]
    ensures INDEX[1] == [4, 5, 6, 7] && T[1] == [0xf57c0faf, 0x4787c62a, 0xa8304613, 0xfd469501]
    ensures INDEX[2] == [8, 9, 10, 11] && T[2] == [0x698098d8, 0x8b44f7af, 0xffff5bb1, 0x895cd7be]
    ensures INDEX[3] == [12, 13, 14, 15] && T[3] == [0x6b901122, 0xfd987193, 0xa679438e, 0x49b40821]
  {
  }

  lemma Rows2()
    ensures |SHIFTS| == 4 && |INDEX| == 16 && |T| == 16
    ensures SHIFTS[1] == [S21, S22, S23, S24]
    ensures INDEX[4] == [1, 6, 11, 0] && T[4] == [0xf61e2562, 0xc040b340, 0x265e5a51, 0xe9b6c7aa]
    ensures INDEX[5] == [5, 10, 15, 4] && T[5] == [0xd62f105d, 0x02441453, 0xd8a1e681, 0xe7d3fbc8]
    ensures INDEX[6] == [9, 14, 3, 8] && T[6] == [0x21e1cde6, 0xc33707d6, 0xf4d50d87, 0x455a14ed]
    ensures INDEX[7] == [13, 2, 7, 12] && T[7] == [0xa9e3e905, 0xfcefa3f8, 0x676f02d9, 0x8d2a4c8a]
  {
  }

  lemma Rows3()
    ensures |SHIFTS| == 4 && |INDEX| == 16 && |T| == 16
    ensures SHIFTS[2] == [S31, S32, S33, S34]
    ensures INDEX[8] == [5, 8, 11, 14] && T[8] == [0xfffa3942, 0x8771f681, 0x6d9d6122, 0xfde5380c]
    ensures INDEX[9] == [1, 4, 7, 10] && T[9] == [0xa4beea44, 0x4bdecfa9, 0xf6bb4b60, 0xbebfbc70]
    ensures INDEX[10] == [13, 0, 3, 6] && T[10] == [0x289b7ec6, 0xeaa127fa, 0xd4ef3085, 0x04881d05]
    ensures INDEX[11] == [9, 12, 15, 2] && T[11] == [0xd9d4d039, 0xe6db99e5, 0x1fa27cf8, 0xc4ac5665]
  {
  }

  lemma Rows4()
    ensures |SHIFTS| == 4 && |INDEX| == 16 && |T| == 16
    ensures SHIFTS[3] == [S41, S42, S43, S44]
    ensures INDEX[12] == [0, 7, 14, 5] && T[12] == [0xf4292244, 0x432aff97, 0xab9423a7, 0xfc93a039]
    ensures INDEX[13] == [12, 3, 10, 1] && T[13] == [0x655b59c3, 0x8f0ccc92, 0xffeff47d, 0x85845dd1]
    ensures INDEX[14] == [8, 15, 6, 13] && T[14] == [0x6fa87e4f, 0xfe2ce6e0, 0xa3014314, 0x4e0811a1]
    ensures INDEX[15] == [4, 11, 2, 9] && T[15] == [0xf7537e82, 0xbd3af235, 0x2ad7d2bb, 0xeb86d391]
  {
  }

  method Round1(st: Registers, x: seq<Word>) returns (a: Word, b: Word, c: Word, d: Word)
    requires |x| == 16
    ensures Registers(a, b, c, d) == Sixteen(st, x, 0)
  {
    hide Stepped, Op, Called, Four, Sixteen, INDEX, T, SHIFTS;
    Rows1();
    a, b, c, d := st.a, st.b, st.c, st.d;
    a := Op(F, a, b, c, d, x[0], S11, 0xd76aa478);
    d := Op(F, d, a, b, c, x[1], S12, 0xe8c7b756);
    c := Op(F, c, d, a, b, x[2], S13, 0x242070db);
    b := Op(F, b, c, d, a, x[3], S14, 0xc1bdceee);
    ghost var r1 := Registers(a, b, c, d);
    OpsAreFour(F, st, x, 0, [0, 1, 2, 3], SHIFTS[0], T[0]);
    assert r1 == Four(st, x, 0);
    a := Op(F, a, b, c, d, x[4], S11, 0xf57c0faf);
    d := Op(F, d, a, b, c, x[5], S12, 0x4787c62a);
    c := Op(F, c, d, a, b, x[6], S13, 0xa8304613);
    b := Op(F, b, c, d, a, x[7], S14, 0xfd469501);
    ghost var r2 := Registers(a, b, c, d);
    OpsAreFour(F, r1, x, 1, [4, 5, 6, 7], SHIFTS[0], T[1]);
    assert r2 == Four(r1, x, 4);
    a := Op(F, a, b, c, d, x[8], S11, 0x698098d8);
    d := Op(F, d, a, b, c, x[9], S12, 0x8b44f7af);
    c := Op(F, c, d, a, b, x[10], S13, 0xffff5bb1);
    b := Op(F, b, c, d, a, x[11], S14, 0x895cd7be);
    ghost var r3 := Registers(a, b, c, d);
    OpsAreFour(F, r2, x, 2, [8, 9, 10, 11], SHIFTS[0], T[2]);
    assert r3 == Four(r2, x, 8);
    a := Op(F, a, b, c, d, x[12], S11, 0x6b901122);
    d := Op(F, d, a, b, c, x[13], S12, 0xfd987193);
    c := Op(F, c, d, a, b, x[14], S13, 0xa679438e);
    b := Op(F, b, c, d, a, x[15], S14, 0x49b40821);
    OpsAreFour(F, r3, x, 3, [12, 13, 14, 15], SHIFTS[0], T[3]);
    assert Registers(a, b, c, d) == Four(r3, x, 12);
    FourFours(st, x, 0, r1, r2, r3, Registers(a, b, c, d));
  }

  method Round2(st: Registers, x: seq<Word>) returns (a: Word, b: Word, c: Word, d: Word)
    requires |x| == 16
    ensures Registers(a, b, c, d) == Sixteen(st, x, 16)
  {
    hide Stepped, Op, Called, Four, Sixteen, INDEX, T, SHIFTS;
    Rows2();
    a, b, c, d := st.a, st.b, st.c, st.d;
    a := Op(G, a, b, c, d, x[1], S21, 0xf61e2562);
    d := Op(G, d, a, b, c, x[6], S22, 0xc040b340);
    c := Op(G, c, d, a, b, x[11], S23, 0x265e5a51);
    b := Op(G, b, c, d, a, x[0], S24, 0xe9b6c7aa);
    ghost var r1 := Registers(a, b, c, d);
    OpsAreFour(G, st, x, 4, [1, 6, 11, 0], SHIFTS[1], T[4]);
    assert r1 == Four(st, x, 16);
    a := Op(G, a, b, c, d, x[5], S21, 0xd62f105d);
    d := Op(G, d, a, b, c, x[10], S22, 0x02441453);
    c := Op(G, c, d, a, b, x[15], S23, 0xd8a1e681);
    b := Op(G, b, c, d, a, x[4], S24, 0xe7d3fbc8);
    ghost var r2 := Registers(a, b, c, d);
    OpsAreFour(G, r1, x, 5, [5, 10, 15, 4], SHIFTS[1], T[5]);
    assert r2 == Four(r1, x, 20);
    a := Op(G, a, b, c, d, x[9], S21, 0x21e1cde6);
    d := Op(G, d, a, b, c, x[14], S22, 0xc33707d6);
    c := Op(G, c, d, a, b, x[3], S23, 0xf4d50d87);
    b := Op(G, b, c, d, a, x[8], S24, 0x455a14ed);
    ghost var r3 := Registers(a, b, c, d);
    OpsAreFour(G, r2, x, 6, [9, 14, 3, 8], SHIFTS[1], T[6]);
    assert r3 == Four(r2, x, 24);
    a := Op(G, a, b, c, d, x[13], S21, 0xa9e3e905);
    d := Op(G, d, a, b, c, x[2], S22, 0xfcefa3f8);
    c := Op(G, c, d, a, b, x[7], S23, 0x676f02d9);
    b := Op(G, b, c, d, a, x[12], S24, 0x8d2a4c8a);
    OpsAreFour(G, r3, x, 7, [13, 2, 7, 12], SHIFTS[1], T[7]);
    assert Registers(a, b, c, d) == Four(r3, x, 28);
    FourFours(st, x, 16, r1, r2, r3, Registers(a, b, c, d));
  }

  method Round3(st: Registers, x: seq<Word>) returns (a: Word, b: Word, c: Word, d: Word)
    requires |x| == 16
    ensures Registers(a, b, c, d) == Sixteen(st, x, 32)
  {
    hide Stepped, Op, Called, Four, Sixteen, INDEX, T, SHIFTS;
    Rows3();
    a, b, c, d := st.a, st.b, st.c, st.d;
    a := Op(H, a, b, c, d, x[5], S31, 0xfffa3942);
    d := Op(H, d, a, b, c, x[8], S32, 0x8771f681);
    c := Op(H, c, d, a, b, x[11], S33, 0x6d9d6122);
    b := Op(H, b, c, d, a, x[14], S34, 0xfde5380c);
    ghost var r1 := Registers(a, b, c, d);
    OpsAreFour(H, st, x, 8, [5, 8, 11, 14], SHIFTS[2], T[8]);
    assert r1 == Four(st, x, 32);
    a := Op(H, a, b, c, d, x[1], S31, 0xa4beea44);
    d := Op(H, d, a, b, c, x[4], S32, 0x4bdecfa9);
    c := Op(H, c, d, a, b, x[7], S33, 0xf6bb4b60);
    b := Op(H, b, c, d, a, x[10], S34, 0xbebfbc70);
    ghost var r2 := Registers(a, b, c, d);
    OpsAreFour(H, r1, x, 9, [1, 4, 7, 10], SHIFTS[2], T[9]);
    assert r2 == Four(r1, x, 36);
    a := Op(H, a, b, c, d, x[13], S31, 0x289b7ec6);
    d := Op(H, d, a, b, c, x[0], S32, 0xeaa127fa);
    c := Op(H, c, d, a, b, x[3], S33, 0xd4ef3085);
    b := Op(H, b, c, d, a, x[6], S34, 0x04881d05);
    ghost var r3 := Registers(a, b, c, d);
    OpsAreFour(H, r2, x, 10, [13, 0, 3, 6], SHIFTS[2], T[10]);
    assert r3 == Four(r2, x, 40);
    a := Op(H, a, b, c, d, x[9], S31, 0xd9d4d039);
    d := Op(H, d, a, b, c, x[12], S32, 0xe6db99e5);
    c := Op(H, c, d, a, b, x[15], S33, 0x1fa27cf8);
    b := Op(H, b, c, d, a, x[2], S34, 0xc4ac5665);
    OpsAreFour(H, r3, x, 11, [9, 12, 15, 2], SHIFTS[2], T[11]);
    assert Registers(a, b, c, d) == Four(r3, x, 44);
    FourFours(st, x, 32, r1, r2, r3, Registers(a, b, c, d));
  }

  method Round4(st: Registers, x: seq<Word>) returns (a: Word, b: Word, c: Word, d: Word)
    requires |x| == 16
    ensures Registers(a, b, c, d) == Sixteen(st, x, 48)
  {
    hide Stepped, Op, Called, Four, Sixteen, INDEX, T, SHIFTS;
    Rows4();
    a, b, c, d := st.a, st.b, st.c, st.d;
    a := Op(I, a, b, c, d, x[0], S41, 0xf4292244);
    d := Op(I, d, a, b, c, x[7], S42, 0x432aff97);
    c := Op(I, c, d, a, b, x[14], S43, 0xab9423a7);
    b := Op(I, b, c, d, a, x[5], S44, 0xfc93a039);
    ghost var r1 := Registers(a, b, c, d);
    OpsAreFour(I, st, x, 12, [0, 7, 14, 5], SHIFTS[3], T[12]);
    assert r1 == Four(st, x, 48);
    a := Op(I, a, b, c, d, x[12], S41, 0x655b59c3);
    d := Op(I, d, a, b, c, x[3], S42, 0x8f0ccc92);
    c := Op(I, c, d, a, b, x[10], S43, 0xffeff47d);
    b := Op(I, b, c, d, a, x[1], S44, 0x85845dd1);
    ghost var r2 := Registers(a, b, c, d);
    OpsAreFour(I, r1, x, 13, [12, 3, 10, 1], SHIFTS[3], T[13]);
    assert r2 == Four(r1, x, 52);
    a := Op(I, a, b, c, d, x[8], S41, 0x6fa87e4f);
    d := Op(I, d, a, b, c, x[15], S42, 0xfe2ce6e0);
    c := Op(I, c, d, a, b, x[6], S43, 0xa3014314);
    b := Op(I, b, c, d, a, x[13], S44, 0x4e0811a1);
    ghost var r3 := Registers(a, b, c, d);
    OpsAreFour(I, r2, x, 14, [8, 15, 6, 13], SHIFTS[3], T[14]);
    assert r3 == Four(r2, x, 56);
    a := Op(I, a, b, c, d, x[4], S41, 0xf7537e82);
    d := Op(I, d, a, b, c, x[11], S42, 0xbd3af235);
    c := Op(I, c, d, a, b, x[2], S43, 0x2ad7d2bb);
    b := Op(I, b, c, d, a, x[9], S44, 0xeb86d391);
    OpsAreFour(I, r3, x, 15, [4, 11, 2, 9], SHIFTS[3], T[15]);
    assert Registers(a, b, c, d) == Four(r3, x, 60);
    FourFours(st, x, 48, r1, r2, r3, Registers(a, b, c, d));
  }

  // ----- the whole -----

  /** One pass of the block loop, on the words of one block. */
  method Update(r: Registers, x: seq<Word>) returns (next: Registers)
    requires |x| == 16
    ensures next == Block(r, x)
  {
    hide Steps, Sixteen, Added;
    var a, b, c, d := Round1(r, x);
    a, b, c, d := Round2(Registers(a, b, c, d), x);
    a, b, c, d := Round3(Registers(a, b, c, d), x);
    a, b, c, d := Round4(Registers(a, b, c, d), x);
    SixtyFourSteps(r, x);
    next := Added(r, Registers(a, b, c, d));
  }

  /** Four times sixteen steps. */
  lemma SixtyFourSteps(r: Registers, x: seq<Word>)
    requires |x| == 16
    ensures Sixteen(Sixteen(Sixteen(Sixteen(r, x, 0), x, 16), x, 32), x, 48) == Steps(r, x, 0, 64)
  {
    hide Steps, Sixteen;
    SixteenIsSteps(r, x, 0);
    SixteenIsSteps(Steps(r, x, 0, 16), x, 16);
    SixteenIsSteps(Steps(r, x, 0, 32), x, 32);
    SixteenIsSteps(Steps(r, x, 0, 48), x, 48);
    StepsConcat(r, x, 0, 16, 32);
    StepsConcat(r, x, 0, 32, 48);
    StepsConcat(r, x, 0, 48, 64);
  }

  lemma {:induction false} StepsConcat(r: Registers, x: seq<Word>, from: nat, mid: nat, to: nat)
    requires |x| == 16 && from <= mid <= to <= 64
    ensures Steps(Steps(r, x, from, mid), x, mid, to) == Steps(r, x, from, to)
  {
    hide Step;
    if mid < to {
      StepsConcat(r, x, from, mid, to - 1);
    }
  }

  /** Copies a block into sixteen words and converts them where the machine is not little-endian. */
  method LoadBlock(little: bool, block: seq<Byte>) returns (x: seq<Word>)
    requires |block| == 64
    ensures x == WordsOf(block)
  {
    hide WordAt, Transformed, Loaded;
    x := [];
    for i := 0 to 16
      invariant |x| == i
      invariant forall j :: 0 <= j < i ==> x[j] == WordAt(block, 4 * j)
    {
      var w := Loaded(little, block[4 * i..4 * i + 4]);
      if !little {
        w := Transformed(little, w);
      }
      WordLoaded(little, block, 4 * i, w);
      x := x + [w];
    }
  }

  lemma WordAtSlice(bytes: seq<Byte>, i: nat)
    requires i + 4 <= |bytes|
    ensures WordAt(bytes[i..i + 4], 0) == WordAt(bytes, i)
  {
  }

  lemma WordLoaded(little: bool, block: seq<Byte>, i: nat, w: Word)
    requires i + 4 <= |block|
    requires var l := Loaded(little, block[i..i + 4]); w == if little then l else Transformed(little, l)
    ensures w == WordAt(block, i)
  {
    hide Transformed;
    var four := block[i..i + 4];
    WordAtSlice(block, i);
    if !little {
      TransformedLoad(four);
    }
  }

  // ----- the text -----

  const DIGITS := "0123456789abcdef"

  /** A number in hexadecimal, without leading zeros. */
  function HexNumber(n: nat): string {
    if n < 16 then [DIGITS[n]] else HexNumber(n / 16) + [DIGITS[n % 16]]
  }

  /** setw(2) and setfill('0') */
  function HexField(n: nat): string {
    if |HexNumber(n)| == 1 then "0" + HexNumber(n) else HexNumber(n)
  }

  /** The reference text: the high and the low digit of each byte. */
  function HexText(bytes: seq<Byte>): (text: string)
    ensures |text| == 2 * |bytes|
  {
    if bytes == [] then ""
    else
      var n := bytes[|bytes| - 1] as int;
      HexText(bytes[..|bytes| - 1]) + [DIGITS[n / 16], DIGITS[n % 16]]
  }

  lemma HexFieldIsTwoDigits(n: nat)
    requires n < 256
    ensures HexField(n) == [DIGITS[n / 16], DIGITS[n % 16]]
  {
    if n < 16 {
      assert n / 16 == 0;
    } else {
      assert HexNumber(n / 16) == [DIGITS[n / 16]];
    }
  }

  function DigitValue(c: char): nat {
    if '0' <= c <= '9' then c as int - '0' as int
    else if 'a' <= c <= 'f' then c as int - 'a' as int + 10
    else 0
  }

  /** The numbers that pairs of hexadecimal digits stand for. */
  function FromHex(text: string): seq<nat> {
    if |text| < 2 then []
    else FromHex(text[..|text| - 2]) + [16 * DigitValue(text[|text| - 2]) + DigitValue(text[|text| - 1])]
  }

  lemma DigitsAreDigits(n: nat)
    requires n < 16
    ensures DigitValue(DIGITS[n]) == n && DIGITS[n] in DIGITS
  {
  }

  lemma FromHexLast(text: string, a: char, b: char)
    ensures FromHex(text + [a, b]) == FromHex(text) + [16 * DigitValue(a) + DigitValue(b)]
  {
    hide DigitValue;
    var longer := text + [a, b];
    assert longer[..|longer| - 2] == text;
  }

  lemma PairValue(n: nat)
    requires n < 256
    ensures 16 * DigitValue(DIGITS[n / 16]) + DigitValue(DIGITS[n % 16]) == n
  {
    hide DigitValue;
    DigitsAreDigits(n / 16);
    DigitsAreDigits(n % 16);
  }

  lemma ByteIsSmall(b: Byte)
    ensures b as int < 256
  {
  }

  lemma HexTextLast(bytes: seq<Byte>)
    requires bytes != []
    ensures var rest, n := bytes[..|bytes| - 1], bytes[|bytes| - 1] as int;
            && n < 256
            && HexText(bytes) == HexText(rest) + [DIGITS[n / 16], DIGITS[n % 16]]
            && FromHex(HexText(bytes)) == FromHex(HexText(rest)) + [n]
  {
    hide FromHex, DigitValue;
    ByteIsSmall(bytes[|bytes| - 1]);
    var n := bytes[|bytes| - 1] as int;
    FromHexLast(HexText(bytes[..|bytes| - 1]), DIGITS[n / 16], DIGITS[n % 16]);
    PairValue(n);
  }

  /** The text consists of lowercase hexadecimal digits, two per byte, from which the bytes can be read back. */
  lemma {:induction false} HexTextReadsBack(bytes: seq<Byte>)
    ensures forall c <- HexText(bytes) :: c in DIGITS
    ensures |FromHex(HexText(bytes))| == |bytes|
    ensures forall i :: 0 <= i < |bytes| ==> FromHex(HexText(bytes))[i] == bytes[i] as int
  {
    hide HexText, FromHex;
    if bytes != [] {
      HexTextReadsBack(bytes[..|bytes| - 1]);
      HexTextLast(bytes);
      var n := bytes[|bytes| - 1] as int;
      DigitsAreDigits(n / 16);
      DigitsAreDigits(n % 16);
    } else {
      HexTextOfNothing();
    }
  }

  lemma HexTextOfNothing()
    ensures HexText([]) == "" && FromHex("") == []
  {
  }

  // ----- md5 -----

  function ZeroBytes(count: nat): seq<Byte> {
    seq(count, i => 0)
  }

  /** Steps 0 to 2: the input, the byte 0x80, zero bytes, and the length as the machine has it in memory. */
  method PaddedBuffer(input: seq<Byte>, little: bool) returns (buffer: seq<Byte>)
    ensures buffer == Padded(input)
  {
    hide LittleEndian, Reverse;
    var bytes := |input|;
    var padBytes := bytes + 9;
    if padBytes % 64 != 0 {
      padBytes := padBytes + (64 - padBytes % 64);
    }
    PadBytes(bytes, padBytes);
    buffer := input + [0x80] + ZeroBytes(padBytes - 8 - (bytes + 1));
    var stored := LittleEndian(bytes * 8 % TWO_64, 8);
    if !little {
      stored := Reverse(stored);         // the variable in a big-endian memory
      stored := Reverse(stored);         // transform__
      ReverseReverse(LittleEndian(bytes * 8 % TWO_64, 8));
    }
    buffer := buffer + stored;
  }

  lemma PadBytes(bytes: nat, padBytes: nat)
    requires padBytes == if (bytes + 9) % 64 == 0 then bytes + 9 else bytes + 9 + (64 - (bytes + 9) % 64)
    ensures padBytes % 64 == 0 && padBytes - 9 - bytes == Zeros(bytes)
  {
    var q, r := (bytes + 9) / 64, (bytes + 9) % 64;
    assert bytes + 9 == 64 * q + r;
  }

  method HexOutput(bytes: seq<Byte>) returns (text: string)
    ensures text == HexText(bytes)
  {
    hide HexField;
    text := "";
    for i := 0 to |bytes|
      invariant text == HexText(bytes[..i])
    {
      HexFieldIsTwoDigits(bytes[i] as int);
      assert bytes[..i + 1][..i] == bytes[..i];
      text := text + HexField(bytes[i] as int);
    }
    assert bytes[..|bytes|] == bytes;
  }

  method Output(little: bool, w: Word) returns (bytes: seq<Byte>)
    ensures bytes == BytesOf(w)
  {
    hide Stored, Transformed, BytesOf;
    var value := w;
    if !little {
      value := Transformed(little, value);
      StoredTransformed(w);
    } else {
      StoredLittle(w);
    }
    bytes := Stored(little, value);
  }

  lemma StoredLittle(w: Word)
    ensures Stored(true, w) == BytesOf(w)
  {
  }

  /** For every input and on either kind of machine: the lowercase hexadecimal text of the RFC 1321 digest. */
  method Digested(input: seq<Byte>, little: bool) returns (text: string)
    ensures text == HexText(Digest(input))
    ensures |text| == 32
  {
    hide Block, Blocks, Padded, Digest, WordsOf, BytesOf, HexText;
    var buffer := PaddedBuffer(input, little);
    var r := Registers(0x67452301, 0xefcdab89, 0x98badcfe, 0x10325476);
    var block := 0;
    ghost var n := 0;
    NoBlocks(r);
    while block < |buffer|
      invariant block == 64 * n && block <= |buffer|
      invariant r == Blocks(Md5Spec.START, buffer[..block])
    {
      var x := LoadBlock(little, buffer[block..block + 64]);
      n := n + 1;
      NextBlock(Md5Spec.START, buffer[..block + 64], n);
      assert buffer[..block + 64][..block] == buffer[..block];
      assert buffer[..block + 64][block..] == buffer[block..block + 64];
      r := Update(r, x);
      block := block + 64;
    }
    assert buffer[..block] == buffer;
    var a := Output(little, r.a);
    var b := Output(little, r.b);
    var c := Output(little, r.c);
    var d := Output(little, r.d);
    DigestIs(input, r);
    text := HexOutput(a + b + c + d);
  }

  lemma NoBlocks(r: Registers)
    ensures Blocks(r, []) == r
  {
  }

  lemma NextBlock(r: Registers, bytes: seq<Byte>, n: nat)
    requires |bytes| == 64 * n && n > 0
    ensures Blocks(r, bytes) == Block(Blocks(r, bytes[..|bytes| - 64]), WordsOf(bytes[|bytes| - 64..]))
  {
    hide Block, WordsOf;
  }

  lemma DigestIs(message: seq<Byte>, r: Registers)
    requires r == Blocks(Md5Spec.START, Padded(message))
    ensures Digest(message) == BytesOf(r.a) + BytesOf(r.b) + BytesOf(r.c) + BytesOf(r.d)
  {
  }
}
