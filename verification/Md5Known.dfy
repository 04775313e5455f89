/**
  Known answers: two digests of the test suite in appendix A.5 of RFC 1321, computed step by step. They
  fix what the definitions of `Md5Spec` leave to their names: the rotation, the shifts, the start values
  and the order of everything.
*/
module Md5Known {
  import opened Md5Spec
  import opened Md5

  /** The words of a block whose message fits into the first word. */
  predicate IsShort(x: seq<Word>, first: Word, length: Word) {
    |x| == 16 && x[0] == first && x[14] == length && forall i :: 1 <= i < 16 && i != 14 ==> x[i] == 0
  }

  lemma ShortWords(x: seq<Word>, first: Word, length: Word)
    requires IsShort(x, first, length)
    ensures |x| == 16 && x[0] == first && x[14] == length
    ensures x[1] == x[2] == x[3] == x[4] == x[5] == x[6] == x[7] == 0
    ensures x[8] == x[9] == x[10] == x[11] == x[12] == x[13] == x[15] == 0
  {
  }

  /** One line of a round, on values. */
  lemma Turned(f: Func, a: Word, b: Word, c: Word, d: Word, x: Word, s: Shift, t: Word, mixed: Word, next: Word)
    requires mixed == Mixed(RoundOf(f), b, c, d) && next == Combined(a, b, mixed, x, s, t)
    ensures Turn(f, Registers(a, b, c, d), x, s, t) == Registers(d, next, b, c)
  {
    hide Mixed, Combined;
  }

  // ----- the empty message -----

  lemma EmptyRound1(x: seq<Word>)
    requires IsShort(x, 0x00000080, 0x00000000)
    ensures |x| == 16
    ensures Sixteen(Registers(0x67452301, 0xefcdab89, 0x98badcfe, 0x10325476), x, 0)
         == Registers(0xf56c7cf1, 0xd6819c6a, 0x5aa53f75, 0x374943a7)
  {
    hide Turn, Step, Four, Sixteen, IsShort, INDEX, T, SHIFTS;
    Rows1();
    ShortWords(x, 0x00000080, 0x00000000);
    var r0 := Registers(0x67452301, 0xefcdab89, 0x98badcfe, 0x10325476);
    Turned(F, 0x67452301, 0xefcdab89, 0x98badcfe, 0x10325476, 0x00000080, 7, 0xd76aa478, 0x98badcfe, 0xa5202774);
    Turned(F, 0x10325476, 0xa5202774, 0xefcdab89, 0x98badcfe, 0x00000000, 12, 0xe8c7b756, 0xbd9afb8a, 0xf59592dd);
    Turned(F, 0x98badcfe, 0xf59592dd, 0xa5202774, 0xefcdab89, 0x00000000, 17, 0x242070db, 0xaf482b54, 0xe7f06b23);
    Turned(F, 0xefcdab89, 0xe7f06b23, 0xf59592dd, 0xa5202774, 0x00000000, 22, 0xc1bdceee, 0xe5900655, 0x1b163203);
    var r1 := Registers(0xa5202774, 0x1b163203, 0xe7f06b23, 0xf59592dd);
    Turned(F, 0xa5202774, 0x1b163203, 0xe7f06b23, 0xf59592dd, 0x00000000, 7, 0xf57c0faf, 0xe791a2df, 0x32033344);
    Turned(F, 0xf59592dd, 0x32033344, 0x1b163203, 0xe7f06b23, 0x00000000, 12, 0x4787c62a, 0xd7f27a23, 0x2f35d494);
    Turned(F, 0xe7f06b23, 0x2f35d494, 0x32033344, 0x1b163203, 0x00000000, 17, 0xa8304613, 0x32033207, 0xf5b158db);
    Turned(F, 0x1b163203, 0xf5b158db, 0x2f35d494, 0x32033344, 0x00000000, 22, 0xfd469501, 0x27337394, 0x9bc13ce9);
    var r2 := Registers(0x32033344, 0x9bc13ce9, 0xf5b158db, 0x2f35d494);
    Turned(F, 0x32033344, 0x9bc13ce9, 0xf5b158db, 0x2f35d494, 0x00000000, 7, 0x698098d8, 0xb5b5d8dd, 0x3893b991);
    Turned(F, 0x2f35d494, 0x3893b991, 0x9bc13ce9, 0xf5b158db, 0x00000000, 12, 0x8b44f7af, 0xdda178cb, 0xfce4a312);
    Turned(F, 0xf5b158db, 0xfce4a312, 0x3893b991, 0x9bc13ce9, 0x00000000, 17, 0xffff5bb1, 0x3b81bdf9, 0xe1ef0576);
    Turned(F, 0x9bc13ce9, 0xe1ef0576, 0xfce4a312, 0x3893b991, 0x00000000, 22, 0x895cd7be, 0xf8f4b993, 0x70768a29);
    var r3 := Registers(0x3893b991, 0x70768a29, 0xe1ef0576, 0xfce4a312);
    Turned(F, 0x3893b991, 0x70768a29, 0xe1ef0576, 0xfce4a312, 0x00000000, 7, 0x6b901122, 0xece62132, 0xf56c7cf1);
    Turned(F, 0xfce4a312, 0xf56c7cf1, 0x70768a29, 0xe1ef0576, 0x00000000, 12, 0xfd987193, 0x70e70927, 0x374943a7);
    Turned(F, 0xe1ef0576, 0x374943a7, 0xf56c7cf1, 0x70768a29, 0x00000000, 17, 0xa679438e, 0x757ec8a9, 0x5aa53f75);
    Turned(F, 0x70768a29, 0x5aa53f75, 0x374943a7, 0xf56c7cf1, 0x00000000, 22, 0x49b40821, 0xb74943a5, 0xd6819c6a);
    var r4 := Registers(0xf56c7cf1, 0xd6819c6a, 0x5aa53f75, 0x374943a7);
    OpsAreFour(F, r0, x, 0, [0, 1, 2, 3], SHIFTS[0], T[0]);
    OpsAreFour(F, r1, x, 1, [4, 5, 6, 7], SHIFTS[0], T[1]);
    OpsAreFour(F, r2, x, 2, [8, 9, 10, 11], SHIFTS[0], T[2]);
    OpsAreFour(F, r3, x, 3, [12, 13, 14, 15], SHIFTS[0], T[3]);
    FourFours(r0, x, 0, r1, r2, r3, r4);
  }

  lemma EmptyRound2(x: seq<Word>)
    requires IsShort(x, 0x00000080, 0x00000000)
    ensures |x| == 16
    ensures Sixteen(Registers(0xf56c7cf1, 0xd6819c6a, 0x5aa53f75, 0x374943a7), x, 16)
         == Registers(0x13707036, 0xa2205f1f, 0x1c31c384, 0xae7813db)
  {
    hide Turn, Step, Four, Sixteen, IsShort, INDEX, T, SHIFTS;
    Rows2();
    ShortWords(x, 0x00000080, 0x00000000);
    var r0 := Registers(0xf56c7cf1, 0xd6819c6a, 0x5aa53f75, 0x374943a7);
    Turned(G, 0xf56c7cf1, 0xd6819c6a, 0x5aa53f75, 0x374943a7, 0x00000000, 5, 0xf61e2562, 0x5ea53c72, 0x1c7d7513);
    Turned(G, 0x374943a7, 0x1c7d7513, 0xd6819c6a, 0x5aa53f75, 0x00000000, 9, 0xc040b340, 0x9c25b51b, 0x7bd57a3a);
    Turned(G, 0x5aa53f75, 0x7bd57a3a, 0x1c7d7513, 0xd6819c6a, 0x00000000, 14, 0x265e5a51, 0x5afd793b, 0xc095f13a);
    Turned(G, 0xd6819c6a, 0xc095f13a, 0x7bd57a3a, 0x1c7d7513, 0x00000080, 20, 0xe9b6c7aa, 0x63957b3a, 0xbd782e17);
    var r1 := Registers(0x1c7d7513, 0xbd782e17, 0xc095f13a, 0x7bd57a3a);
    Turned(G, 0x1c7d7513, 0xbd782e17, 0xc095f13a, 0x7bd57a3a, 0x00000000, 5, 0xd62f105d, 0xb950ab12, 0x3d1e3e6c);
    Turned(G, 0x7bd57a3a, 0x3d1e3e6c, 0xbd782e17, 0xc095f13a, 0x00000000, 9, 0x02441453, 0x3d7c3e2d, 0x68b7b3e3);
    Turned(G, 0xc095f13a, 0x68b7b3e3, 0x3d1e3e6c, 0xbd782e17, 0x00000000, 14, 0xd8a1e681, 0x2836326b, 0xeb41643e);
    Turned(G, 0xbd782e17, 0xeb41643e, 0x68b7b3e3, 0x3d1e3e6c, 0x00000000, 20, 0xe7d3fbc8, 0x69a1a5af, 0xe422531a);
    var r2 := Registers(0x3d1e3e6c, 0xe422531a, 0xeb41643e, 0x68b7b3e3);
    Turned(G, 0x3d1e3e6c, 0xe422531a, 0xeb41643e, 0x68b7b3e3, 0x00000000, 5, 0x21e1cde6, 0xe362571e, 0x306ec122);
    Turned(G, 0x68b7b3e3, 0x306ec122, 0xe422531a, 0xeb41643e, 0x00000000, 9, 0xc33707d6, 0x24625322, 0xd28c77c2);
    Turned(G, 0xeb41643e, 0xd28c77c2, 0x306ec122, 0xe422531a, 0x00000000, 14, 0xf4d50d87, 0xd04cd322, 0xa3c663da);
    Turned(G, 0xe422531a, 0xa3c663da, 0xd28c77c2, 0x306ec122, 0x00000000, 20, 0x455a14ed, 0xe2c677c2, 0xa0572807);
    var r3 := Registers(0x306ec122, 0xa0572807, 0xa3c663da, 0xd28c77c2);
    Turned(G, 0x306ec122, 0xa0572807, 0xa3c663da, 0xd28c77c2, 0x00000000, 5, 0xa9e3e905, 0xa146201a, 0x13707036);
    Turned(G, 0xd28c77c2, 0x13707036, 0xa0572807, 0xa3c663da, 0x00000000, 9, 0xfcefa3f8, 0x03516817, 0xae7813db);
    Turned(G, 0xa3c663da, 0xae7813db, 0x13707036, 0xa0572807, 0x00000000, 14, 0x676f02d9, 0xb3705033, 0x1c31c384);
    Turned(G, 0xa0572807, 0x1c31c384, 0xae7813db, 0x13707036, 0x00000000, 20, 0x8d2a4c8a, 0xbc3843cd, 0xa2205f1f);
    var r4 := Registers(0x13707036, 0xa2205f1f, 0x1c31c384, 0xae7813db);
    OpsAreFour(G, r0, x, 4, [1, 6, 11, 0], SHIFTS[1], T[4]);
    OpsAreFour(G, r1, x, 5, [5, 10, 15, 4], SHIFTS[1], T[5]);
    OpsAreFour(G, r2, x, 6, [9, 14, 3, 8], SHIFTS[1], T[6]);
    OpsAreFour(G, r3, x, 7, [13, 2, 7, 12], SHIFTS[1], T[7]);
    FourFours(r0, x, 16, r1, r2, r3, r4);
  }

  lemma EmptyRound3(x: seq<Word>)
    requires IsShort(x, 0x00000080, 0x00000000)
    ensures |x| == 16
    ensures Sixteen(Registers(0x13707036, 0xa2205f1f, 0x1c31c384, 0xae7813db), x, 32)
         == Registers(0x3f55edfd, 0xca7d2dbd, 0x68d84ea2, 0x22a31f54)
  {
    hide Turn, Step, Four, Sixteen, IsShort, INDEX, T, SHIFTS;
    Rows3();
    ShortWords(x, 0x00000080, 0x00000000);
    var r0 := Registers(0x13707036, 0xa2205f1f, 0x1c31c384, 0xae7813db);
    Turned(H, 0x13707036, 0xa2205f1f, 0x1c31c384, 0xae7813db, 0x00000000, 4, 0xfffa3942, 0x10698f40, 0xdf63eaa1);
    Turned(H, 0xae7813db, 0xdf63eaa1, 0xa2205f1f, 0x1c31c384, 0x00000000, 11, 0x8771f681, 0x6172763a, 0xc3689f5b);
    Turned(H, 0x1c31c384, 0xc3689f5b, 0xdf63eaa1, 0xa2205f1f, 0x00000000, 16, 0x6d9d6122, 0xbe2b2ae5, 0x12f3e755);
    Turned(H, 0xa2205f1f, 0x12f3e755, 0xc3689f5b, 0xdf63eaa1, 0x00000000, 23, 0xfde5380c, 0x0ef892af, 0x004b6669);
    var r1 := Registers(0xdf63eaa1, 0x004b6669, 0x12f3e755, 0xc3689f5b);
    Turned(H, 0xdf63eaa1, 0x004b6669, 0x12f3e755, 0xc3689f5b, 0x00000000, 4, 0xa4beea44, 0xd1d01e67, 0x5f7a9b2e);
    Turned(H, 0xc3689f5b, 0x5f7a9b2e, 0x004b6669, 0x12f3e755, 0x00000000, 11, 0x4bdecfa9, 0x4dc21a12, 0xabc34e16);
    Turned(H, 0x12f3e755, 0xabc34e16, 0x5f7a9b2e, 0x004b6669, 0x00000000, 16, 0xf6bb4b60, 0xf4f2b351, 0x91ca4cb7);
    Turned(H, 0x004b6669, 0x91ca4cb7, 0xabc34e16, 0x5f7a9b2e, 0x00000000, 23, 0xbebfbc70, 0x6573998f, 0xc5dc8c15);
    var r2 := Registers(0x5f7a9b2e, 0xc5dc8c15, 0x91ca4cb7, 0xabc34e16);
    Turned(H, 0x5f7a9b2e, 0xc5dc8c15, 0x91ca4cb7, 0xabc34e16, 0x00000000, 4, 0x289b7ec6, 0xffd58eb4, 0x4497169d);
    Turned(H, 0xabc34e16, 0x4497169d, 0xc5dc8c15, 0x91ca4cb7, 0x00000080, 11, 0xeaa127fa, 0x1081d63f, 0x76fd93d4);
    Turned(H, 0x91ca4cb7, 0x76fd93d4, 0x4497169d, 0xc5dc8c15, 0x00000000, 16, 0xd4ef3085, 0xf7b6095c, 0xfd95f243);
    Turned(H, 0xc5dc8c15, 0xfd95f243, 0x76fd93d4, 0x4497169d, 0x00000000, 23, 0x04881d05, 0xcfff770a, 0x0fe32453);
    var r3 := Registers(0x4497169d, 0x0fe32453, 0xfd95f243, 0x76fd93d4);
    Turned(H, 0x4497169d, 0x0fe32453, 0xfd95f243, 0x76fd93d4, 0x00000000, 4, 0xd9d4d039, 0x848b45c4, 0x3f55edfd);
    Turned(H, 0x76fd93d4, 0x3f55edfd, 0x0fe32453, 0xfd95f243, 0x00000000, 11, 0xe6db99e5, 0xcd233bed, 0x22a31f54);
    Turned(H, 0xfd95f243, 0x22a31f54, 0x3f55edfd, 0x0fe32453, 0x00000000, 16, 0x1fa27cf8, 0x1215d6fa, 0x68d84ea2);
    Turned(H, 0x0fe32453, 0x68d84ea2, 0x22a31f54, 0x3f55edfd, 0x00000000, 23, 0xc4ac5665, 0x752ebc0b, 0xca7d2dbd);
    var r4 := Registers(0x3f55edfd, 0xca7d2dbd, 0x68d84ea2, 0x22a31f54);
    OpsAreFour(H, r0, x, 8, [5, 8, 11, 14], SHIFTS[2], T[8]);
    OpsAreFour(H, r1, x, 9, [1, 4, 7, 10], SHIFTS[2], T[9]);
    OpsAreFour(H, r2, x, 10, [13, 0, 3, 6], SHIFTS[2], T[10]);
    OpsAreFour(H, r3, x, 11, [9, 12, 15, 2], SHIFTS[2], T[11]);
    FourFours(r0, x, 32, r1, r2, r3, r4);
  }

  lemma EmptyRound4(x: seq<Word>)
    requires IsShort(x, 0x00000080, 0x00000000)
    ensures |x| == 16
    ensures Sixteen(Registers(0x3f55edfd, 0xca7d2dbd, 0x68d84ea2, 0x22a31f54), x, 48)
         == Registers(0x7246fad3, 0x14e45506, 0xff4ea3eb, 0x6e10a476)
  {
    hide Turn, Step, Four, Sixteen, IsShort, INDEX, T, SHIFTS;
    Rows4();
    ShortWords(x, 0x00000080, 0x00000000);
    var r0 := Registers(0x3f55edfd, 0xca7d2dbd, 0x68d84ea2, 0x22a31f54);
    Turned(I, 0x3f55edfd, 0xca7d2dbd, 0x68d84ea2, 0x22a31f54, 0x00000080, 6, 0xf4292244, 0xb7a5a31d, 0x93aa2577);
    Turned(I, 0x22a31f54, 0x93aa2577, 0xca7d2dbd, 0x68d84ea2, 0x00000000, 10, 0x432aff97, 0x5dd298c2, 0x1688dc85);
    Turned(I, 0x68d84ea2, 0x1688dc85, 0x93aa2577, 0xca7d2dbd, 0x00000000, 15, 0xab9423a7, 0xa420fbb0, 0xcd85b8cb);
    Turned(I, 0xca7d2dbd, 0xcd85b8cb, 0x1688dc85, 0x93aa2577, 0x00000000, 21, 0xfc93a039, 0xfb5d264e, 0x561e0689);
    var r1 := Registers(0x93aa2577, 0x561e0689, 0xcd85b8cb, 0x1688dc85);
    Turned(I, 0x93aa2577, 0x561e0689, 0xcd85b8cb, 0x1688dc85, 0x00000000, 6, 0x655b59c3, 0x32fa9f30, 0x5625a114);
    Turned(I, 0x1688dc85, 0x5625a114, 0x561e0689, 0xcd85b8cb, 0x00000000, 10, 0x8f0ccc92, 0x2061e1bd, 0x3450f42b);
    Turned(I, 0xcd85b8cb, 0x3450f42b, 0x5625a114, 0x561e0689, 0x00000000, 15, 0xffeff47d, 0xebd45c6b, 0x392ad0d0);
    Turned(I, 0x561e0689, 0x392ad0d0, 0x3450f42b, 0x5625a114, 0x00000000, 21, 0x85845dd1, 0x8daa2ad0, 0x1e77fa61);
    var r2 := Registers(0x5625a114, 0x1e77fa61, 0x392ad0d0, 0x3450f42b);
    Turned(I, 0x5625a114, 0x1e77fa61, 0x392ad0d0, 0x3450f42b, 0x00000000, 6, 0x6fa87e4f, 0xe6d52b25, 0x474a9c8c);
    Turned(I, 0x3450f42b, 0x474a9c8c, 0x1e77fa61, 0x392ad0d0, 0x00000000, 10, 0xfe2ce6e0, 0xd9a845ce, 0xdfce00bc);
    Turned(I, 0x392ad0d0, 0xdfce00bc, 0x474a9c8c, 0x1e77fa61, 0x00000000, 15, 0xa3014314, 0xb8849932, 0x36594b14);
    Turned(I, 0x1e77fa61, 0x36594b14, 0xdfce00bc, 0x474a9c8c, 0x00000000, 21, 0x4e0811a1, 0x61336bcb, 0x30130182);
    var r3 := Registers(0x474a9c8c, 0x30130182, 0x36594b14, 0xdfce00bc);
    Turned(I, 0x474a9c8c, 0x30130182, 0x36594b14, 0xdfce00bc, 0x00000000, 6, 0xf7537e82, 0x066ab4d7, 0x7246fad3);
    Turned(I, 0xdfce00bc, 0x7246fad3, 0x30130182, 0x36594b14, 0x00000000, 10, 0xbd3af235, 0xcbf5ff79, 0x6e10a476);
    Turned(I, 0x36594b14, 0x6e10a476, 0x7246fad3, 0x30130182, 0x00000000, 15, 0x2ad7d2bb, 0x9dba04ac, 0xff4ea3eb);
    Turned(I, 0x30130182, 0xff4ea3eb, 0x6e10a476, 0x7246fad3, 0x00000000, 21, 0xeb86d391, 0x91ef0399, 0x14e45506);
    var r4 := Registers(0x7246fad3, 0x14e45506, 0xff4ea3eb, 0x6e10a476);
    OpsAreFour(I, r0, x, 12, [0, 7, 14, 5], SHIFTS[3], T[12]);
    OpsAreFour(I, r1, x, 13, [12, 3, 10, 1], SHIFTS[3], T[13]);
    OpsAreFour(I, r2, x, 14, [8, 15, 6, 13], SHIFTS[3], T[14]);
    OpsAreFour(I, r3, x, 15, [4, 11, 2, 9], SHIFTS[3], T[15]);
    FourFours(r0, x, 48, r1, r2, r3, r4);
  }

  lemma EmptyBlock(x: seq<Word>)
    requires IsShort(x, 0x00000080, 0x00000000)
    ensures Block(Md5Spec.START, x) == Registers(0xd98c1dd4, 0x04b2008f, 0x980980e9, 0x7e42f8ec)
  {
    hide Steps, Sixteen;
    EmptyRound1(x);
    EmptyRound2(x);
    EmptyRound3(x);
    EmptyRound4(x);
    SixtyFourSteps(Md5Spec.START, x);
  }

  lemma EmptyIsShort()
    ensures |Padded([])| == 64 && IsShort(WordsOf(Padded([])), 0x00000080, 0x00000000)
  {
    LengthOfEmpty();
    hide LengthBytes;
    var block := Padded([]);
    assert block[..0] == [] && block[0] == 0x80;
    assert forall i :: 1 <= i < 56 ==> block[i] == 0;
    assert block[56..] == LengthBytes(0);
    assert forall i :: 56 <= i < 64 ==> block[i] == LengthBytes(0)[i - 56];
  }

  lemma LengthOfEmpty()
    ensures LengthBytes(0) == [0, 0, 0, 0, 0, 0, 0, 0]
  {
    ZerosLittle(1);
    ZerosLittle(7);
    assert 8 * 0 % TWO_64 == 0;
    assert LittleEndian(0, 8) == [0] + LittleEndian(0, 7);
    hide LittleEndian;
  }

  lemma EmptyBytes()
    ensures BytesOf(0xd98c1dd4) == [0xd4, 0x1d, 0x8c, 0xd9]
    ensures BytesOf(0x04b2008f) == [0x8f, 0x00, 0xb2, 0x04]
    ensures BytesOf(0x980980e9) == [0xe9, 0x80, 0x09, 0x98]
    ensures BytesOf(0x7e42f8ec) == [0xec, 0xf8, 0x42, 0x7e]
  {
  }

  lemma EmptyDigest()
    ensures Digest([])
         == [0xd4, 0x1d, 0x8c, 0xd9, 0x8f, 0x00, 0xb2, 0x04, 0xe9, 0x80, 0x09, 0x98, 0xec, 0xf8, 0x42, 0x7e]
  {
    EmptyIsShort();
    EmptyBytes();
    hide Digest, BytesOf, Block, Padded, WordsOf;
    EmptyBlock(WordsOf(Padded([])));
    ShortDigest([], 0xd98c1dd4, 0x04b2008f, 0x980980e9, 0x7e42f8ec);
  }

  // ----- "abc" -----

  lemma AbcRound1(x: seq<Word>)
    requires IsShort(x, 0x80636261, 0x00000018)
    ensures |x| == 16
    ensures Sixteen(Registers(0x67452301, 0xefcdab89, 0x98badcfe, 0x10325476), x, 0)
         == Registers(0xdda9b9a6, 0x72aff2e0, 0xe396856b, 0xa1051895)
  {
    hide Turn, Step, Four, Sixteen, IsShort, INDEX, T, SHIFTS;
    Rows1();
    ShortWords(x, 0x80636261, 0x00000018);
    var r0 := Registers(0x67452301, 0xefcdab89, 0x98badcfe, 0x10325476);
    Turned(F, 0x67452301, 0xefcdab89, 0x98badcfe, 0x10325476, 0x80636261, 7, 0xd76aa478, 0x98badcfe, 0xd6d117b4);
    Turned(F, 0x10325476, 0xd6d117b4, 0xefcdab89, 0x98badcfe, 0x00000000, 12, 0xe8c7b756, 0xceebcbca, 0x344a8432);
    Turned(F, 0x98badcfe, 0x344a8432, 0xd6d117b4, 0xefcdab89, 0x00000000, 17, 0x242070db, 0xdfc52fb9, 0x2f6fbd72);
    Turned(F, 0xefcdab89, 0x2f6fbd72, 0x344a8432, 0xd6d117b4, 0x00000000, 22, 0xc1bdceee, 0xf4da86b6, 0x7ad956f2);
    var r1 := Registers(0xd6d117b4, 0x7ad956f2, 0x2f6fbd72, 0x344a8432);
    Turned(F, 0xd6d117b4, 0x7ad956f2, 0x2f6fbd72, 0x344a8432, 0x00000000, 7, 0xf57c0faf, 0x2e4b9472, 0xc73741ef);
    Turned(F, 0x344a8432, 0xc73741ef, 0x7ad956f2, 0x2f6fbd72, 0x00000000, 12, 0x4787c62a, 0x6a59fcf2, 0x8bac3051);
    Turned(F, 0x2f6fbd72, 0x8bac3051, 0xc73741ef, 0x7ad956f2, 0x00000000, 17, 0xa8304613, 0xf37546e3, 0x207dc67b);
    Turned(F, 0x7ad956f2, 0x207dc67b, 0x8bac3051, 0xc73741ef, 0x00000000, 22, 0xfd469501, 0xc72e01d5, 0x928d99f6);
    var r2 := Registers(0xc73741ef, 0x928d99f6, 0x207dc67b, 0x8bac3051);
    Turned(F, 0xc73741ef, 0x928d99f6, 0x207dc67b, 0x8bac3051, 0x00000000, 7, 0x698098d8, 0x092da073, 0x854b3712);
    Turned(F, 0x8bac3051, 0x854b3712, 0x928d99f6, 0x207dc67b, 0x00000000, 12, 0x8b44f7af, 0xa03dd17b, 0x74e2f284);
    Turned(F, 0x207dc67b, 0x74e2f284, 0x854b3712, 0x928d99f6, 0x00000000, 17, 0xffff5bb1, 0x864f3b72, 0x3020401c);
    Turned(F, 0x928d99f6, 0x3020401c, 0x74e2f284, 0x854b3712, 0x00000000, 22, 0x895cd7be, 0xb56b7706, 0x5ed49596);
    var r3 := Registers(0x854b3712, 0x5ed49596, 0x3020401c, 0x74e2f284);
    Turned(F, 0x854b3712, 0x5ed49596, 0x3020401c, 0x74e2f284, 0x00000000, 7, 0x6b901122, 0x30226214, 0xdda9b9a6);
    Turned(F, 0x74e2f284, 0xdda9b9a6, 0x5ed49596, 0x3020401c, 0x00000000, 12, 0xfd987193, 0x7c80d19e, 0xa1051895);
    Turned(F, 0x3020401c, 0xa1051895, 0xdda9b9a6, 0x5ed49596, 0x00000018, 17, 0xa679438e, 0xdfd19d86, 0xe396856b);
    Turned(F, 0x5ed49596, 0xe396856b, 0xa1051895, 0xdda9b9a6, 0x00000000, 22, 0x49b40821, 0xbd2d3885, 0x72aff2e0);
    var r4 := Registers(0xdda9b9a6, 0x72aff2e0, 0xe396856b, 0xa1051895);
    OpsAreFour(F, r0, x, 0, [0, 1, 2, 3], SHIFTS[0], T[0]);
    OpsAreFour(F, r1, x, 1, [4, 5, 6, 7], SHIFTS[0], T[1]);
    OpsAreFour(F, r2, x, 2, [8, 9, 10, 11], SHIFTS[0], T[2]);
    OpsAreFour(F, r3, x, 3, [12, 13, 14, 15], SHIFTS[0], T[3]);
    FourFours(r0, x, 0, r1, r2, r3, r4);
  }

  lemma AbcRound2(x: seq<Word>)
    requires IsShort(x, 0x80636261, 0x00000018)
    ensures |x| == 16
    ensures Sixteen(Registers(0xdda9b9a6, 0x72aff2e0, 0xe396856b, 0xa1051895), x, 16)
         == Registers(0x790a77fb, 0x726342d3, 0xa62884aa, 0x9f47e4f8)
  {
    hide Turn, Step, Four, Sixteen, IsShort, INDEX, T, SHIFTS;
    Rows2();
    ShortWords(x, 0x80636261, 0x00000018);
    var r0 := Registers(0xdda9b9a6, 0x72aff2e0, 0xe396856b, 0xa1051895);
    Turned(G, 0xdda9b9a6, 0x72aff2e0, 0xe396856b, 0xa1051895, 0x00000000, 5, 0xf61e2562, 0x629795ea, 0x3e9e9126);
    Turned(G, 0xa1051895, 0x3e9e9126, 0x72aff2e0, 0xe396856b, 0x00000000, 9, 0xc040b340, 0x32bff3a2, 0x4a1d804e);
    Turned(G, 0xe396856b, 0x4a1d804e, 0x3e9e9126, 0x72aff2e0, 0x00000000, 14, 0x265e5a51, 0x4e1d8146, 0xe25e1652);
    Turned(G, 0x72aff2e0, 0xe25e1652, 0x4a1d804e, 0x3e9e9126, 0x80636261, 20, 0xe9b6c7aa, 0x621f104a, 0xb5b204e4);
    var r1 := Registers(0x3e9e9126, 0xb5b204e4, 0xe25e1652, 0x4a1d804e);
    Turned(G, 0x3e9e9126, 0xb5b204e4, 0xe25e1652, 0x4a1d804e, 0x00000000, 5, 0xd62f105d, 0xa0521654, 0x59a8ffda);
    Turned(G, 0x4a1d804e, 0x59a8ffda, 0xb5b204e4, 0xe25e1652, 0x00000000, 9, 0x02441453, 0x55a816f6, 0x6d002f1e);
    Turned(G, 0xe25e1652, 0x6d002f1e, 0x59a8ffda, 0xb5b204e4, 0x00000000, 14, 0xd8a1e681, 0x6d08ff1e, 0xabfc7920);
    Turned(G, 0xb5b204e4, 0xabfc7920, 0x6d002f1e, 0x59a8ffda, 0x00000000, 20, 0xe7d3fbc8, 0x2da87904, 0x47092c07);
    var r2 := Registers(0x59a8ffda, 0x47092c07, 0xabfc7920, 0x6d002f1e);
    Turned(G, 0x59a8ffda, 0x47092c07, 0xabfc7920, 0x6d002f1e, 0x00000000, 5, 0x21e1cde6, 0xc7fc7c26, 0xb7f268cf);
    Turned(G, 0x6d002f1e, 0xb7f268cf, 0x47092c07, 0xabfc7920, 0x00000018, 9, 0xc33707d6, 0xe7f16c07, 0x09388eff);
    Turned(G, 0xabfc7920, 0x09388eff, 0xb7f268cf, 0x47092c07, 0x00000000, 14, 0xf4d50d87, 0xb1fa4ccf, 0xfe1623b1);
    Turned(G, 0x47092c07, 0xfe1623b1, 0x09388eff, 0xb7f268cf, 0x00000000, 20, 0x455a14ed, 0xbe1aa6b1, 0x786acb8f);
    var r3 := Registers(0xb7f268cf, 0x786acb8f, 0xfe1623b1, 0x09388eff);
    Turned(G, 0xb7f268cf, 0x786acb8f, 0xfe1623b1, 0x09388eff, 0x00000000, 5, 0xa9e3e905, 0xfe2eab8f, 0x790a77fb);
    Turned(G, 0x09388eff, 0x790a77fb, 0x786acb8f, 0xfe1623b1, 0x00000000, 9, 0xfcefa3f8, 0x786aebbf, 0x9f47e4f8);
    Turned(G, 0xfe1623b1, 0x9f47e4f8, 0x790a77fb, 0x786acb8f, 0x00000000, 14, 0x676f02d9, 0x1942f4f8, 0xa62884aa);
    Turned(G, 0x786acb8f, 0xa62884aa, 0x9f47e4f8, 0x790a77fb, 0x00000000, 20, 0x8d2a4c8a, 0xa64d84aa, 0x726342d3);
    var r4 := Registers(0x790a77fb, 0x726342d3, 0xa62884aa, 0x9f47e4f8);
    OpsAreFour(G, r0, x, 4, [1, 6, 11, 0], SHIFTS[1], T[4]);
    OpsAreFour(G, r1, x, 5, [5, 10, 15, 4], SHIFTS[1], T[5]);
    OpsAreFour(G, r2, x, 6, [9, 14, 3, 8], SHIFTS[1], T[6]);
    OpsAreFour(G, r3, x, 7, [13, 2, 7, 12], SHIFTS[1], T[7]);
    FourFours(r0, x, 16, r1, r2, r3, r4);
  }

  lemma AbcRound3(x: seq<Word>)
    requires IsShort(x, 0x80636261, 0x00000018)
    ensures |x| == 16
    ensures Sixteen(Registers(0x790a77fb, 0x726342d3, 0xa62884aa, 0x9f47e4f8), x, 32)
         == Registers(0x7f2e507b, 0x7beb9700, 0x8fae6399, 0x99d9679d)
  {
    hide Turn, Step, Four, Sixteen, IsShort, INDEX, T, SHIFTS;
    Rows3();
    ShortWords(x, 0x80636261, 0x00000018);
    var r0 := Registers(0x790a77fb, 0x726342d3, 0xa62884aa, 0x9f47e4f8);
    Turned(H, 0x790a77fb, 0x726342d3, 0xa62884aa, 0x9f47e4f8, 0x00000000, 4, 0xfffa3942, 0x4b0c2281, 0xb3707ebf);
    Turned(H, 0x9f47e4f8, 0xb3707ebf, 0x726342d3, 0xa62884aa, 0x00000000, 11, 0x8771f681, 0x673bb8c6, 0x60127b2e);
    Turned(H, 0xa62884aa, 0x60127b2e, 0xb3707ebf, 0x726342d3, 0x00000000, 16, 0x6d9d6122, 0xa1014742, 0x8d212ff5);
    Turned(H, 0x726342d3, 0x8d212ff5, 0x60127b2e, 0xb3707ebf, 0x00000018, 23, 0xfde5380c, 0x5e432a64, 0x3b0875c7);
    var r1 := Registers(0xb3707ebf, 0x3b0875c7, 0x8d212ff5, 0x60127b2e);
    Turned(H, 0xb3707ebf, 0x3b0875c7, 0x8d212ff5, 0x60127b2e, 0x00000000, 4, 0xa4beea44, 0xd63b211c, 0x21b117b9);
    Turned(H, 0x60127b2e, 0x21b117b9, 0x3b0875c7, 0x8d212ff5, 0x00000000, 11, 0x4bdecfa9, 0x97984d8b, 0x6e7429d5);
    Turned(H, 0x8d212ff5, 0x6e7429d5, 0x21b117b9, 0x3b0875c7, 0x00000000, 16, 0xf6bb4b60, 0x74cd4bab, 0x3575227e);
    Turned(H, 0x3b0875c7, 0x3575227e, 0x6e7429d5, 0x21b117b9, 0x00000000, 23, 0xbebfbc70, 0x7ab01c12, 0x5a2f5ea5);
    var r2 := Registers(0x21b117b9, 0x5a2f5ea5, 0x3575227e, 0x6e7429d5);
    Turned(H, 0x21b117b9, 0x5a2f5ea5, 0x3575227e, 0x6e7429d5, 0x00000000, 4, 0x289b7ec6, 0x012e550e, 0x11de1779);
    Turned(H, 0x6e7429d5, 0x11de1779, 0x5a2f5ea5, 0x3575227e, 0x80636261, 11, 0xeaa127fa, 0x7e846ba2, 0xfadcaa38);
    Turned(H, 0x3575227e, 0xfadcaa38, 0x11de1779, 0x5a2f5ea5, 0x00000000, 16, 0xd4ef3085, 0xb12de3e4, 0x31c465ca);
    Turned(H, 0x5a2f5ea5, 0x31c465ca, 0xfadcaa38, 0x11de1779, 0x00000000, 23, 0x04881d05, 0xdac6d88b, 0x4c6124f4);
    var r3 := Registers(0x11de1779, 0x4c6124f4, 0x31c465ca, 0xfadcaa38);
    Turned(H, 0x11de1779, 0x4c6124f4, 0x31c465ca, 0xfadcaa38, 0x00000000, 4, 0xd9d4d039, 0x8779eb06, 0x7f2e507b);
    Turned(H, 0xfadcaa38, 0x7f2e507b, 0x4c6124f4, 0x31c465ca, 0x00000000, 11, 0xe6db99e5, 0x028b1145, 0x99d9679d);
    Turned(H, 0x31c465ca, 0x99d9679d, 0x7f2e507b, 0x4c6124f4, 0x00000000, 16, 0x1fa27cf8, 0xaa961312, 0x8fae6399);
    Turned(H, 0x4c6124f4, 0x8fae6399, 0x99d9679d, 0x7f2e507b, 0x00000000, 23, 0xc4ac5665, 0x6959547f, 0x7beb9700);
    var r4 := Registers(0x7f2e507b, 0x7beb9700, 0x8fae6399, 0x99d9679d);
    OpsAreFour(H, r0, x, 8, [5, 8, 11, 14], SHIFTS[2], T[8]);
    OpsAreFour(H, r1, x, 9, [1, 4, 7, 10], SHIFTS[2], T[9]);
    OpsAreFour(H, r2, x, 10, [13, 0, 3, 6], SHIFTS[2], T[10]);
    OpsAreFour(H, r3, x, 11, [9, 12, 15, 2], SHIFTS[2], T[11]);
    FourFours(r0, x, 32, r1, r2, r3, r4);
  }

  lemma AbcRound4(x: seq<Word>)
    requires IsShort(x, 0x80636261, 0x00000018)
    ensures |x| == 16
    ensures Sixteen(Registers(0x7f2e507b, 0x7beb9700, 0x8fae6399, 0x99d9679d), x, 48)
         == Registers(0x310ade8f, 0xc08226b3, 0xe484b9d8, 0x624d8cb2)
  {
    hide Turn, Step, Four, Sixteen, IsShort, INDEX, T, SHIFTS;
    Rows4();
    ShortWords(x, 0x80636261, 0x00000018);
    var r0 := Registers(0x7f2e507b, 0x7beb9700, 0x8fae6399, 0x99d9679d);
    Turned(I, 0x7f2e507b, 0x7beb9700, 0x8fae6399, 0x99d9679d, 0x80636261, 6, 0xf4292244, 0xf041fcfb, 0x7b201df8);
    Turned(I, 0x99d9679d, 0x7b201df8, 0x7beb9700, 0x8fae6399, 0x00000000, 10, 0x432aff97, 0x009a0afe, 0xf4e8e96e);
    Turned(I, 0x8fae6399, 0xf4e8e96e, 0x7b201df8, 0x7beb9700, 0x00000018, 15, 0xab9423a7, 0x8fdcf407, 0xb298cefd);
    Turned(I, 0x7beb9700, 0xb298cefd, 0xf4e8e96e, 0x7b201df8, 0x00000000, 21, 0xfc93a039, 0x42370791, 0x8bf025c4);
    var r1 := Registers(0x7b201df8, 0x8bf025c4, 0xb298cefd, 0xf4e8e96e);
    Turned(I, 0x7b201df8, 0x8bf025c4, 0xb298cefd, 0xf4e8e96e, 0x00000000, 6, 0x655b59c3, 0x396ff928, 0x06cc5e8a);
    Turned(I, 0xf4e8e96e, 0x06cc5e8a, 0x8bf025c4, 0xb298cefd, 0x00000000, 10, 0x8f0ccc92, 0xc41f5a4e, 0x5b0d97aa);
    Turned(I, 0xb298cefd, 0x5b0d97aa, 0x06cc5e8a, 0x8bf025c4, 0x00000000, 15, 0xffeff47d, 0x79c38131, 0x7d632dd0);
    Turned(I, 0x8bf025c4, 0x7d632dd0, 0x5b0d97aa, 0x06cc5e8a, 0x00000000, 21, 0x85845dd1, 0xa67e3a5f, 0x3bfa2c27);
    var r2 := Registers(0x06cc5e8a, 0x3bfa2c27, 0x7d632dd0, 0x5b0d97aa);
    Turned(I, 0x06cc5e8a, 0x3bfa2c27, 0x7d632dd0, 0x5b0d97aa, 0x00000000, 6, 0x6fa87e4f, 0xc29941a7, 0x7f81cc35);
    Turned(I, 0x5b0d97aa, 0x7f81cc35, 0x3bfa2c27, 0x7d632dd0, 0x00000000, 10, 0xfe2ce6e0, 0xc467f218, 0x094454ab);
    Turned(I, 0x7d632dd0, 0x094454ab, 0x7f81cc35, 0x3bfa2c27, 0x00000000, 15, 0xa3014314, 0xb2c41bce, 0x4f9dbe3f);
    Turned(I, 0x3bfa2c27, 0x4f9dbe3f, 0x094454ab, 0x7f81cc35, 0x00000000, 21, 0x4e0811a1, 0xc6bbeb54, 0x7327d604);
    var r3 := Registers(0x7f81cc35, 0x7327d604, 0x4f9dbe3f, 0x094454ab);
    Turned(I, 0x7f81cc35, 0x7327d604, 0x4f9dbe3f, 0x094454ab, 0x00000000, 6, 0xf7537e82, 0xb822416b, 0x310ade8f);
    Turned(I, 0x094454ab, 0x310ade8f, 0x7327d604, 0x4f9dbe3f, 0x00000000, 10, 0xbd3af235, 0xc24d09cb, 0x624d8cb2);
    Turned(I, 0x4f9dbe3f, 0x624d8cb2, 0x310ade8f, 0x7327d604, 0x00000000, 15, 0x2ad7d2bb, 0xdfd77374, 0xe484b9d8);
    Turned(I, 0x7327d604, 0xe484b9d8, 0x624d8cb2, 0x310ade8f, 0x00000000, 21, 0xeb86d391, 0x8cb8354a, 0xc08226b3);
    var r4 := Registers(0x310ade8f, 0xc08226b3, 0xe484b9d8, 0x624d8cb2);
    OpsAreFour(I, r0, x, 12, [0, 7, 14, 5], SHIFTS[3], T[12]);
    OpsAreFour(I, r1, x, 13, [12, 3, 10, 1], SHIFTS[3], T[13]);
    OpsAreFour(I, r2, x, 14, [8, 15, 6, 13], SHIFTS[3], T[14]);
    OpsAreFour(I, r3, x, 15, [4, 11, 2, 9], SHIFTS[3], T[15]);
    FourFours(r0, x, 48, r1, r2, r3, r4);
  }

  lemma AbcBlock(x: seq<Word>)
    requires IsShort(x, 0x80636261, 0x00000018)
    ensures Block(Md5Spec.START, x) == Registers(0x98500190, 0xb04fd23c, 0x7d3f96d6, 0x727fe128)
  {
    hide Steps, Sixteen;
    AbcRound1(x);
    AbcRound2(x);
    AbcRound3(x);
    AbcRound4(x);
    SixtyFourSteps(Md5Spec.START, x);
  }

  lemma AbcIsShort()
    ensures |Padded([0x61, 0x62, 0x63])| == 64 && IsShort(WordsOf(Padded([0x61, 0x62, 0x63])), 0x80636261, 0x00000018)
  {
    LengthOfAbc();
    hide LengthBytes;
    var block := Padded([0x61, 0x62, 0x63]);
    assert block[..3] == [0x61, 0x62, 0x63] && block[3] == 0x80;
    assert forall i :: 4 <= i < 56 ==> block[i] == 0;
    assert block[56..] == LengthBytes(3);
    assert forall i :: 56 <= i < 64 ==> block[i] == LengthBytes(3)[i - 56];
  }

  lemma LengthOfAbc()
    ensures LengthBytes(3) == [24, 0, 0, 0, 0, 0, 0, 0]
  {
    ZerosLittle(1);
    ZerosLittle(7);
    assert 8 * 3 % TWO_64 == 24;
    assert LittleEndian(24, 8) == [24] + LittleEndian(0, 7);
    hide LittleEndian;
  }

  lemma AbcBytes()
    ensures BytesOf(0x98500190) == [0x90, 0x01, 0x50, 0x98]
    ensures BytesOf(0xb04fd23c) == [0x3c, 0xd2, 0x4f, 0xb0]
    ensures BytesOf(0x7d3f96d6) == [0xd6, 0x96, 0x3f, 0x7d]
    ensures BytesOf(0x727fe128) == [0x28, 0xe1, 0x7f, 0x72]
  {
  }

  lemma AbcDigest()
    ensures Digest([0x61, 0x62, 0x63])
         == [0x90, 0x01, 0x50, 0x98, 0x3c, 0xd2, 0x4f, 0xb0, 0xd6, 0x96, 0x3f, 0x7d, 0x28, 0xe1, 0x7f, 0x72]
  {
    AbcIsShort();
    AbcBytes();
    hide Digest, BytesOf, Block, Padded, WordsOf;
    AbcBlock(WordsOf(Padded([0x61, 0x62, 0x63])));
    ShortDigest([0x61, 0x62, 0x63], 0x98500190, 0xb04fd23c, 0x7d3f96d6, 0x727fe128);
  }

  // ----- messages and blocks -----

  lemma {:induction false} ZerosLittle(count: nat)
    ensures LittleEndian(0, count) == seq(count, _ => 0)
  {
    if count > 0 {
      ZerosLittle(count - 1);
    }
  }

  /** A message that is shorter than 56 bytes takes one block. */
  lemma OneBlock(message: seq<Byte>)
    requires |message| < 56
    ensures |Padded(message)| == 64
    ensures Blocks(Md5Spec.START, Padded(message)) == Block(Md5Spec.START, WordsOf(Padded(message)))
  {
    PaddingIsLeast(message, 64);
    LastEight(message);
    var padded := Padded(message);
    hide Block, WordsOf, Padded;
    assert padded[..|padded| - 64] == [] && padded[|padded| - 64..] == padded;
    NoBlocks(Md5Spec.START);
  }

  lemma ShortDigest(message: seq<Byte>, a: Word, b: Word, c: Word, d: Word)
    requires |message| < 56 && |Padded(message)| == 64
    requires Block(Md5Spec.START, WordsOf(Padded(message))) == Registers(a, b, c, d)
    ensures Digest(message) == BytesOf(a) + BytesOf(b) + BytesOf(c) + BytesOf(d)
  {
    OneBlock(message);
    hide Block, Blocks, Padded, WordsOf, BytesOf;
  }

  /** Longer messages are digested block after block, each starting from the registers of those before it. */
  lemma {:induction false} BlocksChain(r: Registers, a: seq<Byte>, b: seq<Byte>)
    requires |a| % 64 == 0 && |b| % 64 == 0
    ensures Blocks(r, a + b) == Blocks(Blocks(r, a), b)
    decreases |b|
  {
    hide Block, WordsOf;
    if b == [] {
      assert a + b == a;
    } else {
      var front, last := b[..|b| - 64], b[|b| - 64..];
      assert (a + b)[..|a + b| - 64] == a + front && (a + b)[|a + b| - 64..] == last;
      BlocksChain(r, a, front);
    }
  }
}
