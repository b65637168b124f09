/** The check value of CRC-32, bit by bit: the checksum of the nine digits "123456789" is 0xcbf43926. */
module Crc32Example {
  import opened Bytes
  import opened Crc32

  lemma EightSteps<T(!new)>(f: T -> T, xs: seq<T>)
    requires |xs| == 9 && forall i :: 0 <= i < 8 ==> f(xs[i]) == xs[i + 1]
    ensures Iterate(f, xs[0], BITS) == xs[8]
  {
    for n := 0 to 8
      invariant Iterate(f, xs[0], BITS[..n]) == xs[n]
    {
      assert BITS[..n + 1][..n] == BITS[..n];
    }
    assert BITS[..8] == BITS;
  }

  const DIGITS: seq<byte> := [0x31, 0x32, 0x33, 0x34, 0x35, 0x36, 0x37, 0x38, 0x39]

  const TRACE0: seq<word> := [
    0xffffffce, 0x7fffffe7, 0xd2477cd3, 0x849b3d49, 0xaff51d84,
    0x57fa8ec2, 0x2bfd4761, 0xf8462090, 0x7c231048
  ]

  lemma Steps0(i: nat)
    requires i < 8
    ensures BitStep(TRACE0[i]) == TRACE0[i + 1]
  {
    match i
    case 0 => case 1 => case 2 => case 3 => case 4 => case 5 => case 6 => case _ =>
  }

  lemma Byte0()
    ensures ByteStep(0xffffffff, 0x31) == 0x7c231048
  {
    forall i | 0 <= i < 8 ensures BitStep(TRACE0[i]) == TRACE0[i + 1] {
      Steps0(i);
    }
    EightSteps(BitStep, TRACE0);
  }

  const TRACE1: seq<word> := [
    0x7c23107a, 0x3e11883d, 0xf2b0473e, 0x7958239f, 0xd11492ef,
    0x8532ca57, 0xaf21e60b, 0xba287025, 0xb0acbb32
  ]

  lemma Steps1(i: nat)
    requires i < 8
    ensures BitStep(TRACE1[i]) == TRACE1[i + 1]
  {
    match i
    case 0 => case 1 => case 2 => case 3 => case 4 => case 5 => case 6 => case _ =>
  }

  lemma Byte1()
    ensures ByteStep(0x7c231048, 0x32) == 0xb0acbb32
  {
    forall i | 0 <= i < 8 ensures BitStep(TRACE1[i]) == TRACE1[i + 1] {
      Steps1(i);
    }
    EightSteps(BitStep, TRACE1);
  }

  const TRACE2: seq<word> := [
    0xb0acbb01, 0xb5eedea0, 0x5af76f50, 0x2d7bb7a8, 0x16bddbd4,
    0x0b5eedea, 0x05af76f5, 0xef6f385a, 0x77b79c2d
  ]

  lemma Steps2(i: nat)
    requires i < 8
    ensures BitStep(TRACE2[i]) == TRACE2[i + 1]
  {
    match i
    case 0 => case 1 => case 2 => case 3 => case 4 => case 5 => case 6 => case _ =>
  }

  lemma Byte2()
    ensures ByteStep(0xb0acbb32, 0x33) == 0x77b79c2d
  {
    forall i | 0 <= i < 8 ensures BitStep(TRACE2[i]) == TRACE2[i + 1] {
      Steps2(i);
    }
    EightSteps(BitStep, TRACE2);
  }

  const TRACE3: seq<word> := [
    0x77b79c19, 0xd6634d2c, 0x6b31a696, 0x3598d34b, 0xf774ea85,
    0x9602f662, 0x4b017b31, 0xc8383eb8, 0x641c1f5c
  ]

  lemma Steps3(i: nat)
    requires i < 8
    ensures BitStep(TRACE3[i]) == TRACE3[i + 1]
  {
    match i
    case 0 => case 1 => case 2 => case 3 => case 4 => case 5 => case 6 => case _ =>
  }

  lemma Byte3()
    ensures ByteStep(0x77b79c2d, 0x34) == 0x641c1f5c
  {
    forall i | 0 <= i < 8 ensures BitStep(TRACE3[i]) == TRACE3[i + 1] {
      Steps3(i);
    }
    EightSteps(BitStep, TRACE3);
  }

  const TRACE4: seq<word> := [
    0x641c1f69, 0xdfb68c94, 0x6fdb464a, 0x37eda325, 0xf64e52b2,
    0x7b272959, 0xd02b178c, 0x68158bc6, 0x340ac5e3
  ]

  lemma Steps4(i: nat)
    requires i < 8
    ensures BitStep(TRACE4[i]) == TRACE4[i + 1]
  {
    match i
    case 0 => case 1 => case 2 => case 3 => case 4 => case 5 => case 6 => case _ =>
  }

  lemma Byte4()
    ensures ByteStep(0x641c1f5c, 0x35) == 0x340ac5e3
  {
    forall i | 0 <= i < 8 ensures BitStep(TRACE4[i]) == TRACE4[i + 1] {
      Steps4(i);
    }
    EightSteps(BitStep, TRACE4);
  }

  const TRACE5: seq<word> := [
    0x340ac5d5, 0xf7bde1ca, 0x7bdef0e5, 0xd057fb52, 0x682bfda9,
    0xd9ad7df4, 0x6cd6befa, 0x366b5f7d, 0xf68d2c9e
  ]

  lemma Steps5(i: nat)
    requires i < 8
    ensures BitStep(TRACE5[i]) == TRACE5[i + 1]
  {
    match i
    case 0 => case 1 => case 2 => case 3 => case 4 => case 5 => case 6 => case _ =>
  }

  lemma Byte5()
    ensures ByteStep(0x340ac5e3, 0x36) == 0xf68d2c9e
  {
    forall i | 0 <= i < 8 ensures BitStep(TRACE5[i]) == TRACE5[i + 1] {
      Steps5(i);
    }
    EightSteps(BitStep, TRACE5);
  }

  const TRACE6: seq<word> := [
    0xf68d2ca9, 0x96fe1574, 0x4b7f0aba, 0x25bf855d, 0xff67418e,
    0x7fb3a0c7, 0xd2615343, 0x84882a81, 0xaffc9660
  ]

  lemma Steps6(i: nat)
    requires i < 8
    ensures BitStep(TRACE6[i]) == TRACE6[i + 1]
  {
    match i
    case 0 => case 1 => case 2 => case 3 => case 4 => case 5 => case 6 => case _ =>
  }

  lemma Byte6()
    ensures ByteStep(0xf68d2c9e, 0x37) == 0xaffc9660
  {
    forall i | 0 <= i < 8 ensures BitStep(TRACE6[i]) == TRACE6[i + 1] {
      Steps6(i);
    }
    EightSteps(BitStep, TRACE6);
  }

  const TRACE7: seq<word> := [
    0xaffc9658, 0x57fe4b2c, 0x2bff2596, 0x15ff92cb, 0xe7474a45,
    0x9e1b2602, 0x4f0d9301, 0xca3e4aa0, 0x651f2550
  ]

  lemma Steps7(i: nat)
    requires i < 8
    ensures BitStep(TRACE7[i]) == TRACE7[i + 1]
  {
    match i
    case 0 => case 1 => case 2 => case 3 => case 4 => case 5 => case 6 => case _ =>
  }

  lemma Byte7()
    ensures ByteStep(0xaffc9660, 0x38) == 0x651f2550
  {
    forall i | 0 <= i < 8 ensures BitStep(TRACE7[i]) == TRACE7[i + 1] {
      Steps7(i);
    }
    EightSteps(BitStep, TRACE7);
  }

  const TRACE8: seq<word> := [
    0x651f2569, 0xdf371194, 0x6f9b88ca, 0x37cdc465, 0xf65e6112,
    0x7b2f3089, 0xd02f1b64, 0x68178db2, 0x340bc6d9
  ]

  lemma Steps8(i: nat)
    requires i < 8
    ensures BitStep(TRACE8[i]) == TRACE8[i + 1]
  {
    match i
    case 0 => case 1 => case 2 => case 3 => case 4 => case 5 => case 6 => case _ =>
  }

  lemma Byte8()
    ensures ByteStep(0x651f2550, 0x39) == 0x340bc6d9
  {
    forall i | 0 <= i < 8 ensures BitStep(TRACE8[i]) == TRACE8[i + 1] {
      Steps8(i);
    }
    EightSteps(BitStep, TRACE8);
  }

  lemma ShiftNext(c: word, n: nat, before: word, b: byte, after: word)
    requires n < 9 && Shift(c, DIGITS[..n]) == before && DIGITS[n] == b && ByteStep(before, b) == after
    ensures Shift(c, DIGITS[..n + 1]) == after
  {
    assert DIGITS[..n + 1][..n] == DIGITS[..n];
  }

  lemma After0(start: word)
    requires Shift(start, DIGITS[..0]) == 0xffffffff
    ensures Shift(start, DIGITS[..1]) == 0x7c231048
  {
    Byte0();
    ShiftNext(start, 0, 0xffffffff, 0x31, 0x7c231048);
  }

  lemma After1(start: word)
    requires Shift(start, DIGITS[..1]) == 0x7c231048
    ensures Shift(start, DIGITS[..2]) == 0xb0acbb32
  {
    Byte1();
    ShiftNext(start, 1, 0x7c231048, 0x32, 0xb0acbb32);
  }

  lemma After2(start: word)
    requires Shift(start, DIGITS[..2]) == 0xb0acbb32
    ensures Shift(start, DIGITS[..3]) == 0x77b79c2d
  {
    Byte2();
    ShiftNext(start, 2, 0xb0acbb32, 0x33, 0x77b79c2d);
  }

  lemma After3(start: word)
    requires Shift(start, DIGITS[..3]) == 0x77b79c2d
    ensures Shift(start, DIGITS[..4]) == 0x641c1f5c
  {
    Byte3();
    ShiftNext(start, 3, 0x77b79c2d, 0x34, 0x641c1f5c);
  }

  lemma After4(start: word)
    requires Shift(start, DIGITS[..4]) == 0x641c1f5c
    ensures Shift(start, DIGITS[..5]) == 0x340ac5e3
  {
    Byte4();
    ShiftNext(start, 4, 0x641c1f5c, 0x35, 0x340ac5e3);
  }

  lemma After5(start: word)
    requires Shift(start, DIGITS[..5]) == 0x340ac5e3
    ensures Shift(start, DIGITS[..6]) == 0xf68d2c9e
  {
    Byte5();
    ShiftNext(start, 5, 0x340ac5e3, 0x36, 0xf68d2c9e);
  }

  lemma After6(start: word)
    requires Shift(start, DIGITS[..6]) == 0xf68d2c9e
    ensures Shift(start, DIGITS[..7]) == 0xaffc9660
  {
    Byte6();
    ShiftNext(start, 6, 0xf68d2c9e, 0x37, 0xaffc9660);
  }

  lemma After7(start: word)
    requires Shift(start, DIGITS[..7]) == 0xaffc9660
    ensures Shift(start, DIGITS[..8]) == 0x651f2550
  {
    Byte7();
    ShiftNext(start, 7, 0xaffc9660, 0x38, 0x651f2550);
  }

  lemma After8(start: word)
    requires Shift(start, DIGITS[..8]) == 0x651f2550
    ensures Shift(start, DIGITS[..9]) == 0x340bc6d9
  {
    Byte8();
    ShiftNext(start, 8, 0x651f2550, 0x39, 0x340bc6d9);
  }

  lemma Shifted(start: word)
    requires start == 0xffff_ffff
    ensures Shift(start, DIGITS[..9]) == 0x340bc6d9
  {
    After0(start);
    After1(start);
    After2(start);
    After3(start);
    After4(start);
    After5(start);
    After6(start);
    After7(start);
    After8(start);
  }

  /** The checksum is the one every CRC-32 has of these digits. */
  lemma CheckValue()
    ensures Checksum(DIGITS) == 0xcbf4_3926
  {
    Shifted(ONES);
    assert DIGITS[..9] == DIGITS;
  }
}
