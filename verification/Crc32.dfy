/** The CRC-32 of the ZIP writer: table-driven, and bit by bit. */
module Crc32 {
  import opened Bytes

  type word = bv32

  // The reflected CRC, one bit at a time.

  function BitStep(c: word): word {
    if c & 1 == 1 then 0xedb8_8320 ^ (c >> 1) else c >> 1
  }

  /** `f` applied once for every element of `times`. */
  function Iterate<T>(f: T -> T, x: T, times: seq<nat>): T {
    if times == [] then x else f(Iterate(f, x, times[..|times| - 1]))
  }

  const BITS: seq<nat> := [0, 1, 2, 3, 4, 5, 6, 7]

  function Xor(a: word, b: word): word {
    a ^ b
  }

  function ByteStep(c: word, b: byte): word {
    Iterate(BitStep, Xor(c, b as word), BITS)
  }

  function Shift(c: word, bytes: seq<byte>): word {
    if bytes == [] then c else ByteStep(Shift(c, bytes[..|bytes| - 1]), bytes[|bytes| - 1])
  }

  /** The checksum of a byte string. */
  function Checksum(bytes: seq<byte>): word {
    Xor(Shift(ONES, bytes), ONES)
  }

  // Why a table of 256 entries is enough.

  // Facts about single words.

  lemma ShiftSplits(a: word, b: word)
    ensures (a ^ b) >> 1 == (a >> 1) ^ (b >> 1)
  {
  }

  lemma OddSplits(a: word, b: word)
    ensures (a ^ b) & 1 == 1 <==> (a & 1 == 1) != (b & 1 == 1)
  {
  }

  lemma XorMoves(p: word, x: word, y: word)
    ensures (p ^ x) ^ (p ^ y) == x ^ y && (p ^ x) ^ y == p ^ (x ^ y) && x ^ (p ^ y) == p ^ (x ^ y)
  {
  }

  lemma StepIsLinear(a: word, b: word)
    ensures BitStep(a ^ b) == BitStep(a) ^ BitStep(b)
  {
    ShiftSplits(a, b);
    OddSplits(a, b);
    XorMoves(0xedb8_8320, a >> 1, b >> 1);
  }

  lemma {:induction false} IterateIsLinear<T(!new)>(f: T -> T, plus: (T, T) -> T, x: T, y: T, times: seq<nat>)
    requires forall a, b :: f(plus(a, b)) == plus(f(a), f(b))
    ensures Iterate(f, plus(x, y), times) == plus(Iterate(f, x, times), Iterate(f, y, times))
  {
    if times != [] {
      IterateIsLinear(f, plus, x, y, times[..|times| - 1]);
    }
  }

  lemma StepsAreLinear(a: word, b: word, times: seq<nat>)
    ensures Iterate(BitStep, Xor(a, b), times) == Xor(Iterate(BitStep, a, times), Iterate(BitStep, b, times))
  {
    forall x, y ensures BitStep(Xor(x, y)) == Xor(BitStep(x), BitStep(y)) {
      StepIsLinear(x, y);
    }
    IterateIsLinear(BitStep, Xor, a, b, times);
  }

  /** Eight steps on a value that stays even are eight halvings. */
  lemma EightEvenSteps<T(!new)>(f: T -> T, half: T -> T, even: T -> bool, x: T)
    requires forall c :: even(c) ==> f(c) == half(c)
    requires even(x) && even(half(x)) && even(half(half(x))) && even(half(half(half(x))))
    requires even(half(half(half(half(x))))) && even(half(half(half(half(half(x))))))
    requires even(half(half(half(half(half(half(x))))))) && even(half(half(half(half(half(half(half(x))))))))
    ensures Iterate(f, x, BITS) == half(half(half(half(half(half(half(half(x))))))))
  {
    assert BITS[..7][..6] == BITS[..6] && BITS[..6][..5] == BITS[..5] && BITS[..5][..4] == BITS[..4];
    assert BITS[..4][..3] == BITS[..3] && BITS[..3][..2] == BITS[..2] && BITS[..2][..1] == BITS[..1]
      && BITS[..1][..0] == [];
    assert Iterate(f, x, BITS[..1]) == half(x);
    assert Iterate(f, x, BITS[..2]) == half(half(x));
    assert Iterate(f, x, BITS[..3]) == half(half(half(x)));
    assert Iterate(f, x, BITS[..4]) == half(half(half(half(x))));
    assert Iterate(f, x, BITS[..5]) == half(half(half(half(half(x)))));
    assert Iterate(f, x, BITS[..6]) == half(half(half(half(half(half(x))))));
    assert Iterate(f, x, BITS[..7]) == half(half(half(half(half(half(half(x)))))));
  }

  function Half(c: word): word {
    c >> 1
  }

  predicate Even(c: word) {
    c & 1 == 0
  }

  lemma EvenStep(c: word)
    requires Even(c)
    ensures BitStep(c) == Half(c)
  {
  }

  function High(x: word): word {
    x >> 8
  }

  function Low(x: word): word {
    x & 0xff
  }

  function Rest(x: word): word {
    x & 0xffff_ff00
  }

  lemma Halves(x: word)
    ensures Xor(Rest(x), Low(x)) == x
  {
  }

  lemma RestIsEven(x: word)
    ensures
      var h := Rest(x);
      && Even(h) && Even(Half(h)) && Even(Half(Half(h))) && Even(Half(Half(Half(h))))
      && Even(Half(Half(Half(Half(h))))) && Even(Half(Half(Half(Half(Half(h))))))
      && Even(Half(Half(Half(Half(Half(Half(h))))))) && Even(Half(Half(Half(Half(Half(Half(Half(h))))))))
      && Half(Half(Half(Half(Half(Half(Half(Half(h)))))))) == High(x)
  {
  }

  /** A word without low bits is only shifted. */
  lemma HighOnlyShifts(x: word)
    ensures Iterate(BitStep, Rest(x), BITS) == High(x)
  {
    forall c | Even(c) ensures BitStep(c) == Half(c) {
      EvenStep(c);
    }
    RestIsEven(x);
    EightEvenSteps(BitStep, Half, Even, Rest(x));
  }

  lemma ByTable(x: word)
    ensures Iterate(BitStep, x, BITS) == Xor(High(x), Iterate(BitStep, Low(x), BITS))
  {
    Halves(x);
    StepsAreLinear(Rest(x), Low(x), BITS);
    HighOnlyShifts(x);
  }

  // The code.

  function FromIndex(i: int): word
    requires 0 <= i < 256
  {
    (i as bv8) as word
  }

  function IndexOf(x: word): (i: int)
    ensures 0 <= i < 256
  {
    ((x & 0xff) as bv8) as int
  }

  lemma IndexReadsBack(low: bv8)
    ensures 0 <= low as int < 256 && FromIndex(low as int) == low as word
  {
  }

  lemma LowFits(x: word)
    ensures ((x & 0xff) as bv8) as word == Low(x)
  {
  }

  lemma IndexIsLow(x: word)
    ensures FromIndex(IndexOf(x)) == Low(x)
  {
    IndexReadsBack((x & 0xff) as bv8);
    LowFits(x);
  }

  function Entry(i: int): word
    requires 0 <= i < 256
  {
    Iterate(BitStep, FromIndex(i), BITS)
  }

  predicate IsTable(table: seq<word>) {
    |table| == 256 && forall i :: 0 <= i < 256 ==> table[i] == Entry(i)
  }

  method MakeTable() returns (table: seq<word>)
    ensures IsTable(table)
  {
    table := [];
    for i := 0 to 256
      invariant |table| == i && forall k :: 0 <= k < i ==> table[k] == Entry(k)
    {
      var c := FromIndex(i);
      for j := 0 to 8
        invariant c == Iterate(BitStep, FromIndex(i), BITS[..j])
      {
        c := BitStep(c);
        assert BITS[..j + 1][..j] == BITS[..j];
      }
      assert BITS[..8] == BITS;
      table := table + [c];
    }
  }

  lemma {:induction false} ShiftAppend(c: word, a: seq<byte>, b: seq<byte>)
    ensures Shift(c, a + b) == Shift(Shift(c, a), b)
  {
    if b == [] {
      assert a + b == a;
    } else {
      var last := |b| - 1;
      assert (a + b)[..|a + b| - 1] == a + b[..last];
      ShiftAppend(c, a, b[..last]);
    }
  }

  lemma ByteIsLow(c: word, b: byte)
    ensures High(Xor(c, b as word)) == High(c)
  {
    assert (b as word) >> 8 == 0;
  }

  /** One lookup does the work of eight bit steps. */
  lemma LookupIsByteStep(table: seq<word>, c: word, b: byte)
    requires IsTable(table)
    ensures Xor(High(c), table[IndexOf(Xor(c, b as word))]) == ByteStep(c, b)
  {
    ByTable(Xor(c, b as word));
    IndexIsLow(Xor(c, b as word));
    ByteIsLow(c, b);
  }

  const ONES: word := 0xffff_ffff

  /** For every way of splitting the bytes into parts, the table-driven loop computes the checksum
      of the whole. */
  method ChecksumParts(parts: seq<seq<byte>>) returns (crc: word)
    ensures crc == Checksum(Concat(parts))
  {
    var table := MakeTable();
    crc := ONES;
    for i := 0 to |parts|
      invariant crc == Shift(ONES, Concat(parts[..i]))
    {
      var bytes := parts[i];
      crc := AddPart(table, crc, bytes);
      assert parts[..i + 1][..i] == parts[..i];
      ShiftAppend(ONES, Concat(parts[..i]), bytes);
    }
    assert parts[..|parts|] == parts;
    crc := Xor(crc, ONES);
  }

  method AddPart(table: seq<word>, start: word, bytes: seq<byte>) returns (crc: word)
    requires IsTable(table)
    ensures crc == Shift(start, bytes)
  {
    crc := start;
    for j := 0 to |bytes|
      invariant crc == Shift(start, bytes[..j])
    {
      LookupIsByteStep(table, crc, bytes[j]);
      crc := Xor(High(crc), table[IndexOf(Xor(crc, bytes[j] as word))]);
      assert bytes[..j + 1][..j] == bytes[..j];
    }
    assert bytes[..|bytes|] == bytes;
  }
}
