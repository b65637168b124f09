/** Bytes and fixed-width integers, most or least significant byte first. */
module Bytes {

  newtype byte = x: int | 0 <= x < 256

  /** The parts one after the other. */
  function Concat(parts: seq<seq<byte>>): seq<byte> {
    if parts == [] then [] else Concat(parts[..|parts| - 1]) + parts[|parts| - 1]
  }

  lemma ConcatGrows(ps: seq<seq<byte>>, n: nat)
    requires n < |ps|
    ensures Concat(ps[..n + 1]) == Concat(ps[..n]) + ps[n]
  {
    assert ps[..n + 1][..n] == ps[..n];
  }

  /** The number of values that fit in `width` bytes. */
  function Range(width: nat): (r: nat)
    ensures r > 0
  {
    if width == 0 then 1 else 256 * Range(width - 1)
  }

  function BigEndian(n: nat, width: nat): (s: seq<byte>)
    ensures |s| == width
  {
    if width == 0 then [] else BigEndian(n / 256, width - 1) + [(n % 256) as byte]
  }

  function FromBigEndian(s: seq<byte>): nat {
    if s == [] then 0 else FromBigEndian(s[..|s| - 1]) * 256 + s[|s| - 1] as int
  }

  function LittleEndian(n: nat, width: nat): (s: seq<byte>)
    ensures |s| == width
  {
    if width == 0 then [] else [(n % 256) as byte] + LittleEndian(n / 256, width - 1)
  }

  function FromLittleEndian(s: seq<byte>): nat {
    if s == [] then 0 else s[0] as int + 256 * FromLittleEndian(s[1..])
  }

  lemma {:induction false} BigEndianReadsBack(n: nat, width: nat)
    requires n < Range(width)
    ensures FromBigEndian(BigEndian(n, width)) == n
  {
    if width > 0 {
      BigEndianReadsBack(n / 256, width - 1);
      assert BigEndian(n, width)[..width - 1] == BigEndian(n / 256, width - 1);
    }
  }

  lemma {:induction false} BigEndianWritesBack(s: seq<byte>)
    ensures FromBigEndian(s) < Range(|s|)
    ensures BigEndian(FromBigEndian(s), |s|) == s
  {
    if s != [] {
      var last := |s| - 1;
      var high := FromBigEndian(s[..last]);
      BigEndianWritesBack(s[..last]);
      assert FromBigEndian(s) / 256 == high && FromBigEndian(s) % 256 == s[last] as int;
      assert s == s[..last] + [s[last]];
    }
  }

  lemma {:induction false} LittleEndianReadsBack(n: nat, width: nat)
    requires n < Range(width)
    ensures FromLittleEndian(LittleEndian(n, width)) == n
  {
    if width > 0 {
      LittleEndianReadsBack(n / 256, width - 1);
      assert LittleEndian(n, width)[1..] == LittleEndian(n / 256, width - 1);
    }
  }

  lemma SmallRanges()
    ensures Range(2) == 0x1_0000 && Range(4) == 0x1_0000_0000
    ensures Range(8) == 0x1_0000_0000_0000_0000
  {
    assert Range(1) == 256 && Range(3) == 0x100_0000;
    assert Range(6) == 0x1_0000_0000_0000;
  }

  // Filling a field from its last byte backwards.

  /** `n` without its low `k` bytes. */
  function Shifted(n: nat, k: nat): nat {
    if k == 0 then n else Shifted(n, k - 1) / 256
  }

  /** The low `k` bytes of `n`. */
  function Low(n: nat, k: nat): seq<byte> {
    if k == 0 then [] else [(Shifted(n, k - 1) % 256) as byte] + Low(n, k - 1)
  }

  lemma {:induction false} ShiftedOnce(n: nat, k: nat)
    ensures Shifted(n / 256, k) == Shifted(n, k + 1)
  {
    if k > 0 {
      ShiftedOnce(n, k - 1);
    }
  }

  lemma {:induction false} LowSplits(n: nat, k: nat)
    ensures Low(n, k + 1) == Low(n / 256, k) + [(n % 256) as byte]
  {
    if k > 0 {
      LowSplits(n, k - 1);
      ShiftedOnce(n, k - 1);
    }
  }

  lemma {:induction false} BigEndianSplit(n: nat, width: nat)
    ensures Low(n, width) == BigEndian(n, width)
  {
    if width > 0 {
      LowSplits(n, width - 1);
      BigEndianSplit(n / 256, width - 1);
    }
  }
}
