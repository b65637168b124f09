/** SHA-256 as the browser computes it, in pieces, and as sections 5.1.1, 5.3.3 and 6.2.2 of
    FIPS 180-4 define it on a whole message. */
module Sha256 {
  import opened Bytes
  import opened Tables

  type word = bv32

  // The standard.

  const K0: seq<word> :=
    [0x428a2f98, 0x71374491, 0xb5c0fbcf, 0xe9b5dba5, 0x3956c25b, 0x59f111f1, 0x923f82a4, 0xab1c5ed5]
  const K1: seq<word> :=
    [0xd807aa98, 0x12835b01, 0x243185be, 0x550c7dc3, 0x72be5d74, 0x80deb1fe, 0x9bdc06a7, 0xc19bf174]
  const K2: seq<word> :=
    [0xe49b69c1, 0xefbe4786, 0x0fc19dc6, 0x240ca1cc, 0x2de92c6f, 0x4a7484aa, 0x5cb0a9dc, 0x76f988da]
  const K3: seq<word> :=
    [0x983e5152, 0xa831c66d, 0xb00327c8, 0xbf597fc7, 0xc6e00bf3, 0xd5a79147, 0x06ca6351, 0x14292967]
  const K4: seq<word> :=
    [0x27b70a85, 0x2e1b2138, 0x4d2c6dfc, 0x53380d13, 0x650a7354, 0x766a0abb, 0x81c2c92e, 0x92722c85]
  const K5: seq<word> :=
    [0xa2bfe8a1, 0xa81a664b, 0xc24b8b70, 0xc76c51a3, 0xd192e819, 0xd6990624, 0xf40e3585, 0x106aa070]
  const K6: seq<word> :=
    [0x19a4c116, 0x1e376c08, 0x2748774c, 0x34b0bcb5, 0x391c0cb3, 0x4ed8aa4a, 0x5b9cca4f, 0x682e6ff3]
  const K7: seq<word> :=
    [0x748f82ee, 0x78a5636f, 0x84c87814, 0x8cc70208, 0x90befffa, 0xa4506ceb, 0xbef9a3f7, 0xc67178f2]
  const K := K0 + K1 + K2 + K3 + K4 + K5 + K6 + K7

  const H0: seq<word> := [
    0x6a09e667, 0xbb67ae85, 0x3c6ef372, 0xa54ff53a, 0x510e527f, 0x9b05688c, 0x1f83d9ab, 0x5be0cd19
  ]

  function Xor3(x: word, y: word, z: word): word {
    x ^ y ^ z
  }

  // Each rotation to the right is written out as its two shifts.
  function BigSigma0(x: word): word { Xor3((x >> 2) | (x << 30), (x >> 13) | (x << 19), (x >> 22) | (x << 10)) }
  function BigSigma1(x: word): word { Xor3((x >> 6) | (x << 26), (x >> 11) | (x << 21), (x >> 25) | (x << 7)) }
  function SmallSigma0(x: word): word { Xor3((x >> 7) | (x << 25), (x >> 18) | (x << 14), x >> 3) }
  function SmallSigma1(x: word): word { Xor3((x >> 17) | (x << 15), (x >> 19) | (x << 13), x >> 10) }
  function Ch(x: word, y: word, z: word): word { (x & y) ^ (!x & z) }
  function Maj(x: word, y: word, z: word): word { (x & y) ^ (x & z) ^ (y & z) }

  function Word(b0: byte, b1: byte, b2: byte, b3: byte): word {
    ((b0 as word) << 24) | ((b1 as word) << 16) | ((b2 as word) << 8) | (b3 as word)
  }

  function WordAt(block: seq<byte>, t: nat): word
    requires |block| == 64 && t < 16
  {
    Word(block[4 * t], block[4 * t + 1], block[4 * t + 2], block[4 * t + 3])
  }

  function Expand(w2: word, w7: word, w15: word, w16: word): word {
    SmallSigma1(w2) + w7 + SmallSigma0(w15) + w16
  }

  function Plus(x: word, y: word): word {
    x + y
  }

  function BlockWords(block: seq<byte>): (ws: seq<word>)
    requires |block| == 64
    ensures |ws| == 16 && forall t :: 0 <= t < 16 ==> ws[t] == WordAt(block, t)
  {
    seq(16, t requires 0 <= t < 16 => WordAt(block, t))
  }

  /** The first `n` words of the message schedule. */
  function Schedule(block: seq<byte>, n: nat): (ws: seq<word>)
    requires |block| == 64 && n <= 64
    ensures |ws| == n
  {
    Grow(BlockWords(block), Expand, n)
  }

  /** The eight working variables. */
  datatype Vars = Vars(a: word, b: word, c: word, d: word, e: word, f: word, g: word, h: word)

  function Round(v: Vars, k: word, w: word): Vars {
    Mix(v, BigSigma1(v.e), Ch(v.e, v.f, v.g), BigSigma0(v.a), Maj(v.a, v.b, v.c), k, w)
  }

  function Mix(v: Vars, sum1: word, choice: word, sum0: word, majority: word, k: word, w: word): Vars {
    var t1 := v.h + sum1 + choice + k + w;
    var t2 := sum0 + majority;
    Vars(t1 + t2, v.a, v.b, v.c, v.d + t1, v.e, v.f, v.g)
  }

  function Initial(h: seq<word>): Vars
    requires |h| == 8
  {
    Vars(h[0], h[1], h[2], h[3], h[4], h[5], h[6], h[7])
  }

  function Rounds(h: seq<word>, ws: seq<word>, t: nat): Vars
    requires |h| == 8 && |ws| == 64 && t <= 64
  {
    Fold(Round, Initial(h), K, ws, t)
  }

  function AddAll(h: seq<word>, v: Vars): (r: seq<word>)
    requires |h| == 8
    ensures |r| == 8
  {
    [Plus(h[0], v.a), Plus(h[1], v.b), Plus(h[2], v.c), Plus(h[3], v.d),
     Plus(h[4], v.e), Plus(h[5], v.f), Plus(h[6], v.g), Plus(h[7], v.h)]
  }

  function Compress(h: seq<word>, block: seq<byte>): (r: seq<word>)
    requires |h| == 8 && |block| == 64
    ensures |r| == 8
  {
    AddAll(h, Rounds(h, Schedule(block, 64), 64))
  }

  /** The blocks of `m` in turn; a rest shorter than a block is not looked at. */
  function HashBlocks(h: seq<word>, m: seq<byte>): (r: seq<word>)
    requires |h| == 8
    ensures |r| == 8
    decreases |m|
  {
    if |m| < 64 then h else HashBlocks(Compress(h, m[..64]), m[64..])
  }

  function Zeros(n: nat): (z: seq<byte>)
    ensures |z| == n
  {
    seq(n, _ => 0)
  }

  /** The fewest zero bytes that make room for the length at the end of a block. */
  function PadCount(length: nat): nat {
    var r := length % 64;
    if r < 56 then 55 - r else 119 - r
  }

  /** A one bit, zero bits, and the length in bits as 64 bits. */
  function Padded(m: seq<byte>): seq<byte> {
    m + [0x80] + Zeros(PadCount(|m|)) + BigEndian(8 * |m|, 8)
  }

  function WordBytes(h: seq<word>): seq<byte> {
    if h == [] then [] else WordBytes(h[..|h| - 1]) + BigEndian(h[|h| - 1] as int, 4)
  }

  function Hash(m: seq<byte>): seq<byte> {
    WordBytes(HashBlocks(H0, Padded(m)))
  }

  lemma {:induction false} HashBlocksAppend(h: seq<word>, a: seq<byte>, n: nat, b: seq<byte>)
    requires |h| == 8 && |a| == 64 * n
    ensures HashBlocks(h, a + b) == HashBlocks(HashBlocks(h, a), b)
    decreases n
  {
    if n == 0 {
      assert a + b == b;
    } else {
      assert (a + b)[..64] == a[..64] && (a + b)[64..] == a[64..] + b;
      HashBlocksAppend(Compress(h, a[..64]), a[64..], n - 1, b);
    }
  }

  lemma OneBlock(h: seq<word>, block: seq<byte>)
    requires |h| == 8 && |block| == 64
    ensures HashBlocks(h, block) == Compress(h, block)
  {
    assert block[..64] == block && block[64..] == [];
  }

  // The hasher.

  class Hasher {
    const state: array<word>
    const buffer: array<byte>
    var bufferLength: nat
    var bytesHashed: nat
    const temp: array<word>
    var finished: bool
    ghost var hashed: seq<byte>   // the blocks processed so far
    ghost var blocks: nat         // and their number
    ghost var message: seq<byte>  // everything given to `Update`

    ghost function Repr(): set<object>
      reads this
    {
      {this, state, buffer, temp}
    }

    ghost predicate Shaped()
      reads this
    {
      && state.Length == 8 && buffer.Length == 64 && temp.Length == 64
      && state != temp && buffer as object != temp as object && buffer as object != state as object
      && bufferLength <= 64
    }

    ghost predicate Absorbed()
      reads this, state
    {
      Shaped() && |hashed| == 64 * blocks && state[..] == HashBlocks(H0, hashed)
    }

    /** What was given is what is in the state and what is in the buffer. */
    ghost predicate Buffered()
      reads this, state, buffer
    {
      Absorbed() && bufferLength < 64 && message == hashed + buffer[..bufferLength]
    }

    ghost predicate Valid()
      reads this, state, buffer
    {
      Buffered() && bytesHashed == |message|
    }

    constructor ()
      ensures Valid() && !finished && message == [] && fresh(Repr())
    {
      var s := new word[8](i requires 0 <= i < 8 => H0[i]);
      state, buffer, temp := s, new byte[64], new word[64];
      bufferLength, bytesHashed, finished := 0, 0, false;
      hashed, blocks, message := [], 0, [];
      new;
      assert state[..] == H0;
    }

    /** The schedule of the buffered block. */
    method FillSchedule()
      requires Shaped()
      modifies temp
      ensures temp[..] == Schedule(buffer[..], 64)
    {
      LoadWords();
      for i := 16 to 64
        invariant temp[..i] == Schedule(buffer[..], i)
      {
        temp[i] := Expand(temp[i - 2], temp[i - 7], temp[i - 15], temp[i - 16]);
      }
      assert temp[..64] == temp[..];
    }

    method LoadWords()
      requires Shaped()
      modifies temp
      ensures temp[..16] == Schedule(buffer[..], 16)
    {
      for i := 0 to 16
        invariant temp[..i] == Schedule(buffer[..], i)
      {
        temp[i] := WordAt(buffer[..], i);
      }
    }

    /** The sixty-four rounds over the schedule. */
    method RunRounds() returns (v: Vars)
      requires Shaped()
      ensures v == Rounds(state[..], temp[..], 64)
    {
      v := Vars(state[0], state[1], state[2], state[3], state[4], state[5], state[6], state[7]);
      for i := 0 to 64
        invariant v == Rounds(state[..], temp[..], i)
      {
        v := Round(v, K[i], temp[i]);
      }
    }

    method AddToState(v: Vars)
      requires Shaped()
      modifies state
      ensures state[..] == AddAll(old(state[..]), v)
    {
      var sums := AddAll(state[..], v);
      for i := 0 to 8
        invariant state[..i] == sums[..i]
      {
        state[i] := sums[i];
      }
      assert state[..8] == state[..] && sums[..8] == sums;
    }

    method ProcessBlock()
      requires Shaped()
      modifies temp, state
      ensures state[..] == Compress(old(state[..]), buffer[..])
    {
      FillSchedule();
      var v := RunRounds();
      AddToState(v);
    }

    /** The buffered block goes into the state. */
    method Absorb()
      requires Absorbed() && bufferLength == 64
      modifies temp, state, this`bufferLength, this`hashed, this`blocks
      ensures Absorbed() && bufferLength == 0 && hashed == old(hashed) + old(buffer[..])
    {
      HashBlocksAppend(H0, hashed, blocks, buffer[..]);
      OneBlock(state[..], buffer[..]);
      ProcessBlock();
      bufferLength := 0;
      hashed, blocks := hashed + buffer[..], blocks + 1;
    }

    /** Copies bytes behind what is buffered. */
    method Append(bytes: seq<byte>)
      requires Shaped() && bufferLength + |bytes| <= 64
      modifies buffer, this`bufferLength
      ensures bufferLength == old(bufferLength) + |bytes|
      ensures buffer[..bufferLength] == old(buffer[..bufferLength]) + bytes
    {
      var start := bufferLength;
      for i := 0 to |bytes|
        invariant buffer[..start + i] == old(buffer[..bufferLength]) + bytes[..i]
      {
        buffer[start + i] := bytes[i];
      }
      bufferLength := start + |bytes|;
    }

    /** Buffers as much as there is room for. */
    method Feed(piece: seq<byte>)
      requires Buffered() && bufferLength + |piece| <= 64
      modifies this`bufferLength, this`hashed, this`blocks, this`message, state, buffer, temp
      ensures Buffered() && message == old(message) + piece
    {
      Append(piece);
      message := message + piece;
      assert hashed + buffer[..bufferLength] == message;
      if bufferLength == 64 {
        assert buffer[..64] == buffer[..];
        Absorb();
        assert hashed + buffer[..0] == hashed;
      }
    }

    /** Takes the data in pieces that fit the buffer. */
    method Consume(data: seq<byte>)
      requires Buffered()
      modifies this`bufferLength, this`hashed, this`blocks, this`message, state, buffer, temp
      ensures Buffered() && message == old(message) + data
    {
      var offset := 0;
      while offset < |data|
        invariant 0 <= offset <= |data| && Buffered() && message == old(message) + data[..offset]
        decreases |data| - offset
      {
        var room := 64 - bufferLength;
        var want := if |data| - offset <= room then |data| - offset else room;
        Grows(data, offset, offset + want, old(message));
        Feed(data[offset..offset + want]);
        offset := offset + want;
      }
      assert data[..|data|] == data;
    }

    method Update(data: seq<byte>) returns (ok: bool)
      requires Valid()
      modifies Repr()
      ensures Valid() && finished == old(finished) && (ok <==> !finished)
      ensures message == if ok then old(message) + data else old(message)
    {
      if finished {
        return false;
      }
      bytesHashed := bytesHashed + |data|;
      Consume(data);
      ok := true;
    }

    /** The end mark, and a block of its own for it if the length no longer fits behind it. */
    method Mark()
      requires Buffered()
      modifies this`bufferLength, this`hashed, this`blocks, state, buffer, temp
      ensures Absorbed() && bufferLength <= 56
      ensures hashed + (buffer[..bufferLength] + Zeros(56 - bufferLength)) + BigEndian(8 * |message|, 8) ==
        Padded(message)
    {
      ghost var rest := buffer[..bufferLength];
      PadCountIs(message, hashed, blocks, rest);
      ghost var near := if |rest| < 56 then 55 - |rest| else 63 - |rest|;
      PaddedSplits(message, hashed, rest, near, PadCount(|message|) - near);
      Append([0x80]);
      if bufferLength > 56 {
        Append(Zeros(64 - bufferLength));
        assert buffer[..64] == buffer[..] == rest + [0x80] + Zeros(63 - |rest|);
        Absorb();
        assert buffer[..0] + Zeros(56) == Zeros(56);
      } else {
        assert hashed + (rest + [0x80] + Zeros(near)) + Zeros(0) == hashed + (rest + [0x80] + Zeros(near));
      }
    }

    /** Pads what is buffered and returns the digest, once. */
    method Digest() returns (digest: seq<byte>, ok: bool)
      requires Valid()
      modifies Repr()
      ensures ok <==> !old(finished)
      ensures ok ==> finished && digest == Hash(old(message))
    {
      if finished {
        return [], false;
      }
      finished := true;
      Mark();
      AddLength();
      digest := WordBytes(state[..]);
      ok := true;
    }

    /** The last block. */
    method AddLength()
      requires Absorbed() && bufferLength <= 56 && bytesHashed == |message|
      requires hashed + (buffer[..bufferLength] + Zeros(56 - bufferLength)) + BigEndian(8 * |message|, 8) ==
        Padded(message)
      modifies this`bufferLength, this`hashed, this`blocks, state, buffer, temp
      ensures state[..] == HashBlocks(H0, Padded(message))
    {
      ghost var kept, length := buffer[..bufferLength] + Zeros(56 - bufferLength), BigEndian(8 * |message|, 8);
      Append(Zeros(56 - bufferLength));
      AppendLength(8 * bytesHashed);
      assert hashed + (kept + length) == hashed + kept + length;
      Absorb();
    }

    /** Writes the bit length into the last eight bytes, from the last one backwards. */
    method AppendLength(bits: nat)
      requires Shaped() && bufferLength == 56
      modifies buffer, this`bufferLength
      ensures bufferLength == 64 && buffer[..] == old(buffer[..56]) + BigEndian(bits, 8)
    {
      var n: nat := bits;
      var i := 63;
      BigEndianSplit(bits, 8);
      while i >= 56
        invariant 55 <= i <= 63 && n == Shifted(bits, 63 - i)
        invariant buffer[..56] == old(buffer[..56]) && buffer[i + 1..] == Low(bits, 63 - i)
      {
        buffer[i] := (n % 256) as byte;
        assert buffer[i..] == [buffer[i]] + buffer[i + 1..];
        n := n / 256;
        i := i - 1;
      }
      assert buffer[..] == buffer[..56] + buffer[56..];
      bufferLength := 64;
    }
  }

  lemma PadCountIs(m: seq<byte>, front: seq<byte>, n: nat, rest: seq<byte>)
    requires m == front + rest && |front| == 64 * n && |rest| < 64
    ensures PadCount(|m|) == if |rest| < 56 then 55 - |rest| else 119 - |rest|
  {
    assert |m| == 64 * n + |rest|;
    assert (64 * n + |rest|) % 64 == |rest|;
  }

  /** The padded message, cut where the hasher's buffer stands. */
  lemma PaddedSplits(m: seq<byte>, front: seq<byte>, rest: seq<byte>, near: nat, far: nat)
    requires m == front + rest && PadCount(|m|) == near + far
    ensures Padded(m) == front + (rest + [0x80] + Zeros(near)) + Zeros(far) + BigEndian(8 * |m|, 8)
  {
    ZerosSplit(near, far);
    Regroup(front, rest, [0x80], Zeros(near), Zeros(far), BigEndian(8 * |m|, 8));
  }

  lemma ZerosSplit(a: nat, b: nat)
    ensures Zeros(a + b) == Zeros(a) + Zeros(b) && Zeros(0) == []
  {
  }

  lemma Regroup(front: seq<byte>, rest: seq<byte>, mark: seq<byte>, z: seq<byte>, y: seq<byte>, length: seq<byte>)
    ensures front + rest + mark + (z + y) + length == front + (rest + mark + z) + y + length
  {
  }

  // Hashing in pieces.

  /** However a message is cut into updates, the digest is that of the whole message. */
  method HashParts(parts: seq<seq<byte>>) returns (digest: seq<byte>)
    ensures digest == Hash(Concat(parts))
  {
    var h := new Hasher();
    for i := 0 to |parts|
      invariant fresh(h.Repr())
      invariant h.Valid() && !h.finished && h.message == Concat(parts[..i])
    {
      ConcatGrows(parts, i);
      var ok := h.Update(parts[i]);
    }
    assert parts[..|parts|] == parts;
    var ok;
    digest, ok := h.Digest();
  }

  const SLICE := 4 * 1024 * 1024

  /** A file is hashed in slices of four mebibytes. */
  method HashFile(file: seq<byte>) returns (digest: seq<byte>)
    ensures digest == Hash(file)
  {
    var h := new Hasher();
    var offset := 0;
    while offset < |file|
      invariant 0 <= offset && fresh(h.Repr())
      invariant h.Valid() && !h.finished && h.message == file[..Capped(offset, file)]
    {
      Grows(file, offset, Capped(offset + SLICE, file), []);
      var ok := h.Update(file[offset..Capped(offset + SLICE, file)]);
      offset := offset + SLICE;
    }
    var ok;
    digest, ok := h.Digest();
  }

  function Capped(offset: nat, file: seq<byte>): (end: nat)
    ensures end <= |file| && (offset >= |file| ==> file[..end] == file)
  {
    if offset <= |file| then offset else |file|
  }

  lemma Grows(data: seq<byte>, a: nat, b: nat, front: seq<byte>)
    requires a <= b <= |data|
    ensures front + data[..a] + data[a..b] == front + data[..b] && data[..a] + data[a..b] == data[..b]
  {
  }
}
