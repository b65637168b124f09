/** The nonce of the session cipher: a four-byte prefix and the message's sequence number. */
module SecureChannel {
  import opened Bytes

  /** Fills the counter from its last byte backwards, as many bits as fit. */
  method Nonce(prefix: seq<byte>, sequence: nat) returns (out: array<byte>)
    requires |prefix| == 4
    ensures fresh(out) && out[..] == prefix + BigEndian(sequence, 8)
  {
    out := new byte[12];
    forall k | 0 <= k < 4 {
      out[k] := prefix[k];
    }
    var value: nat := sequence;
    var index := 11;
    BigEndianSplit(sequence, 8);
    while index >= 4
      invariant 3 <= index <= 11 && value == Shifted(sequence, 11 - index)
      invariant out[..4] == prefix
      invariant out[index + 1..] == Low(sequence, 11 - index)
    {
      out[index] := (value % 256) as byte;
      assert out[index..] == [out[index]] + out[index + 1..];
      value := value / 256;
      index := index - 1;
    }
    assert out[..] == out[..4] + out[4..];
  }

  /** Within one direction of a session, messages with different numbers have different nonces. */
  lemma NonceIsInjective(prefix: seq<byte>, m: nat, n: nat)
    requires m < Range(8) && n < Range(8)
    requires prefix + BigEndian(m, 8) == prefix + BigEndian(n, 8)
    ensures m == n
  {
    assert (prefix + BigEndian(m, 8))[|prefix|..] == BigEndian(m, 8);
    assert (prefix + BigEndian(n, 8))[|prefix|..] == BigEndian(n, 8);
    BigEndianReadsBack(m, 8);
    BigEndianReadsBack(n, 8);
  }
}
