/** The binary frames of a transfer: an envelope around every encrypted message, and the chunk
    message inside it. Sequence numbers and offsets are JavaScript safe integers. */
module Framing {
  import opened Wrappers
  import opened Bytes

  const MAX_SAFE_INTEGER: nat := 0x1f_ffff_ffff_ffff
  const MAX_CHUNK_SIZE: nat := 192 * 1024
  const ENVELOPE_MAGIC: seq<byte> := [0x4b, 0x47, 0x45, 0x31]
  const CHUNK_MAGIC: seq<byte> := [0x4b, 0x47, 0x43, 0x31]
  const ENVELOPE_HEADER := 12
  const CHUNK_HEADER := 21
  const TAG_BYTES := 16

  datatype Error =
    | BadSequence | BadEnvelope | UnsafeSequence
    | BadItem | BadStream | BadOffset | BadPayload | BadEncoding
    | ShortChunk | LongChunk | UnsafeOffset

  datatype Envelope = Envelope(sequence: int, body: seq<byte>)

  datatype Encoding = Plain | Gzip | Unsupported

  datatype Chunk = Chunk(item: int, stream: int, offset: int, encoding: Encoding, data: seq<byte>)

  predicate HasMagic(bytes: seq<byte>, magic: seq<byte>) {
    |bytes| >= |magic| && bytes[..|magic|] == magic
  }

  predicate SafeInteger(n: int) {
    0 <= n <= MAX_SAFE_INTEGER
  }

  // Envelopes.

  function EncodeEnvelope(e: Envelope): Result<seq<byte>, Error> {
    if !SafeInteger(e.sequence) then Err(BadSequence)
    else Ok(ENVELOPE_MAGIC + BigEndian(e.sequence, 8) + e.body)
  }

  function DecodeEnvelope(bytes: seq<byte>): Result<Envelope, Error> {
    if |bytes| < ENVELOPE_HEADER + TAG_BYTES || !HasMagic(bytes, ENVELOPE_MAGIC) then Err(BadEnvelope)
    else
      var sequence := FromBigEndian(bytes[4..12]);
      if sequence > MAX_SAFE_INTEGER then Err(UnsafeSequence)
      else Ok(Envelope(sequence, bytes[ENVELOPE_HEADER..]))
  }

  /** The transport's look at a frame: its sequence number, or nothing if it is not an envelope. */
  function PeekSequence(bytes: seq<byte>): Option<nat> {
    if |bytes| < ENVELOPE_HEADER || !HasMagic(bytes, ENVELOPE_MAGIC) then None
    else
      var sequence := FromBigEndian(bytes[4..12]);
      if sequence <= MAX_SAFE_INTEGER then Some(sequence) else None
  }

  lemma SafeFits(n: int)
    requires SafeInteger(n)
    ensures 0 <= n < Range(8)
  {
    SmallRanges();
  }

  /** An encoded envelope is read back whole exactly when it carries an authentication tag, and the
      transport sees its number either way. */
  lemma EnvelopeRoundTrip(e: Envelope)
    requires SafeInteger(e.sequence)
    ensures EncodeEnvelope(e).Ok?
    ensures PeekSequence(EncodeEnvelope(e).value) == Some(e.sequence)
    ensures DecodeEnvelope(EncodeEnvelope(e).value) == if |e.body| >= TAG_BYTES then Ok(e) else Err(BadEnvelope)
  {
    SafeFits(e.sequence);
    BigEndianReadsBack(e.sequence, 8);
    var bytes := EncodeEnvelope(e).value;
    assert bytes[..4] == ENVELOPE_MAGIC && bytes[4..12] == BigEndian(e.sequence, 8) && bytes[12..] == e.body;
  }

  /** Nothing is lost by decoding: an accepted frame is the encoding of what was read from it. */
  lemma EnvelopeReencodes(bytes: seq<byte>)
    requires DecodeEnvelope(bytes).Ok?
    ensures EncodeEnvelope(DecodeEnvelope(bytes).value) == Ok(bytes)
  {
    BigEndianWritesBack(bytes[4..12]);
    assert bytes == bytes[..4] + bytes[4..12] + bytes[12..];
  }

  /** The transport and the session read the same number from every frame the session accepts; a
      frame the transport numbers and the session refuses is too short to hold a tag. */
  lemma PeekAgrees(bytes: seq<byte>)
    ensures DecodeEnvelope(bytes).Ok? ==> PeekSequence(bytes) == Some(DecodeEnvelope(bytes).value.sequence)
    ensures PeekSequence(bytes).Some? && DecodeEnvelope(bytes).Err? <==>
              PeekSequence(bytes).Some? && |bytes| < ENVELOPE_HEADER + TAG_BYTES
  {
  }

  // Chunks.

  function EncodeChunk(c: Chunk): Result<seq<byte>, Error> {
    if c.item < 0 || c.item > 0xffff_ffff then Err(BadItem)
    else if c.stream < 0 || c.stream > 0xffff_ffff then Err(BadStream)
    else if !SafeInteger(c.offset) then Err(BadOffset)
    else if |c.data| > MAX_CHUNK_SIZE * 2 then Err(BadPayload)
    else if c.encoding == Unsupported then Err(BadEncoding)
    else
      Ok(CHUNK_MAGIC + BigEndian(c.item, 4) + BigEndian(c.stream, 4) + BigEndian(c.offset, 8)
         + [if c.encoding == Gzip then 1 else 0] + c.data)
  }

  /** `Ok(None)`: the plaintext is not a binary chunk and is read as JSON. */
  function DecodeChunk(plain: seq<byte>): Result<Option<Chunk>, Error> {
    if !HasMagic(plain, CHUNK_MAGIC) then Ok(None)
    else if |plain| < CHUNK_HEADER then Err(ShortChunk)
    else if |plain| > CHUNK_HEADER + MAX_CHUNK_SIZE * 2 then Err(LongChunk)
    else
      var offset := FromBigEndian(plain[12..20]);
      if offset > MAX_SAFE_INTEGER then Err(UnsafeOffset)
      else if plain[20] > 1 then Err(BadEncoding)
      else
        Ok(Some(Chunk(
          FromBigEndian(plain[4..8]), FromBigEndian(plain[8..12]), offset,
          if plain[20] == 1 then Gzip else Plain, plain[CHUNK_HEADER..])))
  }

  lemma ChunkFields(c: Chunk)
    requires EncodeChunk(c).Ok?
    ensures
      var b := EncodeChunk(c).value;
      && |b| == CHUNK_HEADER + |c.data| && b[..4] == CHUNK_MAGIC
      && b[4..8] == BigEndian(c.item, 4) && b[8..12] == BigEndian(c.stream, 4)
      && b[12..20] == BigEndian(c.offset, 8) && b[20] == (if c.encoding == Gzip then 1 else 0)
      && b[21..] == c.data
  {
    var head := CHUNK_MAGIC + BigEndian(c.item, 4) + BigEndian(c.stream, 4) + BigEndian(c.offset, 8);
    assert |head| == 20 && EncodeChunk(c).value[..20] == head;
  }

  /** Every chunk the encoder accepts is restored field by field. */
  lemma ChunkRoundTrip(c: Chunk)
    requires EncodeChunk(c).Ok?
    ensures DecodeChunk(EncodeChunk(c).value) == Ok(Some(c))
  {
    ChunkFields(c);
    SmallRanges();
    BigEndianReadsBack(c.item, 4);
    BigEndianReadsBack(c.stream, 4);
    BigEndianReadsBack(c.offset, 8);
  }

  lemma ChunkReencodes(plain: seq<byte>)
    requires DecodeChunk(plain).Ok? && DecodeChunk(plain).value.Some?
    ensures EncodeChunk(DecodeChunk(plain).value.value) == Ok(plain)
  {
    SmallRanges();
    BigEndianWritesBack(plain[4..8]);
    BigEndianWritesBack(plain[8..12]);
    BigEndianWritesBack(plain[12..20]);
    assert plain == plain[..4] + plain[4..8] + plain[8..12] + plain[12..20] + [plain[20]] + plain[21..];
  }

  /** A JSON object starts with a brace, so it is never mistaken for a chunk; a chunk never starts
      with one, so it is never mistaken for JSON. */
  lemma JsonIsNotAChunk(plain: seq<byte>, c: Chunk)
    requires plain != [] && plain[0] == 0x7b && EncodeChunk(c).Ok?
    ensures DecodeChunk(plain) == Ok(None) && EncodeChunk(c).value[0] != 0x7b
  {
    assert plain[..1] == [0x7b];
    ChunkFields(c);
    if |plain| >= 4 {
      assert plain[..4][0] == 0x7b;
    }
    assert EncodeChunk(c).value[..4][0] == 0x4b;
  }

  // The layout itself, on two frames.

  lemma {:induction false} OneByte(n: nat, width: nat)
    requires n < 256 && width > 0
    ensures BigEndian(n, width) == seq(width - 1, _ => 0) + [n as byte]
  {
    if width > 1 {
      OneByte(0, width - 1);
      assert seq(width - 2, _ => 0) + [0] == seq(width - 1, _ => 0);
    }
  }

  lemma FourBytes()
    ensures BigEndian(258, 4) == [0, 0, 1, 2] && BigEndian(3, 4) == [0, 0, 0, 3]
  {
    OneByte(1, 3);
    OneByte(3, 4);
  }

  lemma EightBytes()
    ensures BigEndian(258, 8) == [0, 0, 0, 0, 0, 0, 1, 2]
  {
    OneByte(1, 7);
  }

  lemma EightMixedBytes()
    ensures BigEndian(0x0102_0304, 8) == [0, 0, 0, 0, 1, 2, 3, 4]
  {
    OneByte(1, 5);
    assert BigEndian(0x0102, 6) == [0, 0, 0, 0, 1, 2];
    assert BigEndian(0x01_0203, 7) == [0, 0, 0, 0, 1, 2, 3];
  }

  lemma EnvelopeExample()
    ensures EncodeEnvelope(Envelope(258, [7])) == Ok([0x4b, 0x47, 0x45, 0x31, 0, 0, 0, 0, 0, 0, 1, 2, 7])
  {
    EightBytes();
    var sequence: seq<byte> := [0, 0, 0, 0, 0, 0, 1, 2];
    var body: seq<byte> := [7];
    assert ENVELOPE_MAGIC + sequence + body == [0x4b, 0x47, 0x45, 0x31, 0, 0, 0, 0, 0, 0, 1, 2, 7];
  }

  lemma ChunkExample()
    ensures EncodeChunk(Chunk(258, 3, 0x0102_0304, Gzip, [9])) ==
      Ok([0x4b, 0x47, 0x43, 0x31, 0, 0, 1, 2, 0, 0, 0, 3, 0, 0, 0, 0, 1, 2, 3, 4, 1, 9])
  {
    var c := Chunk(258, 3, 0x0102_0304, Gzip, [9]);
    FourBytes();
    EightMixedBytes();
    ChunkFields(c);
    var b := EncodeChunk(c).value;
    var item: seq<byte> := [0, 0, 1, 2];
    var stream: seq<byte> := [0, 0, 0, 3];
    var offset: seq<byte> := [0, 0, 0, 0, 1, 2, 3, 4];
    assert b[4..8] == item && b[8..12] == stream && b[12..20] == offset && b[21..] == [9];
    assert b == CHUNK_MAGIC + item + stream + offset + [1] + [9];
    var head: seq<byte> := [0x4b, 0x47, 0x43, 0x31, 0, 0, 1, 2, 0, 0, 0, 3];
    assert CHUNK_MAGIC + item + stream == head;
    assert head + offset + [1] + [9] ==
      [0x4b, 0x47, 0x43, 0x31, 0, 0, 1, 2, 0, 0, 0, 3, 0, 0, 0, 0, 1, 2, 3, 4, 1, 9];
  }
}
