/** The ZIP archive the browser offers for download, and a reader that follows it the way sections
    4.3.7, 4.3.12 and 4.3.16 of the PKWARE APPNOTE lay it out: from the end record to the central
    directory, and from there to each local header. */
module Zip {
  import opened Wrappers
  import opened Bytes
  import Crc32

  /** An entry to be archived; its name is already in UTF-8, with a slash behind a directory. */
  datatype Entry = Entry(name: seq<byte>, parts: seq<seq<byte>>, time: half, date: half, attributes: word)

  type half = n: nat | n < 0x1_0000
  type word = n: nat | n < 0x1_0000_0000

  /** An entry as a reader finds it. */
  datatype File = File(name: seq<byte>, data: seq<byte>, crc: nat, time: nat, date: nat, attributes: nat)

  datatype Error = Unreadable

  // Records of fixed-width fields.

  datatype Field = Field(width: nat, value: nat)

  function Width(fs: seq<Field>, n: nat): nat
    requires n <= |fs|
  {
    if n == 0 then 0 else Width(fs, n - 1) + fs[n - 1].width
  }

  function Encode(fs: seq<Field>, n: nat): (bytes: seq<byte>)
    requires n <= |fs|
    ensures |bytes| == Width(fs, n)
  {
    if n == 0 then [] else Encode(fs, n - 1) + LittleEndian(fs[n - 1].value, fs[n - 1].width)
  }

  /** The little-endian number in `width` bytes from `at` on. */
  function NumberAt(bytes: seq<byte>, at: nat, width: nat): nat
    requires at + width <= |bytes|
  {
    FromLittleEndian(bytes[at..at + width])
  }

  lemma {:induction false} EncodePrefix(fs: seq<Field>, i: nat, n: nat)
    requires i <= n <= |fs|
    ensures Width(fs, i) <= Width(fs, n) && Encode(fs, n)[..Width(fs, i)] == Encode(fs, i)
  {
    if i < n {
      EncodePrefix(fs, i, n - 1);
    }
  }

  lemma SliceOfSlice(bytes: seq<byte>, at: nat, length: nat, a: nat, w: nat)
    requires at + length <= |bytes| && a + w <= length
    ensures bytes[at..at + length][a..a + w] == bytes[at + a..at + a + w]
  {
    assert bytes[at..at + length] == bytes[at..][..length];
    assert bytes[at..][..length][a..a + w] == bytes[at..][a..a + w] == bytes[at + a..at + a + w];
  }

  lemma Behind(record: seq<byte>, front: seq<byte>, back: seq<byte>)
    requires |front| + |back| <= |record| && record[..|front| + |back|] == front + back
    ensures record[|front|..|front| + |back|] == back
  {
    assert record[|front|..|front| + |back|] == record[..|front| + |back|][|front|..];
  }

  /** Field `i` of a record that stands at `at` is read as what its bytes hold of it. */
  lemma {:induction false} FieldBytes(fs: seq<Field>, i: nat, bytes: seq<byte>, at: nat)
    requires i < |fs|
    requires at + Width(fs, |fs|) <= |bytes| && bytes[at..at + Width(fs, |fs|)] == Encode(fs, |fs|)
    ensures Width(fs, i) + fs[i].width <= Width(fs, |fs|)
    ensures
      var from := at + Width(fs, i);
      bytes[from..from + fs[i].width] == LittleEndian(fs[i].value, fs[i].width)
  {
    EncodePrefix(fs, i + 1, |fs|);
    SliceOfSlice(bytes, at, Width(fs, |fs|), Width(fs, i), fs[i].width);
    Behind(Encode(fs, |fs|), Encode(fs, i), LittleEndian(fs[i].value, fs[i].width));
  }

  /** It is read back whole if its value fits. */
  lemma {:induction false} FieldReads(fs: seq<Field>, i: nat, bytes: seq<byte>, at: nat)
    requires i < |fs| && fs[i].value < Range(fs[i].width)
    requires at + Width(fs, |fs|) <= |bytes| && bytes[at..at + Width(fs, |fs|)] == Encode(fs, |fs|)
    ensures Width(fs, i) + fs[i].width <= Width(fs, |fs|)
    ensures NumberAt(bytes, at + Width(fs, i), fs[i].width) == fs[i].value
  {
    FieldBytes(fs, i, bytes, at);
    LittleEndianReadsBack(fs[i].value, fs[i].width);
  }

  /** It is never read as more than it was. */
  lemma {:induction false} FieldIsNotMore(fs: seq<Field>, i: nat, bytes: seq<byte>, at: nat)
    requires i < |fs|
    requires at + Width(fs, |fs|) <= |bytes| && bytes[at..at + Width(fs, |fs|)] == Encode(fs, |fs|)
    ensures Width(fs, i) + fs[i].width <= Width(fs, |fs|)
    ensures NumberAt(bytes, at + Width(fs, i), fs[i].width) <= fs[i].value
  {
    FieldBytes(fs, i, bytes, at);
    LittleEndianIsNotMore(fs[i].value, fs[i].width);
  }

  lemma {:induction false} LittleEndianIsNotMore(n: nat, width: nat)
    ensures FromLittleEndian(LittleEndian(n, width)) <= n
  {
    if width > 0 {
      LittleEndianIsNotMore(n / 256, width - 1);
      assert LittleEndian(n, width)[1..] == LittleEndian(n / 256, width - 1);
    }
  }

  lemma {:induction false} NumbersFit(bytes: seq<byte>)
    ensures FromLittleEndian(bytes) < Range(|bytes|)
  {
    if bytes != [] {
      NumbersFit(bytes[1..]);
    }
  }

  lemma ShorterRun<T>(s: seq<T>, i: nat, t: seq<T>, j: nat, n: nat)
    requires 0 < n && i + n <= |s| && j + n <= |t| && s[i..i + n] == t[j..j + n]
    ensures s[i..i + n - 1] == t[j..j + n - 1] && s[i + n - 1] == t[j + n - 1]
  {
    var a, b := s[i..i + n], t[j..j + n];
    assert a[n - 1] == s[i + n - 1] && b[n - 1] == t[j + n - 1];
    assert a[..n - 1] == s[i..i + n - 1] && b[..n - 1] == t[j..j + n - 1];
  }

  /** Records with a run of fields in common have its bytes in common. */
  lemma {:induction false} CommonFields(fs: seq<Field>, i: nat, gs: seq<Field>, j: nat, n: nat)
    requires i + n <= |fs| && j + n <= |gs| && fs[i..i + n] == gs[j..j + n]
    ensures Width(fs, i) <= Width(fs, i + n) && Width(gs, j) <= Width(gs, j + n)
    ensures Encode(fs, i + n)[Width(fs, i)..] == Encode(gs, j + n)[Width(gs, j)..]
  {
    if n > 0 {
      ShorterRun(fs, i, gs, j, n);
      CommonFields(fs, i, gs, j, n - 1);
    }
  }

  // The writer.

  /** What the archive is to hold of an entry. */
  function AsFile(e: Entry): File {
    File(e.name, Concat(e.parts), Crc32.Checksum(Concat(e.parts)) as int, e.time, e.date, e.attributes)
  }

  function AsFiles(es: seq<Entry>): (fs: seq<File>)
    ensures |fs| == |es| && forall i :: 0 <= i < |es| ==> fs[i] == AsFile(es[i])
  {
    seq(|es|, i requires 0 <= i < |es| => AsFile(es[i]))
  }

  const LOCAL_SIGNATURE := 0x0403_4b50
  const CENTRAL_SIGNATURE := 0x0201_4b50
  const END_SIGNATURE := 0x0605_4b50

  function LocalFields(f: File): seq<Field> {
    [Field(4, LOCAL_SIGNATURE), Field(2, 20), Field(2, 0x0800), Field(2, 0), Field(2, f.time), Field(2, f.date),
     Field(4, f.crc), Field(4, |f.data|), Field(4, |f.data|), Field(2, |f.name|), Field(2, 0)]
  }

  function CentralFields(f: File, offset: nat): seq<Field> {
    [Field(4, CENTRAL_SIGNATURE), Field(2, 0x0314), Field(2, 20), Field(2, 0x0800), Field(2, 0), Field(2, f.time),
     Field(2, f.date), Field(4, f.crc), Field(4, |f.data|), Field(4, |f.data|), Field(2, |f.name|), Field(2, 0),
     Field(2, 0), Field(2, 0), Field(2, 0), Field(4, f.attributes), Field(4, offset)]
  }

  function EndFields(count: nat, centralSize: nat, centralOffset: nat): seq<Field> {
    [Field(4, END_SIGNATURE), Field(2, 0), Field(2, 0), Field(2, count), Field(2, count),
     Field(4, centralSize), Field(4, centralOffset), Field(2, 0)]
  }

  lemma LocalWidths(f: File)
    ensures
      var fs := LocalFields(f);
      Width(fs, 1) == 4 && Width(fs, 9) == 26 && Width(fs, 10) == 28 && Width(fs, 11) == 30
  {
    var fs := LocalFields(f);
    assert Width(fs, 1) == 4;
    assert Width(fs, 2) == 6;
    assert Width(fs, 3) == 8;
    assert Width(fs, 4) == 10;
    assert Width(fs, 5) == 12;
    assert Width(fs, 6) == 14;
    assert Width(fs, 7) == 18;
    assert Width(fs, 8) == 22;
    assert Width(fs, 9) == 26;
    assert Width(fs, 10) == 28;
    assert Width(fs, 11) == 30;
  }

  lemma CentralWidths(f: File, offset: nat)
    ensures
      var fs := CentralFields(f, offset);
      && Width(fs, 1) == 4 && Width(fs, 2) == 6 && Width(fs, 3) == 8 && Width(fs, 4) == 10
      && Width(fs, 5) == 12 && Width(fs, 6) == 14 && Width(fs, 7) == 16 && Width(fs, 8) == 20
      && Width(fs, 9) == 24 && Width(fs, 10) == 28 && Width(fs, 11) == 30 && Width(fs, 12) == 32
      && Width(fs, 15) == 38 && Width(fs, 16) == 42 && Width(fs, 17) == 46
  {
    var fs := CentralFields(f, offset);
    assert Width(fs, 1) == 4;
    assert Width(fs, 2) == 6;
    assert Width(fs, 3) == 8;
    assert Width(fs, 4) == 10;
    assert Width(fs, 5) == 12;
    assert Width(fs, 6) == 14;
    assert Width(fs, 7) == 16;
    assert Width(fs, 8) == 20;
    assert Width(fs, 9) == 24;
    assert Width(fs, 10) == 28;
    assert Width(fs, 11) == 30;
    assert Width(fs, 12) == 32;
    assert Width(fs, 13) == 34;
    assert Width(fs, 14) == 36;
    assert Width(fs, 15) == 38;
    assert Width(fs, 16) == 42;
    assert Width(fs, 17) == 46;
  }

  lemma EndWidths(count: nat, size: nat, offset: nat)
    ensures
      var fs := EndFields(count, size, offset);
      Width(fs, 4) == 10 && Width(fs, 5) == 12 && Width(fs, 6) == 16 && Width(fs, 8) == 22
  {
    var fs := EndFields(count, size, offset);
    assert Width(fs, 1) == 4;
    assert Width(fs, 2) == 6;
    assert Width(fs, 3) == 8;
    assert Width(fs, 4) == 10;
    assert Width(fs, 5) == 12;
    assert Width(fs, 6) == 16;
    assert Width(fs, 7) == 20;
    assert Width(fs, 8) == 22;
  }

  function Local(f: File): seq<byte> {
    Encode(LocalFields(f), 11) + f.name
  }

  function CentralHeader(f: File, offset: nat): seq<byte> {
    Encode(CentralFields(f, offset), 17) + f.name
  }

  /** What is written for one file: a local header and the data. */
  function Body(f: File): seq<byte> {
    Local(f) + f.data
  }

  function Bodies(files: seq<File>): (ps: seq<seq<byte>>)
    ensures |ps| == |files| && forall k :: 0 <= k < |files| ==> ps[k] == Body(files[k])
  {
    seq(|files|, k requires 0 <= k < |files| => Body(files[k]))
  }

  /** Where file `k` begins. */
  function OffsetOf(files: seq<File>, k: nat): nat
    requires k <= |files|
  {
    |Concat(Bodies(files)[..k])|
  }

  function Headers(files: seq<File>): (ps: seq<seq<byte>>)
    ensures |ps| == |files| && forall k :: 0 <= k < |files| ==> ps[k] == CentralHeader(files[k], OffsetOf(files, k))
  {
    seq(|files|, k requires 0 <= k < |files| => CentralHeader(files[k], OffsetOf(files, k)))
  }

  function Archive(files: seq<File>): seq<byte> {
    var bodies, central := Concat(Bodies(files)), Concat(Headers(files));
    bodies + central + Encode(EndFields(|files|, |central|, |bodies|), 8)
  }

  method MakeZip(es: seq<Entry>) returns (zip: seq<byte>)
    ensures zip == Archive(AsFiles(es))
  {
    ghost var files := AsFiles(es);
    var chunks: seq<byte> := [];
    var central: seq<byte> := [];
    var offset := 0;
    for n := 0 to |es|
      invariant chunks == Concat(Bodies(files)[..n]) && central == Concat(Headers(files)[..n]) && offset == |chunks|
    {
      var e := es[n];
      var crc := Crc32.ChecksumParts(e.parts);
      var f := File(e.name, Concat(e.parts), crc as int, e.time, e.date, e.attributes);
      var local := Local(f);
      ConcatGrows(Bodies(files), n);
      ConcatGrows(Headers(files), n);
      chunks := chunks + (local + f.data);
      central := central + CentralHeader(f, offset);
      offset := offset + |local| + |f.data|;
    }
    assert Bodies(files)[..|es|] == Bodies(files) && Headers(files)[..|es|] == Headers(files);
    zip := chunks + central + Encode(EndFields(|es|, |central|, offset), 8);
  }

  // The reader.

  // What the APPNOTE has at the beginning of a record: the letters PK and two numbers.
  const LOCAL_MARK: seq<byte> := [0x50, 0x4b, 3, 4]
  const CENTRAL_MARK: seq<byte> := [0x50, 0x4b, 1, 2]
  const END_MARK: seq<byte> := [0x50, 0x4b, 5, 6]

  /** Version 2.0 on Unix made it and version 2.0 can extract it; names are in UTF-8; nothing is compressed. */
  predicate Plain(zip: seq<byte>, at: nat)
    requires at + 46 <= |zip|
  {
    && NumberAt(zip, at + 4, 2) == 3 * 256 + 20 && NumberAt(zip, at + 6, 2) == 20
    && NumberAt(zip, at + 8, 2) == 2048 && NumberAt(zip, at + 10, 2) == 0
  }

  /** The file a central header points to; whatever both headers say must agree. */
  function ReadFile(zip: seq<byte>, at: nat): Result<File, Error> {
    if at + 46 > |zip| || zip[at..at + 4] != CENTRAL_MARK || !Plain(zip, at) then Err(Unreadable)
    else
      var nameLength, size, local := NumberAt(zip, at + 28, 2), NumberAt(zip, at + 24, 4), NumberAt(zip, at + 42, 4);
      if at + 46 + nameLength > |zip| || local + 30 > |zip| || zip[local..local + 4] != LOCAL_MARK
         || NumberAt(zip, at + 20, 4) != size then Err(Unreadable)
      else
        var start := local + 30 + NumberAt(zip, local + 26, 2) + NumberAt(zip, local + 28, 2);
        if start + size > |zip| || !SameFields(zip, local, at) then Err(Unreadable)
        else
          Ok(File(zip[at + 46..at + 46 + nameLength], zip[start..start + size], NumberAt(zip, at + 16, 4),
                  NumberAt(zip, at + 12, 2), NumberAt(zip, at + 14, 2), NumberAt(zip, at + 38, 4)))
  }

  /** From the version to the length of the extra field the two headers agree byte by byte, and so do the names. */
  predicate SameFields(zip: seq<byte>, local: nat, at: nat)
    requires at + 46 <= |zip| && local + 30 <= |zip|
  {
    var nameLength := NumberAt(zip, at + 28, 2);
    && zip[local + 4..local + 30] == zip[at + 6..at + 32]
    && at + 46 + nameLength <= |zip| && local + 30 + nameLength <= |zip|
    && zip[local + 30..local + 30 + nameLength] == zip[at + 46..at + 46 + nameLength]
  }

  /** The length of the central header at `at`. */
  function HeaderLength(zip: seq<byte>, at: nat): nat
    requires at + 46 <= |zip|
  {
    46 + NumberAt(zip, at + 28, 2) + NumberAt(zip, at + 30, 2) + NumberAt(zip, at + 32, 2)
  }

  datatype Found = Found(file: File, next: nat)

  /** The file of the central header at `at`, and where the header ends. */
  function ReadEntry(zip: seq<byte>, at: nat): Result<Found, Error> {
    var file := ReadFile(zip, at);
    if file.Err? then Err(Unreadable) else Ok(Found(file.value, at + HeaderLength(zip, at)))
  }

  /** The files of the `count` headers that fill the central directory from `at` to `end`. */
  function ReadFiles(read: nat -> Result<Found, Error>, at: nat, count: nat, end: nat): Result<seq<File>, Error>
    decreases count
  {
    if count == 0 then if at == end then Ok([]) else Err(Unreadable)
    else
      var first := read(at);
      if first.Err? then Err(Unreadable)
      else
        var rest := ReadFiles(read, first.value.next, count - 1, end);
        if rest.Err? then Err(Unreadable) else Ok([first.value.file] + rest.value)
  }

  function Reader(zip: seq<byte>): nat -> Result<Found, Error> {
    (at: nat) => ReadEntry(zip, at)
  }

  function ReadArchive(zip: seq<byte>): Result<seq<File>, Error> {
    if |zip| < 22 || zip[|zip| - 22..|zip| - 18] != END_MARK then Err(Unreadable)
    else
      var count, size, at :=
        NumberAt(zip, |zip| - 22 + 10, 2), NumberAt(zip, |zip| - 22 + 12, 4), NumberAt(zip, |zip| - 22 + 16, 4);
      if at + size != |zip| - 22 then Err(Unreadable) else ReadFiles(Reader(zip), at, count, at + size)
  }

  // What was written is read.

  /** Every size and offset fits its 32-bit field, every count its 16-bit field. */
  ghost predicate Fits(es: seq<Entry>) {
    && |es| < 0x1_0000
    && (forall i :: 0 <= i < |es| ==> |es[i].name| < 0x1_0000)
    && |Concat(Bodies(AsFiles(es)))| < 0x1_0000_0000
    && |Concat(Headers(AsFiles(es)))| < 0x1_0000_0000
  }

  ghost predicate InRange(f: File) {
    && |f.name| < 0x1_0000 && |f.data| < 0x1_0000_0000 && f.crc < 0x1_0000_0000
    && f.time < 0x1_0000 && f.date < 0x1_0000 && f.attributes < 0x1_0000_0000
  }

  /** A piece stands where the pieces before it end. */
  lemma {:induction false} PieceStands(ps: seq<seq<byte>>, k: nat)
    requires k < |ps|
    ensures
      var at := |Concat(ps[..k])|;
      at + |ps[k]| <= |Concat(ps)| && Concat(ps)[at..at + |ps[k]|] == ps[k]
  {
    var last := |ps| - 1;
    if k == last {
      assert ps[..k] == ps[..last];
    } else {
      PieceStands(ps[..last], k);
      assert ps[..last][..k] == ps[..k];
    }
  }

  /** The archive is bodies, central directory and end record; the parts of the first two stand in it. */
  lemma {:induction false} BodyStands(bodies: seq<seq<byte>>, rest: seq<byte>, zip: seq<byte>, k: nat)
    requires zip == Concat(bodies) + rest && k < |bodies|
    ensures
      var at := |Concat(bodies[..k])|;
      at + |bodies[k]| <= |Concat(bodies)| && zip[at..at + |bodies[k]|] == bodies[k]
  {
    PieceStands(bodies, k);
    assert zip[..|Concat(bodies)|] == Concat(bodies);
  }

  lemma {:induction false} HeaderStands(
    front: seq<byte>, headers: seq<seq<byte>>, tail: seq<byte>, zip: seq<byte>, k: nat)
    requires zip == front + Concat(headers) + tail && k < |headers|
    ensures
      var at := |front| + |Concat(headers[..k])|;
      at + |headers[k]| <= |zip| && zip[at..at + |headers[k]|] == headers[k]
  {
    PieceStands(headers, k);
    var a, w := |Concat(headers[..k])|, |headers[k]|;
    assert zip[|front|..|front| + |Concat(headers)|] == Concat(headers);
    SliceOfSlice(zip, |front|, |Concat(headers)|, a, w);
  }

  /** What a reader finds at a local header. */
  ghost predicate LocalReads(zip: seq<byte>, at: nat, f: File) {
    && at + 30 + |f.name| + |f.data| <= |zip|
    && zip[at..at + 4] == LOCAL_MARK && NumberAt(zip, at + 26, 2) == |f.name|
      && NumberAt(zip, at + 28, 2) == 0
    && zip[at + 30..at + 30 + |f.name|] == f.name
    && zip[at + 30 + |f.name|..at + 30 + |f.name| + |f.data|] == f.data
  }

  /** What a reader finds at a central header. */
  ghost predicate CentralReads(zip: seq<byte>, at: nat, f: File, offset: nat) {
    && at + 46 + |f.name| <= |zip|
    && zip[at..at + 4] == CENTRAL_MARK && Plain(zip, at)
    && NumberAt(zip, at + 12, 2) == f.time && NumberAt(zip, at + 14, 2) == f.date
    && NumberAt(zip, at + 16, 4) == f.crc
    && NumberAt(zip, at + 20, 4) == NumberAt(zip, at + 24, 4) == |f.data|
    && NumberAt(zip, at + 28, 2) == |f.name|
    && NumberAt(zip, at + 30, 2) == 0 && NumberAt(zip, at + 32, 2) == 0
    && NumberAt(zip, at + 38, 4) == f.attributes && NumberAt(zip, at + 42, 4) == offset
    && zip[at + 46..at + 46 + |f.name|] == f.name
  }

  ghost predicate Holds(zip: seq<byte>, at: nat, piece: seq<byte>) {
    at + |piece| <= |zip| && zip[at..at + |piece|] == piece
  }

  lemma Marks()
    ensures LittleEndian(LOCAL_SIGNATURE, 4) == LOCAL_MARK && LittleEndian(CENTRAL_SIGNATURE, 4) == CENTRAL_MARK
    ensures LittleEndian(END_SIGNATURE, 4) == END_MARK
  {
    assert LittleEndian(0x0403, 2) == [3, 4] && LittleEndian(0x0201, 2) == [1, 2] && LittleEndian(0x0605, 2) == [5, 6];
  }

  lemma LocalNumbers(zip: seq<byte>, at: nat, f: File)
    requires at + 30 <= |zip| && zip[at..at + 30] == Encode(LocalFields(f), 11) && InRange(f)
    ensures zip[at..at + 4] == LOCAL_MARK
    ensures NumberAt(zip, at + 26, 2) == |f.name| && NumberAt(zip, at + 28, 2) == 0
  {
    var fs := LocalFields(f);
    LocalWidths(f);
    SmallRanges();
    Marks();
    FieldBytes(fs, 0, zip, at);
    FieldReads(fs, 9, zip, at);
    FieldReads(fs, 10, zip, at);
  }

  lemma LocalIsRead(zip: seq<byte>, at: nat, f: File)
    requires Holds(zip, at, Body(f)) && InRange(f)
    ensures LocalReads(zip, at, f)
    ensures zip[at + 4..at + 30] == Encode(LocalFields(f), 11)[4..]
  {
    LocalWidths(f);
    var length := |Body(f)|;
    SliceOfSlice(zip, at, length, 0, 30);
    SliceOfSlice(zip, at, length, 30, |f.name|);
    SliceOfSlice(zip, at, length, 30 + |f.name|, |f.data|);
    SliceOfSlice(zip, at, 30, 4, 26);
    LocalNumbers(zip, at, f);
  }

  lemma CentralIsRead(zip: seq<byte>, at: nat, f: File, offset: nat)
    requires Holds(zip, at, CentralHeader(f, offset)) && InRange(f) && offset < 0x1_0000_0000
    ensures CentralReads(zip, at, f, offset)
    ensures
      var common := Encode(CentralFields(f, offset), 12);
      |common| == 32 && zip[at + 6..at + 32] == common[6..]
  {
    var fs := CentralFields(f, offset);
    CentralWidths(f, offset);
    SmallRanges();
    var length := 46 + |f.name|;
    SliceOfSlice(zip, at, length, 0, 46);
    SliceOfSlice(zip, at, length, 46, |f.name|);
    EncodePrefix(fs, 12, 17);
    SliceOfSlice(zip, at, 46, 6, 26);
    CentralNumbers(zip, at, f, offset);
  }

  lemma CentralNumbers(zip: seq<byte>, at: nat, f: File, offset: nat)
    requires at + 46 <= |zip| && zip[at..at + 46] == Encode(CentralFields(f, offset), 17)
    requires InRange(f) && offset < 0x1_0000_0000
    ensures zip[at..at + 4] == CENTRAL_MARK && Plain(zip, at)
    ensures NumberAt(zip, at + 12, 2) == f.time && NumberAt(zip, at + 14, 2) == f.date
    ensures NumberAt(zip, at + 16, 4) == f.crc
    ensures NumberAt(zip, at + 20, 4) == NumberAt(zip, at + 24, 4) == |f.data|
    ensures NumberAt(zip, at + 28, 2) == |f.name|
    ensures NumberAt(zip, at + 30, 2) == 0 && NumberAt(zip, at + 32, 2) == 0
    ensures NumberAt(zip, at + 38, 4) == f.attributes && NumberAt(zip, at + 42, 4) == offset
  {
    var fs := CentralFields(f, offset);
    CentralWidths(f, offset);
    SmallRanges();
    Marks();
    FieldBytes(fs, 0, zip, at);
    FieldReads(fs, 1, zip, at);
    FieldReads(fs, 2, zip, at);
    FieldReads(fs, 3, zip, at);
    FieldReads(fs, 4, zip, at);
    FieldReads(fs, 5, zip, at);
    FieldReads(fs, 6, zip, at);
    FieldReads(fs, 7, zip, at);
    FieldReads(fs, 8, zip, at);
    FieldReads(fs, 9, zip, at);
    FieldReads(fs, 10, zip, at);
    FieldReads(fs, 11, zip, at);
    FieldReads(fs, 12, zip, at);
    FieldReads(fs, 15, zip, at);
    FieldReads(fs, 16, zip, at);
  }

  /** The bytes the two headers of one file have in common. */
  lemma HeadersAgree(f: File, offset: nat)
    ensures
      var local, central := Encode(LocalFields(f), 11), Encode(CentralFields(f, offset), 12);
      |local| == 30 && |central| == 32 && local[4..] == central[6..]
  {
    LocalWidths(f);
    CentralWidths(f, offset);
    CommonFields(LocalFields(f), 1, CentralFields(f, offset), 2, 10);
  }

  lemma FileIsRead(zip: seq<byte>, at: nat, f: File, offset: nat)
    requires CentralReads(zip, at, f, offset) && LocalReads(zip, offset, f)
    requires zip[offset + 4..offset + 30] == zip[at + 6..at + 32]
    ensures ReadEntry(zip, at) == Ok(Found(f, at + 46 + |f.name|))
  {
  }

  lemma SharedBytes(zip: seq<byte>, at: nat, f: File, offset: nat)
    requires Holds(zip, at, CentralHeader(f, offset)) && Holds(zip, offset, Body(f))
    requires InRange(f) && offset < 0x1_0000_0000
    ensures CentralReads(zip, at, f, offset) && LocalReads(zip, offset, f)
    ensures zip[offset + 4..offset + 30] == zip[at + 6..at + 32]
    ensures |CentralHeader(f, offset)| == 46 + |f.name|
  {
    CentralWidths(f, offset);
    LocalIsRead(zip, offset, f);
    CentralIsRead(zip, at, f, offset);
    HeadersAgree(f, offset);
  }

  /** The central header of a file stands from `at` to `next`, its body at `offset`. */
  ghost predicate Stands(zip: seq<byte>, at: nat, next: nat, f: File, offset: nat) {
    && Holds(zip, at, CentralHeader(f, offset)) && Holds(zip, offset, Body(f))
      && next == at + |CentralHeader(f, offset)|
    && InRange(f) && offset < 0x1_0000_0000
  }

  lemma EntryIsRead(zip: seq<byte>, at: nat, next: nat, f: File, offset: nat)
    requires Stands(zip, at, next, f, offset)
    ensures ReadEntry(zip, at) == Ok(Found(f, next))
  {
    SharedBytes(zip, at, f, offset);
    FileIsRead(zip, at, f, offset);
  }

  /** Headers that are each read one after the other are read together. */
  lemma {:induction false} FilesAreRead(read: nat -> Result<Found, Error>, at: seq<nat>, files: seq<File>, k: nat)
    requires |at| == |files| + 1 && k <= |files|
    requires forall i {:trigger files[i]} :: 0 <= i < |files| ==> read(at[i]) == Ok(Found(files[i], at[i + 1]))
    ensures ReadFiles(read, at[k], |files| - k, at[|files|]) == Ok(files[k..])
    decreases |files| - k
  {
    if k < |files| {
      FilesAreRead(read, at, files, k + 1);
      assert [files[k]] + files[k + 1..] == files[k..];
    }
  }

  lemma EndIsRead(zip: seq<byte>, front: nat, count: nat, central: nat)
    requires count < 0x1_0000 && central < 0x1_0000_0000 && front < 0x1_0000_0000
    requires |zip| == front + central + 22 && zip[front + central..] == Encode(EndFields(count, central, front), 8)
    ensures zip[|zip| - 22..|zip| - 18] == END_MARK
    ensures NumberAt(zip, |zip| - 22 + 10, 2) == count && NumberAt(zip, |zip| - 22 + 12, 4) == central
    ensures NumberAt(zip, |zip| - 22 + 16, 4) == front
  {
    var fs := EndFields(count, central, front);
    EndWidths(count, central, front);
    SmallRanges();
    Marks();
    FieldBytes(fs, 0, zip, front + central);
    FieldReads(fs, 4, zip, front + central);
    FieldReads(fs, 5, zip, front + central);
    FieldReads(fs, 6, zip, front + central);
  }

  ghost predicate AllInRange(files: seq<File>) {
    && |files| < 0x1_0000
    && (forall i :: 0 <= i < |files| ==> InRange(files[i]))
    && |Concat(Bodies(files))| < 0x1_0000_0000
    && |Concat(Headers(files))| < 0x1_0000_0000
  }

  /** Where each central header begins, and where the last one ends. */
  ghost function Positions(front: nat, headers: seq<seq<byte>>): (at: seq<nat>)
    ensures |at| == |headers| + 1
  {
    seq(|headers| + 1, k requires 0 <= k <= |headers| => front + |Concat(headers[..k])|)
  }

  ghost predicate AllStand(zip: seq<byte>, at: seq<nat>, files: seq<File>, offsets: seq<nat>) {
    && |at| == |files| + 1 && |offsets| == |files|
    && forall i {:trigger files[i]} :: 0 <= i < |files| ==> Stands(zip, at[i], at[i + 1], files[i], offsets[i])
  }

  lemma {:induction false} StandingIsRead(zip: seq<byte>, at: seq<nat>, files: seq<File>, offsets: seq<nat>)
    requires AllStand(zip, at, files, offsets)
    ensures ReadFiles(Reader(zip), at[0], |files|, at[|files|]) == Ok(files)
  {
    var read := Reader(zip);
    forall i {:trigger files[i]} | 0 <= i < |files| ensures read(at[i]) == Ok(Found(files[i], at[i + 1])) {
      EntryIsRead(zip, at[i], at[i + 1], files[i], offsets[i]);
    }
    FilesAreRead(read, at, files, 0);
  }

  lemma {:induction false} EachStands(
    bodies: seq<seq<byte>>, headers: seq<seq<byte>>, zip: seq<byte>, tail: seq<byte>, k: nat)
    requires k < |bodies| == |headers| && zip == Concat(bodies) + Concat(headers) + tail
    ensures
      var at := Positions(|Concat(bodies)|, headers);
      && |Concat(bodies[..k])| <= |Concat(bodies)| && Holds(zip, |Concat(bodies[..k])|, bodies[k])
      && Holds(zip, at[k], headers[k]) && at[k + 1] == at[k] + |headers[k]|
  {
    var front := Concat(bodies);
    assert zip == front + (Concat(headers) + tail);
    BodyStands(bodies, Concat(headers) + tail, zip, k);
    HeaderStands(front, headers, tail, zip, k);
    ConcatGrows(headers, k);
  }

  ghost function Offsets(files: seq<File>): (offsets: seq<nat>)
    ensures |offsets| == |files|
  {
    seq(|files|, k requires 0 <= k < |files| => OffsetOf(files, k))
  }

  lemma {:induction false} LayoutStands(
    files: seq<File>, bodies: seq<seq<byte>>, headers: seq<seq<byte>>, zip: seq<byte>, tail: seq<byte>)
    requires AllInRange(files) && bodies == Bodies(files) && headers == Headers(files)
    requires zip == Concat(bodies) + Concat(headers) + tail
    ensures AllStand(zip, Positions(|Concat(bodies)|, headers), files, Offsets(files))
  {
    var at, offsets := Positions(|Concat(bodies)|, headers), Offsets(files);
    forall i {:trigger files[i]} | 0 <= i < |files| ensures Stands(zip, at[i], at[i + 1], files[i], offsets[i]) {
      EachStands(bodies, headers, zip, tail, i);
    }
  }

  lemma EndLeadsOn(zip: seq<byte>, at: seq<nat>, files: seq<File>, offsets: seq<nat>)
    requires AllStand(zip, at, files, offsets) && |files| < 0x1_0000
    requires at[0] <= at[|files|] == |zip| - 22 && at[0] < 0x1_0000_0000 && at[|files|] - at[0] < 0x1_0000_0000
    requires zip[|zip| - 22..] == Encode(EndFields(|files|, at[|files|] - at[0], at[0]), 8)
    ensures ReadArchive(zip) == Ok(files)
  {
    EndIsRead(zip, at[0], |files|, at[|files|] - at[0]);
    StandingIsRead(zip, at, files, offsets);
  }

  lemma PositionsEnd(front: nat, headers: seq<seq<byte>>)
    ensures
      var at := Positions(front, headers);
      at[0] == front && at[|headers|] == front + |Concat(headers)|
  {
    assert headers[..0] == [] && headers[..|headers|] == headers;
  }

  /** The pieces put together, whatever they are. */
  lemma {:induction false} LaidOut(
    files: seq<File>, bodies: seq<byte>, central: seq<byte>, tail: seq<byte>, at: seq<nat>, offsets: seq<nat>)
    requires AllStand(bodies + central + tail, at, files, offsets) && |files| < 0x1_0000
    requires at[0] == |bodies| < 0x1_0000_0000 && at[|files|] == |bodies| + |central| && |central| < 0x1_0000_0000
    requires |tail| == 22 && tail == Encode(EndFields(|files|, |central|, |bodies|), 8)
    ensures ReadArchive(bodies + central + tail) == Ok(files)
  {
    EndLeadsOn(bodies + central + tail, at, files, offsets);
  }

  lemma {:induction false} FileArchiveIsReadable(files: seq<File>)
    requires AllInRange(files)
    ensures ReadArchive(Archive(files)) == Ok(files)
  {
    var bodies, headers := Bodies(files), Headers(files);
    var front, central := Concat(bodies), Concat(headers);
    var tail := Encode(EndFields(|files|, |central|, |front|), 8);
    EndWidths(|files|, |central|, |front|);
    LayoutStands(files, bodies, headers, front + central + tail, tail);
    PositionsEnd(|front|, headers);
    LaidOut(files, front, central, tail, Positions(|front|, headers), Offsets(files));
  }

  /** A reader that follows the end record finds every entry, in order, with its name, data and metadata. */
  lemma ArchiveIsReadable(es: seq<Entry>)
    requires Fits(es)
    ensures ReadArchive(Archive(AsFiles(es))) == Ok(AsFiles(es))
  {
    var files := AsFiles(es);
    forall i | 0 <= i < |es| ensures InRange(files[i]) {
      PieceStands(Bodies(files), i);
    }
    FileArchiveIsReadable(files);
  }

  // What does not fit is not read back: the writer does not refuse it.

  lemma NumberFits(bytes: seq<byte>, at: nat, width: nat)
    requires at + width <= |bytes|
    ensures NumberAt(bytes, at, width) < Range(width)
  {
    NumbersFit(bytes[at..at + width]);
  }

  /** No reader finds a name of 65536 bytes or more. */
  lemma NamesFit(zip: seq<byte>, at: nat)
    ensures ReadFile(zip, at).Ok? ==> |ReadFile(zip, at).value.name| < 0x1_0000
  {
    SmallRanges();
    if at + 46 <= |zip| {
      NumberFits(zip, at + 28, 2);
    }
  }

  ghost predicate AllNamesFit(files: seq<File>) {
    forall i :: 0 <= i < |files| ==> |files[i].name| < 0x1_0000
  }

  lemma {:induction false} ReadFilesFit(read: nat -> Result<Found, Error>, at: nat, count: nat, end: nat)
    requires forall a :: read(a).Ok? ==> |read(a).value.file.name| < 0x1_0000
    ensures
      var r := ReadFiles(read, at, count, end);
      r.Ok? ==> |r.value| == count && AllNamesFit(r.value)
    decreases count
  {
    if count > 0 && read(at).Ok? {
      ReadFilesFit(read, read(at).value.next, count - 1, end);
    }
  }

  lemma ReadArchiveFits(zip: seq<byte>)
    ensures
      var r := ReadArchive(zip);
      r.Ok? ==> |r.value| < 0x1_0000 && AllNamesFit(r.value)
  {
    if |zip| >= 22 {
      var size, at := NumberAt(zip, |zip| - 22 + 12, 4), NumberAt(zip, |zip| - 22 + 16, 4);
      SmallRanges();
      NumberFits(zip, |zip| - 22 + 10, 2);
      forall a | Reader(zip)(a).Ok? ensures |Reader(zip)(a).value.file.name| < 0x1_0000 {
        NamesFit(zip, a);
      }
      ReadFilesFit(Reader(zip), at, NumberAt(zip, |zip| - 22 + 10, 2), at + size);
    }
  }

  /** What the end record says of the two totals. */
  lemma TotalsSaid(zip: seq<byte>)
    requires ReadArchive(zip).Ok?
    ensures |zip| >= 22
    ensures
      var central, front := NumberAt(zip, |zip| - 22 + 12, 4), NumberAt(zip, |zip| - 22 + 16, 4);
      front + central == |zip| - 22 && front < 0x1_0000_0000 && central < 0x1_0000_0000
  {
    SmallRanges();
    NumberFits(zip, |zip| - 22 + 12, 4);
    NumberFits(zip, |zip| - 22 + 16, 4);
  }

  lemma TotalsAreNotMore(zip: seq<byte>, front: nat, count: nat, central: nat)
    requires |zip| == front + central + 22 && zip[front + central..] == Encode(EndFields(count, central, front), 8)
    ensures NumberAt(zip, |zip| - 22 + 12, 4) <= central && NumberAt(zip, |zip| - 22 + 16, 4) <= front
  {
    var fs := EndFields(count, central, front);
    EndWidths(count, central, front);
    FieldIsNotMore(fs, 5, zip, front + central);
    FieldIsNotMore(fs, 6, zip, front + central);
  }

  /** They only add up to the archive's length if they are the real ones. */
  lemma TotalsFit(zip: seq<byte>, front: nat, count: nat, central: nat)
    requires |zip| == front + central + 22 && zip[front + central..] == Encode(EndFields(count, central, front), 8)
    requires ReadArchive(zip).Ok?
    ensures front < 0x1_0000_0000 && central < 0x1_0000_0000
  {
    TotalsSaid(zip);
    TotalsAreNotMore(zip, front, count, central);
  }

  lemma OnlyIfTotalsFit(files: seq<File>)
    requires ReadArchive(Archive(files)).Ok?
    ensures |Concat(Bodies(files))| < 0x1_0000_0000 && |Concat(Headers(files))| < 0x1_0000_0000
  {
    var front, central := Concat(Bodies(files)), Concat(Headers(files));
    EndWidths(|files|, |central|, |front|);
    TotalsFit(Archive(files), |front|, |files|, |central|);
  }

  /** An archive is read back, every entry in order with its name, data and metadata, if and only if everything
      fits: fewer than 65536 entries, names shorter than that, and less than 4 GiB of bodies and of headers. */
  lemma ReadableExactly(es: seq<Entry>)
    ensures ReadArchive(Archive(AsFiles(es))) == Ok(AsFiles(es)) <==> Fits(es)
  {
    var files := AsFiles(es);
    if Fits(es) {
      ArchiveIsReadable(es);
    }
    if ReadArchive(Archive(files)) == Ok(files) {
      ReadArchiveFits(Archive(files));
      OnlyIfTotalsFit(files);
      assert forall i :: 0 <= i < |es| ==> files[i].name == es[i].name;
    }
  }

  /** No archive of 65536 entries or more is read back. */
  lemma TooManyEntries(es: seq<Entry>)
    requires |es| >= 0x1_0000
    ensures ReadArchive(Archive(AsFiles(es))) != Ok(AsFiles(es))
  {
    ReadableExactly(es);
  }
}
