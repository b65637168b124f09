/** Notepad documents, their order, and the workspace that keeps the highest document of every pad. */
module Document {
  import opened Wrappers
  import opened Bytes

  type uint64 = n: nat | n < 0x1_0000_0000_0000_0000
  type int64 = n: int | -0x8000_0000_0000_0000 <= n < 0x8000_0000_0000_0000

  const MAX_REVISION: uint64 := 0xffff_ffff_ffff_ffff
  const MAX_TIMESTAMP: int64 := 0x7fff_ffff_ffff_ffff
  const MAX_TEXT := 1048576
  const MAX_PAD := 64

  /** Pad names are read as characters, because they are trimmed; texts are compared byte by byte. */
  datatype Document = Document(pad: string, text: seq<byte>, revision: uint64, timestamp: int64)

  datatype Error = Invalid

  // Pad names.

  predicate IsSpace(c: char) {
    || c in "\t\n\U{0B}\U{0C}\r \U{85}\U{A0}\U{1680}\U{2028}\U{2029}\U{202F}\U{205F}\U{3000}"
    || '\U{2000}' <= c <= '\U{200A}'
  }

  function TrimLeft(s: string): string {
    if s != [] && IsSpace(s[0]) then TrimLeft(s[1..]) else s
  }

  function TrimRight(s: string): string {
    if s != [] && IsSpace(s[|s| - 1]) then TrimRight(s[..|s| - 1]) else s
  }

  function NormalizePad(pad: string): string {
    var trimmed := TrimRight(TrimLeft(pad));
    if trimmed == [] then "main" else trimmed
  }

  ghost predicate Trimmed(s: string) {
    s != [] ==> !IsSpace(s[0]) && !IsSpace(s[|s| - 1])
  }

  lemma {:induction false} LeftIsTrimmed(s: string)
    ensures TrimLeft(s) != [] ==> !IsSpace(TrimLeft(s)[0])
  {
    if s != [] && IsSpace(s[0]) {
      LeftIsTrimmed(s[1..]);
    }
  }

  lemma {:induction false} RightIsTrimmed(s: string)
    requires s != [] ==> !IsSpace(s[0])
    ensures Trimmed(TrimRight(s))
  {
    if s != [] && IsSpace(s[|s| - 1]) {
      RightIsTrimmed(s[..|s| - 1]);
    }
  }

  lemma TrimmedStays(s: string)
    requires s != [] && Trimmed(s)
    ensures NormalizePad(s) == s
  {
  }

  lemma MainIsTrimmed()
    ensures "main" != [] && Trimmed("main")
  {
    assert "main"[0] == 'm' && "main"[3] == 'n';
  }

  /** Normal names are not empty, are trimmed, and stay as they are. */
  lemma NormalPads(pad: string)
    ensures NormalizePad(pad) != [] && Trimmed(NormalizePad(pad))
    ensures NormalizePad(NormalizePad(pad)) == NormalizePad(pad)
  {
    LeftIsTrimmed(pad);
    RightIsTrimmed(TrimLeft(pad));
    MainIsTrimmed();
    TrimmedStays(NormalizePad(pad));
  }

  ghost predicate Blank(s: string) {
    forall i :: 0 <= i < |s| ==> IsSpace(s[i])
  }

  lemma {:induction false} LeftIsBlank(s: string) returns (l: string)
    ensures s == l + TrimLeft(s) && Blank(l)
  {
    l := [];
    if s != [] && IsSpace(s[0]) {
      var rest := LeftIsBlank(s[1..]);
      l := [s[0]] + rest;
    }
  }

  lemma {:induction false} RightIsBlank(s: string) returns (r: string)
    ensures s == TrimRight(s) + r && Blank(r)
  {
    r := [];
    if s != [] && IsSpace(s[|s| - 1]) {
      var rest := RightIsBlank(s[..|s| - 1]);
      r := rest + [s[|s| - 1]];
    }
  }

  /** Only the blanks around a name are taken away, and only a name of nothing but blanks becomes the default. */
  lemma NormalPadsAreNamed(pad: string) returns (l: string, r: string)
    ensures Blank(l) && Blank(r)
    ensures pad == l + (if Blank(pad) then [] else NormalizePad(pad)) + r
    ensures Blank(pad) ==> NormalizePad(pad) == "main"
  {
    l := LeftIsBlank(pad);
    var middle := TrimLeft(pad);
    r := RightIsBlank(middle);
    var trimmed := TrimRight(middle);
    assert pad == l + trimmed + r;
    LeftIsTrimmed(pad);
    RightIsTrimmed(middle);
    if Blank(pad) {
      forall i | 0 <= i < |trimmed| ensures IsSpace(trimmed[i]) {
        assert trimmed[i] == pad[|l| + i];
      }
    } else {
      var i :| 0 <= i < |pad| && !IsSpace(pad[i]);
      assert pad[i] == (l + trimmed + r)[i];
    }
  }

  function Utf8Length(s: string): nat {
    if s == [] then 0
    else
      Utf8Length(s[1..])
      + if s[0] < '\U{80}' then 1 else if s[0] < '\U{800}' then 2 else if s[0] < '\U{10000}' then 3 else 4
  }

  predicate ValidPad(pad: string) {
    && pad != [] && Utf8Length(pad) <= MAX_PAD
    && '\0' !in pad && '\r' !in pad && '\n' !in pad
  }

  predicate ValidText(text: seq<byte>) {
    |text| <= MAX_TEXT
  }

  predicate ValidDocument(d: Document) {
    ValidPad(d.pad) && ValidText(d.text) && d.revision != 0 && d.timestamp > 0
  }

  // The order of documents.

  function CompareTexts(l: seq<byte>, r: seq<byte>): int {
    if l == [] then if r == [] then 0 else -1
    else if r == [] then 1
    else if l[0] < r[0] then -1
    else if l[0] > r[0] then 1
    else CompareTexts(l[1..], r[1..])
  }

  function Compare(l: Document, r: Document): int {
    if l.revision < r.revision then -1
    else if l.revision > r.revision then 1
    else if l.timestamp < r.timestamp then -1
    else if l.timestamp > r.timestamp then 1
    else CompareTexts(l.text, r.text)
  }

  lemma {:induction false} TextOrder(l: seq<byte>, r: seq<byte>)
    ensures CompareTexts(l, r) in {-1, 0, 1}
    ensures CompareTexts(l, r) == -CompareTexts(r, l)
    ensures CompareTexts(l, r) == 0 <==> l == r
  {
    if l != [] && r != [] {
      TextOrder(l[1..], r[1..]);
      assert l == [l[0]] + l[1..] && r == [r[0]] + r[1..];
    }
  }

  lemma {:induction false} TextsTransitive(a: seq<byte>, b: seq<byte>, c: seq<byte>)
    requires CompareTexts(a, b) <= 0 && CompareTexts(b, c) <= 0
    ensures CompareTexts(a, c) <= 0
  {
    if a != [] && b != [] && c != [] && a[0] == b[0] == c[0] {
      TextsTransitive(a[1..], b[1..], c[1..]);
    }
  }

  /** The comparison is antisymmetric, and equal only for documents that differ in the pad at most. */
  lemma OrderIsTotal(l: Document, r: Document)
    ensures Compare(l, r) in {-1, 0, 1}
    ensures Compare(l, r) == -Compare(r, l)
    ensures Compare(l, r) == 0 <==> l == r.(pad := l.pad)
  {
    TextOrder(l.text, r.text);
  }

  lemma OrderIsTransitive(a: Document, b: Document, c: Document)
    requires Compare(a, b) <= 0 && Compare(b, c) <= 0
    ensures Compare(a, c) <= 0
    ensures Compare(a, b) < 0 || Compare(b, c) < 0 ==> Compare(a, c) < 0
  {
    TextOrder(a.text, b.text);
    TextOrder(b.text, c.text);
    TextOrder(a.text, c.text);
    if CompareTexts(a.text, b.text) <= 0 && CompareTexts(b.text, c.text) <= 0 {
      TextsTransitive(a.text, b.text, c.text);
    }
  }

  /** `l` comes first: behind `k` bytes in common it ends, or has the lower byte. */
  ghost predicate FirstAt(l: seq<byte>, r: seq<byte>, k: nat) {
    && k <= |l| && k < |r| && l[..k] == r[..k]
    && (k == |l| || l[k] < r[k])
  }

  ghost predicate ComesFirst(l: seq<byte>, r: seq<byte>) {
    exists k: nat :: FirstAt(l, r, k)
  }

  lemma FirstBehind(l: seq<byte>, r: seq<byte>, k: nat)
    requires l != [] && r != [] && l[0] == r[0]
    ensures FirstAt(l, r, k + 1) <==> FirstAt(l[1..], r[1..], k)
  {
    if k + 1 <= |l| && k + 1 <= |r| {
      assert l[..k + 1] == [l[0]] + l[1..][..k] && r[..k + 1] == [r[0]] + r[1..][..k];
      assert l[1..][..k] == l[..k + 1][1..] && r[1..][..k] == r[..k + 1][1..];
    }
  }

  lemma LaterIsNotFirst(l: seq<byte>, r: seq<byte>, k: nat)
    requires r == [] || (l != [] && l[0] > r[0])
    ensures !FirstAt(l, r, k)
  {
    if 0 < k && k <= |l| && k < |r| {
      assert l[..k][0] != r[..k][0];
    }
  }

  lemma {:induction false} TextsAreAlphabetical(l: seq<byte>, r: seq<byte>)
    ensures CompareTexts(l, r) < 0 <==> ComesFirst(l, r)
  {
    if l != [] && r != [] && l[0] == r[0] {
      TextsAreAlphabetical(l[1..], r[1..]);
      if ComesFirst(l[1..], r[1..]) {
        var k: nat :| FirstAt(l[1..], r[1..], k);
        FirstBehind(l, r, k);
      }
      if ComesFirst(l, r) {
        var k: nat :| FirstAt(l, r, k);
        FirstBehind(l, r, k - 1);
      }
    } else if r != [] && (l == [] || l[0] < r[0]) {
      assert FirstAt(l, r, 0);
    } else {
      forall k: nat ensures !FirstAt(l, r, k) {
        LaterIsNotFirst(l, r, k);
      }
    }
  }

  /** The lower revision is the lower document; of equal revisions the earlier one is; of equal times the one whose
      text comes first. */
  lemma OrderIs(l: Document, r: Document)
    ensures Compare(l, r) < 0 <==>
      || l.revision < r.revision
      || (l.revision == r.revision && l.timestamp < r.timestamp)
      || (l.revision == r.revision && l.timestamp == r.timestamp && ComesFirst(l.text, r.text))
  {
    TextsAreAlphabetical(l.text, r.text);
  }

  // Workspaces as values.

  type Docs = map<string, Document>

  const NOTHING := Document("", [], 0, 0)

  /** The document of a pad, or the zero document. */
  function Current(docs: Docs, pad: string): Document {
    if pad in docs then docs[pad] else NOTHING
  }

  /** The document a local edit makes; both counters wrap around like the machine's. */
  function EditOf(current: Document, pad: string, text: seq<byte>, now: int64): Document {
    var revision := if current.revision == MAX_REVISION then 0 else current.revision + 1;
    var timestamp :=
      if now > current.timestamp then now
      else if current.timestamp == MAX_TIMESTAMP then -0x8000_0000_0000_0000
      else current.timestamp + 1;
    Document(pad, text, revision, timestamp)
  }

  function Edited(docs: Docs, pad: string, text: seq<byte>, now: int64): Document {
    EditOf(Current(docs, pad), pad, text, now)
  }

  function Edit(docs: Docs, pad: string, text: seq<byte>, now: int64): Result<Document, Error> {
    var name := NormalizePad(pad);
    if ValidPad(name) && ValidText(text) then Ok(Edited(docs, name, text, now)) else Err(Invalid)
  }

  function Normal(d: Document): Document {
    d.(pad := NormalizePad(d.pad))
  }

  predicate Taken(docs: Docs, d: Document) {
    ValidDocument(d) && Compare(d, Current(docs, d.pad)) > 0
  }

  class Workspace {
    var docs: Docs

    constructor ()
      ensures docs == map[]
    {
      docs := map[];
    }

    method Snapshot(pad: string) returns (d: Document)
      ensures d == if NormalizePad(pad) in docs then docs[NormalizePad(pad)] else Document(NormalizePad(pad), [], 0, 0)
    {
      var name := NormalizePad(pad);
      if name in docs {
        return docs[name];
      }
      return Document(name, [], 0, 0);
    }

    method Update(pad: string, text: seq<byte>, now: int64) returns (r: Result<Document, Error>)
      modifies this
      ensures r == Edit(old(docs), pad, text, now)
      ensures docs == if r.Ok? then old(docs)[NormalizePad(pad) := r.value] else old(docs)
    {
      var name := NormalizePad(pad);
      if !ValidPad(name) {
        return Err(Invalid);
      }
      if !ValidText(text) {
        return Err(Invalid);
      }
      var d := Edited(docs, name, text, now);
      docs := docs[name := d];
      return Ok(d);
    }

    method ApplyRemote(d: Document) returns (r: Result<(bool, Document), Error>)
      modifies this
      ensures r.Err? <==> !ValidDocument(Normal(d))
      ensures r.Ok? ==> r.value.0 == Taken(old(docs), Normal(d))
      ensures docs == if Taken(old(docs), Normal(d)) then old(docs)[Normal(d).pad := Normal(d)] else old(docs)
      ensures r.Ok? ==>
        r.value.1 == if Normal(d).pad in docs then Named(docs[Normal(d).pad], Normal(d).pad)
                     else Document(Normal(d).pad, [], 0, 0)
    {
      var document := Normal(d);
      if !ValidDocument(document) {
        return Err(Invalid);
      }
      var current := Current(docs, document.pad);
      if Compare(document, current) <= 0 {
        return Ok((false, Named(current, document.pad)));
      }
      docs := docs[document.pad := document];
      return Ok((true, document));
    }
  }

  function Named(d: Document, pad: string): Document {
    if d.pad == [] then d.(pad := pad) else d
  }
}
