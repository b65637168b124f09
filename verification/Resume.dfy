/** Agreeing where each file of a transfer resumes.

    The receiver offers, for every file that can be resumed, the length of its saved partial and the
    digest of it; the sender accepts the offer if its own file begins with those bytes and asks for
    a restart otherwise; the receiver cuts its partial to what was accepted. */
module Resume {
  import opened Wrappers
  import opened Bytes
  import opened WriteQueue
  import StreamPlan

  /** A digest in hexadecimal; its letters may be of either case until it is compared. */
  type Digest = string

  predicate IsHex(c: char) {
    '0' <= c <= '9' || 'a' <= c <= 'f' || 'A' <= c <= 'F'
  }

  predicate IsDigest(d: Digest) {
    |d| == 64 && forall i :: 0 <= i < 64 ==> IsHex(d[i])
  }

  function Lower(d: Digest): (l: Digest)
    ensures |l| == |d|
  {
    seq(|d|, i requires 0 <= i < |d| => if 'A' <= d[i] <= 'Z' then d[i] - 'A' + 'a' else d[i])
  }

  /** What hashing a file yields: digests in lower case. */
  ghost predicate Hashes(hash: seq<byte> -> Digest) {
    forall bytes :: IsDigest(hash(bytes)) && Lower(hash(bytes)) == hash(bytes)
  }

  /** A file item of the manifest: its bytes at the sender, and whether it can be resumed. */
  datatype Item = Item(bytes: seq<byte>, resumable: bool)

  /** An offer, or the answer to one. */
  datatype Offer = Offer(
    item: int, stream: Option<int>, offset: int, prefix: Option<Digest>, sha256: Option<Digest>,
    skip: bool, complete: bool)

  datatype Error =
    | ItemOutOfRange | WrongStream | NegativeOffset | BadPrefix | BadDigest | MissingDigest | CompleteWithoutSkip
      | SkipOffset | SkipWithPrefix
    | UnexpectedSkip | ConflictingDigest | DuplicateAnswer | UncoveredFile | OffsetIncreased

  function StreamOf(item: nat): int {
    item + 1
  }

  /** That is where the plan of the manifest has it. */
  lemma StreamsFollowPlan(items: nat, plan: StreamPlan.Plan)
    requires StreamPlan.WellIndexed(plan) && plan.bindings == StreamPlan.Consecutive(items, 1)
    ensures forall i: nat :: i < items ==> i in plan.byItem && plan.byItem[i] == StreamOf(i)
  {
    forall i: nat | i < items ensures i in plan.byItem && plan.byItem[i] == StreamOf(i) {
      var b := plan.bindings[i];
      assert b in plan.bindings && b.item in plan.byItem;
    }
  }

  function Clamp(n: int, high: nat): (c: nat)
    ensures 0 <= n <= high ==> c == n
    ensures c <= high
  {
    if n < 0 then 0 else if n > high then high else n
  }

  /** The offset to use, or why the entry is refused. `sizes` are the manifest's file sizes. */
  function CheckOffer(sizes: seq<nat>, o: Offer): Result<nat, Error> {
    if o.item < 0 || o.item >= |sizes| then Err(ItemOutOfRange)
    else if o.stream.Some? && o.stream.value != StreamOf(o.item) then Err(WrongStream)
    else if o.offset < 0 then Err(NegativeOffset)
    else if o.prefix.Some? && !IsDigest(o.prefix.value) then Err(BadPrefix)
    else if o.sha256.Some? && !IsDigest(o.sha256.value) then Err(BadDigest)
    else if o.complete && !o.skip then Err(CompleteWithoutSkip)
    else if o.skip && o.offset != sizes[o.item] then Err(SkipOffset)
    else if o.skip && o.prefix.Some? then Err(SkipWithPrefix)
    else Ok(Clamp(o.offset, sizes[o.item]))
  }

  /** An entry is valid exactly if it names a file of the manifest and its stream, its digests are digests, and a
      skip, and only a skip, may say that the file is complete; a skip covers the whole file and needs no prefix.
      What is used of a larger offset is the size of the file. */
  lemma EntryIsValidExactly(sizes: seq<nat>, o: Offer)
    ensures CheckOffer(sizes, o).Ok? <==>
      && 0 <= o.item < |sizes| && (o.stream == None || o.stream == Some(o.item + 1)) && o.offset >= 0
      && (o.prefix == None || IsDigest(o.prefix.value)) && (o.sha256 == None || IsDigest(o.sha256.value))
      && (o.complete ==> o.skip) && (o.skip ==> o.offset == sizes[o.item] && o.prefix == None)
    ensures CheckOffer(sizes, o).Ok? ==>
      var used := CheckOffer(sizes, o).value;
      if o.offset <= sizes[o.item] then used == o.offset else used == sizes[o.item]
  {
  }

  function Sizes(items: seq<Item>): (sizes: seq<nat>)
    ensures |sizes| == |items| && forall i :: 0 <= i < |items| ==> sizes[i] == |items[i].bytes|
  {
    seq(|items|, i requires 0 <= i < |items| => |items[i].bytes|)
  }

  // The receiver's offers.

  /** The receiver's stores, each opened on the partial it found. */
  function OpenAll(items: seq<Item>, partials: seq<seq<byte>>, worker: bool): (stores: seq<Store>)
    requires |partials| == |items|
    ensures |stores| == |items|
    ensures forall i :: 0 <= i < |items| ==>
              stores[i] == OpenOn(partials[i], |items[i].bytes|, items[i].resumable, worker)
  {
    seq(|items|, i requires 0 <= i < |items| => OpenOn(partials[i], |items[i].bytes|, items[i].resumable, worker))
  }

  function OfferFor(stores: seq<Store>, i: nat, hash: seq<byte> -> Digest): Offer
    requires i < |stores|
  {
    var s := stores[i];
    Offer(i, Some(StreamOf(i)), s.offset, if s.offset > 0 then Some(hash(s.file)) else None, None, false, false)
  }

  /** One offer for each of the first `n` files that can be resumed. */
  function Offers(items: seq<Item>, stores: seq<Store>, hash: seq<byte> -> Digest, n: nat): (os: seq<Offer>)
    requires n <= |items| == |stores|
    ensures |os| <= n
  {
    if n == 0 then []
    else
      var before := Offers(items, stores, hash, n - 1);
      if items[n - 1].resumable then before + [OfferFor(stores, n - 1, hash)] else before
  }

  // The sender's answers.

  /** The digest of a whole file: the manifest's, if it gave one. */
  function FullDigest(bytes: seq<byte>, given: Option<Digest>, hash: seq<byte> -> Digest): Digest {
    if given.Some? then Lower(given.value) else hash(bytes)
  }

  function PrefixDigest(bytes: seq<byte>, offset: nat, given: Option<Digest>, hash: seq<byte> -> Digest): Digest
    requires offset <= |bytes|
  {
    if offset == |bytes| then FullDigest(bytes, given, hash) else hash(bytes[..offset])
  }

  /** The sender accepts a partial that its file begins with, and otherwise restarts from zero. */
  function AcceptedOffset(
    bytes: seq<byte>, offset: nat, prefix: Option<Digest>, given: Option<Digest>, hash: seq<byte> -> Digest): nat
    requires offset <= |bytes|
  {
    if offset > 0 && prefix.Some? && PrefixDigest(bytes, offset, given, hash) != Lower(prefix.value) then 0 else offset
  }

  function Answer(
    items: seq<Item>, digests: seq<Option<Digest>>, o: Offer, hash: seq<byte> -> Digest): Result<Offer, Error>
    requires |digests| == |items|
  {
    var checked := CheckOffer(Sizes(items), o);
    if checked.Err? then Err(checked.error)
    else if o.skip then Ok(o.(offset := checked.value, sha256 := None))
    else
      var bytes, given := items[o.item].bytes, digests[o.item];
      Ok(o.(offset := AcceptedOffset(bytes, checked.value, o.prefix, given, hash), prefix := None,
            sha256 := Some(FullDigest(bytes, given, hash))))
  }

  /** The manifest's digest of a file, if it gave one, is the file's. */
  ghost predicate TrueDigest(given: Option<Digest>, bytes: seq<byte>, hash: seq<byte> -> Digest) {
    given.Some? ==> Lower(given.value) == hash(bytes)
  }

  /** A valid offer is answered with its offset if the file begins with the bytes its digest was made of, or if it
      has no digest, and with zero otherwise; a skip is answered as it is. */
  lemma AnswersExactly(items: seq<Item>, digests: seq<Option<Digest>>, o: Offer, hash: seq<byte> -> Digest)
    requires |digests| == |items| && CheckOffer(Sizes(items), o).Ok?
    requires Hashes(hash) && TrueDigest(digests[o.item], items[o.item].bytes, hash)
    ensures
      var bytes := items[o.item].bytes;
      var offset := Clamp(o.offset, |bytes|);
      var a := Answer(items, digests, o, hash);
      && a.Ok? && a.value.item == o.item && a.value.stream == o.stream && a.value.skip == o.skip
      && (o.skip ==> a.value.offset == |bytes| && a.value.sha256 == None)
      && (!o.skip ==> a.value.sha256 == Some(hash(bytes)))
      && (!o.skip && (o.prefix == None || hash(bytes[..offset]) == Lower(o.prefix.value)) ==> a.value.offset == offset)
      && (!o.skip && o.prefix.Some? && hash(bytes[..offset]) != Lower(o.prefix.value) ==> a.value.offset == 0)
  {
    assert items[o.item].bytes[..|items[o.item].bytes|] == items[o.item].bytes;
  }

  ghost predicate AnsweredAll(
    items: seq<Item>, digests: seq<Option<Digest>>, offers: seq<Offer>, hash: seq<byte> -> Digest, answers: seq<Offer>)
    requires |digests| == |items|
  {
    |answers| == |offers| && forall k :: 0 <= k < |offers| ==> Answer(items, digests, offers[k], hash) == Ok(answers[k])
  }

  /** The sender remembers, for each item offered, an offset it answered with. */
  ghost predicate Recorded(offers: seq<Offer>, answers: seq<Offer>, offsets: map<int, nat>)
    requires |answers| == |offers|
  {
    && (forall k :: 0 <= k < |offers| ==> offers[k].item in offsets)
    && (forall i :: i in offsets ==>
      exists k :: 0 <= k < |offers| && offers[k].item == i && offsets[i] == answers[k].offset)
  }

  lemma RecordOne(offers: seq<Offer>, answers: seq<Offer>, offsets: map<int, nat>, o: Offer, a: Offer)
    requires |answers| == |offers| && Recorded(offers, answers, offsets) && a.offset >= 0
    ensures Recorded(offers + [o], answers + [a], offsets[o.item := a.offset])
  {
    var os, more, now := offers + [o], answers + [a], offsets[o.item := a.offset as nat];
    forall i | i in now
      ensures exists k :: 0 <= k < |os| && os[k].item == i && now[i] == more[k].offset
    {
      if i == o.item {
        assert os[|offers|].item == i && more[|offers|] == a;
      } else {
        var k :| 0 <= k < |offers| && offers[k].item == i && offsets[i] == answers[k].offset;
        assert os[k] == offers[k] && more[k] == answers[k];
      }
    }
  }

  method AnswerOne(items: seq<Item>, digests: seq<Option<Digest>>, o: Offer, hash: seq<byte> -> Digest)
    returns (r: Result<Offer, Error>)
    requires |digests| == |items|
    ensures r == Answer(items, digests, o, hash) && (r.Ok? ==> r.value.offset >= 0)
  {
    var checked := CheckOffer(Sizes(items), o);
    if checked.Err? {
      return Err(checked.error);
    }
    var offset := checked.value;
    if o.skip {
      return Ok(o.(offset := offset, sha256 := None));
    }
    var bytes := items[o.item].bytes;
    var fullDigest := if digests[o.item].Some? then Lower(digests[o.item].value) else hash(bytes);
    if offset > 0 && o.prefix.Some? {
      var sourcePrefix := if offset == |bytes| then fullDigest else hash(bytes[..offset]);
      if sourcePrefix != Lower(o.prefix.value) {
        offset := 0;
      }
    }
    r := Ok(o.(offset := offset, prefix := None, sha256 := Some(fullDigest)));
  }

  /** The answers to all offers, and the offset agreed for each item that was offered. */
  method NegotiateSender(
    items: seq<Item>, digests: seq<Option<Digest>>, offers: seq<Offer>, hash: seq<byte> -> Digest)
    returns (r: Result<(seq<Offer>, map<int, nat>), Error>)
    requires |digests| == |items|
    ensures r.Err? <==> exists k :: 0 <= k < |offers| && Answer(items, digests, offers[k], hash).Err?
    ensures r.Ok? ==> AnsweredAll(items, digests, offers, hash, r.value.0) && Recorded(offers, r.value.0, r.value.1)
  {
    var answers: seq<Offer> := [];
    var offsets: map<int, nat> := map[];
    for n := 0 to |offers|
      invariant |answers| == n && AnsweredAll(items, digests, offers[..n], hash, answers)
      invariant Recorded(offers[..n], answers, offsets)
    {
      var answer := AnswerOne(items, digests, offers[n], hash);
      if answer.Err? {
        return Err(answer.error);
      }
      assert offers[..n + 1] == offers[..n] + [offers[n]];
      RecordOne(offers[..n], answers, offsets, offers[n], answer.value);
      answers := answers + [answer.value];
      offsets := offsets[offers[n].item := answer.value.offset];
    }
    assert offers[..|offers|] == offers;
    r := Ok((answers, offsets));
  }

  // The receiver applies the answers.

  /** What the receiver demands of one answer: an entry it would accept as an offer, not a skip, and
      no digest other than the one the manifest gave, or any digest at all if it gave none because digests are
      deferred. */
  predicate AnswerFits(sizes: seq<nat>, digests: seq<Option<Digest>>, deferred: bool, a: Offer)
    requires |digests| == |sizes|
  {
    && CheckOffer(sizes, a).Ok? && !a.skip
    && (deferred ==> a.sha256.Some?)
    && (a.sha256.Some? && digests[a.item].Some? ==> Lower(digests[a.item].value) == Lower(a.sha256.value))
  }

  /** Every answer fits, no file is answered twice, as many are answered as were offered, every
      store that can be resumed is, and none is told to resume beyond what it has. */
  ghost predicate AnswersFit(
    items: seq<Item>, digests: seq<Option<Digest>>, deferred: bool, stores: seq<Store>, offered: nat,
    answers: seq<Offer>)
    requires |digests| == |stores| == |items|
  {
    && (forall k :: 0 <= k < |answers| ==> AnswerFits(Sizes(items), digests, deferred, answers[k]))
    && (forall j, k :: 0 <= j < k < |answers| ==> answers[j].item != answers[k].item)
    && |answers| == offered
    && (forall i :: 0 <= i < |items| && items[i].resumable ==> AnswerOf(items, stores, answers, i))
  }

  ghost predicate AnswerOf(items: seq<Item>, stores: seq<Store>, answers: seq<Offer>, i: int)
    requires 0 <= i < |stores| == |items|
  {
    exists k :: 0 <= k < |answers| && answers[k].item == i
      && Clamp(answers[k].offset, |items[i].bytes|) <= stores[i].offset
  }

  ghost predicate Indexed(items: seq<Item>, answers: seq<Offer>, index: map<int, nat>) {
    && (forall i :: i in index ==> exists k :: 0 <= k < |answers| && answers[k].item == i)
    && (forall k :: 0 <= k < |answers| ==>
        && 0 <= answers[k].item < |items| && answers[k].item in index
        && index[answers[k].item] == Clamp(answers[k].offset, |items[answers[k].item].bytes|))
  }

  lemma {:induction false} IndexOne(items: seq<Item>, answers: seq<Offer>, index: map<int, nat>, a: Offer)
    requires Indexed(items, answers, index) && 0 <= a.item < |items| && a.item !in index
    ensures Indexed(items, answers + [a], index[a.item := Clamp(a.offset, |items[a.item].bytes|)])
  {
    var more := answers + [a];
    forall i | i in index ensures exists k :: 0 <= k < |more| && more[k].item == i {
      var k :| 0 <= k < |answers| && answers[k].item == i;
      assert more[k].item == i;
    }
    assert more[|answers|] == a;
  }

  method CheckAnswer(items: seq<Item>, digests: seq<Option<Digest>>, deferred: bool, a: Offer)
    returns (r: Result<nat, Error>)
    requires |digests| == |items|
    ensures r.Ok? <==> AnswerFits(Sizes(items), digests, deferred, a)
    ensures r.Ok? ==> r.value == Clamp(a.offset, |items[a.item].bytes|)
  {
    r := CheckOffer(Sizes(items), a);
    if r.Err? {
      return;
    }
    if a.skip {
      return Err(UnexpectedSkip);
    }
    if deferred && a.sha256.None? {
      return Err(MissingDigest);
    }
    if a.sha256.Some? && digests[a.item].Some? && Lower(digests[a.item].value) != Lower(a.sha256.value) {
      return Err(ConflictingDigest);
    }
  }

  /** Indexes the answers by item after checking each of them. */
  method IndexAnswers(
    items: seq<Item>, digests: seq<Option<Digest>>, deferred: bool, offered: nat, answers: seq<Offer>)
    returns (r: Result<map<int, nat>, Error>)
    requires |digests| == |items|
    ensures r.Ok? <==>
      && (forall k :: 0 <= k < |answers| ==> AnswerFits(Sizes(items), digests, deferred, answers[k]))
      && (forall j, k :: 0 <= j < k < |answers| ==> answers[j].item != answers[k].item)
      && |answers| == offered
    ensures r.Ok? ==> Indexed(items, answers, r.value)
  {
    var index: map<int, nat> := map[];
    for n := 0 to |answers|
      invariant forall k :: 0 <= k < n ==> AnswerFits(Sizes(items), digests, deferred, answers[k])
      invariant forall j, k :: 0 <= j < k < n ==> answers[j].item != answers[k].item
      invariant Indexed(items, answers[..n], index)
    {
      var a := answers[n];
      var checked := CheckAnswer(items, digests, deferred, a);
      if checked.Err? {
        return Err(checked.error);
      }
      if a.item in index {
        return Err(DuplicateAnswer);
      }
      assert answers[..n + 1] == answers[..n] + [a];
      IndexOne(items, answers[..n], index, a);
      index := index[a.item := checked.value];
    }
    assert answers[..|answers|] == answers;
    if |answers| != offered {
      return Err(UncoveredFile);
    }
    r := Ok(index);
  }

  /** Each answered store is cut to what was accepted for it; the others are left alone. */
  ghost predicate Applied(items: seq<Item>, stores: seq<Store>, answers: seq<Offer>, cut: seq<Store>) {
    && |cut| == |stores| == |items|
    && (forall i :: 0 <= i < |items| && !items[i].resumable ==> cut[i] == stores[i])
    && (forall k :: 0 <= k < |answers| && 0 <= answers[k].item < |items| && items[answers[k].item].resumable ==>
        CutTo(stores[answers[k].item], Clamp(answers[k].offset, |items[answers[k].item].bytes|), cut[answers[k].item]))
  }

  ghost predicate CutTo(s: Store, at: nat, t: Store) {
    at <= |s.file| && t == if at == s.offset then s else Cut(s, at)
  }

  /** Cuts each store to what was accepted for it. */
  method ApplyAnswers(
    items: seq<Item>, digests: seq<Option<Digest>>, deferred: bool, stores: seq<Store>, offered: nat,
    answers: seq<Offer>)
    returns (r: Result<seq<Store>, Error>)
    requires |digests| == |stores| == |items|
    requires forall i :: 0 <= i < |stores| ==> stores[i].offset == |stores[i].file|
    ensures r.Ok? <==> AnswersFit(items, digests, deferred, stores, offered, answers)
    ensures r.Ok? ==> Applied(items, stores, answers, r.value)
  {
    var indexed := IndexAnswers(items, digests, deferred, offered, answers);
    if indexed.Err? {
      return Err(indexed.error);
    }
    var index := indexed.value;
    var cut := stores;
    for i := 0 to |items|
      invariant |cut| == |items|
      invariant forall j :: i <= j < |items| ==> cut[j] == stores[j]
      invariant forall j :: 0 <= j < i && !items[j].resumable ==> cut[j] == stores[j]
      invariant forall j :: 0 <= j < i && items[j].resumable ==>
                  && j in index && index[j] <= stores[j].offset
                  && cut[j] == if index[j] == stores[j].offset then stores[j] else Cut(stores[j], index[j])
    {
      if items[i].resumable {
        if i !in index {
          assert !AnswerOf(items, stores, answers, i);
          return Err(UncoveredFile);
        }
        var at := index[i];
        if at > stores[i].offset {
          assert !AnswerOf(items, stores, answers, i);
          return Err(OffsetIncreased);
        }
        if at != stores[i].offset {
          cut := cut[i := Cut(stores[i], at)];
        }
      }
    }
    forall i | 0 <= i < |items| && items[i].resumable ensures AnswerOf(items, stores, answers, i) {
      var k :| 0 <= k < |answers| && answers[k].item == i;
    }
    r := Ok(cut);
  }

  // Honest peers always agree.

  /** The digests of equally long beginnings of the two byte strings tell them apart. */
  ghost predicate NoCollision(hash: seq<byte> -> Digest, a: seq<byte>, b: seq<byte>) {
    forall k :: 0 <= k <= |a| && k <= |b| && hash(a[..k]) == hash(b[..k]) ==> a[..k] == b[..k]
  }

  /** Where a file resumes: at the end of its partial, if the partial is a beginning of the file. */
  function ResumeAt(item: Item, partial: seq<byte>): nat {
    var n := Smaller(|partial|, |item.bytes|);
    if item.resumable && partial[..n] == item.bytes[..n] then n else 0
  }

  lemma {:induction false} OffersCover(items: seq<Item>, stores: seq<Store>, hash: seq<byte> -> Digest, n: nat)
    requires n <= |items| == |stores|
    ensures
      var os := Offers(items, stores, hash, n);
      && (forall k :: 0 <= k < |os| ==>
        0 <= os[k].item < n && items[os[k].item].resumable && os[k] == OfferFor(stores, os[k].item, hash))
      && (forall j, k :: 0 <= j < k < |os| ==> os[j].item != os[k].item)
      && (forall i :: 0 <= i < n && items[i].resumable ==> exists k :: 0 <= k < |os| && os[k].item == i)
  {
    if n > 0 {
      OffersCover(items, stores, hash, n - 1);
      var before := Offers(items, stores, hash, n - 1);
      var os := Offers(items, stores, hash, n);
      if items[n - 1].resumable {
        assert os[|before|] == OfferFor(stores, n - 1, hash);
        assert forall k :: 0 <= k < |before| ==> os[k] == before[k];
      }
    }
  }

  /** The sender's answer to an honest offer is to resume exactly when the bytes agree. */
  lemma HonestAnswer(
    items: seq<Item>, partials: seq<seq<byte>>, worker: bool, hash: seq<byte> -> Digest,
    digests: seq<Option<Digest>>, i: nat)
    requires |partials| == |digests| == |items| && i < |items| && items[i].resumable
    requires Hashes(hash) && TrueDigest(digests[i], items[i].bytes, hash)
    requires NoCollision(hash, partials[i], items[i].bytes)
    ensures
      var stores := OpenAll(items, partials, worker);
      var at := ResumeAt(items[i], partials[i]);
      && Answer(items, digests, OfferFor(stores, i, hash), hash)
         == Ok(OfferFor(stores, i, hash).(offset := at, prefix := None, sha256 := Some(hash(items[i].bytes))))
      && at <= stores[i].offset == |stores[i].file| <= |items[i].bytes|
      && stores[i].file[..at] == items[i].bytes[..at]
  {
    var stores := OpenAll(items, partials, worker);
    var n := stores[i].offset;
    assert stores[i].file == partials[i][..n];
    var bytes := items[i].bytes;
    assert bytes[..|bytes|] == bytes;
    assert hash(partials[i][..n]) == hash(bytes[..n]) ==> partials[i][..n] == bytes[..n];
    assert PrefixDigest(bytes, n, digests[i], hash) == hash(bytes[..n]);
    assert IsDigest(hash(stores[i].file)) && Lower(hash(stores[i].file)) == hash(stores[i].file);
  }

  /** Exactly the files that can be resumed are offered, and each is answered with the offset at
      which it should resume. */
  ghost predicate HonestlyAnswered(items: seq<Item>, partials: seq<seq<byte>>, offers: seq<Offer>, answers: seq<Offer>)
    requires |partials| == |items|
  {
    && |answers| == |offers|
    && (forall k :: 0 <= k < |offers| ==> 0 <= offers[k].item < |items| && items[offers[k].item].resumable)
    && (forall i :: 0 <= i < |items| && items[i].resumable ==> exists k :: 0 <= k < |offers| && offers[k].item == i)
    && (forall k :: 0 <= k < |offers| ==>
        answers[k].item == offers[k].item
          && answers[k].offset == ResumeAt(items[offers[k].item], partials[offers[k].item]))
  }

  /** Offers and honest answers fit together. */
  lemma {:induction false} HonestAnswersFit(
    items: seq<Item>, partials: seq<seq<byte>>, worker: bool, hash: seq<byte> -> Digest,
    digests: seq<Option<Digest>>, deferred: bool, answers: seq<Offer>)
    requires |partials| == |digests| == |items|
    requires forall i :: 0 <= i < |items| ==> NoCollision(hash, partials[i], items[i].bytes)
    requires Hashes(hash) && forall i :: 0 <= i < |items| ==> TrueDigest(digests[i], items[i].bytes, hash)
    requires
      var offers := Offers(items, OpenAll(items, partials, worker), hash, |items|);
      AnsweredAll(items, digests, offers, hash, answers)
    ensures
      var stores := OpenAll(items, partials, worker);
      AnswersFit(items, digests, deferred, stores, |Offers(items, stores, hash, |items|)|, answers)
    ensures HonestlyAnswered(items, partials, Offers(items, OpenAll(items, partials, worker), hash, |items|), answers)
  {
    var stores := OpenAll(items, partials, worker);
    var offers := Offers(items, stores, hash, |items|);
    OffersCover(items, stores, hash, |items|);
    forall k | 0 <= k < |answers|
      ensures answers[k].item == offers[k].item && AnswerFits(Sizes(items), digests, deferred, answers[k])
      ensures answers[k].offset ==
        ResumeAt(items[offers[k].item], partials[offers[k].item]) <= stores[offers[k].item].offset
    {
      HonestAnswer(items, partials, worker, hash, digests, offers[k].item);
    }
    forall i | 0 <= i < |items| && items[i].resumable ensures AnswerOf(items, stores, answers, i) {
      var k :| 0 <= k < |offers| && offers[k].item == i;
      assert answers[k].item == i;
    }
  }

  /** The stores a negotiation leaves, and the offsets it leaves the sender with. */
  ghost predicate Agreed(
    items: seq<Item>, partials: seq<seq<byte>>, worker: bool, starts: seq<nat>, stores: seq<Store>)
  {
    && |partials| == |starts| == |stores| == |items|
    && forall i :: 0 <= i < |items| ==> AgreedOn(items[i], partials[i], worker, starts[i], stores[i])
  }

  ghost predicate AgreedOn(item: Item, partial: seq<byte>, worker: bool, start: nat, s: Store) {
    && start == ResumeAt(item, partial) == s.offset <= |item.bytes|
    && s == OpenOn(item.bytes[..start], |item.bytes|, true, worker)
  }

  lemma CutAgrees(item: Item, partial: seq<byte>, worker: bool)
    ensures
      var s := OpenOn(partial, |item.bytes|, item.resumable, worker);
      var at := ResumeAt(item, partial);
      && at <= |s.file| == s.offset
      && AgreedOn(item, partial, worker, at, if at == s.offset then s else Cut(s, at))
      && (!item.resumable ==> at == s.offset)
  {
  }

  lemma OffersAreAnswered(
    items: seq<Item>, partials: seq<seq<byte>>, worker: bool, hash: seq<byte> -> Digest,
    digests: seq<Option<Digest>>, k: nat)
    requires |partials| == |digests| == |items|
    requires Hashes(hash) && forall i :: 0 <= i < |items| ==> TrueDigest(digests[i], items[i].bytes, hash)
    requires forall i :: 0 <= i < |items| ==> NoCollision(hash, partials[i], items[i].bytes)
    requires k < |Offers(items, OpenAll(items, partials, worker), hash, |items|)|
    ensures Answer(items, digests, Offers(items, OpenAll(items, partials, worker), hash, |items|)[k], hash).Ok?
  {
    var stores := OpenAll(items, partials, worker);
    OffersCover(items, stores, hash, |items|);
    HonestAnswer(items, partials, worker, hash, digests, Offers(items, stores, hash, |items|)[k].item);
  }

  function StartOf(offsets: map<int, nat>, item: Item, i: nat): nat {
    Clamp(if i in offsets then offsets[i] else 0, |item.bytes|)
  }

  /** Both ends agree about one file. */
  lemma {:induction false} AgreeOnFile(
    items: seq<Item>, partials: seq<seq<byte>>, worker: bool, offers: seq<Offer>,
    answers: seq<Offer>, offsets: map<int, nat>, cut: seq<Store>, i: nat)
    requires |partials| == |items| && i < |items| && |offers| == |answers|
    requires Recorded(offers, answers, offsets) && Applied(items, OpenAll(items, partials, worker), answers, cut)
    requires HonestlyAnswered(items, partials, offers, answers)
    ensures AgreedOn(items[i], partials[i], worker, StartOf(offsets, items[i], i), cut[i])
  {
    var stores := OpenAll(items, partials, worker);
    CutAgrees(items[i], partials[i], worker);
    if items[i].resumable {
      var k :| 0 <= k < |offers| && offers[k].item == i;
      assert CutTo(stores[answers[k].item], Clamp(answers[k].offset, |items[i].bytes|), cut[i]);
      assert offers[k].item in offsets;
    } else {
      assert cut[i] == stores[i];
    }
  }

  /** The sender's offsets, as it starts each file. */
  function StartsOf(items: seq<Item>, offsets: map<int, nat>): (starts: seq<nat>)
    ensures |starts| == |items| && forall i :: 0 <= i < |items| ==> starts[i] == StartOf(offsets, items[i], i)
  {
    seq(|items|, i requires 0 <= i < |items| => StartOf(offsets, items[i], i))
  }

  /** The receiver takes the sender's answers to its offers. */
  method TakeAnswers(
    items: seq<Item>, partials: seq<seq<byte>>, worker: bool, hash: seq<byte> -> Digest,
    digests: seq<Option<Digest>>, deferred: bool, answers: seq<Offer>, ghost offsets: map<int, nat>)
    returns (stores: seq<Store>)
    requires |partials| == |digests| == |items|
    requires forall i :: 0 <= i < |items| ==> NoCollision(hash, partials[i], items[i].bytes)
    requires Hashes(hash) && forall i :: 0 <= i < |items| ==> TrueDigest(digests[i], items[i].bytes, hash)
    requires
      var offers := Offers(items, OpenAll(items, partials, worker), hash, |items|);
      AnsweredAll(items, digests, offers, hash, answers) && Recorded(offers, answers, offsets)
    ensures Agreed(items, partials, worker, StartsOf(items, offsets), stores)
  {
    var found := OpenAll(items, partials, worker);
    var offers := Offers(items, found, hash, |items|);
    HonestAnswersFit(items, partials, worker, hash, digests, deferred, answers);
    forall i | 0 <= i < |items| ensures found[i].offset == |found[i].file| {
      OpenIsValid(partials[i], |items[i].bytes|, items[i].resumable, worker);
    }
    var applied := ApplyAnswers(items, digests, deferred, found, |offers|, answers);
    stores := applied.value;
    var starts := StartsOf(items, offsets);
    forall i | 0 <= i < |items| ensures AgreedOn(items[i], partials[i], worker, starts[i], stores[i]) {
      AgreeOnFile(items, partials, worker, offers, answers, offsets, stores, i);
    }
  }

  /** Whatever partials the receiver finds, torn, stale or too long, the negotiation succeeds; both
      sides then start each file at the same offset, and below it the receiver's file holds the
      sender's bytes and nothing else. A partial that is a beginning of the file is kept whole. */
  method Negotiate(
    items: seq<Item>, partials: seq<seq<byte>>, worker: bool, hash: seq<byte> -> Digest,
    digests: seq<Option<Digest>>, deferred: bool)
    returns (starts: seq<nat>, stores: seq<Store>)
    requires |partials| == |digests| == |items|
    requires forall i :: 0 <= i < |items| ==> NoCollision(hash, partials[i], items[i].bytes)
    requires Hashes(hash) && forall i :: 0 <= i < |items| ==> TrueDigest(digests[i], items[i].bytes, hash)
    ensures Agreed(items, partials, worker, starts, stores)
  {
    var offers := Offers(items, OpenAll(items, partials, worker), hash, |items|);
    forall k | 0 <= k < |offers| ensures Answer(items, digests, offers[k], hash).Ok? {
      OffersAreAnswered(items, partials, worker, hash, digests, k);
    }
    var answered := NegotiateSender(items, digests, offers, hash);
    stores := TakeAnswers(items, partials, worker, hash, digests, deferred, answered.value.0, answered.value.1);
    starts := StartsOf(items, answered.value.1);
  }
}
