/** The two sides of a transfer as conversations: each keeps its own counter, passes it along by value, and spends
    a number with every message it has encrypted, on every path that an awaited call may leave by. */
module Conversation {
  import opened Wrappers
  import opened Bytes
  import opened WriteQueue
  import opened Resume
  import opened Sending
  import opened Receiving
  import opened Outgoing

  predicate Resumable(items: seq<Item>) {
    exists i :: 0 <= i < |items| && items[i].resumable
  }

  // The sender.

  /** The offers have arrived, and every one of them is valid. */
  ghost predicate Answerable(
    items: seq<Item>, digests: seq<Option<Digest>>, received: Option<seq<Offer>>, hash: seq<byte> -> Digest)
    requires |digests| == |items|
  {
    received.Some? && forall k :: 0 <= k < |received.value| ==> Answer(items, digests, received.value[k], hash).Ok?
  }

  /** The sender's part of the negotiation. `received` are the receiver's offers, if they arrive. It counts on its
      own copy of the caller's counter and hands it back; if it fails there is nothing to hand back. */
  method AnswerOffers(
    items: seq<Item>, digests: seq<Option<Digest>>, received: Option<seq<Offer>>, hash: seq<byte> -> Digest,
    out: Pipe<Message>, sequence: nat)
    returns (r: Option<nat>, answers: seq<Offer>, offsets: map<int, nat>)
    requires |digests| == |items| && out.InStep(sequence) && !out.failed
    modifies out
    ensures out.NoRepeats()
    ensures r.Some? ==> out.InStep(r.value)
    ensures r.Some? <==> !out.failed && (!Resumable(items) || Answerable(items, digests, received, hash))
    ensures out.messages == old(out.messages) + (if r.Some? && Resumable(items) then [Answers(answers)] else [])
    ensures r.Some? && Resumable(items) ==>
      && received.Some? && AnsweredAll(items, digests, received.value, hash, answers)
      && Recorded(received.value, answers, offsets)
    ensures r.Some? && !Resumable(items) ==> answers == [] && offsets == map[]
  {
    answers, offsets := [], map[];
    if !(exists i :: 0 <= i < |items| && items[i].resumable) {
      return Some(sequence), answers, offsets;
    }
    if received.None? {
      return None, answers, offsets;
    }
    var negotiated := NegotiateSender(items, digests, received.value, hash);
    if negotiated.Err? {
      return None, answers, offsets;
    }
    answers, offsets := negotiated.value.0, negotiated.value.1;
    var counter := sequence;
    counter := counter + 1;
    var ok := out.Send(counter - 1, Answers(answers));
    r := if ok then Some(counter) else None;
  }

  /** The bytes of a file that was sent whole are not those that the manifest's digest was made of. */
  predicate ChangedAt(
    items: seq<Item>, digests: seq<Option<Digest>>, starts: seq<nat>, hash: seq<byte> -> Digest, i: nat)
    requires |starts| == |digests| == |items| && i < |items|
  {
    starts[i] == 0 && digests[i].Some? && hash(items[i].bytes) != Lower(digests[i].value)
  }

  ghost predicate Changed(
    items: seq<Item>, digests: seq<Option<Digest>>, starts: seq<nat>, hash: seq<byte> -> Digest)
    requires |starts| == |digests| == |items|
  {
    exists i :: 0 <= i < |items| && ChangedAt(items, digests, starts, hash, i)
  }

  /** The digests of what was sent are compared with the manifest's; at the first that differs the receiver is told,
      if that works. */
  method CompareDigests(
    items: seq<Item>, digests: seq<Option<Digest>>, starts: seq<nat>, hash: seq<byte> -> Digest,
    out: Pipe<Message>, sequence: nat)
    returns (same: bool)
    requires |starts| == |digests| == |items| && out.InStep(sequence)
    modifies out
    ensures same <==> !Changed(items, digests, starts, hash)
    ensures same ==> out.InStep(sequence) && out.messages == old(out.messages) && out.failed == old(out.failed)
    ensures out.NoRepeats()
    ensures out.messages == old(out.messages) || (!same && out.messages == old(out.messages) + [Failure])
  {
    for i := 0 to |items|
      invariant out.InStep(sequence) && out.messages == old(out.messages) && out.failed == old(out.failed)
      invariant forall k :: 0 <= k < i ==> !ChangedAt(items, digests, starts, hash, k)
    {
      if starts[i] == 0 && digests[i].Some? && hash(items[i].bytes) != Lower(digests[i].value) {
        assert ChangedAt(items, digests, starts, hash, i);
        var told := out.Send(sequence, Failure);
        return false;
      }
    }
    same := true;
  }

  lemma StartsFit(items: seq<Item>, offsets: map<int, nat>, chunk: int)
    requires chunk > 0
    ensures TaskOk(Task(Sources(items), StartsOf(items, offsets), chunk))
  {
  }

  /** The manifest and the negotiation; the counter comes back unless something failed. */
  method Greet(
    items: seq<Item>, digests: seq<Option<Digest>>, received: Option<seq<Offer>>, hash: seq<byte> -> Digest,
    out: Pipe<Message>)
    returns (r: Option<nat>, answers: seq<Offer>, offsets: map<int, nat>)
    requires |digests| == |items| && out.sealed == [] && out.messages == [] && !out.failed
    modifies out
    ensures out.NoRepeats() && Done !in out.messages
    ensures r.Some? <==> !out.failed && (!Resumable(items) || Answerable(items, digests, received, hash))
    ensures r.Some? ==> Negotiated(items, digests, received, hash, answers, offsets) && out.InStep(r.value)
    ensures r.Some? ==> out.messages == Greetings(items, answers)
  {
    answers, offsets := [], map[];
    var sequence := 0;
    sequence := sequence + 1;
    var greeted := out.Send(sequence - 1, Manifest);
    if !greeted {
      return None, answers, offsets;
    }
    r, answers, offsets := AnswerOffers(items, digests, received, hash, out, sequence);
  }

  function Greetings(items: seq<Item>, answers: seq<Offer>): seq<Message> {
    [Manifest] + if Resumable(items) then [Answers(answers)] else []
  }

  /** The sender has answered the receiver's offers, if there was anything to offer. */
  ghost predicate Negotiated(
    items: seq<Item>, digests: seq<Option<Digest>>, received: Option<seq<Offer>>, hash: seq<byte> -> Digest,
    answers: seq<Offer>, offsets: map<int, nat>)
    requires |digests| == |items|
  {
    if Resumable(items) then
      && received.Some? && AnsweredAll(items, digests, received.value, hash, answers)
      && Recorded(received.value, answers, offsets)
    else answers == [] && offsets == map[]
  }

  /** The files, the comparison of digests and the closing notice. */
  method SendAll(
    items: seq<Item>, digests: seq<Option<Digest>>, starts: seq<nat>, hash: seq<byte> -> Digest, chunk: int,
    out: Pipe<Message>, sequence: nat)
    returns (ok: bool, frames: seq<Frame>)
    requires |starts| == |digests| == |items| && TaskOk(Task(Sources(items), starts, chunk)) && out.InStep(sequence)
    requires !out.failed
    modifies out
    ensures out.NoRepeats()
    ensures ok <==> !out.failed && !Changed(items, digests, starts, hash)
    ensures Honest(Sources(items), starts, frames) && AlwaysFair(Sources(items), starts, chunk, frames)
    ensures ok ==> Complete(Sources(items), starts, frames) && out.InStep(|out.messages|)
    ensures ok ==> out.messages == old(out.messages) + AsMessages(frames) + [Done]
  {
    var counter;
    ok, frames, counter := SendFiles(Task(Sources(items), starts, chunk), out, sequence);
    if !ok {
      return;
    }
    ok := CompareDigests(items, digests, starts, hash, out, counter);
    if !ok {
      return;
    }
    counter := counter + 1;
    ok := out.Send(counter - 1, Done);
  }

  /** The whole of the sender's side. However it ends, no number has been given to encryption twice, and what was
      sent of the files is an honest and fair beginning. Unless sending fails, an offer is missing or invalid or a file
      has changed, everything is sent, and message `k` under number `k`. */
  method SendTransfer(
    items: seq<Item>, digests: seq<Option<Digest>>, received: Option<seq<Offer>>, hash: seq<byte> -> Digest,
    chunk: int, out: Pipe<Message>)
    returns (ok: bool, negotiated: bool, answers: seq<Offer>, offsets: map<int, nat>, frames: seq<Frame>)
    requires |digests| == |items| && chunk > 0 && out.sealed == [] && out.messages == [] && !out.failed
    modifies out
    ensures out.NoRepeats()
    ensures ok <==>
      && !out.failed && (!Resumable(items) || Answerable(items, digests, received, hash))
      && !Changed(items, digests, StartsOf(items, offsets), hash)
    ensures Honest(Sources(items), StartsOf(items, offsets), frames)
    ensures AlwaysFair(Sources(items), StartsOf(items, offsets), chunk, frames)
    ensures negotiated ==> Negotiated(items, digests, received, hash, answers, offsets)
    ensures ok ==> negotiated && Complete(Sources(items), StartsOf(items, offsets), frames)
    ensures ok ==> out.messages == Greetings(items, answers) + AsMessages(frames) + [Done]
    ensures ok ==> out.InStep(|out.messages|)
  {
    ok, frames := false, [];
    var greeted;
    greeted, answers, offsets := Greet(items, digests, received, hash, out);
    negotiated := greeted.Some?;
    if negotiated {
      StartsFit(items, offsets, chunk);
      ok, frames := SendAll(items, digests, StartsOf(items, offsets), hash, chunk, out, greeted.value);
    }
  }

  // The receiver.

  datatype Reply = Offered(offers: seq<Offer>) | Completed | Errored

  /** Where the receive loop throws, if it does: before the offers, after them, or when everything is done and only
      cleaning up is left. */
  datatype Fate = ThrowsEarly | ThrowsLater | ThrowsInCleanup | Fine

  function Asked(offers: seq<Offer>): seq<Reply> {
    if offers != [] then [Offered(offers)] else []
  }

  /** The receiver up to the point where it is done or something throws. `counter` is shared with what follows. */
  method TryReceive(offers: seq<Offer>, fate: Fate, out: Pipe<Reply>) returns (ok: bool, terminal: bool, counter: nat)
    requires out.sealed == [] && out.messages == [] && !out.failed
    modifies out
    ensures out.Unspent(counter) && (terminal ==> out.InStep(counter))
    ensures ok <==> !out.failed && fate == Fine
    ensures terminal <==> !out.failed && (fate == Fine || fate == ThrowsInCleanup)
    ensures terminal ==> out.messages == Asked(offers) + [Completed]
    ensures !terminal ==> out.messages == [] || out.messages == Asked(offers)
    ensures !terminal && !out.failed ==> out.messages == if fate == ThrowsEarly then [] else Asked(offers)
  {
    ok, terminal, counter := false, false, 0;
    if fate == ThrowsEarly {
      return;
    }
    if offers != [] {
      counter := counter + 1;
      ok := out.Send(counter - 1, Offered(offers));
      if !ok {
        return;
      }
    }
    if fate == ThrowsLater {
      return false, false, counter;
    }
    counter := counter + 1;
    ok := out.Send(counter - 1, Completed);
    if !ok {
      return;
    }
    terminal := true;
    ok := fate == Fine;
  }

  /** The whole of the receiver's side. No number is spent twice, also not by the error that follows a completion
      notice whose sending failed; an error follows exactly if no completion notice was sent. */
  method ReceiveTransfer(offers: seq<Offer>, fate: Fate, canceled: bool, out: Pipe<Reply>) returns (ok: bool)
    requires out.sealed == [] && out.messages == [] && !out.failed
    modifies out
    ensures out.NoRepeats()
    ensures ok ==> !out.failed && fate == Fine
    ensures !out.failed ==>
      && ok == (fate == Fine)
      && out.messages ==
           (if fate == ThrowsEarly then [] else Asked(offers))
           + (if fate == Fine || fate == ThrowsInCleanup then [Completed] else if canceled then [] else [Errored])
    ensures !(Completed in out.messages && Errored in out.messages)
    ensures canceled ==> Errored !in out.messages
  {
    var terminal, counter;
    ok, terminal, counter := TryReceive(offers, fate, out);
    if !ok && !terminal && !canceled {
      counter := counter + 1;
      var told := out.Send(counter - 1, Errored);
    }
  }

  // Both sides.

  lemma {:induction false} NothingToOffer(items: seq<Item>, stores: seq<Store>, hash: seq<byte> -> Digest, n: nat)
    requires n <= |items| == |stores| && !Resumable(items)
    ensures Offers(items, stores, hash, n) == []
  {
    if n > 0 {
      NothingToOffer(items, stores, hash, n - 1);
    }
  }

  /** The two peers bring an attempt about: unless the connection fails before, they agree, and the sender sends as
      much as the connection lets it, which is everything if it does not fail. */
  method Begin(
    items: seq<Item>, partials: seq<seq<byte>>, worker: bool, hash: seq<byte> -> Digest,
    digests: seq<Option<Digest>>, deferred: bool, chunk: int, out: Pipe<Message>)
    returns (r: Option<Attempt>, ok: bool)
    requires |partials| == |digests| == |items| && chunk > 0 && out.sealed == [] && out.messages == [] && !out.failed
    requires forall i :: 0 <= i < |items| ==> NoCollision(hash, partials[i], items[i].bytes)
    requires Hashes(hash) && forall i :: 0 <= i < |items| ==> TrueDigest(digests[i], items[i].bytes, hash)
    modifies out
    ensures out.NoRepeats()
    ensures r.Some? ==> Begins(items, partials, worker, r.value) && r.value.steps == []
    ensures r.Some? ==> AlwaysFair(Sources(items), r.value.starts, chunk, r.value.frames)
    ensures ok ==> r.Some? && Complete(Sources(items), r.value.starts, r.value.frames) && Done in out.messages
    ensures ok <==> !out.failed
  {
    var found := OpenAll(items, partials, worker);
    var offers := Offers(items, found, hash, |items|);
    forall k | 0 <= k < |offers| ensures Answer(items, digests, offers[k], hash).Ok? {
      OffersAreAnswered(items, partials, worker, hash, digests, k);
    }
    var negotiated, answers, offsets, frames;
    ok, negotiated, answers, offsets, frames := SendTransfer(items, digests, Some(offers), hash, chunk, out);
    if !negotiated {
      return None, ok;
    }
    if !Resumable(items) {
      NothingToOffer(items, found, hash, |items|);
    }
    var stores := TakeAnswers(items, partials, worker, hash, digests, deferred, answers, offsets);
    r := Some(Attempt(StartsOf(items, offsets), stores, frames, []));
  }
}
