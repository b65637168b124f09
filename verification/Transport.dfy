/** The transport that merges several data channels into one stream, and the session reading it. */
module Transport {
  import opened Wrappers
  import opened Bytes
  import opened Framing
  import opened Reordering

  /** What a channel delivers: a JSON text, by the fields the route protocol looks at, any other
      text, or bytes. */
  datatype Frame =
    | Json(kind: string, version: int, mode: string, rest: string)
    | Text(text: string)
    | Binary(bytes: seq<byte>)

  /** Whether a frame belongs to route selection rather than to the transfer. */
  predicate IsRouteControl(f: Frame) {
    && f.Json? && f.version == 1
    && f.mode in ["direct", "relay"]
    && f.kind in ["kigo_route_commit", "kigo_route_ack", "kigo_route_confirm"]
  }

  function Classify(f: Frame): Item<Frame> {
    if IsRouteControl(f) then Control(f)
    else if f.Binary? && PeekSequence(f.bytes).Some? then Numbered(PeekSequence(f.bytes).value, f)
    else Loose(f)
  }

  function ClassifyAll(fs: seq<Frame>): (xs: seq<Item<Frame>>)
    ensures |xs| == |fs| && forall i :: 0 <= i < |fs| ==> xs[i] == Classify(fs[i])
  {
    seq(|fs|, i requires 0 <= i < |fs| => Classify(fs[i]))
  }

  /** The object the runtime closures share. `answers` holds the resolved `recv` calls by number. */
  class Transport {
    var queue: seq<Item<Frame>>
    var waiters: seq<nat>
    var pending: map<nat, Item<Frame>>
    var next: nat
    var closed: bool
    var calls: nat
    var answers: map<nat, Item<Frame>>
    var rejected: set<nat>
    ghost var delivered: seq<Item<Frame>>

    ghost function View(): Reorder<Frame>
      reads this
    {
      Reorder(delivered, pending, next, closed)
    }

    /** Delivered frames and accepted calls are matched one to one, in order. What is left over is
        in the queue or among the waiters, so never in both. */
    ghost predicate Valid()
      reads this
    {
      && (forall k: nat :: k in answers <==> k < calls && k < |delivered|)
      && (forall k :: k in answers ==> answers[k] == delivered[k])
      && queue == (if calls <= |delivered| then delivered[calls..] else [])
      && (!closed ==> rejected == {})
      && (closed || calls <= |delivered| ==> waiters == [])
      && (!closed && calls > |delivered| ==>
          && |waiters| == calls - |delivered|
          && forall i :: 0 <= i < |waiters| ==> waiters[i] == |delivered| + i)
    }

    /** The transport takes over a channel with the frames that arrived on it before. */
    constructor (early: seq<Frame>)
      ensures Valid() && View() == ArriveAll(Empty(), ClassifyAll(early)) && calls == 0
    {
      queue, waiters, pending, next, closed := [], [], map[], 0, false;
      calls, answers, rejected, delivered := 0, map[], {}, [];
      new;
      ghost var xs := ClassifyAll(early);
      for i := 0 to |early|
        invariant Valid() && View() == ArriveAll(Empty(), xs[..i]) && calls == 0
      {
        Receive(early[i]);
        assert xs[..i + 1][..i] == xs[..i];
      }
      assert xs[..|early|] == xs;
    }

    method Deliver(x: Item<Frame>)
      requires Valid() && !closed
      modifies this`queue, this`waiters, this`answers, this`delivered
      ensures Valid() && delivered == old(delivered) + [x]
    {
      if waiters != [] {
        answers := answers[waiters[0] := x];
        waiters := waiters[1..];
      } else {
        queue := queue + [x];
      }
      delivered := delivered + [x];
    }

    method Fail()
      requires Valid()
      modifies this`closed, this`waiters, this`rejected
      ensures Valid() && View() == old(View()).(closed := true)
      ensures waiters == [] && rejected == old(rejected) + (set w | w in old(waiters))
    {
      if closed {
        return;
      }
      closed := true;
      rejected := rejected + (set w | w in waiters);
      waiters := [];
    }

    /** Delivers every pending frame whose turn has come. */
    method DrainPending()
      requires Valid() && !closed
      modifies this`queue, this`waiters, this`answers, this`delivered, this`pending, this`next
      ensures Valid() && View() == Drain(old(View()))
    {
      while next in pending
        invariant Valid() && Drain(View()) == Drain(old(View()))
        decreases |pending|
      {
        Shrinks(pending, next);
        Deliver(pending[next]);
        pending := pending - {next};
        next := next + 1;
      }
    }

    method Receive(f: Frame)
      requires Valid()
      modifies this
      ensures Valid() && View() == Arrive(old(View()), Classify(f)) && calls == old(calls)
    {
      if closed {
        return;
      }
      var x := Classify(f);
      match x
      case Control(_) =>
      case Loose(_) =>
        Deliver(x);
      case Numbered(n, _) =>
        if n < next || n in pending {
          Fail();
        } else {
          pending := pending[n := x];
          DrainPending();
        }
    }

    /** Call `id` is answered now, waits, or is refused because the transport is closed. */
    method Recv() returns (accepted: bool, id: nat)
      requires Valid()
      modifies this`queue, this`waiters, this`calls, this`answers
      ensures Valid() && View() == old(View())
      ensures accepted <==> !(closed && old(queue) == [])
      ensures id == old(calls) && calls == old(calls) + (if accepted then 1 else 0)
      ensures old(queue) != [] ==> id in answers && answers[id] == old(queue)[0]
    {
      id := calls;
      if queue != [] {
        answers := answers[id := queue[0]];
        queue := queue[1..];
        calls := calls + 1;
        return true, id;
      }
      if closed {
        return false, id;
      }
      waiters := waiters + [id];
      calls := calls + 1;
      accepted := true;
    }
  }

  // The session's own check of the numbers.

  datatype Session = Session(nextSeq: nat, bodies: seq<seq<byte>>) | Rejected

  /** Decrypting and parsing are left out: the body is taken as it is. */
  function ReadNext(s: Session, f: Frame): Session {
    if s.Rejected? || !f.Binary? then Rejected
    else
      var e := DecodeEnvelope(f.bytes);
      if e.Err? || e.value.sequence != s.nextSeq then Rejected
      else Session(s.nextSeq + 1, s.bodies + [e.value.body])
  }

  function ReadAll(xs: seq<Item<Frame>>): Session {
    if xs == [] then Session(0, []) else ReadNext(ReadAll(xs[..|xs| - 1]), xs[|xs| - 1].frame)
  }

  /** Body `n` is sealed with number `n`, as the sender's counter numbers them. */
  ghost predicate Sealed(bodies: seq<seq<byte>>, sent: seq<Frame>) {
    && |sent| == |bodies| <= MAX_SAFE_INTEGER + 1
    && forall n :: 0 <= n < |sent| ==> SealedAt(n, bodies[n], sent[n])
  }

  ghost predicate SealedAt(n: nat, body: seq<byte>, f: Frame) {
    |body| >= TAG_BYTES && f.Binary? && EncodeEnvelope(Envelope(n, body)) == Ok(f.bytes)
  }

  lemma SealedFrame(n: nat, body: seq<byte>, f: Frame)
    requires SealedAt(n, body, f) && n <= MAX_SAFE_INTEGER
    ensures Classify(f) == Numbered(n, f)
    ensures DecodeEnvelope(f.bytes) == Ok(Envelope(n, body))
  {
    EnvelopeRoundTrip(Envelope(n, body));
  }

  lemma ReadsOneMore(n: nat, bodies: seq<seq<byte>>, body: seq<byte>, f: Frame)
    requires SealedAt(n, body, f) && n <= MAX_SAFE_INTEGER
    ensures ReadNext(Session(n, bodies), f) == Session(n + 1, bodies + [body])
  {
    SealedFrame(n, body, f);
  }

  lemma {:induction false} ReadsPrefix(bodies: seq<seq<byte>>, sent: seq<Frame>, k: nat)
    requires Sealed(bodies, sent) && k <= |sent|
    ensures ReadAll(Stream(sent)[..k]) == Session(k, bodies[..k])
  {
    if k > 0 {
      ReadsPrefix(bodies, sent, k - 1);
      var xs := Stream(sent)[..k];
      assert xs[..k - 1] == Stream(sent)[..k - 1] && xs[k - 1].frame == sent[k - 1];
      assert bodies[..k] == bodies[..k - 1] + [bodies[k - 1]];
      assert SealedAt(k - 1, bodies[k - 1], sent[k - 1]);
      ReadsOneMore(k - 1, bodies[..k - 1], bodies[k - 1], sent[k - 1]);
    }
  }

  /** Every frame that arrives is route control or one of those sent, each at most once. */
  ghost predicate Carried(sent: seq<Frame>, fs: seq<Frame>) {
    && (forall f :: f in fs ==> IsRouteControl(f) || f in sent)
    && (forall i, j :: 0 <= i < j < |fs| ==> IsRouteControl(fs[i]) || fs[i] != fs[j])
  }

  lemma CarriedStream(bodies: seq<seq<byte>>, sent: seq<Frame>, fs: seq<Frame>)
    requires Sealed(bodies, sent) && Carried(sent, fs)
    ensures FromStream(sent, ClassifyAll(fs)) && NoRepeats(ClassifyAll(fs))
  {
    var xs := ClassifyAll(fs);
    forall i | 0 <= i < |fs| ensures xs[i].Control? || xs[i] in Stream(sent) {
      if !IsRouteControl(fs[i]) {
        var n :| 0 <= n < |sent| && sent[n] == fs[i];
        assert SealedAt(n, bodies[n], sent[n]);
        SealedFrame(n, bodies[n], sent[n]);
        assert Stream(sent)[n] == xs[i];
      }
    }
    forall i, j | 0 <= i < j < |fs| && xs[i].Numbered? && xs[j].Numbered? ensures xs[i].number != xs[j].number {
      assert xs[i] == Stream(sent)[xs[i].number] && xs[j] == Stream(sent)[xs[j].number];
    }
  }

  /** End to end: bodies sealed with consecutive numbers and spread over any channels, in any order
      of arrival, are read by the receiving session in the order they were sent. The transport never
      fails and the session's number check never rejects. */
  lemma SessionNeverRejects(bodies: seq<seq<byte>>, sent: seq<Frame>, fs: seq<Frame>)
    requires Sealed(bodies, sent) && Carried(sent, fs)
    ensures
      var r := ArriveAll(Empty(), ClassifyAll(fs));
      !r.closed && r.next <= |bodies| && ReadAll(r.delivered) == Session(r.next, bodies[..r.next])
  {
    CarriedStream(bodies, sent, fs);
    DeliversPrefix(sent, ClassifyAll(fs));
    ReadsPrefix(bodies, sent, ArriveAll(Empty(), ClassifyAll(fs)).next);
  }

  /** What the callers of `recv` see of it: call `k` is answered with frame `k`, and the object never holds
      frames and waiting calls at the same time. */
  lemma CallsSeeOneStream(t: Transport, bodies: seq<seq<byte>>, sent: seq<Frame>, fs: seq<Frame>)
    requires Sealed(bodies, sent) && Carried(sent, fs)
    requires t.Valid() && t.View() == ArriveAll(Empty(), ClassifyAll(fs))
    ensures forall k :: k in t.answers ==> k < |sent| && t.answers[k] == Numbered(k, sent[k])
    ensures t.queue == [] || t.waiters == []
    ensures t.rejected == {}
  {
    CarriedStream(bodies, sent, fs);
    DeliversPrefix(sent, ClassifyAll(fs));
  }
}
