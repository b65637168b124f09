/** A persistent notepad session: the read loop, the event queue and the interactive consumer around the
    workspace's document of one pad, against a server that may send anything. What happens between two
    locks or channel operations of one goroutine is one step; the steps of different goroutines interleave
    freely. */
module NoteSession {
  import opened Wrappers
  import opened Bytes
  import opened Document
  import Replicas

  /** A document that passed validation when its record was opened. */
  type Opened = d: Document | d.revision > 0 && d.timestamp > 0 witness Document("main", [], 1, 1)

  /** A state's record: absent, not to be opened, or opened. */
  datatype Record = NoRecord | Unreadable | Sealed(document: Opened)

  datatype Message = ReadFailed | Rejected | State(generation: uint64, record: Record)

  datatype Frame = Remote(document: Opened) | Ack(revision: uint64) | Failure

  /** A document published on top of a generation. */
  datatype Put = Put(base: uint64, document: Document)

  /** Where the read loop is: waiting for a message, about to look at the workspace, about to publish
      or about to emit an event (after which it may be over). */
  datatype Reader =
    | Waiting
    | Comparing(document: Opened)
    | Republishing
    | Publishing(snapshot: Document)
    | Emitting(frame: Frame, last: bool)
    | Over

  datatype Consumer = Selecting | Sending(document: Document) | Returned

  /** The session, with a record of what it has seen: `processed` are the state records that were opened,
      `offered` the documents the workspace was given, `lost` the documents whose events were dropped
      because the session was closed. `held` is the workspace's document of the pad. */
  datatype Session = Session(pad: string, held: Document, generation: uint64, closed: bool,
                             reader: Reader, events: seq<Frame>, received: seq<Frame>, consumer: Consumer,
                             puts: seq<Put>, processed: set<Opened>, offered: set<Document>, lost: set<Opened>)

  const EVENTS := 32
  /** One frame in the forwarder's hand and one in the channel behind it. */
  const RECEIVED := 2

  datatype Event =
    | Read(message: Message)
    | Look
    | Republish(works: bool)
    | Emit
    | Drop
    | Forward
    | Consume
    | Author(text: seq<byte>, now: int64)
    | Send(works: bool)
    | Close
    | Interrupt
    | Return

  // The workspace as the session sees it.

  function Higher(held: Document, d: Document): Document {
    if Compare(d, held) > 0 then d else held
  }

  /** A record is opened if it decrypts to a valid document of the session's pad. */
  function OpenRecord(pad: string, plaintext: Result<Document, Error>): Record {
    if plaintext.Ok? && NormalizePad(plaintext.value.pad) == pad && ValidDocument(Normal(plaintext.value))
    then Sealed(Normal(plaintext.value)) else Unreadable
  }

  /** Taking in an opened record changes the session's document to the higher one. */
  lemma OpenedIsApplied(docs: Docs, pad: string, plaintext: Result<Document, Error>)
    requires OpenRecord(pad, plaintext).Sealed?
    ensures
      var d := OpenRecord(pad, plaintext).document;
      && ValidDocument(Normal(d)) && Normal(d).pad == pad
      && Current(Replicas.Do(docs, Replicas.Receive(d)), pad) == Higher(Current(docs, pad), d)
  {
    NormalPads(plaintext.value.pad);
  }

  lemma EditIsApplied(docs: Docs, pad: string, text: seq<byte>, now: int64)
    requires NormalizePad(pad) == pad && ValidPad(pad) && ValidText(text)
    ensures Current(Replicas.Do(docs, Replicas.Author(pad, text, now)), pad) ==
      EditOf(Current(docs, pad), pad, text, now)
  {
  }

  // Steps.

  /** A state without a record must be of generation zero. */
  predicate WellFormed(message: Message) {
    message.State? && (message.record.NoRecord? ==> message.generation == 0)
  }

  function Reading(s: Session, message: Message): Session {
    if message.ReadFailed? then s.(reader := Emitting(Failure, true))
    else if !WellFormed(message) then s.(reader := Emitting(Failure, false))
    else if message.generation < s.generation then s
    else
      var s' := s.(generation := message.generation);
      match message.record
      case NoRecord => s'.(reader := Republishing)
      case Unreadable => s'.(reader := Emitting(Failure, false))
      case Sealed(d) => s'.(reader := Comparing(d), processed := s.processed + {d})
  }

  function Looking(s: Session): Session {
    match s.reader
    case Comparing(d) =>
      if Compare(d, s.held) > 0 then s.(reader := Emitting(Remote(d), false))
      else if Compare(d, s.held) < 0 then s.(reader := Publishing(s.held))
      else s.(reader := Emitting(Ack(d.revision), false))
    case Republishing => s.(reader := if s.held.revision > 0 then Publishing(s.held) else Waiting)
    case _ => s
  }

  /** An invalid document is not sealed, and the connection may fail. */
  predicate Publishable(d: Document, works: bool) {
    works && ValidText(d.text) && d.revision != 0 && d.timestamp > 0
  }

  function Published(s: Session, d: Document): Session {
    s.(puts := s.puts + [Put(s.generation, d)])
  }

  function Emitted(s: Session): Session
    requires s.reader.Emitting?
  {
    s.(events := s.events + [s.reader.frame], reader := if s.reader.last then Over else Waiting)
  }

  function Dropped(s: Session): Session
    requires s.reader.Emitting?
  {
    s.(lost := s.lost + (if s.reader.frame.Remote? then {s.reader.frame.document} else {}),
       reader := if s.reader.last then Over else Waiting)
  }

  function Consuming(s: Session): Session
    requires s.received != []
  {
    var s' := s.(received := s.received[1..]);
    match s.received[0]
    case Failure => s'.(consumer := Returned)
    case Ack(_) => s'
    case Remote(d) => s'.(held := Higher(s.held, d), offered := s.offered + {d})
  }

  function Authoring(s: Session, text: seq<byte>, now: int64): Session {
    if !ValidText(text) then s.(consumer := Returned)
    else
      var d := EditOf(s.held, s.pad, text, now);
      s.(held := d, offered := s.offered + {d}, consumer := Sending(d))
  }

  /** One step; an event that cannot happen now changes nothing. */
  function Next(s: Session, e: Event): Session {
    match e
    case Read(message) => if s.reader.Waiting? then Reading(s, message) else s
    case Look => Looking(s)
    case Republish(works) =>
      if !s.reader.Publishing? then s
      else if Publishable(s.reader.snapshot, works) then Published(s, s.reader.snapshot).(reader := Waiting)
      else s.(reader := Emitting(Failure, false))
    case Emit => if s.reader.Emitting? && |s.events| < EVENTS then Emitted(s) else s
    case Drop => if s.reader.Emitting? && s.closed then Dropped(s) else s
    case Forward =>
      if s.events != [] && |s.received| < RECEIVED
      then s.(events := s.events[1..], received := s.received + [s.events[0]]) else s
    case Consume => if s.consumer.Selecting? && s.received != [] then Consuming(s) else s
    case Author(text, now) => if s.consumer.Selecting? then Authoring(s, text, now) else s
    case Send(works) =>
      if !s.consumer.Sending? then s
      else if Publishable(s.consumer.document, works) then Published(s, s.consumer.document).(consumer := Selecting)
      else s.(consumer := Returned)
    case Close => s.(closed := true)
    case Interrupt => if s.closed && |s.received| < RECEIVED then s.(received := s.received + [Failure]) else s
    case Return => s.(consumer := Returned)
  }

  /** Where a session begins: the workspace takes in the initial record, and what is then above it is
      published; it does not begin if the record cannot be opened or the document not be published. */
  function Begin(
    pad: string, before: Document, generation: uint64, record: Record, works: bool): Result<Session, Error>
  {
    if record.Unreadable? then Err(Invalid)
    else
      var given := if record.NoRecord? then {} else {record.document};
      var held := if record.NoRecord? then before else Higher(before, record.document);
      var mine := if before == NOTHING then {} else {before};
      var s := Session(pad, held, generation, false, Waiting, [], [], Selecting, [], given, mine + given, {});
      if held.revision > 0 && (record.NoRecord? || Compare(held, record.document) > 0)
      then if Publishable(held, works) then Ok(Published(s, held)) else Err(Invalid)
      else Ok(s)
  }

  // What every step keeps.

  /** A processed record that still travels, or was lost when the session closed. */
  ghost predicate OnItsWay(s: Session, d: Opened) {
    || s.reader == Comparing(d) || (s.reader.Emitting? && s.reader.frame == Remote(d))
    || Remote(d) in s.events || Remote(d) in s.received || d in s.lost
  }

  ghost predicate AtMostHeld(s: Session, d: Document) {
    Compare(d, s.held) <= 0
  }

  ghost predicate NothingForgotten(s: Session) {
    && (forall d :: d in s.processed ==> AtMostHeld(s, d) || OnItsWay(s, d))
    && (!s.closed ==> s.lost == {})
  }

  /** Published documents were held, and their base generations follow the session's. */
  ghost predicate PutsFit(s: Session) {
    && (forall i :: 0 <= i < |s.puts| ==> s.puts[i].base <= s.generation && AtMostHeld(s, s.puts[i].document))
    && (forall i, j :: 0 <= i < j < |s.puts| ==> s.puts[i].base <= s.puts[j].base)
    && (s.reader.Publishing? ==> AtMostHeld(s, s.reader.snapshot))
    && (s.consumer.Sending? ==> AtMostHeld(s, s.consumer.document))
  }

  ghost predicate HoldsHighest(s: Session) {
    && (s.held in s.offered || (s.held == NOTHING && s.offered == {}))
    && (forall d :: d in s.offered ==> AtMostHeld(s, d))
  }

  ghost predicate Valid(s: Session) {
    NothingForgotten(s) && PutsFit(s) && HoldsHighest(s)
  }

  /** A local edit of a document at the highest revision. */
  ghost predicate Wraps(s: Session, e: Event) {
    e.Author? && s.consumer.Selecting? && ValidText(e.text) && s.held.revision == MAX_REVISION
  }

  /** States of older generations have no effect. */
  lemma OldStatesDoNothing(s: Session, generation: uint64, record: Record)
    requires s.reader.Waiting? && WellFormed(State(generation, record)) && generation < s.generation
    ensures Next(s, Read(State(generation, record))) == s
  {
  }

  lemma GenerationNeverFalls(s: Session, e: Event)
    ensures s.generation <= Next(s, e).generation
  {
  }

  /** The workspace moves down in a step exactly if the revision wraps around. */
  lemma WorkspaceNeverFalls(s: Session, e: Event)
    ensures Compare(s.held, Next(s, e).held) <= 0 <==> !Wraps(s, e)
  {
    OrderIsTotal(s.held, s.held);
    OrderIsTotal(s.held, Next(s, e).held);
  }

  lemma HighestIsKept(s: Session, e: Event)
    requires HoldsHighest(s) && !Wraps(s, e)
    ensures HoldsHighest(Next(s, e))
  {
    var s' := Next(s, e);
    WorkspaceNeverFalls(s, e);
    forall d | d in s'.offered ensures AtMostHeld(s', d) {
      OrderIsTotal(d, d);
      if d in s.offered {
        OrderIsTransitive(d, s.held, s'.held);
      }
    }
  }

  /** A record on its way stays so until the workspace has it. */
  lemma TravelsOn(s: Session, e: Event, d: Opened)
    requires OnItsWay(s, d)
    ensures AtMostHeld(Next(s, e), d) || OnItsWay(Next(s, e), d)
  {
    match e
    case Forward =>
      if s.events != [] {
        assert s.events == [s.events[0]] + s.events[1..];
      }
    case Consume =>
      OrderIsTotal(d, d);
      if s.received != [] {
        assert s.received == [s.received[0]] + s.received[1..];
      }
    case _ =>
  }

  lemma NothingIsForgotten(s: Session, e: Event)
    requires NothingForgotten(s) && !Wraps(s, e)
    ensures NothingForgotten(Next(s, e))
  {
    var s' := Next(s, e);
    WorkspaceNeverFalls(s, e);
    forall d | d in s'.processed ensures AtMostHeld(s', d) || OnItsWay(s', d) {
      if d in s.processed {
        if AtMostHeld(s, d) {
          OrderIsTransitive(d, s.held, s'.held);
        } else {
          TravelsOn(s, e, d);
        }
      }
    }
  }

  /** As the workspace and the generation rise, what was published stays below them. */
  lemma PutsStay(s: Session, s': Session)
    requires PutsFit(s) && s.generation <= s'.generation && Compare(s.held, s'.held) <= 0 && s'.puts == s.puts
    requires s'.reader.Publishing? ==> s'.reader == s.reader || s'.reader.snapshot == s'.held
    requires s'.consumer.Sending? ==> s'.consumer == s.consumer || s'.consumer.document == s'.held
    ensures PutsFit(s')
  {
    OrderIsTotal(s'.held, s'.held);
    forall d | AtMostHeld(s, d) ensures AtMostHeld(s', d) {
      OrderIsTransitive(d, s.held, s'.held);
    }
  }

  lemma PutsAreKept(s: Session, e: Event)
    requires PutsFit(s) && !Wraps(s, e)
    ensures PutsFit(Next(s, e))
  {
    if !e.Republish? && !e.Send? {
      WorkspaceNeverFalls(s, e);
      GenerationNeverFalls(s, e);
      PutsStay(s, Next(s, e));
    }
  }

  lemma StepKeepsValid(s: Session, e: Event)
    requires Valid(s) && !Wraps(s, e)
    ensures Valid(Next(s, e))
  {
    NothingIsForgotten(s, e);
    PutsAreKept(s, e);
    HighestIsKept(s, e);
  }

  lemma BeginIsValid(pad: string, before: Document, generation: uint64, record: Record, works: bool)
    ensures
      var r := Begin(pad, before, generation, record, works);
      r.Ok? ==> Valid(r.value) && AtMostHeld(r.value, before)
  {
    OrderIsTotal(before, before);
    if record.Sealed? {
      OrderIsTotal(before, record.document);
      OrderIsTotal(record.document, record.document);
    }
  }

  // Whole runs.

  ghost function Run(s: Session, es: seq<Event>): Session {
    if es == [] then s else Next(Run(s, es[..|es| - 1]), es[|es| - 1])
  }

  ghost predicate NeverWraps(s: Session, es: seq<Event>) {
    forall n: nat :: n < |es| ==> !Wraps(Run(s, es[..n]), es[n])
  }

  /** Whatever the server sends and however the steps interleave. */
  lemma {:induction false} RunKeepsValid(s: Session, es: seq<Event>)
    requires Valid(s) && NeverWraps(s, es)
    ensures Valid(Run(s, es))
    ensures Compare(s.held, Run(s, es).held) <= 0 && s.generation <= Run(s, es).generation
  {
    OrderIsTotal(s.held, s.held);
    if es != [] {
      var last := |es| - 1;
      assert forall n: nat :: n < last ==> es[..last][..n] == es[..n] && es[..last][n] == es[n];
      RunKeepsValid(s, es[..last]);
      var t := Run(s, es[..last]);
      StepKeepsValid(t, es[last]);
      GenerationNeverFalls(t, es[last]);
      WorkspaceNeverFalls(t, es[last]);
      OrderIsTransitive(s.held, t.held, Next(t, es[last]).held);
    }
  }

  ghost predicate Drained(s: Session) {
    !s.reader.Comparing? && !s.reader.Emitting? && s.events == [] && s.received == []
  }

  /** Once nothing is on its way, the workspace is not below any state record that was processed. */
  lemma DrainedHasAll(s: Session, d: Opened)
    requires Valid(s) && Drained(s) && !s.closed && d in s.processed
    ensures AtMostHeld(s, d)
  {
  }

  /** From any workspace, through any run: nothing the session processed is above the workspace it leaves behind. */
  lemma SessionCatchesUp(pad: string, before: Document, generation: uint64, record: Record, works: bool, es: seq<Event>)
    requires Begin(pad, before, generation, record, works).Ok?
    requires NeverWraps(Begin(pad, before, generation, record, works).value, es)
    ensures
      var t := Run(Begin(pad, before, generation, record, works).value, es);
      && Compare(before, t.held) <= 0
      && (Drained(t) && !t.closed ==> forall d :: d in t.processed ==> AtMostHeld(t, d))
  {
    var s := Begin(pad, before, generation, record, works).value;
    BeginIsValid(pad, before, generation, record, works);
    RunKeepsValid(s, es);
    OrderIsTransitive(before, s.held, Run(s, es).held);
  }

  /** Drained sessions that each processed the highest document of all hold the same text. */
  lemma DrainedSessionsAgree(a: Session, b: Session, highest: Opened)
    requires Valid(a) && Drained(a) && !a.closed && highest in a.processed
    requires Valid(b) && Drained(b) && !b.closed && highest in b.processed
    requires forall d :: d in a.offered + b.offered ==> Compare(d, highest) <= 0
    ensures a.held == b.held.(pad := a.held.pad) == highest.(pad := a.held.pad)
  {
    DrainedHasAll(a, highest);
    DrainedHasAll(b, highest);
    OrderIsTotal(a.held, highest);
    OrderIsTotal(b.held, highest);
  }

  // What is read.

  /** Which messages are processed: states with a record, or of generation zero, that are not older than what was
      seen. Their generation is recorded, an opened record is compared next, and without a record the workspace is
      looked at; everything else is reported. */
  lemma ReadDecides(s: Session, message: Message)
    requires s.reader == Waiting
    ensures
      var t := Next(s, Read(message));
      var fits := message.State? && (!message.record.NoRecord? || message.generation == 0);
      var newer := fits && message.generation >= s.generation;
      && (newer <==> fits && t.generation == message.generation)
      && (!newer ==> t.generation == s.generation && t.processed == s.processed)
      && (newer && message.record.Sealed? ==>
          t.reader == Comparing(message.record.document) && message.record.document in t.processed)
      && (newer && message.record.NoRecord? ==> t.reader == Republishing)
      && ((newer && message.record.Unreadable?) || !fits ==> t.reader == Emitting(Failure, message.ReadFailed?))
  {
  }

  /** What one session publishes, another one of the same pad opens and compares. */
  lemma PublishedIsOpened(d: Document)
    requires Publishable(d, true) && ValidPad(d.pad) && NormalizePad(d.pad) == d.pad
    ensures OpenRecord(d.pad, Ok(d)) == Sealed(d)
  {
  }

  // What is published.

  /** A publishable document is put on the session's generation, and nothing else happens to it. */
  lemma EditIsPut(s: Session, works: bool)
    requires s.consumer.Sending?
    ensures
      var d, t := s.consumer.document, Next(s, Send(works));
      if Publishable(d, works) then t.puts == s.puts + [Put(s.generation, d)] && t.consumer == Selecting
      else t.puts == s.puts && t.consumer == Returned
  {
  }

  lemma SnapshotIsPut(s: Session, works: bool)
    requires s.reader.Publishing?
    ensures
      var d, t := s.reader.snapshot, Next(s, Republish(works));
      if Publishable(d, works) then t.puts == s.puts + [Put(s.generation, d)] && t.reader == Waiting
      else t.puts == s.puts && t.reader == Emitting(Failure, false)
  {
  }

  /** What can be published is what every receiver of a record accepts. */
  lemma PublishableIsValid(d: Document, works: bool)
    requires ValidPad(d.pad)
    ensures Publishable(d, works) <==> works && ValidDocument(d)
  {
  }

  /** Looking at the workspace, the reader hands a higher record on, has the held document published above a lower
      one, and acknowledges an equal one; without a record it has the held document published if there is one. */
  lemma LookDecides(s: Session)
    ensures s.reader.Comparing? ==>
      var d := s.reader.document;
      Next(s, Look).reader ==
        if Compare(d, s.held) > 0 then Emitting(Remote(d), false)
        else if Compare(d, s.held) < 0 then Publishing(s.held)
        else Emitting(Ack(d.revision), false)
    ensures s.reader.Comparing? && Next(s, Look).reader.Emitting? && Next(s, Look).reader.frame.Ack? ==>
      s.held == s.reader.document.(pad := s.held.pad)
    ensures s.reader == Republishing ==>
      Next(s, Look).reader == if s.held.revision > 0 then Publishing(s.held) else Waiting
  {
    if s.reader.Comparing? {
      OrderIsTotal(s.reader.document, s.held);
    }
  }

  /** A session begins by publishing the held document exactly if there is one above the initial record. */
  lemma BeginPublishes(pad: string, before: Document, generation: uint64, record: Record, works: bool)
    requires Begin(pad, before, generation, record, works).Ok?
    ensures
      var s := Begin(pad, before, generation, record, works).value;
      && s.held == (if record.NoRecord? then before else Higher(before, record.document))
      && s.puts == if s.held.revision > 0 && (record.NoRecord? || Compare(before, record.document) > 0)
                   then [Put(generation, s.held)] else []
  {
    if record.Sealed? {
      OrderIsTotal(before, record.document);
      OrderIsTotal(record.document, record.document);
    }
  }

  lemma PutsOnlyGrow(s: Session, e: Event)
    ensures s.puts <= Next(s, e).puts
  {
  }

  lemma RunFurther(s: Session, es: seq<Event>, n: nat)
    requires n < |es|
    ensures Run(s, es[..n + 1]) == Next(Run(s, es[..n]), es[n])
  {
    assert es[..n + 1][..n] == es[..n];
  }

  /** At step `n` the document went out, on the generation of that moment. */
  ghost predicate PutAt(s: Session, es: seq<Event>, n: nat, d: Document)
    requires n < |es|
  {
    && es[n].Send? && Run(s, es[..n]).consumer == Sending(d)
    && Run(s, es[..n + 1]).puts == Run(s, es[..n]).puts + [Put(Run(s, es[..n]).generation, d)]
  }

  /** Between its authoring at step `a` and step `n`, a document is about to be sent, or was sent, or the consumer
      has returned. */
  ghost predicate EditGoesOut(s: Session, es: seq<Event>, a: nat, n: nat, d: Document)
    requires a < n <= |es|
  {
    || Run(s, es[..n]).consumer == Sending(d)
    || Run(s, es[..n]).consumer == Returned
    || exists k: nat :: a < k < n && PutAt(s, es, k, d)
  }

  lemma EditStep(s: Session, e: Event, d: Document)
    requires s.consumer == Sending(d) || s.consumer == Returned
    ensures
      var t := Next(s, e);
      || t.consumer == s.consumer || t.consumer == Returned
      || (e.Send? && s.consumer == Sending(d) && Publishable(d, e.works) && t.puts == s.puts + [Put(s.generation, d)])
  {
  }

  /** What one more step does to a document that is followed. */
  lemma EditGoesOn(s: Session, es: seq<Event>, a: nat, n: nat, d: Document)
    requires a < n < |es| && EditGoesOut(s, es, a, n, d)
    ensures EditGoesOut(s, es, a, n + 1, d)
  {
    if exists k: nat :: a < k < n && PutAt(s, es, k, d) {
      var k: nat :| a < k < n && PutAt(s, es, k, d);
      assert a < k < n + 1 && PutAt(s, es, k, d);
    } else {
      RunFurther(s, es, n);
      EditStep(Run(s, es[..n]), es[n], d);
      var before, after := Run(s, es[..n]), Run(s, es[..n + 1]);
      if es[n].Send? && before.consumer == Sending(d) && after.puts == before.puts + [Put(before.generation, d)] {
        StepPuts(s, es, n, d, before, after);
      }
    }
  }

  lemma StepPuts(s: Session, es: seq<Event>, n: nat, d: Document, before: Session, after: Session)
    requires n < |es| && before == Run(s, es[..n]) && after == Run(s, es[..n + 1])
    requires es[n].Send? && before.consumer == Sending(d) && after.puts == before.puts + [Put(before.generation, d)]
    ensures PutAt(s, es, n, d)
  {
  }

  lemma AuthoringSends(s: Session, text: seq<byte>, now: int64)
    requires s.consumer == Selecting && ValidText(text)
    ensures Next(s, Author(text, now)).consumer == Sending(EditOf(s.held, s.pad, text, now))
  {
  }

  lemma {:induction false} EditIsFollowed(s: Session, es: seq<Event>, a: nat, n: nat, d: Document)
    requires a < n <= |es| && es[a].Author? && Run(s, es[..a]).consumer == Selecting && ValidText(es[a].text)
    requires d == EditOf(Run(s, es[..a]).held, Run(s, es[..a]).pad, es[a].text, es[a].now)
    ensures EditGoesOut(s, es, a, n, d)
  {
    if n - 1 > a {
      EditIsFollowed(s, es, a, n - 1, d);
      EditGoesOn(s, es, a, n - 1, d);
    } else {
      RunFurther(s, es, a);
      AuthoringSends(Run(s, es[..a]), es[a].text, es[a].now);
    }
  }

  /** Whenever the consumer is ready for the next line, every edit authored so far has been put, each on the
      generation of its moment; and what was put stays put. */
  lemma {:induction false} EditsArePublished(s: Session, es: seq<Event>, a: nat) returns (k: nat)
    requires a < |es| && es[a].Author? && Run(s, es[..a]).consumer == Selecting && ValidText(es[a].text)
    requires Run(s, es).consumer == Selecting
    ensures a < k < |es| && Run(s, es[..k]).generation <= Run(s, es).generation
    ensures
      var d := EditOf(Run(s, es[..a]).held, Run(s, es[..a]).pad, es[a].text, es[a].now);
      PutAt(s, es, k, d) && Put(Run(s, es[..k]).generation, d) in Run(s, es).puts
  {
    var d := EditOf(Run(s, es[..a]).held, Run(s, es[..a]).pad, es[a].text, es[a].now);
    assert es[..|es|] == es;
    EditIsFollowed(s, es, a, |es|, d);
    k :| a < k < |es| && PutAt(s, es, k, d);
    PutStays(s, es, k, d);
  }

  lemma {:induction false} PutStays(s: Session, es: seq<Event>, k: nat, d: Document)
    requires k < |es| && PutAt(s, es, k, d)
    ensures Put(Run(s, es[..k]).generation, d) in Run(s, es).puts
    ensures Run(s, es[..k]).generation <= Run(s, es).generation
  {
    assert es[..|es|] == es;
    PutsStayPut(s, es, k, |es|);
    PutsStayPut(s, es, k + 1, |es|);
    var put, puts := Put(Run(s, es[..k]).generation, d), Run(s, es[..k + 1]).puts;
    assert puts[|puts| - 1] == put;
    assert Run(s, es).puts[|puts| - 1] == put;
  }

  lemma {:induction false} PutsStayPut(s: Session, es: seq<Event>, m: nat, n: nat)
    requires m <= n <= |es|
    ensures Run(s, es[..m]).puts <= Run(s, es[..n]).puts
    ensures Run(s, es[..m]).generation <= Run(s, es[..n]).generation
    decreases n
  {
    if m < n {
      PutsStayPut(s, es, m, n - 1);
      RunFurther(s, es, n - 1);
      PutsOnlyGrow(Run(s, es[..n - 1]), es[n - 1]);
      GenerationNeverFalls(Run(s, es[..n - 1]), es[n - 1]);
    }
  }

  /** What the reader has set out to publish waits for its turn, whatever else happens, and is then put on the
      generation of that moment. */
  lemma {:induction false} SnapshotsArePublished(s: Session, es: seq<Event>, a: nat, b: nat, d: Document)
    requires a <= b < |es| && Run(s, es[..a]).reader == Publishing(d)
    requires es[b].Republish? && forall k :: a <= k < b ==> !es[k].Republish?
    ensures
      var before, after := Run(s, es[..b]), Run(s, es[..b + 1]);
      if Publishable(d, es[b].works) then after.puts == before.puts + [Put(before.generation, d)]
      else after.puts == before.puts && after.reader == Emitting(Failure, false)
  {
    SnapshotWaits(s, es, a, b, d);
    RunFurther(s, es, b);
  }

  lemma SnapshotStays(s: Session, e: Event)
    requires s.reader.Publishing? && !e.Republish?
    ensures Next(s, e).reader == s.reader
  {
  }

  lemma {:induction false} SnapshotWaits(s: Session, es: seq<Event>, a: nat, b: nat, d: Document)
    requires a <= b <= |es| && Run(s, es[..a]).reader == Publishing(d)
    requires forall k :: a <= k < b ==> !es[k].Republish?
    ensures Run(s, es[..b]).reader == Publishing(d)
    decreases b
  {
    if a < b {
      SnapshotWaits(s, es, a, b - 1, d);
      RunFurther(s, es, b - 1);
      SnapshotStays(Run(s, es[..b - 1]), es[b - 1]);
    }
  }

  // A session can always drain.

  /** How much is on its way. */
  function Load(s: Session): nat {
    (if s.reader.Comparing? then 4 else if s.reader.Emitting? then 3 else 0)
    + 2 * |s.events| + |s.received| + (if s.consumer.Sending? then 1 else 0)
  }

  ghost predicate NoFailure(s: Session) {
    && (s.reader.Emitting? ==> !s.reader.frame.Failure?)
    && (forall f :: f in s.events ==> !f.Failure?) && (forall f :: f in s.received ==> !f.Failure?)
    && (s.consumer.Sending? ==> Publishable(s.consumer.document, true))
    && !s.consumer.Returned?
  }

  /** What happens next when nothing comes in from outside. */
  function Unhindered(s: Session): Event {
    if s.consumer.Sending? then Send(true)
    else if s.received != [] then Consume
    else if s.events != [] then Forward
    else if s.reader.Emitting? then Emit
    else Look
  }

  lemma UnhinderedLightens(s: Session)
    requires NoFailure(s) && Load(s) > 0
    ensures NoFailure(Next(s, Unhindered(s))) && Load(Next(s, Unhindered(s))) < Load(s)
    ensures Next(s, Unhindered(s)).closed == s.closed && Next(s, Unhindered(s)).processed == s.processed
  {
    if s.consumer.Selecting? && s.received != [] {
      assert s.received[0] in s.received && forall f :: f in s.received[1..] ==> f in s.received;
    } else if s.consumer.Selecting? && s.events != [] {
      assert s.events[0] in s.events && forall f :: f in s.events[1..] ==> f in s.events;
    }
  }

  /** From every open session without a failure on its way there is a way to go on, without anything from outside,
      after which everything processed has reached the workspace. */
  lemma {:induction false} CanDrain(s: Session) returns (es: seq<Event>)
    requires Valid(s) && NoFailure(s) && !s.closed
    ensures
      var t := Run(s, es);
      && Drained(t) && t.consumer == Selecting && t.processed == s.processed
      && forall d :: d in s.processed ==> AtMostHeld(t, d)
    decreases Load(s)
  {
    if Load(s) == 0 {
      es := [];
    } else {
      var e := Unhindered(s);
      UnhinderedLightens(s);
      StepKeepsValid(s, e);
      var rest := CanDrain(Next(s, e));
      es := [e] + rest;
      RunFrom(s, e, rest);
    }
  }

  lemma {:induction false} RunFrom(s: Session, e: Event, es: seq<Event>)
    ensures Run(s, [e] + es) == Run(Next(s, e), es)
  {
    if es == [] {
      assert [e] + es == [e] && [e][..0] == [];
    } else {
      var last := |es| - 1;
      RunFrom(s, e, es[..last]);
      assert ([e] + es)[..last + 1] == [e] + es[..last];
    }
  }
}
