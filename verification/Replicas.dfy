/** Workspaces over whole runs of local edits and received documents. */
module Replicas {
  import opened Wrappers
  import opened Bytes
  import opened Document

  /** One call on a workspace: a local edit at some clock time, or a document from elsewhere. */
  datatype Op = Author(pad: string, text: seq<byte>, now: int64) | Receive(document: Document)

  /** The document an operation offers to a workspace, if it passes the checks. */
  function OfferOf(docs: Docs, op: Op): Result<Document, Error> {
    match op
    case Author(pad, text, now) => Edit(docs, pad, text, now)
    case Receive(d) => if ValidDocument(Normal(d)) then Ok(Normal(d)) else Err(Invalid)
  }

  predicate Stores(docs: Docs, op: Op) {
    match op
    case Author(pad, text, now) => Edit(docs, pad, text, now).Ok?
    case Receive(d) => Taken(docs, Normal(d))
  }

  function Do(docs: Docs, op: Op): Docs {
    if Stores(docs, op) then docs[OfferOf(docs, op).value.pad := OfferOf(docs, op).value] else docs
  }

  /** The workspace does what `Do` says. */
  method Perform(w: Workspace, op: Op)
    modifies w
    ensures w.docs == Do(old(w.docs), op)
  {
    match op
    case Author(pad, text, now) =>
      var r := w.Update(pad, text, now);
    case Receive(d) =>
      var r := w.ApplyRemote(d);
  }

  function Run(ops: seq<Op>): Docs {
    if ops == [] then map[] else Do(Run(ops[..|ops| - 1]), ops[|ops| - 1])
  }

  /** Every document of a pad that was authored or received in a run. */
  function Offered(ops: seq<Op>, pad: string): set<Document> {
    if ops == [] then {}
    else
      var before, offer := ops[..|ops| - 1], OfferOf(Run(ops[..|ops| - 1]), ops[|ops| - 1]);
      if offer.Ok? && offer.value.pad == pad then Offered(before, pad) + {offer.value} else Offered(before, pad)
  }

  /** The workspace has the highest document of a set, or nothing if the set is empty. */
  ghost predicate IsMax(docs: Docs, pad: string, offered: set<Document>) {
    && (pad in docs <==> offered != {})
    && (pad in docs ==> docs[pad] in offered)
    && (forall d :: d in offered ==> d.pad == pad && Compare(d, Current(docs, pad)) <= 0)
  }

  ghost predicate HoldsMax(ops: seq<Op>) {
    forall pad :: IsMax(Run(ops), pad, Offered(ops, pad))
  }

  /** A local edit of a document that has no higher revision. */
  ghost predicate AtCeiling(docs: Docs, op: Op) {
    op.Author? && Stores(docs, op) && Current(docs, NormalizePad(op.pad)).revision == MAX_REVISION
  }

  ghost predicate NeverAtCeiling(ops: seq<Op>) {
    forall n: nat :: n < |ops| ==> !AtCeiling(Run(ops[..n]), ops[n])
  }

  // A local edit.

  /** Every document held is valid and under its own name. */
  ghost predicate Sound(docs: Docs) {
    forall pad :: pad in docs ==> docs[pad].pad == pad && ValidDocument(docs[pad])
  }

  /** An edit is above the document it replaces unless the revision wraps around, later than it unless the
      timestamp does, and passes the receivers' validation unless either does. */
  lemma EditIsAbove(docs: Docs, pad: string, text: seq<byte>, now: int64)
    requires Edit(docs, pad, text, now).Ok?
    ensures
      var d, current := Edit(docs, pad, text, now).value, Current(docs, NormalizePad(pad));
      && d.pad == NormalizePad(pad) && d.text == text
      && (current.revision != MAX_REVISION ==> d.revision == current.revision + 1)
      && (d.timestamp > current.timestamp <==> current.timestamp != MAX_TIMESTAMP)
      && (now > current.timestamp ==> d.timestamp == now)
      && (Compare(d, current) > 0 <==> current.revision != MAX_REVISION)
      && (Sound(docs) ==>
          (ValidDocument(d) <==> current.revision != MAX_REVISION && current.timestamp != MAX_TIMESTAMP))
  {
  }

  function Top(): Document {
    Document("main", [], MAX_REVISION, 1)
  }

  /** A valid received document at the highest revision makes the next edit fall to the bottom. */
  lemma WrappedEditIsLost()
    ensures ValidDocument(Top()) && Taken(map[], Top())
    ensures Edit(map["main" := Top()], "main", [65], 2) == Ok(Document("main", [65], 0, 2))
    ensures !ValidDocument(Document("main", [65], 0, 2)) && Compare(Document("main", [65], 0, 2), Top()) < 0
  {
    MainIsNormal();
  }

  lemma MainIsNormal()
    ensures NormalizePad("main") == "main" && ValidPad("main")
  {
    assert "main"[1..] == "ain" && "ain"[1..] == "in" && "in"[1..] == "n" && "n"[1..] == "";
    assert Utf8Length("n") == 1 && Utf8Length("in") == 2 && Utf8Length("ain") == 3;
  }

  // Whole runs.

  lemma StepKeepsMax(docs: Docs, offered: set<Document>, op: Op, pad: string)
    requires IsMax(docs, pad, offered) && !AtCeiling(docs, op)
    ensures
      var offer := OfferOf(docs, op);
      IsMax(Do(docs, op), pad, if offer.Ok? && offer.value.pad == pad then offered + {offer.value} else offered)
  {
    var offer := OfferOf(docs, op);
    if offer.Ok? && offer.value.pad == pad {
      var newer, current := offer.value, Current(docs, pad);
      OrderIsTotal(newer, newer);
      if op.Author? {
        EditIsAbove(docs, op.pad, op.text, op.now);
      }
      if Stores(docs, op) {
        forall d | d in offered ensures Compare(d, newer) <= 0 {
          OrderIsTotal(newer, current);
          OrderIsTransitive(d, current, newer);
        }
      }
    }
  }

  lemma {:induction false} RunHoldsMax(ops: seq<Op>, pad: string)
    requires NeverAtCeiling(ops)
    ensures IsMax(Run(ops), pad, Offered(ops, pad))
  {
    if ops != [] {
      var last := |ops| - 1;
      assert forall n: nat :: n < last ==> ops[..last][..n] == ops[..n] && ops[..last][n] == ops[n];
      RunHoldsMax(ops[..last], pad);
      StepKeepsMax(Run(ops[..last]), Offered(ops[..last], pad), ops[last], pad);
    }
  }

  /** An edit at the ceiling replaces the highest document by a lower one. */
  lemma CeilingLosesMax(docs: Docs, offered: set<Document>, op: Op)
    requires AtCeiling(docs, op) && IsMax(docs, NormalizePad(op.pad), offered)
    ensures !IsMax(Do(docs, op), NormalizePad(op.pad), offered + {OfferOf(docs, op).value})
  {
    var current := Current(docs, NormalizePad(op.pad));
    EditIsAbove(docs, op.pad, op.text, op.now);
    assert current in offered;
    assert Compare(current, OfferOf(docs, op).value) > 0;
  }

  lemma PrefixNeverAtCeiling(ops: seq<Op>, n: nat)
    requires NeverAtCeiling(ops) && n <= |ops|
    ensures NeverAtCeiling(ops[..n])
  {
    forall m: nat | m < n ensures !AtCeiling(Run(ops[..n][..m]), ops[..n][m]) {
      assert ops[..n][..m] == ops[..m] && ops[..n][m] == ops[m];
    }
  }

  lemma PrefixHoldsMax(ops: seq<Op>, n: nat)
    requires NeverAtCeiling(ops) && n <= |ops|
    ensures HoldsMax(ops[..n])
  {
    PrefixNeverAtCeiling(ops, n);
    forall pad ensures IsMax(Run(ops[..n]), pad, Offered(ops[..n], pad)) {
      RunHoldsMax(ops[..n], pad);
    }
  }

  lemma {:induction false} LosesMax(ops: seq<Op>, n: nat)
    requires n < |ops| && AtCeiling(Run(ops[..n]), ops[n]) && HoldsMax(ops[..n])
    ensures !HoldsMax(ops[..n + 1])
  {
    var pad := NormalizePad(ops[n].pad);
    var before, after := ops[..n], ops[..n + 1];
    assert IsMax(Run(before), pad, Offered(before, pad));
    CeilingLosesMax(Run(before), Offered(before, pad), ops[n]);
    assert after[..|after| - 1] == before && after[|after| - 1] == ops[n];
    assert Run(after) == Do(Run(before), ops[n]);
    assert Offered(after, pad) == Offered(before, pad) + {OfferOf(Run(before), ops[n]).value};
    assert !IsMax(Run(after), pad, Offered(after, pad));
  }

  /** A workspace holds the highest document it authored or was given, at every moment of a run,
      if and only if it never edits a document at the highest revision. */
  lemma {:induction false} HoldsMaxExactly(ops: seq<Op>)
    ensures NeverAtCeiling(ops) <==> forall n: nat :: n <= |ops| ==> HoldsMax(ops[..n])
  {
    if NeverAtCeiling(ops) {
      forall n: nat | n <= |ops| ensures HoldsMax(ops[..n]) {
        PrefixHoldsMax(ops, n);
      }
    } else {
      var n: nat :| n < |ops| && AtCeiling(Run(ops[..n]), ops[n]);
      if HoldsMax(ops[..n]) {
        LosesMax(ops, n);
      }
    }
  }

  /** The highest document of a set is one. */
  lemma MaxIsUnique(a: Docs, b: Docs, pad: string, offered: set<Document>)
    requires IsMax(a, pad, offered) && IsMax(b, pad, offered)
    ensures (pad in a <==> pad in b) && (pad in a ==> a[pad] == b[pad])
  {
    if pad in a {
      OrderIsTotal(a[pad], b[pad]);
    }
  }

  /** What a pad holds is of the highest revision of everything it authored or was given, and the latest of that
      revision; of documents of one revision and time it is the one whose text comes last. */
  lemma NewestIsHeld(ops: seq<Op>, pad: string, d: Document)
    requires NeverAtCeiling(ops) && d in Offered(ops, pad)
    ensures pad in Run(ops)
    ensures
      var held := Run(ops)[pad];
      || d.revision < held.revision
      || (d.revision == held.revision && d.timestamp < held.timestamp)
      || (d.revision == held.revision && d.timestamp == held.timestamp && !ComesFirst(held.text, d.text))
  {
    RunHoldsMax(ops, pad);
    var held := Run(ops)[pad];
    OrderIsTotal(d, held);
    OrderIs(held, d);
    OrderIs(d, held);
  }

  /** An edit is refused exactly for a name or a text that is too long or a name with forbidden characters. */
  lemma EditIsAccepted(docs: Docs, pad: string, text: seq<byte>, now: int64)
    ensures Edit(docs, pad, text, now).Ok? <==>
      && Utf8Length(NormalizePad(pad)) <= 64 && |text| <= 1024 * 1024
      && forall c :: c in NormalizePad(pad) ==> c != '\0' && c != '\r' && c != '\n'
  {
    NormalPads(pad);
  }

  /** Workspaces that authored or received the same documents, in any order and however often, are equal. */
  lemma Convergence(left: seq<Op>, right: seq<Op>)
    requires NeverAtCeiling(left) && NeverAtCeiling(right)
    requires forall pad :: Offered(left, pad) == Offered(right, pad)
    ensures Run(left) == Run(right)
  {
    forall pad
      ensures (pad in Run(left) <==> pad in Run(right)) && (pad in Run(left) ==> Run(left)[pad] == Run(right)[pad])
    {
      RunHoldsMax(left, pad);
      RunHoldsMax(right, pad);
      MaxIsUnique(Run(left), Run(right), pad, Offered(left, pad));
    }
  }

  /** No pad moves down. */
  lemma StepNeverDown(docs: Docs, op: Op, pad: string)
    requires !AtCeiling(docs, op)
    ensures Compare(Current(docs, pad), Current(Do(docs, op), pad)) <= 0
  {
    OrderIsTotal(Current(docs, pad), Current(Do(docs, op), pad));
    if op.Author? && Stores(docs, op) {
      EditIsAbove(docs, op.pad, op.text, op.now);
    }
  }

  /** With both counters away from their ends, everything held would be accepted by every receiver. */
  lemma StepKeepsSound(docs: Docs, op: Op)
    requires Sound(docs)
    ensures Sound(Do(docs, op)) <==>
      !AtCeiling(docs, op)
        && !(op.Author? && Stores(docs, op) && Current(docs, NormalizePad(op.pad)).timestamp == MAX_TIMESTAMP)
  {
    if op.Author? && Stores(docs, op) {
      EditIsAbove(docs, op.pad, op.text, op.now);
      assert Do(docs, op)[NormalizePad(op.pad)] == OfferOf(docs, op).value;
    }
  }
}
