/** The sender's file loop: it opens a stream for every file and then sends chunks in the order the
    scheduler gives, until every file has been sent from its resume offset to its end. */
module Sending {
  import opened Wrappers
  import opened Bytes
  import opened Scheduler
  import opened Fairness
  import Outgoing
  import Resume

  datatype Frame =
    | Open(item: nat)
    | Data(item: nat, offset: nat, data: seq<byte>)
    | End(item: nat)

  function Weight(remaining: int): (w: int)
    ensures w > 0
  {
    if remaining <= 0x10_0000 then 4 else if remaining <= 0x100_0000 then 2 else 1
  }

  /** A file with less left has at least the share of one with more: up to a mebibyte it has four shares, above
      sixteen it has one. */
  lemma SmallFilesHaveMore(a: int, b: int)
    requires a <= b
    ensures Weight(a) >= Weight(b)
    ensures Weight(a) == 4 <==> a <= 1024 * 1024
    ensures Weight(a) == 1 <==> a > 16 * 1024 * 1024
    ensures Weight(a) in {1, 2, 4}
  {
  }

  // What a sequence of frames has sent.

  /** How far item `i` has been sent. */
  function Progress(fs: seq<Frame>, i: nat, from: nat): nat {
    if fs == [] then from
    else
      var f := fs[|fs| - 1];
      Progress(fs[..|fs| - 1], i, from) + (if f.Data? && f.item == i then |f.data| else 0)
  }

  /** Frame `f` continues `fs` as an honest sender would. A stream is opened once and before
      anything else; a chunk is not empty, carries the next bytes of its file and stays within it;
      a stream is ended once, when its file is complete, and nothing follows its end. */
  ghost predicate Continues(sources: seq<seq<byte>>, starts: seq<nat>, fs: seq<Frame>, f: Frame)
    requires |starts| == |sources|
  {
    && f.item < |sources|
    && var at := Progress(fs, f.item, starts[f.item]);
       match f
       case Open(i) => Open(i) !in fs
       case Data(i, offset, data) =>
         && Open(i) in fs && End(i) !in fs
         && offset == at && data != [] && at + |data| <= |sources[i]|
         && data == sources[i][at..at + |data|]
       case End(i) => Open(i) in fs && End(i) !in fs && at == |sources[i]|
  }

  ghost predicate Honest(sources: seq<seq<byte>>, starts: seq<nat>, fs: seq<Frame>)
    requires |starts| == |sources|
  {
    fs == [] || (Honest(sources, starts, fs[..|fs| - 1]) && Continues(sources, starts, fs[..|fs| - 1], fs[|fs| - 1]))
  }

  /** Everything has been sent. */
  ghost predicate Complete(sources: seq<seq<byte>>, starts: seq<nat>, fs: seq<Frame>)
    requires |starts| == |sources|
  {
    forall i :: 0 <= i < |sources| ==> Progress(fs, i, starts[i]) == |sources[i]| && Open(i) in fs && End(i) in fs
  }

  ghost predicate Unfinished(sources: seq<seq<byte>>, starts: seq<nat>, fs: seq<Frame>, i: int)
    requires |starts| == |sources|
  {
    0 <= i < |sources| && Progress(fs, i, starts[i]) < |sources[i]|
  }

  /** Two unfinished files have had shares of the link in proportion to their weights, to within
      one chunk per unit of weight. */
  ghost predicate Fair(sources: seq<seq<byte>>, starts: seq<nat>, chunk: int, fs: seq<Frame>)
    requires |starts| == |sources|
  {
    forall a, b :: Unfinished(sources, starts, fs, a) && Unfinished(sources, starts, fs, b) ==>
      FairPair(sources, starts, chunk, fs, a, b)
  }

  ghost predicate FairPair(sources: seq<seq<byte>>, starts: seq<nat>, chunk: int, fs: seq<Frame>, a: int, b: int)
    requires |starts| == |sources| && 0 <= a < |sources| && 0 <= b < |sources|
  {
    var wa, wb := Weight(|sources[a]| - starts[a]), Weight(|sources[b]| - starts[b]);
    (Progress(fs, a, starts[a]) - starts[a]) * wb - (Progress(fs, b, starts[b]) - starts[b]) * wa <= chunk * wa * wb
  }

  ghost predicate AlwaysFair(sources: seq<seq<byte>>, starts: seq<nat>, chunk: int, fs: seq<Frame>)
    requires |starts| == |sources|
  {
    fs == [] || (AlwaysFair(sources, starts, chunk, fs[..|fs| - 1]) && Fair(sources, starts, chunk, fs))
  }

  lemma Extend(fs: seq<Frame>, f: Frame, i: nat, from: nat)
    ensures Progress(fs + [f], i, from) == Progress(fs, i, from) + (if f.Data? && f.item == i then |f.data| else 0)
  {
    assert (fs + [f])[..|fs|] == fs;
  }

  lemma ExtendHonest(sources: seq<seq<byte>>, starts: seq<nat>, fs: seq<Frame>, f: Frame)
    requires |starts| == |sources| && Honest(sources, starts, fs) && Continues(sources, starts, fs, f)
    ensures Honest(sources, starts, fs + [f])
  {
    assert (fs + [f])[..|fs|] == fs;
  }

  lemma ExtendFair(sources: seq<seq<byte>>, starts: seq<nat>, chunk: int, fs: seq<Frame>, f: Frame)
    requires |starts| == |sources| && AlwaysFair(sources, starts, chunk, fs) && Fair(sources, starts, chunk, fs + [f])
    ensures AlwaysFair(sources, starts, chunk, fs + [f])
  {
    assert (fs + [f])[..|fs|] == fs;
  }

  /** Opening and ending frames move no bytes. */
  lemma EmptyFrameIsFair(sources: seq<seq<byte>>, starts: seq<nat>, chunk: int, fs: seq<Frame>, f: Frame)
    requires |starts| == |sources| && Fair(sources, starts, chunk, fs) && !f.Data?
    ensures Fair(sources, starts, chunk, fs + [f])
  {
    forall a, b | Unfinished(sources, starts, fs + [f], a) && Unfinished(sources, starts, fs + [f], b)
      ensures FairPair(sources, starts, chunk, fs + [f], a, b)
    {
      Extend(fs, f, a, starts[a]);
      Extend(fs, f, b, starts[b]);
      assert Unfinished(sources, starts, fs, a) && Unfinished(sources, starts, fs, b);
      assert FairPair(sources, starts, chunk, fs, a, b);
    }
  }

  // The loop.

  /** The streams given to the scheduler: the first `n` files that are not complete yet. */
  function Requests(sources: seq<seq<byte>>, starts: seq<nat>, n: nat): (rs: seq<Request>)
    requires n <= |sources| == |starts|
  {
    if n == 0 then []
    else
      var before := Requests(sources, starts, n - 1);
      if starts[n - 1] < |sources[n - 1]|
      then before + [Request(n, Weight(|sources[n - 1]| - starts[n - 1]))] else before
  }

  ghost predicate RequestFor(sources: seq<seq<byte>>, starts: seq<nat>, n: nat, r: Request)
    requires n <= |sources| == |starts|
  {
    && 1 <= r.id <= n && starts[r.id - 1] < |sources[r.id - 1]|
    && r.weight == Weight(|sources[r.id - 1]| - starts[r.id - 1])
  }

  ghost predicate HasRequest(rs: seq<Request>, i: int) {
    exists c :: 0 <= c < |rs| && rs[c].id == i + 1
  }

  lemma {:induction false} RequestsCover(sources: seq<seq<byte>>, starts: seq<nat>, n: nat)
    requires n <= |sources| == |starts|
    ensures
      var rs := Requests(sources, starts, n);
      && AllDistinct(rs)
      && (forall c :: 0 <= c < |rs| ==> RequestFor(sources, starts, n, rs[c]))
      && (forall i {:trigger HasRequest(rs, i)} :: 0 <= i < n && starts[i] < |sources[i]| ==> HasRequest(rs, i))
  {
    if n > 0 {
      RequestsCover(sources, starts, n - 1);
      var before := Requests(sources, starts, n - 1);
      var rs := Requests(sources, starts, n);
      forall c | 0 <= c < |before| ensures RequestFor(sources, starts, n, before[c]) {
        assert RequestFor(sources, starts, n - 1, before[c]);
      }
      if starts[n - 1] < |sources[n - 1]| {
        assert rs[|before|].id == n;
        forall i {:trigger HasRequest(rs, i)} | 0 <= i < n - 1 && starts[i] < |sources[i]| ensures HasRequest(rs, i) {
          assert HasRequest(before, i);
          var c :| 0 <= c < |before| && before[c].id == i + 1;
          assert rs[c] == before[c];
        }
      }
    }
  }

  /** The loop between two turns; `round` is the scheduler's round. */
  datatype Loop = Loop(ledger: Ledger, round: int, offsets: seq<nat>, frames: seq<Frame>)

  /** What the sender was given. */
  datatype Task = Task(sources: seq<seq<byte>>, starts: seq<nat>, chunk: int)

  ghost predicate TaskOk(t: Task) {
    t.chunk > 0 && |t.starts| == |t.sources| && forall i :: 0 <= i < |t.sources| ==> t.starts[i] <= |t.sources[i]|
  }

  function AllRequests(t: Task): seq<Request>
    requires |t.starts| == |t.sources|
  {
    Requests(t.sources, t.starts, |t.sources|)
  }

  /** The item whose stream has index `c`. */
  function ItemAt(t: Task, c: int): int
    requires |t.starts| == |t.sources| && 0 <= c < |AllRequests(t)|
  {
    AllRequests(t)[c].id - 1
  }

  /** The scheduler and the files are in step: it has run full turns only, a stream is active exactly
      while its file is unfinished, and it has been served what was sent of the file. */
  ghost predicate InStep(t: Task, l: Loop)
    requires TaskOk(t)
  {
    && Rounds(l.ledger, l.round) && l.ledger.sched.quantum == t.chunk
    && |l.ledger.sched.streams| == |AllRequests(t)| && |l.offsets| == |t.sources|
    && (forall c :: 0 <= c < |l.ledger.served| ==> StreamInStep(t, l, c))
  }

  ghost predicate StreamInStep(t: Task, l: Loop, c: int)
    requires TaskOk(t) && 0 <= c < |AllRequests(t)| == |l.ledger.sched.streams| == |l.ledger.served|
    requires |l.offsets| == |t.sources|
  {
    var i := ItemAt(t, c);
    && 0 <= i < |t.sources| && l.ledger.sched.streams[c].id == i + 1
    && l.ledger.sched.streams[c].weight == AllRequests(t)[c].weight
    && (l.ledger.sched.streams[c].active <==> l.offsets[i] < |t.sources[i]|)
    && l.ledger.served[c] + t.starts[i] == l.offsets[i]
  }

  /** The frames sent are honest and fair, and the offsets say how far each file is. */
  ghost predicate Sent(t: Task, offsets: seq<nat>, frames: seq<Frame>)
    requires TaskOk(t)
  {
    && |offsets| == |t.sources|
    && Honest(t.sources, t.starts, frames) && AlwaysFair(t.sources, t.starts, t.chunk, frames)
    && Fair(t.sources, t.starts, t.chunk, frames)
    && (forall i :: 0 <= i < |t.sources| ==> FileSent(t, offsets, frames, i))
  }

  ghost predicate FileSent(t: Task, offsets: seq<nat>, frames: seq<Frame>, i: int)
    requires TaskOk(t) && 0 <= i < |t.sources| == |offsets|
  {
    && t.starts[i] <= offsets[i] == Progress(frames, i, t.starts[i]) <= |t.sources[i]|
    && Open(i) in frames && (End(i) in frames <==> offsets[i] == |t.sources[i]|)
  }

  /** The next `length` bytes of file `i`. */
  function Piece(t: Task, offsets: seq<nat>, i: nat, length: nat): Frame
    requires i < |t.sources| == |offsets| && offsets[i] + length <= |t.sources[i]|
  {
    Data(i, offsets[i], t.sources[i][offsets[i]..offsets[i] + length])
  }

  function SendPiece(t: Task, offsets: seq<nat>, frames: seq<Frame>, i: nat, length: nat): seq<Frame>
    requires i < |t.sources| == |offsets| && offsets[i] + length <= |t.sources[i]|
  {
    var sent := frames + [Piece(t, offsets, i, length)];
    if offsets[i] + length == |t.sources[i]| then sent + [End(i)] else sent
  }

  /** The stream whose turn it is, and what it sends. */
  ghost function TurnItem(t: Task, l: Loop): (i: int)
    requires TaskOk(t) && InStep(t, l) && l.ledger.sched.active > 0
    ensures 0 <= i < |t.sources| && l.offsets[i] < |t.sources[i]|
  {
    assert StreamInStep(t, l, Chosen(l.ledger.sched));
    ItemAt(t, Chosen(l.ledger.sched))
  }

  ghost function TurnUse(t: Task, l: Loop): (u: Use)
    requires TaskOk(t) && InStep(t, l) && l.ledger.sched.active > 0
    ensures Legal(l.ledger, u) && Full(l.ledger, u)
    ensures u.maxBytes == t.chunk && 0 < u.used <= |t.sources[TurnItem(t, l)]| - l.offsets[TurnItem(t, l)]
    ensures u.done <==> l.offsets[TurnItem(t, l)] + u.used == |t.sources[TurnItem(t, l)]|
  {
    var i := TurnItem(t, l);
    NextKeepsValid(l.ledger.sched, t.chunk);
    var used := Min(Opened(l.ledger, Use(t.chunk, 0, false)).budget, |t.sources[i]| - l.offsets[i]);
    Use(t.chunk, used, l.offsets[i] + used >= |t.sources[i]|)
  }

  /** The loop after the turn; the scheduler may have come to round `round`. */
  ghost function Turned(t: Task, l: Loop, round: int): Loop
    requires TaskOk(t) && InStep(t, l) && l.ledger.sched.active > 0
  {
    var i, u := TurnItem(t, l), TurnUse(t, l);
    Loop(Play(l.ledger, u), round, l.offsets[i := l.offsets[i] + u.used], SendPiece(t, l.offsets, l.frames, i, u.used))
  }

  lemma {:induction false} OneItemPerStream(t: Task, c: int, d: int)
    requires TaskOk(t) && 0 <= c < |AllRequests(t)| && 0 <= d < |AllRequests(t)| && c != d
    ensures ItemAt(t, c) != ItemAt(t, d)
  {
    RequestsCover(t.sources, t.starts, |t.sources|);
  }

  lemma {:induction false} IdsStay(l: Ledger, u: Use, c: int)
    requires Legal(l, u) && 0 <= c < |l.sched.streams|
    ensures |Play(l, u).sched.streams| == |l.sched.streams| && Play(l, u).sched.streams[c].id == l.sched.streams[c].id
  {
  }

  lemma {:induction false} TurnKeepsStep(t: Task, l: Loop) returns (m: Loop)
    requires TaskOk(t) && InStep(t, l) && l.ledger.sched.active > 0
    ensures InStep(t, m) && m == Turned(t, l, m.round)
  {
    var u := TurnUse(t, l);
    var round := PlayKeepsRounds(l.ledger, u, l.round);
    m := Turned(t, l, round);
    var chosen := Chosen(l.ledger.sched);
    PlayFacts(l.ledger, u);
    forall c | 0 <= c < |m.ledger.served| ensures StreamInStep(t, m, c) {
      assert StreamInStep(t, l, c);
      IdsStay(l.ledger, u, c);
      if c != chosen {
        OneItemPerStream(t, c, chosen);
      }
    }
  }

  /** An unfinished file has an active stream. */
  lemma {:induction false} StreamFor(t: Task, l: Loop, i: int) returns (c: int)
    requires TaskOk(t) && InStep(t, l) && 0 <= i < |t.sources| && t.starts[i] <= l.offsets[i] < |t.sources[i]|
    ensures 0 <= c < |AllRequests(t)| && ItemAt(t, c) == i && l.ledger.sched.streams[c].active
    ensures AllRequests(t)[c].weight == Weight(|t.sources[i]| - t.starts[i])
    ensures l.ledger.served[c] == l.offsets[i] - t.starts[i]
  {
    RequestsCover(t.sources, t.starts, |t.sources|);
    var rs := AllRequests(t);
    assert HasRequest(rs, i);
    c :| 0 <= c < |rs| && rs[c].id == i + 1;
    assert StreamInStep(t, l, c) && RequestFor(t.sources, t.starts, |t.sources|, rs[c]);
  }

  /** The scheduler's fairness, carried over to the files. */
  lemma {:induction false} LoopIsFair(t: Task, l: Loop, fs: seq<Frame>)
    requires TaskOk(t) && InStep(t, l)
    requires forall i :: 0 <= i < |t.sources| ==> t.starts[i] <= l.offsets[i] == Progress(fs, i, t.starts[i])
    ensures Fair(t.sources, t.starts, t.chunk, fs)
  {
    forall a, b | Unfinished(t.sources, t.starts, fs, a) && Unfinished(t.sources, t.starts, fs, b)
      ensures FairPair(t.sources, t.starts, t.chunk, fs, a, b)
    {
      var ca := StreamFor(t, l, a);
      var cb := StreamFor(t, l, b);
      assert StreamInStep(t, l, ca) && StreamInStep(t, l, cb);
      RoundsAreFair(l.ledger, l.round, ca, cb);
    }
  }

  lemma {:induction false} PieceMoves(t: Task, offsets: seq<nat>, frames: seq<Frame>, i: nat, length: nat)
    requires TaskOk(t) && Sent(t, offsets, frames)
    requires i < |t.sources| && 0 < length && offsets[i] + length <= |t.sources[i]|
    ensures
      var fs := frames + [Piece(t, offsets, i, length)];
      && Honest(t.sources, t.starts, fs)
      && (forall k :: 0 <= k < |t.sources| ==>
          t.starts[k] <= offsets[i := offsets[i] + length][k] == Progress(fs, k, t.starts[k]))
  {
    var f := Piece(t, offsets, i, length);
    assert FileSent(t, offsets, frames, i);
    ExtendHonest(t.sources, t.starts, frames, f);
    forall k | 0 <= k < |t.sources|
      ensures t.starts[k] <= offsets[i := offsets[i] + length][k] == Progress(frames + [f], k, t.starts[k])
    {
      assert FileSent(t, offsets, frames, k);
      Extend(frames, f, k, t.starts[k]);
    }
  }

  lemma {:induction false} FilesAfterPiece(t: Task, offsets: seq<nat>, frames: seq<Frame>, i: nat, length: nat, k: nat)
    requires TaskOk(t) && Sent(t, offsets, frames)
    requires i < |t.sources| && 0 < length && offsets[i] + length <= |t.sources[i]| && k < |t.sources|
    ensures FileSent(t, offsets[i := offsets[i] + length], SendPiece(t, offsets, frames, i, length), k)
  {
    PieceMoves(t, offsets, frames, i, length);
    assert FileSent(t, offsets, frames, k);
    Extend(frames + [Piece(t, offsets, i, length)], End(i), k, t.starts[k]);
  }

  /** A complete file may be ended. */
  lemma {:induction false} EndIsHonest(t: Task, offsets: seq<nat>, frames: seq<Frame>, i: nat, length: nat)
    requires TaskOk(t) && Sent(t, offsets, frames)
    requires i < |t.sources| && 0 < length && offsets[i] + length == |t.sources[i]|
    ensures
      var fs := frames + [Piece(t, offsets, i, length)];
      Honest(t.sources, t.starts, fs) && Honest(t.sources, t.starts, fs + [End(i)])
  {
    PieceMoves(t, offsets, frames, i, length);
    assert FileSent(t, offsets, frames, i);
    ExtendHonest(t.sources, t.starts, frames + [Piece(t, offsets, i, length)], End(i));
  }

  lemma {:induction false} PieceIsSent(t: Task, offsets: seq<nat>, frames: seq<Frame>, i: nat, length: nat)
    requires TaskOk(t) && Sent(t, offsets, frames)
    requires i < |t.sources| && 0 < length && offsets[i] + length <= |t.sources[i]|
    requires Fair(t.sources, t.starts, t.chunk, frames + [Piece(t, offsets, i, length)])
    ensures Sent(t, offsets[i := offsets[i] + length], SendPiece(t, offsets, frames, i, length))
  {
    var f := Piece(t, offsets, i, length);
    var fs := frames + [f];
    var moved := offsets[i := offsets[i] + length];
    ExtendFair(t.sources, t.starts, t.chunk, frames, f);
    if moved[i] == |t.sources[i]| {
      EndIsHonest(t, offsets, frames, i, length);
      EmptyFrameIsFair(t.sources, t.starts, t.chunk, fs, End(i));
      ExtendFair(t.sources, t.starts, t.chunk, fs, End(i));
    } else {
      PieceMoves(t, offsets, frames, i, length);
    }
    forall k | 0 <= k < |t.sources| ensures FileSent(t, moved, SendPiece(t, offsets, frames, i, length), k) {
      FilesAfterPiece(t, offsets, frames, i, length, k);
    }
  }

  lemma {:induction false} TurnKeepsSent(t: Task, l: Loop) returns (m: Loop)
    requires TaskOk(t) && InStep(t, l) && Sent(t, l.offsets, l.frames) && l.ledger.sched.active > 0
    ensures InStep(t, m) && Sent(t, m.offsets, m.frames) && m == Turned(t, l, m.round)
  {
    var i, u := TurnItem(t, l), TurnUse(t, l);
    m := TurnKeepsStep(t, l);
    PieceMoves(t, l.offsets, l.frames, i, u.used);
    LoopIsFair(t, m, l.frames + [Piece(t, l.offsets, i, u.used)]);
    PieceIsSent(t, l.offsets, l.frames, i, u.used);
  }

  // Opening the streams.

  function Opening(t: Task, i: nat): seq<Frame>
    requires i < |t.sources| == |t.starts|
  {
    if t.starts[i] >= |t.sources[i]| then [Open(i), End(i)] else [Open(i)]
  }

  lemma FairAtRest(t: Task, fs: seq<Frame>)
    requires TaskOk(t) && forall i :: 0 <= i < |t.sources| ==> Progress(fs, i, t.starts[i]) == t.starts[i]
    ensures Fair(t.sources, t.starts, t.chunk, fs)
  {
    forall a, b | Unfinished(t.sources, t.starts, fs, a) && Unfinished(t.sources, t.starts, fs, b)
      ensures FairPair(t.sources, t.starts, t.chunk, fs, a, b)
    {
      var wa, wb := Weight(|t.sources[a]| - t.starts[a]), Weight(|t.sources[b]| - t.starts[b]);
      PositiveProduct(t.chunk, wa);
      PositiveProduct(t.chunk * wa, wb);
    }
  }

  /** After opening `n` streams: nothing has moved, and the complete files among them are ended. */
  ghost predicate OpenedUpTo(t: Task, n: nat, fs: seq<Frame>)
    requires TaskOk(t) && n <= |t.sources|
  {
    && Honest(t.sources, t.starts, fs) && AlwaysFair(t.sources, t.starts, t.chunk, fs)
    && (forall i :: 0 <= i < |t.sources| ==> Progress(fs, i, t.starts[i]) == t.starts[i])
    && (forall i: nat :: Open(i) in fs <==> i < n)
    && (forall i: nat :: End(i) in fs <==> i < n && t.starts[i] == |t.sources[i]|)
  }

  lemma {:induction false} AddEmptyFrame(t: Task, fs: seq<Frame>, f: Frame)
    requires TaskOk(t) && !f.Data? && Continues(t.sources, t.starts, fs, f)
    requires Honest(t.sources, t.starts, fs) && AlwaysFair(t.sources, t.starts, t.chunk, fs)
    requires forall i :: 0 <= i < |t.sources| ==> Progress(fs, i, t.starts[i]) == t.starts[i]
    ensures Honest(t.sources, t.starts, fs + [f]) && AlwaysFair(t.sources, t.starts, t.chunk, fs + [f])
    ensures forall i :: 0 <= i < |t.sources| ==> Progress(fs + [f], i, t.starts[i]) == t.starts[i]
  {
    ExtendHonest(t.sources, t.starts, fs, f);
    forall i | 0 <= i < |t.sources| ensures Progress(fs + [f], i, t.starts[i]) == t.starts[i] {
      Extend(fs, f, i, t.starts[i]);
    }
    FairAtRest(t, fs);
    EmptyFrameIsFair(t.sources, t.starts, t.chunk, fs, f);
    ExtendFair(t.sources, t.starts, t.chunk, fs, f);
  }

  /** What has been sent so far is an honest and fair beginning. */
  ghost predicate Underway(t: Task, fs: seq<Frame>)
    requires TaskOk(t)
  {
    Honest(t.sources, t.starts, fs) && AlwaysFair(t.sources, t.starts, t.chunk, fs)
  }

  lemma {:induction false} OpensOneMore(t: Task, n: nat, fs: seq<Frame>)
    requires TaskOk(t) && n < |t.sources| && OpenedUpTo(t, n, fs)
    ensures Underway(t, fs + [Open(n)]) && OpenedUpTo(t, n + 1, fs + Opening(t, n))
  {
    AddEmptyFrame(t, fs, Open(n));
    if t.starts[n] >= |t.sources[n]| {
      var mid := fs + [Open(n)];
      assert forall i: nat :: End(i) in mid <==> End(i) in fs;
      AddEmptyFrame(t, mid, End(n));
      assert fs + [Open(n), End(n)] == mid + [End(n)];
    }
  }

  lemma {:induction false} StartInStep(t: Task, fs: seq<Frame>) returns (l: Loop)
    requires TaskOk(t) && OpenedUpTo(t, |t.sources|, fs)
    ensures l == Loop(Start(AllRequests(t), t.chunk), 0, t.starts, fs) && Acceptable(AllRequests(t), t.chunk)
    ensures InStep(t, l) && Sent(t, l.offsets, l.frames)
  {
    var rs := AllRequests(t);
    l := Loop(Start(rs, t.chunk), 0, t.starts, fs);
    RequestsCover(t.sources, t.starts, |t.sources|);
    StartIsBalanced(rs, t.chunk);
    FairAtRest(t, fs);
    forall c | 0 <= c < |rs| ensures StreamInStep(t, l, c) {
      assert RequestFor(t.sources, t.starts, |t.sources|, rs[c]);
    }
  }

  /** When no stream is active any more, every file has been sent. */
  lemma {:induction false} AllSent(t: Task, l: Loop)
    requires TaskOk(t) && InStep(t, l) && Sent(t, l.offsets, l.frames) && l.ledger.sched.active == 0
    ensures Complete(t.sources, t.starts, l.frames)
  {
    forall i | 0 <= i < |t.sources|
      ensures Progress(l.frames, i, t.starts[i]) == |t.sources[i]| && Open(i) in l.frames && End(i) in l.frames
    {
      assert FileSent(t, l.offsets, l.frames, i);
      if l.offsets[i] < |t.sources[i]| {
        var c := StreamFor(t, l, i);
        ActiveCountPositive(l.ledger.sched.streams, c);
      }
    }
  }

  function TotalLeft(t: Task, offsets: seq<nat>, n: nat): int
    requires n <= |t.sources| == |offsets|
  {
    if n == 0 then 0 else TotalLeft(t, offsets, n - 1) + |t.sources[n - 1]| - offsets[n - 1]
  }

  lemma {:induction false} TotalLeftMoves(t: Task, offsets: seq<nat>, i: nat, length: nat, n: nat)
    requires n <= |t.sources| == |offsets| && i < |offsets|
    ensures TotalLeft(t, offsets[i := offsets[i] + length], n) ==
      TotalLeft(t, offsets, n) - (if i < n then length else 0)
  {
    if n > 0 {
      TotalLeftMoves(t, offsets, i, length, n - 1);
    }
  }

  lemma {:induction false} TotalLeftIsNatural(t: Task, offsets: seq<nat>, n: nat)
    requires n <= |t.sources| == |offsets| && forall i :: 0 <= i < n ==> offsets[i] <= |t.sources[i]|
    ensures TotalLeft(t, offsets, n) >= 0
  {
    if n > 0 {
      TotalLeftIsNatural(t, offsets, n - 1);
    }
  }

  // The sender's code.

  /** What a sender sends; the answers are those to the receiver's offers. */
  datatype Message = Manifest | Answers(answers: seq<Resume.Offer>) | File(frame: Frame) | Done | Failure

  function AsMessages(fs: seq<Frame>): (ms: seq<Message>)
    ensures |ms| == |fs| && forall k :: 0 <= k < |fs| ==> ms[k] == File(fs[k])
  {
    seq(|fs|, k requires 0 <= k < |fs| => File(fs[k]))
  }

  /** Sends one frame; `base` is what had been sent before the files. */
  method Emit(out: Outgoing.Pipe<Message>, sequence: nat, ghost base: seq<Message>, frames: seq<Frame>, f: Frame)
    returns (ok: bool, more: seq<Frame>)
    requires out.InStep(sequence) && out.messages == base + AsMessages(frames)
    modifies out
    ensures more == (if ok then frames + [f] else frames) && out.messages == base + AsMessages(more)
    ensures out.failed == (old(out.failed) || !ok)
    ensures out.Unspent(sequence + 1) && (ok ==> out.InStep(sequence + 1))
  {
    ok := out.Send(sequence, File(f));
    more := if ok then frames + [f] else frames;
    assert AsMessages(frames + [f]) == AsMessages(frames) + [File(f)];
  }

  /** The scheduler's two calls in a turn succeed and amount to the turn. */
  lemma {:induction false} TurnMatches(t: Task, l: Loop)
    requires TaskOk(t) && InStep(t, l) && l.ledger.sched.active > 0
    ensures
      var i, u := TurnItem(t, l), TurnUse(t, l);
      var o := Opened(l.ledger, u);
      && NextTurn(l.ledger.sched, t.chunk) == (o, Ok(Some(Turn(i + 1, o.budget))))
      && u.used == Min(o.budget, |t.sources[i]| - l.offsets[i])
      && CommitTurn(o, i + 1, u.used, u.done) == (Play(l.ledger, u).sched, None)
  {
    assert StreamInStep(t, l, Chosen(l.ledger.sched));
  }

  /** Whether the loop stops, and that it only stops when every file has been sent. */
  lemma {:induction false} NoTurnMeansSent(t: Task, l: Loop)
    requires TaskOk(t) && InStep(t, l) && Sent(t, l.offsets, l.frames)
    ensures NextTurn(l.ledger.sched, t.chunk).1 == Ok(None) <==> l.ledger.sched.active == 0
    ensures l.ledger.sched.active == 0 ==> Complete(t.sources, t.starts, l.frames)
    ensures TotalLeft(t, l.offsets, |t.sources|) >= 0 && l.ledger.sched.active >= 0
  {
    if l.ledger.sched.active == 0 {
      AllSent(t, l);
    }
    forall i | 0 <= i < |t.sources| ensures l.offsets[i] <= |t.sources[i]| {
      assert FileSent(t, l.offsets, l.frames, i);
    }
    TotalLeftIsNatural(t, l.offsets, |t.sources|);
  }

  /** Opens every stream, and ends those of complete files. It stops where sending fails; `next` is the counter. */
  method OpenStreams(t: Task, out: Outgoing.Pipe<Message>, sequence: nat)
    returns (ok: bool, frames: seq<Frame>, next: nat)
    requires TaskOk(t) && out.InStep(sequence)
    modifies out
    ensures out.messages == old(out.messages) + AsMessages(frames) && Underway(t, frames)
    ensures out.failed == (old(out.failed) || !ok)
    ensures out.Unspent(next) && (ok ==> out.InStep(next) && OpenedUpTo(t, |t.sources|, frames))
  {
    frames, next := [], sequence;
    for n := 0 to |t.sources|
      invariant out.InStep(next) && out.messages == old(out.messages) + AsMessages(frames)
      invariant OpenedUpTo(t, n, frames) && out.failed == old(out.failed)
    {
      OpensOneMore(t, n, frames);
      ok, next, frames := OpenOne(t, n, out, next, old(out.messages), frames);
      if !ok {
        return;
      }
    }
    ok := true;
  }

  method OpenOne(
    t: Task, n: nat, out: Outgoing.Pipe<Message>, sequence: nat, ghost base: seq<Message>, frames: seq<Frame>)
    returns (ok: bool, next: nat, more: seq<Frame>)
    requires |t.starts| == |t.sources| && n < |t.sources|
    requires out.InStep(sequence) && out.messages == base + AsMessages(frames)
    modifies out
    ensures out.messages == base + AsMessages(more) && out.Unspent(next)
    ensures out.failed == (old(out.failed) || !ok)
    ensures ok ==> out.InStep(next) && more == frames + Opening(t, n)
    ensures !ok ==> more == frames || more == frames + [Open(n)]
  {
    next := sequence + 1;
    ok, more := Emit(out, sequence, base, frames, Open(n));
    if ok && t.starts[n] >= |t.sources[n]| {
      var second := next;
      next := next + 1;
      ok, more := Emit(out, second, base, more, End(n));
      assert frames + [Open(n)] + [End(n)] == frames + [Open(n), End(n)];
    }
  }

  /** The turn goes to a file that is not finished. */
  predicate TurnFits(t: Task, offsets: seq<nat>, turn: Turn) {
    && |offsets| == |t.sources| && 1 <= turn.streamId <= |t.sources| && turn.budget > 0
    && offsets[turn.streamId - 1] < |t.sources[turn.streamId - 1]|
  }

  function LengthOf(t: Task, offsets: seq<nat>, turn: Turn): (n: nat)
    requires TurnFits(t, offsets, turn)
    ensures 0 < n <= |t.sources[turn.streamId - 1]| - offsets[turn.streamId - 1]
  {
    Min(turn.budget, |t.sources[turn.streamId - 1]| - offsets[turn.streamId - 1])
  }

  function OffsetsAfter(t: Task, offsets: seq<nat>, turn: Turn): seq<nat>
    requires TurnFits(t, offsets, turn)
  {
    offsets[turn.streamId - 1 := offsets[turn.streamId - 1] + LengthOf(t, offsets, turn)]
  }

  function FramesAfter(t: Task, offsets: seq<nat>, frames: seq<Frame>, turn: Turn): seq<Frame>
    requires TurnFits(t, offsets, turn)
  {
    SendPiece(t, offsets, frames, turn.streamId - 1, LengthOf(t, offsets, turn))
  }

  function SchedAfter(t: Task, o: Sched, offsets: seq<nat>, turn: Turn): (Sched, Option<Scheduler.Error>)
    requires TurnFits(t, offsets, turn) && Valid(o)
  {
    CommitTurn(o, turn.streamId, LengthOf(t, offsets, turn),
               offsets[turn.streamId - 1] + LengthOf(t, offsets, turn) == |t.sources[turn.streamId - 1]|)
  }

  /** Uses a turn: sends the next piece of its file and commits it. */
  method UseTurn(
    t: Task, s: WeightedScheduler, out: Outgoing.Pipe<Message>, sequence: nat, turn: Turn, offsets: seq<nat>,
    frames: seq<Frame>, ghost base: seq<Message>)
    returns (ok: bool, next: nat, offsets': seq<nat>, frames': seq<Frame>, refused: Option<Scheduler.Error>)
    requires TurnFits(t, offsets, turn)
    requires Valid(s.View()) && out.InStep(sequence) && out.messages == base + AsMessages(frames)
    modifies s, out
    ensures out.messages == base + AsMessages(frames') && out.Unspent(next)
    ensures out.failed == (old(out.failed) || !ok)
    ensures ok ==>
      && Valid(s.View()) && (s.View(), refused) == SchedAfter(t, old(s.View()), offsets, turn) && out.InStep(next)
      && offsets' == OffsetsAfter(t, offsets, turn) && frames' == FramesAfter(t, offsets, frames, turn)
    ensures !ok ==> frames' == frames || frames' == frames + [PieceOf(t, offsets, turn)]
  {
    var i := turn.streamId - 1;
    var length := Min(turn.budget, |t.sources[i]| - offsets[i]);
    next, refused, offsets' := sequence + 1, None, offsets;
    ok, frames' := Emit(out, sequence, base, frames, Piece(t, offsets, i, length));
    if !ok {
      return;
    }
    offsets' := offsets[i := offsets[i] + length];
    var done := offsets'[i] >= |t.sources[i]|;
    if done {
      var second := next;
      next := next + 1;
      ok, frames' := Emit(out, second, base, frames', End(i));
      if !ok {
        return;
      }
    }
    refused := s.Commit(turn.streamId, length, done);
  }

  function PieceOf(t: Task, offsets: seq<nat>, turn: Turn): Frame
    requires TurnFits(t, offsets, turn)
  {
    Piece(t, offsets, turn.streamId - 1, LengthOf(t, offsets, turn))
  }

  /** What has been sent of a turn when ending its stream fails. */
  lemma {:induction false} PieceAlone(t: Task, frames: seq<Frame>, f: Frame, e: Frame, all: seq<Frame>)
    requires TaskOk(t) && Underway(t, all) && (all == frames + [f] || all == frames + [f] + [e])
    ensures Underway(t, frames + [f])
  {
    if all == frames + [f] + [e] {
      assert all[..|all| - 1] == frames + [f];
    }
  }

  ghost predicate Looping(t: Task, l: Loop) {
    TaskOk(t) && InStep(t, l) && Sent(t, l.offsets, l.frames)
  }

  lemma {:induction false} TurnIsUsed(t: Task, l: Loop, o: Sched, turn: Turn)
    requires Looping(t, l) && NextTurn(l.ledger.sched, t.chunk) == (o, Ok(Some(turn))) && Valid(o)
    ensures l.ledger.sched.active > 0 && TurnFits(t, l.offsets, turn)
    ensures turn.streamId - 1 == TurnItem(t, l) && LengthOf(t, l.offsets, turn) == TurnUse(t, l).used
    ensures SchedAfter(t, o, l.offsets, turn) == (Play(l.ledger, TurnUse(t, l)).sched, None)
  {
    TurnMatches(t, l);
  }

  lemma {:induction false} LessIsLeft(t: Task, l: Loop, i: nat, length: nat, m: Loop)
    requires Looping(t, l) && Looping(t, m) && i < |t.sources| && length > 0
    requires m.offsets == l.offsets[i := l.offsets[i] + length]
    ensures 0 <= TotalLeft(t, m.offsets, |t.sources|) < TotalLeft(t, l.offsets, |t.sources|)
  {
    TotalLeftMoves(t, l.offsets, i, length, |t.sources|);
    NoTurnMeansSent(t, m);
  }

  /** Everything about the next turn: what the scheduler says, and the loop after it. */
  lemma {:induction false} NextRound(t: Task, l: Loop, o: Sched, turn: Turn) returns (m: Loop)
    requires Looping(t, l) && NextTurn(l.ledger.sched, t.chunk) == (o, Ok(Some(turn))) && Valid(o)
    ensures TurnFits(t, l.offsets, turn)
    ensures SchedAfter(t, o, l.offsets, turn) == (m.ledger.sched, None)
    ensures m.offsets == OffsetsAfter(t, l.offsets, turn) && m.frames == FramesAfter(t, l.offsets, l.frames, turn)
    ensures Looping(t, m) && 0 <= TotalLeft(t, m.offsets, |t.sources|) < TotalLeft(t, l.offsets, |t.sources|)
  {
    TurnIsUsed(t, l, o, turn);
    m := TurnKeepsSent(t, l);
    LessIsLeft(t, l, turn.streamId - 1, LengthOf(t, l.offsets, turn), m);
  }

  lemma {:induction false} LoopStart(t: Task, frames: seq<Frame>) returns (l: Loop)
    requires TaskOk(t) && OpenedUpTo(t, |t.sources|, frames)
    ensures Looping(t, l) && l.offsets == t.starts && l.frames == frames
    ensures Acceptable(AllRequests(t), t.chunk)
    ensures l.ledger.sched == Sched(FreshAll(AllRequests(t)), t.chunk, 0, |AllRequests(t)|, None, 0)
  {
    l := StartInStep(t, frames);
  }

  lemma {:induction false} LoopStops(t: Task, l: Loop)
    requires Looping(t, l)
    ensures Valid(l.ledger.sched) && NextTurn(l.ledger.sched, t.chunk).1.Ok?
    ensures NextTurn(l.ledger.sched, t.chunk).1.value.None? ==> Complete(t.sources, t.starts, l.frames)
  {
    NoTurnMeansSent(t, l);
  }

  /** One round of the loop: asks for a turn and uses it, or finds that everything has been sent. */
  method SendRound(
    t: Task, s: WeightedScheduler, out: Outgoing.Pipe<Message>, sequence: nat, offsets: seq<nat>, frames: seq<Frame>,
    ghost l: Loop, ghost base: seq<Message>)
    returns (ok: bool, more: bool, next: nat, offsets': seq<nat>, frames': seq<Frame>, ghost m: Loop)
    requires Looping(t, l) && (s.View(), offsets, frames) == (l.ledger.sched, l.offsets, l.frames) && Valid(s.View())
    requires out.InStep(sequence) && out.messages == base + AsMessages(frames)
    modifies s, out
    ensures out.messages == base + AsMessages(frames') && Underway(t, frames') && out.Unspent(next)
    ensures out.failed == (old(out.failed) || !ok)
    ensures ok ==> Looping(t, m) && Valid(s.View()) && out.InStep(next)
    ensures ok ==> (s.View(), offsets', frames') == (m.ledger.sched, m.offsets, m.frames)
    ensures ok && more ==> 0 <= TotalLeft(t, offsets', |t.sources|) < TotalLeft(t, offsets, |t.sources|)
    ensures ok && !more ==> Complete(t.sources, t.starts, frames')
  {
    LoopStops(t, l);
    var turn := s.Next(t.chunk);
    if turn.value.None? {
      return true, false, sequence, offsets, frames, l;
    }
    m := NextRound(t, l, s.View(), turn.value.value);
    var refused;
    ok, next, offsets', frames', refused := UseTurn(t, s, out, sequence, turn.value.value, offsets, frames, base);
    if !ok {
      var i := turn.value.value.streamId - 1;
      PieceAlone(t, frames, PieceOf(t, offsets, turn.value.value), End(i), m.frames);
    }
    more := true;
  }

  /** Sends every file from its start to its end, and stops. The chunks of each file are exactly its
      bytes from the start on, in order and without gap or overlap; unfinished files share the link
      by weight all along; and every frame is sealed under the next number. Where sending fails it
      stops with an honest beginning. */
  method SendFiles(t: Task, out: Outgoing.Pipe<Message>, sequence: nat)
    returns (ok: bool, frames: seq<Frame>, next: nat)
    requires TaskOk(t) && out.InStep(sequence)
    modifies out
    ensures out.messages == old(out.messages) + AsMessages(frames)
    ensures Honest(t.sources, t.starts, frames) && AlwaysFair(t.sources, t.starts, t.chunk, frames)
    ensures out.Unspent(next) && (ok ==> out.InStep(next) && Complete(t.sources, t.starts, frames))
    ensures out.failed == (old(out.failed) || !ok)
  {
    ok, frames, next := OpenStreams(t, out, sequence);
    if !ok {
      return;
    }
    ghost var l := LoopStart(t, frames);
    var made := WeightedScheduler.New(AllRequests(t), t.chunk);
    var s := made.value;
    var offsets := t.starts;
    var more := true;
    while ok && more
      invariant fresh(s) && out.messages == old(out.messages) + AsMessages(frames)
      invariant Underway(t, frames) && out.Unspent(next) && out.failed == (old(out.failed) || !ok)
      invariant ok ==> Valid(s.View()) && out.InStep(next) && Looping(t, l)
      invariant ok ==> (s.View(), offsets, frames) == (l.ledger.sched, l.offsets, l.frames)
      invariant ok && !more ==> Complete(t.sources, t.starts, frames)
      decreases ok, more, if ok then TotalLeft(t, offsets, |t.sources|) else 0
    {
      ok, more, next, offsets, frames, l := SendRound(t, s, out, next, offsets, frames, l, old(out.messages));
    }
  }
}
