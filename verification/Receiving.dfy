/** The receiver of a transfer: it takes the sender's frames one by one and stores each file through
    its write queue, while writes, checkpoints and failures happen at any moment. */
module Receiving {
  import opened Wrappers
  import opened Bytes
  import opened WriteQueue
  import opened Resume
  import opened Sending
  import StreamPlan

  /** `opened` and `ended` are the stream tracker's state; `refused` tells that a frame was rejected,
      which ends the attempt. */
  datatype Receiver = Receiver(
    stores: seq<Store>, received: nat, started: set<nat>, ended: set<nat>, refused: bool)

  /** The receive loop takes the next frame, or something happens to the storage of a file. */
  datatype Step = Receives | Storage(item: nat, event: Event)

  predicate Waiting(r: Receiver) {
    exists i :: 0 <= i < |r.stores| && r.stores[i].blocked
  }

  function Take(r: Receiver, f: Frame): Receiver {
    var next := r.(received := r.received + 1);
    if f.item >= |r.stores| then next.(refused := true)
    else
      match f
      case Open(i) =>
        if i in r.started then next.(refused := true) else next.(started := r.started + {i})
      case End(i) =>
        if i !in r.started || i in r.ended then next.(refused := true) else next.(ended := r.ended + {i})
      case Data(i, offset, data) =>
        if i in r.ended then next.(refused := true)
        else
          var (store, accepted) := Push(r.stores[i], offset, data);
          next.(stores := r.stores[i := store], refused := !accepted)
  }

  function Next(frames: seq<Frame>, r: Receiver, s: Step): Receiver {
    match s
    case Receives =>
      if r.refused || Waiting(r) || r.received >= |frames| then r else Take(r, frames[r.received])
    case Storage(i, e) =>
      if i >= |r.stores| || e.Arrives? then r else r.(stores := r.stores[i := Happen(r.stores[i], e)])
  }

  function Run(frames: seq<Frame>, stores: seq<Store>, steps: seq<Step>): Receiver {
    if steps == [] then Receiver(stores, 0, {}, {}, false)
    else Next(frames, Run(frames, stores, steps[..|steps| - 1]), steps[|steps| - 1])
  }

  // What the receiver keeps.

  function Sources(items: seq<Item>): (bs: seq<seq<byte>>)
    ensures |bs| == |items| && forall i :: 0 <= i < |items| ==> bs[i] == items[i].bytes
  {
    seq(|items|, i requires 0 <= i < |items| => items[i].bytes)
  }

  /** What the sender has sent of file `i` by the time `n` frames have been received. */
  ghost function SentOf(sources: seq<seq<byte>>, starts: seq<nat>, frames: seq<Frame>, n: nat, i: nat): nat
    requires i < |sources| == |starts| && n <= |frames|
  {
    Progress(frames[..n], i, starts[i])
  }

  /** Every store has accepted exactly the source's bytes sent so far, the tracker knows which
      streams were opened and ended, and nothing was refused unless a store had failed. */
  ghost predicate InOrder(sources: seq<seq<byte>>, starts: seq<nat>, frames: seq<Frame>, r: Receiver)
    requires |starts| == |sources|
  {
    && |r.stores| == |sources| && r.received <= |frames|
    && (forall i :: 0 <= i < |sources| ==>
      StoreInOrder(sources[i], starts[i], SentOf(sources, starts, frames, r.received, i), r.stores[i], r.refused))
    && (forall i: nat :: i in r.started <==> Open(i) in frames[..r.received])
    && (forall i: nat :: i in r.ended <==> End(i) in frames[..r.received])
    && (r.refused ==> exists i :: 0 <= i < |r.stores| && Dead(r.stores[i]))
  }

  /** A store that failed is never used again. */
  predicate Dead(s: Store) {
    s.failed && s.loop == Stopped
  }

  ghost predicate StoreInOrder(source: seq<byte>, start: nat, sent: nat, s: Store, refused: bool) {
    && s.size == |source|
    && (!refused ==> sent <= |source| && start <= s.committed && Valid(s, source[..sent]))
  }

  /** The part of an honest sequence up to some frame. */
  lemma {:induction false} HonestPrefix(sources: seq<seq<byte>>, starts: seq<nat>, frames: seq<Frame>, n: nat)
    requires |starts| == |sources| && Honest(sources, starts, frames) && n <= |frames|
    ensures Honest(sources, starts, frames[..n])
    ensures n < |frames| ==> Continues(sources, starts, frames[..n], frames[n])
    decreases |frames|
  {
    if n < |frames| {
      var before := frames[..|frames| - 1];
      assert before[..n] == frames[..n];
      if n < |before| {
        HonestPrefix(sources, starts, before, n);
      }
    } else {
      assert frames[..n] == frames;
    }
  }

  lemma {:induction false} PrefixGrows(frames: seq<Frame>, n: nat, i: nat, from: nat)
    requires n < |frames|
    ensures Progress(frames[..n + 1], i, from)
         == Progress(frames[..n], i, from) + (if frames[n].Data? && frames[n].item == i then |frames[n].data| else 0)
    ensures forall f :: f in frames[..n + 1] <==> f in frames[..n] || f == frames[n]
  {
    assert frames[..n + 1] == frames[..n] + [frames[n]];
    Extend(frames[..n], frames[n], i, from);
  }

  lemma PushIsQuiet(s: Store, offset: int, data: seq<byte>)
    ensures
      var t := Push(s, offset, data).0;
      t.committed == s.committed && t.size == s.size && t.failed == s.failed && (!Push(s, offset, data).1 ==> t == s)
  {
  }

  /** An honest chunk passes the bounds check; only a failed store refuses it. */
  lemma {:induction false} ChunkIsAccepted(source: seq<byte>, start: nat, sent: nat, s: Store, data: seq<byte>)
    requires StoreInOrder(source, start, sent, s, false) && !s.blocked
    requires sent + |data| <= |source| && data == source[sent..sent + |data|]
    ensures Push(s, sent, data).1 <==> !s.failed
    ensures StoreInOrder(source, start, sent + |data|, Push(s, sent, data).0, s.failed)
    ensures s.failed ==> Dead(Push(s, sent, data).0)
  {
    PushKeeps(s, source[..sent], sent, data);
    PushIsQuiet(s, sent, data);
    assert source[..sent] + data == source[..sent + |data|];
  }

  /** The tracker after one more frame. */
  lemma {:induction false} TrackerKeeps(sources: seq<seq<byte>>, starts: seq<nat>, frames: seq<Frame>, r: Receiver)
    requires |starts| == |sources| && InOrder(sources, starts, frames, r)
    requires r.received < |frames| && Continues(sources, starts, frames[..r.received], frames[r.received])
    ensures
      var q := Take(r, frames[r.received]);
      && (forall i: nat :: i in q.started <==> Open(i) in frames[..q.received])
      && (forall i: nat :: i in q.ended <==> End(i) in frames[..q.received])
      && (!frames[r.received].Data? ==> q.stores == r.stores && q.refused == r.refused)
  {
    PrefixGrows(frames, r.received, 0, 0);
  }

  /** A chunk goes to its store, and is refused only if that has failed. */
  lemma {:induction false} TakeChunk(sources: seq<seq<byte>>, starts: seq<nat>, frames: seq<Frame>, r: Receiver)
    requires |starts| == |sources| && InOrder(sources, starts, frames, r) && !r.refused && !Waiting(r)
    requires r.received < |frames| && Continues(sources, starts, frames[..r.received], frames[r.received])
    requires frames[r.received].Data?
    ensures
      var f := frames[r.received];
      var s := r.stores[f.item];
      && Take(r, f) == r.(received := r.received + 1, refused := s.failed,
                          stores := r.stores[f.item := Push(s, f.offset, f.data).0])
      && f.offset == SentOf(sources, starts, frames, r.received, f.item)
      && StoreInOrder(sources[f.item], starts[f.item], f.offset, s, false) && !s.blocked
  {
    var f := frames[r.received];
    assert StoreInOrder(sources[f.item], starts[f.item], SentOf(sources, starts, frames, r.received, f.item),
      r.stores[f.item], r.refused);
    ChunkIsAccepted(sources[f.item], starts[f.item], f.offset, r.stores[f.item], f.data);
  }

  /** The store of file `i` after one more frame, which moved it from `s` to `t` if it was a chunk of it. */
  lemma {:induction false} StoreTakes(
    source: seq<byte>, start: nat, sent: nat, s: Store, f: Frame, mine: bool, t: Store, refused: bool)
    requires StoreInOrder(source, start, sent, s, false)
    requires if mine && f.Data? then StoreInOrder(source, start, sent + |f.data|, t, refused) else t == s
    ensures StoreInOrder(source, start, sent + (if f.Data? && mine then |f.data| else 0), t, refused)
  {
  }

  /** The stores after one more frame: a chunk moved its own store on, the others are as they were. */
  ghost predicate StoresTook(sources: seq<seq<byte>>, starts: seq<nat>, frames: seq<Frame>, r: Receiver, q: Receiver)
    requires |starts| == |sources| == |r.stores| && r.received < |frames|
  {
    var f := frames[r.received];
    && |q.stores| == |r.stores| && q.received == r.received + 1
    && (forall i :: 0 <= i < |r.stores| && !(f.Data? && f.item == i) ==> q.stores[i] == r.stores[i])
    && (f.Data? && f.item < |r.stores| ==>
        StoreInOrder(sources[f.item], starts[f.item], SentOf(sources, starts, frames, r.received, f.item) + |f.data|,
                     q.stores[f.item], q.refused))
    && (q.refused ==> f.Data? && f.item < |r.stores| && Dead(q.stores[f.item]))
  }

  lemma {:induction false} FrameReachesStore(sources: seq<seq<byte>>, starts: seq<nat>, frames: seq<Frame>, r: Receiver)
    requires |starts| == |sources| && InOrder(sources, starts, frames, r) && !r.refused && !Waiting(r)
    requires r.received < |frames| && Continues(sources, starts, frames[..r.received], frames[r.received])
    ensures StoresTook(sources, starts, frames, r, Take(r, frames[r.received]))
  {
    var f := frames[r.received];
    if f.Data? {
      TakeChunk(sources, starts, frames, r);
      ChunkIsAccepted(sources[f.item], starts[f.item], f.offset, r.stores[f.item], f.data);
    }
  }

  lemma {:induction false} StoresTake(
    sources: seq<seq<byte>>, starts: seq<nat>, frames: seq<Frame>, r: Receiver, q: Receiver)
    requires |starts| == |sources| && InOrder(sources, starts, frames, r) && !r.refused && r.received < |frames|
    requires StoresTook(sources, starts, frames, r, q)
    ensures forall i :: 0 <= i < |sources| ==>
              StoreInOrder(sources[i], starts[i], SentOf(sources, starts, frames, q.received, i), q.stores[i],
                q.refused)
  {
    var f := frames[r.received];
    forall i | 0 <= i < |sources|
      ensures StoreInOrder(sources[i], starts[i], SentOf(sources, starts, frames, q.received, i), q.stores[i],
        q.refused)
    {
      PrefixGrows(frames, r.received, i, starts[i]);
      var sent := SentOf(sources, starts, frames, r.received, i);
      assert StoreInOrder(sources[i], starts[i], sent, r.stores[i], r.refused);
      StoreTakes(sources[i], starts[i], sent, r.stores[i], f, f.item == i, q.stores[i], q.refused);
    }
  }

  lemma {:induction false} TakeKeeps(sources: seq<seq<byte>>, starts: seq<nat>, frames: seq<Frame>, r: Receiver)
    requires |starts| == |sources| && Honest(sources, starts, frames) && InOrder(sources, starts, frames, r)
    requires !r.refused && !Waiting(r) && r.received < |frames|
    ensures InOrder(sources, starts, frames, Take(r, frames[r.received]))
  {
    HonestPrefix(sources, starts, frames, r.received);
    TrackerKeeps(sources, starts, frames, r);
    FrameReachesStore(sources, starts, frames, r);
    StoresTake(sources, starts, frames, r, Take(r, frames[r.received]));
  }

  lemma FailureStays(s: Store, e: Event)
    requires !e.Arrives? && Dead(s)
    ensures Happen(s, e) == s
  {
  }

  lemma {:induction false} StoreStepKeeps(source: seq<byte>, start: nat, sent: nat, s: Store, e: Event, refused: bool)
    requires StoreInOrder(source, start, sent, s, refused) && !e.Arrives?
    ensures StoreInOrder(source, start, sent, Happen(s, e), refused)
  {
    StepKeepsSettings(s, e);
    if !refused {
      HappenKeeps(s, source[..sent], e);
      CommittedGrows(s, source[..sent], e);
      assert source[..sent] + [] == source[..sent];
    }
  }

  lemma {:induction false} StorageKeeps(
    sources: seq<seq<byte>>, starts: seq<nat>, frames: seq<Frame>, r: Receiver, item: nat, e: Event)
    requires |starts| == |sources| && InOrder(sources, starts, frames, r) && item < |r.stores| && !e.Arrives?
    ensures InOrder(sources, starts, frames, r.(stores := r.stores[item := Happen(r.stores[item], e)]))
  {
    var q := r.(stores := r.stores[item := Happen(r.stores[item], e)]);
    forall i | 0 <= i < |sources|
      ensures StoreInOrder(sources[i], starts[i], SentOf(sources, starts, frames, q.received, i), q.stores[i],
        q.refused)
    {
      assert StoreInOrder(sources[i], starts[i], SentOf(sources, starts, frames, r.received, i), r.stores[i],
        r.refused);
      StoreStepKeeps(sources[i], starts[i], SentOf(sources, starts, frames, r.received, i), r.stores[i], e, r.refused);
    }
    if r.refused {
      var i :| 0 <= i < |r.stores| && Dead(r.stores[i]);
      FailureStays(r.stores[i], e);
      assert Dead(q.stores[i]);
    }
  }

  lemma {:induction false} RunInOrder(
    sources: seq<seq<byte>>, starts: seq<nat>, frames: seq<Frame>, stores: seq<Store>, steps: seq<Step>)
    requires |starts| == |sources| == |stores| && Honest(sources, starts, frames)
    requires forall i :: 0 <= i < |sources| ==> StoreInOrder(sources[i], starts[i], starts[i], stores[i], false)
    ensures InOrder(sources, starts, frames, Run(frames, stores, steps))
  {
    if steps == [] {
      assert frames[..0] == [];
    } else {
      RunInOrder(sources, starts, frames, stores, steps[..|steps| - 1]);
      var r := Run(frames, stores, steps[..|steps| - 1]);
      match steps[|steps| - 1]
      case Receives =>
        if !(r.refused || Waiting(r) || r.received >= |frames|) {
          TakeKeeps(sources, starts, frames, r);
        }
      case Storage(i, e) =>
        if i < |r.stores| && !e.Arrives? {
          StorageKeeps(sources, starts, frames, r, i, e);
        }
    }
  }

  // The transfer as a whole.

  /** One attempt at the transfer: what the negotiation left, what the sender then sends, and what
      has happened at the receiver so far. */
  datatype Attempt = Attempt(starts: seq<nat>, stores: seq<Store>, frames: seq<Frame>, steps: seq<Step>)

  function Reached(a: Attempt): Receiver {
    Run(a.frames, a.stores, a.steps)
  }

  /** An attempt that starts from `partials` as the negotiation leaves it and goes on with what the sender has sent. */
  ghost predicate Begins(items: seq<Item>, partials: seq<seq<byte>>, worker: bool, a: Attempt) {
    Agreed(items, partials, worker, a.starts, a.stores) && Honest(Sources(items), a.starts, a.frames)
  }

  lemma {:induction false} AttemptInOrder(items: seq<Item>, partials: seq<seq<byte>>, worker: bool, a: Attempt)
    requires Begins(items, partials, worker, a)
    ensures InOrder(Sources(items), a.starts, a.frames, Reached(a))
  {
    var sources := Sources(items);
    forall i | 0 <= i < |items| ensures StoreInOrder(sources[i], a.starts[i], a.starts[i], a.stores[i], false) {
      assert AgreedOn(items[i], partials[i], worker, a.starts[i], a.stores[i]);
      OpenIsValid(items[i].bytes[..a.starts[i]], |items[i].bytes|, true, worker);
    }
    RunInOrder(sources, a.starts, a.frames, a.stores, a.steps);
  }

  /** Whatever the receiver found stored, and in every interleaving: a frame is refused only after a
      storage failure, and once everything has been sent and received and a file's queue has drained, its
      last checkpoint leaves exactly the source file. */
  lemma {:induction false} ResumedTransferIsCorrect(
    items: seq<Item>, partials: seq<seq<byte>>, worker: bool, a: Attempt, i: nat)
    requires Begins(items, partials, worker, a) && i < |items|
    ensures
      var r := Reached(a);
      && |r.stores| == |items|
      && (r.refused ==> exists k :: 0 <= k < |items| && r.stores[k].failed)
      && (Complete(Sources(items), a.starts, a.frames) && r.received == |a.frames| ==>
          !r.refused && !r.stores[i].failed && r.stores[i].loop == Stopped ==>
            Finish(r.stores[i]).file == items[i].bytes)
  {
    AttemptInOrder(items, partials, worker, a);
    var r := Reached(a);
    var sent := SentOf(Sources(items), a.starts, a.frames, r.received, i);
    assert StoreInOrder(items[i].bytes, a.starts[i], sent, r.stores[i], r.refused);
    if Complete(Sources(items), a.starts, a.frames) && r.received == |a.frames|
       && !r.refused && !r.stores[i].failed && r.stores[i].loop == Stopped {
      assert a.frames[..|a.frames|] == a.frames;
      assert items[i].bytes[..|items[i].bytes|] == items[i].bytes;
      FinishStoresAll(r.stores[i], items[i].bytes);
    }
  }

  /** What a file may hold after an attempt was cut off: some beginning of the source with everything that was
      committed. A write that was under way may have been done in part. */
  ghost predicate LeftBehind(item: Item, s: Store, file: seq<byte>) {
    s.committed <= |file| && file <= item.bytes
  }

  /** An attempt cut off at any moment loses nothing that was committed: whatever it leaves behind, the next
      attempt resumes at its end, which is not before the last checkpoint nor before where this attempt began. */
  lemma {:induction false} ProgressIsKept(
    items: seq<Item>, partials: seq<seq<byte>>, worker: bool, a: Attempt, i: nat, file: seq<byte>)
    requires Begins(items, partials, worker, a) && i < |items| && items[i].resumable
    requires !Reached(a).refused && i < |Reached(a).stores| && !Reached(a).stores[i].failed
    requires LeftBehind(items[i], Reached(a).stores[i], file)
    ensures a.starts[i] <= Reached(a).stores[i].committed <= ResumeAt(items[i], file) == |file|
  {
    AttemptInOrder(items, partials, worker, a);
    var r := Reached(a);
    var sent := SentOf(Sources(items), a.starts, a.frames, r.received, i);
    assert StoreInOrder(items[i].bytes, a.starts[i], sent, r.stores[i], r.refused);
  }

  /** The file as it stands between two writes is one of them, and so is one in which a worker's write has come
      as far as its first `done` bytes. */
  lemma {:induction false} CutsLeaveBehind(
    items: seq<Item>, partials: seq<seq<byte>>, worker: bool, a: Attempt, i: nat, done: nat)
    requires Begins(items, partials, worker, a) && i < |items|
    requires !Reached(a).refused && i < |Reached(a).stores| && !Reached(a).stores[i].failed
    ensures LeftBehind(items[i], Reached(a).stores[i], Reached(a).stores[i].file)
    ensures
      var s := Reached(a).stores[i];
      s.worker && s.loop.Writing? && done <= |s.loop.entry.data| && s.loop.entry.offset >= 0 ==>
        LeftBehind(items[i], s, WriteAt(s.file, s.loop.entry.offset, s.loop.entry.data[..done]))
  {
    AttemptInOrder(items, partials, worker, a);
    var r := Reached(a);
    var s, sent := r.stores[i], SentOf(Sources(items), a.starts, a.frames, r.received, i);
    assert StoreInOrder(items[i].bytes, a.starts[i], sent, s, r.refused);
    assert s.file <= items[i].bytes[..sent];
    if s.worker && s.loop.Writing? && done <= |s.loop.entry.data| && s.loop.entry.offset >= 0 {
      TornWrite(items[i].bytes[..sent], s, done);
    }
  }

  lemma TornWrite(all: seq<byte>, s: Store, done: nat)
    requires Valid(s, all) && !s.failed && s.worker && s.loop.Writing? && done <= |s.loop.entry.data|
    ensures s.loop.entry.offset == s.persisted == |s.file| && s.persisted + done <= |all|
    ensures WriteAt(s.file, s.persisted, s.loop.entry.data[..done]) == all[..s.persisted + done]
  {
    EntryIsNext(s, all);
    assert Unwritten(s)[0] == s.loop.entry;
    var data := s.loop.entry.data;
    assert data == all[s.persisted..s.persisted + |data|];
    assert data[..done] == all[s.persisted..s.persisted + done];
    WriteExtends(all, s.persisted, data[..done]);
  }

  /** Attempt `b` resumes from `files`, which `a` left behind when it was cut off without a storage failure. */
  ghost predicate Follows(items: seq<Item>, worker: bool, a: Attempt, files: seq<seq<byte>>, b: Attempt) {
    && !Reached(a).refused && |Reached(a).stores| == |items| == |files|
    && (forall i :: 0 <= i < |items| ==>
        !Reached(a).stores[i].failed && LeftBehind(items[i], Reached(a).stores[i], files[i]))
    && Begins(items, files, worker, b)
  }

  /** Over attempts that follow each other, each resuming from files the last one left behind, the resume
      offset of a file never goes back. */
  lemma {:induction false} ResumeNeverGoesBack(
    items: seq<Item>, worker: bool, attempts: seq<Attempt>, files: seq<seq<seq<byte>>>, k: nat, i: nat)
    requires k < |attempts| == |files| && i < |items| && items[i].resumable
    requires Begins(items, files[0], worker, attempts[0])
    requires forall n :: 0 < n < |attempts| ==> Follows(items, worker, attempts[n - 1], files[n], attempts[n])
    ensures |attempts[0].starts| == |attempts[k].starts| == |items|
    ensures attempts[0].starts[i] <= attempts[k].starts[i]
  {
    var n := 0;
    while n < k
      invariant 0 <= n <= k && Begins(items, files[n], worker, attempts[n])
      invariant |attempts[0].starts| == |attempts[n].starts| == |items|
      invariant attempts[0].starts[i] <= attempts[n].starts[i]
    {
      assert Follows(items, worker, attempts[n], files[n + 1], attempts[n + 1]);
      ProgressIsKept(items, files[n], worker, attempts[n], i, files[n + 1][i]);
      var next := attempts[n + 1];
      assert AgreedOn(items[i], files[n + 1][i], worker, next.starts[i], next.stores[i]);
      n := n + 1;
    }
  }

  // The receiver's tracker of streams is the one of the plan.

  function EventOf(f: Frame): StreamPlan.Event {
    match f
    case Open(i) => StreamPlan.Open(StreamOf(i))
    case Data(i, _, _) => StreamPlan.Chunk(StreamOf(i))
    case End(i) => StreamPlan.End(StreamOf(i))
  }

  function EventsOf(fs: seq<Frame>): (es: seq<StreamPlan.Event>)
    ensures |es| == |fs| && forall k :: 0 <= k < |fs| ==> es[k] == EventOf(fs[k])
  {
    seq(|fs|, k requires 0 <= k < |fs| => EventOf(fs[k]))
  }

  lemma EventsHold(fs: seq<Frame>, f: Frame)
    requires !f.Data?
    ensures EventOf(f) in EventsOf(fs) <==> f in fs
  {
    if EventOf(f) in EventsOf(fs) {
      var k :| 0 <= k < |fs| && EventsOf(fs)[k] == EventOf(f);
      assert fs[k] == f;
    }
    if f in fs {
      var k :| 0 <= k < |fs| && fs[k] == f;
      assert EventsOf(fs)[k] == EventOf(f);
    }
  }

  /** Once the received frames are tracked, a frame gets past the tracker exactly if it is allowed after them. */
  lemma {:induction false} TrackerAgrees(
    sources: seq<seq<byte>>, starts: seq<nat>, frames: seq<Frame>, r: Receiver, f: Frame)
    requires |starts| == |sources| && InOrder(sources, starts, frames, r)
    ensures
      var passes :=
        match f
        case Open(i) => i !in r.started
        case Data(i, _, _) => i !in r.ended
        case End(i) => i in r.started && i !in r.ended;
      passes <==> StreamPlan.Allowed(EventsOf(frames[..r.received]), EventOf(f))
  {
    EventsHold(frames[..r.received], Open(f.item));
    EventsHold(frames[..r.received], End(f.item));
  }
}
