/** The browser receiver's storage of one file: chunks are queued and written in the background,
    through a worker with direct access to the file or through a writable stream whose contents
    replace the file when it is closed.

    The code between two awaits is one step. `Store` is the state as a value and `Happen` the meaning
    of each step; `FileState` is the object that the functions update. */
module WriteQueue {
  import opened Wrappers
  import opened Bytes

  const CHECKPOINT_BYTES: nat := 4 * 1024 * 1024
  const HIGH_BYTES: nat := 4 * 1024 * 1024
  const LOW_BYTES: nat := 1 * 1024 * 1024

  datatype Entry = Entry(offset: nat, data: seq<byte>)

  /** Where the flush loop is suspended: opening a stream, writing an entry, waiting for the worker
      to sync, or closing the stream that holds `contents`. */
  datatype Loop = Stopped | Opening | Writing(entry: Entry) | Syncing | Closing(contents: seq<byte>)

  /** `blocked` tells that the receive loop waits for the queue to shrink; `lastPush` is the size of
      the last chunk it queued. */
  datatype Store = Store(
    size: nat, worker: bool, file: seq<byte>, writer: Option<seq<byte>>,
    offset: nat, persisted: nat, committed: nat,
    queue: seq<Entry>, queuedBytes: int, loop: Loop, failed: bool, blocked: bool, lastPush: nat)

  // Files.

  /** Writing beyond the end fills the gap with zeros. */
  function WriteAt(file: seq<byte>, position: nat, data: seq<byte>): seq<byte> {
    var padded := if position <= |file| then file else file + seq(position - |file|, _ => 0);
    padded[..position] + data + (if position + |data| <= |padded| then padded[position + |data|..] else [])
  }

  function Smaller(a: nat, b: nat): nat {
    if a <= b then a else b
  }

  /** A saved partial is cut to the file's size and taken as it is; without resume it is emptied. */
  function OpenOn(partial: seq<byte>, size: nat, resume: bool, worker: bool): Store {
    var offset := if resume then Smaller(|partial|, size) else 0;
    Store(size, worker, partial[..offset], None, offset, offset, offset, [], 0, Stopped, false, false, 0)
  }

  // Steps.

  predicate ChunkInBounds(s: Store, offset: int, length: nat) {
    offset >= 0 && offset == s.offset && offset + length <= s.size
  }

  /** Takes the first entry out of the queue and starts writing it. */
  function Take(s: Store): Store
    requires s.queue != []
  {
    s.(queue := s.queue[1..], queuedBytes := s.queuedBytes - |s.queue[0].data|, loop := Writing(s.queue[0]))
  }

  function LoopTop(s: Store): Store {
    if s.queue == [] then s.(loop := Stopped)
    else if !s.worker && s.writer.None? then s.(loop := Opening)
    else Take(s)
  }

  function NotifyLow(s: Store): Store {
    if s.queuedBytes > LOW_BYTES then s else s.(blocked := false)
  }

  /** A chunk arrives. It is refused when out of bounds or after a write error. */
  function Push(s: Store, offset: int, data: seq<byte>): (Store, bool) {
    if !ChunkInBounds(s, offset, |data|) || s.failed then (s, false)
    else
      var queued := s.(queue := s.queue + [Entry(offset, data)], queuedBytes := s.queuedBytes + |data|,
                       offset := s.offset + |data|, lastPush := |data|);
      var running := if queued.loop == Stopped then LoopTop(queued) else queued;
      (running.(blocked := running.queuedBytes > HIGH_BYTES), true)
  }

  function Checkpointed(s: Store): Store {
    LoopTop(NotifyLow(s.(committed := s.persisted)))
  }

  /** The entry being written is in the file, or in the stream. */
  function Advanced(s: Store): Store
    requires s.loop.Writing?
  {
    var e := s.loop.entry;
    var stored :=
      if s.worker then s.(file := WriteAt(s.file, e.offset, e.data))
      else if s.writer.Some? then s.(writer := Some(WriteAt(s.writer.value, s.persisted, e.data)))
      else s;
    stored.(persisted := s.persisted + |e.data|)
  }

  predicate CheckpointDue(s: Store) {
    s.persisted == s.size || s.persisted - s.committed >= CHECKPOINT_BYTES
  }

  function AfterWrite(t: Store): Store {
    if !CheckpointDue(t) then LoopTop(NotifyLow(t))
    else if t.worker then t.(loop := Syncing)
    else if t.writer.None? then LoopTop(NotifyLow(t))
    else t.(loop := Closing(t.writer.value), writer := None)
  }

  datatype Event = Arrives(offset: int, data: seq<byte>) | Proceeds | Breaks(left: seq<byte>) | Finishes

  /** The awaited operation of the flush loop completes. */
  function Proceed(s: Store): Store {
    match s.loop
    case Stopped => s
    case Opening => if s.queue == [] then s else Take(s.(writer := Some(s.file)))
    case Writing(_) => AfterWrite(Advanced(s))
    case Syncing => Checkpointed(s)
    case Closing(contents) => Checkpointed(s.(file := contents))
  }

  /** The awaited operation fails, leaving anything at all in the file: the loop ends for good and
      rejects whoever waits for it. */
  function Break(s: Store, left: seq<byte>): Store {
    if s.loop == Stopped then s else s.(file := left, loop := Stopped, failed := true, blocked := false)
  }

  /** The last checkpoint, once the queue has drained. */
  function Finish(s: Store): Store {
    if s.loop != Stopped || s.queue != [] || s.failed then s
    else if s.worker then s.(committed := s.persisted)
    else if s.writer.None? then s
    else s.(file := s.writer.value, writer := None, committed := s.persisted)
  }

  /** Everything beyond `at` is dropped. */
  function Cut(s: Store, at: nat): Store
    requires at <= |s.file|
  {
    s.(file := s.file[..at], writer := None, offset := at, persisted := at, committed := at)
  }

  /** The receive loop hands over the next chunk only when it is not waiting for the queue. */
  function Happen(s: Store, e: Event): Store {
    match e
    case Arrives(offset, data) => if s.blocked then s else Push(s, offset, data).0
    case Proceeds => Proceed(s)
    case Breaks(left) => Break(s, left)
    case Finishes => Finish(s)
  }

  // The invariant.

  function TotalBytes(es: seq<Entry>): nat {
    if es == [] then 0 else |es[0].data| + TotalBytes(es[1..])
  }

  /** The entries carry the bytes of `all` from `at` on, without gap or overlap. */
  ghost predicate Contiguous(es: seq<Entry>, at: nat, all: seq<byte>) {
    if es == [] then at == |all|
    else
      && es[0].offset == at && at + |es[0].data| <= |all|
      && es[0].data == all[at..at + |es[0].data|]
      && Contiguous(es[1..], at + |es[0].data|, all)
  }

  function Unwritten(s: Store): seq<Entry> {
    if s.loop.Writing? then [s.loop.entry] + s.queue else s.queue
  }

  /** What the file holds once the stream in use, if any, is closed. */
  function Contents(s: Store): seq<byte> {
    if s.loop.Closing? then s.loop.contents
    else if s.writer.Some? then s.writer.value
    else s.file
  }

  /** `all` is the file as far as it has been accepted: the resumed prefix and every chunk since. */
  ghost predicate Valid(s: Store, all: seq<byte>) {
    && s.committed <= s.persisted <= s.offset == |all| <= s.size
    && s.queuedBytes == TotalBytes(s.queue)
    && Live(s)
    && (!s.failed ==> Stored(s, all) && Checked(s))
  }

  /** What is written is the beginning of `all`, what is not written yet is the rest of it. A worker
      writes straight to the file; a stream leaves it at the last checkpoint until it is closed. */
  ghost predicate Stored(s: Store, all: seq<byte>)
    requires s.committed <= s.persisted <= |all|
  {
    && Contiguous(Unwritten(s), s.persisted, all)
    && Contents(s) == all[..s.persisted]
    && s.file == (if s.worker then all[..s.persisted] else all[..s.committed])
    && (s.worker ==> s.writer.None? && !s.loop.Opening? && !s.loop.Closing?)
    && (s.loop.Opening? || s.loop.Closing? ==> s.writer.None?)
    && (!s.worker ==> !s.loop.Syncing? && (s.loop.Writing? ==> s.writer.Some?))
    && (s.loop.Opening? ==> s.queue != [])
    && (!s.worker && s.writer.None? && !s.loop.Closing? ==> s.committed == s.persisted)
  }

  /** A queue without an error has a running flush loop, which will wake the receive loop; the queue
      holds at most the high-water mark plus the chunk pushed last. */
  ghost predicate Live(s: Store) {
    && (!s.failed && s.queue != [] ==> s.loop != Stopped)
    && (s.blocked ==> s.loop != Stopped)
    && (!s.blocked && !s.failed ==> s.queuedBytes <= HIGH_BYTES)
    && s.queuedBytes <= HIGH_BYTES + s.lastPush
    && (s.failed ==> s.loop == Stopped)
  }

  /** Between checkpoints less than one checkpoint's worth of bytes is uncommitted, and a file whose
      last byte is stored is committed to the end. */
  ghost predicate Checked(s: Store) {
    !s.loop.Syncing? && !s.loop.Closing? ==>
      && s.persisted - s.committed < CHECKPOINT_BYTES
      && (s.persisted == s.size ==> s.committed == s.size)
  }

  // Every step keeps the invariant.

  lemma {:induction false} ContiguousAppend(es: seq<Entry>, at: nat, all: seq<byte>, data: seq<byte>)
    requires Contiguous(es, at, all)
    ensures Contiguous(es + [Entry(|all|, data)], at, all + data)
  {
    var more := es + [Entry(|all|, data)];
    var grown := all + data;
    if es == [] {
      assert grown[at..at + |data|] == data;
      assert more[1..] == [];
    } else {
      var end := at + |es[0].data|;
      assert grown[at..end] == all[at..end];
      assert more[1..] == es[1..] + [Entry(|all|, data)];
      ContiguousAppend(es[1..], end, all, data);
    }
  }

  lemma {:induction false} TotalAppend(es: seq<Entry>, e: Entry)
    ensures TotalBytes(es + [e]) == TotalBytes(es) + |e.data|
  {
    if es != [] {
      assert (es + [e])[1..] == es[1..] + [e];
      TotalAppend(es[1..], e);
    } else {
      assert ([] + [e])[1..] == [];
    }
  }

  /** Nothing accepted is unaccounted for: the offset is what is written, in flight and queued. */
  lemma {:induction false} ContiguousTotal(es: seq<Entry>, at: nat, all: seq<byte>)
    requires Contiguous(es, at, all)
    ensures at + TotalBytes(es) == |all|
  {
    if es != [] {
      ContiguousTotal(es[1..], at + |es[0].data|, all);
    }
  }

  lemma OpenIsValid(partial: seq<byte>, size: nat, resume: bool, worker: bool)
    ensures
      var s := OpenOn(partial, size, resume, worker);
      Valid(s, s.file) && s.offset == |s.file| && s.file <= partial
  {
  }

  /** What holds at the top of the flush loop, with everything written accounted for. */
  ghost predicate AtTop(s: Store, all: seq<byte>) {
    && s.committed <= s.persisted <= s.offset == |all| <= s.size && !s.failed
    && s.queuedBytes == TotalBytes(s.queue) <= HIGH_BYTES + s.lastPush
    && Contiguous(s.queue, s.persisted, all)
    && Contents(s.(loop := Stopped)) == all[..s.persisted]
    && s.file == (if s.worker then all[..s.persisted] else all[..s.committed])
    && (s.worker ==> s.writer.None?)
    && (!s.worker && s.writer.None? ==> s.committed == s.persisted)
    && s.persisted - s.committed < CHECKPOINT_BYTES && (s.persisted == s.size ==> s.committed == s.size)
    && (s.blocked ==> s.queuedBytes > LOW_BYTES)
    && (!s.blocked ==> s.queuedBytes <= HIGH_BYTES)
  }

  lemma LoopTopKeeps(s: Store, all: seq<byte>)
    requires AtTop(s, all)
    ensures Valid(LoopTop(s), all)
  {
    if s.queue != [] && (s.worker || s.writer.Some?) {
      assert [s.queue[0]] + s.queue[1..] == s.queue;
    }
  }

  /** The chunk behind everything accepted so far, with the flush loop as it was. */
  lemma QueuedFits(s: Store, all: seq<byte>, data: seq<byte>)
    requires Valid(s, all) && !s.failed
    ensures
      var e := Entry(|all|, data);
      var grown := all + data;
      && TotalBytes(s.queue + [e]) == s.queuedBytes + |data|
      && Contiguous(if s.loop.Writing? then [s.loop.entry] + (s.queue + [e]) else s.queue + [e], s.persisted, grown)
      && grown[..s.persisted] == all[..s.persisted] && grown[..s.committed] == all[..s.committed]
  {
    var e := Entry(|all|, data);
    ContiguousAppend(Unwritten(s), s.persisted, all, data);
    TotalAppend(s.queue, e);
    assert Unwritten(s) + [e] == (if s.loop.Writing? then [s.loop.entry] + (s.queue + [e]) else s.queue + [e]);
  }

  lemma PushOnRunning(s: Store, all: seq<byte>, data: seq<byte>)
    requires Valid(s, all) && !s.blocked && !s.failed && s.loop != Stopped && |all| + |data| <= s.size
    ensures Valid(Push(s, |all|, data).0, all + data)
  {
    QueuedFits(s, all, data);
  }

  lemma PushOnStopped(s: Store, all: seq<byte>, data: seq<byte>)
    requires Valid(s, all) && !s.blocked && !s.failed && s.loop == Stopped && |all| + |data| <= s.size
    ensures Valid(Push(s, |all|, data).0, all + data)
  {
    QueuedFits(s, all, data);
    var e := Entry(|all|, data);
    assert s.queue == [] && [] + [e] == [e] && [e][1..] == [] && [e] + [] == [e];
    assert TotalBytes([]) == 0;
  }

  lemma PushKeeps(s: Store, all: seq<byte>, offset: int, data: seq<byte>)
    requires Valid(s, all) && !s.blocked
    ensures Push(s, offset, data).1 <==> offset == |all| && |all| + |data| <= s.size && !s.failed
    ensures Valid(Push(s, offset, data).0, if Push(s, offset, data).1 then all + data else all)
  {
    if Push(s, offset, data).1 {
      if s.loop == Stopped {
        PushOnStopped(s, all, data);
      } else {
        PushOnRunning(s, all, data);
      }
    }
  }

  lemma WriteExtends(all: seq<byte>, at: nat, data: seq<byte>)
    requires at + |data| <= |all| && data == all[at..at + |data|]
    ensures WriteAt(all[..at], at, data) == all[..at + |data|]
  {
  }

  /** Both ways of writing put the entry in the same place, at the end of what is stored. */
  lemma EntryIsNext(s: Store, all: seq<byte>)
    requires Valid(s, all) && s.loop.Writing?
    ensures
      var e := s.loop.entry;
      var end := s.persisted + |e.data|;
      && e.offset == s.persisted && end <= |all| && Contiguous(s.queue, end, all)
      && Advanced(s) == (if s.worker then s.(file := all[..end], persisted := end)
                         else s.(writer := Some(all[..end]), persisted := end))
  {
    assert Unwritten(s)[0] == s.loop.entry && Unwritten(s)[1..] == s.queue;
    WriteExtends(all, s.persisted, s.loop.entry.data);
  }

  /** The entry has been written and no checkpoint has been made since. */
  ghost predicate JustWritten(t: Store, all: seq<byte>) {
    && t.committed <= t.persisted <= t.offset == |all| <= t.size && !t.failed
    && t.queuedBytes == TotalBytes(t.queue) <= HIGH_BYTES + t.lastPush
    && (!t.blocked ==> t.queuedBytes <= HIGH_BYTES)
    && t.loop.Writing? && Contiguous(t.queue, t.persisted, all)
    && if t.worker then t.writer.None? && t.file == all[..t.persisted]
       else t.writer == Some(all[..t.persisted]) && t.file == all[..t.committed]
  }

  lemma EntryIsWritten(s: Store, all: seq<byte>)
    requires Valid(s, all) && s.loop.Writing?
    ensures JustWritten(Advanced(s), all)
  {
    EntryIsNext(s, all);
  }

  lemma WithoutCheckpoint(t: Store, all: seq<byte>)
    requires JustWritten(t, all) && !CheckpointDue(t)
    ensures Valid(AfterWrite(t), all)
  {
    LoopTopKeeps(NotifyLow(t), all);
  }

  lemma WithCheckpoint(t: Store, all: seq<byte>)
    requires JustWritten(t, all) && CheckpointDue(t)
    ensures Valid(AfterWrite(t), all)
  {
  }

  lemma WrittenKeeps(s: Store, all: seq<byte>)
    requires Valid(s, all) && s.loop.Writing?
    ensures Valid(AfterWrite(Advanced(s)), all)
  {
    EntryIsWritten(s, all);
    if CheckpointDue(Advanced(s)) {
      WithCheckpoint(Advanced(s), all);
    } else {
      WithoutCheckpoint(Advanced(s), all);
    }
  }

  lemma CheckpointKeeps(s: Store, all: seq<byte>)
    requires Valid(s, all) && (s.loop.Syncing? || s.loop.Closing?)
    ensures Valid(Proceed(s), all)
  {
    var t := (if s.loop.Closing? then s.(file := s.loop.contents) else s).(committed := s.persisted);
    LoopTopKeeps(NotifyLow(t), all);
  }

  lemma OpenedKeeps(s: Store, all: seq<byte>)
    requires Valid(s, all) && s.loop.Opening?
    ensures Valid(Proceed(s), all)
  {
    assert [s.queue[0]] + s.queue[1..] == s.queue;
  }

  /** The bytes an event adds to what has been accepted. */
  function Accepts(s: Store, e: Event): seq<byte> {
    if e.Arrives? && !s.blocked && Push(s, e.offset, e.data).1 then e.data else []
  }

  lemma HappenKeeps(s: Store, all: seq<byte>, e: Event)
    requires Valid(s, all)
    ensures Valid(Happen(s, e), all + Accepts(s, e))
  {
    match e
    case Arrives(offset, data) =>
      if !s.blocked {
        PushKeeps(s, all, offset, data);
      }
      assert all + [] == all;
    case Proceeds =>
      assert all + [] == all;
      if s.loop.Writing? {
        WrittenKeeps(s, all);
      } else if s.loop.Opening? {
        OpenedKeeps(s, all);
      } else if s.loop != Stopped {
        CheckpointKeeps(s, all);
      }
    case Breaks(left) =>
      assert all + [] == all;
    case Finishes =>
      assert all + [] == all;
  }

  /** Nothing committed is taken back. */
  lemma CommittedGrows(s: Store, all: seq<byte>, e: Event)
    requires Valid(s, all)
    ensures s.committed <= Happen(s, e).committed
  {
    if e.Proceeds? && s.loop.Writing? {
      assert Advanced(s).committed == s.committed;
    }
  }

  // Whole runs.

  function Run(s: Store, es: seq<Event>): Store {
    if es == [] then s else Happen(Run(s, es[..|es| - 1]), es[|es| - 1])
  }

  function Accepted(s: Store, es: seq<Event>): seq<byte> {
    if es == [] then s.file
    else Accepted(s, es[..|es| - 1]) + Accepts(Run(s, es[..|es| - 1]), es[|es| - 1])
  }

  /** From any saved partial, over every interleaving of arrivals, writes, checkpoints and failures. */
  lemma {:induction false} RunKeeps(partial: seq<byte>, size: nat, resume: bool, worker: bool, es: seq<Event>)
    ensures
      var s := OpenOn(partial, size, resume, worker);
      Valid(Run(s, es), Accepted(s, es))
  {
    if es == [] {
      OpenIsValid(partial, size, resume, worker);
    } else {
      var s := OpenOn(partial, size, resume, worker);
      RunKeeps(partial, size, resume, worker, es[..|es| - 1]);
      HappenKeeps(Run(s, es[..|es| - 1]), Accepted(s, es[..|es| - 1]), es[|es| - 1]);
    }
  }

  function InFlight(s: Store): nat {
    if s.loop.Writing? then |s.loop.entry.data| else 0
  }

  /** What the write queue promises at every moment of every run, from any saved partial. */
  lemma QueueRefinesFile(partial: seq<byte>, size: nat, resume: bool, worker: bool, es: seq<Event>)
    ensures
      var start := OpenOn(partial, size, resume, worker);
      var s := Run(start, es);
      var all := Accepted(start, es);
      && s.committed <= s.persisted <= s.offset == |all| <= size
      && s.queuedBytes <= HIGH_BYTES + s.lastPush
      && (!s.failed ==>
          && s.offset == s.persisted + InFlight(s) + s.queuedBytes
          && all[..s.committed] <= s.file <= all
          && (s.queue != [] || s.blocked ==> s.loop != Stopped)
          && (s.loop.Writing? ==> s.loop.entry.offset == s.persisted)
          && (!s.loop.Syncing? && !s.loop.Closing? ==> s.persisted - s.committed < CHECKPOINT_BYTES))
  {
    RunKeeps(partial, size, resume, worker, es);
    var start := OpenOn(partial, size, resume, worker);
    SettingsStay(start, es);
    var s, all := Run(start, es), Accepted(start, es);
    if !s.failed {
      ContiguousTotal(Unwritten(s), s.persisted, all);
      if s.loop.Writing? {
        assert Unwritten(s)[0] == s.loop.entry && Unwritten(s)[1..] == s.queue;
      }
    }
  }

  lemma AfterWriteKeepsSettings(t: Store)
    ensures AfterWrite(t).size == t.size && AfterWrite(t).worker == t.worker && AfterWrite(t).failed == t.failed
  {
  }

  lemma ProceedKeepsSettings(s: Store)
    ensures Proceed(s).size == s.size && Proceed(s).worker == s.worker && Proceed(s).failed == s.failed
  {
    if s.loop.Writing? {
      AfterWriteKeepsSettings(Advanced(s));
    }
  }

  lemma StepKeepsSettings(s: Store, e: Event)
    ensures Happen(s, e).size == s.size && Happen(s, e).worker == s.worker
  {
    if e.Proceeds? {
      ProceedKeepsSettings(s);
    }
  }

  lemma {:induction false} SettingsStay(s: Store, es: seq<Event>)
    ensures Run(s, es).size == s.size && Run(s, es).worker == s.worker
  {
    if es != [] {
      SettingsStay(s, es[..|es| - 1]);
      StepKeepsSettings(Run(s, es[..|es| - 1]), es[|es| - 1]);
    }
  }

  /** A drained queue and a last checkpoint leave exactly the accepted bytes in the file. */
  lemma FinishStoresAll(s: Store, all: seq<byte>)
    requires Valid(s, all) && !s.failed && s.loop == Stopped && s.queue == []
    ensures Valid(Finish(s), all) && Finish(s).file == all && Finish(s).committed == |all|
  {
    assert all[..|all|] == all;
  }

  /** The flush loop drains the queue: while it runs it gets nearer to stopping with every operation
      that completes, if no chunk arrives. */
  function Remaining(s: Store): nat {
    4 * |s.queue| + match s.loop
                    case Stopped => 0
                    case Opening => 1
                    case Syncing => 2
                    case Closing(_) => 2
                    case Writing(_) => 3
  }

  lemma ProceedDrains(s: Store, all: seq<byte>)
    requires Valid(s, all) && s.loop != Stopped
    ensures Remaining(Proceed(s)) < Remaining(s)
  {
  }

  // When the receive loop waits, and when a checkpoint is made.

  /** An accepted chunk makes the receive loop wait exactly if more than four mebibytes are then queued. */
  lemma WaitsExactly(s: Store, offset: int, data: seq<byte>)
    requires Push(s, offset, data).1
    ensures
      var t := Push(s, offset, data).0;
      t.blocked <==> t.queuedBytes > 4 * 1024 * 1024
  {
  }

  /** A completed write is followed by a checkpoint exactly if the file is complete or four mebibytes are uncommitted;
      without one, or after it, the waiting receive loop is woken exactly if at most one mebibyte is queued. */
  lemma WakesExactly(s: Store)
    requires s.loop.Writing? && (s.worker || s.writer.Some?)
    ensures
      var t := Advanced(s);
      var due := t.persisted == t.size || t.persisted - t.committed >= 4 * 1024 * 1024;
      var q := Proceed(s);
      && (due <==> q.loop.Syncing? || q.loop.Closing?)
      && (due ==> q.blocked == s.blocked)
      && (!due ==> (q.blocked <==> s.blocked && s.queuedBytes > 1024 * 1024))
  {
  }

  lemma WakesAfterCheckpoint(s: Store)
    requires s.loop.Syncing? || s.loop.Closing?
    ensures Proceed(s).blocked <==> s.blocked && s.queuedBytes > 1024 * 1024
    ensures Proceed(s).committed == s.persisted
  {
  }

  /** The per-file object of the store. Its methods are the stretches of code between awaits. */
  class FileState {
    const size: nat
    const worker: bool
    var file: seq<byte>
    var writer: Option<seq<byte>>
    var offset: nat
    var persisted: nat
    var committed: nat
    var queue: seq<Entry>
    var queuedBytes: int
    var loop: Loop
    var failed: bool
    var blocked: bool
    var lastPush: nat

    function View(): Store
      reads this
    {
      Store(size, worker, file, writer, offset, persisted, committed, queue, queuedBytes, loop, failed, blocked,
        lastPush)
    }

    constructor (partial: seq<byte>, size: nat, resume: bool, worker: bool)
      ensures View() == OpenOn(partial, size, resume, worker)
    {
      this.size, this.worker := size, worker;
      var start := if resume then Smaller(|partial|, size) else 0;
      file, writer := partial[..start], None;
      offset, persisted, committed := start, start, start;
      queue, queuedBytes, loop, failed, blocked, lastPush := [], 0, Stopped, false, false, 0;
    }

    /** The loop head: stop, open a stream, or take the next entry. */
    method LoopHead()
      modifies this`queue, this`queuedBytes, this`loop
      ensures View() == LoopTop(old(View()))
    {
      if queue == [] {
        loop := Stopped;
      } else if !worker && writer.None? {
        loop := Opening;
      } else {
        TakeEntry();
      }
    }

    method TakeEntry()
      requires queue != []
      modifies this`queue, this`queuedBytes, this`loop
      ensures View() == Take(old(View()))
    {
      var entry := queue[0];
      queue := queue[1..];
      queuedBytes := queuedBytes - |entry.data|;
      loop := Writing(entry);
    }

    method WakeIfLow()
      modifies this`blocked
      ensures View() == NotifyLow(old(View()))
    {
      if queuedBytes <= LOW_BYTES {
        blocked := false;
      }
    }

    method WriteChunk(at: int, data: seq<byte>) returns (accepted: bool)
      modifies this
      ensures (View(), accepted) == Push(old(View()), at, data)
    {
      if at < 0 || at != offset || at + |data| > size || failed {
        return false;
      }
      queue := queue + [Entry(at, data)];
      queuedBytes := queuedBytes + |data|;
      offset := offset + |data|;
      lastPush := |data|;
      if loop == Stopped {
        LoopHead();
      }
      blocked := queuedBytes > HIGH_BYTES;
      accepted := true;
    }

    method StreamOpened()
      requires loop.Opening? && queue != []
      modifies this`writer, this`queue, this`queuedBytes, this`loop
      ensures View() == Proceed(old(View()))
    {
      writer := Some(file);
      TakeEntry();
    }

    method WriteDone()
      requires loop.Writing?
      modifies this
      ensures View() == Proceed(old(View()))
    {
      var entry := loop.entry;
      if worker {
        file := WriteAt(file, entry.offset, entry.data);
      } else if writer.Some? {
        writer := Some(WriteAt(writer.value, persisted, entry.data));
      }
      persisted := persisted + |entry.data|;
      assert View() == Advanced(old(View()));
      if persisted == size || persisted - committed >= CHECKPOINT_BYTES {
        if worker {
          loop := Syncing;
          return;
        } else if writer.Some? {
          loop := Closing(writer.value);
          writer := None;
          return;
        }
      }
      WakeIfLow();
      LoopHead();
    }

    method CheckpointDone()
      requires loop.Syncing? || loop.Closing?
      modifies this
      ensures View() == Proceed(old(View()))
    {
      if loop.Closing? {
        file := loop.contents;
      }
      committed := persisted;
      WakeIfLow();
      LoopHead();
    }

    method OperationFailed(left: seq<byte>)
      requires loop != Stopped
      modifies this`file, this`loop, this`failed, this`blocked
      ensures View() == Break(old(View()), left)
    {
      file, failed, blocked, loop := left, true, false, Stopped;
    }

    /** The receiver drops everything beyond `at`, which the sender did not accept, once the queue has drained. */
    method Truncate(at: nat) returns (drained: bool)
      requires at <= |file|
      modifies this`file, this`writer, this`offset, this`persisted, this`committed
      ensures drained <==> loop == Stopped && queue == [] && !failed
      ensures View() == if drained then Cut(old(View()), at) else old(View())
    {
      if loop != Stopped || queue != [] || failed {
        return false;
      }
      writer := None;
      file := file[..at];
      offset, persisted, committed := at, at, at;
      drained := true;
    }

    method Finalize() returns (drained: bool)
      modifies this`file, this`writer, this`committed
      ensures View() == Finish(old(View())) && (drained <==> loop == Stopped && queue == [] && !failed)
    {
      if loop != Stopped || queue != [] || failed {
        return false;
      }
      if worker {
        committed := persisted;
      } else if writer.Some? {
        file, committed, writer := writer.value, persisted, None;
      }
      drained := true;
    }
  }
}
