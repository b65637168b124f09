/** A receiver that nothing hinders gets to the end: the receive loop takes every frame that is left, and the flush
    loops bring every byte into its file. */
module Completion {
  import opened Wrappers
  import opened Bytes
  import opened WriteQueue
  import opened Resume
  import opened Sending
  import opened Receiving

  /** The receive loop takes the next frame unless a frame was refused, it waits for a queue, or none is left. */
  lemma ReceivesNext(frames: seq<Frame>, r: Receiver)
    ensures
      var q := Receiving.Next(frames, r, Receives);
      if r.refused || Waiting(r) || r.received >= |frames| then q == r
      else q.received == r.received + 1 && q == Receiving.Take(r, frames[r.received])
  {
  }

  /** Nothing has gone wrong so far. */
  ghost predicate Healthy(r: Receiver) {
    !r.refused && forall i :: 0 <= i < |r.stores| ==> !r.stores[i].failed
  }

  /** How many operations the storage of the first `n` files still has before it. */
  function Work(stores: seq<Store>, n: nat): nat
    requires n <= |stores|
  {
    if n == 0 then 0 else Work(stores, n - 1) + Remaining(stores[n - 1])
  }

  function Load(r: Receiver): nat {
    Work(r.stores, |r.stores|)
  }

  lemma {:induction false} WorkChanges(stores: seq<Store>, i: nat, s: Store, n: nat)
    requires i < |stores| && n <= |stores|
    ensures Work(stores[i := s], n) == Work(stores, n) - (if i < n then Remaining(stores[i]) - Remaining(s) else 0)
  {
    if n > 0 {
      WorkChanges(stores, i, s, n - 1);
    }
  }

  /** An operation of a flush loop completes. */
  lemma {:induction false} StorageGoesOn(
    sources: seq<seq<byte>>, starts: seq<nat>, frames: seq<Frame>, r: Receiver, i: nat)
    requires |starts| == |sources| && InOrder(sources, starts, frames, r) && Healthy(r)
    requires i < |r.stores| && r.stores[i].loop != Stopped
    ensures
      var q := Receiving.Next(frames, r, Storage(i, Proceeds));
      && InOrder(sources, starts, frames, q) && Healthy(q) && q.received == r.received && |q.stores| == |r.stores|
      && Load(q) < Load(r)
  {
    var s, sent := r.stores[i], SentOf(sources, starts, frames, r.received, i);
    StorageKeeps(sources, starts, frames, r, i, Proceeds);
    assert StoreInOrder(sources[i], starts[i], sent, s, r.refused);
    ProceedDrains(s, sources[i][..sent]);
    ProceedKeepsSettings(s);
    WorkChanges(r.stores, i, Proceed(s), |r.stores|);
  }

  /** With every flush loop at rest nobody waits, and the next frame is taken. */
  lemma {:induction false} ReceivingGoesOn(
    sources: seq<seq<byte>>, starts: seq<nat>, frames: seq<Frame>, r: Receiver)
    requires |starts| == |sources| && Honest(sources, starts, frames) && InOrder(sources, starts, frames, r)
    requires Healthy(r) && r.received < |frames| && forall i :: 0 <= i < |r.stores| ==> r.stores[i].loop == Stopped
    ensures
      var q := Receiving.Next(frames, r, Receives);
      InOrder(sources, starts, frames, q) && Healthy(q) && q.received == r.received + 1 && |q.stores| == |r.stores|
  {
    forall i | 0 <= i < |r.stores| ensures !r.stores[i].blocked {
      assert StoreInOrder(sources[i], starts[i], SentOf(sources, starts, frames, r.received, i), r.stores[i], false);
    }
    ReceivesNext(frames, r);
    TakeKeeps(sources, starts, frames, r);
    TakingIsHealthy(r, frames[r.received]);
  }

  lemma TakingIsHealthy(r: Receiver, f: Frame)
    ensures
      var q := Receiving.Take(r, f);
      |q.stores| == |r.stores| && forall i :: 0 <= i < |r.stores| ==> q.stores[i].failed == r.stores[i].failed
  {
    if f.Data? && f.item < |r.stores| {
      PushIsQuiet(r.stores[f.item], f.offset, f.data);
    }
  }

  /** Everything has been received and every flush loop is at rest. */
  ghost predicate AtRest(frames: seq<Frame>, r: Receiver) {
    && r.received == |frames| && Healthy(r)
    && forall i :: 0 <= i < |r.stores| ==> r.stores[i].loop == Stopped && r.stores[i].queue == []
  }

  lemma {:induction false} RunsOn(
    sources: seq<seq<byte>>, starts: seq<nat>, frames: seq<Frame>, stores: seq<Store>, steps: seq<Step>)
    returns (more: seq<Step>)
    requires |starts| == |sources| && Honest(sources, starts, frames)
    requires InOrder(sources, starts, frames, Receiving.Run(frames, stores, steps))
    requires Healthy(Receiving.Run(frames, stores, steps))
    ensures AtRest(frames, Receiving.Run(frames, stores, steps + more))
    decreases |frames| - Receiving.Run(frames, stores, steps).received, Load(Receiving.Run(frames, stores, steps)), 0
  {
    var r := Receiving.Run(frames, stores, steps);
    if i :| 0 <= i < |r.stores| && r.stores[i].loop != Stopped {
      StorageGoesOn(sources, starts, frames, r, i);
      more := RunsOnAfter(sources, starts, frames, stores, steps, Storage(i, Proceeds));
    } else if r.received < |frames| {
      ReceivingGoesOn(sources, starts, frames, r);
      more := RunsOnAfter(sources, starts, frames, stores, steps, Receives);
    } else {
      more := [];
      assert steps + [] == steps;
      forall i | 0 <= i < |r.stores| ensures r.stores[i].queue == [] {
        assert StoreInOrder(sources[i], starts[i], SentOf(sources, starts, frames, r.received, i), r.stores[i], false);
      }
    }
  }

  lemma {:induction false} RunsOnAfter(
    sources: seq<seq<byte>>, starts: seq<nat>, frames: seq<Frame>, stores: seq<Store>, steps: seq<Step>, step: Step)
    returns (more: seq<Step>)
    requires |starts| == |sources| && Honest(sources, starts, frames)
    requires
      var q := Receiving.Next(frames, Receiving.Run(frames, stores, steps), step);
      InOrder(sources, starts, frames, q) && Healthy(q)
    ensures AtRest(frames, Receiving.Run(frames, stores, steps + more))
    decreases
      |frames| - Receiving.Next(frames, Receiving.Run(frames, stores, steps), step).received,
      Load(Receiving.Next(frames, Receiving.Run(frames, stores, steps), step)),
      1
  {
    assert (steps + [step])[..|steps|] == steps;
    var rest := RunsOn(sources, starts, frames, stores, steps + [step]);
    more := [step] + rest;
    assert steps + more == (steps + [step]) + rest;
  }

  /** From every moment of an attempt that sent everything, unless a frame was refused or a store has failed, there is
      a way to go on after which everything is received and every file, with its last checkpoint, is the source's. */
  lemma {:induction false} TransferCanComplete(items: seq<Item>, partials: seq<seq<byte>>, worker: bool, a: Attempt)
    returns (more: seq<Step>)
    requires Begins(items, partials, worker, a) && Complete(Sources(items), a.starts, a.frames)
    requires Healthy(Reached(a))
    ensures
      var r := Reached(a.(steps := a.steps + more));
      && AtRest(a.frames, r) && |r.stores| == |items|
      && forall i :: 0 <= i < |items| ==> Finish(r.stores[i]).file == items[i].bytes
  {
    AttemptInOrder(items, partials, worker, a);
    more := RunsOn(Sources(items), a.starts, a.frames, a.stores, a.steps);
    var b := a.(steps := a.steps + more);
    AttemptInOrder(items, partials, worker, b);
    forall i | 0 <= i < |items| ensures Finish(Reached(b).stores[i]).file == items[i].bytes {
      ResumedTransferIsCorrect(items, partials, worker, b, i);
    }
  }
}
