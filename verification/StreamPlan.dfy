/** The plan that ties the streams of a transfer to its items, and the tracker of opened and ended streams. */
module StreamPlan {
  import opened Wrappers

  datatype Binding = Binding(id: int, item: int)

  datatype Plan = Plan(bindings: seq<Binding>, byItem: map<int, int>, byStream: map<int, int>)

  datatype Error =
    | NoManifest | NoItems | CountMismatch | NegativeStream | ItemOutOfRange | DuplicateStream | DuplicateItem
      | ItemUnbound
    | StreamMissing | StreamMismatch | OpenedTwice | EndedBeforeOpen | EndedTwice | ChunkAfterEnd

  /** A manifest; only the number of its items matters here. */
  class Manifest {
    const items: nat
    var streams: seq<Binding>

    constructor (items: nat, streams: seq<Binding>)
      ensures this.items == items && this.streams == streams
    {
      this.items := items;
      this.streams := streams;
    }
  }

  // What a plan should be.

  ghost predicate InRange(bs: seq<Binding>, items: nat) {
    forall i :: 0 <= i < |bs| ==> bs[i].id >= 0 && 0 <= bs[i].item < items
  }

  ghost predicate DistinctStreams(bs: seq<Binding>) {
    forall i, j :: 0 <= i < j < |bs| ==> bs[i].id != bs[j].id
  }

  ghost predicate DistinctItems(bs: seq<Binding>) {
    forall i, j :: 0 <= i < j < |bs| ==> bs[i].item != bs[j].item
  }

  ghost predicate Binds(bs: seq<Binding>, item: int) {
    exists i :: 0 <= i < |bs| && bs[i].item == item
  }

  /** A one-to-one map between distinct non-negative stream ids and all items. */
  ghost predicate OneToOne(bs: seq<Binding>, items: nat) {
    && InRange(bs, items) && DistinctStreams(bs) && DistinctItems(bs)
    && forall item :: 0 <= item < items ==> Binds(bs, item)
  }

  /** The two lookup maps are inverse to each other. */
  ghost predicate Inverse(plan: Plan, items: nat) {
    && (forall item :: item in plan.byItem <==> 0 <= item < items)
    && (forall item :: item in plan.byItem ==>
      plan.byItem[item] in plan.byStream && plan.byStream[plan.byItem[item]] == item)
    && (forall id :: id in plan.byStream ==> plan.byStream[id] in plan.byItem && plan.byItem[plan.byStream[id]] == id)
  }

  // Pigeonholes.

  function Upto(n: nat): (s: set<int>)
    ensures |s| == n && forall i :: i in s <==> 0 <= i < n
  {
    if n == 0 then {} else Upto(n - 1) + {n - 1}
  }

  function ItemsOf(bs: seq<Binding>): (s: set<int>)
    ensures forall item :: item in s <==> Binds(bs, item)
  {
    set i | 0 <= i < |bs| :: bs[i].item
  }

  lemma ItemsGrow(bs: seq<Binding>, last: Binding)
    ensures ItemsOf(bs + [last]) == ItemsOf(bs) + {last.item}
  {
    var all := bs + [last];
    forall item ensures Binds(all, item) <==> Binds(bs, item) || item == last.item {
      if Binds(bs, item) {
        var i :| 0 <= i < |bs| && bs[i].item == item;
        assert all[i].item == item;
      }
      assert all[|bs|].item == last.item;
    }
  }

  lemma {:induction false} ItemsSize(bs: seq<Binding>)
    requires DistinctItems(bs)
    ensures |ItemsOf(bs)| == |bs|
  {
    if bs == [] {
      assert ItemsOf(bs) == {};
    } else {
      var front, last := bs[..|bs| - 1], bs[|bs| - 1];
      ItemsSize(front);
      ItemsGrow(front, last);
      assert front + [last] == bs;
    }
  }

  lemma SubsetOfSameSize(a: set<int>, b: set<int>)
    requires a <= b && |a| == |b|
    ensures a == b
  {
    assert b == a + (b - a);
  }

  /** With no item bound twice, none is left out exactly if there are as many bindings as items. */
  lemma {:induction false} NoneLeftOut(bs: seq<Binding>, items: nat)
    requires InRange(bs, items) && DistinctItems(bs)
    ensures |bs| == items <==> forall item :: 0 <= item < items ==> Binds(bs, item)
  {
    ItemsSize(bs);
    assert ItemsOf(bs) <= Upto(items);
    if |bs| == items {
      SubsetOfSameSize(ItemsOf(bs), Upto(items));
    }
    if forall item :: 0 <= item < items ==> Binds(bs, item) {
      assert ItemsOf(bs) == Upto(items);
    }
  }

  // Plans.

  /** The lookup maps hold the bindings and nothing else. */
  ghost predicate Indexed(bs: seq<Binding>, byItem: map<int, int>, byStream: map<int, int>) {
    && (forall b :: b in bs ==>
      b.item in byItem && byItem[b.item] == b.id && b.id in byStream && byStream[b.id] == b.item)
    && (forall item :: item in byItem ==> Binding(byItem[item], item) in bs)
    && (forall id :: id in byStream ==> Binding(id, byStream[id]) in bs)
  }

  ghost predicate WellIndexed(plan: Plan) {
    Indexed(plan.bindings, plan.byItem, plan.byStream)
  }

  /** A plan is determined by its bindings. */
  lemma SamePlan(p: Plan, q: Plan)
    requires WellIndexed(p) && WellIndexed(q) && p.bindings == q.bindings
    ensures p == q
  {
    assert forall item :: item in p.byItem ==> Binding(p.byItem[item], item) in q.bindings;
    assert forall item :: item in q.byItem ==> Binding(q.byItem[item], item) in p.bindings;
    assert p.byItem == q.byItem;
    assert forall id :: id in p.byStream ==> Binding(id, p.byStream[id]) in q.bindings;
    assert forall id :: id in q.byStream ==> Binding(id, q.byStream[id]) in p.bindings;
    assert p.byStream == q.byStream;
  }

  lemma OneToOneIsInverse(plan: Plan, items: nat)
    requires WellIndexed(plan) && OneToOne(plan.bindings, items)
    ensures Inverse(plan, items)
  {
    forall item ensures item in plan.byItem <==> 0 <= item < items {
      if 0 <= item < items {
        assert Binds(plan.bindings, item);
        var i :| 0 <= i < |plan.bindings| && plan.bindings[i].item == item;
        assert plan.bindings[i] in plan.bindings;
      }
    }
  }

  lemma IndexGrows(bs: seq<Binding>, last: Binding, byItem: map<int, int>, byStream: map<int, int>)
    requires Indexed(bs, byItem, byStream) && last.item !in byItem && last.id !in byStream
    ensures Indexed(bs + [last], byItem[last.item := last.id], byStream[last.id := last.item])
  {
  }

  lemma DistinctGrows(bs: seq<Binding>, last: Binding, byItem: map<int, int>, byStream: map<int, int>)
    requires Indexed(bs, byItem, byStream) && DistinctStreams(bs) && DistinctItems(bs)
    ensures last.id !in byStream <==> DistinctStreams(bs + [last])
    ensures last.item !in byItem <==> DistinctItems(bs + [last])
  {
    var all := bs + [last];
    forall i | 0 <= i < |bs| ensures all[i] in bs {
    }
    if last.id in byStream {
      var i :| 0 <= i < |bs| && bs[i] == Binding(last.id, byStream[last.id]);
      assert all[i].id == all[|bs|].id;
    }
    if last.item in byItem {
      var i :| 0 <= i < |bs| && bs[i] == Binding(byItem[last.item], last.item);
      assert all[i].item == all[|bs|].item;
    }
  }

  /** Item `k` on stream `first + k`. */
  function Consecutive(items: nat, first: nat): (bs: seq<Binding>)
    ensures |bs| == items && forall k :: 0 <= k < items ==> bs[k] == Binding(first + k, k)
  {
    seq(items, k => Binding(first + k, k))
  }

  lemma ConsecutiveIsOneToOne(items: nat, first: nat)
    ensures OneToOne(Consecutive(items, first), items)
  {
    NoneLeftOut(Consecutive(items, first), items);
  }

  method IndexBindings(bindings: seq<Binding>) returns (plan: Plan)
    requires DistinctStreams(bindings) && DistinctItems(bindings)
    ensures WellIndexed(plan) && plan.bindings == bindings
  {
    var byItem: map<int, int> := map[];
    var byStream: map<int, int> := map[];
    for n := 0 to |bindings|
      invariant Indexed(bindings[..n], byItem, byStream)
    {
      var binding := bindings[n];
      assert bindings[..n + 1] == bindings[..n] + [binding];
      DistinctGrows(bindings[..n], binding, byItem, byStream);
      IndexGrows(bindings[..n], binding, byItem, byStream);
      byItem := byItem[binding.item := binding.id];
      byStream := byStream[binding.id := binding.item];
    }
    assert bindings[..|bindings|] == bindings;
    plan := Plan(bindings, byItem, byStream);
  }

  method NewPlan(itemCount: nat) returns (plan: Plan)
    ensures WellIndexed(plan) && plan.bindings == Consecutive(itemCount, 1)
    ensures OneToOne(plan.bindings, itemCount) && Inverse(plan, itemCount)
  {
    var bindings := [];
    for item := 0 to itemCount
      invariant bindings == Consecutive(item, 1)
    {
      bindings := bindings + [Binding(item + 1, item)];
    }
    ConsecutiveIsOneToOne(itemCount, 1);
    plan := IndexBindings(bindings);
    OneToOneIsInverse(plan, itemCount);
  }

  /** The plan a received manifest describes; without streams of its own it gets one per item. */
  method PlanFromManifest(manifest: Manifest?) returns (r: Result<Plan, Error>)
    ensures manifest == null ==> r == Err(NoManifest)
    ensures manifest != null && manifest.items == 0 ==> r == Err(NoItems)
    ensures manifest != null && manifest.items > 0 && manifest.streams == [] ==>
      r.Ok? && r.value.bindings == Consecutive(manifest.items, 0)
    ensures manifest != null && manifest.items > 0 && manifest.streams != [] ==>
      && (r.Ok? <==> OneToOne(manifest.streams, manifest.items))
      && (r.Ok? ==> r.value.bindings == manifest.streams)
    ensures r.Ok? ==> WellIndexed(r.value) && Inverse(r.value, manifest.items)
    ensures r != Err(ItemUnbound)
  {
    if manifest == null {
      return Err(NoManifest);
    }
    if manifest.items == 0 {
      return Err(NoItems);
    }
    if manifest.streams == [] {
      ConsecutiveIsOneToOne(manifest.items, 0);
      var plan := IndexBindings(Consecutive(manifest.items, 0));
      OneToOneIsInverse(plan, manifest.items);
      return Ok(plan);
    }
    r := CheckStreams(manifest.items, manifest.streams);
  }

  method CheckStreams(items: nat, streams: seq<Binding>) returns (r: Result<Plan, Error>)
    ensures r.Ok? <==> OneToOne(streams, items)
    ensures r.Ok? ==> r.value.bindings == streams && WellIndexed(r.value) && Inverse(r.value, items)
    ensures r.Err? ==> r.error in {CountMismatch, NegativeStream, ItemOutOfRange, DuplicateStream, DuplicateItem}
  {
    if |streams| != items {
      TooFewOrMany(streams, items);
      return Err(CountMismatch);
    }
    var plan := Plan([], map[], map[]);
    for n := 0 to |streams|
      invariant plan.bindings == streams[..n] && WellIndexed(plan)
      invariant InRange(streams[..n], items) && DistinctStreams(streams[..n]) && DistinctItems(streams[..n])
    {
      var binding := streams[n];
      assert streams[..n + 1] == streams[..n] + [binding];
      if binding.id < 0 {
        return Err(NegativeStream);
      }
      if binding.item < 0 || binding.item >= items {
        return Err(ItemOutOfRange);
      }
      DistinctGrows(streams[..n], binding, plan.byItem, plan.byStream);
      if binding.id in plan.byStream {
        DistinctPrefix(streams, n + 1);
        return Err(DuplicateStream);
      }
      if binding.item in plan.byItem {
        DistinctPrefix(streams, n + 1);
        return Err(DuplicateItem);
      }
      IndexGrows(streams[..n], binding, plan.byItem, plan.byStream);
      plan := Plan(plan.bindings + [binding], plan.byItem[binding.item := binding.id],
        plan.byStream[binding.id := binding.item]);
    }
    assert streams[..|streams|] == streams;
    NoneLeftOut(streams, items);
    OneToOneIsInverse(plan, items);
    var item := 0;
    while item < items && item in plan.byItem
      invariant 0 <= item <= items
    {
      item := item + 1;
    }
    r := if item < items then Err(ItemUnbound) else Ok(plan);
  }

  lemma TooFewOrMany(bs: seq<Binding>, items: nat)
    requires |bs| != items
    ensures !OneToOne(bs, items)
  {
    if InRange(bs, items) && DistinctItems(bs) {
      NoneLeftOut(bs, items);
    }
  }

  lemma DistinctPrefix(bs: seq<Binding>, n: nat)
    requires n <= |bs|
    ensures DistinctStreams(bs) ==> DistinctStreams(bs[..n])
    ensures DistinctItems(bs) ==> DistinctItems(bs[..n])
  {
  }

  method Apply(plan: Plan, manifest: Manifest?)
    modifies manifest
    ensures manifest != null ==> manifest.streams == plan.bindings
  {
    if manifest != null {
      manifest.streams := plan.bindings;
    }
  }

  /** A fresh plan put into a manifest is read back unchanged. */
  method ApplyAndReadBack(manifest: Manifest) returns (plan: Plan, r: Result<Plan, Error>)
    requires manifest.items > 0
    modifies manifest
    ensures r == Ok(plan)
  {
    plan := NewPlan(manifest.items);
    Apply(plan, manifest);
    r := PlanFromManifest(manifest);
    SamePlan(plan, r.value);
  }

  // Frames.

  datatype Message = Message(item: int, stream: Stream)
  datatype Stream = NoStream | On(id: int)

  function ResolveFrame(plan: Plan, items: nat, message: Message, requireStream: bool): Result<Binding, Error> {
    if !(0 <= message.item < items) then Err(ItemOutOfRange)
    else if requireStream && message.stream.NoStream? then Err(StreamMissing)
    else if message.item !in plan.byItem then Err(ItemUnbound)
    else if message.stream.On? && message.stream.id != plan.byItem[message.item] then Err(StreamMismatch)
    else Ok(Binding(plan.byItem[message.item], message.item))
  }

  /** A frame is let through exactly if what it says of item and stream is one of the plan's bindings. */
  lemma FrameMatchesPlan(plan: Plan, items: nat, message: Message, requireStream: bool)
    requires WellIndexed(plan) && OneToOne(plan.bindings, items)
    ensures
      var r := ResolveFrame(plan, items, message, requireStream);
      && r != Err(ItemUnbound)
      && (r.Ok? ==> r.value in plan.bindings && r.value.item == message.item)
      && (message.stream.On? ==> (r.Ok? <==> Binding(message.stream.id, message.item) in plan.bindings))
      && (message.stream.NoStream? ==> (r.Ok? <==> !requireStream && 0 <= message.item < items))
  {
    OneToOneIsInverse(plan, items);
  }

  datatype StreamState = StreamState(item: int, isOpen: bool, ended: bool)

  /** What the tracker has let through. */
  datatype Event = Open(id: int) | End(id: int) | Chunk(id: int) | LateChunk(id: int)

  /** Streams open once and end once, after they opened, and no ordinary chunk follows the end. */
  ghost predicate Orderly(log: seq<Event>) {
    && (forall i, j :: 0 <= i < j < |log| && log[i].Open? ==> log[j] != log[i])
    && (forall i, j :: 0 <= i < j < |log| && log[i].End? ==> log[j] != log[i] && log[j] != Chunk(log[i].id))
    && (forall j :: 0 <= j < |log| && log[j].End? ==> Open(log[j].id) in log[..j])
  }

  ghost predicate Allowed(log: seq<Event>, e: Event) {
    match e
    case Open(id) => e !in log
    case End(id) => Open(id) in log && e !in log
    case Chunk(id) => End(id) !in log
    case LateChunk(_) => true
  }

  /** The order is kept exactly by the events that are allowed. */
  lemma OrderlyGrows(log: seq<Event>, e: Event)
    requires Orderly(log)
    ensures Orderly(log + [e]) <==> Allowed(log, e)
  {
    if Allowed(log, e) {
      AllowedKeepsOrder(log, e);
    } else {
      OthersBreakOrder(log, e);
    }
  }

  lemma AllowedKeepsOrder(log: seq<Event>, e: Event)
    requires Orderly(log) && Allowed(log, e)
    ensures Orderly(log + [e])
  {
    var all, n := log + [e], |log|;
    forall j | 0 <= j < |all| && all[j].End? ensures Open(all[j].id) in all[..j] {
      assert all[..j] == log[..j];
    }
  }

  lemma OthersBreakOrder(log: seq<Event>, e: Event)
    requires !Allowed(log, e)
    ensures !Orderly(log + [e])
  {
    var all, n := log + [e], |log|;
    assert all[n] == e && all[..n] == log;
    if !(e.End? && Open(e.id) !in log) {
      var d := if e.Chunk? then End(e.id) else e;
      var i :| 0 <= i < n && log[i] == d;
      assert all[i] == d;
    }
  }

  ghost predicate Tracks(log: seq<Event>, states: map<int, StreamState>) {
    && (forall id :: Open(id) in log <==> id in states && states[id].isOpen)
    && (forall id :: End(id) in log <==> id in states && states[id].ended)
  }

  lemma EndedWasOpen(log: seq<Event>, id: int)
    requires Orderly(log) && End(id) in log
    ensures Open(id) in log
  {
    var j :| 0 <= j < |log| && log[j] == End(id);
    assert Open(id) in log[..j];
  }

  class Tracker {
    const plan: Plan
    const items: nat
    var states: map<int, StreamState>
    ghost var log: seq<Event>

    constructor (plan: Plan, items: nat)
      ensures Valid() && log == [] && this.plan == plan && this.items == items
    {
      this.plan := plan;
      this.items := items;
      states := map[];
      log := [];
    }

    ghost predicate Valid()
      reads this
    {
      Orderly(log) && Tracks(log, states)
    }

    function State(id: int): StreamState
      reads this
    {
      if id in states then states[id] else StreamState(0, false, false)
    }

    method AcceptOpen(message: Message) returns (r: Result<Binding, Error>)
      requires Valid()
      modifies this
      ensures Valid()
      ensures
        var frame := ResolveFrame(plan, items, message, true);
        && (r.Ok? <==> frame.Ok? && Allowed(old(log), Open(frame.value.id)))
        && (r.Ok? ==> r == frame && log == old(log) + [Open(r.value.id)])
      ensures r.Err? ==> log == old(log) && states == old(states)
    {
      r := ResolveFrame(plan, items, message, true);
      if r.Err? {
        return;
      }
      var id := r.value.id;
      if State(id).isOpen {
        return Err(OpenedTwice);
      }
      OrderlyGrows(log, Open(id));
      if End(id) in log {
        EndedWasOpen(log, id);
      }
      states := states[id := StreamState(r.value.item, true, false)];
      log := log + [Open(id)];
    }

    method AcceptEnd(message: Message) returns (r: Result<Binding, Error>)
      requires Valid()
      modifies this
      ensures Valid()
      ensures
        var frame := ResolveFrame(plan, items, message, true);
        && (r.Ok? <==> frame.Ok? && Allowed(old(log), End(frame.value.id)))
        && (r.Ok? ==> r == frame && log == old(log) + [End(r.value.id)])
      ensures r.Err? ==> log == old(log) && states == old(states)
    {
      r := ResolveFrame(plan, items, message, true);
      if r.Err? {
        return;
      }
      var id := r.value.id;
      var state := State(id);
      if !state.isOpen {
        return Err(EndedBeforeOpen);
      }
      if state.ended {
        return Err(EndedTwice);
      }
      OrderlyGrows(log, End(id));
      states := states[id := state.(ended := true)];
      log := log + [End(id)];
    }

    /** A chunk may come before its stream is opened; after the end it comes only where that is allowed. */
    method AcceptChunk(message: Message, allowAfterEnd: bool) returns (r: Result<Binding, Error>)
      requires Valid()
      modifies this`log
      ensures Valid()
      ensures
        var frame := ResolveFrame(plan, items, message, false);
        && (r.Ok? <==> frame.Ok? && Allowed(old(log), ChunkEvent(frame.value.id, allowAfterEnd)))
        && (r.Ok? ==> r == frame && log == old(log) + [ChunkEvent(r.value.id, allowAfterEnd)])
      ensures r.Err? ==> log == old(log)
    {
      r := ResolveFrame(plan, items, message, false);
      if r.Err? {
        return;
      }
      if State(r.value.id).ended && !allowAfterEnd {
        return Err(ChunkAfterEnd);
      }
      OrderlyGrows(log, ChunkEvent(r.value.id, allowAfterEnd));
      log := log + [ChunkEvent(r.value.id, allowAfterEnd)];
    }
  }

  function ChunkEvent(id: int, allowAfterEnd: bool): Event {
    if allowAfterEnd then LateChunk(id) else Chunk(id)
  }
}
