/** The weighted deficit round-robin scheduler that interleaves the streams of a transfer.

    `Sched` is the scheduler's state as a value, with `NextTurn` and `CommitTurn` as the meaning of
    its two operations; `WeightedScheduler` is the object the transfer code updates in place. */
module Scheduler {
  import opened Wrappers

  datatype Stream = Stream(id: int, weight: int, deficit: int, active: bool)

  datatype Request = Request(id: int, weight: int)

  datatype Turn = Turn(streamId: int, budget: int)

  datatype Error =
    | BadQuantum
    | NegativeId(id: int)
    | BadWeight(id: int)
    | DuplicateId(id: int)
    | BadMaximum
    | Uncommitted
    | NoTurn
    | WrongStream
    | OutsideBudget
    | NoProgress

  /** `current` is the index of the stream whose turn is open. */
  datatype Sched = Sched(
    streams: seq<Stream>, quantum: int, cursor: int, active: int, current: Option<int>, budget: int)

  function ActiveCount(streams: seq<Stream>): (n: nat)
    ensures n <= |streams|
  {
    if streams == [] then 0
    else ActiveCount(streams[..|streams| - 1]) + (if streams[|streams| - 1].active then 1 else 0)
  }

  /** The credit a stream is given when its last credit is used up. */
  function Credit(quantum: int, x: Stream): int {
    quantum * x.weight
  }

  ghost predicate WithinCredit(quantum: int, x: Stream) {
    x.weight > 0 && 0 <= x.deficit <= Credit(quantum, x)
  }

  /** Every reachable scheduler satisfies this. */
  ghost predicate Valid(s: Sched) {
    && s.quantum > 0
    && s.active == ActiveCount(s.streams)
    && 0 <= s.cursor && (s.streams != [] ==> s.cursor < |s.streams|)
    && (forall i :: 0 <= i < |s.streams| ==> WithinCredit(s.quantum, s.streams[i]))
    && (s.current.Some? ==>
        && s.streams != []
        && s.current.value == s.cursor
        && s.streams[s.cursor].active
        && 0 < s.budget <= s.streams[s.cursor].deficit)
    && (s.current.None? ==> s.budget == 0)
  }

  /** The position `steps` places further round a ring of `n`. */
  function Forward(n: int, from: int, steps: int): (p: int)
    requires 0 <= from < n && 0 <= steps <= n
    ensures 0 <= p < n
  {
    if from + steps < n then from + steps else from + steps - n
  }

  /** The cyclic distance from `from` to the first active stream. */
  function Skip(streams: seq<Stream>, from: int): (d: nat)
    requires 0 <= from < |streams| && ActiveCount(streams) > 0
    ensures d < |streams| && streams[Forward(|streams|, from, d)].active
    ensures forall e :: 0 <= e < d ==> !streams[Forward(|streams|, from, e)].active
  {
    SomeActiveAhead(streams, from);
    SkipFrom(streams, from, 0)
  }

  function SkipFrom(streams: seq<Stream>, from: int, done: nat): (d: nat)
    requires 0 <= from < |streams| && done < |streams|
    requires exists e :: done <= e < |streams| && streams[Forward(|streams|, from, e)].active
    ensures done <= d < |streams| && streams[Forward(|streams|, from, d)].active
    ensures forall e :: done <= e < d ==> !streams[Forward(|streams|, from, e)].active
    decreases |streams| - done
  {
    if streams[Forward(|streams|, from, done)].active then done
    else SkipFrom(streams, from, done + 1)
  }

  lemma {:induction false} SomeActive(streams: seq<Stream>)
    requires ActiveCount(streams) > 0
    ensures exists i :: 0 <= i < |streams| && streams[i].active
  {
    var last := |streams| - 1;
    if !streams[last].active {
      SomeActive(streams[..last]);
      var i :| 0 <= i < last && streams[..last][i].active;
      assert streams[i].active;
    }
  }

  lemma SomeActiveAhead(streams: seq<Stream>, from: int)
    requires 0 <= from < |streams| && ActiveCount(streams) > 0
    ensures exists e :: 0 <= e < |streams| && streams[Forward(|streams|, from, e)].active
  {
    SomeActive(streams);
    var i :| 0 <= i < |streams| && streams[i].active;
    var e := if i >= from then i - from else i - from + |streams|;
    assert Forward(|streams|, from, e) == i;
  }

  lemma {:induction false} ActiveCountUpdate(streams: seq<Stream>, i: nat, x: Stream)
    requires i < |streams|
    ensures ActiveCount(streams[i := x])
         == ActiveCount(streams) - (if streams[i].active then 1 else 0) + (if x.active then 1 else 0)
  {
    var last := |streams| - 1;
    if i == last {
      assert streams[i := x][..last] == streams[..last];
    } else {
      assert streams[i := x][..last] == streams[..last][i := x];
      ActiveCountUpdate(streams[..last], i, x);
    }
  }

  lemma {:induction false} ActiveCountPositive(streams: seq<Stream>, i: nat)
    requires i < |streams| && streams[i].active
    ensures ActiveCount(streams) > 0
  {
    var last := |streams| - 1;
    if i < last {
      ActiveCountPositive(streams[..last], i);
    }
  }

  /** Where the cursor stops, and the refilled stream found there. */
  function Chosen(s: Sched): (c: int)
    requires Valid(s) && s.active > 0
    ensures 0 <= c < |s.streams| && s.streams[c].active
  {
    Forward(|s.streams|, s.cursor, Skip(s.streams, s.cursor))
  }

  function Refilled(s: Sched, x: Stream): Stream {
    if x.deficit <= 0 then x.(deficit := x.deficit + Credit(s.quantum, x)) else x
  }

  function Min(a: int, b: int): int {
    if a <= b then a else b
  }

  /** `Ok(None)` is the source's empty turn: nothing is active any more. */
  function NextTurn(s: Sched, maxBytes: int): (r: (Sched, Result<Option<Turn>, Error>))
    requires Valid(s)
  {
    if maxBytes <= 0 then (s, Err(BadMaximum))
    else if s.current.Some? then (s, Err(Uncommitted))
    else if s.active == 0 then (s, Ok(None))
    else
      var c := Chosen(s);
      var x := Refilled(s, s.streams[c]);
      var budget := Min(maxBytes, x.deficit);
      (s.(streams := s.streams[c := x], cursor := c, current := Some(c), budget := budget),
       Ok(Some(Turn(x.id, budget))))
  }

  /** The state after an accepted commit; `s` is not changed by a rejected one. */
  function Settle(s: Sched, used: int, done: bool): Sched
    requires Valid(s) && s.current.Some?
  {
    var x := s.streams[s.cursor];
    var y := if done then x.(active := false, deficit := 0) else x.(deficit := x.deficit - used);
    var active := if done then s.active - 1 else s.active;
    var leave := (done || y.deficit <= 0 || used < s.budget) && active > 0;
    s.(streams := s.streams[s.cursor := y], active := active, current := None, budget := 0,
       cursor := if leave then Forward(|s.streams|, s.cursor, 1) else s.cursor)
  }

  function CommitTurn(s: Sched, streamId: int, used: int, done: bool): (r: (Sched, Option<Error>))
    requires Valid(s)
  {
    if s.current.None? then (s, Some(NoTurn))
    else if s.streams[s.cursor].id != streamId then (s, Some(WrongStream))
    else if used < 0 || used > s.budget then (s, Some(OutsideBudget))
    else if used == 0 && !done then (s, Some(NoProgress))
    else (Settle(s, used, done), None)
  }

  // Validity is kept by every operation, whatever the caller passes.

  lemma NextKeepsValid(s: Sched, maxBytes: int)
    requires Valid(s)
    ensures Valid(NextTurn(s, maxBytes).0)
    ensures NextTurn(s, maxBytes).1.Ok? && NextTurn(s, maxBytes).1.value.None? ==>
              s.active == 0 && forall i :: 0 <= i < |s.streams| ==> !s.streams[i].active
    ensures NextTurn(s, maxBytes).1.Ok? && NextTurn(s, maxBytes).1.value.Some? ==>
              0 < NextTurn(s, maxBytes).1.value.value.budget <= maxBytes
  {
    if maxBytes > 0 && s.current.None? && s.active > 0 {
      var c := Chosen(s);
      var x := Refilled(s, s.streams[c]);
      ActiveCountUpdate(s.streams, c, x);
      PositiveProduct(s.quantum, x.weight);
    } else if s.active == 0 {
      forall i | 0 <= i < |s.streams| ensures !s.streams[i].active {
        if s.streams[i].active {
          ActiveCountPositive(s.streams, i);
        }
      }
    }
  }

  lemma PositiveProduct(a: int, b: int)
    requires a > 0 && b > 0
    ensures a * b > 0
  {
  }

  lemma CommitKeepsValid(s: Sched, streamId: int, used: int, done: bool)
    requires Valid(s)
    ensures Valid(CommitTurn(s, streamId, used, done).0)
    ensures CommitTurn(s, streamId, used, done).1.Some? ==> CommitTurn(s, streamId, used, done).0 == s
  {
    if CommitTurn(s, streamId, used, done).1.None? {
      var x := s.streams[s.cursor];
      var y := if done then x.(active := false, deficit := 0) else x.(deficit := x.deficit - used);
      ActiveCountUpdate(s.streams, s.cursor, y);
    }
  }

  // Construction.

  function Fresh(r: Request): Stream {
    Stream(r.id, r.weight, 0, true)
  }

  function FreshAll(rs: seq<Request>): (streams: seq<Stream>)
    ensures |streams| == |rs|
    ensures forall i :: 0 <= i < |rs| ==> streams[i] == Fresh(rs[i])
  {
    seq(|rs|, i requires 0 <= i < |rs| => Fresh(rs[i]))
  }

  ghost predicate AllDistinct(rs: seq<Request>) {
    && (forall i :: 0 <= i < |rs| ==> rs[i].id >= 0 && rs[i].weight > 0)
    && (forall i, j :: 0 <= i < j < |rs| ==> rs[i].id != rs[j].id)
  }

  ghost predicate Acceptable(rs: seq<Request>, quantum: int) {
    quantum > 0 && AllDistinct(rs)
  }

  lemma {:induction false} AllActive(streams: seq<Stream>)
    requires forall i :: 0 <= i < |streams| ==> streams[i].active
    ensures ActiveCount(streams) == |streams|
  {
    if streams != [] {
      AllActive(streams[..|streams| - 1]);
    }
  }

  lemma FreshIsValid(rs: seq<Request>, quantum: int)
    requires Acceptable(rs, quantum)
    ensures Valid(Sched(FreshAll(rs), quantum, 0, |rs|, None, 0))
  {
    AllActive(FreshAll(rs));
    forall i | 0 <= i < |rs| ensures WithinCredit(quantum, FreshAll(rs)[i]) {
      PositiveProduct(quantum, rs[i].weight);
    }
  }

  /** The scheduler object: its fields are updated in place by `Next` and `Commit`. */
  class WeightedScheduler {
    var streams: seq<Stream>
    var quantum: int
    var cursor: int
    var active: int
    var current: Option<int>
    var budget: int

    function View(): Sched
      reads this
    {
      Sched(streams, quantum, cursor, active, current, budget)
    }

    constructor Over(states: seq<Stream>, q: int)
      ensures View() == Sched(states, q, 0, |states|, None, 0)
    {
      streams, quantum, cursor, active, current, budget := states, q, 0, |states|, None, 0;
    }

    /** Accepts a request list exactly when every id is distinct and non-negative and every weight
        and the quantum are positive; the streams then stand in request order with no credit. */
    static method New(rs: seq<Request>, quantum: int) returns (r: Result<WeightedScheduler, Error>)
      ensures r.Ok? <==> Acceptable(rs, quantum)
      ensures r.Ok? ==> fresh(r.value) && Valid(r.value.View())
      ensures r.Ok? ==> r.value.View() == Sched(FreshAll(rs), quantum, 0, |rs|, None, 0)
    {
      if quantum <= 0 {
        return Err(BadQuantum);
      }
      var states: seq<Stream> := [];
      var byId: map<int, int> := map[];
      for k := 0 to |rs|
        invariant states == FreshAll(rs[..k]) && AllDistinct(rs[..k])
        invariant forall i :: 0 <= i < k ==> rs[i].id in byId
        invariant forall id :: id in byId ==> 0 <= byId[id] < k && rs[byId[id]].id == id
      {
        var q := rs[k];
        if q.id < 0 {
          return Err(NegativeId(q.id));
        }
        if q.weight <= 0 {
          return Err(BadWeight(q.id));
        }
        if q.id in byId {
          assert rs[byId[q.id]].id == rs[k].id;
          return Err(DuplicateId(q.id));
        }
        states := states + [Fresh(q)];
        byId := byId[q.id := k];
      }
      assert rs[..|rs|] == rs;
      FreshIsValid(rs, quantum);
      var s := new WeightedScheduler.Over(states, quantum);
      r := Ok(s);
    }

    method Advance()
      requires streams != [] ==> 0 <= cursor < |streams|
      modifies this`cursor
      ensures cursor == if streams == [] then old(cursor) else Forward(|streams|, old(cursor), 1)
    {
      if streams != [] {
        cursor := (cursor + 1) % |streams|;
      }
    }

    method Next(maxBytes: int) returns (r: Result<Option<Turn>, Error>)
      requires Valid(View())
      modifies this`streams, this`cursor, this`current, this`budget
      ensures Valid(View())
      ensures (View(), r) == NextTurn(old(View()), maxBytes)
    {
      NextKeepsValid(View(), maxBytes);
      if maxBytes <= 0 {
        return Err(BadMaximum);
      }
      if current.Some? {
        return Err(Uncommitted);
      }
      if active == 0 {
        return Ok(None);
      }
      ghost var d := Skip(streams, cursor);
      ghost var moved := 0;
      ghost var start := cursor;
      while !streams[cursor].active
        invariant View() == old(View()).(cursor := cursor)
        invariant 0 <= moved <= d && cursor == Forward(|streams|, start, moved)
        decreases d - moved
      {
        Advance();
        moved := moved + 1;
      }
      var x := streams[cursor];
      if x.deficit <= 0 {
        x := x.(deficit := x.deficit + quantum * x.weight);
      }
      streams := streams[cursor := x];
      budget := if maxBytes <= x.deficit then maxBytes else x.deficit;
      current := Some(cursor);
      r := Ok(Some(Turn(x.id, budget)));
    }

    method Commit(streamId: int, used: int, done: bool) returns (e: Option<Error>)
      requires Valid(View())
      modifies this`streams, this`cursor, this`active, this`current, this`budget
      ensures Valid(View())
      ensures (View(), e) == CommitTurn(old(View()), streamId, used, done)
    {
      CommitKeepsValid(View(), streamId, used, done);
      if current.None? {
        return Some(NoTurn);
      }
      var x := streams[current.value];
      if x.id != streamId {
        return Some(WrongStream);
      }
      if used < 0 || used > budget {
        return Some(OutsideBudget);
      }
      if used == 0 && !done {
        return Some(NoProgress);
      }
      x := x.(deficit := x.deficit - used);
      if done {
        x := x.(active := false, deficit := 0);
        active := active - 1;
      }
      streams := streams[current.value := x];
      var leave := done || x.deficit <= 0 || used < budget;
      current := None;
      budget := 0;
      if leave && active > 0 {
        Advance();
      }
      e := None;
    }
  }
}
