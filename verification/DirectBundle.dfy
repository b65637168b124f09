/** The bundle of direct connections between two peers: one side accepts, the other dials, a first pair of
    hellos settles the size, and every further connection says which slot it belongs to. Sockets, clocks and
    the order in which connections arrive or finish are inputs of the two sides. */
module DirectBundle {
  import opened Wrappers

  datatype Error = NoConnection

  datatype Role = Sender | Receiver

  /** What a peer says on a connection; the initiator's role is only used by bidirectional setups. */
  datatype Hello = Hello(protocol: string, room: string, role: Role, index: int, count: int)

  const PROTOCOL := "kigo-direct-v1"

  /** A connection, the same number at both of its ends. */
  type Conn = nat

  predicate ValidCount(count: int) {
    1 <= count <= 8
  }

  function NormalizedCount(count: int): int {
    if count <= 0 then 1 else count
  }

  function NewHello(room: string, role: Role, index: int, count: int): Hello {
    Hello(PROTOCOL, room, role, index, count)
  }

  /** The count a hello asks for, if it is the expected hello of this room. */
  function CountOf(hello: Hello, room: string, peer: Role, index: int): Option<int> {
    var count := NormalizedCount(hello.count);
    if hello.protocol == PROTOCOL && hello.room == room && hello.role == peer && hello.index == index
      && ValidCount(count)
    then Some(count) else None
  }

  /** A hello is expected exactly if it is of this protocol, room, role and index and asks for eight connections at
      most; one that names no count asks for one. */
  lemma CountsExactly(hello: Hello, room: string, peer: Role, index: int)
    ensures CountOf(hello, room, peer, index) ==
      if hello == NewHello(room, peer, index, hello.count) && hello.count <= 8
      then Some(if hello.count < 1 then 1 else hello.count) else None
  {
  }

  function Min(a: int, b: int): int {
    if a <= b then a else b
  }

  // The accepting side.

  /** What the listener yields: a connection with the hello read from it, whether the answer could be written,
      and whether the deadline had passed if it was turned away; or a failure. */
  datatype Arrival = Arrival(conn: Conn, hello: Option<Hello>, writes: bool, expired: bool) | Failure

  /** The count an arrival asks for as connection `index` in an answered exchange of hellos. */
  function Answered(a: Arrival, room: string, index: int): Option<int> {
    if a.Arrival? && a.writes && a.hello.Some? then CountOf(a.hello.value, room, Receiver, index) else None
  }

  /** A hello that was written on a connection, all of it. */
  datatype Writing = Writing(conn: Conn, hello: Hello)

  /** Arrival `p` is the first that is answered as the primary connection. */
  ghost predicate IsPrimary(arrivals: seq<Arrival>, room: string, p: nat) {
    && p < |arrivals| && Answered(arrivals[p], room, 0).Some?
    && forall k :: 0 <= k < p ==> Answered(arrivals[k], room, 0).None?
  }

  /** Before arrival `n` the listener does not fail, and nothing is turned away after the deadline. */
  ghost predicate Unstopped(arrivals: seq<Arrival>, n: nat) {
    n <= |arrivals| && forall k :: 0 <= k < n ==> arrivals[k].Arrival? && !arrivals[k].expired
  }

  /** Arrival `n` becomes the primary connection. */
  ghost predicate Comes(arrivals: seq<Arrival>, room: string, n: nat) {
    IsPrimary(arrivals, room, n) && Unstopped(arrivals, n)
  }

  /** Reads a hello and answers it if it is the one expected; the count it asks for, if the answer was written. */
  method VerifyAcceptor(a: Arrival, room: string, index: int, ownCount: int, answers: seq<Writing>)
    returns (count: Option<int>, more: seq<Writing>)
    requires a.Arrival?
    ensures count == Answered(a, room, index)
    ensures more ==
      if count.Some? then answers + [Writing(a.conn, NewHello(room, Sender, index, ownCount))] else answers
  {
    more := answers;
    if a.hello.None? {
      return None, more;
    }
    count := CountOf(a.hello.value, room, Receiver, index);
    if count.None? || !a.writes {
      return None, more;
    }
    more := answers + [Writing(a.conn, NewHello(room, Sender, index, ownCount))];
  }

  method AcceptPrimary(arrivals: seq<Arrival>, room: string, requested: int)
    returns (r: Result<(Conn, int), Error>, p: nat, answers: seq<Writing>)
    ensures r.Ok? ==> Comes(arrivals, room, p)
    ensures r.Err? ==> forall n: nat :: !Comes(arrivals, room, n)
    ensures r.Ok? ==> r.value.0 == arrivals[p].conn && Answered(arrivals[p], room, 0) == Some(r.value.1)
    ensures r.Ok? ==> answers == [Writing(r.value.0, NewHello(room, Sender, 0, requested))]
  {
    p, answers := 0, [];
    while p < |arrivals|
      invariant p <= |arrivals| && answers == [] && forall k :: 0 <= k < p ==> Answered(arrivals[k], room, 0).None?
      invariant Unstopped(arrivals, p)
    {
      var a := arrivals[p];
      if a.Failure? {
        return Err(NoConnection), p, answers;
      }
      var count;
      count, answers := VerifyAcceptor(a, room, 0, requested, answers);
      if count.Some? {
        return Ok((a.conn, count.value)), p, answers;
      }
      if a.expired {
        return Err(NoConnection), p, answers;
      }
      p := p + 1;
    }
    return Err(NoConnection), p, answers;
  }

  /** A slot is taken by a connection that arrived after the primary one and asked for this slot and size. */
  ghost predicate Takes(arrivals: seq<Arrival>, room: string, p: nat, conn: Conn, index: int, size: int) {
    exists k :: p < k < |arrivals| && Answered(arrivals[k], room, index) == Some(size) && arrivals[k].conn == conn
  }

  ghost predicate SlotsFit(slots: seq<Option<Conn>>, arrivals: seq<Arrival>, room: string, p: nat, size: int) {
    forall i :: 1 <= i < |slots| && slots[i].Some? ==> Takes(arrivals, room, p, slots[i].value, i, size)
  }

  /** The empty slots. */
  function Missing(slots: seq<Option<Conn>>): (n: nat)
    ensures n == 0 <==> forall i :: 0 <= i < |slots| ==> slots[i].Some?
  {
    if slots == [] then 0
    else
      var last := |slots| - 1;
      assert slots == slots[..last] + [slots[last]];
      Missing(slots[..last]) + if slots[last].None? then 1 else 0
  }

  lemma {:induction false} MissingFalls(slots: seq<Option<Conn>>, i: nat, conn: Conn)
    requires i < |slots| && slots[i].None?
    ensures Missing(slots[i := Some(conn)]) == Missing(slots) - 1
  {
    var last := |slots| - 1;
    var after := slots[i := Some(conn)];
    if i == last {
      assert after[..last] == slots[..last];
    } else {
      assert after[..last] == slots[..last][i := Some(conn)];
      MissingFalls(slots[..last], i, conn);
    }
  }

  lemma {:induction false} AllMissing(slots: seq<Option<Conn>>)
    requires |slots| > 0 && slots[0].Some? && forall i :: 1 <= i < |slots| ==> slots[i].None?
    ensures Missing(slots) == |slots| - 1
  {
    var last := |slots| - 1;
    if last > 0 {
      AllMissing(slots[..last]);
    } else {
      assert slots[..0] == [];
    }
  }

  /** Every answer but the first is for an auxiliary connection of a bundle of this size. */
  ghost predicate AnswersFit(answers: seq<Writing>, room: string, first: Writing, size: int) {
    && first in answers
    && forall w :: w in answers ==>
      w == first || (1 <= w.hello.index < size && w.hello == NewHello(room, Sender, w.hello.index, size))
  }

  /** An arrival asks for slot `i` of a bundle of this size. */
  ghost predicate AsksFor(a: Arrival, room: string, i: int, size: int) {
    1 <= i < size && Answered(a, room, i) == Some(size)
  }

  /** Somebody has asked for slot `i` between arrival `p` and arrival `m`. */
  ghost predicate AskedFor(arrivals: seq<Arrival>, room: string, p: nat, m: nat, i: int, size: int)
    requires m <= |arrivals|
  {
    exists j :: p < j < m && AsksFor(arrivals[j], room, i, size)
  }

  /** The listener fails, or a connection is turned away after the deadline: nobody expects it, or its slot is taken. */
  ghost predicate StopsAt(arrivals: seq<Arrival>, room: string, p: nat, k: nat, size: int)
    requires k < |arrivals|
  {
    || arrivals[k].Failure?
    || (arrivals[k].expired
        && forall i :: AsksFor(arrivals[k], room, i, size) ==> AskedFor(arrivals, room, p, k, i, size))
  }

  /** Up to arrival `m` every slot is asked for, in whatever order, and nothing stops the listener before. */
  ghost predicate Fills(arrivals: seq<Arrival>, room: string, p: nat, size: int, m: nat) {
    && p < m <= |arrivals|
    && (forall k: nat :: p < k < m ==> !StopsAt(arrivals, room, p, k, size))
    && (forall i :: 1 <= i < size ==> AskedFor(arrivals, room, p, m, i, size))
  }

  ghost predicate SlotsFollow(slots: seq<Option<Conn>>, arrivals: seq<Arrival>, room: string, p: nat, m: nat)
    requires m <= |arrivals|
  {
    forall i :: 1 <= i < |slots| ==> (slots[i].Some? <==> AskedFor(arrivals, room, p, m, i, |slots|))
  }

  lemma AskedNext(arrivals: seq<Arrival>, room: string, p: nat, m: nat, i: int, size: int)
    requires p < m < |arrivals|
    ensures AskedFor(arrivals, room, p, m + 1, i, size) <==>
              AskedFor(arrivals, room, p, m, i, size) || AsksFor(arrivals[m], room, i, size)
  {
  }

  /** What one more arrival does to the slots. */
  lemma SlotsFollowOn(
    slots: seq<Option<Conn>>, arrivals: seq<Arrival>, room: string, p: nat, m: nat, after: seq<Option<Conn>>)
    requires p < m < |arrivals| && SlotsFollow(slots, arrivals, room, p, m) && |after| == |slots|
    requires forall i :: 1 <= i < |slots| ==>
      (after[i].Some? <==> slots[i].Some? || AsksFor(arrivals[m], room, i, |slots|))
    ensures SlotsFollow(after, arrivals, room, p, m + 1)
  {
    forall i | 1 <= i < |slots| ensures after[i].Some? <==> AskedFor(arrivals, room, p, m + 1, i, |slots|) {
      AskedNext(arrivals, room, p, m, i, |slots|);
    }
  }

  lemma AsksForOne(a: Arrival, room: string, i: int, size: int)
    requires AsksFor(a, room, i, size)
    ensures a.Arrival? && a.hello.Some? && a.hello.value.index == i
  {
  }

  method AcceptAuxiliaries(
    arrivals: seq<Arrival>, room: string, p: nat, conns: array<Option<Conn>>, answers: seq<Writing>,
    ghost first: Writing)
    returns (ok: bool, all: seq<Writing>)
    requires p < |arrivals| && 1 <= conns.Length && AnswersFit(answers, room, first, conns.Length)
    requires conns[0].Some? && forall i :: 1 <= i < conns.Length ==> conns[i].None?
    modifies conns
    ensures conns[0] == old(conns[0])
    ensures ok ==> forall i :: 0 <= i < conns.Length ==> conns[i].Some?
    ensures ok <==> exists m: nat :: Fills(arrivals, room, p, conns.Length, m)
    ensures SlotsFit(conns[..], arrivals, room, p, conns.Length)
    ensures AnswersFit(all, room, first, conns.Length)
  {
    var count := conns.Length;
    var remaining := count - 1;
    AllMissing(conns[..]);
    var k := p + 1;
    all := answers;
    while remaining > 0 && k < |arrivals|
      invariant p < k <= |arrivals| && remaining == Missing(conns[..]) && conns[0] == old(conns[0])
      invariant Filling(conns[..], arrivals, room, p, k, all, first)
    {
      ghost var before := conns[..];
      var stops, takes;
      stops, takes, all := TakeArrival(arrivals, room, p, k, conns, all, first);
      if stops {
        StoppedShort(before, arrivals, room, p, k, count);
        return false, all;
      }
      if takes {
        remaining := remaining - 1;
      }
      k := k + 1;
    }
    ok := remaining == 0;
    if ok {
      assert forall i :: 0 <= i < count ==> conns[i] == conns[..][i];
      assert Fills(arrivals, room, p, count, k);
    } else {
      NeverFilled(conns[..], arrivals, room, p, count);
    }
  }

  /** The slots and answers before arrival `k`. */
  ghost predicate Filling(
    slots: seq<Option<Conn>>, arrivals: seq<Arrival>, room: string, p: nat, k: nat, answers: seq<Writing>,
    first: Writing)
  {
    && p < k <= |arrivals| && |slots| > 0 && slots[0].Some?
    && SlotsFit(slots, arrivals, room, p, |slots|) && AnswersFit(answers, room, first, |slots|)
    && SlotsFollow(slots, arrivals, room, p, k)
    && forall j: nat :: p < j < k ==> !StopsAt(arrivals, room, p, j, |slots|)
  }

  /** One arrival is given its slot, turned away, or stops the listener. */
  method TakeArrival(
    arrivals: seq<Arrival>, room: string, p: nat, k: nat, conns: array<Option<Conn>>, answers: seq<Writing>,
    ghost first: Writing)
    returns (stops: bool, takes: bool, all: seq<Writing>)
    requires k < |arrivals| && Filling(conns[..], arrivals, room, p, k, answers, first)
    modifies conns
    ensures conns[0] == old(conns[0]) && AnswersFit(all, room, first, conns.Length)
    ensures stops <==> StopsAt(arrivals, room, p, k, conns.Length)
    ensures stops ==> conns[..] == old(conns[..])
    ensures !stops ==> Filling(conns[..], arrivals, room, p, k + 1, all, first)
    ensures Missing(conns[..]) == old(Missing(conns[..])) - (if takes then 1 else 0)
  {
    var a, count := arrivals[k], conns.Length;
    stops, takes, all := false, false, answers;
    if a.Failure? {
      return true, false, all;
    }
    var index := if a.hello.Some? then a.hello.value.index else 0;
    var asked: Option<int> := None;
    if 0 < index < count {
      asked, all := VerifyAcceptor(a, room, index, count, all);
    }
    forall i | AsksFor(a, room, i, count) ensures i == index && asked == Some(count) {
      AsksForOne(a, room, i, count);
    }
    if asked != Some(count) || conns[index].Some? {
      if a.expired {
        return true, false, all;
      }
    } else {
      Slotted(conns[..], arrivals, room, p, k, index);
      conns[index] := Some(a.conn);
      assert conns[..] == old(conns[..])[index := Some(a.conn)];
      takes := true;
    }
    SlotsFollowOn(old(conns[..]), arrivals, room, p, k, conns[..]);
  }

  /** An arrival that asks for an empty slot gets it. */
  lemma Slotted(slots: seq<Option<Conn>>, arrivals: seq<Arrival>, room: string, p: nat, k: nat, i: nat)
    requires p < k < |arrivals| && AsksFor(arrivals[k], room, i, |slots|) && slots[i].None?
    requires SlotsFit(slots, arrivals, room, p, |slots|) && SlotsFollow(slots, arrivals, room, p, k)
    ensures SlotsFit(slots[i := Some(arrivals[k].conn)], arrivals, room, p, |slots|)
    ensures Missing(slots[i := Some(arrivals[k].conn)]) == Missing(slots) - 1
    ensures !StopsAt(arrivals, room, p, k, |slots|)
  {
    MissingFalls(slots, i, arrivals[k].conn);
    assert Takes(arrivals, room, p, arrivals[k].conn, i, |slots|);
    assert !AskedFor(arrivals, room, p, k, i, |slots|);
  }

  lemma AskedStays(arrivals: seq<Arrival>, room: string, p: nat, m: nat, n: nat, i: int, size: int)
    requires m <= n <= |arrivals|
    ensures AskedFor(arrivals, room, p, m, i, size) ==> AskedFor(arrivals, room, p, n, i, size)
  {
  }

  /** Where the listener stops with a slot still empty, the bundle is never filled. */
  lemma StoppedShort(slots: seq<Option<Conn>>, arrivals: seq<Arrival>, room: string, p: nat, k: nat, size: int)
    requires p < k < |arrivals| && |slots| == size > 0 && SlotsFollow(slots, arrivals, room, p, k)
    requires slots[0].Some? && Missing(slots) > 0 && StopsAt(arrivals, room, p, k, size)
    ensures forall m: nat :: !Fills(arrivals, room, p, size, m)
  {
    var i :| 0 <= i < |slots| && slots[i].None?;
    forall m: nat ensures !Fills(arrivals, room, p, size, m) {
      if m <= k {
        AskedStays(arrivals, room, p, m, k, i, size);
      }
    }
  }

  lemma NeverFilled(slots: seq<Option<Conn>>, arrivals: seq<Arrival>, room: string, p: nat, size: int)
    requires |slots| == size > 0 && p < |arrivals| && SlotsFollow(slots, arrivals, room, p, |arrivals|)
    requires slots[0].Some? && Missing(slots) > 0
    ensures forall m: nat :: !Fills(arrivals, room, p, size, m)
  {
    var i :| 0 <= i < |slots| && slots[i].None?;
    forall m: nat ensures !Fills(arrivals, room, p, size, m) {
      if m <= |arrivals| {
        AskedStays(arrivals, room, p, m, |arrivals|, i, size);
      }
    }
  }

  /** What an accepting side that succeeds has: the size is the smaller request, slot 0 is the primary
      connection, and every other slot is a connection that asked for it. */
  ghost predicate Accepted(arrivals: seq<Arrival>, room: string, requested: int, p: nat, conns: seq<Conn>) {
    && ValidCount(requested) && Comes(arrivals, room, p)
    && |conns| == Min(requested, Answered(arrivals[p], room, 0).value)
    && |conns| > 0 && conns[0] == arrivals[p].conn
    && forall i :: 1 <= i < |conns| ==> Takes(arrivals, room, p, conns[i], i, |conns|)
  }

  /** The connections of a bundle; none may be missing. */
  method MakeBundle(conns: array<Option<Conn>>) returns (r: Result<seq<Conn>, Error>)
    ensures r.Ok? <==> conns.Length > 0 && forall i :: 0 <= i < conns.Length ==> conns[i].Some?
    ensures r.Ok? ==> |r.value| == conns.Length && forall i :: 0 <= i < conns.Length ==> Some(r.value[i]) == conns[i]
  {
    if conns.Length == 0 {
      return Err(NoConnection);
    }
    var channels: seq<Conn> := [];
    for i := 0 to conns.Length
      invariant |channels| == i && forall j :: 0 <= j < i ==> conns[j] == Some(channels[j])
    {
      if conns[i].None? {
        return Err(NoConnection);
      }
      channels := channels + [conns[i].value];
    }
    return Ok(channels);
  }

  /** A bundle comes about: there is a primary connection, and the slots of the size it settles are all asked for. */
  ghost predicate Acceptable(arrivals: seq<Arrival>, room: string, requested: int) {
    && ValidCount(requested)
    && exists p: nat :: Comes(arrivals, room, p) && FillsAfter(arrivals, room, requested, p)
  }

  ghost predicate FillsAfter(arrivals: seq<Arrival>, room: string, requested: int, p: nat)
    requires Comes(arrivals, room, p)
  {
    var size := Min(requested, Answered(arrivals[p], room, 0).value);
    size == 1 || exists m: nat :: Fills(arrivals, room, p, size, m)
  }

  /** `answers` are the hellos this side has written in full. */
  method AcceptBundle(arrivals: seq<Arrival>, room: string, requested: int)
    returns (r: Result<seq<Conn>, Error>, p: nat, answers: seq<Writing>)
    ensures r.Ok? ==> Accepted(arrivals, room, requested, p, r.value)
    ensures r.Ok? <==> Acceptable(arrivals, room, requested)
    ensures r.Ok? ==>
      AnswersFit(answers, room, Writing(arrivals[p].conn, NewHello(room, Sender, 0, requested)), |r.value|)
  {
    p, answers := 0, [];
    if !ValidCount(requested) {
      return Err(NoConnection), p, answers;
    }
    var primary;
    primary, p, answers := AcceptPrimary(arrivals, room, requested);
    if primary.Err? {
      return Err(NoConnection), p, answers;
    }
    ghost var first := Writing(arrivals[p].conn, NewHello(room, Sender, 0, requested));
    var selected := Min(requested, primary.value.1);
    var conns := new Option<Conn>[selected](_ => None);
    conns[0] := Some(primary.value.0);
    if selected > 1 {
      var ok;
      ok, answers := AcceptAuxiliaries(arrivals, room, p, conns, answers, first);
      if !ok {
        return Err(NoConnection), p, answers;
      }
    }
    r := MakeBundle(conns);
  }

  // The dialing side.

  /** A connection attempt: the hello was written if the dial worked, and an answer may have been read. */
  datatype Attempt = Attempt(conn: Conn, dialed: bool, answer: Option<Hello>)

  function Confirmed(a: Attempt, room: string, index: int): Option<int> {
    if a.dialed && a.answer.Some? then CountOf(a.answer.value, room, Sender, index) else None
  }

  /** Writes a hello and reads the answer; the count the answer settles, if it is the one expected. */
  method VerifyDialer(a: Attempt, room: string, index: int, ownCount: int, hellos: seq<Writing>)
    returns (count: Option<int>, more: seq<Writing>)
    ensures count == Confirmed(a, room, index)
    ensures more ==
      if a.dialed then hellos + [Writing(a.conn, NewHello(room, Receiver, index, ownCount))] else hellos
  {
    more := hellos;
    if !a.dialed {
      return None, more;
    }
    more := hellos + [Writing(a.conn, NewHello(room, Receiver, index, ownCount))];
    count := if a.answer.Some? then CountOf(a.answer.value, room, Sender, index) else None;
  }

  /** All candidates are dialed as the primary connection. */
  ghost predicate CandidatesGreeted(hellos: seq<Writing>, room: string, requested: int) {
    forall w :: w in hellos ==> w.hello == NewHello(room, Receiver, 0, requested)
  }

  /** The candidates race; the first attempt that is confirmed is the primary connection. The losers have written
      their hellos as well. */
  method ConnectPrimary(attempts: seq<Attempt>, room: string, requested: int)
    returns (r: Result<(Conn, int), Error>, q: nat, hellos: seq<Writing>)
    ensures r.Ok? ==> q < |attempts| && r.value.0 == attempts[q].conn
    ensures r.Ok? ==> Confirmed(attempts[q], room, 0) == Some(r.value.1)
    ensures r.Ok? ==> forall k :: 0 <= k < q ==> Confirmed(attempts[k], room, 0).None?
    ensures r.Err? ==> forall k :: 0 <= k < |attempts| ==> Confirmed(attempts[k], room, 0).None?
    ensures CandidatesGreeted(hellos, room, requested)
    ensures forall a :: a in attempts && a.dialed ==> Writing(a.conn, NewHello(room, Receiver, 0, requested)) in hellos
  {
    hellos := [];
    var results: seq<Option<int>> := [];
    for n := 0 to |attempts|
      invariant |results| == n && forall k :: 0 <= k < n ==> results[k] == Confirmed(attempts[k], room, 0)
      invariant CandidatesGreeted(hellos, room, requested)
      invariant forall k :: 0 <= k < n && attempts[k].dialed ==>
                  Writing(attempts[k].conn, NewHello(room, Receiver, 0, requested)) in hellos
    {
      var count;
      count, hellos := VerifyDialer(attempts[n], room, 0, requested, hellos);
      results := results + [count];
    }
    q := 0;
    while q < |results|
      invariant q <= |results| && forall k :: 0 <= k < q ==> results[k].None?
    {
      if results[q].Some? {
        return Ok((attempts[q].conn, results[q].value)), q, hellos;
      }
      q := q + 1;
    }
    return Err(NoConnection), q, hellos;
  }

  /** Every auxiliary attempt reports once, in the order in which they finish. */
  ghost predicate OneEach(order: seq<nat>, count: nat) {
    && (forall k :: 0 <= k < |order| ==> 1 <= order[k] < count)
    && (forall i :: 1 <= i < count ==> i in order)
  }

  /** A hello of this size was written on the attempt of its index, or was one of those before. */
  ghost predicate HellosFit(
    hellos: seq<Writing>, before: seq<Writing>, attempts: seq<Attempt>, room: string, size: int)
  {
    forall w :: w in hellos ==> w in before || GreetedAt(w, attempts, room, size)
  }

  ghost predicate GreetedAt(w: Writing, attempts: seq<Attempt>, room: string, size: int) {
    && 1 <= w.hello.index < size && w.hello.index < |attempts|
    && w == Writing(attempts[w.hello.index].conn, NewHello(room, Receiver, w.hello.index, size))
  }

  method ConnectAuxiliaries(
    order: seq<nat>, attempts: seq<Attempt>, room: string, conns: array<Option<Conn>>, before: seq<Writing>)
    returns (ok: bool, hellos: seq<Writing>)
    requires |attempts| == conns.Length >= 1 && OneEach(order, conns.Length)
    modifies conns
    ensures conns[0] == old(conns[0])
    ensures ok <==> forall i :: 1 <= i < conns.Length ==> Confirmed(attempts[i], room, i) == Some(conns.Length)
    ensures ok ==> forall i :: 1 <= i < conns.Length ==> conns[i] == Some(attempts[i].conn)
    ensures HellosFit(hellos, before, attempts, room, conns.Length)
  {
    var count := conns.Length;
    ok, hellos := true, before;
    for n := 0 to |order|
      invariant conns[0] == old(conns[0]) && HellosFit(hellos, before, attempts, room, count)
      invariant !ok ==> exists i :: 1 <= i < count && Confirmed(attempts[i], room, i) != Some(count)
      invariant ok ==> forall k :: 0 <= k < n ==>
        conns[order[k]] == Some(attempts[order[k]].conn) && Confirmed(attempts[order[k]], room, order[k]) == Some(count)
    {
      var index := order[n];
      var settled;
      settled, hellos := VerifyDialer(attempts[index], room, index, count, hellos);
      if settled != Some(count) {
        ok := false;
      } else {
        conns[index] := Some(attempts[index].conn);
      }
    }
    forall i | ok && 1 <= i < count
      ensures conns[i] == Some(attempts[i].conn) && Confirmed(attempts[i], room, i) == Some(count)
    {
      assert i in order;
      var k :| 0 <= k < |order| && order[k] == i;
    }
  }

  ghost predicate FirstConfirmed(candidates: seq<Attempt>, room: string, q: nat) {
    && q < |candidates| && Confirmed(candidates[q], room, 0).Some?
    && forall k :: 0 <= k < q ==> Confirmed(candidates[k], room, 0).None?
  }

  /** A candidate is confirmed, and so is every auxiliary attempt of the size it settles. */
  ghost predicate Dialable(candidates: seq<Attempt>, auxiliaries: seq<Attempt>, room: string, requested: int) {
    && ValidCount(requested) && |auxiliaries| == 8
    && exists q: nat :: FirstConfirmed(candidates, room, q) && AllConfirmed(candidates, auxiliaries, room, requested, q)
  }

  ghost predicate AllConfirmed(
    candidates: seq<Attempt>, auxiliaries: seq<Attempt>, room: string, requested: int, q: nat)
    requires FirstConfirmed(candidates, room, q) && |auxiliaries| == 8 && ValidCount(requested)
  {
    var size := Min(requested, Confirmed(candidates[q], room, 0).value);
    forall i :: 1 <= i < size ==> Confirmed(auxiliaries[i], room, i) == Some(size)
  }

  /** What a dialing side that succeeds has. Attempt 0 of `auxiliaries` is not used. */
  ghost predicate Dialed(
    candidates: seq<Attempt>, auxiliaries: seq<Attempt>, room: string, requested: int, q: nat, conns: seq<Conn>)
  {
    && ValidCount(requested) && FirstConfirmed(candidates, room, q)
    && |conns| == Min(requested, Confirmed(candidates[q], room, 0).value)
    && |conns| > 0 && conns[0] == candidates[q].conn
    && |auxiliaries| >= |conns|
    && forall i :: 1 <= i < |conns| ==>
      conns[i] == auxiliaries[i].conn && Confirmed(auxiliaries[i], room, i) == Some(|conns|)
  }

  lemma FirstIsOne(candidates: seq<Attempt>, room: string, q: nat, n: nat)
    requires FirstConfirmed(candidates, room, q) && FirstConfirmed(candidates, room, n)
    ensures q == n
  {
  }

  /** Whether the bundle comes about is settled by the first confirmed candidate. */
  lemma DialableFrom(candidates: seq<Attempt>, auxiliaries: seq<Attempt>, room: string, requested: int, q: nat)
    requires FirstConfirmed(candidates, room, q) && ValidCount(requested) && |auxiliaries| == 8
    ensures Dialable(candidates, auxiliaries, room, requested) <==>
              AllConfirmed(candidates, auxiliaries, room, requested, q)
  {
    forall n: nat | FirstConfirmed(candidates, room, n) ensures n == q {
      FirstIsOne(candidates, room, q, n);
    }
  }

  /** Every hello the dialing side wrote greets a primary connection or the attempt of an auxiliary one. */
  ghost predicate Greeted(hellos: seq<Writing>, auxiliaries: seq<Attempt>, room: string, requested: int, size: int) {
    forall w :: w in hellos ==>
      w.hello == NewHello(room, Receiver, 0, requested) || GreetedAt(w, auxiliaries, room, size)
  }

  /** Whatever size is settled, the auxiliary attempts report in some order that names each once. `hellos` are
      those this side has written. */
  method ConnectBundle(
    candidates: seq<Attempt>, auxiliaries: seq<Attempt>, orders: seq<seq<nat>>, room: string, requested: int)
    returns (r: Result<seq<Conn>, Error>, q: nat, hellos: seq<Writing>)
    requires |auxiliaries| == 8 && |orders| == 9 && forall n :: 1 <= n <= 8 ==> OneEach(orders[n], n)
    ensures r.Ok? ==> Dialed(candidates, auxiliaries, room, requested, q, r.value)
    ensures r.Ok? <==> Dialable(candidates, auxiliaries, room, requested)
    ensures r.Ok? ==> Greeted(hellos, auxiliaries, room, requested, |r.value|)
  {
    q, hellos := 0, [];
    if !ValidCount(requested) {
      return Err(NoConnection), q, hellos;
    }
    var primary;
    primary, q, hellos := ConnectPrimary(candidates, room, requested);
    if primary.Err? {
      return Err(NoConnection), q, hellos;
    }
    DialableFrom(candidates, auxiliaries, room, requested, q);
    var selected := Min(requested, primary.value.1);
    var conns := new Option<Conn>[selected](_ => None);
    conns[0] := Some(primary.value.0);
    if selected > 1 {
      var ok;
      ok, hellos := ConnectAuxiliaries(orders[selected], auxiliaries[..selected], room, conns, hellos);
      if !ok {
        return Err(NoConnection), q, hellos;
      }
    }
    r := MakeBundle(conns);
  }

  // Both sides.

  /** A connection carries what was written at its other end, and only the two peers know the room. Only the
      answers to the candidates matter. */
  predicate Carried(
    arrivals: seq<Arrival>, answers: seq<Writing>, candidates: seq<Attempt>, hellos: seq<Writing>, room: string)
  {
    && (forall a :: a in arrivals && a.Arrival? && a.hello.Some? && a.hello.value.room == room ==>
          Writing(a.conn, a.hello.value) in hellos)
    && (forall a :: a in candidates && a.answer.Some? ==> Writing(a.conn, a.answer.value) in answers)
  }

  /** If both sides succeed they have bundles of the same size, the smaller of the two requests, and slot by slot
      the two ends of the same connection: the answer to the primary hello was written once, and an auxiliary hello
      of an index is written on one connection. */
  lemma BundlesAgree(
    arrivals: seq<Arrival>, candidates: seq<Attempt>, auxiliaries: seq<Attempt>, answers: seq<Writing>,
    hellos: seq<Writing>, room: string, accepts: int, dials: int, p: nat, q: nat, here: seq<Conn>, there: seq<Conn>)
    requires Accepted(arrivals, room, accepts, p, here)
    requires AnswersFit(answers, room, Writing(arrivals[p].conn, NewHello(room, Sender, 0, accepts)), |here|)
    requires Dialed(candidates, auxiliaries, room, dials, q, there)
    requires Greeted(hellos, auxiliaries, room, dials, |there|)
    requires Carried(arrivals, answers, candidates, hellos, room)
    ensures |here| == |there| == Min(accepts, dials)
    ensures here == there
  {
    var answer := Writing(candidates[q].conn, candidates[q].answer.value);
    assert candidates[q] in candidates && answer in answers && answer.hello.index == 0;
    assert arrivals[p] in arrivals && Writing(arrivals[p].conn, arrivals[p].hello.value) in hellos;
    assert here[0] == there[0];
    forall i | 1 <= i < |here| ensures here[i] == there[i] {
      var k :| p < k < |arrivals| && Answered(arrivals[k], room, i) == Some(|here|) && arrivals[k].conn == here[i];
      assert arrivals[k] in arrivals && arrivals[k].hello.value.index == i;
    }
  }

  /** Both sides run against each other's writings. */
  method Handshake(
    arrivals: seq<Arrival>, candidates: seq<Attempt>, auxiliaries: seq<Attempt>, orders: seq<seq<nat>>, room: string,
    accepts: int, dials: int)
    returns (here: Result<seq<Conn>, Error>, there: Result<seq<Conn>, Error>, carried: bool)
    requires |auxiliaries| == 8 && |orders| == 9 && forall n :: 1 <= n <= 8 ==> OneEach(orders[n], n)
    ensures here.Ok? && there.Ok? && carried ==> here == there && |here.value| == Min(accepts, dials)
  {
    var p, q, answers, hellos;
    here, p, answers := AcceptBundle(arrivals, room, accepts);
    there, q, hellos := ConnectBundle(candidates, auxiliaries, orders, room, dials);
    carried := Carried(arrivals, answers, candidates, hellos, room);
    if here.Ok? && there.Ok? && carried {
      BundlesAgree(
        arrivals, candidates, auxiliaries, answers, hellos, room, accepts, dials, p, q, here.value, there.value);
    }
  }

  /** The handshake can succeed: two connections, asked for by peers that would take two and three. */
  lemma TwoConnections(room: string)
    returns (arrivals: seq<Arrival>, answers: seq<Writing>, candidates: seq<Attempt>, auxiliaries: seq<Attempt>,
             hellos: seq<Writing>)
    ensures Accepted(arrivals, room, 2, 0, [7, 9]) && Dialed(candidates, auxiliaries, room, 3, 0, [7, 9])
    ensures AnswersFit(answers, room, Writing(7, NewHello(room, Sender, 0, 2)), 2)
    ensures Greeted(hellos, auxiliaries, room, 3, 2) && Carried(arrivals, answers, candidates, hellos, room)
  {
    var first := Arrival(7, Some(NewHello(room, Receiver, 0, 3)), true, false);
    var second := Arrival(9, Some(NewHello(room, Receiver, 1, 2)), true, false);
    arrivals := [first, second];
    answers := [Writing(7, NewHello(room, Sender, 0, 2)), Writing(9, NewHello(room, Sender, 1, 2))];
    var primary := Attempt(7, true, Some(NewHello(room, Sender, 0, 2)));
    candidates := [primary];
    auxiliaries := [primary, Attempt(9, true, Some(NewHello(room, Sender, 1, 2)))];
    hellos := [Writing(7, first.hello.value), Writing(9, second.hello.value)];
    assert arrivals[1] == second && Takes(arrivals, room, 0, 9, 1, 2);
  }
}
