/** Putting numbered frames back in order, whatever channel and order they arrive in. */
module Reordering {

  /** A frame with what the transport read from it: a message of route selection, a frame outside
      the numbered stream such as the opening hello, or frame `number` of the stream. */
  datatype Item<F> = Control(frame: F) | Loose(frame: F) | Numbered(number: nat, frame: F)

  /** The items delivered so far, the items that came early, and the number awaited. */
  datatype Reorder<F> = Reorder(delivered: seq<Item<F>>, pending: map<nat, Item<F>>, next: nat, closed: bool)

  function Empty<F>(): Reorder<F> {
    Reorder([], map[], 0, false)
  }

  function Deliver<F>(r: Reorder<F>): Reorder<F>
    requires r.next in r.pending
  {
    r.(delivered := r.delivered + [r.pending[r.next]], pending := r.pending - {r.next}, next := r.next + 1)
  }

  function Drain<F>(r: Reorder<F>): Reorder<F>
    decreases |r.pending|
  {
    if r.next !in r.pending then r
    else
      Shrinks(r.pending, r.next);
      Drain(Deliver(r))
  }

  lemma Shrinks<F>(m: map<nat, Item<F>>, k: nat)
    requires k in m
    ensures |m - {k}| < |m|
  {
    assert (m - {k}).Keys == m.Keys - {k};
    assert |(m - {k}).Keys| == |m.Keys| - 1;
  }

  function Arrive<F>(r: Reorder<F>, x: Item<F>): Reorder<F> {
    if r.closed || x.Control? then r
    else if x.Loose? then r.(delivered := r.delivered + [x])
    else if x.number < r.next || x.number in r.pending then r.(closed := true)
    else Drain(r.(pending := r.pending[x.number := x]))
  }

  function ArriveAll<F>(r: Reorder<F>, xs: seq<Item<F>>): Reorder<F> {
    if xs == [] then r else Arrive(ArriveAll(r, xs[..|xs| - 1]), xs[|xs| - 1])
  }

  function OnlyNumbered<F>(xs: seq<Item<F>>): seq<Item<F>> {
    if xs == [] then []
    else OnlyNumbered(xs[..|xs| - 1]) + (if xs[|xs| - 1].Numbered? then [xs[|xs| - 1]] else [])
  }

  function OnlyLoose<F>(xs: seq<Item<F>>): seq<Item<F>> {
    if xs == [] then []
    else OnlyLoose(xs[..|xs| - 1]) + (if xs[|xs| - 1].Loose? then [xs[|xs| - 1]] else [])
  }

  function WithoutControl<F>(xs: seq<Item<F>>): seq<Item<F>> {
    if xs == [] then []
    else WithoutControl(xs[..|xs| - 1]) + (if xs[|xs| - 1].Control? then [] else [xs[|xs| - 1]])
  }

  ghost predicate Repeat<F>(xs: seq<Item<F>>, i: int, j: int) {
    0 <= i < j < |xs| && xs[i].Numbered? && xs[j].Numbered? && xs[i].number == xs[j].number
  }

  ghost predicate NoRepeats<F>(xs: seq<Item<F>>) {
    forall i, j :: !Repeat(xs, i, j)
  }

  ghost predicate Arrived<F>(xs: seq<Item<F>>, n: nat, x: Item<F>) {
    x in xs && x.Numbered? && x.number == n
  }

  /** The items numbered 0, 1, ... `next - 1` have been delivered in that order; the other numbered
      items that arrived are pending, and nothing else is. */
  ghost predicate Ordered<F>(xs: seq<Item<F>>, r: Reorder<F>) {
    && |OnlyNumbered(r.delivered)| == r.next
    && (forall n :: 0 <= n < r.next ==> Arrived(xs, n, OnlyNumbered(r.delivered)[n]))
    && (forall n :: n in r.pending ==> n >= r.next && Arrived(xs, n, r.pending[n]))
    && (forall x :: x in xs && x.Numbered? ==> x.number < r.next || x.number in r.pending)
    && OnlyLoose(r.delivered) == OnlyLoose(xs)
    && (forall x :: x in r.delivered ==> !x.Control?)
  }

  lemma DeliverOrders<F>(xs: seq<Item<F>>, r: Reorder<F>)
    requires Ordered(xs, r) && r.next in r.pending
    ensures Ordered(xs, Deliver(r))
  {
    var q := Deliver(r);
    assert q.delivered[..|q.delivered| - 1] == r.delivered;
    assert Arrived(xs, r.next, r.pending[r.next]);
  }

  lemma {:induction false} DrainOrders<F>(xs: seq<Item<F>>, r: Reorder<F>)
    requires Ordered(xs, r) && !r.closed
    ensures Ordered(xs, Drain(r)) && Drain(r).next !in Drain(r).pending && !Drain(r).closed
    decreases |r.pending|
  {
    if r.next in r.pending {
      Shrinks(r.pending, r.next);
      DeliverOrders(xs, r);
      DrainOrders(xs, Deliver(r));
    }
  }

  lemma OneMoreArrives<F>(before: seq<Item<F>>, x: Item<F>, r: Reorder<F>)
    requires !r.closed && Ordered(before, r) && r.next !in r.pending
    requires x.Numbered? ==> x.number >= r.next && x.number !in r.pending
    ensures
      var q := Arrive(r, x);
      !q.closed && Ordered(before + [x], q) && q.next !in q.pending
  {
    var xs := before + [x];
    assert xs[..|before|] == before;
    match x
    case Control(_) =>
    case Loose(_) =>
      assert (r.delivered + [x])[..|r.delivered|] == r.delivered;
    case Numbered(n, _) =>
      DrainOrders(xs, r.(pending := r.pending[n := x]));
  }

  /** A number is new exactly when it is neither delivered nor pending. */
  lemma NewNumber<F>(before: seq<Item<F>>, x: Item<F>, r: Reorder<F>)
    requires Ordered(before, r) && x.Numbered?
    ensures x.number < r.next || x.number in r.pending <==>
              exists i :: 0 <= i < |before| && Repeat(before + [x], i, |before|)
  {
    var xs := before + [x];
    var n := x.number;
    if n < r.next || n in r.pending {
      var y := if n < r.next then OnlyNumbered(r.delivered)[n] else r.pending[n];
      assert Arrived(before, n, y);
      var i :| 0 <= i < |before| && before[i] == y;
      assert Repeat(xs, i, |before|);
    } else {
      forall i | 0 <= i < |before| ensures !Repeat(xs, i, |before|) {
        assert before[i] in before;
      }
    }
  }

  lemma {:induction false} ReorderingIsComplete<F>(xs: seq<Item<F>>)
    requires NoRepeats(xs)
    ensures
      var r := ArriveAll(Empty(), xs);
      !r.closed && Ordered(xs, r) && r.next !in r.pending
  {
    if xs != [] {
      var before := xs[..|xs| - 1];
      var x := xs[|xs| - 1];
      assert xs == before + [x];
      forall i, j ensures !Repeat(before, i, j) {
        assert !Repeat(xs, i, j);
      }
      ReorderingIsComplete(before);
      var r := ArriveAll(Empty(), before);
      if x.Numbered? {
        NewNumber(before, x, r);
      }
      OneMoreArrives(before, x, r);
    }
  }

  /** The transport fails exactly when some number arrives twice. */
  lemma {:induction false} ClosesOnRepeat<F>(xs: seq<Item<F>>)
    ensures ArriveAll(Empty(), xs).closed <==> !NoRepeats(xs)
  {
    if NoRepeats(xs) {
      ReorderingIsComplete(xs);
    } else {
      var before := xs[..|xs| - 1];
      assert xs == before + [xs[|xs| - 1]];
      ClosesOnRepeat(before);
      if NoRepeats(before) {
        ReorderingIsComplete(before);
        var i, j :| Repeat(xs, i, j);
        assert !Repeat(before, i, j);
        NewNumber(before, xs[|xs| - 1], ArriveAll(Empty(), before));
      }
    }
  }

  // The handover from route selection.

  lemma {:induction false} ArriveAppend<F>(r: Reorder<F>, a: seq<Item<F>>, b: seq<Item<F>>)
    ensures ArriveAll(r, a + b) == ArriveAll(ArriveAll(r, a), b)
  {
    if b == [] {
      assert a + b == a;
    } else {
      ArriveAppend(r, a, b[..|b| - 1]);
      assert (a + b)[..|a + b| - 1] == a + b[..|b| - 1];
    }
  }

  lemma {:induction false} ControlHasNoEffect<F>(r: Reorder<F>, xs: seq<Item<F>>)
    ensures ArriveAll(r, WithoutControl(xs)) == ArriveAll(r, xs)
  {
    if xs != [] {
      var before := xs[..|xs| - 1];
      ControlHasNoEffect(r, before);
      if !xs[|xs| - 1].Control? {
        assert WithoutControl(xs)[..|WithoutControl(xs)| - 1] == WithoutControl(before);
      } else {
        assert WithoutControl(xs) == WithoutControl(before);
      }
    }
  }

  /** Frames that came before the handover were set aside without the route messages among them;
      the stream is the one that would have resulted had the transport been there from the start. */
  lemma HandoverLosesNothing<F>(early: seq<Item<F>>, late: seq<Item<F>>)
    ensures ArriveAll(ArriveAll(Empty(), WithoutControl(early)), late) == ArriveAll(Empty(), early + late)
  {
    ControlHasNoEffect(Empty<F>(), early);
    ArriveAppend(Empty<F>(), early, late);
  }

  // One first-in first-out stream.

  /** The stream as it was sent: frame `n` carries number `n`. */
  function Stream<F>(sent: seq<F>): (xs: seq<Item<F>>)
    ensures |xs| == |sent| && forall n :: 0 <= n < |sent| ==> xs[n] == Numbered(n, sent[n])
  {
    seq(|sent|, n requires 0 <= n < |sent| => Numbered(n, sent[n]))
  }

  /** Everything that arrived is route control or one of the frames sent. */
  ghost predicate FromStream<F>(sent: seq<F>, xs: seq<Item<F>>) {
    forall x :: x in xs ==> x.Control? || x in Stream(sent)
  }

  lemma {:induction false} NothingLoose<F>(xs: seq<Item<F>>)
    requires forall x :: x in xs ==> !x.Loose?
    ensures OnlyLoose(xs) == []
  {
    if xs != [] {
      NothingLoose(xs[..|xs| - 1]);
    }
  }

  lemma {:induction false} AllNumbered<F>(xs: seq<Item<F>>)
    requires OnlyLoose(xs) == [] && forall x :: x in xs ==> !x.Control?
    ensures OnlyNumbered(xs) == xs
  {
    if xs != [] {
      AllNumbered(xs[..|xs| - 1]);
    }
  }

  lemma OrderedStream<F>(sent: seq<F>, xs: seq<Item<F>>, r: Reorder<F>)
    requires FromStream(sent, xs) && Ordered(xs, r) && r.next !in r.pending
    ensures r.next <= |sent| && r.delivered == Stream(sent)[..r.next]
    ensures r.next < |sent| ==> Stream(sent)[r.next] !in xs
    ensures forall n :: n in r.pending ==> r.next < n < |sent| && r.pending[n] == Stream(sent)[n]
  {
    NothingLoose(xs);
    AllNumbered(r.delivered);
    forall n | 0 <= n < r.next ensures n < |sent| && r.delivered[n] == Stream(sent)[n] {
      assert Arrived(xs, n, r.delivered[n]);
    }
    forall n | n in r.pending ensures r.next < n < |sent| && r.pending[n] == Stream(sent)[n] {
      assert Arrived(xs, n, r.pending[n]);
    }
  }

  /** Delivery refines one queue: at every moment the items handed out are the first `k` frames
      sent, in order, where `k` is the first that has not arrived. */
  lemma DeliversPrefix<F>(sent: seq<F>, xs: seq<Item<F>>)
    requires FromStream(sent, xs) && NoRepeats(xs)
    ensures
      var r := ArriveAll(Empty(), xs);
      && !r.closed && r.next <= |sent|
      && r.delivered == Stream(sent)[..r.next]
      && (r.next < |sent| ==> Stream(sent)[r.next] !in xs)
      && (forall n :: n in r.pending ==> r.next < n < |sent| && r.pending[n] == Stream(sent)[n])
  {
    ReorderingIsComplete(xs);
    OrderedStream(sent, xs, ArriveAll(Empty(), xs));
  }

  /** Once every frame sent has arrived, all have been delivered and nothing is pending. */
  lemma DeliversAll<F>(sent: seq<F>, xs: seq<Item<F>>)
    requires FromStream(sent, xs) && NoRepeats(xs)
    requires forall x :: x in Stream(sent) ==> x in xs
    ensures ArriveAll(Empty(), xs) == Reorder(Stream(sent), map[], |sent|, false)
  {
    DeliversPrefix(sent, xs);
    var r := ArriveAll(Empty(), xs);
    assert r.pending.Keys == {};
    assert r.pending == map[];
  }
}
