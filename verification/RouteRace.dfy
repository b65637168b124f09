/** The race between the direct and the relayed route of one connection.

    Each peer tries both routes. The sending peer commits to one route and confirms it when the
    receiving peer has acknowledged; the receiving peer takes the route it gets a confirmation on.
    The code between two awaits is one event here, timers fire at any moment, and a message that was
    put on a channel may arrive late, repeatedly, out of order or not at all. */
module RouteRace {
  import opened Wrappers
  import Transport

  datatype Mode = Direct | Relay

  datatype Kind = Commit | Ack | Confirm

  datatype Message = Message(kind: Kind, mode: Mode)

  datatype Role = Sender | Receiver

  datatype Status = Absent | Connecting | Ready | Failed

  /** What a route is waiting for: nothing, a message of some kind, a message that has come and is
      about to be looked at, or a wait that was rejected by a timeout or a cancellation. */
  datatype Wait = Idle | Waiting(kind: Kind) | Resolved(message: Message) | Broken

  /** One route of one peer. `candidate` stays set after a failure; a cancelled route has its
      connection closed, so nothing can be sent on it any more. */
  datatype Route = Route(
    status: Status, candidate: bool, canceled: bool, backlog: seq<Message>, wait: Wait, acked: bool)

  type Routes = rs: map<Mode, Route> | Direct in rs && Relay in rs
    witness map[Direct := NO_ROUTE, Relay := NO_ROUTE]

  const NO_ROUTE := Route(Absent, false, false, [], Idle, false)

  /** `committing` is the flag and `commitMode` the route of the pending commit call; `puts` are the
      messages put on each route's channel so far; `finishes` the routes the race was resolved with. */
  datatype Peer = Peer(
    role: Role, routes: Routes, settled: bool, committing: bool, commitMode: Option<Mode>,
    preferTimer: bool, relayTimer: bool, puts: set<(Mode, Message)>, finishes: seq<Mode>)

  datatype System = System(sender: Peer, receiver: Peer)

  // Updates of one peer.

  function RouteOf(p: Peer, m: Mode): (r: Route)
    ensures m in p.routes && r == p.routes[m]
  {
    assert m.Direct? || m.Relay?;
    p.routes[m]
  }

  function WithRoute(p: Peer, m: Mode, r: Route): Peer {
    p.(routes := p.routes[m := r])
  }

  function Started(p: Peer, m: Mode): Peer {
    if p.settled || RouteOf(p, m).status != Absent then p
    else WithRoute(p, m, RouteOf(p, m).(status := Connecting))
  }

  function Fresh(role: Role): Peer {
    Started(Peer(role, map[Direct := NO_ROUTE, Relay := NO_ROUTE], false, false, None, false, true, {}, []), Direct)
  }

  function Canceled(r: Route): Route {
    r.(canceled := true, backlog := [], wait := if r.wait.Waiting? then Broken else r.wait)
  }

  function Put(p: Peer, m: Mode, k: Kind): Peer {
    p.(puts := p.puts + {(m, Message(k, m))})
  }

  /** The position of the first backlog message of a kind, or the backlog's length. */
  function Find(backlog: seq<Message>, k: Kind): (i: nat)
    ensures i <= |backlog| && (i < |backlog| ==> backlog[i].kind == k)
  {
    if backlog == [] || backlog[0].kind == k then 0 else 1 + Find(backlog[1..], k)
  }

  function Await(r: Route, k: Kind): Route {
    var i := Find(r.backlog, k);
    if i < |r.backlog| then r.(backlog := r.backlog[..i] + r.backlog[i + 1..], wait := Resolved(r.backlog[i]))
    else r.(wait := Waiting(k))
  }

  function Finish(p: Peer, m: Mode): Peer {
    if p.settled then p
    else
      var loser := if m == Direct then Relay else Direct;
      var q := p.(settled := true, preferTimer := false, relayTimer := false, finishes := p.finishes + [m]);
      if RouteOf(q, loser).status == Absent then q else WithRoute(q, loser, Canceled(RouteOf(q, loser)))
  }

  function FailRace(p: Peer): Peer {
    if p.settled || RouteOf(p, Direct).status != Failed || RouteOf(p, Relay).status != Failed then p
    else p.(settled := true, preferTimer := false, relayTimer := false)
  }

  function Rank(m: Mode): nat {
    if m == Direct then 1 else 0
  }

  /** `sends(m)` tells whether a send on an open route `m` goes through. */
  function CommitTo(p: Peer, m: Mode, sends: Mode -> bool): Peer
    decreases Rank(m), 1
  {
    if p.settled || p.committing then p
    else if sends(m) && !RouteOf(p, m).canceled then
      var q := Put(p.(committing := true, commitMode := Some(m)), m, Commit);
      WithRoute(q, m, Await(RouteOf(q, m), Ack))
    else Fail(p, m, sends)
  }

  function Fail(p: Peer, m: Mode, sends: Mode -> bool): Peer
    decreases Rank(m), 0
  {
    if p.settled || RouteOf(p, m).status == Absent || RouteOf(p, m).status == Failed then p
    else
      var q := WithRoute(p, m, Canceled(RouteOf(p, m)).(status := Failed));
      if m == Relay then FailRace(q)
      else
        var started := Started(q, Relay);
        var commits := RouteOf(started, Relay).candidate && p.role == Sender;
        FailRace(if commits then CommitTo(started, Relay, sends) else started)
  }

  /** The connection of a route has opened. */
  function Open(p: Peer, m: Mode, sends: Mode -> bool): Peer {
    if RouteOf(p, m).status != Connecting || p.settled then p
    else
      var q := WithRoute(p, m, RouteOf(p, m).(status := Ready, candidate := true));
      if p.role == Receiver then WithRoute(q, m, Await(RouteOf(q, m), Commit))
      else if m == Direct || RouteOf(q, Direct).status == Failed then CommitTo(q, m, sends)
      else q.(preferTimer := true)
  }

  /** The pending commit call of the sender goes on. */
  function ResumeSender(p: Peer, m: Mode, sends: Mode -> bool): Peer {
    var r := RouteOf(p, m);
    var idle := WithRoute(p, m, r.(wait := Idle)).(commitMode := None);
    if p.commitMode != Some(m) then p
    else if r.wait.Resolved? && r.wait.message.mode == m && sends(m) && !r.canceled then
      Finish(Put(idle, m, Confirm), m)
    else if r.wait.Resolved? || r.wait.Broken? then Fail(idle.(committing := false), m, sends)
    else p
  }

  /** The receiver's chain on a route goes on: `acked` tells which of its two waits is over. */
  function ResumeReceiver(p: Peer, m: Mode, sends: Mode -> bool): Peer {
    var r := RouteOf(p, m);
    var idle := WithRoute(p, m, r.(wait := Idle));
    if r.wait.Broken? then Fail(idle, m, sends)
    else if !r.wait.Resolved? then p
    else if p.settled then idle
    else if r.wait.message.mode != m then Fail(idle, m, sends)
    else if r.acked then Finish(idle, m)
    else if sends(m) && !r.canceled then
      WithRoute(Put(idle, m, Ack), m, Await(r.(wait := Idle, acked := true), Confirm))
    else Fail(idle, m, sends)
  }

  function Deliver(p: Peer, m: Mode, x: Message): Peer {
    var r := RouteOf(p, m);
    if r.status == Absent then p
    else if r.wait == Waiting(x.kind) then WithRoute(p, m, r.(wait := Resolved(x)))
    else WithRoute(p, m, r.(backlog := r.backlog + [x]))
  }

  // Events.

  /** What can happen at one peer. */
  datatype Event =
    | Opens(mode: Mode, sends: Mode -> bool)
    | ConnectFails(mode: Mode, sends: Mode -> bool)
    | RelayTimer
    | PreferTimer(sends: Mode -> bool)
    | Resumes(mode: Mode, sends: Mode -> bool)
    | TimesOut(mode: Mode)
    | IsCanceled
    | Delivers(mode: Mode, message: Message)

  /** A delivered message was put on that route's channel by the other peer. */
  function Happen(p: Peer, other: Peer, e: Event): Peer {
    match e
    case Opens(m, sends) => Open(p, m, sends)
    case ConnectFails(m, sends) => if RouteOf(p, m).status == Connecting then Fail(p, m, sends) else p
    case RelayTimer => if p.relayTimer then Started(p.(relayTimer := false), Relay) else p
    case PreferTimer(sends) =>
      if p.preferTimer && p.role == Sender
      then CommitTo(p.(preferTimer := false), if RouteOf(p, Direct).candidate then Direct else Relay, sends)
      else p
    case Resumes(m, sends) => if p.role == Sender then ResumeSender(p, m, sends) else ResumeReceiver(p, m, sends)
    case TimesOut(m) =>
      if RouteOf(p, m).wait.Waiting? then WithRoute(p, m, RouteOf(p, m).(wait := Broken)) else p
    case IsCanceled =>
      var q := WithRoute(p, Direct, Canceled(RouteOf(p, Direct)));
      if RouteOf(q, Relay).status == Absent then q else WithRoute(q, Relay, Canceled(RouteOf(q, Relay)))
    case Delivers(m, x) => if (m, x) in other.puts then Deliver(p, m, x) else p
  }

  datatype Step = Step(at: Role, event: Event)

  function Next(s: System, t: Step): System {
    if t.at == Sender then s.(sender := Happen(s.sender, s.receiver, t.event))
    else s.(receiver := Happen(s.receiver, s.sender, t.event))
  }

  function Run(steps: seq<Step>): System {
    if steps == [] then System(Fresh(Sender), Fresh(Receiver))
    else Next(Run(steps[..|steps| - 1]), steps[|steps| - 1])
  }

  // What every peer keeps.

  /** A route holds only messages that were put on it. The first answer a receiver can take for a
      confirmation is one, since it waits for nothing else once it has acknowledged. */
  ghost predicate RouteOk(role: Role, r: Route, m: Mode, puts: set<(Mode, Message)>) {
    && (forall x :: x in r.backlog ==> (m, x) in puts)
    && (r.wait.Resolved? ==> (m, r.wait.message) in puts)
    && (r.status == Failed ==> r.canceled)
    && (role == Receiver && (r.acked || r.wait != Idle) ==> r.status == Ready || r.status == Failed)
    && (role == Receiver && r.acked ==>
        && (r.wait.Waiting? ==> r.wait.kind == Confirm)
        && (r.wait.Resolved? ==> r.wait.message.kind == Confirm))
  }

  /** The race is decided at most once; every message names the route it travels on and is one that
      this role sends; a sender has confirmed exactly the route it finished on, and has no commit left
      open once it has finished. */
  ghost predicate DecisionOk(p: Peer) {
    && |p.finishes| <= 1 && (p.finishes != [] ==> p.settled)
    && (forall m, x :: (m, x) in p.puts ==> x.mode == m && (x.kind == Ack <==> p.role == Receiver))
    && (p.role == Sender ==>
        && (p.commitMode.Some? ==> p.committing)
        && (p.finishes != [] ==> p.committing && p.commitMode == None)
        && (forall m :: (m, Message(Confirm, m)) in p.puts <==> p.finishes == [m]))
  }

  ghost predicate PeerOk(p: Peer, puts: set<(Mode, Message)>) {
    && DecisionOk(p)
    && (forall m :: m in p.routes ==> RouteOk(p.role, p.routes[m], m, puts))
    && (p.settled && p.finishes == [] ==> RouteOf(p, Direct).canceled && RouteOf(p, Relay).canceled)
  }

  /** What an event never takes back. */
  ghost predicate Grows(p: Peer, q: Peer) {
    q.role == p.role && p.puts <= q.puts && p.finishes <= q.finishes
  }

  lemma ReplaceKeeps(p: Peer, m: Mode, r: Route, puts: set<(Mode, Message)>)
    requires PeerOk(p, puts) && RouteOk(p.role, r, m, puts)
    requires RouteOf(p, m).canceled ==> r.canceled
    ensures PeerOk(WithRoute(p, m, r), puts) && Grows(p, WithRoute(p, m, r))
  {
  }

  lemma AwaitKeeps(role: Role, r: Route, k: Kind, m: Mode, puts: set<(Mode, Message)>)
    requires RouteOk(role, r, m, puts)
    requires role == Receiver ==> (r.acked ==> k == Confirm) && (r.status == Ready || r.status == Failed)
    ensures RouteOk(role, Await(r, k), m, puts) && Await(r, k).canceled == r.canceled
  {
    var i := Find(r.backlog, k);
    if i < |r.backlog| {
      assert forall x :: x in r.backlog[..i] + r.backlog[i + 1..] ==> x in r.backlog;
      assert r.backlog[i] in r.backlog;
    }
  }

  lemma PutKeeps(p: Peer, m: Mode, k: Kind, puts: set<(Mode, Message)>)
    requires PeerOk(p, puts) && k != Confirm && (k == Ack <==> p.role == Receiver)
    ensures PeerOk(Put(p, m, k), puts) && Grows(p, Put(p, m, k))
  {
  }

  lemma StartedKeeps(p: Peer, m: Mode, puts: set<(Mode, Message)>)
    requires PeerOk(p, puts)
    ensures PeerOk(Started(p, m), puts) && Grows(p, Started(p, m))
  {
  }

  lemma FailRaceKeeps(p: Peer, puts: set<(Mode, Message)>)
    requires PeerOk(p, puts)
    ensures PeerOk(FailRace(p), puts) && Grows(p, FailRace(p))
  {
  }

  lemma FailKeeps(p: Peer, m: Mode, sends: Mode -> bool, puts: set<(Mode, Message)>)
    requires PeerOk(p, puts)
    ensures PeerOk(Fail(p, m, sends), puts) && Grows(p, Fail(p, m, sends))
    ensures Fail(p, m, sends).finishes == p.finishes
    decreases Rank(m), 0
  {
    if !(p.settled || RouteOf(p, m).status == Absent || RouteOf(p, m).status == Failed) {
      var r := Canceled(RouteOf(p, m)).(status := Failed);
      var q := WithRoute(p, m, r);
      ReplaceKeeps(p, m, r, puts);
      if m == Relay {
        FailRaceKeeps(q, puts);
      } else {
        var started := Started(q, Relay);
        StartedKeeps(q, Relay, puts);
        if RouteOf(started, Relay).candidate && p.role == Sender {
          CommitKeeps(started, Relay, sends, puts);
          FailRaceKeeps(CommitTo(started, Relay, sends), puts);
        } else {
          FailRaceKeeps(started, puts);
        }
      }
    }
  }

  lemma CommitKeeps(p: Peer, m: Mode, sends: Mode -> bool, puts: set<(Mode, Message)>)
    requires PeerOk(p, puts) && p.role == Sender
    ensures PeerOk(CommitTo(p, m, sends), puts) && Grows(p, CommitTo(p, m, sends))
    ensures CommitTo(p, m, sends).finishes == p.finishes
    decreases Rank(m), 1
  {
    if p.settled || p.committing {
    } else if sends(m) && !RouteOf(p, m).canceled {
      var q := p.(committing := true, commitMode := Some(m));
      PutKeeps(q, m, Commit, puts);
      AwaitKeeps(p.role, RouteOf(q, m), Ack, m, puts);
      ReplaceKeeps(Put(q, m, Commit), m, Await(RouteOf(q, m), Ack), puts);
    } else {
      FailKeeps(p, m, sends, puts);
    }
  }

  lemma OpenKeeps(p: Peer, m: Mode, sends: Mode -> bool, puts: set<(Mode, Message)>)
    requires PeerOk(p, puts)
    ensures PeerOk(Open(p, m, sends), puts) && Grows(p, Open(p, m, sends))
    ensures Open(p, m, sends).finishes == p.finishes
  {
    if RouteOf(p, m).status == Connecting && !p.settled {
      var r := RouteOf(p, m).(status := Ready, candidate := true);
      var q := WithRoute(p, m, r);
      ReplaceKeeps(p, m, r, puts);
      if p.role == Receiver {
        AwaitKeeps(p.role, r, Commit, m, puts);
        ReplaceKeeps(q, m, Await(r, Commit), puts);
      } else if m == Direct || RouteOf(q, Direct).status == Failed {
        CommitKeeps(q, m, sends, puts);
      }
    }
  }

  lemma ConfirmAndFinish(p: Peer, m: Mode, puts: set<(Mode, Message)>)
    requires PeerOk(p, puts) && p.role == Sender && !p.settled && p.committing && p.commitMode == None
    ensures PeerOk(Finish(Put(p, m, Confirm), m), puts) && Grows(p, Finish(Put(p, m, Confirm), m))
  {
    var q := p.(settled := true, preferTimer := false, relayTimer := false, finishes := [m],
                puts := p.puts + {(m, Message(Confirm, m))});
    assert PeerOk(q, puts);
    var loser := if m == Direct then Relay else Direct;
    ReplaceKeeps(q, loser, Canceled(RouteOf(q, loser)), puts);
    assert p.finishes + [m] == [m];
  }

  lemma ReceiverFinishes(p: Peer, m: Mode, puts: set<(Mode, Message)>)
    requires PeerOk(p, puts) && p.role == Receiver && !p.settled
    ensures PeerOk(Finish(p, m), puts) && Grows(p, Finish(p, m)) && Finish(p, m).finishes == [m]
  {
    var q := p.(settled := true, preferTimer := false, relayTimer := false, finishes := [m]);
    assert PeerOk(q, puts);
    var loser := if m == Direct then Relay else Direct;
    ReplaceKeeps(q, loser, Canceled(RouteOf(q, loser)), puts);
    assert p.finishes + [m] == [m];
  }

  /** A sender that confirms a route finishes on it in the same breath: nothing can have settled
      the race while a commit on an open route was pending. */
  lemma ResumeSenderKeeps(p: Peer, m: Mode, sends: Mode -> bool, puts: set<(Mode, Message)>)
    requires PeerOk(p, puts) && p.role == Sender
    ensures PeerOk(ResumeSender(p, m, sends), puts) && Grows(p, ResumeSender(p, m, sends))
  {
    if p.commitMode == Some(m) {
      var r := RouteOf(p, m);
      ReplaceKeeps(p, m, r.(wait := Idle), puts);
      var idle := WithRoute(p, m, r.(wait := Idle)).(commitMode := None);
      if r.wait.Resolved? && r.wait.message.mode == m && sends(m) && !r.canceled {
        ConfirmAndFinish(idle, m, puts);
      } else if r.wait.Resolved? || r.wait.Broken? {
        FailKeeps(idle.(committing := false), m, sends, puts);
      }
    }
  }

  lemma ResumeReceiverKeeps(p: Peer, m: Mode, sends: Mode -> bool, puts: set<(Mode, Message)>)
    requires PeerOk(p, puts) && p.role == Receiver
    ensures PeerOk(ResumeReceiver(p, m, sends), puts) && Grows(p, ResumeReceiver(p, m, sends))
    ensures ResumeReceiver(p, m, sends).finishes != p.finishes ==>
              p.finishes == [] && ResumeReceiver(p, m, sends).finishes == [m] && (m, Message(Confirm, m)) in puts
  {
    var r := RouteOf(p, m);
    var idle := WithRoute(p, m, r.(wait := Idle));
    ReplaceKeeps(p, m, r.(wait := Idle), puts);
    if r.wait.Broken? {
      FailKeeps(idle, m, sends, puts);
    } else if r.wait.Resolved? && !p.settled {
      if r.wait.message.mode != m {
        FailKeeps(idle, m, sends, puts);
      } else if r.acked {
        ReceiverFinishes(idle, m, puts);
      } else if sends(m) && !r.canceled {
        PutKeeps(idle, m, Ack, puts);
        AwaitKeeps(p.role, r.(wait := Idle, acked := true), Confirm, m, puts);
        ReplaceKeeps(Put(idle, m, Ack), m, Await(r.(wait := Idle, acked := true), Confirm), puts);
      } else {
        FailKeeps(idle, m, sends, puts);
      }
    }
  }

  lemma DeliverKeeps(p: Peer, m: Mode, x: Message, puts: set<(Mode, Message)>)
    requires PeerOk(p, puts) && (m, x) in puts
    ensures PeerOk(Deliver(p, m, x), puts) && Grows(p, Deliver(p, m, x))
    ensures Deliver(p, m, x).finishes == p.finishes
  {
    var r := RouteOf(p, m);
    var heard := if r.wait == Waiting(x.kind) then r.(wait := Resolved(x)) else r.(backlog := r.backlog + [x]);
    if r.status != Absent {
      HearKeeps(p.role, r, x, m, puts);
      ReplaceKeeps(p, m, heard, puts);
    }
  }

  lemma HearKeeps(role: Role, r: Route, x: Message, m: Mode, puts: set<(Mode, Message)>)
    requires RouteOk(role, r, m, puts) && (m, x) in puts
    ensures r.wait == Waiting(x.kind) ==> RouteOk(role, r.(wait := Resolved(x)), m, puts)
    ensures RouteOk(role, r.(backlog := r.backlog + [x]), m, puts)
  {
  }

  lemma CancelKeeps(p: Peer, m: Mode, puts: set<(Mode, Message)>)
    requires PeerOk(p, puts)
    ensures PeerOk(WithRoute(p, m, Canceled(RouteOf(p, m))), puts)
  {
    ReplaceKeeps(p, m, Canceled(RouteOf(p, m)), puts);
  }

  /** What an event leaves in order, and when a receiver may finish. */
  ghost predicate Kept(p: Peer, q: Peer, puts: set<(Mode, Message)>) {
    && PeerOk(q, puts) && Grows(p, q)
    && (p.role == Receiver && q.finishes != p.finishes ==>
        exists m :: q.finishes == [m] && (m, Message(Confirm, m)) in puts)
  }

  lemma ConnectionEventsKeep(p: Peer, other: Peer, e: Event)
    requires PeerOk(p, other.puts) && (e.Opens? || e.ConnectFails? || e.Delivers?)
    ensures Kept(p, Happen(p, other, e), other.puts)
  {
    match e
    case Opens(m, sends) => OpenKeeps(p, m, sends, other.puts);
    case ConnectFails(m, sends) => FailKeeps(p, m, sends, other.puts);
    case Delivers(m, x) =>
      if (m, x) in other.puts {
        DeliverKeeps(p, m, x, other.puts);
      }
  }

  lemma TimersKeep(p: Peer, other: Peer, e: Event)
    requires PeerOk(p, other.puts) && (e.RelayTimer? || e.PreferTimer? || e.TimesOut? || e.IsCanceled?)
    ensures Kept(p, Happen(p, other, e), other.puts)
  {
    var puts := other.puts;
    match e
    case RelayTimer => StartedKeeps(p.(relayTimer := false), Relay, puts);
    case PreferTimer(sends) =>
      if p.preferTimer && p.role == Sender {
        CommitKeeps(p.(preferTimer := false), if RouteOf(p, Direct).candidate then Direct else Relay, sends, puts);
      }
    case TimesOut(m) =>
      var wait := RouteOf(p, m).wait;
      ReplaceKeeps(p, m, RouteOf(p, m).(wait := if wait.Waiting? then Broken else wait), puts);
    case IsCanceled =>
      CancelKeeps(p, Direct, puts);
      CancelKeeps(WithRoute(p, Direct, Canceled(RouteOf(p, Direct))), Relay, puts);
  }

  /** Every event keeps a peer in order, and a receiver only finishes on a route it holds a
      confirmation for. */
  lemma HappenKeeps(p: Peer, other: Peer, e: Event)
    requires PeerOk(p, other.puts)
    ensures Kept(p, Happen(p, other, e), other.puts)
  {
    if e.Resumes? {
      if p.role == Sender {
        ResumeSenderKeeps(p, e.mode, e.sends, other.puts);
      } else {
        ResumeReceiverKeeps(p, e.mode, e.sends, other.puts);
      }
    } else if e.Opens? || e.ConnectFails? || e.Delivers? {
      ConnectionEventsKeep(p, other, e);
    } else {
      TimersKeep(p, other, e);
    }
  }

  /** A peer stays in order when the other one puts more messages on the channels. */
  lemma MorePuts(p: Peer, puts: set<(Mode, Message)>, more: set<(Mode, Message)>)
    requires PeerOk(p, puts) && puts <= more
    ensures PeerOk(p, more)
  {
  }

  ghost predicate Invariant(s: System) {
    && s.sender.role == Sender && s.receiver.role == Receiver
    && PeerOk(s.sender, s.receiver.puts) && PeerOk(s.receiver, s.sender.puts)
    && (s.receiver.finishes != [] ==> s.sender.finishes == s.receiver.finishes)
  }

  lemma NextKeeps(s: System, t: Step)
    requires Invariant(s)
    ensures Invariant(Next(s, t))
  {
    if t.at == Sender {
      HappenKeeps(s.sender, s.receiver, t.event);
      MorePuts(s.receiver, s.sender.puts, Next(s, t).sender.puts);
    } else {
      HappenKeeps(s.receiver, s.sender, t.event);
      MorePuts(s.sender, s.receiver.puts, Next(s, t).receiver.puts);
    }
  }

  lemma {:induction false} RunKeeps(steps: seq<Step>)
    ensures Invariant(Run(steps))
  {
    if steps != [] {
      RunKeeps(steps[..|steps| - 1]);
      NextKeeps(Run(steps[..|steps| - 1]), steps[|steps| - 1]);
    }
  }

  /** Route agreement, in every interleaving: each side finishes at most once, a confirmation is put
      on at most one route, the one the sender finished on, and a receiver that has
      finished is on the route the sender has already finished on. */
  lemma RouteAgreement(steps: seq<Step>)
    ensures
      var s := Run(steps);
      && |s.sender.finishes| <= 1 && |s.receiver.finishes| <= 1
      && (forall m :: (m, Message(Confirm, m)) in s.sender.puts <==> s.sender.finishes == [m])
      && (s.receiver.finishes != [] ==> s.sender.finishes == s.receiver.finishes)
  {
    RunKeeps(steps);
  }

  // When the receiver joins.

  /** The receiver's chain goes on with a confirmation of a route that it has acknowledged, in time. */
  ghost predicate Joins(p: Peer, e: Event) {
    && e.Resumes? && !p.settled
    && RouteOf(p, e.mode).acked && RouteOf(p, e.mode).wait == Resolved(Message(Confirm, e.mode))
  }

  lemma OnlyResumingFinishes(p: Peer, other: Peer, e: Event)
    requires PeerOk(p, other.puts) && p.role == Receiver && !e.Resumes?
    ensures Happen(p, other, e).finishes == p.finishes
  {
    match e
    case Opens(m, sends) => OpenKeeps(p, m, sends, other.puts);
    case ConnectFails(m, sends) => FailKeeps(p, m, sends, other.puts);
    case _ =>
  }

  lemma ResumingFinishes(p: Peer, m: Mode, sends: Mode -> bool, puts: set<(Mode, Message)>)
    requires PeerOk(p, puts) && p.role == Receiver
    ensures ResumeReceiver(p, m, sends).finishes == if Joins(p, Resumes(m, sends)) then p.finishes + [m] else p.finishes
  {
    var r := RouteOf(p, m);
    var idle := WithRoute(p, m, r.(wait := Idle));
    ReplaceKeeps(p, m, r.(wait := Idle), puts);
    FailKeeps(idle, m, sends, puts);
  }

  /** A receiver finishes in a step if and only if it joins. */
  lemma FinishesExactly(p: Peer, other: Peer, e: Event)
    requires PeerOk(p, other.puts) && p.role == Receiver
    ensures Happen(p, other, e).finishes == if Joins(p, e) then p.finishes + [e.mode] else p.finishes
  {
    if e.Resumes? {
      ResumingFinishes(p, e.mode, e.sends, other.puts);
    } else {
      OnlyResumingFinishes(p, other, e);
    }
  }

  ghost predicate JoinsAt(steps: seq<Step>, k: nat)
    requires k < |steps|
  {
    steps[k].at == Receiver && Joins(Run(steps[..k]).receiver, steps[k].event)
  }

  /** The receiver has joined in one of the first `n` steps. */
  ghost predicate JoinedBy(steps: seq<Step>, n: nat)
    requires n <= |steps|
  {
    exists k: nat :: k < n && JoinsAt(steps, k)
  }

  ghost predicate ReceiverFinished(steps: seq<Step>, n: nat)
    requires n <= |steps|
  {
    Run(steps[..n]).receiver.finishes != []
  }

  lemma JoinedNext(steps: seq<Step>, n: nat)
    requires n < |steps|
    ensures JoinedBy(steps, n + 1) <==> JoinedBy(steps, n) || JoinsAt(steps, n)
  {
    if JoinedBy(steps, n) {
      var k: nat :| k < n && JoinsAt(steps, k);
      assert k < n + 1 && JoinsAt(steps, k);
    }
  }

  lemma JoiningStep(steps: seq<Step>, n: nat)
    requires n < |steps|
    ensures
      var before := Run(steps[..n]).receiver.finishes;
      Run(steps[..n + 1]).receiver.finishes == if JoinsAt(steps, n) then before + [steps[n].event.mode] else before
    ensures ReceiverFinished(steps, n + 1) <==> ReceiverFinished(steps, n) || JoinsAt(steps, n)
  {
    assert steps[..n + 1][..n] == steps[..n];
    RunKeeps(steps[..n]);
    if steps[n].at == Receiver {
      FinishesExactly(Run(steps[..n]).receiver, Run(steps[..n]).sender, steps[n].event);
    }
  }

  lemma {:induction false} JoinedUpTo(steps: seq<Step>, n: nat)
    requires n <= |steps|
    ensures ReceiverFinished(steps, n) <==> JoinedBy(steps, n)
  {
    assert steps[..0] == [];
    if n > 0 {
      JoinedUpTo(steps, n - 1);
      JoiningStep(steps, n - 1);
      JoinedNext(steps, n - 1);
    }
  }

  /** A sender that has finished is not alone if and only if the receiver, at some step before it gave up, found the
      wait after its acknowledgement resolved by the confirmation. */
  lemma {:induction false} FinishedTogether(steps: seq<Step>)
    requires Run(steps).sender.finishes != []
    ensures Run(steps).receiver.finishes == Run(steps).sender.finishes <==> JoinedBy(steps, |steps|)
  {
    assert steps[..|steps|] == steps;
    JoinedUpTo(steps, |steps|);
    RunKeeps(steps);
  }

  // What each peer sends, and when the sender finishes.

  /** The commit call goes on with the acknowledgement of its own route, which is still open. */
  ghost predicate Confirms(p: Peer, e: Event) {
    && e.Resumes? && !p.settled && p.commitMode == Some(e.mode)
    && RouteOf(p, e.mode).wait == Resolved(Message(Ack, e.mode)) && !RouteOf(p, e.mode).canceled && e.sends(e.mode)
  }

  lemma ConfirmingFinishes(p: Peer, m: Mode, sends: Mode -> bool)
    requires Confirms(p, Resumes(m, sends))
    ensures ResumeSender(p, m, sends).finishes == p.finishes + [m]
  {
  }

  lemma NotConfirming(p: Peer, m: Mode, sends: Mode -> bool, puts: set<(Mode, Message)>)
    requires PeerOk(p, puts) && p.role == Sender && !Confirms(p, Resumes(m, sends))
    requires forall x :: (m, x) in puts ==> x.mode == m && x.kind == Ack
    ensures ResumeSender(p, m, sends).finishes == p.finishes
  {
    var r := RouteOf(p, m);
    if p.commitMode == Some(m) {
      var idle := WithRoute(p, m, r.(wait := Idle)).(commitMode := None);
      ReplaceKeeps(p, m, r.(wait := Idle), puts);
      FailKeeps(idle.(committing := false), m, sends, puts);
    }
  }

  lemma OthersDoNotFinish(s: System, e: Event)
    requires Invariant(s) && !e.Resumes?
    ensures Happen(s.sender, s.receiver, e).finishes == s.sender.finishes
  {
    var p, puts := s.sender, s.receiver.puts;
    match e
    case Opens(m, sends) => OpenKeeps(p, m, sends, puts);
    case ConnectFails(m, sends) => FailKeeps(p, m, sends, puts);
    case PreferTimer(sends) =>
      var m := if RouteOf(p, Direct).candidate then Direct else Relay;
      if p.preferTimer {
        CommitKeeps(p.(preferTimer := false), m, sends, puts);
      }
    case _ =>
  }

  /** A sender finishes in a step if and only if it confirms, and the confirmation is put in that step. */
  lemma SenderFinishesExactly(s: System, e: Event)
    requires Invariant(s)
    ensures
      var p, q := s.sender, Happen(s.sender, s.receiver, e);
      && q.finishes == (if Confirms(p, e) then p.finishes + [e.mode] else p.finishes)
      && (Confirms(p, e) ==> p.finishes == [] && (e.mode, Message(Confirm, e.mode)) in q.puts)
      && forall m :: (m, Message(Confirm, m)) in q.puts <==>
           (m, Message(Confirm, m)) in p.puts || (Confirms(p, e) && m == e.mode)
  {
    HappenKeeps(s.sender, s.receiver, e);
    if e.Resumes? {
      if Confirms(s.sender, e) {
        ConfirmingFinishes(s.sender, e.mode, e.sends);
      } else {
        NotConfirming(s.sender, e.mode, e.sends, s.receiver.puts);
      }
    } else {
      OthersDoNotFinish(s, e);
    }
  }

  ghost predicate ConfirmsAt(steps: seq<Step>, k: nat)
    requires k < |steps|
  {
    steps[k].at == Sender && Confirms(Run(steps[..k]).sender, steps[k].event)
  }

  /** The sender has confirmed in one of the first `n` steps. */
  ghost predicate ConfirmedBy(steps: seq<Step>, n: nat)
    requires n <= |steps|
  {
    exists k: nat :: k < n && ConfirmsAt(steps, k)
  }

  ghost predicate SenderFinished(steps: seq<Step>, n: nat)
    requires n <= |steps|
  {
    Run(steps[..n]).sender.finishes != []
  }

  lemma ConfirmedNext(steps: seq<Step>, n: nat)
    requires n < |steps|
    ensures ConfirmedBy(steps, n + 1) <==> ConfirmedBy(steps, n) || ConfirmsAt(steps, n)
  {
    if ConfirmedBy(steps, n) {
      var k: nat :| k < n && ConfirmsAt(steps, k);
      assert k < n + 1 && ConfirmsAt(steps, k);
    }
  }

  lemma ConfirmingStep(steps: seq<Step>, n: nat)
    requires n < |steps|
    ensures
      var before := Run(steps[..n]).sender.finishes;
      Run(steps[..n + 1]).sender.finishes == if ConfirmsAt(steps, n) then before + [steps[n].event.mode] else before
    ensures SenderFinished(steps, n + 1) <==> SenderFinished(steps, n) || ConfirmsAt(steps, n)
  {
    assert steps[..n + 1][..n] == steps[..n];
    RunKeeps(steps[..n]);
    if steps[n].at == Sender {
      SenderFinishesExactly(Run(steps[..n]), steps[n].event);
    }
  }

  /** A sender has finished if and only if it confirmed at some step. */
  lemma {:induction false} SenderHasConfirmed(steps: seq<Step>, n: nat)
    requires n <= |steps|
    ensures SenderFinished(steps, n) <==> ConfirmedBy(steps, n)
  {
    assert steps[..0] == [];
    if n > 0 {
      SenderHasConfirmed(steps, n - 1);
      ConfirmingStep(steps, n - 1);
      ConfirmedNext(steps, n - 1);
    }
  }

  /** The receiver's chain goes on with the commitment of a route that is still open. */
  ghost predicate Acknowledges(p: Peer, e: Event) {
    && e.Resumes? && !p.settled && !RouteOf(p, e.mode).acked
    && RouteOf(p, e.mode).wait.Resolved? && RouteOf(p, e.mode).wait.message.mode == e.mode
    && !RouteOf(p, e.mode).canceled && e.sends(e.mode)
  }

  lemma FailSendsNothing(p: Peer, m: Mode, sends: Mode -> bool)
    requires p.role == Receiver
    ensures Fail(p, m, sends).puts == p.puts
  {
  }

  /** A receiver sends nothing but acknowledgements, each exactly when it acknowledges, and then waits for the
      confirmation. */
  lemma ReceiverSendsExactly(p: Peer, other: Peer, e: Event)
    requires p.role == Receiver
    ensures
      var q := Happen(p, other, e);
      && q.puts == (if Acknowledges(p, e) then p.puts + {(e.mode, Message(Ack, e.mode))} else p.puts)
      && (Acknowledges(p, e) ==> RouteOf(q, e.mode).acked && !RouteOf(q, e.mode).wait.Idle?)
  {
    match e
    case Resumes(m, sends) => FailSendsNothing(WithRoute(p, m, RouteOf(p, m).(wait := Idle)), m, sends);
    case ConnectFails(m, sends) => FailSendsNothing(p, m, sends);
    case _ =>
  }

  /** An idle sender with a working route commits to it: to the direct one as soon as it opens, to the relay when it
      opens after the direct one has failed, */
  lemma CommitsWhenOpen(p: Peer, other: Peer, m: Mode, sends: Mode -> bool)
    requires p.role == Sender && !p.settled && !p.committing && sends(m)
    requires RouteOf(p, m).status == Connecting && !RouteOf(p, m).canceled
    requires m == Direct || RouteOf(p, Direct).status == Failed
    ensures Committed(Happen(p, other, Opens(m, sends)), m)
  {
  }

  /** when the time in which the direct route is preferred is over, */
  lemma CommitsWhenTimeIsOver(p: Peer, other: Peer, sends: Mode -> bool)
    requires p.role == Sender && !p.settled && !p.committing && p.preferTimer
    requires !RouteOf(p, Direct).candidate && !RouteOf(p, Relay).canceled && sends(Relay)
    ensures Committed(Happen(p, other, PreferTimer(sends)), Relay)
  {
  }

  /** and when the direct one fails while the relay stands by. */
  lemma CommitsWhenDirectFails(p: Peer, sends: Mode -> bool)
    requires p.role == Sender && !p.settled && !p.committing && RouteOf(p, Direct).status == Connecting && sends(Relay)
    requires RouteOf(p, Relay).candidate && RouteOf(p, Relay).status == Ready && !RouteOf(p, Relay).canceled
    ensures Committed(Fail(p, Direct, sends), Relay)
  {
    var q := WithRoute(p, Direct, Canceled(RouteOf(p, Direct)).(status := Failed));
    assert Started(q, Relay) == q;
    assert Committed(CommitTo(q, Relay, sends), Relay);
  }

  /** A relay that was not tried yet is tried when the direct route fails. */
  lemma RelayStartsWhenDirectFails(p: Peer, sends: Mode -> bool)
    requires !p.settled && RouteOf(p, Direct).status == Connecting && RouteOf(p, Relay) == NO_ROUTE
    ensures RouteOf(Fail(p, Direct, sends), Relay).status == Connecting && !Fail(p, Direct, sends).settled
  {
  }

  lemma RelayLeavesDirect(p: Peer, sends: Mode -> bool)
    ensures RouteOf(Fail(p, Relay, sends), Direct) == RouteOf(p, Direct)
    ensures RouteOf(CommitTo(p, Relay, sends), Direct) == RouteOf(p, Direct)
  {
  }

  lemma FailingFails(p: Peer, m: Mode, sends: Mode -> bool)
    requires !p.settled && RouteOf(p, m).status != Absent
    ensures RouteOf(Fail(p, m, sends), m).status == Failed
  {
    if m == Direct && RouteOf(p, m).status != Failed {
      var q := WithRoute(p, m, Canceled(RouteOf(p, m)).(status := Failed));
      RelayLeavesDirect(Started(q, Relay), sends);
    }
  }

  /** A wait that has timed out or was rejected makes its route fail. */
  lemma BrokenWaitFails(p: Peer, m: Mode, sends: Mode -> bool)
    requires !p.settled && RouteOf(p, m).status == Ready && RouteOf(p, m).wait == Broken
    ensures p.role == Receiver ==> RouteOf(ResumeReceiver(p, m, sends), m).status == Failed
    ensures p.commitMode == Some(m) ==> RouteOf(ResumeSender(p, m, sends), m).status == Failed
  {
    var idle := WithRoute(p, m, RouteOf(p, m).(wait := Idle));
    FailingFails(idle, m, sends);
    FailingFails(idle.(commitMode := None, committing := false), m, sends);
  }

  /** When the second route fails too, the race is lost. */
  lemma SecondFailureEnds(p: Peer, sends: Mode -> bool)
    requires !p.settled && RouteOf(p, Direct).status == Failed
    requires RouteOf(p, Relay).status == Connecting || RouteOf(p, Relay).status == Ready
    ensures Fail(p, Relay, sends).settled && Fail(p, Relay, sends).finishes == p.finishes
  {
  }

  /** The race is over with its winner: the other route is canceled, and no timer runs any more. */
  lemma FinishCancelsLoser(p: Peer, m: Mode, loser: Mode)
    requires !p.settled && m != loser
    ensures
      var q := Finish(p, m);
      && q.settled && !q.relayTimer && !q.preferTimer && q.finishes == p.finishes + [m]
      && (RouteOf(p, loser).status != Absent ==> RouteOf(q, loser).canceled) && RouteOf(q, m) == RouteOf(p, m)
  {
  }

  ghost predicate Committed(p: Peer, m: Mode) {
    p.committing && p.commitMode == Some(m) && (m, Message(Commit, m)) in p.puts && !RouteOf(p, m).wait.Idle?
  }

  // A run in which the peers do agree, step by step; short of its last step the sender stands alone.

  const ANY := (m: Mode) => true
  const OFFER := Message(Commit, Direct)
  const ANSWER := Message(Ack, Direct)
  const START := System(Fresh(Sender), Fresh(Receiver))
  const OPEN := Route(Ready, true, false, [], Idle, false)
  const OFFERED: Peer :=
    WithRoute(START.sender, Direct, OPEN.(wait := Waiting(Ack)))
      .(committing := true, commitMode := Some(Direct), puts := {(Direct, OFFER)})
  const ASKED: Peer := WithRoute(START.receiver, Direct, OPEN.(wait := Resolved(OFFER)))
  const AGREED: Peer :=
    WithRoute(START.receiver, Direct, OPEN.(wait := Waiting(Confirm), acked := true)).(puts := {(Direct, ANSWER)})

  lemma RunFurther(steps: seq<Step>, t: Step)
    ensures Run(steps + [t]) == Next(Run(steps), t)
  {
    assert (steps + [t])[..|steps|] == steps;
  }

  lemma ReceiverIsAsked() returns (steps: seq<Step>)
    ensures Run(steps) == System(OFFERED, ASKED)
  {
    var a := [Step(Sender, Opens(Direct, ANY))];
    RunFurther([], a[0]);
    assert [] + a == a && Run(a) == System(OFFERED, START.receiver);
    RunFurther(a, Step(Receiver, Opens(Direct, ANY)));
    var b := a + [Step(Receiver, Opens(Direct, ANY))];
    RunFurther(b, Step(Receiver, Delivers(Direct, OFFER)));
    steps := b + [Step(Receiver, Delivers(Direct, OFFER))];
  }

  lemma ReceiverAgrees() returns (steps: seq<Step>)
    ensures Run(steps) == System(OFFERED, AGREED)
  {
    var asked := ReceiverIsAsked();
    RunFurther(asked, Step(Receiver, Resumes(Direct, ANY)));
    steps := asked + [Step(Receiver, Resumes(Direct, ANY))];
  }

  /** Agreement is one-sided: the sender finishes first, and stands alone if its confirmation is lost. */
  lemma SenderFinishesFirst() returns (steps: seq<Step>)
    ensures Run(steps).sender.finishes == [Direct] && (Direct, Message(Confirm, Direct)) in Run(steps).sender.puts
    ensures Run(steps).receiver == AGREED
  {
    var agreed := ReceiverAgrees();
    RunFurther(agreed, Step(Sender, Delivers(Direct, ANSWER)));
    var told := agreed + [Step(Sender, Delivers(Direct, ANSWER))];
    RunFurther(told, Step(Sender, Resumes(Direct, ANY)));
    steps := told + [Step(Sender, Resumes(Direct, ANY))];
  }

  /** The race can succeed. */
  lemma BothMayFinish() returns (steps: seq<Step>)
    ensures Run(steps).sender.finishes == Run(steps).receiver.finishes == [Direct]
  {
    var first := SenderFinishesFirst();
    var confirm := Step(Receiver, Delivers(Direct, Message(Confirm, Direct)));
    RunFurther(first, confirm);
    RunFurther(first + [confirm], Step(Receiver, Resumes(Direct, ANY)));
    steps := first + [confirm] + [Step(Receiver, Resumes(Direct, ANY))];
  }

  // The same over the relay, after the direct route has failed on both sides.

  const RELAY_OFFER := Message(Commit, Relay)
  const RELAY_ANSWER := Message(Ack, Relay)
  const RELAYING := System(
    Happen(START.sender, START.receiver, ConnectFails(Direct, ANY)),
    Happen(START.receiver, START.sender, ConnectFails(Direct, ANY)))
  const RELAY_OFFERED: Peer :=
    WithRoute(RELAYING.sender, Relay, OPEN.(wait := Waiting(Ack)))
      .(committing := true, commitMode := Some(Relay), puts := {(Relay, RELAY_OFFER)})
  const RELAY_ASKED: Peer := WithRoute(RELAYING.receiver, Relay, OPEN.(wait := Resolved(RELAY_OFFER)))
  const RELAY_AGREED: Peer :=
    WithRoute(RELAYING.receiver, Relay, OPEN.(wait := Waiting(Confirm), acked := true))
      .(puts := {(Relay, RELAY_ANSWER)})

  lemma DirectFails() returns (steps: seq<Step>)
    ensures Run(steps) == RELAYING
  {
    var a := [Step(Sender, ConnectFails(Direct, ANY))];
    RunFurther([], a[0]);
    assert [] + a == a;
    RunFurther(a, Step(Receiver, ConnectFails(Direct, ANY)));
    steps := a + [Step(Receiver, ConnectFails(Direct, ANY))];
  }

  lemma SenderOffersRelay(other: Peer)
    ensures Happen(RELAYING.sender, other, Opens(Relay, ANY)) == RELAY_OFFERED
  {
  }

  lemma ReceiverIsAskedOnRelay(other: Peer)
    requires (Relay, RELAY_OFFER) in other.puts
    ensures
      var ready := Happen(RELAYING.receiver, other, Opens(Relay, ANY));
      Happen(ready, other, Delivers(Relay, RELAY_OFFER)) == RELAY_ASKED
  {
  }

  lemma RelayIsOffered() returns (steps: seq<Step>)
    ensures Run(steps) == System(RELAY_OFFERED, RELAY_ASKED)
  {
    var a := DirectFails();
    SenderOffersRelay(RELAYING.receiver);
    RunFurther(a, Step(Sender, Opens(Relay, ANY)));
    var b := a + [Step(Sender, Opens(Relay, ANY))];
    ReceiverIsAskedOnRelay(RELAY_OFFERED);
    RunFurther(b, Step(Receiver, Opens(Relay, ANY)));
    var c := b + [Step(Receiver, Opens(Relay, ANY))];
    RunFurther(c, Step(Receiver, Delivers(Relay, RELAY_OFFER)));
    steps := c + [Step(Receiver, Delivers(Relay, RELAY_OFFER))];
  }

  lemma ReceiverAgreesOnRelay(other: Peer)
    ensures Happen(RELAY_ASKED, other, Resumes(Relay, ANY)) == RELAY_AGREED
  {
  }

  lemma RelayIsAgreed() returns (steps: seq<Step>)
    ensures Run(steps) == System(RELAY_OFFERED, RELAY_AGREED)
  {
    var a := RelayIsOffered();
    ReceiverAgreesOnRelay(RELAY_OFFERED);
    RunFurther(a, Step(Receiver, Resumes(Relay, ANY)));
    steps := a + [Step(Receiver, Resumes(Relay, ANY))];
  }

  lemma SenderConfirmsRelay(other: Peer)
    requires (Relay, RELAY_ANSWER) in other.puts
    ensures
      var told := Happen(RELAY_OFFERED, other, Delivers(Relay, RELAY_ANSWER));
      var done := Happen(told, other, Resumes(Relay, ANY));
      && done.finishes == [Relay] && (Relay, Message(Confirm, Relay)) in done.puts
      && RouteOf(done, Direct).status == Failed
  {
  }

  lemma RelayIsConfirmed() returns (steps: seq<Step>)
    ensures Run(steps).sender.finishes == [Relay] && (Relay, Message(Confirm, Relay)) in Run(steps).sender.puts
    ensures Run(steps).receiver == RELAY_AGREED && RouteOf(Run(steps).sender, Direct).status == Failed
  {
    var a := RelayIsAgreed();
    SenderConfirmsRelay(RELAY_AGREED);
    RunFurther(a, Step(Sender, Delivers(Relay, RELAY_ANSWER)));
    var b := a + [Step(Sender, Delivers(Relay, RELAY_ANSWER))];
    RunFurther(b, Step(Sender, Resumes(Relay, ANY)));
    steps := b + [Step(Sender, Resumes(Relay, ANY))];
  }

  lemma ReceiverFinishesOnRelay(other: Peer)
    requires (Relay, Message(Confirm, Relay)) in other.puts
    ensures
      var told := Happen(RELAY_AGREED, other, Delivers(Relay, Message(Confirm, Relay)));
      var done := Happen(told, other, Resumes(Relay, ANY));
      done.finishes == [Relay] && RouteOf(done, Direct).status == Failed
  {
  }

  /** The race can succeed over the relay. */
  lemma BothMayFinishOnRelay() returns (steps: seq<Step>)
    ensures Run(steps).sender.finishes == Run(steps).receiver.finishes == [Relay]
    ensures RouteOf(Run(steps).sender, Direct).status == RouteOf(Run(steps).receiver, Direct).status == Failed
  {
    var first := RelayIsConfirmed();
    ReceiverFinishesOnRelay(Run(first).sender);
    var confirm := Step(Receiver, Delivers(Relay, Message(Confirm, Relay)));
    RunFurther(first, confirm);
    RunFurther(first + [confirm], Step(Receiver, Resumes(Relay, ANY)));
    steps := first + [confirm] + [Step(Receiver, Resumes(Relay, ANY))];
  }

  // On the wire.

  function OnWire(x: Message): Transport.Frame {
    Transport.Json(
      match x.kind case Commit => "kigo_route_commit" case Ack => "kigo_route_ack" case Confirm => "kigo_route_confirm",
      1, if x.mode == Direct then "direct" else "relay", "")
  }

  /** Whatever the race leaves on a channel, the transport that takes the channel over drops it. */
  lemma LeftoversAreDropped(steps: seq<Step>, m: Mode, x: Message)
    requires (m, x) in Run(steps).sender.puts + Run(steps).receiver.puts
    ensures Transport.Classify(OnWire(x)).Control? && x.mode == m
  {
    RunKeeps(steps);
  }

  /** Route control is what the race puts on the wire, and nothing else is kept from the transfer. */
  lemma ControlExactly(f: Transport.Frame)
    ensures Transport.IsRouteControl(f) <==> f.Json? && exists x: Message :: f.(rest := "") == OnWire(x)
  {
    if Transport.IsRouteControl(f) {
      var kind :=
        if f.kind == "kigo_route_commit" then Commit else if f.kind == "kigo_route_ack" then Ack else Confirm;
      assert f.(rest := "") == OnWire(Message(kind, if f.mode == "direct" then Direct else Relay));
    }
    if f.Json? && exists x: Message :: f.(rest := "") == OnWire(x) {
      var x: Message :| f.(rest := "") == OnWire(x);
    }
  }
}
