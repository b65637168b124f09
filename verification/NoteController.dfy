/** The notepad controller behind the local web page: the locked sections that change its fields, and how the
    goroutine of each session, the publishing requests and the leaving user interleave between them. */
module NoteController {
  import opened Wrappers
  import opened Bytes
  import opened Document
  import opened NoteSession

  datatype Status = Idle | Opening | Available | Reconnecting | Syncing | Synchronized | Left | PeerLeft | Failed

  /** The controller's fields; the visible text and revision are those of `shown`. Sessions are numbered in the
      order in which they are connected. */
  datatype Store = Store(sequence: nat, id: nat, running: bool, connected: bool, synced: bool, status: Status,
                         shown: Document, acked: uint64, session: Option<nat>, cancel: bool, pending: uint64)

  // The locked sections.

  predicate Live(s: Store, id: nat) {
    s.id == id && s.running
  }

  function Started(s: Store, draft: Document): Store {
    if s.running then s
    else Store(s.sequence + 1, s.sequence + 1, true, false, false, Opening, draft, 0, None, true, 0)
  }

  function Connected(s: Store, id: nat, session: nat, held: Document): Store {
    if !Live(s, id) then s
    else s.(session := Some(session), connected := true, synced := true, status := Available, shown := held,
            acked := held.revision, pending := 0)
  }

  function Disconnected(s: Store, id: nat): Store {
    if !Live(s, id) then s
    else s.(connected := false, synced := false, status := Reconnecting, session := None)
  }

  function RemoteShown(s: Store, id: nat, d: Document, applied: bool): Store {
    if !Live(s, id) then s
    else if applied then s.(shown := d, pending := 0, synced := true, status := Synchronized)
    else s.(shown := d)
  }

  function Acknowledged(s: Store, id: nat, revision: uint64): Store {
    if !Live(s, id) then s
    else
      var s' := s.(acked := if revision > s.acked then revision else s.acked);
      if s.pending != 0 && revision >= s.pending then s'.(pending := 0, synced := true, status := Synchronized) else s'
  }

  predicate Publishable(s: Store) {
    s.running && s.connected && s.session.Some?
  }

  function EditShown(s: Store, id: nat, session: nat, d: Document): Store {
    if !Live(s, id) || s.session != Some(session) then s
    else s.(shown := d, synced := false, status := Syncing, pending := d.revision)
  }

  function Finished(s: Store, id: nat, status: Status): Store {
    if !Live(s, id) then s
    else s.(running := false, connected := false, synced := false, status := status, session := None,
            cancel := false, pending := 0)
  }

  /** Not running means nothing is left over; connected means running with a session, and synced exactly if
      no revision waits for its acknowledgement. */
  ghost predicate Consistent(s: Store) {
    && s.id == s.sequence
    && (s.running <==> s.cancel)
    && (!s.running ==> !s.connected && s.pending == 0)
    && (s.connected <==> s.session.Some?)
    && (s.connected ==> (s.synced <==> s.pending == 0))
  }

  class Controller {
    var sequence: nat
    var id: nat
    var running: bool
    var connected: bool
    var synced: bool
    var status: Status
    var shown: Document
    var acked: uint64
    var session: Option<nat>
    var cancel: bool
    var pending: uint64

    function Value(): Store
      reads this
    {
      Store(sequence, id, running, connected, synced, status, shown, acked, session, cancel, pending)
    }

    constructor ()
      ensures Value() == Store(0, 0, false, false, false, Idle, NOTHING, 0, None, false, 0) && Consistent(Value())
    {
      sequence, id, running, connected, synced, status := 0, 0, false, false, false, Idle;
      shown, acked, session, cancel, pending := NOTHING, 0, None, false, 0;
    }

    method Start(draft: Document) returns (ok: bool)
      modifies this
      ensures Value() == Started(old(Value()), draft) && ok == !old(running)
      ensures old(Consistent(Value())) ==> Consistent(Value())
    {
      if running {
        return false;
      }
      sequence := sequence + 1;
      session, cancel, pending := None, true, 0;
      id, running, connected, synced, status, shown, acked := sequence, true, false, false, Opening, draft, 0;
      return true;
    }

    method SetConnected(forId: nat, peer: nat, held: Document) returns (ok: bool)
      modifies this
      ensures Value() == Connected(old(Value()), forId, peer, held) && ok == old(Live(Value(), forId))
      ensures old(Consistent(Value())) ==> Consistent(Value())
    {
      if id != forId || !running {
        return false;
      }
      session := Some(peer);
      connected, synced, status := true, true, Available;
      shown, acked := held, held.revision;
      pending := 0;
      return true;
    }

    method SetReconnecting(forId: nat) returns (ok: bool)
      modifies this
      ensures Value() == Disconnected(old(Value()), forId) && ok == old(Live(Value(), forId))
      ensures old(Consistent(Value())) ==> Consistent(Value())
    {
      if id != forId || !running {
        return false;
      }
      connected, synced, status := false, false, Reconnecting;
      session := None;
      return true;
    }

    method ShowRemote(forId: nat, d: Document, applied: bool)
      modifies this
      ensures Value() == RemoteShown(old(Value()), forId, d, applied)
      ensures old(Consistent(Value())) ==> Consistent(Value())
    {
      if id == forId && running {
        shown := d;
        if applied {
          pending := 0;
          synced, status := true, Synchronized;
        }
      }
    }

    method HandleAck(forId: nat, revision: uint64) returns (ok: bool)
      modifies this
      ensures Value() == Acknowledged(old(Value()), forId, revision) && ok == old(Live(Value(), forId))
      ensures old(Consistent(Value())) ==> Consistent(Value())
    {
      if id != forId || !running {
        return false;
      }
      if revision > acked {
        acked := revision;
      }
      if pending != 0 && revision >= pending {
        pending := 0;
        synced, status := true, Synchronized;
      }
      return true;
    }

    method ShowEdit(forId: nat, peer: nat, d: Document) returns (ok: bool)
      modifies this
      ensures Value() == EditShown(old(Value()), forId, peer, d)
      ensures ok == old(Live(Value(), forId) && session == Some(peer))
      ensures old(Consistent(Value())) && d.revision != 0 ==> Consistent(Value())
    {
      if id != forId || !running || session != Some(peer) {
        return false;
      }
      shown := d;
      synced, status := false, Syncing;
      pending := d.revision;
      return true;
    }

    /** The end of a session: the peer left, the context was canceled or an error was final. */
    method Finish(forId: nat, reason: Status)
      modifies this
      ensures Value() == Finished(old(Value()), forId, reason)
      ensures old(Consistent(Value())) ==> Consistent(Value())
    {
      if id != forId || !running {
        return;
      }
      running, connected, synced, status := false, false, false, reason;
      session, cancel, pending := None, false, 0;
    }

    method Leave()
      modifies this
      ensures Value() == Finished(old(Value()), old(id), Left)
      ensures old(Consistent(Value())) ==> Consistent(Value())
    {
      if !running {
        return;
      }
      running, connected, synced, status := false, false, false, Left;
      session, cancel, pending := None, false, 0;
    }
  }

  // The goroutines around the controller.

  /** Where the goroutine of a session is. While it applies a frame it holds the sending mutex. */
  datatype Runner =
    | Connecting
    | Ready
    | Receiving(session: nat)
    | Applying(session: nat)
    | Applied(session: nat, document: Document, isNew: bool)
    | Broken
    | Ended

  /** Who holds the sending mutex: nobody, the goroutine of a session, or a request that publishes an edit. */
  datatype Mutex =
    | Free
    | Frame(id: nat)
    | Begun(id: nat, session: nat)
    | Edited(id: nat, session: nat, document: Document)

  /** `held` is the document in the workspace of each session id. */
  datatype System = System(
    store: Store, held: map<nat, Document>, runners: map<nat, Runner>, mutex: Mutex, sessions: nat)

  datatype Event =
    | Start(draft: Document)
    | Sync(id: nat, record: Option<Opened>)
    | Connect(id: nat)
    | FrameBegins(id: nat)
    | FrameApplies(id: nat, document: Opened)
    | FrameShows(id: nat)
    | AckArrives(id: nat, revision: uint64)
    | Bye(id: nat)
    | Break(id: nat)
    | Retry(id: nat)
    | Stop(id: nat, reason: Status)
    | PublishBegins
    | PublishEdits(text: seq<byte>, now: int64)
    | PublishShows
    | Leave

  function RunnerOf(s: System, id: nat): Runner {
    if id in s.runners then s.runners[id] else Ended
  }

  function HeldBy(s: System, id: nat): Document {
    if id in s.held then s.held[id] else NOTHING
  }

  function At(s: System, id: nat, r: Runner): System {
    s.(runners := s.runners[id := r])
  }

  /** One step; an event that cannot happen now changes nothing. */
  function Next(s: System, e: Event): System {
    match e
    case Start(draft) =>
      if s.store.running then s
      else
        var id := s.store.sequence + 1;
        At(s, id, Connecting).(store := Started(s.store, draft), held := s.held[id := draft])
    case Sync(id, record) =>
      if !RunnerOf(s, id).Connecting? then s
      else if record.None? then At(s, id, Ready)
      else At(s, id, Ready).(held := s.held[id := Higher(HeldBy(s, id), record.value)])
    case Connect(id) =>
      if !RunnerOf(s, id).Ready? then s
      else if !Live(s.store, id) then At(s, id, Ended)
      else
        At(s, id, Receiving(s.sessions))
          .(store := Connected(s.store, id, s.sessions, HeldBy(s, id)), sessions := s.sessions + 1)
    case FrameBegins(id) =>
      if !RunnerOf(s, id).Receiving? || !s.mutex.Free? then s
      else if !Live(s.store, id) || s.store.session != Some(RunnerOf(s, id).session) then At(s, id, Broken)
      else At(s, id, Applying(RunnerOf(s, id).session)).(mutex := Frame(id))
    case FrameApplies(id, d) =>
      if !RunnerOf(s, id).Applying? then s
      else
        var before := HeldBy(s, id);
        var after := Higher(before, d);
        At(s, id, Applied(RunnerOf(s, id).session, after, Compare(d, before) > 0)).(held := s.held[id := after])
    case FrameShows(id) =>
      var r := RunnerOf(s, id);
      if !r.Applied? then s
      else At(s, id, Receiving(r.session)).(store := RemoteShown(s.store, id, r.document, r.isNew), mutex := Free)
    case AckArrives(id, revision) =>
      if !RunnerOf(s, id).Receiving? then s
      else
        At(s, id, if Live(s.store, id) then RunnerOf(s, id) else Broken)
          .(store := Acknowledged(s.store, id, revision))
    case Bye(id) =>
      if !RunnerOf(s, id).Receiving? then s else At(s, id, Ended).(store := Finished(s.store, id, PeerLeft))
    case Break(id) =>
      var r := RunnerOf(s, id);
      if r.Connecting? || r.Receiving? then At(s, id, Broken)
      else if r.Applying? then At(s, id, Broken).(mutex := Free)
      else s
    case Retry(id) =>
      if !RunnerOf(s, id).Broken? then s
      else At(s, id, if Live(s.store, id) then Connecting else Ended).(store := Disconnected(s.store, id))
    case Stop(id, reason) =>
      if !RunnerOf(s, id).Broken? && !RunnerOf(s, id).Connecting? then s
      else At(s, id, Ended).(store := Finished(s.store, id, reason))
    case PublishBegins =>
      if !s.mutex.Free? || !Publishable(s.store) then s
      else s.(mutex := Begun(s.store.id, s.store.session.value))
    case PublishEdits(text, now) =>
      if !s.mutex.Begun? then s
      else if !ValidText(text) then s.(mutex := Free)
      else
        var d := EditOf(HeldBy(s, s.mutex.id), HeldBy(s, s.mutex.id).pad, text, now);
        s.(held := s.held[s.mutex.id := d], mutex := Edited(s.mutex.id, s.mutex.session, d))
    case PublishShows =>
      if !s.mutex.Edited? then s
      else s.(store := EditShown(s.store, s.mutex.id, s.mutex.session, s.mutex.document), mutex := Free)
    case Leave => s.(store := Finished(s.store, s.store.id, Left))
  }

  /** A published edit of a document at the highest revision. */
  ghost predicate Wraps(s: System, e: Event) {
    e.PublishEdits? && s.mutex.Begun? && ValidText(e.text) && HeldBy(s, s.mutex.id).revision == MAX_REVISION
  }

  /** The session goroutine an event belongs to, if any. */
  predicate From(e: Event, id: nat) {
    match e
    case Sync(i, _) => i == id
    case Connect(i) => i == id
    case FrameBegins(i) => i == id
    case FrameApplies(i, _) => i == id
    case FrameShows(i) => i == id
    case AckArrives(i, _) => i == id
    case Bye(i) => i == id
    case Break(i) => i == id
    case Retry(i) => i == id
    case Stop(i, _) => i == id
    case _ => false
  }

  // What every step keeps, wrapping edits or not.

  /** The part of `Consistent` that nothing breaks. */
  ghost predicate Linked(s: Store) {
    && s.id == s.sequence
    && (s.running <==> s.cancel)
    && (s.running ==> s.id > 0)
    && (!s.running ==> !s.connected && s.pending == 0)
    && (s.connected <==> s.session.Some?)
  }

  /** An edit was begun or made on the current connection. */
  ghost predicate OnCurrent(s: System) {
    && (s.mutex.Begun? || s.mutex.Edited?)
    && Live(s.store, s.mutex.id) && s.store.session == Some(s.mutex.session)
  }

  ghost predicate MutexFits(s: System) {
    match s.mutex
    case Free => true
    case Frame(id) => RunnerOf(s, id).Applying? || RunnerOf(s, id).Applied?
    case Begun(id, session) => id <= s.store.sequence && session < s.sessions
    case Edited(id, session, d) =>
      id <= s.store.sequence && session < s.sessions && (OnCurrent(s) ==> d == HeldBy(s, id))
  }

  ghost predicate RunnersFit(s: System) {
    forall id :: id in s.runners ==>
      && id <= s.store.sequence
      && (s.runners[id].Connecting? || s.runners[id].Ready? ==> id != s.store.id || s.store.session.None?)
      && (s.runners[id].Applying? || s.runners[id].Applied? ==> s.mutex == Frame(id))
      && (s.runners[id].Applied? ==> s.runners[id].document == HeldBy(s, id))
  }

  /** While a session is connected its workspace is at most one revision ahead of what is shown, by an edit begun
      on an earlier connection; a document being applied and an edit being made are about to be shown. */
  ghost predicate NearlyShown(s: System) {
    s.store.session.Some? ==>
      var shown, held := s.store.shown.revision, HeldBy(s, s.store.id).revision;
      && s.store.session.value < s.sessions
      && match s.mutex
         case Free => held <= shown + 1
         case Frame(id) => (id == s.store.id && RunnerOf(s, id).Applied?) || held <= shown + 1
         case Begun(id, _) => held <= shown + (if OnCurrent(s) || id != s.store.id then 1 else 0)
         case Edited(id, _, d) =>
           if OnCurrent(s) then (d.revision == 0 ==> shown >= MAX_REVISION - 1) else held <= shown + 1
  }

  ghost predicate Sound(s: System) {
    Linked(s.store) && MutexFits(s) && RunnersFit(s) && NearlyShown(s)
  }

  lemma LinkedIsKept(s: System, e: Event)
    requires Linked(s.store)
    ensures Linked(Next(s, e).store)
  {
  }

  ghost predicate OnFrames(e: Event) {
    e.FrameBegins? || e.FrameApplies? || e.FrameShows? || e.AckArrives? || e.Bye? || e.Break?
  }

  lemma FramesKeepRunners(s: System, e: Event)
    requires Linked(s.store) && MutexFits(s) && RunnersFit(s) && OnFrames(e)
    ensures RunnersFit(Next(s, e))
  {
  }

  lemma RunnersAreKept(s: System, e: Event)
    requires Linked(s.store) && MutexFits(s) && RunnersFit(s)
    ensures RunnersFit(Next(s, e))
  {
    if OnFrames(e) {
      FramesKeepRunners(s, e);
    }
  }

  lemma MutexIsKept(s: System, e: Event)
    requires Sound(s)
    ensures MutexFits(Next(s, e))
  {
  }

  lemma NearnessIsKept(s: System, e: Event)
    requires Sound(s)
    ensures NearlyShown(Next(s, e))
  {
  }

  lemma SoundIsKept(s: System, e: Event)
    requires Sound(s)
    ensures Sound(Next(s, e))
  {
    LinkedIsKept(s, e);
    RunnersAreKept(s, e);
    MutexIsKept(s, e);
    NearnessIsKept(s, e);
  }

  // The visible invariant.

  /** An edit whose revision has wrapped around to zero is shown on the connection it was begun on. */
  ghost predicate ShowsZero(s: System, e: Event) {
    e.PublishShows? && s.mutex.Edited? && OnCurrent(s) && s.mutex.document.revision == 0
  }

  /** A step keeps the controller consistent if and only if it does not show such an edit. */
  lemma ConsistentExactly(s: System, e: Event)
    requires Sound(s) && Consistent(s.store)
    ensures Consistent(Next(s, e).store) <==> !ShowsZero(s, e)
  {
  }

  // What the user sees.

  /** A section that shows the current session's document passes its guard. */
  ghost predicate Shows(s: System, e: Event) {
    match e
    case Connect(id) => RunnerOf(s, id).Ready? && Live(s.store, id)
    case FrameShows(id) => RunnerOf(s, id).Applied? && Live(s.store, id)
    case PublishShows => s.mutex.Edited? && OnCurrent(s)
    case _ => false
  }

  /** The workspace of the current session has fallen below what it showed. */
  ghost predicate Fallen(s: System) {
    Compare(HeldBy(s, s.store.id), s.store.shown) < 0
  }

  /** What such a section shows is what the workspace holds; nothing else changes what the same session shows. */
  lemma ShowsHeld(s: System, e: Event)
    requires Sound(s) && Next(s, e).store.id == s.store.id
    ensures Next(s, e).store.shown == if Shows(s, e) then HeldBy(s, s.store.id) else s.store.shown
  {
  }

  /** Ids only grow, and while the id stays, what is visible goes back in a step if and only if the step shows
      the document of a workspace that has fallen. */
  lemma VisibleExactly(s: System, e: Event)
    requires Sound(s)
    ensures s.store.id <= Next(s, e).store.id
    ensures Next(s, e).store.id == s.store.id ==>
      (Compare(s.store.shown, Next(s, e).store.shown) <= 0 <==> !(Shows(s, e) && Fallen(s)))
  {
    OrderIsTotal(s.store.shown, s.store.shown);
    OrderIsTotal(s.store.shown, HeldBy(s, s.store.id));
    if Next(s, e).store.id == s.store.id {
      ShowsHeld(s, e);
    }
  }

  /** The edit that breaks the controller also goes back, from one of the two highest revisions to zero. */
  lemma ZeroIsFallen(s: System, e: Event)
    requires Sound(s) && ShowsZero(s, e)
    ensures Shows(s, e) && Fallen(s)
    ensures s.store.shown.revision >= MAX_REVISION - 1 && Next(s, e).store.shown.revision == 0
  {
  }

  // Where the trouble starts.

  /** The workspace of a session moves down exactly if an edit of it wraps around. */
  lemma HeldFallsExactly(s: System, e: Event, id: nat)
    requires RunnersFit(s) && Linked(s.store) && id <= s.store.sequence
    ensures Compare(HeldBy(s, id), HeldBy(Next(s, e), id)) <= 0 <==> !(Wraps(s, e) && id == s.mutex.id)
  {
    OrderIsTotal(HeldBy(s, id), HeldBy(s, id));
    OrderIsTotal(HeldBy(s, id), HeldBy(Next(s, e), id));
  }

  /** No edit waits that has wrapped around, and the workspace has not fallen. */
  ghost predicate Unwrapped(s: System) {
    (s.mutex.Edited? ==> s.mutex.document.revision != 0) && !Fallen(s)
  }

  lemma NothingFalls(s: System, e: Event)
    requires Sound(s) && !Fallen(s) && !Wraps(s, e)
    ensures !Fallen(Next(s, e))
  {
    var t := Next(s, e);
    var shown, before, after := s.store.shown, HeldBy(s, s.store.id), HeldBy(t, s.store.id);
    HeldFallsExactly(s, e, s.store.id);
    OrderIsTotal(shown, before);
    OrderIsTransitive(shown, before, after);
    OrderIsTotal(shown, after);
    OrderIsTotal(before, after);
    OrderIsTotal(t.store.shown, t.store.shown);
    if t.store.id == s.store.id {
      ShowsHeld(s, e);
    }
  }

  lemma StaysUnwrapped(s: System, e: Event)
    requires Sound(s) && Unwrapped(s) && !Wraps(s, e)
    ensures Unwrapped(Next(s, e))
  {
    NothingFalls(s, e);
  }

  /** Whatever the goroutine of an older or a finished session does, the controller does not change. */
  lemma StaleCallbacksDoNothing(s: System, e: Event, id: nat)
    requires From(e, id) && !Live(s.store, id)
    ensures Next(s, e).store == s.store
  {
  }

  /** Neither does an edit that was begun in an older session or on an older connection. */
  lemma StaleEditsAreNotShown(s: System)
    requires s.mutex.Edited? && !OnCurrent(s)
    ensures Next(s, PublishShows).store == s.store
  {
  }

  /** An edit of a document at the highest revision, shown at once: the controller is connected and unsynced, and
      has no revision that an acknowledgement could settle. */
  lemma WrappedEditBreaks(s: System, e: Event)
    requires Sound(s) && Wraps(s, e) && OnCurrent(s)
    ensures ShowsZero(Next(s, e), PublishShows)
    ensures
      var t := Next(Next(s, e), PublishShows).store;
      && t.connected && !t.synced && t.pending == 0 && t.shown.revision == 0 && !Consistent(t)
      && forall id, revision :: !Acknowledged(t, id, revision).synced
  {
  }

  // What the sections do for the user.

  /** An acknowledgement settles the pending revision exactly if it reaches it. */
  lemma AckSettlesExactly(s: Store, id: nat, revision: uint64)
    requires Live(s, id) && s.pending != 0
    ensures
      var t := Acknowledged(s, id, revision);
      if revision >= s.pending then t.pending == 0 && t.synced else t.pending == s.pending && t.synced == s.synced
  {
  }

  /** The highest revision acknowledged is remembered. */
  lemma AcksAreRemembered(s: Store, id: nat, revision: uint64)
    requires Live(s, id)
    ensures Acknowledged(s, id, revision).acked >= revision && Acknowledged(s, id, revision).acked >= s.acked
    ensures Acknowledged(s, id, revision).acked in {revision, s.acked}
  {
  }

  /** A new session has the next id, shows its draft and is not connected yet; one that runs is left alone. */
  lemma StartsAnew(s: System, draft: Document)
    requires Sound(s)
    ensures
      var t := Next(s, Start(draft));
      if s.store.running then t == s
      else
        && t.store.id == s.store.id + 1 && t.store.running && !t.store.connected && t.store.shown == draft
        && t.store.pending == 0 && t.store.acked == 0 && RunnerOf(t, t.store.id) == Connecting
        && HeldBy(t, t.store.id) == draft
  {
  }

  /** A newer document has been shown, a connection made, the pending revision acknowledged or the session ended. */
  ghost predicate Settles(s: System, e: Event) {
    match e
    case AckArrives(id, revision) => RunnerOf(s, id).Receiving? && Live(s.store, id) && revision >= s.store.pending
    case FrameShows(id) => RunnerOf(s, id).Applied? && Live(s.store, id) && RunnerOf(s, id).isNew
    case Connect(id) => RunnerOf(s, id).Ready? && Live(s.store, id)
    case Bye(id) => RunnerOf(s, id).Receiving? && Live(s.store, id)
    case Stop(id, _) => (RunnerOf(s, id).Broken? || RunnerOf(s, id).Connecting?) && Live(s.store, id)
    case Leave => true
    case _ => ShowsZero(s, e)
  }

  /** A pending revision stays pending exactly until one of these. */
  lemma PendingIsSettledExactly(s: System, e: Event)
    requires Sound(s) && s.store.pending != 0
    ensures Next(s, e).store.pending == 0 <==> Settles(s, e)
  {
  }

  /** A published edit of a connected user: it is above what the workspace held, it is shown and waits for its
      acknowledgement; with that it is synced. */
  lemma EditIsShownAndSettled(s: System, text: seq<byte>, now: int64, revision: uint64)
    requires Sound(s) && Publishable(s.store) && s.mutex.Free? && ValidText(text)
    requires HeldBy(s, s.store.id).revision != MAX_REVISION
    ensures
      var d := EditOf(HeldBy(s, s.store.id), HeldBy(s, s.store.id).pad, text, now);
      var t := Next(Next(Next(s, PublishBegins), PublishEdits(text, now)), PublishShows);
      && Compare(HeldBy(s, s.store.id), d) < 0 && d.text == text
      && HeldBy(t, s.store.id) == d && t.mutex.Free?
      && t.store == s.store.(shown := d, synced := false, status := Syncing, pending := d.revision)
      && Acknowledged(t.store, s.store.id, d.revision).synced
      && Acknowledged(t.store, s.store.id, d.revision).pending == 0
  {
  }

  /** A received document: the higher one is held and shown, and a newer one settles whatever was pending. */
  lemma FrameIsShown(s: System, d: Opened)
    requires Sound(s) && Publishable(s.store) && s.mutex.Free?
    requires RunnerOf(s, s.store.id) == Receiving(s.store.session.value)
    ensures
      var id, before := s.store.id, HeldBy(s, s.store.id);
      var t := Next(Next(Next(s, FrameBegins(id)), FrameApplies(id, d)), FrameShows(id));
      && HeldBy(t, id) == t.store.shown == Higher(before, d) && t.mutex.Free? && t.store.connected
      && (Compare(d, before) > 0 ==> t.store.synced && t.store.pending == 0)
      && (Compare(d, before) <= 0 ==> t.store.synced == s.store.synced && t.store.pending == s.store.pending)
  {
  }

  /** A session that broke comes back with the higher of what it held and what it is given, synced. */
  lemma ComesBack(s: System, record: Option<Opened>)
    requires Sound(s) && s.store.running && RunnerOf(s, s.store.id).Broken?
    ensures
      var id := s.store.id;
      var t := Next(Next(Next(s, Retry(id)), Sync(id, record)), Connect(id));
      && t.store.connected && t.store.synced && t.store.pending == 0
      && t.store.shown == HeldBy(t, id) && t.store.acked == t.store.shown.revision
      && HeldBy(t, id) == if record.None? then HeldBy(s, id) else Higher(HeldBy(s, id), record.value)
  {
  }

  // Whole runs.

  function Initial(): System {
    System(Store(0, 0, false, false, false, Idle, NOTHING, 0, None, false, 0), map[], map[], Free, 0)
  }

  ghost function Run(es: seq<Event>): System {
    if es == [] then Initial() else Next(Run(es[..|es| - 1]), es[|es| - 1])
  }

  lemma RunFurther(es: seq<Event>, n: nat)
    requires n < |es|
    ensures Run(es[..n + 1]) == Next(Run(es[..n]), es[n])
  {
    assert es[..n + 1][..n] == es[..n];
  }

  ghost predicate NeverShowsZero(es: seq<Event>) {
    forall n: nat :: n < |es| ==> !ShowsZero(Run(es[..n]), es[n])
  }

  ghost predicate NeverShowsFallen(es: seq<Event>) {
    forall n: nat :: n < |es| ==> !(Shows(Run(es[..n]), es[n]) && Fallen(Run(es[..n])))
  }

  ghost predicate NeverWraps(es: seq<Event>) {
    forall n: nat :: n < |es| ==> !Wraps(Run(es[..n]), es[n])
  }

  lemma {:induction false} RunIsSound(es: seq<Event>, n: nat)
    requires n <= |es|
    ensures Sound(Run(es[..n]))
  {
    if n > 0 {
      RunIsSound(es, n - 1);
      RunFurther(es, n - 1);
      SoundIsKept(Run(es[..n - 1]), es[n - 1]);
    }
  }

  lemma {:induction false} ConsistentUpTo(es: seq<Event>, n: nat)
    requires NeverShowsZero(es) && n <= |es|
    ensures Consistent(Run(es[..n]).store)
  {
    if n > 0 {
      ConsistentUpTo(es, n - 1);
      RunIsSound(es, n - 1);
      RunFurther(es, n - 1);
      ConsistentExactly(Run(es[..n - 1]), es[n - 1]);
    }
  }

  /** The controller is consistent at every moment of a run if and only if the run never shows an edit that has
      wrapped around. */
  lemma {:induction false} RunIsConsistent(es: seq<Event>)
    ensures NeverShowsZero(es) <==> forall n: nat :: n <= |es| ==> Consistent(Run(es[..n]).store)
  {
    if NeverShowsZero(es) {
      forall n: nat | n <= |es| ensures Consistent(Run(es[..n]).store) {
        ConsistentUpTo(es, n);
      }
    } else {
      var n: nat :| n < |es| && ShowsZero(Run(es[..n]), es[n]);
      if Consistent(Run(es[..n]).store) {
        RunIsSound(es, n);
        RunFurther(es, n);
        ConsistentExactly(Run(es[..n]), es[n]);
      }
    }
  }

  /** From one moment to a later one with the same session id, what is visible has not gone back. */
  ghost predicate Forward(a: Store, b: Store) {
    a.id == b.id ==> Compare(a.shown, b.shown) <= 0 && a.shown.revision <= b.shown.revision
  }

  lemma Chain(a: Store, b: Store, c: Store)
    requires a.id <= b.id <= c.id && Forward(a, b) && (b.id == c.id ==> Compare(b.shown, c.shown) <= 0)
    ensures Forward(a, c)
  {
    if a.id == c.id {
      OrderIsTransitive(a.shown, b.shown, c.shown);
    }
  }

  lemma {:induction false} ForwardBetween(es: seq<Event>, m: nat, n: nat)
    requires NeverShowsFallen(es) && m <= n <= |es|
    ensures Run(es[..m]).store.id <= Run(es[..n]).store.id
    ensures Forward(Run(es[..m]).store, Run(es[..n]).store)
  {
    if m == n {
      OrderIsTotal(Run(es[..m]).store.shown, Run(es[..m]).store.shown);
    } else {
      ForwardBetween(es, m, n - 1);
      RunIsSound(es, n - 1);
      RunFurther(es, n - 1);
      VisibleExactly(Run(es[..n - 1]), es[n - 1]);
      Chain(Run(es[..m]).store, Run(es[..n - 1]).store, Run(es[..n]).store);
    }
  }

  lemma BackAtOnce(s: System, e: Event)
    requires Sound(s) && Shows(s, e) && Fallen(s)
    ensures !Forward(s.store, Next(s, e).store)
  {
    VisibleExactly(s, e);
  }

  /** Within one session id what is visible never goes back in a run if and only if the run never shows the
      document of a workspace that has fallen. */
  lemma {:induction false} VisibleIsMonotone(es: seq<Event>)
    ensures NeverShowsFallen(es) <==>
      forall m: nat, n: nat :: m <= n <= |es| ==> Forward(Run(es[..m]).store, Run(es[..n]).store)
  {
    if NeverShowsFallen(es) {
      forall m: nat, n: nat | m <= n <= |es| ensures Forward(Run(es[..m]).store, Run(es[..n]).store) {
        ForwardBetween(es, m, n);
      }
    } else {
      var n: nat :| n < |es| && Shows(Run(es[..n]), es[n]) && Fallen(Run(es[..n]));
      RunIsSound(es, n);
      RunFurther(es, n);
      BackAtOnce(Run(es[..n]), es[n]);
      assert !Forward(Run(es[..n]).store, Run(es[..n + 1]).store);
    }
  }

  lemma {:induction false} UnwrappedUpTo(es: seq<Event>, n: nat)
    requires NeverWraps(es) && n <= |es|
    ensures Unwrapped(Run(es[..n]))
  {
    if n > 0 {
      UnwrappedUpTo(es, n - 1);
      RunIsSound(es, n - 1);
      RunFurther(es, n - 1);
      StaysUnwrapped(Run(es[..n - 1]), es[n - 1]);
    }
  }

  /** A run without an edit at the highest revision does neither. */
  lemma {:induction false} WithoutWraps(es: seq<Event>)
    requires NeverWraps(es)
    ensures NeverShowsZero(es) && NeverShowsFallen(es)
  {
    forall n: nat | n < |es| ensures Unwrapped(Run(es[..n])) {
      UnwrappedUpTo(es, n);
    }
  }
}
