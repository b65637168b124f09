/** What the scheduler promises over whole runs: its ledger balances, active streams share the link
    in proportion to their weights, and no active stream is passed over for long. */
module Fairness {
  import opened Wrappers
  import opened Scheduler

  /** One turn as the caller uses it: `Next(maxBytes)` and then `Commit(id, used, done)`. */
  datatype Use = Use(maxBytes: int, used: int, done: bool)

  /** The scheduler between turns, with the bytes each stream was served and the credits it was given. */
  datatype Ledger = Ledger(sched: Sched, served: seq<int>, refills: seq<int>)

  ghost predicate Between(l: Ledger) {
    && Valid(l.sched) && l.sched.current.None?
    && |l.served| == |l.refills| == |l.sched.streams|
  }

  function Opened(l: Ledger, u: Use): (s: Sched)
    requires Between(l) && u.maxBytes > 0 && l.sched.active > 0
    ensures Valid(s) && s.current == Some(Chosen(l.sched)) && s.cursor == Chosen(l.sched)
  {
    NextKeepsValid(l.sched, u.maxBytes);
    NextTurn(l.sched, u.maxBytes).0
  }

  /** The calls both succeed. */
  ghost predicate Legal(l: Ledger, u: Use) {
    && Between(l) && u.maxBytes > 0 && l.sched.active > 0
    && 0 <= u.used <= Opened(l, u).budget
    && (u.used > 0 || u.done)
  }

  ghost function Play(l: Ledger, u: Use): (m: Ledger)
    requires Legal(l, u)
    ensures Between(m)
  {
    var s := Opened(l, u);
    var c := s.cursor;
    CommitKeepsValid(s, s.streams[c].id, u.used, u.done);
    var refill := if l.sched.streams[c].deficit <= 0 then 1 else 0;
    Ledger(Settle(s, u.used, u.done),
           l.served[c := l.served[c] + u.used],
           l.refills[c := l.refills[c] + refill])
  }

  ghost predicate LegalRun(l: Ledger, us: seq<Use>)
    decreases |us|, 0
  {
    us == [] || (LegalRun(l, us[..|us| - 1]) && Legal(PlayAll(l, us[..|us| - 1]), us[|us| - 1]))
  }

  ghost function PlayAll(l: Ledger, us: seq<Use>): (m: Ledger)
    requires LegalRun(l, us)
    decreases |us|, 1
  {
    if us == [] then l else Play(PlayAll(l, us[..|us| - 1]), us[|us| - 1])
  }

  function Start(rs: seq<Request>, quantum: int): Ledger {
    var zeros := seq(|rs|, _ => 0);
    Ledger(Sched(FreshAll(rs), quantum, 0, |rs|, None, 0), zeros, zeros)
  }

  /** What one turn does, stream by stream: `c` had it, with `full` bytes of credit and `budget` of
      them on offer. */
  ghost predicate Played(l: Ledger, u: Use, c: int, budget: int, m: Ledger) {
    && |m.sched.streams| == |l.sched.streams| == |l.served| == |l.refills| == |m.served| == |m.refills|
    && m.sched.quantum == l.sched.quantum && 0 <= c < |l.served|
    && (forall i :: 0 <= i < |l.served| ==> m.sched.streams[i].weight == l.sched.streams[i].weight)
    && (forall i :: 0 <= i < |l.served| && i != c ==> m.sched.streams[i] == l.sched.streams[i])
    && m.served == l.served[c := l.served[c] + u.used]
    && m.refills == l.refills[c := l.refills[c] + if l.sched.streams[c].deficit == 0 then 1 else 0]
    && m.sched.streams[c].active == !u.done
    && (var x := l.sched.streams[c];
        var full := if x.deficit == 0 then Credit(l.sched.quantum, x) else x.deficit;
        && 0 <= u.used <= budget == Min(u.maxBytes, full)
        && m.sched.streams[c].deficit == if u.done then 0 else full - u.used)
    && m.sched.active == l.sched.active - (if u.done then 1 else 0)
    && m.sched.cursor
       == (if (u.done || m.sched.streams[c].deficit == 0 || u.used < budget) && m.sched.active > 0
           then Forward(|l.served|, c, 1) else c)
  }

  lemma PlayFacts(l: Ledger, u: Use)
    requires Legal(l, u)
    ensures Played(l, u, Chosen(l.sched), Opened(l, u).budget, Play(l, u))
  {
  }

  // The ledger.

  /** Served bytes and unused credit add up to the credits given, for every stream still active. */
  ghost predicate Balanced(l: Ledger) {
    && Between(l)
    && (forall i :: 0 <= i < |l.served| ==> 0 <= l.served[i] && 0 <= l.refills[i])
    && (forall i :: 0 <= i < |l.served| && l.sched.streams[i].active ==>
        l.served[i] + l.sched.streams[i].deficit == Granted(l, i))
  }

  ghost function Granted(l: Ledger, i: int): int
    requires 0 <= i < |l.sched.streams| && i < |l.refills|
  {
    Credit(l.sched.quantum, l.sched.streams[i]) * l.refills[i]
  }

  lemma MulSucc(a: int, b: int)
    ensures a * (b + 1) == a * b + a
  {
  }

  lemma PlayKeepsBalanced(l: Ledger, u: Use, c: int, budget: int, m: Ledger)
    requires Balanced(l) && Between(m) && Played(l, u, c, budget, m) && l.sched.streams[c].active
    ensures Balanced(m)
  {
    MulSucc(Credit(l.sched.quantum, l.sched.streams[c]), l.refills[c]);
    forall i | 0 <= i < |m.served| && m.sched.streams[i].active
      ensures m.served[i] + m.sched.streams[i].deficit == Granted(m, i)
    {
      if i != c {
        assert Granted(m, i) == Granted(l, i);
      }
    }
  }

  lemma StartIsBalanced(rs: seq<Request>, quantum: int)
    requires Acceptable(rs, quantum)
    ensures Balanced(Start(rs, quantum))
  {
    FreshIsValid(rs, quantum);
  }

  /** For any legal use of a new scheduler, short reads included: credits stay within bounds, the
      active counter counts the active streams, and the books of every active stream balance. */
  lemma {:induction false} LedgerBalances(rs: seq<Request>, quantum: int, us: seq<Use>)
    requires Acceptable(rs, quantum) && LegalRun(Start(rs, quantum), us)
    ensures Balanced(PlayAll(Start(rs, quantum), us))
  {
    if us == [] {
      StartIsBalanced(rs, quantum);
    } else {
      LedgerBalances(rs, quantum, us[..|us| - 1]);
      var l, u := PlayAll(Start(rs, quantum), us[..|us| - 1]), us[|us| - 1];
      PlayFacts(l, u);
      PlayKeepsBalanced(l, u, Chosen(l.sched), Opened(l, u).budget, Play(l, u));
    }
  }

  // Weighted fairness.

  /** The turn uses its whole budget unless the stream is finished. */
  ghost predicate Full(l: Ledger, u: Use)
    requires Legal(l, u)
  {
    u.done || u.used == Opened(l, u).budget
  }

  ghost predicate FullRun(l: Ledger, us: seq<Use>)
    requires LegalRun(l, us)
  {
    us == [] || (FullRun(l, us[..|us| - 1]) && Full(PlayAll(l, us[..|us| - 1]), us[|us| - 1]))
  }

  /** Stream `i` stands in round `r`: finished with it before the cursor, not yet begun after it. */
  ghost predicate InRound(l: Ledger, i: int, r: int)
    requires Between(l) && 0 <= i < |l.sched.streams|
  {
    var d := l.sched.streams[i].deficit;
    if i < l.sched.cursor then l.refills[i] == r + 1 && d == 0
    else if i > l.sched.cursor then l.refills[i] == r && d == 0
    else (l.refills[i] == r && d == 0) || (l.refills[i] == r + 1 && d > 0)
  }

  ghost predicate Rounds(l: Ledger, r: int) {
    && Balanced(l) && r >= 0
    && forall i :: 0 <= i < |l.sched.streams| && l.sched.streams[i].active ==> InRound(l, i, r)
  }

  /** The streams the cursor skips are inactive. */
  lemma SkippedInactive(s: Sched, i: int)
    requires Valid(s) && s.active > 0 && 0 <= i < |s.streams|
    ensures s.cursor <= i < Chosen(s) ==> !s.streams[i].active
    ensures Chosen(s) < s.cursor && (i < Chosen(s) || s.cursor <= i) ==> !s.streams[i].active
  {
    var n := |s.streams|;
    var e := if i >= s.cursor then i - s.cursor else i - s.cursor + n;
    assert Forward(n, s.cursor, e) == i;
  }

  /** Moving the cursor to the chosen stream keeps the rounds, one round on if it wrapped. */
  lemma CursorKeepsRounds(l: Ledger, r: int) returns (moved: Ledger, q: int)
    requires Rounds(l, r) && l.sched.active > 0
    ensures moved == l.(sched := l.sched.(cursor := Chosen(l.sched))) && Rounds(moved, q)
  {
    moved := l.(sched := l.sched.(cursor := Chosen(l.sched)));
    q := if Chosen(l.sched) < l.sched.cursor then r + 1 else r;
    forall i | 0 <= i < |l.sched.streams| && l.sched.streams[i].active
      ensures InRound(moved, i, q)
    {
      SkippedInactive(l.sched, i);
      assert InRound(l, i, r);
    }
    forall i | 0 <= i < |moved.served| && moved.sched.streams[i].active
      ensures moved.served[i] + moved.sched.streams[i].deficit == Granted(moved, i)
    {
      assert Granted(moved, i) == Granted(l, i);
    }
  }

  /** `l` has its cursor on `c` already. */
  lemma TurnKeepsRounds(l: Ledger, u: Use, c: int, budget: int, m: Ledger, r: int) returns (q: int)
    requires Rounds(l, r) && Between(m) && Played(l, u, c, budget, m) && l.sched.streams[c].active
    requires l.sched.cursor == c && (u.done || u.used == budget > 0)
    ensures Rounds(m, q)
  {
    PlayKeepsBalanced(l, u, c, budget, m);
    assert InRound(l, c, r) && WithinCredit(l.sched.quantum, l.sched.streams[c]);
    q := if m.sched.cursor < c || (m.sched.cursor == c && m.sched.streams[c].deficit == 0) then r + 1 else r;
    forall i | 0 <= i < |m.sched.streams| && m.sched.streams[i].active
      ensures InRound(m, i, q)
    {
      ActiveCountPositive(m.sched.streams, i);
      if i != c {
        assert InRound(l, i, r);
      }
    }
  }

  lemma PlayKeepsRounds(l: Ledger, u: Use, r: int) returns (q: int)
    requires Rounds(l, r) && Legal(l, u) && Full(l, u)
    ensures Rounds(Play(l, u), q)
  {
    var moved, p := CursorKeepsRounds(l, r);
    PlayFacts(l, u);
    q := TurnKeepsRounds(moved, u, Chosen(l.sched), Opened(l, u).budget, Play(l, u), p);
  }

  lemma {:induction false} FullRunsKeepRounds(rs: seq<Request>, quantum: int, us: seq<Use>) returns (r: int)
    requires Acceptable(rs, quantum) && LegalRun(Start(rs, quantum), us) && FullRun(Start(rs, quantum), us)
    ensures Rounds(PlayAll(Start(rs, quantum), us), r)
  {
    if us == [] {
      StartIsBalanced(rs, quantum);
      r := 0;
    } else {
      var p := FullRunsKeepRounds(rs, quantum, us[..|us| - 1]);
      r := PlayKeepsRounds(PlayAll(Start(rs, quantum), us[..|us| - 1]), us[|us| - 1], p);
    }
  }

  /** In round `r` an active stream has had between `r` and `r + 1` credits' worth of bytes. */
  lemma ServedInRound(l: Ledger, r: int, i: int)
    requires Rounds(l, r) && 0 <= i < |l.sched.streams| && l.sched.streams[i].active
    ensures Credit(l.sched.quantum, l.sched.streams[i]) * r <= l.served[i]
         <= Credit(l.sched.quantum, l.sched.streams[i]) * (r + 1)
  {
    var x := l.sched.streams[i];
    assert InRound(l, i, r) && WithinCredit(l.sched.quantum, x);
    MulSucc(Credit(l.sched.quantum, x), r);
    assert l.served[i] + x.deficit == Granted(l, i);
  }

  lemma WeighUp(q: int, r: int, wi: int, wj: int, si: int, sj: int)
    requires wi > 0 && wj > 0
    requires si <= q * wi * (r + 1) && q * wj * r <= sj
    ensures si * wj - sj * wi <= q * wi * wj
  {
    MulMono(si, q * wi * (r + 1), wj);
    MulMono(q * wj * r, sj, wi);
    assert q * wi * (r + 1) * wj == q * wi * r * wj + q * wi * wj;
    assert q * wj * r * wi == q * wi * r * wj;
  }

  lemma MulMono(a: int, b: int, w: int)
    requires a <= b && w > 0
    ensures a * w <= b * w
  {
  }

  /** In one round, the shares of two active streams per unit of weight are a quantum apart at most. */
  lemma RoundsAreFair(l: Ledger, r: int, i: int, j: int)
    requires Rounds(l, r) && 0 <= i < |l.served| && 0 <= j < |l.served|
    requires l.sched.streams[i].active && l.sched.streams[j].active
    ensures
      var wi, wj := l.sched.streams[i].weight, l.sched.streams[j].weight;
      l.served[i] * wj - l.served[j] * wi <= l.sched.quantum * wi * wj
  {
    ServedInRound(l, r, i);
    ServedInRound(l, r, j);
    assert WithinCredit(l.sched.quantum, l.sched.streams[i]) && WithinCredit(l.sched.quantum, l.sched.streams[j]);
    WeighUp(l.sched.quantum, r, l.sched.streams[i].weight, l.sched.streams[j].weight, l.served[i], l.served[j]);
  }

  /** Exact weighted fairness: whatever maximum turn sizes are used, two streams that are still
      active have been served, per unit of weight, amounts at most one quantum apart. */
  lemma WeightedFairness(rs: seq<Request>, quantum: int, us: seq<Use>, i: nat, j: nat)
    requires Acceptable(rs, quantum) && LegalRun(Start(rs, quantum), us) && FullRun(Start(rs, quantum), us)
    requires i < |rs| && j < |rs|
    requires
      var l := PlayAll(Start(rs, quantum), us);
      |l.sched.streams| == |l.served| == |rs| && l.sched.streams[i].active && l.sched.streams[j].active
    ensures
      var l := PlayAll(Start(rs, quantum), us);
      l.served[i] * rs[j].weight - l.served[j] * rs[i].weight <= quantum * rs[i].weight * rs[j].weight
  {
    var r := FullRunsKeepRounds(rs, quantum, us);
    WeightsStay(rs, quantum, us);
    RoundsAreFair(PlayAll(Start(rs, quantum), us), r, i, j);
  }

  lemma {:induction false} WeightsStay(rs: seq<Request>, quantum: int, us: seq<Use>)
    requires Acceptable(rs, quantum) && LegalRun(Start(rs, quantum), us)
    ensures
      var l := PlayAll(Start(rs, quantum), us);
      && l.sched.quantum == quantum && |l.sched.streams| == |rs|
      && (forall k :: 0 <= k < |rs| ==> l.sched.streams[k].weight == rs[k].weight)
  {
    if us != [] {
      WeightsStay(rs, quantum, us[..|us| - 1]);
      var l := PlayAll(Start(rs, quantum), us[..|us| - 1]);
      PlayFacts(l, us[|us| - 1]);
    }
  }

  // Starvation.

  /** How far position `p` lies beyond the one just after `i`; `i` itself comes last. */
  function Ahead(n: int, i: int, p: int): (a: int)
    requires 0 <= i < n && 0 <= p < n
    ensures 0 <= a < n && (a == n - 1 <==> p == i)
  {
    if p > i then p - i - 1 else p - i - 1 + n
  }

  /** No turn of the run goes to stream `i`. */
  ghost predicate Avoids(l: Ledger, us: seq<Use>, i: int)
    requires LegalRun(l, us)
  {
    us == [] || (Avoids(l, us[..|us| - 1], i) && Chosen(PlayAll(l, us[..|us| - 1]).sched) != i)
  }

  /** What stream `j` has gained since `base`, when the wait of `i` began. */
  ghost predicate Gain(base: Ledger, l: Ledger, i: int, j: int)
    requires Between(base) && Between(l) && |base.served| == |l.served|
    requires 0 <= i < |l.served| && 0 <= j < |l.served|
  {
    var n := |l.served|;
    var x := l.sched.streams[j];
    var g := l.served[j] - base.served[j];
    if Ahead(n, i, j) > Ahead(n, i, l.sched.cursor) then g == 0
    else if j == l.sched.cursor && x.active && x.deficit > 0 then 0 <= g <= Credit(l.sched.quantum, x) - x.deficit
    else if j == l.sched.cursor && x.active then g == 0
    else 0 <= g <= Credit(l.sched.quantum, x)
  }

  ghost predicate Waiting(base: Ledger, l: Ledger, i: int) {
    && Between(base) && Between(l) && |base.served| == |l.served|
    && 0 <= i < |l.served| && l.sched.streams[i].active
    && l.sched.quantum == base.sched.quantum
    && (forall j :: 0 <= j < |l.served| ==> l.sched.streams[j].weight == base.sched.streams[j].weight)
    && (forall j :: 0 <= j < |l.served| && j != i ==> Gain(base, l, i, j))
    && l.served[i] == base.served[i]
  }

  /** While `i` is active and waiting, the cursor only comes nearer to it. */
  lemma CursorApproaches(s: Sched, i: int)
    requires Valid(s) && 0 <= i < |s.streams| && s.streams[i].active && s.active > 0
    ensures Ahead(|s.streams|, i, s.cursor) <= Ahead(|s.streams|, i, Chosen(s))
  {
    SkippedInactive(s, i);
  }

  lemma TurnKeepsWaiting(base: Ledger, l: Ledger, i: int, u: Use, c: int, budget: int, m: Ledger)
    requires Waiting(base, l, i) && Between(m) && Played(l, u, c, budget, m) && c != i
    requires l.sched.streams[c].active && m.sched.active > 0
    requires Ahead(|l.served|, i, l.sched.cursor) <= Ahead(|l.served|, i, c)
    ensures Waiting(base, m, i)
    ensures Ahead(|l.served|, i, c) <= Ahead(|l.served|, i, m.sched.cursor)
  {
    forall j | 0 <= j < |m.served| && j != i ensures Gain(base, m, i, j) {
      assert Gain(base, l, i, j);
      assert WithinCredit(l.sched.quantum, l.sched.streams[j]);
    }
  }

  lemma PlayKeepsWaiting(base: Ledger, l: Ledger, i: int, u: Use)
    requires Waiting(base, l, i) && Legal(l, u) && Chosen(l.sched) != i
    ensures Waiting(base, Play(l, u), i)
    ensures Ahead(|l.served|, i, l.sched.cursor) <= Ahead(|l.served|, i, Chosen(l.sched))
         <= Ahead(|l.served|, i, Play(l, u).sched.cursor)
  {
    PlayFacts(l, u);
    CursorApproaches(l.sched, i);
    ActiveCountPositive(Play(l, u).sched.streams, i);
    TurnKeepsWaiting(base, l, i, u, Chosen(l.sched), Opened(l, u).budget, Play(l, u));
  }

  lemma {:induction false} WaitGoesOn(base: Ledger, i: int, us: seq<Use>)
    requires Between(base) && LegalRun(base, us) && Avoids(base, us, i)
    requires 0 <= i < |base.served| && base.sched.streams[i].active
    requires base.sched.cursor == Forward(|base.served|, i, 1)
    ensures Waiting(base, PlayAll(base, us), i)
  {
    if us == [] {
      forall j | 0 <= j < |base.served| && j != i ensures Gain(base, base, i, j) {
        assert WithinCredit(base.sched.quantum, base.sched.streams[j]);
      }
    } else {
      WaitGoesOn(base, i, us[..|us| - 1]);
      PlayKeepsWaiting(base, PlayAll(base, us[..|us| - 1]), i, us[|us| - 1]);
    }
  }

  /** From the moment the cursor leaves an active stream until its next turn, every other stream is
      served at most one credit, that is quantum times its weight. */
  lemma StarvationBound(base: Ledger, i: int, us: seq<Use>, j: int)
    requires Between(base) && LegalRun(base, us) && Avoids(base, us, i)
    requires 0 <= i < |base.served| && base.sched.streams[i].active && 0 <= j < |base.served| && j != i
    requires base.sched.cursor == Forward(|base.served|, i, 1)
    ensures |PlayAll(base, us).served| == |base.served|
    ensures PlayAll(base, us).served[j] - base.served[j] <= base.sched.quantum * base.sched.streams[j].weight
  {
    WaitGoesOn(base, i, us);
    var l := PlayAll(base, us);
    assert Gain(base, l, i, j) && WithinCredit(l.sched.quantum, l.sched.streams[j]);
  }

  lemma {:induction false} PrefixLegal(l: Ledger, us: seq<Use>, k: nat)
    requires LegalRun(l, us) && k <= |us|
    ensures LegalRun(l, us[..k])
    decreases |us|
  {
    if k < |us| {
      PrefixLegal(l, us[..|us| - 1], k);
      assert us[..|us| - 1][..k] == us[..k];
    } else {
      assert us[..k] == us;
    }
  }

  /** The stream that had turn `k`. */
  ghost function TurnOf(l: Ledger, us: seq<Use>, k: nat): int
    requires LegalRun(l, us) && k < |us|
  {
    PrefixLegal(l, us, k + 1);
    assert us[..k + 1][..k] == us[..k];
    Chosen(PlayAll(l, us[..k]).sched)
  }

  /** During the wait the turns move once round the ring: a stream that the cursor has left is not
      visited again. */
  lemma {:induction false} VisitedOnce(base: Ledger, i: int, us: seq<Use>, a: nat, b: nat)
    requires Between(base) && LegalRun(base, us) && Avoids(base, us, i)
    requires 0 <= i < |base.served| && base.sched.streams[i].active
    requires base.sched.cursor == Forward(|base.served|, i, 1)
    requires a <= b < |us|
    ensures
      var n := |base.served|;
      && 0 <= TurnOf(base, us, a) < n && 0 <= TurnOf(base, us, b) < n
      && Ahead(n, i, TurnOf(base, us, a)) <= Ahead(n, i, TurnOf(base, us, b)) < n - 1
    decreases b - a
  {
    TurnStands(base, i, us, a);
    TurnStands(base, i, us, b);
    if a < b {
      VisitedOnce(base, i, us, a + 1, b);
      TurnStands(base, i, us, a + 1);
    }
  }

  lemma {:induction false} PrefixAvoids(base: Ledger, us: seq<Use>, i: int, k: nat)
    requires LegalRun(base, us) && Avoids(base, us, i) && k <= |us|
    ensures LegalRun(base, us[..k]) && Avoids(base, us[..k], i)
    decreases |us|
  {
    if k < |us| {
      PrefixAvoids(base, us[..|us| - 1], i, k);
      assert us[..|us| - 1][..k] == us[..k];
    } else {
      assert us[..k] == us;
    }
  }

  /** Turn `k` of the wait, seen from the cursor before and after it. */
  lemma TurnStands(base: Ledger, i: int, us: seq<Use>, k: nat)
    requires Between(base) && LegalRun(base, us) && Avoids(base, us, i) && k < |us|
    requires 0 <= i < |base.served| && base.sched.streams[i].active
    requires base.sched.cursor == Forward(|base.served|, i, 1)
    ensures LegalRun(base, us[..k]) && LegalRun(base, us[..k + 1])
    ensures
      var n := |base.served|;
      var l := PlayAll(base, us[..k]);
      var m := PlayAll(base, us[..k + 1]);
      && |l.served| == |m.served| == |l.sched.streams| == |m.sched.streams| == n
      && Between(l) && Between(m) && l.sched.active > 0
      && TurnOf(base, us, k) == Chosen(l.sched) != i
      && Ahead(n, i, l.sched.cursor) <= Ahead(n, i, Chosen(l.sched)) <= Ahead(n, i, m.sched.cursor)
  {
    PrefixAvoids(base, us, i, k);
    PrefixAvoids(base, us, i, k + 1);
    assert us[..k + 1][..k] == us[..k] && us[..k + 1][k] == us[k];
    WaitGoesOn(base, i, us[..k]);
    PlayKeepsWaiting(base, PlayAll(base, us[..k]), i, us[k]);
  }

  // Bounded waiting: the number of turns before an active stream is served again.

  ghost function Sum(xs: seq<int>): int {
    if xs == [] then 0 else Sum(xs[..|xs| - 1]) + xs[|xs| - 1]
  }

  lemma {:induction false} SumUpdate(xs: seq<int>, k: nat, x: int)
    requires k < |xs|
    ensures Sum(xs[k := x]) == Sum(xs) - xs[k] + x
  {
    var last := |xs| - 1;
    if k == last {
      assert xs[k := x][..last] == xs[..last];
    } else {
      assert xs[k := x][..last] == xs[..last][k := x];
      SumUpdate(xs[..last], k, x);
    }
  }

  lemma TurnIsPaid(l: Ledger, u: Use, c: int, budget: int, m: Ledger)
    requires Played(l, u, c, budget, m) && (u.used > 0 || u.done)
    ensures 1 <= Sum(m.served) - Sum(l.served) + l.sched.active - m.sched.active
  {
    SumUpdate(l.served, c, l.served[c] + u.used);
  }

  /** Every turn serves a byte or finishes a stream. */
  lemma {:induction false} TurnsArePaid(base: Ledger, us: seq<Use>)
    requires Between(base) && LegalRun(base, us)
    ensures |us| <= Sum(PlayAll(base, us).served) - Sum(base.served)
                    + base.sched.active - PlayAll(base, us).sched.active
  {
    if us != [] {
      TurnsArePaid(base, us[..|us| - 1]);
      var l, u := PlayAll(base, us[..|us| - 1]), us[|us| - 1];
      PlayFacts(l, u);
      TurnIsPaid(l, u, Chosen(l.sched), Opened(l, u).budget, Play(l, u));
    }
  }

  /** The credits of the first `k` streams, leaving out `i`. */
  ghost function OthersCredit(s: Sched, i: int, k: nat): int
    requires k <= |s.streams|
  {
    if k == 0 then 0
    else OthersCredit(s, i, k - 1) + (if k - 1 == i then 0 else s.quantum * s.streams[k - 1].weight)
  }

  lemma {:induction false} GainsAddUp(base: Ledger, l: Ledger, i: int, k: nat)
    requires Waiting(base, l, i) && k <= |l.served|
    ensures Sum(l.served[..k]) - Sum(base.served[..k]) <= OthersCredit(base.sched, i, k)
  {
    if k > 0 {
      GainsAddUp(base, l, i, k - 1);
      assert l.served[..k][..k - 1] == l.served[..k - 1];
      assert base.served[..k][..k - 1] == base.served[..k - 1];
      if k - 1 != i {
        assert Gain(base, l, i, k - 1) && WithinCredit(l.sched.quantum, l.sched.streams[k - 1]);
      }
    }
  }

  /** An active stream waits at most as many turns as the other streams have credit bytes, plus one
      for each stream that can finish meanwhile. */
  lemma BoundedWaiting(base: Ledger, i: int, us: seq<Use>)
    requires Between(base) && LegalRun(base, us) && Avoids(base, us, i)
    requires 0 <= i < |base.served| && base.sched.streams[i].active
    requires base.sched.cursor == Forward(|base.served|, i, 1)
    ensures |us| <= OthersCredit(base.sched, i, |base.served|) + base.sched.active - 1
  {
    TurnsArePaid(base, us);
    WaitGoesOn(base, i, us);
    var l := PlayAll(base, us);
    GainsAddUp(base, l, i, |l.served|);
    assert l.served[..|l.served|] == l.served && base.served[..|base.served|] == base.served;
    ActiveCountPositive(l.sched.streams, i);
  }
}
