/**
 * Whose mailbox a read drains. `read_messages` (src/server/tools/peer-bus.ts) authenticates before it gets
 * in line for the lock and does not check again once it has it.
 */
module PeerBusReaders {
  import opened Prelude
  import opened MessageStore
  import opened Registry
  import opened RegistryFile
  import opened PeerBus
  import opened PeerBusInvariant
  import opened PeerBusSteps
  import opened PeerBusSends
  import opened PeerBusTheorems

  /** The event commits a registration of the name. */
  predicate Registers(s: Bus, e: Event, n: string)
    requires Enabled(s, e)
  {
    e.RegisterCommit? && s.calls[e.c].name == n
  }

  /** Some event of the run does. */
  predicate Reregistered(s: Bus, es: seq<Event>, n: string)
    requires Runs(s, es)
    decreases |es|
  {
    es != [] && (Registers(s, es[0], n) || Reregistered(Apply(s, es[0]), es[1..], n))
  }

  /** A token that a registration of this process has returned; no call will carry its name again. */
  predicate Spent(s: Bus, token: string) {
    token in s.issued && token !in s.calls
  }

  lemma ActingIsLive(s: Bus, e: Event, c: CallId)
    requires Enabled(s, e) && c in Acting(e)
    ensures c in s.calls || Undrawn(s, c)
  {
  }

  lemma SpentStays(s: Bus, e: Event, token: string)
    requires Inv(s) && Enabled(s, e) && !e.Restart? && Spent(s, token)
    ensures Spent(Apply(s, e), token)
  {
    EventKeeps(s, e);
    if token in Acting(e) {
      ActingIsLive(s, e, token);
    }
  }

  lemma OthersCommitNothing(s: Bus, e: Event)
    requires Enabled(s, e) && !e.Restart? && !e.RegisterCommit?
    ensures Apply(s, e).committed == s.committed
  {
    if e.SendRefuse? || e.SendCommit? || e.SendRollback? {
      SendEnds(s, e);
    }
  }

  lemma CommittedStep(s: Bus, e: Event, n: string)
    requires Enabled(s, e) && !e.Restart?
    ensures CommittedTo(Apply(s, e), n) == if Registers(s, e, n) then Some(e.c) else CommittedTo(s, n)
  {
    if !e.RegisterCommit? {
      OthersCommitNothing(s, e);
    }
  }

  /** A token stays that of the last committed registration until the next one commits, and never is again. */
  lemma {:induction false} TokenOverRun(s: Bus, es: seq<Event>, n: string, token: string)
    requires Inv(s) && Runs(s, es) && NoRestart(es) && Spent(s, token)
    ensures Spent(After(s, es), token)
    ensures CommittedTo(After(s, es), n) == Some(token) <==> CommittedTo(s, n) == Some(token) && !Reregistered(s, es, n)
    decreases |es|
  {
    if es != [] {
      EventKeeps(s, es[0]);
      SpentStays(s, es[0], token);
      CommittedStep(s, es[0], n);
      assert NoRestart(es[1..]);
      TokenOverRun(Apply(s, es[0]), es[1..], n, token);
    }
  }

  lemma {:induction false} ReachableRuns(s: Bus, es: seq<Event>)
    requires Reachable(s) && Runs(s, es)
    ensures Reachable(After(s, es))
    decreases |es|
  {
    if es != [] {
      ReachableSteps(s, es[0]);
      ReachableRuns(Apply(s, es[0]), es[1..]);
    }
  }

  /** A token that somebody can present and that authenticates is that of the name's last committed registration. */
  lemma TokenIsSpent(s: Bus, n: string, token: string)
    requires Reachable(s) && Presentable(s, token) && Authenticates(s.sessions, n, token)
    ensures CommittedTo(s, n) == Some(token) && Spent(s, token)
  {
    ReachableHolds(s);
    PersistingIsSecret(s, token, n);
    OnlyTheCommittedToken(s, n, token);
  }

  lemma OneHolder(s: Bus, e: Event, c: CallId, n: string)
    requires Inv(s) && Enabled(s, e) && c in s.calls && n in Holds(s.calls[c]) && !s.calls[c].RegisterPersisting?
    ensures !Registers(s, e, n)
  {
    assert Heads(s, n, c);
    forall x | x in s.calls && n in Holds(s.calls[x]) ensures x == c {
      assert Heads(s, n, x);
    }
  }

  /** One process, and everybody but this call acts. */
  ghost predicate Elsewhere(es: seq<Event>, c: CallId) {
    NoRestart(es) && forall i :: 0 <= i < |es| ==> c !in Acting(es[i])
  }

  /** While a reader holds its lock, no registration of its name commits. */
  lemma {:induction false} NobodyRegisters(s: Bus, es: seq<Event>, c: CallId, n: string)
    requires Inv(s) && Runs(s, es) && Elsewhere(es, c)
    requires c in s.calls && n in Holds(s.calls[c]) && !s.calls[c].RegisterPersisting?
    ensures !Reregistered(s, es, n)
    decreases |es|
  {
    if es != [] {
      OneHolder(s, es[0], c, n);
      EventKeeps(s, es[0]);
      assert Elsewhere(es[1..], c);
      NobodyRegisters(Apply(s, es[0]), es[1..], c, n);
    }
  }

  lemma AuthenticatesAtDrain(s: Bus, c: CallId, n: string, token: string)
    requires Reachable(s) && Spent(s, token) && c in s.calls && s.calls[c].ReadLoading? && s.calls[c].name == n
    ensures Authenticates(s.sessions, n, token) <==> CommittedTo(s, n) == Some(token)
  {
    ReachableHolds(s);
    assert n in Holds(s.calls[c]);
    HolderAt(s, n, c);
    OnlyTheCommittedToken(s, n, token);
  }

  lemma LoadStarts(s: Bus, loads: Bus, c: CallId, n: string)
    requires c in s.calls && s.calls[c] == ReadLocking(n) && Heads(s, n, c) && loads == Apply(s, ReadLoad(c))
    ensures c in loads.calls && loads.calls[c].ReadLoading? && loads.calls[c].name == n
    ensures loads.committed == s.committed && loads.issued == s.issued && loads.calls.Keys == s.calls.Keys
  {
  }

  lemma LoadsWithToken(waited: Bus, loads: Bus, c: CallId, n: string, token: string)
    requires Reachable(waited) && Spent(waited, token) && c in waited.calls && waited.calls[c] == ReadLocking(n)
    requires Enabled(waited, ReadLoad(c)) && loads == Apply(waited, ReadLoad(c))
    ensures Reachable(loads) && Spent(loads, token) && c in loads.calls && loads.calls[c].ReadLoading? && loads.calls[c].name == n
    ensures CommittedTo(loads, n) == CommittedTo(waited, n)
  {
    LoadStarts(waited, loads, c, n);
    ReachableSteps(waited, ReadLoad(c));
  }

  /** From the moment a reader has its lock to its drain, nothing changes about its token. */
  lemma {:induction false} DrainsWithToken(loads: Bus, drains: Bus, c: CallId, n: string, token: string, loading: seq<Event>)
    requires Reachable(loads) && Spent(loads, token) && c in loads.calls && loads.calls[c].ReadLoading? && loads.calls[c].name == n
    requires Runs(loads, loading) && Elsewhere(loading, c) && drains == After(loads, loading)
    ensures c in drains.calls && drains.calls[c] == loads.calls[c]
    ensures CommittedTo(drains, n) == Some(token) <==> CommittedTo(loads, n) == Some(token)
    ensures Authenticates(drains.sessions, n, token) <==> CommittedTo(loads, n) == Some(token)
  {
    ReachableHolds(loads);
    NobodyRegisters(loads, loading, c, n);
    TokenOverRun(loads, loading, n, token);
    CallWaits(loads, loading, c);
    ReachableRuns(loads, loading);
    AuthenticatesAtDrain(drains, c, n, token);
  }

  lemma BeginsWithToken(s: Bus, begun: Bus, c: CallId, token: string, n: string, now: int)
    requires Reachable(s) && Enabled(s, ReadBegin(c, token, n, now)) && begun == Apply(s, ReadBegin(c, token, n, now))
    ensures Reachable(begun) && Inv(begun) && Spent(begun, token) && CommittedTo(begun, n) == Some(token)
    ensures c in begun.calls && begun.calls[c] == ReadLocking(n)
  {
    var e := ReadBegin(c, token, n, now);
    TokenIsSpent(s, n, token);
    ReachableSteps(s, e);
    ReachableHolds(begun);
    ReachableHolds(s);
    SpentStays(s, e, token);
    CommittedStep(s, e, n);
  }

  /**
   * A read begins, waits for its lock, loads the log and is about to drain. The token it was called with
   * is then that of the name's last committed registration, and still authenticates, if and only if no
   * registration of the name committed while the read waited. Anything else may happen in between.
   */
  lemma {:induction false} ReadersToken(s: Bus, begun: Bus, waited: Bus, loads: Bus, drains: Bus,
                     c: CallId, token: string, n: string, now: int, waiting: seq<Event>, loading: seq<Event>)
    requires Reachable(s) && Enabled(s, ReadBegin(c, token, n, now)) && begun == Apply(s, ReadBegin(c, token, n, now))
    requires Runs(begun, waiting) && Elsewhere(waiting, c) && waited == After(begun, waiting)
    requires Enabled(waited, ReadLoad(c)) && loads == Apply(waited, ReadLoad(c))
    requires Runs(loads, loading) && Elsewhere(loading, c) && drains == After(loads, loading)
    ensures c in drains.calls && drains.calls[c].ReadLoading? && drains.calls[c].name == n
    ensures CommittedTo(drains, n) == Some(token) <==> !Reregistered(begun, waiting, n)
    ensures Authenticates(drains.sessions, n, token) <==> !Reregistered(begun, waiting, n)
  {
    BeginsWithToken(s, begun, c, token, n, now);
    TokenOverRun(begun, waiting, n, token);
    CallWaits(begun, waiting, c);
    ReachableRuns(begun, waiting);
    LoadsWithToken(waited, loads, c, n, token);
    DrainsWithToken(loads, drains, c, n, token, loading);
  }

  // ----- What a caller can see when the read begins -----

  predicate Registering(call: Call) {
    call.RegisterLocking? || call.RegisterPersisting?
  }

  /** Whatever this call is doing, it is no registration. */
  predicate Harmless(s: Bus, x: CallId) {
    x in s.calls ==> !Registering(s.calls[x])
  }

  lemma EndedQueue(b: Bus, c: CallId, m: PeerMessage, n: string)
    ensures var t := EndSend(b, c, m);
            Queue(t, n) == Queue(b, n) || (Queue(b, n) != [] && Queue(t, n) == Queue(b, n)[1..])
    ensures EndSend(b, c, m).calls == (if m.from == m.to then b.calls - {c} else b.calls[c := SendReleasing(First(m))])
  {
    if m.from != m.to {
      UnlockedQueue(b, c, First(m), Second(m), n);
    }
  }

  lemma UnlockedQueue(b: Bus, c: CallId, outer: string, inner: string, n: string)
    ensures var t := Unlock(b, c, outer, inner);
            Queue(t, n) == Queue(b, n) || (Queue(b, n) != [] && Queue(t, n) == Queue(b, n)[1..])
  {
  }

  /** What the end of a send works on: the state with the log, the list or the ledger settled. */
  function BeforeEnd(s: Bus, e: Event): Bus
    requires Enabled(s, e) && (e.SendRefuse? || e.SendCommit? || e.SendRollback?)
  {
    var m := s.calls[e.c].msg;
    if e.SendRefuse? then (if e.stored then s.(log := s.log + [m]) else s)
    else if e.SendCommit? then var l := LedgerOf(s, m.to); Enter(s, m.to, l.(sent := l.sent + multiset{e.c}))
    else s.(sessions := SetUnread(s.sessions, m.to, s.calls[e.c].before))
  }

  lemma EndsFrom(s: Bus, e: Event)
    requires Enabled(s, e) && (e.SendRefuse? || e.SendCommit? || e.SendRollback?)
    ensures Apply(s, e) == EndSend(BeforeEnd(s, e), e.c, s.calls[e.c].msg)
    ensures BeforeEnd(s, e).locks == s.locks && BeforeEnd(s, e).calls == s.calls
  {
  }

  /** The queue of a name whose lock the acting call leads stays, or loses its head. */
  lemma LedQueue(s: Bus, e: Event, n: string)
    requires Enabled(s, e) && n in Touched(s, e)
    ensures var t := Apply(s, e);
            Queue(t, n) == Queue(s, n) || (Queue(s, n) != [] && Queue(t, n) == Queue(s, n)[1..])
  {
    if e.SendRefuse? || e.SendCommit? || e.SendRollback? {
      EndsFrom(s, e);
      EndedQueue(BeforeEnd(s, e), e.c, s.calls[e.c].msg, n);
    } else if e.SendLock? {
      LinedQueue(s, e.c, s.calls[e.c].msg);
    } else {
      PlainLedQueue(s, e, n);
    }
  }

  lemma LinedQueue(s: Bus, c: CallId, m: PeerMessage)
    requires c in s.calls && s.calls[c] == SendLockingFirst(m) && m.from != m.to
    ensures Queue(LockSecond(s, c), First(m)) == Queue(s, First(m))
  {
    FirstSecond(m);
  }

  lemma PlainLedQueue(s: Bus, e: Event, n: string)
    requires Enabled(s, e) && n in Touched(s, e)
    requires !e.SendRefuse? && !e.SendCommit? && !e.SendRollback? && !e.SendLock?
    ensures var t := Apply(s, e);
            Queue(t, n) == Queue(s, n) || (Queue(s, n) != [] && Queue(t, n) == Queue(s, n)[1..])
  {
  }

  /** How a queue may change: not at all, at its end by a call that acts, or at its head by one. */
  ghost predicate QueueStep(s: Bus, t: Bus, acting: set<CallId>, n: string) {
    var before, after := Queue(s, n), Queue(t, n);
    || after == before
    || (before != [] && before[0] in acting && after == before[1..])
    || (|after| == |before| + 1 && after[..|before|] == before && after[|before|] in acting)
  }

  lemma QueuesStep(s: Bus, e: Event, n: string)
    requires Inv(s) && Enabled(s, e) && !e.Restart?
    ensures QueueStep(s, Apply(s, e), Acting(e), n)
  {
    EventKeeps(s, e);
    if n in Touched(s, e) {
      LedQueue(s, e, n);
    } else {
      assert NameStill(s, Apply(s, e), Acting(e), n);
    }
  }

  ghost predicate QueueIssued(s: Bus, n: string) {
    forall x :: x in Queue(s, n) ==> x in s.issued
  }

  lemma ActingIsIssued(s: Bus, e: Event, c: CallId)
    requires Inv(s) && Enabled(s, e) && c in Acting(e)
    ensures c in Apply(s, e).issued
  {
    EventKeeps(s, e);
    if c !in s.calls {
      BegunIsIssued(s, e);
    }
  }

  lemma BegunIsIssued(s: Bus, e: Event)
    requires Enabled(s, e) && Acting(e) != {} && e.c !in s.calls
    ensures e.c in Apply(s, e).issued
  {
  }

  lemma StepIssued(s: Bus, t: Bus, acting: set<CallId>, n: string)
    requires QueueStep(s, t, acting, n) && QueueIssued(s, n) && s.issued <= t.issued && acting <= t.issued
    ensures QueueIssued(t, n)
  {
    var before, after := Queue(s, n), Queue(t, n);
    forall x | x in after ensures x in t.issued {
      if x !in acting && |after| == |before| + 1 {
        var i :| 0 <= i < |after| && after[i] == x;
        assert after[..|before|][i] == before[i];
      }
    }
  }

  lemma IssuedStays(s: Bus, e: Event, n: string)
    requires Inv(s) && Enabled(s, e) && QueueIssued(s, n)
    ensures QueueIssued(Apply(s, e), n)
  {
    if e.Restart? {
      NoQueues(s, n);
    } else {
      IssuedGrows(s, e);
      QueuesStep(s, e, n);
      forall x | x in Acting(e) ensures x in Apply(s, e).issued {
        ActingIsIssued(s, e, x);
      }
      StepIssued(s, Apply(s, e), Acting(e), n);
    }
  }

  lemma NoQueues(s: Bus, n: string)
    ensures Queue(Apply(s, Restart), n) == []
  {
  }

  lemma IssuedGrows(s: Bus, e: Event)
    requires Inv(s) && Enabled(s, e) && !e.Restart?
    ensures s.issued <= Apply(s, e).issued
  {
    EventKeeps(s, e);
  }

  lemma {:induction false} IssuedOverRun(s: Bus, es: seq<Event>, n: string)
    requires Inv(s) && Runs(s, es) && QueueIssued(s, n)
    ensures QueueIssued(After(s, es), n)
    decreases |es|
  {
    if es != [] {
      EventKeeps(s, es[0]);
      IssuedStays(s, es[0], n);
      IssuedOverRun(Apply(s, es[0]), es[1..], n);
    }
  }

  lemma ReachableIssued(s: Bus, n: string)
    requires Reachable(s)
    ensures QueueIssued(s, n)
  {
    var raw, log, issued, es :| Reaches(raw, log, issued, es, s);
    BootKeeps(raw, log, issued);
    IssuedOverRun(Boot(raw, log, issued), es, n);
  }

  /** A call that is under way and no registration does not become one. */
  lemma StaysHarmless(s: Bus, e: Event, x: CallId)
    requires Inv(s) && Enabled(s, e) && !e.Restart? && x in s.issued && Harmless(s, x)
    ensures Harmless(Apply(s, e), x)
  {
    EventKeeps(s, e);
    if x in Acting(e) {
      ActingIsLive(s, e, x);
      if e.SendRefuse? || e.SendCommit? || e.SendRollback? {
        EndsFrom(s, e);
        EndedQueue(BeforeEnd(s, e), e.c, s.calls[e.c].msg, "");
      } else {
        NextPhase(s, e);
      }
    }
  }

  lemma NextPhase(s: Bus, e: Event)
    requires Enabled(s, e) && Acting(e) != {} && e.c in s.calls && e.c in s.issued && !Registering(s.calls[e.c])
    requires !e.SendRefuse? && !e.SendCommit? && !e.SendRollback?
    ensures Harmless(Apply(s, e), e.c)
  {
  }

  /** The call is in line, and no registration is in line before it. */
  ghost predicate NoneBefore(s: Bus, n: string, c: CallId) {
    exists k :: 0 <= k < |Queue(s, n)| && Queue(s, n)[k] == c && forall j :: 0 <= j < k ==> Harmless(s, Queue(s, n)[j])
  }

  lemma NoneBeforeStays(s: Bus, e: Event, n: string, c: CallId)
    requires Inv(s) && Enabled(s, e) && !e.Restart? && c !in Acting(e) && QueueIssued(s, n) && NoneBefore(s, n, c)
    ensures NoneBefore(Apply(s, e), n, c)
  {
    var t := Apply(s, e);
    var k :| 0 <= k < |Queue(s, n)| && Queue(s, n)[k] == c && forall j :: 0 <= j < k ==> Harmless(s, Queue(s, n)[j]);
    QueuesStep(s, e, n);
    forall j | 0 <= j < k ensures Harmless(t, Queue(s, n)[j]) {
      assert Queue(s, n)[j] in Queue(s, n);
      StaysHarmless(s, e, Queue(s, n)[j]);
    }
    PlaceAfter(Queue(s, n), Queue(t, n), t, n, c, k, Acting(e));
  }

  lemma PlaceAfter(before: seq<CallId>, after: seq<CallId>, t: Bus, n: string, c: CallId, k: nat, acting: set<CallId>)
    requires k < |before| && before[k] == c && c !in acting && after == Queue(t, n) && forall j :: 0 <= j < k ==> Harmless(t, before[j])
    requires || after == before
             || (before[0] in acting && after == before[1..])
             || (|after| == |before| + 1 && after[..|before|] == before)
    ensures NoneBefore(t, n, c)
  {
    if after == before {
      assert after[k] == c;
    } else if |after| == |before| + 1 {
      assert after[k] == after[..|before|][k] == c;
      forall j | 0 <= j < k ensures Harmless(t, after[j]) {
        assert after[j] == after[..|before|][j];
      }
    } else {
      assert after[k - 1] == c;
    }
  }

  lemma CommitterLeads(s: Bus, e: Event)
    requires Inv(s) && Enabled(s, e) && e.RegisterCommit?
    ensures Heads(s, s.calls[e.c].name, e.c) && !Harmless(s, e.c)
  {
    assert s.calls[e.c].name in Holds(s.calls[e.c]);
  }

  lemma NoneBeforeCommits(s: Bus, e: Event, n: string, c: CallId)
    requires Inv(s) && Enabled(s, e) && c !in Acting(e) && NoneBefore(s, n, c)
    ensures !Registers(s, e, n)
  {
    if e.RegisterCommit? {
      CommitterLeads(s, e);
    }
  }

  lemma {:induction false} NobodyOvertakes(s: Bus, es: seq<Event>, n: string, c: CallId)
    requires Inv(s) && Runs(s, es) && Elsewhere(es, c) && QueueIssued(s, n) && NoneBefore(s, n, c)
    ensures !Reregistered(s, es, n)
    decreases |es|
  {
    if es != [] {
      NoneBeforeCommits(s, es[0], n, c);
      NoneBeforeStays(s, es[0], n, c);
      EventKeeps(s, es[0]);
      IssuedStays(s, es[0], n);
      assert Elsewhere(es[1..], c);
      NobodyOvertakes(Apply(s, es[0]), es[1..], n, c);
    }
  }

  lemma LastInLine(s: Bus, begun: Bus, c: CallId, token: string, n: string, now: int)
    requires Enabled(s, ReadBegin(c, token, n, now)) && begun == Apply(s, ReadBegin(c, token, n, now))
    requires QueueIssued(s, n) && forall x :: x in Queue(s, n) ==> Harmless(s, x)
    ensures NoneBefore(begun, n, c)
  {
    assert Queue(begun, n) == Queue(s, n) + [c];
    var k := |Queue(s, n)|;
    forall j | 0 <= j < k ensures Harmless(begun, Queue(begun, n)[j]) {
      assert Queue(begun, n)[j] == Queue(s, n)[j];
      assert Queue(s, n)[j] in Queue(s, n);
    }
    assert Queue(begun, n)[k] == c;
  }

  /**
   * A read that begins with no registration in line before it drains with a token that authenticates,
   * whatever happens while it waits and loads: whoever registers the name later is behind it.
   */
  lemma {:induction false} CleanLine(s: Bus, begun: Bus, waited: Bus, loads: Bus, drains: Bus,
                  c: CallId, token: string, n: string, now: int, waiting: seq<Event>, loading: seq<Event>)
    requires Reachable(s) && Enabled(s, ReadBegin(c, token, n, now)) && begun == Apply(s, ReadBegin(c, token, n, now))
    requires forall x :: x in Queue(s, n) ==> Harmless(s, x)
    requires Runs(begun, waiting) && Elsewhere(waiting, c) && waited == After(begun, waiting)
    requires Enabled(waited, ReadLoad(c)) && loads == Apply(waited, ReadLoad(c))
    requires Runs(loads, loading) && Elsewhere(loading, c) && drains == After(loads, loading)
    ensures Authenticates(drains.sessions, n, token)
  {
    ReachableIssued(s, n);
    LastInLine(s, begun, c, token, n, now);
    BeginsWithToken(s, begun, c, token, n, now);
    ReachableIssued(begun, n);
    NobodyOvertakes(begun, waiting, n, c);
    ReadersToken(s, begun, waited, loads, drains, c, token, n, now, waiting, loading);
  }

  // ----- That it happens -----

  lemma {:induction false} OneEvent(s: Bus, e: Event)
    requires Enabled(s, e)
    ensures Runs(s, [e]) && After(s, [e]) == Apply(s, e)
  {
    RunExtends(s, [], e);
    assert [] + [e] == [e];
  }

  lemma {:induction false} TwoEvents(s: Bus, a: Event, b: Event)
    requires Enabled(s, a) && Enabled(Apply(s, a), b)
    ensures Runs(s, [a] + [b]) && After(s, [a] + [b]) == Apply(Apply(s, a), b)
  {
    OneEvent(s, a);
    RunExtends(s, [a], b);
  }

  lemma RegistrationRuns(s: Bus, b: CallId, n: string, req: RegisterRequest, ttl: nat, clock: Clock)
    requires b in s.calls && s.calls[b] == RegisterLocking(n, req, ttl) && Heads(s, n, b) && Accepts(s, b, clock)
    ensures var run := RunRegister(s, b, clock);
            && run == Apply(s, RegisterRun(b, clock)) && run.locks == s.locks && run.issued == s.issued
            && run.calls.Keys == s.calls.Keys && (forall x :: x in s.calls && x != b ==> run.calls[x] == s.calls[x])
            && run.calls[b].RegisterPersisting? && run.calls[b].name == n && Authenticates(run.sessions, n, b)
  {
  }

  lemma RegistrationCommits(run: Bus, b: CallId, n: string, line: seq<CallId>)
    requires b in run.calls && run.calls[b].RegisterPersisting? && run.calls[b].name == n && Queue(run, n) == line && line != []
    ensures Enabled(run, RegisterCommit(b))
    ensures var done := Apply(run, RegisterCommit(b));
            && Queue(done, n) == line[1..] && CommittedTo(done, n) == Some(b) && done.sessions == run.sessions
            && done.calls == run.calls - {b} && done.issued == run.issued
  {
  }

  lemma {:induction false} CommitReregisters(s: Bus, a: Event, b: Event, n: string)
    requires Enabled(s, a) && Enabled(Apply(s, a), b) && Registers(Apply(s, a), b, n)
    ensures Runs(s, [a] + [b]) && After(s, [a] + [b]) == Apply(Apply(s, a), b) && Reregistered(s, [a] + [b], n)
  {
    TwoEvents(s, a, b);
    assert ([a] + [b])[1..] == [b];
  }

  lemma LeavesTheLine(run: Bus, b: CallId, c: CallId, n: string)
    requires b in run.calls && run.calls[b].RegisterPersisting? && run.calls[b].name == n && Queue(run, n) == [b, c]
    requires c in run.calls && run.calls[c] == ReadLocking(n)
    ensures Enabled(run, RegisterCommit(b)) && Registers(run, RegisterCommit(b), n)
    ensures var done := Apply(run, RegisterCommit(b));
            CommittedTo(done, n) == Some(b) && Enabled(done, ReadLoad(c))
  {
    RegistrationCommits(run, b, n, [b, c]);
    assert [b, c][1..] == [c];
  }

  /** A registration in line before a reader: its run and its commit come while the reader waits. */
  lemma {:induction false} RegistrationOvertakes(s: Bus, b: CallId, c: CallId, n: string, req: RegisterRequest, ttl: nat, clock: Clock)
    requires b in s.calls && s.calls[b] == RegisterLocking(n, req, ttl) && c in s.calls && s.calls[c] == ReadLocking(n) && b != c
    requires Queue(s, n) == [b, c] && Accepts(s, b, clock)
    ensures var waiting := [RegisterRun(b, clock)] + [RegisterCommit(b)];
            && Runs(s, waiting) && Reregistered(s, waiting, n)
            && CommittedTo(After(s, waiting), n) == Some(b) && Enabled(After(s, waiting), ReadLoad(c))
  {
    var run := RunRegister(s, b, clock);
    RegistrationRuns(s, b, n, req, ttl, clock);
    LeavesTheLine(run, b, c, n);
    CommitReregisters(s, RegisterRun(b, clock), RegisterCommit(b), n);
  }

  lemma {:induction false} OvertakenReader(s: Bus, a: string, b: CallId, c: CallId, n: string, req: RegisterRequest, ttl: nat, clock: Clock, now: int)
    requires Queue(s, n) == [] && Presentable(s, a) && Authenticates(s.sessions, n, a)
    requires Undrawn(s, b) && Undrawn(s, c) && b != c && Spent(s, a)
    requires Register(Find(Touch(s.sessions, n, now), n), n, req, ttl, clock, b).Registered?
    ensures var lined := Apply(s, RegisterBegin(b, n, req, ttl));
            && Enabled(lined, ReadBegin(c, a, n, now))
            && var begun := Apply(lined, ReadBegin(c, a, n, now));
            && var waiting := [RegisterRun(b, clock)] + [RegisterCommit(b)];
            && Runs(begun, waiting) && Enabled(After(begun, waiting), ReadLoad(c)) && Reregistered(begun, waiting, n)
  {
    var lined := Apply(s, RegisterBegin(b, n, req, ttl));
    var begun := Apply(lined, ReadBegin(c, a, n, now));
    assert Queue(lined, n) == [b];
    assert Queue(begun, n) == [b] + [c] == [b, c];
    RegistrationOvertakes(begun, b, c, n, req, ttl, clock);
  }

  /**
   * Whenever a name's lock is free, somebody with its token can begin a read behind a registration that
   * the entry admits. However its log is loaded, it then drains with a token that opens nothing.
   */
  lemma StaleReader(s: Bus, a: string, b: CallId, c: CallId, n: string, req: RegisterRequest, ttl: nat, clock: Clock, now: int)
    returns (begun: Bus, loads: Bus)
    requires Reachable(s) && Queue(s, n) == [] && Presentable(s, a) && Authenticates(s.sessions, n, a)
    requires Undrawn(s, b) && Undrawn(s, c) && b != c
    requires Register(Find(Touch(s.sessions, n, now), n), n, req, ttl, clock, b).Registered?
    ensures var lined := Apply(s, RegisterBegin(b, n, req, ttl));
            && Enabled(lined, ReadBegin(c, a, n, now)) && begun == Apply(lined, ReadBegin(c, a, n, now))
    ensures var waiting := [RegisterRun(b, clock)] + [RegisterCommit(b)];
            && Runs(begun, waiting) && Enabled(After(begun, waiting), ReadLoad(c)) && loads == Apply(After(begun, waiting), ReadLoad(c))
    ensures forall loading :: Runs(loads, loading) && Elsewhere(loading, c) ==> DrainsStale(After(loads, loading), c, n, a)
  {
    var lined, waiting := Apply(s, RegisterBegin(b, n, req, ttl)), [RegisterRun(b, clock)] + [RegisterCommit(b)];
    TokenIsSpent(s, n, a);
    OvertakenReader(s, a, b, c, n, req, ttl, clock, now);
    begun := Apply(lined, ReadBegin(c, a, n, now));
    loads := Apply(After(begun, waiting), ReadLoad(c));
    ReachableSteps(s, RegisterBegin(b, n, req, ttl));
    ElsewhereTwo(RegisterRun(b, clock), RegisterCommit(b), c);
    forall loading | Runs(loads, loading) && Elsewhere(loading, c) ensures DrainsStale(After(loads, loading), c, n, a) {
      ReadersToken(lined, begun, After(begun, waiting), loads, After(loads, loading), c, a, n, now, waiting, loading);
    }
  }

  lemma ElsewhereTwo(a: Event, b: Event, c: CallId)
    requires !a.Restart? && !b.Restart? && c !in Acting(a) && c !in Acting(b)
    ensures Elsewhere([a] + [b], c)
  {
  }

  /** The read is about to drain, and its token does not authenticate. */
  ghost predicate DrainsStale(s: Bus, c: CallId, n: string, token: string) {
    c in s.calls && s.calls[c].ReadLoading? && s.calls[c].name == n && !Authenticates(s.sessions, n, token)
  }

  /** Such a state is reached by the first registration of a process that found nothing on disk. */
  lemma FirstRegistration(a: CallId, n: string, req: RegisterRequest, ttl: nat, clock: Clock)
    requires Register(None, n, req, ttl, clock, a).Registered?
    ensures var lined := Apply(Boot(map[], [], {}), RegisterBegin(a, n, req, ttl));
            && Enabled(lined, RegisterRun(a, clock))
            && Enabled(Apply(lined, RegisterRun(a, clock)), RegisterCommit(a))
            && var s := Apply(Apply(lined, RegisterRun(a, clock)), RegisterCommit(a));
            && Reachable(s) && Queue(s, n) == [] && Presentable(s, a) && Authenticates(s.sessions, n, a) && Spent(s, a)
  {
    var s0 := Boot(map[], [], {});
    assert s0.sessions == map[] && s0.issued == {};
    BootIsReachable(map[], [], {});
    var s1 := Apply(s0, RegisterBegin(a, n, req, ttl));
    assert Queue(s1, n) == [a] && Find(s1.sessions, n) == None;
    ReachableSteps(s0, RegisterBegin(a, n, req, ttl));
    RegistersAlone(s1, a, n, req, ttl, clock);
  }

  lemma BootIsReachable(raw: map<string, RawValue>, log: seq<PeerMessage>, issued: set<CallId>)
    ensures Reachable(Boot(raw, log, issued))
  {
    assert Reaches(raw, log, issued, [], Boot(raw, log, issued));
  }

  lemma RegistersAlone(s: Bus, a: CallId, n: string, req: RegisterRequest, ttl: nat, clock: Clock)
    requires Reachable(s) && a in s.calls && s.calls[a] == RegisterLocking(n, req, ttl) && Queue(s, n) == [a] && a in s.issued
    requires Accepts(s, a, clock)
    ensures Enabled(s, RegisterRun(a, clock)) && Enabled(Apply(s, RegisterRun(a, clock)), RegisterCommit(a))
    ensures var t := Apply(Apply(s, RegisterRun(a, clock)), RegisterCommit(a));
            Reachable(t) && Queue(t, n) == [] && Presentable(t, a) && Authenticates(t.sessions, n, a) && Spent(t, a)
  {
    RegistrationRuns(s, a, n, req, ttl, clock);
    ReachableSteps(s, RegisterRun(a, clock));
    RegistrationCommits(Apply(s, RegisterRun(a, clock)), a, n, [a]);
    ReachableSteps(Apply(s, RegisterRun(a, clock)), RegisterCommit(a));
  }
}
