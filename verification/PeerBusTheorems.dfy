/** What the invariant of the peer bus means for its callers, over every run and every interleaving. */
module PeerBusTheorems {
  import opened Prelude
  import opened MessageStore
  import opened Envelope
  import opened Drain
  import opened Draining
  import opened Registry
  import opened RegistryFile
  import opened PeerBus
  import opened PeerBusInvariant
  import opened PeerBusSteps
  import opened PeerBusSends

  // ----- Conservation -----

  /** No id was sent twice to a name. */
  ghost predicate SentOnce(s: Bus) {
    forall n, id :: LedgerOf(s, n).sent[id] <= 1
  }

  ghost predicate ListsDistinct(m: Sessions) {
    forall n :: n in m ==> NoDup(m[n].unreadMessageIds)
  }

  ghost predicate Once(s: Bus) {
    SentOnce(s) && ListsDistinct(s.sessions) && ListsDistinct(s.installed) && forall m :: m in s.taken ==> ListsDistinct(m)
  }

  lemma MailboxDistinct(s: Bus, n: string)
    requires Inv(s) && SentOnce(s)
    ensures NoDup(Mailbox(s, n))
  {
    assert NameOk(s, n);
    NoDupFromCounts(LedgerOf(s, n).sent, Mailbox(s, n));
  }

  lemma AppendDistinct(xs: seq<string>, x: string)
    requires NoDup(xs) && x !in xs
    ensures NoDup(xs + [x])
  {
  }

  lemma PartDistinct(xs: seq<string>, part: seq<string>, rest: seq<string>)
    requires NoDup(xs) && multiset(xs) == multiset(part) + multiset(rest)
    ensures NoDup(rest)
  {
    forall x ensures multiset(rest)[x] <= 1 {
      CountAtMostOne(xs, x);
    }
    CountsNoDup(rest);
  }

  lemma RegisteringDistinct(s: Bus, c: CallId)
    requires Inv(s) && c in s.calls && s.calls[c].RegisterPersisting? && NoDup(Mailbox(s, s.calls[c].name))
    ensures s.calls[c].name in s.sessions && NoDup(s.sessions[s.calls[c].name].unreadMessageIds)
  {
    RegisteringFacts(s, c);
  }

  lemma SendingDistinct(s: Bus, c: CallId)
    requires Inv(s) && c in s.calls && s.calls[c].SendPersisting? && NoDup(Mailbox(s, s.calls[c].msg.to)) && SentOnce(s)
    ensures s.calls[c].msg.to in s.sessions && NoDup(s.sessions[s.calls[c].msg.to].unreadMessageIds)
  {
    var n, before := s.calls[c].msg.to, s.calls[c].before;
    SendingFacts(s, c);
    assert Mailbox(s, n) == before;
    assert c !in before by {
      assert multiset(before) <= LedgerOf(s, n).sent;
    }
    AppendDistinct(before, c);
  }

  lemma ReadingDistinct(s: Bus, c: CallId)
    requires Inv(s) && c in s.calls && s.calls[c].ReadPersisting? && NoDup(Mailbox(s, s.calls[c].name))
    ensures NoDup(UnreadOf(s.sessions, s.calls[c].name))
  {
    var n := s.calls[c].name;
    ReadingFacts(s, c);
    if n in s.sessions {
      PartDistinct(s.calls[c].before, s.calls[c].drained, UnreadOf(s.sessions, n));
    }
  }

  /** The lists in memory, with or without an operation under way, repeat no id. */
  lemma MemoryDistinct(s: Bus, n: string)
    requires Inv(s) && SentOnce(s) && n in s.sessions
    ensures NoDup(s.sessions[n].unreadMessageIds)
  {
    MailboxDistinct(s, n);
    if Holder(s, n).Some? {
      var c := Queue(s, n)[0];
      if s.calls[c].RegisterPersisting? {
        RegisteringDistinct(s, c);
      } else if s.calls[c].SendPersisting? && s.calls[c].msg.to == n {
        SendingDistinct(s, c);
      } else if s.calls[c].ReadPersisting? {
        ReadingDistinct(s, c);
      }
    }
  }

  lemma FinishParts(b: Bus, c: CallId, lock: string)
    ensures var t := Finish(b, c, lock);
            t.sessions == b.sessions && t.taken == b.taken && t.installed == b.installed && t.ledgers == b.ledgers && t.log == b.log && t.committed == b.committed
  {
  }

  lemma UnlockParts(b: Bus, c: CallId, outer: string, inner: string)
    ensures var t := Unlock(b, c, outer, inner);
            t.sessions == b.sessions && t.taken == b.taken && t.installed == b.installed && t.ledgers == b.ledgers && t.log == b.log && t.committed == b.committed
  {
  }

  lemma EndSendParts(b: Bus, c: CallId, m: PeerMessage)
    ensures var t := EndSend(b, c, m);
            t.sessions == b.sessions && t.taken == b.taken && t.installed == b.installed && t.ledgers == b.ledgers && t.log == b.log && t.committed == b.committed
  {
    if m.from == m.to {
      FinishParts(b, c, m.to);
    } else {
      UnlockParts(b, c, First(m), Second(m));
    }
  }

  lemma SendEnds(s: Bus, e: Event)
    requires Enabled(s, e) && (e.SendRefuse? || e.SendCommit? || e.SendRollback?)
    ensures Apply(s, e).taken == s.taken && Apply(s, e).installed == s.installed
    ensures !e.SendRefuse? ==> Apply(s, e).log == s.log
    ensures Apply(s, e).committed == s.committed
    ensures var m := s.calls[e.c].msg;
            var l := LedgerOf(s, m.to);
            Apply(s, e).ledgers == if e.SendCommit? then s.ledgers[m.to := l.(sent := l.sent + multiset{e.c})] else s.ledgers
  {
    var m := s.calls[e.c].msg;
    match e
    case SendRefuse(c, stored) => EndSendParts(if stored then s.(log := s.log + [m]) else s, c, m);
    case SendCommit(c) =>
      var l := LedgerOf(s, m.to);
      EndSendParts(Enter(s, m.to, l.(sent := l.sent + multiset{c})), c, m);
    case SendRollback(c) => EndSendParts(s.(sessions := SetUnread(s.sessions, m.to, s.calls[c].before)), c, m);
    case _ =>
  }

  lemma SnapshotsGrow(s: Bus, e: Event)
    requires Enabled(s, e) && !e.Restart?
    ensures Apply(s, e).taken <= s.taken + {Apply(s, e).sessions}
    ensures Apply(s, e).installed == s.installed || Apply(s, e).installed in s.taken
  {
    if e.SendRefuse? || e.SendCommit? || e.SendRollback? {
      SendEnds(s, e);
    }
  }

  lemma SentGrows(s: Bus, e: Event, n: string)
    requires Inv(s) && Enabled(s, e) && !e.Restart?
    ensures LedgerOf(Apply(s, e), n).sent == LedgerOf(s, n).sent
            || (e.SendCommit? && LedgerOf(Apply(s, e), n).sent == LedgerOf(s, n).sent + multiset{e.c} && e.c !in LedgerOf(s, n).sent)
  {
    if e.SendRefuse? || e.SendCommit? || e.SendRollback? {
      SendEnds(s, e);
      if e.SendCommit? {
        SendingFacts(s, e.c);
      }
    } else {
      OtherLedgers(s, e);
    }
  }

  lemma OtherLedgers(s: Bus, e: Event)
    requires Enabled(s, e) && !e.Restart? && !e.SendRefuse? && !e.SendCommit? && !e.SendRollback?
    ensures forall n :: LedgerOf(Apply(s, e), n).sent == LedgerOf(s, n).sent
  {
    if !e.RegisterCommit? && !e.ReadCommit? {
      LedgersStay(s, e);
    }
  }

  lemma LedgersStay(s: Bus, e: Event)
    requires Enabled(s, e) && !e.Restart? && !e.SendRefuse? && !e.SendCommit? && !e.SendRollback? && !e.RegisterCommit? && !e.ReadCommit?
    ensures Apply(s, e).ledgers == s.ledgers
  {
  }

  lemma {:induction false} OnceKeeps(s: Bus, e: Event)
    requires Inv(s) && Once(s) && Enabled(s, e)
    ensures Once(Apply(s, e))
  {
    var t := Apply(s, e);
    EventKeeps(s, e);
    if e.Restart? {
      RestartDistinct(s);
    } else {
      forall n, id ensures LedgerOf(t, n).sent[id] <= 1 {
        SentGrows(s, e, n);
      }
      forall n | n in t.sessions ensures NoDup(t.sessions[n].unreadMessageIds) {
        MemoryDistinct(t, n);
      }
      SnapshotsGrow(s, e);
    }
  }

  lemma StartDistinct(sessions: Sessions, log: seq<PeerMessage>, issued: set<CallId>)
    requires ListsDistinct(sessions)
    ensures Once(StartWith(sessions, log, issued))
  {
    var s := StartWith(sessions, log, issued);
    forall n, id ensures LedgerOf(s, n).sent[id] <= 1 {
      if n in sessions {
        CountAtMostOne(sessions[n].unreadMessageIds, id);
      }
    }
  }

  lemma BootDistinct(raw: map<string, RawValue>, log: seq<PeerMessage>, issued: set<CallId>)
    requires ListsDistinct(LoadSessions(raw))
    ensures Once(Boot(raw, log, issued))
  {
    var loaded := LoadSessions(raw);
    var sessions := Reconcile(loaded, Lookup(log));
    forall n | n in sessions ensures NoDup(sessions[n].unreadMessageIds) {
      KeptNoDup(loaded[n].unreadMessageIds, AddressedTo(Lookup(log), loaded[n].name));
    }
    StartDistinct(sessions, log, issued);
  }

  lemma RestartDistinct(s: Bus)
    requires Inv(s) && ListsDistinct(s.installed)
    ensures Once(Apply(s, Restart))
  {
    var loaded := LoadSessions(Serialise(s.installed));
    forall n | n in loaded ensures NoDup(loaded[n].unreadMessageIds) {
      LoadedAt(s.installed, n);
      StringsReadBack(s.installed[n].unreadMessageIds);
    }
    BootDistinct(Serialise(s.installed), s.log, s.issued);
  }

  lemma {:induction false} RunOnce(s: Bus, es: seq<Event>)
    requires Inv(s) && Once(s) && Runs(s, es)
    ensures Inv(After(s, es)) && Once(After(s, es))
    decreases |es|
  {
    if es != [] {
      EventKeeps(s, es[0]);
      OnceKeeps(s, es[0]);
      RunOnce(Apply(s, es[0]), es[1..]);
    }
  }

  ghost predicate Conserved(s: Bus, n: string) {
    var l := LedgerOf(s, n);
    l.sent == l.returned + l.evicted + multiset(UnreadOf(s.sessions, n)) && forall id :: l.sent[id] <= 1
  }

  /**
   * In every interleaving, with any append or persist failing and any crash and restart: whenever the
   * lock of a name is free, the ids sent to it since start-up (those found unread then included) are
   * exactly the disjoint union of the ids that reads returned, the ids discarded by evictions and the
   * ids still unread, and none occurs twice. What start-up loads repeats no id in one mailbox.
   */
  lemma {:induction false} MailboxConserved(raw: map<string, RawValue>, log: seq<PeerMessage>, issued: set<CallId>, es: seq<Event>, n: string)
    requires ListsDistinct(Boot(raw, log, issued).sessions)
    requires Runs(Boot(raw, log, issued), es)
    requires Queue(After(Boot(raw, log, issued), es), n) == []
    ensures Conserved(After(Boot(raw, log, issued), es), n)
  {
    BootKeeps(raw, log, issued);
    StartDistinct(Reconcile(LoadSessions(raw), Lookup(log)), log, issued);
    RunOnce(Boot(raw, log, issued), es);
    assert NameOk(After(Boot(raw, log, issued), es), n);
  }

  /** The run ends with the name conserved, if it is a run that leaves the name's lock free. */
  ghost predicate ConservedBy(s: Bus, es: seq<Event>, n: string) {
    Runs(s, es) && Queue(After(s, es), n) == [] ==> Conserved(After(s, es), n)
  }

  lemma RepeatedIsNotConserved(sessions: Sessions, log: seq<PeerMessage>, issued: set<CallId>, n: string)
    requires n in sessions && !NoDup(sessions[n].unreadMessageIds)
    ensures !ConservedBy(StartWith(sessions, log, issued), [], n)
  {
    var s := StartWith(sessions, log, issued);
    assert LedgerOf(s, n).sent == multiset(sessions[n].unreadMessageIds);
    if forall id :: LedgerOf(s, n).sent[id] <= 1 {
      CountsNoDup(sessions[n].unreadMessageIds);
      assert false;
    }
  }

  /** Every run conserves every name exactly when no list that start-up leaves repeats an id. */
  lemma ConservedExactly(raw: map<string, RawValue>, log: seq<PeerMessage>, issued: set<CallId>)
    ensures ListsDistinct(Boot(raw, log, issued).sessions) <==> forall es, n :: ConservedBy(Boot(raw, log, issued), es, n)
  {
    var s := Boot(raw, log, issued);
    if ListsDistinct(s.sessions) {
      forall es, n ensures ConservedBy(s, es, n) {
        if Runs(s, es) && Queue(After(s, es), n) == [] {
          MailboxConserved(raw, log, issued, es, n);
        }
      }
    } else {
      var n :| n in s.sessions && !NoDup(s.sessions[n].unreadMessageIds);
      RepeatedIsNotConserved(s.sessions, log, issued, n);
    }
  }

  // ----- Atomicity -----

  /** Draining against two logs that agree on the unread ids gives the same result. */
  lemma {:induction false} KnownAgree(unread: seq<string>, a: map<string, PeerMessage>, b: map<string, PeerMessage>)
    requires forall id :: id in unread ==> id in a && id in b && a[id] == b[id]
    ensures Known(unread, a) == Known(unread, b)
  {
    if unread != [] {
      KnownAgree(unread[1..], a, b);
    }
  }

  lemma DrainsAgree(unread: seq<string>, a: map<string, PeerMessage>, b: map<string, PeerMessage>)
    requires forall id :: id in unread ==> id in a && id in b && a[id] == b[id]
    ensures DrainedFrom(unread, a) == DrainedFrom(unread, b) && RemainingFrom(unread, a) == RemainingFrom(unread, b)
  {
    KnownAgree(unread, a, b);
    var gone := IdSet(DrainedFrom(unread, a));
    KeepSame(unread, a.Keys - gone, b.Keys - gone);
  }

  function DrainedFrom(unread: seq<string>, lookup: map<string, PeerMessage>): seq<PeerMessage> {
    Drained(unread, lookup, WrapEnvelope, PEER_BUS_MAX_RESPONSE_BYTES)
  }

  function RemainingFrom(unread: seq<string>, lookup: map<string, PeerMessage>): seq<string> {
    Remaining(unread, lookup, WrapEnvelope, PEER_BUS_MAX_RESPONSE_BYTES)
  }

  /** What a read under way took and left is what draining the old mailbox against the whole log gives. */
  ghost predicate DrainOk(s: Bus, c: CallId)
    requires c in s.calls
  {
    s.calls[c].ReadPersisting? ==>
      && UnreadOf(s.sessions, s.calls[c].name) == RemainingFrom(s.calls[c].before, Lookup(s.log))
      && s.calls[c].drained == Ids(DrainedFrom(s.calls[c].before, Lookup(s.log)))
  }

  ghost predicate DrainsOk(s: Bus) {
    forall c :: c in s.calls ==> DrainOk(s, c)
  }

  lemma LookupsAgree(s: Bus, t: Bus, acting: set<CallId>, ids: seq<string>)
    requires LogStep(s, t, acting) && forall id :: id in ids ==> id in Lookup(s.log)
    ensures forall id :: id in ids ==> id in Lookup(t.log) && Lookup(t.log)[id] == Lookup(s.log)[id]
  {
    if t.log != s.log {
      var m := t.log[|s.log|];
      assert t.log == s.log + [m];
      LookupExtends(s.log, m);
      assert m.messageId !in Lookup(s.log);
    }
  }

  lemma DrainOkStays(s: Bus, t: Bus, acting: set<CallId>, touched: set<string>, c: CallId)
    requires Inv(s) && Local(s, t, acting, touched) && c in s.calls && c !in acting && DrainOk(s, c)
    ensures c in t.calls && DrainOk(t, c)
  {
    assert c in t.calls && t.calls[c] == s.calls[c];
    if s.calls[c].ReadPersisting? {
      ReaderStill(s, t, acting, touched, c);
      ReaderAgrees(s, t, acting, c);
    }
  }

  lemma ReaderStill(s: Bus, t: Bus, acting: set<CallId>, touched: set<string>, c: CallId)
    requires Inv(s) && Local(s, t, acting, touched) && c in s.calls && c !in acting && s.calls[c].ReadPersisting?
    ensures UnreadOf(t.sessions, s.calls[c].name) == UnreadOf(s.sessions, s.calls[c].name)
  {
    assert s.calls[c].name in Holds(s.calls[c]);
    HeldStill(s, t, acting, touched, c, s.calls[c].name);
  }

  lemma ReaderAgrees(s: Bus, t: Bus, acting: set<CallId>, c: CallId)
    requires Inv(s) && LogStep(s, t, acting) && c in s.calls && s.calls[c].ReadPersisting?
    ensures DrainedFrom(s.calls[c].before, Lookup(t.log)) == DrainedFrom(s.calls[c].before, Lookup(s.log))
    ensures RemainingFrom(s.calls[c].before, Lookup(t.log)) == RemainingFrom(s.calls[c].before, Lookup(s.log))
  {
    ReadingFacts(s, c);
    LookupsAgree(s, t, acting, s.calls[c].before);
    DrainsAgree(s.calls[c].before, Lookup(s.log), Lookup(t.log));
  }

  /** What a reader knows when its log has been loaded. */
  lemma LoadingFacts(s: Bus, c: CallId, seen: nat)
    requires Inv(s) && c in s.calls && s.calls[c].ReadLoading? && s.calls[c].logged <= seen <= |s.log|
    ensures UnreadOf(s.sessions, s.calls[c].name) == s.calls[c].before
    ensures forall id :: id in s.calls[c].before ==>
              id in Lookup(s.log) && id in Lookup(s.log[..seen]) && Lookup(s.log[..seen])[id] == Lookup(s.log)[id]
  {
    assert CallOk(s, c, s.calls[c]);
    LoadedKnowsAll(s, c, seen);
    MailboxRouted(s, s.calls[c].name);
  }

  lemma DrainOkStarts(s: Bus, c: CallId, seen: nat, now: int)
    requires Inv(s) && c in s.calls && s.calls[c].ReadLoading? && s.calls[c].logged <= seen <= |s.log|
    ensures DrainOk(DrainMailbox(s, c, seen, now), c)
  {
    var n, before := s.calls[c].name, s.calls[c].before;
    LoadingFacts(s, c, seen);
    DrainsAgree(before, Lookup(s.log[..seen]), Lookup(s.log));
    EmptyDrains(before, Lookup(s.log));
    DrainedUnread(s.sessions, n, RemainingFrom(before, Lookup(s.log)), now);
  }

  lemma DrainedUnread(sessions: Sessions, n: string, rest: seq<string>, now: int)
    requires UnreadOf(sessions, n) == [] ==> rest == []
    ensures UnreadOf(Touch(SetUnread(sessions, n, rest), n, now), n) == rest
  {
  }

  lemma OnlyDrainsStartReads(s: Bus, e: Event, c: CallId)
    requires Enabled(s, e) && !e.Restart? && c in Acting(e) && c in Apply(s, e).calls && Apply(s, e).calls[c].ReadPersisting?
    ensures e.ReadDrain?
  {
  }

  lemma DrainsKeep(s: Bus, e: Event)
    requires Inv(s) && DrainsOk(s) && Enabled(s, e)
    ensures DrainsOk(Apply(s, e))
  {
    var t := Apply(s, e);
    if !e.Restart? {
      EventKeeps(s, e);
      forall c | c in t.calls ensures DrainOk(t, c) {
        if c !in Acting(e) {
          DrainOkStays(s, t, Acting(e), Touched(s, e), c);
        } else if t.calls[c].ReadPersisting? {
          OnlyDrainsStartReads(s, e, c);
          DrainOkStarts(s, c, e.seen, e.now);
        }
      }
    }
  }

  // ----- Reachable states -----

  /** A state that some run reaches after some start-up: any file on disk, any log, any events, restarts included. */
  ghost predicate Reachable(s: Bus) {
    exists raw: map<string, RawValue>, log: seq<PeerMessage>, issued: set<CallId>, es: seq<Event> :: Reaches(raw, log, issued, es, s)
  }

  ghost predicate Reaches(raw: map<string, RawValue>, log: seq<PeerMessage>, issued: set<CallId>, es: seq<Event>, s: Bus) {
    Runs(Boot(raw, log, issued), es) && s == After(Boot(raw, log, issued), es)
  }

  lemma {:induction false} RunDrains(s: Bus, es: seq<Event>)
    requires Inv(s) && DrainsOk(s) && Runs(s, es)
    ensures Inv(After(s, es)) && DrainsOk(After(s, es))
    decreases |es|
  {
    if es != [] {
      EventKeeps(s, es[0]);
      DrainsKeep(s, es[0]);
      RunDrains(Apply(s, es[0]), es[1..]);
    }
  }

  /** Every reachable state satisfies the invariant. */
  lemma ReachableHolds(s: Bus)
    requires Reachable(s)
    ensures Inv(s) && DrainsOk(s)
  {
    var raw, log, issued, es :| Reaches(raw, log, issued, es, s);
    BootKeeps(raw, log, issued);
    RunDrains(Boot(raw, log, issued), es);
  }

  lemma {:induction false} RunExtends(s: Bus, es: seq<Event>, e: Event)
    requires Runs(s, es) && Enabled(After(s, es), e)
    ensures Runs(s, es + [e]) && After(s, es + [e]) == Apply(After(s, es), e)
    decreases |es|
  {
    if es == [] {
      assert [] + [e] == [e] && [e][1..] == [];
    } else {
      RunExtends(Apply(s, es[0]), es[1..], e);
      assert (es + [e])[1..] == es[1..] + [e];
    }
  }

  lemma ReachableSteps(s: Bus, e: Event)
    requires Reachable(s) && Enabled(s, e)
    ensures Reachable(Apply(s, e))
  {
    var raw, log, issued, es :| Reaches(raw, log, issued, es, s);
    RunExtends(Boot(raw, log, issued), es, e);
    assert Reaches(raw, log, issued, es + [e], Apply(s, e));
  }

  /**
   * What an event does to the committed entry of a name: a send, a read and a registration each act
   * at one point, their commit, and only there; every other event, failures included, does nothing.
   */
  function AtomicEffect(s: Bus, e: Event, n: string): Option<SessionEntry>
    requires Enabled(s, e)
  {
    match e
    case SendCommit(c) =>
      if s.calls[c].msg.to == n then WithUnread(View(s, n), Mailbox(s, n) + [c]) else View(s, n)
    case ReadCommit(c) =>
      if s.calls[c].name == n then WithUnread(View(s, n), RemainingFrom(Mailbox(s, n), Lookup(s.log))) else View(s, n)
    case RegisterCommit(c) =>
      var call := s.calls[c];
      if call.name == n && Register(View(s, n), n, call.req, call.ttl, call.clock, c).Registered?
      then Some(Register(View(s, n), n, call.req, call.ttl, call.clock, c).entry)
      else View(s, n)
    case _ => View(s, n)
  }

  lemma RegisterFromRestored(prior: Option<SessionEntry>, n: string, req: RegisterRequest, ttl: nat, clock: Clock, c: CallId)
    ensures Register(Restored(prior), n, req, ttl, clock, c) == Register(prior, n, req, ttl, clock, c)
  {
  }

  lemma ReadCommitEffect(s: Bus, c: CallId)
    requires Inv(s) && DrainsOk(s) && c in s.calls && s.calls[c].ReadPersisting?
    ensures var n := s.calls[c].name;
            View(CommitRead(s, c), n) == WithUnread(View(s, n), RemainingFrom(Mailbox(s, n), Lookup(s.log)))
  {
    var n := s.calls[c].name;
    ReadCommitKeeps(s, c);
    ReadingFacts(s, c);
    assert DrainOk(s, c);
  }

  lemma RegisterCommitEffect(s: Bus, c: CallId)
    requires Inv(s) && c in s.calls && s.calls[c].RegisterPersisting?
    ensures var call := s.calls[c];
            && Register(View(s, call.name), call.name, call.req, call.ttl, call.clock, c) == Registered(call.entry)
            && View(CommitRegister(s, c), call.name) == Some(call.entry)
  {
    var call := s.calls[c];
    RegisterCommitKeeps(s, c);
    RegisteringFacts(s, c);
    assert CallOk(s, c, call);
    RegisterFromRestored(call.prior, call.name, call.req, call.ttl, call.clock, c);
  }

  lemma SendCommitEffect(s: Bus, c: CallId)
    requires Inv(s) && c in s.calls && s.calls[c].SendPersisting?
    ensures View(CommitSend(s, c), s.calls[c].msg.to) == WithUnread(View(s, s.calls[c].msg.to), Mailbox(s, s.calls[c].msg.to) + [c])
    ensures s.calls[c].msg.from != s.calls[c].msg.to ==> View(CommitSend(s, c), s.calls[c].msg.from) == View(s, s.calls[c].msg.from)
  {
    SendCommitKeeps(s, c);
    SendingFacts(s, c);
  }

  predicate EndOf(m: PeerMessage, n: string) {
    n == m.from || n == m.to
  }

  lemma StillRefuse(s: Bus, c: CallId, stored: bool, n: string)
    requires Inv(s) && SendReady(s, c) && EndOf(s.calls[c].msg, n)
    ensures View(RefuseSend(s, c, stored), n) == View(s, n)
  {
    SendRefuseKeeps(s, c, stored);
  }

  lemma StillAppend(s: Bus, c: CallId, n: string)
    requires Inv(s) && SendReady(s, c) && CanAddUnread(s.sessions, s.calls[c].msg.to) && EndOf(s.calls[c].msg, n)
    ensures View(AppendMessage(s, c), n) == View(s, n)
  {
    SendAppendKeeps(s, c);
  }

  lemma StillIndex(s: Bus, c: CallId, now: int, later: int, n: string)
    requires Inv(s) && c in s.calls && s.calls[c].SendAppending? && EndOf(s.calls[c].msg, n)
    ensures SameButSeen(View(s, n), View(Index(s, c, now, later), n))
  {
    SendIndexKeeps(s, c, now, later);
  }

  lemma StillRollback(s: Bus, c: CallId, n: string)
    requires Inv(s) && c in s.calls && s.calls[c].SendPersisting? && EndOf(s.calls[c].msg, n)
    ensures View(RollBackSend(s, c), n) == View(s, n)
  {
    SendRollbackKeeps(s, c);
  }

  lemma StillSend(s: Bus, e: Event, n: string)
    requires Inv(s) && Enabled(s, e) && n in Touched(s, e)
    requires e.SendLock? || e.SendRefuse? || e.SendAppend? || e.SendIndex? || e.SendRollback? || e.SendRelease?
    ensures SameButSeen(View(s, n), View(Apply(s, e), n))
  {
    match e
    case SendLock(c) => SendLockKeeps(s, c);
    case SendRefuse(c, stored) => StillRefuse(s, c, stored, n);
    case SendAppend(c) => StillAppend(s, c, n);
    case SendIndex(c, now, later) => StillIndex(s, c, now, later, n);
    case SendRollback(c) => StillRollback(s, c, n);
    case SendRelease(c) => SendReleaseKeeps(s, c);
  }

  lemma StillOther(s: Bus, e: Event, n: string)
    requires Inv(s) && Enabled(s, e) && n in Touched(s, e)
    requires e.RegisterRun? || e.RegisterRollback? || e.WakeRun?
    ensures SameButSeen(View(s, n), View(Apply(s, e), n))
  {
    match e
    case RegisterRun(c, clock) => RegisterRunKeeps(s, c, clock);
    case RegisterRollback(c) => RegisterRollbackKeeps(s, c);
    case WakeRun(c) => WakeRunKeeps(s, c);
  }

  lemma StillRead(s: Bus, e: Event, n: string)
    requires Inv(s) && Enabled(s, e) && n in Touched(s, e)
    requires e.ReadLoad? || e.ReadAbort? || e.ReadDrain? || e.ReadRollback?
    ensures SameButSeen(View(s, n), View(Apply(s, e), n))
  {
    match e
    case ReadLoad(c) => ReadLoadKeeps(s, c);
    case ReadAbort(c) => ReadAbortKeeps(s, c);
    case ReadDrain(c, seen, now) => ReadDrainKeeps(s, c, seen, now);
    case ReadRollback(c) => ReadRollbackKeeps(s, c);
  }

  lemma UntouchedEffect(s: Bus, e: Event, n: string)
    requires Inv(s) && Enabled(s, e) && !e.Restart? && n !in Touched(s, e)
    ensures SameButSeen(AtomicEffect(s, e, n), View(Apply(s, e), n))
  {
    EventKeeps(s, e);
    ViewsKeep(s, Apply(s, e), Acting(e), Touched(s, e), n);
  }

  /**
   * Serialisability: on the committed entries, every interleaved run is a run of atomic sends, reads
   * and registrations, in the order of their commits. A failed operation leaves no trace, and nobody
   * but the operation itself changes the entry, save for the time it was last seen.
   */
  lemma EventsAreAtomic(s: Bus, e: Event, n: string)
    requires Reachable(s) && Enabled(s, e) && !e.Restart?
    ensures SameButSeen(AtomicEffect(s, e, n), View(Apply(s, e), n))
  {
    ReachableHolds(s);
    if n !in Touched(s, e) {
      UntouchedEffect(s, e, n);
    } else if e.SendCommit? {
      SendCommitEffect(s, e.c);
    } else if e.ReadCommit? {
      ReadCommitEffect(s, e.c);
    } else if e.RegisterCommit? {
      RegisterCommitEffect(s, e.c);
    } else if e.SendLock? || e.SendRefuse? || e.SendAppend? || e.SendIndex? || e.SendRollback? || e.SendRelease? {
      StillSend(s, e, n);
    } else if e.ReadLoad? || e.ReadAbort? || e.ReadDrain? || e.ReadRollback? {
      StillRead(s, e, n);
    } else {
      StillOther(s, e, n);
    }
  }

  /** A read that commits returns the drain of the whole committed mailbox and removes just that. */
  lemma ReadReturnsDrain(s: Bus, c: CallId)
    requires Reachable(s) && c in s.calls && s.calls[c].ReadPersisting?
    ensures var n := s.calls[c].name;
            && s.calls[c].drained == Ids(DrainedFrom(Mailbox(s, n), Lookup(s.log)))
            && LedgerOf(CommitRead(s, c), n).returned == LedgerOf(s, n).returned + multiset(s.calls[c].drained)
            && View(CommitRead(s, c), n) == WithUnread(View(s, n), RemainingFrom(Mailbox(s, n), Lookup(s.log)))
  {
    ReachableHolds(s);
    ReadingFacts(s, c);
    ReadCommitEffect(s, c);
    assert DrainOk(s, c);
  }

  // ----- Crashes -----

  /**
   * Every unread id, in memory and in every snapshot that can be on disk, names a logged message to
   * that session; and the wake target of every entry is its surface.
   */
  lemma UnreadIsLogged(s: Bus, m: Sessions, n: string, id: string)
    requires Reachable(s) && (m == s.sessions || m == s.installed || m in s.taken) && n in m
    ensures id in m[n].unreadMessageIds ==> id in Lookup(s.log) && Lookup(s.log)[id].to == n
    ensures m[n].wakeTarget == m[n].cmuxSurfaceId
  {
    ReachableHolds(s);
    assert SnapshotOk(m, s.log);
  }

  /**
   * Whatever snapshot is on disk when the process dies, the next start loads every entry of it with
   * its mailbox, its owner and its registration time, and reconciling with the log drops nothing.
   */
  lemma RestartDropsNothing(s: Bus, m: Sessions, n: string)
    requires Reachable(s) && (m in s.taken || m == s.installed) && n in m
    ensures var booted := Boot(Serialise(m), s.log, s.issued).sessions;
            && booted == LoadSessions(Serialise(m))
            && n in booted
            && booted[n].unreadMessageIds == m[n].unreadMessageIds
            && booted[n].paneTokenHash == m[n].paneTokenHash
            && booted[n].registeredAt == m[n].registeredAt && booted[n].lastSeenAt == m[n].lastSeenAt
            && booted[n].tokenHash == Blank
            && (booted[n] == m[n].(tokenHash := Blank) <==> Loadable(n, m[n]))
  {
    ReachableHolds(s);
    assert SnapshotOk(m, s.log);
    RestartLoads(m, s.log);
    LoadedAt(m, n);
    StringsReadBack(m[n].unreadMessageIds);
    EntryRoundTrip(n, m[n]);
  }

  lemma {:induction false} RestartLoads(m: Sessions, log: seq<PeerMessage>)
    requires SnapshotOk(m, log)
    ensures Reconcile(LoadSessions(Serialise(m)), Lookup(log)) == LoadSessions(Serialise(m))
  {
    var loaded := LoadSessions(Serialise(m));
    forall k | k in loaded
      ensures k in m && loaded[k].name == k && loaded[k].unreadMessageIds == m[k].unreadMessageIds
    {
      LoadedAt(m, k);
      StringsReadBack(m[k].unreadMessageIds);
    }
    ReconcileRoutes(loaded, Lookup(log));
  }

  /** A drain never drops an id as an orphan: a reader's log holds every id that was unread when it got its lock. */
  lemma NoOrphans(s: Bus, c: CallId, seen: nat)
    requires Reachable(s) && c in s.calls && s.calls[c].ReadLoading? && s.calls[c].logged <= seen <= |s.log|
    ensures Orphans(UnreadOf(s.sessions, s.calls[c].name), Lookup(s.log[..seen])) == []
  {
    ReachableHolds(s);
    LoadingFacts(s, c, seen);
    DrainSplits(s.calls[c].before, Lookup(s.log[..seen]));
  }

  // ----- Tokens -----

  /**
   * A token that somebody can present authenticates to a name exactly when it is the one that the
   * name's last committed registration in this process returned, whether or not the name's lock is
   * free; so a rolled-back registration leaves the old token valid, and a restart leaves none.
   */
  lemma OnlyTheCommittedToken(s: Bus, n: string, token: string)
    requires Reachable(s) && Presentable(s, token)
    requires !(Holder(s, n).Some? && Holder(s, n).value.RegisterPersisting?)
    ensures Authenticates(s.sessions, n, token) <==> CommittedTo(s, n) == Some(token)
  {
    ReachableHolds(s);
    assert NameOk(s, n);
    var h := Holder(s, n);
    if h.Some? {
      var c := Queue(s, n)[0];
      assert Find(s.sessions, n).Some? <==> View(s, n).Some?;
      assert View(s, n).Some? ==> View(s, n).value.tokenHash == s.sessions[n].tokenHash;
    }
  }

  lemma NobodyWhilePersisting(s: Bus, n: string, token: string)
    requires Reachable(s) && Presentable(s, token)
    requires Holder(s, n).Some? && Holder(s, n).value.RegisterPersisting?
    ensures !Authenticates(s.sessions, n, token)
  {
    ReachableHolds(s);
    if Authenticates(s.sessions, n, token) {
      PersistingIsSecret(s, token, n);
      assert false;
    }
  }

  lemma TokenOfOneName(s: Bus, m: string, n: string, token: string)
    requires Reachable(s) && Presentable(s, token) && Authenticates(s.sessions, m, token) && Authenticates(s.sessions, n, token)
    ensures m == n
  {
    ReachableHolds(s);
    PersistingIsSecret(s, token, m);
    PersistingIsSecret(s, token, n);
    OnlyTheCommittedToken(s, m, token);
    OnlyTheCommittedToken(s, n, token);
  }

  /** Whatever is on disk, nobody's token works after a restart. */
  lemma RestartVoidsTokens(s: Bus, n: string, token: string)
    ensures !Authenticates(Apply(s, Restart).sessions, n, token)
  {
    BootedEntries(Serialise(s.installed), s.log);
  }

  // ----- Ownership -----

  /** How a committed entry may change in one event or many. */
  ghost predicate Descends(a: SessionEntry, b: SessionEntry) {
    && (a.paneTokenHash.Some? ==> b.paneTokenHash.Some?)
    && (a.registeredAt.At? ==> b.registeredAt.At? && a.registeredAt.ms <= b.registeredAt.ms)
    && (a.registeredAt.At? && a.paneTokenHash.Some? && a.paneTokenHash != b.paneTokenHash ==> a.registeredAt.ms < b.registeredAt.ms)
  }

  /**
   * A committed entry never goes away, and its owner changes only when a registration commits that
   * found it unowned, or stale by that registration's clock and time to live.
   */
  lemma OwnerChanges(s: Bus, e: Event, n: string)
    requires Reachable(s) && Enabled(s, e) && !e.Restart?
    ensures View(s, n).Some? ==> View(Apply(s, e), n).Some? && OwnerFollows(s, e, n, View(s, n).value, View(Apply(s, e), n).value)
  {
    if View(s, n).Some? {
      ReachableHolds(s);
      EventsAreAtomic(s, e, n);
      if e.RegisterCommit? && s.calls[e.c].name == n {
        var call := s.calls[e.c];
        RegisterCommitEffect(s, e.c);
        RegisterSucceeds(View(s, n).value, n, call.req, call.ttl, call.clock, e.c);
      }
    }
  }

  ghost predicate OwnerFollows(s: Bus, e: Event, n: string, a: SessionEntry, b: SessionEntry)
    requires Enabled(s, e)
  {
    if e.RegisterCommit? && s.calls[e.c].name == n
    then Succeeds(a, b, s.calls[e.c].clock.age, s.calls[e.c].ttl)
    else b.paneTokenHash == a.paneTokenHash && b.registeredAt == a.registeredAt
  }

  ghost predicate NoRestart(es: seq<Event>) {
    forall i :: 0 <= i < |es| ==> !es[i].Restart?
  }

  /** Over every run of one process: the entry stays, stays owned, and each change of owner moved the registration time on. */
  lemma {:induction false} OwnershipOverRuns(s: Bus, es: seq<Event>, n: string)
    requires Reachable(s) && Runs(s, es) && NoRestart(es) && View(s, n).Some?
    ensures View(After(s, es), n).Some? && Descends(View(s, n).value, View(After(s, es), n).value)
    decreases |es|
  {
    ReachableHolds(s);
    if es != [] {
      ReachableSteps(s, es[0]);
      OwnerChanges(s, es[0], n);
      assert NoRestart(es[1..]);
      OwnershipOverRuns(Apply(s, es[0]), es[1..], n);
    }
  }

  /** The event commits a registration of the name that the committed entry admitted. */
  ghost predicate CommitsAdmitted(s: Bus, e: Event, n: string)
    requires Enabled(s, e)
  {
    && e.RegisterCommit? && s.calls[e.c].name == n && View(s, n).Some?
    && MayRegister(View(s, n).value, s.calls[e.c].req.paneToken, s.calls[e.c].clock.age, s.calls[e.c].ttl)
  }

  /** Beyond its mailbox and its last sight, a committed entry changes in no field but by such a commit. */
  lemma IdentityChanges(s: Bus, e: Event, n: string)
    requires Reachable(s) && Enabled(s, e) && !e.Restart? && View(s, n).Some?
    ensures View(Apply(s, e), n).Some?
    ensures Identity(View(Apply(s, e), n).value) == Identity(View(s, n).value) || CommitsAdmitted(s, e, n)
  {
    ReachableHolds(s);
    EventsAreAtomic(s, e, n);
    if e.RegisterCommit? && s.calls[e.c].name == n {
      var call := s.calls[e.c];
      RegisterCommitEffect(s, e.c);
      RegisterAdmits(View(s, n).value, n, call.req, call.ttl, call.clock, e.c);
    }
  }

  /** Somewhere along the run, such a commit happens. */
  ghost predicate SomebodyAdmitted(s: Bus, es: seq<Event>, n: string)
    requires Runs(s, es)
    decreases |es|
  {
    es != [] && (CommitsAdmitted(s, es[0], n) || SomebodyAdmitted(Apply(s, es[0]), es[1..], n))
  }

  /**
   * Over every run of one process: the token, the owner, the wake key, the surface, the workspace and the
   * registration time of a committed entry are as they were unless a registration was committed for
   * somebody whom the entry of that moment admitted: its owner, anyone if unowned, or an evictor.
   */
  lemma {:induction false} IdentityOverRuns(s: Bus, es: seq<Event>, n: string)
    requires Reachable(s) && Runs(s, es) && NoRestart(es) && View(s, n).Some?
    ensures View(After(s, es), n).Some?
    ensures Identity(View(After(s, es), n).value) == Identity(View(s, n).value) || SomebodyAdmitted(s, es, n)
    decreases |es|
  {
    if es != [] {
      ReachableSteps(s, es[0]);
      IdentityChanges(s, es[0], n);
      assert NoRestart(es[1..]);
      IdentityOverRuns(Apply(s, es[0]), es[1..], n);
    }
  }

  // ----- Failed registrations -----

  /** An event of somebody else leaves a call as it is. */
  lemma {:induction false} CallWaits(s: Bus, es: seq<Event>, c: CallId)
    requires Inv(s) && Runs(s, es) && NoRestart(es) && c in s.calls
    requires forall i :: 0 <= i < |es| ==> c !in Acting(es[i])
    ensures Inv(After(s, es)) && c in After(s, es).calls && After(s, es).calls[c] == s.calls[c]
    decreases |es|
  {
    if es != [] {
      EventKeeps(s, es[0]);
      assert NoRestart(es[1..]);
      CallWaits(Apply(s, es[0]), es[1..], c);
    }
  }

  /** The registration at the head of its queue is not rejected. */
  predicate Accepts(s: Bus, c: CallId, clock: Clock)
    requires c in s.calls && s.calls[c].RegisterLocking?
  {
    var call := s.calls[c];
    Register(Find(s.sessions, call.name), call.name, call.req, call.ttl, clock, c).Registered?
  }

  /**
   * A registration that fails to persist leaves the entry, in every field, as it found it when it got
   * the lock, whatever anybody else did in between.
   */
  lemma {:induction false} FailedRegisterRestores(s: Bus, c: CallId, clock: Clock, es: seq<Event>)
    requires Reachable(s) && c in s.calls && s.calls[c].RegisterLocking? && Heads(s, s.calls[c].name, c)
    requires Accepts(s, c, clock)
    requires Runs(RunRegister(s, c, clock), es) && NoRestart(es)
    requires forall i :: 0 <= i < |es| ==> c !in Acting(es[i])
    ensures var t := After(RunRegister(s, c, clock), es);
            && c in t.calls && t.calls[c].RegisterPersisting?
            && Find(RollBackRegister(t, c).sessions, s.calls[c].name) == Find(s.sessions, s.calls[c].name)
  {
    ReachableHolds(s);
    AcceptedRuns(s, c, clock);
    CallWaits(RunRegister(s, c, clock), es, c);
    RolledBack(After(RunRegister(s, c, clock), es), c, s.calls[c].name);
    SnapshotRestores(s, s.calls[c].name);
  }

  lemma AcceptedRuns(s: Bus, c: CallId, clock: Clock)
    requires Inv(s) && c in s.calls && s.calls[c].RegisterLocking? && Heads(s, s.calls[c].name, c) && Accepts(s, c, clock)
    ensures var t := RunRegister(s, c, clock);
            && Inv(t) && c in t.calls && t.calls[c].RegisterPersisting?
            && t.calls[c].name == s.calls[c].name && t.calls[c].prior == SnapshotEntry(s.sessions, s.calls[c].name)
  {
    RegisterRunKeeps(s, c, clock);
  }

  lemma RolledBack(t: Bus, c: CallId, n: string)
    requires c in t.calls && t.calls[c].RegisterPersisting? && t.calls[c].name == n
    ensures Find(RollBackRegister(t, c).sessions, n) == Restored(t.calls[c].prior)
  {
    FinishParts(t.(sessions := RestoreEntry(t.sessions, n, t.calls[c].prior)), c, n);
  }

  lemma SnapshotRestores(s: Bus, n: string)
    requires Inv(s)
    ensures Restored(SnapshotEntry(s.sessions, n)) == Find(s.sessions, n)
  {
  }


  // ----- Sizes -----

  ghost predicate AllAccepted(log: seq<PeerMessage>) {
    forall i :: 0 <= i < |log| ==> Accepted(log[i])
  }

  /** The log only ever takes in accepted messages. */
  lemma LogStaysAccepted(s: Bus, e: Event)
    requires Inv(s) && AllAccepted(s.log) && Enabled(s, e)
    ensures AllAccepted(Apply(s, e).log)
  {
    if e.SendAppend? || e.SendRefuse? {
      ReadyLeads(s, e.c);
      LogIs(s, e);
    } else {
      LogStays(s, e);
    }
  }

  lemma LogIs(s: Bus, e: Event)
    requires Enabled(s, e) && (e.SendAppend? || e.SendRefuse?)
    ensures Apply(s, e).log == s.log || Apply(s, e).log == s.log + [s.calls[e.c].msg]
  {
    if e.SendRefuse? {
      var m := s.calls[e.c].msg;
      EndSendParts(if e.stored then s.(log := s.log + [m]) else s, e.c, m);
    }
  }

  lemma LogStays(s: Bus, e: Event)
    requires Enabled(s, e) && !e.SendAppend? && !e.SendRefuse?
    ensures Apply(s, e).log == s.log
  {
    if e.SendCommit? || e.SendRollback? {
      SendEnds(s, e);
    }
  }

  lemma {:induction false} RunAccepts(s: Bus, es: seq<Event>)
    requires Inv(s) && AllAccepted(s.log) && Runs(s, es)
    ensures Inv(After(s, es)) && AllAccepted(After(s, es).log)
    decreases |es|
  {
    if es != [] {
      EventKeeps(s, es[0]);
      LogStaysAccepted(s, es[0]);
      RunAccepts(Apply(s, es[0]), es[1..]);
    }
  }

  /**
   * So, from a log of accepted messages, no read of any run exceeds the response limit, and with two
   * messages waiting it returns at least two.
   */
  lemma ReadsFit(raw: map<string, RawValue>, log: seq<PeerMessage>, issued: set<CallId>, es: seq<Event>, s: Bus, c: CallId, seen: nat)
    requires AllAccepted(log) && Reaches(raw, log, issued, es, s)
    requires c in s.calls && s.calls[c].ReadLoading? && s.calls[c].logged <= seen <= |s.log|
    ensures var unread, lookup := UnreadOf(s.sessions, s.calls[c].name), Lookup(s.log[..seen]);
            && Total(DrainedFrom(unread, lookup), WrapEnvelope) <= PEER_BUS_MAX_RESPONSE_BYTES
            && |Known(unread, lookup)| == |unread|
            && (|unread| >= 2 ==> |DrainedFrom(unread, lookup)| >= 2)
  {
    BootKeeps(raw, log, issued);
    RunAccepts(Boot(raw, log, issued), es);
    var unread, lookup := UnreadOf(s.sessions, s.calls[c].name), Lookup(s.log[..seen]);
    LoadingFacts(s, c, seen);
    ReadFits(unread, lookup);
    KnownIds(unread, lookup);
    KeepOnlyAll(unread, lookup.Keys);
  }
}
