/** Every event of the peer bus keeps the invariant, one lemma an event. */
module PeerBusSteps {
  import opened Prelude
  import opened MessageStore
  import opened Envelope
  import opened Drain
  import opened Registry
  import opened PeerBus
  import opened PeerBusInvariant

  function Acting(e: Event): set<CallId> {
    match e
    case TouchOnly(_, _, _) => {}
    case Install(_) => {}
    case Restart => {}
    case _ => {e.c}
  }

  /** The names whose locks the acting call leads when the event happens. */
  function Touched(s: Bus, e: Event): set<string>
    requires Enabled(s, e)
  {
    match e
    case RegisterRun(c, _) => {s.calls[c].name}
    case RegisterCommit(c) => {s.calls[c].name}
    case RegisterRollback(c) => {s.calls[c].name}
    case SendLock(c) => {First(s.calls[c].msg)}
    case SendRefuse(c, _) => {s.calls[c].msg.from, s.calls[c].msg.to}
    case SendAppend(c) => {s.calls[c].msg.from, s.calls[c].msg.to}
    case SendIndex(c, _, _) => {s.calls[c].msg.from, s.calls[c].msg.to}
    case SendCommit(c) => {s.calls[c].msg.from, s.calls[c].msg.to}
    case SendRollback(c) => {s.calls[c].msg.from, s.calls[c].msg.to}
    case SendRelease(c) => {s.calls[c].outer}
    case ReadLoad(c) => {s.calls[c].name}
    case ReadAbort(c) => {s.calls[c].name}
    case ReadDrain(c, _, _) => {s.calls[c].name}
    case ReadCommit(c) => {s.calls[c].name}
    case ReadRollback(c) => {s.calls[c].name}
    case WakeRun(c) => {s.calls[c].name}
    case _ => {}
  }

  ghost predicate ActingOk(t: Bus, acting: set<CallId>) {
    forall c :: c in acting && c in t.calls ==> c in t.issued && CallOk(t, c, t.calls[c]) && forall n :: n in Holds(t.calls[c]) ==> Heads(t, n, c)
  }

  ghost predicate Kept(s: Bus, t: Bus, acting: set<CallId>, touched: set<string>) {
    Local(s, t, acting, touched) && Inv(t)
  }

  /** A local change keeps the invariant when it does so for the calls and names it is about. */
  lemma Assemble(s: Bus, t: Bus, acting: set<CallId>, touched: set<string>)
    requires Inv(s) && Local(s, t, acting, touched)
    requires SnapshotsOk(t) && LogOk(t) && TokensOk(t)
    requires ActingOk(t, acting)
    requires forall n :: n in touched ==> NameOk(t, n)
    ensures Inv(t)
  {
    forall c | c in t.calls
      ensures c in t.issued && CallOk(t, c, t.calls[c]) && forall n :: n in Holds(t.calls[c]) ==> Heads(t, n, c)
    {
      if c !in acting {
        assert c in s.calls;
        OthersKeep(s, t, acting, touched, c);
      }
    }
    forall n ensures NameOk(t, n) {
      if n !in touched {
        NamesKeep(s, t, acting, touched, n);
      }
    }
  }

  /** The log grows by at most the acting call's message, and every snapshot is in order. */
  ghost predicate StorageOk(s: Bus, t: Bus, acting: set<CallId>) {
    LogStep(s, t, acting) && t.started == s.started && s.issued <= t.issued && LogOk(t) && SnapshotsOk(t)
  }

  lemma StorageSame(s: Bus, t: Bus, acting: set<CallId>)
    requires Inv(s) && SnapshotOk(t.sessions, s.log)
    requires t.log == s.log && t.started == s.started && s.issued <= t.issued && t.installed == s.installed && t.taken <= s.taken + {t.sessions}
    ensures StorageOk(s, t, acting)
  {
  }

  lemma StorageAppended(s: Bus, t: Bus, c: CallId, m: PeerMessage)
    requires Inv(s) && SnapshotOk(t.sessions, s.log)
    requires t.log == s.log + [m] && t.started == s.started && t.issued == s.issued && t.installed == s.installed && t.taken == s.taken
    requires m.messageId == c && c in s.issued && Unlogged(s.log, c)
    ensures StorageOk(s, t, {c})
  {
    assert t.log[..|s.log|] == s.log;
    LogGrows(s, t, {c});
  }

  lemma AssembleParts(s: Bus, t: Bus, acting: set<CallId>, touched: set<string>)
    requires Inv(s) && StorageOk(s, t, acting)
    requires CallsStill(s, t, acting) && Leads(s, acting, touched) && NamesStill(s, t, acting, touched) && SentStep(s, t, acting)
    requires TokensOk(t) && ActingOk(t, acting)
    requires forall n :: n in touched ==> NameOk(t, n)
    ensures Kept(s, t, acting, touched)
  {
    Assemble(s, t, acting, touched);
  }

  lemma TokensStay(s: Bus, t: Bus)
    requires TokensOk(s) && s.issued <= t.issued && t.committed == s.committed
    requires forall c :: c in t.calls ==> c in s.calls || c !in s.issued
    ensures TokensOk(t)
  {
  }

  // ----- Facts about tokens and locks -----

  /** While a registration is persisting, its token is not presentable, so nobody authenticates as that name. */
  lemma PersistingIsSecret(s: Bus, token: string, n: string)
    requires Inv(s) && Presentable(s, token) && Authenticates(s.sessions, n, token)
    ensures !(Holder(s, n).Some? && Holder(s, n).value.RegisterPersisting?)
  {
    if Holder(s, n).Some? {
      assert CallOk(s, Queue(s, n)[0], Holder(s, n).value);
    }
  }

  lemma FirstSecond(m: PeerMessage)
    ensures m.from != m.to ==> Ends(m, First(m), Second(m))
    ensures m.from == m.to ==> First(m) == m.to
  {
  }

  lemma TouchOk(sessions: Sessions, log: seq<PeerMessage>, n: string, now: int)
    requires SnapshotOk(sessions, log)
    ensures SnapshotOk(Touch(sessions, n, now), log)
  {
  }

  lemma SetUnreadOk(sessions: Sessions, log: seq<PeerMessage>, n: string, ids: seq<string>)
    requires SnapshotOk(sessions, log) && ListRouted(ids, n, log)
    ensures SnapshotOk(SetUnread(sessions, n, ids), log)
  {
  }

  // ----- Calls that get in line -----

  lemma BeginKeeps(s: Bus, t: Bus, c: CallId, call: Call, lock: string)
    requires Inv(s) && Undrawn(s, c)
    requires t == Begin(s.(sessions := t.sessions), c, call, lock)
    requires Holds(call) == {} && CallOk(t, c, call)
    requires SnapshotOk(t.sessions, s.log)
    requires forall n :: SameButSeen(Find(s.sessions, n), Find(t.sessions, n))
    requires forall n :: Holder(s, n).Some? && Holder(s, n).value.RegisterPersisting? ==> Find(s.sessions, n) == Find(t.sessions, n)
    ensures Kept(s, t, {c}, {})
  {
    assert c !in s.calls;
    forall n ensures NameStill(s, t, {c}, n) {
      assert t.sessions == t.sessions;
    }
    assert SentStep(s, t, {c}) by {
      assert forall n :: LedgerOf(t, n) == LedgerOf(s, n);
    }
    TokensStay(s, t);
    StorageSame(s, t, {c});
    AssembleParts(s, t, {c}, {});
  }

  lemma TouchIsSmall(s: Bus, token: string, name: string, now: int)
    requires Inv(s) && Presentable(s, token) && Authenticates(s.sessions, name, token)
    ensures var t := Touch(s.sessions, name, now);
            && SnapshotOk(t, s.log)
            && (forall n :: SameButSeen(Find(s.sessions, n), Find(t, n)))
            && (forall n :: Holder(s, n).Some? && Holder(s, n).value.RegisterPersisting? ==> Find(s.sessions, n) == Find(t, n))
  {
    PersistingIsSecret(s, token, name);
    TouchOk(s.sessions, s.log, name, now);
  }

  lemma UndrawnUnlogged(s: Bus, c: CallId)
    requires Inv(s) && Undrawn(s, c)
    ensures Unlogged(s.log, c) && forall n :: c !in LedgerOf(s, n).sent
  {
    forall n ensures c !in LedgerOf(s, n).sent {
      assert NameOk(s, n);
    }
  }

  lemma RegisterBeginKeeps(s: Bus, c: CallId, name: string, req: RegisterRequest, ttl: nat)
    requires Inv(s) && Undrawn(s, c)
    ensures Kept(s, Begin(s, c, RegisterLocking(name, req, ttl), name), {c}, {})
  {
    BeginKeeps(s, Begin(s, c, RegisterLocking(name, req, ttl), name), c, RegisterLocking(name, req, ttl), name);
  }

  lemma WakeBeginKeeps(s: Bus, c: CallId, name: string)
    requires Inv(s) && Undrawn(s, c)
    ensures Kept(s, Begin(s, c, WakeLocking(name), name), {c}, {})
  {
    BeginKeeps(s, Begin(s, c, WakeLocking(name), name), c, WakeLocking(name), name);
  }

  lemma ReadBeginKeeps(s: Bus, c: CallId, token: string, name: string, now: int)
    requires Inv(s) && Enabled(s, ReadBegin(c, token, name, now))
    ensures Kept(s, Apply(s, ReadBegin(c, token, name, now)), {c}, {})
  {
    TouchIsSmall(s, token, name, now);
    BeginKeeps(s, Apply(s, ReadBegin(c, token, name, now)), c, ReadLocking(name), name);
  }

  lemma SendBeginKeeps(s: Bus, c: CallId, token: string, msg: PeerMessage, now: int)
    requires Inv(s) && Enabled(s, SendBegin(c, token, msg, now))
    ensures Kept(s, Apply(s, SendBegin(c, token, msg, now)), {c}, {})
  {
    var t := Apply(s, SendBegin(c, token, msg, now));
    TouchIsSmall(s, token, msg.from, now);
    UndrawnUnlogged(s, c);
    assert forall n :: LedgerOf(t, n) == LedgerOf(s, n);
    BeginKeeps(s, t, c, SendLockingFirst(msg), First(msg));
  }

  lemma TouchKeeps(s: Bus, token: string, name: string, now: int)
    requires Inv(s) && Enabled(s, TouchOnly(token, name, now))
    ensures Kept(s, Apply(s, TouchOnly(token, name, now)), {}, {})
  {
    TouchIsSmall(s, token, name, now);
    var t := Apply(s, TouchOnly(token, name, now));
    TouchedNames(s, t);
    TokensStay(s, t);
    StorageSame(s, t, {});
    AssembleParts(s, t, {}, {});
  }

  lemma TouchedNames(s: Bus, t: Bus)
    requires t == s.(sessions := t.sessions)
    requires forall n :: SameButSeen(Find(s.sessions, n), Find(t.sessions, n))
    requires forall n :: Holder(s, n).Some? && Holder(s, n).value.RegisterPersisting? ==> Find(s.sessions, n) == Find(t.sessions, n)
    ensures NamesStill(s, t, {}, {}) && SentStep(s, t, {})
  {
    assert forall n :: LedgerOf(t, n) == LedgerOf(s, n) && Queue(t, n) == Queue(s, n);
  }

  lemma InstallKeeps(s: Bus, m: Sessions)
    requires Inv(s) && m in s.taken
    ensures Kept(s, s.(installed := m), {}, {})
  {
    var t := s.(installed := m);
    forall n ensures NameStill(s, t, {}, n) {
    }
    assert SentStep(s, t, {}) by {
      assert forall n :: LedgerOf(t, n) == LedgerOf(s, n);
    }
    assert SnapshotsOk(t);
    assert LogOk(t);
    TokensStay(s, t);
    Assemble(s, t, {}, {});
  }

  // ----- Calls that give up their lock without a change -----

  lemma HolderAt(s: Bus, n: string, c: CallId)
    requires Heads(s, n, c) && c in s.calls
    ensures Holder(s, n) == if n in Holds(s.calls[c]) then Some(s.calls[c]) else None
  {
  }

  /** Leaving the only lock one leads, with the sessions and the ledger such that the name's view is right. */
  lemma FinishKeeps(s: Bus, t: Bus, c: CallId, n: string)
    requires Inv(s) && c in s.calls && Heads(s, n, c) && Holds(s.calls[c]) <= {n}
    requires t == Finish(s.(sessions := t.sessions, ledgers := t.ledgers, committed := t.committed, log := t.log), c, n)
    requires forall m :: m != n ==> Find(t.sessions, m) == Find(s.sessions, m) && LedgerOf(t, m) == LedgerOf(s, m) && CommittedTo(t, m) == CommittedTo(s, m)
    requires forall id :: id in LedgerOf(t, n).sent ==> id in LedgerOf(s, n).sent || id == c
    requires StorageOk(s, t, {c}) && TokensOk(t)
    requires Balances(LedgerOf(t, n), UnreadOf(t.sessions, n)) && TokenOk(Find(t.sessions, n), CommittedTo(t, n))
    ensures Kept(s, t, {c}, {n}) && View(t, n) == Find(t.sessions, n)
  {
    FinishedCall(s, t, c, n);
    NoHolderAfter(s, t, c, n);
    FinishedName(s, t, c, n);
    FinishedOthers(s, t, c, n);
    AssembleParts(s, t, {c}, {n});
  }

  lemma FinishedCall(s: Bus, t: Bus, c: CallId, n: string)
    requires Heads(s, n, c) && t == Finish(s.(sessions := t.sessions, ledgers := t.ledgers, committed := t.committed, log := t.log), c, n)
    ensures t.calls == s.calls - {c} && Queue(t, n) == Queue(s, n)[1..] && (forall m :: m != n ==> Queue(t, m) == Queue(s, m))
    ensures t.issued == s.issued && CallsStill(s, t, {c}) && Leads(s, {c}, {n}) && ActingOk(t, {c})
  {
  }

  lemma FinishedName(s: Bus, t: Bus, c: CallId, n: string)
    requires NamesOk(s) && c in s.issued && t.issued == s.issued && Holder(t, n) == None
    requires forall id :: id in LedgerOf(t, n).sent ==> id in LedgerOf(s, n).sent || id == c
    requires Balances(LedgerOf(t, n), UnreadOf(t.sessions, n)) && TokenOk(Find(t.sessions, n), CommittedTo(t, n))
    ensures View(t, n) == Find(t.sessions, n) && NameOk(t, n)
  {
    assert NameOk(s, n);
  }

  lemma FinishedOthers(s: Bus, t: Bus, c: CallId, n: string)
    requires c in s.calls && Holds(s.calls[c]) <= {n} && c !in t.calls && forall m :: m != n ==> Queue(t, m) == Queue(s, m)
    requires forall m :: m != n ==> Find(t.sessions, m) == Find(s.sessions, m) && LedgerOf(t, m) == LedgerOf(s, m) && CommittedTo(t, m) == CommittedTo(s, m)
    requires forall id :: id in LedgerOf(t, n).sent ==> id in LedgerOf(s, n).sent || id == c
    ensures NamesStill(s, t, {c}, {n}) && SentStep(s, t, {c})
  {
    forall m | m != n ensures NameStill(s, t, {c}, m) {
    }
    forall m, id | id in LedgerOf(t, m).sent && id !in LedgerOf(s, m).sent ensures id in {c} {
    }
  }

  /** The next in line has not been granted the lock yet. */
  lemma NoHolderAfter(s: Bus, t: Bus, c: CallId, n: string)
    requires HoldersLead(s) && Heads(s, n, c) && Queue(t, n) == Queue(s, n)[1..]
    requires forall x :: x in t.calls ==> (x in s.calls && (x != c ==> t.calls[x] == s.calls[x]))
    requires c in t.calls ==> n !in Holds(t.calls[c])
    ensures Holder(t, n) == None
  {
    if Queue(t, n) != [] {
      var x := Queue(t, n)[0];
      assert x == Queue(s, n)[1];
      if x in s.calls && x != c && n in Holds(s.calls[x]) {
        assert false;
      }
    }
  }

  /** A call leaves the only lock it leads, having rewritten the name's entry and ledger. */
  function Leave(s: Bus, c: CallId, n: string, sessions: Sessions, ledgers: map<string, Ledger>, committed: map<string, CallId>): Bus {
    Finish(s.(sessions := sessions, ledgers := ledgers, committed := committed), c, n)
  }

  lemma LeaveKeeps(s: Bus, c: CallId, n: string, sessions: Sessions, l: Ledger, committed: map<string, CallId>)
    requires Inv(s) && c in s.calls && Heads(s, n, c) && Holds(s.calls[c]) <= {n}
    requires forall m :: m != n ==> Find(sessions, m) == Find(s.sessions, m)
    requires l.sent == LedgerOf(s, n).sent
    requires committed == s.committed || committed == s.committed[n := c]
    requires SnapshotOk(sessions, s.log)
    requires Balances(l, UnreadOf(sessions, n)) && TokenOk(Find(sessions, n), if n in committed then Some(committed[n]) else None)
    ensures Kept(s, Leave(s, c, n, sessions, s.ledgers[n := l], committed), {c}, {n})
    ensures View(Leave(s, c, n, sessions, s.ledgers[n := l], committed), n) == Find(sessions, n)
  {
    var t := Leave(s, c, n, sessions, s.ledgers[n := l], committed);
    assert c in s.issued;
    LeaveTokens(s, t, c, n);
    StorageSame(s, t, {c});
    FinishKeeps(s, t, c, n);
  }

  lemma LeaveTokens(s: Bus, t: Bus, c: CallId, n: string)
    requires TokensOk(s) && c in s.calls && c in s.issued && t.calls == s.calls - {c} && t.issued == s.issued
    requires t.committed == s.committed || t.committed == s.committed[n := c]
    ensures TokensOk(t)
  {
  }

  /** A call that has changed nothing of the name whose lock it leads. */
  predicate Idle(call: Call) {
    call.WakeLocking? || call.SendReleasing? || call.ReadLoading?
  }

  lemma IdleView(s: Bus, c: CallId, n: string)
    requires NamesOk(s) && c in s.calls && Heads(s, n, c) && Idle(s.calls[c])
    ensures View(s, n) == Find(s.sessions, n)
    ensures Balances(LedgerOf(s, n), UnreadOf(s.sessions, n)) && TokenOk(Find(s.sessions, n), CommittedTo(s, n))
  {
    HolderAt(s, n, c);
    assert NameOk(s, n);
  }

  lemma IdleLeaves(s: Bus, c: CallId, n: string)
    requires Inv(s) && c in s.calls && Heads(s, n, c) && Idle(s.calls[c]) && Holds(s.calls[c]) <= {n}
    ensures Kept(s, Finish(s, c, n), {c}, {n}) && View(Finish(s, c, n), n) == View(s, n)
  {
    var t := Finish(s, c, n);
    IdleView(s, c, n);
    StorageSame(s, t, {c});
    FinishKeeps(s, t, c, n);
  }

  lemma WakeRunKeeps(s: Bus, c: CallId)
    requires Inv(s) && c in s.calls && s.calls[c].WakeLocking? && Heads(s, s.calls[c].name, c)
    ensures Kept(s, Finish(s, c, s.calls[c].name), {c}, {s.calls[c].name})
    ensures View(Finish(s, c, s.calls[c].name), s.calls[c].name) == View(s, s.calls[c].name)
  {
    IdleLeaves(s, c, s.calls[c].name);
  }

  lemma SendReleaseKeeps(s: Bus, c: CallId)
    requires Inv(s) && c in s.calls && s.calls[c].SendReleasing?
    ensures Kept(s, Finish(s, c, s.calls[c].outer), {c}, {s.calls[c].outer})
    ensures View(Finish(s, c, s.calls[c].outer), s.calls[c].outer) == View(s, s.calls[c].outer)
  {
    assert s.calls[c].outer in Holds(s.calls[c]);
    IdleLeaves(s, c, s.calls[c].outer);
  }

  lemma ReadAbortKeeps(s: Bus, c: CallId)
    requires Inv(s) && c in s.calls && s.calls[c].ReadLoading?
    ensures Kept(s, Finish(s, c, s.calls[c].name), {c}, {s.calls[c].name})
    ensures View(Finish(s, c, s.calls[c].name), s.calls[c].name) == View(s, s.calls[c].name)
  {
    assert s.calls[c].name in Holds(s.calls[c]);
    IdleLeaves(s, c, s.calls[c].name);
  }

  // ----- Registrations -----

  /** What a registration writes is well formed. */
  lemma RegisteredWellFormed(prior: Option<SessionEntry>, n: string, req: RegisterRequest, ttl: nat, clock: Clock, c: CallId, log: seq<PeerMessage>)
    requires Register(prior, n, req, ttl, clock, c).Registered?
    requires prior.Some? ==> WellFormed(n, prior.value) && ListRouted(prior.value.unreadMessageIds, n, log)
    ensures var e := Register(prior, n, req, ttl, clock, c).entry;
            && WellFormed(n, e) && e.wakeTarget == e.cmuxSurfaceId && e.tokenHash == Sha256(c)
            && ListRouted(e.unreadMessageIds, n, log)
            && e.unreadMessageIds == (if Evicts(prior, req.paneToken, clock.age, ttl) then [] else PriorUnread(prior))
  {
  }

  /** A registration does not look at the wake target that a snapshot leaves out. */
  lemma RegisterFromSnapshot(sessions: Sessions, n: string, req: RegisterRequest, ttl: nat, clock: Clock, c: CallId)
    ensures Register(SnapshotEntry(sessions, n), n, req, ttl, clock, c) == Register(Find(sessions, n), n, req, ttl, clock, c)
  {
  }

  /** An event after which the acting call still leads the same locks. */
  lemma HoldKeeps(s: Bus, t: Bus, c: CallId, touched: set<string>)
    requires Inv(s) && c in s.calls && c in t.calls
    requires t.locks == s.locks && t.ledgers == s.ledgers && t.committed == s.committed && t.calls == s.calls[c := t.calls[c]]
    requires StorageOk(s, t, {c})
    requires Holds(s.calls[c]) <= touched && Holds(t.calls[c]) <= touched
    requires forall n :: n in touched ==> Heads(s, n, c)
    requires forall n :: n !in touched ==> Find(t.sessions, n) == Find(s.sessions, n)
    requires CallOk(t, c, t.calls[c])
    requires forall n :: n in touched ==> NameOk(t, n)
    ensures Kept(s, t, {c}, touched)
  {
    forall n | n !in touched ensures NameStill(s, t, {c}, n) {
    }
    assert SentStep(s, t, {c}) by {
      assert forall n :: LedgerOf(t, n) == LedgerOf(s, n);
    }
    TokensStay(s, t);
    assert c in s.issued;
    AssembleParts(s, t, {c}, touched);
  }

  lemma RegisterRefusedKeeps(s: Bus, c: CallId, clock: Clock)
    requires Inv(s) && c in s.calls && s.calls[c].RegisterLocking? && Heads(s, s.calls[c].name, c)
    requires RunRegister(s, c, clock) == Finish(s, c, s.calls[c].name)
    ensures Kept(s, RunRegister(s, c, clock), {c}, {s.calls[c].name})
    ensures View(RunRegister(s, c, clock), s.calls[c].name) == View(s, s.calls[c].name)
  {
    var n := s.calls[c].name;
    HolderAt(s, n, c);
    assert NameOk(s, n);
    StorageSame(s, Finish(s, c, n), {c});
    FinishKeeps(s, Finish(s, c, n), c, n);
  }

  /** The state after a registration has written its entry and taken its snapshot. */
  function Accept(s: Bus, c: CallId, call: Call, entry: SessionEntry): Bus {
    Persist(s.(sessions := s.sessions[entry.name := entry], calls := s.calls[c := call]))
  }

  lemma RegisterAcceptedKeeps(s: Bus, c: CallId, clock: Clock, entry: SessionEntry)
    requires Inv(s) && c in s.calls && s.calls[c].RegisterLocking? && Heads(s, s.calls[c].name, c)
    requires var call := s.calls[c]; Register(Find(s.sessions, call.name), call.name, call.req, call.ttl, clock, c) == Registered(entry)
    ensures entry.name == s.calls[c].name
    ensures var call := s.calls[c];
            var t := Accept(s, c, RegisterPersisting(call.name, call.req, call.ttl, clock, SnapshotEntry(s.sessions, call.name), entry), entry);
            Kept(s, t, {c}, {call.name}) && View(t, call.name) == View(s, call.name)
  {
    var call := s.calls[c];
    var n := call.name;
    var prior := SnapshotEntry(s.sessions, n);
    RegisterFromSnapshot(s.sessions, n, call.req, call.ttl, clock, c);
    RegisteredWellFormed(prior, n, call.req, call.ttl, clock, c, s.log);
    var next := RegisterPersisting(n, call.req, call.ttl, clock, prior, entry);
    var t := Accept(s, c, next, entry);
    StorageSame(s, t, {c});
    assert CallOk(t, c, next);
    AcceptedNameOk(s, t, c, n, prior);
    HoldKeeps(s, t, c, {n});
  }

  lemma AcceptedNameOk(s: Bus, t: Bus, c: CallId, n: string, prior: Option<SessionEntry>)
    requires Inv(s) && c in s.calls && Heads(s, n, c) && Holds(s.calls[c]) == {} && prior == SnapshotEntry(s.sessions, n)
    requires t.locks == s.locks && t.ledgers == s.ledgers && t.committed == s.committed && t.issued == s.issued
    requires c in t.calls && t.calls[c].RegisterPersisting? && t.calls[c].name == n && t.calls[c].prior == prior
    ensures NameOk(t, n) && View(t, n) == View(s, n)
  {
    HolderAt(s, n, c);
    HolderAt(t, n, c);
    assert NameOk(s, n);
    assert View(t, n) == Restored(prior) == View(s, n);
  }

  lemma RegisterRunKeeps(s: Bus, c: CallId, clock: Clock)
    requires Inv(s) && c in s.calls && s.calls[c].RegisterLocking? && Heads(s, s.calls[c].name, c)
    ensures Kept(s, RunRegister(s, c, clock), {c}, {s.calls[c].name})
    ensures View(RunRegister(s, c, clock), s.calls[c].name) == View(s, s.calls[c].name)
  {
    var call := s.calls[c];
    match Register(Find(s.sessions, call.name), call.name, call.req, call.ttl, clock, c)
    case Rejected(_) => RegisterRefusedKeeps(s, c, clock);
    case Registered(entry) => RegisterAcceptedKeeps(s, c, clock, entry);
  }

  lemma RegisterCommitBalances(l: Ledger, mailbox: seq<string>, lost: multiset<string>, after: seq<string>)
    requires Balances(l, mailbox)
    requires multiset(mailbox) == lost + multiset(after)
    ensures Balances(l.(evicted := l.evicted + lost), after)
  {
  }

  lemma RegisteringFacts(s: Bus, c: CallId)
    requires Inv(s) && c in s.calls && s.calls[c].RegisterPersisting?
    ensures var call := s.calls[c];
            && Heads(s, call.name, c) && View(s, call.name) == Restored(call.prior)
            && Find(s.sessions, call.name) == Some(call.entry)
            && Balances(LedgerOf(s, call.name), PriorUnread(call.prior))
            && call.entry.tokenHash == Sha256(c)
            && call.entry.unreadMessageIds == (if Evicts(call.prior, call.req.paneToken, call.clock.age, call.ttl) then [] else PriorUnread(call.prior))
  {
    var call := s.calls[c];
    assert call.name in Holds(call) && CallOk(s, c, call);
    HolderAt(s, call.name, c);
    assert NameOk(s, call.name);
    RegisteredWellFormed(call.prior, call.name, call.req, call.ttl, call.clock, c, s.log);
  }

  lemma RegisterCommitKeeps(s: Bus, c: CallId)
    requires Inv(s) && c in s.calls && s.calls[c].RegisterPersisting?
    ensures Kept(s, CommitRegister(s, c), {c}, {s.calls[c].name})
    ensures View(CommitRegister(s, c), s.calls[c].name) == Some(s.calls[c].entry)
  {
    var call := s.calls[c];
    var n, l := call.name, LedgerOf(s, call.name);
    RegisteringFacts(s, c);
    var lost := if Evicts(call.prior, call.req.paneToken, call.clock.age, call.ttl) then multiset(PriorUnread(call.prior)) else multiset{};
    RegisterCommitBalances(l, PriorUnread(call.prior), lost, call.entry.unreadMessageIds);
    LeaveKeeps(s, c, n, s.sessions, l.(evicted := l.evicted + lost), s.committed[n := c]);
  }

  lemma RegisterRollbackKeeps(s: Bus, c: CallId)
    requires Inv(s) && c in s.calls && s.calls[c].RegisterPersisting?
    ensures Kept(s, RollBackRegister(s, c), {c}, {s.calls[c].name})
    ensures View(RollBackRegister(s, c), s.calls[c].name) == View(s, s.calls[c].name)
  {
    var call := s.calls[c];
    var n := call.name;
    RegisteringFacts(s, c);
    assert CallOk(s, c, call);
    var sessions := RestoreEntry(s.sessions, n, call.prior);
    assert Find(sessions, n) == Restored(call.prior);
    RestoredFinish(s, c, n, sessions);
  }

  // ----- Reads -----

  /** The committed view of a name does not change while a call that leads its lock works on nothing but itself. */
  lemma ReadLoadKeeps(s: Bus, c: CallId)
    requires Inv(s) && c in s.calls && s.calls[c].ReadLocking? && Heads(s, s.calls[c].name, c)
    ensures Kept(s, StartLoading(s, c), {c}, {s.calls[c].name})
    ensures View(StartLoading(s, c), s.calls[c].name) == View(s, s.calls[c].name)
  {
    var n := s.calls[c].name;
    var next := ReadLoading(n, |s.log|, UnreadOf(s.sessions, n));
    var t := s.(calls := s.calls[c := next]);
    StorageSame(s, t, {c});
    LoadingOk(s, t, c, n);
    ViewAt(s, t, c, n);
    HoldKeeps(s, t, c, {n});
  }

  lemma LoadingOk(s: Bus, t: Bus, c: CallId, n: string)
    requires Inv(s) && t == s.(calls := s.calls[c := ReadLoading(n, |s.log|, UnreadOf(s.sessions, n))])
    ensures CallOk(t, c, ReadLoading(n, |s.log|, UnreadOf(s.sessions, n)))
  {
    assert s.log[..|s.log|] == s.log;
    MailboxRouted(s, n);
  }

  /** A name whose head call is neither persisting before nor after shows its entry in memory. */
  lemma ViewAt(s: Bus, t: Bus, c: CallId, n: string)
    requires Inv(s) && c in s.calls && c in t.calls && Heads(s, n, c) && Queue(t, n) == Queue(s, n)
    requires !s.calls[c].RegisterPersisting? && !s.calls[c].SendPersisting? && !s.calls[c].ReadPersisting?
    requires !t.calls[c].RegisterPersisting? && !t.calls[c].SendPersisting? && !t.calls[c].ReadPersisting?
    requires Find(t.sessions, n) == Find(s.sessions, n) && LedgerOf(t, n) == LedgerOf(s, n) && CommittedTo(t, n) == CommittedTo(s, n) && s.issued <= t.issued
    ensures View(t, n) == View(s, n) && NameOk(t, n)
  {
    HolderAt(s, n, c);
    HolderAt(t, n, c);
    assert NameOk(s, n);
  }

  /** Every id that was unread when the reader got its lock is in the log that it loaded. */
  lemma LoadedKnowsAll(s: Bus, c: CallId, seen: nat)
    requires Inv(s) && c in s.calls && s.calls[c].ReadLoading? && s.calls[c].logged <= seen <= |s.log|
    ensures forall id :: id in s.calls[c].before ==> id in Lookup(s.log[..seen]) && Lookup(s.log[..seen])[id] == Lookup(s.log)[id]
  {
    var call := s.calls[c];
    assert CallOk(s, c, call);
    FreshLater(s.log, s.started, call.logged);
    ReadableLater(s.log, call.before, call.logged, seen);
  }

  lemma FreshLater(log: seq<PeerMessage>, from: nat, later: nat)
    requires FreshFrom(log, from) && from <= later
    ensures FreshFrom(log, later)
  {
  }

  lemma {:induction false} ReadableLater(log: seq<PeerMessage>, ids: seq<string>, logged: nat, seen: nat)
    requires FreshFrom(log, logged) && logged <= seen <= |log|
    requires forall id :: id in ids ==> id in Lookup(log[..logged])
    ensures forall id :: id in ids ==> id in Lookup(log) && id in Lookup(log[..seen]) && Lookup(log[..seen])[id] == Lookup(log)[id]
  {
    assert log[..|log|] == log;
    forall id | id in ids ensures id in Lookup(log) && id in Lookup(log[..seen]) && Lookup(log[..seen])[id] == Lookup(log)[id] {
      LookupGrows(log, logged, seen, id);
      LookupGrows(log, logged, |log|, id);
    }
  }

  /** A drain in this state splits the mailbox in two: nothing is dropped as an orphan. */
  lemma DrainSplits(before: seq<string>, lookup: map<string, PeerMessage>)
    requires WellKeyed(lookup) && forall id :: id in before ==> id in lookup
    ensures Orphans(before, lookup) == []
    ensures var d := Drained(before, lookup, WrapEnvelope, PEER_BUS_MAX_RESPONSE_BYTES);
            var rest := Remaining(before, lookup, WrapEnvelope, PEER_BUS_MAX_RESPONSE_BYTES);
            (NoDup(before) ==> multiset(before) == multiset(Ids(d)) + multiset(rest)) && forall id :: id in rest ==> id in before
  {
    KeepOnlyNone(before, (set id | id in before) - lookup.Keys);
    if NoDup(before) {
      DrainPartitions(before, lookup, WrapEnvelope, PEER_BUS_MAX_RESPONSE_BYTES);
    }
    KeepOnlyMembers(before, lookup.Keys - IdSet(Drained(before, lookup, WrapEnvelope, PEER_BUS_MAX_RESPONSE_BYTES)));
  }

  lemma ReadDrainKeeps(s: Bus, c: CallId, seen: nat, now: int)
    requires Inv(s) && c in s.calls && s.calls[c].ReadLoading? && s.calls[c].logged <= seen <= |s.log|
    ensures Kept(s, DrainMailbox(s, c, seen, now), {c}, {s.calls[c].name})
    ensures SameButSeen(View(s, s.calls[c].name), View(DrainMailbox(s, c, seen, now), s.calls[c].name))
  {
    var n, before := s.calls[c].name, s.calls[c].before;
    var lookup := Lookup(s.log[..seen]);
    assert n in Holds(s.calls[c]) && CallOk(s, c, s.calls[c]);
    LoadedKnowsAll(s, c, seen);
    DrainSplits(before, lookup);
    var rest := Remaining(before, lookup, WrapEnvelope, PEER_BUS_MAX_RESPONSE_BYTES);
    var drained := Ids(Drained(before, lookup, WrapEnvelope, PEER_BUS_MAX_RESPONSE_BYTES));
    EmptyDrains(before, lookup);
    DrainedKeeps(s, c, seen, rest, drained, now);
  }

  lemma DrainedKeeps(s: Bus, c: CallId, seen: nat, rest: seq<string>, drained: seq<string>, now: int)
    requires Inv(s) && c in s.calls && s.calls[c].ReadLoading? && s.calls[c].logged <= seen <= |s.log| && UnreadOf(s.sessions, s.calls[c].name) == s.calls[c].before
    requires forall id :: id in rest ==> id in s.calls[c].before
    requires NoDup(s.calls[c].before) ==> multiset(s.calls[c].before) == multiset(drained) + multiset(rest)
    requires s.calls[c].before == [] ==> rest == []
    ensures var n := s.calls[c].name;
            var t := Persist(s.(sessions := Touch(SetUnread(s.sessions, n, rest), n, now), calls := s.calls[c := ReadPersisting(n, s.calls[c].before, seen, drained)]));
            Kept(s, t, {c}, {n}) && SameButSeen(View(s, n), View(t, n))
  {
    var n, before := s.calls[c].name, s.calls[c].before;
    var t := Persist(s.(sessions := Touch(SetUnread(s.sessions, n, rest), n, now), calls := s.calls[c := ReadPersisting(n, before, seen, drained)]));
    assert n in Holds(s.calls[c]);
    assert Heads(s, n, c);
    MailboxRouted(s, n);
    SetUnreadOk(s.sessions, s.log, n, rest);
    TouchOk(SetUnread(s.sessions, n, rest), s.log, n, now);
    StorageSame(s, t, {c});
    DrainedNameOk(s, t, c, n, rest, now);
    DrainedOk(s, t, c, n, before, seen, drained, rest, now);
    HoldKeeps(s, t, c, {n});
  }

  lemma DrainedOk(s: Bus, t: Bus, c: CallId, n: string, before: seq<string>, seen: nat, drained: seq<string>, rest: seq<string>, now: int)
    requires t.sessions == Touch(SetUnread(s.sessions, n, rest), n, now) && t.log == s.log && seen <= |s.log|
    requires UnreadOf(s.sessions, n) == before && ListRouted(before, n, s.log) && (before == [] ==> rest == [])
    requires NoDup(before) ==> multiset(before) == multiset(drained) + multiset(rest)
    ensures CallOk(t, c, ReadPersisting(n, before, seen, drained)) && UnreadOf(t.sessions, n) == rest
  {
    assert UnreadOf(t.sessions, n) == rest;
  }

  lemma LoadingView(s: Bus, c: CallId, n: string)
    requires c in s.calls && s.calls[c].ReadLoading? && s.calls[c].name == n && Heads(s, n, c)
    ensures View(s, n) == Find(s.sessions, n)
  {
    HolderAt(s, n, c);
  }

  lemma ReadingView(t: Bus, c: CallId, n: string)
    requires c in t.calls && t.calls[c].ReadPersisting? && t.calls[c].name == n && Heads(t, n, c)
    ensures View(t, n) == WithUnread(Find(t.sessions, n), t.calls[c].before)
  {
    HolderAt(t, n, c);
  }

  /** A name whose committed entry is the same but for its last sight is in order as before. */
  lemma SameName(s: Bus, t: Bus, n: string)
    requires NamesOk(s) && LedgerOf(t, n) == LedgerOf(s, n) && CommittedTo(t, n) == CommittedTo(s, n) && s.issued <= t.issued
    requires SameButSeen(View(s, n), View(t, n))
    ensures NameOk(t, n)
  {
    assert NameOk(s, n);
  }

  lemma DrainedNameOk(s: Bus, t: Bus, c: CallId, n: string, rest: seq<string>, now: int)
    requires Inv(s) && c in s.calls && Heads(s, n, c) && s.calls[c].ReadLoading? && s.calls[c].name == n && UnreadOf(s.sessions, n) == s.calls[c].before
    requires t.locks == s.locks && t.ledgers == s.ledgers && t.committed == s.committed && t.issued == s.issued
    requires t.sessions == Touch(SetUnread(s.sessions, n, rest), n, now)
    requires c in t.calls && t.calls[c].ReadPersisting? && t.calls[c].name == n && t.calls[c].before == s.calls[c].before
    ensures NameOk(t, n) && SameButSeen(View(s, n), View(t, n))
  {
    LoadingView(s, c, n);
    ReadingView(t, c, n);
    SameName(s, t, n);
  }

  lemma MailboxRouted(s: Bus, n: string)
    requires Inv(s)
    ensures ListRouted(UnreadOf(s.sessions, n), n, s.log)
  {
  }

  lemma EmptyDrains(before: seq<string>, lookup: map<string, PeerMessage>)
    ensures before == [] ==> Remaining(before, lookup, WrapEnvelope, PEER_BUS_MAX_RESPONSE_BYTES) == []
  {
  }

  lemma NoDupFromCounts(sent: multiset<string>, xs: seq<string>)
    requires multiset(xs) <= sent && forall id :: sent[id] <= 1
    ensures NoDup(xs)
  {
    CountsNoDup(xs);
  }

  lemma ReadingFacts(s: Bus, c: CallId)
    requires Inv(s) && c in s.calls && s.calls[c].ReadPersisting?
    ensures var call := s.calls[c];
            && Heads(s, call.name, c) && View(s, call.name) == WithUnread(Find(s.sessions, call.name), call.before)
            && (call.name !in s.sessions ==> call.before == [])
            && Balances(LedgerOf(s, call.name), call.before)
            && TokenOk(Find(s.sessions, call.name), CommittedTo(s, call.name))
            && ListRouted(call.before, call.name, s.log)
            && (NoDup(call.before) ==> multiset(call.before) == multiset(call.drained) + multiset(UnreadOf(s.sessions, call.name)))
  {
    var call := s.calls[c];
    assert call.name in Holds(call) && CallOk(s, c, call);
    HolderAt(s, call.name, c);
    assert NameOk(s, call.name);
  }

  lemma ReadCommitKeeps(s: Bus, c: CallId)
    requires Inv(s) && c in s.calls && s.calls[c].ReadPersisting?
    ensures Kept(s, CommitRead(s, c), {c}, {s.calls[c].name})
    ensures View(CommitRead(s, c), s.calls[c].name) == Find(s.sessions, s.calls[c].name)
  {
    var call := s.calls[c];
    var n, l := call.name, LedgerOf(s, call.name);
    ReadingFacts(s, c);
    ReadCommitBalances(l, call.before, call.drained, UnreadOf(s.sessions, n));
    LeaveKeeps(s, c, n, s.sessions, l.(returned := l.returned + multiset(call.drained)), s.committed);
  }

  lemma ReadCommitBalances(l: Ledger, before: seq<string>, drained: seq<string>, rest: seq<string>)
    requires Balances(l, before)
    requires NoDup(before) ==> multiset(before) == multiset(drained) + multiset(rest)
    ensures Balances(l.(returned := l.returned + multiset(drained)), rest)
  {
    if forall id :: l.sent[id] <= 1 {
      NoDupFromCounts(l.sent, before);
    }
  }

  lemma ReadRollbackKeeps(s: Bus, c: CallId)
    requires Inv(s) && c in s.calls && s.calls[c].ReadPersisting?
    ensures Kept(s, RollBackRead(s, c), {c}, {s.calls[c].name})
    ensures View(RollBackRead(s, c), s.calls[c].name) == View(s, s.calls[c].name)
  {
    var call := s.calls[c];
    var n, l := call.name, LedgerOf(s, call.name);
    ReadingFacts(s, c);
    SetUnreadOk(s.sessions, s.log, n, call.before);
    var sessions := SetUnread(s.sessions, n, call.before);
    RestoredFinish(s, c, n, sessions);
  }

  /** A call whose persist failed leaves with the old mailbox; its ledger stays as it was. */
  lemma RestoredFinish(s: Bus, c: CallId, n: string, sessions: Sessions)
    requires Inv(s) && c in s.calls && Heads(s, n, c) && Holds(s.calls[c]) <= {n}
    requires forall m :: m != n ==> Find(sessions, m) == Find(s.sessions, m)
    requires SnapshotOk(sessions, s.log) && Find(sessions, n) == View(s, n)
    ensures Kept(s, Finish(s.(sessions := sessions), c, n), {c}, {n})
    ensures View(Finish(s.(sessions := sessions), c, n), n) == View(s, n)
  {
    var t := Finish(s.(sessions := sessions), c, n);
    assert NameOk(s, n);
    TokensStay(s, t);
    StorageSame(s, t, {c});
    FinishKeeps(s, t, c, n);
  }
}
