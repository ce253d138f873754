/**
 * The peer bus as a step system: the critical sections of src/server/tools/peer-bus.ts, cut at every
 * `await`, over the in-memory registry, the durable log, the lock queues and the registry snapshots
 * that may reach the disk.
 */
module PeerBus {
  import opened Prelude
  import opened Names
  import opened MessageStore
  import opened Envelope
  import opened Drain
  import opened Registry
  import opened RegistryFile

  /** Every call draws one fresh name: a send uses it as its message id, a registration as its raw token. */
  type CallId = string

  /** Where a call stands: the phase is named after what it waits for. */
  datatype Call =
    | RegisterLocking(name: string, req: RegisterRequest, ttl: nat)
    | RegisterPersisting(name: string, req: RegisterRequest, ttl: nat, clock: Clock, prior: Option<SessionEntry>, entry: SessionEntry)
    | SendLockingFirst(msg: PeerMessage)
    | SendLockingSecond(msg: PeerMessage, outer: string, inner: string)
    | SendAppending(msg: PeerMessage, before: seq<string>)
    | SendPersisting(msg: PeerMessage, before: seq<string>)
    | SendReleasing(outer: string)
    | ReadLocking(name: string)
    | ReadLoading(name: string, logged: nat, before: seq<string>)
    | ReadPersisting(name: string, before: seq<string>, seen: nat, drained: seq<string>)
    | WakeLocking(name: string)

  /** What happened to a mailbox in this process, counted when the operation commits. */
  datatype Ledger = Ledger(sent: multiset<string>, returned: multiset<string>, evicted: multiset<string>)

  const EMPTY := Ledger(multiset{}, multiset{}, multiset{})

  datatype Bus = Bus(
    sessions: Sessions,
    log: seq<PeerMessage>,
    started: nat,                        // records in the log when this process started
    locks: map<string, seq<CallId>>,     // per name the calls in line, the holder first
    calls: map<CallId, Call>,            // calls under way
    issued: set<CallId>,                 // every name drawn so far
    taken: set<Sessions>,                // snapshots that persist calls took
    installed: Sessions,                 // the snapshot on disk
    ledgers: map<string, Ledger>,
    committed: map<string, CallId>)      // per name the token of the last committed registration

  function Queue(s: Bus, n: string): seq<CallId> {
    if n in s.locks then s.locks[n] else []
  }

  predicate Heads(s: Bus, n: string, c: CallId) {
    Queue(s, n) != [] && Queue(s, n)[0] == c
  }

  function Push(s: Bus, n: string, c: CallId): Bus {
    s.(locks := s.locks[n := Queue(s, n) + [c]])
  }

  function Pop(s: Bus, n: string): Bus {
    if Queue(s, n) == [] then s else s.(locks := s.locks[n := Queue(s, n)[1..]])
  }

  function First(m: PeerMessage): string {
    if LexLess(m.to, m.from) then m.to else m.from
  }

  function Second(m: PeerMessage): string {
    if LexLess(m.to, m.from) then m.from else m.to
  }

  /** The names whose locks a call holds. */
  function Holds(call: Call): set<string> {
    match call
    case RegisterPersisting(n, _, _, _, _, _) => {n}
    case SendLockingSecond(_, outer, _) => {outer}
    case SendAppending(m, _) => {m.from, m.to}
    case SendPersisting(m, _) => {m.from, m.to}
    case SendReleasing(outer) => {outer}
    case ReadLoading(n, _, _) => {n}
    case ReadPersisting(n, _, _, _) => {n}
    case _ => {}
  }

  function LedgerOf(s: Bus, n: string): Ledger {
    if n in s.ledgers then s.ledgers[n] else EMPTY
  }

  /** A token can be presented once its registration has returned; before that nobody knows it. */
  predicate Presentable(s: Bus, token: string) {
    token in s.calls ==> !s.calls[token].RegisterLocking? && !s.calls[token].RegisterPersisting?
  }

  // ----- Events -----

  datatype Event =
    | RegisterBegin(c: CallId, name: string, req: RegisterRequest, ttl: nat)
    | RegisterRun(c: CallId, clock: Clock)
    | RegisterCommit(c: CallId)
    | RegisterRollback(c: CallId)
    | TouchOnly(token: string, name: string, now: int)
    | SendBegin(c: CallId, token: string, msg: PeerMessage, now: int)
    | SendLock(c: CallId)
    | SendRefuse(c: CallId, stored: bool)
    | SendAppend(c: CallId)
    | SendIndex(c: CallId, now: int, later: int)
    | SendCommit(c: CallId)
    | SendRollback(c: CallId)
    | SendRelease(c: CallId)
    | ReadBegin(c: CallId, token: string, name: string, now: int)
    | ReadLoad(c: CallId)
    | ReadAbort(c: CallId)
    | ReadDrain(c: CallId, seen: nat, now: int)
    | ReadCommit(c: CallId)
    | ReadRollback(c: CallId)
    | WakeBegin(c: CallId, name: string)
    | WakeRun(c: CallId)
    | Install(snapshot: Sessions)
    | Restart

  predicate Undrawn(s: Bus, c: CallId) {
    c !in s.issued
  }

  /** A send that holds its locks and has not touched the log yet. */
  predicate SendReady(s: Bus, c: CallId) {
    && c in s.calls
    && (|| (s.calls[c].SendLockingFirst? && s.calls[c].msg.from == s.calls[c].msg.to && Heads(s, s.calls[c].msg.to, c))
        || (s.calls[c].SendLockingSecond? && Heads(s, s.calls[c].inner, c)))
  }

  predicate Enabled(s: Bus, e: Event) {
    match e
    case RegisterBegin(c, _, _, _) => Undrawn(s, c)
    case RegisterRun(c, _) => c in s.calls && s.calls[c].RegisterLocking? && Heads(s, s.calls[c].name, c)
    case RegisterCommit(c) => c in s.calls && s.calls[c].RegisterPersisting?
    case RegisterRollback(c) => c in s.calls && s.calls[c].RegisterPersisting?
    case TouchOnly(token, name, _) => Presentable(s, token) && Authenticates(s.sessions, name, token)
    case SendBegin(c, token, msg, _) =>
      && Undrawn(s, c) && Presentable(s, token) && Authenticates(s.sessions, msg.from, token)
      && msg.messageId == c && msg.to in s.sessions && Accepted(msg)
    case SendLock(c) => c in s.calls && s.calls[c].SendLockingFirst? && s.calls[c].msg.from != s.calls[c].msg.to && Heads(s, First(s.calls[c].msg), c)
    case SendRefuse(c, stored) => SendReady(s, c) && (stored ==> CanAddUnread(s.sessions, s.calls[c].msg.to))
    case SendAppend(c) => SendReady(s, c) && CanAddUnread(s.sessions, s.calls[c].msg.to)
    case SendIndex(c, _, _) => c in s.calls && s.calls[c].SendAppending?
    case SendCommit(c) => c in s.calls && s.calls[c].SendPersisting?
    case SendRollback(c) => c in s.calls && s.calls[c].SendPersisting?
    case SendRelease(c) => c in s.calls && s.calls[c].SendReleasing?
    case ReadBegin(c, token, name, _) => Undrawn(s, c) && Presentable(s, token) && Authenticates(s.sessions, name, token)
    case ReadLoad(c) => c in s.calls && s.calls[c].ReadLocking? && Heads(s, s.calls[c].name, c)
    case ReadAbort(c) => c in s.calls && s.calls[c].ReadLoading?
    case ReadDrain(c, seen, _) => c in s.calls && s.calls[c].ReadLoading? && s.calls[c].logged <= seen <= |s.log|
    case ReadCommit(c) => c in s.calls && s.calls[c].ReadPersisting?
    case ReadRollback(c) => c in s.calls && s.calls[c].ReadPersisting?
    case WakeBegin(c, _) => Undrawn(s, c)
    case WakeRun(c) => c in s.calls && s.calls[c].WakeLocking? && Heads(s, s.calls[c].name, c)
    case Install(snapshot) => snapshot in s.taken
    case Restart => true
  }

  function Begin(s: Bus, c: CallId, call: Call, lock: string): Bus {
    Push(s, lock, c).(calls := s.calls[c := call], issued := s.issued + {c})
  }

  function Finish(s: Bus, c: CallId, lock: string): Bus {
    Pop(s, lock).(calls := s.calls - {c})
  }

  function Unlock(s: Bus, c: CallId, outer: string, inner: string): Bus {
    Pop(s, inner).(calls := s.calls[c := SendReleasing(outer)])
  }

  /** The body of a send is over: the inner lock goes first, then the outer one. */
  function EndSend(s: Bus, c: CallId, msg: PeerMessage): Bus {
    if msg.from == msg.to then Finish(s, c, msg.to)
    else Unlock(s, c, First(msg), Second(msg))
  }

  /** A persist takes its snapshot at once; whether and when it reaches the disk is left open. */
  function Persist(s: Bus): Bus {
    s.(taken := s.taken + {s.sessions})
  }

  function Enter(s: Bus, n: string, ledger: Ledger): Bus {
    s.(ledgers := s.ledgers[n := ledger])
  }

  function RunRegister(s: Bus, c: CallId, clock: Clock): Bus
    requires c in s.calls && s.calls[c].RegisterLocking? && Heads(s, s.calls[c].name, c)
  {
    var call := s.calls[c];
    match Register(Find(s.sessions, call.name), call.name, call.req, call.ttl, clock, c)
    case Rejected(_) => Finish(s, c, call.name)
    case Registered(entry) =>
      Persist(s.(
        sessions := s.sessions[call.name := entry],
        calls := s.calls[c := RegisterPersisting(call.name, call.req, call.ttl, clock, SnapshotEntry(s.sessions, call.name), entry)]))
  }

  function PriorUnread(prior: Option<SessionEntry>): seq<string> {
    if prior.Some? then prior.value.unreadMessageIds else []
  }

  function CommitRegister(s: Bus, c: CallId): Bus
    requires c in s.calls && s.calls[c].RegisterPersisting?
  {
    var call := s.calls[c];
    var l := LedgerOf(s, call.name);
    var lost := if Evicts(call.prior, call.req.paneToken, call.clock.age, call.ttl) then multiset(PriorUnread(call.prior)) else multiset{};
    Finish(Enter(s, call.name, l.(evicted := l.evicted + lost)).(committed := s.committed[call.name := c]), c, call.name)
  }

  /** A registration whose persist failed puts the snapshot back. */
  function RollBackRegister(s: Bus, c: CallId): Bus
    requires c in s.calls && s.calls[c].RegisterPersisting?
  {
    Finish(s.(sessions := RestoreEntry(s.sessions, s.calls[c].name, s.calls[c].prior)), c, s.calls[c].name)
  }

  function LineUp(s: Bus, c: CallId, m: PeerMessage, outer: string, inner: string): Bus {
    Push(s, inner, c).(calls := s.calls[c := SendLockingSecond(m, outer, inner)])
  }

  function LockSecond(s: Bus, c: CallId): Bus
    requires c in s.calls && s.calls[c].SendLockingFirst?
  {
    var m := s.calls[c].msg;
    LineUp(s, c, m, First(m), Second(m))
  }

  /** The mailbox is full, or the append failed, with or without leaving its record behind. */
  function RefuseSend(s: Bus, c: CallId, stored: bool): Bus
    requires SendReady(s, c)
  {
    EndSend(if stored then s.(log := s.log + [s.calls[c].msg]) else s, c, s.calls[c].msg)
  }

  function AppendMessage(s: Bus, c: CallId): Bus
    requires SendReady(s, c)
  {
    var m := s.calls[c].msg;
    s.(log := s.log + [m], calls := s.calls[c := SendAppending(m, UnreadOf(s.sessions, m.to))])
  }

  function Index(s: Bus, c: CallId, now: int, later: int): Bus
    requires c in s.calls && s.calls[c].SendAppending?
  {
    var m := s.calls[c].msg;
    var added := AddUnread(s.sessions, m.to, c);
    Persist(s.(
      sessions := Touch(Touch(added, m.from, now), m.to, later),
      calls := s.calls[c := SendPersisting(m, s.calls[c].before)]))
  }

  function CommitSend(s: Bus, c: CallId): Bus
    requires c in s.calls && s.calls[c].SendPersisting?
  {
    var m := s.calls[c].msg;
    var l := LedgerOf(s, m.to);
    EndSend(Enter(s, m.to, l.(sent := l.sent + multiset{c})), c, m)
  }

  function RollBackSend(s: Bus, c: CallId): Bus
    requires c in s.calls && s.calls[c].SendPersisting?
  {
    EndSend(s.(sessions := SetUnread(s.sessions, s.calls[c].msg.to, s.calls[c].before)), c, s.calls[c].msg)
  }

  function StartLoading(s: Bus, c: CallId): Bus
    requires c in s.calls && s.calls[c].ReadLocking?
  {
    s.(calls := s.calls[c := ReadLoading(s.calls[c].name, |s.log|, UnreadOf(s.sessions, s.calls[c].name))])
  }

  function DrainMailbox(s: Bus, c: CallId, seen: nat, now: int): Bus
    requires c in s.calls && s.calls[c].ReadLoading? && s.calls[c].logged <= seen <= |s.log|
  {
    var n := s.calls[c].name;
    var unread, lookup := UnreadOf(s.sessions, n), Lookup(s.log[..seen]);
    var d := Drained(unread, lookup, WrapEnvelope, PEER_BUS_MAX_RESPONSE_BYTES);
    var rest := Remaining(unread, lookup, WrapEnvelope, PEER_BUS_MAX_RESPONSE_BYTES);
    Persist(s.(
      sessions := Touch(SetUnread(s.sessions, n, rest), n, now),
      calls := s.calls[c := ReadPersisting(n, unread, seen, Ids(d))]))
  }

  function CommitRead(s: Bus, c: CallId): Bus
    requires c in s.calls && s.calls[c].ReadPersisting?
  {
    var n := s.calls[c].name;
    var l := LedgerOf(s, n);
    Finish(Enter(s, n, l.(returned := l.returned + multiset(s.calls[c].drained))), c, n)
  }

  function RollBackRead(s: Bus, c: CallId): Bus
    requires c in s.calls && s.calls[c].ReadPersisting?
  {
    Finish(s.(sessions := SetUnread(s.sessions, s.calls[c].name, s.calls[c].before)), c, s.calls[c].name)
  }

  /** A process that has just started with these sessions, which it has written to disk. */
  function StartWith(sessions: Sessions, log: seq<PeerMessage>, issued: set<CallId>): Bus {
    Bus(sessions, log, |log|, map[], map[], issued + (set m | m in log :: m.messageId), {sessions}, sessions,
      map n | n in sessions :: Ledger(multiset(sessions[n].unreadMessageIds), multiset{}, multiset{}), map[])
  }

  /** Start-up (src/core/peer-bus-bootstrap.ts): load, reconcile against the log, persist. */
  function Boot(raw: map<string, RawValue>, log: seq<PeerMessage>, issued: set<CallId>): Bus {
    StartWith(Reconcile(LoadSessions(raw), Lookup(log)), log, issued)
  }

  function Apply(s: Bus, e: Event): Bus
    requires Enabled(s, e)
  {
    match e
    case RegisterBegin(c, name, req, ttl) => Begin(s, c, RegisterLocking(name, req, ttl), name)
    case RegisterRun(c, clock) => RunRegister(s, c, clock)
    case RegisterCommit(c) => CommitRegister(s, c)
    case RegisterRollback(c) => RollBackRegister(s, c)
    case TouchOnly(_, name, now) => s.(sessions := Touch(s.sessions, name, now))
    case SendBegin(c, _, msg, now) => Begin(s.(sessions := Touch(s.sessions, msg.from, now)), c, SendLockingFirst(msg), First(msg))
    case SendLock(c) => LockSecond(s, c)
    case SendRefuse(c, stored) => RefuseSend(s, c, stored)
    case SendAppend(c) => AppendMessage(s, c)
    case SendIndex(c, now, later) => Index(s, c, now, later)
    case SendCommit(c) => CommitSend(s, c)
    case SendRollback(c) => RollBackSend(s, c)
    case SendRelease(c) => Finish(s, c, s.calls[c].outer)
    case ReadBegin(c, _, name, now) => Begin(s.(sessions := Touch(s.sessions, name, now)), c, ReadLocking(name), name)
    case ReadLoad(c) => StartLoading(s, c)
    case ReadAbort(c) => Finish(s, c, s.calls[c].name)
    case ReadDrain(c, seen, now) => DrainMailbox(s, c, seen, now)
    case ReadCommit(c) => CommitRead(s, c)
    case ReadRollback(c) => RollBackRead(s, c)
    case WakeBegin(c, name) => Begin(s, c, WakeLocking(name), name)
    case WakeRun(c) => Finish(s, c, s.calls[c].name)
    case Install(snapshot) => s.(installed := snapshot)
    case Restart => Boot(Serialise(s.installed), s.log, s.issued)
  }

  predicate Runs(s: Bus, es: seq<Event>)
    decreases |es|
  {
    es == [] || (Enabled(s, es[0]) && Runs(Apply(s, es[0]), es[1..]))
  }

  function After(s: Bus, es: seq<Event>): Bus
    requires Runs(s, es)
    decreases |es|
  {
    if es == [] then s else After(Apply(s, es[0]), es[1..])
  }
}
