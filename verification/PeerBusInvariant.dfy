/** What every event of the peer bus keeps. */
module PeerBusInvariant {
  import opened Prelude
  import opened Names
  import opened MessageStore
  import opened Envelope
  import opened Registry
  import opened PeerBus

  // ----- The committed view -----

  /** The call that holds the lock of a name. */
  function Holder(s: Bus, n: string): Option<Call> {
    if Queue(s, n) != [] && Queue(s, n)[0] in s.calls && n in Holds(s.calls[Queue(s, n)[0]]) then Some(s.calls[Queue(s, n)[0]]) else None
  }

  function WithUnread(entry: Option<SessionEntry>, unread: seq<string>): Option<SessionEntry> {
    if entry.Some? then Some(entry.value.(unreadMessageIds := unread)) else None
  }

  function Restored(prior: Option<SessionEntry>): Option<SessionEntry> {
    if prior.Some? then Some(prior.value.(wakeTarget := prior.value.cmuxSurfaceId)) else None
  }

  /** The entry of a name as it would be if the operation that is persisting on it failed. */
  function View(s: Bus, n: string): Option<SessionEntry> {
    var now := Find(s.sessions, n);
    match Holder(s, n)
    case Some(RegisterPersisting(_, _, _, _, prior, _)) => Restored(prior)
    case Some(SendPersisting(m, before)) => if m.to == n then WithUnread(now, before) else now
    case Some(ReadPersisting(_, before, _, _)) => WithUnread(now, before)
    case _ => now
  }

  function Mailbox(s: Bus, n: string): seq<string> {
    if View(s, n).Some? then View(s, n).value.unreadMessageIds else []
  }

  // ----- The invariant -----

  ghost predicate WellFormed(n: string, e: SessionEntry) {
    IsSessionName(n) && e.name == n && e.paneTokenHash != Some(Blank)
  }

  ghost predicate ListRouted(ids: seq<string>, n: string, log: seq<PeerMessage>) {
    forall id :: id in ids ==> id in Lookup(log) && Lookup(log)[id].to == n
  }

  ghost predicate SnapshotOk(m: Sessions, log: seq<PeerMessage>) {
    forall n :: n in m ==> WellFormed(n, m[n]) && m[n].wakeTarget == m[n].cmuxSurfaceId && ListRouted(m[n].unreadMessageIds, n, log)
  }

  ghost predicate Unlogged(log: seq<PeerMessage>, id: string) {
    forall i :: 0 <= i < |log| ==> log[i].messageId != id
  }

  /** The message of a send is its own, and no committed send carries its id. */
  ghost predicate SendOk(s: Bus, c: CallId, m: PeerMessage) {
    m.messageId == c && Accepted(m) && forall n :: c !in LedgerOf(s, n).sent
  }

  /** The two different names of a message, in either order. */
  ghost predicate Ends(m: PeerMessage, outer: string, inner: string) {
    m.from != m.to && ((outer == m.from && inner == m.to) || (outer == m.to && inner == m.from))
  }

  ghost predicate CallOk(s: Bus, c: CallId, call: Call) {
    match call
    case RegisterPersisting(n, req, ttl, clock, prior, entry) =>
      && Find(s.sessions, n) == Some(entry)
      && Register(prior, n, req, ttl, clock, c) == Registered(entry)
      && (prior.Some? ==> WellFormed(n, prior.value) && prior.value.wakeTarget == None && ListRouted(prior.value.unreadMessageIds, n, s.log))
    case SendLockingFirst(m) => SendOk(s, c, m) && Unlogged(s.log, c)
    case SendLockingSecond(m, outer, inner) => SendOk(s, c, m) && Unlogged(s.log, c) && Ends(m, outer, inner)
    case SendAppending(m, before) =>
      SendOk(s, c, m) && m.to in s.sessions && UnreadOf(s.sessions, m.to) == before && |before| < PEER_BUS_MAX_UNREAD && ListRouted([c], m.to, s.log)
    case SendPersisting(m, before) =>
      SendOk(s, c, m) && m.to in s.sessions && UnreadOf(s.sessions, m.to) == before + [c]
    case ReadLoading(n, logged, before) =>
      && UnreadOf(s.sessions, n) == before
      && s.started <= logged <= |s.log|
      && forall id :: id in before ==> id in Lookup(s.log[..logged])
    case ReadPersisting(n, before, seen, drained) =>
      && seen <= |s.log|
      && (n !in s.sessions ==> before == [])
      && ListRouted(before, n, s.log)
      && (NoDup(before) ==> multiset(before) == multiset(drained) + multiset(UnreadOf(s.sessions, n)))
    case _ => true
  }

  /** What was sent was returned, evicted or is in the mailbox, each as often as it was sent. */
  ghost predicate Balances(l: Ledger, mailbox: seq<string>) {
    (forall id :: l.sent[id] <= 1) ==> l.sent == l.returned + l.evicted + multiset(mailbox)
  }

  /** The stored token is that of the last committed registration; without one in this process it is blank. */
  ghost predicate TokenOk(view: Option<SessionEntry>, committed: Option<CallId>) {
    if view.None? then committed.None?
    else view.value.tokenHash == if committed.Some? then Sha256(committed.value) else Blank
  }

  function CommittedTo(s: Bus, n: string): Option<CallId> {
    if n in s.committed then Some(s.committed[n]) else None
  }

  ghost predicate NameOk(s: Bus, n: string) {
    Balances(LedgerOf(s, n), Mailbox(s, n)) && TokenOk(View(s, n), CommittedTo(s, n)) && forall id :: id in LedgerOf(s, n).sent ==> id in s.issued
  }

  ghost predicate SnapshotsOk(s: Bus) {
    SnapshotOk(s.sessions, s.log) && SnapshotOk(s.installed, s.log) && forall m :: m in s.taken ==> SnapshotOk(m, s.log)
  }

  ghost predicate LogOk(s: Bus) {
    s.started <= |s.log| && FreshFrom(s.log, s.started) && forall i :: 0 <= i < |s.log| ==> s.log[i].messageId in s.issued
  }

  ghost predicate HoldersLead(s: Bus) {
    forall c, n :: c in s.calls && n in Holds(s.calls[c]) ==> Heads(s, n, c)
  }

  ghost predicate TokensOk(s: Bus) {
    && (forall n :: n in s.committed ==> s.committed[n] in s.issued && s.committed[n] !in s.calls)
    && (forall m, n :: m in s.committed && n in s.committed && s.committed[m] == s.committed[n] ==> m == n)
  }

  ghost predicate CallsOk(s: Bus) {
    forall c :: c in s.calls ==> c in s.issued && CallOk(s, c, s.calls[c])
  }

  ghost predicate NamesOk(s: Bus) {
    forall n :: NameOk(s, n)
  }

  ghost predicate Inv(s: Bus) {
    SnapshotsOk(s) && LogOk(s) && HoldersLead(s) && CallsOk(s) && NamesOk(s) && TokensOk(s)
  }

  // ----- What an event leaves alone -----

  ghost predicate SameButSeen(a: Option<SessionEntry>, b: Option<SessionEntry>) {
    a == b || (a.Some? && b.Some? && b.value == a.value.(lastSeenAt := b.value.lastSeenAt))
  }

  ghost predicate LogStep(s: Bus, t: Bus, acting: set<CallId>) {
    || t.log == s.log
    || (|t.log| == |s.log| + 1 && t.log[..|s.log|] == s.log && t.log[|s.log|].messageId in acting && Unlogged(s.log, t.log[|s.log|].messageId))
  }

  ghost predicate NameStill(s: Bus, t: Bus, acting: set<CallId>, n: string) {
    && (Queue(t, n) == Queue(s, n) || (|Queue(t, n)| == |Queue(s, n)| + 1 && Queue(t, n)[..|Queue(s, n)|] == Queue(s, n) && Queue(t, n)[|Queue(s, n)|] in acting))
    && LedgerOf(t, n) == LedgerOf(s, n)
    && CommittedTo(t, n) == CommittedTo(s, n)
    && SameButSeen(Find(s.sessions, n), Find(t.sessions, n))
    && (Holder(s, n).Some? && Holder(s, n).value.RegisterPersisting? ==> Find(s.sessions, n) == Find(t.sessions, n))
    && (forall c :: c in acting ==> (c in s.calls ==> n !in Holds(s.calls[c])) && (c in t.calls ==> n !in Holds(t.calls[c])))
  }

  ghost predicate CallsStill(s: Bus, t: Bus, acting: set<CallId>) {
    forall c :: c !in acting ==> (c in s.calls <==> c in t.calls) && (c in s.calls ==> t.calls[c] == s.calls[c])
  }

  ghost predicate Leads(s: Bus, acting: set<CallId>, touched: set<string>) {
    forall n :: n in touched ==> Queue(s, n) != [] && Queue(s, n)[0] in acting
  }

  ghost predicate NamesStill(s: Bus, t: Bus, acting: set<CallId>, touched: set<string>) {
    forall n :: n !in touched ==> NameStill(s, t, acting, n)
  }

  ghost predicate SentStep(s: Bus, t: Bus, acting: set<CallId>) {
    forall n, id :: id in LedgerOf(t, n).sent && id !in LedgerOf(s, n).sent ==> id in acting
  }

  /** Outside the names in `touched`, whose locks the acting calls lead, and the acting calls themselves, little changes. */
  ghost predicate Local(s: Bus, t: Bus, acting: set<CallId>, touched: set<string>) {
    && CallsStill(s, t, acting)
    && Leads(s, acting, touched)
    && NamesStill(s, t, acting, touched)
    && SentStep(s, t, acting)
    && LogStep(s, t, acting)
    && t.started == s.started
    && s.issued <= t.issued
  }

  lemma {:induction false} LookupExtends(log: seq<PeerMessage>, m: PeerMessage)
    ensures Lookup(log + [m]) == Lookup(log)[m.messageId := m]
  {
    assert (log + [m])[..|log|] == log;
  }

  lemma LogGrows(s: Bus, t: Bus, acting: set<CallId>)
    requires LogStep(s, t, acting)
    ensures |s.log| <= |t.log| && t.log[..|s.log|] == s.log
    ensures forall ids, n :: ListRouted(ids, n, s.log) ==> ListRouted(ids, n, t.log)
    ensures forall m :: SnapshotOk(m, s.log) ==> SnapshotOk(m, t.log)
    ensures forall k :: 0 <= k <= |s.log| ==> t.log[..k] == s.log[..k]
  {
    if t.log == s.log {
      assert t.log[..|s.log|] == s.log;
    } else {
      var m := t.log[|s.log|];
      assert t.log == s.log + [m];
      LookupExtends(s.log, m);
      assert m.messageId !in Lookup(s.log);
    }
  }

  /** A name whose lock is held by a call that does not act. */
  lemma HeldStill(s: Bus, t: Bus, acting: set<CallId>, touched: set<string>, c: CallId, n: string)
    requires Inv(s) && Local(s, t, acting, touched)
    requires c in s.calls && c !in acting && n in Holds(s.calls[c])
    ensures n !in touched && Heads(t, n, c) && Holder(s, n) == Some(s.calls[c])
    ensures UnreadOf(t.sessions, n) == UnreadOf(s.sessions, n)
    ensures n in s.sessions <==> n in t.sessions
    ensures s.calls[c].RegisterPersisting? ==> Find(t.sessions, n) == Find(s.sessions, n)
  {
    assert Heads(s, n, c);
    assert NameStill(s, t, acting, n);
    assert SameButSeen(Find(s.sessions, n), Find(t.sessions, n));
  }

  lemma SendOkStays(s: Bus, t: Bus, acting: set<CallId>, touched: set<string>, c: CallId, m: PeerMessage)
    requires Local(s, t, acting, touched) && c !in acting && SendOk(s, c, m)
    ensures SendOk(t, c, m)
  {
    forall n ensures c !in LedgerOf(t, n).sent {
      assert c !in LedgerOf(s, n).sent;
    }
  }

  /** The calls that do not act keep their facts and their locks. */
  lemma OthersKeep(s: Bus, t: Bus, acting: set<CallId>, touched: set<string>, c: CallId)
    requires Inv(s) && Local(s, t, acting, touched)
    requires c in s.calls && c !in acting
    ensures c in t.calls && t.calls[c] == s.calls[c]
    ensures CallOk(t, c, t.calls[c])
    ensures forall n :: n in Holds(t.calls[c]) ==> Heads(t, n, c)
  {
    assert CallOk(s, c, s.calls[c]);
    LogGrows(s, t, acting);
    forall n | n in Holds(t.calls[c]) ensures Heads(t, n, c) {
      HeldStill(s, t, acting, touched, c, n);
    }
    match s.calls[c]
    case RegisterPersisting(n, _, _, _, _, _) => HeldStill(s, t, acting, touched, c, n);
    case SendLockingFirst(m) =>
      UnloggedStays(s, t, acting, c);
      SendOkStays(s, t, acting, touched, c, m);
    case SendLockingSecond(m, _, _) =>
      UnloggedStays(s, t, acting, c);
      SendOkStays(s, t, acting, touched, c, m);
    case SendAppending(m, before) =>
      HeldStill(s, t, acting, touched, c, m.to);
      SendOkStays(s, t, acting, touched, c, m);
    case SendPersisting(m, before) =>
      HeldStill(s, t, acting, touched, c, m.to);
      SendOkStays(s, t, acting, touched, c, m);
    case ReadLoading(n, _, _) => HeldStill(s, t, acting, touched, c, n);
    case ReadPersisting(n, _, _, _) => HeldStill(s, t, acting, touched, c, n);
    case _ =>
  }

  lemma UnloggedStays(s: Bus, t: Bus, acting: set<CallId>, c: CallId)
    requires LogStep(s, t, acting) && Unlogged(s.log, c) && c !in acting
    ensures Unlogged(t.log, c)
  {
    if t.log != s.log {
      forall i | 0 <= i < |t.log| ensures t.log[i].messageId != c {
        if i < |s.log| {
          assert t.log[..|s.log|][i] == s.log[i];
        }
      }
    }
  }

  /** The names that are not touched keep their committed view, but for the time they were last seen. */
  lemma ViewsKeep(s: Bus, t: Bus, acting: set<CallId>, touched: set<string>, n: string)
    requires Local(s, t, acting, touched) && n !in touched
    ensures SameButSeen(View(s, n), View(t, n))
    ensures Mailbox(t, n) == Mailbox(s, n)
  {
    assert NameStill(s, t, acting, n);
    assert Holder(t, n) == Holder(s, n);
  }

  lemma NamesKeep(s: Bus, t: Bus, acting: set<CallId>, touched: set<string>, n: string)
    requires Inv(s) && Local(s, t, acting, touched) && n !in touched
    ensures NameOk(t, n)
  {
    assert NameOk(s, n);
    assert NameStill(s, t, acting, n);
    ViewsKeep(s, t, acting, touched, n);
  }
}
