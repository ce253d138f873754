/** The events of a send keep the invariant; with them, every event does. */
module PeerBusSends {
  import opened MessageStore
  import opened Registry
  import opened RegistryFile
  import opened PeerBus
  import opened PeerBusInvariant
  import opened PeerBusSteps

  lemma ReadyLeads(s: Bus, c: CallId)
    requires Inv(s) && SendReady(s, c)
    ensures var m := s.calls[c].msg;
            && Heads(s, m.from, c) && Heads(s, m.to, c)
            && SendOk(s, c, m) && Unlogged(s.log, c) && c in s.issued
            && Holds(s.calls[c]) <= {m.from, m.to}
  {
    var m := s.calls[c].msg;
    assert CallOk(s, c, s.calls[c]);
    if s.calls[c].SendLockingSecond? {
      var outer, inner := s.calls[c].outer, s.calls[c].inner;
      assert outer in Holds(s.calls[c]);
      assert Heads(s, outer, c) && Heads(s, inner, c);
    }
  }

  lemma LeadsBoth(s: Bus, c: CallId)
    requires Inv(s) && c in s.calls && (s.calls[c].SendAppending? || s.calls[c].SendPersisting?)
    ensures var m := s.calls[c].msg;
            Heads(s, m.from, c) && Heads(s, m.to, c) && SendOk(s, c, m) && c in s.issued && Holds(s.calls[c]) == {m.from, m.to}
  {
    var m := s.calls[c].msg;
    assert CallOk(s, c, s.calls[c]);
    assert m.from in Holds(s.calls[c]) && m.to in Holds(s.calls[c]);
  }

  lemma LineUpKeeps(s: Bus, c: CallId, m: PeerMessage, outer: string, inner: string)
    requires Inv(s) && c in s.calls && s.calls[c] == SendLockingFirst(m) && Heads(s, outer, c)
    requires Ends(m, outer, inner)
    ensures Kept(s, LineUp(s, c, m, outer, inner), {c}, {outer})
    ensures View(LineUp(s, c, m, outer, inner), outer) == View(s, outer)
  {
    var t := LineUp(s, c, m, outer, inner);
    LinedUpFrame(s, c, m, outer, inner);
    LinedUpRest(s, t, c, m, outer, inner);
    AssembleParts(s, t, {c}, {outer});
  }

  lemma LinedUpRest(s: Bus, t: Bus, c: CallId, m: PeerMessage, outer: string, inner: string)
    requires Inv(s) && c in s.calls && s.calls[c] == SendLockingFirst(m) && Heads(s, outer, c) && Ends(m, outer, inner)
    requires t == LineUp(s, c, m, outer, inner)
    ensures StorageOk(s, t, {c}) && TokensOk(t) && CallsStill(s, t, {c}) && Leads(s, {c}, {outer})
    ensures View(t, outer) == View(s, outer) && NameOk(t, outer)
  {
    assert Queue(t, outer) == Queue(s, outer);
    ViewAt(s, t, c, outer);
    TokensStay(s, t);
    StorageSame(s, t, {c});
  }

  lemma LinedUpFrame(s: Bus, c: CallId, m: PeerMessage, outer: string, inner: string)
    requires Inv(s) && c in s.calls && s.calls[c] == SendLockingFirst(m) && Heads(s, outer, c) && Ends(m, outer, inner)
    ensures var t := LineUp(s, c, m, outer, inner);
            NamesStill(s, t, {c}, {outer}) && SentStep(s, t, {c}) && ActingOk(t, {c})
  {
    var t := LineUp(s, c, m, outer, inner);
    assert CallOk(s, c, s.calls[c]) && c in s.issued;
    assert forall n :: LedgerOf(t, n) == LedgerOf(s, n);
    assert Queue(t, outer) == Queue(s, outer);
    assert CallOk(t, c, t.calls[c]);
    forall n | n != outer ensures NameStill(s, t, {c}, n) {
    }
  }

  lemma SendLockKeeps(s: Bus, c: CallId)
    requires Inv(s) && c in s.calls && s.calls[c].SendLockingFirst? && s.calls[c].msg.from != s.calls[c].msg.to && Heads(s, First(s.calls[c].msg), c)
    ensures Kept(s, LockSecond(s, c), {c}, {First(s.calls[c].msg)})
    ensures View(LockSecond(s, c), First(s.calls[c].msg)) == View(s, First(s.calls[c].msg))
  {
    var m := s.calls[c].msg;
    FirstSecond(m);
    LineUpKeeps(s, c, m, First(m), Second(m));
  }

  /** The call's record is in the log, and its snapshot is of a mailbox with room. */
  lemma AppendedOk(s: Bus, c: CallId, m: PeerMessage)
    requires SendReady(s, c) && s.calls[c].msg == m && CanAddUnread(s.sessions, m.to) && SendOk(s, c, m)
    ensures CallOk(AppendMessage(s, c), c, SendAppending(m, UnreadOf(s.sessions, m.to)))
  {
    var t := AppendMessage(s, c);
    LookupExtends(s.log, m);
    assert forall n :: LedgerOf(t, n) == LedgerOf(s, n);
  }

  lemma AppendedStorage(s: Bus, c: CallId, m: PeerMessage)
    requires Inv(s) && SendReady(s, c) && s.calls[c].msg == m
    ensures StorageOk(s, AppendMessage(s, c), {c})
  {
    ReadyLeads(s, c);
    StorageAppended(s, AppendMessage(s, c), c, m);
  }

  lemma SendAppendKeeps(s: Bus, c: CallId)
    requires Inv(s) && SendReady(s, c) && CanAddUnread(s.sessions, s.calls[c].msg.to)
    ensures Kept(s, AppendMessage(s, c), {c}, {s.calls[c].msg.from, s.calls[c].msg.to})
    ensures var m := s.calls[c].msg; View(AppendMessage(s, c), m.from) == View(s, m.from) && View(AppendMessage(s, c), m.to) == View(s, m.to)
  {
    var m := s.calls[c].msg;
    var t := AppendMessage(s, c);
    ReadyLeads(s, c);
    AppendedOk(s, c, m);
    AppendedStorage(s, c, m);
    AppendedNames(s, t, c, m);
    HoldKeeps(s, t, c, {m.from, m.to});
  }

  lemma AppendedNames(s: Bus, t: Bus, c: CallId, m: PeerMessage)
    requires Inv(s) && SendReady(s, c) && s.calls[c].msg == m && Heads(s, m.from, c) && Heads(s, m.to, c)
    requires t == s.(log := t.log, calls := s.calls[c := SendAppending(m, UnreadOf(s.sessions, m.to))])
    ensures NameOk(t, m.from) && NameOk(t, m.to) && View(t, m.from) == View(s, m.from) && View(t, m.to) == View(s, m.to)
  {
    ViewAt(s, t, c, m.from);
    ViewAt(s, t, c, m.to);
  }

  /** Indexing appends the id to the recipient's list and marks both sessions as seen. */
  lemma IndexedSessions(s: Bus, c: CallId, now: int, later: int)
    requires Inv(s) && c in s.calls && s.calls[c].SendAppending?
    ensures var m := s.calls[c].msg;
            var t := Index(s, c, now, later);
            && SnapshotOk(t.sessions, s.log)
            && m.to in t.sessions && UnreadOf(t.sessions, m.to) == s.calls[c].before + [c]
            && (forall n :: n != m.from && n != m.to ==> Find(t.sessions, n) == Find(s.sessions, n))
            && (m.from != m.to ==> SameButSeen(Find(s.sessions, m.from), Find(t.sessions, m.from)))
            && SameButSeen(Find(s.sessions, m.to), WithUnread(Find(t.sessions, m.to), s.calls[c].before))
  {
    var m, before := s.calls[c].msg, s.calls[c].before;
    assert CallOk(s, c, s.calls[c]);
    MailboxRouted(s, m.to);
    var added := AddUnread(s.sessions, m.to, c);
    assert added == SetUnread(s.sessions, m.to, before + [c]);
    SetUnreadOk(s.sessions, s.log, m.to, before + [c]);
    TouchOk(added, s.log, m.from, now);
    TouchOk(Touch(added, m.from, now), s.log, m.to, later);
  }

  lemma AppendingView(s: Bus, c: CallId, n: string)
    requires c in s.calls && s.calls[c].SendAppending? && Heads(s, n, c) && n in Holds(s.calls[c])
    ensures View(s, n) == Find(s.sessions, n)
  {
    HolderAt(s, n, c);
  }

  lemma PersistingView(t: Bus, c: CallId, n: string)
    requires c in t.calls && t.calls[c].SendPersisting? && Heads(t, n, c) && n in Holds(t.calls[c])
    ensures View(t, n) == if n == t.calls[c].msg.to then WithUnread(Find(t.sessions, n), t.calls[c].before) else Find(t.sessions, n)
  {
    HolderAt(t, n, c);
  }

  lemma IndexedNameOk(s: Bus, t: Bus, c: CallId, n: string)
    requires Inv(s) && c in s.calls && s.calls[c].SendAppending? && Heads(s, n, c) && n in Holds(s.calls[c])
    requires t.locks == s.locks && t.ledgers == s.ledgers && t.committed == s.committed && t.issued == s.issued
    requires c in t.calls && t.calls[c] == SendPersisting(s.calls[c].msg, s.calls[c].before)
    requires SameButSeen(Find(s.sessions, n), if n == s.calls[c].msg.to then WithUnread(Find(t.sessions, n), s.calls[c].before) else Find(t.sessions, n))
    ensures NameOk(t, n) && SameButSeen(View(s, n), View(t, n))
  {
    AppendingView(s, c, n);
    PersistingView(t, c, n);
    SameName(s, t, n);
  }

  lemma SendIndexKeeps(s: Bus, c: CallId, now: int, later: int)
    requires Inv(s) && c in s.calls && s.calls[c].SendAppending?
    ensures var m := s.calls[c].msg;
            var t := Index(s, c, now, later);
            && Kept(s, t, {c}, {m.from, m.to})
            && SameButSeen(View(s, m.from), View(t, m.from)) && SameButSeen(View(s, m.to), View(t, m.to))
  {
    var m := s.calls[c].msg;
    var t := Index(s, c, now, later);
    LeadsBoth(s, c);
    IndexedSessions(s, c, now, later);
    StorageSame(s, t, {c});
    IndexedOk(s, t, c, m, s.calls[c].before);
    IndexedNameOk(s, t, c, m.from);
    IndexedNameOk(s, t, c, m.to);
    HoldKeeps(s, t, c, {m.from, m.to});
  }

  lemma IndexedOk(s: Bus, t: Bus, c: CallId, m: PeerMessage, before: seq<string>)
    requires SendOk(s, c, m) && t.ledgers == s.ledgers
    requires m.to in t.sessions && UnreadOf(t.sessions, m.to) == before + [c]
    ensures CallOk(t, c, SendPersisting(m, before))
  {
    assert forall n :: LedgerOf(t, n) == LedgerOf(s, n);
  }

  // ----- The end of a send -----

  /** The body of a send is over, and the recipient's entry and ledger in `b` are settled. */
  ghost predicate Settled(s: Bus, b: Bus, c: CallId, m: PeerMessage) {
    && Inv(s) && c in s.calls && Heads(s, m.from, c) && Heads(s, m.to, c) && Holds(s.calls[c]) <= {m.from, m.to}
    && b == s.(sessions := b.sessions, ledgers := b.ledgers, log := b.log)
    && StorageOk(s, b, {c})
    && (forall n :: n != m.to ==> Find(b.sessions, n) == Find(s.sessions, n) && LedgerOf(b, n) == LedgerOf(s, n))
    && (forall id :: id in LedgerOf(b, m.to).sent ==> id in LedgerOf(s, m.to).sent || id == c)
    && Balances(LedgerOf(b, m.to), UnreadOf(b.sessions, m.to)) && TokenOk(Find(b.sessions, m.to), CommittedTo(s, m.to))
  }

  lemma EndKeeps(s: Bus, b: Bus, c: CallId, m: PeerMessage)
    requires Settled(s, b, c, m)
    requires m.from != m.to ==> View(s, m.from) == Find(s.sessions, m.from)
    ensures var t := EndSend(b, c, m);
            Kept(s, t, {c}, {m.from, m.to}) && View(t, m.from) == Find(b.sessions, m.from) && View(t, m.to) == Find(b.sessions, m.to)
  {
    if m.from == m.to {
      var t := Finish(b, c, m.to);
      TokensStay(s, t);
      StorageMoves(s, b, t, c);
      FinishKeeps(s, t, c, m.to);
      assert {m.from, m.to} == {m.to};
    } else {
      FirstSecond(m);
      UnlockedViews(s, b, c, m, First(m), Second(m));
      UnlockKeeps(s, b, c, m, First(m), Second(m));
    }
  }

  lemma UnlockKeeps(s: Bus, b: Bus, c: CallId, m: PeerMessage, outer: string, inner: string)
    requires Settled(s, b, c, m) && View(s, m.from) == Find(s.sessions, m.from) && Ends(m, outer, inner)
    ensures Kept(s, Unlock(b, c, outer, inner), {c}, {m.from, m.to})
  {
    var t := Unlock(b, c, outer, inner);
    SettledNames(s, b, c, m, outer, inner);
    UnlockedFrame(s, b, c, m, outer, inner);
    EndNames(s, b, c, m, outer, inner);
    UnlockedStore(s, b, c, m, outer, inner);
    AssembleParts(s, t, {c}, {m.from, m.to});
  }

  lemma UnlockedFrame(s: Bus, b: Bus, c: CallId, m: PeerMessage, outer: string, inner: string)
    requires Settled(s, b, c, m) && Ends(m, outer, inner)
    ensures var t := Unlock(b, c, outer, inner);
            CallsStill(s, t, {c}) && Leads(s, {c}, {m.from, m.to}) && ActingOk(t, {c})
  {
    assert c in s.issued;
    EndFrame(s, b, c, m, outer, inner);
  }

  lemma UnlockedStore(s: Bus, b: Bus, c: CallId, m: PeerMessage, outer: string, inner: string)
    requires Settled(s, b, c, m)
    ensures TokensOk(Unlock(b, c, outer, inner)) && StorageOk(s, Unlock(b, c, outer, inner), {c})
  {
    UnlockedTokens(s, Unlock(b, c, outer, inner), c);
    StorageMoves(s, b, Unlock(b, c, outer, inner), c);
  }

  lemma UnlockedTokens(s: Bus, t: Bus, c: CallId)
    requires TokensOk(s) && c in s.calls && t.calls.Keys == s.calls.Keys && t.issued == s.issued && t.committed == s.committed
    ensures TokensOk(t)
  {
  }

  lemma SettledNames(s: Bus, b: Bus, c: CallId, m: PeerMessage, outer: string, inner: string)
    requires Settled(s, b, c, m) && View(s, m.from) == Find(s.sessions, m.from) && Ends(m, outer, inner)
    ensures NameOk(Unlock(b, c, outer, inner), m.from) && NameOk(Unlock(b, c, outer, inner), m.to)
  {
    var t := Unlock(b, c, outer, inner);
    UnlockedViews(s, b, c, m, outer, inner);
    SettledName(s, b, t, c, m, m.from);
    SettledName(s, b, t, c, m, m.to);
  }

  lemma UnlockedQueues(s: Bus, b: Bus, c: CallId, outer: string, inner: string)
    requires b.locks == s.locks && Heads(s, inner, c) && outer != inner
    ensures var t := Unlock(b, c, outer, inner);
            Queue(t, inner) == Queue(s, inner)[1..] && forall n :: n != inner ==> Queue(t, n) == Queue(s, n)
  {
  }

  lemma StorageMoves(s: Bus, b: Bus, t: Bus, c: CallId)
    requires StorageOk(s, b, {c})
    requires t.log == b.log && t.sessions == b.sessions && t.installed == b.installed && t.taken == b.taken && t.started == b.started && t.issued == b.issued
    ensures StorageOk(s, t, {c})
  {
  }

  lemma EndFrame(s: Bus, b: Bus, c: CallId, m: PeerMessage, outer: string, inner: string)
    requires b.calls == s.calls && b.locks == s.locks && b.issued == s.issued && c in s.issued
    requires Heads(s, m.from, c) && Heads(s, m.to, c) && Ends(m, outer, inner)
    ensures var t := Unlock(b, c, outer, inner);
            CallsStill(s, t, {c}) && Leads(s, {c}, {m.from, m.to}) && ActingOk(t, {c})
  {
    var t := Unlock(b, c, outer, inner);
    UnlockedQueues(s, b, c, outer, inner);
    ReleasingOk(t, c, outer);
  }

  lemma EndNames(s: Bus, b: Bus, c: CallId, m: PeerMessage, outer: string, inner: string)
    requires Settled(s, b, c, m) && Ends(m, outer, inner)
    ensures var t := Unlock(b, c, outer, inner);
            NamesStill(s, t, {c}, {m.from, m.to}) && SentStep(s, t, {c})
  {
    var t := Unlock(b, c, outer, inner);
    UnlockedQueues(s, b, c, outer, inner);
    SentOnlyOwn(s, b, t, c, m);
    StillNames(s, b, t, c, m, outer);
  }

  lemma ReleasingOk(t: Bus, c: CallId, outer: string)
    requires c in t.calls && t.calls[c] == SendReleasing(outer) && c in t.issued && Heads(t, outer, c)
    ensures ActingOk(t, {c})
  {
  }

  lemma SentOnlyOwn(s: Bus, b: Bus, t: Bus, c: CallId, m: PeerMessage)
    requires t.ledgers == b.ledgers && forall n :: n != m.to ==> LedgerOf(b, n) == LedgerOf(s, n)
    requires forall id :: id in LedgerOf(b, m.to).sent ==> id in LedgerOf(s, m.to).sent || id == c
    ensures SentStep(s, t, {c})
  {
    assert forall n :: LedgerOf(t, n) == LedgerOf(b, n);
  }

  lemma StillNames(s: Bus, b: Bus, t: Bus, c: CallId, m: PeerMessage, outer: string)
    requires c in s.calls && Holds(s.calls[c]) <= {m.from, m.to} && outer in {m.from, m.to}
    requires forall n :: n !in {m.from, m.to} ==> Queue(t, n) == Queue(s, n)
    requires forall n :: n != m.to ==> Find(b.sessions, n) == Find(s.sessions, n) && LedgerOf(b, n) == LedgerOf(s, n)
    requires t.sessions == b.sessions && t.ledgers == b.ledgers && t.committed == s.committed
    requires c in t.calls && t.calls[c] == SendReleasing(outer)
    ensures NamesStill(s, t, {c}, {m.from, m.to})
  {
    forall n | n !in {m.from, m.to} ensures NameStill(s, t, {c}, n) {
      assert LedgerOf(t, n) == LedgerOf(b, n);
    }
  }

  lemma UnlockedViews(s: Bus, b: Bus, c: CallId, m: PeerMessage, outer: string, inner: string)
    requires HoldersLead(s) && c in s.calls && Heads(s, m.from, c) && Heads(s, m.to, c)
    requires b.locks == s.locks && b.calls == s.calls && Ends(m, outer, inner)
    ensures var t := Unlock(b, c, outer, inner);
            View(t, m.from) == Find(b.sessions, m.from) && View(t, m.to) == Find(b.sessions, m.to)
  {
    var t := Unlock(b, c, outer, inner);
    UnlockedQueues(s, b, c, outer, inner);
    NoHolderAfter(s, t, c, inner);
    HolderAt(t, outer, c);
  }

  lemma SettledName(s: Bus, b: Bus, t: Bus, c: CallId, m: PeerMessage, n: string)
    requires Settled(s, b, c, m) && (n == m.to || View(s, n) == Find(s.sessions, n))
    requires t.ledgers == b.ledgers && t.committed == s.committed && t.issued == s.issued && View(t, n) == Find(b.sessions, n)
    ensures NameOk(t, n)
  {
    assert c in s.issued;
    assert NameOk(s, n);
    assert LedgerOf(t, n) == LedgerOf(b, n);
  }

  lemma RefusedStorage(s: Bus, c: CallId, stored: bool)
    requires Inv(s) && SendReady(s, c)
    ensures StorageOk(s, if stored then s.(log := s.log + [s.calls[c].msg]) else s, {c})
  {
    var b := if stored then s.(log := s.log + [s.calls[c].msg]) else s;
    ReadyLeads(s, c);
    if stored {
      StorageAppended(s, b, c, s.calls[c].msg);
    } else {
      StorageSame(s, b, {c});
    }
  }

  lemma ReadyView(s: Bus, c: CallId, n: string)
    requires Inv(s) && SendReady(s, c) && Heads(s, n, c)
    ensures View(s, n) == Find(s.sessions, n) && NameOk(s, n)
  {
    HolderAt(s, n, c);
  }

  /** The bus when a send gives up, its record in the log or not. */
  function Refused(s: Bus, m: PeerMessage, stored: bool): Bus {
    if stored then s.(log := s.log + [m]) else s
  }

  lemma RefusedSettled(s: Bus, c: CallId, stored: bool)
    requires Inv(s) && SendReady(s, c)
    ensures Settled(s, Refused(s, s.calls[c].msg, stored), c, s.calls[c].msg)
  {
    var m := s.calls[c].msg;
    ReadyLeads(s, c);
    RefusedStorage(s, c, stored);
    ReadyView(s, c, m.to);
    assert forall n :: LedgerOf(Refused(s, m, stored), n) == LedgerOf(s, n);
  }

  lemma SendRefuseKeeps(s: Bus, c: CallId, stored: bool)
    requires Inv(s) && SendReady(s, c)
    ensures var m := s.calls[c].msg;
            var t := RefuseSend(s, c, stored);
            Kept(s, t, {c}, {m.from, m.to}) && View(t, m.from) == View(s, m.from) && View(t, m.to) == View(s, m.to)
  {
    var m := s.calls[c].msg;
    ReadyLeads(s, c);
    RefusedSettled(s, c, stored);
    ReadyView(s, c, m.from);
    ReadyView(s, c, m.to);
    EndKeeps(s, Refused(s, m, stored), c, m);
  }

  lemma SendingFacts(s: Bus, c: CallId)
    requires Inv(s) && c in s.calls && s.calls[c].SendPersisting?
    ensures var m := s.calls[c].msg;
            && m.to in s.sessions && UnreadOf(s.sessions, m.to) == s.calls[c].before + [c]
            && View(s, m.to) == WithUnread(Find(s.sessions, m.to), s.calls[c].before)
            && (m.from != m.to ==> View(s, m.from) == Find(s.sessions, m.from))
            && Balances(LedgerOf(s, m.to), s.calls[c].before)
            && TokenOk(Find(s.sessions, m.to), CommittedTo(s, m.to))
            && c !in LedgerOf(s, m.to).sent
            && ListRouted(s.calls[c].before, m.to, s.log)
  {
    var m := s.calls[c].msg;
    LeadsBoth(s, c);
    assert CallOk(s, c, s.calls[c]);
    HolderAt(s, m.from, c);
    HolderAt(s, m.to, c);
    assert NameOk(s, m.to);
    MailboxRouted(s, m.to);
    assert forall id :: id in s.calls[c].before ==> id in s.calls[c].before + [c];
  }

  lemma SendCommitBalances(l: Ledger, before: seq<string>, c: string)
    requires Balances(l, before)
    ensures Balances(l.(sent := l.sent + multiset{c}), before + [c])
  {
    var sent := l.sent + multiset{c};
    if forall id :: sent[id] <= 1 {
      forall id ensures l.sent[id] <= 1 {
        assert sent[id] <= 1;
      }
    }
  }

  lemma SendCommitKeeps(s: Bus, c: CallId)
    requires Inv(s) && c in s.calls && s.calls[c].SendPersisting?
    ensures var m := s.calls[c].msg;
            var t := CommitSend(s, c);
            && Kept(s, t, {c}, {m.from, m.to})
            && View(t, m.to) == Find(s.sessions, m.to) && (m.from != m.to ==> View(t, m.from) == View(s, m.from))
  {
    var m := s.calls[c].msg;
    var l := LedgerOf(s, m.to);
    var b := Enter(s, m.to, l.(sent := l.sent + multiset{c}));
    LeadsBoth(s, c);
    SendingFacts(s, c);
    StorageSame(s, b, {c});
    SendCommitBalances(l, s.calls[c].before, c);
    EndKeeps(s, b, c, m);
  }

  lemma SendRollbackKeeps(s: Bus, c: CallId)
    requires Inv(s) && c in s.calls && s.calls[c].SendPersisting?
    ensures var m := s.calls[c].msg;
            var t := RollBackSend(s, c);
            Kept(s, t, {c}, {m.from, m.to}) && View(t, m.to) == View(s, m.to) && View(t, m.from) == View(s, m.from)
  {
    var m := s.calls[c].msg;
    var b := s.(sessions := SetUnread(s.sessions, m.to, s.calls[c].before));
    LeadsBoth(s, c);
    SendingFacts(s, c);
    SetUnreadOk(s.sessions, s.log, m.to, s.calls[c].before);
    StorageSame(s, b, {c});
    assert forall n :: LedgerOf(b, n) == LedgerOf(s, n);
    EndKeeps(s, b, c, m);
  }

  // ----- Every event -----

  lemma {:induction false} BootedEntries(raw: map<string, RawValue>, log: seq<PeerMessage>)
    ensures var sessions := Reconcile(LoadSessions(raw), Lookup(log));
            SnapshotOk(sessions, log) && forall n :: n in sessions ==> sessions[n].tokenHash == Blank
  {
    var loaded := LoadSessions(raw);
    var sessions := Reconcile(loaded, Lookup(log));
    ReconcileRoutes(loaded, Lookup(log));
    forall n | n in sessions
      ensures WellFormed(n, sessions[n]) && sessions[n].wakeTarget == sessions[n].cmuxSurfaceId && sessions[n].tokenHash == Blank
    {
      LoadedWellFormed(n, raw[n]);
    }
    RoutedOk(sessions, log);
  }

  lemma {:induction false} RoutedOk(sessions: Sessions, log: seq<PeerMessage>)
    requires Routed(sessions, Lookup(log))
    requires forall n :: n in sessions ==> WellFormed(n, sessions[n]) && sessions[n].wakeTarget == sessions[n].cmuxSurfaceId
    ensures SnapshotOk(sessions, log)
  {
  }

  lemma LoadedWellFormed(n: string, raw: RawValue)
    requires LoadEntry(n, raw).Some?
    ensures var e := LoadEntry(n, raw).value;
            WellFormed(n, e) && e.wakeTarget == e.cmuxSurfaceId && e.tokenHash == Blank
  {
  }

  lemma StartKeeps(sessions: Sessions, log: seq<PeerMessage>, issued: set<CallId>)
    requires SnapshotOk(sessions, log) && forall n :: n in sessions ==> sessions[n].tokenHash == Blank
    ensures Inv(StartWith(sessions, log, issued))
  {
    var s := StartWith(sessions, log, issued);
    forall n ensures NameOk(s, n) {
      assert Queue(s, n) == [];
      if n in sessions {
        forall id | id in sessions[n].unreadMessageIds ensures id in s.issued {
          assert Lookup(log)[id] in log;
        }
      }
    }
  }

  /** Loading, reconciling and persisting put the bus in order, whatever the file held. */
  lemma BootKeeps(raw: map<string, RawValue>, log: seq<PeerMessage>, issued: set<CallId>)
    ensures Inv(Boot(raw, log, issued))
  {
    BootedEntries(raw, log);
    StartKeeps(Reconcile(LoadSessions(raw), Lookup(log)), log, issued);
  }

  lemma RegisterEventKeeps(s: Bus, e: Event)
    requires Inv(s) && Enabled(s, e) && (e.RegisterBegin? || e.RegisterRun? || e.RegisterCommit? || e.RegisterRollback? || e.TouchOnly?)
    ensures Kept(s, Apply(s, e), Acting(e), Touched(s, e))
  {
    match e
    case RegisterBegin(c, name, req, ttl) => RegisterBeginKeeps(s, c, name, req, ttl);
    case RegisterRun(c, clock) => RegisterRunKeeps(s, c, clock);
    case RegisterCommit(c) => RegisterCommitKeeps(s, c);
    case RegisterRollback(c) => RegisterRollbackKeeps(s, c);
    case TouchOnly(token, name, now) => TouchKeeps(s, token, name, now);
  }

  lemma SendEventKeeps(s: Bus, e: Event)
    requires Inv(s) && Enabled(s, e)
    requires e.SendBegin? || e.SendLock? || e.SendRefuse? || e.SendAppend?
    ensures Kept(s, Apply(s, e), Acting(e), Touched(s, e))
  {
    match e
    case SendBegin(c, token, msg, now) => SendBeginKeeps(s, c, token, msg, now);
    case SendLock(c) => SendLockKeeps(s, c);
    case SendRefuse(c, stored) => SendRefuseKeeps(s, c, stored);
    case SendAppend(c) => SendAppendKeeps(s, c);
  }

  lemma IndexEventKeeps(s: Bus, e: Event)
    requires Inv(s) && Enabled(s, e) && (e.SendIndex? || e.SendCommit? || e.SendRollback? || e.SendRelease?)
    ensures Kept(s, Apply(s, e), Acting(e), Touched(s, e))
  {
    match e
    case SendIndex(c, now, later) => SendIndexKeeps(s, c, now, later);
    case SendCommit(c) => SendCommitKeeps(s, c);
    case SendRollback(c) => SendRollbackKeeps(s, c);
    case SendRelease(c) => SendReleaseKeeps(s, c);
  }

  lemma ReadEventKeeps(s: Bus, e: Event)
    requires Inv(s) && Enabled(s, e)
    requires e.ReadDrain? || e.ReadCommit? || e.ReadRollback?
    ensures Kept(s, Apply(s, e), Acting(e), Touched(s, e))
  {
    match e
    case ReadDrain(c, seen, now) => ReadDrainKeeps(s, c, seen, now);
    case ReadCommit(c) => ReadCommitKeeps(s, c);
    case ReadRollback(c) => ReadRollbackKeeps(s, c);
  }

  lemma LoadEventKeeps(s: Bus, e: Event)
    requires Inv(s) && Enabled(s, e) && (e.ReadBegin? || e.ReadLoad? || e.ReadAbort?)
    ensures Kept(s, Apply(s, e), Acting(e), Touched(s, e))
  {
    match e
    case ReadBegin(c, token, name, now) => ReadBeginKeeps(s, c, token, name, now);
    case ReadLoad(c) => ReadLoadKeeps(s, c);
    case ReadAbort(c) => ReadAbortKeeps(s, c);
  }

  lemma OtherEventKeeps(s: Bus, e: Event)
    requires Inv(s) && Enabled(s, e) && (e.WakeBegin? || e.WakeRun? || e.Install?)
    ensures Kept(s, Apply(s, e), Acting(e), Touched(s, e))
  {
    match e
    case WakeBegin(c, name) => WakeBeginKeeps(s, c, name);
    case WakeRun(c) => WakeRunKeeps(s, c);
    case Install(snapshot) => InstallKeeps(s, snapshot);
  }

  /** Every event keeps the invariant, and short of a restart it is local to its call and the locks it leads. */
  lemma EventKeeps(s: Bus, e: Event)
    requires Inv(s) && Enabled(s, e)
    ensures Inv(Apply(s, e))
    ensures !e.Restart? ==> Local(s, Apply(s, e), Acting(e), Touched(s, e))
  {
    if e.Restart? {
      BootKeeps(Serialise(s.installed), s.log, s.issued);
    } else if e.RegisterBegin? || e.RegisterRun? || e.RegisterCommit? || e.RegisterRollback? || e.TouchOnly? {
      RegisterEventKeeps(s, e);
    } else if e.ReadBegin? || e.ReadLoad? || e.ReadAbort? {
      LoadEventKeeps(s, e);
    } else if e.ReadDrain? || e.ReadCommit? || e.ReadRollback? {
      ReadEventKeeps(s, e);
    } else if e.WakeBegin? || e.WakeRun? || e.Install? {
      OtherEventKeeps(s, e);
    } else if e.SendBegin? || e.SendLock? || e.SendRefuse? || e.SendAppend? {
      SendEventKeeps(s, e);
    } else {
      IndexEventKeeps(s, e);
    }
  }
}
