/**
 * What a crash costs: which messages are still unread after the next start. Every persist
 * (src/core/session-registry.ts) writes the whole registry, and two of them may finish in either order.
 */
module PeerBusCrashes {
  import opened Prelude
  import opened MessageStore
  import opened Envelope
  import opened Drain
  import opened Registry
  import opened RegistryFile
  import opened PeerBus
  import opened PeerBusInvariant
  import opened PeerBusSends
  import opened PeerBusTheorems
  import opened PeerBusReaders

  lemma LoadedList(m: Sessions, log: seq<PeerMessage>, n: string)
    requires SnapshotOk(m, log)
    ensures UnreadOf(LoadSessions(Serialise(m)), n) == UnreadOf(m, n)
  {
    if n in m {
      LoadedAt(m, n);
      StringsReadBack(m[n].unreadMessageIds);
    } else {
      assert n !in Serialise(m);
    }
  }

  lemma RestartsFrom(s: Bus)
    ensures Apply(s, Restart).sessions == Reconcile(LoadSessions(Serialise(s.installed)), Lookup(s.log))
  {
  }

  /** The next start finds every mailbox as the snapshot on disk has it. */
  lemma CrashLoads(s: Bus, n: string)
    requires Reachable(s)
    ensures UnreadOf(Apply(s, Restart).sessions, n) == UnreadOf(s.installed, n)
  {
    ReachableHolds(s);
    RestartsFrom(s);
    RestartLoads(s.installed, s.log);
    LoadedList(s.installed, s.log, n);
  }

  // ----- When an unread id survives -----

  function LastInstall(es: seq<Event>): Option<Sessions> {
    if es == [] then None
    else if LastInstall(es[1..]).Some? then LastInstall(es[1..])
    else if es[0].Install? then Some(es[0].snapshot)
    else None
  }

  lemma InstalledStep(s: Bus, e: Event)
    requires Enabled(s, e) && !e.Restart?
    ensures Apply(s, e).installed == if e.Install? then e.snapshot else s.installed
  {
    if e.SendRefuse? || e.SendCommit? || e.SendRollback? {
      SendEnds(s, e);
    }
  }

  lemma {:induction false} InstalledLast(s: Bus, es: seq<Event>)
    requires Runs(s, es) && NoRestart(es)
    ensures After(s, es).installed == if LastInstall(es).Some? then LastInstall(es).value else s.installed
    decreases |es|
  {
    if es != [] {
      InstalledStep(s, es[0]);
      assert NoRestart(es[1..]);
      InstalledLast(Apply(s, es[0]), es[1..]);
    }
  }

  /** All along the run the id is in the mailbox in memory. */
  predicate StaysUnread(s: Bus, es: seq<Event>, n: string, id: string)
    requires Runs(s, es)
    decreases |es|
  {
    id in UnreadOf(s.sessions, n) && (es != [] ==> StaysUnread(Apply(s, es[0]), es[1..], n, id))
  }

  ghost predicate NewOnesList(taken: set<Sessions>, earlier: set<Sessions>, n: string, id: string) {
    forall m :: m in taken && m !in earlier ==> id in UnreadOf(m, n)
  }

  lemma {:induction false} NewOnesKeep(s: Bus, es: seq<Event>, earlier: set<Sessions>, n: string, id: string)
    requires Runs(s, es) && NoRestart(es) && StaysUnread(s, es, n, id) && NewOnesList(s.taken, earlier, n, id)
    ensures LastInstall(es).Some? && LastInstall(es).value !in earlier ==> id in UnreadOf(LastInstall(es).value, n)
    decreases |es|
  {
    if es != [] {
      SnapshotsGrow(s, es[0]);
      assert NoRestart(es[1..]);
      NewOnesKeep(Apply(s, es[0]), es[1..], earlier, n, id);
    }
  }

  /** The snapshot that reached the disk last is one of these, and lacks the id. */
  predicate Overwritten(earlier: set<Sessions>, es: seq<Event>, n: string, id: string) {
    LastInstall(es).Some? && LastInstall(es).value in earlier && id !in UnreadOf(LastInstall(es).value, n)
  }

  /**
   * An id has reached the disk, and all along some run it stays in its mailbox in memory. If the process
   * dies then, the id is unread again unless, and only unless, the last snapshot that reached the disk
   * was taken before the run began and lacks it.
   */
  lemma {:induction false} SurvivesCrash(s: Bus, es: seq<Event>, n: string, id: string)
    requires Reachable(s) && Runs(s, es) && NoRestart(es)
    requires id in UnreadOf(s.installed, n) && StaysUnread(s, es, n, id)
    ensures id in UnreadOf(Apply(After(s, es), Restart).sessions, n) <==> !Overwritten(s.taken, es, n, id)
  {
    ReachableRuns(s, es);
    CrashLoads(After(s, es), n);
    InstalledLast(s, es);
    NewOnesKeep(s, es, s.taken, n, id);
  }

  // ----- That one is lost -----

  predicate Step(s: Bus, e: Event, t: Bus) {
    Enabled(s, e) && t == Apply(s, e)
  }

  lemma {:induction false} LoggedSomewhere(log: seq<PeerMessage>, id: string)
    requires id in Lookup(log)
    ensures !Unlogged(log, id)
  {
    assert Lookup(log)[id] in log;
  }

  lemma UnsentIsUnlisted(s: Bus, n: string, d: CallId)
    requires SnapshotOk(s.sessions, s.log) && Unlogged(s.log, d)
    ensures d !in UnreadOf(s.sessions, n)
  {
    if d in Lookup(s.log) {
      LoggedSomewhere(s.log, d);
    }
  }

  lemma ReaderElsewhere(s: Bus, w: CallId, d: CallId)
    requires Inv(s) && SendReady(s, d) && w in s.calls && s.calls[w].ReadLoading?
    ensures w != d && s.calls[w].name != s.calls[d].msg.to && s.calls[d].msg.messageId == d && d !in UnreadOf(s.sessions, s.calls[d].msg.to)
  {
    ReadyLeads(s, d);
    assert s.calls[w].name in Holds(s.calls[w]);
    assert Heads(s, s.calls[w].name, w);
    UnsentIsUnlisted(s, s.calls[d].msg.to, d);
  }

  lemma DrainBesideSend(s: Bus, read: Bus, w: CallId, seen: nat, now: int, d: CallId)
    requires SendReady(s, d) && w != d && w in s.calls && Step(s, ReadDrain(w, seen, now), read)
    ensures SendReady(read, d) && read.calls[d] == s.calls[d]
    ensures w in read.calls && read.calls[w].ReadPersisting?
  {
  }

  lemma DrainsOwn(s: Bus, read: Bus, w: CallId, seen: nat, now: int, to: string)
    requires w in s.calls && Step(s, ReadDrain(w, seen, now), read) && s.calls[w].name != to
    ensures read.sessions in read.taken && read.log == s.log && Find(read.sessions, to) == Find(s.sessions, to)
  {
  }

  lemma AppendBesideRead(read: Bus, appended: Bus, w: CallId, d: CallId)
    requires SendReady(read, d) && w != d && w in read.calls && Step(read, SendAppend(d), appended)
    ensures w in appended.calls && appended.calls[w] == read.calls[w]
    ensures d in appended.calls && appended.calls[d].SendAppending? && appended.calls[d].msg == read.calls[d].msg
    ensures appended.sessions == read.sessions && appended.taken == read.taken && appended.log == read.log + [read.calls[d].msg]
  {
  }

  lemma IndexBesideRead(appended: Bus, indexed: Bus, w: CallId, d: CallId, now: int, later: int)
    requires w != d && w in appended.calls && Step(appended, SendIndex(d, now, later), indexed)
    requires CanAddUnread(appended.sessions, appended.calls[d].msg.to)
    ensures w in indexed.calls && indexed.calls[w] == appended.calls[w]
    ensures d in indexed.calls && indexed.calls[d].SendPersisting? && indexed.calls[d].msg == appended.calls[d].msg
    ensures d in UnreadOf(indexed.sessions, appended.calls[d].msg.to)
    ensures indexed.taken == appended.taken + {indexed.sessions} && indexed.log == appended.log
  {
    var before := UnreadOf(appended.sessions, appended.calls[d].msg.to);
    assert (before + [d])[|before|] == d;
  }

  lemma CommitBesideRead(written: Bus, sent: Bus, w: CallId, d: CallId)
    requires w != d && w in written.calls && d in written.calls && written.calls[d].SendPersisting? && Step(written, SendCommit(d), sent)
    ensures w in sent.calls && sent.calls[w] == written.calls[w]
    ensures sent.sessions == written.sessions && sent.taken == written.taken && sent.installed == written.installed && sent.log == written.log
    ensures d in LedgerOf(sent, written.calls[d].msg.to).sent
  {
    var m := written.calls[d].msg;
    var l := LedgerOf(written, m.to);
    var b := Enter(written, m.to, l.(sent := l.sent + multiset{d}));
    EndSendParts(b, d, m);
    EndedQueue(b, d, m, "");
  }

  lemma CommitsAndFallsBack(indexed: Bus, read: Bus, w: CallId, d: CallId) returns (written: Bus, sent: Bus, back: Bus)
    requires w != d && w in indexed.calls && d in indexed.calls && indexed.calls[d].SendPersisting?
    requires indexed.sessions in indexed.taken && read.sessions in indexed.taken
    ensures Step(indexed, Install(indexed.sessions), written) && Step(written, SendCommit(d), sent) && Step(sent, Install(read.sessions), back)
    ensures w in back.calls && back.calls[w] == indexed.calls[w] && d in LedgerOf(sent, indexed.calls[d].msg.to).sent
    ensures sent.sessions == indexed.sessions && sent.installed == indexed.sessions
    ensures back.sessions == indexed.sessions && back.installed == read.sessions && back.log == indexed.log
  {
    written := Apply(indexed, Install(indexed.sessions));
    sent := Apply(written, SendCommit(d));
    CommitBesideRead(written, sent, w, d);
    back := Apply(sent, Install(read.sessions));
  }

  /**
   * A read persists slowly. A send that has its locks appends, indexes, reaches the disk and is answered
   * with success; then the read's snapshot, taken before, reaches the disk. If the process dies now, the
   * message is in the log and in nobody's mailbox. Any read and any send under way will do.
   */
  lemma LostSend(s: Bus, w: CallId, seen: nat, t0: int, d: CallId, t1: int, t2: int)
    returns (read: Bus, appended: Bus, indexed: Bus, written: Bus, sent: Bus, back: Bus)
    requires Reachable(s) && w in s.calls && Enabled(s, ReadDrain(w, seen, t0))
    requires SendReady(s, d) && CanAddUnread(s.sessions, s.calls[d].msg.to)
    ensures Step(s, ReadDrain(w, seen, t0), read) && Step(read, SendAppend(d), appended) && Step(appended, SendIndex(d, t1, t2), indexed)
    ensures Step(indexed, Install(indexed.sessions), written) && Step(written, SendCommit(d), sent) && Step(sent, Install(read.sessions), back)
    ensures w in back.calls && back.calls[w].ReadPersisting?
    ensures var to := s.calls[d].msg.to;
            && d in LedgerOf(sent, to).sent && d in UnreadOf(sent.sessions, to) && d in UnreadOf(sent.installed, to)
            && d in Lookup(back.log) && d in UnreadOf(back.sessions, to)
            && d !in UnreadOf(Apply(back, Restart).sessions, to)
  {
    ReachableHolds(s);
    ReaderElsewhere(s, w, d);
    read := Apply(s, ReadDrain(w, seen, t0));
    DrainBesideSend(s, read, w, seen, t0, d);
    DrainsOwn(s, read, w, seen, t0, s.calls[d].msg.to);
    appended := Apply(read, SendAppend(d));
    AppendBesideRead(read, appended, w, d);
    indexed := Apply(appended, SendIndex(d, t1, t2));
    IndexBesideRead(appended, indexed, w, d, t1, t2);
    written, sent, back := CommitsAndFallsBack(indexed, read, w, d);
    ThreeSteps(s, ReadDrain(w, seen, t0), read, SendAppend(d), appended, SendIndex(d, t1, t2), indexed);
    ThreeSteps(indexed, Install(indexed.sessions), written, SendCommit(d), sent, Install(read.sessions), back);
    LostAtRestart(back, read, s.calls[d].msg, d);
  }

  lemma ThreeSteps(s: Bus, a: Event, s1: Bus, b: Event, s2: Bus, c: Event, s3: Bus)
    requires Reachable(s) && Step(s, a, s1) && Step(s1, b, s2) && Step(s2, c, s3)
    ensures Reachable(s3)
  {
    ReachableSteps(s, a);
    ReachableSteps(s1, b);
    ReachableSteps(s2, c);
  }

  lemma LostAtRestart(back: Bus, read: Bus, m: PeerMessage, d: CallId)
    requires Reachable(back) && back.installed == read.sessions && d !in UnreadOf(read.sessions, m.to)
    requires m.messageId == d && back.log == read.log + [m]
    ensures d in Lookup(back.log) && d !in UnreadOf(Apply(back, Restart).sessions, m.to)
  {
    CrashLoads(back, m.to);
    LookupExtends(read.log, m);
  }

  // ----- That one comes again -----

  lemma TwoReaders(s: Bus, w: CallId, c: CallId)
    requires HoldersLead(s) && w != c && w in s.calls && s.calls[w].ReadLoading? && c in s.calls && s.calls[c].ReadLoading?
    ensures s.calls[w].name != s.calls[c].name
  {
    assert s.calls[w].name in Holds(s.calls[w]) && s.calls[c].name in Holds(s.calls[c]);
    assert Heads(s, s.calls[w].name, w) && Heads(s, s.calls[c].name, c);
  }

  lemma DrainBesideDrain(s: Bus, t: Bus, w: CallId, seen: nat, now: int, c: CallId)
    requires w != c && w in s.calls && c in s.calls && Step(s, ReadDrain(w, seen, now), t)
    ensures w in t.calls && c in t.calls && t.calls[c] == s.calls[c] && t.taken == s.taken + {t.sessions} && t.log == s.log
    ensures t.calls[w] == ReadPersisting(s.calls[w].name, UnreadOf(s.sessions, s.calls[w].name), seen,
                                         Ids(DrainedFrom(UnreadOf(s.sessions, s.calls[w].name), Lookup(s.log[..seen]))))
  {
  }

  lemma DrainedWasUnread(unread: seq<string>, lookup: map<string, PeerMessage>, d: string)
    requires WellKeyed(lookup) && d in Ids(DrainedFrom(unread, lookup))
    ensures d in unread && d !in RemainingFrom(unread, lookup)
  {
    IdsMembers(DrainedFrom(unread, lookup));
    DrainedMembers(unread, lookup, WrapEnvelope, PEER_BUS_MAX_RESPONSE_BYTES);
    KeepOnlyMembers(unread, lookup.Keys - IdSet(DrainedFrom(unread, lookup)));
  }

  lemma DrainLeaves(s: Bus, t: Bus, c: CallId, seen: nat, now: int)
    requires c in s.calls && Step(s, ReadDrain(c, seen, now), t)
    ensures var n := s.calls[c].name;
            UnreadOf(t.sessions, n) == if n in s.sessions then RemainingFrom(UnreadOf(s.sessions, n), Lookup(s.log[..seen])) else []
  {
  }

  lemma BothDrain(s: Bus, w: CallId, seen: nat, t0: int, c: CallId, known: nat, t1: int, d: string) returns (read: Bus, drained: Bus)
    requires w != c && w in s.calls && s.calls[w].ReadLoading? && s.calls[w].logged <= seen <= |s.log|
    requires c in s.calls && s.calls[c].ReadLoading? && s.calls[c].logged <= known <= |s.log| && s.calls[w].name != s.calls[c].name
    requires d in Ids(DrainedFrom(UnreadOf(s.sessions, s.calls[c].name), Lookup(s.log[..known])))
    ensures Step(s, ReadDrain(w, seen, t0), read) && Step(read, ReadDrain(c, known, t1), drained)
    ensures w in drained.calls && drained.calls[w].ReadPersisting? && read.sessions in drained.taken && drained.sessions in drained.taken
    ensures c in drained.calls && drained.calls[c].ReadPersisting? && drained.calls[c].name == s.calls[c].name && d in drained.calls[c].drained
    ensures d in UnreadOf(read.sessions, s.calls[c].name) && d !in UnreadOf(drained.sessions, s.calls[c].name)
  {
    DrainedWasUnread(UnreadOf(s.sessions, s.calls[c].name), Lookup(s.log[..known]), d);
    read := Apply(s, ReadDrain(w, seen, t0));
    DrainBesideDrain(s, read, w, seen, t0, c);
    DrainsOwn(s, read, w, seen, t0, s.calls[c].name);
    drained := Apply(read, ReadDrain(c, known, t1));
    DrainBesideDrain(read, drained, c, known, t1, w);
    DrainLeaves(read, drained, c, known, t1);
  }

  lemma ReadAnswered(written: Bus, done: Bus, w: CallId, c: CallId)
    requires w != c && w in written.calls && c in written.calls && written.calls[c].ReadPersisting? && Step(written, ReadCommit(c), done)
    ensures w in done.calls && done.calls[w] == written.calls[w]
    ensures done.sessions == written.sessions && done.taken == written.taken && done.installed == written.installed && done.log == written.log
    ensures LedgerOf(done, written.calls[c].name).returned == LedgerOf(written, written.calls[c].name).returned + multiset(written.calls[c].drained)
  {
  }

  lemma AnswersAndFallsBack(drained: Bus, read: Bus, w: CallId, c: CallId) returns (written: Bus, done: Bus, back: Bus)
    requires w != c && w in drained.calls && c in drained.calls && drained.calls[c].ReadPersisting?
    requires drained.sessions in drained.taken && read.sessions in drained.taken
    ensures Step(drained, Install(drained.sessions), written) && Step(written, ReadCommit(c), done) && Step(done, Install(read.sessions), back)
    ensures w in back.calls && back.calls[w] == drained.calls[w] && done.sessions == drained.sessions && done.installed == drained.sessions
    ensures forall d :: d in drained.calls[c].drained ==> d in LedgerOf(done, drained.calls[c].name).returned
    ensures back.installed == read.sessions
  {
    written := Apply(drained, Install(drained.sessions));
    done := Apply(written, ReadCommit(c));
    ReadAnswered(written, done, w, c);
    back := Apply(done, Install(read.sessions));
  }

  /**
   * Two reads of different names. The first persists slowly; the second returns its messages, and its own
   * snapshot reaches the disk before the first one's. If the process dies now, what the second read
   * returned is unread again.
   */
  lemma ReturnedAgain(s: Bus, w: CallId, seen: nat, t0: int, c: CallId, known: nat, t1: int, d: string)
    returns (read: Bus, drained: Bus, written: Bus, done: Bus, back: Bus)
    requires Reachable(s) && w != c && w in s.calls && s.calls[w].ReadLoading? && s.calls[w].logged <= seen <= |s.log|
    requires c in s.calls && s.calls[c].ReadLoading? && s.calls[c].logged <= known <= |s.log|
    requires d in Ids(DrainedFrom(UnreadOf(s.sessions, s.calls[c].name), Lookup(s.log[..known])))
    ensures Step(s, ReadDrain(w, seen, t0), read) && Step(read, ReadDrain(c, known, t1), drained)
    ensures Step(drained, Install(drained.sessions), written) && Step(written, ReadCommit(c), done) && Step(done, Install(read.sessions), back)
    ensures w in back.calls && back.calls[w].ReadPersisting?
    ensures var n := s.calls[c].name;
            && d in LedgerOf(done, n).returned && d !in UnreadOf(done.sessions, n) && d !in UnreadOf(done.installed, n)
            && d in UnreadOf(Apply(back, Restart).sessions, n)
  {
    ReachableHolds(s);
    TwoReaders(s, w, c);
    var n := s.calls[c].name;
    read, drained := BothDrain(s, w, seen, t0, c, known, t1, d);
    written, done, back := AnswersAndFallsBack(drained, read, w, c);
    TwoSteps(s, ReadDrain(w, seen, t0), read, ReadDrain(c, known, t1), drained);
    ThreeSteps(drained, Install(drained.sessions), written, ReadCommit(c), done, Install(read.sessions), back);
    CrashLoads(back, n);
  }

  lemma TwoSteps(s: Bus, a: Event, s1: Bus, b: Event, s2: Bus)
    requires Reachable(s) && Step(s, a, s1) && Step(s1, b, s2)
    ensures Reachable(s2)
  {
    ReachableSteps(s, a);
    ReachableSteps(s1, b);
  }
}
