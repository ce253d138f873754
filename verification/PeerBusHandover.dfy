/** A read that the old owner of a name began returns a message sent after somebody else took the name over. */
module PeerBusHandover {
  import opened Prelude
  import opened Names
  import opened MessageStore
  import opened Envelope
  import opened Drain
  import opened Registry
  import opened PeerBus
  import opened PeerBusInvariant
  import opened PeerBusTheorems
  import opened PeerBusReaders

  lemma {:induction false} RunCons(s: Bus, e: Event, es: seq<Event>)
    requires Enabled(s, e) && Runs(Apply(s, e), es)
    ensures Runs(s, [e] + es) && After(s, [e] + es) == After(Apply(s, e), es)
  {
    assert ([e] + es)[1..] == es;
  }

  lemma HeadJoins<T>(xs: seq<T>, ys: seq<T>)
    requires xs != []
    ensures xs + ys == [xs[0]] + (xs[1..] + ys)
  {
  }

  lemma {:induction false} RunsHead(s: Bus, es: seq<Event>, t: Bus)
    requires es != [] && Runs(s, es) && t == After(s, es)
    ensures Enabled(s, es[0]) && Runs(Apply(s, es[0]), es[1..]) && After(Apply(s, es[0]), es[1..]) == t
  {
  }

  lemma {:induction false} RunsJoin(s: Bus, es: seq<Event>, t: Bus, more: seq<Event>)
    requires Runs(s, es) && t == After(s, es) && Runs(t, more)
    ensures Runs(s, es + more) && After(s, es + more) == After(t, more)
    decreases |es|
  {
    if es == [] {
      assert es + more == more;
    } else {
      var e, rest := es[0], es[1..];
      RunsHead(s, es, t);
      RunsJoin(Apply(s, e), rest, t, more);
      RunCons(s, e, rest + more);
      HeadJoins(es, more);
    }
  }

  lemma {:induction false} ThreeEvents(s: Bus, a: Event, b: Event, c: Event)
    requires Enabled(s, a) && Enabled(Apply(s, a), b) && Enabled(Apply(Apply(s, a), b), c)
    ensures Runs(s, [a] + ([b] + [c])) && After(s, [a] + ([b] + [c])) == Apply(Apply(Apply(s, a), b), c)
  {
    TwoEvents(Apply(s, a), b, c);
    RunCons(s, a, [b] + [c]);
  }

  // ----- In line: the new owner, a sender, the old owner -----

  lemma RegistrationLines(s: Bus, t: Bus, b: CallId, n: string, req: RegisterRequest, ttl: nat)
    requires Enabled(s, RegisterBegin(b, n, req, ttl)) && t == Apply(s, RegisterBegin(b, n, req, ttl)) && Queue(s, n) == []
    ensures Queue(t, n) == [b] && (forall m :: m != n ==> Queue(t, m) == Queue(s, m))
    ensures t.calls == s.calls[b := RegisterLocking(n, req, ttl)] && t.issued == s.issued + {b}
    ensures t.sessions == s.sessions && t.log == s.log
  {
  }

  lemma SendLines(s: Bus, t: Bus, d: CallId, k: string, msg: PeerMessage, now: int, b: CallId)
    requires Enabled(s, SendBegin(d, k, msg, now)) && t == Apply(s, SendBegin(d, k, msg, now))
    requires LexLess(msg.to, msg.from) && Queue(s, msg.to) == [b]
    ensures Queue(t, msg.to) == [b, d] && (forall m :: m != msg.to ==> Queue(t, m) == Queue(s, m))
    ensures t.calls == s.calls[d := SendLockingFirst(msg)] && t.issued == s.issued + {d}
    ensures t.sessions == Touch(s.sessions, msg.from, now) && t.log == s.log
  {
  }

  lemma ReadLines(s: Bus, t: Bus, c: CallId, a: string, n: string, now: int, b: CallId, d: CallId)
    requires Enabled(s, ReadBegin(c, a, n, now)) && t == Apply(s, ReadBegin(c, a, n, now)) && Queue(s, n) == [b, d]
    ensures Queue(t, n) == [b, d, c] && (forall m :: m != n ==> Queue(t, m) == Queue(s, m))
    ensures t.calls == s.calls[c := ReadLocking(n)] && t.sessions == Touch(s.sessions, n, now) && t.log == s.log
  {
  }

  /** The calls that the run is about: a registration, a send to the name and a read of it. */
  datatype Cast = Cast(b: CallId, n: string, req: RegisterRequest, ttl: nat, clock: Clock, d: CallId, msg: PeerMessage, c: CallId)

  ghost predicate Distinct(x: Cast) {
    && x.b != x.d && x.b != x.c && x.d != x.c
    && x.msg.messageId == x.d && x.msg.to == x.n && LexLess(x.n, x.msg.from) && x.n != x.msg.from
  }

  ghost predicate InLine(t: Bus, x: Cast) {
    && Queue(t, x.n) == [x.b, x.d, x.c] && Queue(t, x.msg.from) == []
    && x.b in t.calls && t.calls[x.b] == RegisterLocking(x.n, x.req, x.ttl)
    && x.d in t.calls && t.calls[x.d] == SendLockingFirst(x.msg)
    && x.c in t.calls && t.calls[x.c] == ReadLocking(x.n)
  }

  function LineEvents(x: Cast, a: string, k: string, t1: int, t2: int): seq<Event> {
    [RegisterBegin(x.b, x.n, x.req, x.ttl)] + ([SendBegin(x.d, k, x.msg, t1)] + [ReadBegin(x.c, a, x.n, t2)])
  }

  lemma LinesUp(s: Bus, x: Cast, a: string, k: string, t1: int, t2: int) returns (t: Bus)
    requires Distinct(x) && Queue(s, x.n) == [] && Queue(s, x.msg.from) == []
    requires Undrawn(s, x.b) && Undrawn(s, x.d) && Undrawn(s, x.c) && Accepted(x.msg)
    requires Spent(s, a) && Authenticates(s.sessions, x.n, a) && Spent(s, k) && Authenticates(s.sessions, x.msg.from, k)
    ensures Runs(s, LineEvents(x, a, k, t1, t2)) && t == After(s, LineEvents(x, a, k, t1, t2)) && InLine(t, x)
    ensures t.log == s.log && Find(t.sessions, x.n) == Find(Touch(s.sessions, x.n, t2), x.n)
  {
    var e1, e2, e3 := RegisterBegin(x.b, x.n, x.req, x.ttl), SendBegin(x.d, k, x.msg, t1), ReadBegin(x.c, a, x.n, t2);
    var s1 := Apply(s, e1);
    RegistrationLines(s, s1, x.b, x.n, x.req, x.ttl);
    var s2 := Apply(s1, e2);
    SendLines(s1, s2, x.d, k, x.msg, t1, x.b);
    t := Apply(s2, e3);
    ReadLines(s2, t, x.c, a, x.n, t2, x.b, x.d);
    ThreeEvents(s, e1, e2, e3);
  }

  // ----- The new owner takes the name -----

  /** The mailbox is empty, and the name belongs to the registration's credential and token. */
  ghost predicate TakenOver(t: Bus, x: Cast) {
    && x.n in t.sessions && x.req.paneToken.Some?
    && t.sessions[x.n].paneTokenHash == Some(Sha256(x.req.paneToken.value))
    && t.sessions[x.n].tokenHash == Sha256(x.b)
  }

  ghost predicate Next(t: Bus, x: Cast) {
    && Queue(t, x.n) == [x.d, x.c] && Queue(t, x.msg.from) == []
    && x.d in t.calls && t.calls[x.d] == SendLockingFirst(x.msg)
    && x.c in t.calls && t.calls[x.c] == ReadLocking(x.n)
  }

  function TakeEvents(x: Cast): seq<Event> {
    [RegisterRun(x.b, x.clock)] + [RegisterCommit(x.b)]
  }

  lemma EvictingRun(s: Bus, t: Bus, x: Cast)
    requires x.b in s.calls && s.calls[x.b] == RegisterLocking(x.n, x.req, x.ttl) && Heads(s, x.n, x.b) && Accepts(s, x.b, x.clock)
    requires Evicts(Find(s.sessions, x.n), x.req.paneToken, x.clock.age, x.ttl) && t == RunRegister(s, x.b, x.clock)
    ensures TakenOver(t, x) && UnreadOf(t.sessions, x.n) == [] && t.log == s.log && t.locks == s.locks
  {
  }

  lemma CommitMovesLine(run: Bus, t: Bus, x: Cast)
    requires x.b in run.calls && run.calls[x.b].RegisterPersisting? && run.calls[x.b].name == x.n && Queue(run, x.n) == [x.b, x.d, x.c]
    requires t == Apply(run, RegisterCommit(x.b))
    ensures Queue(t, x.n) == [x.d, x.c] && (forall m :: m != x.n ==> Queue(t, m) == Queue(run, m))
    ensures t.calls == run.calls - {x.b} && t.sessions == run.sessions && t.log == run.log
  {
  }

  lemma TakesOver(s: Bus, x: Cast) returns (t: Bus)
    requires Distinct(x) && InLine(s, x) && Accepts(s, x.b, x.clock)
    requires Evicts(Find(s.sessions, x.n), x.req.paneToken, x.clock.age, x.ttl)
    ensures Runs(s, TakeEvents(x)) && t == After(s, TakeEvents(x)) && Next(t, x) && TakenOver(t, x)
    ensures UnreadOf(t.sessions, x.n) == [] && t.log == s.log
  {
    var run := RunRegister(s, x.b, x.clock);
    RegistrationRuns(s, x.b, x.n, x.req, x.ttl, x.clock);
    EvictingRun(s, run, x);
    RegistrationCommits(run, x.b, x.n, [x.b, x.d, x.c]);
    t := Apply(run, RegisterCommit(x.b));
    CommitMovesLine(run, t, x);
    TwoEvents(s, RegisterRun(x.b, x.clock), RegisterCommit(x.b));
  }

  // ----- The message -----

  /** Nothing but the send moves: the reader waits, and the name's credential and token stay. */
  ghost predicate Beside(s: Bus, t: Bus, x: Cast) {
    && x.c in t.calls && t.calls[x.c] == ReadLocking(x.n)
    && (TakenOver(s, x) ==> TakenOver(t, x))
  }

  lemma SecondLock(s: Bus, t: Bus, x: Cast)
    requires Distinct(x) && Next(s, x) && t == LockSecond(s, x.d)
    ensures Enabled(s, SendLock(x.d)) && Beside(s, t, x) && SendReady(t, x.d)
    ensures x.d in t.calls && t.calls[x.d] == SendLockingSecond(x.msg, x.n, x.msg.from)
    ensures Queue(t, x.n) == [x.d, x.c] && Queue(t, x.msg.from) == [x.d] && t.sessions == s.sessions && t.log == s.log
  {
  }

  lemma Appends(s: Bus, t: Bus, x: Cast)
    requires Distinct(x) && SendReady(s, x.d) && s.calls[x.d] == SendLockingSecond(x.msg, x.n, x.msg.from) && Enabled(s, SendAppend(x.d))
    requires x.c in s.calls && s.calls[x.c] == ReadLocking(x.n) && t == Apply(s, SendAppend(x.d))
    ensures Beside(s, t, x) && x.d in t.calls && t.calls[x.d] == SendAppending(x.msg, UnreadOf(s.sessions, x.n))
    ensures t.locks == s.locks && t.sessions == s.sessions && t.log == s.log + [x.msg]
  {
  }

  lemma Indexes(s: Bus, t: Bus, x: Cast, now: int, later: int)
    requires Distinct(x) && x.d in s.calls && s.calls[x.d] == SendAppending(x.msg, []) && x.n in s.sessions && UnreadOf(s.sessions, x.n) == []
    requires x.c in s.calls && s.calls[x.c] == ReadLocking(x.n) && t == Apply(s, SendIndex(x.d, now, later))
    ensures Beside(s, t, x) && x.d in t.calls && t.calls[x.d] == SendPersisting(x.msg, [])
    ensures t.locks == s.locks && UnreadOf(t.sessions, x.n) == [x.d] && x.n in t.sessions && t.log == s.log
  {
  }

  lemma Commits(s: Bus, t: Bus, x: Cast)
    requires Distinct(x) && x.d in s.calls && s.calls[x.d] == SendPersisting(x.msg, []) && First(x.msg) == x.n && Second(x.msg) == x.msg.from
    requires x.c in s.calls && s.calls[x.c] == ReadLocking(x.n) && t == Apply(s, SendCommit(x.d))
    ensures Beside(s, t, x) && x.d in t.calls && t.calls[x.d] == SendReleasing(x.n)
    ensures Queue(t, x.n) == Queue(s, x.n) && t.sessions == s.sessions && t.log == s.log
  {
  }

  lemma Releases(s: Bus, t: Bus, x: Cast)
    requires Distinct(x) && x.d in s.calls && s.calls[x.d] == SendReleasing(x.n) && Queue(s, x.n) == [x.d, x.c]
    requires x.c in s.calls && s.calls[x.c] == ReadLocking(x.n) && t == Apply(s, SendRelease(x.d))
    ensures Beside(s, t, x) && Queue(t, x.n) == [x.c] && t.sessions == s.sessions && t.log == s.log
  {
  }

  function WriteEvents(x: Cast, t3: int, t4: int): seq<Event> {
    [SendLock(x.d)] + ([SendAppend(x.d)] + [SendIndex(x.d, t3, t4)])
  }

  lemma Writes(s: Bus, x: Cast, t3: int, t4: int) returns (t: Bus)
    requires Distinct(x) && Next(s, x) && TakenOver(s, x) && UnreadOf(s.sessions, x.n) == []
    ensures Runs(s, WriteEvents(x, t3, t4)) && t == After(s, WriteEvents(x, t3, t4)) && Beside(s, t, x)
    ensures x.d in t.calls && t.calls[x.d] == SendPersisting(x.msg, []) && Queue(t, x.n) == [x.d, x.c]
    ensures UnreadOf(t.sessions, x.n) == [x.d] && t.log == s.log + [x.msg]
  {
    var s1 := LockSecond(s, x.d);
    SecondLock(s, s1, x);
    var s2 := Apply(s1, SendAppend(x.d));
    Appends(s1, s2, x);
    t := Apply(s2, SendIndex(x.d, t3, t4));
    Indexes(s2, t, x, t3, t4);
    ThreeEvents(s, SendLock(x.d), SendAppend(x.d), SendIndex(x.d, t3, t4));
  }

  function SettleEvents(x: Cast): seq<Event> {
    [SendCommit(x.d)] + [SendRelease(x.d)]
  }

  lemma Settles(s: Bus, x: Cast) returns (t: Bus)
    requires Distinct(x) && x.d in s.calls && s.calls[x.d] == SendPersisting(x.msg, []) && Queue(s, x.n) == [x.d, x.c]
    requires x.c in s.calls && s.calls[x.c] == ReadLocking(x.n)
    ensures Runs(s, SettleEvents(x)) && t == After(s, SettleEvents(x)) && Beside(s, t, x)
    ensures Queue(t, x.n) == [x.c] && t.sessions == s.sessions && t.log == s.log
  {
    var s1 := Apply(s, SendCommit(x.d));
    FirstIs(x);
    Commits(s, s1, x);
    t := Apply(s1, SendRelease(x.d));
    Releases(s1, t, x);
    TwoEvents(s, SendCommit(x.d), SendRelease(x.d));
  }

  lemma FirstIs(x: Cast)
    requires Distinct(x)
    ensures First(x.msg) == x.n && Second(x.msg) == x.msg.from
  {
  }

  // ----- The drain -----

  lemma OneLetter(m: PeerMessage, lookup: map<string, PeerMessage>)
    requires m.messageId in lookup && lookup[m.messageId] == m
    ensures Ids(DrainedFrom([m.messageId], lookup)) == [m.messageId]
  {
    assert Known([m.messageId], lookup) == [m];
    assert StableSort([m]) == [m] by {
      assert [m][..0] == [];
    }
    assert DrainedFrom([m.messageId], lookup) == [m];
  }

  function ReadEvents(x: Cast, seen: nat, t5: int): seq<Event> {
    [ReadLoad(x.c)] + [ReadDrain(x.c, seen, t5)]
  }

  lemma Loads(s: Bus, loads: Bus, x: Cast)
    requires x.c in s.calls && s.calls[x.c] == ReadLocking(x.n) && Queue(s, x.n) == [x.c] && loads == Apply(s, ReadLoad(x.c))
    ensures x.c in loads.calls && loads.calls[x.c] == ReadLoading(x.n, |s.log|, UnreadOf(s.sessions, x.n))
    ensures loads.sessions == s.sessions && loads.log == s.log
  {
  }

  lemma Drains(loads: Bus, t: Bus, x: Cast, t5: int)
    requires x.c in loads.calls && loads.calls[x.c] == ReadLoading(x.n, |loads.log|, [x.d]) && TakenOver(loads, x)
    requires UnreadOf(loads.sessions, x.n) == [x.d] && t == Apply(loads, ReadDrain(x.c, |loads.log|, t5))
    ensures x.c in t.calls && t.calls[x.c].ReadPersisting? && TakenOver(t, x)
    ensures t.calls[x.c].drained == Ids(DrainedFrom([x.d], Lookup(loads.log)))
  {
    assert loads.log[..|loads.log|] == loads.log;
  }

  lemma Reads(s: Bus, x: Cast, t5: int) returns (t: Bus)
    requires Distinct(x) && TakenOver(s, x) && x.c in s.calls && s.calls[x.c] == ReadLocking(x.n) && Queue(s, x.n) == [x.c]
    requires UnreadOf(s.sessions, x.n) == [x.d] && x.d in Lookup(s.log) && Lookup(s.log)[x.d] == x.msg
    ensures Runs(s, ReadEvents(x, |s.log|, t5)) && t == After(s, ReadEvents(x, |s.log|, t5)) && TakenOver(t, x)
    ensures x.c in t.calls && t.calls[x.c].ReadPersisting? && t.calls[x.c].drained == [x.d]
  {
    var loads := Apply(s, ReadLoad(x.c));
    Loads(s, loads, x);
    t := Apply(loads, ReadDrain(x.c, |s.log|, t5));
    Drains(loads, t, x, t5);
    OneLetter(x.msg, Lookup(s.log));
    TwoEvents(s, ReadLoad(x.c), ReadDrain(x.c, |s.log|, t5));
  }

  function DeliverEvents(x: Cast, seen: nat, t3: int, t4: int, t5: int): seq<Event> {
    WriteEvents(x, t3, t4) + (SettleEvents(x) + ReadEvents(x, seen, t5))
  }

  lemma Delivers(s: Bus, x: Cast, t3: int, t4: int, t5: int) returns (t: Bus)
    requires Distinct(x) && Next(s, x) && TakenOver(s, x) && UnreadOf(s.sessions, x.n) == []
    ensures Runs(s, DeliverEvents(x, |s.log| + 1, t3, t4, t5)) && t == After(s, DeliverEvents(x, |s.log| + 1, t3, t4, t5))
    ensures x.c in t.calls && t.calls[x.c].ReadPersisting? && t.calls[x.c].drained == [x.d] && TakenOver(t, x)
  {
    var s1 := Writes(s, x, t3, t4);
    var s2 := Settles(s1, x);
    LookupExtends(s.log, x.msg);
    t := Reads(s2, x, t5);
    RunsJoin(s1, SettleEvents(x), s2, ReadEvents(x, |s.log| + 1, t5));
    RunsJoin(s, WriteEvents(x, t3, t4), s1, SettleEvents(x) + ReadEvents(x, |s.log| + 1, t5));
  }

  lemma EvictsTheSilent(s: Bus, x: Cast, now: int)
    requires x.n in s.sessions && Evicts(Find(Touch(s.sessions, x.n, now), x.n), x.req.paneToken, x.clock.age, x.ttl)
    ensures x.ttl > 0 && x.clock.age - now >= x.ttl && x.req.paneToken.Some?
    ensures s.sessions[x.n].paneTokenHash.Some? && s.sessions[x.n].paneTokenHash != Some(Sha256(x.req.paneToken.value))
  {
  }

  function HandoverEvents(x: Cast, a: string, k: string, seen: nat, t1: int, t2: int, t3: int, t4: int, t5: int): seq<Event> {
    LineEvents(x, a, k, t1, t2) + (TakeEvents(x) + DeliverEvents(x, seen, t3, t4, t5))
  }

  lemma HandsOver(s: Bus, x: Cast, a: string, k: string, t1: int, t2: int, t3: int, t4: int, t5: int) returns (t: Bus)
    requires Queue(s, x.n) == [] && Queue(s, x.msg.from) == [] && Distinct(x) && Accepted(x.msg)
    requires Undrawn(s, x.b) && Undrawn(s, x.d) && Undrawn(s, x.c)
    requires Spent(s, a) && Authenticates(s.sessions, x.n, a) && Spent(s, k) && Authenticates(s.sessions, x.msg.from, k)
    requires Register(Find(Touch(s.sessions, x.n, t2), x.n), x.n, x.req, x.ttl, x.clock, x.b).Registered?
    requires Evicts(Find(Touch(s.sessions, x.n, t2), x.n), x.req.paneToken, x.clock.age, x.ttl)
    ensures var es := HandoverEvents(x, a, k, |s.log| + 1, t1, t2, t3, t4, t5);
            Runs(s, es) && t == After(s, es)
    ensures x.c in t.calls && t.calls[x.c].ReadPersisting? && t.calls[x.c].drained == [x.d] && TakenOver(t, x)
  {
    var s1 := LinesUp(s, x, a, k, t1, t2);
    var s2 := TakesOver(s1, x);
    t := Delivers(s2, x, t3, t4, t5);
    RunsJoin(s1, TakeEvents(x), s2, DeliverEvents(x, |s.log| + 1, t3, t4, t5));
    RunsJoin(s, LineEvents(x, a, k, t1, t2), s1, TakeEvents(x) + DeliverEvents(x, |s.log| + 1, t3, t4, t5));
  }

  /**
   * A registration, a send and a read of one name get in line in this order; the reader is the name's
   * owner. The registration takes the name over, so the sender's message is for the new owner, and the
   * old one's read returns it. It takes a line that stands still for the time to live, because the
   * read's own call has just renewed the entry.
   */
  lemma OldOwnerReads(s: Bus, x: Cast, a: string, k: string, t1: int, t2: int, t3: int, t4: int, t5: int) returns (t: Bus)
    requires Reachable(s) && Queue(s, x.n) == [] && Queue(s, x.msg.from) == [] && Distinct(x) && Accepted(x.msg)
    requires Undrawn(s, x.b) && Undrawn(s, x.d) && Undrawn(s, x.c)
    requires Presentable(s, a) && Authenticates(s.sessions, x.n, a) && Presentable(s, k) && Authenticates(s.sessions, x.msg.from, k)
    requires Register(Find(Touch(s.sessions, x.n, t2), x.n), x.n, x.req, x.ttl, x.clock, x.b).Registered?
    requires Evicts(Find(Touch(s.sessions, x.n, t2), x.n), x.req.paneToken, x.clock.age, x.ttl)
    ensures var es := HandoverEvents(x, a, k, |s.log| + 1, t1, t2, t3, t4, t5);
            Runs(s, es) && t == After(s, es)
    ensures x.c in t.calls && t.calls[x.c].ReadPersisting? && t.calls[x.c].drained == [x.d]
    ensures TakenOver(t, x) && !Authenticates(t.sessions, x.n, a)
    ensures x.ttl > 0 && x.clock.age - t2 >= x.ttl
    ensures s.sessions[x.n].paneTokenHash.Some? && s.sessions[x.n].paneTokenHash != t.sessions[x.n].paneTokenHash
  {
    TokenIsSpent(s, x.n, a);
    TokenIsSpent(s, x.msg.from, k);
    EvictsTheSilent(s, x, t2);
    t := HandsOver(s, x, a, k, t1, t2, t3, t4, t5);
  }
}
