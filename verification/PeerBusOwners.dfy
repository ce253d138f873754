/** Whom a name belongs to: what a committed registration gives, who is refused, and who is safe from eviction. */
module PeerBusOwners {
  import opened Prelude
  import opened Names
  import opened Registry
  import opened PeerBus
  import opened PeerBusInvariant
  import opened PeerBusSteps
  import opened PeerBusSends
  import opened PeerBusTheorems
  import opened PeerBusReaders

  /**
   * A registration that commits owns the name, new or not: the committed entry has the credential that was
   * presented and the token that is returned, and the mailbox is the one before it only if the entry was
   * unowned or the registrant's own.
   */
  lemma CommitOwns(s: Bus, c: CallId)
    requires Reachable(s) && c in s.calls && s.calls[c].RegisterPersisting?
    ensures var call := s.calls[c];
            var n, t := call.name, Apply(s, RegisterCommit(c));
            && View(t, n).Some? && View(t, n).value.paneTokenHash == CredentialOf(call.req.paneToken) && View(t, n).value.tokenHash == Sha256(c)
            && Mailbox(t, n) == if GoesOn(View(s, n), call.req.paneToken) then Mailbox(s, n) else []
  {
    var call := s.calls[c];
    ReachableHolds(s);
    RegisterCommitEffect(s, c);
    RegistrantOwns(View(s, call.name), call.name, call.req, call.ttl, call.clock, c);
    RegistrationLeaves(View(s, call.name), call.name, call.req, call.ttl, call.clock, c);
  }

  /** Somebody at the head of the line finds the committed entry, and it decides. */
  lemma EntryDecides(s: Bus, d: CallId, clock: Clock)
    requires Reachable(s) && d in s.calls && s.calls[d].RegisterLocking? && Heads(s, s.calls[d].name, d)
    ensures var call := s.calls[d];
            var entry := View(s, call.name);
            Accepts(s, d, clock) <==>
              IsSessionName(call.name) && (entry.None? || MayRegister(entry.value, call.req.paneToken, clock.age, call.ttl))
  {
    var call := s.calls[d];
    HolderAt(s, call.name, d);
    RegisterRefuses(Find(s.sessions, call.name), call.name, call.req, call.ttl, clock, d);
  }

  /**
   * A registration that presented a credential commits. Over whatever run follows, as long as no further
   * registration of the name is admitted and committed, a call without a credential is refused, one with
   * the same credential is admitted, and any other one is admitted only once the entry is stale.
   */
  lemma {:induction false} ClaimHolds(s: Bus, c: CallId, t: Bus, es: seq<Event>, u: Bus, d: CallId, clock: Clock)
    requires Reachable(s) && c in s.calls && s.calls[c].RegisterPersisting? && s.calls[c].req.paneToken.Some? && t == Apply(s, RegisterCommit(c))
    requires Runs(t, es) && NoRestart(es) && !SomebodyAdmitted(t, es, s.calls[c].name) && u == After(t, es)
    requires d in u.calls && u.calls[d].RegisterLocking? && u.calls[d].name == s.calls[c].name && Heads(u, s.calls[c].name, d)
    ensures View(u, s.calls[c].name).Some?
    ensures var presented := u.calls[d].req.paneToken;
            Accepts(u, d, clock) <==>
              && IsSessionName(s.calls[c].name) && presented.Some?
              && (presented == s.calls[c].req.paneToken || Stale(View(u, s.calls[c].name).value.lastSeenAt, clock.age, u.calls[d].ttl))
  {
    CommitOwns(s, c);
    ReachableSteps(s, RegisterCommit(c));
    IdentityOverRuns(t, es, s.calls[c].name);
    ReachableRuns(t, es);
    EntryDecides(u, d, clock);
  }

  // ----- Being seen -----

  /** When an event sees a name's owner at work, and the reading of the clock it takes for it. */
  function Sight(s: Bus, e: Event, n: string): Option<int>
    requires Enabled(s, e)
  {
    match e
    case TouchOnly(_, name, now) => if name == n then Some(now) else None
    case SendBegin(_, _, msg, now) => if msg.from == n then Some(now) else None
    case SendIndex(c, now, later) => if s.calls[c].msg.to == n then Some(later) else if s.calls[c].msg.from == n then Some(now) else None
    case ReadBegin(_, _, name, now) => if name == n then Some(now) else None
    case ReadDrain(c, _, now) => if s.calls[c].name == n then Some(now) else None
    case _ => None
  }

  /** A registration of the name puts a new entry in memory, or takes it out again. */
  predicate Rewrites(s: Bus, e: Event, n: string)
    requires Enabled(s, e)
  {
    (e.RegisterRun? || e.RegisterRollback?) && s.calls[e.c].name == n
  }

  function LastSeen(s: Bus, n: string): Option<Timestamp> {
    if n in s.sessions then Some(s.sessions[n].lastSeenAt) else None
  }

  lemma EndSeesNobody(s: Bus, e: Event, n: string)
    requires Enabled(s, e) && (e.SendRefuse? || e.SendCommit? || e.SendRollback?)
    ensures LastSeen(Apply(s, e), n) == LastSeen(s, n)
  {
    EndsFrom(s, e);
    EndSendParts(BeforeEnd(s, e), e.c, s.calls[e.c].msg);
  }

  lemma {:induction false} SendSees(s: Bus, e: Event, n: string)
    requires Enabled(s, e) && (e.SendBegin? || e.SendLock? || e.SendAppend? || e.SendIndex? || e.SendRelease?)
    ensures LastSeen(Apply(s, e), n) == if Sight(s, e, n).Some? && n in s.sessions then Some(At(Sight(s, e, n).value)) else LastSeen(s, n)
  {
  }

  lemma {:induction false} OtherSees(s: Bus, e: Event, n: string)
    requires Enabled(s, e) && !e.Restart? && !Rewrites(s, e, n)
    requires !e.SendBegin? && !e.SendLock? && !e.SendAppend? && !e.SendIndex? && !e.SendRelease? && !e.SendRefuse? && !e.SendCommit? && !e.SendRollback?
    ensures LastSeen(Apply(s, e), n) == if Sight(s, e, n).Some? && n in s.sessions then Some(At(Sight(s, e, n).value)) else LastSeen(s, n)
  {
  }

  /** An entry's last sight moves to the reading of each event that sees its owner, and but for registrations only then. */
  lemma SightMoves(s: Bus, e: Event, n: string)
    requires Enabled(s, e) && !e.Restart? && !Rewrites(s, e, n)
    ensures LastSeen(Apply(s, e), n) == if Sight(s, e, n).Some? && n in s.sessions then Some(At(Sight(s, e, n).value)) else LastSeen(s, n)
  {
    if e.SendRefuse? || e.SendCommit? || e.SendRollback? {
      EndSeesNobody(s, e, n);
    } else if e.SendBegin? || e.SendLock? || e.SendAppend? || e.SendIndex? || e.SendRelease? {
      SendSees(s, e, n);
    } else {
      OtherSees(s, e, n);
    }
  }

  /** No clock reading of the event lies before `now`. */
  predicate NotBefore(e: Event, now: int) {
    match e
    case RegisterRun(_, clock) => clock.stamp >= now && clock.registration >= now
    case TouchOnly(_, _, t) => t >= now
    case SendBegin(_, _, _, t) => t >= now
    case SendIndex(_, t, later) => t >= now && later >= now
    case ReadBegin(_, _, _, t) => t >= now
    case ReadDrain(_, _, t) => t >= now
    case _ => true
  }

  predicate Recent(seen: Option<Timestamp>, now: int) {
    seen.Some? && seen.value.At? && seen.value.ms >= now
  }

  /** The entry was last seen at `now` or later, and so was the one that a registration under way would put back. */
  ghost predicate SeenSince(s: Bus, n: string, now: int) {
    && Recent(LastSeen(s, n), now)
    && forall c :: c in s.calls && s.calls[c].RegisterPersisting? && s.calls[c].name == n ==>
         s.calls[c].prior.Some? && Recent(Some(s.calls[c].prior.value.lastSeenAt), now)
  }

  lemma RewriteKeepsSight(s: Bus, e: Event, n: string, now: int)
    requires Enabled(s, e) && Rewrites(s, e, n) && SeenSince(s, n, now) && NotBefore(e, now)
    ensures SeenSince(Apply(s, e), n, now)
  {
    if e.RegisterRun? {
      RunKeepsSight(s, e.c, e.clock, now);
    }
  }

  lemma RunKeepsSight(s: Bus, c: CallId, clock: Clock, now: int)
    requires c in s.calls && s.calls[c].RegisterLocking? && Heads(s, s.calls[c].name, c)
    requires SeenSince(s, s.calls[c].name, now) && clock.stamp >= now && clock.registration >= now
    ensures SeenSince(RunRegister(s, c, clock), s.calls[c].name, now)
  {
    var call := s.calls[c];
    if Accepts(s, c, clock) {
      RegistrationLeaves(Find(s.sessions, call.name), call.name, call.req, call.ttl, clock, c);
    }
  }

  /** A registration of the name begins to persist only when it runs. */
  lemma NoNewPersisting(s: Bus, e: Event, n: string, x: CallId)
    requires Inv(s) && Enabled(s, e) && !e.Restart? && !Rewrites(s, e, n)
    requires x in Apply(s, e).calls && Apply(s, e).calls[x].RegisterPersisting? && Apply(s, e).calls[x].name == n
    ensures x in s.calls && s.calls[x] == Apply(s, e).calls[x]
  {
    EventKeeps(s, e);
    if x in Acting(e) {
      OnlyRunsPersist(s, e);
    }
  }

  lemma OnlyRunsPersist(s: Bus, e: Event)
    requires Enabled(s, e) && !e.Restart? && !e.RegisterRun? && Acting(e) != {}
    ensures e.c in Apply(s, e).calls ==> !Apply(s, e).calls[e.c].RegisterPersisting?
  {
    if e.SendRefuse? || e.SendCommit? || e.SendRollback? {
      EndsFrom(s, e);
      EndedQueue(BeforeEnd(s, e), e.c, s.calls[e.c].msg, "");
    }
  }

  lemma SightStays(s: Bus, e: Event, n: string, now: int)
    requires Inv(s) && Enabled(s, e) && !e.Restart? && SeenSince(s, n, now) && NotBefore(e, now)
    ensures SeenSince(Apply(s, e), n, now)
  {
    if Rewrites(s, e, n) {
      RewriteKeepsSight(s, e, n, now);
    } else {
      SightMoves(s, e, n);
      forall x | x in Apply(s, e).calls && Apply(s, e).calls[x].RegisterPersisting? && Apply(s, e).calls[x].name == n
        ensures x in s.calls && s.calls[x] == Apply(s, e).calls[x] {
        NoNewPersisting(s, e, n, x);
      }
    }
  }

  ghost predicate ClockGoesOn(es: seq<Event>, now: int) {
    forall i :: 0 <= i < |es| ==> NotBefore(es[i], now)
  }

  lemma {:induction false} SightOverRun(s: Bus, es: seq<Event>, n: string, now: int)
    requires Inv(s) && Runs(s, es) && NoRestart(es) && ClockGoesOn(es, now) && SeenSince(s, n, now)
    ensures SeenSince(After(s, es), n, now)
    decreases |es|
  {
    if es != [] {
      EventKeeps(s, es[0]);
      SightStays(s, es[0], n, now);
      assert NoRestart(es[1..]) && ClockGoesOn(es[1..], now);
      SightOverRun(Apply(s, es[0]), es[1..], n, now);
    }
  }

  /** Whoever is seen is not just being replaced: the owner authenticated, or the call holds the lock. */
  lemma SightStarts(s: Bus, e: Event, n: string, now: int)
    requires Inv(s) && Enabled(s, e) && Sight(s, e, n) == Some(now) && n in s.sessions
    ensures SeenSince(Apply(s, e), n, now)
  {
    SightMoves(s, e, n);
    forall x | x in Apply(s, e).calls && Apply(s, e).calls[x].RegisterPersisting? && Apply(s, e).calls[x].name == n ensures false {
      NoNewPersisting(s, e, n, x);
      SeenIsNotPersisting(s, e, n, x);
    }
  }

  lemma SeenIsNotPersisting(s: Bus, e: Event, n: string, x: CallId)
    requires Inv(s) && Enabled(s, e) && Sight(s, e, n).Some? && x in s.calls && n in Holds(s.calls[x])
    ensures !s.calls[x].RegisterPersisting?
  {
    assert Heads(s, n, x);
    HolderAt(s, n, x);
    if e.SendIndex? || e.ReadDrain? {
      assert n in Holds(s.calls[e.c]);
      assert Heads(s, n, e.c);
    } else {
      PersistingIsSecret(s, e.token, n);
    }
  }

  /**
   * An owner that is seen is safe: as long as the clock does not go back, no registration that presents
   * somebody else's credential is admitted before the time to live has passed since.
   */
  lemma {:induction false} ActiveIsSafe(s: Bus, e: Event, n: string, now: int, es: seq<Event>, t: Bus, d: CallId, clock: Clock)
    requires Reachable(s) && Enabled(s, e) && Sight(s, e, n) == Some(now) && n in s.sessions
    requires Runs(Apply(s, e), es) && NoRestart(es) && ClockGoesOn(es, now) && t == After(Apply(s, e), es)
    requires d in t.calls && t.calls[d].RegisterLocking? && t.calls[d].name == n && Heads(t, n, d)
    requires t.calls[d].ttl == 0 || clock.age - now < t.calls[d].ttl
    ensures n in t.sessions
    ensures t.sessions[n].paneTokenHash.Some? && t.sessions[n].paneTokenHash != CredentialOf(t.calls[d].req.paneToken) ==> !Accepts(t, d, clock)
  {
    ReachableHolds(s);
    EventKeeps(s, e);
    SightStarts(s, e, n, now);
    SightOverRun(Apply(s, e), es, n, now);
    RegisterRefuses(Find(t.sessions, n), n, t.calls[d].req, t.calls[d].ttl, clock, d);
  }
}
