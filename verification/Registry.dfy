/**
 * Session entries and what the synchronous operations of `SessionRegistry`
 * (src/core/session-registry.ts) do to them, as functions.
 */
module Registry {
  import opened Prelude
  import opened Names

  const PEER_BUS_MAX_UNREAD := 10000

  /** An ISO time stamp that Date.parse reads, in milliseconds, or text that it does not. */
  datatype Timestamp = At(ms: int) | Unparseable(text: string)

  /**
   * A stored hash. SHA-256 is taken as injective, so a digest remembers what was hashed.
   * `Blank` is the empty string, `Malformed` any other text that is no 32-byte digest.
   */
  datatype Digest = Blank | Sha256(preimage: string) | Malformed(text: string)

  datatype SessionEntry = SessionEntry(
    name: string,
    tokenHash: Digest,
    paneTokenHash: Option<Digest>,
    registeredAt: Timestamp,
    lastSeenAt: Timestamp,
    unreadMessageIds: seq<string>,
    autoWakeKey: Option<string>,
    cmuxSurfaceId: Option<string>,
    cmuxWorkspaceId: Option<string>,
    wakeTarget: Option<string>)

  type Sessions = map<string, SessionEntry>

  function Find(sessions: Sessions, name: string): Option<SessionEntry> {
    if name in sessions then Some(sessions[name]) else None
  }

  // ----- Registering -----

  /** The three values of an optional field: absent keeps, null clears, a string sets. */
  datatype Field = Keep | Clear | Set(value: string)

  datatype RegisterRequest = RegisterRequest(paneToken: Option<string>, autoWakeKey: Field, surfaceId: Field, workspaceId: Field)

  /** The readings of the clock in one call: for the age, for `now`, and for a fresh registration time. */
  datatype Clock = Clock(age: int, stamp: int, registration: int)

  datatype RegistryError = InvalidSessionName | PaneTokenMissing | InvalidPaneToken

  datatype RegisterOutcome = Registered(entry: SessionEntry) | Rejected(error: RegistryError)

  function ResolveField(next: Field, current: Option<string>, preserve: bool): Option<string> {
    match next
    case Clear => None
    case Keep => if preserve then current else None
    case Set(v) => Some(v)
  }

  /** An unparseable last sight counts as fresh, and a zero time to live never expires. */
  predicate WithinTtl(lastSeenAt: Timestamp, now: int, ttl: nat) {
    ttl == 0 || (if lastSeenAt.At? then now - lastSeenAt.ms else 0) < ttl
  }

  function TimeAfter(previous: Timestamp, now: int): Timestamp {
    if previous.At? && previous.ms + 1 > now then At(previous.ms + 1) else At(now)
  }

  datatype Admission = Preserve | Fresh | Refuse(error: RegistryError)

  /** The five cases of `register`. */
  function Admit(existing: Option<SessionEntry>, paneToken: Option<string>, now: int, ttl: nat): Admission {
    if existing.None? then Fresh
    else if existing.value.paneTokenHash.None? then Preserve
    else if paneToken.None? then Refuse(PaneTokenMissing)
    else if existing.value.paneTokenHash.value == Sha256(paneToken.value) then Preserve
    else if WithinTtl(existing.value.lastSeenAt, now, ttl) then Refuse(InvalidPaneToken)
    else Fresh
  }

  function Register(existing: Option<SessionEntry>, name: string, req: RegisterRequest, ttl: nat, clock: Clock, rawToken: string): RegisterOutcome {
    if !IsSessionName(name) then Rejected(InvalidSessionName)
    else
      match Admit(existing, req.paneToken, clock.age, ttl)
      case Refuse(e) => Rejected(e)
      case admitted =>
        var keep := admitted.Preserve?;
        var pane := if req.paneToken.Some? then Some(Sha256(req.paneToken.value)) else None;
        var prior := if existing.Some? then existing.value else SessionEntry(name, Blank, None, At(0), At(0), [], None, None, None, None);
        var surface := ResolveField(req.surfaceId, prior.cmuxSurfaceId, keep);
        var registered := if existing.Some? then TimeAfter(prior.registeredAt, clock.registration) else At(clock.stamp);
        Registered(SessionEntry(
          name,
          Sha256(rawToken),
          if pane.Some? then pane else if keep then prior.paneTokenHash else None,
          if keep then prior.registeredAt else registered,
          if keep then At(clock.stamp) else registered,
          if keep then prior.unreadMessageIds else [],
          ResolveField(req.autoWakeKey, prior.autoWakeKey, keep),
          surface,
          ResolveField(req.workspaceId, prior.cmuxWorkspaceId, keep),
          surface))
  }

  /** Somebody else's entry can be taken over: it has been silent for the whole time to live. */
  predicate Stale(lastSeenAt: Timestamp, now: int, ttl: nat) {
    lastSeenAt.At? && ttl != 0 && now - lastSeenAt.ms >= ttl
  }

  /** Who may register a name that is taken: anyone when it is unowned, its owner, and anyone with a credential once it is stale. */
  predicate MayRegister(existing: SessionEntry, paneToken: Option<string>, now: int, ttl: nat) {
    || existing.paneTokenHash.None?
    || (paneToken.Some? && (existing.paneTokenHash == Some(Sha256(paneToken.value)) || Stale(existing.lastSeenAt, now, ttl)))
  }

  lemma RegisterAdmits(existing: SessionEntry, name: string, req: RegisterRequest, ttl: nat, clock: Clock, rawToken: string)
    ensures Register(Some(existing), name, req, ttl, clock, rawToken).Registered? <==>
            IsSessionName(name) && MayRegister(existing, req.paneToken, clock.age, ttl)
  {
  }

  /** An entry but for its mailbox and the time it was last seen. */
  function Identity(e: SessionEntry): SessionEntry {
    e.(lastSeenAt := At(0), unreadMessageIds := [])
  }

  /** How the entry after a registration may differ from the entry before it. */
  ghost predicate Succeeds(before: SessionEntry, after: SessionEntry, now: int, ttl: nat) {
    var sameOwner := after.paneTokenHash == before.paneTokenHash;
    && (before.paneTokenHash.Some? ==> after.paneTokenHash.Some?)
    && (!sameOwner && before.paneTokenHash.Some? ==> Stale(before.lastSeenAt, now, ttl))
    && (sameOwner || before.paneTokenHash.None? ==> after.registeredAt == before.registeredAt && after.unreadMessageIds == before.unreadMessageIds)
    && (!sameOwner && before.paneTokenHash.Some? ==> after.unreadMessageIds == [])
    && (!sameOwner && before.paneTokenHash.Some? && before.registeredAt.At? ==>
          after.registeredAt.At? && before.registeredAt.ms < after.registeredAt.ms)
  }

  /**
   * Ownership moves only from an unowned or a stale entry, a credential never disappears,
   * and an eviction moves the registration time forward whatever the clock reads.
   */
  lemma RegisterSucceeds(before: SessionEntry, name: string, req: RegisterRequest, ttl: nat, clock: Clock, rawToken: string)
    requires Register(Some(before), name, req, ttl, clock, rawToken).Registered?
    ensures Succeeds(before, Register(Some(before), name, req, ttl, clock, rawToken).entry, clock.age, ttl)
  {
  }

  /** The credential that a token is remembered by. */
  function CredentialOf(paneToken: Option<string>): Option<Digest> {
    if paneToken.Some? then Some(Sha256(paneToken.value)) else None
  }

  /** A name is refused to a malformed request, to nobody in particular, and to somebody else than its owner before its time. */
  lemma RegisterRefuses(existing: Option<SessionEntry>, name: string, req: RegisterRequest, ttl: nat, clock: Clock, rawToken: string)
    ensures var outcome := Register(existing, name, req, ttl, clock, rawToken);
            var owned := existing.Some? && existing.value.paneTokenHash.Some?;
            && (outcome == Rejected(InvalidSessionName) <==> !IsSessionName(name))
            && (outcome == Rejected(PaneTokenMissing) <==> IsSessionName(name) && owned && req.paneToken.None?)
            && (outcome == Rejected(InvalidPaneToken) <==>
                  && IsSessionName(name) && owned && req.paneToken.Some?
                  && existing.value.paneTokenHash != CredentialOf(req.paneToken) && !Stale(existing.value.lastSeenAt, clock.age, ttl))
  {
  }

  /**
   * Whoever registers owns the entry: its credential is the one presented, on a new name, an unowned
   * one, one's own and one taken over, and no credential leaves the entry unowned.
   */
  lemma RegistrantOwns(existing: Option<SessionEntry>, name: string, req: RegisterRequest, ttl: nat, clock: Clock, rawToken: string)
    requires Register(existing, name, req, ttl, clock, rawToken).Registered?
    ensures var e := Register(existing, name, req, ttl, clock, rawToken).entry;
            && e.paneTokenHash == CredentialOf(req.paneToken)
            && e.tokenHash == Sha256(rawToken) && e.name == name
  {
  }

  /** So the name is then refused to everybody else until the entry is stale, and its owner goes on with the same mailbox. */
  lemma OwnerHolds(existing: Option<SessionEntry>, name: string, req: RegisterRequest, ttl: nat, clock: Clock, rawToken: string,
                   later: RegisterRequest, laterTtl: nat, laterClock: Clock, laterToken: string)
    requires Register(existing, name, req, ttl, clock, rawToken).Registered? && req.paneToken.Some?
    ensures var e := Register(existing, name, req, ttl, clock, rawToken).entry;
            var again := Register(Some(e), name, later, laterTtl, laterClock, laterToken);
            && (later.paneToken.None? ==> again == Rejected(PaneTokenMissing))
            && (later.paneToken.Some? && later.paneToken != req.paneToken ==>
                  (again == Rejected(InvalidPaneToken) <==> !Stale(e.lastSeenAt, laterClock.age, laterTtl)))
            && (later.paneToken == req.paneToken ==>
                  again.Registered? && again.entry.unreadMessageIds == e.unreadMessageIds && again.entry.registeredAt == e.registeredAt)
  {
    RegistrantOwns(existing, name, req, ttl, clock, rawToken);
    RegisterRefuses(Some(Register(existing, name, req, ttl, clock, rawToken).entry), name, later, laterTtl, laterClock, laterToken);
  }

  /** The registration goes on with an entry: an unowned one, or the registrant's own. */
  predicate GoesOn(existing: Option<SessionEntry>, paneToken: Option<string>) {
    existing.Some? && (existing.value.paneTokenHash.None? || existing.value.paneTokenHash == CredentialOf(paneToken))
  }

  /** What becomes of an optional field whose value was `before`. */
  ghost predicate Settles(asked: Field, before: Option<string>, after: Option<string>) {
    && (forall v :: asked == Set(v) ==> after == Some(v))
    && (asked.Clear? ==> after == None)
    && (asked.Keep? ==> after == before)
  }

  /** The least time that is not before the clock's and is after another. */
  ghost predicate LeastAfter(t: Timestamp, previous: Timestamp, now: int) {
    && t.At? && t.ms >= now && (previous.At? ==> t.ms > previous.ms)
    && (t.ms == now || (previous.At? && t.ms == previous.ms + 1))
  }

  /**
   * What a registration leaves: who goes on keeps the mailbox, the registration time and every field that
   * the request does not mention; anybody else starts with nothing, registered at the clock's time or, on
   * a name taken over, at the least time after the old registration.
   */
  lemma RegistrationLeaves(existing: Option<SessionEntry>, name: string, req: RegisterRequest, ttl: nat, clock: Clock, rawToken: string)
    requires Register(existing, name, req, ttl, clock, rawToken).Registered?
    ensures var e := Register(existing, name, req, ttl, clock, rawToken).entry;
            var goesOn := GoesOn(existing, req.paneToken);
            && e.unreadMessageIds == (if goesOn then existing.value.unreadMessageIds else [])
            && Settles(req.autoWakeKey, if goesOn then existing.value.autoWakeKey else None, e.autoWakeKey)
            && Settles(req.surfaceId, if goesOn then existing.value.cmuxSurfaceId else None, e.cmuxSurfaceId)
            && Settles(req.workspaceId, if goesOn then existing.value.cmuxWorkspaceId else None, e.cmuxWorkspaceId)
            && e.wakeTarget == e.cmuxSurfaceId
            && (goesOn ==> e.registeredAt == existing.value.registeredAt && e.lastSeenAt == At(clock.stamp))
            && (!goesOn ==> e.lastSeenAt == e.registeredAt)
            && (existing.None? ==> e.registeredAt == At(clock.stamp))
            && (existing.Some? && !goesOn ==> LeastAfter(e.registeredAt, existing.value.registeredAt, clock.registration))
  {
    var e := Register(existing, name, req, ttl, clock, rawToken).entry;
    if existing.Some? && !GoesOn(existing, req.paneToken) {
      TimeAfterIsLeast(existing.value.registeredAt, clock.registration);
    }
  }

  lemma TimeAfterIsLeast(previous: Timestamp, now: int)
    ensures LeastAfter(TimeAfter(previous, now), previous, now)
  {
  }

  /** A take-over: the entry is registered anew although it existed. */
  predicate Evicts(existing: Option<SessionEntry>, paneToken: Option<string>, now: int, ttl: nat) {
    existing.Some? && Admit(existing, paneToken, now, ttl).Fresh?
  }

  // ----- The other operations -----

  function Touch(sessions: Sessions, name: string, now: int): Sessions {
    if name in sessions then sessions[name := sessions[name].(lastSeenAt := At(now))] else sessions
  }

  function UnreadOf(sessions: Sessions, name: string): seq<string> {
    if name in sessions then sessions[name].unreadMessageIds else []
  }

  function SetUnread(sessions: Sessions, name: string, unread: seq<string>): Sessions {
    if name in sessions then sessions[name := sessions[name].(unreadMessageIds := unread)] else sessions
  }

  predicate CanAddUnread(sessions: Sessions, name: string) {
    name in sessions && |sessions[name].unreadMessageIds| < PEER_BUS_MAX_UNREAD
  }

  function AddUnread(sessions: Sessions, name: string, id: string): Sessions {
    if CanAddUnread(sessions, name) then SetUnread(sessions, name, UnreadOf(sessions, name) + [id]) else sessions
  }

  /** A snapshot leaves out the wake target, which lives in memory only. */
  function SnapshotEntry(sessions: Sessions, name: string): Option<SessionEntry> {
    if name in sessions then Some(sessions[name].(wakeTarget := None)) else None
  }

  function RestoreEntry(sessions: Sessions, name: string, snapshot: Option<SessionEntry>): Sessions {
    match snapshot
    case None => sessions - {name}
    case Some(e) => sessions[name := e.(wakeTarget := e.cmuxSurfaceId)]
  }

  /** Restoring what was snapshot undoes any change of that entry exactly when its wake target was the surface. */
  lemma RestoreUndoes(sessions: Sessions, name: string, changed: SessionEntry)
    ensures RestoreEntry(sessions[name := changed], name, SnapshotEntry(sessions, name)) == sessions
            <==> (name in sessions ==> sessions[name].wakeTarget == sessions[name].cmuxSurfaceId)
  {
    if name in sessions {
      var restored := RestoreEntry(sessions[name := changed], name, SnapshotEntry(sessions, name));
      assert restored[name].wakeTarget == sessions[name].cmuxSurfaceId;
      if sessions[name].wakeTarget == sessions[name].cmuxSurfaceId {
        assert restored == sessions;
      }
    } else {
      assert sessions[name := changed] - {name} == sessions;
    }
  }

  /** The entry that a raw token authenticates to, in a registry where no two entries share a token. */
  predicate Authenticates(sessions: Sessions, name: string, rawToken: string) {
    name in sessions && sessions[name].tokenHash == Sha256(rawToken)
  }
}
