/**
 * The registry object of src/core/session-registry.ts: its maps updated in place, each method
 * tied to the functions of Registry, Drain, RegistryFile and WakeState.
 */
module SessionRegistry {
  import opened Prelude
  import opened Names
  import opened Utf8
  import opened MessageStore
  import opened Registry
  import opened Drain
  import opened RegistryFile
  import WS = WakeState

  datatype Delivery = Delivery(messageId: string, wrapped: string)

  function Deliveries(ms: seq<PeerMessage>, wrap: PeerMessage -> string): (r: seq<Delivery>)
    ensures |r| == |ms| && forall i :: 0 <= i < |ms| ==> r[i] == Delivery(ms[i].messageId, wrap(ms[i]))
  {
    seq(|ms|, i requires 0 <= i < |ms| => Delivery(ms[i].messageId, wrap(ms[i])))
  }

  /** The candidates among the first `n` unread ids. */
  function CandidatesUpTo(unread: seq<string>, lookup: map<string, PeerMessage>, n: nat): seq<Candidate>
    requires n <= |unread|
  {
    if n == 0 then []
    else
      var cs := CandidatesUpTo(unread, lookup, n - 1);
      if unread[n - 1] in lookup then cs + [Candidate(n - 1, lookup[unread[n - 1]])] else cs
  }

  lemma {:induction false} CandidatesAreKnown(unread: seq<string>, lookup: map<string, PeerMessage>, n: nat)
    requires n <= |unread|
    ensures Indexed(CandidatesUpTo(unread, lookup, n)) && IndexedBelow(CandidatesUpTo(unread, lookup, n), n)
    ensures MessagesOf(CandidatesUpTo(unread, lookup, n)) == Known(unread[..n], lookup)
  {
    if n > 0 {
      CandidatesAreKnown(unread, lookup, n - 1);
      assert unread[..n] == unread[..n - 1] + [unread[n - 1]];
      KnownAppend(unread[..n - 1], unread[n - 1], lookup);
    }
  }

  lemma {:induction false} KnownAppend(unread: seq<string>, id: string, lookup: map<string, PeerMessage>)
    ensures Known(unread + [id], lookup) == Known(unread, lookup) + if id in lookup then [lookup[id]] else []
  {
    if unread == [] {
      assert [id][1..] == [];
      assert [] + [id] == [id];
    } else {
      KnownAppend(unread[1..], id, lookup);
      assert (unread + [id])[1..] == unread[1..] + [id];
    }
  }

  lemma DeliveredIds(ms: seq<PeerMessage>, wrap: PeerMessage -> string, messages: seq<Delivery>)
    requires |messages| == |ms|
    requires forall i :: 0 <= i < |ms| ==> messages[i] == Delivery(ms[i].messageId, wrap(ms[i]))
    ensures messages == Deliveries(ms, wrap)
    ensures (set i | 0 <= i < |messages| :: messages[i].messageId) == IdSet(ms)
  {
    forall x ensures x in IdSet(ms) ==> exists i :: 0 <= i < |messages| && messages[i].messageId == x {
      if x in IdSet(ms) {
        var m :| m in ms && m.messageId == x;
        var i :| 0 <= i < |ms| && ms[i] == m;
        assert messages[i].messageId == x;
      }
    }
    forall i | 0 <= i < |messages| ensures messages[i].messageId in IdSet(ms) {
      assert ms[i] in ms;
    }
  }

  /** What the loop over the sorted candidates takes is the drain of the mailbox. */
  lemma {:induction false} CollectedIsDrained(unread: seq<string>, lookup: map<string, PeerMessage>, wrap: PeerMessage -> string, maxBytes: nat,
                           messages: seq<Delivery>)
    requires WellKeyed(lookup)
    requires var sorted := MessagesOf(SortCandidates(CandidatesUpTo(unread, lookup, |unread|)));
             && |messages| == Take(sorted, wrap, maxBytes, 0, 0) <= |sorted|
             && forall i :: 0 <= i < |messages| ==> messages[i] == Delivery(sorted[i].messageId, wrap(sorted[i]))
    ensures messages == Deliveries(Drained(unread, lookup, wrap, maxBytes), wrap)
    ensures (set i | 0 <= i < |messages| :: messages[i].messageId) == IdSet(Drained(unread, lookup, wrap, maxBytes))
  {
    CandidatesAreKnown(unread, lookup, |unread|);
    assert unread[..|unread|] == unread;
    SortCandidatesOrders(CandidatesUpTo(unread, lookup, |unread|));
    DrainedIsPrefix(unread, lookup, wrap, maxBytes);
    DeliveredIds(Drained(unread, lookup, wrap, maxBytes), wrap, messages);
  }

  /** Keeping what is neither drained nor orphaned is keeping what the log knows and was not drained. */
  lemma {:induction false} KeptIsRemaining(unread: seq<string>, lookup: map<string, PeerMessage>, drained: set<string>)
    ensures var orphans := set id | id in unread && id !in drained && id !in lookup;
            KeepOnly(unread, (set id | id in unread) - drained - orphans) == KeepOnly(unread, lookup.Keys - drained)
  {
    KeepSame(unread, (set id | id in unread) - drained - (set id | id in unread && id !in drained && id !in lookup), lookup.Keys - drained);
  }

  lemma {:induction false} AllTaken(unread: seq<string>, lookup: map<string, PeerMessage>, wrap: PeerMessage -> string, maxBytes: nat)
    requires WellKeyed(lookup)
    requires var sorted := MessagesOf(SortCandidates(CandidatesUpTo(unread, lookup, |unread|)));
             Take(sorted, wrap, maxBytes, 0, 0) == |sorted|
    ensures Remaining(unread, lookup, wrap, maxBytes) == []
  {
    CandidatesAreKnown(unread, lookup, |unread|);
    assert unread[..|unread|] == unread;
    SortCandidatesOrders(CandidatesUpTo(unread, lookup, |unread|));
    DrainedIsPrefix(unread, lookup, wrap, maxBytes);
    HasMoreMeansUnread(unread, lookup, wrap, maxBytes);
  }

  lemma NothingToDrain(lookup: map<string, PeerMessage>, wrap: PeerMessage -> string, maxBytes: nat)
    ensures Drained([], lookup, wrap, maxBytes) == []
  {
    assert StableSort(Known([], lookup)) == [];
  }

  /** The sessions when these names are still to be reconciled. */
  ghost function ReconciledBut(before: Sessions, names: set<string>, lookup: map<string, PeerMessage>): Sessions {
    map n | n in before :: if n in names then before[n] else ReconcileEntry(before[n], lookup)
  }

  /** Reconciling has changed nothing but perhaps these names. */
  ghost predicate UnchangedBut(before: Sessions, names: set<string>, lookup: map<string, PeerMessage>) {
    forall n :: n in before && n !in names ==> ReconcileEntry(before[n], lookup) == before[n]
  }

  lemma ReconcileStarts(before: Sessions, lookup: map<string, PeerMessage>)
    ensures before == ReconciledBut(before, before.Keys, lookup) && UnchangedBut(before, before.Keys, lookup)
  {
  }

  lemma ReconcileGoesOn(before: Sessions, names: set<string>, name: string, lookup: map<string, PeerMessage>)
    requires name in before && name in names
    ensures var now := ReconciledBut(before, names, lookup);
            now[name] == before[name] && ReconciledBut(before, names - {name}, lookup) == now[name := ReconcileEntry(before[name], lookup)]
    ensures UnchangedBut(before, names - {name}, lookup) <==>
            UnchangedBut(before, names, lookup) && ReconcileEntry(before[name], lookup) == before[name]
  {
    assert name !in names - {name};
  }

  lemma ReconcileEnds(before: Sessions, lookup: map<string, PeerMessage>)
    ensures ReconciledBut(before, {}, lookup) == Reconcile(before, lookup)
    ensures UnchangedBut(before, {}, lookup) <==> Reconcile(before, lookup) == before
  {
  }

  ghost predicate Wrapped(candidates: seq<Candidate>, wrap: PeerMessage -> string, drained: seq<Delivery>) {
    |drained| <= |candidates| && forall j :: 0 <= j < |drained| ==> drained[j] == Delivery(candidates[j].msg.messageId, wrap(candidates[j].msg))
  }

  /** The loop has taken `i` messages with `cumulative` bytes and goes on from there. */
  ghost predicate TakesOn(ms: seq<PeerMessage>, wrap: PeerMessage -> string, maxBytes: nat, i: nat, cumulative: nat) {
    i <= |ms| && Take(ms, wrap, maxBytes, 0, 0) == i + Take(ms[i..], wrap, maxBytes, i, cumulative)
  }

  lemma {:induction false} TakeStep(ms: seq<PeerMessage>, wrap: PeerMessage -> string, maxBytes: nat, i: nat, cumulative: nat)
    requires i < |ms| && TakesOn(ms, wrap, maxBytes, i, cumulative)
    ensures var size := Size(wrap, ms[i]);
            if cumulative + size > maxBytes then Take(ms, wrap, maxBytes, 0, 0) == (if i > 0 then i else 1)
            else TakesOn(ms, wrap, maxBytes, i + 1, cumulative + size)
  {
    assert ms[i..][0] == ms[i] && ms[i..][1..] == ms[i + 1..];
  }

  /** The entry matches the token, and none after it does. */
  ghost predicate LastMatch(sessions: Sessions, order: seq<string>, rawToken: string, entry: SessionEntry) {
    exists i :: 0 <= i < |order| && Authenticates(sessions, order[i], rawToken) && sessions[order[i]] == entry
      && forall j :: i < j < |order| ==> !Authenticates(sessions, order[j], rawToken)
  }

  // ----- What reconciling drops -----

  /** The order in which a map is walked names each of its sessions once. */
  ghost predicate Walks(order: seq<string>, sessions: Sessions) {
    NoDup(order) && forall n :: n in order <==> n in sessions
  }

  /** The ids of one list that the log does not know or files under somebody else, in their order. */
  function DroppedIds(ids: seq<string>, name: string, lookup: map<string, PeerMessage>): seq<string> {
    if ids == [] then []
    else
      var last := ids[|ids| - 1];
      DroppedIds(ids[..|ids| - 1], name, lookup) + if last in AddressedTo(lookup, name) then [] else [last]
  }

  function Dropped(order: seq<string>, sessions: Sessions, lookup: map<string, PeerMessage>): seq<string>
    requires forall n :: n in order ==> n in sessions
  {
    if order == [] then []
    else
      var e := sessions[order[|order| - 1]];
      Dropped(order[..|order| - 1], sessions, lookup) + DroppedIds(e.unreadMessageIds, e.name, lookup)
  }

  /** How many of these ids the log does not know. */
  function Unknown(ids: seq<string>, lookup: map<string, PeerMessage>): nat {
    if ids == [] then 0 else Unknown(ids[..|ids| - 1], lookup) + if ids[|ids| - 1] in lookup then 0 else 1
  }

  lemma {:induction false} UnknownAppend(a: seq<string>, b: seq<string>, lookup: map<string, PeerMessage>)
    ensures Unknown(a + b, lookup) == Unknown(a, lookup) + Unknown(b, lookup)
  {
    if b == [] {
      assert a + b == a;
    } else {
      UnknownAppend(a, b[..|b| - 1], lookup);
      assert (a + b)[..|a + b| - 1] == a + b[..|b| - 1];
    }
  }

  /** The sessions still to come after the first `i`. */
  ghost function Rest(order: seq<string>, i: nat): set<string>
    requires i <= |order|
  {
    set n | n in order[i..]
  }

  lemma RestShrinks(order: seq<string>, i: nat)
    requires i < |order| && NoDup(order)
    ensures order[i] in Rest(order, i) && Rest(order, i + 1) == Rest(order, i) - {order[i]}
  {
    assert order[i..] == [order[i]] + order[i + 1..];
    assert order[i] !in order[i + 1..];
  }

  lemma ReconcileBegins(order: seq<string>, before: Sessions, lookup: map<string, PeerMessage>)
    requires Walks(order, before)
    ensures ReconciledBut(before, Rest(order, 0), lookup) == before && UnchangedBut(before, Rest(order, 0), lookup)
    ensures Reported(order[..0], before, lookup, 0, 0, [])
  {
    assert order[0..] == order && order[..0] == [];
    ReconcileStarts(before, lookup);
    assert Rest(order, 0) == before.Keys;
  }

  const FEW := 5

  function FirstFew(ids: seq<string>): seq<string> {
    if |ids| <= FEW then ids else ids[..FEW]
  }

  lemma FirstFewAppend(a: seq<string>, b: seq<string>)
    ensures FirstFew(FirstFew(a) + b) == FirstFew(a + b)
  {
    if |a| > FEW {
      assert (a[..FEW] + b)[..FEW] == a[..FEW] == (a + b)[..FEW];
    }
  }

  lemma {:induction false} DroppedFilters(ids: seq<string>, name: string, lookup: map<string, PeerMessage>, lost: string -> bool)
    requires forall id :: lost(id) <==> !Filed(lookup, name, id)
    ensures Filtered(DroppedIds(ids, name, lookup), ids, lost)
  {
    if ids != [] {
      var last := |ids| - 1;
      DroppedFilters(ids[..last], name, lookup, lost);
      FilteredSnoc(DroppedIds(ids[..last], name, lookup), ids[..last], ids[last], lost);
      assert ids[..last] + [ids[last]] == ids;
    }
  }

  lemma {:induction false} UnknownCounts(ids: seq<string>, lookup: map<string, PeerMessage>, unknown: string -> bool) returns (orphans: seq<string>)
    requires forall id :: unknown(id) <==> id !in lookup
    ensures Filtered(orphans, ids, unknown) && |orphans| == Unknown(ids, lookup)
  {
    if ids == [] {
      orphans := [];
    } else {
      var init, last := ids[..|ids| - 1], ids[|ids| - 1];
      var rest := UnknownCounts(init, lookup, unknown);
      orphans := rest + if unknown(last) then [last] else [];
      FilteredSnoc(rest, init, last, unknown);
      assert init + [last] == ids;
    }
  }

  /** The lists of the walked sessions, one after the other. */
  function AllUnread(order: seq<string>, sessions: Sessions): seq<string>
    requires forall n :: n in order ==> n in sessions
  {
    if order == [] then [] else AllUnread(order[..|order| - 1], sessions) + sessions[order[|order| - 1]].unreadMessageIds
  }

  lemma {:induction false} ListSplits(ids: seq<string>, name: string, lookup: map<string, PeerMessage>)
    ensures multiset(ids) == multiset(KeepOnly(ids, AddressedTo(lookup, name))) + multiset(DroppedIds(ids, name, lookup))
  {
    KeepOnlyCounts(ids, AddressedTo(lookup, name));
    DroppedFilters(ids, name, lookup, id => !Filed(lookup, name, id));
  }

  /**
   * What is reported is what is gone: the ids of all lists before are those of all lists after and the
   * dropped ones, each as often as it occurs; the orphans are those among the dropped that the log does
   * not know; and the ids named are the first five of the dropped, or all.
   */
  lemma {:induction false} ReportIsWhatIsGone(order: seq<string>, sessions: Sessions, lookup: map<string, PeerMessage>)
    requires forall n :: n in order ==> n in sessions
    ensures var dropped := Dropped(order, sessions, lookup);
            && multiset(AllUnread(order, sessions)) == multiset(AllUnread(order, Reconcile(sessions, lookup))) + multiset(dropped)
            && FirstFew(dropped) <= dropped && |FirstFew(dropped)| == (if |dropped| < 5 then |dropped| else 5)
  {
    if order != [] {
      var n := order[|order| - 1];
      ReportIsWhatIsGone(order[..|order| - 1], sessions, lookup);
      ListSplits(sessions[n].unreadMessageIds, sessions[n].name, lookup);
    }
  }

  class SessionRegistry {
    var sessions: Sessions
    var wakeStates: map<string, WS.WakeState>

    constructor ()
      ensures sessions == map[] && wakeStates == map[]
    {
      sessions, wakeStates := map[], map[];
    }

    /** Registering replaces the entry and starts the wake state anew; a rejection changes nothing. */
    method RegisterSession(name: string, req: RegisterRequest, ttl: nat, clock: Clock, rawToken: string) returns (outcome: RegisterOutcome)
      modifies this
      ensures outcome == Register(Find(old(sessions), name), name, req, ttl, clock, rawToken)
      ensures outcome.Registered? ==> outcome.entry.paneTokenHash == CredentialOf(req.paneToken) && outcome.entry.tokenHash == Sha256(rawToken)
      ensures outcome.Registered? ==> sessions == old(sessions)[name := outcome.entry] && wakeStates == old(wakeStates)[name := WS.FRESH]
      ensures outcome.Rejected? ==> sessions == old(sessions) && wakeStates == old(wakeStates)
    {
      if !IsSessionName(name) {
        return Rejected(InvalidSessionName);
      }
      var existing := Find(sessions, name);
      var preserveExisting := false;
      if existing.Some? {
        if existing.value.paneTokenHash.Some? {
          var hashMatch := req.paneToken.Some? && existing.value.paneTokenHash.value == Sha256(req.paneToken.value);
          if hashMatch {
            preserveExisting := true;
          } else if req.paneToken.None? {
            return Rejected(PaneTokenMissing);
          } else {
            var age := if existing.value.lastSeenAt.At? then clock.age - existing.value.lastSeenAt.ms else 0;
            if ttl == 0 || age < ttl {
              return Rejected(InvalidPaneToken);
            }
          }
        } else {
          preserveExisting := true;
        }
      }
      var newPaneTokenHash := if req.paneToken.Some? then Some(Sha256(req.paneToken.value)) else None;
      var freshRegistrationTime := if existing.Some? && !preserveExisting
                                   then TimeAfter(existing.value.registeredAt, clock.registration)
                                   else At(clock.stamp);
      var entry;
      if preserveExisting && existing.Some? {
        var e := existing.value;
        var surface := ResolveField(req.surfaceId, e.cmuxSurfaceId, true);
        entry := SessionEntry(name, Sha256(rawToken), if newPaneTokenHash.Some? then newPaneTokenHash else e.paneTokenHash,
                              e.registeredAt, At(clock.stamp), e.unreadMessageIds,
                              ResolveField(req.autoWakeKey, e.autoWakeKey, true), surface,
                              ResolveField(req.workspaceId, e.cmuxWorkspaceId, true), surface);
      } else {
        var surface := ResolveField(req.surfaceId, None, false);
        entry := SessionEntry(name, Sha256(rawToken), newPaneTokenHash, freshRegistrationTime, freshRegistrationTime, [],
                              ResolveField(req.autoWakeKey, None, false), surface,
                              ResolveField(req.workspaceId, None, false), surface);
      }
      sessions := sessions[name := entry];
      wakeStates := wakeStates[name := WS.FRESH];
      outcome := Registered(entry);
    }

    /**
     * Finds the last entry, in the order in which the map is walked, whose stored hash is that of the
     * token; a blank hash never matches.
     */
    method Authenticate(rawToken: string, order: seq<string>) returns (matched: Option<SessionEntry>)
      requires forall n :: n in order <==> n in sessions
      ensures matched.Some? <==> exists n :: Authenticates(sessions, n, rawToken)
      ensures matched.Some? ==> LastMatch(sessions, order, rawToken, matched.value)
    {
      matched := None;
      for i := 0 to |order|
        invariant matched.None? ==> forall j :: 0 <= j < i ==> !Authenticates(sessions, order[j], rawToken)
        invariant matched.Some? ==> LastMatch(sessions, order[..i], rawToken, matched.value)
      {
        assert order[..i + 1] == order[..i] + [order[i]];
        var entry := sessions[order[i]];
        var isEmpty := entry.tokenHash == Blank;
        if entry.tokenHash == Sha256(rawToken) && !isEmpty {
          assert Authenticates(sessions, order[..i + 1][i], rawToken);
          matched := Some(entry);
        }
      }
      assert order[..|order|] == order;
      if matched.None? {
        forall n ensures !Authenticates(sessions, n, rawToken) {
          if n in order {
            var j :| 0 <= j < |order| && order[j] == n;
          }
        }
      }
    }

    method TouchSession(name: string, now: int)
      modifies this`sessions
      ensures sessions == Touch(old(sessions), name, now)
    {
      if name in sessions {
        sessions := sessions[name := sessions[name].(lastSeenAt := At(now))];
      }
    }

    /** Appends the id unless the session is missing or its mailbox is full. */
    method AddUnreadId(name: string, messageId: string) returns (added: bool)
      modifies this`sessions
      ensures added <==> name in old(sessions) && |old(sessions)[name].unreadMessageIds| < 10000
      ensures sessions == AddUnread(old(sessions), name, messageId)
    {
      if name !in sessions || |sessions[name].unreadMessageIds| >= PEER_BUS_MAX_UNREAD {
        return false;
      }
      sessions := sessions[name := sessions[name].(unreadMessageIds := sessions[name].unreadMessageIds + [messageId])];
      added := true;
    }

    method Restore(name: string, snapshot: Option<SessionEntry>)
      modifies this
      ensures sessions == RestoreEntry(old(sessions), name, snapshot)
      ensures wakeStates == if snapshot.None? then old(wakeStates) - {name} else old(wakeStates)
    {
      match snapshot
      case None =>
        sessions := sessions - {name};
        wakeStates := wakeStates - {name};
      case Some(e) =>
        sessions := sessions[name := e.(wakeTarget := e.cmuxSurfaceId)];
    }

    method RestoreUnread(name: string, snapshot: seq<string>)
      modifies this`sessions
      ensures sessions == SetUnread(old(sessions), name, snapshot)
    {
      if name in sessions {
        sessions := sessions[name := sessions[name].(unreadMessageIds := snapshot)];
      }
    }

    // ----- Wake states -----

    method GetWakeState(name: string) returns (state: WS.WakeState)
      modifies this`wakeStates
      ensures state == WS.StateOf(old(wakeStates), name)
      ensures wakeStates == old(wakeStates)[name := state]
    {
      if name !in wakeStates {
        wakeStates := wakeStates[name := WS.FRESH];
      }
      state := wakeStates[name];
    }

    method TryConsumeWakeWindow(name: string, now: int, debounceMs: nat) returns (taken: bool)
      modifies this`wakeStates
      ensures var before := WS.StateOf(old(wakeStates), name);
              && (taken <==> before.lastDispatchedAt.None? || now - before.lastDispatchedAt.value >= debounceMs)
              && wakeStates == old(wakeStates)[name := if taken then before.(lastDispatchedAt := Some(now)) else before]
    {
      var state := GetWakeState(name);
      if state.lastDispatchedAt.Some? && now - state.lastDispatchedAt.value < debounceMs {
        return false;
      }
      wakeStates := wakeStates[name := state.(lastDispatchedAt := Some(now))];
      taken := true;
    }

    method IncrementWakeCounter(name: string, which: WS.Counter)
      modifies this`wakeStates
      ensures wakeStates == old(wakeStates)[name := WS.Bump(WS.StateOf(old(wakeStates), name), which)]
    {
      var state := GetWakeState(name);
      wakeStates := wakeStates[name := WS.Bump(state, which)];
    }

    // ----- Draining -----

    /** Returns the greedy prefix of the sorted mailbox and removes it, together with ids that the log does not know. */
    method DrainUnread(name: string, lookup: map<string, PeerMessage>, wrap: PeerMessage -> string, maxBytes: nat)
      returns (messages: seq<Delivery>, hasMore: bool)
      requires WellKeyed(lookup)
      modifies this`sessions
      ensures messages == Deliveries(Drained(UnreadOf(old(sessions), name), lookup, wrap, maxBytes), wrap)
      ensures sessions == SetUnread(old(sessions), name, Remaining(UnreadOf(old(sessions), name), lookup, wrap, maxBytes))
      ensures hasMore <==> UnreadOf(sessions, name) != []
    {
      if name !in sessions {
        NothingToDrain(lookup, wrap, maxBytes);
        return [], false;
      }
      var unread := sessions[name].unreadMessageIds;
      var candidates := Collect(unread, lookup);
      candidates := SortCandidates(candidates);
      var stoppedEarly;
      messages, stoppedEarly := TakePrefix(candidates, wrap, maxBytes);
      CollectedIsDrained(unread, lookup, wrap, maxBytes, messages);
      var drainedIds := set i | 0 <= i < |messages| :: messages[i].messageId;
      var orphanIds := set id | id in unread && id !in drainedIds && id !in lookup;
      var kept := KeepOnly(unread, (set id | id in unread) - drainedIds - orphanIds);
      KeptIsRemaining(unread, lookup, drainedIds);
      sessions := sessions[name := sessions[name].(unreadMessageIds := kept)];
      hasMore := stoppedEarly && kept != [];
      if !stoppedEarly {
        AllTaken(unread, lookup, wrap, maxBytes);
      }
    }

    method Collect(unread: seq<string>, lookup: map<string, PeerMessage>) returns (candidates: seq<Candidate>)
      ensures candidates == CandidatesUpTo(unread, lookup, |unread|)
    {
      candidates := [];
      for i := 0 to |unread|
        invariant candidates == CandidatesUpTo(unread, lookup, i)
      {
        if unread[i] in lookup {
          candidates := candidates + [Candidate(i, lookup[unread[i]])];
        }
      }
    }

    /** The loop over the sorted candidates. */
    method TakePrefix(candidates: seq<Candidate>, wrap: PeerMessage -> string, maxBytes: nat) returns (drained: seq<Delivery>, stoppedEarly: bool)
      ensures |drained| == Take(MessagesOf(candidates), wrap, maxBytes, 0, 0) <= |candidates|
      ensures Wrapped(candidates, wrap, drained)
      ensures !stoppedEarly ==> |drained| == |candidates|
    {
      drained, stoppedEarly := [], false;
      var cumulative: nat := 0;
      ghost var ms := MessagesOf(candidates);
      assert ms[0..] == ms;
      for i := 0 to |candidates|
        invariant |drained| == i && Wrapped(candidates, wrap, drained)
        invariant TakesOn(ms, wrap, maxBytes, i, cumulative)
        invariant cumulative <= maxBytes && !stoppedEarly
      {
        TakeStep(ms, wrap, maxBytes, i, cumulative);
        var wrapped := wrap(candidates[i].msg);
        var size := |Encode(wrapped)|;
        if |drained| > 0 && cumulative + size > maxBytes {
          stoppedEarly := true;
          break;
        }
        drained := drained + [Delivery(candidates[i].msg.messageId, wrapped)];
        cumulative := cumulative + size;
        if cumulative > maxBytes {
          stoppedEarly := true;
          break;
        }
      }
    }

    // ----- The file -----

    /** The payload that a persist writes: the registry at the moment of the call. */
    method Snapshot() returns (payload: map<string, RawValue>)
      ensures payload == Serialise(sessions)
    {
      payload := map n | n in sessions :: Object(SerialiseEntry(sessions[n]));
    }

    method LoadFile(file: File)
      modifies this`sessions
      ensures sessions == if file.Contents? then LoadSessions(file.sessions) else old(sessions)
    {
      if !file.Contents? {
        return;
      }
      sessions := map[];
      var raw := file.sessions;
      var keys := raw.Keys;
      while keys != {}
        invariant keys <= raw.Keys
        invariant sessions == map n | n in raw.Keys - keys && LoadEntry(n, raw[n]).Some? :: LoadEntry(n, raw[n]).value
        decreases |keys|
      {
        var key :| key in keys;
        keys := keys - {key};
        var entry := LoadEntry(key, raw[key]);
        if entry.Some? {
          sessions := sessions[key := entry.value];
        }
      }
    }

    /**
     * Drops the ids that the log does not know or that belong to someone else, counts the two kinds and
     * names the first few, in the order in which the map is walked. Both counts are zero exactly when
     * nothing changed.
     */
    method ReconcileWith(lookup: map<string, PeerMessage>, order: seq<string>)
      returns (orphaned: nat, misrouted: nat, firstFewIds: seq<string>)
      requires Walks(order, sessions)
      modifies this`sessions
      ensures sessions == Reconcile(old(sessions), lookup) && sessions.Keys == old(sessions).Keys
      ensures forall n :: n in sessions ==> Purged(old(sessions)[n], sessions[n], lookup)
      ensures orphaned == Unknown(Dropped(order, old(sessions), lookup), lookup)
      ensures orphaned + misrouted == |Dropped(order, old(sessions), lookup)|
      ensures firstFewIds == FirstFew(Dropped(order, old(sessions), lookup))
      ensures orphaned + misrouted == 0 <==> UnchangedBut(old(sessions), {}, lookup)
    {
      orphaned, misrouted, firstFewIds := 0, 0, [];
      ghost var before := sessions;
      ReconcileBegins(order, before, lookup);
      for i := 0 to |order|
        invariant sessions == ReconciledBut(before, Rest(order, i), lookup)
        invariant orphaned + misrouted == 0 <==> UnchangedBut(before, Rest(order, i), lookup)
        invariant Reported(order[..i], before, lookup, orphaned, misrouted, firstFewIds)
      {
        RestShrinks(order, i);
        ReconcileGoesOn(before, Rest(order, i), order[i], lookup);
        ReportIsShort(order[..i], before, lookup, orphaned, misrouted, firstFewIds);
        var lost, strayed, few := ReconcileSession(order[i], lookup, firstFewIds);
        ReportGoesOn(order, i, before, lookup, orphaned, misrouted, firstFewIds, lost, strayed);
        orphaned, misrouted, firstFewIds := orphaned + lost, misrouted + strayed, few;
      }
      assert order[..|order|] == order;
      assert Rest(order, |order|) == {};
      ReconcileEnds(before, lookup);
      PurgedAll(before, lookup);
    }

    method ReconcileSession(name: string, lookup: map<string, PeerMessage>, seen: seq<string>)
      returns (lost: nat, strayed: nat, firstFewIds: seq<string>)
      requires name in sessions && |seen| <= FEW
      modifies this`sessions
      ensures sessions == old(sessions)[name := ReconcileEntry(old(sessions)[name], lookup)]
      ensures lost + strayed == 0 <==> ReconcileEntry(old(sessions)[name], lookup) == old(sessions)[name]
      ensures var dropped := DroppedIds(old(sessions)[name].unreadMessageIds, old(sessions)[name].name, lookup);
              lost == Unknown(dropped, lookup) && lost + strayed == |dropped| && firstFewIds == FirstFew(seen + dropped)
    {
      var entry := sessions[name];
      var kept;
      kept, lost, strayed, firstFewIds := Sift(entry.unreadMessageIds, entry.name, lookup, seen);
      sessions := sessions[name := entry.(unreadMessageIds := kept)];
    }

    /** The filter over one list. */
    method Sift(ids: seq<string>, name: string, lookup: map<string, PeerMessage>, seen: seq<string>)
      returns (kept: seq<string>, lost: nat, strayed: nat, firstFewIds: seq<string>)
      requires |seen| <= FEW
      ensures kept == KeepOnly(ids, AddressedTo(lookup, name))
      ensures var dropped := DroppedIds(ids, name, lookup);
              lost == Unknown(dropped, lookup) && lost + strayed == |dropped| && firstFewIds == FirstFew(seen + dropped)
      ensures lost + strayed == 0 <==> kept == ids
    {
      kept, lost, strayed, firstFewIds := [], 0, 0, seen;
      SiftStarts(ids, name, lookup, seen);
      for i := 0 to |ids|
        invariant Sifted(ids[..i], name, lookup, seen, kept, lost, strayed, firstFewIds)
      {
        SiftGoesOn(ids, i, name, lookup, seen, kept, lost, strayed, firstFewIds);
        if ids[i] !in lookup {
          lost := lost + 1;
          if |firstFewIds| < FEW {
            firstFewIds := firstFewIds + [ids[i]];
          }
        } else if lookup[ids[i]].to != name {
          strayed := strayed + 1;
          if |firstFewIds| < FEW {
            firstFewIds := firstFewIds + [ids[i]];
          }
        } else {
          kept := kept + [ids[i]];
        }
      }
      SiftEnds(ids, name, lookup, seen, kept, lost, strayed, firstFewIds);
    }
  }

  /** What has been counted and named after these sessions. */
  ghost predicate Reported(order: seq<string>, before: Sessions, lookup: map<string, PeerMessage>, orphaned: nat, misrouted: nat, firstFewIds: seq<string>) {
    && (forall n :: n in order ==> n in before)
    && var dropped := Dropped(order, before, lookup);
    orphaned == Unknown(dropped, lookup) && orphaned + misrouted == |dropped| && firstFewIds == FirstFew(dropped)
  }

  lemma ReportIsShort(order: seq<string>, before: Sessions, lookup: map<string, PeerMessage>, orphaned: nat, misrouted: nat, firstFewIds: seq<string>)
    requires Reported(order, before, lookup, orphaned, misrouted, firstFewIds)
    ensures |firstFewIds| <= FEW
  {
  }

  lemma {:induction false} ReportGoesOn(order: seq<string>, i: nat, before: Sessions, lookup: map<string, PeerMessage>,
                      orphaned: nat, misrouted: nat, firstFewIds: seq<string>, lost: nat, strayed: nat)
    requires i < |order| && order[i] in before && Reported(order[..i], before, lookup, orphaned, misrouted, firstFewIds)
    requires var more := DroppedIds(before[order[i]].unreadMessageIds, before[order[i]].name, lookup);
             lost == Unknown(more, lookup) && lost + strayed == |more|
    ensures var more := DroppedIds(before[order[i]].unreadMessageIds, before[order[i]].name, lookup);
            Reported(order[..i + 1], before, lookup, orphaned + lost, misrouted + strayed, FirstFew(firstFewIds + more))
  {
    var more := DroppedIds(before[order[i]].unreadMessageIds, before[order[i]].name, lookup);
    DroppedNext(order, i, before, lookup);
    UnknownAppend(Dropped(order[..i], before, lookup), more, lookup);
    FirstFewAppend(Dropped(order[..i], before, lookup), more);
  }

  lemma {:induction false} DroppedNext(order: seq<string>, i: nat, before: Sessions, lookup: map<string, PeerMessage>)
    requires i < |order| && order[i] in before && forall n :: n in order[..i] ==> n in before
    ensures forall n :: n in order[..i + 1] ==> n in before
    ensures Dropped(order[..i + 1], before, lookup)
         == Dropped(order[..i], before, lookup) + DroppedIds(before[order[i]].unreadMessageIds, before[order[i]].name, lookup)
  {
    assert order[..i + 1] == order[..i] + [order[i]];
    assert order[..i + 1][..i] == order[..i];
  }

  /** What the filter has kept, counted and named after these ids. */
  ghost predicate Sifted(ids: seq<string>, name: string, lookup: map<string, PeerMessage>, seen: seq<string>,
                         kept: seq<string>, lost: nat, strayed: nat, firstFewIds: seq<string>) {
    var dropped := DroppedIds(ids, name, lookup);
    && kept == KeepOnly(ids, AddressedTo(lookup, name)) && |kept| + |dropped| == |ids|
    && lost == Unknown(dropped, lookup) && lost + strayed == |dropped| && firstFewIds == FirstFew(seen + dropped)
  }

  function Push(few: seq<string>, id: string): seq<string> {
    if |few| < FEW then few + [id] else few
  }

  lemma FirstFewPush(ids: seq<string>, id: string)
    ensures FirstFew(ids + [id]) == Push(FirstFew(ids), id)
  {
  }

  lemma SiftGoesOn(ids: seq<string>, i: nat, name: string, lookup: map<string, PeerMessage>, seen: seq<string>,
                   kept: seq<string>, lost: nat, strayed: nat, firstFewIds: seq<string>)
    requires i < |ids| && Sifted(ids[..i], name, lookup, seen, kept, lost, strayed, firstFewIds)
    ensures var id, next := ids[i], ids[..i + 1];
            if id !in lookup then Sifted(next, name, lookup, seen, kept, lost + 1, strayed, Push(firstFewIds, id))
            else if lookup[id].to != name then Sifted(next, name, lookup, seen, kept, lost, strayed + 1, Push(firstFewIds, id))
            else Sifted(next, name, lookup, seen, kept + [id], lost, strayed, firstFewIds)
  {
    assert ids[..i + 1] == ids[..i] + [ids[i]];
    KeepOnlyAppend(ids[..i], ids[i], AddressedTo(lookup, name));
    assert ids[..i + 1][..i] == ids[..i];
    var before := DroppedIds(ids[..i], name, lookup);
    assert (before + [ids[i]])[..|before|] == before && before + [] == before;
    FirstFewPush(seen + before, ids[i]);
    assert seen + (before + [ids[i]]) == (seen + before) + [ids[i]];
  }

  lemma SiftStarts(ids: seq<string>, name: string, lookup: map<string, PeerMessage>, seen: seq<string>)
    requires |seen| <= FEW
    ensures Sifted(ids[..0], name, lookup, seen, [], 0, 0, seen)
  {
    assert ids[..0] == [];
    assert seen + DroppedIds([], name, lookup) == seen;
  }

  lemma SiftEnds(ids: seq<string>, name: string, lookup: map<string, PeerMessage>, seen: seq<string>,
                 kept: seq<string>, lost: nat, strayed: nat, firstFewIds: seq<string>)
    requires Sifted(ids[..|ids|], name, lookup, seen, kept, lost, strayed, firstFewIds)
    ensures Sifted(ids, name, lookup, seen, kept, lost, strayed, firstFewIds) && (lost + strayed == 0 <==> kept == ids)
  {
    assert ids[..|ids|] == ids;
    KeptSame(ids, AddressedTo(lookup, name));
  }

  lemma {:induction false} KeptSame(ids: seq<string>, keep: set<string>)
    ensures |KeepOnly(ids, keep)| == |ids| <==> KeepOnly(ids, keep) == ids
  {
    if ids != [] {
      KeptSame(ids[1..], keep);
    }
  }

  /**
   * A registration whose persist fails leaves the wake state reset: `register` has already replaced
   * it and `restoreEntry` does not bring it back. The debounce window survives only if it was fresh.
   */
  method FailedReregistration(registry: SessionRegistry, name: string, req: RegisterRequest, ttl: nat, clock: Clock, rawToken: string)
    requires name in registry.sessions && registry.sessions[name].wakeTarget == registry.sessions[name].cmuxSurfaceId
    modifies registry
    ensures registry.sessions == old(registry.sessions)
    ensures Register(Some(old(registry.sessions)[name]), name, req, ttl, clock, rawToken).Registered? ==>
              (WS.StateOf(registry.wakeStates, name) == WS.StateOf(old(registry.wakeStates), name)
               <==> WS.StateOf(old(registry.wakeStates), name) == WS.FRESH)
  {
    var snapshot := SnapshotEntry(registry.sessions, name);
    var outcome := registry.RegisterSession(name, req, ttl, clock, rawToken);
    if outcome.Registered? {
      RestoreUndoes(old(registry.sessions), name, outcome.entry);
      registry.Restore(name, snapshot);
    }
  }
}
