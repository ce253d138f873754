/** registry.json: `persist`, `load` and `reconcile` of src/core/session-registry.ts. */
module RegistryFile {
  import opened Prelude
  import opened Names
  import opened MessageStore
  import opened Registry

  /** A JSON field that should hold a string: it does, or it is absent or of another type. */
  datatype Raw<T> = Str(value: T) | Other

  datatype RawList = Items(items: seq<Raw<string>>) | NotAList

  datatype RawEntry = RawEntry(
    name: Raw<string>,
    tokenHash: Raw<Digest>,
    paneTokenHash: Raw<Digest>,
    registeredAt: Raw<Timestamp>,
    lastSeenAt: Raw<Timestamp>,
    unreadMessageIds: RawList,
    autoWakeKey: Raw<string>,
    cmuxSurfaceId: Raw<string>,
    cmuxWorkspaceId: Raw<string>)

  datatype RawValue = Object(entry: RawEntry) | NotAnObject

  /** No file, a file without a sessions object, or the members of that object. */
  datatype File = Missing | Unusable | Contents(sessions: map<string, RawValue>)

  // ----- Writing -----

  function Opt<T>(value: Option<T>): Raw<T> {
    match value
    case None => Other
    case Some(v) => Str(v)
  }

  function Strings(xs: seq<string>): (r: seq<Raw<string>>)
    ensures |r| == |xs|
  {
    if xs == [] then [] else [Str(xs[0])] + Strings(xs[1..])
  }

  function SerialiseEntry(e: SessionEntry): RawEntry {
    RawEntry(Str(e.name), Str(e.tokenHash), Opt(e.paneTokenHash), Str(e.registeredAt), Str(e.lastSeenAt),
      Items(Strings(e.unreadMessageIds)), Opt(e.autoWakeKey), Opt(e.cmuxSurfaceId), Opt(e.cmuxWorkspaceId))
  }

  function Serialise(sessions: Sessions): map<string, RawValue> {
    map n | n in sessions :: Object(SerialiseEntry(sessions[n]))
  }

  // ----- Reading -----

  function OnlyStrings(items: seq<Raw<string>>): seq<string> {
    if items == [] then []
    else if items[0].Str? then [items[0].value] + OnlyStrings(items[1..])
    else OnlyStrings(items[1..])
  }

  function Validated(raw: Raw<string>, valid: bool): Option<string> {
    if raw.Str? && valid then Some(raw.value) else None
  }

  /** One member of the sessions object: skipped, or cleaned of whatever does not validate. */
  function LoadEntry(key: string, value: RawValue): Option<SessionEntry> {
    if !IsSessionName(key) || value.NotAnObject? then None
    else
      var e := value.entry;
      if !e.name.Str? || !e.registeredAt.Str? || !e.lastSeenAt.Str? || !e.unreadMessageIds.Items? || e.name.value != key then None
      else
        var surface := Validated(e.cmuxSurfaceId, e.cmuxSurfaceId.Str? && IsSurfaceId(e.cmuxSurfaceId.value));
        Some(SessionEntry(
          key,
          Blank,
          if e.paneTokenHash.Str? && e.paneTokenHash.value != Blank then Some(e.paneTokenHash.value) else None,
          e.registeredAt.value,
          e.lastSeenAt.value,
          OnlyStrings(e.unreadMessageIds.items),
          Validated(e.autoWakeKey, e.autoWakeKey.Str? && IsAutoWakeKey(e.autoWakeKey.value)),
          surface,
          Validated(e.cmuxWorkspaceId, e.cmuxWorkspaceId.Str? && IsWorkspaceId(e.cmuxWorkspaceId.value)),
          surface))
  }

  function LoadSessions(raw: map<string, RawValue>): Sessions {
    map n | n in raw && LoadEntry(n, raw[n]).Some? :: LoadEntry(n, raw[n]).value
  }

  lemma {:induction false} StringsReadBack(xs: seq<string>)
    ensures OnlyStrings(Strings(xs)) == xs
  {
    if xs != [] {
      StringsReadBack(xs[1..]);
      assert Strings(xs)[1..] == Strings(xs[1..]);
    }
  }

  /** The fields of an entry pass the checks that loading makes. */
  predicate Loadable(key: string, e: SessionEntry) {
    && IsSessionName(key) && e.name == key
    && e.paneTokenHash != Some(Blank)
    && (e.autoWakeKey.Some? ==> IsAutoWakeKey(e.autoWakeKey.value))
    && (e.cmuxSurfaceId.Some? ==> IsSurfaceId(e.cmuxSurfaceId.value))
    && (e.cmuxWorkspaceId.Some? ==> IsWorkspaceId(e.cmuxWorkspaceId.value))
    && e.wakeTarget == e.cmuxSurfaceId
  }

  /** Writing an entry and reading it back gives the entry with a blank session token, exactly when its fields validate. */
  lemma EntryRoundTrip(key: string, e: SessionEntry)
    ensures LoadEntry(key, Object(SerialiseEntry(e))) == Some(e.(tokenHash := Blank)) <==> Loadable(key, e)
  {
    StringsReadBack(e.unreadMessageIds);
  }

  function BlankTokens(sessions: Sessions): Sessions {
    map n | n in sessions :: sessions[n].(tokenHash := Blank)
  }

  ghost predicate AllLoadable(sessions: Sessions) {
    forall n :: n in sessions ==> Loadable(n, sessions[n])
  }

  lemma LoadedAt(sessions: Sessions, n: string)
    requires n in sessions
    ensures Find(LoadSessions(Serialise(sessions)), n) == LoadEntry(n, Object(SerialiseEntry(sessions[n])))
  {
    assert Serialise(sessions)[n] == Object(SerialiseEntry(sessions[n]));
  }

  /** `load` after `persist` is the identity but for the session tokens, exactly when every entry validates. */
  lemma RegistryRoundTrip(sessions: Sessions)
    ensures LoadSessions(Serialise(sessions)) == BlankTokens(sessions) <==> AllLoadable(sessions)
  {
    var loaded, blank := LoadSessions(Serialise(sessions)), BlankTokens(sessions);
    forall n | n in sessions ensures Find(loaded, n) == Find(blank, n) <==> Loadable(n, sessions[n]) {
      LoadedAt(sessions, n);
      EntryRoundTrip(n, sessions[n]);
    }
    assert loaded.Keys <= sessions.Keys == blank.Keys;
    if AllLoadable(sessions) {
      forall n | n in blank ensures n in loaded && loaded[n] == blank[n] {
        assert Find(loaded, n) == Find(blank, n);
      }
    }
  }

  // ----- Reconciling with the log -----

  /** The ids of the log's messages for `name`. */
  function AddressedTo(lookup: map<string, PeerMessage>, name: string): set<string> {
    set id | id in lookup && lookup[id].to == name
  }

  function ReconcileEntry(e: SessionEntry, lookup: map<string, PeerMessage>): SessionEntry {
    e.(unreadMessageIds := KeepOnly(e.unreadMessageIds, AddressedTo(lookup, e.name)))
  }

  function Reconcile(sessions: Sessions, lookup: map<string, PeerMessage>): Sessions {
    map n | n in sessions :: ReconcileEntry(sessions[n], lookup)
  }

  /** Every unread id names a logged message to that session. */
  ghost predicate Routed(sessions: Sessions, lookup: map<string, PeerMessage>) {
    forall n, id :: n in sessions && id in sessions[n].unreadMessageIds ==> id in lookup && lookup[id].to == sessions[n].name
  }

  lemma ReconcileRoutes(sessions: Sessions, lookup: map<string, PeerMessage>)
    ensures Routed(Reconcile(sessions, lookup), lookup)
    ensures Reconcile(sessions, lookup) == sessions <==> Routed(sessions, lookup)
  {
    var r := Reconcile(sessions, lookup);
    forall n | n in sessions
      ensures forall id :: id in r[n].unreadMessageIds ==> id in lookup && lookup[id].to == r[n].name
    {
      KeepOnlyMembers(sessions[n].unreadMessageIds, AddressedTo(lookup, sessions[n].name));
    }
    if Routed(sessions, lookup) {
      forall n | n in sessions ensures r[n] == sessions[n] {
        KeepOnlyAll(sessions[n].unreadMessageIds, AddressedTo(lookup, sessions[n].name));
      }
    }
  }

  /** The log files the id under this name. */
  predicate Filed(lookup: map<string, PeerMessage>, name: string, id: string) {
    id in lookup && lookup[id].to == name
  }

  /**
   * Of the list just the ids that the log files under the session stay, as often as they were there and
   * in their order, and nothing else of the entry changes.
   */
  ghost predicate Purged(before: SessionEntry, after: SessionEntry, lookup: map<string, PeerMessage>) {
    && Filtered(after.unreadMessageIds, before.unreadMessageIds, id => Filed(lookup, before.name, id))
    && after == before.(unreadMessageIds := after.unreadMessageIds)
  }

  /** Reconciling loses nothing that belongs. */
  lemma ReconcileKeeps(sessions: Sessions, lookup: map<string, PeerMessage>, n: string)
    requires n in sessions
    ensures n in Reconcile(sessions, lookup) && Purged(sessions[n], Reconcile(sessions, lookup)[n], lookup)
  {
    var before := sessions[n];
    KeepOnlyFilters(before.unreadMessageIds, AddressedTo(lookup, before.name), id => Filed(lookup, before.name, id));
  }

  lemma PurgedAll(sessions: Sessions, lookup: map<string, PeerMessage>)
    ensures Reconcile(sessions, lookup).Keys == sessions.Keys
    ensures forall n :: n in sessions ==> Purged(sessions[n], Reconcile(sessions, lookup)[n], lookup)
  {
    forall n | n in sessions ensures Purged(sessions[n], Reconcile(sessions, lookup)[n], lookup) {
      ReconcileKeeps(sessions, lookup, n);
    }
  }

  // ----- What loading reads out of a member -----

  /** The member can be used at all. */
  predicate Usable(n: string, value: RawValue) {
    && IsSessionName(n) && value.Object?
    && value.entry.name == Str(n) && value.entry.registeredAt.Str? && value.entry.lastSeenAt.Str? && value.entry.unreadMessageIds.Items?
  }

  /** An optional field is read exactly when it holds a string of its format. */
  ghost predicate Reads(field: Option<string>, raw: Raw<string>, valid: string -> bool) {
    forall v :: field == Some(v) <==> raw == Str(v) && valid(v)
  }

  lemma {:induction false} OnlyStringsFilters(items: seq<Raw<string>>, isString: Raw<string> -> bool)
    requires forall r :: isString(r) <==> r.Str?
    ensures Filtered(Strings(OnlyStrings(items)), items, isString)
  {
    if items != [] {
      OnlyStringsFilters(items[1..], isString);
      var rest := Strings(OnlyStrings(items[1..]));
      FilteredCons(items[0], rest, items[1..], isString);
      assert [items[0]] + items[1..] == items;
      assert [] + rest == rest;
    }
  }

  /**
   * Loading keeps just the usable members. Of each it keeps the strings among the unread ids in their
   * order, its owner unless blank, and just those optional fields that hold what they should; a field
   * that does not costs nothing else. Session tokens never survive.
   */
  lemma LoadReads(raw: map<string, RawValue>, n: string)
    ensures n in LoadSessions(raw) <==> n in raw && Usable(n, raw[n])
    ensures n in LoadSessions(raw) ==>
              var e, member := LoadSessions(raw)[n], raw[n].entry;
              && e.name == n && e.tokenHash == Blank
              && Filtered(Strings(e.unreadMessageIds), member.unreadMessageIds.items, (r: Raw<string>) => r.Str?)
              && Str(e.registeredAt) == member.registeredAt && Str(e.lastSeenAt) == member.lastSeenAt
              && (forall h :: e.paneTokenHash == Some(h) <==> member.paneTokenHash == Str(h) && h != Blank)
              && Reads(e.autoWakeKey, member.autoWakeKey, IsAutoWakeKey)
              && Reads(e.cmuxSurfaceId, member.cmuxSurfaceId, IsSurfaceId)
              && Reads(e.cmuxWorkspaceId, member.cmuxWorkspaceId, IsWorkspaceId)
              && e.wakeTarget == e.cmuxSurfaceId
  {
    if n in raw && Usable(n, raw[n]) {
      OnlyStringsFilters(raw[n].entry.unreadMessageIds.items, (r: Raw<string>) => r.Str?);
    }
  }
}
