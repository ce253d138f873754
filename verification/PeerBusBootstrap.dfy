/** Start-up of the peer bus (src/core/peer-bus-bootstrap.ts) over the registry and log objects. */
module PeerBusBootstrap {
  import opened RegistryFile
  import MS = MessageStore
  import SR = SessionRegistry
  import PeerBus

  function SessionsOf(file: File): map<string, RawValue> {
    if file.Contents? then file.sessions else map[]
  }

  /**
   * Load, reconcile against the log, persist. The registry is the one that the step system starts from
   * after the same file and log, `written` is what reaches the disk, the report counts and names what was
   * dropped in the order in which the map is walked, and it is empty exactly when every stored unread id
   * named a logged message to its session. Of every list just those ids stay (`Purged`).
   */
  method BootstrapPeerBus(file: File, store: MS.MessageStore, order: seq<string>)
    returns (registry: SR.SessionRegistry, orphaned: nat, misrouted: nat, firstFewIds: seq<string>, written: map<string, RawValue>)
    requires SR.Walks(order, LoadSessions(SessionsOf(file)))
    ensures fresh(registry)
    ensures registry.sessions == PeerBus.Boot(SessionsOf(file), store.records, {}).sessions
    ensures registry.sessions.Keys == LoadSessions(SessionsOf(file)).Keys
    ensures forall n :: n in registry.sessions ==> Purged(LoadSessions(SessionsOf(file))[n], registry.sessions[n], MS.Lookup(store.records))
    ensures written == Serialise(registry.sessions)
    ensures var dropped := SR.Dropped(order, LoadSessions(SessionsOf(file)), MS.Lookup(store.records));
            orphaned == SR.Unknown(dropped, MS.Lookup(store.records)) && orphaned + misrouted == |dropped| && firstFewIds == SR.FirstFew(dropped)
    ensures orphaned + misrouted == 0 <==> Routed(LoadSessions(SessionsOf(file)), MS.Lookup(store.records))
  {
    registry := new SR.SessionRegistry();
    registry.LoadFile(file);
    ghost var loaded := registry.sessions;
    assert loaded == LoadSessions(SessionsOf(file)) by {
      if !file.Contents? {
        assert LoadSessions(map[]) == map[];
      }
    }
    var lookup := store.LoadAll();
    orphaned, misrouted, firstFewIds := registry.ReconcileWith(lookup, order);
    SR.ReconcileEnds(loaded, lookup);
    ReconcileRoutes(loaded, lookup);
    written := registry.Snapshot();
  }
}
