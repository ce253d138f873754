/**
 * The critical sections of src/server/tools/peer-bus.ts as they run when nothing interrupts them, on the
 * registry and log objects, each tied to the events of the step system that stand for it.
 */
module PeerBusTools {
  import opened Prelude
  import opened MessageStore
  import opened Envelope
  import opened Registry
  import opened PeerBus
  import opened PeerBusTheorems
  import SR = SessionRegistry

  datatype SendOutcome = Sent | MailboxFull | Failed

  /** The events of a send that has its locks: refused or, after append and index, committed or rolled back. */
  ghost function SendRun(s: Bus, c: CallId, now: int, later: int, appends: bool, persists: bool): Bus
    requires SendReady(s, c)
  {
    if !CanAddUnread(s.sessions, s.calls[c].msg.to) || !appends then Apply(s, SendRefuse(c, false))
    else
      var indexed := Apply(Apply(s, SendAppend(c)), SendIndex(c, now, later));
      Apply(indexed, if persists then SendCommit(c) else SendRollback(c))
  }

  lemma SendRunParts(s: Bus, c: CallId, now: int, later: int, appends: bool, persists: bool)
    requires SendReady(s, c)
    ensures var m := s.calls[c].msg;
            var t := SendRun(s, c, now, later, appends, persists);
            var added := Touch(Touch(AddUnread(s.sessions, m.to, c), m.from, now), m.to, later);
            && t.log == (if CanAddUnread(s.sessions, m.to) && appends then s.log + [m] else s.log)
            && t.sessions == (if !CanAddUnread(s.sessions, m.to) || !appends then s.sessions
                              else if persists then added else SetUnread(added, m.to, UnreadOf(s.sessions, m.to)))
  {
    var m := s.calls[c].msg;
    if !CanAddUnread(s.sessions, m.to) || !appends {
      EndSendParts(s, c, m);
    } else {
      var i := Index(AppendMessage(s, c), c, now, later);
      if persists {
        var l := LedgerOf(i, m.to);
        EndSendParts(Enter(i, m.to, l.(sent := l.sent + multiset{c})), c, m);
      } else {
        EndSendParts(i.(sessions := SetUnread(i.sessions, m.to, UnreadOf(s.sessions, m.to))), c, m);
      }
    }
  }

  /**
   * Capacity check, snapshot, append, index, persist; a failed persist restores the recipient's list.
   * Unless the message was sent, every unread list is as before.
   */
  method SendMessage(registry: SR.SessionRegistry, store: MessageStore, msg: PeerMessage,
                     now: int, later: int, appends: bool, persists: bool, ghost s: Bus)
    returns (outcome: SendOutcome)
    requires SendReady(s, msg.messageId) && s.calls[msg.messageId].msg == msg
    requires registry.sessions == s.sessions && store.records == s.log
    modifies registry`sessions, store
    ensures registry.sessions == SendRun(s, msg.messageId, now, later, appends, persists).sessions
    ensures store.records == SendRun(s, msg.messageId, now, later, appends, persists).log
    ensures outcome.MailboxFull? <==> msg.to !in s.sessions || |s.sessions[msg.to].unreadMessageIds| >= 10000
    ensures outcome.Sent? <==> !outcome.MailboxFull? && appends && persists
    ensures UnreadOf(registry.sessions, msg.to) == UnreadOf(s.sessions, msg.to) + if outcome.Sent? then [msg.messageId] else []
  {
    SendRunParts(s, msg.messageId, now, later, appends, persists);
    if msg.to !in registry.sessions || |registry.sessions[msg.to].unreadMessageIds| >= PEER_BUS_MAX_UNREAD {
      return MailboxFull;
    }
    var recipientSnapshot := registry.sessions[msg.to].unreadMessageIds;
    if !appends {
      return Failed;
    }
    store.Append(msg);
    var added := registry.AddUnreadId(msg.to, msg.messageId);
    registry.TouchSession(msg.from, now);
    registry.TouchSession(msg.to, later);
    if !persists {
      registry.RestoreUnread(msg.to, recipientSnapshot);
      return Failed;
    }
    outcome := Sent;
  }

  /** What the events of a read do, one by one. */
  lemma ReadEvents(s: Bus, c: CallId, now: int)
    requires c in s.calls && s.calls[c].ReadLocking? && Heads(s, s.calls[c].name, c)
    ensures Enabled(s, ReadLoad(c)) && Apply(s, ReadLoad(c)) == StartLoading(s, c)
    ensures var loading := StartLoading(s, c);
            && Enabled(loading, ReadAbort(c)) && Apply(loading, ReadAbort(c)) == Finish(loading, c, s.calls[c].name)
            && Enabled(loading, ReadDrain(c, |s.log|, now))
            && Apply(loading, ReadDrain(c, |s.log|, now)) == DrainMailbox(loading, c, |s.log|, now)
  {
  }

  lemma ReadEnds(d: Bus, c: CallId)
    requires c in d.calls && d.calls[c].ReadPersisting?
    ensures Enabled(d, ReadCommit(c)) && Apply(d, ReadCommit(c)) == CommitRead(d, c)
    ensures Enabled(d, ReadRollback(c)) && Apply(d, ReadRollback(c)) == RollBackRead(d, c)
  {
  }

  /** The events of a read that has its lock: loaded, drained, then committed or rolled back. */
  ghost function ReadRun(s: Bus, c: CallId, now: int, loads: bool, persists: bool): Bus
    requires c in s.calls && s.calls[c].ReadLocking? && Heads(s, s.calls[c].name, c)
  {
    ReadEvents(s, c, now);
    var loading := Apply(s, ReadLoad(c));
    if !loads then Apply(loading, ReadAbort(c))
    else
      var drained := Apply(loading, ReadDrain(c, |s.log|, now));
      ReadEnds(drained, c);
      Apply(drained, if persists then ReadCommit(c) else ReadRollback(c))
  }

  lemma DrainedParts(s: Bus, c: CallId, now: int)
    requires c in s.calls && s.calls[c].ReadLocking?
    ensures var n := s.calls[c].name;
            var unread := UnreadOf(s.sessions, n);
            var d := DrainMailbox(StartLoading(s, c), c, |s.log|, now);
            && d.sessions == Touch(SetUnread(s.sessions, n, RemainingFrom(unread, Lookup(s.log))), n, now)
            && c in d.calls && d.calls[c].ReadPersisting? && d.calls[c].name == n && d.calls[c].before == unread
  {
    assert s.log[..|s.log|] == s.log;
  }

  lemma ReadRunParts(s: Bus, c: CallId, now: int, loads: bool, persists: bool)
    requires c in s.calls && s.calls[c].ReadLocking? && Heads(s, s.calls[c].name, c)
    ensures var n := s.calls[c].name;
            var unread := UnreadOf(s.sessions, n);
            var drained := Touch(SetUnread(s.sessions, n, RemainingFrom(unread, Lookup(s.log))), n, now);
            ReadRun(s, c, now, loads, persists).sessions ==
            if !loads then s.sessions else if persists then drained else SetUnread(drained, n, unread)
  {
    var n := s.calls[c].name;
    ReadEvents(s, c, now);
    DrainedParts(s, c, now);
    var d := DrainMailbox(StartLoading(s, c), c, |s.log|, now);
    ReadEnds(d, c);
    if loads {
      if persists {
        var l := LedgerOf(d, n);
        FinishParts(Enter(d, n, l.(returned := l.returned + multiset(d.calls[c].drained))), c, n);
      } else {
        FinishParts(d.(sessions := SetUnread(d.sessions, n, d.calls[c].before)), c, n);
      }
    } else {
      FinishParts(StartLoading(s, c), c, n);
    }
  }

  /** Load the log, drain, persist; a failed persist puts the drained ids back. */
  method ReadMessages(registry: SR.SessionRegistry, store: MessageStore, name: string,
                      now: int, loads: bool, persists: bool, ghost s: Bus, ghost c: CallId)
    returns (answer: Option<(seq<SR.Delivery>, bool)>)
    requires c in s.calls && s.calls[c].ReadLocking? && s.calls[c].name == name && Heads(s, name, c)
    requires registry.sessions == s.sessions && store.records == s.log
    modifies registry`sessions
    ensures registry.sessions == ReadRun(s, c, now, loads, persists).sessions
    ensures answer.Some? <==> loads && persists
    ensures answer.Some? ==>
              && answer.value.0 == SR.Deliveries(DrainedFrom(UnreadOf(s.sessions, name), Lookup(s.log)), WrapEnvelope)
              && (answer.value.1 <==> UnreadOf(registry.sessions, name) != [])
    ensures answer.None? ==> UnreadOf(registry.sessions, name) == UnreadOf(s.sessions, name)
  {
    ReadRunParts(s, c, now, loads, persists);
    if !loads {
      return None;
    }
    var messageLookup := store.LoadAll();
    var snapshot := if name in registry.sessions then Some(registry.sessions[name].unreadMessageIds) else None;
    var messages, hasMore := registry.DrainUnread(name, messageLookup, WrapEnvelope, PEER_BUS_MAX_RESPONSE_BYTES);
    registry.TouchSession(name, now);
    if !persists {
      if snapshot.Some? {
        registry.RestoreUnread(name, snapshot.value);
      }
      return None;
    }
    answer := Some((messages, hasMore));
  }

  /** The events of a registration that has its lock: rejected, or accepted and then committed or rolled back. */
  ghost function RegisterRun(s: Bus, c: CallId, clock: Clock, persists: bool): Bus
    requires c in s.calls && s.calls[c].RegisterLocking? && Heads(s, s.calls[c].name, c)
  {
    var run := RunRegister(s, c, clock);
    if c !in run.calls then run else if persists then CommitRegister(run, c) else RollBackRegister(run, c)
  }

  /** Snapshot, register, persist; a failed persist restores the entry in every field. */
  method RegisterTool(registry: SR.SessionRegistry, name: string, req: RegisterRequest, ttl: nat, clock: Clock, token: string,
                      persists: bool, ghost s: Bus)
    returns (answer: Option<SessionEntry>)
    requires token in s.calls && s.calls[token] == RegisterLocking(name, req, ttl) && Heads(s, name, token)
    requires registry.sessions == s.sessions
    requires name in s.sessions ==> s.sessions[name].wakeTarget == s.sessions[name].cmuxSurfaceId
    modifies registry
    ensures registry.sessions == RegisterRun(s, token, clock, persists).sessions
    ensures answer.Some? ==> registry.sessions == s.sessions[name := answer.value] && Authenticates(registry.sessions, name, token)
    ensures answer.Some? ==> answer.value.paneTokenHash == CredentialOf(req.paneToken)
    ensures answer.None? ==> registry.sessions == s.sessions
    ensures answer.Some? <==> persists && Register(Find(s.sessions, name), name, req, ttl, clock, token).Registered?
  {
    var snapshot := SnapshotEntry(registry.sessions, name);
    var outcome := registry.RegisterSession(name, req, ttl, clock, token);
    if outcome.Rejected? {
      return None;
    }
    if !persists {
      RestoreUndoes(s.sessions, name, outcome.entry);
      registry.Restore(name, snapshot);
      return None;
    }
    answer := Some(outcome.entry);
  }
}
