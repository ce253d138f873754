/** The dispatcher object of src/core/wake-dispatcher.ts, one dispatch run from start to end. */
module WakeDispatcher {
  import opened Prelude
  import opened WakeState
  import SR = SessionRegistry
  import WD = WakeDispatch

  datatype Reason = Debounce | PaneStateUnsafe | KeyNoLongerInAllowlist | ProbeDisabled

  /** What the backend says of the pane: safe, unsafe (or that it does not probe), or an exception. */
  datatype Probe = Safe | Unsafe(disabled: bool) | Threw

  datatype Outcome = OptedOut | Held(reason: Reason) | Woken | SendFailed

  datatype AuditEntry = WakeSuppressed(target: string, key: string, messageId: string, why: Reason)
                      | WakeDispatched(target: string, key: string, messageId: string, ok: bool)

  /** Keys typed into a pane. */
  datatype Keys = Keys(pane: string, command: string)

  function CounterOf(o: Outcome): Counter
    requires !o.OptedOut?
  {
    match o
    case Held(_) => Suppressed
    case Woken => Dispatched
    case SendFailed => Failed
  }

  /** Only a dispatch that claimed the window has moved the debounce timestamp, sent or not. */
  function StateAfter(state: WakeState, o: Outcome, now: int): WakeState {
    match o
    case OptedOut => state
    case Held(_) => Bump(state, Suppressed)
    case _ => Bump(state.(lastDispatchedAt := Some(now)), CounterOf(o))
  }

  function AuditOf(o: Outcome, target: string, key: string, messageId: string): AuditEntry
    requires !o.OptedOut?
  {
    if o.Held? then WakeSuppressed(target, key, messageId, o.reason) else WakeDispatched(target, key, messageId, o.Woken?)
  }

  class WakeDispatcher {
    const registry: SR.SessionRegistry
    const allowedCommands: map<string, string>
    const debounceMs: nat
    var audit: seq<AuditEntry>
    var typed: seq<Keys>

    constructor (registry: SR.SessionRegistry, allowedCommands: map<string, string>, debounceMs: nat)
      ensures this.registry == registry && this.allowedCommands == allowedCommands && this.debounceMs == debounceMs
      ensures audit == [] && typed == []
    {
      this.registry, this.allowedCommands, this.debounceMs := registry, allowedCommands, debounceMs;
      audit, typed := [], [];
    }

    /**
     * One dispatch: the probe, the backend's answer to the keys and whether the audit sink works are
     * the caller's choice. Keys are typed exactly when the recipient opted in with a key on the
     * allowlist, its pane is safe and the window is open, and then they are that key's command.
     */
    method MaybeDispatch(target: string, messageId: string, now: int, probe: Probe, sends: bool, sinkWorks: bool)
      returns (outcome: Outcome)
      modifies this, registry`wakeStates
      ensures outcome.OptedOut? <==> target !in registry.sessions || registry.sessions[target].autoWakeKey.None?
      ensures !outcome.OptedOut? ==>
                var key := registry.sessions[target].autoWakeKey.value;
                var last := StateOf(old(registry.wakeStates), target).lastDispatchedAt;
                var open := last.None? || now - last.value >= debounceMs;
                && (outcome == Held(KeyNoLongerInAllowlist) <==> key !in allowedCommands)
                && (outcome == Held(ProbeDisabled) <==> key in allowedCommands && probe == Unsafe(true))
                && (outcome == Held(PaneStateUnsafe) <==> key in allowedCommands && (probe == Unsafe(false) || probe.Threw?))
                && (outcome == Held(Debounce) <==> key in allowedCommands && probe.Safe? && !open)
                && (outcome.Woken? <==> key in allowedCommands && probe.Safe? && open && sends)
                && (outcome.SendFailed? <==> key in allowedCommands && probe.Safe? && open && !sends)
                && typed == old(typed) + (if outcome.Woken? || outcome.SendFailed?
                                          then [Keys(if registry.sessions[target].wakeTarget.Some? then registry.sessions[target].wakeTarget.value else target,
                                                     allowedCommands[key])]
                                          else [])
                && audit == old(audit) + (if !sinkWorks then []
                                          else if outcome.Held? then [WakeSuppressed(target, key, messageId, outcome.reason)]
                                          else [WakeDispatched(target, key, messageId, outcome.Woken?)])
                && registry.wakeStates == old(registry.wakeStates)[target := StateAfter(StateOf(old(registry.wakeStates), target), outcome, now)]
      ensures outcome.OptedOut? ==> typed == old(typed) && audit == old(audit) && registry.wakeStates == old(registry.wakeStates)
    {
      if target !in registry.sessions || registry.sessions[target].autoWakeKey.None? {
        return OptedOut;
      }
      var commandKey := registry.sessions[target].autoWakeKey.value;
      var wakeTarget := if registry.sessions[target].wakeTarget.Some? then registry.sessions[target].wakeTarget.value else target;
      if commandKey !in allowedCommands {
        outcome := Held(KeyNoLongerInAllowlist);
        Record(AuditOf(outcome, target, commandKey, messageId), sinkWorks);
        registry.IncrementWakeCounter(target, Suppressed);
        return;
      }
      if !probe.Safe? {
        outcome := Held(if probe == Unsafe(true) then ProbeDisabled else PaneStateUnsafe);
        Record(AuditOf(outcome, target, commandKey, messageId), sinkWorks);
        registry.IncrementWakeCounter(target, Suppressed);
        return;
      }
      var tookWindow := registry.TryConsumeWakeWindow(target, now, debounceMs);
      if !tookWindow {
        outcome := Held(Debounce);
        Record(AuditOf(outcome, target, commandKey, messageId), sinkWorks);
        registry.IncrementWakeCounter(target, Suppressed);
        return;
      }
      typed := typed + [Keys(wakeTarget, allowedCommands[commandKey])];
      outcome := if sends then Woken else SendFailed;
      Record(AuditOf(outcome, target, commandKey, messageId), sinkWorks);
      registry.IncrementWakeCounter(target, CounterOf(outcome));
    }

    /** A sink that throws loses the entry and nothing else. */
    method Record(entry: AuditEntry, sinkWorks: bool)
      modifies this`audit
      ensures audit == old(audit) + if sinkWorks then [entry] else []
    {
      if sinkWorks {
        audit := audit + [entry];
      }
    }
  }

  // ----- The dispatch as a run of the step system -----

  /** What remains of a dispatch after its first event when nobody interrupts it. */
  function Rest(c: string, o: Outcome, safe: bool): seq<WD.Event> {
    if !safe then [WD.Probed(c, false)]
    else if o.Held? then [WD.Probed(c, true), WD.Claim(c)]
    else [WD.Probed(c, true), WD.Claim(c), WD.Sent(c, o.Woken?)]
  }

  function Script(c: string, target: string, o: Outcome, allowed: bool, safe: bool, now: int): seq<WD.Event> {
    [WD.Begin(c, target, !o.OptedOut?, allowed, now)] + if o.OptedOut? || !allowed then [] else Rest(c, o, safe)
  }

  lemma {:induction false} ThenStep(w: WD.Wakes, e: WD.Event, es: seq<WD.Event>, d: nat)
    requires WD.Enabled(w, e) && WD.Runs(WD.Apply(w, e, d), es, d)
    ensures WD.Runs(w, [e] + es, d) && WD.After(w, [e] + es, d) == WD.After(WD.Apply(w, e, d), es, d)
  {
    assert ([e] + es)[1..] == es;
  }

  lemma {:induction false} OneStep(w: WD.Wakes, e: WD.Event, d: nat)
    requires WD.Enabled(w, e)
    ensures WD.Runs(w, [e], d) && WD.After(w, [e], d) == WD.Apply(w, e, d)
  {
    assert [e] + [] == [e];
    ThenStep(w, e, [], d);
  }

  lemma {:induction false} ProbedAndClaimed(w: WD.Wakes, c: string, o: Outcome, d: nat)
    requires WD.At(w, c, WD.Claiming) && !o.OptedOut?
    requires o.Held? <==> !WindowOpen(WD.AccountOf(w, w.calls[c].target).state, w.calls[c].now, d)
    ensures var es := Rest(c, o, true)[1..];
            && WD.Runs(w, es, d)
            && WD.After(w, es, d).calls == w.calls - {c}
            && WD.AccountOf(WD.After(w, es, d), w.calls[c].target).state == StateAfter(WD.AccountOf(w, w.calls[c].target).state, o, w.calls[c].now)
  {
    var v := WD.Apply(w, WD.Claim(c), d);
    if o.Held? {
      assert Rest(c, o, true)[1..] == [WD.Claim(c)];
      OneStep(w, WD.Claim(c), d);
    } else {
      assert Rest(c, o, true)[1..] == [WD.Claim(c)] + [WD.Sent(c, o.Woken?)];
      OneStep(v, WD.Sent(c, o.Woken?), d);
      ThenStep(w, WD.Claim(c), [WD.Sent(c, o.Woken?)], d);
    }
  }

  lemma {:induction false} RestRuns(w: WD.Wakes, c: string, o: Outcome, safe: bool, d: nat)
    requires WD.At(w, c, WD.Probing) && !o.OptedOut?
    requires o.Held? <==> !(safe && WindowOpen(WD.AccountOf(w, w.calls[c].target).state, w.calls[c].now, d))
    ensures var es := Rest(c, o, safe);
            && WD.Runs(w, es, d)
            && WD.After(w, es, d).calls == w.calls - {c}
            && WD.AccountOf(WD.After(w, es, d), w.calls[c].target).state == StateAfter(WD.AccountOf(w, w.calls[c].target).state, o, w.calls[c].now)
  {
    if safe {
      var v := WD.Apply(w, WD.Probed(c, true), d);
      ProbedAndClaimed(v, c, o, d);
      assert v.calls - {c} == w.calls - {c};
      assert Rest(c, o, true) == [WD.Probed(c, true)] + Rest(c, o, true)[1..];
      ThenStep(w, WD.Probed(c, true), Rest(c, o, true)[1..], d);
    } else {
      OneStep(w, WD.Probed(c, false), d);
    }
  }

  /**
   * A dispatch that runs without interruption is a run of the step system with the same outcome, so
   * what the step system keeps in every interleaving also speaks of this method.
   */
  lemma {:induction false} DispatchIsRun(w: WD.Wakes, c: string, target: string, o: Outcome, allowed: bool, safe: bool, now: int, d: nat)
    requires c !in w.calls
    requires o.Held? ==> !(allowed && safe && WindowOpen(WD.AccountOf(w, target).state, now, d))
    requires o.Woken? || o.SendFailed? ==> allowed && safe && WindowOpen(WD.AccountOf(w, target).state, now, d)
    ensures var es := Script(c, target, o, allowed, safe, now);
            && WD.Runs(w, es, d)
            && WD.After(w, es, d).calls == w.calls
            && WD.AccountOf(WD.After(w, es, d), target).state == StateAfter(WD.AccountOf(w, target).state, o, now)
  {
    var first := WD.Begin(c, target, !o.OptedOut?, allowed, now);
    var v := WD.Apply(w, first, d);
    if o.OptedOut? || !allowed {
      assert [first] + [] == [first];
      OneStep(w, first, d);
      assert w.calls - {c} == w.calls;
    } else {
      RestRuns(v, c, o, safe, d);
      ThenStep(w, first, Rest(c, o, safe), d);
      assert v.calls - {c} == w.calls;
    }
  }
}
