/**
 * Concurrent `invoke_agent` calls (src/server/tools/agents.ts) over one tracker: check and begin happen
 * in one go, then the statistics are persisted, then the agent runs, and the call ends.
 */
module Spawning {
  import opened Prelude
  import opened SpawnTracker

  /**
   * `running` is false while the statistics of a begun call are still being persisted. `atWarning` is what
   * beginning returned: this call brought the total to the warning level.
   */
  datatype Invocation = Invocation(context: Context, running: bool, atWarning: bool)

  datatype Spawns = Spawns(
    tracker: Tracker,
    calls: map<string, Invocation>,
    agents: set<string>,       // the calls under way that came from agents
    crossers: set<string>,     // the calls at the warning level that are still persisting
    leaked: nat,               // agent-sourced calls whose first persist threw, so nothing ended them
    missed: nat,               // calls at the warning level whose first persist threw
    warnings: nat)             // warnings logged

  function Initially(activeCount: nat, sessionTotal: nat): Spawns {
    Spawns(Tracker(activeCount, sessionTotal, map[]), map[], {}, {}, 0, 0, 0)
  }

  datatype Event =
    | Invoke(c: string, context: Context, known: bool, allowSub: bool)
    | Persisted(c: string)  // and then the warning is logged, if it is due
    | PersistThrew(c: string)
    | Finished(c: string)   // the agent returned, failed or timed out

  predicate Enabled(s: Spawns, e: Event) {
    match e
    case Invoke(c, _, _, _) => c !in s.calls
    case Persisted(c) => c in s.calls && !s.calls[c].running
    case PersistThrew(c) => c in s.calls && !s.calls[c].running
    case Finished(c) => c in s.calls && s.calls[c].running
  }

  function Admit(s: Spawns, limits: Limits, c: string, context: Context, allowSub: bool): Spawns {
    var t := Begun(s.tracker, context, allowSub);
    var atWarning := t.sessionTotal == WarningLevel(limits);
    s.(tracker := t,
       calls := s.calls[c := Invocation(context, false, atWarning)],
       agents := if SourceOf(context) == Agent then s.agents + {c} else s.agents,
       crossers := if atWarning then s.crossers + {c} else s.crossers)
  }

  function Proceed(s: Spawns, c: string): Spawns
    requires c in s.calls
  {
    s.(calls := s.calls[c := s.calls[c].(running := true)], crossers := s.crossers - {c},
       warnings := s.warnings + if s.calls[c].atWarning then 1 else 0)
  }

  /** Nothing ends a call whose first persist threw. */
  function Abandon(s: Spawns, c: string): Spawns
    requires c in s.calls
  {
    s.(calls := s.calls - {c}, agents := s.agents - {c}, crossers := s.crossers - {c},
       leaked := s.leaked + (if SourceOf(s.calls[c].context) == Agent then 1 else 0),
       missed := s.missed + if s.calls[c].atWarning then 1 else 0)
  }

  function Conclude(s: Spawns, c: string): Spawns
    requires c in s.calls
  {
    s.(tracker := Ended(s.tracker, s.calls[c].context), calls := s.calls - {c}, agents := s.agents - {c})
  }

  function Apply(s: Spawns, e: Event, limits: Limits): Spawns
    requires Enabled(s, e)
  {
    match e
    case Invoke(c, context, known, allowSub) =>
      if Refused(s.tracker, limits, context, known).Some? then s else Admit(s, limits, c, context, allowSub)
    case Persisted(c) => Proceed(s, c)
    case PersistThrew(c) => Abandon(s, c)
    case Finished(c) => Conclude(s, c)
  }

  predicate Runs(s: Spawns, es: seq<Event>, limits: Limits)
    decreases |es|
  {
    es == [] || (Enabled(s, es[0]) && Runs(Apply(s, es[0], limits), es[1..], limits))
  }

  function After(s: Spawns, es: seq<Event>, limits: Limits): Spawns
    requires Runs(s, es, limits)
    decreases |es|
  {
    if es == [] then s else After(Apply(s, es[0], limits), es[1..], limits)
  }

  ghost predicate AgentsKnown(s: Spawns) {
    forall c :: c in s.agents <==> c in s.calls && SourceOf(s.calls[c].context) == Agent
  }

  ghost predicate CrossersKnown(s: Spawns) {
    forall c :: c in s.crossers <==> c in s.calls && !s.calls[c].running && s.calls[c].atWarning
  }

  predicate Crossed(limits: Limits, total: nat, now: nat) {
    total < WarningLevel(limits) <= now
  }

  ghost predicate CountsOk(s: Spawns, limits: Limits, active: nat, total: nat) {
    && AgentsKnown(s)
    && s.tracker.activeCount == active + |s.agents| + s.leaked
    && (s.tracker.activeCount <= active || s.tracker.activeCount <= limits.maxConcurrent)
    && total <= s.tracker.sessionTotal
    && (s.tracker.sessionTotal <= total || s.tracker.sessionTotal <= limits.maxSession)
  }

  /** Once the level is crossed, the crossing call is still persisting, or has warned, or has missed to. */
  ghost predicate WarningOk(s: Spawns, limits: Limits, total: nat) {
    && CrossersKnown(s)
    && total <= s.tracker.sessionTotal
    && s.warnings + s.missed + |s.crossers| == if Crossed(limits, total, s.tracker.sessionTotal) then 1 else 0
  }

  lemma AdmitCounts(s: Spawns, limits: Limits, c: string, context: Context, known: bool, allowSub: bool, active: nat, total: nat)
    requires CountsOk(s, limits, active, total) && c !in s.calls && Refused(s.tracker, limits, context, known).None?
    ensures CountsOk(Admit(s, limits, c, context, allowSub), limits, active, total)
  {
    assert c !in s.agents;
  }

  lemma AbandonCounts(s: Spawns, limits: Limits, c: string, active: nat, total: nat)
    requires CountsOk(s, limits, active, total) && c in s.calls
    ensures CountsOk(Abandon(s, c), limits, active, total)
  {
    if c !in s.agents {
      assert s.agents - {c} == s.agents;
    }
  }

  lemma ConcludeCounts(s: Spawns, limits: Limits, c: string, active: nat, total: nat)
    requires CountsOk(s, limits, active, total) && c in s.calls
    ensures CountsOk(Conclude(s, c), limits, active, total)
  {
    if c !in s.agents {
      assert s.agents - {c} == s.agents;
    }
  }

  lemma CountsKeep(s: Spawns, e: Event, limits: Limits, active: nat, total: nat)
    requires CountsOk(s, limits, active, total) && Enabled(s, e)
    ensures CountsOk(Apply(s, e, limits), limits, active, total)
  {
    match e
    case Invoke(c, context, known, allowSub) =>
      if Refused(s.tracker, limits, context, known).None? {
        AdmitCounts(s, limits, c, context, known, allowSub, active, total);
      }
    case Persisted(c) =>
    case PersistThrew(c) => AbandonCounts(s, limits, c, active, total);
    case Finished(c) => ConcludeCounts(s, limits, c, active, total);
  }

  lemma WarningKeeps(s: Spawns, e: Event, limits: Limits, total: nat)
    requires WarningOk(s, limits, total) && Enabled(s, e)
    ensures WarningOk(Apply(s, e, limits), limits, total)
  {
    match e
    case Invoke(c, context, known, allowSub) => assert c !in s.crossers;
    case Finished(c) => assert c !in s.crossers;
    case _ =>
      if s.calls[e.c].atWarning {
        assert e.c in s.crossers;
      } else {
        assert s.crossers - {e.c} == s.crossers;
      }
  }

  lemma {:induction false} RunKeeps(s: Spawns, es: seq<Event>, limits: Limits, active: nat, total: nat)
    requires CountsOk(s, limits, active, total) && WarningOk(s, limits, total) && Runs(s, es, limits)
    ensures CountsOk(After(s, es, limits), limits, active, total) && WarningOk(After(s, es, limits), limits, total)
    decreases |es|
  {
    if es != [] {
      CountsKeep(s, es[0], limits, active, total);
      WarningKeeps(s, es[0], limits, total);
      RunKeeps(Apply(s, es[0], limits), es[1..], limits, active, total);
    }
  }

  /**
   * Over every run of concurrent calls: the budget is never exceeded if the session starts within it, and
   * the active count is the initial one, plus the agent-sourced calls under way, plus those lost to a
   * persist that threw, and never passes the larger of its initial value and the limit.
   */
  lemma {:induction false} BudgetHolds(es: seq<Event>, limits: Limits, active: nat, total: nat)
    requires Runs(Initially(active, total), es, limits)
    ensures var s := After(Initially(active, total), es, limits);
            && (total <= limits.maxSession ==> s.tracker.sessionTotal <= limits.maxSession)
            && s.tracker.activeCount == active + |s.agents| + s.leaked
            && (forall c :: c in s.agents <==> c in s.calls && SourceOf(s.calls[c].context) == Agent)
            && s.tracker.activeCount <= (if active > limits.maxConcurrent then active else limits.maxConcurrent)
  {
    RunKeeps(Initially(active, total), es, limits, active, total);
  }

  // ----- Who may invoke, and what is counted -----

  /** What the event says about an invocation's leave to invoke others: given or denied at its start, gone at its end. */
  function Leave(s: Spawns, e: Event, limits: Limits, id: string): Option<bool>
    requires Enabled(s, e)
  {
    match e
    case Invoke(_, context, known, allowSub) =>
      if context.invocationId == id && Refused(s.tracker, limits, context, known).None? then Some(allowSub) else None
    case Finished(c) => if s.calls[c].context.invocationId == id then Some(false) else None
    case _ => None
  }

  /** The last such word along the run. */
  function LastLeave(s: Spawns, es: seq<Event>, limits: Limits, id: string): Option<bool>
    requires Runs(s, es, limits)
    decreases |es|
  {
    if es == [] then None
    else
      var later := LastLeave(Apply(s, es[0], limits), es[1..], limits, id);
      if later.Some? then later else Leave(s, es[0], limits, id)
  }

  predicate MayInvokeNow(s: Spawns, id: string) {
    id in s.tracker.live && s.tracker.live[id]
  }

  lemma LeaveMoves(s: Spawns, e: Event, limits: Limits, id: string)
    requires Enabled(s, e)
    ensures MayInvokeNow(Apply(s, e, limits), id) <==> (if Leave(s, e, limits, id).Some? then Leave(s, e, limits, id).value else MayInvokeNow(s, id))
  {
  }

  lemma {:induction false} LeaveOverRun(s: Spawns, es: seq<Event>, limits: Limits, id: string)
    requires Runs(s, es, limits)
    ensures MayInvokeNow(After(s, es, limits), id) <==>
            (if LastLeave(s, es, limits, id).Some? then LastLeave(s, es, limits, id).value else MayInvokeNow(s, id))
    decreases |es|
  {
    if es != [] {
      LeaveMoves(s, es[0], limits, id);
      LeaveOverRun(Apply(s, es[0], limits), es[1..], limits, id);
    }
  }

  /**
   * At any point of any run, a call that does not come from the coordinator is refused permission if and
   * only if it names no parent, or one that was not begun with leave to invoke others or has ended since.
   */
  lemma {:induction false} OnlyPermittedParents(es: seq<Event>, limits: Limits, active: nat, total: nat, context: Context)
    requires Runs(Initially(active, total), es, limits)
    ensures var s0, s := Initially(active, total), After(Initially(active, total), es, limits);
            var parent := context.parentInvocationId;
            Refused(s.tracker, limits, context, true) == Some(SubInvocationNotPermitted) <==>
              context.depth != 1 && !(parent.Some? && parent.value != "" && LastLeave(s0, es, limits, parent.value) == Some(true))
  {
    var s := After(Initially(active, total), es, limits);
    RefusalMeans(s.tracker, limits, context, true);
    if context.parentInvocationId.Some? {
      LeaveOverRun(Initially(active, total), es, limits, context.parentInvocationId.value);
    }
  }

  /** How many calls along the run were admitted. */
  function Admissions(s: Spawns, es: seq<Event>, limits: Limits): nat
    requires Runs(s, es, limits)
    decreases |es|
  {
    if es == [] then 0
    else (if es[0].Invoke? && Refused(s.tracker, limits, es[0].context, es[0].known).None? then 1 else 0)
         + Admissions(Apply(s, es[0], limits), es[1..], limits)
  }

  /** The session total counts the admitted calls, whatever became of them. */
  lemma {:induction false} TotalCounts(s: Spawns, es: seq<Event>, limits: Limits)
    requires Runs(s, es, limits)
    ensures After(s, es, limits).tracker.sessionTotal == s.tracker.sessionTotal + Admissions(s, es, limits)
    decreases |es|
  {
    if es != [] {
      TotalCounts(Apply(s, es[0], limits), es[1..], limits);
    }
  }

  // ----- The warning -----

  /** Along the run, the call that brought the total to the level got its statistics persisted. */
  ghost predicate CrosserPersisted(s: Spawns, es: seq<Event>, limits: Limits)
    requires Runs(s, es, limits)
    decreases |es|
  {
    es != [] && ((es[0].Persisted? && s.calls[es[0].c].atWarning) || CrosserPersisted(Apply(s, es[0], limits), es[1..], limits))
  }

  /** Along the run, that call's persist threw. */
  ghost predicate CrosserThrew(s: Spawns, es: seq<Event>, limits: Limits)
    requires Runs(s, es, limits)
    decreases |es|
  {
    es != [] && ((es[0].PersistThrew? && s.calls[es[0].c].atWarning) || CrosserThrew(Apply(s, es[0], limits), es[1..], limits))
  }

  lemma {:induction false} WarningsFollow(s: Spawns, es: seq<Event>, limits: Limits)
    requires Runs(s, es, limits)
    ensures s.warnings <= After(s, es, limits).warnings && s.missed <= After(s, es, limits).missed
    ensures After(s, es, limits).warnings > s.warnings <==> CrosserPersisted(s, es, limits)
    ensures After(s, es, limits).missed > s.missed <==> CrosserThrew(s, es, limits)
    decreases |es|
  {
    if es != [] {
      WarningsFollow(Apply(s, es[0], limits), es[1..], limits);
    }
  }

  /** The calls at the level that are still persisting. */
  ghost predicate CrosserPersisting(s: Spawns) {
    exists c :: c in s.calls && !s.calls[c].running && s.calls[c].atWarning
  }

  /**
   * The warning is logged at most once, and it has been if and only if the call that crossed the level got
   * its statistics persisted. A crossed level means just one of three things: the warning was logged, the
   * crossing call is still persisting, or its persist threw and the warning never comes.
   */
  lemma {:induction false} WarningComes(es: seq<Event>, limits: Limits, active: nat, total: nat)
    requires Runs(Initially(active, total), es, limits)
    ensures var s0, s := Initially(active, total), After(Initially(active, total), es, limits);
            && s.warnings == (if CrosserPersisted(s0, es, limits) then 1 else 0)
            && (CrosserPersisted(s0, es, limits) || CrosserThrew(s0, es, limits) || CrosserPersisting(s)
                <==> Crossed(limits, total, s.tracker.sessionTotal))
            && !(CrosserPersisted(s0, es, limits) && CrosserThrew(s0, es, limits))
            && !(CrosserPersisted(s0, es, limits) && CrosserPersisting(s))
            && !(CrosserThrew(s0, es, limits) && CrosserPersisting(s))
  {
    var s := After(Initially(active, total), es, limits);
    RunKeeps(Initially(active, total), es, limits, active, total);
    WarningsFollow(Initially(active, total), es, limits);
    CrossersPersist(s);
  }

  lemma CrossersPersist(s: Spawns)
    requires CrossersKnown(s)
    ensures CrosserPersisting(s) <==> |s.crossers| > 0
  {
    if s.crossers != {} {
      var c :| c in s.crossers;
    }
  }

  /** A throw at the crossing silences the warning: the level is crossed, and whatever comes later none is logged. */
  lemma {:induction false} WarningMissed(a: string, root: string, limits: Limits, later: seq<Event>)
    requires limits.maxSession == 2 && limits.maxDepth >= 1
    requires Runs(Abandon(Admit(Initially(0, 0), limits, a, Context(root, None, 1), true), a), later, limits)
    ensures var es := [Invoke(a, Context(root, None, 1), true, true)] + ([PersistThrew(a)] + later);
            && Runs(Initially(0, 0), es, limits)
            && Crossed(limits, 0, After(Initially(0, 0), es, limits).tracker.sessionTotal)
            && After(Initially(0, 0), es, limits).warnings == 0
  {
    var s0, e := Initially(0, 0), Invoke(a, Context(root, None, 1), true, true);
    var s1 := Apply(s0, e, limits);
    var s2 := Apply(s1, PersistThrew(a), limits);
    assert s1 == Admit(s0, limits, a, Context(root, None, 1), true) && s2.missed == 1;
    RunThen(s1, PersistThrew(a), later, limits);
    RunThen(s0, e, [PersistThrew(a)] + later, limits);
    WarningsFollow(s2, later, limits);
    RunKeeps(s0, [e] + ([PersistThrew(a)] + later), limits, 0, 0);
  }

  // ----- Lost slots -----

  /** The throwing persists of a run that hit a call of an agent. */
  ghost function LostSlots(s: Spawns, es: seq<Event>, limits: Limits): nat
    requires Runs(s, es, limits)
    decreases |es|
  {
    if es == [] then 0
    else
      (if es[0].PersistThrew? && SourceOf(s.calls[es[0].c].context) == Agent then 1 else 0)
      + LostSlots(Apply(s, es[0], limits), es[1..], limits)
  }

  lemma {:induction false} LeaksAreLostSlots(s: Spawns, es: seq<Event>, limits: Limits)
    requires Runs(s, es, limits)
    ensures After(s, es, limits).leaked == s.leaked + LostSlots(s, es, limits)
    decreases |es|
  {
    if es != [] {
      LeaksAreLostSlots(Apply(s, es[0], limits), es[1..], limits);
    }
  }

  /**
   * When every call has ended, the active count has grown by one for each lost slot; so it is back where
   * it began if and only if no persist threw right after a call of an agent had begun.
   */
  lemma {:induction false} CountReturns(es: seq<Event>, limits: Limits, active: nat, total: nat)
    requires Runs(Initially(active, total), es, limits)
    requires After(Initially(active, total), es, limits).calls == map[]
    ensures var lost := LostSlots(Initially(active, total), es, limits);
            var count := After(Initially(active, total), es, limits).tracker.activeCount;
            count == active + lost && (count == active <==> lost == 0)
  {
    BudgetHolds(es, limits, active, total);
    LeaksAreLostSlots(Initially(active, total), es, limits);
    assert After(Initially(active, total), es, limits).agents == {};
  }

  /**
   * What a lost slot costs: at any point of any run, a sub-invocation that its parent and its depth
   * permit meets the concurrency limit if and only if the initial count, the calls of agents under way
   * and the lost slots together reach it.
   */
  lemma {:induction false} LostSlotsRefuse(es: seq<Event>, limits: Limits, active: nat, total: nat, context: Context)
    requires Runs(Initially(active, total), es, limits)
    requires SourceOf(context) == Agent && context.depth <= limits.maxDepth
    requires MayInvoke(After(Initially(active, total), es, limits).tracker, context.parentInvocationId)
    ensures var s := After(Initially(active, total), es, limits);
            Refused(s.tracker, limits, context, true) == Some(ConcurrentLimitReached)
            <==> active + |s.agents| + LostSlots(Initially(active, total), es, limits) >= limits.maxConcurrent
  {
    BudgetHolds(es, limits, active, total);
    LeaksAreLostSlots(Initially(active, total), es, limits);
  }

  lemma {:induction false} RunThen(s: Spawns, e: Event, es: seq<Event>, limits: Limits)
    requires Enabled(s, e) && Runs(Apply(s, e, limits), es, limits)
    ensures Runs(s, [e] + es, limits) && After(s, [e] + es, limits) == After(Apply(s, e, limits), es, limits)
  {
    assert ([e] + es)[1..] == es;
  }

  /** A parent whose one sub-invocation fails to persist, and after both are over a second parent. */
  function Losing(a: string, b: string, root: string, sub: string, again: string): seq<Event> {
    [Invoke(a, Context(root, None, 1), true, true)] + ([Persisted(a)] +
      ([Invoke(b, Context(sub, Some(root), 2), true, false)] + ([PersistThrew(b)] + ([Finished(a)] +
        ([Invoke(a, Context(again, None, 1), true, true)] + ([Persisted(a)] + []))))))
  }

  /**
   * A run that loses the only slot: no call of an agent is under way, the second parent may invoke others,
   * and yet every sub-invocation it asks for is refused for concurrency, which with the slot back and
   * some budget left would be admitted.
   */
  lemma {:induction false} SlotLost(a: string, b: string, root: string, sub: string, again: string, next: Context, limits: Limits)
    requires a != b && root != "" && sub != root && again != ""
    requires 2 <= limits.maxDepth && limits.maxConcurrent == 1 && limits.maxSession >= 3
    requires next.parentInvocationId == Some(again) && SourceOf(next) == Agent && next.depth <= limits.maxDepth
    ensures Runs(Initially(0, 0), Losing(a, b, root, sub, again), limits)
    ensures var s := After(Initially(0, 0), Losing(a, b, root, sub, again), limits);
            && s.agents == {} && s.calls.Keys == {a}
            && Refused(s.tracker, limits, next, true) == Some(ConcurrentLimitReached)
            && (limits.maxSession > 3 ==> Refused(s.tracker.(activeCount := 0), limits, next, true) == None)
  {
    var s0 := Initially(0, 0);
    var e0, e1, e2 := Invoke(a, Context(root, None, 1), true, true), Persisted(a), Invoke(b, Context(sub, Some(root), 2), true, false);
    var e5 := Invoke(a, Context(again, None, 1), true, true);
    var s1 := Apply(s0, e0, limits);
    var s2 := Apply(s1, e1, limits);
    var s3 := Apply(s2, e2, limits);
    var s4 := Apply(s3, PersistThrew(b), limits);
    var s5 := Apply(s4, Finished(a), limits);
    var s6 := Apply(s5, e5, limits);
    var rest5 := [e5] + ([Persisted(a)] + []);
    RunThen(s6, Persisted(a), [], limits);
    RunThen(s5, e5, [Persisted(a)] + [], limits);
    RunThen(s4, Finished(a), rest5, limits);
    RunThen(s3, PersistThrew(b), [Finished(a)] + rest5, limits);
    RunThen(s2, e2, [PersistThrew(b)] + ([Finished(a)] + rest5), limits);
    RunThen(s1, e1, [e2] + ([PersistThrew(b)] + ([Finished(a)] + rest5)), limits);
    RunThen(s0, e0, [e1] + ([e2] + ([PersistThrew(b)] + ([Finished(a)] + rest5))), limits);
  }

  // ----- One call from start to end -----

  datatype Outcome = Rejected(reason: Refusal) | StatisticsLost | Over

  /** The events of a call that nothing interrupts. */
  function Bracket(s: Spawns, limits: Limits, c: string, context: Context, known: bool, allowSub: bool, persists: bool): Spawns {
    if Refused(s.tracker, limits, context, known).Some? then s
    else
      var begun := Admit(s, limits, c, context, allowSub);
      if persists then Conclude(Proceed(begun, c), c) else Abandon(begun, c)
  }

  /** They are the events of the step system. */
  lemma {:induction false} BracketRuns(s: Spawns, limits: Limits, c: string, context: Context, known: bool, allowSub: bool, persists: bool)
    requires c !in s.calls && Refused(s.tracker, limits, context, known).None?
    ensures var invoke := Invoke(c, context, known, allowSub);
            var es := if persists then [invoke] + ([Persisted(c)] + ([Finished(c)] + [])) else [invoke] + ([PersistThrew(c)] + []);
            Runs(s, es, limits) && After(s, es, limits) == Bracket(s, limits, c, context, known, allowSub, persists)
  {
    var begun := Admit(s, limits, c, context, allowSub);
    if persists {
      RunThen(Proceed(begun, c), Finished(c), [], limits);
      RunThen(begun, Persisted(c), [Finished(c)] + [], limits);
      RunThen(s, Invoke(c, context, known, allowSub), [Persisted(c)] + ([Finished(c)] + []), limits);
    } else {
      RunThen(begun, PersistThrew(c), [], limits);
      RunThen(s, Invoke(c, context, known, allowSub), [PersistThrew(c)] + [], limits);
    }
  }

  /**
   * Check, begin, persist, warn, run, end, on the tracker: the state is that after the call's events, and
   * the warning is given exactly when those events log one.
   */
  method InvokeAgent(tracker: SpawnTracker, context: Context, known: bool, allowSub: bool, persists: bool, ghost s: Spawns, ghost c: string)
    returns (outcome: Outcome, warned: bool)
    requires tracker.State() == s.tracker && c !in s.calls
    modifies tracker
    ensures var t := Bracket(s, tracker.limits, c, context, known, allowSub, persists);
            tracker.State() == t.tracker && t.warnings == s.warnings + if warned then 1 else 0
    ensures outcome == match Refused(s.tracker, tracker.limits, context, known)
                       case Some(reason) => Rejected(reason)
                       case None => if persists then Over else StatisticsLost
  {
    warned := false;
    var refusal, shouldEscalate := tracker.Check(context, known);
    if refusal.Some? {
      return Rejected(refusal.value), false;
    }
    var atWarning := tracker.BeginInvocation(context, allowSub);
    if !persists {
      return StatisticsLost, false;
    }
    warned := atWarning;
    tracker.EndInvocation(context);
    outcome := Over;
  }
}
