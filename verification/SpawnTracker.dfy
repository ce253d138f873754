/** The spawn budget of src/core/spawn-tracker.ts. */
module SpawnTracker {
  import opened Prelude

  /** Only a call of depth one comes from the coordinator (src/server/tools/agents.ts). */
  datatype Source = Coordinator | Agent

  datatype Context = Context(invocationId: string, parentInvocationId: Option<string>, depth: int)

  function SourceOf(context: Context): Source {
    if context.depth == 1 then Coordinator else Agent
  }

  datatype Limits = Limits(maxDepth: int, maxConcurrent: nat, maxSession: nat)

  datatype Refusal = UnknownAgent | SubInvocationNotPermitted | DepthLimitExceeded | ConcurrentLimitReached | SessionBudgetExhausted

  /** `live` says of each invocation under way whether it may invoke others. */
  datatype Tracker = Tracker(activeCount: nat, sessionTotal: nat, live: map<string, bool>)

  predicate MayInvoke(t: Tracker, parent: Option<string>) {
    parent.Some? && parent.value != "" && parent.value in t.live && t.live[parent.value]
  }

  function Refused(t: Tracker, limits: Limits, context: Context, known: bool): Option<Refusal> {
    if !known then Some(UnknownAgent)
    else if SourceOf(context) == Agent && !MayInvoke(t, context.parentInvocationId) then Some(SubInvocationNotPermitted)
    else if context.depth > limits.maxDepth then Some(DepthLimitExceeded)
    else if SourceOf(context) == Agent && t.activeCount >= limits.maxConcurrent then Some(ConcurrentLimitReached)
    else if t.sessionTotal >= limits.maxSession then Some(SessionBudgetExhausted)
    else None
  }

  /** The call comes from an agent whose invocation is not under way, or was begun without leave to invoke others. */
  predicate Forbidden(t: Tracker, context: Context) {
    && context.depth != 1
    && (context.parentInvocationId.None? || context.parentInvocationId.value == ""
        || context.parentInvocationId.value !in t.live || !t.live[context.parentInvocationId.value])
  }

  /**
   * Each refusal has its own reason, and the ones before it in this order come first: an unknown agent,
   * a parent without permission, the depth, the agents' calls under way, the budget. Only a call of depth
   * one is free of the second and the fourth.
   */
  lemma RefusalMeans(t: Tracker, limits: Limits, context: Context, known: bool)
    ensures var r := Refused(t, limits, context, known);
            && (r == Some(UnknownAgent) <==> !known)
            && (r == Some(SubInvocationNotPermitted) <==> known && Forbidden(t, context))
            && (r == Some(DepthLimitExceeded) <==> known && !Forbidden(t, context) && context.depth > limits.maxDepth)
            && (r == Some(ConcurrentLimitReached) <==>
                  known && !Forbidden(t, context) && context.depth <= limits.maxDepth && context.depth != 1 && t.activeCount >= limits.maxConcurrent)
            && (r == None <==>
                  && known && !Forbidden(t, context) && context.depth <= limits.maxDepth
                  && (context.depth == 1 || t.activeCount < limits.maxConcurrent) && t.sessionTotal < limits.maxSession)
  {
  }

  function Begun(t: Tracker, context: Context, allowSub: bool): Tracker {
    Tracker(t.activeCount + (if SourceOf(context) == Agent then 1 else 0), t.sessionTotal + 1, t.live[context.invocationId := allowSub])
  }

  function Ended(t: Tracker, context: Context): Tracker {
    Tracker(if SourceOf(context) == Agent && t.activeCount > 0 then t.activeCount - 1 else t.activeCount,
            t.sessionTotal, t.live - {context.invocationId})
  }

  /** Four fifths of the session budget, rounded down. */
  function WarningLevel(limits: Limits): (r: nat)
    ensures 5 * r <= 4 * limits.maxSession < 5 * (r + 1)
  {
    limits.maxSession * 4 / 5
  }

  class SpawnTracker {
    var activeCount: nat
    var sessionTotal: nat
    var activeInvocations: map<string, bool>
    const limits: Limits

    constructor (limits: Limits, activeCount: nat, sessionTotal: nat)
      ensures State() == Tracker(activeCount, sessionTotal, map[]) && this.limits == limits
    {
      this.limits, this.activeCount, this.sessionTotal, activeInvocations := limits, activeCount, sessionTotal, map[];
    }

    function State(): Tracker
      reads this
    {
      Tracker(activeCount, sessionTotal, activeInvocations)
    }

    /** Allowed exactly when the agent is known and, in this order, permission, depth, concurrency and budget leave room. */
    method Check(context: Context, known: bool) returns (refusal: Option<Refusal>, shouldEscalate: bool)
      ensures refusal == Refused(State(), limits, context, known)
      ensures shouldEscalate <==> refusal == Some(DepthLimitExceeded) || refusal == Some(SessionBudgetExhausted)
      ensures refusal.None? ==> sessionTotal < limits.maxSession && (SourceOf(context) == Agent ==> activeCount < limits.maxConcurrent)
    {
      if !known {
        return Some(UnknownAgent), false;
      }
      var source := SourceOf(context);
      if source == Agent {
        var parent := if context.parentInvocationId.Some? then context.parentInvocationId.value else "";
        if parent == "" || parent !in activeInvocations || !activeInvocations[parent] {
          return Some(SubInvocationNotPermitted), false;
        }
      }
      if context.depth > limits.maxDepth {
        return Some(DepthLimitExceeded), true;
      }
      if source == Agent && activeCount >= limits.maxConcurrent {
        return Some(ConcurrentLimitReached), false;
      }
      if sessionTotal >= limits.maxSession {
        return Some(SessionBudgetExhausted), true;
      }
      return None, false;
    }

    method BeginInvocation(context: Context, allowSub: bool) returns (atWarning: bool)
      modifies this
      ensures State() == Begun(old(State()), context, allowSub)
      ensures atWarning <==> old(sessionTotal) < WarningLevel(limits) <= sessionTotal
    {
      sessionTotal := sessionTotal + 1;
      if SourceOf(context) == Agent {
        activeCount := activeCount + 1;
      }
      activeInvocations := activeInvocations[context.invocationId := allowSub];
      atWarning := sessionTotal == WarningLevel(limits);
    }

    method EndInvocation(context: Context)
      modifies this
      ensures State() == Ended(old(State()), context)
    {
      if SourceOf(context) == Agent && activeCount > 0 {
        activeCount := activeCount - 1;
      }
      activeInvocations := activeInvocations - {context.invocationId};
    }
  }
}
