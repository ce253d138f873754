/**
 * Tasks that use `withLock` and `withLocks` (src/core/session-registry.ts) on the promise chain: nobody
 * waits for ever. The two locks are taken in the order of their names, so no cycle can form.
 */
module LockProgress {
  import opened Names
  import opened Locks

  /** One call of `withLock` or `withLocks`, with a body that ends after at most `work` steps. */
  datatype Request = One(name: string, work: nat) | Two(a: string, b: string, work: nat)

  /** The locks a request takes, in order. */
  function Plan(r: Request): seq<string> {
    match r
    case One(n, _) => [n]
    case Two(a, b, _) => if a == b then [a] else if LexLess(a, b) then [a, b] else [b, a]
  }

  datatype Stage = Calling | Waiting(ticket: nat) | Running(left: nat) | Leaving

  datatype Task = Task(plan: seq<string>, work: nat, held: seq<nat>, stage: Stage)

  /** `owner` records which task drew each ticket. */
  datatype World = World(chain: Chain, tasks: seq<Task>, owner: seq<nat>)

  function Start(requests: seq<Request>): World {
    World(NO_CALLS, seq(|requests|, i requires 0 <= i < |requests| => Task(Plan(requests[i]), requests[i].work, [], Calling)), [])
  }

  predicate Done(task: Task) {
    task.stage.Leaving? && task.held == []
  }

  /** Stop covers a body that returns and one that throws, at whatever step. */
  datatype Move = Ask(t: nat) | Begin(t: nat) | Work(t: nat) | Stop(t: nat) | Release(t: nat)

  ghost predicate Enabled(w: World, m: Move) {
    m.t < |w.tasks| &&
    var task := w.tasks[m.t];
    match m
    case Ask(_) => task.stage.Calling? && |task.held| < |task.plan|
    case Begin(_) => task.stage.Waiting? && CanEnter(w.chain, task.stage.ticket)
    case Work(_) => task.stage.Running? && task.stage.left > 0
    case Stop(_) => task.stage.Running?
    case Release(_) => task.stage.Leaving? && task.held != [] && CanLeave(w.chain, task.held[|task.held| - 1])
  }

  function AskStep(w: World, t: nat): World
    requires t < |w.tasks| && |w.tasks[t].held| < |w.tasks[t].plan|
  {
    var task := w.tasks[t];
    World(Call(w.chain, task.plan[|task.held|]), w.tasks[t := task.(stage := Waiting(|w.chain.tickets|))], w.owner + [t])
  }

  function Granted(task: Task, j: nat): Task {
    task.(held := task.held + [j], stage := if |task.held| + 1 >= |task.plan| then Running(task.work) else Calling)
  }

  function BeginStep(w: World, t: nat): World
    requires t < |w.tasks| && w.tasks[t].stage.Waiting? && w.tasks[t].stage.ticket < |w.chain.tickets|
  {
    var j := w.tasks[t].stage.ticket;
    w.(chain := Enter(w.chain, j), tasks := w.tasks[t := Granted(w.tasks[t], j)])
  }

  function ReleaseStep(w: World, t: nat): World
    requires t < |w.tasks| && w.tasks[t].held != [] && w.tasks[t].held[|w.tasks[t].held| - 1] < |w.chain.tickets|
  {
    var task := w.tasks[t];
    var last := |task.held| - 1;
    w.(chain := Leave(w.chain, task.held[last]), tasks := w.tasks[t := task.(held := task.held[..last])])
  }

  ghost function Apply(w: World, m: Move): World
    requires Enabled(w, m)
  {
    match m
    case Ask(t) => AskStep(w, t)
    case Begin(t) => BeginStep(w, t)
    case Work(t) => w.(tasks := w.tasks[t := w.tasks[t].(stage := Running(w.tasks[t].stage.left - 1))])
    case Stop(t) => w.(tasks := w.tasks[t := w.tasks[t].(stage := Leaving)])
    case Release(t) => ReleaseStep(w, t)
  }

  ghost predicate Runs(w: World, ms: seq<Move>)
    decreases |ms|
  {
    ms == [] || (Enabled(w, ms[0]) && Runs(Apply(w, ms[0]), ms[1..]))
  }

  ghost function After(w: World, ms: seq<Move>): World
    requires Runs(w, ms)
    decreases |ms|
  {
    if ms == [] then w else After(Apply(w, ms[0]), ms[1..])
  }

  // ----- The invariant -----

  ghost predicate Rising(plan: seq<string>) {
    forall i, j :: 0 <= i < j < |plan| ==> LexLess(plan[i], plan[j])
  }

  ghost predicate Held(w: World, t: nat, j: nat, n: string) {
    j < |w.chain.tickets| && j < |w.owner| && w.owner[j] == t && w.chain.tickets[j].name == n
    && w.chain.tickets[j].entered && !w.chain.tickets[j].released
  }

  ghost predicate Awaited(w: World, t: nat, j: nat, n: string) {
    j < |w.chain.tickets| && j < |w.owner| && w.owner[j] == t && w.chain.tickets[j].name == n && !w.chain.tickets[j].entered
  }

  ghost predicate TaskOk(w: World, t: nat, task: Task) {
    && Rising(task.plan) && |task.held| <= |task.plan|
    && (forall k :: 0 <= k < |task.held| ==> Held(w, t, task.held[k], task.plan[k]))
    && (task.stage.Waiting? ==> |task.held| < |task.plan| && Awaited(w, t, task.stage.ticket, task.plan[|task.held|]))
    && (task.stage.Calling? ==> |task.held| < |task.plan|)
    && (task.stage.Running? ==> |task.held| == |task.plan|)
  }

  ghost predicate TasksOk(w: World) {
    forall t :: 0 <= t < |w.tasks| ==> TaskOk(w, t, w.tasks[t])
  }

  predicate Owns(task: Task, j: nat) {
    j in task.held || task.stage == Waiting(j)
  }

  /** A ticket that has not been released belongs to a task that holds it or waits for it. */
  ghost predicate TicketOk(w: World, j: nat)
    requires j < |w.chain.tickets|
  {
    !w.chain.tickets[j].released ==> j < |w.owner| && w.owner[j] < |w.tasks| && Owns(w.tasks[w.owner[j]], j)
  }

  ghost predicate TicketsOk(w: World) {
    forall j :: 0 <= j < |w.chain.tickets| ==> TicketOk(w, j)
  }

  ghost predicate Inv(w: World) {
    Good(w.chain) && |w.owner| == |w.chain.tickets| && TasksOk(w) && TicketsOk(w)
  }

  lemma StartHolds(requests: seq<Request>)
    ensures Inv(Start(requests))
  {
    forall t | 0 <= t < |requests| ensures Rising(Plan(requests[t])) {
      if requests[t].Two? {
        LexLessTotal(requests[t].a, requests[t].b);
      }
    }
  }

  /** Names held by one task differ, so a task holds no ticket twice. */
  lemma HeldApart(w: World, t: nat, task: Task, i: nat, j: nat)
    requires TaskOk(w, t, task) && i < j < |task.held|
    ensures task.held[i] != task.held[j]
  {
    assert Held(w, t, task.held[i], task.plan[i]) && Held(w, t, task.held[j], task.plan[j]);
    LexLessTotal(task.plan[i], task.plan[j]);
  }

  lemma OwnStageKeeps(w: World, t: nat, task: Task)
    requires Inv(w) && t < |w.tasks| && TaskOk(w, t, task) && task.held == w.tasks[t].held && !w.tasks[t].stage.Waiting?
    ensures Inv(w.(tasks := w.tasks[t := task]))
  {
    var v := w.(tasks := w.tasks[t := task]);
    forall u | 0 <= u < |v.tasks| ensures TaskOk(v, u, v.tasks[u]) {
      assert TaskOk(w, u, if u == t then task else w.tasks[u]);
    }
    forall j | 0 <= j < |v.chain.tickets| ensures TicketOk(v, j) {
      assert TicketOk(w, j);
    }
  }

  /** What a task relies on is about its own tickets. */
  lemma TaskStays(w: World, v: World, t: nat, task: Task)
    requires TaskOk(w, t, task)
    requires forall j, n :: Held(w, t, j, n) && j in task.held ==> Held(v, t, j, n)
    requires forall n :: task.stage.Waiting? && Awaited(w, t, task.stage.ticket, n) ==> Awaited(v, t, task.stage.ticket, n)
    ensures TaskOk(v, t, task)
  {
    forall k | 0 <= k < |task.held| ensures Held(v, t, task.held[k], task.plan[k]) {
      assert Held(w, t, task.held[k], task.plan[k]);
    }
  }

  lemma AskTasks(w: World, t: nat)
    requires Inv(w) && Enabled(w, Ask(t))
    ensures TasksOk(AskStep(w, t))
  {
    var v := AskStep(w, t);
    forall u | 0 <= u < |v.tasks| ensures TaskOk(v, u, v.tasks[u]) {
      assert TaskOk(w, u, w.tasks[u]);
      TaskStays(w, v, u, w.tasks[u]);
    }
  }

  lemma AskKeeps(w: World, t: nat)
    requires Inv(w) && Enabled(w, Ask(t))
    ensures Inv(AskStep(w, t))
  {
    var v := AskStep(w, t);
    CallKeeps(w.chain, w.tasks[t].plan[|w.tasks[t].held|]);
    AskTasks(w, t);
    forall j | 0 <= j < |v.chain.tickets| ensures TicketOk(v, j) {
      if j < |w.chain.tickets| {
        assert TicketOk(w, j);
      }
    }
  }

  lemma GrantedOk(w: World, t: nat)
    requires Inv(w) && Enabled(w, Begin(t))
    ensures TaskOk(BeginStep(w, t), t, BeginStep(w, t).tasks[t])
  {
    var v, j, task := BeginStep(w, t), w.tasks[t].stage.ticket, w.tasks[t];
    assert TaskOk(w, t, task);
    forall k | 0 <= k < |task.held| + 1 ensures Held(v, t, (task.held + [j])[k], task.plan[k]) {
      if k < |task.held| {
        assert Held(w, t, task.held[k], task.plan[k]);
      }
    }
  }

  lemma BeginTasks(w: World, t: nat)
    requires Inv(w) && Enabled(w, Begin(t))
    ensures TasksOk(BeginStep(w, t))
  {
    var v := BeginStep(w, t);
    assert TaskOk(w, t, w.tasks[t]);
    forall u | 0 <= u < |v.tasks| ensures TaskOk(v, u, v.tasks[u]) {
      assert TaskOk(w, u, w.tasks[u]);
      if u == t {
        GrantedOk(w, t);
      } else {
        TaskStays(w, v, u, w.tasks[u]);
      }
    }
  }

  lemma BeginKeeps(w: World, t: nat)
    requires Inv(w) && Enabled(w, Begin(t))
    ensures Inv(BeginStep(w, t))
  {
    var v := BeginStep(w, t);
    EnterKeeps(w.chain, w.tasks[t].stage.ticket);
    BeginTasks(w, t);
    forall i | 0 <= i < |v.chain.tickets| ensures TicketOk(v, i) {
      assert TicketOk(w, i);
    }
  }

  lemma OthersHeld(w: World, t: nat, k: nat)
    requires t < |w.tasks| && TaskOk(w, t, w.tasks[t]) && Enabled(w, Release(t)) && k < |w.tasks[t].held| - 1
    ensures Held(ReleaseStep(w, t), t, w.tasks[t].held[k], w.tasks[t].plan[k])
  {
    var task := w.tasks[t];
    assert Held(w, t, task.held[k], task.plan[k]);
    HeldApart(w, t, task, k, |task.held| - 1);
  }

  lemma ReleasedOk(w: World, t: nat)
    requires t < |w.tasks| && TaskOk(w, t, w.tasks[t]) && Enabled(w, Release(t))
    ensures TaskOk(ReleaseStep(w, t), t, ReleaseStep(w, t).tasks[t])
  {
    var task := w.tasks[t];
    forall k | 0 <= k < |task.held| - 1 ensures Held(ReleaseStep(w, t), t, task.held[k], task.plan[k]) {
      OthersHeld(w, t, k);
    }
    RestHeld(ReleaseStep(w, t), t, task);
  }

  lemma RestHeld(v: World, t: nat, task: Task)
    requires task.stage.Leaving? && Rising(task.plan) && 0 < |task.held| <= |task.plan|
    requires forall k :: 0 <= k < |task.held| - 1 ==> Held(v, t, task.held[k], task.plan[k])
    ensures TaskOk(v, t, task.(held := task.held[..|task.held| - 1]))
  {
  }

  lemma ReleaseTasks(w: World, t: nat)
    requires Inv(w) && Enabled(w, Release(t))
    ensures TasksOk(ReleaseStep(w, t))
  {
    var v, last := ReleaseStep(w, t), |w.tasks[t].held| - 1;
    assert TaskOk(w, t, w.tasks[t]);
    assert Held(w, t, w.tasks[t].held[last], w.tasks[t].plan[last]);
    forall u | 0 <= u < |v.tasks| ensures TaskOk(v, u, v.tasks[u]) {
      assert TaskOk(w, u, w.tasks[u]);
      if u == t {
        ReleasedOk(w, t);
      } else {
        TaskStays(w, v, u, w.tasks[u]);
      }
    }
  }

  lemma StillOwned(task: Task, i: nat)
    requires task.held != [] && Owns(task, i) && i != task.held[|task.held| - 1]
    ensures Owns(task.(held := task.held[..|task.held| - 1]), i)
  {
    assert task.held == task.held[..|task.held| - 1] + [task.held[|task.held| - 1]];
  }

  lemma ReleaseTickets(w: World, t: nat, i: nat)
    requires Enabled(w, Release(t)) && i < |w.chain.tickets| && TicketOk(w, i)
    ensures TicketOk(ReleaseStep(w, t), i)
  {
    if i != w.tasks[t].held[|w.tasks[t].held| - 1] && !w.chain.tickets[i].released && w.owner[i] == t {
      assert Owns(w.tasks[t], i);
      StillOwned(w.tasks[t], i);
    }
  }

  lemma ReleaseKeeps(w: World, t: nat)
    requires Inv(w) && Enabled(w, Release(t))
    ensures Inv(ReleaseStep(w, t))
  {
    LeaveKeeps(w.chain, w.tasks[t].held[|w.tasks[t].held| - 1]);
    ReleaseTasks(w, t);
    forall i | 0 <= i < |w.chain.tickets| ensures TicketOk(ReleaseStep(w, t), i) {
      assert TicketOk(w, i);
      ReleaseTickets(w, t, i);
    }
  }

  lemma MoveKeeps(w: World, m: Move)
    requires Inv(w) && Enabled(w, m)
    ensures Inv(Apply(w, m))
  {
    assert TaskOk(w, m.t, w.tasks[m.t]);
    match m
    case Ask(t) => AskKeeps(w, t);
    case Begin(t) => BeginKeeps(w, t);
    case Work(t) => OwnStageKeeps(w, t, Apply(w, m).tasks[t]);
    case Stop(t) => OwnStageKeeps(w, t, Apply(w, m).tasks[t]);
    case Release(t) => ReleaseKeeps(w, t);
  }

  // ----- The measure -----

  /** The moves a task still has to make. */
  function Left(task: Task): int {
    var locks := |task.plan| - |task.held|;
    match task.stage
    case Calling => 2 * locks + task.work + 1 + |task.plan|
    case Waiting(_) => 2 * locks - 1 + task.work + 1 + |task.plan|
    case Running(left) => left + 1 + |task.plan|
    case Leaving => |task.held|
  }

  function Sum(tasks: seq<Task>): int {
    if tasks == [] then 0 else Left(tasks[0]) + Sum(tasks[1..])
  }

  lemma {:induction false} SumUpdates(tasks: seq<Task>, t: nat, task: Task)
    requires t < |tasks|
    ensures Sum(tasks[t := task]) == Sum(tasks) - Left(tasks[t]) + Left(task)
  {
    if t == 0 {
      assert tasks[t := task][1..] == tasks[1..];
    } else {
      SumUpdates(tasks[1..], t - 1, task);
      assert tasks[t := task][1..] == tasks[1..][t - 1 := task];
    }
  }

  lemma {:induction false} SumNatural(tasks: seq<Task>)
    requires forall task :: task in tasks ==> Left(task) >= 0
    ensures Sum(tasks) >= 0
  {
    if tasks != [] {
      assert tasks[0] in tasks;
      SumNatural(tasks[1..]);
    }
  }

  lemma LeftNatural(w: World)
    requires Inv(w)
    ensures Sum(w.tasks) >= 0
  {
    forall task | task in w.tasks ensures Left(task) >= 0 {
      var t :| 0 <= t < |w.tasks| && w.tasks[t] == task;
      assert TaskOk(w, t, task);
    }
    SumNatural(w.tasks);
  }

  lemma MoveDecreases(w: World, m: Move)
    requires Inv(w) && Enabled(w, m)
    ensures Sum(Apply(w, m).tasks) < Sum(w.tasks)
  {
    assert TaskOk(w, m.t, w.tasks[m.t]);
    SumUpdates(w.tasks, m.t, Apply(w, m).tasks[m.t]);
    assert Apply(w, m).tasks == w.tasks[m.t := Apply(w, m).tasks[m.t]];
  }

  // ----- Progress -----

  /** The name a task waits for. */
  function Wanted(task: Task): string {
    if |task.held| < |task.plan| then task.plan[|task.held|] else ""
  }

  /** The head of the queue somebody waits in may begin, or its owner waits for a greater name. */
  lemma HeadMoves(w: World, t: nat) returns (v: nat)
    requires Inv(w) && t < |w.tasks| && w.tasks[t].stage.Waiting?
    ensures v < |w.tasks| && !Done(w.tasks[v])
    ensures Enabled(w, Begin(v)) || !w.tasks[v].stage.Waiting? || LexLess(Wanted(w.tasks[t]), Wanted(w.tasks[v]))
  {
    assert TaskOk(w, t, w.tasks[t]);
    var j, n := w.tasks[t].stage.ticket, Wanted(w.tasks[t]);
    assert !w.chain.tickets[j].released;
    HeadIsFree(w.chain, j);
    LineHead(w.chain.tickets, n, |w.chain.tickets|);
    var u := Queue(w.chain, n)[0];
    assert TicketOk(w, u);
    v := w.owner[u];
    assert TaskOk(w, v, w.tasks[v]);
    if w.tasks[v].stage == Waiting(u) {
      ResolvedMeansFree(w.chain.tickets, u);
    } else {
      var k :| 0 <= k < |w.tasks[v].held| && w.tasks[v].held[k] == u;
      assert Held(w, v, u, w.tasks[v].plan[k]);
    }
  }

  lemma WaitersMove(w: World, t: nat) returns (m: Move)
    requires Inv(w) && t < |w.tasks| && w.tasks[t].stage.Waiting?
    requires forall u :: 0 <= u < |w.tasks| && !Done(w.tasks[u]) ==> w.tasks[u].stage.Waiting?
    ensures Enabled(w, m)
  {
    var wanted := set u | 0 <= u < |w.tasks| && w.tasks[u].stage.Waiting? :: Wanted(w.tasks[u]);
    assert Wanted(w.tasks[t]) in wanted;
    var top := GreatestName(wanted);
    var u :| 0 <= u < |w.tasks| && w.tasks[u].stage.Waiting? && Wanted(w.tasks[u]) == top;
    var v := HeadMoves(w, u);
    m := Begin(v);
  }

  /** No deadlock: while somebody is not done, somebody can move. */
  lemma SomebodyMoves(w: World, t: nat) returns (m: Move)
    requires Inv(w) && t < |w.tasks| && !Done(w.tasks[t])
    ensures Enabled(w, m)
  {
    if u :| 0 <= u < |w.tasks| && !Done(w.tasks[u]) && !w.tasks[u].stage.Waiting? {
      assert TaskOk(w, u, w.tasks[u]);
      match w.tasks[u].stage
      case Calling => m := Ask(u);
      case Running(_) => m := Stop(u);
      case Leaving =>
        m := Release(u);
        var last := |w.tasks[u].held| - 1;
        assert Held(w, u, w.tasks[u].held[last], w.tasks[u].plan[last]);
    } else {
      m := WaitersMove(w, t);
    }
  }

  lemma {:induction false} RunKeeps(w: World, ms: seq<Move>)
    requires Inv(w) && Runs(w, ms)
    ensures Inv(After(w, ms)) && |ms| <= Sum(w.tasks) - Sum(After(w, ms).tasks)
    decreases |ms|
  {
    if ms != [] {
      MoveKeeps(w, ms[0]);
      MoveDecreases(w, ms[0]);
      RunKeeps(Apply(w, ms[0]), ms[1..]);
    }
  }

  /**
   * Any finite set of calls, with equal names and inverted pairs, runs to completion under every
   * schedule: a run is never longer than the work there was, and when no move is left every task is
   * done and every lock is free.
   */
  lemma {:induction false} EverybodyFinishes(requests: seq<Request>, ms: seq<Move>)
    requires Runs(Start(requests), ms)
    ensures |ms| <= Sum(Start(requests).tasks)
    ensures var w := After(Start(requests), ms);
            (forall m :: !Enabled(w, m)) ==>
              && (forall t :: 0 <= t < |w.tasks| ==> Done(w.tasks[t]))
              && (forall n :: Queue(w.chain, n) == [])
  {
    StartHolds(requests);
    RunKeeps(Start(requests), ms);
    var w := After(Start(requests), ms);
    LeftNatural(w);
    if forall m :: !Enabled(w, m) {
      forall t | 0 <= t < |w.tasks| ensures Done(w.tasks[t]) {
        if !Done(w.tasks[t]) {
          var m := SomebodyMoves(w, t);
          assert false;
        }
      }
      forall j | 0 <= j < |w.chain.tickets| ensures w.chain.tickets[j].released {
        assert TicketOk(w, j);
      }
      forall n ensures Queue(w.chain, n) == [] {
        LineHead(w.chain.tickets, n, |w.chain.tickets|);
      }
    }
  }
}
