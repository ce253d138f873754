/**
 * The mutex that src/core/session-registry.ts builds out of a promise chain. One ticket stands for one
 * call of `withLock`: the promise it awaits, whether its body has begun and whether `release` ran.
 */
module Locks {
  import opened Prelude

  /** `prior` is the ticket whose chained promise the call awaits; without one it awaits a resolved promise. */
  datatype Ticket = Ticket(name: string, prior: Option<nat>, entered: bool, released: bool)

  datatype Chain = Chain(tickets: seq<Ticket>, locks: map<string, nat>)

  const NO_CALLS := Chain([], map[])

  ghost predicate Linked(ts: seq<Ticket>) {
    forall i :: 0 <= i < |ts| ==> ts[i].prior.Some? ==> ts[i].prior.value < i
  }

  /** The chained promise of a ticket is `prior.then(() => next)`: it resolves once both have. */
  ghost predicate Resolved(ts: seq<Ticket>, i: nat)
    requires Linked(ts) && i < |ts|
    decreases i
  {
    ts[i].released && PriorResolved(ts, i)
  }

  ghost predicate PriorResolved(ts: seq<Ticket>, i: nat)
    requires Linked(ts) && i < |ts|
    decreases i, 0
  {
    ts[i].prior.Some? ==> Resolved(ts, ts[i].prior.value)
  }

  // ----- Steps -----

  /** The synchronous part of `withLock`: read the map, chain a promise behind what is there, store it. */
  function Call(c: Chain, n: string): Chain {
    var prior := if n in c.locks then Some(c.locks[n]) else None;
    Chain(c.tickets + [Ticket(n, prior, false, false)], c.locks[n := |c.tickets|])
  }

  ghost predicate CanEnter(c: Chain, i: nat) {
    Linked(c.tickets) && i < |c.tickets| && !c.tickets[i].entered && PriorResolved(c.tickets, i)
  }

  /** The awaited promise has resolved and the body begins. */
  function Enter(c: Chain, i: nat): Chain
    requires i < |c.tickets|
  {
    c.(tickets := c.tickets[i := c.tickets[i].(entered := true)])
  }

  predicate CanLeave(c: Chain, i: nat) {
    i < |c.tickets| && c.tickets[i].entered && !c.tickets[i].released
  }

  /** The body returned or threw; either way `finally` releases. */
  function Leave(c: Chain, i: nat): Chain
    requires i < |c.tickets|
  {
    c.(tickets := c.tickets[i := c.tickets[i].(released := true)])
  }

  datatype Step = Calls(name: string) | Enters(ticket: nat) | Leaves(ticket: nat)

  ghost predicate Possible(c: Chain, step: Step) {
    match step
    case Calls(_) => true
    case Enters(i) => CanEnter(c, i)
    case Leaves(i) => CanLeave(c, i)
  }

  function Take(c: Chain, step: Step): Chain
    requires !step.Calls? ==> step.ticket < |c.tickets|
  {
    match step
    case Calls(n) => Call(c, n)
    case Enters(i) => Enter(c, i)
    case Leaves(i) => Leave(c, i)
  }

  ghost predicate Runs(c: Chain, steps: seq<Step>)
    decreases |steps|
  {
    steps == [] || (Possible(c, steps[0]) && Runs(Take(c, steps[0]), steps[1..]))
  }

  ghost function After(c: Chain, steps: seq<Step>): Chain
    requires Runs(c, steps)
    decreases |steps|
  {
    if steps == [] then c else After(Take(c, steps[0]), steps[1..])
  }

  /** The chain that these calls, entries and exits lead to. */
  ghost predicate Reaches(steps: seq<Step>, c: Chain) {
    Runs(NO_CALLS, steps) && c == After(NO_CALLS, steps)
  }

  // ----- The invariant -----

  /** The last of the first `k` tickets of a name. */
  function Last(ts: seq<Ticket>, n: string, k: nat): (r: Option<nat>)
    requires k <= |ts|
    ensures r.Some? ==> r.value < k && ts[r.value].name == n && forall j :: r.value < j < k ==> ts[j].name != n
    ensures r.None? ==> forall j :: 0 <= j < k ==> ts[j].name != n
  {
    if k == 0 then None else if ts[k - 1].name == n then Some(k - 1) else Last(ts, n, k - 1)
  }

  /** Every ticket of the same name before this one has been released. */
  ghost predicate Free(ts: seq<Ticket>, n: string, k: nat)
    requires k <= |ts|
  {
    forall j :: 0 <= j < k && ts[j].name == n ==> ts[j].released
  }

  ghost predicate Chained(c: Chain) {
    && (forall i :: 0 <= i < |c.tickets| ==> c.tickets[i].prior == Last(c.tickets, c.tickets[i].name, i))
    && (forall n :: (if n in c.locks then Some(c.locks[n]) else None) == Last(c.tickets, n, |c.tickets|))
  }

  ghost predicate Orderly(ts: seq<Ticket>) {
    forall i :: 0 <= i < |ts| ==> (ts[i].released ==> ts[i].entered) && (ts[i].entered ==> Free(ts, ts[i].name, i))
  }

  ghost predicate Good(c: Chain) {
    Linked(c.tickets) && Chained(c) && Orderly(c.tickets)
  }

  /** A chained promise has resolved exactly when every call of that name up to it has released. */
  lemma {:induction false} ResolvedMeansFree(ts: seq<Ticket>, i: nat)
    requires Linked(ts) && i < |ts|
    requires forall j :: 0 <= j < |ts| ==> ts[j].prior == Last(ts, ts[j].name, j)
    ensures PriorResolved(ts, i) <==> Free(ts, ts[i].name, i)
    ensures Resolved(ts, i) <==> Free(ts, ts[i].name, i + 1)
    decreases i
  {
    if ts[i].prior.Some? {
      ResolvedMeansFree(ts, ts[i].prior.value);
    }
  }

  lemma {:induction false} LastSame(a: seq<Ticket>, b: seq<Ticket>, n: string, k: nat)
    requires k <= |a| && k <= |b| && forall j :: 0 <= j < k ==> a[j].name == b[j].name
    ensures Last(a, n, k) == Last(b, n, k)
  {
    if k > 0 {
      LastSame(a, b, n, k - 1);
    }
  }

  lemma MarkChained(c: Chain, i: nat, t: Ticket)
    requires Linked(c.tickets) && Chained(c) && i < |c.tickets| && t.name == c.tickets[i].name && t.prior == c.tickets[i].prior
    ensures Linked(c.tickets[i := t]) && Chained(c.(tickets := c.tickets[i := t]))
  {
    forall n, k | 0 <= k <= |c.tickets| ensures Last(c.tickets[i := t], n, k) == Last(c.tickets, n, k) {
      LastSame(c.tickets, c.tickets[i := t], n, k);
    }
  }

  lemma {:induction false} CallStores(c: Chain, n: string, m: string)
    requires Chained(c)
    ensures var d := Call(c, n);
            (if m in d.locks then Some(d.locks[m]) else None) == Last(d.tickets, m, |d.tickets|)
  {
    StoresLast(c.tickets, Call(c, n).tickets[|c.tickets|], c.locks, m);
  }

  lemma {:induction false} StoresLast(ts: seq<Ticket>, t: Ticket, locks: map<string, nat>, m: string)
    requires (if m in locks then Some(locks[m]) else None) == Last(ts, m, |ts|)
    ensures var after := locks[t.name := |ts|];
            (if m in after then Some(after[m]) else None) == Last(ts + [t], m, |ts| + 1)
  {
    LastSame(ts, ts + [t], m, |ts|);
  }

  lemma {:induction false} CallLinks(c: Chain, n: string, i: nat)
    requires Chained(c) && i <= |c.tickets|
    ensures var d := Call(c, n);
            d.tickets[i].prior == Last(d.tickets, d.tickets[i].name, i)
  {
    var d := Call(c, n);
    assert (if n in c.locks then Some(c.locks[n]) else None) == Last(c.tickets, n, |c.tickets|);
    LastSame(c.tickets, d.tickets, d.tickets[i].name, i);
  }

  lemma CallChains(c: Chain, n: string)
    requires Chained(c)
    ensures Chained(Call(c, n))
  {
    var d := Call(c, n);
    forall m ensures (if m in d.locks then Some(d.locks[m]) else None) == Last(d.tickets, m, |d.tickets|) {
      CallStores(c, n, m);
    }
    forall i | 0 <= i < |d.tickets| ensures d.tickets[i].prior == Last(d.tickets, d.tickets[i].name, i) {
      CallLinks(c, n, i);
    }
  }

  lemma CallKeeps(c: Chain, n: string)
    requires Good(c)
    ensures Good(Call(c, n))
  {
    CallChains(c, n);
    var ts, us := c.tickets, Call(c, n).tickets;
    forall i | 0 <= i < |us|
      ensures (us[i].released ==> us[i].entered) && (us[i].entered ==> Free(us, us[i].name, i))
    {
      if i < |ts| {
        assert us[i] == ts[i];
      }
    }
  }

  lemma EnterKeeps(c: Chain, i: nat)
    requires Good(c) && CanEnter(c, i)
    ensures Good(Enter(c, i))
  {
    MarkChained(c, i, c.tickets[i].(entered := true));
    ResolvedMeansFree(c.tickets, i);
  }

  lemma LeaveKeeps(c: Chain, i: nat)
    requires Good(c) && CanLeave(c, i)
    ensures Good(Leave(c, i))
  {
    MarkChained(c, i, c.tickets[i].(released := true));
  }

  lemma {:induction false} RunKeeps(c: Chain, steps: seq<Step>)
    requires Good(c) && Runs(c, steps)
    ensures Good(After(c, steps))
    decreases |steps|
  {
    if steps != [] {
      match steps[0] {
        case Calls(n) => CallKeeps(c, n);
        case Enters(i) => EnterKeeps(c, i);
        case Leaves(i) => LeaveKeeps(c, i);
      }
      RunKeeps(Take(c, steps[0]), steps[1..]);
    }
  }

  lemma ReachedGood(steps: seq<Step>, c: Chain)
    requires Reaches(steps, c)
    ensures Good(c)
  {
    RunKeeps(NO_CALLS, steps);
  }

  // ----- The queue that the chain implements -----

  /** The calls of a name that have not released, in call order. */
  function Line(ts: seq<Ticket>, n: string, k: nat): seq<nat>
    requires k <= |ts|
  {
    if k == 0 then []
    else if ts[k - 1].name == n && !ts[k - 1].released then Line(ts, n, k - 1) + [k - 1]
    else Line(ts, n, k - 1)
  }

  /** The head of a queue is the first of them. */
  lemma {:induction false} LineHead(ts: seq<Ticket>, n: string, k: nat)
    requires k <= |ts|
    ensures Line(ts, n, k) == [] <==> Free(ts, n, k)
    ensures var line := Line(ts, n, k);
            line != [] ==> line[0] < k && ts[line[0]].name == n && !ts[line[0]].released && Free(ts, n, line[0])
  {
    if k > 0 {
      LineHead(ts, n, k - 1);
    }
  }

  function Queue(c: Chain, n: string): seq<nat> {
    Line(c.tickets, n, |c.tickets|)
  }

  lemma {:induction false} LineSame(a: seq<Ticket>, b: seq<Ticket>, n: string, k: nat)
    requires k <= |a| && k <= |b| && forall j :: 0 <= j < k ==> a[j].name == b[j].name && (a[j].name == n ==> a[j].released == b[j].released)
    ensures Line(a, n, k) == Line(b, n, k)
  {
    if k > 0 {
      LineSame(a, b, n, k - 1);
    }
  }

  lemma {:induction false} LineDropsHead(ts: seq<Ticket>, us: seq<Ticket>, i: nat, k: nat)
    requires i < k <= |ts| && !ts[i].released && us == ts[i := ts[i].(released := true)]
    requires Line(ts, ts[i].name, i) == [] && Line(us, ts[i].name, i) == []
    ensures Line(ts, ts[i].name, k) == [i] + Line(us, ts[i].name, k)
    decreases k
  {
    if k > i + 1 {
      LineDropsHead(ts, us, i, k - 1);
      assert us[k - 1] == ts[k - 1];
      assert ([i] + Line(us, ts[i].name, k - 1)) + [k - 1] == [i] + (Line(us, ts[i].name, k - 1) + [k - 1]);
    }
  }

  lemma CallJoins(c: Chain, m: string, n: string)
    ensures Queue(Call(c, m), n) == if m == n then Queue(c, n) + [|c.tickets|] else Queue(c, n)
  {
    LineSame(c.tickets, Call(c, m).tickets, n, |c.tickets|);
  }

  lemma LeaveDropsHead(c: Chain, i: nat)
    requires i < |c.tickets| && !c.tickets[i].released && Free(c.tickets, c.tickets[i].name, i)
    ensures Queue(c, c.tickets[i].name) == [i] + Queue(Leave(c, i), c.tickets[i].name)
  {
    var ts, us, n := c.tickets, Leave(c, i).tickets, c.tickets[i].name;
    LineHead(ts, n, i);
    LineSame(ts, us, n, i);
    LineDropsHead(ts, us, i, |ts|);
  }

  lemma HeadIsFree(c: Chain, i: nat)
    requires i < |c.tickets| && !c.tickets[i].released
    ensures var q := Queue(c, c.tickets[i].name);
            q != [] && (q[0] == i <==> Free(c.tickets, c.tickets[i].name, i))
  {
    LineHead(c.tickets, c.tickets[i].name, |c.tickets|);
  }

  // ----- Theorems over every run -----

  /**
   * The promise chain is a first-in first-out queue per name. A call joins the end of its queue; it may
   * begin exactly when it is at the head; leaving, by return or throw, takes the head off and lets the
   * next one begin; and no step touches the queue of another name.
   */
  lemma ChainIsQueue(steps: seq<Step>, c: Chain, step: Step, n: string)
    requires Reaches(steps, c) && Possible(c, step)
    ensures var before, after := Queue(c, n), Queue(Take(c, step), n);
            match step
            case Calls(m) => after == if m == n then before + [|c.tickets|] else before
            case Enters(_) => after == before
            case Leaves(i) => before == if c.tickets[i].name == n then [i] + after else after
  {
    ReachedGood(steps, c);
    match step
    case Calls(m) => CallJoins(c, m, n);
    case Enters(i) => LineSame(c.tickets, Enter(c, i).tickets, n, |c.tickets|);
    case Leaves(i) =>
      if c.tickets[i].name == n {
        LeaveDropsHead(c, i);
      } else {
        LineSame(c.tickets, Leave(c, i).tickets, n, |c.tickets|);
      }
  }

  lemma HeadMayEnter(steps: seq<Step>, c: Chain, i: nat)
    requires Reaches(steps, c) && i < |c.tickets| && !c.tickets[i].entered
    ensures CanEnter(c, i) <==> Queue(c, c.tickets[i].name) != [] && Queue(c, c.tickets[i].name)[0] == i
  {
    ReachedGood(steps, c);
    ResolvedMeansFree(c.tickets, i);
    HeadIsFree(c, i);
  }

  /** Whoever is inside is at the head of its queue: no two calls are inside the lock of one name. */
  lemma MutualExclusion(steps: seq<Step>, c: Chain, i: nat, j: nat)
    requires Reaches(steps, c) && CanLeave(c, i) && CanLeave(c, j) && c.tickets[i].name == c.tickets[j].name
    ensures i == j
    ensures Queue(c, c.tickets[i].name) != [] && Queue(c, c.tickets[i].name)[0] == i
  {
    ReachedGood(steps, c);
    HeadIsFree(c, i);
    HeadIsFree(c, j);
  }

  /** Grants follow call order: nobody has begun while an earlier call of that name is still to release. */
  lemma GrantsInCallOrder(steps: seq<Step>, c: Chain, i: nat, j: nat)
    requires Reaches(steps, c) && i < j < |c.tickets| && c.tickets[i].name == c.tickets[j].name && c.tickets[j].entered
    ensures c.tickets[i].entered && c.tickets[i].released
  {
    ReachedGood(steps, c);
    assert Free(c.tickets, c.tickets[j].name, j);
  }

  /** What the map stores for a name is the promise of its last call, and it has resolved exactly when the queue is empty. */
  lemma StoredPromise(steps: seq<Step>, c: Chain, n: string)
    requires Reaches(steps, c)
    ensures n in c.locks <==> exists i :: 0 <= i < |c.tickets| && c.tickets[i].name == n
    ensures n in c.locks ==>
              && c.locks[n] < |c.tickets| && c.tickets[c.locks[n]].name == n
              && (forall j :: c.locks[n] < j < |c.tickets| ==> c.tickets[j].name != n)
              && Linked(c.tickets) && (Resolved(c.tickets, c.locks[n]) <==> Queue(c, n) == [])
  {
    ReachedGood(steps, c);
    assert (if n in c.locks then Some(c.locks[n]) else None) == Last(c.tickets, n, |c.tickets|);
    if n in c.locks {
      var i := c.locks[n];
      ResolvedMeansFree(c.tickets, i);
      LineHead(c.tickets, n, |c.tickets|);
    }
  }
}
