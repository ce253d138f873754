/**
 * Waking a recipient (src/core/wake-dispatcher.ts): each dispatch takes its timestamp first, then probes
 * the pane, then claims the debounce window under the session's lock, then sends. Dispatches interleave
 * at every `await`, so timestamps reach the window out of order.
 */
module WakeDispatch {
  import opened Prelude
  import opened WakeState

  datatype Stage = Probing | Claiming | Sending

  datatype Dispatch = Dispatch(target: string, now: int, stage: Stage)

  /** A session's wake state, with the history that its counters and window summarise. */
  datatype Account = Account(
    state: WakeState,
    window: seq<int>,    // timestamps that took the window since the state was last reset
    started: nat,        // opted-in dispatches begun
    underWay: set<string>,
    forgotten: nat)      // counts that resets have thrown away

  const UNTOUCHED := Account(FRESH, [], 0, {}, 0)

  datatype Wakes = Wakes(accounts: map<string, Account>, calls: map<string, Dispatch>)

  const NO_WAKES := Wakes(map[], map[])

  function AccountOf(w: Wakes, n: string): Account {
    if n in w.accounts then w.accounts[n] else UNTOUCHED
  }

  function Put(w: Wakes, n: string, a: Account): Wakes {
    w.(accounts := w.accounts[n := a])
  }

  datatype Event =
    | Begin(c: string, target: string, optedIn: bool, allowed: bool, now: int)
    | Probed(c: string, safe: bool)
    | Claim(c: string)
    | Sent(c: string, ok: bool)
    | Reset(name: string)   // a registration, or the removal of an entry whose first registration failed

  predicate At(w: Wakes, c: string, stage: Stage) {
    c in w.calls && w.calls[c].stage == stage
  }

  predicate Enabled(w: Wakes, e: Event) {
    match e
    case Begin(c, _, _, _, _) => c !in w.calls
    case Probed(c, _) => At(w, c, Probing)
    case Claim(c) => At(w, c, Claiming)
    case Sent(c, _) => At(w, c, Sending)
    case Reset(_) => true
  }

  /** The dispatch is over and is counted once. */
  function Settle(w: Wakes, c: string, n: string, a: Account, which: Counter): Wakes {
    Wakes(w.accounts[n := a.(state := Bump(a.state, which), underWay := a.underWay - {c})], w.calls - {c})
  }

  function Advance(w: Wakes, c: string, stage: Stage): Wakes
    requires c in w.calls
  {
    w.(calls := w.calls[c := w.calls[c].(stage := stage)])
  }

  function StartDispatch(w: Wakes, c: string, n: string, allowed: bool, now: int): Wakes {
    var a := AccountOf(w, n).(started := AccountOf(w, n).started + 1);
    if allowed then Put(w, n, a.(underWay := a.underWay + {c})).(calls := w.calls[c := Dispatch(n, now, Probing)])
    else Settle(w, c, n, a, Suppressed)
  }

  function ClaimWindow(w: Wakes, c: string, debounceMs: nat): Wakes
    requires c in w.calls
  {
    var call := w.calls[c];
    var a := AccountOf(w, call.target);
    if WindowOpen(a.state, call.now, debounceMs)
    then Put(Advance(w, c, Sending), call.target, a.(state := Consume(a.state, call.now, debounceMs), window := a.window + [call.now]))
    else Settle(w, c, call.target, a, Suppressed)
  }

  function ResetState(w: Wakes, n: string): Wakes {
    var a := AccountOf(w, n);
    Put(w, n, a.(state := FRESH, window := [], forgotten := a.forgotten + Total(a.state)))
  }

  function Apply(w: Wakes, e: Event, debounceMs: nat): Wakes
    requires Enabled(w, e)
  {
    match e
    case Begin(c, n, optedIn, allowed, now) => if optedIn then StartDispatch(w, c, n, allowed, now) else w
    case Probed(c, safe) =>
      if safe then Advance(w, c, Claiming)
      else Settle(w, c, w.calls[c].target, AccountOf(w, w.calls[c].target), Suppressed)
    case Claim(c) => ClaimWindow(w, c, debounceMs)
    case Sent(c, ok) => Settle(w, c, w.calls[c].target, AccountOf(w, w.calls[c].target), if ok then Dispatched else Failed)
    case Reset(n) => ResetState(w, n)
  }

  predicate Runs(w: Wakes, es: seq<Event>, debounceMs: nat)
    decreases |es|
  {
    es == [] || (Enabled(w, es[0]) && Runs(Apply(w, es[0], debounceMs), es[1..], debounceMs))
  }

  function After(w: Wakes, es: seq<Event>, debounceMs: nat): Wakes
    requires Runs(w, es, debounceMs)
    decreases |es|
  {
    if es == [] then w else After(Apply(w, es[0], debounceMs), es[1..], debounceMs)
  }

  // ----- The invariant -----

  /** The dispatches under way to a name are those that its account lists. */
  ghost predicate Targets(w: Wakes, n: string) {
    forall c :: c in AccountOf(w, n).underWay <==> c in w.calls && w.calls[c].target == n
  }

  /** In the order in which they took the window, timestamps rise by the debounce time or more. */
  ghost predicate Spaced(window: seq<int>, debounceMs: nat) {
    forall i, j :: 0 <= i < j < |window| ==> window[j] - window[i] >= debounceMs
  }

  /** The timestamps that took the window are apart, and the state remembers the last one. */
  ghost predicate WindowOk(a: Account, debounceMs: nat) {
    && Spaced(a.window, debounceMs)
    && a.state.lastDispatchedAt == (if a.window == [] then None else Some(a.window[|a.window| - 1]))
  }

  /** Every dispatch begun is counted, forgotten with its count, or under way. */
  ghost predicate CountOk(a: Account) {
    a.started == Total(a.state) + a.forgotten + |a.underWay|
  }

  ghost predicate Ok(w: Wakes, n: string) {
    CountOk(AccountOf(w, n)) && Targets(w, n)
  }

  // What may happen to one account.

  lemma Opens(a: Account, c: string)
    requires CountOk(a) && c !in a.underWay
    ensures CountOk(a.(started := a.started + 1, underWay := a.underWay + {c}))
  {
  }

  lemma Settles(a: Account, c: string, which: Counter)
    requires CountOk(a) && c in a.underWay
    ensures CountOk(a.(state := Bump(a.state, which), underWay := a.underWay - {c}))
  {
  }

  lemma RefusesAtOnce(a: Account, c: string)
    requires CountOk(a) && c !in a.underWay
    ensures CountOk(a.(started := a.started + 1, state := Bump(a.state, Suppressed), underWay := a.underWay - {c}))
  {
    assert a.underWay - {c} == a.underWay;
  }

  lemma Claims(a: Account, now: int, debounceMs: nat)
    requires WindowOk(a, debounceMs) && WindowOpen(a.state, now, debounceMs)
    ensures WindowOk(a.(state := Consume(a.state, now, debounceMs), window := a.window + [now]), debounceMs)
  {
  }

  /** Whom an event is about. */
  function Concerns(w: Wakes, e: Event): string
    requires Enabled(w, e)
  {
    match e
    case Begin(_, n, _, _, _) => n
    case Probed(c, _) => w.calls[c].target
    case Claim(c) => w.calls[c].target
    case Sent(c, _) => w.calls[c].target
    case Reset(n) => n
  }

  lemma OthersUnchanged(w: Wakes, e: Event, n: string, debounceMs: nat)
    requires Enabled(w, e) && Concerns(w, e) != n
    ensures AccountOf(Apply(w, e, debounceMs), n) == AccountOf(w, n)
  {
  }

  lemma SettleOwn(w: Wakes, c: string, which: Counter)
    requires c in w.calls && Ok(w, w.calls[c].target)
    ensures var n := w.calls[c].target;
            CountOk(AccountOf(Settle(w, c, n, AccountOf(w, n), which), n))
  {
    var n := w.calls[c].target;
    Settles(AccountOf(w, n), c, which);
  }

  lemma BeginOwn(w: Wakes, c: string, n: string, allowed: bool, now: int)
    requires c !in w.calls && Ok(w, n)
    ensures CountOk(AccountOf(StartDispatch(w, c, n, allowed, now), n))
  {
    var a := AccountOf(w, n);
    assert c !in a.underWay;
    if allowed {
      Opens(a, c);
    } else {
      RefusesAtOnce(a, c);
    }
  }

  lemma ClaimOwn(w: Wakes, c: string, debounceMs: nat)
    requires c in w.calls && Ok(w, w.calls[c].target)
    ensures CountOk(AccountOf(ClaimWindow(w, c, debounceMs), w.calls[c].target))
  {
    if !WindowOpen(AccountOf(w, w.calls[c].target).state, w.calls[c].now, debounceMs) {
      SettleOwn(w, c, Suppressed);
    }
  }

  lemma CountKeeps(w: Wakes, e: Event, n: string, debounceMs: nat)
    requires Ok(w, n) && Enabled(w, e)
    ensures CountOk(AccountOf(Apply(w, e, debounceMs), n))
  {
    if Concerns(w, e) != n {
      OthersUnchanged(w, e, n, debounceMs);
    } else {
      match e
      case Begin(c, _, optedIn, allowed, now) => if optedIn { BeginOwn(w, c, n, allowed, now); }
      case Probed(c, safe) => if !safe { SettleOwn(w, c, Suppressed); }
      case Claim(c) => ClaimOwn(w, c, debounceMs);
      case Sent(c, ok) => SettleOwn(w, c, if ok then Dispatched else Failed);
      case Reset(_) =>
    }
  }

  lemma ClaimKeepsWindow(w: Wakes, c: string, debounceMs: nat)
    requires c in w.calls && WindowOk(AccountOf(w, w.calls[c].target), debounceMs)
    ensures WindowOk(AccountOf(ClaimWindow(w, c, debounceMs), w.calls[c].target), debounceMs)
  {
    var a := AccountOf(w, w.calls[c].target);
    if WindowOpen(a.state, w.calls[c].now, debounceMs) {
      Claims(a, w.calls[c].now, debounceMs);
    }
  }

  lemma WindowKeeps(w: Wakes, e: Event, n: string, debounceMs: nat)
    requires WindowOk(AccountOf(w, n), debounceMs) && Enabled(w, e)
    ensures WindowOk(AccountOf(Apply(w, e, debounceMs), n), debounceMs)
  {
    if Concerns(w, e) != n {
      OthersUnchanged(w, e, n, debounceMs);
    } else if e.Claim? {
      ClaimKeepsWindow(w, e.c, debounceMs);
    }
  }

  lemma TargetsKeep(w: Wakes, e: Event, n: string, debounceMs: nat)
    requires Targets(w, n) && Enabled(w, e)
    ensures Targets(Apply(w, e, debounceMs), n)
  {
    var v := Apply(w, e, debounceMs);
    forall x ensures x in AccountOf(v, n).underWay <==> x in v.calls && v.calls[x].target == n {
      assert x in AccountOf(w, n).underWay <==> x in w.calls && w.calls[x].target == n;
    }
  }

  lemma {:induction false} CountsOverRun(w: Wakes, es: seq<Event>, n: string, debounceMs: nat)
    requires Ok(w, n) && Runs(w, es, debounceMs)
    ensures Ok(After(w, es, debounceMs), n)
    decreases |es|
  {
    if es != [] {
      CountKeeps(w, es[0], n, debounceMs);
      TargetsKeep(w, es[0], n, debounceMs);
      CountsOverRun(Apply(w, es[0], debounceMs), es[1..], n, debounceMs);
    }
  }

  lemma {:induction false} WindowOverRun(w: Wakes, es: seq<Event>, n: string, debounceMs: nat)
    requires WindowOk(AccountOf(w, n), debounceMs) && Runs(w, es, debounceMs)
    ensures WindowOk(AccountOf(After(w, es, debounceMs), n), debounceMs)
    decreases |es|
  {
    if es != [] {
      WindowKeeps(w, es[0], n, debounceMs);
      WindowOverRun(Apply(w, es[0], debounceMs), es[1..], n, debounceMs);
    }
  }

  // ----- Theorems over every run -----

  /** What these events lead to when nothing has happened before. */
  predicate Reached(w: Wakes, es: seq<Event>, debounceMs: nat) {
    Runs(NO_WAKES, es, debounceMs) && w == After(NO_WAKES, es, debounceMs)
  }

  lemma ReachedWindow(w: Wakes, es: seq<Event>, n: string, debounceMs: nat)
    requires Reached(w, es, debounceMs)
    ensures WindowOk(AccountOf(w, n), debounceMs)
  {
    WindowOverRun(NO_WAKES, es, n, debounceMs);
  }

  /**
   * Between two resets, the timestamps that took a session's window are in order and pairwise at least
   * the debounce time apart, although dispatches reach the window with timestamps out of order.
   */
  lemma WindowsAreSpaced(w: Wakes, es: seq<Event>, n: string, debounceMs: nat)
    requires Reached(w, es, debounceMs)
    ensures Spaced(AccountOf(w, n).window, debounceMs)
  {
    ReachedWindow(w, es, n, debounceMs);
  }

  /**
   * At any point of any run, a dispatch that claims the window of a session is held back if and only if
   * some timestamp has taken the window since the last reset and its own lies less than the debounce time
   * after the last one that did; otherwise it takes the window and goes on to send.
   */
  lemma ClaimDecides(w: Wakes, es: seq<Event>, c: string, debounceMs: nat)
    requires Reached(w, es, debounceMs) && At(w, c, Claiming)
    ensures var call, v := w.calls[c], Apply(w, Claim(c), debounceMs);
            var window := AccountOf(w, call.target).window;
            if window != [] && call.now - window[|window| - 1] < debounceMs
            then c !in v.calls && AccountOf(v, call.target).window == window
                 && AccountOf(v, call.target).state.suppressed == AccountOf(w, call.target).state.suppressed + 1
            else At(v, c, Sending) && v.calls[c].target == call.target && AccountOf(v, call.target).window == window + [call.now]
  {
    ReachedWindow(w, es, w.calls[c].target, debounceMs);
  }

  /**
   * Every opted-in dispatch that is over has been counted exactly once, as dispatched, suppressed or
   * failed; what resets threw away and what is under way make up the rest.
   */
  lemma EachCountedOnce(w: Wakes, es: seq<Event>, n: string, debounceMs: nat)
    requires Reached(w, es, debounceMs)
    ensures var a := AccountOf(w, n);
            a.started == a.state.dispatched + a.state.suppressed + a.state.failed + a.forgotten + |a.underWay|
    ensures Targets(w, n)
  {
    CountsOverRun(NO_WAKES, es, n, debounceMs);
  }

  /** The timestamps between two instants, both included. */
  function Within(window: seq<int>, lo: int, hi: int): nat {
    if window == [] then 0
    else
      var last := |window| - 1;
      Within(window[..last], lo, hi) + if lo <= window[last] <= hi then 1 else 0
  }

  lemma {:induction false} WithinBelow(window: seq<int>, lo: int, hi: int, top: int)
    requires forall i :: 0 <= i < |window| ==> window[i] <= top
    ensures Within(window, lo, hi) == Within(window, lo, if hi < top then hi else top)
  {
    if window != [] {
      WithinBelow(window[..|window| - 1], lo, hi, top);
    }
  }

  lemma StepDown(x: int, y: int, d: nat)
    requires d > 0 && d <= x <= y
    ensures (x - d) / d == x / d - 1 && x / d <= y / d
  {
    assert x - d == d * (x / d - 1) + x % d;
    QuotientIs(x - d, d, x / d - 1, x % d);
    if x / d > y / d {
      ProductGrows(d, y / d + 1, x / d);
      assert false;
    }
  }

  lemma QuotientIs(x: int, d: nat, q: int, r: int)
    requires d > 0 && 0 <= r < d && x == d * q + r
    ensures x / d == q
  {
    var p := x / d;
    if p < q {
      ProductGrows(d, p + 1, q);
      assert false;
    }
    if p > q {
      ProductGrows(d, q + 1, p);
      assert false;
    }
  }

  lemma ProductGrows(d: nat, a: int, b: int)
    requires a <= b
    ensures d * a <= d * b
  {
  }

  /** The most timestamps, `d` apart, that fit between two instants. */
  function Capacity(lo: int, hi: int, d: nat): int
    requires d > 0
  {
    if hi < lo then 0 else (hi - lo) / d + 1
  }

  lemma OneMore(lo: int, hi: int, x: int, d: nat)
    requires d > 0 && lo <= x <= hi
    ensures Capacity(lo, x - d, d) + 1 <= Capacity(lo, hi, d)
  {
    if x - d >= lo {
      StepDown(x - lo, hi - lo, d);
    } else {
      QuotientNatural(hi - lo, d);
    }
  }

  lemma QuotientNatural(x: int, d: nat)
    requires d > 0 && x >= 0
    ensures x / d >= 0
  {
  }

  lemma {:induction false} SpanHolds(window: seq<int>, lo: int, hi: int, d: nat)
    requires d > 0 && Spaced(window, d)
    ensures Within(window, lo, hi) <= Capacity(lo, hi, d)
  {
    if window == [] {
      if hi >= lo {
        QuotientNatural(hi - lo, d);
      }
    } else {
      var last := |window| - 1;
      var x := window[last];
      SpanHolds(window[..last], lo, hi, d);
      if lo <= x <= hi {
        WithinBelow(window[..last], lo, hi, x - d);
        SpanHolds(window[..last], lo, x - d, d);
        OneMore(lo, hi, x, d);
      }
    }
  }

  /** So no span of `width` milliseconds between two resets holds more than width / debounce + 1 sends. */
  lemma SendsInSpan(w: Wakes, es: seq<Event>, n: string, debounceMs: nat, lo: int, width: nat)
    requires debounceMs > 0 && Reached(w, es, debounceMs)
    ensures Within(AccountOf(w, n).window, lo, lo + width) <= width / debounceMs + 1
  {
    WindowsAreSpaced(w, es, n, debounceMs);
    SpanHolds(AccountOf(w, n).window, lo, lo + width, debounceMs);
  }

  // ----- What the counters count -----

  function CounterAt(state: WakeState, which: Counter): nat {
    match which
    case Dispatched => state.dispatched
    case Suppressed => state.suppressed
    case Failed => state.failed
  }

  /** How the event ends a dispatch to this session: sent, failed to send, or held back. */
  predicate EndsAs(w: Wakes, e: Event, n: string, which: Counter, debounceMs: nat)
    requires Enabled(w, e)
  {
    Concerns(w, e) == n &&
    match e
    case Begin(_, _, optedIn, allowed, _) => which == Suppressed && optedIn && !allowed
    case Probed(_, safe) => which == Suppressed && !safe
    case Claim(c) => which == Suppressed && c !in Apply(w, e, debounceMs).calls
    case Sent(_, ok) => which == if ok then Dispatched else Failed
    case Reset(_) => false
  }

  predicate ResetIn(es: seq<Event>, n: string) {
    es != [] && (es[0] == Reset(n) || ResetIn(es[1..], n))
  }

  /** How many events along the run, after the last reset of the session, end one of its dispatches in this way. */
  function Endings(w: Wakes, es: seq<Event>, n: string, which: Counter, debounceMs: nat): nat
    requires Runs(w, es, debounceMs)
    decreases |es|
  {
    if es == [] then 0
    else (if EndsAs(w, es[0], n, which, debounceMs) && !ResetIn(es[1..], n) then 1 else 0)
         + Endings(Apply(w, es[0], debounceMs), es[1..], n, which, debounceMs)
  }

  lemma CounterMoves(w: Wakes, e: Event, n: string, which: Counter, debounceMs: nat)
    requires Enabled(w, e)
    ensures CounterAt(AccountOf(Apply(w, e, debounceMs), n).state, which) ==
            if e == Reset(n) then 0
            else CounterAt(AccountOf(w, n).state, which) + if EndsAs(w, e, n, which, debounceMs) then 1 else 0
  {
    if Concerns(w, e) != n {
      OthersUnchanged(w, e, n, debounceMs);
    }
  }

  lemma {:induction false} CountersOverRun(w: Wakes, es: seq<Event>, n: string, which: Counter, debounceMs: nat)
    requires Runs(w, es, debounceMs)
    ensures CounterAt(AccountOf(After(w, es, debounceMs), n).state, which) ==
            (if ResetIn(es, n) then 0 else CounterAt(AccountOf(w, n).state, which)) + Endings(w, es, n, which, debounceMs)
    decreases |es|
  {
    if es != [] {
      CounterMoves(w, es[0], n, which, debounceMs);
      CountersOverRun(Apply(w, es[0], debounceMs), es[1..], n, which, debounceMs);
    }
  }

  /** Each counter is the number of dispatches that ended in its way since the session was last reset. */
  lemma {:induction false} CountersMean(w: Wakes, es: seq<Event>, n: string, which: Counter, debounceMs: nat)
    requires Reached(w, es, debounceMs)
    ensures CounterAt(AccountOf(w, n).state, which) == Endings(NO_WAKES, es, n, which, debounceMs)
  {
    CountersOverRun(NO_WAKES, es, n, which, debounceMs);
  }
}
