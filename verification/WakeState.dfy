/** The debounce window and the counters of a session's wake state (src/core/session-registry.ts). */
module WakeState {
  import opened Prelude

  datatype WakeState = WakeState(lastDispatchedAt: Option<int>, dispatched: nat, suppressed: nat, failed: nat)

  const FRESH := WakeState(None, 0, 0, 0)

  datatype Counter = Dispatched | Suppressed | Failed

  function StateOf(states: map<string, WakeState>, name: string): WakeState {
    if name in states then states[name] else FRESH
  }

  predicate WindowOpen(state: WakeState, now: int, debounceMs: nat) {
    state.lastDispatchedAt.None? || now - state.lastDispatchedAt.value >= debounceMs
  }

  function Consume(state: WakeState, now: int, debounceMs: nat): WakeState {
    if WindowOpen(state, now, debounceMs) then state.(lastDispatchedAt := Some(now)) else state
  }

  function Bump(state: WakeState, which: Counter): WakeState {
    match which
    case Dispatched => state.(dispatched := state.dispatched + 1)
    case Suppressed => state.(suppressed := state.suppressed + 1)
    case Failed => state.(failed := state.failed + 1)
  }

  function Total(state: WakeState): nat {
    state.dispatched + state.suppressed + state.failed
  }
}
