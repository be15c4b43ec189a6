/** internal/sparkplug/state.go: the edge node's states, and the compare-and-swap loop
    that makes concurrent Transition calls take effect one at a time. */
module SparkplugState {
  import opened Base

  datatype State = Offline | Connecting | Online

  datatype Event = ConnectAttempt | ConnectSuccess | ConnectFail | Disconnect | ConnectionLost

  /** transition; None where the Go function reports that the event does not apply. */
  function Arc(from: State, event: Event): Option<State> {
    match (from, event)
    case (Offline, ConnectAttempt) => Some(Connecting)
    case (Connecting, ConnectSuccess) => Some(Online)
    case (Connecting, ConnectFail) => Some(Offline)
    case (Online, Disconnect) => Some(Offline)
    case (Online, ConnectionLost) => Some(Offline)
    case _ => None
  }

  /** One event taking effect at once. */
  function Next(from: State, event: Event): State {
    match Arc(from, event)
    case Some(to) => to
    case None => from
  }

  function Fold(from: State, events: seq<Event>): State {
    if events == [] then from else Next(Fold(from, events[..|events| - 1]), events[|events| - 1])
  }

  /** An arc leaves its source, so a swap that succeeds is a change. */
  lemma ArcMoves(from: State, event: Event)
    ensures Arc(from, event).Some? ==> Arc(from, event).value != from
  {
  }

  // ----- the loop -----

  class StateMachine {
    var state: State

    constructor ()
      ensures state == Offline
    {
      state := Offline;
    }

    /** Transition, while other calls make the events `others` take effect, one between
        each load and the swap that follows it. The call takes effect exactly once, after
        the first n of them, and the loop ends as soon as the others leave it alone. */
    method Transition(event: Event, others: seq<Event>) returns (n: nat)
      modifies this
      ensures n <= |others|
      ensures state == Next(Fold(old(state), others[..n]), event)
    {
      n := 0;
      while true
        invariant n <= |others| && state == Fold(old(state), others[..n])
        decreases |others| - n
      {
        var current := state;
        var next := Arc(current, event);
        if next.None? {
          return;
        }
        if n < |others| {
          assert others[..n + 1][..n] == others[..n];
          state := Next(state, others[n]);
          n := n + 1;
        }
        if state == current {
          state := next.value;
          return;
        }
      }
    }
  }
}
