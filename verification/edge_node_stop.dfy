/** Stop of the edge node can always return: closing the done channel lets both loops come
    to their end, whatever they are doing. And a reconnect answers to a loss that came
    after the last one it dealt with. */
module EdgeNodeStop {
  import opened Base
  import opened SparkplugState
  import Seq = SparkplugSeq
  import opened EdgeNode
  import opened EdgeNodeInvariants
  import opened EdgeNodeGaps

  // ----- continuations of what is under way -----

  /** A step of Stop, of one of the loops or of a birth: no call and no loss from outside. */
  predicate Inner(st: Step) {
    st.Stop? || st.Loop? || st.Reconnect? || st.BirthStep?
  }

  ghost predicate Reaches(s: Node, t: Node) {
    exists run :: IsRun(s, run) && After(s, run) == t && forall st :: st in run ==> Inner(st)
  }

  lemma Stays(s: Node)
    ensures Reaches(s, s)
  {
    assert IsRun(s, []) && After(s, []) == s;
  }

  lemma Goes(s: Node, t: Node, st: Step)
    requires Reaches(s, t) && Enabled(t, st) && Inner(st)
    ensures Reaches(s, Apply(t, st))
  {
    hide Enabled, Apply, IsRun, After;
    var run :| IsRun(s, run) && After(s, run) == t && forall x :: x in run ==> Inner(x);
    Appended(s, run, st);
    assert forall x :: x in run + [st] ==> x in run || x == st;
  }

  /** Stop waits only after it has closed the done channel, and the reconnect loop waits
      for a birth that exists. */
  ghost predicate WaitsOk(s: Node) {
    && (s.stop.WaitingForLoops? || s.stop.Stopped? ==> s.closed)
    && (s.reconnect.Republishing? ==> s.reconnect.k < |s.births|)
  }

  lemma MoveKeepsWaits(s: Node, event: Event)
    ensures var t := Move(s, event);
            t.stop == s.stop && t.closed == s.closed && t.reconnect == s.reconnect && t.births == s.births
  {
  }

  lemma BirthKeepsWaits(s: Node, k: nat, ok: bool)
    requires WaitsOk(s) && k < |s.births|
    ensures WaitsOk(BirthOn(s, k, ok))
  {
    MoveKeepsWaits(s, ConnectSuccess);
    MoveKeepsWaits(s, ConnectFail);
    hide Move, NumberOf;
  }

  lemma StopKeepsWaits(s: Node, ok: bool)
    requires WaitsOk(s) && StopEnabled(s)
    ensures WaitsOk(StopOn(s, ok))
  {
    MoveKeepsWaits(s, Disconnect);
    hide Move, NumberOf;
  }

  lemma WaitsKeep(s: Node, st: Step)
    requires WaitsOk(s) && Enabled(s, st)
    ensures WaitsOk(Apply(s, st))
  {
    hide Move, BirthOn, StopOn, NumberOf;
    match st
    case StartCall => MoveKeepsWaits(s, ConnectAttempt);
    case StartErr => MoveKeepsWaits(s, ConnectFail);
    case Lose => MoveKeepsWaits(s, ConnectionLost);
    case BirthStep(k, ok) => BirthKeepsWaits(s, k, ok);
    case Stop(ok) => StopKeepsWaits(s, ok);
    case _ =>
  }

  lemma {:induction false} WaitsInRun(s: Node, run: seq<Step>)
    requires WaitsOk(s) && IsRun(s, run)
    ensures WaitsOk(After(s, run))
    decreases |run|
  {
    hide WaitsOk, Enabled, Apply;
    if run != [] {
      WaitsKeep(s, run[0]);
      WaitsInRun(Apply(s, run[0]), run[1..]);
    }
  }

  // ----- Stop comes to its wait -----

  function Less(a: nat, b: nat): nat {
    if a <= b then b - a else 0
  }

  /** Steps of Stop until it waits for the loops. */
  function UntilWait(s: Node): nat {
    match s.stop
    case NotStopping => 0
    case DeathOf(i) => 2 * Less(i, s.devices) + 6
    case SendingDeath(i, _) => 2 * Less(i + 1, s.devices) + 7
    case NodeDeath => 5
    case SendingNodeDeath(_) => 4
    case Leaving => 3
    case Closing => 2
    case _ => 1
  }

  ghost predicate SameLoops(s: Node, t: Node) {
    t.loop == s.loop && t.reconnect == s.reconnect && t.births == s.births && t.devices == s.devices
  }

  lemma StopMovesOn(s: Node)
    requires WaitsOk(s) && !s.stop.NotStopping? && !s.stop.WaitingForLoops? && !s.stop.Stopped?
    ensures StopEnabled(s)
    ensures var t := StopOn(s, true);
            && SameLoops(s, t) && WaitsOk(t) && UntilWait(t) < UntilWait(s)
            && !t.stop.NotStopping? && !t.stop.Stopped?
  {
    MoveKeepsWaits(s, Disconnect);
    hide NumberOf;
  }

  lemma StopToWait(s0: Node, s: Node) returns (t: Node)
    requires Reaches(s0, s) && WaitsOk(s) && !s.stop.NotStopping? && !s.stop.Stopped?
    ensures Reaches(s0, t) && SameLoops(s, t) && WaitsOk(t) && t.stop.WaitingForLoops?
    decreases UntilWait(s)
  {
    hide Reaches, WaitsOk, UntilWait;
    if s.stop.WaitingForLoops? {
      t := s;
    } else {
      StopMovesOn(s);
      hide StopOn;
      Goes(s0, s, Stop(true));
      t := StopToWait(s0, StopOn(s, true));
    }
  }

  // ----- the publish loop comes to its end -----

  predicate LoopGone(s: Node) {
    s.loop.LoopOff? || s.loop.LoopExited?
  }

  /** Only the publish loop, its messages and its numbers. */
  ghost predicate LoopOnly(s: Node, t: Node) {
    t == s.(loop := t.loop, counter := t.counter, ops := t.ops, log := t.log)
  }

  lemma LoopEnds(s0: Node, s: Node) returns (t: Node)
    requires Reaches(s0, s) && s.closed
    ensures Reaches(s0, t) && LoopOnly(s, t) && LoopGone(t)
  {
    hide Reaches;
    t := s;
    if t.loop.Holding? {
      Goes(s0, t, Loop(Check));
      t := Apply(t, Loop(Check));
    }
    if t.loop.Checked? {
      Goes(s0, t, Loop(TakeNumber));
      t := Apply(t, Loop(TakeNumber));
    }
    if t.loop.Sending? {
      Goes(s0, t, Loop(Publish(true)));
      t := Apply(t, Loop(Publish(true)));
    }
    if t.loop.Waiting? {
      Goes(s0, t, Loop(ExitLoop));
      t := Apply(t, Loop(ExitLoop));
    }
  }

  // ----- a birth comes to its end -----

  function UntilOver(s: Node, k: nat): nat
    requires k < |s.births|
  {
    match s.births[k].pc
    case Resetting => 2 * s.devices + 8
    case Numbering => 2 * s.devices + 7
    case Publishing(_) => 2 * s.devices + 6
    case AtDevice(i) => 2 * Less(i, s.devices) + 3
    case SendingDevice(i, _) => 2 * Less(i + 1, s.devices) + 4
    case Succeeding => 1
    case Failing => 1
    case Over => 0
  }

  /** Only birth k, its messages, its numbers and the state machine. */
  ghost predicate BirthOnly(s: Node, t: Node, k: nat) {
    && k < |s.births| == |t.births|
    && t == s.(births := t.births, counter := t.counter, ops := t.ops, log := t.log, sm := t.sm, path := t.path)
  }

  lemma BirthMovesOn(s: Node, k: nat)
    requires k < |s.births| && !s.births[k].pc.Over?
    ensures BirthOnly(s, BirthOn(s, k, true), k)
    ensures UntilOver(BirthOn(s, k, true), k) < UntilOver(s, k)
  {
    hide NumberOf;
  }

  lemma BirthEnds(s0: Node, s: Node, k: nat) returns (t: Node)
    requires Reaches(s0, s) && k < |s.births|
    ensures Reaches(s0, t) && BirthOnly(s, t, k) && t.births[k].pc.Over?
    decreases UntilOver(s, k)
  {
    hide Reaches, UntilOver;
    if s.births[k].pc.Over? {
      t := s;
    } else {
      BirthMovesOn(s, k);
      hide BirthOn;
      Goes(s0, s, BirthStep(k, true));
      t := BirthEnds(s0, BirthOn(s, k, true), k);
    }
  }

  // ----- the reconnect loop comes to its end -----

  predicate ReconnectGone(s: Node) {
    s.reconnect.ReconnectOff? || s.reconnect.ReconnectExited?
  }

  ghost predicate SameStop(s: Node, t: Node) {
    t.stop == s.stop && t.loop == s.loop
  }

  lemma ReconnectStepsOn(s0: Node, s: Node, r: ReconnectStep) returns (t: Node)
    requires Reaches(s0, s) && ReconnectEnabled(s, r)
    ensures t == ReconnectOn(s, r) && Reaches(s0, t) && SameStop(s, t)
  {
    hide Reaches;
    Goes(s0, s, Reconnect(r));
    t := Apply(s, Reconnect(r));
  }

  lemma ReconnectEnds(s0: Node, s: Node) returns (t: Node)
    requires Reaches(s0, s) && WaitsOk(s)
    ensures Reaches(s0, t) && SameStop(s, t) && ReconnectGone(t)
  {
    hide Reaches;
    t := s;
    if t.reconnect.Retrying? {
      t := ReconnectStepsOn(s0, t, GiveUp);
    }
    if t.reconnect.Resubscribing? {
      t := ReconnectStepsOn(s0, t, Rebirth);
    }
    if t.reconnect.Republishing? {
      t := BirthEnds(s0, t, t.reconnect.k);
      t := ReconnectStepsOn(s0, t, BirthDone);
    }
    if t.reconnect.Draining? {
      t := ReconnectStepsOn(s0, t, Drain);
    }
    if t.reconnect.Listening? {
      t := ReconnectStepsOn(s0, t, ExitReconnect);
    }
  }

  /** From every point of every run at which a Stop is under way, its own steps and those
      of the loops and births that are under way can bring it to its return. */
  lemma StopCanReturn(devices: nat, run: seq<Step>)
    requires IsRun(Initial(devices), run) && !After(Initial(devices), run).stop.NotStopping?
    ensures exists t :: Reaches(After(Initial(devices), run), t) && t.stop.Stopped?
  {
    WaitsInRun(Initial(devices), run);
    var s := After(Initial(devices), run);
    Stays(s);
    hide Reaches, IsRun, After;
    if !s.stop.Stopped? {
      var t := StopToWait(s, s);
      t := LoopEnds(s, t);
      t := ReconnectEnds(s, t);
      Goes(s, t, Stop(true));
      assert Apply(t, Stop(true)).stop.Stopped?;
    }
  }

  // ----- one loss, one reconnect -----

  lemma MoveSameSignal(s: Node, event: Event)
    ensures Move(s, event).signal == s.signal
  {
  }

  lemma BirthSameSignal(s: Node, k: nat, ok: bool)
    requires k < |s.births|
    ensures BirthOn(s, k, ok).signal == s.signal
  {
    MoveSameSignal(s, ConnectSuccess);
    MoveSameSignal(s, ConnectFail);
    hide Move, NumberOf;
  }

  lemma StopSameSignal(s: Node, ok: bool)
    requires StopEnabled(s)
    ensures StopOn(s, ok).signal == s.signal
  {
    MoveSameSignal(s, Disconnect);
    hide Move, NumberOf;
  }

  lemma StepKeepsQuiet(s: Node, st: Step)
    requires !s.signal && Enabled(s, st) && !st.Signal?
    ensures !Apply(s, st).signal
  {
    hide Move, BirthOn, StopOn, NumberOf;
    match st
    case StartCall => MoveSameSignal(s, ConnectAttempt);
    case StartErr => MoveSameSignal(s, ConnectFail);
    case Lose => MoveSameSignal(s, ConnectionLost);
    case BirthStep(k, ok) => BirthSameSignal(s, k, ok);
    case Stop(ok) => StopSameSignal(s, ok);
    case _ =>
  }

  lemma {:induction false} RunKeepsQuiet(s: Node, run: seq<Step>)
    requires !s.signal && IsRun(s, run) && Signal !in run
    ensures !After(s, run).signal
    decreases |run|
  {
    hide Enabled, Apply;
    if run != [] {
      StepKeepsQuiet(s, run[0]);
      RunKeepsQuiet(Apply(s, run[0]), run[1..]);
    }
  }

  /** Once the reconnect loop has heard a loss, or has drained its channel after a
      reconnect, it does not set out again before another loss is signalled; and a signal
      that comes makes it set out when it listens. */
  lemma OneReconnectPerLoss(s: Node, r: ReconnectStep, run: seq<Step>)
    requires ReconnectEnabled(s, r) && (r.Hear? || r.Drain?) && IsRun(ReconnectOn(s, r), run) && Signal !in run
    ensures !ReconnectEnabled(After(ReconnectOn(s, r), run), Hear)
    ensures var t := After(ReconnectOn(s, r), run);
            Enabled(t, Signal) && t.reconnect.Listening? ==> ReconnectEnabled(Apply(t, Signal), Hear)
  {
    RunKeepsQuiet(ReconnectOn(s, r), run);
    hide After, IsRun;
  }
}
