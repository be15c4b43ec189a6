/** Any number of concurrent calls of Transition, down to its loads and swaps. */
module TransitionCalls {
  import opened Base
  import opened SparkplugState

  /** Where an agent stands in its current call. */
  datatype Pc = Outside | Loading(event: Event) | Swapping(event: Event, seen: State)

  /** One call taking effect. */
  datatype Effect = Effect(agent: nat, event: Event)

  /** The shared word, each agent's place, the calls it began and finished, and the
      order in which calls took effect. */
  datatype System = System(
    state: State,
    pcs: map<nat, Pc>,
    begun: map<nat, seq<Event>>,
    ended: map<nat, seq<Event>>,
    effects: seq<Effect>)

  datatype Step = Call(k: nat, event: Event) | Load(k: nat) | Swap(k: nat)

  const START := System(Offline, map[], map[], map[], [])

  function PcOf(s: System, k: nat): Pc {
    if k in s.pcs then s.pcs[k] else Outside
  }

  function Of(log: map<nat, seq<Event>>, k: nat): seq<Event> {
    if k in log then log[k] else []
  }

  predicate Enabled(s: System, st: Step) {
    match st
    case Call(k, _) => PcOf(s, k).Outside?
    case Load(k) => PcOf(s, k).Loading?
    case Swap(k) => PcOf(s, k).Swapping?
  }

  /** The call of k returns, having taken effect now. */
  function Finish(s: System, k: nat, event: Event, state: State): System {
    s.(state := state,
       pcs := s.pcs[k := Outside],
       ended := s.ended[k := Of(s.ended, k) + [event]],
       effects := s.effects + [Effect(k, event)])
  }

  function Apply(s: System, st: Step): System
    requires Enabled(s, st)
  {
    match st
    case Call(k, event) =>
      s.(pcs := s.pcs[k := Loading(event)], begun := s.begun[k := Of(s.begun, k) + [event]])
    case Load(k) =>
      var event := s.pcs[k].event;
      if Arc(s.state, event).None? then Finish(s, k, event, s.state)
      else s.(pcs := s.pcs[k := Swapping(event, s.state)])
    case Swap(k) =>
      var event, seen := s.pcs[k].event, s.pcs[k].seen;
      if s.state == seen then Finish(s, k, event, Next(seen, event))
      else s.(pcs := s.pcs[k := Loading(event)])
  }

  predicate IsRun(s: System, run: seq<Step>)
    decreases |run|
  {
    run == [] || (Enabled(s, run[0]) && IsRun(Apply(s, run[0]), run[1..]))
  }

  function After(s: System, run: seq<Step>): System
    requires IsRun(s, run)
    decreases |run|
  {
    if run == [] then s else After(Apply(s, run[0]), run[1..])
  }

  function EventsOf(effects: seq<Effect>): seq<Event> {
    seq(|effects|, i requires 0 <= i < |effects| => effects[i].event)
  }

  /** The effects of one agent, in order. */
  function By(effects: seq<Effect>, k: nat): seq<Event> {
    if effects == [] then []
    else
      var n := |effects| - 1;
      By(effects[..n], k) + (if effects[n].agent == k then [effects[n].event] else [])
  }

  /** The call of k that has begun and not ended, if any. */
  function Pending(s: System, k: nat): seq<Event> {
    match PcOf(s, k)
    case Outside => []
    case Loading(event) => [event]
    case Swapping(event, _) => [event]
  }

  /** The shared word is what the effects, one after the other, make of Offline; and for
      every agent its finished calls, each once and in order, are its effects. */
  ghost predicate Atomic(s: System) {
    && s.state == Fold(Offline, EventsOf(s.effects))
    && (forall k :: By(s.effects, k) == Of(s.ended, k))
    && (forall k :: Of(s.begun, k) == Of(s.ended, k) + Pending(s, k))
  }

  lemma EffectAdds(effects: seq<Effect>, e: Effect, k: nat)
    ensures By(effects + [e], k) == By(effects, k) + (if e.agent == k then [e.event] else [])
    ensures Fold(Offline, EventsOf(effects + [e])) == Next(Fold(Offline, EventsOf(effects)), e.event)
  {
    assert (effects + [e])[..|effects|] == effects;
    assert EventsOf(effects + [e]) == EventsOf(effects) + [e.event];
    assert EventsOf(effects + [e])[..|effects|] == EventsOf(effects);
  }

  lemma OneMoreEffect(s: System, k: nat, event: Event, state: State)
    requires Atomic(s) && state == Next(s.state, event) && Pending(s, k) == [event]
    ensures Atomic(Finish(s, k, event, state))
  {
    var t := Finish(s, k, event, state);
    hide Fold, EventsOf, By, Next;
    EffectAdds(s.effects, Effect(k, event), k);
    forall j: nat
      ensures By(t.effects, j) == Of(t.ended, j) && Of(t.begun, j) == Of(t.ended, j) + Pending(t, j)
    {
      EffectAdds(s.effects, Effect(k, event), j);
      assert By(s.effects, j) == Of(s.ended, j) && Of(s.begun, j) == Of(s.ended, j) + Pending(s, j);
      assert By(s.effects, j) + [] == By(s.effects, j);
    }
  }

  lemma StepIsAtomic(s: System, st: Step)
    requires Atomic(s) && Enabled(s, st)
    ensures Atomic(Apply(s, st))
  {
    var t := Apply(s, st);
    match st
    case Call(k, event) =>
      forall j: nat
        ensures By(t.effects, j) == Of(t.ended, j) && Of(t.begun, j) == Of(t.ended, j) + Pending(t, j)
      {
        assert By(s.effects, j) == Of(s.ended, j) && Of(s.begun, j) == Of(s.ended, j) + Pending(s, j);
      }
    case Load(k) =>
      if Arc(s.state, s.pcs[k].event).None? {
        OneMoreEffect(s, k, s.pcs[k].event, s.state);
      } else {
        SameCalls(s, t, k);
      }
    case Swap(k) =>
      if s.state == s.pcs[k].seen {
        OneMoreEffect(s, k, s.pcs[k].event, t.state);
      } else {
        SameCalls(s, t, k);
      }
  }

  lemma SameCalls(s: System, t: System, k: nat)
    requires Atomic(s) && t == s.(pcs := t.pcs) && t.pcs == s.pcs[k := PcOf(t, k)] && Pending(t, k) == Pending(s, k)
    ensures Atomic(t)
  {
    forall j: nat
      ensures By(t.effects, j) == Of(t.ended, j) && Of(t.begun, j) == Of(t.ended, j) + Pending(t, j)
    {
      assert By(s.effects, j) == Of(s.ended, j) && Of(s.begun, j) == Of(s.ended, j) + Pending(s, j);
    }
  }

  lemma {:induction false} RunIsAtomic(s: System, run: seq<Step>)
    requires Atomic(s) && IsRun(s, run)
    ensures Atomic(After(s, run))
    decreases |run|
  {
    hide Atomic, Enabled, Apply;
    if run != [] {
      StepIsAtomic(s, run[0]);
      RunIsAtomic(Apply(s, run[0]), run[1..]);
    }
  }

  /** However calls of Transition interleave, they are single atomic steps: some order of
      the finished calls, which is each caller's own order, explains the shared state,
      and a call that has not returned has had no effect. */
  lemma TransitionsAreAtomic(run: seq<Step>)
    requires IsRun(START, run)
    ensures var s := After(START, run);
            && s.state == Fold(Offline, EventsOf(s.effects))
            && (forall k :: By(s.effects, k) == Of(s.ended, k))
            && (forall k :: Of(s.begun, k) == Of(s.ended, k) + Pending(s, k))
  {
    RunIsAtomic(START, run);
  }

  /** The effect lies inside the call: a step adds at most one effect, for an agent whose
      call has begun and which that step ends. */
  lemma EffectInsideCall(s: System, st: Step)
    requires Atomic(s) && Enabled(s, st)
    ensures var t := Apply(s, st);
            t.effects == s.effects
            || (exists k, event ::
                  && t.effects == s.effects + [Effect(k, event)] && Pending(s, k) == [event]
                  && Pending(t, k) == [])
  {
    if !st.Call? {
      var t, k := Apply(s, st), st.k;
      if t.effects != s.effects {
        assert t.effects == s.effects + [Effect(k, s.pcs[k].event)];
      }
    }
  }

  /** A swap fails only because another call took effect since the load: the loop never
      retries without progress elsewhere. */
  lemma FailedSwapMeansProgress(s: System, run: seq<Step>, k: nat)
    requires PcOf(s, k).Loading? && Enabled(s, Load(k)) && Arc(s.state, s.pcs[k].event).Some?
    requires IsRun(Apply(s, Load(k)), run) && forall st :: st in run ==> st.k != k
    requires After(Apply(s, Load(k)), run).state != s.state
    ensures |After(Apply(s, Load(k)), run).effects| > |s.effects|
  {
    QuietRun(Apply(s, Load(k)), run);
  }

  lemma {:induction false} QuietRun(s: System, run: seq<Step>)
    requires IsRun(s, run)
    ensures |After(s, run).effects| >= |s.effects|
    ensures |After(s, run).effects| == |s.effects| ==> After(s, run).state == s.state
    decreases |run|
  {
    if run != [] {
      QuietRun(Apply(s, run[0]), run[1..]);
    }
  }
}
