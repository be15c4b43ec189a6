/** When a Stop is final: what it leaves behind, and the exact condition. */
module ManagerStop {
  import opened Base
  import opened Scalars
  import opened PlcManager
  import opened ManagerProtocol
  import opened ManagerInvariants
  import opened ManagerContexts
  import opened ManagerProgress

  // ----- a quiet Stop is final -----

  /** Stop k has returned, and it was quiet. */
  predicate QuietReturn(s: State, k: nat) {
    k in s.stops && s.stops[k].Returned? && s.stops[k].quiet
  }

  /** No goroutine appears or moves; worker entries and current values may only go; and
      if no Reload is past its check not even that. */
  ghost predicate WindsDown(s: State, t: State) {
    && t.core.gs == s.core.gs
    && (forall n :: n in t.core.workers ==> n in s.core.workers && t.core.workers[n] == s.core.workers[n])
    && (forall n :: n in t.core.current ==> n in s.core.current && t.core.current[n] == s.core.current[n])
    && (NoReloadInWindow(s) ==>
          && NoReloadInWindow(t) && t.core.workers == s.core.workers && t.core.current == s.core.current
          && t.closes == s.closes)
  }

  lemma QuietMeansGone(s: State, k: nat)
    requires Inv(s) && QuietReturn(s, k)
    ensures s.core.stopped && Settled(s) && AllWorkersGone(s)
    ensures forall n :: n in s.core.workers ==> s.core.workers[n].driver in s.stops[k].closed
  {
    assert Quiet(s.stops[k]);
  }

  lemma GoneCannotWork(s: State, d: nat, w: WorkStep)
    requires AllWorkersGone(s)
    ensures !WorkEnabled(s, d, w)
  {
  }

  lemma SettledReload(s: State, r: ReloadStep)
    requires s.started && s.core.stopped && Settled(s) && ReloadEnabled(s, r)
    ensures WindsDown(s, ReloadOn(s, r)) && ReloadOn(s, r).stops == s.stops
  {
    if r.AddWorkers? {
      SettledAdd(s);
    } else if r.DrainWorkers? {
      SettledDrain(s, r.order);
    } else {
      hide AddAll, DrainSet, PlcNames, Settled;
    }
  }

  lemma SettledAdd(s: State)
    requires s.started && Settled(s) && AtPhase(s, InAdd)
    ensures WindsDown(s, ReloadOn(s, AddWorkers)) && ReloadOn(s, AddWorkers).stops == s.stops
  {
    AddAllNothing(s.core, s.reload.cfg);
    hide AddAll, PlcNames;
  }

  lemma SettledDrain(s: State, order: seq<string>)
    requires ReloadEnabled(s, DrainWorkers(order))
    ensures var t := ReloadOn(s, DrainWorkers(order));
            WindsDown(s, t) && t.stops == s.stops
  {
    hide DrainSet, CancelOf;
  }

  lemma SettledStart(s: State, order: seq<string>)
    requires Settled(s) && StartEnabled(s, order)
    ensures WindsDown(s, StartOn(s, order)) && StartOn(s, order).stops == s.stops
  {
    HeadIsListed(order);
  }

  lemma HeadIsListed(order: seq<string>)
    ensures order != [] ==> order[0] in ToSet(order)
  {
  }

  lemma ReturnedStays(s: State, k: nat, i: nat, st: StopStep)
    requires k in s.stops && s.stops[k].Returned? && StopEnabled(s, i, st)
    ensures k in StopOn(s, i, st).stops && StopOn(s, i, st).stops[k] == s.stops[k]
    ensures WindsDown(s, StopOn(s, i, st))
  {
    hide Settled;
  }

  lemma OutsideWindsDown(s: State, o: OutsideStep)
    requires OutsideEnabled(s, o)
    ensures WindsDown(s, OutsideOn(s, o))
    ensures forall k :: k in s.stops ==> k in OutsideOn(s, o).stops && OutsideOn(s, o).stops[k] == s.stops[k]
  {
  }

  lemma QuietStep(s: State, k: nat, st: Step)
    requires Inv(s) && QuietReturn(s, k) && Enabled(s, st)
    ensures WindsDown(s, Apply(s, st)) && QuietReturn(Apply(s, st), k) && Apply(s, st).stops[k] == s.stops[k]
  {
    QuietMeansGone(s, k);
    InvParts(s);
    hide Inv, WorkEnabled, WorkOn, ReloadEnabled, ReloadOn, StopEnabled, StopOn, StartEnabled, StartOn;
    hide OutsideEnabled, OutsideOn, AllWorkersGone, WindsDown, Settled;
    match st
    case Start(order) => SettledStart(s, order);
    case Work(d, w) => GoneCannotWork(s, d, w);
    case Reloading(r) =>
      StartedForReload(s, r);
      SettledReload(s, r);
    case Stopping(i, stop) => ReturnedStays(s, k, i, stop);
    case Outside(o) => OutsideWindsDown(s, o);
  }

  lemma StartedForReload(s: State, r: ReloadStep)
    requires GoroutinesOk(s) && ReloadEnabled(s, r)
    ensures s.started
  {
  }

  lemma WindsDownOn(s: State, t: State, u: State)
    requires WindsDown(s, t) && WindsDown(t, u)
    ensures WindsDown(s, u)
  {
  }

  lemma {:induction false} QuietRun(s: State, k: nat, run: seq<Step>)
    requires Inv(s) && QuietReturn(s, k) && IsRun(s, run)
    ensures WindsDown(s, After(s, run)) && QuietReturn(After(s, run), k) && Inv(After(s, run))
    ensures After(s, run).stops[k] == s.stops[k]
    decreases |run|
  {
    hide Inv, Enabled, Apply, WindsDown;
    if run == [] {
      NothingWindsDown(s);
    } else {
      StepKeeps(s, run[0]);
      QuietStep(s, k, run[0]);
      QuietRun(Apply(s, run[0]), k, run[1..]);
      WindsDownOn(s, Apply(s, run[0]), After(s, run));
    }
  }

  lemma NothingWindsDown(s: State)
    ensures WindsDown(s, s)
  {
  }

  /** Once a quiet Stop has returned, every goroutine has ended and every registered
      driver was closed by this Stop; whatever is called later, no goroutine appears or
      moves any more. */
  lemma StopIsFinal(cfgs: seq<PLC>, run: seq<Step>, k: nat, later: seq<Step>)
    requires IsRun(Initial(cfgs), run)
    requires QuietReturn(After(Initial(cfgs), run), k) && IsRun(After(Initial(cfgs), run), later)
    ensures var s := After(Initial(cfgs), run);
            && (forall d :: d in s.core.gs ==> s.core.gs[d].pc.Gone?)
            && (forall n :: n in s.core.workers ==> s.core.workers[n].driver in s.stops[k].closed)
            && WindsDown(s, After(s, later))
  {
    InitialHolds(cfgs);
    RunKeeps(Initial(cfgs), run);
    var s := After(Initial(cfgs), run);
    hide IsRun, After, Inv, WindsDown;
    QuietRun(s, k, later);
    QuietMeansGone(s, k);
  }

  /** A quiet Stop closes the drivers only when every goroutine has ended. */
  lemma CloseAfterExit(s: State, k: nat)
    requires Inv(s) && StopEnabled(s, k, CloseAll) && s.stops[k].quiet
    ensures AllWorkersGone(s)
    ensures forall n :: n in s.core.workers ==> s.core.workers[n].driver in StopOn(s, k, CloseAll).stops[k].closed
  {
    assert Quiet(s.stops[k]);
  }

  /** A Reload that starts after Stop set `stopped` returns from its check without having
      changed anything. */
  lemma ReloadAfterStop(s: State)
    requires Inv(s) && s.core.stopped && ReloadEnabled(s, CheckStopped)
    ensures ReloadOn(s, CheckStopped).reload.Idle? && ReloadOn(s, CheckStopped).core == s.core
  {
  }

  // ----- exactly which Stops are final -----

  /** If Stop k has returned, every goroutine has ended and every registered driver was
      closed by it. */
  ghost predicate Final(s: State, k: nat) {
    k in s.stops && (s.stops[k].Returned? ==>
      && AllWorkersGone(s)
      && forall n :: n in s.core.workers ==> s.core.workers[n].driver in s.stops[k].closed)
  }

  lemma QuietStays(s: State, k: nat, st: Step)
    requires k in s.stops && Quiet(s.stops[k]) && Enabled(s, st)
    ensures k in Apply(s, st).stops && Quiet(Apply(s, st).stops[k])
  {
    hide NextGoroutine, Settled, AddAll, Drain, DrainSet, StartAll;
  }

  lemma {:induction false} QuietRunStays(s: State, k: nat, run: seq<Step>)
    requires Inv(s) && k in s.stops && Quiet(s.stops[k]) && IsRun(s, run)
    ensures Inv(After(s, run)) && k in After(s, run).stops && Quiet(After(s, run).stops[k])
    decreases |run|
  {
    hide Inv, Enabled, Apply, Quiet;
    if run != [] {
      StepKeeps(s, run[0]);
      QuietStays(s, k, run[0]);
      QuietRunStays(Apply(s, run[0]), k, run[1..]);
    }
  }

  lemma QuietIsFinal(s: State, k: nat)
    requires Inv(s) && k in s.stops && Quiet(s.stops[k])
    ensures Final(s, k)
  {
  }

  /** Stop k has returned and somebody is still, or again, at work. */
  ghost predicate Survived(s: State, k: nat) {
    k in s.stops && s.stops[k].Returned? && SomebodyLives(s)
  }

  lemma SurvivedIsNotFinal(s: State, k: nat)
    requires Survived(s, k)
    ensures !Final(s, k)
  {
  }

  /** Before Start: the Stop returns at once, and Start then launches every worker. */
  lemma StartSurvives(s: State, k: nat) returns (u: State)
    requires Inv(s) && ContextsOk(s) && FreeMu(s) && WaitsFor(s, k) && !s.started && s.core.workers != map[]
    ensures Leads(s, u) && Survived(u, k)
  {
    InvParts(s);
    hide Inv, ContextsOk, Leads, Reaches;
    Stays(s);
    var t := FinishStop(s, s, k);
    NoSteps(s);
    ReachesLeads(s, s, t);
    var order := AnyOrder(t.core.workers.Keys);
    Then(s, t, Start(order));
    u := StartOn(t, order);
    StartLaunches(t, order);
  }

  lemma StartLaunches(t: State, order: seq<string>)
    requires t.core.gs == map[] && t.core.workers != map[]
    requires NoDuplicates(order) && ToSet(order) == t.core.workers.Keys
    ensures SomebodyLives(StartOn(t, order)) && StartOn(t, order).stops == t.stops
  {
    StartAllStarts(t.core, order);
    hide StartAll;
    var u := StartOn(t, order);
    var n :| n in t.core.workers;
    assert n in ToSet(order);
    assert u.core.workers[n].done in u.core.gs;
    assert Live(u.core.gs[u.core.workers[n].done]);
  }

  /** In a Reload's window: every goroutine ends, the Stop returns, and the Reload then
      launches what its configuration still asks for. */
  lemma WindowSurvives(s: State, k: nat) returns (u: State)
    requires Inv(s) && ContextsOk(s) && FreeMu(s) && WaitsFor(s, k) && LiveAreCancelled(s)
    requires s.started && !Settled(s)
    ensures Leads(s, u) && Survived(u, k)
  {
    InvParts(s);
    hide Inv, ContextsOk, Leads, Reaches;
    Stays(s);
    forall d | d in s.core.gs
      ensures CanEnd(s, d)
    {
      FreeMeansOutside(s, d);
    }
    var v := DriveAllOut(s, s, s.core.gs.Keys);
    var t := FinishStop(s, v, k);
    u := FromWindow(s, t);
    NoSteps(s);
    ReachesLeads(s, s, u);
  }

  /** A Stop is final, in every continuation, if and only if when it set `stopped` no
      launch was still to come: before Start that there was no worker; after Start that
      no Reload was past its check, or that the one that was will find every name of its
      configuration among the workers it keeps. */
  lemma StopIsFinalIffSettled(cfgs: seq<PLC>, run: seq<Step>, k: nat)
    requires IsRun(Initial(cfgs), run) && StopEnabled(After(Initial(cfgs), run), k, Mark)
    ensures var s := After(Initial(cfgs), run);
            (forall later :: IsRun(StopOn(s, k, Mark), later) ==> Final(After(StopOn(s, k, Mark), later), k)) <==> Settled(s)
  {
    InRun(cfgs, run);
    hide *;
    MarkedState(After(Initial(cfgs), run), k);
    FinalFromMark(StopOn(After(Initial(cfgs), run), k, Mark), k);
  }

  lemma FinalFromMark(t: State, k: nat)
    requires Inv(t) && ContextsOk(t) && FreeMu(t) && WaitsFor(t, k) && LiveAreCancelled(t)
    requires k in t.stops && (Settled(t) ==> Quiet(t.stops[k]))
    ensures (forall later :: IsRun(t, later) ==> Final(After(t, later), k)) <==> Settled(t)
  {
    hide *;
    if Settled(t) {
      forall later | IsRun(t, later)
        ensures Final(After(t, later), k)
      {
        QuietRunStays(t, k, later);
        QuietIsFinal(After(t, later), k);
      }
    } else {
      var u := LauncherSurvives(t, k);
      SurvivedIsNotFinal(u, k);
      var later := RunTo(t, u);
    }
  }

  lemma RunTo(t: State, u: State) returns (run: seq<Step>)
    requires Leads(t, u)
    ensures IsRun(t, run) && After(t, run) == u
  {
    run :| IsRun(t, run) && After(t, run) == u;
  }

  /** What is known right after Stop k has set `stopped`. */
  lemma MarkedState(s: State, k: nat)
    requires Inv(s) && ContextsOk(s) && StopEnabled(s, k, Mark)
    ensures var t := StopOn(s, k, Mark);
            && Inv(t) && ContextsOk(t) && FreeMu(t) && WaitsFor(t, k) && LiveAreCancelled(t) && k in t.stops
            && (Settled(t) <==> Settled(s)) && (Settled(s) ==> Quiet(t.stops[k]))
  {
    InvParts(s);
    MarkCancelsLive(s, k);
    StopKeeps(s, k, Mark);
    StopKeepsContexts(s, k, Mark);
    assert s.mu.writer == Some(StopAgent(k)) <==> Writes(s, StopAgent(k));
    hide Inv, ContextsOk, DrainSet;
  }

  lemma LauncherSurvives(t: State, k: nat) returns (u: State)
    requires Inv(t) && ContextsOk(t) && FreeMu(t) && WaitsFor(t, k) && LiveAreCancelled(t) && !Settled(t)
    ensures Leads(t, u) && Survived(u, k)
  {
    hide Inv, ContextsOk, Leads, Survived;
    if t.started {
      u := WindowSurvives(t, k);
    } else {
      u := StartSurvives(t, k);
    }
  }

  // ----- a Stop inside a Reload's window is not -----

  /** A Stop has returned, and yet a goroutine it never waited for serves p. */
  ghost predicate Missed(s: State, p: PLC) {
    && 0 in s.stops && s.stops[0].Returned?
    && s.core.stopped && s.reload.Idle?
    && p.name in s.core.workers
    && var w := s.core.workers[p.name];
       w.done in s.core.gs && Live(s.core.gs[w.done]) && w.driver !in s.stops[0].closed
  }

  /** A run in which Stop sets `stopped` after a Reload has checked it: the Stop returns,
      and the Reload then launches a goroutine that nobody will wait for. */
  lemma StopInWindowMisses(p: PLC)
    ensures exists s :: Leads(Initial([]), s) && Missed(s, p)
  {
    var s0 := Initial([]);
    NoSteps(s0);
    var s1 := ReloadPastCheck(p);
    var s2 := StopReturns(s0, s1, p);
    var s3 := ReloadAdds(s0, s2, p);
  }

  lemma ReloadPastCheck(p: PLC) returns (s: State)
    ensures Leads(Initial([]), s)
    ensures s == State(EMPTY_CORE, true, RwLock(None, {}), Active(WantDrain, [p], map[], multiset{}, [], 0), map[], multiset{})
  {
    hide Leads;
    var s0 := Initial([]);
    NoSteps(s0);
    s := s0;
    assert ToSet<string>([]) == {};
    Then(s0, s, Start([]));
    s := Apply(s, Start([]));
    Then(s0, s, Reloading(BeginReload([p])));
    s := Apply(s, Reloading(BeginReload([p])));
    Then(s0, s, Reloading(LockCheck));
    s := Apply(s, Reloading(LockCheck));
    Then(s0, s, Reloading(CheckStopped));
    s := Apply(s, Reloading(CheckStopped));
  }

  lemma StopReturns(s0: State, s1: State, p: PLC) returns (s: State)
    requires Leads(s0, s1) && s1.core == EMPTY_CORE && s1.mu == RwLock(None, {}) && s1.stops == map[]
    requires AtPhase(s1, WantDrain) && s1.started && s1.reload.cfg == [p]
    ensures Leads(s0, s)
    ensures s == s1.(core := EMPTY_CORE.(stopped := true), stops := map[0 := Returned(false, {})])
  {
    hide Leads;
    assert p in [p] && p.name in PlcNames([p]);
    s := s1;
    Then(s0, s, Outside(BeginStop(0)));
    s := Apply(s, Outside(BeginStop(0)));
    Then(s0, s, Stopping(0, LockMark));
    s := Apply(s, Stopping(0, LockMark));
    assert CancelOf(map[], {}) == {};
    Then(s0, s, Stopping(0, Mark));
    s := Apply(s, Stopping(0, Mark));
    Then(s0, s, Stopping(0, WaitedAll));
    s := Apply(s, Stopping(0, WaitedAll));
    Then(s0, s, Stopping(0, LockClose));
    s := Apply(s, Stopping(0, LockClose));
    Then(s0, s, Stopping(0, CloseAll));
    assert DriversOf(map[]) == {};
    s := Apply(s, Stopping(0, CloseAll));
  }

  lemma ReloadAdds(s0: State, s2: State, p: PLC) returns (s: State)
    requires Leads(s0, s2) && s2.core == EMPTY_CORE.(stopped := true) && s2.mu == RwLock(None, {})
    requires s2.reload == Active(WantDrain, [p], map[], multiset{}, [], 0)
    requires s2.stops == map[0 := Returned(false, {})]
    ensures Leads(s0, s) && Missed(s, p)
  {
    hide Leads;
    assert ToSet<string>([]) == {} && CancelOf(map[], {}) == {};
    s := s2;
    Then(s0, s, Reloading(LockDrain));
    s := Apply(s, Reloading(LockDrain));
    Then(s0, s, Reloading(DrainWorkers([])));
    s := Apply(s, Reloading(DrainWorkers([])));
    assert s.core == s2.core && s.mu == s2.mu && s.reload.drained == [] && AtPhase(s, Waiting);
    s := NothingDrained(s0, s, p);
  }

  lemma NothingDrained(s0: State, s3: State, p: PLC) returns (s: State)
    requires Leads(s0, s3) && s3.core == EMPTY_CORE.(stopped := true) && s3.mu == RwLock(None, {})
    requires AtPhase(s3, Waiting) && s3.reload.drained == [] && s3.reload.k == 0 && s3.reload.cfg == [p]
    requires s3.stops == map[0 := Returned(false, {})]
    ensures Leads(s0, s) && Missed(s, p)
  {
    hide Leads;
    s := s3;
    Then(s0, s, Reloading(ReceiveDone));
    s := Apply(s, Reloading(ReceiveDone));
    Then(s0, s, Reloading(CloseDriver));
    s := Apply(s, Reloading(CloseDriver));
    Then(s0, s, Reloading(LockAdd));
    s := Apply(s, Reloading(LockAdd));
    Then(s0, s, Reloading(AddWorkers));
    s := Apply(s, Reloading(AddWorkers));
    assert AddAll(s3.core, [p]) == AddOne(s3.core, p) by {
      assert [p][..0] == [] && AddAll(s3.core, []) == s3.core;
    }
  }
}
