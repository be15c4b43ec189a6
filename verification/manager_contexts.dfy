/** Contexts in the manager protocol: which goroutines have a cancelled one. */
module ManagerContexts {
  import opened Base
  import opened Scalars
  import opened PlcManager
  import opened ManagerProtocol
  import opened ManagerInvariants

  ghost predicate LiveAreCancelled(s: State) {
    forall d :: d in s.core.gs && Live(s.core.gs[d]) ==> d in s.core.cancelled
  }

  /** A goroutine leaves runWorker only when its context has ended. */
  ghost predicate EndedOk(s: State) {
    forall d :: d in s.core.gs && !Live(s.core.gs[d]) ==> d in s.core.cancelled
  }

  /** A Stop that is past its mark has set `stopped`; and once that is set after Start,
      a Reload that is past its own check finds every live goroutine cancelled. */
  ghost predicate StoppedOk(s: State) {
    && (forall k :: k in s.stops && !s.stops[k].WantMark? && !s.stops[k].InMark? ==> s.core.stopped)
    && (s.core.stopped && s.started && !NoReloadInWindow(s) ==> LiveAreCancelled(s))
  }

  /** Only a context that exists can have ended. */
  ghost predicate KnownOk(s: State) {
    forall d :: d in s.core.cancelled ==> d < s.core.next
  }

  ghost predicate ContextsOk(s: State) {
    EndedOk(s) && StoppedOk(s) && KnownOk(s)
  }

  lemma CancelsKnown(s: State, names: set<string>)
    requires WorkersOk(s)
    ensures forall d :: d in CancelOf(s.core.workers, names) ==> d < s.core.next
  {
    forall d | d in CancelOf(s.core.workers, names)
      ensures d < s.core.next
    {
      var n :| n in names && n in s.core.workers && s.core.workers[n].done == d;
      assert WorkerOk(s, n);
    }
  }

  lemma WorkKeepsContexts(s: State, d: nat, w: WorkStep)
    requires ContextsOk(s) && WorkEnabled(s, d, w)
    ensures ContextsOk(WorkOn(s, d, w))
  {
    WorkIsLocal(s, d, w);
    assert w != Exit ==> (Live(NextGoroutine(s, d, w)) <==> Live(s.core.gs[d]));
    hide NextGoroutine, Store, Settled;
  }

  lemma StopKeepsContexts(s: State, k: nat, st: StopStep)
    requires Inv(s) && ContextsOk(s) && StopEnabled(s, k, st)
    ensures ContextsOk(StopOn(s, k, st))
  {
    if st.Mark? {
      InvParts(s);
      MarkCancelsLive(s, k);
      CancelsKnown(s, s.core.workers.Keys);
    }
    hide Inv, Settled, CancelOf;
  }

  lemma AddKeepsContexts(s: State)
    requires GoroutinesOk(s) && ContextsOk(s) && AtPhase(s, InAdd)
    ensures ContextsOk(ReloadOn(s, AddWorkers))
  {
    AddAllGrows(s.core, s.reload.cfg);
    hide AddAll;
  }

  lemma DrainKeepsContexts(s: State, order: seq<string>)
    requires WorkersOk(s) && ContextsOk(s) && ReloadEnabled(s, DrainWorkers(order))
    ensures ContextsOk(ReloadOn(s, DrainWorkers(order)))
  {
    CancelsKnown(s, ToSet(order));
    hide DrainSet, CancelOf, WorkersOk;
  }

  lemma ReloadKeepsContexts(s: State, r: ReloadStep)
    requires WorkersOk(s) && GoroutinesOk(s) && ContextsOk(s) && ReloadEnabled(s, r)
    ensures ContextsOk(ReloadOn(s, r))
  {
    if r.AddWorkers? {
      AddKeepsContexts(s);
    } else if r.DrainWorkers? {
      DrainKeepsContexts(s, r.order);
    } else {
      hide GoroutinesOk, WorkersOk;
    }
  }

  lemma StartKeepsContexts(s: State, order: seq<string>)
    requires GoroutinesOk(s) && ContextsOk(s) && StartEnabled(s, order)
    ensures ContextsOk(StartOn(s, order))
  {
    StartAllStarts(s.core, order);
    hide StartAll;
  }

  lemma OutsideKeepsContexts(s: State, o: OutsideStep)
    requires GoroutinesOk(s) && ContextsOk(s) && OutsideEnabled(s, o)
    ensures ContextsOk(OutsideOn(s, o))
  {
  }

  lemma StepKeepsContexts(s: State, st: Step)
    requires Inv(s) && ContextsOk(s) && Enabled(s, st)
    ensures ContextsOk(Apply(s, st))
  {
    InvParts(s);
    hide Inv, StartEnabled, WorkEnabled, ReloadEnabled, StopEnabled, OutsideEnabled, ContextsOk;
    hide StartOn, WorkOn, ReloadOn, StopOn, OutsideOn;
    match st
    case Start(order) => StartKeepsContexts(s, order);
    case Work(d, w) => WorkKeepsContexts(s, d, w);
    case Reloading(r) => ReloadKeepsContexts(s, r);
    case Stopping(k, stop) => StopKeepsContexts(s, k, stop);
    case Outside(o) => OutsideKeepsContexts(s, o);
  }

  lemma {:induction false} RunKeepsContexts(s: State, run: seq<Step>)
    requires Inv(s) && ContextsOk(s) && IsRun(s, run)
    ensures Inv(After(s, run)) && ContextsOk(After(s, run))
    decreases |run|
  {
    hide Inv, ContextsOk, Enabled, Apply;
    if run != [] {
      StepKeeps(s, run[0]);
      StepKeepsContexts(s, run[0]);
      RunKeepsContexts(Apply(s, run[0]), run[1..]);
    }
  }

  lemma InRun(cfgs: seq<PLC>, run: seq<Step>)
    requires IsRun(Initial(cfgs), run)
    ensures Inv(After(Initial(cfgs), run)) && ContextsOk(After(Initial(cfgs), run))
  {
    InitialHolds(cfgs);
    NewAllWorkers(cfgs);
    RunKeepsContexts(Initial(cfgs), run);
  }

  // ----- entries that nobody serves -----

  /** The entry of PLC n is in the worker map and no goroutine serves it. */
  ghost predicate Unserved(s: State, n: string) {
    && s.started && n in s.core.workers
    && (forall d :: d in s.core.gs && s.core.gs[d].name == n ==> !Live(s.core.gs[d]))
  }

  /** In every run, an entry of the worker map is unserved only if the context of its
      goroutine has ended. */
  lemma UnservedMeansCancelled(cfgs: seq<PLC>, run: seq<Step>, n: string)
    requires IsRun(Initial(cfgs), run) && Unserved(After(Initial(cfgs), run), n)
    ensures After(Initial(cfgs), run).core.workers[n].done in After(Initial(cfgs), run).core.cancelled
  {
    InRun(cfgs, run);
    var s := After(Initial(cfgs), run);
    hide After, IsRun, StoppedOk;
    assert WorkerOk(s, n);
  }

  /** In every run, a registered goroutine that has left runWorker had its context end. */
  lemma EndedWasCancelled(cfgs: seq<PLC>, run: seq<Step>, d: nat)
    requires IsRun(Initial(cfgs), run)
    requires var s := After(Initial(cfgs), run); d in s.core.gs && !Live(s.core.gs[d])
    ensures d in After(Initial(cfgs), run).core.cancelled
  {
    InRun(cfgs, run);
    hide After, IsRun, StoppedOk, Inv;
  }

  /** A Reload has launched the goroutine of p, and nothing has been stopped; the parent
      context that Reload was given ends, and p stays in the map with nobody to serve it. */
  lemma ParentContextEnds(p: PLC)
    ensures exists s ::
              && Leads(Initial([]), s) && Unserved(s, p.name) && s.reload.Idle? && !s.core.stopped && s.stops == map[]
              && s.core.workers[p.name].cfg == p
  {
    var s1 := ReloadAddsAlone(p);
    hide Leads;
    var s0, d, s := Initial([]), s1.core.workers[p.name].done, s1;
    Then(s0, s, Outside(CancelContext(d)));
    s := Apply(s, Outside(CancelContext(d)));
    Then(s0, s, Work(d, Exit));
    s := Apply(s, Work(d, Exit));
    assert Unserved(s, p.name);
  }

  lemma ReloadAddsAlone(p: PLC) returns (s: State)
    ensures Leads(Initial([]), s)
    ensures s.started && s.reload.Idle? && !s.core.stopped && s.stops == map[] && s.mu == RwLock(None, {})
    ensures s.core.workers == map[p.name := Worker(0, p, 1, true)] && s.core.gs == map[1 := Launch(p.name, 0, p)]
  {
    hide Leads;
    var s0 := Initial([]);
    NoSteps(s0);
    s := s0;
    assert ToSet<string>([]) == {} && CancelOf(map[], {}) == {};
    Then(s0, s, Start([]));
    s := Apply(s, Start([]));
    Then(s0, s, Reloading(BeginReload([p])));
    s := Apply(s, Reloading(BeginReload([p])));
    Then(s0, s, Reloading(LockCheck));
    s := Apply(s, Reloading(LockCheck));
    Then(s0, s, Reloading(CheckStopped));
    s := Apply(s, Reloading(CheckStopped));
    Then(s0, s, Reloading(LockDrain));
    s := Apply(s, Reloading(LockDrain));
    Then(s0, s, Reloading(DrainWorkers([])));
    s := Apply(s, Reloading(DrainWorkers([])));
    s := AddsAfterDrain(p, s);
  }

  lemma AddsAfterDrain(p: PLC, s1: State) returns (s: State)
    requires Leads(Initial([]), s1) && AtPhase(s1, Waiting) && s1.reload.drained == [] && s1.reload.cfg == [p]
    requires s1.reload.k == 0 && s1.core == EMPTY_CORE && s1.started && s1.stops == map[] && s1.mu == RwLock(None, {})
    ensures Leads(Initial([]), s)
    ensures s.started && s.reload.Idle? && !s.core.stopped && s.stops == map[] && s.mu == RwLock(None, {})
    ensures s.core.workers == map[p.name := Worker(0, p, 1, true)] && s.core.gs == map[1 := Launch(p.name, 0, p)]
  {
    hide Leads;
    var s0 := Initial([]);
    s := s1;
    Then(s0, s, Reloading(ReceiveDone));
    s := Apply(s, Reloading(ReceiveDone));
    Then(s0, s, Reloading(CloseDriver));
    s := Apply(s, Reloading(CloseDriver));
    Then(s0, s, Reloading(LockAdd));
    s := Apply(s, Reloading(LockAdd));
    Then(s0, s, Reloading(AddWorkers));
    s := Apply(s, Reloading(AddWorkers));
    assert AddAll(EMPTY_CORE, [p]) == AddOne(EMPTY_CORE, p) by {
      assert [p][..0] == [] && AddAll(EMPTY_CORE, []) == EMPTY_CORE;
    }
  }
}
