/** How calls of the manager protocol make progress: runs that a state can always be
    continued by, built from the steps of calls and goroutines that are under way. */
module ManagerProgress {
  import opened Base
  import opened Scalars
  import opened PlcManager
  import opened ManagerProtocol
  import opened ManagerInvariants
  import opened ManagerContexts
  import opened ManagerTheorems

  // ----- continuations without outside help -----

  /** A step of something that is under way: no new call, no context ended from outside. */
  predicate Inner(st: Step) {
    match st
    case Start(_) => false
    case Work(_, _) => true
    case Reloading(r) => !r.BeginReload?
    case Stopping(_, _) => true
    case Outside(o) => o.ReaderUnlock?
  }

  ghost predicate Reaches(s: State, t: State) {
    exists run :: IsRun(s, run) && After(s, run) == t && forall st :: st in run ==> Inner(st)
  }

  lemma Stays(s: State)
    ensures Reaches(s, s)
  {
    assert IsRun(s, []) && After(s, []) == s;
  }

  lemma Next(s: State, t: State, st: Step)
    requires Reaches(s, t) && Enabled(t, st) && Inner(st)
    ensures Reaches(s, Apply(t, st))
  {
    hide Enabled, Apply, IsRun, After;
    var run :| IsRun(s, run) && After(s, run) == t && forall x :: x in run ==> Inner(x);
    OneMore(s, run, st);
    assert forall x :: x in run + [st] ==> x in run || x == st;
  }

  lemma ReachedOk(s: State, t: State)
    requires Inv(s) && ContextsOk(s) && Reaches(s, t)
    ensures Inv(t) && ContextsOk(t)
  {
    hide Inv, ContextsOk, IsRun, After;
    var run :| IsRun(s, run) && After(s, run) == t;
    RunKeepsContexts(s, run);
  }

  lemma ReachesLeads(s0: State, s: State, t: State)
    requires Leads(s0, s) && Reaches(s, t)
    ensures Leads(s0, t)
  {
    hide IsRun, After;
    var run :| IsRun(s, run) && After(s, run) == t;
    LeadsOn(s0, s, run);
  }

  lemma {:induction false} LeadsOn(s0: State, s: State, run: seq<Step>)
    requires Leads(s0, s) && IsRun(s, run)
    ensures Leads(s0, After(s, run))
    decreases |run|
  {
    hide Leads, Enabled, Apply;
    if run != [] {
      Then(s0, s, run[0]);
      LeadsOn(s0, Apply(s, run[0]), run[1..]);
    }
  }

  // ----- the lock becomes free -----

  predicate FreeMu(s: State) {
    s.mu == RwLock(None, {})
  }

  ghost predicate Holds(s: State, a: Agent) {
    s.mu.writer == Some(a) || a in s.mu.readers
  }

  /** The step by which a holder of Manager.mu leaves its critical section. */
  ghost predicate Releases(s: State, a: Agent, st: Step) {
    && Inner(st) && Enabled(s, st)
    && var t := Apply(s, st); t.mu.writer == None && t.mu.readers == s.mu.readers - {a}
  }

  lemma HolderReleases(s: State, a: Agent) returns (st: Step)
    requires LockOk(s) && Holds(s, a)
    ensures Releases(s, a, st)
    ensures match a
            case ReloadAgent => st.Reloading?
            case StopAgent(k) => st.Stopping? && st.k == k
            case WorkerAgent(d) => st.Work? && st.d == d
            case ReaderAgent(r) => st == Outside(ReaderUnlock(r))
    ensures st == Reloading(AddWorkers) ==> AtPhase(s, InAdd)
    ensures st.Stopping? ==> st.stop == Mark || st.stop == CloseAll
    ensures !AtPhase(Apply(s, st), InAdd)
  {
    assert Writes(s, a) || Reads(s, a);
    assert s.mu.writer == Some(ReloadAgent) <==> Writes(s, ReloadAgent);
    match a
    case ReloadAgent =>
      if AtPhase(s, InCheck) {
        st := Reloading(CheckStopped);
      } else if AtPhase(s, InAdd) {
        st := Reloading(AddWorkers);
      } else {
        var order := AnyOrder(DrainSet(s.core.workers, s.reload.cfg));
        st := Reloading(DrainWorkers(order));
      }
    case StopAgent(k) => st := Stopping(k, if s.stops[k].InMark? then Mark else CloseAll);
    case WorkerAgent(d) => st := Work(d, if s.core.gs[d].pc.InStore? then StoreTag else CopyCallbacks);
    case ReaderAgent(r) => st := Outside(ReaderUnlock(r));
  }

  lemma AnyOrder(names: set<string>) returns (order: seq<string>)
    ensures NoDuplicates(order) && ToSet(order) == names
  {
    if names == {} {
      order := [];
    } else {
      var n :| n in names;
      var rest := AnyOrder(names - {n});
      assert n !in ToSet(rest);
      order := rest + [n];
      assert ToSet(order) == ToSet(rest) + {n};
    }
  }

  /** Some Stop has yet to set `stopped`. */
  ghost predicate MarkPending(s: State) {
    exists k :: k in s.stops && (s.stops[k].WantMark? || s.stops[k].InMark?)
  }

  /** Sooner or later every live goroutine is cancelled without outside help. */
  ghost predicate WillBeCancelled(s: State) {
    LiveAreCancelled(s) || MarkPending(s)
  }

  lemma SameStopsSameProspect(s: State, t: State)
    requires WillBeCancelled(s) && t.stops == s.stops && (LiveAreCancelled(s) ==> LiveAreCancelled(t))
    ensures WillBeCancelled(t)
  {
    hide LiveAreCancelled;
  }

  lemma ReloadKeepsProspect(s: State, r: ReloadStep)
    requires GoroutinesOk(s) && WillBeCancelled(s) && ReloadEnabled(s, r)
    requires r == AddWorkers ==> MarkPending(s) || Settled(s)
    ensures WillBeCancelled(ReloadOn(s, r))
  {
    var t := ReloadOn(s, r);
    if r.AddWorkers? {
      assert t.stops == s.stops;
      if Settled(s) {
        AddAllNothing(s.core, s.reload.cfg);
      }
      hide AddAll;
    } else {
      if r.DrainWorkers? {
        DrainCancels(s.core, ToSet(r.order));
      }
      hide AddAll, Drain, DrainSet;
      SameStopsSameProspect(s, t);
    }
  }

  lemma WorkKeepsProspect(s: State, d: nat, w: WorkStep)
    requires WillBeCancelled(s) && WorkEnabled(s, d, w)
    ensures WillBeCancelled(WorkOn(s, d, w))
  {
    WorkIsLocal(s, d, w);
    hide WorkOn, WorkEnabled, WillBeCancelled;
    SameStopsSameProspect(s, WorkOn(s, d, w));
  }

  /** A step that is not the add section of a Reload keeps the prospect of cancellation. */
  lemma InnerKeepsProspect(s: State, st: Step)
    requires Inv(s) && Enabled(s, st) && Inner(st) && WillBeCancelled(s)
    requires st == Reloading(AddWorkers) ==> MarkPending(s) || Settled(s)
    ensures WillBeCancelled(Apply(s, st))
  {
    InvParts(s);
    hide Inv, WillBeCancelled, MarkPending, WorkOn, WorkEnabled, StopOn, StopEnabled, ReloadOn, ReloadEnabled;
    match st
    case Work(d, w) => WorkKeepsProspect(s, d, w);
    case Stopping(k, stop) => StopKeepsProspect(s, k, stop);
    case Reloading(r) => ReloadKeepsProspect(s, r);
    case Outside(o) => SameStopsSameProspect(s, Apply(s, st));
  }

  lemma DrainCancels(c: Core, names: set<string>)
    ensures Drain(c, names).gs == c.gs && c.cancelled <= Drain(c, names).cancelled
  {
  }

  lemma StopKeepsProspect(s: State, k: nat, stop: StopStep)
    requires WorkersOk(s) && GoroutinesOk(s) && Classified(s) && ReloadOk(s)
    requires StopEnabled(s, k, stop) && WillBeCancelled(s)
    ensures WillBeCancelled(StopOn(s, k, stop))
  {
    var t := StopOn(s, k, stop);
    hide Settled;
    if stop.Mark? {
      MarkCancelsLive(s, k);
    } else if MarkPending(s) {
      var i :| i in s.stops && (s.stops[i].WantMark? || s.stops[i].InMark?);
      assert i in t.stops && (t.stops[i].WantMark? || t.stops[i].InMark?);
    }
  }

  /** Stop k is waiting for the goroutines. */
  predicate WaitsFor(s: State, k: nat) {
    k in s.stops && s.stops[k].WaitWorkers?
  }

  /** How a Stop call stands after others, and itself, have left critical sections. */
  predicate StopKept(p: StopPc, q: StopPc) {
    q == p || (p.InMark? && q.WaitWorkers?) || (p.InClose? && q.Returned?)
  }

  ghost predicate StopsKept(s: State, t: State) {
    t.stops.Keys == s.stops.Keys && forall k :: k in s.stops ==> StopKept(s.stops[k], t.stops[k])
  }

  lemma ReleaseKeepsStops(s: State, a: Agent, st: Step)
    requires Releases(s, a, st) && (st.Stopping? ==> st.stop == Mark || st.stop == CloseAll)
    ensures StopsKept(s, Apply(s, st))
  {
    hide NextGoroutine, Settled;
  }

  /** The holders of the lock give it back, one after the other. */
  ghost predicate Clears(s: State, run: seq<Step>)
    decreases |run|
  {
    run == [] || ((exists a :: Holds(s, a) && Releases(s, a, run[0])) && Clears(Apply(s, run[0]), run[1..]))
  }

  lemma ClearsMore(s: State, a: Agent, st: Step, rest: seq<Step>)
    requires Holds(s, a) && Releases(s, a, st) && Clears(Apply(s, st), rest)
    requires IsRun(Apply(s, st), rest)
    ensures Clears(s, [st] + rest) && IsRun(s, [st] + rest)
    ensures After(s, [st] + rest) == After(Apply(s, st), rest)
  {
    hide Apply, Enabled, Holds;
    assert ([st] + rest)[1..] == rest;
  }

  /** From every state the holders of the lock can leave, one after the other; Stop calls
      in no critical section stay where they are, and unless a Reload leaves an add
      section that launches something the prospect of cancellation stays. */
  lemma FreeLock(s0: State, s: State) returns (t: State, run: seq<Step>)
    requires Inv(s0) && ContextsOk(s0) && Reaches(s0, s)
    ensures Clears(s, run) && IsRun(s, run) && After(s, run) == t
    ensures Reaches(s0, t) && FreeMu(t)
    ensures StopsKept(s, t)
    ensures WillBeCancelled(s) && (AtPhase(s, InAdd) ==> MarkPending(s) || Settled(s)) ==> WillBeCancelled(t)
    decreases Holders(s)
  {
    hide Reaches, Inv, ContextsOk, Enabled, Apply, WillBeCancelled, MarkPending, Settled;
    ReachedOk(s0, s);
    InvParts(s);
    if FreeMu(s) {
      t, run := s, [];
    } else {
      hide Releases, IsRun, After, Clears, Holds;
      var a := AHolder(s);
      var st := HolderReleases(s, a);
      Next(s0, s, st);
      ReleaseFrame(s, a, st);
      OneHolderLess(s, a, Apply(s, st));
      t, run := FreeLock(s0, Apply(s, st));
      ClearsMore(s, a, st, run);
      run := [st] + run;
    }
  }

  lemma AHolder(s: State) returns (a: Agent)
    requires LockOk(s) && !FreeMu(s)
    ensures Holds(s, a)
    ensures s.mu.writer == Some(a) ==> s.mu.readers == {}
  {
    if s.mu.writer.Some? {
      a := s.mu.writer.value;
    } else {
      a :| a in s.mu.readers;
    }
  }

  function Holders(s: State): nat {
    |s.mu.readers| + if s.mu.writer.Some? then 1 else 0
  }

  lemma OneHolderLess(s: State, a: Agent, t: State)
    requires Holds(s, a)
    requires s.mu.writer == Some(a) ==> s.mu.readers == {}
    requires t.mu.writer == None && t.mu.readers == s.mu.readers - {a}
    ensures Holders(t) < Holders(s)
  {
    if a in s.mu.readers {
      assert |s.mu.readers - {a}| == |s.mu.readers| - 1;
    }
  }

  lemma ReleaseFrame(s: State, a: Agent, st: Step)
    requires Inv(s) && Releases(s, a, st) && (st.Stopping? ==> st.stop == Mark || st.stop == CloseAll)
    requires st == Reloading(AddWorkers) ==> AtPhase(s, InAdd)
    ensures StopsKept(s, Apply(s, st))
    ensures WillBeCancelled(s) && (AtPhase(s, InAdd) ==> MarkPending(s) || Settled(s)) ==> WillBeCancelled(Apply(s, st))
  {
    ReleaseKeepsStops(s, a, st);
    hide Inv, Apply, Enabled, WillBeCancelled, MarkPending, Settled, StopsKept;
    if WillBeCancelled(s) && (AtPhase(s, InAdd) ==> MarkPending(s) || Settled(s)) {
      InnerKeepsProspect(s, st);
    }
  }

  // ----- goroutines are driven to their end -----

  /** Steps that remain for a goroutine whose tick reads every tag and then ends. */
  function Rest(g: Goroutine, i: nat): nat {
    if i < |g.cfg.tags| then |g.cfg.tags| - i else 0
  }

  function Left(g: Goroutine): nat {
    match g.pc
    case Gone => 0
    case DoneClosed => 1
    case Looping => 2
    case Connecting(_) => 2
    case Scanning(i) => 3 + 7 * Rest(g, i)
    case Delivering(i, _) => 4 + 7 * Rest(g, i + 1)
    case WantCallbacks(i, _) => 5 + 7 * Rest(g, i + 1)
    case InCallbacks(i, _) => 5 + 7 * Rest(g, i + 1)
    case WantStore(i, _) => 6 + 7 * Rest(g, i + 1)
    case InStore(i, _) => 6 + 7 * Rest(g, i + 1)
  }

  /** The goroutine stands in no critical section, and its context has ended unless it has
      left runWorker already. */
  predicate CanEnd(s: State, d: nat) {
    && d in s.core.gs && !s.core.gs[d].pc.InStore? && !s.core.gs[d].pc.InCallbacks?
    && (Live(s.core.gs[d]) ==> d in s.core.cancelled)
  }

  lemma CanEndIsKnown(s: State, d: nat)
    requires CanEnd(s, d)
    ensures d in s.core.gs
  {
  }

  /** Only goroutine d and the current values have changed, and the lock is free again. */
  ghost predicate Advanced(s: State, t: State, d: nat) {
    OnlyGoroutine(s, t, d) && FreeMu(t)
  }

  /** The next step of a goroutine on its way out. */
  function WayOut(g: Goroutine): WorkStep {
    match g.pc
    case Connecting(_) => Exit
    case Looping => Exit
    case Scanning(i) => if i < |g.cfg.tags| then ReadTag(ReadErr, 0) else EndTick
    case WantStore(_, _) => LockStore
    case InStore(_, _) => StoreTag
    case WantCallbacks(_, _) => LockCallbacks
    case InCallbacks(_, _) => CopyCallbacks
    case Delivering(_, _) => Deliver
    case _ => WgDone
  }

  /** A move of one step: outside of the two critical sections. */
  lemma PlainMove(s: State, d: nat)
    requires FreeMu(s) && CanEnd(s, d) && !s.core.gs[d].pc.Gone?
    requires !s.core.gs[d].pc.WantStore? && !s.core.gs[d].pc.WantCallbacks?
    ensures var w := WayOut(s.core.gs[d]);
            && WorkEnabled(s, d, w)
            && var t := WorkOn(s, d, w);
               Advanced(s, t, d) && CanEnd(t, d) && Left(t.core.gs[d]) < Left(s.core.gs[d])
  {
    var w := WayOut(s.core.gs[d]);
    WorkIsLocal(s, d, w);
    hide Store;
  }

  /** A move through storeTag: take the lock, store, give it back. */
  lemma StoreMove(s: State, d: nat)
    requires FreeMu(s) && CanEnd(s, d) && s.core.gs[d].pc.WantStore?
    ensures WorkEnabled(s, d, LockStore) && WorkEnabled(WorkOn(s, d, LockStore), d, StoreTag)
    ensures var t := WorkOn(WorkOn(s, d, LockStore), d, StoreTag);
            Advanced(s, t, d) && CanEnd(t, d) && Left(t.core.gs[d]) < Left(s.core.gs[d])
  {
    WorkIsLocal(s, d, LockStore);
    WorkIsLocal(WorkOn(s, d, LockStore), d, StoreTag);
    hide Store, Rest;
  }

  /** A move through the copying of the callbacks. */
  lemma CallbacksMove(s: State, d: nat)
    requires FreeMu(s) && CanEnd(s, d) && s.core.gs[d].pc.WantCallbacks?
    ensures WorkEnabled(s, d, LockCallbacks) && WorkEnabled(WorkOn(s, d, LockCallbacks), d, CopyCallbacks)
    ensures var t := WorkOn(WorkOn(s, d, LockCallbacks), d, CopyCallbacks);
            Advanced(s, t, d) && CanEnd(t, d) && Left(t.core.gs[d]) < Left(s.core.gs[d])
  {
    WorkIsLocal(s, d, LockCallbacks);
    WorkIsLocal(WorkOn(s, d, LockCallbacks), d, CopyCallbacks);
    hide Store, Rest;
  }

  /** Goroutine d alone takes these steps. */
  predicate OwnSteps(run: seq<Step>, d: nat) {
    forall st: Step :: st in run ==> st.Work? && st.d == d
  }

  /** Goroutine d alone leads from s to t. */
  ghost predicate OwnRun(s: State, run: seq<Step>, d: nat, t: State) {
    IsRun(s, run) && OwnSteps(run, d) && After(s, run) == t
  }

  lemma OwnStep(s: State, d: nat, run: seq<Step>, t: State, w: WorkStep)
    requires OwnRun(s, run, d, t) && WorkEnabled(t, d, w)
    ensures OwnRun(s, run + [Work(d, w)], d, WorkOn(t, d, w))
  {
    hide WorkEnabled, WorkOn, IsRun, After;
    OneMore(s, run, Work(d, w));
  }

  lemma OwnNothing(s: State, d: nat)
    ensures OwnRun(s, [], d, s)
  {
  }

  lemma OwnReaches(s0: State, s: State, d: nat, run: seq<Step>, t: State)
    requires Reaches(s0, s) && OwnRun(s, run, d, t)
    ensures Reaches(s0, t)
    decreases |run|
  {
    if run != [] {
      assert run[0] in run;
      hide Reaches, Enabled, Apply;
      Next(s0, s, run[0]);
      assert forall st :: st in run[1..] ==> st in run;
      OwnReaches(s0, Apply(s, run[0]), d, run[1..], t);
    }
  }

  /** One move on the way out, after the moves of `run`. */
  lemma MoveOut(s0: State, run: seq<Step>, s: State, d: nat) returns (t: State, more: seq<Step>)
    requires OwnRun(s0, run, d, s) && FreeMu(s) && CanEnd(s, d) && !s.core.gs[d].pc.Gone?
    ensures OwnRun(s0, more, d, t) && Advanced(s, t, d) && CanEnd(t, d) && Left(t.core.gs[d]) < Left(s.core.gs[d])
  {
    hide OwnRun, FreeMu, CanEnd, Advanced, Left, WorkOn, WorkEnabled;
    assert d in s.core.gs by {
      CanEndIsKnown(s, d);
    }
    var pc := s.core.gs[d].pc;
    if pc.WantStore? {
      StoreMove(s, d);
      OwnStep(s0, d, run, s, LockStore);
      more := run + [Work(d, LockStore)];
      OwnStep(s0, d, more, WorkOn(s, d, LockStore), StoreTag);
      t, more := WorkOn(WorkOn(s, d, LockStore), d, StoreTag), more + [Work(d, StoreTag)];
    } else if pc.WantCallbacks? {
      CallbacksMove(s, d);
      OwnStep(s0, d, run, s, LockCallbacks);
      more := run + [Work(d, LockCallbacks)];
      OwnStep(s0, d, more, WorkOn(s, d, LockCallbacks), CopyCallbacks);
      t, more := WorkOn(WorkOn(s, d, LockCallbacks), d, CopyCallbacks), more + [Work(d, CopyCallbacks)];
    } else {
      PlainMove(s, d);
      OwnStep(s0, d, run, s, WayOut(s.core.gs[d]));
      t, more := WorkOn(s, d, WayOut(s.core.gs[d])), run + [Work(d, WayOut(s.core.gs[d]))];
    }
  }

  /** With a free lock a goroutine that can end comes to its end by its own steps alone. */
  lemma DriveOut(s0: State, run: seq<Step>, s: State, d: nat) returns (t: State, more: seq<Step>)
    requires OwnRun(s0, run, d, s) && FreeMu(s) && CanEnd(s, d)
    ensures OwnRun(s0, more, d, t) && Advanced(s, t, d) && t.core.gs[d].pc.Gone?
    decreases Left(s.core.gs[d])
  {
    hide OwnRun, Left;
    if s.core.gs[d].pc.Gone? {
      t, more := s, run;
    } else {
      t, more := MoveOut(s0, run, s, d);
      t, more := DriveOut(s0, more, t, d);
    }
  }

  /** Only these goroutines and the current values have changed. */
  ghost predicate OnlyGoroutines(s: State, t: State, ds: set<nat>) {
    && t.core.gs.Keys == s.core.gs.Keys
    && (forall e :: e in s.core.gs && e !in ds ==> t.core.gs[e] == s.core.gs[e])
    && (forall e :: e in s.core.gs ==>
          && t.core.gs[e].name == s.core.gs[e].name && t.core.gs[e].driver == s.core.gs[e].driver
          && t.core.gs[e].cfg == s.core.gs[e].cfg)
    && t.core.workers == s.core.workers && t.core.stopped == s.core.stopped
    && t.core.cancelled == s.core.cancelled && t.core.next == s.core.next
    && t.started == s.started && t.reload == s.reload && t.stops == s.stops && t.closes == s.closes
    && t.mu == s.mu
  }

  lemma DriveAllOut(s0: State, s: State, ds: set<nat>) returns (t: State)
    requires Reaches(s0, s) && FreeMu(s) && forall d :: d in ds ==> CanEnd(s, d)
    ensures Reaches(s0, t) && OnlyGoroutines(s, t, ds)
    ensures forall d :: d in ds ==> d in t.core.gs && t.core.gs[d].pc.Gone?
    decreases ds
  {
    hide Reaches;
    if ds == {} {
      t := s;
    } else {
      var d :| d in ds;
      OwnNothing(s, d);
      var u, own := DriveOut(s, [], s, d);
      OwnReaches(s0, s, d, own, u);
      t := DriveAllOut(s0, u, ds - {d});
    }
  }

  lemma TablesStay(s: State, t: State, ds: set<nat>)
    requires GoroutinesOk(s) && OnlyGoroutines(s, t, ds)
    ensures GoroutinesOk(t)
  {
  }

  // ----- a Stop returns -----

  lemma FinishStop(s0: State, s: State, k: nat) returns (t: State)
    requires Reaches(s0, s) && FreeMu(s) && WaitsFor(s, k) && AllWorkersGone(s)
    ensures Reaches(s0, t) && FreeMu(t) && t == s.(stops := t.stops)
    ensures t.stops == s.stops[k := Returned(s.stops[k].quiet, DriversOf(s.core.workers))]
  {
    hide Reaches, DriversOf;
    t := s;
    Next(s0, t, Stopping(k, WaitedAll));
    t := Apply(t, Stopping(k, WaitedAll));
    Next(s0, t, Stopping(k, LockClose));
    t := Apply(t, Stopping(k, LockClose));
    Next(s0, t, Stopping(k, CloseAll));
    t := Apply(t, Stopping(k, CloseAll));
  }

  // ----- a Reload returns -----

  /** Only the Reload has moved on; it launches what Settled says it will. */
  ghost predicate ReloadMoved(s: State, t: State) {
    && t.stops == s.stops && t.started == s.started && FreeMu(t)
    && (s.started && !Settled(s) ==> (t.reload.Active? && !Settled(t)) || SomebodyLives(t))
  }

  ghost predicate SomebodyLives(s: State) {
    exists d :: d in s.core.gs && Live(s.core.gs[d])
  }

  lemma AddLaunches(c: Core, cfgs: seq<PLC>, n: string) returns (d: nat)
    requires (forall e :: e in c.gs ==> e < c.next) && n in PlcNames(cfgs) && n !in c.workers
    ensures d in AddAll(c, cfgs).gs && Live(AddAll(c, cfgs).gs[d]) && c.next <= d
  {
    AddAllNames(c, cfgs);
    AddAllGrows(c, cfgs);
    hide AddAll, PlcNames;
    d := AddAll(c, cfgs).workers[n].done;
  }

  lemma FinishAdd(s0: State, s: State) returns (t: State)
    requires Reaches(s0, s) && FreeMu(s) && AtPhase(s, WantAdd) && GoroutinesOk(s)
    ensures Reaches(s0, t) && t.reload.Idle? && ReloadMoved(s, t)
  {
    hide Reaches, AddAll, PlcNames;
    var u := Apply(s, Reloading(LockAdd));
    Next(s0, s, Reloading(LockAdd));
    Next(s0, u, Reloading(AddWorkers));
    t := Apply(u, Reloading(AddWorkers));
    if s.started && !Settled(s) {
      var n :| n in PlcNames(s.reload.cfg) && n !in s.core.workers;
      var d := AddLaunches(s.core, s.reload.cfg, n);
    }
  }

  lemma FinishClosing(s0: State, s: State) returns (t: State)
    requires Reaches(s0, s) && FreeMu(s) && AtPhase(s, Closing) && GoroutinesOk(s) && s.reload.k <= |s.reload.drained|
    requires forall i :: 0 <= i < |s.reload.drained| ==> s.reload.drained[i].driver < s.core.next
    ensures Reaches(s0, t) && t.reload.Idle? && ReloadMoved(s, t)
    decreases |s.reload.drained| - s.reload.k
  {
    hide Reaches, DrainSet;
    Next(s0, s, Reloading(CloseDriver));
    var u := Apply(s, Reloading(CloseDriver));
    if s.reload.k < |s.reload.drained| {
      t := FinishClosing(s0, u);
    } else {
      t := FinishAdd(s0, u);
    }
  }

  lemma FinishWaiting(s0: State, s: State) returns (t: State)
    requires Reaches(s0, s) && FreeMu(s) && AtPhase(s, Waiting) && GoroutinesOk(s) && s.reload.k <= |s.reload.drained|
    requires forall i :: 0 <= i < |s.reload.drained| ==>
               var e := s.reload.drained[i];
               e.driver < s.core.next && e.done in s.core.gs && !Live(s.core.gs[e.done])
    ensures Reaches(s0, t) && t.reload.Idle? && ReloadMoved(s, t)
    decreases |s.reload.drained| - s.reload.k
  {
    hide Reaches, DrainSet;
    Next(s0, s, Reloading(ReceiveDone));
    var u := Apply(s, Reloading(ReceiveDone));
    if s.reload.k < |s.reload.drained| {
      t := FinishWaiting(s0, u);
    } else {
      t := FinishClosing(s0, u);
    }
  }

  function DonesOf(drained: seq<Drained>): set<nat> {
    set i | 0 <= i < |drained| :: drained[i].done
  }

  /** A Reload that waits can return: the goroutines it waits for have been cancelled. */
  lemma FromWaiting(s0: State, s: State) returns (t: State)
    requires Reaches(s0, s) && FreeMu(s) && Inv(s) && AtPhase(s, Waiting)
    ensures Reaches(s0, t) && t.reload.Idle? && ReloadMoved(s, t)
  {
    InvParts(s);
    hide Reaches, Inv, LockOk, ReloadOk, GoroutinesOk, CanEnd, OnlyGoroutines;
    forall i | 0 <= i < |s.reload.drained|
      ensures CanEnd(s, s.reload.drained[i].done)
    {
      DrainedCanEnd(s, i);
    }
    var ds := DonesOf(s.reload.drained);
    var u := DriveAllOut(s0, s, ds);
    TablesStay(s, u, ds);
    WaitedOut(s, u, ds);
    t := FinishWaiting(s0, u);
  }

  lemma DrainedCanEnd(s: State, i: int)
    requires LockOk(s) && ReloadOk(s) && FreeMu(s) && PastDrain(s) && 0 <= i < |s.reload.drained|
    ensures CanEnd(s, s.reload.drained[i].done)
  {
    assert DrainedOk(s, i);
    FreeMeansOutside(s, s.reload.drained[i].done);
  }

  lemma WaitedOut(s: State, u: State, ds: set<nat>)
    requires GoroutinesOk(s) && ReloadOk(s) && AtPhase(s, Waiting) && FreeMu(s) && OnlyGoroutines(s, u, ds)
    requires ds == DonesOf(s.reload.drained) && forall d :: d in ds ==> d in u.core.gs && u.core.gs[d].pc.Gone?
    ensures FreeMu(u) && AtPhase(u, Waiting) && u.reload.k <= |u.reload.drained|
    ensures forall i :: 0 <= i < |u.reload.drained| ==>
              var e := u.reload.drained[i];
              e.driver < u.core.next && e.done in u.core.gs && !Live(u.core.gs[e.done])
    ensures u.stops == s.stops && u.started == s.started && u.reload == s.reload && u.core.workers == s.core.workers
  {
    forall i | 0 <= i < |u.reload.drained|
      ensures var e := u.reload.drained[i];
              e.driver < u.core.next && e.done in u.core.gs && !Live(u.core.gs[e.done])
    {
      assert DrainedOk(s, i);
      assert s.reload.drained[i].done in ds;
    }
  }

  /** With a free lock no goroutine stands in a critical section. */
  lemma FreeMeansOutside(s: State, d: nat)
    requires LockOk(s) && FreeMu(s) && d in s.core.gs
    ensures !s.core.gs[d].pc.InStore? && !s.core.gs[d].pc.InCallbacks?
  {
    assert !Writes(s, WorkerAgent(d)) && !Reads(s, WorkerAgent(d));
  }

  lemma FromWantDrain(s0: State, s: State) returns (t: State)
    requires Inv(s0) && ContextsOk(s0) && Reaches(s0, s) && FreeMu(s) && AtPhase(s, WantDrain)
    ensures Reaches(s0, t) && t.reload.Idle? && ReloadMoved(s, t)
  {
    ReachedOk(s0, s);
    var order := AnyOrder(DrainSet(s.core.workers, s.reload.cfg));
    DrainMoves(s, order);
    hide Reaches, Inv, ContextsOk, ReloadOn, ReloadEnabled, FreeMu, ReloadMoved, DrainSet;
    Next(s0, s, Reloading(LockDrain));
    var u := ReloadOn(s, LockDrain);
    Next(s0, u, Reloading(DrainWorkers(order)));
    var v := ReloadOn(u, DrainWorkers(order));
    ReachedOk(s0, v);
    t := FromWaiting(s0, v);
    MovedOn(s, v, t);
  }

  lemma MovedOn(s: State, v: State, t: State)
    requires ReloadMoved(s, v) && ReloadMoved(v, t) && t.reload.Idle?
    requires s.started && !Settled(s) ==> v.reload.Active? && !Settled(v)
    ensures ReloadMoved(s, t)
  {
  }

  lemma DrainMoves(s: State, order: seq<string>)
    requires FreeMu(s) && AtPhase(s, WantDrain)
    requires NoDuplicates(order) && ToSet(order) == DrainSet(s.core.workers, s.reload.cfg)
    ensures ReloadEnabled(s, LockDrain) && ReloadEnabled(ReloadOn(s, LockDrain), DrainWorkers(order))
    ensures var v := ReloadOn(ReloadOn(s, LockDrain), DrainWorkers(order));
            && FreeMu(v) && AtPhase(v, Waiting) && ReloadMoved(s, v)
            && (s.started && !Settled(s) ==> !Settled(v))
  {
    hide DrainSet, CancelOf, SomebodyLives;
  }

  lemma FromWindow(s0: State, s: State) returns (t: State)
    requires Inv(s0) && ContextsOk(s0) && Reaches(s0, s) && FreeMu(s) && s.reload.Active? && !NoReloadInWindow(s)
    ensures Reaches(s0, t) && t.reload.Idle? && ReloadMoved(s, t)
  {
    ReachedOk(s0, s);
    InvParts(s);
    hide Reaches, Inv, ContextsOk, ReloadMoved;
    assert !Writes(s, ReloadAgent) && !Reads(s, ReloadAgent);
    if AtPhase(s, WantDrain) {
      t := FromWantDrain(s0, s);
    } else if AtPhase(s, Waiting) {
      t := FromWaiting(s0, s);
    } else {
      DrainedDriversKnown(s);
      if AtPhase(s, Closing) {
        t := FinishClosing(s0, s);
      } else {
        t := FinishAdd(s0, s);
      }
    }
  }

  lemma DrainedDriversKnown(s: State)
    requires GoroutinesOk(s) && ReloadOk(s) && PastDrain(s)
    ensures forall i :: 0 <= i < |s.reload.drained| ==> s.reload.drained[i].driver < s.core.next
  {
    forall i | 0 <= i < |s.reload.drained|
      ensures s.reload.drained[i].driver < s.core.next
    {
      assert DrainedOk(s, i);
    }
  }
}
