/** Exactly when a Stop of the manager can return. */
module ManagerStopReturns {
  import opened Base
  import opened Scalars
  import opened PlcManager
  import opened ManagerProtocol
  import opened ManagerInvariants
  import opened ManagerContexts
  import opened ManagerProgress
  import opened ManagerStop

  // ----- a Stop that can return, and one that cannot -----

  /** A step that neither ends a context from outside nor calls Stop. */
  predicate Unaided(st: Step) {
    st.Outside? ==> !st.o.CancelContext? && !st.o.BeginStop?
  }

  /** Stop k can return, whatever else happens, without a context ended from outside and
      without another call of Stop. */
  ghost predicate CanReturnUnaided(s: State, k: nat) {
    exists more :: IsRun(s, more) && (forall st :: st in more ==> Unaided(st))
      && k in After(s, more).stops && After(s, more).stops[k].Returned?
  }

  lemma InnerIsUnaided(s: State, t: State, k: nat)
    requires Reaches(s, t) && k in t.stops && t.stops[k].Returned?
    ensures CanReturnUnaided(s, k)
  {
    hide IsRun, After;
    var run :| IsRun(s, run) && After(s, run) == t && forall st :: st in run ==> Inner(st);
    assert forall st :: st in run ==> Unaided(st);
  }

  /** Stop k waits for goroutine d, which nothing that is under way will cancel. */
  ghost predicate StuckOn(s: State, k: nat, d: nat) {
    && WaitsFor(s, k) && d in s.core.gs && Live(s.core.gs[d]) && d !in s.core.cancelled && !MarkPending(s)
  }

  lemma StuckWork(s: State, k: nat, d: nat, e: nat, w: WorkStep)
    requires StuckOn(s, k, d) && WorkEnabled(s, e, w)
    ensures StuckOn(WorkOn(s, e, w), k, d)
  {
    WorkIsLocal(s, e, w);
    assert e == d && w != Exit && Live(s.core.gs[d]) ==> Live(NextGoroutine(s, e, w));
    hide NextGoroutine, Store, MarkPending;
    StillNotPending(s, WorkOn(s, e, w));
  }

  lemma StillNotPending(s: State, t: State)
    requires !MarkPending(s) && t.stops == s.stops
    ensures !MarkPending(t)
  {
  }

  lemma StuckReload(s: State, k: nat, d: nat, r: ReloadStep)
    requires StuckOn(s, k, d) && GoroutinesOk(s) && StoppedOk(s) && ReloadEnabled(s, r)
    ensures StuckOn(ReloadOn(s, r), k, d)
  {
    StillNotPending(s, ReloadOn(s, r));
    assert NoReloadInWindow(s);
    hide AddAll, DrainSet, MarkPending;
  }

  lemma StuckStop(s: State, k: nat, d: nat, i: nat, st: StopStep)
    requires StuckOn(s, k, d) && StopEnabled(s, i, st)
    ensures StuckOn(StopOn(s, i, st), k, d)
  {
    hide Settled;
  }

  /** Where a goroutine exists Start has run. */
  lemma CannotStart(s: State, d: nat, order: seq<string>)
    requires d in s.core.gs && GoroutinesOk(s)
    ensures !StartEnabled(s, order)
  {
  }

  lemma StuckOutside(s: State, k: nat, d: nat, o: OutsideStep)
    requires StuckOn(s, k, d) && OutsideEnabled(s, o) && Unaided(Outside(o))
    ensures StuckOn(OutsideOn(s, o), k, d)
  {
    hide MarkPending;
    StillNotPending(s, OutsideOn(s, o));
  }

  lemma StuckStep(s: State, k: nat, d: nat, st: Step)
    requires Inv(s) && ContextsOk(s) && StuckOn(s, k, d) && Enabled(s, st) && Unaided(st)
    ensures StuckOn(Apply(s, st), k, d)
  {
    InvParts(s);
    StuckIsThere(s, k, d);
    hide Inv, WorkEnabled, WorkOn, ReloadEnabled, ReloadOn, StopEnabled, StopOn, StartEnabled, StartOn;
    hide OutsideEnabled, OutsideOn, GoroutinesOk, StoppedOk, StuckOn, EndedOk, KnownOk, Unaided;
    match st
    case Start(order) => CannotStart(s, d, order);
    case Work(e, w) => StuckWork(s, k, d, e, w);
    case Reloading(r) => StuckReload(s, k, d, r);
    case Stopping(i, stop) => StuckStop(s, k, d, i, stop);
    case Outside(o) => StuckOutside(s, k, d, o);
  }

  lemma StuckIsThere(s: State, k: nat, d: nat)
    requires StuckOn(s, k, d)
    ensures d in s.core.gs
  {
  }

  lemma {:induction false} StuckRun(s: State, k: nat, d: nat, run: seq<Step>)
    requires Inv(s) && ContextsOk(s) && StuckOn(s, k, d) && IsRun(s, run) && forall st :: st in run ==> Unaided(st)
    ensures StuckOn(After(s, run), k, d)
    decreases |run|
  {
    hide Inv, ContextsOk, StuckOn, Enabled, Apply, Unaided;
    if run != [] {
      StepKeeps(s, run[0]);
      StepKeepsContexts(s, run[0]);
      StuckStep(s, k, d, run[0]);
      StuckRun(Apply(s, run[0]), k, d, run[1..]);
    }
  }

  lemma StuckForever(s: State, k: nat)
    requires Inv(s) && ContextsOk(s) && WaitsFor(s, k) && !WillBeCancelled(s)
    ensures !CanReturnUnaided(s, k)
  {
    hide Inv, ContextsOk, IsRun, After, MarkPending;
    var d :| d in s.core.gs && Live(s.core.gs[d]) && d !in s.core.cancelled;
    forall more | IsRun(s, more) && forall st :: st in more ==> Unaided(st)
      ensures !(k in After(s, more).stops && After(s, more).stops[k].Returned?)
    {
      StuckRun(s, k, d, more);
    }
  }

  /** With a free lock and every live goroutine cancelled, a waiting Stop can return. */
  lemma WaitEnds(s0: State, s: State, k: nat) returns (t: State)
    requires Inv(s0) && ContextsOk(s0) && Reaches(s0, s) && FreeMu(s) && WaitsFor(s, k) && LiveAreCancelled(s)
    ensures Reaches(s0, t) && k in t.stops && t.stops[k].Returned?
  {
    ReachedOk(s0, s);
    InvParts(s);
    hide Inv, ContextsOk, Reaches, LockOk, CanEnd;
    forall d | d in s.core.gs
      ensures CanEnd(s, d)
    {
      CancelledCanEnd(s, d);
    }
    var u := DriveAllOut(s0, s, s.core.gs.Keys);
    t := FinishStop(s0, u, k);
  }

  lemma CancelledCanEnd(s: State, d: nat)
    requires LockOk(s) && FreeMu(s) && LiveAreCancelled(s) && d in s.core.gs
    ensures CanEnd(s, d)
  {
    FreeMeansOutside(s, d);
  }

  /** A Stop that has yet to set `stopped` can do so as soon as the lock is free. */
  lemma MarksNow(s0: State, s: State, k: nat) returns (t: State)
    requires Inv(s0) && ContextsOk(s0) && Reaches(s0, s) && FreeMu(s) && k in s.stops && s.stops[k].WantMark?
    ensures Reaches(s0, t) && FreeMu(t) && LiveAreCancelled(t) && WaitsFor(t, k)
    ensures forall i :: i in s.stops && i != k ==> i in t.stops && t.stops[i] == s.stops[i]
  {
    ReachedOk(s0, s);
    hide Inv, ContextsOk, Reaches, Settled, LiveAreCancelled;
    Next(s0, s, Stopping(k, LockMark));
    var u := Apply(s, Stopping(k, LockMark));
    ReachedOk(s0, u);
    Next(s0, u, Stopping(k, Mark));
    t := Apply(u, Stopping(k, Mark));
    MarkedState(u, k);
  }

  /** With a free lock: a waiting Stop whose goroutines will be cancelled can return. */
  lemma WaitEndsAfterMark(s0: State, s: State, k: nat) returns (t: State)
    requires Inv(s0) && ContextsOk(s0) && Reaches(s0, s) && FreeMu(s) && WaitsFor(s, k) && WillBeCancelled(s)
    ensures Reaches(s0, t) && k in t.stops && t.stops[k].Returned?
  {
    hide Inv, ContextsOk, Reaches, LiveAreCancelled, LockOk;
    if LiveAreCancelled(s) {
      t := WaitEnds(s0, s, k);
    } else {
      ReachedOk(s0, s);
      InvParts(s);
      var i := Pending(s);
      var u := MarksNow(s0, s, i);
      t := WaitEnds(s0, u, k);
    }
  }

  lemma Pending(s: State) returns (i: nat)
    requires LockOk(s) && FreeMu(s) && MarkPending(s)
    ensures i in s.stops && s.stops[i].WantMark?
  {
    i :| i in s.stops && (s.stops[i].WantMark? || s.stops[i].InMark?);
    assert !Writes(s, StopAgent(i));
  }

  lemma StopReturnsFrom(s0: State, s: State, k: nat) returns (t: State)
    requires Inv(s0) && ContextsOk(s0) && Reaches(s0, s) && FreeMu(s) && k in s.stops
    requires s.stops[k].WaitWorkers? ==> WillBeCancelled(s)
    ensures Reaches(s0, t) && k in t.stops && t.stops[k].Returned?
  {
    ReachedOk(s0, s);
    InvParts(s);
    hide Inv, ContextsOk, Reaches, WillBeCancelled, DriversOf;
    assert !Writes(s, StopAgent(k)) && !Reads(s, StopAgent(k));
    match s.stops[k]
    case WantMark =>
      var u := MarksNow(s0, s, k);
      t := WaitEnds(s0, u, k);
    case WaitWorkers(_) => t := WaitEndsAfterMark(s0, s, k);
    case WantClose(_) =>
      Next(s0, s, Stopping(k, LockClose));
      t := Apply(s, Stopping(k, LockClose));
      Next(s0, t, Stopping(k, CloseAll));
      t := Apply(t, Stopping(k, CloseAll));
    case Returned(_, _) => t := s;
    case _ => assert false;
  }

  lemma StopReturnsUnaided(s: State, k: nat)
    requires Inv(s) && ContextsOk(s) && k in s.stops
    requires s.stops[k].WaitWorkers? ==> WillBeCancelled(s) && (AtPhase(s, InAdd) ==> MarkPending(s) || Settled(s))
    ensures CanReturnUnaided(s, k)
  {
    hide Inv, ContextsOk, Reaches, Settled, CanReturnUnaided, LiveAreCancelled;
    assert s.stops[k].InMark? ==> MarkPending(s);
    hide MarkPending;
    Stays(s);
    var u, _ := FreeLock(s, s);
    var t := StopReturnsFrom(s, u, k);
    InnerIsUnaided(s, t, k);
  }

  // ----- a Stop that waits while a Reload is about to launch -----

  /** The Reload under way stands in its add section, and the step by which it leaves it
      launches a goroutine that nothing under way will cancel. */
  ghost predicate LaunchesNext(s: State) {
    AtPhase(s, InAdd) && !Settled(s) && !MarkPending(s)
  }

  /** From tag i on every tag was bad when it was last read, so that a read that fails
      again emits nothing. */
  predicate AllBad(g: Goroutine, i: nat) {
    forall j :: i <= j < |g.cfg.tags| ==> Last(g.lastQuality, g.cfg.tags[j].name).BadQuality?
  }

  /** The goroutine can come to its end without asking for the lock. */
  predicate NeedsNoLock(g: Goroutine) {
    match g.pc
    case Connecting(_) => true
    case Looping => true
    case Scanning(i) => AllBad(g, i)
    case Delivering(i, _) => AllBad(AfterDeliver(g), i + 1)
    case DoneClosed => true
    case Gone => true
    case _ => false
  }

  /** It can end even while somebody holds the lock. */
  predicate SlipsOut(s: State, d: nat) {
    d in s.core.gs && (Live(s.core.gs[d]) ==> d in s.core.cancelled) && NeedsNoLock(s.core.gs[d])
  }

  lemma SlipMove(s: State, d: nat)
    requires SlipsOut(s, d) && !s.core.gs[d].pc.Gone?
    ensures var w := WayOut(s.core.gs[d]);
            && WorkEnabled(s, d, w)
            && var t := WorkOn(s, d, w);
               OnlyGoroutine(s, t, d) && t.mu == s.mu && SlipsOut(t, d) && Left(t.core.gs[d]) < Left(s.core.gs[d])
  {
    WorkIsLocal(s, d, WayOut(s.core.gs[d]));
    hide Store;
  }

  lemma SlipOut(s0: State, s: State, d: nat) returns (t: State)
    requires Reaches(s0, s) && SlipsOut(s, d)
    ensures Reaches(s0, t) && OnlyGoroutine(s, t, d) && t.mu == s.mu && t.core.gs[d].pc.Gone?
    decreases Left(s.core.gs[d])
  {
    var w := WayOut(s.core.gs[d]);
    if s.core.gs[d].pc.Gone? {
      t := s;
    } else {
      SlipMove(s, d);
      hide Reaches, Left, NeedsNoLock, WorkOn, WorkEnabled, WayOut;
      Next(s0, s, Work(d, w));
      t := SlipOut(s0, WorkOn(s, d, w), d);
    }
  }

  lemma SlipAllOut(s0: State, s: State, ds: set<nat>) returns (t: State)
    requires Reaches(s0, s) && forall d :: d in ds ==> SlipsOut(s, d)
    ensures Reaches(s0, t) && OnlyGoroutines(s, t, ds)
    ensures forall d :: d in ds ==> d in t.core.gs && t.core.gs[d].pc.Gone?
    decreases ds
  {
    hide Reaches, NeedsNoLock;
    if ds == {} {
      t := s;
    } else {
      var d :| d in ds;
      var u := SlipOut(s0, s, d);
      t := SlipAllOut(s0, u, ds - {d});
    }
  }

  /** When all goroutines can slip out, the Stop can be through its wait before the Reload
      launches anything. */
  lemma ReturnsBesideLaunch(s: State, k: nat)
    requires LockOk(s) && WaitsFor(s, k) && AtPhase(s, InAdd) && forall d :: d in s.core.gs ==> SlipsOut(s, d)
    ensures CanReturnUnaided(s, k)
  {
    assert s.mu.writer == Some(ReloadAgent) by {
      assert Writes(s, ReloadAgent);
    }
    hide Reaches, NeedsNoLock, AddAll, DriversOf, LockOk, CanReturnUnaided;
    Stays(s);
    var t := SlipAllOut(s, s, s.core.gs.Keys);
    var u := LeavesWithReload(s, t, k);
    InnerIsUnaided(s, u, k);
  }

  /** The wait is over, the Reload gives the lock back, and the Stop closes the drivers. */
  lemma LeavesWithReload(s0: State, s: State, k: nat) returns (t: State)
    requires Reaches(s0, s) && WaitsFor(s, k) && AtPhase(s, InAdd) && AllWorkersGone(s)
    requires s.mu.readers == {}
    ensures Reaches(s0, t) && k in t.stops && t.stops[k].Returned?
  {
    hide Reaches, AddAll, DriversOf;
    Next(s0, s, Stopping(k, WaitedAll));
    t := Apply(s, Stopping(k, WaitedAll));
    Next(s0, t, Reloading(AddWorkers));
    t := Apply(t, Reloading(AddWorkers));
    Next(s0, t, Stopping(k, LockClose));
    t := Apply(t, Stopping(k, LockClose));
    Next(s0, t, Stopping(k, CloseAll));
    t := Apply(t, Stopping(k, CloseAll));
  }

  /** Goroutine d will ask for the lock, which the Reload keeps until it launches. */
  ghost predicate HeldUp(s: State, k: nat, d: nat) {
    WaitsFor(s, k) && LaunchesNext(s) && d in s.core.gs && !NeedsNoLock(s.core.gs[d])
  }

  lemma StillNeedsLock(s: State, d: nat, w: WorkStep)
    requires LockOk(s) && AtPhase(s, InAdd) && WorkEnabled(s, d, w) && !NeedsNoLock(s.core.gs[d])
    ensures !NeedsNoLock(NextGoroutine(s, d, w))
  {
    assert Writes(s, ReloadAgent) && !Reads(s, WorkerAgent(d));
    assert s.mu.writer == Some(ReloadAgent) && !Writes(s, WorkerAgent(d));
    hide LockOk;
  }

  lemma HeldUpWork(s: State, k: nat, d: nat, e: nat, w: WorkStep)
    requires LockOk(s) && HeldUp(s, k, d) && WorkEnabled(s, e, w)
    ensures HeldUp(WorkOn(s, e, w), k, d)
  {
    WorkIsLocal(s, e, w);
    if e == d {
      StillNeedsLock(s, d, w);
    }
    hide NextGoroutine, NeedsNoLock, Store, MarkPending, LockOk, PlcNames, DrainSet;
    StillNotPending(s, WorkOn(s, e, w));
  }

  lemma HeldUpStop(s: State, k: nat, d: nat, i: nat, st: StopStep)
    requires HeldUp(s, k, d) && StopEnabled(s, i, st)
    ensures HeldUp(StopOn(s, i, st), k, d)
  {
    assert !s.core.gs[d].pc.Gone?;
    hide NeedsNoLock, PlcNames, DrainSet;
  }

  lemma HeldUpOutside(s: State, k: nat, d: nat, o: OutsideStep)
    requires HeldUp(s, k, d) && OutsideEnabled(s, o) && Unaided(Outside(o))
    ensures HeldUp(OutsideOn(s, o), k, d)
  {
    hide MarkPending, NeedsNoLock, PlcNames, DrainSet;
    StillNotPending(s, OutsideOn(s, o));
  }

  lemma LaunchHoldsUp(s: State, k: nat) returns (d: nat)
    requires GoroutinesOk(s) && KnownOk(s) && WaitsFor(s, k) && LaunchesNext(s)
    ensures StuckOn(ReloadOn(s, AddWorkers), k, d)
  {
    var t := ReloadOn(s, AddWorkers);
    AddAllGrows(s.core, s.reload.cfg);
    hide AddAll, PlcNames, MarkPending;
    var n :| n in PlcNames(s.reload.cfg) && n !in s.core.workers;
    d := AddLaunches(s.core, s.reload.cfg, n);
    StillNotPending(s, t);
  }

  lemma HeldUpReload(s: State, k: nat, d: nat, r: ReloadStep) returns (e: nat)
    requires GoroutinesOk(s) && KnownOk(s) && HeldUp(s, k, d) && ReloadEnabled(s, r)
    ensures StuckOn(ReloadOn(s, r), k, e)
  {
    assert r == AddWorkers;
    hide ReloadOn, StuckOn, GoroutinesOk, KnownOk, NeedsNoLock, MarkPending, Settled;
    e := LaunchHoldsUp(s, k);
  }

  /** What holds the Stop up stays, until the launched goroutine holds it up. */
  lemma HeldUpStep(s: State, k: nat, d: nat, st: Step) returns (e: nat)
    requires Inv(s) && ContextsOk(s) && HeldUp(s, k, d) && Enabled(s, st) && Unaided(st)
    ensures HeldUp(Apply(s, st), k, e) || StuckOn(Apply(s, st), k, e)
  {
    InvParts(s);
    HeldUpIsThere(s, k, d);
    hide Inv, WorkEnabled, WorkOn, StopEnabled, StopOn, StartEnabled, StartOn, ReloadEnabled, ReloadOn, Unaided;
    hide OutsideEnabled, OutsideOn, GoroutinesOk, LockOk, StoppedOk, HeldUp, StuckOn, EndedOk, KnownOk;
    e := d;
    match st
    case Start(order) => CannotStart(s, d, order);
    case Work(i, w) => HeldUpWork(s, k, d, i, w);
    case Reloading(r) => e := HeldUpReload(s, k, d, r);
    case Stopping(i, stop) => HeldUpStop(s, k, d, i, stop);
    case Outside(o) => HeldUpOutside(s, k, d, o);
  }

  lemma HeldUpIsThere(s: State, k: nat, d: nat)
    requires HeldUp(s, k, d)
    ensures d in s.core.gs
  {
  }

  lemma {:induction false} HeldUpRun(s: State, k: nat, d: nat, run: seq<Step>)
    requires Inv(s) && ContextsOk(s) && HeldUp(s, k, d) && IsRun(s, run) && forall st :: st in run ==> Unaided(st)
    ensures WaitsFor(After(s, run), k)
    decreases |run|
  {
    hide Inv, ContextsOk, LaunchesNext, NeedsNoLock, Enabled, Apply, Unaided, MarkPending;
    if run != [] {
      StepKeeps(s, run[0]);
      StepKeepsContexts(s, run[0]);
      var e := HeldUpStep(s, k, d, run[0]);
      if HeldUp(Apply(s, run[0]), k, e) {
        HeldUpRun(Apply(s, run[0]), k, e, run[1..]);
      } else {
        StuckRun(Apply(s, run[0]), k, e, run[1..]);
      }
    }
  }

  lemma HeldUpForever(s: State, k: nat)
    requires Inv(s) && ContextsOk(s) && WaitsFor(s, k) && LaunchesNext(s)
    requires exists d :: d in s.core.gs && !SlipsOut(s, d)
    ensures !CanReturnUnaided(s, k)
  {
    hide Inv, ContextsOk, IsRun, After, MarkPending, NeedsNoLock, Settled;
    if LiveAreCancelled(s) {
      var d :| d in s.core.gs && !SlipsOut(s, d);
      forall more | IsRun(s, more) && forall st :: st in more ==> Unaided(st)
        ensures !(k in After(s, more).stops && After(s, more).stops[k].Returned?)
      {
        HeldUpRun(s, k, d, more);
      }
    } else {
      StuckForever(s, k);
    }
  }

  /** Whether a Stop that waits can get to its end without help. */
  ghost predicate WaitCanEnd(s: State) {
    if LaunchesNext(s) then forall d :: d in s.core.gs ==> SlipsOut(s, d)
    else WillBeCancelled(s)
  }

  /** In every reachable state, a Stop in progress can return without a context ended from
      outside and without another call of Stop if and only if it does not wait (yet, or any
      more) or its wait can end: every live goroutine is cancelled, or is about to be by a
      Stop that has yet to set `stopped`; and while a Reload stands in an add section that
      launches something, every goroutine is cancelled and can end without the lock. */
  lemma StopCanReturnIff(cfgs: seq<PLC>, run: seq<Step>, k: nat)
    requires IsRun(Initial(cfgs), run) && k in After(Initial(cfgs), run).stops
    ensures var s := After(Initial(cfgs), run);
            CanReturnUnaided(s, k) <==> (WaitsFor(s, k) ==> WaitCanEnd(s))
  {
    InRun(cfgs, run);
    var s := After(Initial(cfgs), run);
    InvParts(s);
    hide IsRun, After, Inv, ContextsOk, LockOk, CanReturnUnaided, WillBeCancelled, Settled, MarkPending, SlipsOut;
    if WaitsFor(s, k) && LaunchesNext(s) {
      if WaitCanEnd(s) {
        ReturnsBesideLaunch(s, k);
      } else {
        HeldUpForever(s, k);
      }
    } else if WaitsFor(s, k) && !WillBeCancelled(s) {
      StuckForever(s, k);
    } else {
      StopReturnsUnaided(s, k);
    }
  }

  /** When the add section of a Reload launches a goroutine while a Stop waits, and no
      other Stop has yet to set `stopped`, the Stop cannot return without a context ended
      from outside or another call of Stop. */
  lemma LaunchBlocksStop(cfgs: seq<PLC>, run: seq<Step>, k: nat)
    requires IsRun(Initial(cfgs), run)
    requires WaitsFor(After(Initial(cfgs), run), k) && LaunchesNext(After(Initial(cfgs), run))
    ensures !CanReturnUnaided(ReloadOn(After(Initial(cfgs), run), AddWorkers), k)
  {
    InRun(cfgs, run);
    var s := After(Initial(cfgs), run);
    var t := ReloadOn(s, AddWorkers);
    StepKeeps(s, Reloading(AddWorkers));
    StepKeepsContexts(s, Reloading(AddWorkers));
    hide IsRun, After, CanReturnUnaided;
    var d := LaunchHoldsUp(s, k);
    NotAllCancelled(t, d);
    StuckForever(t, k);
  }

  /** Such a run: a Reload passes its check, Stop sets `stopped` and waits, and the Reload
      then launches p; the Stop waits for it for good. */
  lemma StopWaitsForLaunched(p: PLC)
    ensures exists s, d ::
              && Leads(Initial([]), s) && WaitsFor(s, 0) && s.reload.Idle? && s.mu == RwLock(None, {})
              && d in s.core.gs && Live(s.core.gs[d]) && d !in s.core.cancelled
              && !CanReturnUnaided(s, 0)
  {
    hide Leads;
    var s0 := Initial([]);
    var s := ReloadPastCheck(p);
    Then(s0, s, Outside(BeginStop(0)));
    s := Apply(s, Outside(BeginStop(0)));
    Then(s0, s, Stopping(0, LockMark));
    s := Apply(s, Stopping(0, LockMark));
    assert CancelOf(map[], {}) == {} && ToSet<string>([]) == {};
    assert p in [p] && p.name in PlcNames([p]);
    Then(s0, s, Stopping(0, Mark));
    s := Apply(s, Stopping(0, Mark));
    s := ReloadGoesOn(s, p);
    var d := s.core.workers[p.name].done;
    assert StuckOn(s, 0, d);
    ReachableOk(s);
    NotAllCancelled(s, d);
    StuckForever(s, 0);
  }

  lemma NotAllCancelled(s: State, d: nat)
    requires d in s.core.gs && Live(s.core.gs[d]) && d !in s.core.cancelled && !MarkPending(s)
    ensures !WillBeCancelled(s)
  {
  }

  lemma ReachableOk(s: State)
    requires Leads(Initial([]), s)
    ensures Inv(s) && ContextsOk(s)
  {
    var run :| IsRun(Initial([]), run) && After(Initial([]), run) == s;
    InRun([], run);
  }

  lemma ReloadGoesOn(s1: State, p: PLC) returns (s: State)
    requires Leads(Initial([]), s1) && s1.core == EMPTY_CORE.(stopped := true) && s1.started && s1.mu == RwLock(None, {})
    requires s1.reload == Active(WantDrain, [p], map[], multiset{}, [], 0) && s1.stops == map[0 := WaitWorkers(false)]
    ensures Leads(Initial([]), s) && s.stops == s1.stops && s.mu == RwLock(None, {}) && s.reload.Idle?
    ensures s.core.workers == map[p.name := Worker(0, p, 1, true)] && s.core.gs == map[1 := Launch(p.name, 0, p)]
    ensures s.core.cancelled == {}
  {
    hide Leads;
    var s0 := Initial([]);
    assert ToSet<string>([]) == {} && CancelOf(map[], {}) == {};
    s := s1;
    Then(s0, s, Reloading(LockDrain));
    s := Apply(s, Reloading(LockDrain));
    Then(s0, s, Reloading(DrainWorkers([])));
    s := Apply(s, Reloading(DrainWorkers([])));
    assert s.core == s1.core;
    s := ReloadEndsWith(s, p);
  }

  lemma ReloadEndsWith(s1: State, p: PLC) returns (s: State)
    requires Leads(Initial([]), s1) && s1.core == EMPTY_CORE.(stopped := true) && s1.mu == RwLock(None, {})
    requires AtPhase(s1, Waiting) && s1.reload.drained == [] && s1.reload.k == 0 && s1.reload.cfg == [p]
    ensures Leads(Initial([]), s) && s.stops == s1.stops && s.mu == RwLock(None, {}) && s.reload.Idle?
    ensures s.core.workers == map[p.name := Worker(0, p, 1, true)] && s.core.gs == map[1 := Launch(p.name, 0, p)]
    ensures s.core.cancelled == {}
  {
    hide Leads;
    var s0 := Initial([]);
    s := s1;
    Then(s0, s, Reloading(ReceiveDone));
    s := Apply(s, Reloading(ReceiveDone));
    Then(s0, s, Reloading(CloseDriver));
    s := Apply(s, Reloading(CloseDriver));
    Then(s0, s, Reloading(LockAdd));
    s := Apply(s, Reloading(LockAdd));
    Then(s0, s, Reloading(AddWorkers));
    s := Apply(s, Reloading(AddWorkers));
    assert AddAll(s1.core, [p]) == AddOne(s1.core, p) by {
      assert [p][..0] == [] && AddAll(s1.core, []) == s1.core;
    }
  }
}
