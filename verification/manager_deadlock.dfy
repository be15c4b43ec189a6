/** No call of the manager is stuck: what each call waits for can move, and every Reload can
    return. */
module ManagerDeadlock {
  import opened Base
  import opened Scalars
  import opened PlcManager
  import opened ManagerProtocol
  import opened ManagerInvariants
  import opened ManagerContexts
  import opened ManagerProgress
  import opened ManagerStop

  // ----- whom a call waits for -----

  /** Who takes a step. Cancellations and new calls belong to nobody. */
  ghost predicate StepOf(a: Agent, st: Step) {
    match a
    case ReloadAgent => st.Reloading? && !st.r.BeginReload?
    case StopAgent(k) => st.Stopping? && st.k == k
    case WorkerAgent(d) => st.Work? && st.d == d
    case ReaderAgent(r) => st == Outside(ReaderUnlock(r))
  }

  ghost predicate CanMove(s: State, a: Agent) {
    exists st :: StepOf(a, st) && Enabled(s, st)
  }

  /** An agent holds Manager.mu, and its next step gives it back. */
  ghost predicate HolderCanLeave(s: State, a: Agent) {
    Holds(s, a) && exists st :: StepOf(a, st) && Enabled(s, st) && !Holds(Apply(s, st), a)
  }

  ghost predicate SomeHolderCanLeave(s: State, except: Agent) {
    exists a :: a != except && HolderCanLeave(s, a)
  }

  lemma Moves(s: State, a: Agent, st: Step)
    requires StepOf(a, st) && Enabled(s, st)
    ensures CanMove(s, a)
  {
  }

  /** Every holder of Manager.mu can take its next step without waiting for anything, and
      that step gives the lock back. */
  lemma HolderMoves(s: State, a: Agent)
    requires LockOk(s) && Holds(s, a)
    ensures HolderCanLeave(s, a)
  {
    var st := HolderReleases(s, a);
    hide Enabled, Apply;
    assert StepOf(a, st);
    assert !Holds(Apply(s, st), a);
  }

  /** A goroutine that has not ended can take its next step on the way out: outside of a
      tick it leaves its loop, inside it goes on, needing the lock at most. */
  ghost predicate OnItsWayOut(s: State, d: nat) {
    && d in s.core.gs && !s.core.gs[d].pc.Gone?
    && (WorkEnabled(s, d, WayOut(s.core.gs[d])) || SomeHolderCanLeave(s, WorkerAgent(d)))
  }

  lemma CancelledIsOnItsWayOut(s: State, d: nat)
    requires LockOk(s) && d in s.core.gs && !s.core.gs[d].pc.Gone? && (Live(s.core.gs[d]) ==> d in s.core.cancelled)
    ensures OnItsWayOut(s, d)
  {
    var w := WayOut(s.core.gs[d]);
    if !WorkEnabled(s, d, w) {
      var a := LockHolder(s);
      HolderMoves(s, a);
      assert a != WorkerAgent(d) by {
        assert !Writes(s, WorkerAgent(d)) && !Reads(s, WorkerAgent(d));
      }
    }
  }

  lemma LockHolder(s: State) returns (a: Agent)
    requires s.mu.writer.Some? || s.mu.readers != {}
    ensures Holds(s, a)
  {
    if s.mu.writer.Some? {
      a := s.mu.writer.value;
    } else {
      a :| a in s.mu.readers;
    }
  }

  lemma NeedsLock(s: State, a: Agent)
    requires LockOk(s) && !Writes(s, a) && !Reads(s, a) && (s.mu.writer.Some? || s.mu.readers != {})
    ensures SomeHolderCanLeave(s, a)
  {
    var h := LockHolder(s);
    HolderMoves(s, h);
    assert h != a;
  }

  /** In every reachable state a Reload in progress can move; or it needs the lock, and a
      holder can give it back; or it waits for a drained goroutine, without holding the
      lock, and that goroutine is cancelled and on its way out. */
  lemma ReloadProgress(cfgs: seq<PLC>, run: seq<Step>)
    requires IsRun(Initial(cfgs), run) && After(Initial(cfgs), run).reload.Active?
    ensures var s := After(Initial(cfgs), run);
            || CanMove(s, ReloadAgent)
            || SomeHolderCanLeave(s, ReloadAgent)
            || (&& AtPhase(s, Waiting) && !Holds(s, ReloadAgent) && s.reload.k < |s.reload.drained|
                && s.reload.drained[s.reload.k].done in s.core.cancelled
                && OnItsWayOut(s, s.reload.drained[s.reload.k].done))
  {
    InRun(cfgs, run);
    hide IsRun, After;
    ReloadMovesOrWaits(After(Initial(cfgs), run));
  }

  lemma ReloadMovesOrWaits(s: State)
    requires Inv(s) && s.reload.Active?
    ensures || CanMove(s, ReloadAgent)
            || SomeHolderCanLeave(s, ReloadAgent)
            || (&& AtPhase(s, Waiting) && !Holds(s, ReloadAgent) && s.reload.k < |s.reload.drained|
                && s.reload.drained[s.reload.k].done in s.core.cancelled
                && OnItsWayOut(s, s.reload.drained[s.reload.k].done))
  {
    hide OnItsWayOut, SomeHolderCanLeave;
    match s.reload.phase
    case WantCheck => ReloadMovesOrNeedsLock(s, LockCheck);
    case InCheck => Moves(s, ReloadAgent, Reloading(CheckStopped));
    case WantDrain => ReloadMovesOrNeedsLock(s, LockDrain);
    case InDrain =>
      var order := AnyOrder(DrainSet(s.core.workers, s.reload.cfg));
      Moves(s, ReloadAgent, Reloading(DrainWorkers(order)));
    case Waiting => WaitingReload(s);
    case Closing => Moves(s, ReloadAgent, Reloading(CloseDriver));
    case WantAdd => ReloadMovesOrNeedsLock(s, LockAdd);
    case InAdd => Moves(s, ReloadAgent, Reloading(AddWorkers));
  }

  lemma ReloadMovesOrNeedsLock(s: State, r: ReloadStep)
    requires LockOk(s)
    requires (AtPhase(s, WantCheck) && r == LockCheck) || (AtPhase(s, WantDrain) && r == LockDrain)
             || (AtPhase(s, WantAdd) && r == LockAdd)
    ensures CanMove(s, ReloadAgent) || SomeHolderCanLeave(s, ReloadAgent)
  {
    if ReloadEnabled(s, r) {
      Moves(s, ReloadAgent, Reloading(r));
    } else {
      NeedsLock(s, ReloadAgent);
    }
  }

  lemma WaitingReload(s: State)
    requires Inv(s) && AtPhase(s, Waiting)
    ensures || CanMove(s, ReloadAgent)
            || (&& !Holds(s, ReloadAgent) && s.reload.k < |s.reload.drained|
                && s.reload.drained[s.reload.k].done in s.core.cancelled
                && OnItsWayOut(s, s.reload.drained[s.reload.k].done))
  {
    if ReloadEnabled(s, ReceiveDone) {
      Moves(s, ReloadAgent, Reloading(ReceiveDone));
    } else {
      assert DrainedOk(s, s.reload.k);
      assert !Writes(s, ReloadAgent) && !Reads(s, ReloadAgent);
      CancelledIsOnItsWayOut(s, s.reload.drained[s.reload.k].done);
    }
  }

  /** In every reachable state a Stop in progress can move; or it needs the lock, and a
      holder can give it back; or it waits for a goroutine that has not ended, which is on
      its way out or has no cancelled context. */
  lemma StopProgress(cfgs: seq<PLC>, run: seq<Step>, k: nat)
    requires IsRun(Initial(cfgs), run)
    requires k in After(Initial(cfgs), run).stops && !After(Initial(cfgs), run).stops[k].Returned?
    ensures var s := After(Initial(cfgs), run);
            || CanMove(s, StopAgent(k))
            || SomeHolderCanLeave(s, StopAgent(k))
            || (WaitsFor(s, k) && exists d ::
                  d in s.core.gs && !s.core.gs[d].pc.Gone? && (d in s.core.cancelled ==> OnItsWayOut(s, d)))
  {
    InRun(cfgs, run);
    hide IsRun, After;
    StopMovesOrWaits(After(Initial(cfgs), run), k);
  }

  lemma StopMovesOrWaits(s: State, k: nat)
    requires Inv(s) && k in s.stops && !s.stops[k].Returned?
    ensures || CanMove(s, StopAgent(k))
            || SomeHolderCanLeave(s, StopAgent(k))
            || (WaitsFor(s, k) && exists d ::
                  d in s.core.gs && !s.core.gs[d].pc.Gone? && (d in s.core.cancelled ==> OnItsWayOut(s, d)))
  {
    hide OnItsWayOut, SomeHolderCanLeave;
    match s.stops[k]
    case WantMark => StopMovesOrNeedsLock(s, k, LockMark);
    case InMark => Moves(s, StopAgent(k), Stopping(k, Mark));
    case WaitWorkers(_) =>
      if AllWorkersGone(s) {
        Moves(s, StopAgent(k), Stopping(k, WaitedAll));
      } else {
        var d :| d in s.core.gs && !s.core.gs[d].pc.Gone?;
        if d in s.core.cancelled {
          CancelledIsOnItsWayOut(s, d);
        }
      }
    case WantClose(_) => StopMovesOrNeedsLock(s, k, LockClose);
    case InClose(_) => Moves(s, StopAgent(k), Stopping(k, CloseAll));
  }

  lemma StopMovesOrNeedsLock(s: State, k: nat, st: StopStep)
    requires LockOk(s) && k in s.stops
    requires (s.stops[k].WantMark? && st == LockMark) || (s.stops[k].WantClose? && st == LockClose)
    ensures CanMove(s, StopAgent(k)) || SomeHolderCanLeave(s, StopAgent(k))
  {
    if StopEnabled(s, k, st) {
      Moves(s, StopAgent(k), Stopping(k, st));
    } else {
      NeedsLock(s, StopAgent(k));
    }
  }

  // ----- every Reload can return -----

  /** From every reachable state with a Reload in progress, steps of what is under way
      alone, without any cancellation from outside, can bring it to its return. */
  lemma ReloadCanReturn(cfgs: seq<PLC>, run: seq<Step>)
    requires IsRun(Initial(cfgs), run) && After(Initial(cfgs), run).reload.Active?
    ensures exists t :: Reaches(After(Initial(cfgs), run), t) && t.reload.Idle?
  {
    InRun(cfgs, run);
    hide IsRun, After;
    var t := ReloadReturns(After(Initial(cfgs), run));
  }

  lemma ReloadReturns(s: State) returns (t: State)
    requires Inv(s) && ContextsOk(s)
    ensures Reaches(s, t) && t.reload.Idle?
  {
    hide Inv, ContextsOk, Reaches, NoReloadInWindow;
    Stays(s);
    var u, _ := FreeLock(s, s);
    ReachedOk(s, u);
    if u.reload.Idle? {
      t := u;
    } else {
      var v := PastCheck(s, u);
      if v.reload.Idle? {
        t := v;
      } else {
        t := FromWindow(s, v);
      }
    }
  }

  lemma PastCheck(s0: State, s: State) returns (t: State)
    requires Inv(s0) && ContextsOk(s0) && Reaches(s0, s) && FreeMu(s) && s.reload.Active?
    ensures Reaches(s0, t) && FreeMu(t) && (t.reload.Idle? || !NoReloadInWindow(t))
  {
    ReachedOk(s0, s);
    InvParts(s);
    hide Inv, ContextsOk, Reaches;
    assert !Writes(s, ReloadAgent) && !Reads(s, ReloadAgent);
    t := s;
    if AtPhase(s, WantCheck) {
      Next(s0, s, Reloading(LockCheck));
      t := Apply(s, Reloading(LockCheck));
      Next(s0, t, Reloading(CheckStopped));
      t := Apply(t, Reloading(CheckStopped));
    }
  }

  // ----- exactly which goroutines can end -----

  /** No goroutine is forgotten, and no context that has ended is restored. */
  ghost predicate OnlyAdds(s: State, t: State) {
    s.core.gs.Keys <= t.core.gs.Keys && s.core.cancelled <= t.core.cancelled
  }

  lemma ReloadOnlyAdds(s: State, r: ReloadStep)
    requires GoroutinesOk(s) && ReloadEnabled(s, r)
    ensures OnlyAdds(s, ReloadOn(s, r))
  {
    if r.AddWorkers? {
      AddAllGrows(s.core, s.reload.cfg);
    }
    hide AddAll, DrainSet, CancelOf;
  }

  lemma StopOnlyAdds(s: State, k: nat, st: StopStep)
    requires StopEnabled(s, k, st)
    ensures OnlyAdds(s, StopOn(s, k, st))
  {
    hide Settled, CancelOf;
  }

  lemma StartOnlyAdds(s: State, order: seq<string>)
    requires GoroutinesOk(s) && StartEnabled(s, order)
    ensures OnlyAdds(s, StartOn(s, order))
  {
    StartAllStarts(s.core, order);
    hide StartAll;
  }

  lemma StepOnlyAdds(s: State, st: Step)
    requires GoroutinesOk(s) && Enabled(s, st)
    ensures OnlyAdds(s, Apply(s, st))
  {
    hide GoroutinesOk, WorkEnabled, WorkOn, ReloadEnabled, ReloadOn, StopEnabled, StopOn, StartEnabled, StartOn;
    match st
    case Start(order) => StartOnlyAdds(s, order);
    case Work(d, w) => WorkIsLocal(s, d, w);
    case Reloading(r) => ReloadOnlyAdds(s, r);
    case Stopping(k, stop) => StopOnlyAdds(s, k, stop);
    case Outside(o) =>
  }

  lemma {:induction false} RunOnlyAdds(s: State, run: seq<Step>)
    requires Inv(s) && IsRun(s, run)
    ensures OnlyAdds(s, After(s, run))
    decreases |run|
  {
    hide Inv, Enabled, Apply;
    if run != [] {
      InvParts(s);
      StepOnlyAdds(s, run[0]);
      StepKeeps(s, run[0]);
      RunOnlyAdds(Apply(s, run[0]), run[1..]);
    }
  }

  /** Goroutine d can leave runWorker when first whoever holds the lock gives it back and
      then d alone moves, and none of this ends its context. */
  ghost predicate CanLeaveAlone(s: State, d: nat) {
    exists clear, own, t ::
      && IsRun(s, clear) && Clears(s, clear) && OwnRun(After(s, clear), own, d, t)
      && d in t.core.gs && !Live(t.core.gs[d]) && (d in t.core.cancelled ==> d in s.core.cancelled)
  }

  lemma EndedCanLeave(s: State, d: nat)
    requires Inv(s) && ContextsOk(s) && d in s.core.gs && d in s.core.cancelled
    ensures CanLeaveAlone(s, d)
  {
    hide Inv, ContextsOk, Reaches, IsRun, After, Clears, OwnRun, LockOk;
    Stays(s);
    var u, clear := FreeLock(s, s);
    RunOnlyAdds(s, clear);
    ReachedOk(s, u);
    InvParts(u);
    FreeMeansOutside(u, d);
    OwnNothing(u, d);
    var t, own := DriveOut(u, [], u, d);
  }

  lemma LeftMeansEnded(s: State, run: seq<Step>, d: nat)
    requires Inv(s) && ContextsOk(s) && IsRun(s, run)
    ensures var t := After(s, run); d in t.core.gs && !Live(t.core.gs[d]) ==> d in t.core.cancelled
  {
    RunKeepsContexts(s, run);
    hide IsRun, After, Inv, StoppedOk, KnownOk;
  }

  lemma CanLeaveMeansEnded(s: State, d: nat)
    requires Inv(s) && ContextsOk(s) && CanLeaveAlone(s, d)
    ensures d in s.core.cancelled
  {
    hide Inv, ContextsOk, IsRun, After, Clears;
    var clear, own, t :| IsRun(s, clear) && Clears(s, clear) && OwnRun(After(s, clear), own, d, t)
                         && d in t.core.gs && !Live(t.core.gs[d]) && (d in t.core.cancelled ==> d in s.core.cancelled);
    RunKeepsContexts(s, clear);
    LeftMeansEnded(After(s, clear), own, d);
  }

  /** In every reachable state a goroutine can come to leave runWorker by what the holders
      of the lock and then itself do, if and only if its context has ended. If it has not,
      the goroutine stays in every continuation, of whatever steps, in which its context
      does not end. */
  lemma LeavesIffEnded(cfgs: seq<PLC>, run: seq<Step>, d: nat)
    requires IsRun(Initial(cfgs), run) && d in After(Initial(cfgs), run).core.gs
    ensures var s := After(Initial(cfgs), run);
            CanLeaveAlone(s, d) <==> d in s.core.cancelled
    ensures var s := After(Initial(cfgs), run);
            forall more :: IsRun(s, more) && d !in After(s, more).core.cancelled ==>
              d in After(s, more).core.gs && Live(After(s, more).core.gs[d])
  {
    InRun(cfgs, run);
    var s := After(Initial(cfgs), run);
    hide IsRun, After, Inv, ContextsOk, CanLeaveAlone;
    if d in s.core.cancelled {
      EndedCanLeave(s, d);
    } else if CanLeaveAlone(s, d) {
      CanLeaveMeansEnded(s, d);
    }
    forall more | IsRun(s, more) && d !in After(s, more).core.cancelled
      ensures d in After(s, more).core.gs && Live(After(s, more).core.gs[d])
    {
      RunOnlyAdds(s, more);
      LeftMeansEnded(s, more, d);
    }
  }
}
