/** What every step of the manager protocol keeps. */
module ManagerInvariants {
  import opened Base
  import opened Scalars
  import opened PlcManager
  import opened ManagerProtocol

  // ----- identities -----

  /** Every worker in the map has its own driver, no Reload has closed it, and once
      Start has run each is served by the goroutine behind its done channel. */
  ghost predicate WorkersOk(s: State) {
    && (forall n :: n in s.core.workers ==> WorkerOk(s, n))
    && (forall m, n :: m in s.core.workers && n in s.core.workers && m != n ==>
          s.core.workers[m].driver != s.core.workers[n].driver)
  }

  ghost predicate WorkerOk(s: State, n: string)
    requires n in s.core.workers
  {
    var w := s.core.workers[n];
    && w.cfg.name == n
    && w.driver < s.core.next && w.done < s.core.next
    && s.closes[w.driver] == 0
    && w.started == s.started
    && (s.started ==> Serves(s, n, w.driver, w.cfg, w.done))
  }

  ghost predicate Serves(s: State, n: string, driver: nat, cfg: PLC, done: nat) {
    && done in s.core.gs
    && s.core.gs[done].name == n
    && s.core.gs[done].driver == driver
    && s.core.gs[done].cfg == cfg
  }

  ghost predicate GoroutinesOk(s: State) {
    && (!s.started ==> s.core.gs == map[] && s.reload.Idle?)
    && (forall d :: d in s.core.gs ==>
          d < s.core.next && s.core.gs[d].driver < s.core.next && s.core.gs[d].cfg.name == s.core.gs[d].name)
    && (forall d, e :: d in s.core.gs && e in s.core.gs && d != e ==> s.core.gs[d].driver != s.core.gs[e].driver)
    && (forall x :: x in s.closes ==> x < s.core.next)
  }

  // ----- where each goroutine belongs -----

  ghost predicate Registered(s: State, d: nat)
    requires d in s.core.gs
  {
    s.core.gs[d].name in s.core.workers && s.core.workers[s.core.gs[d].name].done == d
  }

  ghost predicate DrainingAt(s: State, d: nat, i: int) {
    s.reload.Active? && 0 <= i < |s.reload.drained| && s.reload.drained[i].done == d
  }

  ghost predicate Draining(s: State, d: nat) {
    exists i :: DrainingAt(s, d, i)
  }

  /** Out of the map, out of runWorker, and its driver closed by exactly one Reload. */
  ghost predicate Retired(s: State, d: nat)
    requires d in s.core.gs
  {
    !Live(s.core.gs[d]) && s.closes[s.core.gs[d].driver] == 1
  }

  ghost predicate Classified(s: State) {
    forall d :: d in s.core.gs ==> Registered(s, d) || Draining(s, d) || Retired(s, d)
  }

  // ----- the Reload in progress -----

  /** How many drained goroutines Reload has waited for, and how many drivers it closed. */
  function WaitedFor(r: Reload): nat
    requires r.Active?
  {
    if r.phase.Waiting? then r.k else |r.drained|
  }

  function ClosedUpTo(r: Reload): nat
    requires r.Active?
  {
    if r.phase.Waiting? then 0 else if r.phase.Closing? then r.k else |r.drained|
  }

  ghost predicate DrainedOk(s: State, i: int)
    requires s.reload.Active? && 0 <= i < |s.reload.drained|
  {
    var e := s.reload.drained[i];
    && e.name !in s.core.workers
    && e.name in s.reload.before
    && s.reload.before[e.name].driver == e.driver && s.reload.before[e.name].done == e.done
    && Serves(s, e.name, e.driver, s.reload.before[e.name].cfg, e.done)
    && e.done in s.core.cancelled
    && (i < WaitedFor(s.reload) ==> !Live(s.core.gs[e.done]))
    && s.closes[e.driver] == (if i < ClosedUpTo(s.reload) then 1 else 0)
  }

  function Drivers(drained: seq<Drained>): multiset<nat> {
    if drained == [] then multiset{}
    else Drivers(drained[..|drained| - 1]) + multiset{drained[|drained| - 1].driver}
  }

  /** Between the two critical sections the map is the old one minus the drained names. */
  ghost predicate KeptOk(s: State)
    requires s.reload.Active?
  {
    && s.core.workers.Keys <= s.reload.before.Keys
    && (forall n :: n in s.core.workers ==> s.core.workers[n] == s.reload.before[n])
    && (forall n :: n in s.reload.before ==>
          (n in s.core.workers <==> n !in DrainSet(s.reload.before, s.reload.cfg)))
    && (forall n :: n in DrainSet(s.reload.before, s.reload.cfg) ==> exists i :: DrainedName(s.reload, i, n))
  }

  ghost predicate DrainedName(r: Reload, i: int, n: string) {
    r.Active? && 0 <= i < |r.drained| && r.drained[i].name == n
  }

  ghost predicate ReloadOk(s: State) {
    s.reload.Active? ==>
      if PastDrain(s) then
        && s.reload.k <= |s.reload.drained|
        && (forall i :: 0 <= i < |s.reload.drained| ==> DrainedOk(s, i))
        && (forall i, j :: 0 <= i < j < |s.reload.drained| ==> s.reload.drained[i].name != s.reload.drained[j].name)
        && KeptOk(s)
        && s.closes == s.reload.closedBefore + Drivers(s.reload.drained[..ClosedUpTo(s.reload)])
      else
        s.reload.drained == []
  }

  // ----- the lock -----

  ghost predicate Writes(s: State, a: Agent) {
    match a
    case ReloadAgent => AtPhase(s, InDrain) || AtPhase(s, InAdd)
    case StopAgent(k) => k in s.stops && s.stops[k].InMark?
    case WorkerAgent(d) => d in s.core.gs && s.core.gs[d].pc.InStore?
    case ReaderAgent(_) => false
  }

  ghost predicate Reads(s: State, a: Agent) {
    match a
    case ReloadAgent => AtPhase(s, InCheck)
    case StopAgent(k) => k in s.stops && s.stops[k].InClose?
    case WorkerAgent(d) => d in s.core.gs && s.core.gs[d].pc.InCallbacks?
    case ReaderAgent(_) => a in s.mu.readers
  }

  /** The lock is held by exactly the agents that stand in a critical section. */
  ghost predicate LockOk(s: State) {
    && (forall a :: s.mu.writer == Some(a) <==> Writes(s, a))
    && (forall a :: a in s.mu.readers <==> Reads(s, a))
    && (s.mu.writer.Some? ==> s.mu.readers == {})
  }

  // ----- Stop -----

  predicate Quiet(p: StopPc) {
    (p.WaitWorkers? || p.WantClose? || p.InClose? || p.Returned?) && p.quiet
  }

  predicate Waited(p: StopPc) {
    p.WantClose? || p.InClose? || p.Returned?
  }

  ghost predicate StopsOk(s: State) {
    forall k :: k in s.stops && Quiet(s.stops[k]) ==>
      && s.core.stopped && Settled(s)
      && (forall d :: d in s.core.gs && Live(s.core.gs[d]) ==> d in s.core.cancelled)
      && (Waited(s.stops[k]) ==> AllWorkersGone(s))
      && (s.stops[k].Returned? ==> forall n :: n in s.core.workers ==> s.core.workers[n].driver in s.stops[k].closed)
  }

  ghost predicate Inv(s: State) {
    && WorkersOk(s)
    && GoroutinesOk(s)
    && Classified(s)
    && ReloadOk(s)
    && LockOk(s)
    && StopsOk(s)
  }

  lemma InvParts(s: State)
    requires Inv(s)
    ensures WorkersOk(s) && GoroutinesOk(s) && Classified(s) && ReloadOk(s) && LockOk(s) && StopsOk(s)
  {
    hide WorkersOk, GoroutinesOk, Classified, ReloadOk, LockOk, StopsOk;
  }

  lemma InvWhole(s: State)
    requires WorkersOk(s) && GoroutinesOk(s) && Classified(s) && ReloadOk(s) && LockOk(s) && StopsOk(s)
    ensures Inv(s)
  {
    hide WorkersOk, GoroutinesOk, Classified, ReloadOk, LockOk, StopsOk;
  }

  // ----- preservation, one family of steps at a time -----

  /** A goroutine's step changes its own entry, the lock and the current values only. */
  ghost predicate OnlyGoroutine(s: State, t: State, d: nat) {
    && d in s.core.gs
    && t.core.gs.Keys == s.core.gs.Keys
    && (forall e :: e in s.core.gs && e != d ==> t.core.gs[e] == s.core.gs[e])
    && t.core.gs[d].name == s.core.gs[d].name
    && t.core.gs[d].driver == s.core.gs[d].driver
    && t.core.gs[d].cfg == s.core.gs[d].cfg
    && (!Live(s.core.gs[d]) ==> !Live(t.core.gs[d]))
    && (s.core.gs[d].pc.Gone? ==> t.core.gs[d].pc.Gone?)
    && t.core.workers == s.core.workers && t.core.stopped == s.core.stopped
    && t.core.cancelled == s.core.cancelled && t.core.next == s.core.next
    && t.started == s.started && t.reload == s.reload && t.stops == s.stops && t.closes == s.closes
  }

  lemma GoroutineKeepsTables(s: State, t: State, d: nat)
    requires WorkersOk(s) && GoroutinesOk(s) && OnlyGoroutine(s, t, d)
    ensures WorkersOk(t) && GoroutinesOk(t)
  {
    forall n | n in t.core.workers
      ensures WorkerOk(t, n)
    {
      assert WorkerOk(s, n);
    }
  }

  lemma GoroutineKeepsClasses(s: State, t: State, d: nat)
    requires Classified(s) && OnlyGoroutine(s, t, d)
    ensures Classified(t)
  {
    forall e | e in t.core.gs
      ensures Registered(t, e) || Draining(t, e) || Retired(t, e)
    {
      assert Registered(s, e) || Draining(s, e) || Retired(s, e);
      if Draining(s, e) {
        var i :| DrainingAt(s, e, i);
        assert DrainingAt(t, e, i);
      }
    }
  }

  lemma GoroutineKeepsReload(s: State, t: State, d: nat)
    requires ReloadOk(s) && OnlyGoroutine(s, t, d)
    ensures ReloadOk(t)
  {
    if PastDrain(t) {
      forall i | 0 <= i < |t.reload.drained|
        ensures DrainedOk(t, i)
      {
        assert DrainedOk(s, i);
      }
    }
  }

  lemma GoroutineKeepsStops(s: State, t: State, d: nat)
    requires StopsOk(s) && OnlyGoroutine(s, t, d)
    ensures StopsOk(t)
  {
  }

  /** The lock and the sections agree after a step of one agent when they agree for
      that agent, nobody else moved in or out, and the lock changed for nobody else. */
  lemma LockFrame(s: State, t: State, a: Agent)
    requires LockOk(s)
    requires forall b :: b != a ==> (Writes(t, b) <==> Writes(s, b)) && (Reads(t, b) <==> Reads(s, b))
    requires forall b :: b != a ==> (t.mu.writer == Some(b) <==> s.mu.writer == Some(b))
    requires forall b :: b != a ==> (b in t.mu.readers <==> b in s.mu.readers)
    requires t.mu.writer == Some(a) <==> Writes(t, a)
    requires a in t.mu.readers <==> Reads(t, a)
    requires t.mu.writer.Some? ==> t.mu.readers == {}
    ensures LockOk(t)
  {
  }

  lemma GoroutineSections(s: State, d: nat, w: WorkStep)
    requires LockOk(s) && WorkEnabled(s, d, w)
    ensures LockOk(WorkOn(s, d, w))
  {
    var t := WorkOn(s, d, w);
    var a := WorkerAgent(d);
    assert s.mu.writer == Some(a) <==> Writes(s, a);
    assert a in s.mu.readers <==> Reads(s, a);
    forall b | b != a
      ensures (Writes(t, b) <==> Writes(s, b)) && (Reads(t, b) <==> Reads(s, b))
    {
    }
    LockFrame(s, t, a);
  }

  lemma NextGoroutineIsSame(s: State, d: nat, w: WorkStep)
    requires WorkEnabled(s, d, w)
    ensures var g, h := s.core.gs[d], NextGoroutine(s, d, w);
            && h.name == g.name && h.driver == g.driver && h.cfg == g.cfg
            && (!Live(g) ==> !Live(h)) && (g.pc.Gone? ==> h.pc.Gone?)
  {
  }

  lemma WorkIsLocal(s: State, d: nat, w: WorkStep)
    requires WorkEnabled(s, d, w)
    ensures OnlyGoroutine(s, WorkOn(s, d, w), d)
  {
    NextGoroutineIsSame(s, d, w);
    hide NextGoroutine, Store, Live;
  }

  lemma WorkKeeps(s: State, d: nat, w: WorkStep)
    requires Inv(s) && WorkEnabled(s, d, w)
    ensures Inv(WorkOn(s, d, w))
  {
    hide *;
    var t := WorkOn(s, d, w);
    WorkIsLocal(s, d, w);
    InvParts(s);
    GoroutineKeepsTables(s, t, d);
    GoroutineKeepsClasses(s, t, d);
    GoroutineKeepsReload(s, t, d);
    GoroutineKeepsStops(s, t, d);
    GoroutineSections(s, d, w);
    InvWhole(t);
  }

  // ----- the environment and Stop -----

  /** Only the lock, the Stop calls, `stopped` and the cancelled contexts may differ. */
  ghost predicate OnlyCancels(s: State, t: State) {
    && t.core.workers == s.core.workers && t.core.gs == s.core.gs && t.core.next == s.core.next
    && s.core.cancelled <= t.core.cancelled
    && t.started == s.started && t.reload == s.reload && t.closes == s.closes
  }

  lemma CancelKeepsTables(s: State, t: State)
    requires WorkersOk(s) && GoroutinesOk(s) && Classified(s) && ReloadOk(s) && OnlyCancels(s, t)
    ensures WorkersOk(t) && GoroutinesOk(t) && Classified(t) && ReloadOk(t)
  {
    forall n | n in t.core.workers
      ensures WorkerOk(t, n)
    {
      assert WorkerOk(s, n);
    }
    forall d | d in t.core.gs
      ensures Registered(t, d) || Draining(t, d) || Retired(t, d)
    {
      assert Registered(s, d) || Draining(s, d) || Retired(s, d);
      if Draining(s, d) {
        var i :| DrainingAt(s, d, i);
        assert DrainingAt(t, d, i);
      }
    }
    CancelKeepsReload(s, t);
  }

  lemma CancelKeepsReload(s: State, t: State)
    requires ReloadOk(s) && OnlyCancels(s, t)
    ensures ReloadOk(t)
  {
    if PastDrain(t) {
      forall i | 0 <= i < |t.reload.drained|
        ensures DrainedOk(t, i)
      {
        assert DrainedOk(s, i);
      }
    }
  }

  lemma OutsideIsLocal(s: State, o: OutsideStep)
    requires OutsideEnabled(s, o)
    ensures OnlyCancels(s, OutsideOn(s, o))
  {
  }

  lemma OutsideKeepsStops(s: State, o: OutsideStep)
    requires StopsOk(s) && OutsideEnabled(s, o)
    ensures StopsOk(OutsideOn(s, o))
  {
  }

  lemma OutsideSections(s: State, o: OutsideStep)
    requires LockOk(s) && OutsideEnabled(s, o)
    ensures LockOk(OutsideOn(s, o))
  {
    var a := if o.ReaderLock? || o.ReaderUnlock? then ReaderAgent(o.r) else
             if o.BeginStop? then StopAgent(o.k) else ReaderAgent(0);
    assert s.mu.writer == Some(a) <==> Writes(s, a);
    assert a in s.mu.readers <==> Reads(s, a);
    LockFrame(s, OutsideOn(s, o), a);
  }

  lemma OutsideKeeps(s: State, o: OutsideStep)
    requires Inv(s) && OutsideEnabled(s, o)
    ensures Inv(OutsideOn(s, o))
  {
    hide *;
    InvParts(s);
    OutsideIsLocal(s, o);
    CancelKeepsTables(s, OutsideOn(s, o));
    OutsideSections(s, o);
    OutsideKeepsStops(s, o);
    InvWhole(OutsideOn(s, o));
  }

  lemma StopIsLocal(s: State, k: nat, st: StopStep)
    requires StopEnabled(s, k, st)
    ensures OnlyCancels(s, StopOn(s, k, st))
  {
  }

  lemma StopSections(s: State, k: nat, st: StopStep)
    requires LockOk(s) && StopEnabled(s, k, st)
    ensures LockOk(StopOn(s, k, st))
  {
    var t := StopOn(s, k, st);
    var a := StopAgent(k);
    assert s.mu.writer == Some(a) <==> Writes(s, a);
    assert a in s.mu.readers <==> Reads(s, a);
    forall b | b != a
      ensures (Writes(t, b) <==> Writes(s, b)) && (Reads(t, b) <==> Reads(s, b))
    {
    }
    LockFrame(s, t, a);
  }

  /** Setting `stopped` leaves no live goroutine without a cancelled context. */
  lemma MarkCancelsLive(s: State, k: nat)
    requires WorkersOk(s) && GoroutinesOk(s) && Classified(s) && ReloadOk(s) && StopEnabled(s, k, Mark)
    ensures var t := StopOn(s, k, Mark); forall d :: d in t.core.gs && Live(t.core.gs[d]) ==> d in t.core.cancelled
  {
    var t := StopOn(s, k, Mark);
    forall d | d in t.core.gs && Live(t.core.gs[d])
      ensures d in t.core.cancelled
    {
      assert Registered(s, d) || Draining(s, d);
      if Draining(s, d) {
        var i :| DrainingAt(s, d, i);
        assert DrainedOk(s, i);
      } else {
        assert WorkerOk(s, s.core.gs[d].name);
      }
    }
  }

  lemma MarkKeepsStops(s: State, k: nat)
    requires WorkersOk(s) && GoroutinesOk(s) && Classified(s) && ReloadOk(s) && StopsOk(s) && StopEnabled(s, k, Mark)
    ensures StopsOk(StopOn(s, k, Mark))
  {
    MarkCancelsLive(s, k);
  }

  lemma StopKeepsStops(s: State, k: nat, st: StopStep)
    requires StopsOk(s) && !st.Mark? && StopEnabled(s, k, st)
    ensures StopsOk(StopOn(s, k, st))
  {
  }

  lemma StopKeeps(s: State, k: nat, st: StopStep)
    requires Inv(s) && StopEnabled(s, k, st)
    ensures Inv(StopOn(s, k, st))
  {
    hide *;
    InvParts(s);
    StopIsLocal(s, k, st);
    CancelKeepsTables(s, StopOn(s, k, st));
    StopSections(s, k, st);
    if st.Mark? {
      MarkKeepsStops(s, k);
    } else {
      StopKeepsStops(s, k, st);
    }
    InvWhole(StopOn(s, k, st));
  }

  // ----- Reload: the steps between its critical sections -----

  predicate IsMove(r: ReloadStep) {
    r.BeginReload? || r.LockCheck? || r.CheckStopped? || r.LockDrain? || r.ReceiveDone? || r.LockAdd?
  }

  /** Only the lock and the position of the Reload call differ. */
  ghost predicate OnlyReload(s: State, t: State) {
    && t.core == s.core && t.started == s.started && t.stops == s.stops && t.closes == s.closes
    && (s.started || t.reload.Idle?)
    && (PastDrain(s) <==> PastDrain(t))
    && (PastDrain(s) ==>
          && t.reload.drained == s.reload.drained && t.reload.before == s.reload.before
          && t.reload.cfg == s.reload.cfg && t.reload.closedBefore == s.reload.closedBefore)
    && (!PastDrain(t) && t.reload.Active? ==> t.reload.drained == [])
  }

  lemma ReloadMoveIsLocal(s: State, r: ReloadStep)
    requires GoroutinesOk(s) && ReloadOk(s) && IsMove(r) && ReloadEnabled(s, r)
    ensures OnlyReload(s, ReloadOn(s, r))
  {
  }

  lemma ReloadMoveKeepsTables(s: State, t: State)
    requires WorkersOk(s) && GoroutinesOk(s) && Classified(s) && ReloadOk(s) && OnlyReload(s, t)
    ensures WorkersOk(t) && GoroutinesOk(t) && Classified(t)
  {
    forall n | n in t.core.workers
      ensures WorkerOk(t, n)
    {
      assert WorkerOk(s, n);
    }
    forall d | d in t.core.gs
      ensures Registered(t, d) || Draining(t, d) || Retired(t, d)
    {
      assert Registered(s, d) || Draining(s, d) || Retired(s, d);
      if Draining(s, d) {
        var i :| DrainingAt(s, d, i);
        assert DrainingAt(t, d, i);
      }
    }
  }

  lemma ReloadMoveKeepsReload(s: State, r: ReloadStep)
    requires ReloadOk(s) && IsMove(r) && ReloadEnabled(s, r)
    requires OnlyReload(s, ReloadOn(s, r))
    ensures ReloadOk(ReloadOn(s, r))
  {
    var t := ReloadOn(s, r);
    if PastDrain(t) {
      forall i | 0 <= i < |t.reload.drained|
        ensures DrainedOk(t, i)
      {
        assert DrainedOk(s, i);
      }
      assert KeptOk(t) by {
        assert KeptOk(s);
        forall n | n in DrainSet(t.reload.before, t.reload.cfg)
          ensures exists i :: DrainedName(t.reload, i, n)
        {
          var i :| DrainedName(s.reload, i, n);
          assert DrainedName(t.reload, i, n);
        }
      }
      assert t.reload.drained[..0] == [];
    }
  }

  lemma ReloadMoveKeepsStops(s: State, r: ReloadStep)
    requires StopsOk(s) && IsMove(r) && ReloadEnabled(s, r)
    ensures StopsOk(ReloadOn(s, r))
  {
  }

  lemma ReloadSections(s: State, r: ReloadStep)
    requires LockOk(s) && (IsMove(r) || r.CloseDriver?) && ReloadEnabled(s, r)
    ensures LockOk(ReloadOn(s, r))
  {
    var t := ReloadOn(s, r);
    var a := ReloadAgent;
    assert s.mu.writer == Some(a) <==> Writes(s, a);
    assert a in s.mu.readers <==> Reads(s, a);
    forall b | b != a
      ensures (Writes(t, b) <==> Writes(s, b)) && (Reads(t, b) <==> Reads(s, b))
    {
    }
    LockFrame(s, t, a);
  }

  lemma ReloadMoveKeeps(s: State, r: ReloadStep)
    requires Inv(s) && IsMove(r) && ReloadEnabled(s, r)
    ensures Inv(ReloadOn(s, r))
  {
    hide *;
    InvParts(s);
    ReloadMoveIsLocal(s, r);
    ReloadMoveKeepsTables(s, ReloadOn(s, r));
    ReloadMoveKeepsReload(s, r);
    ReloadMoveKeepsStops(s, r);
    ReloadSections(s, r);
    InvWhole(ReloadOn(s, r));
  }

  // ----- Reload: closing the drained drivers -----

  lemma OtherDrivers(s: State, i: int, d: nat)
    requires GoroutinesOk(s) && s.reload.Active? && 0 <= i < |s.reload.drained| && DrainedOk(s, i)
    requires d in s.core.gs && d != s.reload.drained[i].done
    ensures s.core.gs[d].driver != s.reload.drained[i].driver
  {
  }

  lemma CloseKeepsWorkers(s: State)
    requires WorkersOk(s) && GoroutinesOk(s) && ReloadOk(s) && ReloadEnabled(s, CloseDriver)
    ensures WorkersOk(ReloadOn(s, CloseDriver)) && GoroutinesOk(ReloadOn(s, CloseDriver))
  {
    var t := ReloadOn(s, CloseDriver);
    var k := s.reload.k;
    if k < |s.reload.drained| {
      assert DrainedOk(s, k);
      forall n | n in t.core.workers
        ensures WorkerOk(t, n)
      {
        assert WorkerOk(s, n);
        OtherDrivers(s, k, s.core.workers[n].done);
      }
    } else {
      forall n | n in t.core.workers
        ensures WorkerOk(t, n)
      {
        assert WorkerOk(s, n);
      }
    }
  }

  lemma CloseKeepsClasses(s: State)
    requires GoroutinesOk(s) && Classified(s) && ReloadOk(s) && ReloadEnabled(s, CloseDriver)
    ensures Classified(ReloadOn(s, CloseDriver))
  {
    var t := ReloadOn(s, CloseDriver);
    var k := s.reload.k;
    forall d | d in t.core.gs
      ensures Registered(t, d) || Draining(t, d) || Retired(t, d)
    {
      assert Registered(s, d) || Draining(s, d) || Retired(s, d);
      if Draining(s, d) {
        var i :| DrainingAt(s, d, i);
        assert DrainingAt(t, d, i);
      } else if k < |s.reload.drained| {
        assert DrainedOk(s, k);
        assert DrainingAt(s, s.reload.drained[k].done, k);
        OtherDrivers(s, k, d);
      }
    }
  }

  lemma CloseKeepsKept(s: State)
    requires ReloadOk(s) && ReloadEnabled(s, CloseDriver)
    ensures KeptOk(ReloadOn(s, CloseDriver))
  {
    var t := ReloadOn(s, CloseDriver);
    forall n | n in DrainSet(t.reload.before, t.reload.cfg)
      ensures exists i :: DrainedName(t.reload, i, n)
    {
      var i :| DrainedName(s.reload, i, n);
      assert DrainedName(t.reload, i, n);
    }
  }

  lemma CloseKeepsDrained(s: State, i: int)
    requires GoroutinesOk(s) && ReloadOk(s) && ReloadEnabled(s, CloseDriver)
    requires 0 <= i < |s.reload.drained|
    ensures DrainedOk(ReloadOn(s, CloseDriver), i)
  {
    hide KeptOk;
    var k := s.reload.k;
    assert DrainedOk(s, i);
    if k < |s.reload.drained| && i != k {
      assert DrainedOk(s, k);
      assert s.reload.drained[i].done != s.reload.drained[k].done;
      OtherDrivers(s, k, s.reload.drained[i].done);
    }
  }

  lemma CloseKeepsReload(s: State)
    requires GoroutinesOk(s) && ReloadOk(s) && ReloadEnabled(s, CloseDriver)
    ensures ReloadOk(ReloadOn(s, CloseDriver))
  {
    hide KeptOk, DrainedOk, GoroutinesOk;
    CloseKeepsKept(s);
    forall i | 0 <= i < |s.reload.drained|
      ensures DrainedOk(ReloadOn(s, CloseDriver), i)
    {
      CloseKeepsDrained(s, i);
    }
    var k := s.reload.k;
    if k < |s.reload.drained| {
      assert s.reload.drained[..k + 1][..k] == s.reload.drained[..k];
    } else {
      assert s.reload.drained[..k] == s.reload.drained;
    }
  }

  lemma CloseKeepsStops(s: State)
    requires StopsOk(s) && ReloadEnabled(s, CloseDriver)
    ensures StopsOk(ReloadOn(s, CloseDriver))
  {
  }

  lemma CloseDriverKeeps(s: State)
    requires Inv(s) && ReloadEnabled(s, CloseDriver)
    ensures Inv(ReloadOn(s, CloseDriver))
  {
    hide *;
    InvParts(s);
    CloseKeepsWorkers(s);
    CloseKeepsClasses(s);
    CloseKeepsReload(s);
    CloseKeepsStops(s);
    ReloadSections(s, CloseDriver);
    InvWhole(ReloadOn(s, CloseDriver));
  }

  // ----- Reload: the drain section -----

  lemma DrainKeepsTables(s: State, order: seq<string>)
    requires WorkersOk(s) && GoroutinesOk(s) && ReloadEnabled(s, DrainWorkers(order))
    ensures WorkersOk(ReloadOn(s, DrainWorkers(order))) && GoroutinesOk(ReloadOn(s, DrainWorkers(order)))
  {
    var t := ReloadOn(s, DrainWorkers(order));
    forall n | n in t.core.workers
      ensures WorkerOk(t, n)
    {
      assert WorkerOk(s, n);
    }
  }

  lemma DrainKeepsClasses(s: State, order: seq<string>)
    requires Classified(s) && ReloadOk(s) && ReloadEnabled(s, DrainWorkers(order))
    ensures Classified(ReloadOn(s, DrainWorkers(order)))
  {
    var t := ReloadOn(s, DrainWorkers(order));
    forall d | d in t.core.gs
      ensures Registered(t, d) || Draining(t, d) || Retired(t, d)
    {
      assert forall i :: !DrainingAt(s, d, i);
      assert Registered(s, d) || Retired(s, d);
      var n := s.core.gs[d].name;
      if Registered(s, d) && n in ToSet(order) {
        var i :| 0 <= i < |order| && order[i] == n;
        assert DrainingAt(t, d, i);
      }
    }
  }

  lemma DrainBuildsReload(s: State, order: seq<string>)
    requires WorkersOk(s) && GoroutinesOk(s) && ReloadEnabled(s, DrainWorkers(order))
    ensures ReloadOk(ReloadOn(s, DrainWorkers(order)))
  {
    var t := ReloadOn(s, DrainWorkers(order));
    forall i | 0 <= i < |t.reload.drained|
      ensures DrainedOk(t, i)
    {
      assert order[i] in ToSet(order);
      assert WorkerOk(s, order[i]);
      assert t.reload.drained[i].done in CancelOf(s.core.workers, ToSet(order));
    }
    assert KeptOk(t) by {
      forall n | n in DrainSet(t.reload.before, t.reload.cfg)
        ensures exists i :: DrainedName(t.reload, i, n)
      {
        var i :| 0 <= i < |order| && order[i] == n;
        assert DrainedName(t.reload, i, n);
      }
    }
    assert t.reload.drained[..0] == [];
  }

  lemma DrainSections(s: State, order: seq<string>)
    requires LockOk(s) && StopsOk(s) && ReloadEnabled(s, DrainWorkers(order))
    ensures LockOk(ReloadOn(s, DrainWorkers(order))) && StopsOk(ReloadOn(s, DrainWorkers(order)))
  {
    var t := ReloadOn(s, DrainWorkers(order));
    assert s.mu.writer == Some(ReloadAgent) <==> Writes(s, ReloadAgent);
    assert ReloadAgent in s.mu.readers <==> Reads(s, ReloadAgent);
    forall b | b != ReloadAgent
      ensures (Writes(t, b) <==> Writes(s, b)) && (Reads(t, b) <==> Reads(s, b))
    {
    }
    LockFrame(s, t, ReloadAgent);
  }

  lemma DrainWorkersKeeps(s: State, order: seq<string>)
    requires Inv(s) && ReloadEnabled(s, DrainWorkers(order))
    ensures Inv(ReloadOn(s, DrainWorkers(order)))
  {
    hide *;
    InvParts(s);
    DrainKeepsTables(s, order);
    DrainKeepsClasses(s, order);
    DrainBuildsReload(s, order);
    DrainSections(s, order);
    InvWhole(ReloadOn(s, DrainWorkers(order)));
  }

  // ----- Reload: the add section -----

  /** Everything the add section leaves alone, and the shape of what it adds. */
  ghost predicate Grows(c: Core, r: Core) {
    && c.next <= r.next
    && r.current == c.current && r.stopped == c.stopped && r.cancelled == c.cancelled
    && (forall n :: n in c.workers ==> n in r.workers && r.workers[n] == c.workers[n])
    && (forall d :: d in c.gs ==> d in r.gs && r.gs[d] == c.gs[d])
    && (forall d :: d in r.gs && d !in c.gs ==>
          c.next <= d && r.gs[d] == Launch(r.gs[d].name, r.gs[d].driver, r.gs[d].cfg))
    && (forall n :: n in r.workers && n !in c.workers ==>
          c.next <= r.workers[n].driver && c.next <= r.workers[n].done && r.workers[n].started
          && r.workers[n].done in r.gs)
  }

  lemma {:induction false} AddAllGrows(c: Core, cfgs: seq<PLC>)
    requires forall d :: d in c.gs ==> d < c.next
    ensures Grows(c, AddAll(c, cfgs))
    ensures forall d :: d in AddAll(c, cfgs).gs ==> d < AddAll(c, cfgs).next
  {
    if cfgs != [] {
      AddAllGrows(c, cfgs[..|cfgs| - 1]);
      AddOneGrows(c, AddAll(c, cfgs[..|cfgs| - 1]), cfgs[|cfgs| - 1]);
    }
  }

  lemma AddOneGrows(c: Core, mid: Core, cfg: PLC)
    requires Grows(c, mid) && forall d :: d in mid.gs ==> d < mid.next
    ensures Grows(c, AddOne(mid, cfg))
    ensures forall d :: d in AddOne(mid, cfg).gs ==> d < AddOne(mid, cfg).next
  {
  }

  lemma AddOneKeepsWorkers(s: State, cfg: PLC)
    requires s.started && WorkersOk(s) && GoroutinesOk(s) && cfg.name !in s.core.workers
    ensures WorkersOk(s.(core := AddOne(s.core, cfg)))
  {
    var t := s.(core := AddOne(s.core, cfg));
    forall n | n in t.core.workers
      ensures WorkerOk(t, n)
    {
      if n in s.core.workers {
        assert WorkerOk(s, n);
      }
    }
    forall m, n | m in t.core.workers && n in t.core.workers && m != n
      ensures t.core.workers[m].driver != t.core.workers[n].driver
    {
      if m in s.core.workers {
        assert WorkerOk(s, m);
      }
      if n in s.core.workers {
        assert WorkerOk(s, n);
      }
    }
  }

  lemma AddOneKeepsGoroutines(s: State, cfg: PLC)
    requires s.started && GoroutinesOk(s) && cfg.name !in s.core.workers
    ensures GoroutinesOk(s.(core := AddOne(s.core, cfg)))
  {
  }

  lemma AddOneKeepsClasses(s: State, cfg: PLC)
    requires s.reload.Idle? && GoroutinesOk(s) && Classified(s) && cfg.name !in s.core.workers
    ensures Classified(s.(core := AddOne(s.core, cfg)))
  {
    var t := s.(core := AddOne(s.core, cfg));
    forall d | d in t.core.gs
      ensures Registered(t, d) || Draining(t, d) || Retired(t, d)
    {
      if d in s.core.gs {
        assert forall i :: !DrainingAt(s, d, i);
        assert Registered(s, d) || Retired(s, d);
      }
    }
  }

  lemma AddOneKeeps(s: State, cfg: PLC)
    requires s.started && s.reload.Idle?
    requires WorkersOk(s) && GoroutinesOk(s) && Classified(s)
    ensures var t := s.(core := AddOne(s.core, cfg)); WorkersOk(t) && GoroutinesOk(t) && Classified(t)
  {
    if cfg.name in s.core.workers {
      assert s.(core := AddOne(s.core, cfg)) == s;
    } else {
      AddOneKeepsWorkers(s, cfg);
      AddOneKeepsGoroutines(s, cfg);
      AddOneKeepsClasses(s, cfg);
    }
  }

  lemma {:induction false} AddAllKeeps(s: State, cfgs: seq<PLC>)
    requires s.started && s.reload.Idle?
    requires WorkersOk(s) && GoroutinesOk(s) && Classified(s)
    ensures var t := s.(core := AddAll(s.core, cfgs)); WorkersOk(t) && GoroutinesOk(t) && Classified(t)
  {
    if cfgs != [] {
      AddAllKeeps(s, cfgs[..|cfgs| - 1]);
      AddOneKeeps(s.(core := AddAll(s.core, cfgs[..|cfgs| - 1])), cfgs[|cfgs| - 1]);
    }
  }

  /** Before the add section nothing is draining any more. */
  lemma DrainFinished(s: State)
    requires WorkersOk(s) && GoroutinesOk(s) && Classified(s) && ReloadOk(s) && AtPhase(s, InAdd)
    ensures var t := s.(reload := Idle); WorkersOk(t) && GoroutinesOk(t) && Classified(t)
  {
    var t := s.(reload := Idle);
    forall n | n in t.core.workers
      ensures WorkerOk(t, n)
    {
      assert WorkerOk(s, n);
    }
    forall d | d in t.core.gs
      ensures Registered(t, d) || Draining(t, d) || Retired(t, d)
    {
      assert Registered(s, d) || Draining(s, d) || Retired(s, d);
      if Draining(s, d) {
        var i :| DrainingAt(s, d, i);
        assert DrainedOk(s, i);
      }
    }
  }

  lemma {:induction false} AddAllNothing(c: Core, cfgs: seq<PLC>)
    requires PlcNames(cfgs) <= c.workers.Keys
    ensures AddAll(c, cfgs) == c
  {
    if cfgs != [] {
      var m := |cfgs| - 1;
      assert cfgs == cfgs[..m] + [cfgs[m]];
      AddAllNothing(c, cfgs[..m]);
      assert cfgs[m].name in PlcNames(cfgs);
    }
  }

  lemma AddSections(s: State)
    requires GoroutinesOk(s) && LockOk(s) && StopsOk(s) && ReloadEnabled(s, AddWorkers)
    ensures LockOk(ReloadOn(s, AddWorkers)) && StopsOk(ReloadOn(s, AddWorkers)) && ReloadOk(ReloadOn(s, AddWorkers))
  {
    var t := ReloadOn(s, AddWorkers);
    AddAllGrows(s.core, s.reload.cfg);
    if Settled(s) {
      AddAllNothing(s.core, s.reload.cfg);
    }
    assert s.mu.writer == Some(ReloadAgent) <==> Writes(s, ReloadAgent);
    assert ReloadAgent in s.mu.readers <==> Reads(s, ReloadAgent);
    forall b | b != ReloadAgent
      ensures (Writes(t, b) <==> Writes(s, b)) && (Reads(t, b) <==> Reads(s, b))
    {
    }
    LockFrame(s, t, ReloadAgent);
  }

  /** The tables do not depend on the lock or on the Stop calls. */
  lemma TablesIgnoreLock(s: State, t: State)
    requires WorkersOk(s) && GoroutinesOk(s) && Classified(s) && s.reload.Idle?
    requires t.core == s.core && t.started == s.started && t.reload.Idle? && t.closes == s.closes
    ensures WorkersOk(t) && GoroutinesOk(t) && Classified(t)
  {
    forall n | n in t.core.workers
      ensures WorkerOk(t, n)
    {
      assert WorkerOk(s, n);
    }
    forall d | d in t.core.gs
      ensures Registered(t, d) || Draining(t, d) || Retired(t, d)
    {
      assert forall i :: !DrainingAt(s, d, i);
      assert Registered(s, d) || Retired(s, d);
    }
  }

  lemma AddKeepsTables(s: State)
    requires WorkersOk(s) && GoroutinesOk(s) && Classified(s) && ReloadOk(s) && ReloadEnabled(s, AddWorkers)
    ensures WorkersOk(ReloadOn(s, AddWorkers)) && GoroutinesOk(ReloadOn(s, AddWorkers))
    ensures Classified(ReloadOn(s, AddWorkers))
  {
    var idle := s.(reload := Idle);
    DrainFinished(s);
    AddAllKeeps(idle, s.reload.cfg);
    TablesIgnoreLock(idle.(core := AddAll(s.core, s.reload.cfg)), ReloadOn(s, AddWorkers));
  }

  lemma AddWorkersKeeps(s: State)
    requires Inv(s) && ReloadEnabled(s, AddWorkers)
    ensures Inv(ReloadOn(s, AddWorkers))
  {
    hide *;
    InvParts(s);
    AddKeepsTables(s);
    AddSections(s);
    InvWhole(ReloadOn(s, AddWorkers));
  }

  // ----- Start and the initial state -----

  /** The worker map while Start walks over it. */
  ghost predicate StartedSoFar(c: Core, r: Core, order: seq<string>) {
    && r.workers.Keys == c.workers.Keys
    && c.next <= r.next && r.current == c.current && r.stopped == c.stopped && r.cancelled == c.cancelled
    && (forall n :: n in c.workers && n !in order ==> r.workers[n] == c.workers[n])
    && (forall n :: n in c.workers && n in order ==>
          && r.workers[n].driver == c.workers[n].driver && r.workers[n].cfg == c.workers[n].cfg
          && r.workers[n].started && c.next <= r.workers[n].done < r.next
          && r.workers[n].done in r.gs
          && r.gs[r.workers[n].done] == Launch(n, c.workers[n].driver, c.workers[n].cfg))
    && (forall d :: d in r.gs ==>
          && c.next <= d < r.next && r.gs[d].name in order && r.gs[d].name in r.workers
          && r.workers[r.gs[d].name].done == d)
  }

  lemma {:induction false} StartAllStarts(c: Core, order: seq<string>)
    requires ToSet(order) <= c.workers.Keys && NoDuplicates(order) && c.gs == map[]
    ensures StartedSoFar(c, StartAll(c, order), order)
  {
    if order != [] {
      var n := |order| - 1;
      var rest := order[..n];
      assert order == rest + [order[n]];
      assert ToSet(rest) <= c.workers.Keys by {
        assert ToSet(rest) <= ToSet(order);
      }
      StartAllStarts(c, rest);
      assert order[n] in ToSet(order);
      assert order[n] !in rest;
      StartOneStarts(c, StartAll(c, rest), rest, order[n]);
      assert StartAll(c, order) == StartOne(StartAll(c, rest), order[n]);
    }
  }

  lemma StartOneStarts(c: Core, mid: Core, rest: seq<string>, name: string)
    requires StartedSoFar(c, mid, rest) && name in c.workers && name !in rest
    ensures StartedSoFar(c, StartOne(mid, name), rest + [name])
  {
  }

  lemma StartWorkers(s: State, order: seq<string>)
    requires WorkersOk(s) && StartEnabled(s, order)
    requires StartedSoFar(s.core, StartAll(s.core, order), order)
    ensures WorkersOk(StartOn(s, order)) && Classified(StartOn(s, order))
  {
    var t := StartOn(s, order);
    forall n | n in t.core.workers
      ensures WorkerOk(t, n)
    {
      assert WorkerOk(s, n);
      assert n in ToSet(order);
    }
    forall d | d in t.core.gs
      ensures Registered(t, d)
    {
    }
  }

  lemma StartKeeps(s: State, order: seq<string>)
    requires Inv(s) && StartEnabled(s, order)
    ensures Inv(StartOn(s, order))
  {
    StartAllStarts(s.core, order);
    StartWorkers(s, order);
    StartGoroutines(s, order);
    StartSections(s, order);
  }

  lemma StartGoroutines(s: State, order: seq<string>)
    requires WorkersOk(s) && GoroutinesOk(s) && StartEnabled(s, order)
    requires StartedSoFar(s.core, StartAll(s.core, order), order)
    ensures GoroutinesOk(StartOn(s, order))
  {
    var t := StartOn(s, order);
    forall d | d in t.core.gs
      ensures t.core.gs[d].driver < t.core.next && t.core.gs[d].cfg.name == t.core.gs[d].name
    {
      assert WorkerOk(s, t.core.gs[d].name);
    }
    forall d, e | d in t.core.gs && e in t.core.gs && d != e
      ensures t.core.gs[d].driver != t.core.gs[e].driver
    {
      assert t.core.gs[d].name != t.core.gs[e].name;
    }
  }

  lemma StartSections(s: State, order: seq<string>)
    requires GoroutinesOk(s) && LockOk(s) && StopsOk(s) && StartEnabled(s, order)
    requires StartedSoFar(s.core, StartAll(s.core, order), order)
    ensures LockOk(StartOn(s, order)) && StopsOk(StartOn(s, order))
  {
    var t := StartOn(s, order);
    forall a
      ensures (Writes(t, a) <==> Writes(s, a)) && (Reads(t, a) <==> Reads(s, a))
    {
    }
  }

  lemma {:induction false} NewAllWorkers(cfgs: seq<PLC>)
    ensures var c := NewAll(EMPTY_CORE, cfgs);
            && c.next == 2 * |cfgs| && c.gs == map[] && c.cancelled == {} && !c.stopped && c.current == map[]
            && (forall n :: n in c.workers ==>
                  c.workers[n].cfg.name == n && c.workers[n].driver < c.next && c.workers[n].done < c.next
                  && !c.workers[n].started)
            && (forall m, n :: m in c.workers && n in c.workers && m != n ==>
                  c.workers[m].driver != c.workers[n].driver)
  {
    if cfgs != [] {
      NewAllWorkers(cfgs[..|cfgs| - 1]);
    }
  }

  lemma InitialHolds(cfgs: seq<PLC>)
    ensures Inv(Initial(cfgs))
  {
    NewAllWorkers(cfgs);
  }

  // ----- every run -----

  lemma ReloadKeeps(s: State, r: ReloadStep)
    requires Inv(s) && ReloadEnabled(s, r)
    ensures Inv(ReloadOn(s, r))
  {
    hide ReloadEnabled, ReloadOn, Inv;
    if r.CloseDriver? {
      CloseDriverKeeps(s);
    } else if r.DrainWorkers? {
      DrainWorkersKeeps(s, r.order);
    } else if r.AddWorkers? {
      AddWorkersKeeps(s);
    } else {
      ReloadMoveKeeps(s, r);
    }
  }

  lemma StepKeeps(s: State, st: Step)
    requires Inv(s) && Enabled(s, st)
    ensures Inv(Apply(s, st))
  {
    hide Inv, StartEnabled, WorkEnabled, ReloadEnabled, StopEnabled, OutsideEnabled;
    hide StartOn, WorkOn, ReloadOn, StopOn, OutsideOn;
    match st
    case Start(order) => StartKeeps(s, order);
    case Work(d, w) => WorkKeeps(s, d, w);
    case Reloading(r) => ReloadKeeps(s, r);
    case Stopping(k, stop) => StopKeeps(s, k, stop);
    case Outside(o) => OutsideKeeps(s, o);
  }

  lemma {:induction false} RunKeeps(s: State, run: seq<Step>)
    requires Inv(s) && IsRun(s, run)
    ensures Inv(After(s, run))
    decreases |run|
  {
    hide Inv, Enabled, Apply;
    if run != [] {
      StepKeeps(s, run[0]);
      RunKeeps(Apply(s, run[0]), run[1..]);
    }
  }
}
