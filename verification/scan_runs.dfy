/** The tick as a loop is a run of the manager protocol: what Scanner.Tick does at one
    stroke, the goroutine can do step by step, with the lock free. */
module ScanRuns {
  import opened Base
  import opened Scalars
  import opened PlcManager
  import opened ManagerProtocol
  import opened ManagerInvariants
  import opened ManagerProgress
  import opened ScanLoop

  /** The goroutine of d has become g, by its own steps from s0, and the lock is free. */
  ghost predicate Now(s0: State, run: seq<Step>, d: nat, s: State, g: Goroutine) {
    OwnRun(s0, run, d, s) && FreeMu(s) && d in s.core.gs && s.core.gs[d] == g
  }

  /** A step of the goroutine that leaves the lock alone. */
  lemma Moves(s0: State, run: seq<Step>, d: nat, s: State, g: Goroutine, w: WorkStep) returns (t: State, more: seq<Step>)
    requires Now(s0, run, d, s, g) && WorkEnabled(s, d, w)
    requires !w.LockStore? && !w.StoreTag? && !w.LockCallbacks? && !w.CopyCallbacks?
    ensures Now(s0, more, d, t, NextGoroutine(s, d, w))
  {
    OwnStep(s0, d, run, s, w);
    hide OwnRun, NextGoroutine;
    t, more := WorkOn(s, d, w), run + [Work(d, w)];
  }

  /** An update is stored and delivered. */
  lemma Emission(s0: State, run: seq<Step>, d: nat, s: State, g: Goroutine) returns (t: State, more: seq<Step>)
    requires Now(s0, run, d, s, g) && g.pc.WantStore?
    ensures Now(s0, more, d, t, AfterDeliver(g.(pc := Delivering(g.pc.i, g.pc.u))))
  {
    hide OwnRun, Store;
    OwnStep(s0, d, run, s, LockStore);
    t, more := WorkOn(s, d, LockStore), run + [Work(d, LockStore)];
    OwnStep(s0, d, more, t, StoreTag);
    t, more := WorkOn(t, d, StoreTag), more + [Work(d, StoreTag)];
    OwnStep(s0, d, more, t, LockCallbacks);
    t, more := WorkOn(t, d, LockCallbacks), more + [Work(d, LockCallbacks)];
    OwnStep(s0, d, more, t, CopyCallbacks);
    t, more := WorkOn(t, d, CopyCallbacks), more + [Work(d, CopyCallbacks)];
    t, more := Moves(s0, more, d, t, g.(pc := Delivering(g.pc.i, g.pc.u)), Deliver);
  }

  lemma ReadRuns(s0: State, run: seq<Step>, d: nat, s: State, g: Goroutine, o: Outcome, at: int)
    returns (t: State, more: seq<Step>)
    requires Now(s0, run, d, s, g) && g.pc.Scanning? && g.pc.i < |g.cfg.tags|
    ensures Now(s0, more, d, t, ReadAndEmit(g, o, at))
  {
    t, more := Moves(s0, run, d, s, g, ReadTag(o, at));
    var h := AfterRead(g, o, at);
    if h.pc.WantStore? {
      t, more := Emission(s0, more, d, t, h);
    }
  }

  lemma {:induction false} TagsRun(s0: State, run: seq<Step>, d: nat, s: State, g: Goroutine, results: seq<Outcome>,
                                   at: int, n: nat)
    returns (t: State, more: seq<Step>)
    requires Now(s0, run, d, s, g.(pc := Scanning(0))) && n <= |g.cfg.tags| && n <= |results|
    ensures Now(s0, more, d, t, TickUpTo(g, results, at, n))
    decreases n
  {
    hide Now, ReadAndEmit;
    if n == 0 {
      t, more := s, run;
    } else {
      t, more := TagsRun(s0, run, d, s, g, results, at, n - 1);
      t, more := ReadRuns(s0, more, d, t, TickUpTo(g, results, at, n - 1), results[n - 1], at);
    }
  }

  /** From every state with a free lock, a goroutine that waits for its ticker, or that has
      lost its connection and tries to reconnect in a tick, can make the tick that Scanner
      makes, for all results of its reads: the same reads, updates and qualities. */
  lemma TickIsRun(s: State, d: nat, results: seq<Outcome>, at: int)
    requires FreeMu(s) && d in s.core.gs && (s.core.gs[d].pc.Looping? || s.core.gs[d].pc == Connecting(true))
    requires |results| == |s.core.gs[d].cfg.tags|
    ensures var g := s.core.gs[d];
            exists run, t ::
              && OwnRun(s, run, d, t) && FreeMu(t) && d in t.core.gs
              && t.core.gs[d] == TickUpTo(g, results, at, |g.cfg.tags|).(pc := Looping)
  {
    var g := s.core.gs[d];
    OwnNothing(s, d);
    var t, run := Moves(s, [], d, s, g, if g.pc.Looping? then Tick(true) else Connected);
    t, run := TagsRun(s, run, d, t, g, results, at, |g.cfg.tags|);
    hide TickUpTo, OwnRun;
    t, run := Moves(s, run, d, t, TickUpTo(g, results, at, |g.cfg.tags|), EndTick);
  }
}
