/** What the manager protocol guarantees in every run. */
module ManagerTheorems {
  import opened Base
  import opened Scalars
  import opened PlcManager
  import opened ManagerProtocol
  import opened ManagerInvariants

  // ----- one worker per PLC -----

  lemma LiveIsOwned(s: State, d: nat)
    requires Inv(s) && d in s.core.gs && Live(s.core.gs[d])
    ensures Registered(s, d) || Draining(s, d)
  {
  }

  lemma OneLivePerName(s: State, d: nat, e: nat)
    requires Inv(s) && d in s.core.gs && e in s.core.gs
    requires Live(s.core.gs[d]) && Live(s.core.gs[e]) && s.core.gs[d].name == s.core.gs[e].name
    ensures d == e
  {
    LiveIsOwned(s, d);
    LiveIsOwned(s, e);
    if Draining(s, d) {
      var i :| DrainingAt(s, d, i);
      assert DrainedOk(s, i);
    }
    if Draining(s, e) {
      var j :| DrainingAt(s, e, j);
      assert DrainedOk(s, j);
    }
  }

  /** In every interleaving no PLC is served by two goroutines at once. */
  lemma OneWorkerPerPlc(cfgs: seq<PLC>, run: seq<Step>, d: nat, e: nat)
    requires IsRun(Initial(cfgs), run)
    requires var gs := After(Initial(cfgs), run).core.gs;
             d in gs && e in gs && Live(gs[d]) && Live(gs[e]) && gs[d].name == gs[e].name
    ensures d == e
  {
    hide Inv;
    InitialHolds(cfgs);
    RunKeeps(Initial(cfgs), run);
    OneLivePerName(After(Initial(cfgs), run), d, e);
  }

  /** When Reload launches a goroutine for a PLC, every earlier goroutine of that PLC has
      left runWorker and its driver has been closed by exactly one Reload. */
  lemma ReplacementAfterDrain(cfgs: seq<PLC>, run: seq<Step>, d: nat, e: nat)
    requires IsRun(Initial(cfgs), run)
    requires var s := After(Initial(cfgs), run);
             && ReloadEnabled(s, AddWorkers)
             && d in ReloadOn(s, AddWorkers).core.gs && d !in s.core.gs && e in s.core.gs
             && ReloadOn(s, AddWorkers).core.gs[d].name == s.core.gs[e].name
    ensures var s := After(Initial(cfgs), run); !Live(s.core.gs[e]) && s.closes[s.core.gs[e].driver] == 1
  {
    InitialHolds(cfgs);
    RunKeeps(Initial(cfgs), run);
    FreshMeansRetired(After(Initial(cfgs), run), d, e);
  }

  lemma FreshMeansRetired(s: State, d: nat, e: nat)
    requires Inv(s) && ReloadEnabled(s, AddWorkers)
    requires d in ReloadOn(s, AddWorkers).core.gs && d !in s.core.gs && e in s.core.gs
    requires ReloadOn(s, AddWorkers).core.gs[d].name == s.core.gs[e].name
    ensures Retired(s, e)
  {
    var t := ReloadOn(s, AddWorkers);
    AddAllNames(s.core, s.reload.cfg);
    DrainFinished(s);
    var idle := s.(reload := Idle);
    assert forall i :: !DrainingAt(idle, e, i);
    assert Registered(idle, e) || Retired(idle, e);
    assert t.core.gs[d].name !in s.core.workers;
  }

  // ----- Reload installs its configuration -----

  /** The first entry of a name, which is the one the add section uses. */
  function FirstOf(cfgs: seq<PLC>, n: string): (p: PLC)
    requires n in PlcNames(cfgs)
    ensures p in cfgs && p.name == n
  {
    var m := |cfgs| - 1;
    assert cfgs == cfgs[..m] + [cfgs[m]];
    if n in PlcNames(cfgs[..m]) then FirstOf(cfgs[..m], n) else cfgs[m]
  }

  lemma {:induction false} AddAllNames(c: Core, cfgs: seq<PLC>)
    ensures AddAll(c, cfgs).workers.Keys == c.workers.Keys + PlcNames(cfgs)
    ensures forall n :: n in c.workers ==> AddAll(c, cfgs).workers[n] == c.workers[n]
    ensures forall n :: n in PlcNames(cfgs) && n !in c.workers ==>
              AddAll(c, cfgs).workers[n].cfg == FirstOf(cfgs, n)
    ensures forall d :: d in AddAll(c, cfgs).gs && d !in c.gs ==> AddAll(c, cfgs).gs[d].name !in c.workers
  {
    if cfgs != [] {
      var m := |cfgs| - 1;
      assert cfgs == cfgs[..m] + [cfgs[m]];
      assert PlcNames(cfgs) == PlcNames(cfgs[..m]) + {cfgs[m].name};
      AddAllNames(c, cfgs[..m]);
      hide PlcNames;
    }
  }

  lemma {:induction false} DistinctEntries(cfgs: seq<PLC>, i: int)
    requires DistinctNames(cfgs) && 0 <= i < |cfgs|
    ensures ByName(cfgs)[cfgs[i].name] == cfgs[i] && FirstOf(cfgs, cfgs[i].name) == cfgs[i]
  {
    var m := |cfgs| - 1;
    assert cfgs == cfgs[..m] + [cfgs[m]];
    if i < m {
      DistinctEntries(cfgs[..m], i);
      assert cfgs[..m][i] == cfgs[i];
    }
  }

  /** A worker map that holds a configuration, reached from an older map. */
  ghost predicate Installed(before: map<string, Worker>, cfg: seq<PLC>, after: map<string, Worker>) {
    && after.Keys == PlcNames(cfg)
    && (forall n :: n in before && n !in DrainSet(before, cfg) ==> n in after && after[n] == before[n])
    && (forall n :: n in after && (n !in before || n in DrainSet(before, cfg)) ==>
          n in PlcNames(cfg) && after[n].cfg == FirstOf(cfg, n) && after[n].started)
    && (DistinctNames(cfg) ==> forall i :: 0 <= i < |cfg| ==> after[cfg[i].name].cfg == cfg[i])
  }

  lemma AddInstalls(s: State)
    requires Inv(s) && AtPhase(s, InAdd)
    ensures Installed(s.reload.before, s.reload.cfg, ReloadOn(s, AddWorkers).core.workers)
  {
    var before, cfg := s.reload.before, s.reload.cfg;
    var after := ReloadOn(s, AddWorkers).core.workers;
    AddAllNames(s.core, cfg);
    AddAllGrows(s.core, cfg);
    assert KeptOk(s);
    assert s.core.workers.Keys <= PlcNames(cfg);
    if DistinctNames(cfg) {
      forall i | 0 <= i < |cfg|
        ensures after[cfg[i].name].cfg == cfg[i]
      {
        DistinctEntries(cfg, i);
        assert cfg[i].name in PlcNames(cfg);
      }
    }
  }

  lemma {:induction false} DriversContain(drained: seq<Drained>, i: int)
    requires 0 <= i < |drained|
    ensures Drivers(drained)[drained[i].driver] >= 1
  {
    var m := |drained| - 1;
    if i < m {
      DriversContain(drained[..m], i);
    }
  }

  /** A drained worker's goroutine has ended, and this Reload, and no other, has closed
      its driver once; whatever serves the name afterwards uses another driver. */
  ghost predicate ReplacedOnce(s: State, n: string, after: State)
    requires s.reload.Active? && n in s.reload.before
  {
    var w := s.reload.before[n];
    && Serves(s, n, w.driver, w.cfg, w.done)
    && !Live(s.core.gs[w.done])
    && s.reload.closedBefore[w.driver] == 0 && after.closes[w.driver] == 1
    && (n in after.core.workers ==>
          after.core.workers[n].driver != w.driver && after.core.workers[n].done != w.done)
  }

  lemma DrainedWasClosed(s: State, n: string)
    requires Inv(s) && AtPhase(s, InAdd) && n in DrainSet(s.reload.before, s.reload.cfg)
    ensures ReplacedOnce(s, n, ReloadOn(s, AddWorkers))
  {
    InvParts(s);
    hide Inv;
    ReplacementIsNew(s, n);
    var drained := s.reload.drained;
    assert KeptOk(s);
    var i :| DrainedName(s.reload, i, n);
    assert DrainedOk(s, i);
    assert drained[..|drained|] == drained;
    DriversContain(drained, i);
    hide AddAll, DrainSet;
  }

  lemma ReplacementIsNew(s: State, n: string)
    requires GoroutinesOk(s) && ReloadOk(s) && AtPhase(s, InAdd) && n in DrainSet(s.reload.before, s.reload.cfg)
    ensures n in s.reload.before
    ensures var w, after := s.reload.before[n], ReloadOn(s, AddWorkers).core.workers;
            n in after ==> after[n].driver != w.driver && after[n].done != w.done
  {
    assert KeptOk(s);
    var i :| DrainedName(s.reload, i, n);
    assert DrainedOk(s, i);
    AddAllGrows(s.core, s.reload.cfg);
    hide AddAll, DrainSet;
  }

  /** From the drain section on, a Reload call keeps its record of the old worker map. */
  ghost predicate SameReload(s: State, t: State) {
    && PastDrain(s) && PastDrain(t)
    && t.reload.cfg == s.reload.cfg && t.reload.before == s.reload.before
    && t.reload.closedBefore == s.reload.closedBefore && t.reload.drained == s.reload.drained
    && t.core.workers == s.core.workers
  }

  lemma StartedOnce(s: State)
    requires Inv(s) && s.reload.Active?
    ensures s.started
  {
  }

  lemma MoveBetweenSections(s: State, r: ReloadStep)
    requires PastDrain(s) && ReloadEnabled(s, r) && r != AddWorkers
    ensures SameReload(s, ReloadOn(s, r))
  {
  }

  lemma StepBetweenSections(s: State, st: Step)
    requires Inv(s) && PastDrain(s) && Enabled(s, st) && st != Reloading(AddWorkers)
    ensures SameReload(s, Apply(s, st))
  {
    hide Inv, WorkEnabled, WorkOn, ReloadEnabled, ReloadOn, StopEnabled, StopOn, OutsideEnabled, OutsideOn, StartOn;
    match st
    case Start(order) => StartedOnce(s);
    case Work(d, w) => WorkIsLocal(s, d, w);
    case Reloading(r) => MoveBetweenSections(s, r);
    case Stopping(k, stop) => StopIsLocal(s, k, stop);
    case Outside(o) => OutsideIsLocal(s, o);
  }

  lemma {:induction false} BetweenSections(s: State, mid: seq<Step>)
    requires Inv(s) && PastDrain(s) && IsRun(s, mid) && Reloading(AddWorkers) !in mid
    ensures SameReload(s, After(s, mid))
    decreases |mid|
  {
    hide Inv, PastDrain, Enabled, Apply;
    if mid != [] {
      StepKeeps(s, mid[0]);
      StepBetweenSections(s, mid[0]);
      BetweenSections(Apply(s, mid[0]), mid[1..]);
    }
  }

  /** Reload as one operation: whatever runs between its two critical sections, on
      return the map holds exactly the new configuration, unchanged PLCs keep driver and
      done channel, and each removed or changed driver was closed once, by this call,
      after its goroutine had left runWorker. */
  lemma ReloadInstalls(s: State, order: seq<string>, mid: seq<Step>)
    requires Inv(s) && ReloadEnabled(s, DrainWorkers(order))
    requires IsRun(ReloadOn(s, DrainWorkers(order)), mid) && Reloading(AddWorkers) !in mid
    requires ReloadEnabled(After(ReloadOn(s, DrainWorkers(order)), mid), AddWorkers)
    ensures var cfg := s.reload.cfg;
            var u := After(ReloadOn(s, DrainWorkers(order)), mid);
            var t := ReloadOn(u, AddWorkers);
            && t.reload.Idle?
            && u.reload.before == s.core.workers && u.reload.closedBefore == s.closes
            && Installed(s.core.workers, cfg, t.core.workers)
            && (forall n :: n in DrainSet(s.core.workers, cfg) ==> ReplacedOnce(u, n, t))
  {
    var s1 := ReloadOn(s, DrainWorkers(order));
    DrainWorkersKeeps(s, order);
    BetweenSections(s1, mid);
    RunKeeps(s1, mid);
    var u := After(s1, mid);
    AddInstalls(u);
    forall n | n in DrainSet(s.core.workers, s.reload.cfg)
      ensures ReplacedOnce(u, n, ReloadOn(u, AddWorkers))
    {
      DrainedWasClosed(u, n);
    }
  }

  predicate IsBegin(st: Step) {
    st.Reloading? && st.r.BeginReload?
  }

  ghost predicate HasConfig(s: State, cfg: seq<PLC>) {
    s.reload.Active? ==> s.reload.cfg == cfg
  }

  lemma StepKeepsConfig(s: State, st: Step, cfg: seq<PLC>)
    requires HasConfig(s, cfg) && Enabled(s, st) && !IsBegin(st)
    ensures HasConfig(Apply(s, st), cfg)
  {
    hide NextGoroutine, StartAll, Settled, AddAll, Drain, DrainSet, Store;
  }

  /** Until the next call of Reload, a Reload under way is for the configuration that the
      last one was called with. */
  lemma {:induction false} ReloadKeepsConfig(s: State, cfg: seq<PLC>, mid: seq<Step>)
    requires HasConfig(s, cfg) && IsRun(s, mid) && forall st :: st in mid ==> !IsBegin(st)
    ensures HasConfig(After(s, mid), cfg)
    decreases |mid|
  {
    hide HasConfig, Enabled, Apply;
    if mid != [] {
      StepKeepsConfig(s, mid[0], cfg);
      ReloadKeepsConfig(Apply(s, mid[0]), cfg, mid[1..]);
    }
  }

  /** A Reload carries the configuration it was called with into its drain section. */
  lemma ReloadIsForItsConfig(s: State, cfg: seq<PLC>, mid: seq<Step>, order: seq<string>)
    requires ReloadEnabled(s, BeginReload(cfg)) && IsRun(ReloadOn(s, BeginReload(cfg)), mid)
    requires (forall st :: st in mid ==> !IsBegin(st))
    requires ReloadEnabled(After(ReloadOn(s, BeginReload(cfg)), mid), DrainWorkers(order))
    ensures After(ReloadOn(s, BeginReload(cfg)), mid).reload.cfg == cfg
    ensures ToSet(order) == DrainSet(After(ReloadOn(s, BeginReload(cfg)), mid).core.workers, cfg)
  {
    ReloadKeepsConfig(ReloadOn(s, BeginReload(cfg)), cfg, mid);
    hide IsRun, After, DrainSet;
  }

  /** A Reload step leaves the current values of every PLC alone, except that the drain
      section drops those of the PLCs it drains. */
  lemma ReloadLeavesCurrent(s: State, r: ReloadStep, n: string)
    requires Inv(s) && ReloadEnabled(s, r)
    requires r.DrainWorkers? ==> n !in DrainSet(s.core.workers, s.reload.cfg)
    ensures var t := ReloadOn(s, r);
            && (n in t.core.current <==> n in s.core.current)
            && (n in s.core.current ==> t.core.current[n] == s.core.current[n])
  {
    if r.AddWorkers? {
      AddAllGrows(s.core, s.reload.cfg);
    }
  }

  // ----- the same Reload again -----

  /** Repeating a Reload drains nothing exactly when, for every PLC the first call
      (re)created, the first and the last entry of that name agree: newCfgByName keeps
      the last, the add section the first. */
  lemma RepeatDrainsNothing(before: map<string, Worker>, cfg: seq<PLC>, after: map<string, Worker>)
    requires Installed(before, cfg, after)
    ensures DrainSet(after, cfg) == {} <==>
            forall n :: n in PlcNames(cfg) && (n !in before || n in DrainSet(before, cfg)) ==>
              FirstOf(cfg, n) == ByName(cfg)[n]
  {
    forall n | n in PlcNames(cfg)
      ensures n in DrainSet(after, cfg) <==>
              (n !in before || n in DrainSet(before, cfg)) && FirstOf(cfg, n) != ByName(cfg)[n]
    {
    }
    if DrainSet(after, cfg) == {} {
      forall n | n in PlcNames(cfg) && (n !in before || n in DrainSet(before, cfg))
        ensures FirstOf(cfg, n) == ByName(cfg)[n]
      {
        assert n !in DrainSet(after, cfg);
      }
    }
  }

  /** A configuration with two different entries for one name, on an empty manager: the
      first Reload installs the first entry, and the second Reload, called with the same
      configuration, drains it. */
  lemma RepeatCanDrain()
    ensures var a := PLC("p", "10.0.0.1", 0, "", "", false, "", []);
            var b := a.(address := "10.0.0.2");
            var after := AddAll(EMPTY_CORE, [a, b]).workers;
            Installed(map[], [a, b], after) && Configs(after) == map["p" := a] && DrainSet(after, [a, b]) == {"p"}
  {
    var a := PLC("p", "10.0.0.1", 0, "", "", false, "", []);
    var b := a.(address := "10.0.0.2");
    assert [a, b][..1] == [a] && [a][..0] == [];
    assert AddAll(EMPTY_CORE, [a]) == AddOne(EMPTY_CORE, a);
    assert ByName([a, b]) == ByName([a])["p" := b];
    assert a.address[7] != b.address[7];
  }

  lemma DistinctDrainsNothing(before: map<string, Worker>, cfg: seq<PLC>, after: map<string, Worker>)
    requires Installed(before, cfg, after) && DistinctNames(cfg)
    ensures DrainSet(after, cfg) == {}
  {
    forall n | n in PlcNames(cfg)
      ensures FirstOf(cfg, n) == ByName(cfg)[n]
    {
      var i :| 0 <= i < |cfg| && cfg[i].name == n;
      DistinctEntries(cfg, i);
    }
    RepeatDrainsNothing(before, cfg, after);
  }

  /** For a configuration without repeated names the second call changes nothing: its
      drain section is empty and its add section finds every name. */
  lemma RepeatChangesNothing(c: Core, before: map<string, Worker>, cfg: seq<PLC>)
    requires Installed(before, cfg, c.workers) && DistinctNames(cfg)
    ensures Drain(c, DrainSet(c.workers, cfg)) == c && AddAll(c, cfg) == c
  {
    DistinctDrainsNothing(before, cfg, c.workers);
    AddAllNothing(c, cfg);
    assert c.workers - {} == c.workers && c.current - {} == c.current;
  }
}
