/** Tag quality in every run: what a scan goroutine emits, and what the table of current
    values holds. */
module ManagerQuality {
  import opened Base
  import opened Scalars
  import opened PlcManager
  import opened ManagerProtocol
  import opened ManagerInvariants
  import opened ManagerTicks

  // ----- the specification: one tag's reads and updates -----

  /** The outcomes a goroutine has seen for one tag, in order. */
  function OutcomesOf(history: seq<Read>, tag: string): seq<Outcome> {
    if history == [] then []
    else
      var n := |history| - 1;
      var rest := OutcomesOf(history[..n], tag);
      if history[n].tag == tag then rest + [history[n].outcome] else rest
  }

  function UpdatesOf(us: seq<TagUpdate>, tag: string): seq<TagUpdate> {
    if us == [] then []
    else
      var n := |us| - 1;
      var rest := UpdatesOf(us[..n], tag);
      if us[n].tag == tag then rest + [us[n]] else rest
  }

  /** The outcomes without each bad one that directly follows a bad one. */
  function Collapse(os: seq<Outcome>): seq<Outcome> {
    if os == [] then []
    else
      var n := |os| - 1;
      if os[n].ReadErr? && n > 0 && os[n - 1].ReadErr? then Collapse(os[..n])
      else Collapse(os[..n]) + [os[n]]
  }

  /** An update says exactly what a read returned. */
  predicate Carries(u: TagUpdate, plc: string, o: Outcome) {
    && u.plc == plc
    && match o
       case ReadOk(v) => u.value == Some(v) && u.quality == GoodQuality
       case ReadErr => u.value == None && u.quality == BadQuality
  }

  ghost predicate CarryAll(us: seq<TagUpdate>, plc: string, os: seq<Outcome>) {
    |us| == |os| && forall i :: 0 <= i < |us| ==> Carries(us[i], plc, os[i])
  }

  predicate ValueIs(v: TagValue, o: Outcome) {
    match o
    case ReadOk(x) => v.value == Some(x) && v.quality == GoodQuality
    case ReadErr => v.value == None && v.quality == BadQuality
  }

  // ----- the invariant -----

  /** The reads whose update, if any, has been delivered or stored so far. */
  function DoneReads(g: Goroutine): seq<Read> {
    if HasUpdate(g.pc) && g.outcomes != [] then g.outcomes[..|g.outcomes| - 1] else g.outcomes
  }

  function Stored(g: Goroutine): seq<Read> {
    if (g.pc.WantStore? || g.pc.InStore?) && g.outcomes != [] then g.outcomes[..|g.outcomes| - 1] else g.outcomes
  }

  /** Delivered updates, followed by the one in flight. */
  function Emitted(g: Goroutine): seq<TagUpdate> {
    if HasUpdate(g.pc) then g.emits + [g.pc.u] else g.emits
  }

  function QualityOf(os: seq<Outcome>): Quality {
    if os == [] then Unset else if os[|os| - 1].ReadErr? then BadQuality else GoodQuality
  }

  ghost predicate InFlightOk(g: Goroutine) {
    HasUpdate(g.pc) ==>
      && g.outcomes != []
      && var r := g.outcomes[|g.outcomes| - 1];
         r.tag == g.pc.u.tag && Carries(g.pc.u, g.name, r.outcome)
  }

  ghost predicate TraceOk(g: Goroutine, tag: string) {
    && CarryAll(UpdatesOf(Emitted(g), tag), g.name, Collapse(OutcomesOf(g.outcomes, tag)))
    && Last(g.lastQuality, tag) == QualityOf(OutcomesOf(DoneReads(g), tag))
  }

  ghost predicate WorkerTraceOk(g: Goroutine) {
    InFlightOk(g) && forall tag :: TraceOk(g, tag)
  }

  /** What the table of current values holds for a tag that g has read. */
  ghost predicate CurrentOk(c: Core, g: Goroutine, tag: string) {
    var os := OutcomesOf(Stored(g), tag);
    os != [] ==>
      g.name in c.current && tag in c.current[g.name] && ValueIs(c.current[g.name][tag], os[|os| - 1])
  }

  ghost predicate TracesOk(s: State) {
    forall d :: d in s.core.gs ==> WorkerTraceOk(s.core.gs[d])
  }

  ghost predicate CurrentsOk(s: State) {
    forall d, tag :: d in s.core.gs && Registered(s, d) ==> CurrentOk(s.core, s.core.gs[d], tag)
  }

  // ----- one read, one delivery -----

  lemma ReadKeepsTrace(g: Goroutine, o: Outcome, at: int)
    requires WorkerTraceOk(g) && g.pc.Scanning? && g.pc.i < |g.cfg.tags|
    ensures WorkerTraceOk(AfterRead(g, o, at))
  {
    var h := AfterRead(g, o, at);
    var tag := g.cfg.tags[g.pc.i].name;
    assert h.outcomes[..|h.outcomes| - 1] == g.outcomes;
    forall t
      ensures TraceOk(h, t)
    {
      assert TraceOk(g, t);
      if t == tag {
        ReadKeepsTagTrace(g, o, at);
      }
      if HasUpdate(h.pc) {
        assert (g.emits + [h.pc.u])[..|g.emits|] == g.emits;
      }
    }
  }

  lemma ReadKeepsTagTrace(g: Goroutine, o: Outcome, at: int)
    requires g.pc.Scanning? && g.pc.i < |g.cfg.tags| && TraceOk(g, g.cfg.tags[g.pc.i].name)
    ensures TraceOk(AfterRead(g, o, at), g.cfg.tags[g.pc.i].name)
  {
    hide Collapse, UpdatesOf, CarryAll;
    var h := AfterRead(g, o, at);
    var tag := g.cfg.tags[g.pc.i].name;
    var os := OutcomesOf(g.outcomes, tag);
    assert h.outcomes[..|h.outcomes| - 1] == g.outcomes;
    assert OutcomesOf(h.outcomes, tag) == os + [o];
    CollapseOne(os, o);
    if HasUpdate(h.pc) {
      UpdatesOne(g.emits, h.pc.u);
      CarryOne(UpdatesOf(g.emits, tag), g.name, Collapse(os), h.pc.u, o);
    }
  }

  lemma UpdatesOne(us: seq<TagUpdate>, u: TagUpdate)
    ensures UpdatesOf(us + [u], u.tag) == UpdatesOf(us, u.tag) + [u]
  {
    assert (us + [u])[..|us|] == us;
  }

  lemma CarryOne(us: seq<TagUpdate>, plc: string, os: seq<Outcome>, u: TagUpdate, o: Outcome)
    requires CarryAll(us, plc, os) && Carries(u, plc, o)
    ensures CarryAll(us + [u], plc, os + [o])
  {
  }

  lemma CollapseOne(os: seq<Outcome>, o: Outcome)
    ensures Collapse(os + [o]) == if Emits(QualityOf(os), o) then Collapse(os) + [o] else Collapse(os)
  {
    assert (os + [o])[..|os|] == os;
  }

  lemma DeliverKeepsTrace(g: Goroutine)
    requires WorkerTraceOk(g) && g.pc.Delivering?
    ensures WorkerTraceOk(AfterDeliver(g))
  {
    var h := AfterDeliver(g);
    var n := |g.outcomes| - 1;
    assert Emitted(h) == Emitted(g);
    forall t
      ensures TraceOk(h, t)
    {
      assert TraceOk(g, t);
      assert OutcomesOf(h.outcomes, t) == OutcomesOf(g.outcomes, t);
    }
  }

  lemma MoveKeepsTrace(g: Goroutine, pc: Pc)
    requires WorkerTraceOk(g) && HasUpdate(g.pc) == HasUpdate(pc)
    requires HasUpdate(pc) ==> pc.u == g.pc.u
    ensures WorkerTraceOk(g.(pc := pc))
  {
    forall t
      ensures TraceOk(g.(pc := pc), t)
    {
      assert TraceOk(g, t);
    }
  }

  lemma WorkKeepsTraces(s: State, d: nat, w: WorkStep)
    requires TracesOk(s) && WorkEnabled(s, d, w)
    ensures TracesOk(WorkOn(s, d, w))
  {
    hide WorkerTraceOk;
    var g := s.core.gs[d];
    match w
    case ReadTag(o, at) => ReadKeepsTrace(g, o, at);
    case Deliver => DeliverKeepsTrace(g);
    case _ => MoveKeepsTrace(g, NextGoroutine(s, d, w).pc);
  }

  lemma LaunchTrace(n: string, driver: nat, cfg: PLC)
    ensures WorkerTraceOk(Launch(n, driver, cfg))
  {
  }

  lemma OtherStepKeepsTraces(s: State, st: Step)
    requires Inv(s) && TracesOk(s) && Enabled(s, st) && !st.Work?
    ensures TracesOk(Apply(s, st))
  {
    hide WorkerTraceOk, WorkEnabled, WorkOn, Inv, StartOn, StartEnabled;
    match st
    case Start(order) => StartKeepsTraces(s, order);
    case Reloading(r) => if r.AddWorkers? { AddKeepsTraces(s); }
    case Stopping(k, stop) =>
    case Outside(o) =>
  }

  lemma StartKeepsTraces(s: State, order: seq<string>)
    requires Inv(s) && TracesOk(s) && StartEnabled(s, order)
    ensures TracesOk(StartOn(s, order))
  {
    hide WorkerTraceOk, AddAll, StartAll;
    StartAllStarts(s.core, order);
    forall d | d in StartOn(s, order).core.gs
      ensures WorkerTraceOk(StartOn(s, order).core.gs[d])
    {
      var g := StartOn(s, order).core.gs[d];
      LaunchTrace(g.name, g.driver, g.cfg);
    }
  }

  lemma AddKeepsTraces(s: State)
    requires Inv(s) && TracesOk(s) && ReloadEnabled(s, AddWorkers)
    ensures TracesOk(ReloadOn(s, AddWorkers))
  {
    hide WorkerTraceOk, AddAll;
    AddAllGrows(s.core, s.reload.cfg);
    forall d | d in ReloadOn(s, AddWorkers).core.gs
      ensures WorkerTraceOk(ReloadOn(s, AddWorkers).core.gs[d])
    {
      var g := ReloadOn(s, AddWorkers).core.gs[d];
      LaunchTrace(g.name, g.driver, g.cfg);
    }
  }

  // ----- the table of current values -----

  lemma StoreSets(c: Core, g: Goroutine, tag: string)
    requires g.pc.InStore? && InFlightOk(g) && CurrentOk(c, g, tag)
    ensures CurrentOk(c.(current := Store(c.current, g.pc.u)), g.(pc := WantCallbacks(g.pc.i, g.pc.u)), tag)
  {
    var n := |g.outcomes| - 1;
    var r := g.outcomes[n];
    assert OutcomesOf(g.outcomes, tag) ==
           OutcomesOf(g.outcomes[..n], tag) + (if r.tag == tag then [r.outcome] else []);
  }

  lemma StoreLeavesOthers(c: Core, u: TagUpdate, g: Goroutine, tag: string)
    requires CurrentOk(c, g, tag) && u.plc != g.name
    ensures CurrentOk(c.(current := Store(c.current, u)), g, tag)
  {
  }

  lemma ReadKeepsCurrent(c: Core, g: Goroutine, o: Outcome, at: int, tag: string)
    requires WorkerTraceOk(g) && CurrentOk(c, g, tag) && g.pc.Scanning? && g.pc.i < |g.cfg.tags|
    ensures CurrentOk(c, AfterRead(g, o, at), tag)
  {
    var h := AfterRead(g, o, at);
    if h.pc.WantStore? {
      assert h.outcomes[..|h.outcomes| - 1] == g.outcomes;
      SameStoredSameCurrent(c, c, g, h, tag);
    } else {
      SilentReadKeepsCurrent(c, g, o, at, tag);
    }
  }

  /** A read that is not emitted: bad after bad. */
  lemma SilentReadKeepsCurrent(c: Core, g: Goroutine, o: Outcome, at: int, tag: string)
    requires WorkerTraceOk(g) && CurrentOk(c, g, tag) && g.pc.Scanning? && g.pc.i < |g.cfg.tags|
    requires !AfterRead(g, o, at).pc.WantStore?
    ensures CurrentOk(c, AfterRead(g, o, at), tag)
  {
    var h, read := AfterRead(g, o, at), g.cfg.tags[g.pc.i].name;
    assert TraceOk(g, read);
    hide CarryAll, Collapse, UpdatesOf, InFlightOk, WorkerTraceOk;
    assert Last(g.lastQuality, read) == BadQuality && o.ReadErr?;
    assert h.outcomes[..|h.outcomes| - 1] == g.outcomes;
    assert OutcomesOf(h.outcomes, tag) == OutcomesOf(g.outcomes, tag) + (if read == tag then [o] else []);
    hide OutcomesOf;
  }

  /** Nobody but the registered goroutine of a PLC can be storing values for it. */
  lemma StoringIsAlone(s: State, d: nat, e: nat)
    requires Inv(s) && d in s.core.gs && e in s.core.gs && d != e
    requires Live(s.core.gs[d]) && Registered(s, e)
    ensures s.core.gs[d].name != s.core.gs[e].name
  {
    assert Registered(s, d) || Draining(s, d);
    if Draining(s, d) {
      var i :| DrainingAt(s, d, i);
      assert DrainedOk(s, i);
    }
  }

  lemma MoveKeepsStored(s: State, d: nat, w: WorkStep)
    requires WorkEnabled(s, d, w) && !w.ReadTag? && !w.StoreTag?
    ensures Stored(NextGoroutine(s, d, w)) == Stored(s.core.gs[d])
    ensures NextGoroutine(s, d, w).name == s.core.gs[d].name
    ensures WorkOn(s, d, w).core.current == s.core.current
  {
  }

  lemma TraceMeansInFlight(g: Goroutine)
    requires WorkerTraceOk(g)
    ensures InFlightOk(g)
  {
  }

  lemma SameStoredSameCurrent(c: Core, c': Core, g: Goroutine, h: Goroutine, tag: string)
    requires CurrentOk(c, g, tag) && c'.current == c.current && Stored(h) == Stored(g) && h.name == g.name
    ensures CurrentOk(c', h, tag)
  {
  }

  lemma OwnReadKeepsCurrent(s: State, d: nat, w: WorkStep, tag: string)
    requires WorkEnabled(s, d, w) && WorkerTraceOk(s.core.gs[d]) && CurrentOk(s.core, s.core.gs[d], tag) && w.ReadTag?
    ensures CurrentOk(WorkOn(s, d, w).core, NextGoroutine(s, d, w), tag)
  {
    var g := s.core.gs[d];
    hide WorkerTraceOk, Stored, OutcomesOf, CurrentOk, InFlightOk, AfterRead;
    ReadKeepsCurrent(s.core, g, w.outcome, w.at, tag);
    SameTable(s.core, WorkOn(s, d, w).core, AfterRead(g, w.outcome, w.at), tag);
  }

  lemma OwnStoreKeepsCurrent(s: State, d: nat, tag: string)
    requires WorkEnabled(s, d, StoreTag) && WorkerTraceOk(s.core.gs[d]) && CurrentOk(s.core, s.core.gs[d], tag)
    ensures CurrentOk(WorkOn(s, d, StoreTag).core, NextGoroutine(s, d, StoreTag), tag)
  {
    var g := s.core.gs[d];
    hide WorkerTraceOk, Stored, OutcomesOf, CurrentOk, InFlightOk, Store;
    TraceMeansInFlight(g);
    StoreSets(s.core, g, tag);
    SameTable(s.core.(current := Store(s.core.current, g.pc.u)), WorkOn(s, d, StoreTag).core, NextGoroutine(s, d, StoreTag), tag);
  }

  lemma SameTable(c: Core, c': Core, g: Goroutine, tag: string)
    requires CurrentOk(c, g, tag) && c'.current == c.current
    ensures CurrentOk(c', g, tag)
  {
  }

  lemma OwnWorkKeepsCurrent(s: State, d: nat, w: WorkStep, tag: string)
    requires WorkEnabled(s, d, w) && WorkerTraceOk(s.core.gs[d]) && CurrentOk(s.core, s.core.gs[d], tag)
    ensures CurrentOk(WorkOn(s, d, w).core, NextGoroutine(s, d, w), tag)
  {
    var g := s.core.gs[d];
    hide WorkerTraceOk, Stored, OutcomesOf, CurrentOk, InFlightOk, AfterRead, WorkOn, NextGoroutine, WorkEnabled;
    if w.ReadTag? {
      OwnReadKeepsCurrent(s, d, w, tag);
    } else if w.StoreTag? {
      OwnStoreKeepsCurrent(s, d, tag);
    } else {
      MoveKeepsStored(s, d, w);
      SameStoredSameCurrent(s.core, WorkOn(s, d, w).core, g, NextGoroutine(s, d, w), tag);
    }
  }

  lemma WorkKeepsCurrent(s: State, d: nat, w: WorkStep, e: nat, tag: string)
    requires Inv(s) && TracesOk(s) && CurrentsOk(s) && WorkEnabled(s, d, w)
    requires e in s.core.gs && Registered(s, e)
    ensures CurrentOk(WorkOn(s, d, w).core, WorkOn(s, d, w).core.gs[e], tag)
  {
    hide Inv, CurrentOk, TraceOk, InFlightOk, NextGoroutine;
    assert CurrentOk(s.core, s.core.gs[e], tag);
    assert WorkerTraceOk(s.core.gs[d]);
    if e == d {
      OwnWorkKeepsCurrent(s, d, w, tag);
    } else {
      OtherWorkKeepsCurrent(s, d, w, e, tag);
    }
  }

  lemma OtherWorkKeepsCurrent(s: State, d: nat, w: WorkStep, e: nat, tag: string)
    requires Inv(s) && WorkEnabled(s, d, w) && InFlightOk(s.core.gs[d])
    requires e in s.core.gs && e != d && Registered(s, e) && CurrentOk(s.core, s.core.gs[e], tag)
    ensures CurrentOk(WorkOn(s, d, w).core, s.core.gs[e], tag)
  {
    if w.StoreTag? {
      StoringIsAlone(s, d, e);
      StoreLeavesOthers(s.core, s.core.gs[d].pc.u, s.core.gs[e], tag);
    }
    hide Inv, NextGoroutine, Store, OutcomesOf;
  }

  lemma WorkKeepsCurrents(s: State, d: nat, w: WorkStep)
    requires Inv(s) && TracesOk(s) && CurrentsOk(s) && WorkEnabled(s, d, w)
    ensures CurrentsOk(WorkOn(s, d, w))
  {
    WorkIsLocal(s, d, w);
    hide Inv, TracesOk, CurrentsOk, WorkEnabled, WorkOn, CurrentOk;
    var t := WorkOn(s, d, w);
    forall e, tag | e in t.core.gs && Registered(t, e)
      ensures CurrentOk(t.core, t.core.gs[e], tag)
    {
      assert Registered(s, e);
      WorkKeepsCurrent(s, d, w, e, tag);
    }
    CurrentsHold(t);
  }

  lemma CurrentsHold(t: State)
    requires forall e, tag :: e in t.core.gs && Registered(t, e) ==> CurrentOk(t.core, t.core.gs[e], tag)
    ensures CurrentsOk(t)
  {
  }

  lemma ReloadKeepsCurrents(s: State, r: ReloadStep)
    requires Inv(s) && CurrentsOk(s) && ReloadEnabled(s, r)
    ensures CurrentsOk(ReloadOn(s, r))
  {
    hide Inv, CurrentsOk, AddAll, Drain, DrainSet, NoDuplicates;
    var t := ReloadOn(s, r);
    if r.AddWorkers? {
      AddKeepsCurrents(s);
    } else if r.DrainWorkers? {
      DrainKeepsCurrents(s, r.order);
    } else {
      OthersKeepCurrents(s, t);
    }
  }

  lemma DrainKeepsCurrents(s: State, order: seq<string>)
    requires CurrentsOk(s) && ReloadEnabled(s, DrainWorkers(order))
    ensures CurrentsOk(ReloadOn(s, DrainWorkers(order)))
  {
    var t := ReloadOn(s, DrainWorkers(order));
    hide OutcomesOf, Stored, ValueIs, DrainSet;
    forall e, tag | e in t.core.gs && Registered(t, e)
      ensures CurrentOk(t.core, t.core.gs[e], tag)
    {
      assert Registered(s, e);
      assert CurrentOk(s.core, s.core.gs[e], tag);
    }
  }

  lemma AddKeepsCurrents(s: State)
    requires Inv(s) && CurrentsOk(s) && ReloadEnabled(s, AddWorkers)
    ensures CurrentsOk(ReloadOn(s, AddWorkers))
  {
    var t := ReloadOn(s, AddWorkers);
    AddAllGrows(s.core, s.reload.cfg);
    NothingReadYet();
    hide Inv, OutcomesOf, ValueIs, AddAll;
    forall e, tag | e in t.core.gs && Registered(t, e)
      ensures CurrentOk(t.core, t.core.gs[e], tag)
    {
      if e in s.core.gs {
        assert Registered(s, e);
        assert CurrentOk(s.core, s.core.gs[e], tag);
      }
    }
  }

  lemma NothingReadYet()
    ensures forall tag :: OutcomesOf([], tag) == []
  {
  }

  lemma StepKeepsCurrents(s: State, st: Step)
    requires Inv(s) && TracesOk(s) && CurrentsOk(s) && Enabled(s, st)
    ensures CurrentsOk(Apply(s, st))
  {
    hide Inv, TracesOk, WorkEnabled, WorkOn, ReloadEnabled, ReloadOn;
    match st
    case Start(order) => StartKeepsCurrents(s, order);
    case Work(d, w) => WorkKeepsCurrents(s, d, w);
    case Reloading(r) => ReloadKeepsCurrents(s, r);
    case Stopping(k, stop) => OthersKeepCurrents(s, Apply(s, st));
    case Outside(o) => OthersKeepCurrents(s, Apply(s, st));
  }

  lemma StartKeepsCurrents(s: State, order: seq<string>)
    requires Inv(s) && StartEnabled(s, order)
    ensures CurrentsOk(StartOn(s, order))
  {
    StartAllStarts(s.core, order);
  }

  lemma OthersKeepCurrents(s: State, t: State)
    requires CurrentsOk(s)
    requires t.core.gs == s.core.gs && t.core.workers == s.core.workers && t.core.current == s.core.current
    ensures CurrentsOk(t)
  {
    forall e, tag | e in t.core.gs && Registered(t, e)
      ensures CurrentOk(t.core, t.core.gs[e], tag)
    {
      assert Registered(s, e) && CurrentOk(s.core, s.core.gs[e], tag);
    }
  }

  // ----- every run -----

  lemma {:induction false} RunKeepsQuality(s: State, run: seq<Step>)
    requires Inv(s) && TracesOk(s) && CurrentsOk(s) && IsRun(s, run)
    ensures TracesOk(After(s, run)) && CurrentsOk(After(s, run)) && Inv(After(s, run))
    decreases |run|
  {
    if run != [] {
      hide Inv, TracesOk, CurrentsOk, WorkEnabled, WorkOn, ReloadEnabled, ReloadOn, StopEnabled, StopOn;
      StepKeeps(s, run[0]);
      StepKeepsCurrents(s, run[0]);
      if run[0].Work? {
        WorkKeepsTraces(s, run[0].d, run[0].work);
      } else {
        OtherStepKeepsTraces(s, run[0]);
      }
      RunKeepsQuality(Apply(s, run[0]), run[1..]);
    }
  }

  lemma QualityHolds(cfgs: seq<PLC>, run: seq<Step>)
    requires IsRun(Initial(cfgs), run)
    ensures var s := After(Initial(cfgs), run); Inv(s) && TracesOk(s) && CurrentsOk(s)
  {
    InitialHolds(cfgs);
    NewAllWorkers(cfgs);
    RunKeepsQuality(Initial(cfgs), run);
  }

  /** In every run a goroutine reads its tags in whole passes, and what it has emitted for
      a tag, the update in flight included, is its sequence of reads of that tag with each
      bad read directly after a bad read left out, carrying the values read. */
  lemma EmittedAreCollapsedReads(cfgs: seq<PLC>, run: seq<Step>, d: nat, tag: string)
    requires IsRun(Initial(cfgs), run) && d in After(Initial(cfgs), run).core.gs
    ensures var g := After(Initial(cfgs), run).core.gs[d];
            && ReadsInPasses(g)
            && CarryAll(UpdatesOf(Emitted(g), tag), g.name, Collapse(OutcomesOf(g.outcomes, tag)))
  {
    QualityHolds(cfgs, run);
    TicksHold(cfgs, run, d);
    assert TraceOk(After(Initial(cfgs), run).core.gs[d], tag);
    hide ReadsInPasses, IsRun, After;
  }

  /** In every run, the current value of a tag that the PLC's registered goroutine has
      read is that goroutine's last read: its value and "good", or no value and "bad".
      Only while the update of that read waits for the lock may it be the read before. */
  lemma CurrentIsLastRead(cfgs: seq<PLC>, run: seq<Step>, d: nat, tag: string)
    requires IsRun(Initial(cfgs), run)
    requires var s := After(Initial(cfgs), run);
             && d in s.core.gs && Registered(s, d) && OutcomesOf(s.core.gs[d].outcomes, tag) != []
             && !s.core.gs[d].pc.WantStore? && !s.core.gs[d].pc.InStore?
    ensures var s := After(Initial(cfgs), run);
            var g := s.core.gs[d];
            var os := OutcomesOf(g.outcomes, tag);
            && g.name in s.core.current && tag in s.core.current[g.name]
            && ValueIs(s.core.current[g.name][tag], os[|os| - 1])
  {
    QualityHolds(cfgs, run);
    assert CurrentOk(After(Initial(cfgs), run).core, After(Initial(cfgs), run).core.gs[d], tag);
  }

  lemma {:induction false} ReadHasOutcome(history: seq<Read>, j: nat)
    requires j < |history|
    ensures OutcomesOf(history, history[j].tag) != []
  {
    var n := |history| - 1;
    if j < n {
      ReadHasOutcome(history[..n], j);
    }
  }

  /** In every run, when a registered goroutine has made a read and stands outside of a
      tick, every tag of its PLC has a current value: the goroutine's last read of it. */
  lemma EveryTagIsCurrent(cfgs: seq<PLC>, run: seq<Step>, d: nat, i: nat)
    requires IsRun(Initial(cfgs), run)
    requires var s := After(Initial(cfgs), run);
             && d in s.core.gs && Registered(s, d)
             && (s.core.gs[d].pc.Looping? || s.core.gs[d].pc.Connecting?)
             && s.core.gs[d].outcomes != [] && i < |s.core.gs[d].cfg.tags|
    ensures var s := After(Initial(cfgs), run);
            var g := s.core.gs[d];
            var tag := g.cfg.tags[i].name;
            var os := OutcomesOf(g.outcomes, tag);
            && os != [] && g.name in s.core.current && tag in s.core.current[g.name]
            && ValueIs(s.core.current[g.name][tag], os[|os| - 1])
  {
    var g := After(Initial(cfgs), run).core.gs[d];
    TicksHold(cfgs, run, d);
    OutsideTickAllRead(g, i);
    hide After, IsRun, ReadsInPasses, OutcomesOf;
    var j :| 0 <= j < |g.outcomes| && g.outcomes[j].tag == g.cfg.tags[i].name;
    ReadHasOutcome(g.outcomes, j);
    CurrentIsLastRead(cfgs, run, d, g.cfg.tags[i].name);
  }

  /** Collapsing never drops the first bad read after a good one, so the last collapsed
      outcome always has the last outcome's quality. */
  lemma {:induction false} CollapseKeepsLast(os: seq<Outcome>)
    requires os != []
    ensures Collapse(os) != []
    ensures Collapse(os)[|Collapse(os)| - 1] == os[|os| - 1]
  {
    var n := |os| - 1;
    if n > 0 && os[n].ReadErr? && os[n - 1].ReadErr? {
      CollapseKeepsLast(os[..n]);
    }
  }

  /** No two bad updates follow each other. */
  lemma {:induction false} CollapseAlternates(os: seq<Outcome>, i: int)
    requires 0 <= i < |Collapse(os)| - 1
    ensures !(Collapse(os)[i].ReadErr? && Collapse(os)[i + 1].ReadErr?)
  {
    var n := |os| - 1;
    var rest := Collapse(os[..n]);
    if i < |rest| - 1 {
      CollapseAlternates(os[..n], i);
    } else if n > 0 {
      CollapseKeepsLast(os[..n]);
    }
  }
}

/** Reload deletes the current values of the PLCs it drains, but a goroutine that is
    still draining may store a value afterwards. */
module ManagerStale {
  import opened Base
  import opened Scalars
  import opened PlcManager
  import opened ManagerProtocol
  import opened ManagerInvariants
  import opened ManagerQuality

  lemma WorkCurrentKeys(s: State, d: nat, w: WorkStep, n: string)
    requires TracesOk(s) && WorkEnabled(s, d, w)
    ensures n in WorkOn(s, d, w).core.current <==>
            n in s.core.current || (w.StoreTag? && s.core.gs[d].name == n)
  {
    if w.StoreTag? {
      assert WorkerTraceOk(s.core.gs[d]);
    }
    hide TracesOk, NextGoroutine, WorkerTraceOk;
  }

  // ----- exactly which drained PLCs can come back -----

  /** An update in flight belongs to a configured tag. */
  ghost predicate IndexOk(s: State) {
    forall d :: d in s.core.gs && HasUpdate(s.core.gs[d].pc) ==> s.core.gs[d].pc.i < |s.core.gs[d].cfg.tags|
  }

  lemma StepKeepsIndex(s: State, st: Step)
    requires Inv(s) && IndexOk(s) && Enabled(s, st)
    ensures IndexOk(Apply(s, st))
  {
    InvParts(s);
    hide Inv, IndexOk, StartEnabled, StartOn, WorkEnabled, WorkOn, ReloadEnabled, ReloadOn, GoroutinesOk;
    hide StopEnabled, StopOn, OutsideEnabled, OutsideOn;
    match st
    case Start(order) => StartKeepsIndex(s, order);
    case Work(d, w) => WorkKeepsIndex(s, d, w);
    case Reloading(r) => ReloadKeepsIndex(s, r);
    case Stopping(k, stop) =>
      StopIsLocal(s, k, stop);
      SameKeepsIndex(s, Apply(s, st));
    case Outside(o) =>
      OutsideIsLocal(s, o);
      SameKeepsIndex(s, Apply(s, st));
  }

  lemma SameKeepsIndex(s: State, t: State)
    requires IndexOk(s) && t.core.gs == s.core.gs
    ensures IndexOk(t)
  {
  }

  lemma StartKeepsIndex(s: State, order: seq<string>)
    requires GoroutinesOk(s) && StartEnabled(s, order)
    ensures IndexOk(StartOn(s, order))
  {
    StartAllStarts(s.core, order);
    hide StartAll;
  }

  lemma ReloadKeepsIndex(s: State, r: ReloadStep)
    requires GoroutinesOk(s) && IndexOk(s) && ReloadEnabled(s, r)
    ensures IndexOk(ReloadOn(s, r))
  {
    if r.AddWorkers? {
      AddKeepsIndex(s);
    } else {
      hide IndexOk, DrainSet, GoroutinesOk;
      SameKeepsIndex(s, ReloadOn(s, r));
    }
  }

  lemma AddKeepsIndex(s: State)
    requires GoroutinesOk(s) && IndexOk(s) && AtPhase(s, InAdd)
    ensures IndexOk(ReloadOn(s, AddWorkers))
  {
    AddAllGrows(s.core, s.reload.cfg);
    hide AddAll;
  }

  lemma WorkKeepsIndex(s: State, d: nat, w: WorkStep)
    requires IndexOk(s) && WorkEnabled(s, d, w)
    ensures IndexOk(WorkOn(s, d, w))
  {
    hide Store;
  }

  lemma {:induction false} RunKeepsIndex(s: State, run: seq<Step>)
    requires Inv(s) && IndexOk(s) && IsRun(s, run)
    ensures Inv(After(s, run)) && IndexOk(After(s, run))
    decreases |run|
  {
    hide Inv, IndexOk, Enabled, Apply;
    if run != [] {
      StepKeeps(s, run[0]);
      StepKeepsIndex(s, run[0]);
      RunKeepsIndex(Apply(s, run[0]), run[1..]);
    }
  }

  /** Between the sections of a Reload: n has no current values, only goroutine d can be
      live under its name, and d will not store. */
  ghost predicate GoneForNow(s: State, n: string, d: nat) {
    && PastDrain(s) && s.started && n !in s.core.current
    && (forall e :: e in s.core.gs && s.core.gs[e].name == n && Live(s.core.gs[e]) ==> e == d)
    && (d in s.core.gs && Live(s.core.gs[d]) ==> s.core.gs[d].cfg.tags == [])
  }

  lemma NoStoreForGone(s: State, n: string, d: nat, e: nat, w: WorkStep)
    requires TracesOk(s) && IndexOk(s) && GoneForNow(s, n, d) && WorkEnabled(s, e, w)
    ensures GoneForNow(WorkOn(s, e, w), n, d)
  {
    WorkIsLocal(s, e, w);
    WorkCurrentKeys(s, e, w, n);
    hide TracesOk, WorkOn, NextGoroutine;
  }

  lemma GoneStep(s: State, n: string, d: nat, st: Step)
    requires Inv(s) && TracesOk(s) && IndexOk(s) && GoneForNow(s, n, d)
    requires Enabled(s, st) && st != Reloading(AddWorkers)
    ensures GoneForNow(Apply(s, st), n, d)
  {
    hide Inv, TracesOk, IndexOk, WorkOn, WorkEnabled, ReloadOn, ReloadEnabled, StopOn, StopEnabled, GoneForNow;
    match st
    case Start(order) => GoneMeansStarted(s, n, d);
    case Work(e, w) => NoStoreForGone(s, n, d, e, w);
    case Reloading(r) => ReloadLeavesGone(s, n, d, r);
    case Stopping(k, stop) => StopLeavesGone(s, n, d, k, stop);
    case Outside(o) => SameLeavesGone(s, Apply(s, st), n, d);
  }

  lemma GoneMeansStarted(s: State, n: string, d: nat)
    requires GoneForNow(s, n, d)
    ensures s.started
  {
  }

  lemma SameLeavesGone(s: State, t: State, n: string, d: nat)
    requires GoneForNow(s, n, d) && t.started == s.started && t.reload == s.reload
    requires t.core.gs == s.core.gs && t.core.current == s.core.current
    ensures GoneForNow(t, n, d)
  {
  }

  lemma ReloadLeavesGone(s: State, n: string, d: nat, r: ReloadStep)
    requires GoneForNow(s, n, d) && ReloadEnabled(s, r) && r != AddWorkers
    ensures GoneForNow(ReloadOn(s, r), n, d)
  {
    hide DrainSet, Live;
  }

  lemma StopLeavesGone(s: State, n: string, d: nat, k: nat, stop: StopStep)
    requires GoneForNow(s, n, d) && StopEnabled(s, k, stop)
    ensures GoneForNow(StopOn(s, k, stop), n, d)
  {
    StopIsLocal(s, k, stop);
    assert StopOn(s, k, stop).core.current == s.core.current;
    hide StopOn, StopEnabled;
  }

  lemma {:induction false} GoneRun(s: State, n: string, d: nat, run: seq<Step>)
    requires Inv(s) && TracesOk(s) && CurrentsOk(s) && IndexOk(s) && GoneForNow(s, n, d)
    requires IsRun(s, run) && Reloading(AddWorkers) !in run
    ensures n !in After(s, run).core.current
    decreases |run|
  {
    hide Inv, TracesOk, CurrentsOk, IndexOk, Enabled, Apply;
    if run == [] {
    } else {
      hide GoneForNow;
      OneStepOk(s, run[0]);
      GoneStep(s, n, d, run[0]);
      GoneRun(Apply(s, run[0]), n, d, run[1..]);
    }
  }

  lemma OneStepOk(s: State, st: Step)
    requires Inv(s) && TracesOk(s) && CurrentsOk(s) && IndexOk(s) && Enabled(s, st)
    ensures var t := Apply(s, st); Inv(t) && TracesOk(t) && CurrentsOk(t) && IndexOk(t)
  {
    hide Inv, TracesOk, CurrentsOk, IndexOk, Enabled, Apply;
    assert IsRun(s, [st]) && After(s, [st]) == Apply(s, st) by {
      assert [st][1..] == [];
    }
    RunKeepsQuality(s, [st]);
    StepKeepsIndex(s, st);
  }

  /** The state right after the drain section. */
  lemma AfterDrain(s: State, order: seq<string>, n: string)
    requires Inv(s) && ReloadEnabled(s, DrainWorkers(order)) && n in order
    ensures n in s.core.workers && s.core.workers[n].done in s.core.gs
    ensures var t, d := ReloadOn(s, DrainWorkers(order)), s.core.workers[n].done;
            && PastDrain(t) && t.started && n !in t.core.current && t.core.gs == s.core.gs
            && t.mu == RwLock(None, {}) && t.core.gs[d].name == n
            && !t.core.gs[d].pc.InStore? && !t.core.gs[d].pc.InCallbacks?
            && (forall e :: e in t.core.gs && t.core.gs[e].name == n && Live(t.core.gs[e]) ==> e == d)
  {
    var t := ReloadOn(s, DrainWorkers(order));
    DrainWorkersKeeps(s, order);
    DrainedEntry(s, order, n);
    var d := s.core.workers[n].done;
    NobodyInSection(t, d);
    hide LockOk, WorkersOk, Classified, GoroutinesOk, ReloadOk, StopsOk, Live, DrainSet;
    forall e | e in t.core.gs && t.core.gs[e].name == n && Live(t.core.gs[e])
      ensures e == d
    {
      OnlyDrained(t, e);
    }
  }

  lemma DrainedEntry(s: State, order: seq<string>, n: string)
    requires Inv(s) && ReloadEnabled(s, DrainWorkers(order)) && n in order
    ensures n in s.core.workers && s.core.workers[n].done in s.core.gs && s.started
    ensures s.core.gs[s.core.workers[n].done].name == n
    ensures var t := ReloadOn(s, DrainWorkers(order));
            PastDrain(t) && t.started && n !in t.core.current && n !in t.core.workers && t.mu == RwLock(None, {})
  {
    assert n in ToSet(order);
    assert WorkerOk(s, n);
    assert s.mu.writer == Some(ReloadAgent) <==> Writes(s, ReloadAgent);
  }

  lemma NobodyInSection(t: State, d: nat)
    requires Inv(t) && t.mu == RwLock(None, {}) && d in t.core.gs
    ensures !t.core.gs[d].pc.InStore? && !t.core.gs[d].pc.InCallbacks?
  {
    assert !Writes(t, WorkerAgent(d)) && !Reads(t, WorkerAgent(d));
  }

  /** A live goroutine whose name has left the map is the drained one of that name. */
  lemma OnlyDrained(t: State, e: nat)
    requires Inv(t) && e in t.core.gs && Live(t.core.gs[e]) && t.core.gs[e].name !in t.core.workers
    ensures t.reload.Active? && t.core.gs[e].name in t.reload.before && t.reload.before[t.core.gs[e].name].done == e
  {
    assert Registered(t, e) || Draining(t, e);
    var i :| DrainingAt(t, e, i);
    assert DrainedOk(t, i);
  }

  // ----- a run that brings it back -----

  /** Steps of goroutines alone lead from s to t. */
  ghost predicate WorksTo(s: State, t: State) {
    exists run :: IsRun(s, run) && After(s, run) == t && forall st: Step :: st in run ==> st.Work?
  }

  lemma WorksOn(s: State, t: State, d: nat, w: WorkStep)
    requires WorksTo(s, t) && WorkEnabled(t, d, w)
    ensures WorksTo(s, WorkOn(t, d, w))
  {
    hide WorkEnabled, WorkOn, IsRun, After;
    var run :| IsRun(s, run) && After(s, run) == t && forall x: Step :: x in run ==> x.Work?;
    OneMore(s, run, Work(d, w));
    assert forall x :: x in run + [Work(d, w)] ==> x in run || x == Work(d, w);
  }

  /** How far a goroutine is from its next store. */
  function ToStore(g: Goroutine): nat {
    match g.pc
    case WantStore(_, _) => 0
    case Scanning(i) => if i < |g.cfg.tags| then 1 else 3
    case Looping => 2
    case Connecting(_) => 3
    case Delivering(_, _) => 4
    case _ => 5
  }

  /** Goroutine d can go on to store, with nobody holding the lock. */
  predicate CanStore(s: State, d: nat) {
    && s.mu == RwLock(None, {}) && d in s.core.gs && Live(s.core.gs[d]) && s.core.gs[d].cfg.tags != []
    && !s.core.gs[d].pc.InStore? && !s.core.gs[d].pc.InCallbacks?
    && (HasUpdate(s.core.gs[d].pc) ==> s.core.gs[d].pc.u.plc == s.core.gs[d].name)
  }

  function Towards(g: Goroutine): WorkStep {
    match g.pc
    case Connecting(_) => Connected
    case Looping => Tick(true)
    case Scanning(i) => if i < |g.cfg.tags| then ReadTag(ReadOk(Bool(true)), 0) else EndTick
    case Delivering(_, _) => Deliver
    case _ => WgDone
  }

  lemma MoveTowards(s0: State, s: State, d: nat) returns (t: State)
    requires WorksTo(s0, s) && CanStore(s, d) && !s.core.gs[d].pc.WantStore?
    ensures WorksTo(s0, t) && CanStore(t, d) && t.core.gs[d].name == s.core.gs[d].name
    ensures ToStore(t.core.gs[d]) < ToStore(s.core.gs[d])
  {
    hide WorksTo, WorkOn, WorkEnabled;
    if s.core.gs[d].pc.WantCallbacks? {
      t := CallbacksTowards(s0, s, d);
    } else {
      var w := Towards(s.core.gs[d]);
      PlainTowards(s, d);
      WorksOn(s0, s, d, w);
      t := WorkOn(s, d, w);
    }
  }

  lemma PlainTowards(s: State, d: nat)
    requires CanStore(s, d) && !s.core.gs[d].pc.WantStore? && !s.core.gs[d].pc.WantCallbacks?
    ensures var w := Towards(s.core.gs[d]);
            && WorkEnabled(s, d, w)
            && var t := WorkOn(s, d, w);
               && CanStore(t, d) && t.core.gs[d].name == s.core.gs[d].name
               && ToStore(t.core.gs[d]) < ToStore(s.core.gs[d])
  {
  }

  lemma CallbacksTowards(s0: State, s: State, d: nat) returns (t: State)
    requires WorksTo(s0, s) && CanStore(s, d) && s.core.gs[d].pc.WantCallbacks?
    ensures WorksTo(s0, t) && CanStore(t, d) && t.core.gs[d].name == s.core.gs[d].name
    ensures ToStore(t.core.gs[d]) < ToStore(s.core.gs[d])
  {
    hide WorksTo, Store;
    WorksOn(s0, s, d, LockCallbacks);
    t := WorkOn(s, d, LockCallbacks);
    WorksOn(s0, t, d, CopyCallbacks);
    t := WorkOn(t, d, CopyCallbacks);
  }

  lemma StoresAgain(s0: State, s: State, d: nat) returns (t: State)
    requires WorksTo(s0, s) && CanStore(s, d)
    ensures WorksTo(s0, t) && s.core.gs[d].name in t.core.current
    decreases ToStore(s.core.gs[d])
  {
    hide WorksTo, ToStore;
    if s.core.gs[d].pc.WantStore? {
      WorksOn(s0, s, d, LockStore);
      t := WorkOn(s, d, LockStore);
      WorksOn(s0, t, d, StoreTag);
      t := WorkOn(t, d, StoreTag);
    } else {
      var u := MoveTowards(s0, s, d);
      t := StoresAgain(s0, u, d);
    }
  }

  /** Some continuation, before the Reload's add section, has current values for n. */
  ghost predicate CanComeBack(t: State, n: string) {
    exists later :: IsRun(t, later) && Reloading(AddWorkers) !in later && n in After(t, later).core.current
  }

  /** When the drain section has deleted the current values of PLC n, a continuation can
      have some again before the add section if and only if the goroutine it drained was
      still live and has a tag to read. */
  lemma StaleIffLiveWithTags(cfgs: seq<PLC>, run: seq<Step>, order: seq<string>, n: string)
    requires IsRun(Initial(cfgs), run)
    requires ReloadEnabled(After(Initial(cfgs), run), DrainWorkers(order)) && n in order
    ensures var s := After(Initial(cfgs), run);
            && n in s.core.workers && s.core.workers[n].done in s.core.gs
            && var g := s.core.gs[s.core.workers[n].done];
               CanComeBack(ReloadOn(s, DrainWorkers(order)), n) <==> Live(g) && g.cfg.tags != []
  {
    QualityHolds(cfgs, run);
    InitialHolds(cfgs);
    NewAllWorkers(cfgs);
    RunKeepsIndex(Initial(cfgs), run);
    hide IsRun, After, Inv, TracesOk, CurrentsOk, IndexOk;
    ComesBackIff(After(Initial(cfgs), run), order, n);
  }

  lemma ComesBackIff(s: State, order: seq<string>, n: string)
    requires Inv(s) && TracesOk(s) && CurrentsOk(s) && IndexOk(s)
    requires ReloadEnabled(s, DrainWorkers(order)) && n in order
    ensures n in s.core.workers && s.core.workers[n].done in s.core.gs
    ensures var g := s.core.gs[s.core.workers[n].done];
            CanComeBack(ReloadOn(s, DrainWorkers(order)), n) <==> Live(g) && g.cfg.tags != []
  {
    AfterDrain(s, order, n);
    var t, d := ReloadOn(s, DrainWorkers(order)), s.core.workers[n].done;
    OneStepOk(s, Reloading(DrainWorkers(order)));
    hide Inv, CurrentsOk, IndexOk, ReloadOn, ReloadEnabled, IsRun, After;
    if Live(t.core.gs[d]) && t.core.gs[d].cfg.tags != [] {
      UpdateIsOwn(t, d);
      NoWorkYet(t);
      var u := StoresAgain(t, t, d);
      WorkedBack(t, u, n);
    } else {
      forall later | IsRun(t, later) && Reloading(AddWorkers) !in later
        ensures n !in After(t, later).core.current
      {
        GoneRun(t, n, d, later);
      }
    }
  }

  lemma UpdateIsOwn(t: State, d: nat)
    requires TracesOk(t) && d in t.core.gs
    ensures HasUpdate(t.core.gs[d].pc) ==> t.core.gs[d].pc.u.plc == t.core.gs[d].name
  {
    assert WorkerTraceOk(t.core.gs[d]);
  }

  lemma NoWorkYet(t: State)
    ensures WorksTo(t, t)
  {
    assert IsRun(t, []) && After(t, []) == t;
  }

  lemma WorkedBack(t: State, u: State, n: string)
    requires WorksTo(t, u) && n in u.core.current
    ensures CanComeBack(t, n)
  {
    hide IsRun, After;
    var run :| IsRun(t, run) && After(t, run) == u && forall st: Step :: st in run ==> st.Work?;
    assert Reloading(AddWorkers) !in run;
  }

  // ----- such a run exists -----

  ghost predicate Stale(s: State, n: string) {
    s.reload.Idle? && s.core.workers == map[] && n in s.core.current
  }

  /** The single goroutine, launched by Start for the only PLC. */
  ghost predicate Alone(s: State, p: PLC, pc: Pc) {
    && s.started && s.mu == RwLock(None, {}) && s.stops == map[] && !s.core.stopped
    && s.core.gs.Keys == {2} && s.core.gs[2].pc == pc
    && s.core.gs[2].name == p.name && s.core.gs[2].cfg == p
  }

  /** A Reload to the empty configuration returns with the PLC gone from the worker map
      and yet present among the current values. */
  lemma StaleEntryExists(p: PLC)
    requires |p.tags| == 1
    ensures exists s :: Leads(Initial([p]), s) && Stale(s, p.name)
  {
    var u := UpdateFor(p.name, p.tags[0].name, ReadErr, 0);
    var s1 := ReadsOnce(p, u);
    var s2 := Drains(p, u, s1);
    var s3 := StoresAndExits(p, u, s2);
    var s4 := Finishes(p, s3);
  }

  lemma StartsAlone(p: PLC) returns (s: State)
    ensures Leads(Initial([p]), s) && Alone(s, p, Connecting(false))
    ensures s.core.workers == map[p.name := Worker(0, p, 2, true)] && s.core.current == map[] && s.reload.Idle?
    ensures s.core.gs[2].lastQuality == map[]
  {
    hide Leads;
    var s0 := Initial([p]);
    NoSteps(s0);
    assert NewAll(EMPTY_CORE, [p]) == NewOne(EMPTY_CORE, p) by {
      assert [p][..0] == [];
      assert NewAll(EMPTY_CORE, []) == EMPTY_CORE;
    }
    assert ToSet([p.name]) == {p.name};
    Then(s0, s0, Start([p.name]));
    assert StartAll(s0.core, [p.name]) == StartOne(s0.core, p.name) by {
      assert [p.name][..0] == [];
      assert StartAll(s0.core, []) == s0.core;
    }
    s := Apply(s0, Start([p.name]));
  }

  lemma ReadsOnce(p: PLC, u: TagUpdate) returns (s: State)
    requires |p.tags| == 1 && u == UpdateFor(p.name, p.tags[0].name, ReadErr, 0)
    ensures Leads(Initial([p]), s) && Alone(s, p, WantStore(0, u))
    ensures s.core.workers == map[p.name := Worker(0, p, 2, true)] && s.core.current == map[] && s.reload.Idle?
  {
    hide Leads;
    var s0 := Initial([p]);
    s := StartsAlone(p);
    Then(s0, s, Work(2, Connected));
    s := Apply(s, Work(2, Connected));
    Then(s0, s, Work(2, Tick(true)));
    s := Apply(s, Work(2, Tick(true)));
    Then(s0, s, Work(2, ReadTag(ReadErr, 0)));
    s := Apply(s, Work(2, ReadTag(ReadErr, 0)));
  }

  lemma Drains(p: PLC, u: TagUpdate, s1: State) returns (s: State)
    requires Leads(Initial([p]), s1) && Alone(s1, p, WantStore(0, u)) && s1.reload.Idle?
    requires s1.core.workers == map[p.name := Worker(0, p, 2, true)] && s1.core.current == map[]
    ensures Leads(Initial([p]), s) && Alone(s, p, WantStore(0, u))
    ensures s.core.workers == map[] && 2 in s.core.cancelled && s.core.current == map[]
    ensures AtPhase(s, Waiting) && s.reload.cfg == [] && s.reload.k == 0
    ensures |s.reload.drained| == 1 && s.reload.drained[0].done == 2
  {
    hide Leads;
    var s0 := Initial([p]);
    s := s1;
    Then(s0, s, Reloading(BeginReload([])));
    s := Apply(s, Reloading(BeginReload([])));
    Then(s0, s, Reloading(LockCheck));
    s := Apply(s, Reloading(LockCheck));
    Then(s0, s, Reloading(CheckStopped));
    s := Apply(s, Reloading(CheckStopped));
    Then(s0, s, Reloading(LockDrain));
    s := Apply(s, Reloading(LockDrain));
    assert DrainSet(s.core.workers, []) == {p.name} && ToSet([p.name]) == {p.name};
    assert 2 in CancelOf(s.core.workers, {p.name});
    Then(s0, s, Reloading(DrainWorkers([p.name])));
    s := Apply(s, Reloading(DrainWorkers([p.name])));
  }

  lemma Stores(p: PLC, u: TagUpdate, s2: State) returns (s: State)
    requires |p.tags| == 1 && u == UpdateFor(p.name, p.tags[0].name, ReadErr, 0)
    requires Leads(Initial([p]), s2) && Alone(s2, p, WantStore(0, u)) && 2 in s2.core.cancelled
    ensures Leads(Initial([p]), s) && Alone(s, p, WantCallbacks(0, u)) && s.reload == s2.reload
    ensures s.core.workers == s2.core.workers && p.name in s.core.current && s.core.cancelled == s2.core.cancelled
  {
    hide Leads;
    var s0 := Initial([p]);
    s := s2;
    Then(s0, s, Work(2, LockStore));
    s := Apply(s, Work(2, LockStore));
    Then(s0, s, Work(2, StoreTag));
    s := Apply(s, Work(2, StoreTag));
  }

  lemma StoresAndExits(p: PLC, u: TagUpdate, s2: State) returns (s: State)
    requires |p.tags| == 1 && u == UpdateFor(p.name, p.tags[0].name, ReadErr, 0)
    requires Leads(Initial([p]), s2) && Alone(s2, p, WantStore(0, u)) && 2 in s2.core.cancelled
    ensures Leads(Initial([p]), s) && Alone(s, p, DoneClosed) && s.reload == s2.reload
    ensures s.core.workers == s2.core.workers && p.name in s.core.current
  {
    hide Leads;
    var s0 := Initial([p]);
    s := Stores(p, u, s2);
    Then(s0, s, Work(2, LockCallbacks));
    s := Apply(s, Work(2, LockCallbacks));
    Then(s0, s, Work(2, CopyCallbacks));
    s := Apply(s, Work(2, CopyCallbacks));
    Then(s0, s, Work(2, Deliver));
    s := Apply(s, Work(2, Deliver));
    Then(s0, s, Work(2, EndTick));
    s := Apply(s, Work(2, EndTick));
    Then(s0, s, Work(2, Exit));
    s := Apply(s, Work(2, Exit));
  }

  lemma Finishes(p: PLC, s3: State) returns (s: State)
    requires Leads(Initial([p]), s3) && Alone(s3, p, DoneClosed)
    requires s3.core.workers == map[] && p.name in s3.core.current
    requires AtPhase(s3, Waiting) && s3.reload.cfg == [] && s3.reload.k == 0
    requires |s3.reload.drained| == 1 && s3.reload.drained[0].done == 2
    ensures Leads(Initial([p]), s) && Stale(s, p.name)
  {
    hide Leads;
    var s0 := Initial([p]);
    s := s3;
    Then(s0, s, Reloading(ReceiveDone));
    s := Apply(s, Reloading(ReceiveDone));
    Then(s0, s, Reloading(ReceiveDone));
    s := Apply(s, Reloading(ReceiveDone));
    Then(s0, s, Reloading(CloseDriver));
    s := Apply(s, Reloading(CloseDriver));
    Then(s0, s, Reloading(CloseDriver));
    s := Apply(s, Reloading(CloseDriver));
    Then(s0, s, Reloading(LockAdd));
    s := Apply(s, Reloading(LockAdd));
    Then(s0, s, Reloading(AddWorkers));
    s := Apply(s, Reloading(AddWorkers));
  }
}
