/** Ticks in every run of the manager protocol: a scan goroutine reads all the tags of its
    PLC, in their order, tick after tick. */
module ManagerTicks {
  import opened Base
  import opened Scalars
  import opened PlcManager
  import opened ManagerProtocol
  import opened ManagerInvariants

  function TagNames(cfg: PLC): seq<string> {
    seq(|cfg.tags|, i requires 0 <= i < |cfg.tags| => cfg.tags[i].name)
  }

  /** The tags a goroutine has read, in order. */
  function ReadNames(outcomes: seq<Read>): seq<string> {
    seq(|outcomes|, i requires 0 <= i < |outcomes| => outcomes[i].tag)
  }

  /** The tags, n times over. */
  function Passes(names: seq<string>, n: nat): seq<string> {
    if n == 0 then [] else Passes(names, n - 1) + names
  }

  /** How many tags the tick under way has read. */
  function InTick(pc: Pc): nat {
    match pc
    case Scanning(i) => i
    case WantStore(i, _) => i + 1
    case InStore(i, _) => i + 1
    case WantCallbacks(i, _) => i + 1
    case InCallbacks(i, _) => i + 1
    case Delivering(i, _) => i + 1
    case _ => 0
  }

  /** The goroutine has made n whole passes over its tags, and then the first ones of the
      tick under way. */
  ghost predicate AfterPasses(g: Goroutine, n: nat) {
    && InTick(g.pc) <= |g.cfg.tags|
    && ReadNames(g.outcomes) == Passes(TagNames(g.cfg), n) + TagNames(g.cfg)[..InTick(g.pc)]
  }

  ghost predicate ReadsInPasses(g: Goroutine) {
    exists n: nat :: AfterPasses(g, n)
  }

  ghost predicate TicksOk(s: State) {
    forall d :: d in s.core.gs ==> ReadsInPasses(s.core.gs[d])
  }

  lemma ReadOneMore(g: Goroutine, o: Outcome, at: int)
    requires g.pc.Scanning? && g.pc.i < |g.cfg.tags| && ReadsInPasses(g)
    ensures ReadsInPasses(AfterRead(g, o, at))
  {
    var n: nat :| AfterPasses(g, n);
    var h, names := AfterRead(g, o, at), TagNames(g.cfg);
    assert ReadNames(h.outcomes) == ReadNames(g.outcomes) + [names[g.pc.i]];
    assert names[..g.pc.i + 1] == names[..g.pc.i] + [names[g.pc.i]];
    assert AfterPasses(h, n);
  }

  lemma PassEnds(g: Goroutine, pc: Pc)
    requires g.pc.Scanning? && g.pc.i >= |g.cfg.tags| && ReadsInPasses(g) && InTick(pc) == 0
    ensures ReadsInPasses(g.(pc := pc))
  {
    var n: nat :| AfterPasses(g, n);
    var names := TagNames(g.cfg);
    assert names[..|names|] == names && names[..0] == [];
    assert Passes(names, n + 1) + [] == Passes(names, n) + names;
    assert AfterPasses(g.(pc := pc), n + 1);
  }

  lemma SameReads(g: Goroutine, h: Goroutine)
    requires ReadsInPasses(g) && h.outcomes == g.outcomes && h.cfg == g.cfg && InTick(h.pc) == InTick(g.pc)
    ensures ReadsInPasses(h)
  {
    var n: nat :| AfterPasses(g, n);
    assert AfterPasses(h, n);
  }

  lemma StepReadsInPasses(s: State, d: nat, w: WorkStep)
    requires WorkEnabled(s, d, w) && ReadsInPasses(s.core.gs[d])
    ensures ReadsInPasses(NextGoroutine(s, d, w))
  {
    hide ReadsInPasses;
    var g := s.core.gs[d];
    match w
    case ReadTag(o, at) =>
      ReadOneMore(g, o, at);
    case EndTick => PassEnds(g, Looping);
    case _ => SameReads(g, NextGoroutine(s, d, w));
  }

  lemma WorkKeepsTicks(s: State, d: nat, w: WorkStep)
    requires TicksOk(s) && WorkEnabled(s, d, w)
    ensures TicksOk(WorkOn(s, d, w))
  {
    StepReadsInPasses(s, d, w);
    hide ReadsInPasses, Store, NextGoroutine;
  }

  lemma LaunchedReadsNothing(n: string, driver: nat, cfg: PLC)
    ensures ReadsInPasses(Launch(n, driver, cfg))
  {
    assert AfterPasses(Launch(n, driver, cfg), 0);
  }

  /** A step that only launches goroutines. */
  lemma LaunchesKeepTicks(s: State, t: State)
    requires TicksOk(s)
    requires forall d :: d in t.core.gs ==>
               var g := t.core.gs[d];
               (d in s.core.gs && g == s.core.gs[d]) || g == Launch(g.name, g.driver, g.cfg)
    ensures TicksOk(t)
  {
    hide ReadsInPasses;
    forall d | d in t.core.gs
      ensures ReadsInPasses(t.core.gs[d])
    {
      LaunchedReadsNothing(t.core.gs[d].name, t.core.gs[d].driver, t.core.gs[d].cfg);
    }
  }

  lemma StartKeepsTicks(s: State, order: seq<string>)
    requires GoroutinesOk(s) && TicksOk(s) && StartEnabled(s, order)
    ensures TicksOk(StartOn(s, order))
  {
    StartAllStarts(s.core, order);
    hide StartAll, TicksOk;
    LaunchesKeepTicks(s, StartOn(s, order));
  }

  lemma ReloadKeepsTicks(s: State, r: ReloadStep)
    requires GoroutinesOk(s) && TicksOk(s) && ReloadEnabled(s, r)
    ensures TicksOk(ReloadOn(s, r))
  {
    if r.AddWorkers? {
      AddAllGrows(s.core, s.reload.cfg);
    }
    hide AddAll, DrainSet, TicksOk, GoroutinesOk;
    LaunchesKeepTicks(s, ReloadOn(s, r));
  }

  lemma StepKeepsTicks(s: State, st: Step)
    requires Inv(s) && TicksOk(s) && Enabled(s, st)
    ensures TicksOk(Apply(s, st))
  {
    InvParts(s);
    hide Inv, GoroutinesOk, WorkEnabled, WorkOn, ReloadEnabled, ReloadOn, StartEnabled, StartOn, Settled;
    match st
    case Start(order) => StartKeepsTicks(s, order);
    case Work(d, w) => WorkKeepsTicks(s, d, w);
    case Reloading(r) => ReloadKeepsTicks(s, r);
    case Stopping(k, stop) =>
    case Outside(o) =>
  }

  lemma {:induction false} RunKeepsTicks(s: State, run: seq<Step>)
    requires Inv(s) && TicksOk(s) && IsRun(s, run)
    ensures TicksOk(After(s, run))
    decreases |run|
  {
    hide Inv, TicksOk, Enabled, Apply;
    if run != [] {
      StepKeeps(s, run[0]);
      StepKeepsTicks(s, run[0]);
      RunKeepsTicks(Apply(s, run[0]), run[1..]);
    }
  }

  lemma TicksHold(cfgs: seq<PLC>, run: seq<Step>, d: nat)
    requires IsRun(Initial(cfgs), run) && d in After(Initial(cfgs), run).core.gs
    ensures ReadsInPasses(After(Initial(cfgs), run).core.gs[d])
  {
    InitialHolds(cfgs);
    NewAllWorkers(cfgs);
    RunKeepsTicks(Initial(cfgs), run);
    hide After, IsRun, Inv, ReadsInPasses;
  }

  /** In every run a goroutine has read the tags of its PLC in whole passes, each of all
      tags in their order; then come those of the tick under way: tags[..i] before the
      read of tag i, tags[..i + 1] while the update of tag i is in hand, and none outside
      of a tick. */
  lemma TicksReadAllTags(cfgs: seq<PLC>, run: seq<Step>, d: nat)
    requires IsRun(Initial(cfgs), run) && d in After(Initial(cfgs), run).core.gs
    ensures var g := After(Initial(cfgs), run).core.gs[d];
            var names := TagNames(g.cfg);
            exists n: nat ::
              match g.pc
              case Scanning(i) => i <= |names| && ReadNames(g.outcomes) == Passes(names, n) + names[..i]
              case Connecting(_) => ReadNames(g.outcomes) == Passes(names, n)
              case Looping => ReadNames(g.outcomes) == Passes(names, n)
              case DoneClosed => ReadNames(g.outcomes) == Passes(names, n)
              case Gone => ReadNames(g.outcomes) == Passes(names, n)
              case _ => g.pc.i < |names| && ReadNames(g.outcomes) == Passes(names, n) + names[..g.pc.i + 1]
  {
    TicksHold(cfgs, run, d);
    var g := After(Initial(cfgs), run).core.gs[d];
    hide After, IsRun;
    var n: nat :| AfterPasses(g, n);
    assert Passes(TagNames(g.cfg), n) + [] == Passes(TagNames(g.cfg), n);
  }

  // ----- every tag is read -----

  lemma {:induction false} PassesHold(names: seq<string>, n: nat, name: string)
    requires n > 0 && name in names
    ensures name in Passes(names, n)
  {
    assert name in Passes(names, n - 1) + names;
  }

  /** A goroutine that has read anything and stands outside of a tick has read every tag. */
  lemma OutsideTickAllRead(g: Goroutine, i: nat)
    requires ReadsInPasses(g) && InTick(g.pc) == 0 && g.outcomes != [] && i < |g.cfg.tags|
    ensures exists j :: 0 <= j < |g.outcomes| && g.outcomes[j].tag == g.cfg.tags[i].name
  {
    var n: nat :| AfterPasses(g, n);
    var names, name := TagNames(g.cfg), g.cfg.tags[i].name;
    assert names[i] == name;
    assert |ReadNames(g.outcomes)| > 0;
    assert names[..0] == [] && Passes(names, n) + [] == Passes(names, n);
    PassesHold(names, n, name);
    var j :| 0 <= j < |ReadNames(g.outcomes)| && ReadNames(g.outcomes)[j] == name;
  }
}
