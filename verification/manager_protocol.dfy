/** internal/plc/manager.go as interleaved steps: one Start, any number of Reload and
    Stop calls, the scan goroutines they launch, and readers of the tag tables. Every
    acquisition of Manager.mu is a step of its own; a critical section's body runs in
    the step that releases the lock. */
module ManagerProtocol {
  import opened Base
  import opened Scalars
  import opened PlcManager

  datatype Agent = ReloadAgent | StopAgent(k: nat) | WorkerAgent(d: nat) | ReaderAgent(r: nat)

  datatype RwLock = RwLock(writer: Option<Agent>, readers: set<Agent>)

  /** What Reload remembers of a worker it took out of the map. */
  datatype Drained = Drained(name: string, driver: nat, done: nat)

  datatype Phase = WantCheck | InCheck | WantDrain | InDrain | Waiting | Closing | WantAdd | InAdd

  /** The Reload call that holds reloadMu. `drained` is in the order the map iteration
      produced, `k` counts the entries waited for (Waiting) or closed (Closing).
      `before` and `closedBefore` record the worker map and the drivers closed by
      Reload calls at the start of the drain section. */
  datatype Reload =
    | Idle
    | Active(phase: Phase, cfg: seq<PLC>, before: map<string, Worker>, closedBefore: multiset<nat>,
             drained: seq<Drained>, k: nat)

  /** A Stop call. `quiet` records whether, when it set `stopped`, no goroutine was still
      to be launched (Settled). */
  datatype StopPc =
    | WantMark
    | InMark
    | WaitWorkers(quiet: bool)
    | WantClose(quiet: bool)
    | InClose(quiet: bool)
    | Returned(quiet: bool, closed: set<nat>)

  /** `closes` counts the Close calls made by Reload, per driver. */
  datatype State = State(
    core: Core,
    started: bool,
    mu: RwLock,
    reload: Reload,
    stops: map<nat, StopPc>,
    closes: multiset<nat>)

  /** A step of one scan goroutine. */
  datatype WorkStep =
    | Connected
    | Exit
    | WgDone
    | Tick(connected: bool)
    | ReadTag(outcome: Outcome, at: int)
    | EndTick
    | LockStore
    | StoreTag
    | LockCallbacks
    | CopyCallbacks
    | Deliver

  /** A step of the Reload call that holds reloadMu, or of a caller taking reloadMu. */
  datatype ReloadStep =
    | BeginReload(cfg: seq<PLC>)
    | LockCheck
    | CheckStopped
    | LockDrain
    | DrainWorkers(order: seq<string>)
    | ReceiveDone
    | CloseDriver
    | LockAdd
    | AddWorkers

  datatype StopStep = LockMark | Mark | WaitedAll | LockClose | CloseAll

  /** Parent contexts end, readers of the tag tables come and go, Stop is called. */
  datatype OutsideStep =
    | CancelContext(d: nat)
    | ReaderLock(r: nat)
    | ReaderUnlock(r: nat)
    | BeginStop(k: nat)

  datatype Step =
    | Start(order: seq<string>)
    | Work(d: nat, work: WorkStep)
    | Reloading(r: ReloadStep)
    | Stopping(k: nat, stop: StopStep)
    | Outside(o: OutsideStep)

  // ----- the lock -----

  predicate CanLock(mu: RwLock) {
    mu.writer == None && mu.readers == {}
  }

  predicate CanRLock(mu: RwLock) {
    mu.writer == None
  }

  function Lock(s: State, a: Agent): State {
    s.(mu := s.mu.(writer := Some(a)))
  }

  function Unlock(s: State): State {
    s.(mu := s.mu.(writer := None))
  }

  function RLock(s: State, a: Agent): State {
    s.(mu := s.mu.(readers := s.mu.readers + {a}))
  }

  function RUnlock(s: State, a: Agent): State {
    s.(mu := s.mu.(readers := s.mu.readers - {a}))
  }

  // ----- small views of the state -----

  function HasUpdate(pc: Pc): bool {
    pc.WantStore? || pc.InStore? || pc.WantCallbacks? || pc.InCallbacks? || pc.Delivering?
  }

  predicate AtPhase(s: State, p: Phase) {
    s.reload.Active? && s.reload.phase == p
  }

  /** No Reload has passed its check of `stopped` without having returned. */
  predicate NoReloadInWindow(s: State) {
    s.reload.Idle? || s.reload.phase.WantCheck? || s.reload.phase.InCheck?
  }

  predicate PastDrain(s: State) {
    s.reload.Active? &&
    (s.reload.phase.Waiting? || s.reload.phase.Closing? || s.reload.phase.WantAdd? || s.reload.phase.InAdd?)
  }

  /** Once `stopped` is set, no goroutine will be launched any more: before Start there is
      no worker that it could start; after it, no Reload is past its check, or the one
      that is finds every name of its configuration among the workers it keeps. */
  predicate Settled(s: State) {
    if !s.started then s.core.workers == map[]
    else if NoReloadInWindow(s) then true
    else if PastDrain(s) then PlcNames(s.reload.cfg) <= s.core.workers.Keys
    else PlcNames(s.reload.cfg) <= s.core.workers.Keys - DrainSet(s.core.workers, s.reload.cfg)
  }

  function SetG(s: State, d: nat, g: Goroutine): State {
    s.(core := s.core.(gs := s.core.gs[d := g]))
  }

  function AllWorkersGone(s: State): bool {
    forall d | d in s.core.gs :: s.core.gs[d].pc.Gone?
  }

  function DrainedOf(workers: map<string, Worker>, order: seq<string>): (r: seq<Drained>)
    requires ToSet(order) <= workers.Keys
    ensures |r| == |order|
    ensures forall i :: 0 <= i < |r| ==>
      order[i] in workers && r[i] == Drained(order[i], workers[order[i]].driver, workers[order[i]].done)
  {
    seq(|order|, i requires 0 <= i < |order| =>
      assert order[i] in ToSet(order);
      Drained(order[i], workers[order[i]].driver, workers[order[i]].done))
  }

  // ----- which steps are enabled -----

  predicate WorkEnabled(s: State, d: nat, w: WorkStep) {
    d in s.core.gs &&
    var g := s.core.gs[d];
    match w
    case Connected => g.pc.Connecting?
    case Exit => (g.pc.Connecting? || g.pc.Looping?) && d in s.core.cancelled
    case WgDone => g.pc.DoneClosed?
    case Tick(_) => g.pc.Looping?
    case ReadTag(_, _) => g.pc.Scanning? && g.pc.i < |g.cfg.tags|
    case EndTick => g.pc.Scanning? && g.pc.i >= |g.cfg.tags|
    case LockStore => g.pc.WantStore? && CanLock(s.mu)
    case StoreTag => g.pc.InStore?
    case LockCallbacks => g.pc.WantCallbacks? && CanRLock(s.mu)
    case CopyCallbacks => g.pc.InCallbacks?
    case Deliver => g.pc.Delivering?
  }

  ghost predicate ReloadEnabled(s: State, r: ReloadStep) {
    match r
    case BeginReload(_) => s.started && s.reload.Idle?
    case LockCheck => AtPhase(s, WantCheck) && CanRLock(s.mu)
    case CheckStopped => AtPhase(s, InCheck)
    case LockDrain => AtPhase(s, WantDrain) && CanLock(s.mu)
    case DrainWorkers(order) =>
      AtPhase(s, InDrain) && NoDuplicates(order) && ToSet(order) == DrainSet(s.core.workers, s.reload.cfg)
    case ReceiveDone =>
      && AtPhase(s, Waiting)
      && (s.reload.k < |s.reload.drained| ==>
            var d := s.reload.drained[s.reload.k].done;
            d in s.core.gs && !Live(s.core.gs[d]))
    case CloseDriver => AtPhase(s, Closing)
    case LockAdd => AtPhase(s, WantAdd) && CanLock(s.mu)
    case AddWorkers => AtPhase(s, InAdd)
  }

  predicate StopEnabled(s: State, k: nat, st: StopStep) {
    k in s.stops &&
    match st
    case LockMark => s.stops[k].WantMark? && CanLock(s.mu)
    case Mark => s.stops[k].InMark?
    case WaitedAll => s.stops[k].WaitWorkers? && AllWorkersGone(s)
    case LockClose => s.stops[k].WantClose? && CanRLock(s.mu)
    case CloseAll => s.stops[k].InClose?
  }

  predicate OutsideEnabled(s: State, o: OutsideStep) {
    match o
    case CancelContext(d) => d in s.core.gs
    case ReaderLock(r) => CanRLock(s.mu) && ReaderAgent(r) !in s.mu.readers
    case ReaderUnlock(r) => ReaderAgent(r) in s.mu.readers
    case BeginStop(k) => k !in s.stops
  }

  ghost predicate StartEnabled(s: State, order: seq<string>) {
    !s.started && CanLock(s.mu) && NoDuplicates(order) && ToSet(order) == s.core.workers.Keys
  }

  ghost predicate Enabled(s: State, st: Step) {
    match st
    case Start(order) => StartEnabled(s, order)
    case Work(d, w) => WorkEnabled(s, d, w)
    case Reloading(r) => ReloadEnabled(s, r)
    case Stopping(k, stop) => StopEnabled(s, k, stop)
    case Outside(o) => OutsideEnabled(s, o)
  }

  // ----- what a step does -----

  /** ReadTag on tag i of the current tick: what the read does to the goroutine. */
  function AfterRead(g: Goroutine, o: Outcome, at: int): Goroutine
    requires g.pc.Scanning? && g.pc.i < |g.cfg.tags|
  {
    var tag := g.cfg.tags[g.pc.i].name;
    var seen := g.(outcomes := g.outcomes + [Read(tag, o)]);
    if Emits(Last(g.lastQuality, tag), o) then
      seen.(pc := WantStore(g.pc.i, UpdateFor(g.name, tag, o, at)))
    else
      seen.(pc := Scanning(g.pc.i + 1))
  }

  /** The callbacks have run: lastQuality takes the update's quality. */
  function AfterDeliver(g: Goroutine): Goroutine
    requires g.pc.Delivering?
  {
    g.(pc := Scanning(g.pc.i + 1),
       lastQuality := g.lastQuality[g.pc.u.tag := g.pc.u.quality],
       emits := g.emits + [g.pc.u])
  }

  /** What a step does to the goroutine that takes it. */
  function NextGoroutine(s: State, d: nat, w: WorkStep): Goroutine
    requires WorkEnabled(s, d, w)
  {
    var g := s.core.gs[d];
    match w
    case Connected => g.(pc := if g.pc.midTick then Scanning(0) else Looping)
    case Exit => g.(pc := DoneClosed)
    case WgDone => g.(pc := Gone)
    case Tick(connected) => g.(pc := if connected then Scanning(0) else Connecting(true))
    case ReadTag(o, at) => AfterRead(g, o, at)
    case EndTick => g.(pc := Looping)
    case LockStore => g.(pc := InStore(g.pc.i, g.pc.u))
    case StoreTag => g.(pc := WantCallbacks(g.pc.i, g.pc.u))
    case LockCallbacks => g.(pc := InCallbacks(g.pc.i, g.pc.u))
    case CopyCallbacks => g.(pc := Delivering(g.pc.i, g.pc.u))
    case Deliver => AfterDeliver(g)
  }

  function WorkOn(s: State, d: nat, w: WorkStep): State
    requires WorkEnabled(s, d, w)
  {
    var t := SetG(s, d, NextGoroutine(s, d, w));
    match w
    case LockStore => Lock(t, WorkerAgent(d))
    case StoreTag => Unlock(t.(core := t.core.(current := Store(t.core.current, s.core.gs[d].pc.u))))
    case LockCallbacks => RLock(t, WorkerAgent(d))
    case CopyCallbacks => RUnlock(t, WorkerAgent(d))
    case _ => t
  }

  ghost function ReloadOn(s: State, r: ReloadStep): State
    requires ReloadEnabled(s, r)
  {
    match r
    case BeginReload(cfg) => s.(reload := Active(WantCheck, cfg, map[], multiset{}, [], 0))
    case LockCheck => RLock(s.(reload := s.reload.(phase := InCheck)), ReloadAgent)
    case CheckStopped =>
      RUnlock(s.(reload := if s.core.stopped then Idle else s.reload.(phase := WantDrain)), ReloadAgent)
    case LockDrain => Lock(s.(reload := s.reload.(phase := InDrain)), ReloadAgent)
    case DrainWorkers(order) =>
      Unlock(s.(core := Drain(s.core, ToSet(order)),
                reload := s.reload.(phase := Waiting, before := s.core.workers, closedBefore := s.closes,
                                    drained := DrainedOf(s.core.workers, order), k := 0)))
    case ReceiveDone =>
      if s.reload.k < |s.reload.drained| then s.(reload := s.reload.(k := s.reload.k + 1))
      else s.(reload := s.reload.(phase := Closing, k := 0))
    case CloseDriver =>
      if s.reload.k < |s.reload.drained| then
        s.(reload := s.reload.(k := s.reload.k + 1),
           closes := s.closes + multiset{s.reload.drained[s.reload.k].driver})
      else s.(reload := s.reload.(phase := WantAdd))
    case LockAdd => Lock(s.(reload := s.reload.(phase := InAdd)), ReloadAgent)
    case AddWorkers => Unlock(s.(core := AddAll(s.core, s.reload.cfg), reload := Idle))
  }

  function SetStop(s: State, k: nat, pc: StopPc): State {
    s.(stops := s.stops[k := pc])
  }

  function DriversOf(workers: map<string, Worker>): set<nat> {
    set n | n in workers :: workers[n].driver
  }

  function StopOn(s: State, k: nat, st: StopStep): State
    requires StopEnabled(s, k, st)
  {
    match st
    case LockMark => Lock(SetStop(s, k, InMark), StopAgent(k))
    case Mark =>
      Unlock(SetStop(s.(core := MarkStopped(s.core)), k, WaitWorkers(Settled(s))))
    case WaitedAll => SetStop(s, k, WantClose(s.stops[k].quiet))
    case LockClose => RLock(SetStop(s, k, InClose(s.stops[k].quiet)), StopAgent(k))
    case CloseAll =>
      RUnlock(SetStop(s, k, Returned(s.stops[k].quiet, DriversOf(s.core.workers))), StopAgent(k))
  }

  function OutsideOn(s: State, o: OutsideStep): State
    requires OutsideEnabled(s, o)
  {
    match o
    case CancelContext(d) => s.(core := s.core.(cancelled := s.core.cancelled + {d}))
    case ReaderLock(r) => RLock(s, ReaderAgent(r))
    case ReaderUnlock(r) => RUnlock(s, ReaderAgent(r))
    case BeginStop(k) => SetStop(s, k, WantMark)
  }

  function StartOn(s: State, order: seq<string>): State
    requires ToSet(order) == s.core.workers.Keys
  {
    s.(core := StartAll(s.core, order), started := true)
  }

  ghost function Apply(s: State, st: Step): State
    requires Enabled(s, st)
  {
    match st
    case Start(order) => StartOn(s, order)
    case Work(d, w) => WorkOn(s, d, w)
    case Reloading(r) => ReloadOn(s, r)
    case Stopping(k, stop) => StopOn(s, k, stop)
    case Outside(o) => OutsideOn(s, o)
  }

  // ----- runs -----

  function Initial(cfgs: seq<PLC>): State {
    State(NewAll(EMPTY_CORE, cfgs), false, RwLock(None, {}), Idle, map[], multiset{})
  }

  /** The steps are taken one after the other, each enabled where it is taken. */
  ghost predicate IsRun(s: State, run: seq<Step>)
    decreases |run|
  {
    run == [] || (Enabled(s, run[0]) && IsRun(Apply(s, run[0]), run[1..]))
  }

  ghost function After(s: State, run: seq<Step>): State
    requires IsRun(s, run)
    decreases |run|
  {
    if run == [] then s else After(Apply(s, run[0]), run[1..])
  }

  /** Some run leads from s to t. */
  ghost predicate Leads(s: State, t: State) {
    exists run :: IsRun(s, run) && After(s, run) == t
  }

  lemma {:induction false} OneMore(s: State, run: seq<Step>, st: Step)
    requires IsRun(s, run) && Enabled(After(s, run), st)
    ensures IsRun(s, run + [st]) && After(s, run + [st]) == Apply(After(s, run), st)
    decreases |run|
  {
    hide Enabled, Apply;
    if run == [] {
      assert run + [st] == [st];
    } else {
      OneMore(Apply(s, run[0]), run[1..], st);
      assert (run + [st])[1..] == run[1..] + [st];
    }
  }

  lemma Then(s: State, t: State, st: Step)
    requires Leads(s, t) && Enabled(t, st)
    ensures Leads(s, Apply(t, st))
  {
    hide Enabled, Apply, IsRun, After;
    var run :| IsRun(s, run) && After(s, run) == t;
    OneMore(s, run, st);
  }

  lemma NoSteps(s: State)
    ensures Leads(s, s)
  {
    assert IsRun(s, []) && After(s, []) == s;
  }
}
