/** The state internal/plc/manager.go guards with Manager.mu, the critical sections
    that change it, and the class whose methods are those sections. */
module PlcManager {
  import opened Base
  import opened Scalars

  /** TagUpdate.Quality: "", "good" and "bad". */
  datatype Quality = Unset | GoodQuality | BadQuality

  datatype TagUpdate = TagUpdate(plc: string, tag: string, value: Option<Scalar>, at: int, quality: Quality)

  datatype TagValue = TagValue(value: Option<Scalar>, at: int, quality: Quality)

  /** What a driver's ReadTag returned. */
  datatype Outcome = ReadOk(value: Scalar) | ReadErr

  datatype Read = Read(tag: string, outcome: Outcome)

  /** plcWorker. `driver` and `done` are identities; `started` says that the cancel
      function is set and that `done` belongs to a launched goroutine. */
  datatype Worker = Worker(driver: nat, cfg: PLC, done: nat, started: bool)

  /** Where a runWorker goroutine stands. `i` is the tag of the current tick, `u` the
      update that emitTagUpdate is handling. */
  datatype Pc =
    | Connecting(midTick: bool)
    | Looping
    | Scanning(i: nat)
    | WantStore(i: nat, u: TagUpdate)
    | InStore(i: nat, u: TagUpdate)
    | WantCallbacks(i: nat, u: TagUpdate)
    | InCallbacks(i: nat, u: TagUpdate)
    | Delivering(i: nat, u: TagUpdate)
    | DoneClosed
    | Gone

  /** One runWorker goroutine, with the reads it made and the updates it delivered. */
  datatype Goroutine = Goroutine(
    name: string,
    driver: nat,
    cfg: PLC,
    pc: Pc,
    lastQuality: map<string, Quality>,
    outcomes: seq<Read>,
    emits: seq<TagUpdate>)

  /** The goroutine is still inside runWorker. */
  predicate Live(g: Goroutine) {
    !g.pc.DoneClosed? && !g.pc.Gone?
  }

  function Launch(name: string, driver: nat, cfg: PLC): Goroutine {
    Goroutine(name, driver, cfg, Connecting(false), map[], [], [])
  }

  /** The manager's fields, with the goroutines it launched (keyed by their done
      channel), the contexts that are cancelled, and the next fresh identity. */
  datatype Core = Core(
    workers: map<string, Worker>,
    current: map<string, map<string, TagValue>>,
    stopped: bool,
    gs: map<nat, Goroutine>,
    cancelled: set<nat>,
    next: nat)

  // ----- NewManager -----

  function NewOne(c: Core, cfg: PLC): Core {
    c.(workers := c.workers[cfg.name := Worker(c.next, cfg, c.next + 1, false)], next := c.next + 2)
  }

  function NewAll(c: Core, cfgs: seq<PLC>): Core {
    if cfgs == [] then c else NewOne(NewAll(c, cfgs[..|cfgs| - 1]), cfgs[|cfgs| - 1])
  }

  /** The configuration that a worker map stands for. */
  function Configs(workers: map<string, Worker>): map<string, PLC> {
    map n | n in workers :: workers[n].cfg
  }

  const EMPTY_CORE := Core(map[], map[], false, map[], {}, 0)

  // ----- Start -----

  /** Start's loop body: a fresh done channel and a goroutine for one worker. */
  function StartOne(c: Core, name: string): Core
    requires name in c.workers
  {
    var w := c.workers[name];
    c.(workers := c.workers[name := w.(done := c.next, started := true)],
       gs := c.gs[c.next := Launch(name, w.driver, w.cfg)],
       next := c.next + 1)
  }

  /** Start visits the worker map in some order, which Go leaves open. */
  function StartAll(c: Core, order: seq<string>): (r: Core)
    requires ToSet(order) <= c.workers.Keys
    ensures r.workers.Keys == c.workers.Keys
  {
    if order == [] then c
    else
      assert order == order[..|order| - 1] + [order[|order| - 1]];
      assert ToSet(order[..|order| - 1]) <= c.workers.Keys;
      assert order[|order| - 1] in ToSet(order);
      StartOne(StartAll(c, order[..|order| - 1]), order[|order| - 1])
  }

  // ----- Reload -----

  /** Workers to drain: removed from the configuration, or configured differently. */
  function DrainSet(workers: map<string, Worker>, cfgs: seq<PLC>): set<string> {
    var byName := ByName(cfgs);
    set n | n in workers && (n !in byName || byName[n] != workers[n].cfg)
  }

  /** The contexts cancelled with a set of workers. */
  function CancelOf(workers: map<string, Worker>, names: set<string>): set<nat> {
    set n | n in names && n in workers && workers[n].started :: workers[n].done
  }

  /** Reload's first critical section. */
  function Drain(c: Core, names: set<string>): Core {
    c.(workers := c.workers - names,
       current := c.current - names,
       cancelled := c.cancelled + CancelOf(c.workers, names))
  }

  /** Reload's second critical section: one configuration entry. */
  function AddOne(c: Core, cfg: PLC): Core {
    if cfg.name in c.workers then c
    else
      c.(workers := c.workers[cfg.name := Worker(c.next, cfg, c.next + 1, true)],
         gs := c.gs[c.next + 1 := Launch(cfg.name, c.next, cfg)],
         next := c.next + 2)
  }

  function AddAll(c: Core, cfgs: seq<PLC>): Core {
    if cfgs == [] then c else AddOne(AddAll(c, cfgs[..|cfgs| - 1]), cfgs[|cfgs| - 1])
  }

  // ----- Stop -----

  function MarkStopped(c: Core): Core {
    c.(stopped := true, cancelled := c.cancelled + CancelOf(c.workers, c.workers.Keys))
  }

  // ----- storeTag -----

  function TagsOf(current: map<string, map<string, TagValue>>, plc: string): map<string, TagValue> {
    if plc in current then current[plc] else map[]
  }

  function Store(current: map<string, map<string, TagValue>>, u: TagUpdate): map<string, map<string, TagValue>> {
    var q := if u.quality.Unset? then GoodQuality else u.quality;
    current[u.plc := TagsOf(current, u.plc)[u.tag := TagValue(u.value, u.at, q)]]
  }

  // ----- the scan loop's decision for one read -----

  function UpdateFor(plc: string, tag: string, o: Outcome, at: int): TagUpdate {
    match o
    case ReadOk(v) => TagUpdate(plc, tag, Some(v), at, GoodQuality)
    case ReadErr => TagUpdate(plc, tag, None, at, BadQuality)
  }

  /** lastQuality[tag], where an absent key reads as "". */
  function Last(lastQuality: map<string, Quality>, tag: string): Quality {
    if tag in lastQuality then lastQuality[tag] else Unset
  }

  /** A good read is always emitted, a bad one only when the tag was not bad already. */
  predicate Emits(last: Quality, o: Outcome) {
    o.ReadOk? || !last.BadQuality?
  }

  // ----- the class -----

  /** Manager, with the goroutines and contexts it creates. Each method is one critical
      section of Manager.mu; the interleaving of sections is the manager protocol. */
  class Manager {
    var workers: map<string, Worker>
    var current: map<string, map<string, TagValue>>
    var stopped: bool
    var goroutines: map<nat, Goroutine>
    var cancelled: set<nat>
    var next: nat

    function Abs(): Core
      reads this
    {
      Core(workers, current, stopped, goroutines, cancelled, next)
    }

    /** NewManager: one driver per entry; a repeated name keeps its last entry. */
    constructor (cfgs: seq<PLC>)
      ensures Abs() == NewAll(EMPTY_CORE, cfgs)
      ensures Configs(workers) == ByName(cfgs)
      ensures forall n :: n in workers ==> !workers[n].started
    {
      workers, current, stopped := map[], map[], false;
      goroutines, cancelled, next := map[], {}, 0;
      new;
      for i := 0 to |cfgs|
        invariant Abs() == NewAll(EMPTY_CORE, cfgs[..i])
      {
        assert cfgs[..i + 1][..i] == cfgs[..i];
        var driver := next;
        workers := workers[cfgs[i].name := Worker(driver, cfgs[i], driver + 1, false)];
        next := next + 2;
      }
      assert cfgs[..|cfgs|] == cfgs;
      NewAllIsByName(cfgs);
    }

    /** Start: every worker gets a fresh done channel and a goroutine. */
    method Start() returns (order: seq<string>)
      modifies this
      ensures NoDuplicates(order) && ToSet(order) == old(workers.Keys)
      ensures Abs() == StartAll(old(Abs()), order)
    {
      order := [];
      var rest := workers.Keys;
      while rest != {}
        invariant rest <= old(workers.Keys) && NoDuplicates(order)
        invariant ToSet(order) == old(workers.Keys) - rest
        invariant ToSet(order) <= old(Abs()).workers.Keys
        invariant Abs() == StartAll(old(Abs()), order)
        decreases rest
      {
        var name :| name in rest;
        StartMore(old(Abs()), order, name);
        ghost var before := order;
        order := order + [name];
        hide NoDuplicates, ToSet, StartAll;
        var w := workers[name];
        var done := next;
        workers := workers[name := w.(done := done, started := true)];
        goroutines := goroutines[done := Launch(name, w.driver, w.cfg)];
        next := next + 1;
        rest := rest - {name};
      }
    }

    /** The section of Stop that sets `stopped` and cancels every context. */
    method SetStopped()
      modifies this
      ensures Abs() == MarkStopped(old(Abs()))
    {
      stopped := true;
      var rest := workers.Keys;
      while rest != {}
        invariant rest <= workers.Keys
        invariant Abs() == old(Abs()).(stopped := true,
                             cancelled := old(cancelled) + CancelOf(workers, workers.Keys - rest))
        decreases rest
      {
        var name :| name in rest;
        assert workers.Keys - (rest - {name}) == (workers.Keys - rest) + {name};
        if workers[name].started {
          cancelled := cancelled + {workers[name].done};
        }
        assert CancelOf(workers, (workers.Keys - rest) + {name}) ==
               CancelOf(workers, workers.Keys - rest) + CancelOf(workers, {name});
        rest := rest - {name};
      }
      assert workers.Keys - {} == workers.Keys;
    }

    /** newCfgByName. */
    method IndexByName(cfgs: seq<PLC>) returns (m: map<string, PLC>)
      ensures m == ByName(cfgs)
    {
      m := map[];
      for i := 0 to |cfgs|
        invariant m == ByName(cfgs[..i])
      {
        assert cfgs[..i + 1][..i] == cfgs[..i];
        m := m[cfgs[i].name := cfgs[i]];
      }
      assert cfgs[..|cfgs|] == cfgs;
    }

    /** Reload's choice of workers to drain, in the order the map iteration gives them. */
    method SelectDrain(cfgs: seq<PLC>) returns (order: seq<string>)
      ensures NoDuplicates(order) && ToSet(order) == DrainSet(workers, cfgs)
    {
      var byName := IndexByName(cfgs);
      order := [];
      var rest := workers.Keys;
      while rest != {}
        invariant rest <= workers.Keys && NoDuplicates(order)
        invariant ToSet(order) == DrainSet(workers, cfgs) - rest
        decreases rest
      {
        var name :| name in rest;
        if name !in byName || workers[name].cfg != byName[name] {
          assert name !in ToSet(order);
          ghost var before := order;
          order := order + [name];
          assert ToSet(order) == ToSet(before) + {name};
        }
        rest := rest - {name};
      }
    }

    /** Take one worker out of the map: cancel its context, forget its current values. */
    method TakeOut(name: string) returns (driver: nat, done: nat)
      requires name in workers
      modifies this
      ensures Abs() == Drain(old(Abs()), {name})
      ensures driver == old(workers)[name].driver && done == old(workers)[name].done
    {
      var w := workers[name];
      if w.started {
        cancelled := cancelled + {w.done};
      }
      assert CancelOf(workers, {name}) == if w.started then {w.done} else {};
      driver, done := w.driver, w.done;
      workers := workers - {name};
      current := current - {name};
    }

    /** The first section of Reload. */
    method DrainSection(cfgs: seq<PLC>) returns (order: seq<string>, drivers: seq<nat>, dones: seq<nat>)
      modifies this
      ensures NoDuplicates(order) && ToSet(order) == DrainSet(old(workers), cfgs)
      ensures Abs() == Drain(old(Abs()), ToSet(order))
      ensures |drivers| == |dones| == |order|
      ensures forall i :: 0 <= i < |order| ==>
                order[i] in old(workers) && drivers[i] == old(workers)[order[i]].driver
                && dones[i] == old(workers)[order[i]].done
    {
      order := SelectDrain(cfgs);
      drivers, dones := [], [];
      DrainNone(Abs(), order);
      assert forall j :: 0 <= j < |order| ==> order[j] in ToSet(order);
      assert DrainSet(workers, cfgs) <= workers.Keys;
      hide DrainSet, CancelOf;
      for i := 0 to |order|
        invariant Abs() == Drain(old(Abs()), ToSet(order[..i]))
        invariant |drivers| == |dones| == i
        invariant forall j :: 0 <= j < |order| ==> order[j] in old(workers)
        invariant forall j :: 0 <= j < i ==>
                    drivers[j] == old(workers)[order[j]].driver && dones[j] == old(workers)[order[j]].done
      {
        DrainMore(old(Abs()), order, i);
        var driver, done := TakeOut(order[i]);
        drivers, dones := drivers + [driver], dones + [done];
      }
      assert order[..|order|] == order;
    }

    /** The second section of Reload: entries whose name is missing get a driver and a goroutine. */
    method AddSection(cfgs: seq<PLC>)
      modifies this
      ensures Abs() == AddAll(old(Abs()), cfgs)
    {
      for i := 0 to |cfgs|
        invariant Abs() == AddAll(old(Abs()), cfgs[..i])
      {
        assert cfgs[..i + 1][..i] == cfgs[..i];
        if cfgs[i].name !in workers {
          var driver := next;
          workers := workers[cfgs[i].name := Worker(driver, cfgs[i], driver + 1, true)];
          goroutines := goroutines[driver + 1 := Launch(cfgs[i].name, driver, cfgs[i])];
          next := next + 2;
        }
      }
      assert cfgs[..|cfgs|] == cfgs;
    }

    /** The contexts behind these done channels end, because their parent has. */
    method EndContexts(dones: set<nat>)
      modifies this`cancelled
      ensures cancelled == old(cancelled) + dones
    {
      cancelled := cancelled + dones;
    }

    method StoreTag(u: TagUpdate)
      modifies this`current
      ensures Abs() == old(Abs()).(current := Store(old(current), u))
    {
      var q := if u.quality.Unset? then GoodQuality else u.quality;
      if u.plc !in current {
        current := current[u.plc := map[]];
      }
      current := current[u.plc := current[u.plc][u.tag := TagValue(u.value, u.at, q)]];
    }

    /** CurrentTag reads back exactly what the last StoreTag for the pair wrote. */
    method CurrentTag(plc: string, tag: string) returns (r: Option<TagValue>)
      ensures r == (if tag in TagsOf(current, plc) then Some(TagsOf(current, plc)[tag]) else None)
    {
      if plc !in current {
        return None;
      }
      if tag in current[plc] {
        return Some(current[plc][tag]);
      }
      return None;
    }
  }

  /** NewManager holds its configuration, the last entry of a name winning, and has
      started nothing. */
  lemma {:induction false} NewAllIsByName(cfgs: seq<PLC>)
    ensures var ws := NewAll(EMPTY_CORE, cfgs).workers;
            Configs(ws) == ByName(cfgs) && forall n :: n in ws ==> !ws[n].started
  {
    if cfgs != [] {
      NewAllIsByName(cfgs[..|cfgs| - 1]);
    }
  }

  /** Start changes no configuration. */
  lemma {:induction false} StartKeepsConfigs(c: Core, order: seq<string>)
    requires ToSet(order) <= c.workers.Keys
    ensures Configs(StartAll(c, order).workers) == Configs(c.workers)
  {
    if order != [] {
      var n := |order| - 1;
      assert order == order[..n] + [order[n]];
      assert ToSet(order[..n]) <= ToSet(order) && order[n] in ToSet(order);
      StartKeepsConfigs(c, order[..n]);
      assert StartAll(c, order) == StartOne(StartAll(c, order[..n]), order[n]);
    }
  }

  lemma StartMore(c: Core, order: seq<string>, name: string)
    requires NoDuplicates(order) && ToSet(order) <= c.workers.Keys && name in c.workers && name !in ToSet(order)
    ensures NoDuplicates(order + [name]) && ToSet(order + [name]) == ToSet(order) + {name}
    ensures StartAll(c, order + [name]) == StartOne(StartAll(c, order), name)
  {
    assert (order + [name])[..|order|] == order;
  }

  lemma DrainNone(c: Core, order: seq<string>)
    ensures Drain(c, ToSet(order[..0])) == c
  {
    assert ToSet(order[..0]) == {} && CancelOf(c.workers, {}) == {};
    assert c.workers - {} == c.workers && c.current - {} == c.current;
  }

  lemma DrainMore(c: Core, order: seq<string>, i: nat)
    requires NoDuplicates(order) && i < |order| && order[i] in c.workers
    ensures order[i] in Drain(c, ToSet(order[..i])).workers
    ensures Drain(c, ToSet(order[..i])).workers[order[i]] == c.workers[order[i]]
    ensures Drain(c, ToSet(order[..i + 1])) == Drain(Drain(c, ToSet(order[..i])), {order[i]})
  {
    var done, name := ToSet(order[..i]), order[i];
    assert name !in done;
    assert ToSet(order[..i + 1]) == done + {name};
    assert c.workers - (done + {name}) == c.workers - done - {name};
    assert c.current - (done + {name}) == c.current - done - {name};
    assert CancelOf(c.workers, done + {name}) == CancelOf(c.workers, done) + CancelOf(c.workers - done, {name});
  }

  /** What storeTag stores is what CurrentTag finds, and no other pair changes. */
  lemma StoreThenRead(current: map<string, map<string, TagValue>>, u: TagUpdate, plc: string, tag: string)
    ensures var r := TagsOf(Store(current, u), plc);
            if plc == u.plc && tag == u.tag then
              tag in r && r[tag].value == u.value && r[tag].at == u.at
              && r[tag].quality == (if u.quality.Unset? then GoodQuality else u.quality)
            else
              (tag in r <==> tag in TagsOf(current, plc)) && (tag in r ==> r[tag] == TagsOf(current, plc)[tag])
  {
  }
}
