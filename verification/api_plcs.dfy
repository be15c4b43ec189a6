/** internal/server/api_plcs.go: requests that write the PLC store and then reload the
    manager from it. Decoding and validation of a body are one flag: a request whose
    body fails either carries None. */
module ApiPlcs {
  import opened Base
  import PlcManager
  import PlcStore
  import opened PlcStoreClass
  import opened ManagerTheorems

  type Workers = map<string, PlcManager.Worker>

  datatype Request =
    | CreatePlc(body: Option<PLC>)
    | UpdatePlc(name: string, body: Option<PLC>)
    | DeletePlc(name: string)

  datatype Reply =
    | BadRequest
    | NotFound
    | Conflict
    | InternalError
    | Created(plc: PLC)
    | Updated(plc: PLC)
    | NoContent

  datatype AuditEvent = AuditEvent(action: string, detail: string)

  // ----- Reload with a listing of the store -----

  /** After a Reload with the store's listing the manager has exactly the store's
      entries. */
  lemma ListingInstalled(before: Workers, cfgs: seq<PLC>, after: Workers, m: map<string, PLC>)
    requires Lists(cfgs, m) && Installed(before, cfgs, after)
    ensures PlcManager.Configs(after) == m
  {
    hide SortedByName, FirstOf;
    forall n | n in after
      ensures after[n].cfg == m[n]
    {
      ByNameEntry(cfgs, n);
      assert FirstOf(cfgs, n) in cfgs;
    }
  }

  /** A worker whose entry the store still has keeps its driver and its done channel. */
  lemma ListingKeeps(before: Workers, cfgs: seq<PLC>, after: Workers, m: map<string, PLC>, n: string)
    requires Lists(cfgs, m) && Installed(before, cfgs, after)
    requires n in before && n in m && m[n] == before[n].cfg
    ensures n in after && after[n] == before[n]
  {
    hide SortedByName, FirstOf;
    ByNameEntry(cfgs, n);
  }

  lemma {:induction false} AddedAreStarted(c: PlcManager.Core, cfgs: seq<PLC>)
    ensures forall n :: n in PlcManager.AddAll(c, cfgs).workers && n !in c.workers ==>
              PlcManager.AddAll(c, cfgs).workers[n].started
  {
    if cfgs != [] {
      AddedAreStarted(c, cfgs[..|cfgs| - 1]);
    }
  }

  lemma {:induction false} SectionsKeepStopped(c: PlcManager.Core, names: set<string>, cfgs: seq<PLC>)
    ensures PlcManager.AddAll(PlcManager.Drain(c, names), cfgs).stopped == c.stopped
  {
    if cfgs != [] {
      SectionsKeepStopped(c, names, cfgs[..|cfgs| - 1]);
    }
  }

  lemma SectionsInstall(c: PlcManager.Core, cfgs: seq<PLC>)
    ensures Installed(c.workers, cfgs,
                      PlcManager.AddAll(PlcManager.Drain(c, PlcManager.DrainSet(c.workers, cfgs)), cfgs).workers)
  {
    var d := PlcManager.Drain(c, PlcManager.DrainSet(c.workers, cfgs));
    AddAllNames(d, cfgs);
    AddedAreStarted(d, cfgs);
    if DistinctNames(cfgs) {
      forall i | 0 <= i < |cfgs|
        ensures PlcManager.AddAll(d, cfgs).workers[cfgs[i].name].cfg == cfgs[i]
      {
        DistinctEntries(cfgs, i);
        assert cfgs[i].name in PlcNames(cfgs);
      }
    }
  }

  // ----- the handlers -----

  /** The done channels of the workers that a Reload launched. */
  function Launched(before: Workers, after: Workers): set<nat> {
    set n | n in after && (n !in before || after[n] != before[n]) :: after[n].done
  }

  /** Server, with the manager's Reload as its two critical sections in sequence: the
      wait between them changes no worker entry (ManagerTheorems.BetweenSections). Reload
      gets the request's context as the parent of the workers it launches, and net/http
      ends that context when the handler has returned; the handlers below end with that. */
  class Server {
    const store: Store
    const mgr: PlcManager.Manager
    var audit: seq<AuditEvent>

    ghost predicate Valid()
      reads this, store, mgr
    {
      store.Valid()
    }

    constructor (store: Store, mgr: PlcManager.Manager)
      requires store.Valid()
      ensures Valid() && this.store == store && this.mgr == mgr && audit == []
    {
      this.store, this.mgr, audit := store, mgr, [];
    }

    /** reloadPLCsFromStore: a failed List leaves the manager alone. */
    method ReloadFromStore(listFault: bool)
      requires Valid()
      modifies mgr
      ensures Valid() && mgr.stopped == old(mgr.stopped)
      ensures listFault || mgr.stopped ==> mgr.workers == old(mgr.workers)
      ensures !listFault && !mgr.stopped ==> Reloaded(old(mgr.workers), mgr.workers, store.Plcs())
    {
      hide Reloaded, Lists, Installed, PlcManager.Configs, PlcStore.View, PlcStore.DbOk;
      hide PlcManager.Drain, PlcManager.AddAll, PlcManager.DrainSet, ByName;
      if listFault {
        return;
      }
      var cfgs := store.List();
      if mgr.stopped {
        return;
      }
      ghost var before := mgr.Abs();
      var order, drivers, dones := mgr.DrainSection(cfgs);
      mgr.AddSection(cfgs);
      SectionsInstall(before, cfgs);
      SectionsKeepStopped(before, ToSet(order), cfgs);
      ListingReloads(before.workers, cfgs, mgr.workers, store.Plcs());
    }

    method HandleCreate(body: Option<PLC>, fault: Option<nat>, listFault: bool, getFault: bool) returns (reply: Reply)
      requires Valid()
      modifies this, store, mgr
      ensures Valid() && mgr.stopped == old(mgr.stopped)
      ensures Answers(reply, CreatePlc(body), old(store.Plcs()), store.Plcs(), fault)
      ensures Launched(old(mgr.workers), mgr.workers) <= mgr.cancelled
      ensures audit == old(audit) + Audited(reply, CreatePlc(body))
      ensures audit == old(audit) + if reply.Created? then [AuditEvent("plc.create", body.value.name)] else []
      ensures !Committed(reply) || listFault || mgr.stopped ==> mgr.workers == old(mgr.workers)
      ensures Committed(reply) && !listFault && !mgr.stopped ==>
                Reloaded(old(mgr.workers), mgr.workers, store.Plcs())
    {
      hide Reloaded, PlcStore.View, PlcStore.DbOk, PlcStore.DistinctTags;
      match body
      case None => return BadRequest;
      case Some(p) =>
        var r := store.Create(p, fault);
        if r != PlcStore.Done {
          return if r == PlcStore.AlreadyExists then Conflict else InternalError;
        }
        audit := audit + [AuditEvent("plc.create", p.name)];
        var before := mgr.workers;
        ReloadFromStore(listFault);
        var stored := Echo(p, getFault);
        EndRequest(before);
        return Created(stored);
    }

    method HandleUpdate(name: string, body: Option<PLC>, fault: Option<nat>, listFault: bool, getFault: bool)
      returns (reply: Reply)
      requires Valid()
      modifies this, store, mgr
      ensures Valid() && mgr.stopped == old(mgr.stopped)
      ensures Answers(reply, UpdatePlc(name, body), old(store.Plcs()), store.Plcs(), fault)
      ensures Launched(old(mgr.workers), mgr.workers) <= mgr.cancelled
      ensures audit == old(audit) + Audited(reply, UpdatePlc(name, body))
      ensures audit == old(audit) + if reply.Updated? then [AuditEvent("plc.update", name)] else []
      ensures !Committed(reply) || listFault || mgr.stopped ==> mgr.workers == old(mgr.workers)
      ensures Committed(reply) && !listFault && !mgr.stopped ==>
                Reloaded(old(mgr.workers), mgr.workers, store.Plcs())
    {
      hide Reloaded, PlcStore.View, PlcStore.DbOk, PlcStore.DistinctTags;
      match body
      case None => return BadRequest;
      case Some(p) =>
        var r := store.Update(name, p, fault);
        if r != PlcStore.Done {
          return match r
            case NotFound => NotFound
            case AlreadyExists => Conflict
            case _ => InternalError;
        }
        audit := audit + [AuditEvent("plc.update", name)];
        var before := mgr.workers;
        ReloadFromStore(listFault);
        var stored := Echo(p, getFault);
        EndRequest(before);
        return Updated(stored);
    }

    method HandleDelete(name: string, fault: Option<nat>, listFault: bool) returns (reply: Reply)
      requires Valid()
      modifies this, store, mgr
      ensures Valid() && mgr.stopped == old(mgr.stopped)
      ensures Answers(reply, DeletePlc(name), old(store.Plcs()), store.Plcs(), fault)
      ensures Launched(old(mgr.workers), mgr.workers) <= mgr.cancelled
      ensures audit == old(audit) + Audited(reply, DeletePlc(name))
      ensures audit == old(audit) + if reply.NoContent? then [AuditEvent("plc.delete", name)] else []
      ensures !Committed(reply) || listFault || mgr.stopped ==> mgr.workers == old(mgr.workers)
      ensures Committed(reply) && !listFault && !mgr.stopped ==>
                Reloaded(old(mgr.workers), mgr.workers, store.Plcs())
    {
      hide Reloaded, PlcStore.View, PlcStore.DbOk, PlcStore.DistinctTags;
      var r := store.Delete(name, fault);
      if r != PlcStore.Done {
        return if r == PlcStore.NotFound then NotFound else InternalError;
      }
      audit := audit + [AuditEvent("plc.delete", name)];
      var before := mgr.workers;
      ReloadFromStore(listFault);
      EndRequest(before);
      return NoContent;
    }

    /** The request's context ends, and with it that of every worker launched since. */
    method EndRequest(before: Workers)
      modifies mgr`cancelled
      ensures mgr.cancelled == old(mgr.cancelled) + Launched(before, mgr.workers)
    {
      mgr.EndContexts(Launched(before, mgr.workers));
    }

    /** The echo of a stored entry is the request's own body, whether or not Get fails. */
    method Echo(p: PLC, getFault: bool) returns (stored: PLC)
      requires Valid() && p.name in store.Plcs() && store.Plcs()[p.name] == p
      ensures stored == p
    {
      if getFault {
        return p;
      }
      var got := store.Get(p.name);
      return match got case Some(q) => q case None => p;
    }
  }

  /** The manager holds the store's map, and every worker whose entry is in that map
      as it was configured is the same worker. */
  ghost predicate Reloaded(before: Workers, after: Workers, m: map<string, PLC>) {
    && PlcManager.Configs(after) == m
    && forall n :: n in before && n in m && m[n] == before[n].cfg ==> n in after && after[n] == before[n]
  }

  lemma ListingReloads(before: Workers, cfgs: seq<PLC>, after: Workers, m: map<string, PLC>)
    requires Lists(cfgs, m) && Installed(before, cfgs, after)
    ensures Reloaded(before, after, m)
  {
    hide Lists, Installed;
    ListingInstalled(before, cfgs, after, m);
    forall n | n in before && n in m && m[n] == before[n].cfg
      ensures n in after && after[n] == before[n]
    {
      ListingKeeps(before, cfgs, after, m, n);
    }
  }

  predicate Committed(reply: Reply) {
    reply.Created? || reply.Updated? || reply.NoContent?
  }

  function Audited(reply: Reply, q: Request): seq<AuditEvent> {
    if !Committed(reply) then []
    else
      match q
      case CreatePlc(Some(p)) => [AuditEvent("plc.create", p.name)]
      case CreatePlc(None) => []
      case UpdatePlc(name, _) => [AuditEvent("plc.update", name)]
      case DeletePlc(name) => [AuditEvent("plc.delete", name)]
  }

  /** What a request is answered when the database behaves. */
  ghost function Promised(m: map<string, PLC>, q: Request): Reply {
    match q
    case CreatePlc(None) => BadRequest
    case UpdatePlc(_, None) => BadRequest
    case CreatePlc(Some(p)) => ReplyTo(CreateOutcome(m, p), Created(p))
    case UpdatePlc(name, Some(p)) => ReplyTo(UpdateOutcome(m, name, p), Updated(p))
    case DeletePlc(name) => ReplyTo(DeleteOutcome(m, name), NoContent)
  }

  /** The replies, from the map and the request alone. */
  lemma RepliesTell(m: map<string, PLC>, q: Request)
    ensures match q
            case CreatePlc(None) => Promised(m, q) == BadRequest
            case UpdatePlc(_, None) => Promised(m, q) == BadRequest
            case CreatePlc(Some(p)) =>
              Promised(m, q) == (if p.name in m then Conflict
                                 else if PlcStore.DistinctTags(p.tags) then Created(p)
                                 else InternalError)
            case UpdatePlc(name, Some(p)) =>
              Promised(m, q) == (if name !in m then NotFound
                                 else if p.name != name && p.name in m then Conflict
                                 else if PlcStore.DistinctTags(p.tags) then Updated(p)
                                 else InternalError)
            case DeletePlc(name) => Promised(m, q) == if name in m then NoContent else NotFound
  {
  }

  ghost function ReplyTo(r: PlcStore.Outcome, done: Reply): Reply {
    match r
    case Done => done
    case NotFound => NotFound
    case AlreadyExists => Conflict
    case Failed => InternalError
  }

  /** The map after a request that committed. */
  ghost function EffectOn(m: map<string, PLC>, q: Request): map<string, PLC> {
    match q
    case CreatePlc(Some(p)) => m[p.name := p]
    case UpdatePlc(name, Some(p)) => (m - {name})[p.name := p]
    case DeletePlc(name) => m - {name}
    case _ => m
  }

  /** The reply and the new map of a request: as promised, or, with a database fault,
      an internal error that changed nothing. */
  ghost predicate Answers(reply: Reply, q: Request, m: map<string, PLC>, m': map<string, PLC>, fault: Option<nat>) {
    && (reply == Promised(m, q) || (fault.Some? && reply == InternalError))
    && m' == (if Committed(reply) then EffectOn(m, q) else m)
  }

  // ----- the server's start -----

  /** NewManager on the store's listing, followed by Start, holds the store's map. */
  lemma BootInstalls(cfgs: seq<PLC>, order: seq<string>, m: map<string, PLC>)
    requires Lists(cfgs, m) && ToSet(order) == PlcManager.NewAll(PlcManager.EMPTY_CORE, cfgs).workers.Keys
    ensures PlcManager.Configs(PlcManager.StartAll(PlcManager.NewAll(PlcManager.EMPTY_CORE, cfgs), order).workers) == m
  {
    var c := PlcManager.NewAll(PlcManager.EMPTY_CORE, cfgs);
    PlcManager.NewAllIsByName(cfgs);
    PlcManager.StartKeepsConfigs(c, order);
    hide SortedByName;
    forall n | n in ByName(cfgs)
      ensures ByName(cfgs)[n] == m[n]
    {
      ByNameEntry(cfgs, n);
    }
    assert ByName(cfgs) == m;
  }

  // ----- runs of requests -----

  /** The store's map, the manager's workers, and whether the manager has been stopped. */
  datatype Sys = Sys(plcs: map<string, PLC>, workers: Workers, stopped: bool)

  /** One request; a change of the configuration file (cmd/lgb/cmd/server.go), which only
      lists and reloads; or the manager's Stop. `fault` and `listOk` are the database's
      choices. */
  datatype Event =
    | Api(q: Request, reply: Reply, fault: Option<nat>, listOk: bool)
    | Watch(listOk: bool)
    | Shutdown

  /** The event ends with a Reload of a successful listing; a stopped manager ignores it. */
  predicate Refreshes(e: Event, stopped: bool) {
    !stopped && match e
                case Api(_, reply, _, listOk) => Committed(reply) && listOk
                case Watch(listOk) => listOk
                case Shutdown => false
  }

  ghost predicate Happens(s: Sys, e: Event, t: Sys) {
    && (match e
        case Api(q, reply, fault, _) => Answers(reply, q, s.plcs, t.plcs, fault)
        case _ => t.plcs == s.plcs)
    && (if Refreshes(e, s.stopped) then Reloaded(s.workers, t.workers, t.plcs) else t.workers == s.workers)
    && t.stopped == (s.stopped || e.Shutdown?)
  }

  ghost predicate IsHistory(states: seq<Sys>, events: seq<Event>) {
    && |states| == |events| + 1 && !states[0].stopped
    && forall i :: 0 <= i < |events| ==> Happens(states[i], events[i], states[i + 1])
  }

  /** The server has started: its manager was made from a listing of the store. */
  ghost predicate Booted(s: Sys, cfgs: seq<PLC>, order: seq<string>) {
    var c := PlcManager.NewAll(PlcManager.EMPTY_CORE, cfgs);
    Lists(cfgs, s.plcs) && ToSet(order) == c.workers.Keys && s.workers == PlcManager.StartAll(c, order).workers
  }

  // ----- agreement, in terms of the events -----

  function CommittedBy(e: Event): seq<Request> {
    if e.Api? && Committed(e.reply) then [e.q] else []
  }

  function StoppedBy(events: seq<Event>): bool {
    exists e :: e in events && e.Shutdown?
  }

  /** The committed requests, in order. */
  function AllCommitted(events: seq<Event>): seq<Request> {
    if events == [] then []
    else AllCommitted(events[..|events| - 1]) + CommittedBy(events[|events| - 1])
  }

  /** Those up to the last event that refreshed the manager, and those since. */
  function Reflected(events: seq<Event>): seq<Request> {
    if events == [] then []
    else
      var n := |events| - 1;
      if Refreshes(events[n], StoppedBy(events[..n])) then AllCommitted(events) else Reflected(events[..n])
  }

  function Unreflected(events: seq<Event>): seq<Request> {
    if events == [] then []
    else
      var n := |events| - 1;
      if Refreshes(events[n], StoppedBy(events[..n])) then []
      else Unreflected(events[..n]) + CommittedBy(events[n])
  }

  /** Requests taking effect on a map, one after the other. */
  ghost function EffectOfAll(m: map<string, PLC>, qs: seq<Request>): map<string, PLC> {
    if qs == [] then m else EffectOn(EffectOfAll(m, qs[..|qs| - 1]), qs[|qs| - 1])
  }

  lemma {:induction false} EffectsCompose(m: map<string, PLC>, a: seq<Request>, b: seq<Request>)
    ensures EffectOfAll(m, a + b) == EffectOfAll(EffectOfAll(m, a), b)
    decreases |b|
  {
    hide EffectOn;
    if b == [] {
      assert a + b == a;
    } else {
      var n := |b| - 1;
      EffectsCompose(m, a, b[..n]);
      assert (a + b)[..|a + b| - 1] == a + b[..n];
    }
  }

  lemma {:induction false} CommittedSplits(events: seq<Event>)
    ensures AllCommitted(events) == Reflected(events) + Unreflected(events)
  {
    hide Refreshes, StoppedBy, CommittedBy;
    if events != [] {
      CommittedSplits(events[..|events| - 1]);
    }
  }

  /** The two maps of a state, as the events have made them. */
  ghost predicate Explained(m0: map<string, PLC>, events: seq<Event>, s: Sys) {
    && s.plcs == EffectOfAll(m0, AllCommitted(events))
    && PlcManager.Configs(s.workers) == EffectOfAll(m0, Reflected(events))
    && s.stopped == StoppedBy(events)
  }

  lemma ExplainedOneMore(m0: map<string, PLC>, events: seq<Event>, e: Event, s: Sys, t: Sys)
    requires Explained(m0, events, s) && Happens(s, e, t)
    ensures Explained(m0, events + [e], t)
  {
    var all := events + [e];
    assert all[..|events|] == events && all[|events|] == e;
    EffectsCompose(m0, AllCommitted(events), CommittedBy(e));
    OneEffect(s.plcs, CommittedBy(e));
    assert StoppedBy(all) == (StoppedBy(events) || e.Shutdown?) by {
      assert forall x :: x in all <==> x in events || x == e;
    }
    hide EffectOn, EffectOfAll, Promised, PlcManager.Configs;
  }

  lemma OneEffect(m: map<string, PLC>, qs: seq<Request>)
    requires |qs| <= 1
    ensures EffectOfAll(m, qs) == if qs == [] then m else EffectOn(m, qs[0])
  {
    hide EffectOn;
    if qs != [] {
      assert qs[..0] == [];
      assert EffectOfAll(m, qs[..0]) == m;
    }
  }

  lemma {:induction false} HistoryIsExplained(states: seq<Sys>, events: seq<Event>)
    requires IsHistory(states, events) && PlcManager.Configs(states[0].workers) == states[0].plcs
    ensures Explained(states[0].plcs, events, states[|events|])
    decreases |events|
  {
    hide PlcManager.Configs, Happens, Explained;
    if events == [] {
      NothingHappened(states[0]);
    } else {
      var n := |events| - 1;
      assert IsHistory(states[..|events|], events[..n]);
      HistoryIsExplained(states[..|events|], events[..n]);
      assert Happens(states[n], events[n], states[n + 1]);
      ExplainedOneMore(states[0].plcs, events[..n], events[n], states[n], states[n + 1]);
      assert events == events[..n] + [events[n]];
    }
  }

  lemma NothingHappened(s: Sys)
    requires PlcManager.Configs(s.workers) == s.plcs && !s.stopped
    ensures Explained(s.plcs, [], s)
  {
  }

  /** Over any history since the server's start: the store holds what the committed
      requests make of its first content, the manager what those up to the last
      successful refresh make of it; so the two agree if and only if the committed
      requests since then change nothing in the manager's map. */
  lemma AgreeIffPendingChangesNothing(cfgs: seq<PLC>, order: seq<string>, states: seq<Sys>, events: seq<Event>)
    requires IsHistory(states, events) && Booted(states[0], cfgs, order)
    ensures var s, m0 := states[|events|], states[0].plcs;
            var held := PlcManager.Configs(s.workers);
            && s.plcs == EffectOfAll(m0, AllCommitted(events))
            && held == EffectOfAll(m0, Reflected(events))
            && (held == s.plcs <==> EffectOfAll(held, Unreflected(events)) == held)
  {
    BootInstalls(cfgs, order, states[0].plcs);
    HistoryIsExplained(states, events);
    CommittedSplits(events);
    hide EffectOfAll, PlcManager.Configs, IsHistory, Booted;
    EffectsCompose(states[0].plcs, Reflected(events), Unreflected(events));
  }

  /** No List fails, and the manager is not stopped. */
  predicate AlwaysRefreshed(events: seq<Event>) {
    forall e :: e in events ==> !e.Shutdown? && e.listOk
  }

  lemma {:induction false} NothingPending(events: seq<Event>)
    requires AlwaysRefreshed(events)
    ensures Unreflected(events) == []
  {
    if events != [] {
      var n := |events| - 1;
      NothingPending(events[..n]);
      assert !StoppedBy(events[..n]);
      assert events[n] in events;
    }
  }

  /** From the server's start on, as long as no List fails and the manager is not stopped,
      manager and store agree after every request and every configuration change. */
  lemma StoreAndManagerAgree(cfgs: seq<PLC>, order: seq<string>, states: seq<Sys>, events: seq<Event>, i: nat)
    requires IsHistory(states, events) && Booted(states[0], cfgs, order) && AlwaysRefreshed(events)
    requires i < |states|
    ensures PlcManager.Configs(states[i].workers) == states[i].plcs
  {
    assert IsHistory(states[..i + 1], events[..i]);
    AgreeIffPendingChangesNothing(cfgs, order, states[..i + 1], events[..i]);
    NothingPending(events[..i]);
  }

  /** A name that a request can add, change or remove. */
  ghost predicate Touches(e: Event, n: string) {
    match e
    case Watch(_) => false
    case Shutdown => false
    case Api(q, reply, _, _) =>
      Committed(reply) && match q
                          case CreatePlc(body) => body.Some? && body.value.name == n
                          case UpdatePlc(name, body) => name == n || (body.Some? && body.value.name == n)
                          case DeletePlc(name) => name == n
  }

  lemma UntouchedEntryStays(s: Sys, e: Event, t: Sys, n: string)
    requires Happens(s, e, t) && !Touches(e, n)
    ensures (n in t.plcs <==> n in s.plcs) && (n in s.plcs ==> t.plcs[n] == s.plcs[n])
  {
    hide Promised, Reloaded;
  }

  /** A PLC that no committed request names is never restarted: over any history, List
      failures included, it keeps one driver and one done channel. */
  lemma {:induction false} UntouchedNeverRestarts(states: seq<Sys>, events: seq<Event>, n: string)
    requires IsHistory(states, events) && forall e :: e in events ==> !Touches(e, n)
    requires n in states[0].workers && n in states[0].plcs && states[0].workers[n].cfg == states[0].plcs[n]
    ensures var s := states[|events|];
            && n in s.workers && s.workers[n] == states[0].workers[n]
            && n in s.plcs && s.plcs[n] == states[0].plcs[n]
    decreases |events|
  {
    hide Touches, Answers, PlcManager.Configs;
    if events != [] {
      var m := |events| - 1;
      assert IsHistory(states[..|events|], events[..m]);
      UntouchedNeverRestarts(states[..|events|], events[..m], n);
      assert Happens(states[m], events[m], states[m + 1]) && !Touches(events[m], n);
      UntouchedEntryStays(states[m], events[m], states[m + 1], n);
    }
  }
}
