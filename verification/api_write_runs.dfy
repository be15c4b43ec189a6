/** Every driver write of a run has its reason, in the configuration and in the history
    of the rules. */
module ApiWriteRuns {
  import opened Base
  import opened Scalars
  import AclStore
  import AclHistory
  import PlcManager
  import opened ApiWrite

  /** What the write paths read. The rules are given by their edits since the table was
      empty. */
  datatype World = World(plcs: map<string, PLC>, workers: map<string, PlcManager.Worker>, edits: seq<AclStore.Edit>)

  /** A whole step: an attempt, an edit of the rules, or a change of the PLC store and
      the manager. */
  datatype Event =
    | HttpWrite(plc: string, tag: string, body: Option<Scalar>, actor: Actor, f: Faults)
    | DcmdWrite(device: string, tag: string, value: Scalar, f: Faults)
    | EditRules(e: AclStore.Edit)
    | EditPlcs(plcs: map<string, PLC>, workers: map<string, PlcManager.Worker>)

  /** One step of a run, with what it left behind. */
  datatype Entry = Entry(before: World, event: Event, effect: Effect)

  ghost function Permissions(w: World): map<AclStore.Key, bool> {
    AclHistory.TablesOk(w.edits, |w.edits|);
    AclStore.Grants(AclHistory.At(w.edits, |w.edits|))
  }

  ghost function EffectOf(w: World, e: Event): Effect {
    match e
    case HttpWrite(plc, tag, body, actor, f) => HttpEffect(w.plcs, Permissions(w), w.workers, plc, tag, body, actor, f)
    case DcmdWrite(device, tag, value, f) => DcmdEffect(w.plcs, w.workers, device, tag, value, f)
    case _ => Effect(Ok, [], [])
  }

  function Next(w: World, e: Event): World {
    match e
    case EditRules(edit) => w.(edits := w.edits + [edit])
    case EditPlcs(plcs, workers) => w.(plcs := plcs, workers := workers)
    case _ => w
  }

  /** A run from an empty rule table. */
  ghost predicate IsRun(run: seq<Entry>) {
    && (run != [] ==> run[0].before.edits == [])
    && (forall i :: 0 <= i < |run| ==> run[i].effect == EffectOf(run[i].before, run[i].event))
    && (forall i :: 0 <= i < |run| - 1 ==> run[i + 1].before == Next(run[i].before, run[i].event))
  }

  /** The tag is configured and writable: the master switch of both ways. */
  predicate Writable(w: World, plc: string, tag: string) {
    TagOf(w.plcs, plc, tag).Some? && TagOf(w.plcs, plc, tag).value.writable
  }

  /** Some step of the run before i granted exactly this key, and no step from then to i
      revoked it. */
  ghost predicate Granted(run: seq<Entry>, i: nat, key: AclStore.Key)
    requires i < |run|
  {
    exists g: nat :: AclHistory.Provenance(run[i].before.edits, |run[i].before.edits|, key, g)
  }

  /** The edits a step sees are those of the run before it, in order. */
  function EditsBefore(run: seq<Entry>, i: nat): seq<AclStore.Edit>
    requires i <= |run|
  {
    if i == 0 then []
    else EditsBefore(run, i - 1) + (if run[i - 1].event.EditRules? then [run[i - 1].event.e] else [])
  }

  lemma {:induction false} WorldHasEdits(run: seq<Entry>, i: nat)
    requires IsRun(run) && i < |run|
    ensures run[i].before.edits == EditsBefore(run, i)
  {
    hide EffectOf;
    if i > 0 {
      WorldHasEdits(run, i - 1);
      assert run[i - 1 + 1].before == Next(run[i - 1].before, run[i - 1].event);
    }
  }

  /** In every run an HTTP attempt calls a driver if and only if its body was decoded, no
      lookup failed, the tag is writable, the PLC has a worker, and the unique row of
      (role, plc, tag) allows it, which means that an earlier step of the run granted that
      row and none since has revoked it. It then calls the driver of that PLC's worker,
      once, with the tag and the value of the request. */
  lemma HttpWritesAreJustified(run: seq<Entry>, i: nat)
    requires IsRun(run) && i < |run| && run[i].event.HttpWrite?
    ensures var w, e, eff := run[i].before, run[i].event, run[i].effect;
            var key := AclStore.Key(e.actor.role, e.plc, e.tag);
            && w.edits == EditsBefore(run, i)
            && (eff.writes != [] <==>
                  && e.body.Some? && !e.f.get && !e.f.meta && !e.f.acl
                  && Writable(w, e.plc, e.tag) && e.plc in w.workers && Granted(run, i, key))
            && (eff.writes != [] ==> eff.writes == [DriverWrite(e.plc, w.workers[e.plc].driver, e.tag, e.body.value)])
  {
    var w, e := run[i].before, run[i].event;
    WorldHasEdits(run, i);
    var key := AclStore.Key(e.actor.role, e.plc, e.tag);
    AclHistory.PermissionHasProvenance(w.edits, |w.edits|, key);
    hide AclHistory.Provenance, AclHistory.At, AclStore.Grants, AclStore.TableOk, TagOf, EditsBefore;
  }

  // ----- one attempt -----

  /** A DCMD, in whatever world, calls a driver if and only if no lookup failed, the tag
      is both writable and enabled for DCMD, and the PLC has a worker. No rule matters, so
      this needs no run: it is what the guard's decision lets through. */
  lemma DcmdWritesAreJustified(w: World, device: string, tag: string, value: Scalar, f: Faults)
    ensures var writes := EffectOf(w, DcmdWrite(device, tag, value, f)).writes;
            && (writes != [] <==>
                  && !f.meta && Writable(w, device, tag)
                  && TagOf(w.plcs, device, tag).value.dcmdEnabled && device in w.workers)
            && (writes != [] ==> writes == [DriverWrite(device, w.workers[device].driver, tag, value)])
  {
    hide TagOf;
  }

  /** A case split over one event, whatever the run: only attempts write or log. An
      attempt that reaches the guard logs exactly one event, whose outcome is allow if and
      only if the driver was called and succeeded; an HTTP attempt that does not reach it
      logs nothing. */
  lemma OneAuditEventPerAttempt(w: World, e: Event)
    ensures var eff := EffectOf(w, e);
            match e
            case HttpWrite(plc, tag, body, actor, f) =>
              && |eff.audit| == (if ReachesGuard(w.plcs, plc, tag, body, f) then 1 else 0)
              && (eff.audit != [] ==>
                    && eff.audit[0].source == Http && eff.audit[0].username == actor.username
                    && eff.audit[0].plc == plc && eff.audit[0].tag == tag
                    && (eff.audit[0].allowed <==> eff.writes != [] && !f.driver)
                    && (eff.audit[0].allowed <==> eff.reply == Ok))
            case DcmdWrite(device, tag, value, f) =>
              && |eff.audit| == 1 && eff.audit[0].source == Dcmd && eff.audit[0].username == ""
              && eff.audit[0].plc == device && eff.audit[0].tag == tag
              && (eff.audit[0].allowed <==> eff.writes != [] && !f.driver)
            case _ => eff.writes == [] && eff.audit == []
  {
    hide TagOf, Permissions;
  }

  // ----- the log of a run -----

  /** The audit log of a run. */
  function LogOf(run: seq<Entry>): seq<AuditEvent> {
    if run == [] then []
    else
      var n := |run| - 1;
      LogOf(run[..n]) + run[n].effect.audit
  }

  /** PLC, tag and value of the events with outcome allow, in order. */
  function Told(log: seq<AuditEvent>): seq<(string, string, Scalar)> {
    if log == [] then []
    else
      var n := |log| - 1;
      Told(log[..n]) + (if log[n].allowed then [(log[n].plc, log[n].tag, log[n].value)] else [])
  }

  predicate DriverFails(e: Event) {
    (e.HttpWrite? || e.DcmdWrite?) && e.f.driver
  }

  function Calls(writes: seq<DriverWrite>): seq<(string, string, Scalar)> {
    seq(|writes|, i requires 0 <= i < |writes| => (writes[i].plc, writes[i].tag, writes[i].value))
  }

  /** PLC, tag and value of the driver calls of a run that succeeded, in order. */
  function Performed(run: seq<Entry>): seq<(string, string, Scalar)> {
    if run == [] then []
    else
      var n := |run| - 1;
      Performed(run[..n]) + (if DriverFails(run[n].event) then [] else Calls(run[n].effect.writes))
  }

  lemma {:induction false} ToldOn(log: seq<AuditEvent>, more: seq<AuditEvent>)
    requires |more| <= 1
    ensures Told(log + more) == Told(log) + Told(more)
  {
    if more == [] {
      assert log + more == log;
    } else {
      assert (log + more)[..|log|] == log && more[..0] == [];
    }
  }

  lemma AttemptTellsWrite(w: World, e: Event)
    ensures var eff := EffectOf(w, e);
            && |eff.audit| <= 1 && Told(eff.audit) == (if DriverFails(e) then [] else Calls(eff.writes))
            && forall d :: d in eff.writes ==> d.plc in w.workers && d.driver == w.workers[d.plc].driver
  {
    hide TagOf, Permissions;
    var audit := EffectOf(w, e).audit;
    if audit != [] {
      assert audit[..0] == [];
    }
  }

  ghost predicate Effective(run: seq<Entry>) {
    forall i :: 0 <= i < |run| ==> run[i].effect == EffectOf(run[i].before, run[i].event)
  }

  lemma {:induction false} LogTells(run: seq<Entry>)
    requires Effective(run)
    ensures Told(LogOf(run)) == Performed(run)
    decreases |run|
  {
    hide EffectOf;
    if run != [] {
      var n := |run| - 1;
      LogTells(run[..n]);
      AttemptTellsWrite(run[n].before, run[n].event);
      ToldOn(LogOf(run[..n]), run[n].effect.audit);
    }
  }

  /** The audit log of every run, read for its allow events alone, is the list of the
      driver calls that succeeded, over HTTP or by DCMD, in order, by PLC, tag and value:
      none is missing from the log, and the log claims none that was not made. And each
      call went to the driver of the worker that its PLC had at that step. */
  lemma LogTellsWrites(run: seq<Entry>)
    requires IsRun(run)
    ensures Told(LogOf(run)) == Performed(run)
    ensures forall i, d :: 0 <= i < |run| && d in run[i].effect.writes ==>
              var workers := run[i].before.workers;
              d.plc in workers && d.driver == workers[d.plc].driver
  {
    hide EffectOf, Told, LogOf, Performed, Next;
    LogTells(run);
    forall i, d | 0 <= i < |run| && d in run[i].effect.writes
      ensures d.plc in run[i].before.workers && d.driver == run[i].before.workers[d.plc].driver
    {
      AttemptTellsWrite(run[i].before, run[i].event);
    }
  }
}
