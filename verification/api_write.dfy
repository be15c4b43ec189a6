/** internal/writeguard/guard.go and internal/server/api_write.go: the two ways to write a
    tag, HTTP and Sparkplug DCMD, as whole steps. */
module ApiWrite {
  import opened Base
  import opened Scalars
  import AclStore
  import PlcManager
  import PlcStoreClass

  // ----- the guard -----

  datatype Reason = NotWritable | AclDeny | DcmdNotEnabled | WriteError | NoReason

  datatype Decision = Decision(allowed: bool, reason: Reason)

  datatype TagMeta = TagMeta(writable: bool, dcmdEnabled: bool)

  /** AuthorizeHTTP: `meta` is the reader's answer, `acl` the store's, None for an error. */
  function AuthorizeHttp(meta: Option<TagMeta>, acl: Option<bool>): Decision {
    if meta.None? || !meta.value.writable then Decision(false, NotWritable)
    else if acl.None? || !acl.value then Decision(false, AclDeny)
    else Decision(true, NoReason)
  }

  /** AuthorizeDCMD, which has no caller and consults no rules. */
  function AuthorizeDcmd(meta: Option<TagMeta>): Decision {
    if meta.None? || !meta.value.writable then Decision(false, NotWritable)
    else if !meta.value.dcmdEnabled then Decision(false, DcmdNotEnabled)
    else Decision(true, NoReason)
  }

  // ----- what an attempt leaves behind -----

  /** A call of a driver: for which PLC, on which driver, with what. */
  datatype DriverWrite = DriverWrite(plc: string, driver: nat, tag: string, value: Scalar)

  datatype Source = Http | Dcmd

  datatype AuditEvent = AuditEvent(
    plc: string, tag: string, value: Scalar, allowed: bool, reason: Reason, source: Source, username: string)

  datatype Reply = Ok | BadRequest | NotFound | InternalError | Forbidden | WriteFailed

  /** The claims of the caller; no claims leave both empty. */
  datatype Actor = Actor(username: string, role: string)

  /** Which of the lookups and the driver call fail. */
  datatype Faults = Faults(get: bool, meta: bool, acl: bool, driver: bool)

  /** The tag of that name in a list, the first one if there were several. */
  function FindTag(tags: seq<TagDef>, name: string): Option<TagDef> {
    if tags == [] then None
    else if tags[0].name == name then Some(tags[0])
    else FindTag(tags[1..], name)
  }

  /** The configured tag, if the store has it. */
  function TagOf(plcs: map<string, PLC>, plc: string, tag: string): Option<TagDef> {
    if plc in plcs then FindTag(plcs[plc].tags, tag) else None
  }

  function MetaOf(t: Option<TagDef>): Option<TagMeta> {
    if t.Some? then Some(TagMeta(t.value.writable, t.value.dcmdEnabled)) else None
  }

  lemma {:induction false} FindTagSteps(tags: seq<TagDef>, name: string, i: nat)
    requires i < |tags| && forall j :: 0 <= j < i ==> tags[j].name != name
    ensures FindTag(tags, name) == FindTag(tags[i..], name)
    decreases i
  {
    if i > 0 {
      FindTagSteps(tags[1..], name, i - 1);
      assert tags[1..][i - 1..] == tags[i..];
    } else {
      assert tags[0..] == tags;
    }
  }

  lemma {:induction false} FindTagNone(tags: seq<TagDef>, name: string)
    requires forall j :: 0 <= j < |tags| ==> tags[j].name != name
    ensures FindTag(tags, name).None?
    decreases |tags|
  {
    if tags != [] {
      FindTagNone(tags[1..], name);
    }
  }

  /** FindTag finds a tag of the name whenever there is one. */
  lemma {:induction false} FindTagFinds(tags: seq<TagDef>, name: string)
    ensures FindTag(tags, name).Some? <==> exists i :: 0 <= i < |tags| && tags[i].name == name
    ensures FindTag(tags, name).Some? ==> FindTag(tags, name).value in tags && FindTag(tags, name).value.name == name
    decreases |tags|
  {
    if tags != [] {
      FindTagFinds(tags[1..], name);
      if i :| 0 <= i < |tags| && tags[i].name == name {
        assert i > 0 ==> tags[1..][i - 1].name == name;
      }
    }
  }

  // ----- the server -----

  class Server {
    const plcs: PlcStoreClass.Store
    const acl: AclStore.Store
    const mgr: PlcManager.Manager
    var writes: seq<DriverWrite>
    var audit: seq<AuditEvent>

    ghost predicate Valid()
      reads this, plcs, acl
    {
      plcs.Valid() && acl.Valid()
    }

    constructor (plcs: PlcStoreClass.Store, acl: AclStore.Store, mgr: PlcManager.Manager)
      requires plcs.Valid() && acl.Valid()
      ensures Valid() && this.plcs == plcs && this.acl == acl && this.mgr == mgr && writes == [] && audit == []
    {
      this.plcs, this.acl, this.mgr := plcs, acl, mgr;
      writes, audit := [], [];
    }

    /** The loop over a PLC's tags, in the handler and in plcstoreTagReader. */
    method Search(tags: seq<TagDef>, name: string) returns (t: Option<TagDef>)
      ensures t == FindTag(tags, name)
    {
      for i := 0 to |tags|
        invariant forall j :: 0 <= j < i ==> tags[j].name != name
      {
        if tags[i].name == name {
          FindTagSteps(tags, name, i);
          return Some(tags[i]);
        }
      }
      FindTagNone(tags, name);
      return None;
    }

    /** plcstoreTagReader.TagMeta */
    method ReadMeta(plc: string, tag: string, fault: bool) returns (meta: Option<TagMeta>)
      requires Valid()
      ensures meta == if fault then None else MetaOf(TagOf(plcs.Plcs(), plc, tag))
    {
      if fault {
        return None;
      }
      var p := plcs.Get(plc);
      if p.None? {
        return None;
      }
      var t := Search(p.value.tags, tag);
      return if t.Some? then Some(TagMeta(t.value.writable, t.value.dcmdEnabled)) else None;
    }

    /** Manager.WriteTag: the driver is called only for a registered PLC. */
    method WriteTag(plc: string, tag: string, value: Scalar, fault: bool) returns (ok: bool)
      modifies this`writes
      ensures ok == (plc in mgr.workers && !fault)
      ensures writes == old(writes)
                        + (if plc in mgr.workers then [DriverWrite(plc, mgr.workers[plc].driver, tag, value)] else [])
    {
      if plc !in mgr.workers {
        return false;
      }
      writes := writes + [DriverWrite(plc, mgr.workers[plc].driver, tag, value)];
      return !fault;
    }

    /** handleWriteTag; `body` is None when decoding fails. */
    method HandleWriteTag(plc: string, tag: string, body: Option<Scalar>, actor: Actor, f: Faults) returns (reply: Reply)
      requires Valid()
      modifies this`writes, this`audit
      ensures Valid()
      ensures var e := HttpEffect(plcs.Plcs(), acl.Permissions(), mgr.workers, plc, tag, body, actor, f);
              reply == e.reply && writes == old(writes) + e.writes && audit == old(audit) + e.audit
      ensures var t, key := TagOf(plcs.Plcs(), plc, tag), AclStore.Key(actor.role, plc, tag);
              var granted := !f.acl && key in acl.Permissions() && acl.Permissions()[key];
              if body.None? then reply == BadRequest && audit == old(audit) && writes == old(writes)
              else if f.get then reply == InternalError && audit == old(audit) && writes == old(writes)
              else if t.None? then reply == NotFound && audit == old(audit) && writes == old(writes)
              else if f.meta || !t.value.writable then
                && reply == Forbidden && writes == old(writes)
                && audit == old(audit) + [AuditEvent(plc, tag, body.value, false, NotWritable, Http, actor.username)]
              else if !granted then
                && reply == Forbidden && writes == old(writes)
                && audit == old(audit) + [AuditEvent(plc, tag, body.value, false, AclDeny, Http, actor.username)]
              else if plc !in mgr.workers || f.driver then
                && reply == WriteFailed && (plc !in mgr.workers ==> writes == old(writes))
                && audit == old(audit) + [AuditEvent(plc, tag, body.value, false, WriteError, Http, actor.username)]
              else
                && reply == Ok && writes == old(writes) + [DriverWrite(plc, mgr.workers[plc].driver, tag, body.value)]
                && audit == old(audit) + [AuditEvent(plc, tag, body.value, true, NoReason, Http, actor.username)]
    {
      HttpEffectIs(plcs.Plcs(), acl.Permissions(), mgr.workers, plc, tag, body, actor, f);
      hide FindTag;
      if body.None? {
        return BadRequest;
      }
      if f.get {
        return InternalError;
      }
      var p := plcs.Get(plc);
      if p.None? {
        return NotFound;
      }
      var found := Search(p.value.tags, tag);
      if found.None? {
        return NotFound;
      }
      var meta := ReadMeta(plc, tag, f.meta);
      var allowed := acl.CanWrite(AclStore.Key(actor.role, plc, tag), f.acl);
      var decision := AuthorizeHttp(meta, allowed);
      if !decision.allowed {
        audit := audit + [AuditEvent(plc, tag, body.value, false, decision.reason, Http, actor.username)];
        return Forbidden;
      }
      var ok := WriteTag(plc, tag, body.value, f.driver);
      if !ok {
        audit := audit + [AuditEvent(plc, tag, body.value, false, WriteError, Http, actor.username)];
        return WriteFailed;
      }
      audit := audit + [AuditEvent(plc, tag, body.value, true, NoReason, Http, actor.username)];
      return Ok;
    }

    /** The handler of SparkplugCommandHandler for one metric of a DCMD: the device is the
        PLC of that name, and there is no user. */
    method Command(device: string, tag: string, value: Scalar, f: Faults)
      requires Valid()
      modifies this`writes, this`audit
      ensures Valid()
      ensures var e := DcmdEffect(plcs.Plcs(), mgr.workers, device, tag, value, f);
              writes == old(writes) + e.writes && audit == old(audit) + e.audit
      ensures var t := TagOf(plcs.Plcs(), device, tag);
              if f.meta || t.None? || !t.value.writable then
                writes == old(writes) && audit == old(audit) + [AuditEvent(device, tag, value, false, NotWritable, Dcmd, "")]
              else if !t.value.dcmdEnabled then
                writes == old(writes) && audit == old(audit) + [AuditEvent(device, tag, value, false, DcmdNotEnabled, Dcmd, "")]
              else if device !in mgr.workers || f.driver then
                && (device !in mgr.workers ==> writes == old(writes))
                && audit == old(audit) + [AuditEvent(device, tag, value, false, WriteError, Dcmd, "")]
              else
                && writes == old(writes) + [DriverWrite(device, mgr.workers[device].driver, tag, value)]
                && audit == old(audit) + [AuditEvent(device, tag, value, true, NoReason, Dcmd, "")]
    {
      DcmdEffectIs(plcs.Plcs(), mgr.workers, device, tag, value, f);
      hide FindTag;
      var meta := ReadMeta(device, tag, f.meta);
      var decision := AuthorizeDcmd(meta);
      if !decision.allowed {
        audit := audit + [AuditEvent(device, tag, value, false, decision.reason, Dcmd, "")];
        return;
      }
      var ok := WriteTag(device, tag, value, f.driver);
      if !ok {
        audit := audit + [AuditEvent(device, tag, value, false, WriteError, Dcmd, "")];
        return;
      }
      audit := audit + [AuditEvent(device, tag, value, true, NoReason, Dcmd, "")];
    }
  }

  /** The reply of an attempt, the driver calls it makes and the events it logs. */
  datatype Effect = Effect(reply: Reply, writes: seq<DriverWrite>, audit: seq<AuditEvent>)

  /** What follows a decision of the guard. */
  function Carry(
    workers: map<string, PlcManager.Worker>, plc: string, tag: string, value: Scalar, d: Decision, driverFault: bool,
    source: Source, username: string): Effect
  {
    var ws := if d.allowed && plc in workers then [DriverWrite(plc, workers[plc].driver, tag, value)] else [];
    if !d.allowed then Effect(Forbidden, ws, [AuditEvent(plc, tag, value, false, d.reason, source, username)])
    else if plc !in workers || driverFault then
      Effect(WriteFailed, ws, [AuditEvent(plc, tag, value, false, WriteError, source, username)])
    else Effect(Ok, ws, [AuditEvent(plc, tag, value, true, NoReason, source, username)])
  }

  /** An HTTP attempt that gets as far as the guard. */
  predicate ReachesGuard(plcs: map<string, PLC>, plc: string, tag: string, body: Option<Scalar>, f: Faults) {
    body.Some? && !f.get && TagOf(plcs, plc, tag).Some?
  }

  ghost function HttpEffect(
    plcs: map<string, PLC>, permissions: map<AclStore.Key, bool>, workers: map<string, PlcManager.Worker>,
    plc: string, tag: string, body: Option<Scalar>, actor: Actor, f: Faults): Effect
  {
    if !ReachesGuard(plcs, plc, tag, body, f) then
      Effect(if body.None? then BadRequest else if f.get then InternalError else NotFound, [], [])
    else
      var meta := if f.meta then None else MetaOf(TagOf(plcs, plc, tag));
      var key := AclStore.Key(actor.role, plc, tag);
      var allowed := if f.acl then None else Some(key in permissions && permissions[key]);
      Carry(workers, plc, tag, body.value, AuthorizeHttp(meta, allowed), f.driver, Http, actor.username)
  }

  ghost function DcmdEffect(
    plcs: map<string, PLC>, workers: map<string, PlcManager.Worker>, device: string, tag: string, value: Scalar, f: Faults): Effect
  {
    var meta := if f.meta then None else MetaOf(TagOf(plcs, device, tag));
    Carry(workers, device, tag, value, AuthorizeDcmd(meta), f.driver, Dcmd, "")
  }

  /** An HTTP attempt, lookup by lookup. */
  lemma HttpEffectIs(
    plcs: map<string, PLC>, permissions: map<AclStore.Key, bool>, workers: map<string, PlcManager.Worker>,
    plc: string, tag: string, body: Option<Scalar>, actor: Actor, f: Faults)
    ensures var e := HttpEffect(plcs, permissions, workers, plc, tag, body, actor, f);
            var t, key := TagOf(plcs, plc, tag), AclStore.Key(actor.role, plc, tag);
            if body.None? then e == Effect(BadRequest, [], [])
            else if f.get then e == Effect(InternalError, [], [])
            else if t.None? then e == Effect(NotFound, [], [])
            else
              var event := AuditEvent(plc, tag, body.value, false, NoReason, Http, actor.username);
              var call := if plc in workers then [DriverWrite(plc, workers[plc].driver, tag, body.value)] else [];
              if f.meta || !t.value.writable then e == Effect(Forbidden, [], [event.(reason := NotWritable)])
              else if f.acl || key !in permissions || !permissions[key] then
                e == Effect(Forbidden, [], [event.(reason := AclDeny)])
              else if plc !in workers || f.driver then e == Effect(WriteFailed, call, [event.(reason := WriteError)])
              else e == Effect(Ok, call, [event.(allowed := true)])
  {
    hide TagOf;
  }

  /** One metric of a DCMD, lookup by lookup. */
  lemma DcmdEffectIs(
    plcs: map<string, PLC>, workers: map<string, PlcManager.Worker>, device: string, tag: string, value: Scalar, f: Faults)
    ensures var e, t := DcmdEffect(plcs, workers, device, tag, value, f), TagOf(plcs, device, tag);
            var event := AuditEvent(device, tag, value, false, NoReason, Dcmd, "");
            var call := if device in workers then [DriverWrite(device, workers[device].driver, tag, value)] else [];
            if f.meta || t.None? || !t.value.writable then e.writes == [] && e.audit == [event.(reason := NotWritable)]
            else if !t.value.dcmdEnabled then e.writes == [] && e.audit == [event.(reason := DcmdNotEnabled)]
            else if device !in workers || f.driver then e.writes == call && e.audit == [event.(reason := WriteError)]
            else e.writes == call && e.audit == [event.(allowed := true)]
  {
    hide TagOf;
  }
}
