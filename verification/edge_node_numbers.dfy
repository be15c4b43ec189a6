/** Which sequence number a message of the edge node carries: a ledger, user by user, of
    the numbers the tracker has given out and of the messages that carry them. */
module EdgeNodeNumbers {
  import opened Base
  import opened SparkplugState
  import Seq = SparkplugSeq
  import opened EdgeNode
  import opened EdgeNodeInvariants

  /** For which user of the tracker a message is; NDEATH has no number. */
  function UserOf(msg: Msg): Option<User> {
    match msg
    case Nbirth(k, _, _) => Some(ForNbirth(k))
    case Dbirth(k, i, _) => Some(ForDbirth(k, i))
    case Ddata(_, _) => Some(ForData)
    case Ddeath(i, _) => Some(ForDdeath(i))
    case Ndeath(_) => None
  }

  predicate Carries(r: Record, u: User) {
    r.Sent? && UserOf(r.msg) == Some(u)
  }

  predicate Gives(op: Seq.Op<User>, u: User) {
    op.Next? && op.who == u
  }

  /** What is picked from a sequence, in order. */
  function Picked<T>(all: seq<T>, pick: T -> Option<nat>): seq<nat> {
    if all == [] then []
    else
      var n := |all| - 1;
      Picked(all[..n], pick) + (match pick(all[n]) case None => [] case Some(number) => [number])
  }

  lemma PickedGrows<T>(all: seq<T>, last: T, pick: T -> Option<nat>)
    ensures Picked(all + [last], pick)
            == Picked(all, pick) + (match pick(last) case None => [] case Some(number) => [number])
  {
    assert (all + [last])[..|all|] == all;
  }

  /** A picked element stands among what is picked, behind those picked before it. */
  lemma {:induction false} PickedStands<T>(all: seq<T>, pick: T -> Option<nat>, j: nat)
    requires j < |all| && pick(all[j]).Some?
    ensures var r := |Picked(all[..j], pick)|;
            r < |Picked(all, pick)| && Picked(all, pick)[r] == pick(all[j]).value
    decreases |all|
  {
    var n := |all| - 1;
    if j < n {
      PickedStands(all[..n], pick, j);
      assert all[..n][..j] == all[..j];
    }
  }

  lemma PickedInOrder<T>(all: seq<T>, pick: T -> Option<nat>, i: nat, j: nat)
    requires i < j < |all| && pick(all[i]).Some?
    ensures |Picked(all[..i], pick)| < |Picked(all[..j], pick)|
  {
    PickedStands(all[..j], pick, i);
    assert all[..j][..i] == all[..i];
  }

  lemma {:induction false} PickedStems<T>(all: seq<T>, pick: T -> Option<nat>, r: nat) returns (j: nat)
    requires r < |Picked(all, pick)|
    ensures j < |all| && pick(all[j]).Some? && |Picked(all[..j], pick)| == r
    decreases |all|
  {
    var n := |all| - 1;
    if r < |Picked(all[..n], pick)| {
      j := PickedStems(all[..n], pick, r);
      assert all[..n][..j] == all[..j];
    } else {
      j := n;
    }
  }

  function CarriedFor(u: User): Record -> Option<nat> {
    (r: Record) => if Carries(r, u) then Some(r.msg.number) else None
  }

  function GivenTo(u: User): Seq.Op<User> -> Option<nat> {
    (op: Seq.Op<User>) => if Gives(op, u) then Some(op.number) else None
  }

  /** The numbers in the messages for u, published or tried to be, in order. */
  function NumbersIn(log: seq<Record>, u: User): seq<nat> {
    Picked(log, CarriedFor(u))
  }

  /** The numbers that the tracker has given to u, in order. */
  function NumbersOf(ops: seq<Seq.Op<User>>, u: User): seq<nat> {
    Picked(ops, GivenTo(u))
  }

  /** A number taken for a message that is still to be published. */
  function Held(s: Node, u: User): seq<nat> {
    match u
    case ForNbirth(k) => if k < |s.births| && s.births[k].pc.Publishing? then [s.births[k].pc.number] else []
    case ForDbirth(k, i) =>
      if k < |s.births| && s.births[k].pc.SendingDevice? && s.births[k].pc.i == i then [s.births[k].pc.number] else []
    case ForData => if s.loop.Sending? then [s.loop.number] else []
    case ForDdeath(i) => if s.stop.SendingDeath? && s.stop.i == i then [s.stop.number] else []
  }

  /** The tracker may have given a number to u already. */
  predicate Taken(s: Node, u: User) {
    match u
    case ForNbirth(k) => k < |s.births| && !s.births[k].pc.Resetting? && !s.births[k].pc.Numbering?
    case ForDbirth(k, i) =>
      k < |s.births| && (match s.births[k].pc
                         case Resetting => false
                         case Numbering => false
                         case Publishing(_) => false
                         case AtDevice(j) => i < j
                         case SendingDevice(j, _) => i <= j
                         case _ => true)
    case ForData => true
    case ForDdeath(i) =>
      match s.stop
      case NotStopping => false
      case DeathOf(j) => i < j
      case SendingDeath(j, _) => i <= j
      case _ => true
  }

  /** For every user: the messages carry, in order, the numbers given to it, but for one
      that is held; and a birth, a device of a birth and a device of Stop each get one
      number at most. */
  ghost predicate LedgerOk(s: Node) {
    forall u :: EntryOk(s, u)
  }

  ghost predicate EntryOk(s: Node, u: User) {
    && NumbersIn(s.log, u) + Held(s, u) == NumbersOf(s.ops, u)
    && (!Taken(s, u) ==> NumbersOf(s.ops, u) == [])
    && (!u.ForData? ==> |NumbersOf(s.ops, u)| <= 1)
  }

  lemma LogGrowsBy(log: seq<Record>, r: Record, u: User)
    ensures NumbersIn(log + [r], u) == NumbersIn(log, u) + (if Carries(r, u) then [r.msg.number] else [])
  {
    PickedGrows(log, r, CarriedFor(u));
  }

  lemma OpsGrowBy(ops: seq<Seq.Op<User>>, op: Seq.Op<User>, u: User)
    ensures NumbersOf(ops + [op], u) == NumbersOf(ops, u) + (if Gives(op, u) then [op.number] else [])
  {
    PickedGrows(ops, op, GivenTo(u));
  }

  // ----- the four kinds of step -----

  /** Neither the messages nor the tracker's numbers change; a user may only become one
      that can have a number. */
  ghost predicate SameLedger(s: Node, t: Node) {
    forall u ::
      && NumbersIn(t.log, u) == NumbersIn(s.log, u) && NumbersOf(t.ops, u) == NumbersOf(s.ops, u)
      && Held(t, u) == Held(s, u) && (Taken(s, u) ==> Taken(t, u))
  }

  lemma SameKeepsLedger(s: Node, t: Node)
    requires LedgerOk(s) && SameLedger(s, t)
    ensures LedgerOk(t)
  {
    hide NumbersIn, NumbersOf, Held, Taken;
    forall u
      ensures EntryOk(t, u)
    {
      assert EntryOk(s, u);
    }
  }

  /** Who holds what changes for one user only, and nobody stops being Taken. */
  ghost predicate OnlyUser(s: Node, t: Node, u0: User) {
    forall u :: (u != u0 ==> Held(t, u) == Held(s, u)) && (Taken(s, u) ==> Taken(t, u))
  }

  lemma TakeKeepsLedger(s: Node, t: Node, u0: User)
    requires LedgerOk(s) && OnlyUser(s, t, u0) && t.log == s.log && t.ops == s.ops + [Seq.Next(u0, NumberOf(s))]
    requires Held(s, u0) == [] && Held(t, u0) == [NumberOf(s)]
    requires Taken(t, u0) && (u0.ForData? || !Taken(s, u0))
    ensures LedgerOk(t)
  {
    hide NumbersIn, NumbersOf, Held, Taken, NumberOf;
    forall u
      ensures EntryOk(t, u)
    {
      assert EntryOk(s, u);
      OpsGrowBy(s.ops, Seq.Next(u0, NumberOf(s)), u);
      assert NumbersIn(s.log, u) + [] == NumbersIn(s.log, u);
    }
  }

  lemma SendKeepsLedger(s: Node, t: Node, msg: Msg, ok: bool)
    requires LedgerOk(s) && UserOf(msg).Some? && OnlyUser(s, t, UserOf(msg).value)
    requires t.ops == s.ops && t.log == s.log + [Sent(msg, ok)]
    requires Held(s, UserOf(msg).value) == [msg.number] && Held(t, UserOf(msg).value) == []
    ensures LedgerOk(t)
  {
    hide NumbersIn, NumbersOf, Held, Taken;
    forall u
      ensures EntryOk(t, u)
    {
      assert EntryOk(s, u);
      LogGrowsBy(s.log, Sent(msg, ok), u);
      assert NumbersIn(s.log, u) + [] == NumbersIn(s.log, u);
      assert NumbersIn(s.log, u) + [msg.number] + [] == NumbersIn(s.log, u) + [msg.number];
    }
  }

  /** A transition, a reset or an NDEATH carries no number. */
  lemma UnnumberedRecord(s: Node, t: Node, r: Record)
    requires t.log == s.log + [r] && t.ops == s.ops && forall u :: !Carries(r, u)
    requires forall u :: Held(t, u) == Held(s, u) && (Taken(s, u) ==> Taken(t, u))
    ensures SameLedger(s, t)
  {
    hide NumbersIn, Held, Taken;
    forall u
      ensures NumbersIn(t.log, u) == NumbersIn(s.log, u)
    {
      LogGrowsBy(s.log, r, u);
    }
  }

  lemma MoveSameLedger(s: Node, event: Event)
    ensures SameLedger(s, Move(s, event))
  {
    var t := Move(s, event);
    if t != s {
      hide NumbersIn, NumbersOf;
      UnnumberedRecord(s, t, Moved(t.sm));
    }
  }

  lemma SameLedgerOn(s: Node, t: Node, v: Node)
    requires SameLedger(s, t) && SameLedger(t, v)
    ensures SameLedger(s, v)
  {
    hide NumbersIn, NumbersOf, Held, Taken;
  }

  // ----- births -----

  lemma BirthResets(s: Node, k: nat, ok: bool)
    requires LedgerOk(s) && k < |s.births| && s.births[k].pc.Resetting?
    ensures LedgerOk(BirthOn(s, k, ok))
  {
    var t := BirthOn(s, k, ok);
    hide NumbersIn, NumbersOf;
    forall u
      ensures NumbersOf(t.ops, u) == NumbersOf(s.ops, u)
    {
      OpsGrowBy(s.ops, Seq.Reset(ForNbirth(k)), u);
    }
    SameKeepsLedger(s, t);
  }

  lemma BirthTakesNumber(s: Node, k: nat, ok: bool)
    requires LedgerOk(s) && k < |s.births|
    requires s.births[k].pc.Numbering? || (s.births[k].pc.AtDevice? && s.births[k].pc.i < s.devices)
    ensures LedgerOk(BirthOn(s, k, ok))
  {
    var u0 := if s.births[k].pc.Numbering? then ForNbirth(k) else ForDbirth(k, s.births[k].pc.i);
    hide LedgerOk, NumberOf;
    TakeKeepsLedger(s, BirthOn(s, k, ok), u0);
  }

  lemma BirthSendsNbirth(s: Node, k: nat, ok: bool)
    requires LedgerOk(s) && k < |s.births| && s.births[k].pc.Publishing?
    ensures LedgerOk(BirthOn(s, k, ok))
  {
    var b := s.births[k];
    hide LedgerOk, NumbersIn, NumbersOf, Move, NumberOf;
    SendKeepsLedger(s, BirthOn(s, k, ok), Nbirth(k, b.bdSeq, b.pc.number), ok);
  }

  lemma BirthSendsDbirth(s: Node, k: nat, ok: bool)
    requires LedgerOk(s) && k < |s.births| && s.births[k].pc.SendingDevice?
    ensures LedgerOk(BirthOn(s, k, ok))
  {
    var b := s.births[k];
    hide LedgerOk, NumbersIn, NumbersOf, Move, NumberOf;
    SendKeepsLedger(s, BirthOn(s, k, ok), Dbirth(k, b.pc.i, b.pc.number), ok);
  }

  /** A birth that neither holds a number nor takes one moves on. */
  lemma BirthPasses(s: Node, k: nat, pc: BirthPc)
    requires k < |s.births| && (s.births[k].pc.Succeeding? || s.births[k].pc.Failing? || s.births[k].pc.AtDevice?)
    requires pc.Succeeding? || pc.Over?
    ensures SameLedger(s, SetBirth(s, k, pc))
  {
    hide NumbersIn, NumbersOf;
  }

  lemma BirthEnds(s: Node, k: nat, ok: bool)
    requires LedgerOk(s) && k < |s.births|
    requires s.births[k].pc.Succeeding? || s.births[k].pc.Failing? || (s.births[k].pc.AtDevice? && s.births[k].pc.i >= s.devices)
    ensures LedgerOk(BirthOn(s, k, ok))
  {
    hide LedgerOk, SameLedger, Move, SetBirth;
    if s.births[k].pc.AtDevice? {
      BirthPasses(s, k, Succeeding);
    } else {
      var event := if s.births[k].pc.Succeeding? then ConnectSuccess else ConnectFail;
      MoveSameLedger(s, event);
      MoveKeepsStop(s, event);
      BirthPasses(Move(s, event), k, Over);
      SameLedgerOn(s, Move(s, event), SetBirth(Move(s, event), k, Over));
    }
    SameKeepsLedger(s, BirthOn(s, k, ok));
  }

  lemma BirthKeepsLedger(s: Node, k: nat, ok: bool)
    requires LedgerOk(s) && k < |s.births|
    ensures LedgerOk(BirthOn(s, k, ok))
  {
    hide LedgerOk;
    match s.births[k].pc
    case Resetting => BirthResets(s, k, ok);
    case Numbering => BirthTakesNumber(s, k, ok);
    case Publishing(_) => BirthSendsNbirth(s, k, ok);
    case SendingDevice(_, _) => BirthSendsDbirth(s, k, ok);
    case AtDevice(i) => if i < s.devices { BirthTakesNumber(s, k, ok); } else { BirthEnds(s, k, ok); }
    case Over =>
    case _ => BirthEnds(s, k, ok);
  }

  // ----- the publish loop, Stop and the rest -----

  lemma LoopKeepsLedger(s: Node, l: LoopStep)
    requires LedgerOk(s) && LoopEnabled(s, l)
    ensures LedgerOk(LoopOn(s, l))
  {
    var t := LoopOn(s, l);
    hide LedgerOk, NumbersIn, NumbersOf, NumberOf;
    match l
    case TakeNumber => TakeKeepsLedger(s, t, ForData);
    case Publish(ok) => SendKeepsLedger(s, t, Ddata(s.loop.u, s.loop.number), ok);
    case _ => SameKeepsLedger(s, t);
  }

  lemma StopTakesNumber(s: Node, ok: bool)
    requires LedgerOk(s) && s.stop.DeathOf? && s.stop.i < s.devices
    ensures LedgerOk(StopOn(s, ok))
  {
    hide LedgerOk, NumberOf;
    TakeKeepsLedger(s, StopOn(s, ok), ForDdeath(s.stop.i));
  }

  lemma StopSends(s: Node, ok: bool)
    requires LedgerOk(s) && (s.stop.SendingDeath? || s.stop.SendingNodeDeath?)
    ensures LedgerOk(StopOn(s, ok))
  {
    var t := StopOn(s, ok);
    hide LedgerOk, NumbersIn, NumbersOf;
    if s.stop.SendingDeath? {
      SendKeepsLedger(s, t, Ddeath(s.stop.i, s.stop.number), ok);
    } else {
      UnnumberedRecord(s, t, Sent(Ndeath(s.stop.bdSeq), ok));
      SameKeepsLedger(s, t);
    }
  }

  /** The parts of Stop that neither publish nor take a number. */
  lemma StopPasses(s: Node, t: Node)
    requires LedgerOk(s) && t == s.(stop := t.stop, closed := t.closed)
    requires match s.stop
             case NotStopping => t.stop == DeathOf(0)
             case DeathOf(_) => t.stop.NodeDeath?
             case SendingDeath(_, _) => false
             case _ => !t.stop.NotStopping? && !t.stop.DeathOf? && !t.stop.SendingDeath?
    ensures LedgerOk(t)
  {
    hide LedgerOk, NumbersIn, NumbersOf;
    SameKeepsLedger(s, t);
  }

  lemma StopKeepsLedger(s: Node, ok: bool)
    requires LedgerOk(s) && StopEnabled(s)
    ensures LedgerOk(StopOn(s, ok))
  {
    hide LedgerOk, NumbersIn, NumbersOf, NumberOf, Move;
    if s.stop.DeathOf? && s.stop.i < s.devices {
      StopTakesNumber(s, ok);
    } else if s.stop.SendingDeath? || s.stop.SendingNodeDeath? {
      StopSends(s, ok);
    } else if s.stop.Leaving? {
      StopLeaves(s, ok);
    } else {
      StopPasses(s, StopOn(s, ok));
    }
  }

  lemma StopLeaves(s: Node, ok: bool)
    requires LedgerOk(s) && s.stop.Leaving?
    ensures LedgerOk(StopOn(s, ok))
  {
    var u, t := Move(s, Disconnect), StopOn(s, ok);
    MoveSameLedger(s, Disconnect);
    MoveKeepsStop(s, Disconnect);
    hide LedgerOk, NumbersIn, NumbersOf, Move;
    assert SameLedger(u, t);
    SameLedgerOn(s, u, t);
    SameKeepsLedger(s, t);
  }

  lemma MoveKeepsStop(s: Node, event: Event)
    ensures Move(s, event).stop == s.stop && Move(s, event).births == s.births && Move(s, event).loop == s.loop
  {
  }

  lemma ReconnectKeepsLedger(s: Node, r: ReconnectStep)
    requires LedgerOk(s) && ReconnectEnabled(s, r)
    ensures LedgerOk(ReconnectOn(s, r))
  {
    hide LedgerOk, NumbersIn, NumbersOf;
    SameKeepsLedger(s, ReconnectOn(s, r));
  }

  /** Start and the connection-lost callback. */
  lemma OtherMoveKeepsLedger(s: Node, event: Event, t: Node)
    requires LedgerOk(s) && t == Move(s, event).(start := t.start, losing := t.losing)
    ensures LedgerOk(t)
  {
    MoveSameLedger(s, event);
    hide LedgerOk, NumbersIn, NumbersOf, Move;
    assert SameLedger(Move(s, event), t);
    SameLedgerOn(s, Move(s, event), t);
    SameKeepsLedger(s, t);
  }

  /** ConnectOkay finds the publish loop not yet running. */
  ghost predicate LoopOffOk(s: Node) {
    s.start.Fresh? || s.start.Dialling? ==> s.loop.LoopOff?
  }

  lemma StartedKeepsLedger(s: Node)
    requires LedgerOk(s) && LoopOffOk(s) && s.start.Dialling?
    ensures LedgerOk(Apply(s, ConnectOkay)) && LedgerOk(Apply(s, ConnectErr))
  {
    hide LedgerOk, NumbersIn, NumbersOf;
    SameKeepsLedger(s, Apply(s, ConnectOkay));
    SameKeepsLedger(s, Apply(s, ConnectErr));
  }

  /** A new birth has no number yet. */
  lemma BeginKeepsLedger(s: Node, t: Node)
    requires LedgerOk(s) && t == BeginBirth(s).(reconnect := t.reconnect)
    ensures LedgerOk(t)
  {
    hide LedgerOk, NumbersIn, NumbersOf;
    SameKeepsLedger(s, t);
  }

  lemma ChannelKeepsLedger(s: Node, t: Node)
    requires LedgerOk(s)
    requires t == s.(losing := t.losing, signal := t.signal, offering := t.offering, updates := t.updates, accepted := t.accepted)
    ensures LedgerOk(t)
  {
    hide LedgerOk, NumbersIn, NumbersOf;
    SameKeepsLedger(s, t);
  }

  lemma LedgerKeeps(s: Node, st: Step)
    requires LedgerOk(s) && LoopOffOk(s) && Enabled(s, st)
    ensures LedgerOk(Apply(s, st))
  {
    var t := Apply(s, st);
    hide LedgerOk, BirthOn, LoopOn, StopOn, ReconnectOn, Move;
    match st
    case StartCall => OtherMoveKeepsLedger(s, ConnectAttempt, t);
    case StartErr => OtherMoveKeepsLedger(s, ConnectFail, t);
    case ConnectOkay => StartedKeepsLedger(s);
    case ConnectErr => StartedKeepsLedger(s);
    case Callback => BeginKeepsLedger(s, t);
    case Lose => OtherMoveKeepsLedger(s, ConnectionLost, t);
    case BirthStep(k, ok) => BirthKeepsLedger(s, k, ok);
    case Loop(l) => LoopKeepsLedger(s, l);
    case Stop(ok) => StopKeepsLedger(s, ok);
    case Reconnect(r) => ReconnectKeepsLedger(s, r);
    case _ => ChannelKeepsLedger(s, t);
  }

  ghost predicate SameLoop(s: Node, t: Node) {
    t.loop == s.loop && t.start == s.start
  }

  lemma BirthSameLoop(s: Node, k: nat, ok: bool)
    requires k < |s.births|
    ensures SameLoop(s, BirthOn(s, k, ok))
  {
  }

  lemma StopSameLoop(s: Node, ok: bool)
    requires StopEnabled(s)
    ensures SameLoop(s, StopOn(s, ok))
  {
    hide NumberOf;
  }

  lemma LoopOffKeeps(s: Node, st: Step)
    requires LoopOffOk(s) && Enabled(s, st)
    ensures LoopOffOk(Apply(s, st))
  {
    hide BirthOn, StopOn;
    match st
    case BirthStep(k, ok) => BirthSameLoop(s, k, ok);
    case Stop(ok) => StopSameLoop(s, ok);
    case _ =>
  }

  // ----- a birth resets before it takes its number -----

  /** Every number for an NBIRTH comes after that birth's own reset. */
  ghost predicate ResetsFirst(ops: seq<Seq.Op<User>>) {
    forall j, k: nat :: 0 <= j < |ops| && Gives(ops[j], ForNbirth(k)) ==> Seq.Reset(ForNbirth(k)) in ops[..j]
  }

  ghost predicate HasReset(s: Node) {
    forall k :: 0 <= k < |s.births| && !s.births[k].pc.Resetting? ==> Seq.Reset(ForNbirth(k)) in s.ops
  }

  ghost predicate ResetsOk(s: Node) {
    ResetsFirst(s.ops) && HasReset(s)
  }

  lemma ResetsFirstGrows(ops: seq<Seq.Op<User>>, op: Seq.Op<User>)
    requires ResetsFirst(ops)
    requires forall k: nat :: Gives(op, ForNbirth(k)) ==> Seq.Reset(ForNbirth(k)) in ops
    ensures ResetsFirst(ops + [op])
  {
    forall j, k: nat | 0 <= j < |ops + [op]| && Gives((ops + [op])[j], ForNbirth(k))
      ensures Seq.Reset(ForNbirth(k)) in (ops + [op])[..j]
    {
      assert (ops + [op])[..j] == ops[..j];
      assert j == |ops| ==> ops[..j] == ops;
    }
  }

  lemma BirthKeepsResets(s: Node, k: nat, ok: bool)
    requires ResetsOk(s) && k < |s.births|
    ensures ResetsOk(BirthOn(s, k, ok))
  {
    hide ResetsFirst, Move, NumberOf;
    match s.births[k].pc
    case Resetting => ResetsFirstGrows(s.ops, Seq.Reset(ForNbirth(k)));
    case Numbering => ResetsFirstGrows(s.ops, Seq.Next(ForNbirth(k), NumberOf(s)));
    case AtDevice(i) => if i < s.devices { ResetsFirstGrows(s.ops, Seq.Next(ForDbirth(k, i), NumberOf(s))); }
    case Succeeding => MoveKeepsOps(s, ConnectSuccess);
    case Failing => MoveKeepsOps(s, ConnectFail);
    case _ =>
  }

  lemma MoveKeepsOps(s: Node, event: Event)
    ensures Move(s, event).ops == s.ops && Move(s, event).births == s.births
  {
  }

  lemma StopKeepsResets(s: Node, ok: bool)
    requires ResetsOk(s) && StopEnabled(s)
    ensures ResetsOk(StopOn(s, ok))
  {
    hide ResetsFirst, Move, NumberOf;
    match s.stop
    case DeathOf(i) => if i < s.devices { ResetsFirstGrows(s.ops, Seq.Next(ForDdeath(i), NumberOf(s))); }
    case Leaving => MoveKeepsOps(s, Disconnect);
    case _ =>
  }

  lemma ResetsKeep(s: Node, st: Step)
    requires ResetsOk(s) && Enabled(s, st)
    ensures ResetsOk(Apply(s, st))
  {
    hide ResetsFirst, BirthOn, StopOn, Move, NumberOf;
    match st
    case StartCall => MoveKeepsOps(s, ConnectAttempt);
    case StartErr => MoveKeepsOps(s, ConnectFail);
    case Lose => MoveKeepsOps(s, ConnectionLost);
    case BirthStep(k, ok) => BirthKeepsResets(s, k, ok);
    case Loop(l) => if l.TakeNumber? { ResetsFirstGrows(s.ops, Seq.Next(ForData, NumberOf(s))); }
    case Stop(ok) => StopKeepsResets(s, ok);
    case _ =>
  }

  // ----- which number a message took -----

  /** Message m of the log carries the number that use j of the tracker gave: they are for
      the same user, and of equal rank among what the user sent and was given. */
  ghost predicate Took(s: Node, m: nat, j: nat) {
    && m < |s.log| && j < |s.ops|
    && exists u :: Carries(s.log[m], u) && Gives(s.ops[j], u) && |NumbersIn(s.log[..m], u)| == |NumbersOf(s.ops[..j], u)|
  }

  lemma TookItsNumber(s: Node, m: nat, j: nat)
    requires LedgerOk(s) && Took(s, m, j)
    ensures s.log[m].msg.number == s.ops[j].number
  {
    var u :| Carries(s.log[m], u) && Gives(s.ops[j], u) && |NumbersIn(s.log[..m], u)| == |NumbersOf(s.ops[..j], u)|;
    assert EntryOk(s, u);
    PickedStands(s.log, CarriedFor(u), m);
    PickedStands(s.ops, GivenTo(u), j);
    hide Held, Taken, Picked;
  }

  lemma TookOne(s: Node, m: nat) returns (j: nat)
    requires LedgerOk(s) && m < |s.log| && s.log[m].Sent? && UserOf(s.log[m].msg).Some?
    ensures Took(s, m, j)
  {
    var u := UserOf(s.log[m].msg).value;
    assert EntryOk(s, u);
    PickedStands(s.log, CarriedFor(u), m);
    hide Held, Taken, Picked;
    j := PickedStems(s.ops, GivenTo(u), |NumbersIn(s.log[..m], u)|);
    assert Carries(s.log[m], u) && Gives(s.ops[j], u);
  }

  /** Later messages of one user took later numbers. */
  lemma TookInOrder(s: Node, m: nat, n: nat, i: nat, j: nat)
    requires Took(s, m, i) && Took(s, n, j) && UserOf(s.log[m].msg) == UserOf(s.log[n].msg)
    ensures m < n <==> i < j
  {
    var u := UserOf(s.log[m].msg).value;
    hide Picked;
    if m < n {
      PickedInOrder(s.log, CarriedFor(u), m, n);
    }
    if n < m {
      PickedInOrder(s.log, CarriedFor(u), n, m);
    }
    if i < j {
      PickedInOrder(s.ops, GivenTo(u), i, j);
    }
    if j < i {
      PickedInOrder(s.ops, GivenTo(u), j, i);
    }
  }

  lemma TookOnce(s: Node, m: nat, n: nat, i: nat, j: nat)
    requires Took(s, m, i) && Took(s, n, j)
    ensures i == j <==> m == n
    ensures UserOf(s.log[n].msg) == UserOf(s.log[m].msg) ==> (m < n <==> i < j)
  {
    hide NumbersIn, NumbersOf;
    if UserOf(s.log[m].msg) == UserOf(s.log[n].msg) {
      TookInOrder(s, m, n, i, j);
      TookInOrder(s, n, m, j, i);
    }
  }
}
