/** What a birth has published: its NBIRTH, and after an accepted one a DBIRTH for every
    device, in order, before the node goes online. */
module EdgeNodeBirths {
  import opened Base
  import opened SparkplugState
  import Seq = SparkplugSeq
  import opened EdgeNode
  import opened EdgeNodeInvariants

  /** The devices of birth k's DBIRTHs, published or tried to be, in order. */
  function DbirthsOf(log: seq<Record>, k: nat): seq<nat> {
    if log == [] then []
    else
      var n := |log| - 1;
      var r := log[n];
      DbirthsOf(log[..n], k) + (if r.Sent? && r.msg.Dbirth? && r.msg.k == k then [r.msg.device] else [])
  }

  /** 0, 1, ..., n - 1 */
  function UpTo(n: nat): seq<nat> {
    seq(n, i => i)
  }

  /** Birth k has an accepted NBIRTH, and a DBIRTH for each of the first n devices. */
  ghost predicate BirthUpTo(log: seq<Record>, k: nat, n: nat) {
    SentBirth(log, k) && DbirthsOf(log, k) == UpTo(n)
  }

  ghost predicate NothingYet(log: seq<Record>, k: nat) {
    !SentBirth(log, k) && DbirthsOf(log, k) == []
  }

  /** How far the log shows birth k. */
  ghost predicate TrailOk(s: Node, k: nat) {
    if k >= |s.births| then NothingYet(s.log, k)
    else
      match s.births[k].pc
      case AtDevice(i) => i <= s.devices && BirthUpTo(s.log, k, i)
      case SendingDevice(i, _) => i < s.devices && BirthUpTo(s.log, k, i)
      case Succeeding => BirthUpTo(s.log, k, s.devices)
      case Over => NothingYet(s.log, k) || BirthUpTo(s.log, k, s.devices)
      case _ => NothingYet(s.log, k)
  }

  /** Some birth is complete in the log. */
  ghost predicate Complete(log: seq<Record>, devices: nat) {
    exists k :: BirthUpTo(log, k, devices)
  }

  /** Every entry to Online comes after a complete birth. */
  ghost predicate OnlineOk(log: seq<Record>, devices: nat) {
    forall i :: 0 <= i < |log| && log[i] == Moved(Online) ==> Complete(log[..i], devices)
  }

  ghost predicate TrailsOk(s: Node) {
    (forall k: nat :: TrailOk(s, k)) && OnlineOk(s.log, s.devices)
  }

  // ----- the log grows -----

  predicate Concerns(r: Record, k: nat) {
    r.Sent? && (r.msg.Nbirth? || r.msg.Dbirth?) && r.msg.k == k
  }

  lemma SentGrows(log: seq<Record>, r: Record, k: nat)
    ensures SentBirth(log + [r], k) <==> SentBirth(log, k) || IsBirth(r, k)
  {
    var all := log + [r];
    hide IsBirth;
    assert all[|log|] == r;
    if j :| 0 <= j < |log| && IsBirth(log[j], k) {
      assert all[j] == log[j];
    }
    if j :| 0 <= j < |all| && IsBirth(all[j], k) {
      assert j < |log| ==> log[j] == all[j];
    }
  }

  lemma LogGrowsBy(log: seq<Record>, r: Record, k: nat)
    ensures SentBirth(log + [r], k) <==> SentBirth(log, k) || IsBirth(r, k)
    ensures DbirthsOf(log + [r], k) ==
            DbirthsOf(log, k) + (if r.Sent? && r.msg.Dbirth? && r.msg.k == k then [r.msg.device] else [])
  {
    SentGrows(log, r, k);
    hide SentBirth;
    assert (log + [r])[..|log|] == log && (log + [r])[|log|] == r;
  }

  lemma OnlineGrows(log: seq<Record>, r: Record, devices: nat)
    requires OnlineOk(log, devices) && (r == Moved(Online) ==> Complete(log, devices))
    ensures OnlineOk(log + [r], devices)
  {
    var all := log + [r];
    hide Complete;
    forall i | 0 <= i < |all| && all[i] == Moved(Online)
      ensures Complete(all[..i], devices)
    {
      assert all[..i] == log[..i];
      assert i == |log| ==> log[..i] == log;
    }
  }

  /** A record that concerns no birth, and a birth that stays where it is. */
  lemma OthersKeepTrail(s: Node, t: Node, k: nat)
    requires TrailOk(s, k) && t.devices == s.devices
    requires k < |s.births| ==> k < |t.births| && t.births[k].pc == s.births[k].pc
    requires k >= |s.births| && k < |t.births| ==> t.births[k].pc.Resetting?
    requires t.log == s.log
             || (|t.log| == |s.log| + 1 && t.log == s.log + [t.log[|s.log|]] && !Concerns(t.log[|s.log|], k))
    ensures TrailOk(t, k)
  {
    if t.log != s.log {
      LogGrowsBy(s.log, t.log[|s.log|], k);
    }
    hide SentBirth, DbirthsOf, UpTo;
  }

  /** Everything that neither sends an NBIRTH or a DBIRTH nor moves a birth on. */
  lemma OthersKeepTrails(s: Node, t: Node)
    requires TrailsOk(s) && t.devices == s.devices && |s.births| <= |t.births|
    requires forall k :: 0 <= k < |s.births| ==> t.births[k].pc == s.births[k].pc
    requires forall k :: |s.births| <= k < |t.births| ==> t.births[k].pc.Resetting?
    requires t.log == s.log
             || (&& |t.log| == |s.log| + 1 && t.log == s.log + [t.log[|s.log|]]
                 && t.log[|s.log|] != Moved(Online) && forall k :: !Concerns(t.log[|s.log|], k))
    ensures TrailsOk(t)
  {
    hide TrailOk, OnlineOk;
    forall k: nat
      ensures TrailOk(t, k)
    {
      OthersKeepTrail(s, t, k);
    }
    if t.log != s.log {
      OnlineGrows(s.log, t.log[|s.log|], s.devices);
    }
  }

  lemma MoveKeepsTrails(s: Node, event: Event, t: Node)
    requires TrailsOk(s) && !event.ConnectSuccess?
    requires t == Move(s, event).(start := t.start, losing := t.losing, stop := t.stop)
    ensures TrailsOk(t)
  {
    hide TrailsOk;
    OthersKeepTrails(s, t);
  }

  // ----- births -----

  /** Birth k moves to pc, with a record of its own or none. */
  lemma BirthMovesTrail(s: Node, k: nat, t: Node)
    requires TrailsOk(s) && k < |s.births| && t.devices == s.devices && TrailOk(t, k)
    requires |t.births| == |s.births| && forall i :: 0 <= i < |s.births| && i != k ==> t.births[i] == s.births[i]
    requires t.log == s.log
             || (&& |t.log| == |s.log| + 1 && t.log == s.log + [t.log[|s.log|]]
                 && (t.log[|s.log|] == Moved(Online) ==> Complete(s.log, s.devices))
                 && forall i :: i != k ==> !Concerns(t.log[|s.log|], i))
    ensures TrailsOk(t)
  {
    hide TrailOk, OnlineOk, Complete;
    forall i: nat
      ensures TrailOk(t, i)
    {
      if i != k {
        OthersKeepTrail(s, t, i);
      }
    }
    if t.log != s.log {
      OnlineGrows(s.log, t.log[|s.log|], s.devices);
    }
  }

  lemma BirthPublishes(s: Node, k: nat, ok: bool)
    requires TrailsOk(s) && k < |s.births| && (s.births[k].pc.Publishing? || s.births[k].pc.SendingDevice?)
    ensures TrailsOk(BirthOn(s, k, ok))
  {
    var t := BirthOn(s, k, ok);
    assert TrailOk(s, k);
    LogGrowsBy(s.log, t.log[|s.log|], k);
    hide SentBirth, DbirthsOf, OnlineOk, TrailsOk, Complete;
    if s.births[k].pc.SendingDevice? {
      assert UpTo(s.births[k].pc.i + 1) == UpTo(s.births[k].pc.i) + [s.births[k].pc.i];
    }
    BirthMovesTrail(s, k, t);
  }

  /** The one record of a transition, if it has one, concerns no birth. */
  lemma MoveTrail(s: Node, event: Event, k: nat)
    ensures SentBirth(Move(s, event).log, k) <==> SentBirth(s.log, k)
    ensures DbirthsOf(Move(s, event).log, k) == DbirthsOf(s.log, k)
    ensures var t := Move(s, event);
            && t.births == s.births && t.devices == s.devices
            && (t.log == s.log || t.log == s.log + [Moved(Next(s.sm, event))])
  {
    LogGrowsBy(s.log, Moved(Next(s.sm, event)), k);
    hide SentBirth, DbirthsOf;
  }

  lemma BirthSucceeds(s: Node, k: nat, ok: bool)
    requires TrailsOk(s) && k < |s.births| && s.births[k].pc.Succeeding?
    ensures TrailsOk(BirthOn(s, k, ok))
  {
    assert TrailOk(s, k);
    MoveTrail(s, ConnectSuccess, k);
    hide SentBirth, DbirthsOf, OnlineOk, TrailsOk, UpTo, Move;
    assert BirthUpTo(s.log, k, s.devices);
    BirthMovesTrail(s, k, BirthOn(s, k, ok));
  }

  lemma BirthFails(s: Node, k: nat, ok: bool)
    requires TrailsOk(s) && k < |s.births| && s.births[k].pc.Failing?
    ensures TrailsOk(BirthOn(s, k, ok))
  {
    assert TrailOk(s, k);
    MoveTrail(s, ConnectFail, k);
    assert Next(s.sm, ConnectFail) == Online ==> Move(s, ConnectFail) == s;
    hide SentBirth, DbirthsOf, OnlineOk, TrailsOk, UpTo, Move, Complete;
    BirthMovesTrail(s, k, BirthOn(s, k, ok));
  }

  lemma BirthKeepsTrails(s: Node, k: nat, ok: bool)
    requires TrailsOk(s) && k < |s.births|
    ensures TrailsOk(BirthOn(s, k, ok))
  {
    match s.births[k].pc
    case Publishing(_) => BirthPublishes(s, k, ok);
    case SendingDevice(_, _) => BirthPublishes(s, k, ok);
    case Succeeding => BirthSucceeds(s, k, ok);
    case Failing => BirthFails(s, k, ok);
    case Over =>
    case _ =>
      assert TrailOk(s, k);
      hide SentBirth, DbirthsOf, OnlineOk, TrailsOk, UpTo, NumberOf;
      BirthMovesTrail(s, k, BirthOn(s, k, ok));
  }

  // ----- every step -----

  lemma StopKeepsTrails(s: Node, ok: bool)
    requires TrailsOk(s) && StopEnabled(s)
    ensures TrailsOk(StopOn(s, ok))
  {
    hide TrailsOk, NumberOf;
    if s.stop.Leaving? {
      hide Move;
      MoveKeepsTrails(s, Disconnect, StopOn(s, ok));
    } else {
      StopStays(s, ok);
      hide StopOn;
      OthersKeepTrails(s, StopOn(s, ok));
    }
  }

  /** The part of a step that a birth's trail is about. */
  ghost predicate Beside(s: Node, t: Node) {
    && t.devices == s.devices && t.births == s.births
    && (t.log == s.log
        || (&& |t.log| == |s.log| + 1 && t.log == s.log + [t.log[|s.log|]]
            && t.log[|s.log|].Sent? && forall k :: !Concerns(t.log[|s.log|], k)))
  }

  lemma LogIsBeside(s: Node, msg: Msg, ok: bool, stop: StopPc)
    requires !msg.Nbirth? && !msg.Dbirth?
    ensures Beside(s, Log(s, msg, ok).(stop := stop))
  {
  }

  lemma StopStays(s: Node, ok: bool)
    requires StopEnabled(s) && !s.stop.Leaving?
    ensures Beside(s, StopOn(s, ok))
  {
    hide NumberOf;
    match s.stop
    case SendingDeath(i, n) =>
      hide Beside;
      LogIsBeside(s, Ddeath(i, n), ok, DeathOf(i + 1));
    case SendingNodeDeath(bd) =>
      hide Beside;
      LogIsBeside(s, Ndeath(bd), ok, Leaving);
    case _ =>
  }

  lemma LoopKeepsTrails(s: Node, l: LoopStep)
    requires TrailsOk(s) && LoopEnabled(s, l)
    ensures TrailsOk(LoopOn(s, l))
  {
    hide TrailsOk, NumberOf;
    OthersKeepTrails(s, LoopOn(s, l));
  }

  lemma ReconnectKeepsTrails(s: Node, r: ReconnectStep)
    requires TrailsOk(s) && ReconnectEnabled(s, r)
    ensures TrailsOk(ReconnectOn(s, r))
  {
    hide TrailsOk;
    OthersKeepTrails(s, ReconnectOn(s, r));
  }

  lemma TrailsKeep(s: Node, st: Step)
    requires TrailsOk(s) && Enabled(s, st)
    ensures TrailsOk(Apply(s, st))
  {
    var t := Apply(s, st);
    hide TrailsOk, BirthOn, StopOn, LoopOn, ReconnectOn, Move, NumberOf;
    match st
    case StartCall => MoveKeepsTrails(s, ConnectAttempt, t);
    case StartErr => MoveKeepsTrails(s, ConnectFail, t);
    case Lose => MoveKeepsTrails(s, ConnectionLost, t);
    case BirthStep(k, ok) => BirthKeepsTrails(s, k, ok);
    case Stop(ok) => StopKeepsTrails(s, ok);
    case Loop(l) => LoopKeepsTrails(s, l);
    case Reconnect(r) => ReconnectKeepsTrails(s, r);
    case _ => OthersKeepTrails(s, t);
  }
}
