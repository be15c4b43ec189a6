/** The messages of the edge node: which updates become DDATA, and in which order Stop
    publishes its deaths. */
module EdgeNodeMessages {
  import opened Base
  import opened SparkplugState
  import Seq = SparkplugSeq
  import opened EdgeNode
  import opened EdgeNodeInvariants

  // ----- DDATA -----

  /** The updates for which DDATA was published, or tried to be. */
  function DataOf(log: seq<Record>): seq<Update> {
    if log == [] then []
    else
      var n := |log| - 1;
      DataOf(log[..n]) + (if log[n].Sent? && log[n].msg.Ddata? then [log[n].msg.update] else [])
  }

  function InHand(loop: LoopPc): seq<Update> {
    match loop
    case Holding(u) => [u]
    case Checked(u) => [u]
    case Sending(u, _) => [u]
    case _ => []
  }

  /** The channel is a queue of bounded length, and DDATA follows its order. */
  ghost predicate QueueOk(s: Node) {
    && s.accepted == s.taken + s.updates
    && |s.updates| <= CAPACITY
    && Subsequence(DataOf(s.log) + InHand(s.loop), s.taken)
  }

  lemma DataGrows(log: seq<Record>, r: Record)
    ensures DataOf(log + [r]) == DataOf(log) + (if r.Sent? && r.msg.Ddata? then [r.msg.update] else [])
  {
    assert (log + [r])[..|log|] == log;
  }

  ghost predicate SameQueue(s: Node, t: Node) {
    && t.accepted == s.accepted && t.taken == s.taken && t.updates == s.updates && t.offering == s.offering
    && t.loop == s.loop && DataOf(t.log) == DataOf(s.log)
  }

  lemma MoveSameQueue(s: Node, event: Event)
    ensures SameQueue(s, Move(s, event))
  {
    DataGrows(s.log, Moved(Next(s.sm, event)));
  }

  lemma LogSameQueue(s: Node, msg: Msg, ok: bool)
    requires !msg.Ddata?
    ensures SameQueue(s, Log(s, msg, ok))
  {
    DataGrows(s.log, Sent(msg, ok));
  }

  lemma BirthSameQueue(s: Node, k: nat, ok: bool)
    requires k < |s.births|
    ensures SameQueue(s, BirthOn(s, k, ok))
  {
    var b := s.births[k];
    hide DataOf;
    match b.pc
    case Publishing(n) => LogSameQueue(s, Nbirth(k, b.bdSeq, n), ok);
    case SendingDevice(i, n) => LogSameQueue(s, Dbirth(k, i, n), ok);
    case Succeeding => MoveSameQueue(s, ConnectSuccess);
    case Failing => MoveSameQueue(s, ConnectFail);
    case _ =>
  }

  lemma StopSameQueue(s: Node, ok: bool)
    requires StopEnabled(s)
    ensures SameQueue(s, StopOn(s, ok))
  {
    hide DataOf;
    match s.stop
    case SendingDeath(i, n) => LogSameQueue(s, Ddeath(i, n), ok);
    case SendingNodeDeath(bd) => LogSameQueue(s, Ndeath(bd), ok);
    case Leaving => MoveSameQueue(s, Disconnect);
    case _ =>
  }

  lemma TakeKeepsQueue(s: Node)
    requires QueueOk(s) && LoopEnabled(s, Take)
    ensures QueueOk(LoopOn(s, Take))
  {
    hide DataOf, Subsequence;
    var u, rest := s.updates[0], s.updates[1..];
    assert DataOf(s.log) + [] == DataOf(s.log);
    SubsequenceGrows(DataOf(s.log), s.taken, u);
    assert s.updates == [u] + rest;
    assert s.taken + ([u] + rest) == s.taken + [u] + rest;
  }

  lemma CheckKeepsQueue(s: Node)
    requires QueueOk(s) && LoopEnabled(s, Check)
    ensures QueueOk(LoopOn(s, Check))
  {
    hide DataOf, Subsequence;
    var data := DataOf(s.log);
    SubsequenceWithoutLast(data + [s.loop.u], s.taken);
    assert data + [] == data && (data + [s.loop.u])[..|data|] == data;
  }

  lemma PublishKeepsQueue(s: Node, ok: bool)
    requires QueueOk(s) && LoopEnabled(s, Publish(ok))
    ensures QueueOk(LoopOn(s, Publish(ok)))
  {
    hide DataOf, Subsequence;
    DataGrows(s.log, Sent(Ddata(s.loop.u, s.loop.number), ok));
    var data := DataOf(s.log) + [s.loop.u];
    assert data + [] == data;
  }

  lemma LoopKeepsQueue(s: Node, l: LoopStep)
    requires QueueOk(s) && LoopEnabled(s, l)
    ensures QueueOk(LoopOn(s, l))
  {
    hide DataOf, Subsequence;
    match l
    case Take => TakeKeepsQueue(s);
    case Check => CheckKeepsQueue(s);
    case Publish(ok) => PublishKeepsQueue(s, ok);
    case _ =>
  }

  lemma LoopOffQueue(s: Node, t: Node)
    requires QueueOk(s) && t == s.(loop := Waiting, start := t.start, reconnect := t.reconnect)
    ensures QueueOk(t)
  {
    hide DataOf, Subsequence;
    var data, hand := DataOf(s.log), InHand(s.loop);
    if hand != [] {
      SubsequenceWithoutLast(data + hand, s.taken);
      assert (data + hand)[..|data|] == data;
    }
    assert data + [] == data;
  }

  lemma QueueKeeps(s: Node, st: Step)
    requires QueueOk(s) && Enabled(s, st)
    ensures QueueOk(Apply(s, st))
  {
    hide DataOf, Subsequence, BirthOn, LoopOn, StopOn, Move;
    match st
    case StartCall => MoveSameQueue(s, ConnectAttempt);
    case StartErr => MoveSameQueue(s, ConnectFail);
    case ConnectOkay => LoopOffQueue(s, Apply(s, st));
    case BirthStep(k, ok) => BirthSameQueue(s, k, ok);
    case Loop(l) => LoopKeepsQueue(s, l);
    case Lose => MoveSameQueue(s, ConnectionLost);
    case Stop(ok) => StopSameQueue(s, ok);
    case _ =>
  }

  // ----- the deaths of Stop -----

  /** The deaths published, or tried to be. */
  function DeathsOf(log: seq<Record>): seq<Msg> {
    if log == [] then []
    else
      var n := |log| - 1;
      DeathsOf(log[..n]) + (if log[n].Sent? && (log[n].msg.Ddeath? || log[n].msg.Ndeath?) then [log[n].msg] else [])
  }

  /** One DDEATH for each of the first n devices, in order. */
  ghost predicate DeviceDeaths(deaths: seq<Msg>, n: nat) {
    |deaths| == n && forall i :: 0 <= i < n ==> deaths[i].Ddeath? && deaths[i].device == i
  }

  /** Stop publishes a DDEATH for every device, in order, and then one NDEATH. */
  ghost predicate DeathsOk(s: Node) {
    var deaths := DeathsOf(s.log);
    match s.stop
    case NotStopping => deaths == []
    case DeathOf(i) => i <= s.devices && DeviceDeaths(deaths, i)
    case SendingDeath(i, _) => i < s.devices && DeviceDeaths(deaths, i)
    case NodeDeath => DeviceDeaths(deaths, s.devices)
    case SendingNodeDeath(_) => DeviceDeaths(deaths, s.devices)
    case _ => |deaths| == s.devices + 1 && DeviceDeaths(deaths[..s.devices], s.devices) && deaths[s.devices].Ndeath?
  }

  lemma DeathsGrow(log: seq<Record>, r: Record)
    ensures DeathsOf(log + [r]) == DeathsOf(log) + (if r.Sent? && (r.msg.Ddeath? || r.msg.Ndeath?) then [r.msg] else [])
  {
    assert (log + [r])[..|log|] == log;
  }

  ghost predicate SameDeaths(s: Node, t: Node) {
    DeathsOf(t.log) == DeathsOf(s.log) && t.devices == s.devices && t.stop == s.stop
  }

  lemma MoveSameDeaths(s: Node, event: Event)
    ensures SameDeaths(s, Move(s, event))
  {
    DeathsGrow(s.log, Moved(Next(s.sm, event)));
  }

  lemma LogSameDeaths(s: Node, msg: Msg, ok: bool)
    requires !msg.Ddeath? && !msg.Ndeath?
    ensures SameDeaths(s, Log(s, msg, ok))
  {
    DeathsGrow(s.log, Sent(msg, ok));
  }

  lemma BirthSameDeaths(s: Node, k: nat, ok: bool)
    requires k < |s.births|
    ensures SameDeaths(s, BirthOn(s, k, ok))
  {
    var b := s.births[k];
    hide DeathsOf;
    match b.pc
    case Publishing(n) => LogSameDeaths(s, Nbirth(k, b.bdSeq, n), ok);
    case SendingDevice(i, n) => LogSameDeaths(s, Dbirth(k, i, n), ok);
    case Succeeding => MoveSameDeaths(s, ConnectSuccess);
    case Failing => MoveSameDeaths(s, ConnectFail);
    case _ =>
  }

  lemma LoopSameDeaths(s: Node, l: LoopStep)
    requires LoopEnabled(s, l)
    ensures SameDeaths(s, LoopOn(s, l))
  {
    hide DeathsOf;
    if l.Publish? {
      LogSameDeaths(s, Ddata(s.loop.u, s.loop.number), l.ok);
    }
  }

  lemma StopKeepsDeaths(s: Node, ok: bool)
    requires DeathsOk(s) && StopEnabled(s)
    ensures DeathsOk(StopOn(s, ok))
  {
    hide DeathsOf;
    match s.stop
    case SendingDeath(i, n) => DeathsGrow(s.log, Sent(Ddeath(i, n), ok));
    case SendingNodeDeath(bd) =>
      DeathsGrow(s.log, Sent(Ndeath(bd), ok));
      assert (DeathsOf(s.log) + [Ndeath(bd)])[..s.devices] == DeathsOf(s.log);
    case Leaving => MoveSameDeaths(s, Disconnect);
    case _ =>
  }

  lemma DeathsKeeps(s: Node, st: Step)
    requires DeathsOk(s) && Enabled(s, st)
    ensures DeathsOk(Apply(s, st))
  {
    hide DeathsOf, BirthOn, LoopOn, StopOn, Move, DeviceDeaths;
    match st
    case StartCall => MoveSameDeaths(s, ConnectAttempt);
    case StartErr => MoveSameDeaths(s, ConnectFail);
    case BirthStep(k, ok) => BirthSameDeaths(s, k, ok);
    case Loop(l) => LoopSameDeaths(s, l);
    case Lose => MoveSameDeaths(s, ConnectionLost);
    case Stop(ok) => StopKeepsDeaths(s, ok);
    case _ =>
  }
}
