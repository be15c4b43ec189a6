/** Where the edge node does less than its comments say: Stop while connecting, births
    that overlap other users of the tracker, and reconnection. */
module EdgeNodeGaps {
  import opened Base
  import opened Scalars
  import opened SparkplugState
  import Seq = SparkplugSeq
  import PlcManager
  import opened EdgeNode
  import opened EdgeNodeInvariants
  import opened EdgeNodeTheorems

  lemma OneMore(s: Node, st: Step, rest: seq<Step>)
    requires Enabled(s, st) && IsRun(Apply(s, st), rest)
    ensures IsRun(s, [st] + rest) && After(s, [st] + rest) == After(Apply(s, st), rest)
  {
    assert ([st] + rest)[1..] == rest;
  }

  // ----- Stop while connecting -----

  lemma {:induction false} DevicesToOnline(s: Node, k: nat) returns (run: seq<Step>)
    requires s.sm == Connecting && k < |s.births| && s.births[k].pc.AtDevice? && s.births[k].pc.i <= s.devices
    ensures IsRun(s, run) && After(s, run).sm == Online
    decreases s.devices - s.births[k].pc.i
  {
    var st := BirthStep(k, true);
    var t := Apply(s, st);
    var u := Apply(t, st);
    if s.births[k].pc.i < s.devices {
      run := DevicesToOnline(u, k);
    } else {
      run := [];
    }
    OneMore(t, st, run);
    OneMore(s, st, [st] + run);
    run := [st] + ([st] + run);
  }

  lemma ConnectingCanGoOnline(s: Node) returns (run: seq<Step>)
    requires s.sm == Connecting && !s.start.Fresh?
    ensures IsRun(s, run) && After(s, run).sm == Online
  {
    var st := BirthStep(|s.births|, true);
    var s1 := Apply(s, Callback);
    var s2 := Apply(s1, st);
    var s3 := Apply(s2, st);
    var s4 := Apply(s3, st);
    hide IsRun, After;
    run := DevicesToOnline(s4, |s.births|);
    OneMore(s3, st, run);
    OneMore(s2, st, [st] + run);
    OneMore(s1, st, [st] + ([st] + run));
    OneMore(s, Callback, [st] + ([st] + ([st] + run)));
    run := [Callback] + ([st] + ([st] + ([st] + run)));
  }

  ghost predicate NeverOnline(t: Node) {
    forall more :: IsRun(t, more) ==> After(t, more).sm != Online
  }

  /** Stop's Disconnect event keeps the node offline for good if and only if the node was
      not Connecting at that moment: the event does not apply to Connecting, and a birth
      may still bring the node online after Stop has returned. */
  lemma StopIsFinalUnlessConnecting(devices: nat, run: seq<Step>, ok: bool)
    requires IsRun(Initial(devices), run) && After(Initial(devices), run).stop.Leaving?
    requires !After(Initial(devices), run).start.Fresh?
    ensures var s := After(Initial(devices), run);
            NeverOnline(StopOn(s, ok)) <==> s.sm != Connecting
  {
    var s := After(Initial(devices), run);
    var t := StopOn(s, ok);
    hide IsRun, After;
    if s.sm == Connecting {
      var more := ConnectingCanGoOnline(t);
    } else {
      assert OfflineForGood(t);
      forall more | IsRun(t, more)
        ensures After(t, more).sm != Online
      {
        OfflineRun(t, more);
      }
    }
  }

  // ----- concrete runs -----

  ghost predicate Leads(s: Node, t: Node) {
    exists run :: IsRun(s, run) && After(s, run) == t
  }

  lemma NoSteps(s: Node)
    ensures Leads(s, s)
  {
    assert IsRun(s, []) && After(s, []) == s;
  }

  lemma {:induction false} Appended(s: Node, run: seq<Step>, st: Step)
    requires IsRun(s, run) && Enabled(After(s, run), st)
    ensures IsRun(s, run + [st]) && After(s, run + [st]) == Apply(After(s, run), st)
    decreases |run|
  {
    hide Enabled, Apply;
    if run == [] {
      assert [st][1..] == [];
      assert run + [st] == [st];
    } else {
      assert (run + [st])[1..] == run[1..] + [st];
      Appended(Apply(s, run[0]), run[1..], st);
    }
  }

  lemma Then(s0: Node, s: Node, st: Step)
    requires Leads(s0, s) && Enabled(s, st)
    ensures Leads(s0, Apply(s, st))
  {
    var run :| IsRun(s0, run) && After(s0, run) == s;
    Appended(s0, run, st);
  }

  /** Stop directly after Start, with no birth yet: it comes to its Disconnect while the
      node is Connecting, and a birth may bring the node online afterwards. */
  lemma StopCanLeaveConnecting()
    ensures exists s :: Leads(Initial(0), s) && s.stop.Leaving? && s.sm == Connecting && !NeverOnline(StopOn(s, true))
  {
    hide Leads, NeverOnline;
    var s0, stop := Initial(0), Stop(true);
    NoSteps(s0);
    var s := s0;
    Then(s0, s, StartCall);
    s := Apply(s, StartCall);
    Then(s0, s, ConnectOkay);
    s := Apply(s, ConnectOkay);
    Then(s0, s, stop);
    s := Apply(s, stop);
    Then(s0, s, stop);
    s := Apply(s, stop);
    Then(s0, s, stop);
    s := Apply(s, stop);
    Then(s0, s, stop);
    s := Apply(s, stop);
    ConnectingGoesOn(StopOn(s, true));
  }

  lemma ConnectingGoesOn(s: Node)
    requires s.sm == Connecting && !s.start.Fresh?
    ensures !NeverOnline(s)
  {
    hide IsRun, After;
    var run := ConnectingCanGoOnline(s);
  }

  /** What a birth does not touch. */
  ghost predicate SameAround(s: Node, t: Node) {
    t == s.(counter := t.counter, ops := t.ops, births := t.births, log := t.log, sm := t.sm, path := t.path)
  }

  /** One birth of a node without devices, alone and with a broker that accepts it. */
  lemma QuietBirth(s0: Node, s: Node, k: nat) returns (t: Node)
    requires Leads(s0, s) && s.devices == 0 && k < |s.births| && s.births[k].pc.Resetting?
    ensures Leads(s0, t) && SameAround(s, t) && t.sm == Next(s.sm, ConnectSuccess)
    ensures t.births == s.births[k := s.births[k].(pc := Over)]
    ensures exists j :: |s.log| <= j < |t.log| && IsBirth(t.log[j], k)
  {
    hide Leads;
    var st := BirthStep(k, true);
    t := s;
    Then(s0, t, st);
    t := Apply(t, st);
    Then(s0, t, st);
    t := Apply(t, st);
    Then(s0, t, st);
    t := Apply(t, st);
    assert IsBirth(t.log[|s.log|], k);
    Then(s0, t, st);
    t := Apply(t, st);
    ghost var u := t;
    Then(s0, t, st);
    t := Apply(t, st);
    assert t.log[|s.log|] == u.log[|s.log|];
  }

  /** A node without devices that has just come online. */
  lemma Onlined() returns (s: Node)
    ensures Leads(Initial(0), s)
    ensures s.devices == 0 && s.sm == Online && s.start.Launched? && |s.births| == 1 && s.losing == 0
    ensures s.loop.Waiting? && s.reconnect.Listening? && s.updates == [] && s.offering == []
  {
    hide Leads;
    var s0 := Initial(0);
    NoSteps(s0);
    s := s0;
    Then(s0, s, StartCall);
    s := Apply(s, StartCall);
    Then(s0, s, ConnectOkay);
    s := Apply(s, ConnectOkay);
    Then(s0, s, Callback);
    s := Apply(s, Callback);
    s := QuietBirth(s0, s, 0);
  }

  lemma LossHeard(s0: Node, s: Node) returns (t: Node)
    requires Leads(s0, s) && s.sm == Online && !s.start.Fresh? && s.losing == 0 && s.reconnect.Listening?
    ensures Leads(s0, t) && t.sm == Offline && t.reconnect == Republishing(|s.births|) && t.devices == s.devices
    ensures !t.start.Fresh? && |t.births| == |s.births| + 1 && t.births[|s.births|].pc == Resetting
  {
    hide Leads;
    t := s;
    Then(s0, t, Lose);
    t := Apply(t, Lose);
    Then(s0, t, Signal);
    t := Apply(t, Signal);
    Then(s0, t, Reconnect(Hear));
    t := Apply(t, Reconnect(Hear));
    Then(s0, t, Reconnect(ConnectOk));
    t := Apply(t, Reconnect(ConnectOk));
    Then(s0, t, Reconnect(Rebirth));
    t := Apply(t, Reconnect(Rebirth));
  }

  /** After a lost connection the node reconnects and publishes a second NBIRTH
      successfully, and yet stays Offline: the reconnect path never makes a connection
      attempt, and the success of a birth does not apply to Offline. */
  lemma ReconnectedStaysOffline()
    ensures exists s ::
              && Leads(Initial(0), s)
              && SentBirth(s.log, 1) && |s.births| == 2 && s.births[1].pc.Over? && s.reconnect.Draining?
              && s.sm == Offline && NeverOnline(s)
  {
    hide Leads;
    var s0 := Initial(0);
    var s1 := Onlined();
    var s2 := LossHeard(s0, s1);
    var s3 := QuietBirth(s0, s2, 1);
    Then(s0, s3, Reconnect(BirthDone));
    var s4 := Apply(s3, Reconnect(BirthDone));
    assert SentBirth(s3.log, 1);
    hide IsRun, After;
    forall more | IsRun(s4, more)
      ensures After(s4, more).sm != Online
    {
      OfflineRun(s4, more);
    }
  }

  lemma DataPassed(s0: Node, s: Node, u: Update) returns (t: Node)
    requires Leads(s0, s) && s.sm == Online && s.loop.Waiting? && s.updates == [] && s.offering == []
    ensures Leads(s0, t) && t.loop == Checked(u) && t.births == s.births && t.start == s.start
  {
    hide Leads;
    t := s;
    Then(s0, t, Offer(u));
    t := Apply(t, Offer(u));
    Then(s0, t, Send(0));
    t := Apply(t, Send(0));
    Then(s0, t, Loop(Take));
    t := Apply(t, Loop(Take));
    Then(s0, t, Loop(Check));
    t := Apply(t, Loop(Check));
  }

  /** A rebirth can publish an NBIRTH that carries 1: the publish loop took 0 between the
      birth's Reset and its Next. */
  lemma NbirthCanCarryOne(u: Update)
    ensures exists s, bd: UInt64 ::
              && Leads(Initial(0), s) && s.log != []
              && s.log[|s.log| - 1] == Sent(Nbirth(1, bd, 1), true)
              && Seq.Next(ForData, 0) in s.ops
  {
    hide Leads;
    var s0 := Initial(0);
    var s := Onlined();
    s := DataPassed(s0, s, u);
    Then(s0, s, Callback);
    s := Apply(s, Callback);
    var st := BirthStep(1, true);
    Then(s0, s, st);
    s := Apply(s, st);
    Then(s0, s, Loop(TakeNumber));
    s := Apply(s, Loop(TakeNumber));
    assert s.ops[|s.ops| - 1] == Seq.Next(ForData, 0);
    ghost var ops := s.ops;
    Then(s0, s, st);
    s := Apply(s, st);
    assert s.ops[|ops| - 1] == ops[|ops| - 1];
    Then(s0, s, st);
    s := Apply(s, st);
    assert s.log[|s.log| - 1] == Sent(Nbirth(1, s.births[1].bdSeq, 1), true);
  }

  /** One birth resets the tracker, the publish loop takes 0, and another birth resets
      again, all before the first birth takes its number. */
  lemma OverlappingResets(u: Update) returns (s: Node, i: nat)
    ensures Leads(Initial(0), s) && |s.births| == 3 && s.births[1].pc == Numbering && s.counter == 0
    ensures i <= |s.ops| && s.ops[i..] == [Seq.Reset(ForNbirth(1)), Seq.Next(ForData, 0), Seq.Reset(ForNbirth(2))]
  {
    hide Leads;
    var s0 := Initial(0);
    s := Onlined();
    s := DataPassed(s0, s, u);
    i := |s.ops|;
    Then(s0, s, Callback);
    s := Apply(s, Callback);
    Then(s0, s, BirthStep(1, true));
    s := Apply(s, BirthStep(1, true));
    Then(s0, s, Loop(TakeNumber));
    s := Apply(s, Loop(TakeNumber));
    Then(s0, s, Callback);
    s := Apply(s, Callback);
    Then(s0, s, BirthStep(2, true));
    s := Apply(s, BirthStep(2, true));
  }

  /** Two rebirths that overlap: one NBIRTH carries 0 although the publish loop took a
      number between that birth's Reset and its Next, because the other birth's reset
      came between as well. */
  lemma OverlappingNbirthCarriesZero(u: Update)
    ensures exists s, i, bd: UInt64 ::
              && Leads(Initial(0), s) && s.log != [] && 0 <= i <= |s.ops|
              && s.log[|s.log| - 1] == Sent(Nbirth(1, bd, 0), true)
              && s.ops[i..] == [Seq.Reset(ForNbirth(1)), Seq.Next(ForData, 0), Seq.Reset(ForNbirth(2)),
                                Seq.Next(ForNbirth(1), 0)]
  {
    hide Leads;
    var s0, st := Initial(0), BirthStep(1, true);
    var s1, i := OverlappingResets(u);
    Then(s0, s1, st);
    var s := Apply(s1, st);
    assert s.ops[i..] == s1.ops[i..] + [Seq.Next(ForNbirth(1), 0)];
    Then(s0, s, st);
    s := Apply(s, st);
    assert s.log[|s.log| - 1] == Sent(Nbirth(1, s.births[1].bdSeq, 0), true);
  }
}
