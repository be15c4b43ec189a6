/** The methods of the edge node are runs of its steps: what EdgeNodeCalls does at one
    stroke, the steps do one after the other when nothing else runs beside them. And what
    the steps do to the state machine, event by event. */
module EdgeNodeCallRuns {
  import opened Base
  import opened Scalars
  import opened SparkplugState
  import Seq = SparkplugSeq
  import opened EdgeNode
  import opened EdgeNodeInvariants
  import opened EdgeNodeGaps
  import Calls = EdgeNodeCalls

  // ----- the state machine -----

  /** Birth k is about to tell the state machine that it failed, or that it succeeded. */
  predicate AtEnd(s: Node, st: Step, pc: BirthPc) {
    st.BirthStep? && st.k < |s.births| && s.births[st.k].pc == pc
  }

  /** Every step of the node, in every state: the first Start goes Connecting; from
      Connecting a finished birth goes Online, and a refused Start or a birth whose NBIRTH
      was refused goes Offline; from Online a lost connection or Stop goes Offline; nothing
      else moves the state. */
  lemma StateFollowsEvents(s: Node, st: Step)
    requires Enabled(s, st)
    ensures Apply(s, st).sm ==
            match s.sm
            case Offline => if st.StartCall? then Connecting else Offline
            case Connecting =>
              if AtEnd(s, st, Succeeding) then Online
              else if st.StartErr? || AtEnd(s, st, Failing) then Offline
              else Connecting
            case Online => if st.Lose? || (st.Stop? && s.stop.Leaving?) then Offline else Online
  {
    MovesByEvent(s, st);
    hide Apply, Enabled;
  }

  /** A birth whose NBIRTH the broker refuses publishes nothing else, and leaves a node
      that was Connecting Offline. */
  lemma RefusedBirth(s: Node, k: nat, ok: bool)
    requires k < |s.births| && s.births[k].pc.Publishing?
    ensures var st := BirthStep(k, false);
            var t := Apply(s, st);
            && t.log == s.log + [Sent(Nbirth(k, s.births[k].bdSeq, s.births[k].pc.number), false)]
            && Enabled(t, BirthStep(k, ok))
            && var u := Apply(t, BirthStep(k, ok));
               && u.births[k].pc.Over? && u.sm == (if s.sm == Connecting then Offline else s.sm)
               && u.log == t.log + (if s.sm == Connecting then [Moved(Offline)] else [])
  {
  }

  /** What Stop holds as its NDEATH is what it publishes. */
  lemma SendsHeldNdeath(s: Node, ok: bool)
    requires s.stop.SendingNodeDeath?
    ensures StopOn(s, ok).log == s.log + [Sent(Ndeath(s.stop.bdSeq), ok)] && StopOn(s, ok).stop.Leaving?
  {
  }

  // ----- HandleTagUpdate and a turn of publishLoop -----

  /** HandleTagUpdate: the update joins the channel exactly when the node is Online and the
      channel has room. */
  lemma HandleTagUpdateIsRun(s: Node, u: Update) returns (t: Node)
    requires s.offering == []
    ensures Leads(s, t) && t == s.(updates := t.updates, accepted := t.accepted)
    ensures t.updates == if s.sm == Online && |s.updates| < CAPACITY then s.updates + [u] else s.updates
  {
    hide Leads;
    NoSteps(s);
    Then(s, s, Offer(u));
    t := Apply(s, Offer(u));
    if s.sm == Online {
      Then(s, t, Send(0));
      t := Apply(t, Send(0));
    }
  }

  /** One turn of publishLoop: the oldest update becomes one DDATA with the next number if
      the node is Online, and is dropped without using a number if not. */
  lemma PublishNextIsRun(s: Node, ok: bool) returns (t: Node)
    requires s.loop.Waiting? && s.updates != []
    ensures Leads(s, t) && t.loop.Waiting? && t.updates == s.updates[1..]
    ensures s.sm == Online ==>
              && t.log == s.log + [Sent(Ddata(s.updates[0], s.counter % 256), ok)]
              && t.counter == Seq.Advance(s.counter)
    ensures s.sm != Online ==> t.log == s.log && t.counter == s.counter
  {
    hide Leads;
    NoSteps(s);
    Then(s, s, Loop(Take));
    t := Apply(s, Loop(Take));
    Then(s, t, Loop(Check));
    t := Apply(t, Loop(Check));
    if s.sm == Online {
      Then(s, t, Loop(TakeNumber));
      t := Apply(t, Loop(TakeNumber));
      Then(s, t, Loop(Publish(ok)));
      t := Apply(t, Loop(Publish(ok)));
    }
  }

  // ----- publishBirths -----

  /** The first i devices have got their DBIRTH. */
  lemma {:induction false} DbirthsRun(s0: Node, s: Node, k: nat, oks: seq<bool>, i: nat) returns (t: Node)
    requires Leads(s0, s) && k < |s.births| && s.births[k].pc == AtDevice(0) && i <= |oks| == s.devices
    requires s.counter == 1
    ensures Leads(s0, t) && SameAround(s, t) && t.births == s.births[k := s.births[k].(pc := AtDevice(i))]
    ensures t.sm == s.sm && t.log == s.log + Calls.Dbirths(k, oks[..i]) && t.counter == (i + 1) % Seq.WORD
    decreases i
  {
    hide Leads;
    if i == 0 {
      t := s;
      assert Calls.Dbirths(k, oks[..0]) == [];
    } else {
      var u := DbirthsRun(s0, s, k, oks, i - 1);
      Seq.WrapLater(i);
      Seq.Divides(i);
      t := OneDbirth(s0, u, k, oks[i - 1]);
      assert Calls.Dbirths(k, oks[..i]) ==
             Calls.Dbirths(k, oks[..i - 1]) + [Sent(Dbirth(k, i - 1, i % 256), oks[i - 1])];
    }
  }

  lemma OneDbirth(s0: Node, s: Node, k: nat, ok: bool) returns (t: Node)
    requires Leads(s0, s) && k < |s.births| && s.births[k].pc.AtDevice? && s.births[k].pc.i < s.devices
    ensures Leads(s0, t) && SameAround(s, t) && t.sm == s.sm && t.counter == Seq.Advance(s.counter)
    ensures t.births == s.births[k := s.births[k].(pc := AtDevice(s.births[k].pc.i + 1))]
    ensures t.log == s.log + [Sent(Dbirth(k, s.births[k].pc.i, s.counter % 256), ok)]
  {
    hide Leads;
    Then(s0, s, BirthStep(k, ok));
    t := Apply(s, BirthStep(k, ok));
    Then(s0, t, BirthStep(k, ok));
    t := Apply(t, BirthStep(k, ok));
  }

  /** The head of publishBirths: reset, number 0, NBIRTH with the next bdSeq. */
  lemma NbirthRun(s: Node, ok: bool) returns (t: Node)
    requires !s.start.Fresh?
    ensures Leads(s, t) && t.counter == 1 && t.sm == s.sm && t.devices == s.devices && !t.start.Fresh?
    ensures t.births == s.births + [Birth(Seq.Advance(s.bdSeq), if ok then AtDevice(0) else Failing)]
    ensures t.log == s.log + [Sent(Nbirth(|s.births|, Seq.Advance(s.bdSeq), 0), ok)]
  {
    hide Leads;
    var st := BirthStep(|s.births|, ok);
    NoSteps(s);
    Then(s, s, Callback);
    t := Apply(s, Callback);
    Then(s, t, st);
    t := Apply(t, st);
    Then(s, t, st);
    t := Apply(t, st);
    Then(s, t, st);
    t := Apply(t, st);
  }

  /** publishBirths, with the broker's answers: NBIRTH with 0 and the next bdSeq; if it is
      accepted a DBIRTH for each device, numbered from 1, whatever becomes of them, and the
      event of success; if not, the event of failure. */
  lemma PublishBirthsIsRun(s: Node, nbirthOk: bool, oks: seq<bool>) returns (t: Node)
    requires !s.start.Fresh? && |oks| == s.devices
    ensures Leads(s, t) && |t.births| == |s.births| + 1 && t.births[|s.births|].pc.Over?
    ensures var k := |s.births|;
            var sent := [Sent(Nbirth(k, Seq.Advance(s.bdSeq), 0), nbirthOk)]
                        + (if nbirthOk then Calls.Dbirths(k, oks) else []);
            t.log == s.log + sent + (if s.sm == Connecting then [Moved(t.sm)] else [])
    ensures t.sm == Next(s.sm, if nbirthOk then ConnectSuccess else ConnectFail)
    ensures t.counter == (if nbirthOk then s.devices + 1 else 1) % Seq.WORD
  {
    var k := |s.births|;
    t := NbirthRun(s, nbirthOk);
    hide Leads;
    if nbirthOk {
      t := DbirthsRun(s, t, k, oks, |oks|);
      assert oks[..|oks|] == oks;
      Then(s, t, BirthStep(k, true));
      t := Apply(t, BirthStep(k, true));
    }
    Then(s, t, BirthStep(k, true));
    t := Apply(t, BirthStep(k, true));
  }
}
