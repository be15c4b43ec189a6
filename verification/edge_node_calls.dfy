/** The methods of internal/sparkplug/edge_node.go when nothing else runs beside them:
    the loops over devices, the tracker and the state machine, in place. */
module EdgeNodeCalls {
  import opened Base
  import opened Scalars
  import opened SparkplugState
  import Seq = SparkplugSeq
  import Steps = EdgeNode

  /** The DBIRTHs of a birth: one for each device in order, numbered from 1. */
  function Dbirths(k: nat, oks: seq<bool>): seq<Steps.Record> {
    seq(|oks|, i requires 0 <= i < |oks| => Steps.Sent(Steps.Dbirth(k, i, (i + 1) % 256), oks[i]))
  }

  /** The DDEATHs of Stop: one for each device in order, with consecutive numbers. */
  function Ddeaths(from: nat, oks: seq<bool>): seq<Steps.Record> {
    seq(|oks|, i requires 0 <= i < |oks| => Steps.Sent(Steps.Ddeath(i, (from + i) % 256), oks[i]))
  }

  class EdgeNode {
    const devices: nat
    const tracker: Seq.SeqTracker
    const machine: StateMachine
    var bdSeq: UInt64
    var births: nat
    var updates: seq<Steps.Update>
    var log: seq<Steps.Record>

    /** `births` counts the birth attempts, bdSeq is that count as a 64-bit word. */
    ghost predicate Valid()
      reads this
    {
      bdSeq == births % Seq.WORD && |updates| <= Steps.CAPACITY
    }

    constructor (devices: nat)
      ensures Valid() && fresh(tracker) && fresh(machine) && this.devices == devices
      ensures births == 0 && updates == [] && log == [] && tracker.counter == 0 && machine.state == Offline
    {
      this.devices := devices;
      tracker := new Seq.SeqTracker();
      machine := new StateMachine();
      bdSeq, births, updates, log := 0, 0, [], [];
    }

    /** publishBirths: oks says which publishes the broker accepts, NBIRTH first. The
        NBIRTH carries 0 and the next bdSeq; the DBIRTHs follow only an accepted NBIRTH,
        numbered 1, 2, ... in device order, and a failing DBIRTH stops nothing. */
    method PublishBirths(nbirthOk: bool, oks: seq<bool>)
      requires Valid() && |oks| == devices
      modifies this`bdSeq, this`births, this`log, tracker, machine
      ensures Valid() && births == old(births) + 1
      ensures log == old(log) + [Steps.Sent(Steps.Nbirth(old(births), (old(births) + 1) % Seq.WORD, 0), nbirthOk)]
                     + (if nbirthOk then Dbirths(old(births), oks) else [])
      ensures |log| == |old(log)| + 1 + if nbirthOk then devices else 0
      ensures nbirthOk ==> forall i :: 0 <= i < devices ==>
                log[|old(log)| + 1 + i] == Steps.Sent(Steps.Dbirth(old(births), i, (i + 1) % 256), oks[i])
      ensures machine.state == Next(old(machine.state), if nbirthOk then ConnectSuccess else ConnectFail)
      ensures tracker.counter == (if nbirthOk then devices + 1 else 1) % Seq.WORD
    {
      var k := births;
      Seq.WrapLater(k);
      bdSeq := Seq.Advance(bdSeq);
      births := births + 1;
      tracker.Reset();
      var number := tracker.Next();
      log := log + [Steps.Sent(Steps.Nbirth(k, bdSeq, number), nbirthOk)];
      if !nbirthOk {
        var _ := machine.Transition(ConnectFail, []);
        return;
      }
      ghost var before := log;
      for i := 0 to devices
        invariant births == k + 1 && bdSeq == births % Seq.WORD
        invariant log == before + Dbirths(k, oks[..i])
        invariant tracker.counter == (i + 1) % Seq.WORD
        invariant machine.state == old(machine.state)
      {
        Seq.WrapLater(i + 1);
        Seq.Divides(i + 1);
        var n := tracker.Next();
        log := log + [Steps.Sent(Steps.Dbirth(k, i, n), oks[i])];
        assert Dbirths(k, oks[..i + 1]) == Dbirths(k, oks[..i]) + [Steps.Sent(Steps.Dbirth(k, i, n), oks[i])];
      }
      assert oks[..devices] == oks;
      var _ := machine.Transition(ConnectSuccess, []);
    }

    /** HandleTagUpdate: dropped unless Online and the channel has room. */
    method HandleTagUpdate(u: Steps.Update)
      requires Valid()
      modifies this`updates
      ensures Valid()
      ensures updates == if machine.state == Online && |old(updates)| < Steps.CAPACITY then old(updates) + [u] else old(updates)
    {
      if machine.state != Online {
        return;
      }
      if |updates| < Steps.CAPACITY {
        updates := updates + [u];
      }
    }

    /** One turn of publishLoop: the oldest update leaves the channel, and becomes DDATA
        if the node is online; the tracker moves only for DDATA. */
    method PublishNext(ok: bool)
      requires Valid() && updates != []
      modifies this`updates, this`log, tracker
      ensures Valid() && updates == old(updates)[1..]
      ensures machine.state == Online ==>
                && log == old(log) + [Steps.Sent(Steps.Ddata(old(updates)[0], old(tracker.counter) % 256), ok)]
                && tracker.counter == Seq.Advance(old(tracker.counter))
      ensures machine.state != Online ==> log == old(log) && tracker.counter == old(tracker.counter)
    {
      var u := updates[0];
      updates := updates[1..];
      if machine.state != Online {
        return;
      }
      var n := tracker.Next();
      log := log + [Steps.Sent(Steps.Ddata(u, n), ok)];
    }

    /** Stop up to its Disconnect event: a DDEATH for every device, then the NDEATH with
        the current bdSeq, whichever of them the broker accepts. */
    method PublishDeaths(oks: seq<bool>, ndeathOk: bool)
      requires Valid() && |oks| == devices
      modifies this`log, tracker, machine
      ensures Valid()
      ensures log == old(log) + Ddeaths(old(tracker.counter), oks) + [Steps.Sent(Steps.Ndeath(births % Seq.WORD), ndeathOk)]
      ensures |log| == |old(log)| + devices + 1
      ensures forall i :: 0 <= i < devices ==>
                log[|old(log)| + i] == Steps.Sent(Steps.Ddeath(i, (old(tracker.counter) + i) % 256), oks[i])
      ensures machine.state == Next(old(machine.state), Disconnect)
    {
      ghost var from := tracker.counter;
      for i := 0 to devices
        invariant log == old(log) + Ddeaths(from, oks[..i])
        invariant tracker.counter == (from + i) % Seq.WORD
        invariant machine.state == old(machine.state)
      {
        Seq.WrapLater(from + i);
        Seq.Divides(from + i);
        var n := tracker.Next();
        log := log + [Steps.Sent(Steps.Ddeath(i, n), oks[i])];
        assert Ddeaths(from, oks[..i + 1]) == Ddeaths(from, oks[..i]) + [Steps.Sent(Steps.Ddeath(i, n), oks[i])];
      }
      assert oks[..devices] == oks;
      log := log + [Steps.Sent(Steps.Ndeath(bdSeq), ndeathOk)];
      var _ := machine.Transition(Disconnect, []);
    }
  }
}
