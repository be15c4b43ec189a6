/** What the edge node guarantees in every run, and where it does less than its comments
    say. */
module EdgeNodeTheorems {
  import opened Base
  import opened Scalars
  import opened SparkplugState
  import Seq = SparkplugSeq
  import PlcManager
  import opened EdgeNode
  import opened EdgeNodeInvariants
  import opened EdgeNodeMessages
  import opened EdgeNodeNumbers
  import opened EdgeNodeBirths

  ghost predicate Inv(s: Node) {
    && PathOk(s) && TrackedOk(s) && BirthsOk(s) && HistoryOk(s)
    && QueueOk(s) && DeathsOk(s) && LedgerOk(s) && LoopOffOk(s) && ResetsOk(s) && TrailsOk(s)
  }

  lemma InitialHolds(devices: nat)
    ensures Inv(Initial(devices))
  {
  }

  lemma StepKeeps(s: Node, st: Step)
    requires Inv(s) && Enabled(s, st)
    ensures Inv(Apply(s, st))
  {
    hide PathOk, TrackedOk, BirthsOk, HistoryOk, QueueOk, DeathsOk, LedgerOk, LoopOffOk, ResetsOk, TrailsOk, Enabled, Apply;
    PathKeeps(s, st);
    TrackedKeeps(s, st);
    BirthsKeeps(s, st);
    HistoryKeeps(s, st);
    QueueKeeps(s, st);
    DeathsKeeps(s, st);
    LedgerKeeps(s, st);
    LoopOffKeeps(s, st);
    ResetsKeep(s, st);
    TrailsKeep(s, st);
  }

  lemma {:induction false} RunKeeps(s: Node, run: seq<Step>)
    requires Inv(s) && IsRun(s, run)
    ensures Inv(After(s, run))
    decreases |run|
  {
    hide Inv, Enabled, Apply;
    if run != [] {
      StepKeeps(s, run[0]);
      RunKeeps(Apply(s, run[0]), run[1..]);
    }
  }

  /** The parts of the invariant, one by one, for every run. */
  lemma InvInRun(devices: nat, run: seq<Step>)
    requires IsRun(Initial(devices), run)
    ensures var s := After(Initial(devices), run);
            && PathOk(s) && TrackedOk(s) && BirthsOk(s) && HistoryOk(s)
            && QueueOk(s) && DeathsOk(s) && LedgerOk(s) && ResetsOk(s) && TrailsOk(s)
  {
    InitialHolds(devices);
    RunKeeps(Initial(devices), run);
    hide PathOk, TrackedOk, BirthsOk, HistoryOk, QueueOk, DeathsOk, LedgerOk, ResetsOk, TrailsOk;
  }

  // ----- one stretch of being online -----

  /** In every run the states visited are Offline, Connecting, and then Offline, or one
      stretch of Online that ends, if it does, in Offline. */
  lemma OneOnlineStretch(devices: nat, run: seq<Step>)
    requires IsRun(Initial(devices), run)
    ensures var s := After(Initial(devices), run);
            && s.path != [] && s.sm == s.path[|s.path| - 1]
            && (|| s.path <= [Offline, Connecting, Offline]
                || s.path <= [Offline, Connecting, Online, Offline])
  {
    InvInRun(devices, run);
    hide After, IsRun, TrackedOk, BirthsOk, HistoryOk, QueueOk, DeathsOk, LedgerOk, ResetsOk, TrailsOk;
    ShapeIsPrefix(After(Initial(devices), run).path);
  }

  lemma ShapeIsPrefix(path: seq<State>)
    requires Shape(path)
    ensures path <= [Offline, Connecting, Offline] || path <= [Offline, Connecting, Online, Offline]
  {
    assert [Offline] <= [Offline, Connecting, Offline];
    assert [Offline, Connecting] <= [Offline, Connecting, Offline];
    assert [Offline, Connecting, Online] <= [Offline, Connecting, Online, Offline];
  }

  /** The state machine has been asked to connect and is offline. */
  ghost predicate OfflineForGood(s: Node) {
    s.sm == Offline && !s.start.Fresh?
  }

  lemma OfflineStep(s: Node, st: Step)
    requires OfflineForGood(s) && Enabled(s, st)
    ensures OfflineForGood(Apply(s, st))
  {
    MovesByEvent(s, st);
  }

  /** What may still reach the broker as DDATA, or the channel, from updates that were let
      through before. */
  function StillOnTheWay(s: Node): nat {
    |DataOf(s.log)| + if InFlight(s.loop) then 1 else 0
  }

  lemma OfflineStepAddsNoData(s: Node, st: Step)
    requires OfflineForGood(s) && Enabled(s, st)
    ensures StillOnTheWay(Apply(s, st)) <= StillOnTheWay(s)
    ensures |Apply(s, st).accepted| + |Apply(s, st).offering| <= |s.accepted| + |s.offering|
  {
    hide DataOf, BirthOn, StopOn, Move;
    match st
    case StartErr => MoveSameQueue(s, ConnectFail);
    case BirthStep(k, ok) => BirthSameQueue(s, k, ok);
    case Loop(l) => if l.Publish? { DataGrows(s.log, Sent(Ddata(s.loop.u, s.loop.number), l.ok)); }
    case Lose => MoveSameQueue(s, ConnectionLost);
    case Stop(ok) => StopSameQueue(s, ok);
    case _ =>
  }

  lemma {:induction false} OfflineRun(s: Node, run: seq<Step>)
    requires OfflineForGood(s) && IsRun(s, run)
    ensures var t := After(s, run);
            && OfflineForGood(t) && StillOnTheWay(t) <= StillOnTheWay(s)
            && |t.accepted| + |t.offering| <= |s.accepted| + |s.offering|
    decreases |run|
  {
    hide OfflineForGood, StillOnTheWay, Enabled, Apply;
    if run != [] {
      OfflineStep(s, run[0]);
      OfflineStepAddsNoData(s, run[0]);
      OfflineRun(Apply(s, run[0]), run[1..]);
    }
  }

  /** After a connection loss, or any other return to Offline, the node is never Online
      again, whatever reconnects and whichever births are published; at most one more
      DDATA is published, and no update is queued beyond those that had already passed
      HandleTagUpdate's check. */
  lemma NeverOnlineAgain(devices: nat, before: seq<Step>, run: seq<Step>)
    requires IsRun(Initial(devices), before)
    requires var s := After(Initial(devices), before); s.sm == Offline && !s.start.Fresh? && IsRun(s, run)
    ensures var s := After(Initial(devices), before);
            var t := After(s, run);
            && t.sm == Offline
            && |DataOf(t.log)| <= |DataOf(s.log)| + 1
            && |t.accepted| <= |s.accepted| + |s.offering|
  {
    OfflineRun(After(Initial(devices), before), run);
  }

  // ----- births before everything else -----

  /** What the i-th record of a log presupposes among the earlier ones. */
  ghost predicate Justified(log: seq<Record>, i: nat)
    requires i < |log|
  {
    match log[i]
    case Moved(to) => to == Online ==> exists j, k :: 0 <= j < i && IsBirth(log[j], k)
    case Sent(msg, _) =>
      match msg
      case Nbirth(k, bdSeq, _) => bdSeq == (k + 1) % Seq.WORD
      case Dbirth(k, _, _) => exists j :: 0 <= j < i && IsBirth(log[j], k)
      case Ddata(_, _) => exists j :: 0 <= j < i && log[j] == Moved(Online)
      case _ => true
  }

  lemma LogIsJustified(log: seq<Record>, i: nat)
    requires LogOk(log) && i < |log|
    ensures Justified(log, i)
  {
    assert OkAfter(log[..i], log[i]);
    hide LogOk;
    match log[i]
    case Moved(to) =>
      if to == Online {
        var k :| SentBirth(log[..i], k);
        var j :| 0 <= j < i && IsBirth(log[..i][j], k);
        assert IsBirth(log[j], k);
      }
    case Sent(msg, _) =>
      if msg.Dbirth? {
        var j :| 0 <= j < i && IsBirth(log[..i][j], msg.k);
        assert IsBirth(log[j], msg.k);
      } else if msg.Ddata? {
        var j :| 0 <= j < i && log[..i][j] == Moved(Online);
        assert log[j] == Moved(Online);
      }
  }

  /** In every run being online follows a birth that is complete, with its published NBIRTH
      and a DBIRTH for every device; every DBIRTH follows the published NBIRTH of its own
      attempt; every DDATA follows being online; and the k-th attempt (from 0) carries
      bdSeq k + 1, modulo 2^64. */
  lemma BirthsComeFirst(devices: nat, run: seq<Step>, i: nat)
    requires IsRun(Initial(devices), run) && i < |After(Initial(devices), run).log|
    ensures Justified(After(Initial(devices), run).log, i)
    ensures var log := After(Initial(devices), run).log;
            log[i] == Moved(Online) ==> exists k :: SentBirth(log[..i], k) && DbirthsOf(log[..i], k) == UpTo(devices)
  {
    InvInRun(devices, run);
    SameDevices(Initial(devices), run);
    var s := After(Initial(devices), run);
    hide After, IsRun, LogOk, Justified, PathOk, TrackedOk, BirthsOk, QueueOk, DeathsOk, LedgerOk, ResetsOk;
    hide SentBirth, DbirthsOf, UpTo, TrailOk;
    LogIsJustified(s.log, i);
    if s.log[i] == Moved(Online) {
      assert Complete(s.log[..i], devices);
    }
  }

  lemma StepSameDevices(s: Node, st: Step)
    requires Enabled(s, st)
    ensures Apply(s, st).devices == s.devices
  {
    hide NumberOf;
  }

  lemma {:induction false} SameDevices(s: Node, run: seq<Step>)
    requires IsRun(s, run)
    ensures After(s, run).devices == s.devices
    decreases |run|
  {
    hide Enabled, Apply;
    if run != [] {
      StepSameDevices(s, run[0]);
      SameDevices(Apply(s, run[0]), run[1..]);
    }
  }

  /** In every run the log shows how far each birth is: nothing before its NBIRTH is
      accepted, or when it is refused; then, and only then, one DBIRTH, published or
      tried, for each device passed, in order; and one for every device before and after
      the node is told that the birth succeeded. */
  lemma BirthsPublishDbirths(devices: nat, run: seq<Step>, k: nat)
    requires IsRun(Initial(devices), run) && k < |After(Initial(devices), run).births|
    ensures var s := After(Initial(devices), run);
            var dbirths := DbirthsOf(s.log, k);
            match s.births[k].pc
            case AtDevice(i) => i <= devices && SentBirth(s.log, k) && dbirths == UpTo(i)
            case SendingDevice(i, _) => i < devices && SentBirth(s.log, k) && dbirths == UpTo(i)
            case Succeeding => SentBirth(s.log, k) && dbirths == UpTo(devices)
            case Over => dbirths == if SentBirth(s.log, k) then UpTo(devices) else []
            case _ => !SentBirth(s.log, k) && dbirths == []
  {
    InvInRun(devices, run);
    SameDevices(Initial(devices), run);
    assert TrailOk(After(Initial(devices), run), k);
    hide After, IsRun, PathOk, TrackedOk, BirthsOk, HistoryOk, QueueOk, DeathsOk, LedgerOk, ResetsOk, OnlineOk;
    hide SentBirth, DbirthsOf, UpTo;
  }

  // ----- NDEATH -----

  /** The bdSeq that Stop puts in its NDEATH is the number of birth attempts made so far,
      so it is that of birth k exactly when k is the latest attempt. */
  lemma NdeathCarriesAttempts(devices: nat, run: seq<Step>, ok: bool)
    requires IsRun(Initial(devices), run) && After(Initial(devices), run).stop.NodeDeath?
    ensures var s := After(Initial(devices), run);
            var bd := StopOn(s, ok).stop.bdSeq;
            && bd == |s.births| % Seq.WORD
            && (|s.births| < Seq.WORD ==>
                  forall k :: 0 <= k < |s.births| ==> (s.births[k].bdSeq == bd <==> k == |s.births| - 1))
  {
    InvInRun(devices, run);
    hide After, IsRun, PathOk, TrackedOk, BirthsOk, HistoryOk, QueueOk, DeathsOk, LedgerOk, ResetsOk, TrailsOk;
    LatestBirth(After(Initial(devices), run));
  }

  lemma LatestBirth(s: Node)
    requires BirthsOk(s)
    ensures s.bdSeq == |s.births| % Seq.WORD
    ensures |s.births| < Seq.WORD ==>
              forall k :: 0 <= k < |s.births| ==> (s.births[k].bdSeq == s.bdSeq <==> k == |s.births| - 1)
  {
  }

  /** The will message, which carries 0, matches no birth: the first 2^64 - 1 attempts
      carry 1, 2, 3, ... */
  lemma WillMatchesNoBirth(devices: nat, run: seq<Step>, k: nat)
    requires IsRun(Initial(devices), run) && k < |After(Initial(devices), run).births|
    ensures After(Initial(devices), run).births[k].bdSeq == 0 <==> (k + 1) % Seq.WORD == 0
    ensures k < Seq.WORD - 1 ==> After(Initial(devices), run).births[k].bdSeq == k + 1
  {
    hide *;
    InvInRun(devices, run);
    BirthCarries(After(Initial(devices), run), k);
  }

  lemma BirthCarries(s: Node, k: nat)
    requires BirthsOk(s) && k < |s.births|
    ensures s.births[k].bdSeq == (k + 1) % Seq.WORD
    ensures k < Seq.WORD - 1 ==> s.births[k].bdSeq == k + 1
  {
  }

  /** Stop publishes one DDEATH for every device, in order, then one NDEATH. */
  lemma StopPublishesDeaths(devices: nat, run: seq<Step>)
    requires IsRun(Initial(devices), run) && After(Initial(devices), run).stop.Stopped?
    ensures var s := After(Initial(devices), run);
            var deaths := DeathsOf(s.log);
            && |deaths| == s.devices + 1 && deaths[s.devices].Ndeath?
            && (forall i :: 0 <= i < s.devices ==> deaths[i].Ddeath? && deaths[i].device == i)
  {
    InvInRun(devices, run);
    var s := After(Initial(devices), run);
    hide After, IsRun, PathOk, TrackedOk, BirthsOk, HistoryOk, QueueOk, LedgerOk, TrailsOk, DeathsOf;
    forall i | 0 <= i < s.devices
      ensures DeathsOf(s.log)[i].Ddeath? && DeathsOf(s.log)[i].device == i
    {
      assert DeathsOf(s.log)[..s.devices][i].device == i;
    }
  }

  // ----- updates -----

  /** The updates published as DDATA are, in order, some of the updates the channel
      accepted, each at most once, and the channel never holds more than 256. */
  lemma DataFollowsChannel(devices: nat, run: seq<Step>)
    requires IsRun(Initial(devices), run)
    ensures var s := After(Initial(devices), run);
            && Subsequence(DataOf(s.log), s.accepted) && |s.updates| <= CAPACITY
            && s.accepted == s.taken + s.updates
  {
    InvInRun(devices, run);
    var s := After(Initial(devices), run);
    hide After, IsRun, DataOf, Subsequence, PathOk, TrackedOk, BirthsOk, HistoryOk, DeathsOk, LedgerOk, ResetsOk, TrailsOk;
    assert DataOf(s.log) + [] == DataOf(s.log);
    if InHand(s.loop) != [] {
      SubsequenceWithoutLast(DataOf(s.log) + InHand(s.loop), s.taken);
      assert (DataOf(s.log) + InHand(s.loop))[..|DataOf(s.log)|] == DataOf(s.log);
    }
    SubsequenceLonger(DataOf(s.log), s.taken, s.updates);
  }

  lemma {:induction false} SubsequenceLonger<T>(a: seq<T>, b: seq<T>, c: seq<T>)
    requires Subsequence(a, b)
    ensures Subsequence(a, b + c)
    decreases |c|
  {
    if c == [] {
      assert b + c == b;
    } else {
      var n := |c| - 1;
      SubsequenceLonger(a, b, c[..n]);
      SubsequenceGrows(a, b + c[..n], c[n]);
      assert b + c == b + c[..n] + [c[n]];
    }
  }

  // ----- sequence numbers -----

  /** In every run, for every user of the tracker: its messages carry, in order, exactly
      the numbers it was given, but for one that is still held for a message; and one
      birth's NBIRTH, one birth's DBIRTH for a device and Stop's DDEATH for a device get
      one number at most. */
  lemma NumbersInEveryRun(devices: nat, run: seq<Step>, u: User)
    requires IsRun(Initial(devices), run)
    ensures var s := After(Initial(devices), run);
            && NumbersIn(s.log, u) + Held(s, u) == NumbersOf(s.ops, u) && |Held(s, u)| <= 1
            && (!u.ForData? ==> |NumbersOf(s.ops, u)| <= 1)
  {
    InvInRun(devices, run);
    assert EntryOk(After(Initial(devices), run), u);
    hide After, IsRun, PathOk, TrackedOk, BirthsOk, HistoryOk, QueueOk, DeathsOk, TrailsOk, NumbersIn, NumbersOf, Taken;
  }

  /** In every run each message took one use of the tracker, no two messages the same one,
      and messages of one user in the order of their uses; what it carries is how many
      numbers were given between the last reset and that use, modulo 256. */
  lemma MessagesTakeNumbers(devices: nat, run: seq<Step>, m: nat)
    requires IsRun(Initial(devices), run) && m < |After(Initial(devices), run).log|
    requires var r := After(Initial(devices), run).log[m]; r.Sent? && UserOf(r.msg).Some?
    ensures var s := After(Initial(devices), run);
            exists j: nat :: Took(s, m, j) && s.log[m].msg.number == Seq.SinceReset(s.ops[..j]) % 256
    ensures var s := After(Initial(devices), run);
            forall n: nat, i: nat, j: nat :: Took(s, m, i) && Took(s, n, j) ==>
              && (i == j <==> m == n)
              && (UserOf(s.log[n].msg) == UserOf(s.log[m].msg) ==> (m < n <==> i < j))
  {
    InvInRun(devices, run);
    var s := After(Initial(devices), run);
    hide After, IsRun, PathOk, BirthsOk, HistoryOk, QueueOk, DeathsOk, LedgerOk, ResetsOk, TrailsOk, NumbersIn, NumbersOf;
    var j := TookOne(s, m);
    TookItsNumber(s, m, j);
    Seq.NumbersCountFromReset(s.ops, s.counter, j);
    hide Took;
    forall n: nat, i: nat, j: nat | Took(s, m, i) && Took(s, n, j)
      ensures i == j <==> m == n
      ensures UserOf(s.log[n].msg) == UserOf(s.log[m].msg) ==> (m < n <==> i < j)
    {
      TookOnce(s, m, n, i, j);
    }
  }

  /** In every run each NBIRTH carries how many numbers were taken, by anyone, since the
      last reset, by any birth, before its own: 0 if and only if that is a multiple of 256.
      That reset is its birth's own or a later one. */
  lemma NbirthCarries(devices: nat, run: seq<Step>, m: nat)
    requires IsRun(Initial(devices), run) && m < |After(Initial(devices), run).log|
    requires var r := After(Initial(devices), run).log[m]; r.Sent? && r.msg.Nbirth?
    ensures var s := After(Initial(devices), run);
            exists j: nat :: Took(s, m, j)
    ensures var s := After(Initial(devices), run);
            forall j: nat :: Took(s, m, j) ==>
              var taken := Seq.SinceReset(s.ops[..j]);
              && Seq.Reset(ForNbirth(s.log[m].msg.k)) in s.ops[..j]
              && s.log[m].msg.number == taken % 256
              && (s.log[m].msg.number == 0 <==> taken % 256 == 0)
  {
    MessagesTakeNumbers(devices, run, m);
    InvInRun(devices, run);
    var s := After(Initial(devices), run);
    hide After, IsRun, PathOk, TrackedOk, BirthsOk, HistoryOk, QueueOk, DeathsOk, LedgerOk, HasReset, TrailsOk;
    hide NumbersIn, NumbersOf;
  }

  /** Birth k resets the tracker with use i and takes its number with use j; nobody else
      resets in between. */
  ghost predicate BirthUses(ops: seq<Seq.Op<User>>, k: nat, i: nat, j: nat) {
    && i < j < |ops| && ops[i] == Seq.Reset(ForNbirth(k))
    && Gives(ops[j], ForNbirth(k)) && Seq.NoReset(ops[i + 1..j])
  }

  /** When no other birth resets the tracker between birth k's Reset and its Next, its
      NBIRTH carries how many numbers others took in between, modulo 256. */
  lemma NbirthAloneCarries(devices: nat, run: seq<Step>, m: nat, i: nat, j: nat)
    requires IsRun(Initial(devices), run) && m < |After(Initial(devices), run).log|
    requires var s := After(Initial(devices), run);
             s.log[m].Sent? && s.log[m].msg.Nbirth? && BirthUses(s.ops, s.log[m].msg.k, i, j)
    ensures var s := After(Initial(devices), run);
            && s.log[m].msg.number == (j - i - 1) % 256
            && (s.log[m].msg.number == 0 <==> (j - i - 1) % 256 == 0)
  {
    InvInRun(devices, run);
    var s := After(Initial(devices), run);
    var u := ForNbirth(s.log[m].msg.k);
    assert EntryOk(s, u);
    PickedStands(s.log, CarriedFor(u), m);
    PickedStands(s.ops, GivenTo(u), j);
    hide After, IsRun, PathOk, BirthsOk, HistoryOk, QueueOk, DeathsOk, LedgerOk, ResetsOk, TrailsOk, Picked, Held, Taken;
    Seq.BirthNumber(s.ops, s.counter, i, j);
  }

  /** When nobody uses the tracker between a birth's Reset and its Next, the message that
      takes the q-th number after the NBIRTH's, be it DBIRTH, DDATA or DDEATH, carries
      q mod 256, until the next reset. */
  lemma BirthStartsAtZero(devices: nat, run: seq<Step>, k: nat, i: nat, m: nat, q: nat)
    requires IsRun(Initial(devices), run)
    requires var s := After(Initial(devices), run);
             BirthUses(s.ops, k, i, i + 1) && Took(s, m, i + 1 + q) && Seq.NoReset(s.ops[i + 1..i + 2 + q])
    ensures After(Initial(devices), run).log[m].msg.number == q % 256
  {
    InvInRun(devices, run);
    var s := After(Initial(devices), run);
    hide After, IsRun, PathOk, BirthsOk, HistoryOk, QueueOk, DeathsOk, LedgerOk, ResetsOk, TrailsOk, NumbersIn, NumbersOf;
    TookItsNumber(s, m, i + 1 + q);
    Seq.AdjacentBirth(s.ops, s.counter, i, q);
  }
}
