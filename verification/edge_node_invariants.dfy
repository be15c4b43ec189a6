/** What every step of the edge node keeps. */
module EdgeNodeInvariants {
  import opened Base
  import opened SparkplugState
  import Seq = SparkplugSeq
  import opened EdgeNode

  // ----- the state path -----

  /** The paths there are: one connection attempt, then failure, or one stretch of being
      online. */
  ghost predicate Shape(path: seq<State>) {
    || path == [Offline]
    || path == [Offline, Connecting]
    || path == [Offline, Connecting, Offline]
    || path == [Offline, Connecting, Online]
    || path == [Offline, Connecting, Online, Offline]
  }

  ghost predicate PathOk(s: Node) {
    && Shape(s.path)
    && s.sm == s.path[|s.path| - 1]
    && (s.start.Fresh? <==> s.path == [Offline])
  }

  lemma ShapeGrows(path: seq<State>, event: Event)
    requires Shape(path) && (event.ConnectAttempt? ==> path == [Offline])
    requires Arc(path[|path| - 1], event).Some?
    ensures Shape(path + [Next(path[|path| - 1], event)]) && path + [Next(path[|path| - 1], event)] != [Offline]
    ensures path == [Offline] ==> event.ConnectAttempt?
  {
    var to := Next(path[|path| - 1], event);
    if path == [Offline] {
      assert path + [to] == [Offline, Connecting];
    } else if path == [Offline, Connecting] {
      assert path + [to] == [Offline, Connecting, to];
    } else if path == [Offline, Connecting, Online] {
      assert path + [to] == [Offline, Connecting, Online, to];
    }
  }

  lemma MoveKeepsPath(s: Node, event: Event, t: Node)
    requires PathOk(s) && (event.ConnectAttempt? <==> s.start.Fresh? && !t.start.Fresh?)
    requires s.start.Fresh? || !t.start.Fresh?
    requires t.path == Move(s, event).path && t.sm == Move(s, event).sm
    ensures PathOk(t)
  {
    if Arc(s.sm, event).Some? {
      ArcMoves(s.sm, event);
      ShapeGrows(s.path, event);
    }
    hide Shape;
  }

  /** Which event a step gives to the state machine, if any. */
  function EventOf(s: Node, st: Step): Option<Event> {
    match st
    case StartCall => Some(ConnectAttempt)
    case StartErr => Some(ConnectFail)
    case BirthStep(k, _) =>
      if k >= |s.births| then None
      else if s.births[k].pc.Succeeding? then Some(ConnectSuccess)
      else if s.births[k].pc.Failing? then Some(ConnectFail)
      else None
    case Lose => Some(ConnectionLost)
    case Stop(_) => if s.stop.Leaving? then Some(Disconnect) else None
    case _ => None
  }

  lemma MoveKeepsStart(s: Node, event: Event)
    ensures Move(s, event).start == s.start
  {
  }

  lemma BirthMoves(s: Node, k: nat, ok: bool)
    requires k < |s.births| && !s.births[k].pc.Over?
    ensures var t := BirthOn(s, k, ok);
            && t.start == s.start
            && match EventOf(s, BirthStep(k, ok))
               case None => t.path == s.path && t.sm == s.sm
               case Some(event) => t.path == Move(s, event).path && t.sm == Move(s, event).sm
  {
    MoveKeepsStart(s, ConnectSuccess);
    MoveKeepsStart(s, ConnectFail);
    hide Move, NumberOf;
  }

  lemma StopMoves(s: Node, ok: bool)
    requires StopEnabled(s)
    ensures var t := StopOn(s, ok);
            && t.start == s.start
            && match EventOf(s, Stop(ok))
               case None => t.path == s.path && t.sm == s.sm
               case Some(event) => t.path == Move(s, event).path && t.sm == Move(s, event).sm
  {
    MoveKeepsStart(s, Disconnect);
    hide Move, NumberOf;
  }

  /** Only those steps move the state machine. */
  lemma MovesByEvent(s: Node, st: Step)
    requires Enabled(s, st)
    ensures var t := Apply(s, st);
            && (t.start.Fresh? <==> s.start.Fresh? && !st.StartCall?)
            && match EventOf(s, st)
               case None => t.path == s.path && t.sm == s.sm
               case Some(event) => t.path == Move(s, event).path && t.sm == Move(s, event).sm
  {
    hide Move, BirthOn, StopOn;
    match st
    case BirthStep(k, ok) => BirthMoves(s, k, ok);
    case Stop(ok) => StopMoves(s, ok);
    case Lose => MoveKeepsStart(s, ConnectionLost);
    case _ =>
  }

  lemma PathKeeps(s: Node, st: Step)
    requires PathOk(s) && Enabled(s, st)
    ensures PathOk(Apply(s, st))
  {
    MovesByEvent(s, st);
    hide Shape, Apply;
    match EventOf(s, st)
    case None =>
    case Some(event) => MoveKeepsPath(s, event, Apply(s, st));
  }

  // ----- sequence numbers -----

  lemma NumberTracks(s: Node, user: User)
    requires Seq.Tracked(s.ops, s.counter)
    ensures Seq.Tracked(Number(s, user).ops, Number(s, user).counter)
  {
    var t := Number(s, user);
    assert t.ops[..|s.ops|] == s.ops;
  }

  lemma ResetTracks(s: Node, user: User)
    requires Seq.Tracked(s.ops, s.counter)
    ensures Seq.Tracked(ResetSeq(s, user).ops, ResetSeq(s, user).counter)
  {
    var t := ResetSeq(s, user);
    assert t.ops[..|s.ops|] == s.ops;
  }

  ghost predicate TrackedOk(s: Node) {
    Seq.Tracked(s.ops, s.counter)
  }

  ghost predicate SameNumbers(s: Node, t: Node) {
    t.ops == s.ops && t.counter == s.counter
  }

  lemma MoveSameNumbers(s: Node, event: Event)
    ensures SameNumbers(s, Move(s, event))
  {
  }

  lemma BirthTracks(s: Node, k: nat, ok: bool)
    requires TrackedOk(s) && k < |s.births|
    ensures TrackedOk(BirthOn(s, k, ok))
  {
    match s.births[k].pc
    case Resetting => ResetTracks(s, ForNbirth(k));
    case Numbering => NumberTracks(s, ForNbirth(k));
    case AtDevice(i) => if i < s.devices { NumberTracks(s, ForDbirth(k, i)); }
    case Succeeding => MoveSameNumbers(s, ConnectSuccess);
    case Failing => MoveSameNumbers(s, ConnectFail);
    case _ =>
  }

  lemma StopTracks(s: Node, ok: bool)
    requires TrackedOk(s) && StopEnabled(s)
    ensures TrackedOk(StopOn(s, ok))
  {
    match s.stop
    case DeathOf(i) => if i < s.devices { NumberTracks(s, ForDdeath(i)); }
    case Leaving => MoveSameNumbers(s, Disconnect);
    case _ =>
  }

  lemma TrackedKeeps(s: Node, st: Step)
    requires TrackedOk(s) && Enabled(s, st)
    ensures TrackedOk(Apply(s, st))
  {
    hide Seq.Tracked;
    match st
    case StartCall => MoveSameNumbers(s, ConnectAttempt);
    case StartErr => MoveSameNumbers(s, ConnectFail);
    case BirthStep(k, ok) => BirthTracks(s, k, ok);
    case Loop(l) => if l.TakeNumber? { NumberTracks(s, ForData); }
    case Lose => MoveSameNumbers(s, ConnectionLost);
    case Stop(ok) => StopTracks(s, ok);
    case _ =>
  }

  // ----- birth counters -----

  /** The k-th birth attempt (from 0) carries k + 1, modulo 2^64. */
  ghost predicate BirthsOk(s: Node) {
    && s.bdSeq == |s.births| % Seq.WORD
    && (forall k :: 0 <= k < |s.births| ==> s.births[k].bdSeq == (k + 1) % Seq.WORD)
  }

  ghost predicate SameBirthCounts(s: Node, t: Node) {
    && t.bdSeq == s.bdSeq && |t.births| == |s.births|
    && (forall k :: 0 <= k < |s.births| ==> t.births[k].bdSeq == s.births[k].bdSeq)
  }

  lemma MoveSameBirths(s: Node, event: Event)
    ensures Move(s, event).births == s.births && Move(s, event).bdSeq == s.bdSeq
  {
  }

  lemma SharedSameBirths(s: Node)
    ensures forall event :: Move(s, event).births == s.births && Move(s, event).bdSeq == s.bdSeq
    ensures forall user :: Number(s, user).births == s.births && Number(s, user).bdSeq == s.bdSeq
    ensures forall user :: ResetSeq(s, user).births == s.births && ResetSeq(s, user).bdSeq == s.bdSeq
    ensures forall msg, ok :: Log(s, msg, ok).births == s.births && Log(s, msg, ok).bdSeq == s.bdSeq
  {
  }

  lemma BirthSameCounts(s: Node, k: nat, ok: bool)
    requires k < |s.births|
    ensures SameBirthCounts(s, BirthOn(s, k, ok))
  {
    SharedSameBirths(s);
    hide Move, Number, ResetSeq, Log, NumberOf;
  }

  lemma StopSameBirths(s: Node, ok: bool)
    requires StopEnabled(s)
    ensures StopOn(s, ok).births == s.births && StopOn(s, ok).bdSeq == s.bdSeq
  {
    MoveSameBirths(s, Disconnect);
    hide Move;
  }

  lemma BeginBirthCounts(s: Node)
    requires BirthsOk(s)
    ensures BirthsOk(BeginBirth(s))
  {
    Seq.WrapLater(|s.births|);
    hide Seq.Advance;
  }

  lemma BirthsKeeps(s: Node, st: Step)
    requires BirthsOk(s) && Enabled(s, st)
    ensures BirthsOk(Apply(s, st))
  {
    var t := Apply(s, st);
    BeginBirthCounts(s);
    hide Move, BirthOn, StopOn, BeginBirth;
    match st
    case StartCall => MoveSameBirths(s, ConnectAttempt);
    case StartErr => MoveSameBirths(s, ConnectFail);
    case BirthStep(k, ok) => BirthSameCounts(s, k, ok);
    case Lose => MoveSameBirths(s, ConnectionLost);
    case Stop(ok) => StopSameBirths(s, ok);
    case _ =>
  }

  // ----- what precedes what -----

  predicate IsBirth(r: Record, k: nat) {
    r.Sent? && r.ok && r.msg.Nbirth? && r.msg.k == k
  }

  /** The NBIRTH of attempt k has been published. */
  predicate SentBirth(log: seq<Record>, k: nat) {
    exists j :: 0 <= j < |log| && IsBirth(log[j], k)
  }

  predicate WasOnline(log: seq<Record>) {
    exists j :: 0 <= j < |log| && log[j] == Moved(Online)
  }

  /** What must have happened before r: being online and every DBIRTH follow a published
      NBIRTH, DDATA follows being online. An NBIRTH carries its attempt's counter. */
  ghost predicate OkAfter(log: seq<Record>, r: Record) {
    match r
    case Moved(to) => to == Online ==> exists k :: SentBirth(log, k)
    case Sent(msg, _) =>
      match msg
      case Nbirth(k, bdSeq, _) => bdSeq == (k + 1) % Seq.WORD
      case Dbirth(k, _, _) => SentBirth(log, k)
      case Ddata(_, _) => WasOnline(log)
      case _ => true
  }

  ghost predicate LogOk(log: seq<Record>) {
    forall i :: 0 <= i < |log| ==> OkAfter(log[..i], log[i])
  }

  /** The birth is past its NBIRTH. */
  predicate Born(b: Birth) {
    b.pc.AtDevice? || b.pc.SendingDevice? || b.pc.Succeeding?
  }

  predicate InFlight(loop: LoopPc) {
    loop.Checked? || loop.Sending?
  }

  ghost predicate HistoryOk(s: Node) {
    && LogOk(s.log)
    && (forall k :: 0 <= k < |s.births| && Born(s.births[k]) ==> SentBirth(s.log, k))
    && (s.sm == Online || InFlight(s.loop) ==> WasOnline(s.log))
  }

  lemma LogGrows(log: seq<Record>, r: Record)
    requires LogOk(log) && OkAfter(log, r)
    ensures LogOk(log + [r])
    ensures forall k :: SentBirth(log, k) ==> SentBirth(log + [r], k)
    ensures WasOnline(log) ==> WasOnline(log + [r])
    ensures r == Moved(Online) ==> WasOnline(log + [r])
    ensures forall k :: IsBirth(r, k) ==> SentBirth(log + [r], k)
  {
    var all := log + [r];
    assert all[|log|] == r;
    forall i | 0 <= i < |all|
      ensures OkAfter(all[..i], all[i])
    {
      assert all[..i] == log[..i];
      assert i == |log| ==> log[..i] == log;
    }
    forall k | SentBirth(log, k)
      ensures SentBirth(all, k)
    {
      var j :| 0 <= j < |log| && IsBirth(log[j], k);
      assert all[j] == log[j];
    }
    if WasOnline(log) {
      var j :| 0 <= j < |log| && log[j] == Moved(Online);
      assert all[j] == log[j];
    }
  }

  /** A step that adds at most one allowed record and brings no one past a point that
      the log does not justify. */
  lemma HistoryGrows(s: Node, t: Node)
    requires HistoryOk(s)
    requires t.log == s.log
             || (|t.log| == |s.log| + 1 && t.log == s.log + [t.log[|s.log|]] && OkAfter(s.log, t.log[|s.log|]))
    requires forall k :: 0 <= k < |t.births| && Born(t.births[k]) ==>
               (k < |s.births| && Born(s.births[k]))
               || (|t.log| == |s.log| + 1 && IsBirth(t.log[|s.log|], k))
    requires t.sm == Online || InFlight(t.loop) ==>
               s.sm == Online || InFlight(s.loop) || (|t.log| == |s.log| + 1 && t.log[|s.log|] == Moved(Online))
    ensures HistoryOk(t)
  {
    hide LogOk, OkAfter, SentBirth, WasOnline;
    if t.log != s.log {
      LogGrows(s.log, t.log[|s.log|]);
    }
  }

  /** The transitions that are not an entry to Online. */
  lemma MoveGrows(s: Node, event: Event)
    requires HistoryOk(s)
    requires event.ConnectSuccess? ==> exists k :: SentBirth(s.log, k)
    ensures HistoryOk(Move(s, event))
  {
    hide SentBirth, WasOnline, LogOk;
    if Move(s, event) != s {
      HistoryGrows(s, Move(s, event));
    }
  }

  lemma BirthLeaves(s: Node, k: nat, ok: bool)
    requires HistoryOk(s) && k < |s.births| && (s.births[k].pc.Succeeding? || s.births[k].pc.Failing?)
    ensures HistoryOk(BirthOn(s, k, ok))
  {
    hide SentBirth, WasOnline, LogOk;
    if s.births[k].pc.Succeeding? {
      assert SentBirth(s.log, k);
      MoveGrows(s, ConnectSuccess);
      HistoryGrows(Move(s, ConnectSuccess), BirthOn(s, k, ok));
    } else {
      MoveGrows(s, ConnectFail);
      HistoryGrows(Move(s, ConnectFail), BirthOn(s, k, ok));
    }
  }

  lemma BirthSends(s: Node, k: nat, ok: bool)
    requires HistoryOk(s) && BirthsOk(s) && k < |s.births|
    requires s.births[k].pc.Publishing? || s.births[k].pc.SendingDevice?
    ensures HistoryOk(BirthOn(s, k, ok))
  {
    hide SentBirth, WasOnline, LogOk, Move, Number, ResetSeq;
    HistoryGrows(s, BirthOn(s, k, ok));
  }

  lemma BirthGrows(s: Node, k: nat, ok: bool)
    requires HistoryOk(s) && BirthsOk(s) && k < |s.births|
    ensures HistoryOk(BirthOn(s, k, ok))
  {
    match s.births[k].pc
    case Publishing(_) => BirthSends(s, k, ok);
    case SendingDevice(_, _) => BirthSends(s, k, ok);
    case Succeeding => BirthLeaves(s, k, ok);
    case Failing => BirthLeaves(s, k, ok);
    case _ =>
      hide SentBirth, WasOnline, LogOk, OkAfter, Move, Log;
      HistoryGrows(s, BirthOn(s, k, ok));
  }

  lemma LoopGrows(s: Node, l: LoopStep)
    requires HistoryOk(s) && LoopEnabled(s, l)
    ensures HistoryOk(LoopOn(s, l))
  {
    hide SentBirth, WasOnline, LogOk;
    HistoryGrows(s, LoopOn(s, l));
  }

  lemma StopGrows(s: Node, ok: bool)
    requires HistoryOk(s) && StopEnabled(s)
    ensures HistoryOk(StopOn(s, ok))
  {
    hide SentBirth, WasOnline, LogOk, Move;
    if s.stop.Leaving? {
      MoveGrows(s, Disconnect);
      HistoryGrows(Move(s, Disconnect), StopOn(s, ok));
    } else {
      HistoryGrows(s, StopOn(s, ok));
    }
  }

  /** Start and connection-lost callbacks. */
  lemma OtherMovesGrow(s: Node, event: Event, t: Node)
    requires HistoryOk(s) && !event.ConnectSuccess?
    requires t == Move(s, event).(start := t.start, losing := t.losing)
    ensures HistoryOk(t)
  {
    hide SentBirth, WasOnline, LogOk, OkAfter, Move;
    MoveGrows(s, event);
    HistoryGrows(Move(s, event), t);
  }

  lemma ReconnectGrows(s: Node, r: ReconnectStep)
    requires HistoryOk(s) && ReconnectEnabled(s, r)
    ensures HistoryOk(ReconnectOn(s, r))
  {
    hide SentBirth, WasOnline, LogOk, OkAfter;
    HistoryGrows(s, ReconnectOn(s, r));
  }

  lemma HistoryKeeps(s: Node, st: Step)
    requires HistoryOk(s) && BirthsOk(s) && Enabled(s, st)
    ensures HistoryOk(Apply(s, st))
  {
    var t := Apply(s, st);
    hide SentBirth, WasOnline, LogOk, OkAfter, Move, BirthOn, LoopOn, StopOn, ReconnectOn;
    match st
    case StartCall => OtherMovesGrow(s, ConnectAttempt, t);
    case StartErr => OtherMovesGrow(s, ConnectFail, t);
    case BirthStep(k, ok) => BirthGrows(s, k, ok);
    case Loop(l) => LoopGrows(s, l);
    case Lose => OtherMovesGrow(s, ConnectionLost, t);
    case Stop(ok) => StopGrows(s, ok);
    case Reconnect(r) => ReconnectGrows(s, r);
    case _ => HistoryGrows(s, t);
  }
}
