/** internal/sparkplug/edge_node.go as a system of interleaved steps: Start, Stop, any
    number of concurrent publishBirths calls, the publish loop, the reconnect loop, the
    connection-lost callback and the callers of HandleTagUpdate. Transition calls are
    single steps (TransitionCalls.TransitionsAreAtomic); whether a Connect or a Publish
    succeeds, and when callbacks run, is left open. */
module EdgeNode {
  import opened Base
  import opened Scalars
  import opened SparkplugState
  import Seq = SparkplugSeq
  import PlcManager

  type Update = PlcManager.TagUpdate

  /** Who asked the tracker for a reset or a number: the NBIRTH of birth k, its DBIRTH
      for a device, the publish loop, or the DDEATH for a device. */
  datatype User = ForNbirth(k: nat) | ForDbirth(k: nat, device: nat) | ForData | ForDdeath(device: nat)

  /** The messages, with the number each carries. NBIRTH and NDEATH carry bdSeq. */
  datatype Msg =
    | Nbirth(k: nat, bdSeq: UInt64, number: nat)
    | Dbirth(k: nat, device: nat, number: nat)
    | Ddata(update: Update, number: nat)
    | Ddeath(device: nat, number: nat)
    | Ndeath(bdSeq: UInt64)

  /** State changes and publish attempts, in the order in which they happen. */
  datatype Record = Moved(to: State) | Sent(msg: Msg, ok: bool)

  /** Where one publishBirths call stands. */
  datatype BirthPc =
    | Resetting
    | Numbering
    | Publishing(number: nat)
    | AtDevice(i: nat)
    | SendingDevice(i: nat, number: nat)
    | Succeeding
    | Failing
    | Over

  datatype Birth = Birth(bdSeq: UInt64, pc: BirthPc)

  datatype StartPc = Fresh | Dialling | Refused | Failed | Launched

  datatype LoopPc = LoopOff | Waiting | Holding(u: Update) | Checked(u: Update) | Sending(u: Update, number: nat) | LoopExited

  datatype ReconnectPc = ReconnectOff | Listening | Retrying | Resubscribing | Republishing(k: nat) | Draining | ReconnectExited

  datatype StopPc =
    | NotStopping
    | DeathOf(i: nat)
    | SendingDeath(i: nat, number: nat)
    | NodeDeath
    | SendingNodeDeath(bdSeq: UInt64)
    | Leaving
    | Closing
    | WaitingForLoops
    | Stopped

  const CAPACITY := 256

  /** The fields of EdgeNode, the places of its goroutines, and the history. `devices` is
      the number of configured devices; `losing` counts connection-lost callbacks between
      their transition and their signal; `offering` holds updates that passed the state
      check of HandleTagUpdate and are not yet sent to the channel. */
  datatype Node = Node(
    devices: nat,
    sm: State,
    counter: UInt64,
    bdSeq: UInt64,
    updates: seq<Update>,
    signal: bool,
    closed: bool,
    start: StartPc,
    births: seq<Birth>,
    loop: LoopPc,
    reconnect: ReconnectPc,
    stop: StopPc,
    losing: nat,
    offering: seq<Update>,
    path: seq<State>,
    ops: seq<Seq.Op<User>>,
    log: seq<Record>,
    accepted: seq<Update>,
    taken: seq<Update>)

  function Initial(devices: nat): Node {
    Node(devices, Offline, 0, 0, [], false, false, Fresh, [], LoopOff, ReconnectOff, NotStopping, 0, [],
         [Offline], [], [], [], [])
  }

  // ----- the shared operations -----

  /** sm.Transition */
  function Move(s: Node, event: Event): Node {
    var to := Next(s.sm, event);
    if to == s.sm then s else s.(sm := to, path := s.path + [to], log := s.log + [Moved(to)])
  }

  function Log(s: Node, msg: Msg, ok: bool): Node {
    s.(log := s.log + [Sent(msg, ok)])
  }

  /** seq.Next, which yields NumberOf(s). */
  function NumberOf(s: Node): nat {
    Seq.NumberFor(s.counter)
  }

  function Number(s: Node, user: User): Node {
    s.(counter := Seq.Advance(s.counter), ops := s.ops + [Seq.Next(user, NumberOf(s))])
  }

  /** seq.Reset */
  function ResetSeq(s: Node, user: User): Node {
    s.(counter := 0, ops := s.ops + [Seq.Reset(user)])
  }

  /** The head of publishBirths: bdSeq.Add(1). */
  function BeginBirth(s: Node): Node {
    var bd := Seq.Advance(s.bdSeq);
    s.(bdSeq := bd, births := s.births + [Birth(bd, Resetting)])
  }

  function SetBirth(s: Node, k: nat, pc: BirthPc): Node
    requires k < |s.births|
  {
    s.(births := s.births[k := s.births[k].(pc := pc)])
  }

  // ----- the steps -----

  datatype LoopStep = Take | Check | TakeNumber | Publish(ok: bool) | ExitLoop

  datatype ReconnectStep = Hear | ConnectOk | GiveUp | Rebirth | BirthDone | Drain | ExitReconnect

  datatype Step =
    | StartCall
    | ConnectOkay
    | ConnectErr
    | StartErr
    | Callback
    | BirthStep(k: nat, ok: bool)
    | Loop(l: LoopStep)
    | Reconnect(r: ReconnectStep)
    | Lose
    | Signal
    | Offer(u: Update)
    | Send(i: nat)
    | Stop(ok: bool)

  predicate LoopEnabled(s: Node, l: LoopStep) {
    match l
    case Take => s.loop.Waiting? && s.updates != []
    case Check => s.loop.Holding?
    case TakeNumber => s.loop.Checked?
    case Publish(_) => s.loop.Sending?
    case ExitLoop => s.loop.Waiting? && s.closed
  }

  predicate ReconnectEnabled(s: Node, r: ReconnectStep) {
    match r
    case Hear => s.reconnect.Listening? && s.signal
    case ConnectOk => s.reconnect.Retrying?
    case GiveUp => s.reconnect.Retrying?
    case Rebirth => s.reconnect.Resubscribing?
    case BirthDone => s.reconnect.Republishing? && s.reconnect.k < |s.births| && s.births[s.reconnect.k].pc.Over?
    case Drain => s.reconnect.Draining?
    case ExitReconnect => s.reconnect.Listening?
  }

  predicate StopEnabled(s: Node) {
    match s.stop
    case NotStopping => s.start.Launched? || s.start.Failed?
    case WaitingForLoops => (s.loop.LoopOff? || s.loop.LoopExited?) && (s.reconnect.ReconnectOff? || s.reconnect.ReconnectExited?)
    case Stopped => false
    case _ => true
  }

  /** A callback birth is the client's OnConnect or an NCMD rebirth; both need Start to
      have registered them. A reconnect loop may leave when a context is cancelled. */
  predicate Enabled(s: Node, st: Step) {
    match st
    case StartCall => s.start.Fresh?
    case ConnectOkay => s.start.Dialling?
    case ConnectErr => s.start.Dialling?
    case StartErr => s.start.Refused?
    case Callback => !s.start.Fresh?
    case BirthStep(k, _) => k < |s.births| && !s.births[k].pc.Over?
    case Loop(l) => LoopEnabled(s, l)
    case Reconnect(r) => ReconnectEnabled(s, r)
    case Lose => !s.start.Fresh?
    case Signal => s.losing > 0
    case Offer(_) => true
    case Send(i) => i < |s.offering|
    case Stop(_) => StopEnabled(s)
  }

  function BirthOn(s: Node, k: nat, ok: bool): Node
    requires k < |s.births|
  {
    var b := s.births[k];
    match b.pc
    case Resetting => SetBirth(ResetSeq(s, ForNbirth(k)), k, Numbering)
    case Numbering => SetBirth(Number(s, ForNbirth(k)), k, Publishing(NumberOf(s)))
    case Publishing(n) => SetBirth(Log(s, Nbirth(k, b.bdSeq, n), ok), k, if ok then AtDevice(0) else Failing)
    case AtDevice(i) =>
      if i < s.devices then SetBirth(Number(s, ForDbirth(k, i)), k, SendingDevice(i, NumberOf(s)))
      else SetBirth(s, k, Succeeding)
    case SendingDevice(i, n) => SetBirth(Log(s, Dbirth(k, i, n), ok), k, AtDevice(i + 1))
    case Succeeding => SetBirth(Move(s, ConnectSuccess), k, Over)
    case Failing => SetBirth(Move(s, ConnectFail), k, Over)
    case Over => s
  }

  function LoopOn(s: Node, l: LoopStep): Node
    requires LoopEnabled(s, l)
  {
    match l
    case Take => s.(updates := s.updates[1..], taken := s.taken + [s.updates[0]], loop := Holding(s.updates[0]))
    case Check => s.(loop := if s.sm == Online then Checked(s.loop.u) else Waiting)
    case TakeNumber => Number(s, ForData).(loop := Sending(s.loop.u, NumberOf(s)))
    case Publish(ok) => Log(s, Ddata(s.loop.u, s.loop.number), ok).(loop := Waiting)
    case ExitLoop => s.(loop := LoopExited)
  }

  function ReconnectOn(s: Node, r: ReconnectStep): Node
    requires ReconnectEnabled(s, r)
  {
    match r
    case Hear => s.(signal := false, reconnect := Retrying)
    case ConnectOk => s.(reconnect := Resubscribing)
    case GiveUp => s.(reconnect := ReconnectExited)
    case Rebirth => BeginBirth(s).(reconnect := Republishing(|s.births|))
    case BirthDone => s.(reconnect := Draining)
    case Drain => s.(signal := false, reconnect := Listening)
    case ExitReconnect => s.(reconnect := ReconnectExited)
  }

  function StopOn(s: Node, ok: bool): Node
    requires StopEnabled(s)
  {
    match s.stop
    case NotStopping => s.(stop := DeathOf(0))
    case DeathOf(i) =>
      if i < s.devices then Number(s, ForDdeath(i)).(stop := SendingDeath(i, NumberOf(s)))
      else s.(stop := NodeDeath)
    case SendingDeath(i, n) => Log(s, Ddeath(i, n), ok).(stop := DeathOf(i + 1))
    case NodeDeath => s.(stop := SendingNodeDeath(s.bdSeq))
    case SendingNodeDeath(bd) => Log(s, Ndeath(bd), ok).(stop := Leaving)
    case Leaving => Move(s, Disconnect).(stop := Closing)
    case Closing => s.(closed := true, stop := WaitingForLoops)
    case WaitingForLoops => s.(stop := Stopped)
  }

  function Apply(s: Node, st: Step): Node
    requires Enabled(s, st)
  {
    match st
    case StartCall => Move(s, ConnectAttempt).(start := Dialling)
    case ConnectOkay => s.(start := Launched, loop := Waiting, reconnect := Listening)
    case ConnectErr => s.(start := Refused)
    case StartErr => Move(s, ConnectFail).(start := Failed)
    case Callback => BeginBirth(s)
    case BirthStep(k, ok) => BirthOn(s, k, ok)
    case Loop(l) => LoopOn(s, l)
    case Reconnect(r) => ReconnectOn(s, r)
    case Lose => Move(s, ConnectionLost).(losing := s.losing + 1)
    case Signal => s.(losing := s.losing - 1, signal := true)
    case Offer(u) => if s.sm == Online then s.(offering := s.offering + [u]) else s
    case Send(i) =>
      var u := s.offering[i];
      var t := s.(offering := s.offering[..i] + s.offering[i + 1..]);
      if |s.updates| < CAPACITY then t.(updates := s.updates + [u], accepted := s.accepted + [u]) else t
    case Stop(ok) => StopOn(s, ok)
  }

  predicate IsRun(s: Node, run: seq<Step>)
    decreases |run|
  {
    run == [] || (Enabled(s, run[0]) && IsRun(Apply(s, run[0]), run[1..]))
  }

  function After(s: Node, run: seq<Step>): Node
    requires IsRun(s, run)
    decreases |run|
  {
    if run == [] then s else After(Apply(s, run[0]), run[1..])
  }
}
