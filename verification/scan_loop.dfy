/** The tick of runWorker as the loop it is: every configured tag is read once and the
    quality transitions decide what is emitted. */
module ScanLoop {
  import opened Base
  import opened Scalars
  import opened PlcManager
  import opened ManagerProtocol
  import opened ManagerQuality

  /** Reading tag i and, if the read is emitted, storing and delivering it. */
  function ReadAndEmit(g: Goroutine, o: Outcome, at: int): Goroutine
    requires g.pc.Scanning? && g.pc.i < |g.cfg.tags|
  {
    var h := AfterRead(g, o, at);
    if h.pc.WantStore? then AfterDeliver(h.(pc := Delivering(h.pc.i, h.pc.u))) else h
  }

  /** What one read changes: the tag's quality and the emitted updates, unless it is a
      bad read of a tag that is bad already. */
  lemma ReadChanges(g: Goroutine, o: Outcome, at: int)
    requires g.pc.Scanning? && g.pc.i < |g.cfg.tags|
    ensures var tag := g.cfg.tags[g.pc.i].name;
            var read := g.(pc := Scanning(g.pc.i + 1), outcomes := g.outcomes + [Read(tag, o)]);
            ReadAndEmit(g, o, at) ==
            match o
            case ReadOk(v) =>
              read.(emits := g.emits + [TagUpdate(g.name, tag, Some(v), at, GoodQuality)],
                    lastQuality := g.lastQuality[tag := GoodQuality])
            case ReadErr =>
              if Last(g.lastQuality, tag) == BadQuality then read
              else read.(emits := g.emits + [TagUpdate(g.name, tag, None, at, BadQuality)],
                         lastQuality := g.lastQuality[tag := BadQuality])
  {
  }

  /** The first n tags of a tick. */
  function TickUpTo(g: Goroutine, results: seq<Outcome>, at: int, n: nat): (h: Goroutine)
    requires n <= |g.cfg.tags| && n <= |results|
    ensures h.pc == Scanning(n) && h.cfg == g.cfg && h.name == g.name
  {
    if n == 0 then g.(pc := Scanning(0)) else ReadAndEmit(TickUpTo(g, results, at, n - 1), results[n - 1], at)
  }

  lemma ReadAddsOne(g: Goroutine, o: Outcome, at: int)
    requires g.pc.Scanning? && g.pc.i < |g.cfg.tags|
    ensures ReadAndEmit(g, o, at).outcomes == g.outcomes + [Read(g.cfg.tags[g.pc.i].name, o)]
  {
  }

  /** The reads of the first n tags, in order, with what the driver returned. */
  function ReadsOf(cfg: PLC, results: seq<Outcome>, n: nat): seq<Read>
    requires n <= |cfg.tags| && n <= |results|
  {
    seq(n, j requires 0 <= j < n => Read(cfg.tags[j].name, results[j]))
  }

  lemma {:induction false} TickAddsReads(g: Goroutine, results: seq<Outcome>, at: int, n: nat)
    requires n <= |g.cfg.tags| && n <= |results|
    ensures TickUpTo(g, results, at, n).outcomes == g.outcomes + ReadsOf(g.cfg, results, n)
  {
    if n > 0 {
      var one := [Read(g.cfg.tags[n - 1].name, results[n - 1])];
      TickAddsReads(g, results, at, n - 1);
      ReadAddsOne(TickUpTo(g, results, at, n - 1), results[n - 1], at);
      assert ReadsOf(g.cfg, results, n) == ReadsOf(g.cfg, results, n - 1) + one;
      hide ReadAndEmit, ReadsOf;
      assert g.outcomes + (ReadsOf(g.cfg, results, n - 1) + one) == (g.outcomes + ReadsOf(g.cfg, results, n - 1)) + one;
    }
  }

  /** A scan goroutine between two ticks. */
  class Scanner {
    const name: string
    const driver: nat
    const cfg: PLC
    var lastQuality: map<string, Quality>
    var outcomes: seq<Read>
    var emits: seq<TagUpdate>

    function Abs(): Goroutine
      reads this
    {
      Goroutine(name, driver, cfg, Looping, lastQuality, outcomes, emits)
    }

    constructor (name: string, driver: nat, cfg: PLC)
      ensures Abs() == Launch(name, driver, cfg).(pc := Looping)
    {
      this.name, this.driver, this.cfg := name, driver, cfg;
      lastQuality, outcomes, emits := map[], [], [];
    }

    /** A good read has emitted its value and made the tag good; a bad one has emitted one
        update without a value and made the tag bad, unless it was bad already. */
    ghost predicate Transition(tag: string, o: Outcome, at: int, emits0: seq<TagUpdate>, lastQuality0: map<string, Quality>)
      reads this
    {
      match o
      case ReadOk(v) =>
        && emits == emits0 + [TagUpdate(name, tag, Some(v), at, GoodQuality)]
        && lastQuality == lastQuality0[tag := GoodQuality]
      case ReadErr =>
        if tag in lastQuality0 && lastQuality0[tag] == BadQuality then emits == emits0 && lastQuality == lastQuality0
        else
          && emits == emits0 + [TagUpdate(name, tag, None, at, BadQuality)]
          && lastQuality == lastQuality0[tag := BadQuality]
    }

    /** The body of the tag loop: read tag i, and emit its quality transition or value. */
    method ReadTag(i: nat, result: Outcome, at: int)
      requires i < |cfg.tags|
      modifies this
      ensures Abs() == ReadAndEmit(old(Abs()).(pc := Scanning(i)), result, at).(pc := Looping)
      ensures outcomes == old(outcomes) + [Read(cfg.tags[i].name, result)]
      ensures Transition(cfg.tags[i].name, result, at, old(emits), old(lastQuality))
    {
      ReadChanges(Abs().(pc := Scanning(i)), result, at);
      hide ReadAndEmit;
      var tag := cfg.tags[i].name;
      var prev := if tag in lastQuality then lastQuality[tag] else Unset;
      outcomes := outcomes + [Read(tag, result)];
      match result {
        case ReadErr =>
          if prev != BadQuality {
            emits := emits + [TagUpdate(name, tag, None, at, BadQuality)];
            lastQuality := lastQuality[tag := BadQuality];
          }
        case ReadOk(value) =>
          emits := emits + [TagUpdate(name, tag, Some(value), at, GoodQuality)];
          lastQuality := lastQuality[tag := GoodQuality];
      }
    }

    /** One tick; `results` are what the driver returns, tag by tag. */
    method Tick(results: seq<Outcome>, at: int)
      requires |results| == |cfg.tags|
      modifies this
      ensures Abs() == TickUpTo(old(Abs()), results, at, |cfg.tags|).(pc := Looping)
      ensures outcomes == old(outcomes) + ReadsOf(cfg, results, |cfg.tags|)
    {
      ghost var g := Abs();
      hide ReadAndEmit, TickUpTo, Transition, ReadsOf;
      TickStarts(g, results, at);
      var i := 0;
      while i < |cfg.tags|
        invariant 0 <= i <= |cfg.tags|
        invariant Abs() == TickUpTo(g, results, at, i).(pc := Looping)
      {
        ghost var h := Abs();
        ReadTag(i, results[i], at);
        TickGoesOn(g, h, Abs(), results, at, i);
        i := i + 1;
      }
      TickAddsReads(g, results, at, |cfg.tags|);
    }
  }

  lemma TickStarts(g: Goroutine, results: seq<Outcome>, at: int)
    requires g.pc.Looping?
    ensures g == TickUpTo(g, results, at, 0).(pc := Looping)
  {
  }

  lemma TickGoesOn(g: Goroutine, h: Goroutine, k: Goroutine, results: seq<Outcome>, at: int, n: nat)
    requires n < |g.cfg.tags| && n < |results|
    requires h == TickUpTo(g, results, at, n).(pc := Looping)
    requires k == ReadAndEmit(h.(pc := Scanning(n)), results[n], at).(pc := Looping)
    ensures k == TickUpTo(g, results, at, n + 1).(pc := Looping)
  {
    assert h.(pc := Scanning(n)) == TickUpTo(g, results, at, n);
    hide ReadAndEmit;
  }

  lemma {:induction false} TickKeepsTrace(g: Goroutine, results: seq<Outcome>, at: int, n: nat)
    requires WorkerTraceOk(g) && g.pc.Looping? && n <= |g.cfg.tags| && n <= |results|
    ensures WorkerTraceOk(TickUpTo(g, results, at, n))
  {
    hide WorkerTraceOk;
    if n == 0 {
      MoveKeepsTrace(g, Scanning(0));
    } else {
      TickKeepsTrace(g, results, at, n - 1);
      var h := TickUpTo(g, results, at, n - 1);
      ReadKeepsTrace(h, results[n - 1], at);
      var k := AfterRead(h, results[n - 1], at);
      if k.pc.WantStore? {
        MoveKeepsTrace(k, Delivering(k.pc.i, k.pc.u));
        DeliverKeepsTrace(k.(pc := Delivering(k.pc.i, k.pc.u)));
      }
    }
  }

  /** The ticks of a whole life: one sequence of results per tick. */
  function Ticks(g: Goroutine, ticks: seq<seq<Outcome>>, at: int): (h: Goroutine)
    requires g.pc.Looping? && forall t :: t in ticks ==> |t| == |g.cfg.tags|
    ensures h.pc.Looping? && h.cfg == g.cfg && h.name == g.name
  {
    if ticks == [] then g
    else
      var n := |ticks| - 1;
      var h := Ticks(g, ticks[..n], at);
      TickUpTo(h, ticks[n], at, |h.cfg.tags|).(pc := Looping)
  }

  /** Over any number of ticks, the updates emitted for a tag are its reads with each bad
      read directly after a bad one removed. */
  lemma {:induction false} TicksEmitCollapsedReads(n: string, driver: nat, cfg: PLC, ticks: seq<seq<Outcome>>, at: int,
                                                   tag: string)
    requires forall t :: t in ticks ==> |t| == |cfg.tags|
    ensures var g := Ticks(Launch(n, driver, cfg).(pc := Looping), ticks, at);
            CarryAll(UpdatesOf(g.emits, tag), n, Collapse(OutcomesOf(g.outcomes, tag)))
  {
    var g0 := Launch(n, driver, cfg).(pc := Looping);
    LaunchTrace(n, driver, cfg);
    MoveKeepsTrace(Launch(n, driver, cfg), Looping);
    TicksKeepTrace(g0, ticks, at);
    var g := Ticks(g0, ticks, at);
    assert TraceOk(g, tag);
  }

  lemma {:induction false} TicksKeepTrace(g: Goroutine, ticks: seq<seq<Outcome>>, at: int)
    requires WorkerTraceOk(g) && g.pc.Looping? && forall t :: t in ticks ==> |t| == |g.cfg.tags|
    ensures WorkerTraceOk(Ticks(g, ticks, at))
  {
    hide WorkerTraceOk, TickUpTo;
    if ticks != [] {
      var n := |ticks| - 1;
      TicksKeepTrace(g, ticks[..n], at);
      var h := Ticks(g, ticks[..n], at);
      TickKeepsTrace(h, ticks[n], at, |h.cfg.tags|);
      MoveKeepsTrace(TickUpTo(h, ticks[n], at, |h.cfg.tags|), Looping);
    }
  }
}
