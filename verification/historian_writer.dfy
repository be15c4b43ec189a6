/** internal/historian/writer.go: a bounded channel, a batch buffer and all-or-nothing
    inserts, with producers, the run goroutine and Stop interleaved. */
module HistorianWriter {
  import opened Base
  import opened HistorianStore

  datatype StopResult = NotStopped | Closing | ReturnedNil | ReturnedError | TimedOut

  /** The writer and what is observable around it. `accepted` are the samples Enqueue
      returned nil for, `failures` counts the flushes that failed, `pending` is the
      one-slot errCh. `batch` stays visible after run has returned. */
  datatype Writer = Writer(
    accepted: seq<Sample>,
    ch: seq<Sample>,
    closed: bool,
    batch: seq<Sample>,
    rows: seq<Row>,
    cancelled: bool,
    done: bool,
    pending: bool,
    failures: nat,
    stop: StopResult)

  /** BufferSize and BatchSize after NewWriter's defaults. */
  datatype Options = Options(bufferSize: int, batchSize: int) {
    function WithDefaults(): (o: Options)
      ensures o.bufferSize > 0 && o.batchSize > 0
      ensures bufferSize > 0 ==> o.bufferSize == bufferSize
      ensures batchSize > 0 ==> o.batchSize == batchSize
      ensures bufferSize <= 0 && batchSize <= 0 ==> o == Options(1024, 100)
    {
      Options(if bufferSize <= 0 then 1024 else bufferSize, if batchSize <= 0 then 100 else batchSize)
    }
  }

  datatype Step =
    | Enqueue(sample: Sample)
    | Cancel
    | CloseChannel
    | StopReturns
    | StopTimesOut
    // One iteration of run's select; `ok` is the outcome of the flush, if it makes one.
    | Receive(ok: bool)
    | ReceiveClosed(ok: bool)
    | Tick(ok: bool)
    | ContextDone(ok: bool)

  predicate Enabled(o: Options, w: Writer, st: Step) {
    match st
    case Enqueue(_) => !w.closed && |w.ch| < o.bufferSize
    case Cancel => true
    case CloseChannel => !w.closed
    case StopReturns => w.stop.Closing? && w.done
    case StopTimesOut => w.stop.Closing?
    case Receive(_) => !w.done && w.ch != []
    case ReceiveClosed(_) => !w.done && w.ch == [] && w.closed
    case Tick(_) => !w.done
    case ContextDone(_) => !w.done && w.cancelled
  }

  /** flush: an empty batch succeeds without touching the store. */
  function Flush(w: Writer, ok: bool): Writer {
    if w.batch == [] then w
    else if ok then w.(rows := w.rows + RowsOf(w.batch), batch := [])
    else w.(pending := true, failures := w.failures + 1)
  }

  predicate FlushSucceeds(w: Writer, ok: bool) {
    w.batch == [] || ok
  }

  function Exit(w: Writer): Writer {
    w.(done := true)
  }

  function Apply(o: Options, w: Writer, st: Step): Writer
    requires Enabled(o, w, st)
  {
    match st
    case Enqueue(s) => w.(accepted := w.accepted + [s], ch := w.ch + [s])
    case Cancel => w.(cancelled := true)
    case CloseChannel => w.(closed := true, stop := Closing)
    case StopReturns => w.(stop := if w.pending then ReturnedError else ReturnedNil, pending := false)
    case StopTimesOut => w.(stop := TimedOut)
    case Receive(ok) =>
      var r := w.(batch := w.batch + [w.ch[0]], ch := w.ch[1..]);
      if |r.batch| < o.batchSize then r
      else if FlushSucceeds(r, ok) then Flush(r, ok)
      else Exit(Flush(r, ok))
    case ReceiveClosed(ok) => Exit(Flush(w, ok))
    case Tick(ok) => if FlushSucceeds(w, ok) then Flush(w, ok) else Exit(Flush(w, ok))
    case ContextDone(ok) => Exit(Flush(w, ok))
  }

  function Started(rows: seq<Row>): Writer {
    Writer([], [], false, [], rows, false, false, false, 0, NotStopped)
  }

  ghost predicate IsRun(o: Options, w: Writer, run: seq<Step>)
    decreases |run|
  {
    run == [] || (Enabled(o, w, run[0]) && IsRun(o, Apply(o, w, run[0]), run[1..]))
  }

  ghost function After(o: Options, w: Writer, run: seq<Step>): Writer
    requires IsRun(o, w, run)
    decreases |run|
  {
    if run == [] then w else After(o, Apply(o, w, run[0]), run[1..])
  }

  // ----- the invariant -----

  /** Nothing is lost, duplicated or reordered: what was stored, what is buffered and what
      waits in the channel is what was accepted. */
  ghost predicate Conserved(rows0: seq<Row>, w: Writer) {
    rows0 + RowsOf(w.accepted) == w.rows + RowsOf(w.batch + w.ch)
  }

  /** Sizes, and what a failed flush and the end of run mean. */
  ghost predicate ControlOk(o: Options, w: Writer) {
    && |w.ch| <= o.bufferSize
    && |w.batch| <= o.batchSize
    && (!w.done ==> |w.batch| < o.batchSize && w.failures == 0)
    // A failed flush ends the run and keeps its batch; its error is not overwritten.
    && w.failures <= 1
    && (w.failures == 1 ==> w.batch != [] && (w.pending || w.stop.ReturnedError?))
    && (w.pending || w.stop.ReturnedError? ==> w.failures == 1 && w.done)
    // Without a failed flush run ends with an empty batch, and without a cancellation
    // also with an empty channel.
    && (w.done && w.failures == 0 ==> w.batch == [])
    && (w.done && !w.cancelled && w.failures == 0 ==> w.batch == [] && w.ch == [] && w.closed)
    && (w.stop.NotStopped? <==> !w.closed)
    && (w.stop.ReturnedNil? ==> w.done && w.failures == 0)
  }

  ghost predicate WriterOk(o: Options, rows0: seq<Row>, w: Writer) {
    Conserved(rows0, w) && rows0 <= w.rows && ControlOk(o, w)
  }

  lemma EnqueueConserves(rows0: seq<Row>, w: Writer, s: Sample)
    requires Conserved(rows0, w)
    ensures Conserved(rows0, w.(accepted := w.accepted + [s], ch := w.ch + [s]))
  {
    RowsOfConcat(w.accepted, [s]);
    RowsOfConcat(w.batch + w.ch, [s]);
    assert w.batch + (w.ch + [s]) == (w.batch + w.ch) + [s];
    var one := RowsOf([s]);
    assert rows0 + (RowsOf(w.accepted) + one) == (rows0 + RowsOf(w.accepted)) + one;
    assert w.rows + (RowsOf(w.batch + w.ch) + one) == (w.rows + RowsOf(w.batch + w.ch)) + one;
  }

  lemma FlushConserves(rows0: seq<Row>, w: Writer, ok: bool)
    requires Conserved(rows0, w) && rows0 <= w.rows
    ensures Conserved(rows0, Flush(w, ok)) && rows0 <= Flush(w, ok).rows
  {
    RowsOfConcat(w.batch, w.ch);
    assert [] + w.ch == w.ch;
    assert w.rows + (RowsOf(w.batch) + RowsOf(w.ch)) == (w.rows + RowsOf(w.batch)) + RowsOf(w.ch);
  }

  lemma TakeConserves(rows0: seq<Row>, w: Writer)
    requires Conserved(rows0, w) && w.ch != []
    ensures Conserved(rows0, w.(batch := w.batch + [w.ch[0]], ch := w.ch[1..]))
  {
    assert (w.batch + [w.ch[0]]) + w.ch[1..] == w.batch + w.ch;
  }

  lemma SameConserves(rows0: seq<Row>, w: Writer, v: Writer)
    requires Conserved(rows0, w)
    requires v.accepted == w.accepted && v.rows == w.rows && v.batch == w.batch && v.ch == w.ch
    ensures Conserved(rows0, v)
  {
  }

  lemma StepConserves(o: Options, rows0: seq<Row>, w: Writer, st: Step)
    requires Conserved(rows0, w) && rows0 <= w.rows && Enabled(o, w, st)
    ensures Conserved(rows0, Apply(o, w, st)) && rows0 <= Apply(o, w, st).rows
  {
    hide Conserved, RowsOf;
    var v := Apply(o, w, st);
    match st
    case Enqueue(s) => EnqueueConserves(rows0, w, s);
    case Receive(ok) =>
      var r := w.(batch := w.batch + [w.ch[0]], ch := w.ch[1..]);
      TakeConserves(rows0, w);
      FlushConserves(rows0, r, ok);
      SameConserves(rows0, if |r.batch| < o.batchSize then r else Flush(r, ok), v);
    case ReceiveClosed(ok) =>
      FlushConserves(rows0, w, ok);
      SameConserves(rows0, Flush(w, ok), v);
    case Tick(ok) =>
      FlushConserves(rows0, w, ok);
      SameConserves(rows0, Flush(w, ok), v);
    case ContextDone(ok) =>
      FlushConserves(rows0, w, ok);
      SameConserves(rows0, Flush(w, ok), v);
    case _ => SameConserves(rows0, w, v);
  }

  lemma StepControls(o: Options, w: Writer, st: Step)
    requires o.bufferSize > 0 && o.batchSize > 0 && ControlOk(o, w) && Enabled(o, w, st)
    ensures ControlOk(o, Apply(o, w, st))
  {
    hide RowsOf;
  }

  lemma StepKeeps(o: Options, rows0: seq<Row>, w: Writer, st: Step)
    requires o.bufferSize > 0 && o.batchSize > 0
    requires WriterOk(o, rows0, w) && Enabled(o, w, st)
    ensures WriterOk(o, rows0, Apply(o, w, st))
  {
    hide Conserved, ControlOk, Enabled, Apply;
    StepConserves(o, rows0, w, st);
    StepControls(o, w, st);
  }

  lemma {:induction false} RunKeeps(o: Options, rows0: seq<Row>, w: Writer, run: seq<Step>)
    requires o.bufferSize > 0 && o.batchSize > 0
    requires WriterOk(o, rows0, w) && IsRun(o, w, run)
    ensures WriterOk(o, rows0, After(o, w, run))
    decreases |run|
  {
    hide WriterOk, Enabled, Apply;
    if run != [] {
      StepKeeps(o, rows0, w, run[0]);
      RunKeeps(o, rows0, Apply(o, w, run[0]), run[1..]);
    }
  }

  // ----- what a flush stores -----

  /** The branches of run that flush whatever the batch holds. */
  predicate FlushesAll(st: Step) {
    match st
    case Tick(ok) => ok
    case ReceiveClosed(ok) => ok
    case ContextDone(ok) => ok
    case _ => false
  }

  /** After a tick, the end of the channel or the end of the context, with a database that
      commits, everything accepted is in the table but for what is still in the channel;
      only the latter two end the run. */
  lemma FlushStoresBatch(opts: Options, rows0: seq<Row>, run: seq<Step>, st: Step)
    requires IsRun(opts.WithDefaults(), Started(rows0), run)
    requires Enabled(opts.WithDefaults(), After(opts.WithDefaults(), Started(rows0), run), st) && FlushesAll(st)
    ensures var w := After(opts.WithDefaults(), Started(rows0), run);
            var v := Apply(opts.WithDefaults(), w, st);
            && v.rows + RowsOf(v.ch) == rows0 + RowsOf(v.accepted)
            && v.ch == w.ch && v.accepted == w.accepted && v.batch == [] && v.failures == 0
            && (v.done <==> !st.Tick?)
  {
    var o := opts.WithDefaults();
    var w := After(o, Started(rows0), run);
    StartedOk(opts, rows0);
    RunKeeps(o, rows0, Started(rows0), run);
    StepKeeps(o, rows0, w, st);
    var v := Apply(o, w, st);
    assert [] + v.ch == v.ch;
    hide IsRun, After, RowsOf;
  }

  /** A received sample waits in the batch as long as that stays below BatchSize, and with
      the sample that fills it the whole batch is stored. */
  lemma FullBatchIsStored(opts: Options, rows0: seq<Row>, run: seq<Step>)
    requires IsRun(opts.WithDefaults(), Started(rows0), run)
    requires Enabled(opts.WithDefaults(), After(opts.WithDefaults(), Started(rows0), run), Receive(true))
    ensures var o := opts.WithDefaults();
            var w := After(o, Started(rows0), run);
            var v := Apply(o, w, Receive(true));
            && [w.ch[0]] + v.ch == w.ch && !v.done
            && (if |w.batch| + 1 < o.batchSize then v.rows == w.rows && v.batch == w.batch + [w.ch[0]]
                else v.rows + RowsOf(v.ch) == rows0 + RowsOf(v.accepted) && v.batch == [])
  {
    var o := opts.WithDefaults();
    var w := After(o, Started(rows0), run);
    StartedOk(opts, rows0);
    RunKeeps(o, rows0, Started(rows0), run);
    StepKeeps(o, rows0, w, Receive(true));
    ReceiveTakesOne(o, w);
    var v := Apply(o, w, Receive(true));
    assert [] + v.ch == v.ch;
    hide IsRun, After, RowsOf, Apply, Enabled, ControlOk;
  }

  lemma ReceiveTakesOne(o: Options, w: Writer)
    requires o.batchSize > 0 && Enabled(o, w, Receive(true))
    ensures var v := Apply(o, w, Receive(true));
            && [w.ch[0]] + v.ch == w.ch && !v.done && v.accepted == w.accepted
            && (if |w.batch| + 1 < o.batchSize then v.rows == w.rows && v.batch == w.batch + [w.ch[0]] else v.batch == [])
  {
    hide RowsOf;
  }

  // ----- every run -----

  /** FIFO conservation: at any time the table is its old contents followed by a prefix of
      the accepted samples, and the rest of them is the batch followed by the channel.
      While run lives the batch is smaller than BatchSize, the channel never exceeds
      BufferSize, and at most one flush ever fails, so the one-slot channel drops none. */
  lemma FifoConservation(opts: Options, rows0: seq<Row>, run: seq<Step>)
    requires IsRun(opts.WithDefaults(), Started(rows0), run)
    ensures var o := opts.WithDefaults();
            var w := After(o, Started(rows0), run);
            && w.rows + RowsOf(w.batch + w.ch) == rows0 + RowsOf(w.accepted)
            && rows0 <= w.rows <= rows0 + RowsOf(w.accepted)
            && (!w.done ==> |w.batch| < o.batchSize)
            && |w.ch| <= o.bufferSize
            && w.failures <= 1
            && (w.failures == 1 <==> w.pending || w.stop.ReturnedError?)
  {
    var o := opts.WithDefaults();
    assert Started(rows0).batch + Started(rows0).ch == [];
    assert WriterOk(o, rows0, Started(rows0));
    RunKeeps(o, rows0, Started(rows0), run);
    var w := After(o, Started(rows0), run);
    assert w.rows <= w.rows + RowsOf(w.batch + w.ch);
  }

  /** In any run, cancelled or not, everything is stored exactly when nothing is left in
      the batch and in the channel. */
  lemma CompleteIffDrained(opts: Options, rows0: seq<Row>, run: seq<Step>)
    requires IsRun(opts.WithDefaults(), Started(rows0), run)
    ensures var w := After(opts.WithDefaults(), Started(rows0), run);
            w.rows == rows0 + RowsOf(w.accepted) <==> w.batch == [] && w.ch == []
  {
    FifoConservation(opts, rows0, run);
    var w := After(opts.WithDefaults(), Started(rows0), run);
    assert |w.rows| + |w.batch| + |w.ch| == |rows0| + |w.accepted|;
  }

  /** Completeness: if the run context was never cancelled and Stop came back from the
      run's end, it returned nil exactly when every accepted sample is stored, once and in
      order; when it returned an error at least one sample is missing. */
  lemma StopNilIffComplete(opts: Options, rows0: seq<Row>, run: seq<Step>)
    requires IsRun(opts.WithDefaults(), Started(rows0), run)
    requires var w := After(opts.WithDefaults(), Started(rows0), run);
             !w.cancelled && (w.stop.ReturnedNil? || w.stop.ReturnedError?)
    ensures var w := After(opts.WithDefaults(), Started(rows0), run);
            && (w.stop.ReturnedNil? <==> w.rows == rows0 + RowsOf(w.accepted))
            && (w.stop.ReturnedError? ==> |w.rows| < |rows0| + |w.accepted|)
  {
    CompleteIffDrained(opts, rows0, run);
    FifoConservation(opts, rows0, run);
    RunKeeps(opts.WithDefaults(), rows0, Started(rows0), run);
  }

  /** Run has ended without a failure only on a closed and drained channel. */
  predicate CleanExit(w: Writer) {
    w.done && w.failures == 0 ==> w.closed && w.ch == []
  }

  lemma StepExitsCleanly(o: Options, w: Writer, st: Step)
    requires CleanExit(w) && Enabled(o, w, st) && !st.ContextDone?
    ensures CleanExit(Apply(o, w, st))
  {
    hide RowsOf;
  }

  lemma {:induction false} RunExitsCleanly(o: Options, w: Writer, run: seq<Step>)
    requires CleanExit(w) && IsRun(o, w, run) && forall st :: st in run ==> !st.ContextDone?
    ensures CleanExit(After(o, w, run))
    decreases |run|
  {
    hide CleanExit, Enabled, Apply;
    if run != [] {
      StepExitsCleanly(o, w, run[0]);
      RunExitsCleanly(o, Apply(o, w, run[0]), run[1..]);
    }
  }

  /** When Stop has returned nil, under whatever context, the table has gained exactly
      the accepted samples but for as many of the last ones as still lie in the channel.
      So nothing is lost if and only if the channel is empty, and a loss happens only if
      run has left through the context. */
  lemma StopNilLosesChannel(opts: Options, rows0: seq<Row>, run: seq<Step>)
    requires IsRun(opts.WithDefaults(), Started(rows0), run)
    requires After(opts.WithDefaults(), Started(rows0), run).stop.ReturnedNil?
    ensures var w := After(opts.WithDefaults(), Started(rows0), run);
            && |w.ch| <= |w.accepted|
            && w.rows == rows0 + RowsOf(w.accepted[..|w.accepted| - |w.ch|])
            && (w.rows == rows0 + RowsOf(w.accepted) <==> w.ch == [])
            && (w.ch != [] ==> exists st :: st in run && st.ContextDone?)
  {
    var o := opts.WithDefaults();
    FifoConservation(opts, rows0, run);
    CompleteIffDrained(opts, rows0, run);
    StartedOk(opts, rows0);
    RunKeeps(o, rows0, Started(rows0), run);
    var w := After(o, Started(rows0), run);
    if forall st :: st in run ==> !st.ContextDone? {
      RunExitsCleanly(o, Started(rows0), run);
    }
    hide IsRun, After, RowsOf;
    assert w.batch + w.ch == w.ch;
    ChannelIsSuffix(rows0, w.accepted, w.rows, w.ch);
  }

  lemma StartedOk(opts: Options, rows0: seq<Row>)
    ensures WriterOk(opts.WithDefaults(), rows0, Started(rows0))
  {
    assert Started(rows0).batch + Started(rows0).ch == [];
  }

  lemma ChannelIsSuffix(rows0: seq<Row>, accepted: seq<Sample>, rows: seq<Row>, ch: seq<Sample>)
    requires rows + RowsOf(ch) == rows0 + RowsOf(accepted) && rows0 <= rows
    ensures |ch| <= |accepted| && rows == rows0 + RowsOf(accepted[..|accepted| - |ch|])
  {
    assert |rows| + |ch| == |rows0| + |accepted|;
    var n := |accepted| - |ch|;
    RowsOfConcat(accepted[..n], accepted[n..]);
    assert accepted == accepted[..n] + accepted[n..];
    assert rows == (rows + RowsOf(ch))[..|rows|];
    assert rows0 + RowsOf(accepted[..n]) == (rows0 + RowsOf(accepted))[..|rows|];
  }

  /** With a cancelled context Stop may return nil although a sample is lost: run leaves
      through the context branch with an empty batch and a sample still in the channel. */
  lemma CancelMayLoseSilently(s: Sample)
    ensures exists run :: IsRun(Options(1, 1), Started([]), run) &&
              var w := After(Options(1, 1), Started([]), run);
              w.stop.ReturnedNil? && w.accepted == [s] && w.rows == []
  {
    var o := Options(1, 1);
    var run := [Enqueue(s), Cancel, ContextDone(true), CloseChannel, StopReturns];
    var w0 := Started([]);
    var w1 := Apply(o, w0, run[0]);
    var w2 := Apply(o, w1, run[1]);
    var w3 := Apply(o, w2, run[2]);
    var w4 := Apply(o, w3, run[3]);
    var w5 := Apply(o, w4, run[4]);
    assert run[1..][1..] == [ContextDone(true), CloseChannel, StopReturns];
    assert run[1..][1..][1..] == [CloseChannel, StopReturns];
    assert run[1..][1..][1..][1..] == [StopReturns];
    assert run[1..][1..][1..][1..][1..] == [];
    assert IsRun(o, w5, []) && After(o, w5, []) == w5;
    assert IsRun(o, w4, [StopReturns]) && After(o, w4, [StopReturns]) == w5;
    assert IsRun(o, w3, [CloseChannel, StopReturns]) && After(o, w3, [CloseChannel, StopReturns]) == w5;
    assert IsRun(o, w2, run[1..][1..]) && After(o, w2, run[1..][1..]) == w5;
    assert IsRun(o, w1, run[1..]) && After(o, w1, run[1..]) == w5;
    assert IsRun(o, w0, run) && After(o, w0, run) == w5;
  }

  // ----- the class -----

  /** Writer over its Store. Methods are the operations of producers and of Stop, and one
      iteration of run per select case; `fault` is where the database fails. */
  class BatchWriter {
    const opts: Options
    const store: Store
    ghost var accepted: seq<Sample>
    var ch: seq<Sample>
    var closed: bool
    var batch: seq<Sample>
    var cancelled: bool
    var done: bool
    var errCh: seq<InsertResult>
    ghost var failures: nat
    ghost var stop: StopResult

    ghost function Abs(): Writer
      reads this, store
    {
      Writer(accepted, ch, closed, batch, store.rows, cancelled, done, errCh != [], failures, stop)
    }

    ghost predicate Valid()
      reads this, store
    {
      && opts.bufferSize > 0 && opts.batchSize > 0
      && |errCh| <= 1 && (forall e :: e in errCh ==> e != Inserted)
      && !store.writerBusy
    }

    /** What a flush has left: an empty batch succeeds; a commit has moved the batch into
        the table; a failure has left both alone and an error in the channel. */
    ghost predicate Flushed(fault: Fault, batch0: seq<Sample>, rows0: seq<Row>)
      reads this, store
    {
      if batch0 == [] || Commits(fault, |batch0|) then batch == [] && store.rows == rows0 + RowsOf(batch0)
      else batch == batch0 && store.rows == rows0 && errCh != []
    }

    constructor (store: Store, opts: Options)
      requires !store.writerBusy
      ensures Valid() && this.store == store && this.opts == opts.WithDefaults()
      ensures Abs() == Started(store.rows)
    {
      this.store, this.opts := store, opts.WithDefaults();
      accepted, ch, closed, batch := [], [], false, [];
      cancelled, done, errCh, failures, stop := false, false, [], 0, NotStopped;
    }

    /** Enqueue while there is room; with a full channel it would block. */
    method Enqueue(s: Sample)
      requires Valid() && Enabled(opts, Abs(), Step.Enqueue(s))
      modifies this
      ensures Valid() && Abs() == Apply(opts, old(Abs()), Step.Enqueue(s))
      ensures ch == old(ch) + [s] && accepted == old(accepted) + [s]
    {
      ch := ch + [s];
      accepted := accepted + [s];
    }

    /** The flush closure. */
    method FlushBatch(fault: Fault) returns (ok: bool)
      requires Valid()
      modifies this, store
      ensures Valid()
      ensures Abs() == Flush(old(Abs()), Commits(fault, |old(batch)|))
      ensures ok == FlushSucceeds(old(Abs()), Commits(fault, |old(batch)|))
      ensures ok <==> old(batch) == [] || Commits(fault, |old(batch)|)
      ensures ok ==> batch == [] && store.rows == old(store.rows) + RowsOf(old(batch)) && errCh == old(errCh)
      ensures !ok ==> batch == old(batch) && store.rows == old(store.rows) && errCh != []
      ensures ch == old(ch) && done == old(done)
    {
      if |batch| == 0 {
        return true;
      }
      var r := store.InsertBatch(batch, fault);
      if r != Inserted {
        if |errCh| < 1 {
          errCh := errCh + [r];
        }
        failures := failures + 1;
        return false;
      }
      batch := [];
      return true;
    }

    /** case sample, ok := <-w.ch */
    method OnReceive(fault: Fault)
      requires Valid() && Enabled(opts, Abs(), Receive(true))
      modifies this, store
      ensures Valid()
      ensures Abs() == Apply(opts, old(Abs()), Receive(Commits(fault, |old(batch)| + 1)))
      ensures ch == old(ch)[1..]
      ensures var all := old(batch) + [old(ch)[0]];
              if |all| < opts.batchSize then batch == all && store.rows == old(store.rows) && !done
              else if Commits(fault, |all|) then batch == [] && store.rows == old(store.rows) + RowsOf(all) && !done
              else batch == all && store.rows == old(store.rows) && done && errCh != []
    {
      batch := batch + [ch[0]];
      ch := ch[1..];
      if |batch| >= opts.batchSize {
        var ok := FlushBatch(fault);
        if !ok {
          done := true;
        }
      }
    }

    /** The same case on the closed and drained channel. */
    method OnClosed(fault: Fault)
      requires Valid() && Enabled(opts, Abs(), ReceiveClosed(true))
      modifies this, store
      ensures Valid() && Abs() == Apply(opts, old(Abs()), ReceiveClosed(Commits(fault, |old(batch)|)))
      ensures done && ch == old(ch) && Flushed(fault, old(batch), old(store.rows))
    {
      var _ := FlushBatch(fault);
      done := true;
    }

    /** case <-ticker.C */
    method OnTick(fault: Fault)
      requires Valid() && Enabled(opts, Abs(), Tick(true))
      modifies this, store
      ensures Valid() && Abs() == Apply(opts, old(Abs()), Tick(Commits(fault, |old(batch)|)))
      ensures done == (old(batch) != [] && !Commits(fault, |old(batch)|))
      ensures ch == old(ch) && Flushed(fault, old(batch), old(store.rows))
    {
      var ok := FlushBatch(fault);
      if !ok {
        done := true;
      }
    }

    /** case <-ctx.Done() */
    method OnContextDone(fault: Fault)
      requires Valid() && Enabled(opts, Abs(), ContextDone(true))
      modifies this, store
      ensures Valid() && Abs() == Apply(opts, old(Abs()), ContextDone(Commits(fault, |old(batch)|)))
      ensures done && ch == old(ch) && Flushed(fault, old(batch), old(store.rows))
    {
      var _ := FlushBatch(fault);
      done := true;
    }

    method CloseChannel()
      requires Valid() && !closed
      modifies this
      ensures Valid() && Abs() == Apply(opts, old(Abs()), Step.CloseChannel)
      ensures closed && ch == old(ch) && batch == old(batch)
    {
      closed := true;
      stop := Closing;
    }

    /** Stop after <-w.done: the pending error, if there is one. */
    method StopResultOf() returns (err: Option<InsertResult>)
      requires Valid() && Enabled(opts, Abs(), StopReturns)
      modifies this
      ensures Valid() && Abs() == Apply(opts, old(Abs()), StopReturns)
      ensures err.Some? <==> old(errCh) != []
      ensures err.Some? ==> err.value == old(errCh)[0]
      ensures stop == if err.Some? then ReturnedError else ReturnedNil
    {
      if |errCh| > 0 {
        err := Some(errCh[0]);
        errCh := errCh[1..];
        stop := ReturnedError;
      } else {
        err := None;
        stop := ReturnedNil;
      }
    }
  }
}
