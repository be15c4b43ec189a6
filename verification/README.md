# LGB gateway: verification model

LGB is a gateway that polls PLCs and feeds a Sparkplug B edge node, a SQLite historian,
a WebSocket hub and an HTTP API. This project models seven parts of it and proves what
they guarantee.

Check the whole project with `dafny verify dfyconfig.toml` (Dafny 4.11).

## Parts

| part | files |
|---|---|
| shared values | `base.dfy`, `scalars.dfy` |
| PLC manager: Start, Stop, Reload, workers, tag quality | `plc_manager.dfy`, `manager_*.dfy`, `scan_loop.dfy`, `scan_runs.dfy` |
| historian: channel, batch, table, queries, retention | `historian_store.dfy`, `historian_writer.dfy` |
| PLC store as a map, and the API that keeps the manager equal to it | `plc_store.dfy`, `plc_store_class.dfy`, `api_plcs.dfy` |
| Sparkplug edge node: state machine, sequence numbers, births and deaths, codec | `sparkplug_state.dfy`, `transition_calls.dfy`, `sparkplug_seq.dfy`, `edge_node*.dfy`, `codec.dfy` |
| retries with backoff | `retry.dfy` |
| environment keys | `env_lookup.dfy` |
| tag hub, write guard, write rules | `tag_hub.dfy`, `tag_hub_protocol.dfy`, `acl_store.dfy`, `acl_history.dfy`, `api_write.dfy`, `api_write_runs.dfy` |

## How it is modelled

- Code that changes fields in place is a class whose methods change those fields, each
  method proved against a specification function or an outright property: `Manager`,
  `Scanner`, `BatchWriter`, the three `Store` classes, `StateMachine`, `SeqTracker`,
  `EdgeNode`, `Options`, `Hub` and the two `Server` classes.
- Code that runs concurrently is also a system of steps: a state value, the steps each
  agent can take, and theorems about every run. A class method is one critical section
  or one whole call; the steps say how these interleave. `ManagerProtocol` has the
  read-write lock, the two sections of Reload with the unlocked wait between them, Stop,
  and every point at which a worker goroutine can be overtaken. `TransitionCalls` goes
  down to single loads and swaps. `EdgeNode` lets any number of births overlap each
  other, the publish loop, connection losses and Stop.
  That a whole call is a run of its steps is proved where both are modelled: `TickIsRun`,
  `PublishBirthsIsRun`, `HandleTagUpdateIsRun`, `PublishNextIsRun`.
- Drivers, brokers, the database, contexts, clocks and random numbers are choices: a
  transaction commits or changes nothing, a publish or a driver call succeeds or fails,
  a context is done or not, at any step. Every theorem holds for all of these choices.
- Integer widths are explicit where they matter: int64 delays and cutoffs, the uint64
  counters, two's complement in the codec. Floating-point values are bit patterns.

## Where the code does less than its comments say

The model follows the code. In each of these places a theorem says for all inputs or runs
when the code does keep the stronger reading; where that does not already show a run or an
input in which it does not, a lemma of its own does.

- `stopped` is read once, before Reload's wait (internal/plc/manager.go:228-233). A Stop is
  final if and only if, when it sets `stopped`, no Reload is past that check, or the one
  that is will find every name of its configuration among the workers it keeps:
  `StopIsFinalIffSettled`. Otherwise a goroutine may outlive Stop: `StopInWindowMisses`.
- In the same window a Stop may wait for a goroutine that nobody will cancel. It can return
  on its own exactly in the states that `StopCanReturnIff` describes; `StopWaitsForLaunched`
  is a run that ends in another one. Every Reload can return: `ReloadCanReturn`.
- The plcs API hands the request's context to Reload (internal/server/api_plcs.go:104),
  which asks for the context given to Start (internal/plc/manager.go:220). The workers a
  request adds end with the request and their entries stay: `EndRequest` and the handlers'
  contracts, `LeavesIffEnded`, `UnservedMeansCancelled`, and the run `ParentContextEnds`. So what
  `StoreAndManagerAgree` says is about the entries of the manager, not about their being
  served.
- A goroutine that is being drained may store a value after Reload has deleted its PLC's
  current values (internal/plc/manager.go:271, 485-490), if and only if it was still live
  and has a tag: `StaleIffLiveWithTags`, and the run `StaleEntryExists`.
- Reload keeps the last entry of a repeated name when it compares and the first when it
  adds, so repeating a Reload drains nothing if and only if those agree:
  `RepeatDrainsNothing`, and the input `RepeatCanDrain`.
- With a cancelled context the historian's Stop may return nil although samples are lost
  (internal/historian/writer.go:84-86): those that lie in the channel, so none if and only
  if it is empty (`StopNilLosesChannel`, and the run `CancelMayLoseSilently`).
- The comments on the reconnect path (internal/sparkplug/edge_node.go:288-291) read as if
  the node came back online. It republishes its births and stays Offline in every run:
  `NeverOnlineAgain`, and the run `ReconnectedStaysOffline`.
- Stop's Disconnect event does not apply while Connecting, so a birth may bring the node
  online after Stop; otherwise it stays offline: `StopIsFinalUnlessConnecting`, and the run
  `StopCanLeaveConnecting`.
- NBIRTH carries how many numbers anybody took since the last reset, which is its birth's own
  or that of a birth that overlaps it (internal/sparkplug/payload.go:31-32), so 0 if and only
  if that is a multiple of 256: `NbirthCarries`. With no overlapping birth these are the
  numbers that others took between its Reset and its Next: `NbirthAloneCarries`. The runs
  `NbirthCanCarryOne` and `OverlappingNbirthCarriesZero` show a number in between with a
  birth alone and with two births.
- The will message carries bdSeq 0 while births count from 1: `WillMatchesNoBirth`.
- A bad reading is published with the datatype Float, so with the tag's declared type if and
  only if that is Float: `BadReadingMatchesOnlyFloat`.
- The first retry delay is Initial even if that exceeds Max, and a Max of 2^62 or more can
  let a doubling wrap: `DelaysAreAsPromised`, and the inputs `FirstDelayCanExceedMax` and
  `SecondDelayCanWrap`. The comment on `Options` says that a jitter of -1 selects the
  default; the code leaves it at -1, which switches jitter off.
- The comment on the env lookup reads as if any number of underscores could be removed
  (internal/config/loader.go:73-75). At most two are, and never two neighbours: `TriesAre`,
  `LookupExactness`, and the input `NeighboursStay`.

## Model

| member | source | states |
|---|---|---|
| `PlcManager.Manager.constructor` | internal/plc/manager.go:80-104 | the worker map holds the configuration indexed by name, the last entry winning for a repeated name, one driver and one never-started worker per name; nothing else exists yet |
| `PlcManager.NewAllIsByName` | internal/plc/manager.go:80-104 | the construction loop yields exactly the names of the configuration with the last entry of each, and has started none of them |
| `PlcManager.Manager.Start` | internal/plc/manager.go:111-135 | visits every registered worker exactly once, in whatever order the map gives, and each gets a fresh done channel, a cancel function and one goroutine of its own configuration |
| `PlcManager.StartKeepsConfigs` | internal/plc/manager.go:111-135 | in whatever order, Start changes no configuration |
| `PlcManager.Manager.EndContexts` | internal/plc/manager.go:294-295 | when a parent context ends, so do exactly the contexts derived from it |
| `PlcManager.Manager.SetStopped` | internal/plc/manager.go:140-148 | sets `stopped` and cancels the context of every worker that was started, and of no other |
| `PlcManager.Manager.IndexByName` | internal/plc/manager.go:235-239 | the index by name of a configuration, where the last entry of a name wins |
| `PlcManager.Manager.SelectDrain` | internal/plc/manager.go:246-256 | selects, without repetition, exactly the workers whose name is gone from the configuration or whose entry differs |
| `PlcManager.Manager.TakeOut` | internal/plc/manager.go:263-272 | one worker leaves the map together with its current values, its context cancelled if it had one; its driver and done channel are handed back |
| `PlcManager.Manager.DrainSection` | internal/plc/manager.go:241-274 | the first critical section of Reload drains exactly the selected workers and collects, position by position, their drivers and done channels |
| `PlcManager.Manager.AddSection` | internal/plc/manager.go:291-310 | the second critical section creates a driver, a done channel and a goroutine for every entry whose name is missing, and touches no present worker |
| `PlcManager.Manager.StoreTag` | internal/plc/manager.go:485-500 | writes one (plc, tag) entry of the current values, with an empty quality stored as good |
| `PlcManager.Manager.CurrentTag` | internal/plc/manager.go:180-189 | finds the stored value of the pair, and none if either level is missing |
| `PlcManager.StoreThenRead` | internal/plc/manager.go:180-189 | a stored update is what a later read of its pair finds, and every other pair reads as before |
| `ManagerInvariants.StepKeeps` | internal/plc/manager.go:111-313 | every step of any worker, Reload, Stop, reader or outside event keeps the invariant: lock discipline, unique identities, each live goroutine registered or being drained by the Reload under way, closes accounted for |
| `ManagerInvariants.RunKeeps` | internal/plc/manager.go:111-313 | so the invariant holds at every point of every interleaving of one Start, any number of Reloads and Stops and all worker steps |
| `ManagerTheorems.OneWorkerPerPlc` | internal/plc/manager.go:111-310 | in every interleaving no two live goroutines serve the same PLC name |
| `ManagerTheorems.ReplacementAfterDrain` | internal/plc/manager.go:276-310 | when Reload launches a goroutine for a name, every earlier goroutine of that name has left runWorker and its driver has been closed by exactly one Reload |
| `ManagerTheorems.AddInstalls` | internal/plc/manager.go:291-310 | the add section turns the drained map into exactly the configuration the Reload was called with |
| `ManagerTheorems.BetweenSections` | internal/plc/manager.go:274-290 | whatever runs between the two sections of a Reload, no worker entry changes |
| `ManagerTheorems.ReloadInstalls` | internal/plc/manager.go:235-310 | over both sections and anything interleaved: on return the map has exactly the new names with their configurations, unchanged PLCs keep driver and done channel, every removed or changed driver was closed exactly once, by this call and after its goroutine had ended |
| `ManagerTheorems.ReloadIsForItsConfig` | internal/plc/manager.go:224-256 | whatever runs in between, the drain section of a Reload drains for the configuration that Reload was called with |
| `ManagerTheorems.DrainedWasClosed` | internal/plc/manager.go:276-288 | each drained worker has ended and been closed once before its replacement, which uses another driver and another done channel |
| `ManagerTheorems.ReloadLeavesCurrent` | internal/plc/manager.go:263-272 | no Reload step touches the current values of a PLC outside the drained set |
| `ManagerTheorems.RepeatDrainsNothing` | internal/plc/manager.go:235-256 | the same Reload again drains nothing if and only if, for each PLC the first call (re)created, the first and the last entry of its name agree |
| `ManagerTheorems.RepeatCanDrain` | internal/plc/manager.go:235-310 | a concrete input: two entries of one name with different addresses; the first call installs the first entry, the same call again drains it |
| `ManagerTheorems.RepeatChangesNothing` | internal/plc/manager.go:235-310 | for distinct names the second identical Reload leaves the whole state as it was |
| `ManagerStop.StopIsFinal` | internal/plc/manager.go:139-165 | a Stop that set `stopped` when no launch was still to come leaves every goroutine ended and every registered driver closed by it; no later call makes a goroutine appear or move, and worker entries and current values can only go |
| `ManagerStop.StopIsFinalIffSettled` | internal/plc/manager.go:139-310 | such finality holds in every continuation if and only if, when `stopped` is set, no Reload is past its check, or the one that is finds every name of its configuration among the workers it keeps (before Start: there is no worker) |
| `ManagerStop.CloseAfterExit` | internal/plc/manager.go:150-163 | such a Stop closes drivers only when all goroutines have ended |
| `ManagerStop.ReloadAfterStop` | internal/plc/manager.go:227-233 | a Reload that begins after `stopped` returns at its check and changes nothing |
| `ManagerStop.StopInWindowMisses` | internal/plc/manager.go:228-310 | a concrete run in which Stop falls between a Reload's check and its add section: Stop returns and a goroutine it never waited for keeps running with an open driver |
| `ManagerDeadlock.HolderMoves` | internal/plc/manager.go:139-310 | every holder of the manager's lock has an enabled next step, and that step gives the lock back |
| `ManagerDeadlock.ReloadProgress` | internal/plc/manager.go:224-313 | in every run a Reload in progress can move, or a holder can give it the lock, or it waits, without the lock, for a drained goroutine that is cancelled and on its way out |
| `ManagerDeadlock.StopProgress` | internal/plc/manager.go:139-165 | in every run each Stop in progress can move, or a holder can give it the lock, or it waits for a goroutine that has not ended, which is on its way out or not cancelled |
| `ManagerDeadlock.ReloadCanReturn` | internal/plc/manager.go:224-313 | from every point of every run steps of what is under way alone bring the Reload to its return |
| `ManagerStopReturns.StopCanReturnIff` | internal/plc/manager.go:139-165 | in every run a Stop can return without a context ended from outside or another Stop if and only if it does not wait, or every live goroutine is cancelled or about to be by a Stop that has yet to set `stopped`; while a Reload is inside an add section that launches, if and only if every goroutine is cancelled and can end without the lock |
| `ManagerStopReturns.LaunchBlocksStop` | internal/plc/manager.go:291-310 | once the add section of a Reload launches a goroutine while Stop waits, that Stop cannot return any more without such help |
| `ManagerStopReturns.StopWaitsForLaunched` | internal/plc/manager.go:150-152 | a concrete run: a Reload passes its check, Stop sets `stopped` and waits, the Reload launches a worker, and the Stop waits for it in every continuation |
| `ManagerContexts.EndedWasCancelled` | internal/plc/manager.go:335-364 | in every run a goroutine that has left runWorker had its context end |
| `ManagerContexts.UnservedMeansCancelled` | internal/plc/manager.go:291-310 | in every run an entry of the worker map without a live goroutine is one whose context has ended |
| `ManagerDeadlock.LeavesIffEnded` | internal/plc/manager.go:335-430 | in every run a goroutine can come to leave runWorker by what the holders of the lock and then it alone do, if and only if its context has ended; if not, it stays in every continuation in which its context does not end |
| `ManagerContexts.ParentContextEnds` | internal/plc/manager.go:294-295 | a concrete run: the parent context given to a Reload ends, and the entry it added stays in the map with nobody to serve it, though nothing was stopped |
| `ManagerTicks.TicksReadAllTags` | internal/plc/manager.go:370-419 | in every run a goroutine has read its tags in whole passes, all of them and in order, followed by the tags of the tick under way up to the one being read or whose update is in hand |
| `ManagerQuality.EmittedAreCollapsedReads` | internal/plc/manager.go:365-419 | in every run a goroutine reads its tags in whole passes, and the updates it has emitted for a tag are its reads of it with each bad read directly after a bad one removed, with the values read |
| `ManagerQuality.CurrentIsLastRead` | internal/plc/manager.go:440-449 | the current value of a tag is the registered goroutine's last read, good with its value or bad without one, except while that read's update waits for the lock |
| `ManagerQuality.EveryTagIsCurrent` | internal/plc/manager.go:370-449 | in every run, once a registered goroutine has read anything and is between two ticks, every tag configured for its PLC has a current value, the last read of it |
| `ManagerQuality.CollapseKeepsLast` | internal/plc/manager.go:375-386 | the last emitted update has the last read's quality and value |
| `ManagerQuality.CollapseAlternates` | internal/plc/manager.go:375-386 | two bad updates of a tag never follow each other |
| `ManagerStale.StaleIffLiveWithTags` | internal/plc/manager.go:263-288 | when the drain section deletes the current values of a PLC, some continuation has them back before the add section if and only if the goroutine it drained is still live and has a tag configured |
| `ManagerStale.StaleEntryExists` | internal/plc/manager.go:485-490 | a concrete run: Reload to the empty configuration returns and the removed PLC is back among the current values |
| `ScanLoop.Scanner.ReadTag` | internal/plc/manager.go:369-418 | one read: it is recorded under the tag's name; a good one emits one update with its value and sets the quality good; a bad one emits one without a value and sets it bad only if the tag was not bad already |
| `ScanLoop.Scanner.Tick` | internal/plc/manager.go:369-419 | one tick adds exactly one read for each configured tag, in order, with the driver's result for it, and emits and remembers qualities as the tag-by-tag step does |
| `ScanLoop.TicksEmitCollapsedReads` | internal/plc/manager.go:360-419 | over any number of ticks of the loop the emitted updates are the reads with repeated bad ones removed |
| `ScanRuns.TickIsRun` | internal/plc/manager.go:360-419 | for all results of its reads, the tick of the loop is a run of the goroutine's own steps in the protocol, from its ticker or from a reconnect inside a tick, with the same reads, updates and qualities |
| `HistorianStore.Store.InsertBatch` | internal/historian/store.go:81-113 | all samples as rows, in order and field by field with an empty quality stored as good, or no row at all; a busy writer is refused; the busy flag is always released |
| `HistorianStore.Store.Select` | internal/historian/store.go:120-120 | the selected rows are those of the query specification |
| `HistorianStore.Store.RunQuery` | internal/historian/store.go:115-138 | the samples are stored rows of the PLC and tag between both ends of the range, in ascending time, at most the limit or 1000; a row that is left out is so only at the limit and is at least as young as the last sample |
| `HistorianStore.AnswerIsOldestMatches` | internal/historian/store.go:115-138 | a query returns min(limit, matches) rows in ascending time, each matching and no more often than stored, and every matching row left out is at least as young as the last one returned |
| `HistorianStore.Store.EnforceRetention` | internal/historian/store.go:140-147 | with retention off or a failed statement nothing changes; otherwise the rows older than the cutoff go |
| `HistorianStore.RetainKeepsYoung` | internal/historian/store.go:140-147 | exactly the rows at or after the cutoff remain, with their multiplicity |
| `HistorianStore.RetainTwice` | internal/historian/store.go:140-147 | two passes are one pass with the later cutoff: retention is idempotent and monotone in now |
| `HistorianStore.RetentionKeepsAnswers` | internal/historian/store.go:115-147 | a query that starts at or after the cutoff has the same answer before and after retention |
| `HistorianStore.CutoffIsOneWrap` | internal/historian/store.go:144-144 | the int64 wrap-arounds in the cutoff arithmetic cancel to a single one |
| `HistorianStore.CutoffExactness` | internal/historian/store.go:144-144 | the cutoff is now minus the days if and only if that fits an int64; always for up to 106751 days and times after 1970, where it lies before now |
| `HistorianWriter.Options.WithDefaults` | internal/historian/writer.go:22-33 | given positive sizes are kept, others become 1024 and 100 |
| `HistorianWriter.StepKeeps` | internal/historian/writer.go:39-102 | every step of producers, Stop, cancellation and the run loop keeps conservation and the meaning of the control flags |
| `HistorianWriter.FifoConservation` | internal/historian/writer.go:63-102 | in every reachable state table ++ batch ++ channel is the old table ++ accepted samples in order; the table is a prefix of that; a live batch is shorter than BatchSize; at most one flush ever fails, so the one-slot error channel drops none |
| `HistorianWriter.CompleteIffDrained` | internal/historian/writer.go:63-102 | in any run, cancelled or not, everything accepted is stored if and only if batch and channel are empty; the count behind StopNilLosesChannel |
| `HistorianWriter.StopNilIffComplete` | internal/historian/writer.go:48-61 | without cancellation, Stop returns nil exactly when every accepted sample is stored once and in order; on an error at least one is missing |
| `HistorianWriter.StopNilLosesChannel` | internal/historian/writer.go:48-102 | under any context, when Stop has returned nil the table has gained exactly the accepted samples but for the last ones, as many as still lie in the channel: nothing is lost if and only if the channel is empty, and a loss implies that run left through the done context |
| `HistorianWriter.CancelMayLoseSilently` | internal/historian/writer.go:84-86 | a concrete run: with a cancelled context Stop returns nil although an accepted sample is lost |
| `HistorianWriter.FlushStoresBatch` | internal/historian/writer.go:84-99 | in every run, after a tick, the channel's end or the context's end with a database that commits, the table holds everything accepted but for the channel; only the latter two end the loop |
| `HistorianWriter.FullBatchIsStored` | internal/historian/writer.go:87-95 | in every run a received sample waits in the batch while that stays below BatchSize, and the one that fills it has the whole batch stored |
| `HistorianWriter.BatchWriter.Enqueue` | internal/historian/writer.go:39-46 | an accepted sample joins the end of the channel |
| `HistorianWriter.BatchWriter.FlushBatch` | internal/historian/writer.go:68-81 | an empty batch succeeds; a commit appends the batch to the table and empties it; a failure leaves both and an error in the one-slot channel |
| `HistorianWriter.BatchWriter.OnReceive` | internal/historian/writer.go:87-95 | the oldest sample of the channel joins the batch; below BatchSize nothing else happens; a full batch is stored and emptied, or on a failure kept, with an error and the end of the loop |
| `HistorianWriter.BatchWriter.OnClosed` | internal/historian/writer.go:88-91 | on the closed and drained channel the batch is stored, or kept with an error, and the loop ends |
| `HistorianWriter.BatchWriter.OnTick` | internal/historian/writer.go:96-99 | a tick stores the whole batch and empties it and the loop goes on; if the database fails, a non-empty batch is kept, an error is left and the loop ends |
| `HistorianWriter.BatchWriter.OnContextDone` | internal/historian/writer.go:84-86 | a done context stores the batch, or keeps it with an error, and ends the loop |
| `HistorianWriter.BatchWriter.CloseChannel` | internal/historian/writer.go:49-49 | Stop first closes the channel, which keeps what it holds |
| `HistorianWriter.BatchWriter.StopResultOf` | internal/historian/writer.go:50-57 | Stop returns the pending error if there is one, else nil |
| `PlcStore.InsertPlcMeans` | internal/plcstore/store.go:187-199 | INSERT into plcs adds one entry without tags and keeps all constraints |
| `PlcStore.InsertTagMeans` | internal/plcstore/store.go:356-366 | INSERT into plc_tags appends one tag to one entry and changes no other |
| `PlcStore.HasTagIsListed` | internal/plcstore/store.go:90-90 | a UNIQUE(plc_id, name) conflict arises exactly for a name the PLC already lists |
| `PlcStore.UpdatePlcMeans` | internal/plcstore/store.go:217-233 | UPDATE moves the entry to its new name with its old tags; no other entry changes |
| `PlcStore.DeleteTagsMeans` | internal/plcstore/store.go:243-245 | DELETE by plc_id empties the tags of one entry and of no other |
| `PlcStore.DeletePlcMeans` | internal/plcstore/store.go:270-279 | deleting a PLC row, with its tags, removes exactly one entry and orphans nothing |
| `PlcStore.LoadMore` | internal/plcstore/store.go:356-366 | loading one more tag succeeds exactly when its name is new, and appends it |
| `PlcStore.CreateEffect` | internal/plcstore/store.go:180-205 | the statements of Create together add exactly the given PLC, tags in order |
| `PlcStore.UpdateEffect` | internal/plcstore/store.go:209-250 | the statements of Update together replace the entry, renamed if asked, tags in the given order |
| `PlcStoreClass.Store.InsertTags` | internal/plcstore/store.go:356-366 | inserts all tags in order, or fails on a fault or on a repeated name |
| `PlcStoreClass.Store.Create` | internal/plcstore/store.go:180-205 | done exactly for a new name with distinct tags, conflict for a taken name; the map gains exactly that entry, or both tables stay as they were |
| `PlcStoreClass.Store.Update` | internal/plcstore/store.go:209-250 | unknown, taken and repeated-tag cases are told apart; done replaces and possibly renames the entry, anything else leaves both tables alone |
| `PlcStoreClass.Store.Delete` | internal/plcstore/store.go:256-281 | removes the entry and its tags, or reports a missing one and changes nothing |
| `PlcStoreClass.Store.Seed` | internal/plcstore/store.go:294-328 | fills an empty store with exactly the listed PLCs or, on any repeated name or tag or fault, leaves it empty; a non-empty store is left alone |
| `PlcStoreClass.Store.ListTags` | internal/plcstore/store.go:333-353 | the tags of one PLC in insertion order |
| `PlcStoreClass.Store.Get` | internal/plcstore/store.go:153-175 | finds exactly the entries of the map, with all fields and the tags in order |
| `PlcStoreClass.Store.List` | internal/plcstore/store.go:113-149 | the entries of the map, sorted by name |
| `PlcStoreClass.Store.SortedRows` | internal/plcstore/store.go:114-138 | every row once, in ascending order of names |
| `PlcStoreClass.ListIsUnique` | internal/plcstore/store.go:113-149 | there is only one list that shows a map sorted by name |
| `PlcStoreClass.PrecedesAtDifference` | internal/plcstore/store.go:113-138 | the order of List is ascending: at the first difference the smaller character comes first, and a name before its continuations |
| `ApiPlcs.ListingInstalled` | internal/server/api_plcs.go:94-107 | a Reload with the store's listing leaves the manager with exactly the store's entries |
| `ApiPlcs.ListingKeeps` | internal/server/api_plcs.go:94-107 | it keeps driver and done channel of every worker whose entry is unchanged in the store |
| `ApiPlcs.Server.ReloadFromStore` | internal/server/api_plcs.go:94-107 | a failed List or a stopped manager changes nothing; otherwise the manager holds the store's map and unchanged workers are the same workers |
| `ApiPlcs.Server.HandleCreate` | internal/server/api_plcs.go:149-192 | reply, new map, one audit event iff committed, manager equal to the store after a successful reload, the echoed PLC is the requested one, and the contexts of the workers it launched have ended with the request |
| `ApiPlcs.Server.HandleUpdate` | internal/server/api_plcs.go:196-242 | the same for update and rename, with not-found and conflict told apart |
| `ApiPlcs.Server.HandleDelete` | internal/server/api_plcs.go:246-270 | the same for delete |
| `ApiPlcs.Server.EndRequest` | internal/server/api_plcs.go:104-104 | the end of a request ends the contexts of exactly the workers launched since it began, because its context was their parent |
| `ApiPlcs.RepliesTell` | internal/server/api_plcs.go:149-270 | the promised reply from map and request alone: bad request, not found, conflict, internal error on repeated tags, and done with the given entry |
| `ApiPlcs.BootInstalls` | cmd/lgb/cmd/server.go:213-229 | a manager made from the store's listing and started, in whatever order, holds exactly the store's map |
| `ApiPlcs.AgreeIffPendingChangesNothing` | internal/server/api_plcs.go:94-270 | from boot, over any history with Stop and List failures: the store is the effect of all committed requests, the manager that of those up to the last refresh, and they agree if and only if the requests since change nothing in the manager's map |
| `ApiPlcs.StoreAndManagerAgree` | internal/server/api_plcs.go:94-270 | from boot, without List failures and until Stop, manager and store agree after every request and configuration-file change |
| `ApiPlcs.UntouchedNeverRestarts` | internal/server/api_plcs.go:94-270 | a PLC that no committed request names keeps its driver and done channel over any history, List failures included |
| `SparkplugState.StateMachine.Transition` | internal/sparkplug/state.go:51-62 | with other calls taking effect between load and swap, the call takes effect exactly once, on the state the others left, and the loop ends |
| `SparkplugState.ArcMoves` | internal/sparkplug/state.go:64-79 | an event that applies changes the state |
| `EdgeNodeCallRuns.StateFollowsEvents` | internal/sparkplug/state.go:64-79 | every step of the node: the first Start goes Connecting; from Connecting a finished birth goes Online and a refused Start or a birth refused by the broker goes Offline; from Online a lost connection or Stop goes Offline; nothing else moves the state |
| `TransitionCalls.TransitionsAreAtomic` | internal/sparkplug/state.go:51-62 | for any number of concurrent calls the state is the fold of one order of the finished calls, which is each caller's own order; an unfinished call has had no effect |
| `TransitionCalls.EffectInsideCall` | internal/sparkplug/state.go:51-62 | a step makes at most one call take effect, and that call is under way and ends with it |
| `TransitionCalls.FailedSwapMeansProgress` | internal/sparkplug/state.go:57-60 | if the state changed since a load, another call took effect: retries are lock-free |
| `SparkplugSeq.SeqTracker.Next` | internal/sparkplug/seq.go:13-16 | returns the counter modulo 256 and advances it, wrapping at 2^64 |
| `SparkplugSeq.SeqTracker.Reset` | internal/sparkplug/seq.go:19-21 | the counter is 0 |
| `SparkplugSeq.CounterIsCount` | internal/sparkplug/seq.go:13-21 | the counter is the number of Nexts since the last Reset, modulo 2^64 |
| `SparkplugSeq.NumbersCountFromReset` | internal/sparkplug/seq.go:13-21 | for any interleaved users the k-th number after a Reset is (k - 1) mod 256, wrap of the word included |
| `SparkplugSeq.BirthNumber` | internal/sparkplug/payload.go:31-32 | with no other reset in between, a birth carries the number of allocations between its Reset and its Next, modulo 256: 0 if and only if that is a multiple of 256 |
| `SparkplugSeq.AdjacentBirth` | internal/sparkplug/payload.go:31-32 | with nothing in between, the birth carries 0 and the k-th number after it is k mod 256 |
| `EdgeNodeCalls.EdgeNode.PublishBirths` | internal/sparkplug/edge_node.go:205-241 | an undisturbed birth publishes NBIRTH with 0 and the next bdSeq, then, only if accepted, DBIRTHs 1, 2, ... in device order, and moves the state accordingly |
| `EdgeNodeCalls.EdgeNode.HandleTagUpdate` | internal/sparkplug/edge_node.go:184-193 | an update is queued only while Online and while there is room |
| `EdgeNodeCalls.EdgeNode.PublishNext` | internal/sparkplug/edge_node.go:385-405 | the oldest update becomes one DDATA with the next number if Online, else it is dropped without using a number |
| `EdgeNodeCalls.EdgeNode.PublishDeaths` | internal/sparkplug/edge_node.go:142-172 | a DDEATH per device in order with consecutive numbers, then NDEATH with the current bdSeq, whatever the broker accepts |
| `EdgeNodeCallRuns.PublishBirthsIsRun` | internal/sparkplug/edge_node.go:205-241 | publishBirths at one stroke is a run of the birth's steps, for all answers of the broker: the same messages, numbers and transition |
| `EdgeNodeCallRuns.HandleTagUpdateIsRun` | internal/sparkplug/edge_node.go:184-193 | so is HandleTagUpdate: the update is queued exactly when the node is Online and there is room |
| `EdgeNodeCallRuns.PublishNextIsRun` | internal/sparkplug/edge_node.go:385-405 | so is a turn of the publish loop: the oldest update becomes one DDATA with the next number exactly when the node is Online |
| `EdgeNodeCallRuns.RefusedBirth` | internal/sparkplug/edge_node.go:219-224 | a birth whose NBIRTH the broker refuses publishes no DBIRTH and leaves a Connecting node Offline |
| `EdgeNodeCallRuns.SendsHeldNdeath` | internal/sparkplug/edge_node.go:159-170 | the NDEATH that Stop publishes carries the bdSeq it took |
| `EdgeNodeInvariants.PathKeeps` | internal/sparkplug/state.go:64-79 | every step of the node keeps the state path on its only possible course |
| `EdgeNodeInvariants.MovesByEvent` | internal/sparkplug/edge_node.go:107-240 | only Start, a finishing birth, a lost connection and Stop give events to the state machine |
| `EdgeNodeInvariants.TrackedKeeps` | internal/sparkplug/edge_node.go:146-153 | every step keeps the history of the sequence tracker faithful |
| `EdgeNodeInvariants.BirthsKeeps` | internal/sparkplug/edge_node.go:205-207 | every step keeps the birth counter equal to the number of attempts, and each attempt's bdSeq its index |
| `EdgeNodeInvariants.HistoryKeeps` | internal/sparkplug/edge_node.go:205-241 | every step keeps the order of births, being online and data |
| `EdgeNodeMessages.QueueKeeps` | internal/sparkplug/edge_node.go:184-193 | every step keeps the channel a bounded queue whose order DDATA follows |
| `EdgeNodeMessages.DeathsKeeps` | internal/sparkplug/edge_node.go:145-168 | every step keeps Stop's deaths in their order |
| `EdgeNodeBirths.TrailsKeep` | internal/sparkplug/edge_node.go:219-240 | every step keeps each birth's DBIRTHs in the log in step with its progress, and every entry to Online behind a complete birth |
| `EdgeNodeNumbers.LedgerKeeps` | internal/sparkplug/edge_node.go:146-153 | every step keeps, user by user, the numbers in the messages plus the one held equal to the numbers given out |
| `EdgeNodeNumbers.TookInOrder` | internal/sparkplug/edge_node.go:146-153 | of two messages of one user the later one took the later number |
| `EdgeNodeTheorems.OneOnlineStretch` | internal/sparkplug/state.go:64-79 | in every run the path is Offline, Connecting, then Offline, or one stretch of Online that ends in Offline |
| `EdgeNodeTheorems.NeverOnlineAgain` | internal/sparkplug/edge_node.go:277-335 | once Offline after a connection attempt the node stays so in every continuation: at most one more DDATA, and nothing queued beyond what had passed the check |
| `EdgeNodeTheorems.BirthsComeFirst` | internal/sparkplug/edge_node.go:205-241 | being Online follows a complete birth, with a published NBIRTH and a DBIRTH for every device; each DBIRTH follows the NBIRTH of its own attempt, each DDATA being Online; attempt k (from 0) carries bdSeq k + 1 |
| `EdgeNodeTheorems.BirthsPublishDbirths` | internal/sparkplug/edge_node.go:219-240 | in every run, exactly after its accepted NBIRTH a birth has published or tried one DBIRTH for each device it has passed, in order, and one for every device when it succeeds and ever after; a refused one has none |
| `EdgeNodeTheorems.NdeathCarriesAttempts` | internal/sparkplug/edge_node.go:159-170 | the NDEATH carries the number of attempts so far, so it matches birth k exactly when k is the latest attempt |
| `EdgeNodeTheorems.WillMatchesNoBirth` | cmd/lgb/cmd/server.go:425-442 | the will message's bdSeq 0 matches none of the first 2^64 - 1 births |
| `EdgeNodeTheorems.StopPublishesDeaths` | internal/sparkplug/edge_node.go:142-170 | when Stop has returned, one DDEATH per device was published or tried, in order, then one NDEATH |
| `EdgeNodeTheorems.DataFollowsChannel` | internal/sparkplug/edge_node.go:385-405 | the DDATA updates are a subsequence of the accepted ones, each at most once, and the channel holds at most 256 |
| `EdgeNodeTheorems.NumbersInEveryRun` | internal/sparkplug/edge_node.go:146-153 | in every run and for each user of the tracker the messages carry, in order, exactly the numbers it was given, less one held for a message in flight; a birth's NBIRTH, its DBIRTH for a device and Stop's DDEATH for a device get at most one |
| `EdgeNodeTheorems.MessagesTakeNumbers` | internal/sparkplug/edge_node.go:146-153 | in every run each numbered message took one use of the tracker, no two the same, in order within a user, and carries the count of numbers between the last reset and that use, modulo 256 |
| `EdgeNodeTheorems.NbirthCarries` | internal/sparkplug/payload.go:31-32 | in every run each NBIRTH, overlapping births included, took one number, after its own birth's reset, and carries how many numbers anybody took since the last reset by anybody, modulo 256: 0 if and only if that is a multiple of 256 |
| `EdgeNodeTheorems.NbirthAloneCarries` | internal/sparkplug/payload.go:31-32 | with no other reset between its birth's Reset and Next, an NBIRTH carries how many numbers others took in between, modulo 256 |
| `EdgeNodeNumbers.ResetsKeep` | internal/sparkplug/payload.go:31-32 | every step keeps each number given to an NBIRTH behind that birth's own reset |
| `EdgeNodeTheorems.BirthStartsAtZero` | internal/sparkplug/payload.go:30-32 | when a birth's Reset and Next are adjacent, the message (DBIRTH, DDATA or DDEATH) that takes the q-th number after the NBIRTH's carries q mod 256 until the next reset |
| `EdgeNodeGaps.StopIsFinalUnlessConnecting` | internal/sparkplug/edge_node.go:172-172 | Stop's Disconnect keeps the node offline for good if and only if it was not Connecting at that moment |
| `EdgeNodeStop.StopCanReturn` | internal/sparkplug/edge_node.go:142-181 | from every point of every run at which Stop is under way, its own steps and those of the loops and births under way can bring it to its return |
| `EdgeNodeStop.OneReconnectPerLoss` | internal/sparkplug/edge_node.go:292-335 | once a loss has been heard, or the channel drained after a reconnect, the reconnect loop does not set out again before another loss is signalled |
| `EdgeNodeGaps.StopCanLeaveConnecting` | internal/sparkplug/edge_node.go:142-172 | a concrete run: Stop is called right after Start, and some continuation after its Disconnect has the node online |
| `EdgeNodeGaps.ReconnectedStaysOffline` | internal/sparkplug/edge_node.go:292-335 | a concrete run: after a loss the node reconnects and publishes a second NBIRTH, and is Offline in every continuation |
| `EdgeNodeGaps.NbirthCanCarryOne` | internal/sparkplug/payload.go:31-32 | a concrete run: a rebirth overlapping the publish loop publishes an NBIRTH that carries 1 |
| `EdgeNodeGaps.OverlappingNbirthCarriesZero` | internal/sparkplug/payload.go:31-32 | a concrete run: of two overlapping rebirths one publishes an NBIRTH that carries 0 although the publish loop took a number between that birth's Reset and Next, because the other birth reset the tracker as well |
| `Codec.EncodePutsWord` | internal/sparkplug/metric.go:31-78 | the wire value itself: integers of up to 32 bits as the sign-extended 32-bit word, those of 64 bits as a 64-bit word, unsigned and other values as they are, each with its own datatype, name and no null mark |
| `Codec.WholeWordIsValue` | internal/sparkplug/metric.go:40-48 | a reader of the whole 32-bit word gets every int8, int16 and int32 back |
| `Codec.RoundTrip` | internal/sparkplug/metric.go:31-136 | decoding an encoded scalar gives it back, for all twelve types |
| `Codec.EncodeIsInjective` | internal/sparkplug/metric.go:31-78 | different values have different metrics |
| `Codec.Int8Survives` | internal/sparkplug/metric.go:42-44 | the 32-bit word of an int8, cut to 8 bits, gives it back; that Encode puts this word is EncodePutsWord |
| `Codec.Int64Survives` | internal/sparkplug/metric.go:51-53 | the same for int64 through uint64 |
| `Codec.DecodeSeesLowBits` | internal/sparkplug/metric.go:85-121 | two words of an integer datatype decode alike if and only if they agree in the low bits of its width |
| `Codec.NormaliseIsIdempotent` | internal/sparkplug/metric.go:31-136 | re-encoding what was decoded keeps value and datatype, and doing so twice is doing so once |
| `Codec.FixedIffEncoded` | internal/sparkplug/metric.go:31-136 | the metrics left alone by that are exactly the encoded ones |
| `Codec.DecodeFailsIff` | internal/sparkplug/metric.go:81-136 | decoding yields nothing exactly without a datatype or with a value of another kind |
| `Codec.GoodReadingMatchesDeclaration` | internal/sparkplug/payload.go:147-159 | a reading into the cell allocated for a configured type is published with the datatype NBIRTH declares; an unknown type has no datatype and never encodes |
| `Codec.BuildDdata` | internal/sparkplug/payload.go:106-133 | one metric per update in order, or an error exactly when some value is of a foreign type |
| `Codec.DdataRoundTrip` | internal/sparkplug/payload.go:114-130 | a DDATA metric is null exactly for a bad reading and otherwise decodes to the value read |
| `Codec.BadReadingMatchesOnlyFloat` | internal/sparkplug/payload.go:117-121 | a bad reading is published as a null Float, so with the declared datatype if and only if the tag is declared Float |
| `Codec.BuildNbirth` | internal/sparkplug/payload.go:30-62 | the bdSeq metric followed by one declaration per tag |
| `Codec.NbirthDeclares` | internal/sparkplug/payload.go:39-60 | the bdSeq comes with its value; each tag, in order, with its name and the datatype of its type and without a value |
| `Retry.Options.ApplyDefaults` | internal/retry/retry.go:61-79 | durations become positive, jitter at most 1, legal values are kept, and a zero jitter becomes 1/4 only without an own Sleep |
| `Retry.DelayAfter` | internal/retry/retry.go:119-127 | the doubling loop with its early break computes the wrapped, capped doubling |
| `Retry.DelaysAreAsPromised` | internal/retry/retry.go:82-84 | every delay is min(Initial * 2^(n-1), Max) if and only if Initial <= Max and no doubling that Max lets through reaches 2^62; the second condition alone decides about every n > 1 |
| `Retry.FirstDelayCanExceedMax` | internal/retry/retry.go:119-121 | a concrete input: Initial 3 and Max 2 give a first delay of 3 |
| `Retry.SecondDelayCanWrap` | internal/retry/retry.go:119-127 | a concrete input: Initial 2^62 and the largest Max give a negative second delay |
| `Retry.SmallCapFits` | internal/retry/retry.go:119-127 | a cap below 2^62 excludes every wrap |
| `Retry.PromisedGrows` | internal/retry/retry.go:119-127 | the promised delays never decrease |
| `Retry.Do` | internal/retry/retry.go:92-143 | the first turn that does not go on decides result and number of calls; the waits are one fewer than the calls on success and exhaustion, and wait j is the jittered delay after attempt j |
| `Retry.EndIsUnique` | internal/retry/retry.go:96-143 | the turns determine the result and the number of calls |
| `Retry.ExhaustedExactly` | internal/retry/retry.go:97-117 | exhaustion happens exactly when MaxAttempts calls failed with the context never done, after exactly that many calls; without a limit Do fails only by cancellation |
| `Retry.JitterStaysNear` | internal/retry/retry.go:129-134 | a jittered delay stays within the fraction and is never negative |
| `Retry.JitterIsLinear` | internal/retry/retry.go:129-134 | the wait is linear in the random number: 1 - Jitter of the delay at 0, the delay at 1/2 |
| `EnvLookup.Lookup` | internal/config/loader.go:69-97 | the nested loops with early returns yield the entry of the first name tried that is a key |
| `EnvLookup.TriesAre` | internal/config/loader.go:69-97 | the names tried are exactly the suffix, the suffix less one underscore, and less two that are not neighbours |
| `EnvLookup.LookupExactness` | internal/config/loader.go:69-97 | a non-empty result is the entry of such a name; it is empty if and only if none is a key; an exact key wins |
| `EnvLookup.NeighboursStay` | internal/config/loader.go:73-97 | a concrete input: A__B does not lead to the key AB |
| `EnvLookup.BuildEnvKeyMap` | internal/config/loader.go:101-126 | maps the upper-cased, underscored name of exactly the tagged fields, at any depth, to a key of that name |
| `EnvLookup.NameByCharacter` | internal/config/loader.go:115-116 | the name of a key, character by character: dots become underscores, small letters capitals, and everything else stays |
| `EnvLookup.PathsAreFieldKeys` | internal/config/loader.go:101-123 | the keys are those of the tagged fields, each its tag after the parent's key and a dot, at any depth |
| `EnvLookup.EveryKeyIsReachable` | internal/config/loader.go:64-97 | each configuration key is found under its own name unless another key shares it, and under that name with one extra underscore some key is found that it leads to |
| `TagHub.Hub.Subscribe` | internal/server/api.go:269-272 | a new open channel with the request's filter joins the clients |
| `TagHub.Hub.SetFilter` | internal/server/tag_hub.go:55-61 | the filter of one subscriber is replaced and made active |
| `TagHub.Hub.Unsubscribe` | internal/server/tag_hub.go:63-69 | the subscriber stays registered and matches nothing |
| `TagHub.Hub.Unregister` | internal/server/tag_hub.go:32-37 | the client leaves and its channel is closed |
| `TagHub.Hub.Publish` | internal/server/tag_hub.go:39-53 | every client whose filter is active and names no other PLC and no other tag gets the update at the end of its buffer if that holds fewer than 16, and loses it if not; nobody else is touched |
| `TagHub.OfferKeeps` | internal/server/tag_hub.go:46-51 | an offer joins the end of a buffer with room and is dropped at 16, and consumed ++ buffer stays a subsequence of what was offered |
| `TagHubProtocol.StepKeeps` | internal/server/tag_hub.go:26-84 | every step of concurrent publishers, readers and subscribers keeps delivery, openness and each publisher's bookkeeping |
| `TagHubProtocol.Delivery` | internal/server/tag_hub.go:39-53 | in every run consumed ++ buffered is a subsequence of what was offered, all of it if every send of the run to this client found fewer than 16 buffered, and the buffer never exceeds 16 |
| `TagHubProtocol.SendsAndReads` | internal/server/tag_hub.go:46-51 | in every run a send puts the update at the end of a buffer with room and drops it at 16, a read takes the oldest one, and neither touches another client |
| `TagHubProtocol.VisitFollowsFilter` | internal/server/tag_hub.go:71-84 | a visit matches exactly an active filter that names no other PLC and no other tag |
| `TagHubProtocol.SendsAreMatchedAndOpen` | internal/server/tag_hub.go:39-53 | every send goes to a client whose filter matched in this publish call, once, on an open channel, and never waits |
| `TagHubProtocol.PublishIsComplete` | internal/server/tag_hub.go:39-53 | a publish call returns having visited every client once and offered the update to exactly the matching ones |
| `TagHubProtocol.PublishNeverBlocks` | internal/server/tag_hub.go:39-53 | a publish call under way always has an enabled step |
| `AclStore.Store.CreateRule` | internal/aclstore/store.go:144-158 | a role other than admin, operator and viewer, a taken key and success are told apart; the permission map gains exactly that key, or nothing changes |
| `AclStore.Store.UpdateRule` | internal/aclstore/store.go:206-224 | the row's old key loses its permission and the new key gets the new one; a role other than the three, an unknown id and collisions change nothing |
| `AclStore.Store.DeleteRule` | internal/aclstore/store.go:228-239 | exactly the key of that row loses its permission |
| `AclStore.Store.Seed` | internal/aclstore/store.go:111-136 | fills an empty table with exactly the given rules or leaves it as it was |
| `AclStore.Store.CanWrite` | internal/aclstore/store.go:244-256 | true exactly for a row of this (role, plc, tag) that allows |
| `AclStore.Store.GetRule` | internal/aclstore/store.go:173-188 | finds a row by id, and it is the row its key's permission comes from |
| `AclStore.InsertMeans` | internal/aclstore/store.go:89-90 | INSERT conflicts exactly on a taken key and otherwise adds one permission |
| `AclStore.SetMeans` | internal/aclstore/store.go:210-213 | UPDATE by id conflicts exactly on a key of another row and otherwise moves one permission |
| `AclHistory.PermissionHasProvenance` | internal/aclstore/store.go:144-256 | a key is allowed if and only if some edit granted exactly it and no later edit revoked it |
| `ApiWrite.FindTagFinds` | internal/server/api_write.go:29-33 | the search finds a tag of the name whenever there is one |
| `ApiWrite.Server.Search` | internal/server/api_write.go:29-33 | the loop returns the first tag of the name |
| `ApiWrite.Server.ReadMeta` | internal/server/api_write.go:24-35 | the switches of the configured tag, or nothing for an unknown tag or a failed lookup |
| `ApiWrite.Server.WriteTag` | internal/plc/manager.go:475-483 | the driver of the registered worker is called once, none for an unknown PLC |
| `ApiWrite.Server.HandleWriteTag` | internal/server/api_write.go:73-133 | reply, driver calls and the one audit event with its reason, from the body, the lookups and their faults, branch by branch |
| `ApiWrite.Server.Command` | internal/server/api_write.go:173-192 | driver calls and the one audit event with its reason of one DCMD metric, from the lookups and their faults |
| `ApiWriteRuns.HttpWritesAreJustified` | internal/writeguard/guard.go:107-119 | in every run an HTTP attempt calls the driver if and only if the tag is writable, its PLC has a worker, no lookup failed, and an earlier step granted exactly (role, plc, tag) with none revoking it since; it is that worker's driver, once, with the request's tag and value |
| `ApiWriteRuns.DcmdWritesAreJustified` | internal/writeguard/guard.go:131-142 | one DCMD, in any state, calls the driver if and only if the tag is writable and DCMD-enabled and its PLC has a worker; rules do not matter |
| `ApiWriteRuns.OneAuditEventPerAttempt` | internal/server/api_write.go:114-132 | one attempt, in any state, logs exactly one event if it reaches the guard, allow if and only if the driver was called and succeeded; other attempts and edits log and write nothing |
| `ApiWriteRuns.LogTellsWrites` | internal/server/api_write.go:114-192 | over every run the allow events of the audit log are, in order, with PLC, tag and value, the driver calls that succeeded, over HTTP or by DCMD; and each call went to the driver of the worker its PLC had at that step |

## Left out

- Liveness: that an enabled step is taken, or that a driver call returns, needs a fair scheduler. What is proved is that calls can always go on, and when they can come to their end.
- The writer preference of Go's RWMutex: a waiting writer does not hold back readers in the model, which allows more runs than Go does.
- Start after a Reload, or Start twice: the protocol has one Start, before any Reload, as the server calls it; a worker that was never started has a done channel nobody closes.
- Manager.Driver, Manager.CurrentSnapshot, AddTagCallback: read-only or one-line members.
- Closing a driver inside a worker's own reconnect (internal/plc/manager.go:426-430) is not counted among the closes; the counts are those of Reload and Stop.
- A callback of a tag update is one delivery step; what callbacks do with it is modelled in the edge node, the historian and the hub separately.
- Timestamps of rows, log messages, and how values are turned into text (stringify): the stored text is a parameter.
- Historian WriterBusy from outside callers, VacuumInto and backups.
- Rows of equal time in a query: SQLite leaves their order open, the model takes insertion order.
- SQLite itself: statements are functions on tables with their constraints, a transaction commits or changes nothing, and names are ordered by character codes.
- The ALTER TABLE migration of older databases.
- HTTP decoding, validation of a PLC body, authentication, cookies and pagination: a request body is either usable or not.
- A server built without a manager, an audit log or a store: the nil branches are not modelled; the server command always builds all three.
- Overlapping PLC requests: each handler is one step; the manager's own Reload is interleaved in the manager protocol.
- ApiWriteRuns.HttpWritesAreJustified: attempts and edits are whole steps, so an edit between the guard's lookups and the driver call is not modelled.
- ApiWrite.Server.HandleWriteTag: values are the twelve scalars; JSON arrays, objects and null are not modelled, and the text of an audit event is kept as its fields.
- Edge node: subscriptions, topics and NCMD/DCMD decoding; a rebirth command is one more birth. An encoding failure of a message is a failed publish, except that the sequence number is used either way. Start and Stop are called once and in this order.
- Edge node: the retry loop of the reconnect path is one step that succeeds or gives up.
- EdgeNodeTheorems.DataFollowsChannel: a DDATA that was published or tried counts as published.
- Codec: timestamps of metrics, protobuf framing, and BuildDBIRTH, which is only ever called without values and so has no metrics.
- Retry: jitter is a real factor, so the truncation to whole nanoseconds is not modelled; the check of MaxAttempts before a call never fires and is not written out.
- EnvLookup: the rest of Load (YAML, defaults, the fallback for unknown names), the file watcher, applyPLCDefaults. Upper-casing is that of ASCII.
- Tag hub: the WebSocket handshake, pings and message framing; a subscriber's own lock is held for one step only.
- User management, diagnostics, exit codes, data directory, the web frontend and the OPC UA server: no state machine to reason about, or foreign code.
