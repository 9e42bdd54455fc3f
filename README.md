# Worker manager and drain primitive of a job-scheduling server

This project models the control-plane core of one scheduling server in a
cluster that runs application jobs, and proves properties of the model in
Dafny:

- **Ownership election** (`lookup`, module `Manager`). It decides which
  server holds the right to schedule an app. A server that answers its
  health-check ping keeps the app. Otherwise the caller contends by saving
  an advisory lock record, fetches the record again, and takes the app over
  ("usurpation") if the owner is still silent. The loop runs `RETRY_TIMES`
  (3) iterations and then fails with `LookupFail` naming this server.
- **Worker registry** (`connect`, `validate_worker`,
  `clean_useless_worker`). A map from worker address to worker handle.
- **Scheduling tick** (`sched`, `manual_sched`). It queries the apps this
  server owns and prunes the registry to them. It then calls the cron,
  workflow and frequent dispatchers in that order; a failure stops the rest.
- **Error taxonomy** (`WorkerError`, module `Errors`). The four variants and
  the text each displays.
- **Drain** (module `Drain`), the graceful-shutdown primitive:
  - A `Signal` broadcasts a retained "drain started" state.
  - Each `Watch` (or the `ReleaseShutdown` derived from it) holds the drain.
  - `drain` returns only after every holder has been dropped.

The storage backend, the ping, the clock and the dispatchers are outside
the model. Their answers are parameters:

- A `Round` record per election iteration: whether each fetch and save
  succeeds, each ping's reply code, and the clock.
- An `OwnedApps` answer to the owned-apps query.
- A `fails` oracle per dispatcher phase.

The election has two forms:

- A pure specification, `LookupSpec`/`LookupRounds`. It gives the result,
  the store afterwards and the trace of external actions (fetch, ping, lock
  save, sleep, app save).
- The method `WorkerManager.Lookup`, a `for` loop over `ElectionRound`,
  proved equal to it.

The drain has two forms as well:

- A transition system over `DrainState`: `Next` per event and `Run` per
  trace, with lemmas over all traces.
- Classes `Channel`, `Signal`, `Watch` and `ReleaseShutdown`. Each method
  performs exactly the `Next` event(s) its source operation performs. A
  ghost set of live sender handles ties the holder count to the live handles.

In four places the code does something other than the intended behaviour of
the system. The model follows the code:

- After a usurpation, `lookup` does not return; the loop goes on to the next
  iteration.
- A failed lock save adds the 500 ms back-off and then falls through to the
  re-fetch and the usurpation of the same iteration. It does not skip to the
  next iteration.
- `manual_sched` returns `Ok(())` whatever the tick's result; the intent is to return the tick's own result.
- Only a `None` answer to the owned-apps query ends the tick without dispatching, although the intent is that no owned app means no dispatch. An empty list goes on: the registry is pruned to no worker at all, and cron, workflow and frequent are each called with no id (`TickSpec`, `TickPhasesInOrder`).

## Model

| member | source | states |
|---|---|---|
| Errors.Message | components/worker/src/error.rs:9-22 | the text each variant displays: the storage message, and the name or id, server address or cause placed between its variant's fixed words |
| Errors.Source | components/worker/src/error.rs:21-22 | the scheduler failure's cause is the `SchedError` it wraps, and the displayed text is the fixed prefix followed by that cause's text |
| Errors.MessageEmbedsPayload | components/worker/src/error.rs:12-22 | the app name or id, the server address and the cause's text appear verbatim right after their variant's fixed prefix |
| Errors.MessageHead | components/worker/src/error.rs:9-22 | every displayed text is longer than 15 characters, and its first and sixteenth characters tell the four variants apart |
| Errors.MessageDeterminesError | components/worker/src/error.rs:8-23 | two errors that display the same text are the same error (variant and payload) |
| Errors.DigitChar | components/worker/src/worker_manager.rs:152-154 | a digit value below 10 becomes the character that is a digit and has that value |
| Errors.DecimalString | components/worker/src/worker_manager.rs:152-154 | an app id renders as a non-empty string of decimal digits with no leading zero |
| Errors.DecimalRoundTrip | components/worker/src/worker_manager.rs:152-154 | reading the rendered app id back gives the id |
| Errors.DecimalStringInjective | components/worker/src/worker_manager.rs:163 | distinct app ids render as distinct strings, so distinct apps lock distinct resources |
| Manager.IsActive | components/worker/src/worker_manager.rs:192-204 | a server listed in the dead-server cache is inactive without a ping; any other server is active exactly when its ping replies 200 |
| Manager.ElectionLock | components/worker/src/worker_manager.rs:163 | the election lock names the app id as its resource, the caller as its owner, and a 30000 ms lifetime |
| Manager.SaveLockRecord | components/worker/src/worker_manager.rs:206-212 | a successful save stores the lock under its resource name and changes no other entry; a failed save changes nothing |
| Manager.Usurp | components/worker/src/worker_manager.rs:177-180 | the usurped record names the caller as owner and the current clock as its modification time; its id and name are unchanged |
| Manager.Take | components/worker/src/worker_manager.rs:178-179 | taking an option yields its content and leaves `None` behind |
| Manager.UsurpAsWritten | components/worker/src/worker_manager.rs:178-180 | the usurpation statements as written: two `take` calls, then the save of what is left |
| Manager.UsurpAsWrittenNeverSaves | components/worker/src/worker_manager.rs:178-180 | as written, the double `take` always ends in a panic before the record is saved |
| Manager.RoundStep | components/worker/src/worker_manager.rs:146-186 | one iteration of the election loop: fetch, ping, lock, back-off, re-fetch, re-ping and usurpation, with the value it returns, if any, the store after it and its actions |
| Manager.LookupRounds | components/worker/src/worker_manager.rs:145-189 | the election loop over the remaining iterations, ending in `LookupFail` naming this server |
| Manager.LookupSpec | components/worker/src/worker_manager.rs:139-190 | `lookup`: the fast path, then `RETRY_TIMES` iterations of the loop |
| Manager.LookupFastPath | components/worker/src/worker_manager.rs:141-143 | a lookup on behalf of this server itself returns it with no store access, no ping and no change |
| Manager.LookupActiveOwner | components/worker/src/worker_manager.rs:146-160 | an owner that answers its first ping is returned unchanged after one fetch and one ping, with no lock attempt and no save |
| Manager.LookupRecheckAfterLock | components/worker/src/worker_manager.rs:162-176 | a silent owner leads to a lock attempt (with the back-off only if the lock failed) and a second fetch; if the owner now answers, it is returned without usurpation |
| Manager.LockFailureDoesNotPreventUsurpation | components/worker/src/worker_manager.rs:162-180 | when the lock save fails and the owner stays silent, the caller still overwrites the owner, and a later iteration returns the caller |
| Manager.RoundStepEffects | components/worker/src/worker_manager.rs:145-186 | one iteration keeps every other record and all record keys, changes the contested record only by usurpation, and returns only the owner it read, a storage error or `WorkerNotRegistered` |
| Manager.RoundStepLockAttempts | components/worker/src/worker_manager.rs:162-166 | one iteration saves the lock at most once, and exactly once when the loop continues |
| Manager.LookupWritesOnlyUsurpation | components/worker/src/worker_manager.rs:145-186 | the whole election changes no record other than the contested one, and that one only by making the caller its owner |
| Manager.LookupReturnsRecordedOwner | components/worker/src/worker_manager.rs:157-180 | a server that the election loop returns is the owner the store records when the loop ends, and it is the owner recorded at the start or the caller |
| Manager.LookupNotRegisteredIffAbsent | components/worker/src/worker_manager.rs:151-155 | `WorkerNotRegistered` with the decimal app id is returned exactly when the first fetch succeeds and finds no record, and it follows a single fetch |
| Manager.LookupBounded | components/worker/src/worker_manager.rs:145-189 | at most one lock attempt per iteration; `LookupFail` names this server and comes only after every iteration attempted the lock |
| Manager.LookupAllPingsFail | components/worker/src/worker_manager.rs:145-189 | when the store always answers and no ping succeeds, lookup fails with `LookupFail` after one lock attempt per iteration, yet the store names the caller as owner if any usurpation was saved |
| Manager.Retain | components/worker/src/worker_manager.rs:256-261 | the pruned registry holds exactly the workers whose key is an owned app id, unchanged |
| Manager.CleanAsWritten | components/worker/src/worker_manager.rs:257-261 | `clean_useless_worker` as written: the registry is left as it was |
| Manager.CleanAsWrittenKeepsUselessWorker | components/worker/src/worker_manager.rs:257-261 | as written, a worker with no owned app survives the clean-up that should remove it |
| Manager.TickSpec | components/worker/src/worker_manager.rs:222-253 | one tick: the query, the pruning and the three phases in order, each failure ending the tick |
| Manager.TickPhasesInOrder | components/worker/src/worker_manager.rs:222-253 | a failed query or a `None` answer calls no dispatcher and prunes nothing; a list, even an empty one, is dispatched: otherwise the registry is pruned, the phases called are a prefix of cron, workflow, frequent with the same ids, and the tick fails exactly when the last phase called failed |
| Manager.Scheduler.Schedule | components/worker/src/worker_manager.rs:238-244 | a dispatcher call is recorded; it fails with `SchedulerFailed` carrying the dispatcher's error exactly when the dispatcher fails |
| Manager.WorkerManager.constructor | components/worker/src/worker_manager.rs:84-96 | a built manager keeps the given id, store and scheduler, has an empty address and no connected worker |
| Manager.WorkerManager.Connect | components/worker/src/worker_manager.rs:116-119 | connecting stores the worker under its address, leaves every other entry unchanged, and succeeds |
| Manager.WorkerManager.ValidateWorker | components/worker/src/worker_manager.rs:122-133 | validation succeeds exactly when the fetch by name reaches the store and finds an app with that name; otherwise it reports the name as not registered |
| Manager.WorkerManager.Lock | components/worker/src/worker_manager.rs:206-212 | the lock is acquired exactly when its save succeeds, and the store changes only then |
| Manager.WorkerManager.ElectionRound | components/worker/src/worker_manager.rs:145-186 | one iteration of the loop returns, leaves the store and performs the actions that the specification of one iteration gives |
| Manager.WorkerManager.Lookup | components/worker/src/worker_manager.rs:139-190 | the loop's result, final store and trace of external actions are those of the election specification |
| Manager.WorkerManager.CleanUselessWorker | components/worker/src/worker_manager.rs:256-261 | the registry is pruned to the workers of the owned app ids |
| Manager.WorkerManager.Sched | components/worker/src/worker_manager.rs:222-253 | a tick's result, its dispatcher calls and the pruned registry are those of the tick specification |
| Manager.WorkerManager.ManualSched | components/worker/src/worker_manager.rs:217-220 | a manual tick has the effects of a tick and reports success whatever the tick's result |
| Drain.Next | components/utils/src/drain/mod.rs:41-114 | the effect on the shared state of sending the signal, dropping the signal, cloning or dropping a handle, `signaled` returning and `drain` returning, each only when it can happen |
| Drain.Run | components/utils/src/drain/mod.rs:41-114 | the shared state after a sequence of such events |
| Drain.NextKeepsInv | components/utils/src/drain/mod.rs:54-87 | every event keeps the invariant: a drain is complete exactly when it was signaled and its sender is gone, and then no holder remains |
| Drain.RunKeepsInv | components/utils/src/drain/mod.rs:54-87 | every state reachable by a trace of events satisfies the invariant |
| Drain.SignalIsRetained | components/utils/src/drain/mod.rs:54-57 | once signaled, the state stays signaled whatever happens after |
| Drain.HolderBalance | components/utils/src/drain/mod.rs:41-49 | the live holder count is the starting count plus the clones minus the drops |
| Drain.DrainedIsFinal | components/utils/src/drain/mod.rs:59-63 | a completed drain stays completed, with no holder |
| Drain.CompletesAtMostOnce | components/utils/src/drain/mod.rs:54-64 | `drain` returns at most once over any trace |
| Drain.DrainWaitsForEveryHandle | components/utils/src/drain/mod.rs:52-64 | a completed drain has seen one more handle drop than clones: the initial `Watch` and every clone were released |
| Drain.DrainScenarios | components/utils/src/drain/mod.rs:81-87 | two tasks that ignore the signal hold the drain until both release, whether one of them releases before the signal or both after it; with no handle left, the drain completes at once |
| Drain.NewChannel | components/utils/src/drain/mod.rs:15-29 | a new channel is unsignaled, its signal alive, with exactly one holder, the returned `Watch` |
| Drain.Signal.Drain | components/utils/src/drain/mod.rs:54-64 | draining sets the signal and completes at once exactly when no holder is left; otherwise it stays pending |
| Drain.Signal.Poll | components/utils/src/drain/mod.rs:59-63 | a pending drain completes exactly when no holder is left |
| Drain.Signal.Drop | components/utils/src/drain/mod.rs:35-38 | dropping an unused signal marks its sender gone, which releases every waiting `signaled` |
| Drain.Watch.Clone | components/utils/src/drain/mod.rs:40-45 | a clone is a new live holder of the same channel; the count rises by one |
| Drain.Watch.Drop | components/utils/src/drain/mod.rs:40-45 | dropping a watch removes it from the holders; the count falls by one |
| Drain.Watch.Signaled | components/utils/src/drain/mod.rs:71-79 | `signaled` finishes exactly when the drain was signaled or the signal is gone; the watch's holder then moves to a new `ReleaseShutdown`, with the count unchanged |
| Drain.Watch.IgnoreSignaled | components/utils/src/drain/mod.rs:84-87 | the watch's holder moves at once to a new `ReleaseShutdown`, with the count unchanged |
| Drain.Watch.Watch | components/utils/src/drain/mod.rs:93-105 | the result is the future's own; `on_drain` runs once if the drain branch wins and never otherwise; the holder is released at the end in both branches |
| Drain.ReleaseShutdown.Clone | components/utils/src/drain/mod.rs:47-49 | a clone is a new live holder; the count rises by one |
| Drain.ReleaseShutdown.Drop | components/utils/src/drain/mod.rs:47-49 | dropping it removes its holder; the count falls by one |
| Drain.ReleaseShutdown.ReleaseAfter | components/utils/src/drain/mod.rs:110-114 | the future's output is returned, and the holder is released after it |

## Left out

- Time and logging: the elapsed-time measurements, the overrun warning and the `info!`/`warn!` lines of `sched` and `lookup` are not modelled. The 500 ms back-off appears only as a `Sleep` action in the trace.
- The fixed-rate timer, the two-thread scheduling pool, `start` and `stop` (`Component`): the model runs one tick per call.
- The gRPC client behind `is_active` and `connect`: the ping's reply code is a parameter.
- A ping transport error is not modelled. The source panics on it (`expect`).
- A record without an app name or owner is not modelled. The source panics on it (`unwrap`). The store holds complete `AppInfo` records.
- A record that disappears between the two fetches of one iteration is not modelled. The source would panic; the model re-reads the record from the same store.
- Concurrent servers racing through the same election are not modelled. Each lookup runs alone against its store, so the race between two usurpers is outside the model.
- Manager.WorkerManager.Lookup: whether the usurping save succeeds is an oracle (`usurpSaved`). The source ignores that result, so the model does too.
- Manager.IsActive: the dead-server cache is allocated but never written, so every call passes an empty cache.
- Manager.WorkerManager.Connect: `connect` always succeeds, which is its evident intent. As written, the map insert returns the previous worker, which is absent exactly on a new connection. Applying `?` to that would cut a new connection short, and in a function returning `Result` it does not type-check.
- Errors.Source: the scheduler error's own text is a string parameter. The scheduler crate is not part of this model.
- The display format of `SchedulerFailed` also names a `job_id` that the variant does not carry. The model displays the fixed prefix followed by the cause's text.
- Manager.LookupReturnsRecordedOwner: holds for the election loop only; on the fast path, lookup returns the caller whatever the store records. That the returned server is the start owner or the caller also rests on the model's single writer: the re-fetch at the second step of an iteration sees the record the first fetch saw, because no other server writes the store.
- Manager.Retain: workers are keyed by address while the owned ids are app ids, so the intended pruning, applied to real keys, would leave no worker.
- Manager.WorkerManager.Sched: the source's `sched` returns `()`, so its `?` on the owned-apps query and on each dispatcher call cannot propagate anything, and the function does not type-check. The model gives it the evident return type `Result<()>`: the first failure ends the tick and is returned.
- Manager.SaveLockRecord: lock records are never released and never expire in the model, and a successful save overwrites any lock already held on the same resource. Whether the save succeeds is an oracle, so `locks` records the attempts that were saved; it does not enforce mutual exclusion.
- The owned-apps query's error is modelled as `WorkerStorageError`. The source attaches an empty context to it.
- App ids rendered as text, both for the lock resource and for the ids passed to the dispatchers, are their decimal form (`DecimalString`).
- The tower `Retain` wrapper in the drain module and components/stack/src/box_new_service.rs are not part of this model.
- Drain: cancelling a pending `drain` future is not modelled, nor is the waker machinery. Waiting is modelled by `Poll`, which reports whether the awaited condition holds.
- Drain.Watch.Watch: the wrapped future is reduced to its output, a function of whether `on_drain` was called first.

## Findings

| source | as written | input that shows it | evidently intended | confidence | as-written member | corrected member |
|---|---|---|---|---|---|---|
| components/worker/src/worker_manager.rs:178-180 | the first `take()` moves the record out and updates a temporary copy; the second `take()` finds `None` and `unwrap` panics, so the usurpation is never saved | any lookup whose owner fails both pings, with the store answering both fetches | update the owner and modification time of the fetched record, then save it | not executed | Manager.UsurpAsWrittenNeverSaves | Manager.Usurp |
| components/worker/src/worker_manager.rs:257-261 | `clean_useless_worker` builds a lazy filter and never consumes it, so no worker is removed | registry {"10.0.0.7:9000"} with owned ids ["1"]: the worker stays | remove every worker whose key is not an owned app id | not executed | Manager.CleanAsWrittenKeepsUselessWorker | Manager.Retain |
