# Verification of the Mini-Lambda core

A Dafny model of the four stateful components of Mini-Lambda-System, with proofs over all of their runs:

- **The asynchronous invocation engine** (`internal/service/invocation_service.go` with the in-memory invocation
  repository). Synchronous calls, asynchronous calls, background workers, dead-letter replays and a closer share a
  counting semaphore, a wait group, a closed flag and a map of records.
- **The warm pool** (`internal/runner/warm_pool.go`): workers leased to calls, given back, reaped and flushed.
- **The stream demultiplexer** (`internal/runner/stream.go`).
- **The two repositories**: heap isolation of the in-memory one, the commit protocol of the file.

## How the engine is modelled

`Engine` is a step machine. A goroutine is an entry of `procs`, a step is what one goroutine does between two points at
which another may run: one repository operation under its lock, one semaphore or wait-group operation, one runner call.
A read of a record and the write that follows it are separate steps, so every interleaving of them is a run of the
machine. What the code cannot decide is the step's `Choice`: the answer of the function repository, the outcome of the
runner, the clock, a cancelled context. `Exec` runs a schedule of steps, `Init` is the state of a new service.

`Service` is the same code in the form of its source: a class whose methods run from top to bottom and let the other
goroutines in, by any schedule of theirs, between any two of their own steps. Each of these methods is proved to be a
`Path` of the step machine, and to answer as its contract says, whatever the others do; where all callers are `careful`,
that is, keep the two assumptions below, the contracts promise more.

Two assumptions about callers appear in the theorems, always by name:

- `FreshID`: a record is created under an id that is not in use. The service generates a UUID when the caller names no
  id, and `Create` overwrites.
- `LoneReplay`: a replay reads its record only while no other replay of that record is between its read and its write.

A run in which both hold is a `DisciplinedRun`; a `FreshRun` needs the first only, and names what the function
repository has `filed` under a key; plain `Exec` needs nothing.
`EngineOwnership.OwnershipKeptExactly` says which steps break ownership, and `EngineRaces.TwoWorkersOccur` is a run
from a new service, without the second assumption, that ends with two workers at work on one record.

## What is false of the code

- **Backoff.** The repository's README promises `1 << attempt` times 50 ms, without a cap. The code sets out to cap that
  at two seconds, and the 64-bit product wraps. So the delay is the documented one exactly for attempts 0 to 5
  (`Backoff.DelayAsDocumented`), and the intended, capped one exactly when at most 56 doublings have been made and the
  bit of 390625 that lands in the sign position is clear (`Backoff.DelayKeepsIntent`). Attempts 0 to 37 are always as
  intended, attempt 38 is the first that wraps, to a negative delay and so to no pause at all; from attempt 57 on the
  delay is 0. The total of a dead-lettered run is the intended one exactly when at most 38 retries are granted.
- **Timeouts.** A function's own timeout is multiplied into 64-bit nanoseconds and nothing checks it when the function
  is registered. Above 9223372036 seconds the product wraps, and a call that names no timeout runs under the maximum, as
  it should, only if the wrapped value happens to clamp to it; and a negative setting, which a call ignores, can wrap to a
  positive one in a replay. The exact conditions are in `Backoff.TimeoutPrecedence` and `EngineFaith.ReplayTimeoutAgrees`,
  inputs at which they fail in `EngineFaith.OversizedTimeouts`.
- **Single ownership.** It fails for two replays of one dead letter that both read it before either writes, and for an
  id used again while its record is pending or running. It is kept exactly by the steps that overwrite no active
  record.
- **Close.** A call admitted before the flag was set can start a worker after Close has returned, since the closed
  check is not held until the spawn; `EngineLate.CloseReturnsTooEarly` is a run in which it does. A worker can come
  after Close exactly when some admitted call still has one to spawn (`EngineLate.LateWorkersExactly`). When no call is
  in flight as the flag is set, Close keeps its promise, and must return, in all runs of any callers
  (`EngineDrain.CloseGuarantee`, `EngineDrain.QuietCloseMustReturn`).
- Small print that the record theorems respect: a dead letter has a retry count of MaxRetries + 1, a completed record
  keeps the error of its last failure, FAILED is never written to a record, and a replay loses the content type and
  the caller's timeout.

## Files

| file | contents |
|---|---|
| `Domain.dfy`, `Backoff.dfy` | records, configuration; delays and timeouts in wrapping 64-bit arithmetic |
| `Engine.dfy`, `EngineCounting.dfy` | the step machine; how a step changes what is counted |
| `EngineBase.dfy`, `EngineLoop.dfy`, `EngineTending.dfy`, `EngineFaith.dfy` | invariants of all runs, and of runs with fresh ids |
| `EngineOwnership.dfy`, `EngineOrder.dfy`, `EngineAccounts.dfy` | one owner per record, snapshots and record shapes, metrics |
| `EngineTheorems.dfy`, `EngineRefinement.dfy`, `EngineDrain.dfy`, `EngineRaces.dfy`, `EngineLate.dfy` | what follows over whole runs |
| `Service.dfy` | the service as a class |
| `WarmPool.dfy`, `WarmPoolTiming.dfy`, `WarmPoolRuns.dfy` | the pool as a class over worker objects; the pool over time; the one as a run of the other |
| `Demux.dfy`, `MemoryRepo.dfy`, `FileRepo.dfy` | the other three components |

Run `dafny verify dfyconfig.toml` in this directory.

## Model

| member | source | states |
|---|---|---|
| `EngineTheorems.InterferenceFreedom` | internal/service/invocation_service.go:151-205 | in every state of a disciplined run, whoever stands between its GetByID and its Update, worker or replay, holds a snapshot equal to the stored record |
| `EngineRefinement.EngineRefinesAtomicMachine` | internal/service/invocation_service.go:143-269 | every disciplined run of the fine-grained engine is, with its snapshots forgotten, a run of a machine in which each read-modify-write is one step on the stored record |
| `EngineRefinement.StepRefines` | internal/service/invocation_service.go:235-253 | one step of the engine is either invisible or exactly one step of the atomic machine |
| `EngineTheorems.UniqueOwner` | internal/service/invocation_service.go:133-206 | a pending or running record has exactly one spawning call or worker before its final write, a completed record or dead letter has none, and there are no others |
| `EngineTending.NothingIsLost` | internal/service/invocation_service.go:133-206 | in every run of any callers a record with work to come has at least one owner, and no record is ever FAILED |
| `EngineTending.StepStaysTended` | internal/service/invocation_service.go:143-269 | every step of any caller keeps that: an owner gives a record up only by finishing it |
| `EngineOwnership.OwnershipKeptExactly` | internal/service/invocation_service.go:235-253 | a step keeps unique ownership if and only if it does not make a record pending over one still pending or running |
| `EngineOwnership.OwnersAfterStep` | internal/service/invocation_service.go:122-138 | the number of owners of every id after any step, including the one too many after an overwrite |
| `EngineRaces.RacingReplaysMakeTwoOwners` | internal/service/invocation_service.go:235-253 | from every open state with a dead letter, two interleaved replays give its record two owners |
| `EngineRaces.ReusedIdMakesTwoOwners` | internal/repository/memory_invocation_repo.go:27-33 | from every open state, a call that reuses the id of an active record gives it two owners |
| `EngineRaces.RacingReplaysMakeTwoWorkers` | internal/service/invocation_service.go:235-266 | and both of them start: two different workers are at work on the record |
| `EngineRaces.TwoWorkersOccur` | internal/service/invocation_service.go:143-269 | that happens in a run that starts from a new service, for every retry setting and every capacity of at least one |
| `EngineOrder.StepStaysOrderly` | internal/service/invocation_service.go:143-269 | every disciplined step keeps the whole invariant: counters, ownership, snapshots, shapes, and the agreement of finished records with the log |
| `EngineTheorems.RecordsTellTheirRuns` | internal/service/invocation_service.go:166-205 | the shape of a record by status (result iff completed, completion time iff finished, retry counts, no FAILED), that a dead letter's retry count is MaxRetries + 1, and that a finished record's retry count and error are its last run's failed calls and last failure, with one more call on success |
| `EngineTheorems.RecordsMoveAlongLifecycle` | internal/service/invocation_service.go:151-205 | a step changes a record only along its lifecycle and from its current value, so no write is lost |
| `EngineTheorems.MetricsBalance` | internal/service/invocation_service.go:85-92 | dead letters counted = dead letters stored + replays accepted + workers between count and write; the same balance for completions; failures counted = synchronous failures answered |
| `EngineAccounts.StepStaysAccounted` | internal/service/invocation_service.go:193-205 | every disciplined step keeps the balance |
| `EngineFaith.RunnerGetsOriginal` | internal/service/invocation_service.go:249-266 | with fresh ids, racing replays included: no record loses its fixed part, and every runner call for an id, first run or replay, gets its payload, trace id and caller within the maximum timeout, a first run with the function it was created for and a replay with one filed under its function id; the content type is missing exactly on replays |
| `EngineFaith.RunKeepsCores` | internal/service/invocation_service.go:122-131 | over a whole run with fresh ids every record keeps id, function, payload, trace id, caller, MaxRetries and creation time, and every snapshot agrees with the store on them |
| `Backoff.TimeoutPrecedence` | internal/service/invocation_service.go:109-112 | a call runs under the caller's timeout, else the default if the function has none, capped by the maximum; under the function's own, capped, if and only if its nanoseconds fit 64 bits, or wrap to at least the maximum, or wrap to nothing positive while default and maximum are the same |
| `EngineFaith.ReplayTimeoutAgrees` | internal/service/invocation_service.go:257-257 | the job a replay queues runs under what the job of a call without a timeout would if and only if the function's setting is positive, or does not wrap to something positive, or that clamps to the default |
| `EngineFaith.OversizedTimeouts` | internal/handler/dto.go:18 | jobs whose function's own timeout is lost, is right by luck, and differs between call and replay, under the default configuration |
| `EngineBase.ConcurrencyBound` | internal/service/invocation_service.go:76-83 | in every reachable state of any callers: tokens in the semaphore = synchronous calls between acquire and release and workers between theirs, never above capacity; wait-group counter = live workers and announced spawns |
| `EngineBase.RefusedOnlyWhenFull` | internal/service/invocation_service.go:81-82 | a call is turned away for capacity only in a state where every token is held |
| `EngineBase.StepKeepsBase` | internal/service/invocation_service.go:143-147 | every step of any caller keeps the counters exact and every goroutine's record present |
| `EngineDrain.StepUsesUp` | internal/service/invocation_service.go:143-185 | a measure of remaining steps goes down with every step and only arrivals raise it; once closed, the work under way never rises and goes down with every step of it |
| `EngineDrain.RunsAreBounded` | internal/service/invocation_service.go:166-185 | a run has at most 16 + 4 * MaxRetries steps per arriving call |
| `EngineDrain.ClosedServiceDrains` | internal/service/invocation_service.go:272-279 | after the flag is set, the work under way bounds all working steps that will ever be taken, however many calls still arrive |
| `EngineDrain.SomeoneCanMove` | internal/config/config.go:59-61 | no deadlock: with a capacity of at least one, some goroutine can move until all are done |
| `EngineDrain.CanComeToRest` | internal/service/invocation_service.go:272-279 | from every reachable state the engine can come to rest, every waiting Close included |
| `EngineDrain.LateWorkersWereAdmitted` | internal/service/invocation_service.go:272-275 | once closed no call is newly admitted, and every worker was there or comes from a call that had passed the closed check |
| `EngineLate.LateWorkersExactly` | internal/service/invocation_service.go:97-138 | with the flag set and the workers gone, a worker can still come if and only if some call that passed the closed check before has one to spawn |
| `EngineLate.CloseReturnsTooEarly` | internal/service/invocation_service.go:97-138 | a run from a new service in which Close has returned and a worker is waiting to start |
| `EngineDrain.WaitMeansNoWorker` | internal/service/invocation_service.go:277-278 | when Wait succeeds no worker is live and none is announced |
| `EngineDrain.CloseGuarantee` | internal/app/app.go:98-101 | in every run from a new service, of any callers, racing replays and reused ids included: if no call is past the closed check when a Close sets the flag, then once that Close has returned no worker and no call is under way, the semaphore and the wait group are empty, and every record is completed or a dead letter |
| `EngineDrain.QuietCloseLeavesNothingBehind` | internal/service/invocation_service.go:272-279 | the same, with no assumption about callers, from the moment the wait group is empty, and no later call changes a record any more |
| `EngineDrain.QuietRunsAreDisciplined` | internal/service/invocation_service.go:272-275 | after such a close the assumptions about callers hold by themselves |
| `EngineDrain.QuietCloseMustReturn` | internal/service/invocation_service.go:277-278 | such a Close must return, however the steps are scheduled: every run is bounded by the steps left and what later calls add, and where nothing can move any more everything is done and at rest |
| `EngineDrain.QuietCloseCanReturn` | internal/service/invocation_service.go:277-278 | a schedule of at most the steps left takes the service to rest |
| `Backoff.DelayKeepsIntent` | internal/service/invocation_service.go:179-182 | the delay in wrapping arithmetic is 50 ms doubled per attempt and capped at two seconds if and only if no bit has reached the sign position; what it is otherwise; never above two seconds |
| `Backoff.DelayAsDocumented` | README.md:32 | the delay is the documented `1 << attempt` times 50 ms, which has no cap, if and only if attempt <= 5; it starts at 50 ms, doubles to attempt 5 and is two seconds from 6 to 37 |
| `Backoff.DelayExactUpTo37` | internal/service/invocation_service.go:179-182 | attempts 0 to 37 are exact and nondecreasing, the product leaves the 64-bit range exactly from 38 on |
| `Backoff.DelayIsOneProduct` | internal/service/invocation_service.go:179-182 | the shift and the two wrapping multiplications are one wrapping product |
| `Backoff.TotalSleepClosedForm` | internal/service/invocation_service.go:166-184 | the total sleep for m retries is 50(2^m - 1) ms up to 6 and 3150 + 2000(m - 6) ms above, if and only if m <= 38; it is never more |
| `EngineTheorems.DeadLetterSleep` | internal/service/invocation_service.go:166-184 | a dead-lettered run in the engine's log slept for that total if and only if at most 38 retries are granted |
| `EngineLoop.EveryWorkersRun` | internal/service/invocation_service.go:157-185 | in every run of any callers, racing replays and reused ids included: a worker past its final write made one successful runner call after at most MaxRetries failed ones, or MaxRetries + 1 failed ones, and slept for exactly the retries granted; no worker ever makes more calls |
| `EngineCounting.TrailCounts` | internal/service/invocation_service.go:166-171 | the calls and failures these statements speak of are the numbers of the worker's runner calls in the log and of those that failed |
| `EngineCounting.TrailKeepsLastError` | internal/service/invocation_service.go:195-195 | and the last error is the message of the last of them |
| `Service.InvocationService.constructor` | internal/service/invocation_service.go:31-46 | a new service is the initial state of the step machine, and everything the invariants say holds of it |
| `Service.InvocationService.Arrive` | internal/service/invocation_service.go:49-53 | a call can come in at any time, as one step, on a goroutine of its own |
| `Service.InvocationService.InvokeSync` | internal/service/invocation_service.go:49-93 | a path of the step machine, whatever the others do; each answer follows from flag, lookup, semaphore, context and runner, a refusal for capacity from a state on that path in which every token is held; the runner is called exactly when an answer of its own comes back, with the function found, the payload, the content type or its default, and the caller's timeout, else the function's, else the default, capped by the maximum |
| `Service.InvocationService.TrySlot` | internal/service/invocation_service.go:76-83 | the non-blocking select: a slot only below capacity, a refusal only when all tokens are held and the context is live |
| `Service.InvocationService.InvokeAsync` | internal/service/invocation_service.go:96-141 | under any id: answers with the pending record as specified, a record stored under its id, and a worker queued with that id, the function found, payload, trace id, caller, the content type or its default, and the caller's timeout, else the function's, else the default, capped by the maximum; with careful callers it is still that record on return |
| `Service.InvocationService.RunAsyncWorker` | internal/service/invocation_service.go:143-206 | under all interference, a worker that finishes has left, in a state of its path, the record its runner's outcomes call for: all attempts before the last failed; completed with the first success's result within MaxRetries retries, or a dead letter with MaxRetries + 1 failures and the last error; with careful callers also the retry count, error, absence of a result and unchanged fixed part |
| `Service.InvocationService.Attempts` | internal/service/invocation_service.go:157-185 | the retry loop stops at the first success, or one past the last attempt with the last error |
| `Service.InvocationService.Settle` | internal/service/invocation_service.go:187-205 | the final read, metric and write conclude the run's record with the loop's outcome |
| `Service.InvocationService.RetryDeadLetter` | internal/service/invocation_service.go:227-269 | whatever other replays do: each answer follows from the state its path goes through when it reads: not found, pending, running or completed, nothing filed under its function id; when it accepts, the record it read was a dead letter, is answered pending and clean and otherwise as read, and a worker is queued with its payload and identities, the function filed under its function id, no content type, and that function's timeout, else the default, capped by the maximum; with careful callers it is what is stored, with its fixed part unchanged |
| `Service.InvocationService.Close` | internal/service/invocation_service.go:272-279 | the flag is set and stays set, and when it returns no worker is live |
| `Service.FirstSuccess` | internal/service/invocation_service.go:166-171 | the first attempt the runner answers, or MaxRetries + 1 when every attempt fails |
| `Service.PathAppend` | internal/service/invocation_service.go:143-206 | stretches of a method and of its interference join into one run, disciplined and keeping every fixed part where the callers are careful |
| `WarmPool.WarmPoolManager.constructor` | internal/runner/warm_pool.go:35-54 | an empty open pool with the defaults for settings that are not positive |
| `WarmPool.WarmPoolManager.Begin` | internal/runner/warm_pool.go:58-83 | the last worker of the function's list, which loses it and counts a warm start, or a new one, which counts a cold start, goes to the call; nothing when closed; ownership invariant kept |
| `WarmPool.WarmPoolManager.Stamp` | internal/runner/warm_pool.go:91-92 | the unlocked write of lastUsed touches no pooled worker and no other call's worker |
| `WarmPool.WarmPoolManager.ReleaseWorker` | internal/runner/warm_pool.go:98-109 | back at the end of the list of the call's own function, which is what the worker is tagged with, if the pool is open and has room, otherwise gone |
| `WarmPool.WarmPoolManager.ReapIdleWorkers` | internal/runner/warm_pool.go:144-162 | every list keeps exactly its workers idle for less than the timeout, in the order of their stamps, no empty list is left, and what left a list is gone for good |
| `WarmPool.WarmPoolManager.BeginClose` | internal/runner/warm_pool.go:165-173 | first close only: everything in the pool is let go and the pool is empty |
| `WarmPool.WarmPoolManager.FinishClose` | internal/runner/warm_pool.go:175-175 | the stop channel is closed exactly once, however Close calls interleave |
| `WarmPool.WarmPoolManager.TotalWarmCount` | internal/runner/warm_pool.go:119-128 | the sum of the list lengths is the number of distinct pooled workers |
| `WarmPool.WarmPoolManager.Run` | internal/runner/warm_pool.go:57-177 | any interleaving of calls, failures, stamps, returns, reaps and closes goes through the states those sections lead to, one after another, keeps the invariant, and leaves a closed pool empty |
| `WarmPool.TakenSound` | internal/runner/warm_pool.go:68-73 | a warm start keeps each worker in exactly one place, each list bounded and tagged, and the counts |
| `WarmPool.GivenBackSound` | internal/runner/warm_pool.go:106-108 | so does giving a worker back below the bound |
| `WarmPool.LetGoSound` | internal/runner/warm_pool.go:149-161 | so does taking any workers out of the lists for good |
| `WarmPool.ColdStartsConserved` | internal/runner/warm_pool.go:75-82 | ColdStarts = pooled + leased + retired workers, and ColdStarts + WarmStarts = admitted calls |
| `WarmPool.LeasesExclusive` | internal/runner/warm_pool.go:68-73 | a leased worker is tagged with its call's function, no two calls share a worker, and a leased worker is neither pooled nor gone |
| `WarmPool.TotalIsMembers` | internal/runner/warm_pool.go:119-128 | the list lengths add up to the number of distinct workers in the lists |
| `WarmPoolRuns.Run` | internal/runner/warm_pool.go:57-162 | every run of a new manager against a clock is the run of the timed pool that its events call for; at any time each idle worker's own lastUsed is less than 1.5 timeouts ago, and each list is within its bound and sorted by lastUsed |
| `WarmPoolRuns.TakesFreshest` | internal/runner/warm_pool.go:68-71 | after any run, a warm start takes the worker of its function with the largest lastUsed, and leaves the others |
| `WarmPoolRuns.Begin` | internal/runner/warm_pool.go:58-83 | the first section of Invoke is the timed pool's take, and nothing at all for a cold start or a closed pool |
| `WarmPoolRuns.Return` | internal/runner/warm_pool.go:92-109 | stamping and giving back is the timed pool's release, and nothing at all for a closed pool or a full list |
| `WarmPoolTiming.IdleBound` | internal/runner/warm_pool.go:130-162 | in any run from a new pool: idle for less than 1.5 timeouts, bounded, sorted; once closed, empty for ever |
| `WarmPoolTiming.BoundIsAttained` | internal/runner/warm_pool.go:131-139 | the bound cannot be improved: a run in which a pooled worker is idle for one nanosecond less than 1.5 timeouts |
| `WarmPoolTiming.FreshAfterTick` | internal/runner/warm_pool.go:130-162 | in any run from a new pool, right after a reap every pooled worker has been idle for less than the timeout, and the next tick is due half a timeout later, as the first is after the start |
| `WarmPoolTiming.ReapKeepsSuffix` | internal/runner/warm_pool.go:149-155 | on a sorted list a reap keeps exactly a suffix |
| `WarmPoolTiming.UntouchedPoolEmpties` | internal/runner/warm_pool.go:130-162 | in any run from a new pool, once nobody has touched it for 1.5 timeouts it is empty |
| `Demux.DemuxStream` | internal/runner/stream.go:9-43 | the loop appends to the two writers exactly what the stream means, or all payload to one writer serving for both; a reader that ends cleanly is no error, a broken one is reported, and a premature end is reported exactly inside a payload, so not after whole frames or within a header |
| `Demux.FrameByFrame` | internal/runner/stream.go:21-41 | what a stream means, from its bytes: byte 0 equal to 2 is stderr and any other stdout, bytes 4 to 7 are the length, the first the most significant, and the payload follows, cut short if the stream is |
| `Demux.LengthBytes` | internal/runner/stream.go:22-22 | the value of a length byte by byte, both ways |
| `Demux.TruncationGivesPrefixes` | internal/runner/stream.go:12-41 | cutting the input anywhere yields prefixes of both outputs |
| `Demux.BytesAccountedFor` | internal/runner/stream.go:10-41 | output bytes, eight per complete header and a partial header of fewer than eight add up to the input |
| `Demux.RoundTrip` | internal/runner/stream_test.go:14-20 | demultiplexing printed frames gives the type-2 payloads on stderr and all others on stdout, in order and nothing else |
| `Demux.PrintedFramesComeFirst` | internal/runner/stream.go:12-42 | the same in front of any further input, which then means what it means alone |
| `Demux.InterleavingDoesNotMatter` | internal/runner/stream.go:24-32 | reordering frames without changing the order within either stream changes neither output |
| `Demux.PutBigEndian` | internal/runner/stream_test.go:15-18 | the four bytes of a length, most significant first, which read back as it |
| `MemoryRepo.Clone` | internal/domain/invocation.go:49-60 | a copy with the same fields, null where the original is, and otherwise cells of its own that hold the same |
| `MemoryRepo.ValueTells` | internal/domain/invocation.go:33-46 | the value the other contracts speak of determines every field and the content of every cell |
| `MemoryRepo.MemoryInvocationRepository.Create` | internal/repository/memory_invocation_repo.go:27-33 | the plain map of values gains or replaces exactly this record |
| `MemoryRepo.MemoryInvocationRepository.GetByID` | internal/repository/memory_invocation_repo.go:36-46 | the map's value in cells of its own, or not found |
| `MemoryRepo.MemoryInvocationRepository.Update` | internal/repository/memory_invocation_repo.go:49-59 | replaces the record if the map has it, and otherwise changes nothing |
| `MemoryRepo.MemoryInvocationRepository.List` | internal/repository/memory_invocation_repo.go:62-72 | every record is listed, each once, as copies |
| `MemoryRepo.MemoryInvocationRepository.ListDeadLetter` | internal/repository/memory_invocation_repo.go:75-86 | everything listed is a dead letter, every dead letter is listed, no id twice, as copies |
| `MemoryRepo.ListingIsComplete` | internal/repository/memory_invocation_repo.go:79-84 | a listing has each wanted record at exactly one place |
| `MemoryRepo.Client.Run` | internal/repository/memory_invocation_repo.go:26-86 | whatever a client does with the structs and cells it passed in or got back, each command has its turn at the interface, and the repository answers every read, update and listing as a map of values does |
| `MemoryRepo.ReadsReturnTheLastWrite` | internal/repository/memory_invocation_repo.go:36-59 | a read of that map returns the last value created or updated under the id |
| `FileRepo.FileFunctionRepository.Open` | internal/repository/file_function_repo.go:23-59 | a missing or empty file is an empty map, one that does not parse is an error, and a whole map is that map |
| `FileRepo.FileFunctionRepository.Persist` | internal/repository/file_function_repo.go:71-106 | with a failure or a crash at any step, the file is the whole map if the rename happened and untouched if not, and the temporary file is gone after a success or a clean-up that works |
| `FileRepo.FileFunctionRepository.Save` | internal/repository/file_function_repo.go:62-69 | memory always takes the function; success means disk equals memory |
| `FileRepo.FileFunctionRepository.GetByNameOrID` | internal/repository/file_function_repo.go:121-136 | the id wins, otherwise some function of that name, and none exactly if there is neither |
| `FileRepo.Live` | internal/repository/file_function_repo.go:41-106 | over any history of saves, failures, crashes and restarts, what a restart would load is exactly the committed saves, and memory is those plus the failed ones since |
| `FileRepo.JournalSteps` | internal/repository/file_function_repo.go:61-106 | which saves count as committed: a rename commits the save and all that failed before it, a failure leaves it in memory only, a crash before the rename and a restart lose what is only in memory |
| `FileRepo.LastSaveWins` | internal/repository/file_function_repo.go:66-66 | in the map such saves add up to, each id has the function last saved under it, or what was there before |
| `FileRepo.DiskIsMemoryAtLastCommit` | internal/repository/file_function_repo.go:61-106 | the committed saves are memory as of the last save whose rename happened |
| `FileRepo.FailedSaveThenSave` | internal/repository/file_function_repo.go:61-106 | after a save that fails at any phase the file is as before and memory is ahead of it; the next successful save leaves the file equal to memory, both functions in it and no temporary file behind |
| `FileRepo.FunctionsAreKeyedById` | internal/repository/file_function_repo.go:61-69 | every function once saved is found under its own id, one only loaded is what the file has under that key; all are filed right if and only if each misfiled one of the file has been saved over |

## Left out

- Docker and Kubernetes runners, HTTP handlers, middleware, TLS, API keys, manifests and the SDK client: calls into other systems or plumbing.
- The runner: an oracle that returns a result or an error; a runner that panics or never returns is not modelled, nor are the deadline and the environment passed to it.
- Environment parsing: its guarantees are the predicate `Normalised`; a capacity is a natural number.
- Prometheus: metrics are three counters. Durations in them are left out.
- JSON: a file's content is nothing, something that does not parse, or a whole map.
- Power loss: the directory is not synced after the rename, so only crashes of the process are covered.
- UUID generation: a new id is whatever the caller of the step names, and `FreshID` says it is unused.
- The function repository's List, which returns the values of the map that `FileRepo.Live` already determines.
- Validation and redaction of functions and events, and the environment handed to a container: no state and nothing the modelled components depend on.
- Service.InvocationService.RunAsyncWorker: waits for a slot only as long as its `patience`, an arbitrary number, and otherwise reports that it has not started; that it need not wait for ever is `EngineDrain`'s business.
- Service.InvocationService.Close: waits only as long as its `patience` in the same way.
- Wait-group misuse: Go may panic when Add races with Wait at zero, which a late spawn can cause; the model lets the Add succeed.
- Demux.DemuxStream: the writers never fail.
- WarmPool.WarmPoolManager.Begin: the worker's id, which always equals the function's, and its creation time, which nothing reads, are left out.
- WarmPool.WarmPoolManager.ReapIdleWorkers: the order in which functions are visited is arbitrary, as in the source, and does not show in the result.
- WarmPoolRuns.Run: stamping and releasing a worker is one step, ticks are handled when due and the idle timeout is at least 2 ns; at 1 ns the ticker's period would be zero and its constructor panics.
- MemoryRepo.MemoryInvocationRepository.GetByID: the time to live the repository is created with is left out, since nothing reads it.
