# Lifecycle and storage of any-sync-bundle, in Dafny

`any-sync-bundle` runs four upstream services, and optionally an embedded MongoDB and Redis, in one
process. This project models how that process starts, stops and judges itself, and its file store,
and proves what the code relies on. `dafny verify dfyconfig.toml` checks all of it.

## How it is organised

| file | what it holds |
|---|---|
| `GoErrors.dfy` | Go error values as trees; `errors.Is`, `errors.AsType`, `errors.Join` |
| `Contexts.dfy` | the root context and its signal child; the operator test |
| `Supervisor.dfy` | the embedded-process supervisor as a transition system: any number of children, one waiter each, a starter, a stopper, the mutex |
| `SupervisorSafety.dfy` | the invariant of that system, step by step |
| `SupervisorTheorems.dfy`, `SupervisorLiveness.dfy` | what follows for every run: agreement, verdict, reaping; a rank and progress |
| `InfraSuite.dfy` | the same code as a class with its loops, run against an environment that may publish exits and expire the deadline between statements |
| `InfraRefinement.dfy`, `StopRefinement.dfy` | the class's methods as runs of the transition system |
| `AllInOne.dfy`, `AllInOneTheorems.dfy` | the whole `start-all-in-one` Action: its main goroutine composed with the supervisor |
| `Services.dfy`, `ServiceTraces.dfy` | starting, running and stopping the services and listeners; what their trace means |
| `AllInOneStartup.dfy`, `AllInOneServices.dfy` | the bridges from `Readiness` and `Services` to the whole Action |
| `Transports.dfy` | the transports behind `deferredTransport` |
| `FileStore.dfy`, `StoreGc.dfy` | the Badger-backed store; its garbage-collection goroutine |
| `Clocks.dfy`, `ReplicaSet.dfy`, `Readiness.dfy` | timed startup: retries, polling, the order of milestones |
| `ShutdownBudget.dfy` | the shutdown deadlines against the watchdog |

The supervisor's steps are atomic where others can tell: a waiter takes the mutex, stores the result
and decides about the root, closes `done` and lets go in separate steps, and each iteration of each
loop of `stop` is a step. A run is any sequence of enabled steps, so a statement over all runs is
one over all schedules. `AllInOne` moves the same supervisor state by supervisor steps only, so its
invariant carries over. In it, the readiness checks and starting and closing the services are single
calls with any result; `Readiness` and `Services` have them in full, and `AllInOneStartup` and
`AllInOneServices` prove that everything they can report is a run of the Action.

## Assumptions about the world

- `exec.Cmd.Wait` returns a cancellation only if the command's context was done; a killed child ends;
  os/exec kills a child some time after its context ended. These are guards of supervisor steps and
  the `BoundToHappen` steps; nothing else about children is assumed.
- The first cancellation of a context fixes its cause (`Contexts.Cancel`).
- `Kill` reports an already finished process only for one that has ended.
- Starting or closing an upstream app makes calls on that app's own components only.
- Badger is a map on byte strings; a batch applies its entries in order, and a failed one some of the
  first. A CID is represented by the string it prints as.
- For termination, calls into unseen code return; for the shutdown budget, each close returns by its
  context's deadline, and a killed child is reaped within a given time.

## Where the code and its descriptions differ

- `cmd/services.go:84-87` says that failures and signals are told apart by the cause. The test really
  asks whether the cause matches `context.Canceled`: a failure that wraps it and is the first to stop
  the root would pass for the operator (`OperatorTestReadsFirstEvent`). Within the program no such
  stop precedes a test: a child's exit never wraps it, and the main goroutine stops the root only
  after its last test (`ChildExitIsNeverOperatorStop`, `StartupErrorVerdict`).
- `cmd/mongo_test.go:16-18` wants a driver error after a cancellation not to become an operational
  one. One attempt does not ensure that: it can end in the status check's own error although the
  context ended during that check. `MaskedCancellation` is such an input and
  `AttemptMasksCancellation` says exactly when; the retry loop repairs it (`InitReplicaSet`).

## Model

| member | source | states |
|---|---|---|
| GoErrors.JoinMeaning | cmd/infra.go:311 | a joined error is nil exactly if every part is nil, and matches a target exactly if some part does |
| GoErrors.IsMeansSomeNode | cmd/infra.go:217 | errors.Is holds exactly if some node of the error's tree is the target, or a signal's cause for a cancellation |
| GoErrors.FindExitIsFirst | cmd/infra.go:222-225 | errors.AsType finds the first exit error of the tree in depth-first order, and none exactly if there is none |
| Contexts.FirstCauseWins | main.go:17-23 | through the process context and its signal child, commands see the first cancellation and only that one |
| Contexts.OperatorTestReadsFirstEvent | cmd/services.go:84-90 | the operator test is true exactly if the first cancellation was a signal or a failure that wraps context.Canceled, and never changes its answer |
| SupervisorSafety.StartStepKeepsInv | cmd/infra.go:165-196 | the two checks and the spawn, under the mutex, keep the invariant in every interleaving; start passes only with a live root and no stop, and a stopped root lets nothing else spawn |
| SupervisorSafety.ChildStepKeepsInv | cmd/infra.go:198-207 | each step of a child and of its waiter keeps the invariant: among others, a result published or a root stopped before stopping was set is no cancellation |
| SupervisorSafety.HandoffStepKeepsInv | cmd/infra.go:243-263 | the locked section splits the processes by whether they were published before it, and the children are cancelled only after stopping is set |
| SupervisorSafety.AwaitStepKeepsInv | cmd/infra.go:265-283 | the graceful wait ends with all processes done or the deadline expired; the early exits are collected |
| SupervisorSafety.KillStepKeepsInv | cmd/infra.go:283-304 | after the kill loop each running process is done or had a kill attempted; the survivors are exactly those attempted, in order, and each has its error, and another if its kill failed |
| SupervisorSafety.ReapStepKeepsInv | cmd/infra.go:306-311 | the final loop appends the shutdown error of each process only when it is done |
| SupervisorSafety.RunKeepsInv | cmd/infra.go:165-312 | the invariant holds along every run, for any number of children |
| SupervisorTheorems.HandoffAgreement | cmd/infra.go:198-259 | for each process: in unexpected, done closed when stop took the mutex, and its waiter called stopRoot are equivalent; running holds exactly the others; both in start order without duplicates |
| SupervisorTheorems.HandoffIsFinal | cmd/infra.go:169-174 | once stop holds its section no process is spawned and none changes sides |
| SupervisorTheorems.CauseStays | main.go:17-23 | no step changes the cause of a stopped root |
| SupervisorTheorems.NoSpawnAfterRootStop | cmd/infra.go:169-171 | once the root is stopped no run adds a process, but for a start already past its checks |
| SupervisorTheorems.ChildExitIsNeverOperatorStop | cmd/infra.go:198-207 | a root first stopped by a child's exit has that exit as cause for good, and the operator test is false from then on |
| SupervisorTheorems.EarlyExitStopsRoot | cmd/infra.go:202-204 | whenever a child's exit is published before stopping, the root is stopped |
| SupervisorTheorems.SignalledThenSettled | cmd/infra.go:261-304 | all children are cancelled before the first wait, each running process is done or had a kill attempted at the final loop, and no wait holds the mutex |
| SupervisorTheorems.NoLeakedChild | cmd/infra.go:306-309 | when stop returns every process ever spawned has ended and been waited for |
| SupervisorTheorems.ShutdownErrorMeaning | cmd/infra.go:212-241 | shutdownError is nil exactly for no error, a cancellation, or death by SIGTERM, and otherwise matches exactly what the wait error matches |
| SupervisorTheorems.ShutdownErrorByTree | cmd/infra.go:212-241 | by the nodes of the wait error: a cancellation or death by SIGTERM gives nil, SIGKILL a forced shutdown, anything else a failed one |
| SupervisorTheorems.Endings | cmd/infra.go:212-241 | no error and signal 15 end well, no exit code and no other signal does, and an annotation changes nothing |
| SupervisorTheorems.StopResultMeaning | cmd/infra.go:274-311 | stop returns nil exactly if no exit was early, nothing survived the deadline and every other process ended well; otherwise it joins, in order, the early exits, for each survivor its missed deadline and failed kill, and the bad endings |
| SupervisorTheorems.StopErrorMatches | cmd/infra.go:274-311 | the error matches exactly what an early exit's wait error, a survivor's missed deadline, a failed kill or a bad ending matches |
| SupervisorTheorems.KillErrorsMatch | cmd/infra.go:291-302 | a survivor adds a missed deadline, and a second error exactly if its kill failed other than for a finished process |
| SupervisorLiveness.RunsAreBounded | cmd/infra.go:243-312 | without a new start, every schedule is shorter than the rank of its first state |
| SupervisorLiveness.StopNeverSticks | cmd/infra.go:259-272 | while stop is pending a step that is bound to happen is enabled; no deadlock between stop, the mutex and the waiters |
| SupervisorLiveness.StopAlwaysReturns | cmd/infra.go:243-312 | from the call of stop every run is bounded, and one that cannot go on has returned with all children reaped |
| InfraSuites.InfraSuite.Start | cmd/infra.go:165-210 | spawns and records a process exactly if the root is live, no stop began and the spawn works; otherwise nothing changes |
| InfraSuites.InfraSuite.Publish | cmd/infra.go:198-207 | stores the result, closes done, and stops the root with the exit as cause unless stopping |
| InfraSuites.InfraSuite.HandOff | cmd/infra.go:247-259 | sets stopping and returns the published processes and the others, each in start order |
| InfraSuites.WaitForProcesses | cmd/infra.go:265-272 | returns with every process done or the deadline expired |
| InfraSuites.CollectExits | cmd/infra.go:274-277 | one unexpected-exit error per early process, in order |
| InfraSuites.KillSurvivors | cmd/infra.go:283-304 | exactly the processes found unfinished get a kill; the errors are exactly theirs and those of the kills that failed; afterwards each process is done or had a kill attempted |
| InfraSuites.ReapAll | cmd/infra.go:306-309 | must not begin before every process is done or had a kill attempted; waits for every one and lists the shutdown error each then has |
| InfraSuites.Stop | cmd/infra.go:243-312 | the result joins the early exits, the kills and the other endings; it is nil exactly if there is none of each kind; a process still unfinished when the final wait begins had been found so past the deadline and killed; every process is done |
| InfraRefinement.StartRefines | cmd/infra.go:165-210 | a call of start is the run of the supervisor's start steps |
| InfraRefinement.PublishRefines | cmd/infra.go:198-207 | the waiter's locked section is the run of its four steps |
| InfraRefinement.HandOffRefines | cmd/infra.go:247-259 | stop's locked section is the run of its steps, with the same two lists |
| StopRefinement.StopRefines | cmd/infra.go:243-312 | the whole of stop, whatever exits and deadlines it meets, is a run of the supervisor that ends with the same lists and the same error; on its way the same processes are done at the look at the deadline and at the start of the final wait |
| StopRefinement.StopRun | cmd/infra.go:243-312 | for every way the processes can be found, at the deadline and at the final wait, and end, the supervisor has a run of stop that finds them so |
| AllInOne.MoveKeepsConsistent | cmd/start.go:51-69 | the invariant of the whole Action, main goroutine and supervisor together, is kept by every move |
| AllInOneTheorems.CleanExitMeansOperatorStop | cmd/start.go:51-69 | an Action that returns nil was stopped first by the operator; no child exited early, survived the deadline or ended badly, and the services closed |
| AllInOneTheorems.VerdictIsExact | cmd/start.go:63-69 | the Action returns nil exactly if startup succeeded or is excused, the services closed and the children stopped cleanly, and its error matches exactly what those match |
| AllInOneTheorems.FailureIsRecorded | cmd/infra.go:30-104 | a step of startup records exactly the failure that it meets, and goes to the switch exactly then |
| AllInOneTheorems.StartupFailureIsFinal | cmd/start.go:51-69 | once a call of startup failed, bundle_ready is never emitted, services not yet begun never start, and the result matches that failure unless the operator had stopped the root |
| AllInOneTheorems.CloseFailureShows | cmd/services.go:33-35 | what closing the services returned is in the result |
| AllInOneTheorems.FailureStopsRoot | cmd/start.go:59-61 | a failure that is not excused stops the root, with itself as cause if nobody was faster |
| AllInOneTheorems.StartupErrorVerdict | cmd/start.go:53-61 | a startup error is dropped exactly if the operator's signal was the first to stop the root before the switch looked |
| AllInOneTheorems.ReadyMeansUp | cmd/services.go:19-24 | bundle_ready is emitted exactly at a look that finds the root live after startup without error; every embedded process is then spawned and none has been seen to exit |
| AllInOneTheorems.ReadyStays | cmd/services.go:17-22 | it is emitted at most once, and never in a run with a startup error |
| AllInOneTheorems.NoChildOutlivesTheAction | cmd/start.go:51-69 | on every path, every child ever spawned has been reaped when the Action returns |
| AllInOneTheorems.RunsEnd | cmd/start.go:51-69 | every schedule of the Action is finite, bounded by a rank |
| AllInOneTheorems.ActionAlwaysReturns | cmd/start.go:51-69 | the Action never gets stuck: it has returned, or is up and waits for a stop |
| AllInOneServices.ServicesFitTheAction | cmd/start.go:56-57 | for every report of runServices, moment of the stop and its cause, the Action has a run with the same error handed to stop, the same root context and the same bundle_ready |
| AllInOneStartup.StartupFitsTheAction | cmd/start.go:52-61 | for every result of startAllInOneInfra the Action has a run that goes on to the services if it is nil, and otherwise to the switch with that error |
| Services.StartAll | cmd/services.go:41-51 | services start in order up to the first failure or the first check that finds the root stopped; after the stop at most the start under way completes |
| Services.OpenAll | cmd/services.go:53-59 | listeners open in order up to the first failure |
| Services.StartServices | cmd/services.go:41-60 | listeners open only after all services started; the error is nil exactly if all came up, and matches what stopped or failed the startup |
| Services.CloseListeners | cmd/services.go:65-71 | every listener closes once, in order, whatever fails; there is one error for each failed close, and together they match what those match |
| Services.CloseServices | cmd/services.go:73-81 | every service closes once, backward, whatever fails; there is one error for each failed close, and together they match what those match |
| Services.StopServices | cmd/services.go:65-82 | listeners then services; the result is nil exactly if every close succeeded, and matches exactly what the failed closes match |
| Services.AwaitOrFail | cmd/services.go:17-31 | ready exactly on success with a live root; an error is dropped exactly for an operator stop, and otherwise stops the root |
| Services.RunServices | cmd/services.go:16-36 | the whole trace, for any services, failures and moment of the stop; the result is nil exactly if startup did not fail or is excused and every close succeeded, and matches exactly what failed; the root is stopped by this code only with an error it returns |
| Services.StartBundle | cmd/start.go:79-89 | start-bundle reports completion exactly when it returns nil, which means the operator stopped it |
| ServiceTraces.ServiceClosesOnce | cmd/services.go:73-81 | of each service the trace holds at most one start, as startup went, then exactly one close |
| ServiceTraces.ListenerClosesOnce | cmd/services.go:53-71 | of each listener at most one opening, then exactly one close |
| ServiceTraces.StagesInOrder | cmd/services.go:38-82 | starts, openings, ready, listener closes and service closes follow each other; openings and ready only after all services started |
| ServiceTraces.NothingOutOfOrder | cmd/services.go:38-82 | said of the events: no start after an opening, only closes after ready, no listener close after a service close |
| ServiceTraces.AttemptsComeFirst | cmd/services.go:41-57 | the attempted starts are the first events of a startup, in order, and only openings follow |
| ServiceTraces.ReadyAtMostOnce | cmd/services.go:19-23 | bundle_ready occurs once exactly if everything came up with a live root, after all starts and openings, and otherwise never |
| ServiceTraces.StartsInOrder | cmd/services.go:42-57 | the k-th start is that of service k, and the k-th opening that of listener k |
| ServiceTraces.ListenersCloseInOrder | cmd/services.go:67-71 | the k-th listener close is that of listener k |
| ServiceTraces.ServicesCloseBackward | cmd/services.go:73-81 | the k-th service close is that of the k-th service from the end |
| Transports.DeferralIsExact | lightnode/anynodes.go:129-134 | whatever the apps do, only listener events run or close real transports, if and only if no app holds a transport directly |
| Transports.TransportLife | lightnode/anynodes.go:98-106 | each real transport runs at most once, after every service start, and closes exactly once, before any service close |
| Transports.TransportOrder | lightnode/anynodes.go:98-106 | no service starts once a transport has run, and none runs or closes once a service is closing |
| Transports.NewBundleIsWellWired | lightnode/anynodes.go:109-122 | the program's own bundle defers both transports |
| Transports.CoordinatorHoldsTransports | lightnode/anynodes.go:109-167 | the order of the services; only the coordinator holds transports, each once, and can initialize but not run them |
| FileStore.KeysAreSeparate | lightcmp/lightfilenodestore/store.go:42-48 | block and index keys are injective encodings that never collide |
| FileStore.AddedBlocks | lightcmp/lightfilenodestore/store.go:224-252 | after Add each CID reads the last block given for it, or what it read before |
| FileStore.DeletedBlocks | lightcmp/lightfilenodestore/store.go:270-291 | DeleteMany removes exactly the given CIDs |
| FileStore.StepRefines | lightcmp/lightfilenodestore/store.go:224-356 | every operation on the flat keys is its operation on two independent maps |
| FileStore.StoreRefinesTwoMaps | lightcmp/lightfilenodestore/store.go:224-356 | every sequence of operations is a run of the two maps |
| FileStore.LogicalStepIsFunctional | lightcmp/lightfilenodestore/store.go:224-356 | the logical operations leave no choice of result |
| FileStore.ViewIsFaithful | lightcmp/lightfilenodestore/store.go:30-33 | with only the two kinds of keys the two maps determine the database |
| FileStore.RunKeepsOurKeys | lightcmp/lightfilenodestore/store.go:224-356 | no run of operations adds a key of another kind |
| FileStore.StoresAreTheirViews | lightcmp/lightfilenodestore/store.go:30-33 | two stores that began empty and show the same maps are the same database |
| FileStore.LightFileNodeStore.LoadBlock | lightcmp/lightfilenodestore/store.go:192-222 | returns the block of the logical map, not-found exactly if it is missing, or the read fault |
| FileStore.LightFileNodeStore.GetMany | lightcmp/lightfilenodestore/store.go:145-189 | delivers exactly the loadable blocks in request order with duplicates if uncancelled, always a prefix of them, and closes |
| FileStore.LoadableMeaning | lightcmp/lightfilenodestore/store.go:145-189 | the loadable blocks are those of exactly the requests that can be served, one for each, in request order |
| FileStore.LightFileNodeStore.AddBlocks | lightcmp/lightfilenodestore/store.go:224-252 | success is the logical Add; failure is the logical Add of some of the first blocks; the index never changes |
| FileStore.LightFileNodeStore.DeleteBlock | lightcmp/lightfilenodestore/store.go:254-268 | success is the logical Delete; failure changes nothing |
| FileStore.LightFileNodeStore.DeleteBlocks | lightcmp/lightfilenodestore/store.go:270-291 | success is the logical DeleteMany; failure is that of some of the first CIDs; the index never changes |
| FileStore.LightFileNodeStore.GetIndex | lightcmp/lightfilenodestore/store.go:293-326 | the logical index value, and nil without an error for a missing key |
| FileStore.LightFileNodeStore.PutIndex | lightcmp/lightfilenodestore/store.go:328-341 | success sets exactly that index key; failure changes nothing |
| FileStore.LightFileNodeStore.DeleteIndex | lightcmp/lightfilenodestore/store.go:343-356 | success removes exactly that index key; failure changes nothing |
| StoreGc.PassesOnlyOnOpenDatabase | lightcmp/lightfilenodestore/store.go:358-402 | a pass runs only on the open database of its own Run; after cancellation at most one pass begins |
| StoreGc.OnlyCancellationEndsIt | lightcmp/lightfilenodestore/store.go:358-380 | the goroutine ends only when it is cancelled |
| StoreGc.CloseJoinsTheGoroutine | lightcmp/lightfilenodestore/store.go:111-127 | past its wait and after its return Close has no live goroutine and leaves no open database |
| StoreGc.CloseAgainIsHarmless | lightcmp/lightfilenodestore/store.go:111-127 | Close without Run, or repeated, returns and changes nothing |
| StoreGc.CloseIsNeverStuck | lightcmp/lightfilenodestore/store.go:113-117 | from any point some five steps of its own lead a cancelled goroutine out |
| StoreGc.CancelledWorkerIsBounded | lightcmp/lightfilenodestore/store.go:358-402 | in every schedule a cancelled goroutine takes at most five steps and two for each tick that its select prefers |
| StoreGc.JoiningAlwaysMoves | lightcmp/lightfilenodestore/store.go:113-117 | while Close waits, the goroutine can take a step that is no tick, or has ended |
| StoreGc.GcOnce | lightcmp/lightfilenodestore/store.go:382-402 | counts the reclaiming passes up to the first stop or other result; only a genuine failure is an error |
| StoreGc.TickLeadsToPass | lightcmp/lightfilenodestore/store.go:358-402 | unless it is cancelled, a tick leads the goroutine to a pass, and a pass to the next test or back to the select |
| Clocks.SelectTimer | cmd/mongo.go:40-44 | a select on the context and a timer ends at the earlier of the two |
| ReplicaSet.AttemptMeaning | cmd/mongo.go:59-100 | an attempt succeeds exactly if the new set had its whole stabilization pause before a cancellation, or was there already with the context live; a reported cancellation happened, and one during the pause ends it at once; any other failure is that of the connection or the status check, when it ends; a connected client disconnects |
| ReplicaSet.AttemptMasksCancellation | cmd/mongo.go:84-99 | one attempt reports another error after the cancellation exactly if the context ended during a failing status check |
| ReplicaSet.MaskedCancellation | cmd/mongo.go:84-99 | an input for which one attempt reports the driver's error after the cancellation |
| ReplicaSet.InitReplicaSet | cmd/mongo.go:26-57 | the failure of the last attempt is returned exactly if every delay had its attempt, all failed and the context was live at the last look; a cancellation is returned as itself and without delay: no attempt follows the one it fell into, and none begins after a delay that it cut short |
| ReplicaSet.AttemptsBeginOnSchedule | cmd/mongo.go:37-54 | attempt k begins after the sum of the delays up to its own and the time earlier attempts took |
| ReplicaSet.ProgramSchedule | cmd/mongo.go:27-28 | the first attempt is immediate and the last begins after 142 seconds of delays, with none after it |
| Readiness.WaitForTCPOrExit | cmd/infra.go:360-389 | dials at once and then at the ticks, up to its deadline; nil exactly if its last dial was accepted in time, and no earlier one was; otherwise it ends with the exit of the process, a clean one too, or with the context, whichever the select takes first |
| Readiness.WaitIsDetermined | cmd/infra.go:360-389 | what a wait meets determines the times of its dials, its result and its end |
| Readiness.ExitEndsTheWait | cmd/infra.go:381-387 | with a select that takes the exit when it is there, no wait lasts longer than one dial beyond it |
| Readiness.RefusedDials | cmd/infra.go:367-388 | with every dial refused at once it dials every 100 ms and fails at its timeout |
| Readiness.StartAllInOneInfra | cmd/infra.go:30-104 | nil exactly if directories and both spawns succeeded, MongoDB accepted a dial, an attempt initialized the replica set and Redis accepted a dial, one after the other; an error is how the first of these failed, MongoDB's of the kind for a missing CPU feature if its text says so; a root stopped at entry touches nothing |
| Readiness.StartupMeaning | cmd/infra.go:83-101 | success means an accepted dial of MongoDB within 180 seconds and then one of Redis within 30; a failure by an exit is that of the process waited for |
| ShutdownBudget.CloseAll | cmd/services.go:65-82 | closes under one shared deadline end after the sum of their times, but no later than it |
| ShutdownBudget.StopOnClock | cmd/infra.go:243-312 | stop ends when the last child has been reaped; it finds unfinished exactly the children that outlive its deadline |
| ShutdownBudget.GraceKillComesFirst | cmd/start.go:20-24 | whatever the children, the grace-period kill precedes stop's deadline, which then finds no survivor, if and only if handoff and reaping stay under the reap margin |
| ShutdownBudget.StopEndBound | cmd/start.go:20-24 | stop ends at most a reaping time after its deadline, and by it within the reap margin |
| ShutdownBudget.ReapedAtMeaning | cmd/start.go:20-24 | a child that ends within the grace period is reaped then, another a reaping time after the earlier of the two kills |
| ShutdownBudget.GracefulChildren | cmd/start.go:20-24 | children that all end within the grace period leave no survivor, and stop ends with the last |
| ShutdownBudget.BudgetIsExact | cmd/start.go:16-30 | for every workload within the reap margin all cleanup precedes the watchdog, if and only if the remaining overhead is below the watchdog's margin |
| ShutdownBudget.LateReapingStillFits | cmd/start.go:26-30 | beyond the reap margin it still does, if overhead, reaping and the handoff's overrun together are below the watchdog's margin |
| ShutdownBudget.ShutDown | main.go:25-30 | both parts one after the other end before the watchdog fires, within the reap margin and the watchdog's margin |

## Left out

- Spawning, signalling, dialing, the MongoDB driver, Badger's internals, S3 and DRPC: only the contracts above.
- The container check of start-all-in-one: it precedes the suite and only returns an error.
- CLI flags, logging, banners, pprof, configuration and its conversion: input, output and field copying.
- The text search for an illegal instruction, a parameter of the startup, and the message that is printed then.
- The Action of start-all-in-one is a transition system, not a method: its point is the interleaving with the waiters.
- Goroutine scheduling below the modelled steps, and the Go memory model: shared fields are read under the mutex or after `done` is closed.
- Go's error texts: errors are told apart by kind, wrapped cause and the names they carry.
- Component lists of NewBundle beyond their length and the place of the transports.
- Store.Run called twice without Close, and operations on a closed store: the app that owns it does neither.
- Durability, value-log rewriting and the atomicity of a failed batch belong to Badger.
- InfraSuites.Stop: that an early exit also stopped the root is not in its contract; it follows in SupervisorTheorems, of which StopRefinement.StopRefines makes it a run.
- ReplicaSet.ProgramSchedule: the driver's own connection and command timeouts only bound the durations, which are arbitrary here.
