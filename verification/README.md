# A verified model of Density

Density runs containers as scheduled tasks: clients add tasks with a demand in CPU and RAM, one loop picks the
next task that fits, a watcher goroutine waits for each run. This project models its hard core in Dafny and
proves what that core keeps. `dafny verify dfyconfig.toml` checks all of it.

## What is modelled

**The scheduling engine** (`scheduler/`, `todo/`, parts of `task/` and `runner/`).

- `Engine` is a step machine. Its state holds the clock, the resource counters with one hold per launch, the task
  store, the jobs (one per call of `execTask`, from `Consume` to the end of its watcher), the armed timers, the
  one-slot wake-up channel with its flag and its mutex, and the loop's program counter. Each step is one
  lock-protected action of one goroutine, or one channel operation; any enabled step may come next. Ping is three
  steps and Done two, so a receive can land between Ping's send and its flag write; the watcher's final Put, its
  Ping, its cleanup and the release of the hold are four steps. readyToGo reads the clock and the free resources in
  one step and answers in another one, with releases in between.
- `EngineHolds`, `EngineRuns`, `EngineWake` and `EngineHistory` prove what every step keeps. `EngineTheorems`
  states the results for all reachable states and all runs. `EngineProgress` and `EngineDrain` prove that the
  work of a closed system is bounded, that the scheduler is never stuck, and that it can always finish every task.
  `EngineForced` that a launch is inevitable.
  `EngineLate` says when a wake-up is late, `EngineSpin` when the loop spins, `EngineFinal` when a task is over for
  good, `EngineRecords` what the store says about runs. `EngineAssumptions` and `EngineCancel` show that two of the assumptions below are needed.
- `Scheduler`, `Resources`, `Todo`, `JsonStore`, `MemoryStore`, `TaskObjects` are the objects of the source as
  classes. Each call states its whole new state as a state of the machine, `EngineWhole` proves that such a call is a
  run of the machine with nobody in between, and so every call leads from reachable states to reachable ones
  (`Follows` in `Calls`), to which the results of `EngineTheorems` apply; `Sessions` composes any list of calls.
  `Outcomes` says in fields, without the functions of the machine, what each operation does to the records and the
  state, and the calls promise it.
- `Stalls` joins the engine with the publisher of `Deliveries`.
- `Tasks`, `Pools`, `Wakeups`, `Codec`, `Json` are the values they work on. `Codec` is the wire form of a task.

**The subnet allocator** (`network/network.go`): `Bits` (the mask operations), `Networks` (blocks of 32-bit
addresses in the prefix notation of section 3.1 of RFC 4632, distances) and `Subnets` (the in-place sort, the
search loop, capacity). `MixedSubnets` covers lists of any blocks.

**Service ranking** (`compose/graph.go`): `Graphs`.

**Publish and subscribe** (`pubsub/pubsub.go`): `Deliveries` is a step machine over the readers-writer lock and the
channels; `PubSub` is the object.

**Volumes** (`compose/validator.go`, `compose/recompose.go`): `Volumes`.

`Wrappers`, `Sets` and `Sorting` are shared helpers. Go's `nil` and empty maps and slices are one value. Integers are
unbounded, except for network addresses, which are 32-bit values that wrap around.

## Assumptions

- `Run.Wait` answers a terminal status. `compose/run.go:130` and `compose/run.go:164-171` break this: a container that
  stops by itself with a non-zero exit code leaves the zero status, which is Waiting (`DockerWaitTerminal` says
  exactly when, `OneRunNeedsAnswer` what follows).
- Cancel is one step. Between its read (`scheduler/scheduler.go:366`) and its write (392) the loop may launch the task,
  and a stale Waiting record is then written over a Running one (`TwoStepCancel`, `CancelOverwritesLaunch`).
- A new identifier is fresh, and every stored task came through Add.
- Totals of CPU and RAM are not negative, and the clock does not go back.
- The cron library answers a date strictly later than now, or does not parse the expression.
- Events reach their subscribers: the engine alone leaves its calls of Publish out. A Publish that waits for a full
  channel holds up a watcher before its Ping (`scheduler/scheduler.go:280-284`) and execTask under the scheduler's
  lock (263-267); `Stalls` says what that means for the engine.
- Histories (`HistoriesRun`) are claimed for runs that report the number they were given. `DummyRun` reports 0
  (`DummyRunsBreakHistory`).

## Findings

- A timer can be late: the clock is read at `scheduler/scheduler.go:221`, the timer is armed at 225, and the time
  between the two delays it (`WakeupWithin`, `ArmingInTime`, `LateTimerHappens`).
- While a waiting task is past its start and does not fit, the loop spins without any sleep: `next` answers that task
  and arms a timer that is due at once (`scheduler/scheduler.go:221-227`, `SpinsExactly`).
- A Cancel or a Delete is final only when no goroutine holds the task (`CancelIsFinal`, `DeleteIsFinal`): the loop,
  execTask and the watcher write their own copy over it (`scheduler/scheduler.go:248`, 255, 275-279). A Cancel that
  changes a status can always be written over (`EffectiveCancelIsNeverFinal`). A recurring task whose Up fails stays in Error
  (244-250, `FailedUpIsOver`).
- Cancel of a Waiting task only changes its modification time (388-392, `CancelChanges`).
- A full channel of a subscriber stops the scheduler: a finished run keeps its resources, or nothing is launched any
  more (`BlockedWatcherKeepsItsResources`, `BlockedLoopLaunchesNothing`).
- `UnmarshalJSON` checks the receiver's cron expression before it copies the new one (`task/task.go:218-236`), so a
  broken expression is read without an error.
- The subnet search compares each candidate with one entry of the list only. With a larger block in its way it runs
  off the list (`network/network.go:116-119`) or hands out a network inside that block (121-123; `ChoiceExactly`,
  `HandsOutTakenNetwork`), and with a lowest block below `mini` it hands out `mini`, taken or not.
- Ranking the services of a cyclic graph never returns, in any order of the services; on an acyclic graph it always
  does (`RankingReturnsExactly`).
- A volume whose source is under the target already loses its destination and mode (`compose/recompose.go:51`), and so
  does any volume that is patched twice. A target with a colon is cut at the colon (`SourceLeft`).

## Model

| member | source | states |
|---|---|---|
| `EngineTheorems.InvStep` | scheduler/scheduler.go:52-431 | every step of every goroutine keeps all the invariants: admission, the wake-up protocol, the books of the resources, no over-commitment, one live run per task, spacing, no lost wake-up, run counters |
| `EngineLate.WakeupWithin` | scheduler/scheduler.go:204-228 | after every run in which each arming takes at most some time D, with a live loop and a waiting task: a token is in the channel, or the loop is inside oneLoop, or a Ping is owed, or a timer is armed that is due by max(now, start + D); with D = 0 that is max(now, start) |
| `EngineLate.ArmingInTime` | scheduler/scheduler.go:221-227 | in a reachable state, arming keeps the strict promise if and only if something else wakes the loop, or each waiting task has an earlier timer in time, or the armed start was past when the clock was read, or the task starts later than the armed one by the time that passed since |
| `EngineLate.LateTimerHappens` | scheduler/scheduler.go:221-227 | for every start and every delay there is a reachable state with a sleeping loop, no token, no owed Ping and a waiting task whose only timer is late by exactly that delay |
| `EngineWake.CoveredLock` | todo/todo.go:24-28 | a Ping that is dropped because one is pending loses no wake-up, whatever the loop is doing |
| `EngineTheorems.WakeupNeverBlocks` | todo/todo.go:24-46 | the channel holds at most one token, a token means that the flag is set or about to be, and neither Ping's send nor Done's flush can wait under the mutex |
| `EngineHolds.ProtocolStep` | todo/todo.go:24-51 | every step keeps the relation of token, flag, mutex holder and program counters, also with a receive between Ping's send and its flag write |
| `EngineTheorems.NoOverCommitment` | scheduler/scheduler.go:215-235 | free CPU and RAM never go negative, the demands of all live runs are within the totals, and a chosen task still fits when its resources are taken |
| `EngineHolds.FitsStep` | scheduler/resources.go:45-67 | every step keeps the free amounts non-negative, although the check and the Consume are in different critical sections |
| `EngineTheorems.ResourcesConserved` | scheduler/resources.go:45-61 | free plus held is the total for CPU and RAM, `processes` is the number of holds, a job that is over has exactly one release left until it is done, and a live one none |
| `EngineTheorems.ReleasedOnce` | scheduler/resources.go:51-60 | over any run the releases of a hold are one if it ends released and was not, else none |
| `EngineHolds.BooksStep` | scheduler/scheduler.go:234-269 | every step keeps conservation, and a hold stays uncancelled exactly as long as its job needs it, on the failed-Up path and the watcher's |
| `EngineTheorems.OneLiveRun` | scheduler/scheduler.go:232-285 | at most one live run per task, and none while the task's record waits, under interleaved Add, Cancel, Delete, Flush and watchers |
| `EngineTheorems.LaunchedOnce` | scheduler/scheduler.go:232-255 | a task that does not recur is launched at most once over any run |
| `EngineTheorems.PeriodKept` | task/task.go:296-299 | two launches of a task with a period and no cron expression are at least the period apart |
| `EngineTheorems.SpacedStep` | scheduler/scheduler.go:270-279 | every step keeps the spacing, through finish, reschedule, the store and the ready filter |
| `Tasks.KarmaOrders` | task/task.go:370-371 | one task comes before another one if and only if some integer lies above its demand (cpu times ram) by its time and not above the other one's |
| `EngineTheorems.AdmittedIsDoable` | scheduler/scheduler.go:324-338 | once all holds are released and a waiting task is past its start, the ready list is not empty, and no task that waits, is past its start and fits has less demand by time than its head |
| `EngineTheorems.WalkIsCoherent` | scheduler/scheduler.go:324-338 | with releases that land during the walk of readyToGo, what fitted at its start still fits, the head waits, is past its start, fits at the end and has least demand by time among those that fitted at the start, and a task that an empty list missed has become due or doable since |
| `EngineHolds.RecordsStep` | scheduler/scheduler.go:59-76 | every record anywhere keeps the positive, admissible demands it was added with |
| `EngineTheorems.HistoriesFromStart` | task/task.go:334-340 | from the start, over runs that report their number, every stored history has strictly decreasing numbers bounded by the run counter |
| `EngineTheorems.HistoriesRun` | runner/runner.go:40-45 | the same from any state with good histories, through failed Ups, cancels and reschedules |
| `EngineTheorems.CounterNeverDrops` | runner/runner.go:41 | a stored run counter never goes down, not even across a Delete and the watcher's later Put |
| `EngineHistory.HistoryExact` | scheduler/scheduler.go:241-243 | a launch keeps a history good if and only if the reported number is within the new counter and above the last one |
| `EngineHistory.DummyRunsBreakHistory` | task/dummy.go:39-41 | two runs that report 0 leave a history that is not decreasing |
| `Tasks.AddRunExact` | task/task.go:334-340 | one more run keeps a history good if and only if its number is new and within the counter |
| `EngineProgress.TollStep` | scheduler/scheduler.go:212-286 | without Add and recurrence, twice the tasks still to run plus the live runs never rises, and drops at every launch, failed launch and finish |
| `EngineProgress.WorkIsBounded` | scheduler/scheduler.go:212-286 | so the launches and finishes of any such run are bounded by where it starts |
| `EngineProgress.TollWithoutDelete` | scheduler/scheduler.go:395-411 | as long as nothing is deleted, that measure is twice the Waiting tasks plus the live runs |
| `EngineProgress.QuiescentIsDone` | scheduler/scheduler.go:221-228 | a sleeping loop with no token, no owed Ping and no timer has no waiting task |
| `EngineDrain.NeverStuck` | scheduler/scheduler.go:183-286 | while a task waits, is in hand or runs, some step of the scheduler itself is enabled that brings the end nearer |
| `EngineDrain.ReachableCanDrain` | scheduler/scheduler.go:183-286 | from every reachable state without recurring tasks, the scheduler's own steps can run and finish every task |
| `EngineForced.LaunchIsInevitable` | scheduler/scheduler.go:183-286 | from a reachable state with a waiting task, all waiting tasks started and nothing left to do outside the loop, every long enough run of the scheduler's own steps without any time passing contains a launch or a failed launch, in whatever order the steps come |
| `EngineRecords.LiveRecordStays` | scheduler/scheduler.go:252-255 | in every reachable state the record of a live run, if it is stored, is Running or Canceled, and Flush does not remove it unless it was canceled |
| `EngineRecords.CronDateKept` | task/task.go:301-305 | a task with a cron expression is never launched again at or before the date that the library answered at the end of its run, whatever happens after that end |
| `EngineFinal.OverForEver` | scheduler/scheduler.go:52-431 | once a task neither waits nor runs and no goroutine holds it, no run ever launches it again, and its record is only removed or written back as it is |
| `EngineFinal.DeleteIsFinal` | scheduler/scheduler.go:395-411 | after a Delete in any reachable state the task never comes back, whatever happens, if and only if neither the loop has chosen it nor execTask or a watcher still works on it |
| `EngineFinal.CancelIsFinal` | scheduler/scheduler.go:365-393 | a Canceled record stays Canceled, whatever happens, if and only if the same holds |
| `EngineFinal.EffectiveCancelIsNeverFinal` | scheduler/scheduler.go:388-392 | every Cancel that changes a status can be undone: a running record always has a live watcher, which can write another status over it |
| `EngineFinal.CancelChanges` | scheduler/scheduler.go:365-393 | Cancel changes the status of a running task and of no other, and nothing else but that task's modification time |
| `EngineCancel.TwoStepCancel` | scheduler/scheduler.go:366-392 | from any reachable state, with any run between the read and the write of a Cancel: the write keeps the one-run invariant if and only if the record read did not wait, or no launch of the task fell between the two; for a recurring task it is enough that no launch of it is still running |
| `EngineCancel.CancelOverwritesLaunch` | scheduler/scheduler.go:366-392 | for every task that is due there is a reachable state and a run in which the launch falls between and a waiting record is written beside the live run |
| `EngineFinal.FinishIsOver` | scheduler/scheduler.go:274-279 | the end of a run ends its task for good if and only if the task does not recur or its cron expression is broken |
| `EngineFinal.FailedUpIsOver` | scheduler/scheduler.go:244-250 | a failed Up ends any task for good, a recurring one too |
| `EngineSpin.SpinsExactly` | scheduler/scheduler.go:212-228 | with nothing ready and nothing pending, the loop, its timers and their Pings come back to the very same state without any time passing if and only if some waiting task is not in the future and none is due |
| `EngineAssumptions.DockerWaitTerminal` | compose/run.go:120-172 | Wait answers a status that is not terminal exactly when a container stopped by itself and its inspection does not say exited with code 0 |
| `EngineAssumptions.OneRunNeedsAnswer` | scheduler/scheduler.go:274-279 | the answer of a run keeps the one-run invariant if and only if it is not Waiting |
| `EngineAssumptions.FailingContainerBreaksOneRun` | compose/run.go:164-171 | a failing container of a task that does not recur breaks it |
| `EngineAssumptions.DockerWaitAnswers` | compose/run.go:120-172 | each answer of Wait, from how the wait ended, whether the kill worked and what the inspection says |
| `Outcomes.LaunchStores` | scheduler/scheduler.go:241-255 | after a successful Up, store and job have the old record with status Running, start now, the run, one run more on the counter and its data in front of the history, and nothing else changed |
| `Outcomes.FailureStores` | scheduler/scheduler.go:241-250 | after a failed Up: Error, start and run as before, counter and history as far as the runner came |
| `Outcomes.FinishStores` | scheduler/scheduler.go:274-279 | the final Put: without period and cron the answer of the run and the old start; with a period alone Waiting at now plus the period; with cron Waiting at the library's date, or Error when the expression does not parse; nothing else changed |
| `Outcomes.OneOutcome` | scheduler/scheduler.go:241-279 | these descriptions leave no choice but the modification time |
| `EngineWhole.AddRuns` | scheduler/scheduler.go:52-80 | a whole Add is a run of the machine |
| `EngineWhole.FinishRuns` | scheduler/scheduler.go:268-285 | the whole end of a watcher is a run of the machine |
| `EngineWhole.LoopRuns` | scheduler/scheduler.go:212-229 | a whole oneLoop is a run of the machine, for any ready head and any next task |
| `Calls.LeadsFollows` | scheduler/scheduler.go:52-431 | a run from a reachable state ends in a reachable state |
| `Sessions.Session` | scheduler/scheduler.go:38-431 | a new scheduler with totals that are not negative, after any list of calls in any order: free amounts not negative, live demands within the totals, no two live runs of one task, no live run of a task that waits, no second launch of a task that does not recur |
| `Stalls.BlockedWatcherKeepsItsResources` | scheduler/scheduler.go:279-284 | engine and publisher together: a watcher whose publication waits for a full channel never pings and never gives its resources back, as long as the consumer of that channel receives nothing |
| `Stalls.BlockedLoopLaunchesNothing` | scheduler/scheduler.go:255-267 | the same of execTask: no task is ever launched again, and the run it launched never ends for the scheduler |
| `Pools.OperationsConserve` | scheduler/resources.go:45-61 | Consume, cancelling a context and releasing a cancelled hold each keep free plus held equal to the totals |
| `Pools.HeldBounds` | scheduler/resources.go:45-61 | positive holds sum to non-negative amounts, zero if and only if everything is released |
| `Resources.Resources.Check` | scheduler/resources.go:29-43 | accepts a demand if and only if both parts are positive and within the totals; each objection exactly when its test is the first to fail |
| `Resources.Resources.Consume` | scheduler/resources.go:45-61 | takes the demand, opens a hold for exactly it, keeps conservation |
| `Resources.Resources.IsDoable` | scheduler/resources.go:63-67 | true if and only if consuming the demand would leave both free amounts non-negative |
| `Resources.Resources.GiveBack` | scheduler/resources.go:51-60 | gives exactly the hold's amounts back, once |
| `Todo.Todo.Ping` | todo/todo.go:24-33 | at most one message until the next Done, and never a send without room |
| `Todo.Todo.Done` | todo/todo.go:36-46 | clears the flag, and empties the channel if the flag was set |
| `Scheduler.Scheduler.constructor` | scheduler/scheduler.go:38-49 | a started scheduler is the initial state of the machine, reachable when the totals are not negative |
| `Scheduler.Scheduler.Add` | scheduler/scheduler.go:52-86 | accepts if and only if the loop has not stopped, the task has no identifier, its demand is positive and within the totals and its time is positive; each error exactly when its test is the first to fail, with nothing changed; an accepted task is written as Waiting under the new identifier, stamped and otherwise as it came, and the loop is pinged |
| `Scheduler.Scheduler.ReadyToGo` | scheduler/scheduler.go:324-338 | exactly the tasks that wait, are past their start and fit in what is free, each one once, none behind a task with more demand by time |
| `Calls.LighterStandsBefore` | task/task.go:369-372 | of two tasks in such a list the one with less demand by time stands first |
| `Scheduler.Scheduler.Next` | scheduler/scheduler.go:340-358 | nothing if and only if nothing waits, else a waiting task of least start |
| `Scheduler.Scheduler.ExecTask` | scheduler/scheduler.go:232-286 | the demand is taken (its hold cancelled at once after a failed Up) and one job is added; its record and the stored one are the old one as `LaunchStores` and `FailureStores` say; a run that does not survive its own codec is stored as it was written |
| `Scheduler.Scheduler.OneLoop` | scheduler/scheduler.go:212-229 | the picked task is due and no due one has less demand by time, and none is picked only when none is due; the picked one is run and the loop pings itself, or else one timer is armed for a waiting task of least start, due at that start or at once |
| `Scheduler.Scheduler.EndOfRun` | scheduler/scheduler.go:268-285 | for any answer of the run the record is stored as `FinishStores` says, the job is over, its hold is cancelled and the loop is pinged; for a terminal answer the new state is reachable |
| `Scheduler.Scheduler.Cancel` | scheduler/scheduler.go:365-393 | a running task becomes Canceled and is stamped, a canceled one stays as it is, any other known task is only stamped, and an unknown one is reported |
| `Scheduler.Scheduler.Delete` | scheduler/scheduler.go:395-411 | removes a known task and nothing else, and an unknown one is reported |
| `Scheduler.Scheduler.Flush` | scheduler/scheduler.go:419-431 | keeps, as they were, exactly the tasks that wait, run or were modified no longer ago than the age, and returns exactly the drop in length |
| `TaskObjects.TaskObject.PrepareReschedule` | task/task.go:296-311 | with cron the library's date, or Error when the expression does not parse; else with a period now plus the period; otherwise nothing |
| `TaskObjects.TaskObject.AddRunToHistory` | task/task.go:334-340 | the run comes first and the older ones are kept, a nil run changes nothing, and a good history stays good if and only if the number is new and within the counter |
| `TaskObjects.TaskObject.Finish` | scheduler/scheduler.go:274-278 | the answer of the run and the old start, or the new start of a recurring task |
| `MemoryStore.MemoryStore.DeleteWithClause` | store/memory.go:43-56 | the two passes remove exactly the entries the clause accepts, as many as it accepted |
| `JsonStore.JsonStore.Put` | scheduler/store.go:40-50 | refuses a task without identifier, else writes it, stamped, under its identifier; one that survives its own conversions is then in the map of tasks as it was |
| `JsonStore.JsonStore.Collect` | scheduler/store.go:63-72 | ForEach with a filter reaches exactly the stored tasks the filter accepts, each one once |
| `JsonStore.JsonStore.DeleteWithClause` | scheduler/store.go:75-83 | removes exactly the tasks the clause accepts and counts them |
| `Codec.RoundTrip` | task/task.go:173-283 | a task is read back as it was written if and only if its action and its run are registered and survive their own codecs |
| `Codec.UnmarshalIs` | task/task.go:173-243 | each error exactly when its test is the first to fail (texts, two actions, unregistered or unreadable action, then run, then the receiver's cron expression); otherwise every field is taken over, and with two runs or more the receiver's run stays |
| `Codec.MarshalWrites` | task/task.go:245-283 | each field is written under its own name, and each part under its registered name |
| `Codec.BrokenCronIsRead` | task/task.go:217-224 | a stored task with a broken cron expression is read without error, though reading it over itself would fail |
| `Codec.ConversionsAreFaithful` | scheduler/store.go:30-50 | the two conversions keep every storable task, which is all the store needs |
| `Networks.LastIsEnd` | network/network.go:35-42 | for every prefix length the bitwise last address is the last one of the block that contains the address |
| `Networks.NestedOrDisjoint` | network/network.go:35-42 | two blocks are nested or disjoint, and disjoint if and only if one ends before the other starts |
| `Networks.NetDistanceMeaning` | network/network.go:62-85 | positive if and only if disjoint, then symmetric; negative only for overlap; zero exactly for equal blocks and an overlap in one last address |
| `Networks.NetDistanceMeasures` | network/network.go:62-85 | between disjoint blocks the distance of the last addresses; for a block inside another one minus the distance from its start to the other one's end |
| `Networks.NetDistanceSymmetric` | network/network.go:62-85 | symmetric if and only if the blocks start apart or end together |
| `Subnets.SortInPlace` | network/network.go:103 | the caller's list is permuted into ascending addresses |
| `Subnets.Scan` | network/network.go:112-133 | the loop answers what the search on the sorted list answers, and says so when it leaves the list |
| `Subnets.NextAvailableNetwork` | network/network.go:96-134 | the exact answer for distinct aligned blocks of the requested mask at or above mini, in whatever order the caller lists them: mini for an empty list; the slot after the highest block if it starts below maxi; else the lowest free slot from mini up to maxi; it fails if and only if every slot from mini up to maxi is taken and maxi is taken too or above all blocks, beyond the maximum exactly when maxi is taken and not the last slot of all; a found network is aligned, in range and overlaps no block; the list is never left |
| `Subnets.ChoiceIsRight` | network/network.go:96-134 | the same of the choice on any ascending permutation of the list |
| `Subnets.SearchAnswers` | network/network.go:112-133 | the loop, from any candidate with everything below it taken, answers the lowest free slot or that there is none |
| `Subnets.QueueFits` | network/network.go:104-111 | the shortcut is taken if and only if a whole slot after the highest block ends below maxi |
| `Subnets.GrownSlots` | network/network.go:96-134 | from an empty list, each choice up to the capacity succeeds and gives the next consecutive slot |
| `Subnets.GrownDisjoint` | network/network.go:96-134 | the networks handed out are pairwise disjoint |
| `Subnets.CapacityExists` | network/network.go:107-108 | the capacity is (maxi - mini) / 2^(32 - ones) |
| `Subnets.CapacityExhausted` | network/network.go:124-132 | after as many choices as the capacity, the next one fails |
| `Subnets.GrownStops` | network/network.go:124-132 | and so does every later one |
| `MixedSubnets.ChoiceExactly` | network/network.go:96-134 | for every list: it is left if and only if there is no room in the queue, each entry but the last is passed (an overlap with its candidate, or too near with the next candidate in range), and the last one overlaps its candidate; and, for disjoint aligned blocks of any mask, ascending, a taken network is handed out if and only if there is no room in the queue and the search stops at a candidate that meets one of its two neighbours in the list |
| `MixedSubnets.SearchExactly` | network/network.go:112-133 | for every list, where the loop stops from any entry on and with which answer or error, read off the distances of the candidates to the entries |
| `MixedSubnets.HandsOutTakenNetwork` | network/network.go:121-123 | it happens with a larger block at mini and a far one behind it |
| `MixedSubnets.BlockBelowMiniHidesTheOthers` | network/network.go:121-123 | with a lowest block below mini the search hands out mini, which overlaps a block if and only if it is taken |
| `Graphs.NewServiceGraph` | compose/graph.go:9-36 | a service is in the graph if and only if its depends_on list has a string, with the strings of that list at ascending places and no other ones |
| `Graphs.DepthCountsPaths` | compose/graph.go:103-119 | whatever correct part of the memo is filled, the recursion counts the paths to services without dependencies |
| `Graphs.ByServiceDepth` | compose/graph.go:91-101 | on every acyclic graph, in any iteration order, every service gets its number of paths |
| `Graphs.DepthsAreUnique` | compose/graph.go:95-97 | the iteration order leaves no trace in the result |
| `Graphs.RankingExists` | compose/graph.go:103-119 | a graph without a cycle has a ranking in which every dependency ranks lower |
| `Graphs.RankingReturnsExactly` | compose/graph.go:91-119 | for every order of the keys, the loop with the memo it fills returns if and only if the graph has no cycle, and then with the number of paths of every service, within as many nested calls as there are services |
| `Graphs.FindLeader` | compose/graph.go:41-80 | a leader if and only if there is a strict maximum, and then that one; else an empty graph, or two services of maximal depth in byte order |
| `Graphs.BeforeIsByteOrder` | compose/graph.go:71-72 | the two services of an ambiguity are sorted by their first difference, a prefix first |
| `Graphs.LeaderIsUnique` | compose/graph.go:56-63 | leader and failure do not depend on the order of the entries |
| `Graphs.LeaderIsNoDependency` | compose/graph.go:41-80 | the leader of an acyclic graph is never a dependency of a service |
| `Deliveries.InvStep` | pubsub/pubsub.go:34-68 | every step of publishers, subscribers, closings and consumers keeps the invariants of numbers, wait group, locks, delivery and order |
| `Deliveries.ExactlyOnce` | pubsub/pubsub.go:54-68 | a publication that returned put one copy in the channel of each subscriber present when it took the read lock, and none elsewhere |
| `Deliveries.OrderedPerPublisher` | pubsub/pubsub.go:54-68 | a channel carries only published events, and those of one publisher in the order of its calls |
| `Deliveries.HundredPlaces` | pubsub/pubsub.go:39 | a channel never holds more than 100 events that were not received, and has room exactly when it holds fewer |
| `Deliveries.NumbersAreNeverReused` | pubsub/pubsub.go:36-39 | over any run a channel keeps what was sent on it, and a new channel has a number no channel had |
| `Deliveries.ClosedForGood` | pubsub/pubsub.go:41-48 | a closed subscriber stays closed and gets nothing more |
| `Deliveries.WaitGroupCounts` | pubsub/pubsub.go:40-46 | the wait group never goes negative and counts the subscribers whenever the write lock is free |
| `Deliveries.FullChannelHoldsTheLock` | pubsub/pubsub.go:57-61 | as long as its consumer receives nothing, a full channel holds up the publication and with it every Subscribe and every closing |
| `Deliveries.PublicationCanMove` | pubsub/pubsub.go:59-66 | a publication that cannot send or return has a full channel ahead |
| `Deliveries.SendsServe` | pubsub/pubsub.go:59-66 | the subscribers can be served in any order, with the same result |
| `Deliveries.WholePublish` | pubsub/pubsub.go:54-68 | with the lock free and room everywhere, a whole Publish is a run that appends the event once to every subscriber's channel and returns |
| `PubSub.PubSub.Subscribe` | pubsub/pubsub.go:34-51 | a number and a channel no subscriber has, counted by the wait group |
| `PubSub.PubSub.Close` | pubsub/pubsub.go:41-48 | removes the subscriber and takes it off the wait group |
| `PubSub.PubSub.Publish` | pubsub/pubsub.go:54-68 | returns if and only if every channel had room, and then each got the event once; else it is stuck at a full channel and those served before it got the event once |
| `PubSub.PubSub.Wait` | pubsub/pubsub.go:71-73 | returns if and only if there is no subscriber |
| `Volumes.ValidateNoDotDot` | compose/validator.go:61-68 | refuses a source if and only if some slug starts with two dots |
| `Volumes.ValidateVolume` | compose/validator.go:167-181 | no objection if and only if the volume has two or three parts and every standard validator accepts its source; each objection exactly when the source does not start with ./, has a slug that starts with two dots, or has more than 8 slugs; a format error if and only if it has one part or more than three |
| `Volumes.PatchFails` | compose/recompose.go:34-50 | each refusal of the patcher exactly, and the missing destination |
| `Volumes.PatchedSlugs` | compose/recompose.go:38-52 | for any target an accepted volume is never refused; its source is moved below the target unless it is there already, and destination and mode are kept if and only if it is moved |
| `Volumes.StaysUnderTarget` | compose/recompose.go:34-53 | the source that is left of an accepted volume, normalised, lies under the normalised target if and only if the target has no colon or its part before the colon lies there |
| `Volumes.SourceLeft` | compose/recompose.go:34-53 | with a colon in the target its part before the colon is the source, whatever the volume; else the patched source |
| `Volumes.SourceMoves` | compose/recompose.go:48-51 | the patched source is the source itself if it is under the target, else the target in place of its dot |
| `Volumes.ColonInTarget` | compose/recompose.go:34-53 | a target and a volume for which it leads elsewhere |
| `Volumes.StaysUnderDirectory` | compose/recompose.go:10-14 | with a directory as the target, as the standard one is, no accepted volume leaves it |
| `Volumes.PatchedTwice` | compose/recompose.go:48-51 | patching a patched volume leaves its source alone and drops the rest if and only if the target has no colon |
| `Volumes.PatchedSourcesCollide` | compose/recompose.go:48-51 | two sources are moved to one place if and only if they are equal or one is already where the other one goes |

Behind these rows stand the steps of the proofs, the field-by-field summaries of whole calls (`AddSummary`,
`ExecSummary`, `FinishSummary`), the mask arithmetic (`Bits`, `IntPow`) and the plain calls of the stores, whose
contracts say that they look up, add or remove one entry of a map.

## Left out

- `Scheduler.Load`: it runs execTask without the doability check and is marked FIXME; every run starts from a store filled by Add.
- Docker, docker-compose, YAML, HTTP, JWT, logging, the file system and the bbolt store: input, output and foreign calls.
- Stop through the context or the stop channel is one step of an idle loop; the Sync of the store before it, and the moment between Sync and the cleared `started` flag, are not modelled.
- The tasks behind pointers: the store keeps serialised copies, and the goroutine's own task is a value of its job, so a client that changes the task it has added is not modelled.
- Cron parsing and time formatting: library calls with the contracts above.
- The byte level of JSON, and failures of json.Marshal: `Codec` stops at the plain struct.
- Environments injected before a run, status names, Filter, List, GetTask and GetDataDir: facts of one branch.
- Fairness between large and small tasks: ordering by karma does not give it.
- `Deliveries.NumbersAreNeverReused`: the subscriber counter is unbounded here; in the code it wraps around after 2^64 subscriptions.
- `Deliveries.PublicationCanMove`: no liveness of Publish is claimed, since a full channel blocks it.
- Publish after an accepted Add (scheduler/scheduler.go:81-84): in `Stalls` it is a publication of some client.
- `Graphs.ByServiceDepth`: depths are unbounded; the code's sums are 64-bit.
- Addresses of 16 bytes (compose/network.go:57-64): FirstLast reads their first four bytes, which are zero.
- `MixedSubnets.ChoiceExactly`, overlaps: lists with blocks that overlap each other or that are not aligned.
- A store with entries that cannot be read: the calls of the scheduler after such an entry was added. `Session` skips a call that would add one.
- Errors that Validate and Recompose drop on the way (compose/validator.go:146, compose/recompose.go:100): a volume of one part passes the validation of a document and makes the patcher index out of range, so results are about one accepted volume.
- The length of a patched source: the depth limit of the validator is not applied again after patching.
