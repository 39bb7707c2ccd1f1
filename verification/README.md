# Verified models of n8n's execution bookkeeping, credential types and template scripts

This project models six parts of the repository in Dafny and proves what they promise, over every input, every
interleaving and every run. `dafny verify dfyconfig.toml` checks all of it.

**Active executions and their concurrency slots.** `Executions.dfy` is a state machine. Every `await` of
`ActiveExecutions.add` cuts that method into steps; the settle callback of a record's post-execution promise is
a step of its own; the other methods and the removals from the concurrency queue are one step each. All of them
interleave freely, and the failing branches are steps too. Records have an identity of their own, because an
entry of the map can be replaced by a resumed record while the callback of an earlier one is still due.
`ActiveExecutions.dfy`, `ConcurrencyControl.dfy` and `ConcurrencyQueue.dfy` hold the classes, which change
their fields in place; each method is proved to perform exactly its step. The theorems are about the steps:

- `Slots.dfy`, `Invariants.dfy`, `SlotTheorems.dfy`, `ThrottleBalance.dfy`: who holds a slot, and when the limit holds.
- `Modes.dfy`: which execution modes are limited, by how much, and what becomes of the next call.
- `Outcomes.dfy`: what each operation leaves behind, field by field, and for how long.
- `History.dfy`: what no later step undoes.
- `Ownership.dfy`: whose entry a callback deletes, how records leave the map, what a resumption keeps.
- `SlotLeaks.dfy`, `Starvation.dfy`: which slots can still be given back, and which executions can still start.
- `Draining.dfy`: the shutdown sweep, and when the loop after it ends.
- `ConcreteRuns.dfy`: runs from the start of a process in which things go wrong.

**Credential types.** `CredentialTypes.dfy`: `getParentTypes` pushes onto the array it iterates over, which is
the live list of the registry. The method works on such shared arrays.

**The template scripts.** `TemplateDownload.dfy` and `TemplateSearch.dfy`, over `Paging.dfy`: the server serves a
fixed list in pages, and an adversary chooses the outcome of every fetch and every entry. `Filenames.dfy`: the
two `sanitize_filename` functions.

**HTML encoding.** `HtmlEncoding.dfy`: `asEncodedHTML` of the Cypress page objects.

## Where the code does not do what one would expect

The model follows the code. Each point has a theorem that says exactly when it happens.

- Removing a queued execution starts the next one although no slot became free
  (packages/cli/src/concurrency/concurrency-queue.ts:45-55; its test expects this,
  packages/cli/src/concurrency/__tests__/concurrency-queue.test.ts:52-56), and once `shutdown` has turned the service
  off, every new call goes straight through (packages/cli/src/concurrency/concurrency-control.service.ts:114). These
  are the only two ways past the limit. Operations of a queue keep it if and only if no removal hits a queue in which
  another execution waits: `LimitHoldsIffNoOvertake`. A run of the process keeps all limits if and only if there is no
  such removal in it and no call that finds the service off and its kind at the limit: `LimitKeptIffNoExcess`.
  Concrete runs are `RemoveOverAdmits` and `LateCallExceedsLimit`.
- `removeAll` is documented to empty the queue and release all capacity
  (packages/cli/src/concurrency/concurrency-control.service.ts:137-141). While the service is on, it does so if and
  only if no queue holds more than one entry, and otherwise starts executions: `RemoveAllReleasesAllIff`. Without
  repeated ids the queue does end empty, but every second execution in it is started and only half of the capacity
  comes back: `RemoveAllStartsHalf`, `RemoveAllHalves`. An execution queued several times can stay queued
  (`RepeatedIdsStayQueued`), and nothing else can (`LeftoversAreRepeated`).
- `shutdown` disables the service before it calls `removeAll`, which then returns at once; so queued executions
  are neither removed nor cancelled in the database: `ShutdownNeverCancels`.
- A call of `add` past the throttle can still give its slot back if and only if the service still limits its mode and
  the call is yet to register or its record is not lost: `SlotReturnsIff`, in every reachable state
  `ReachedSlotReturnsIff`. So a call that fails after the throttle never does: `FailedCallsKeepTheirSlot`. An
  execution that waits, however far back in its queue, can still start without a removal if and only if the service is
  on and at least one slot of its kind can come back: `QueuedStartsIff`, in every reachable state
  `ReachedQueuedStartsIff`. A concrete run in which it cannot, with nothing running, is `FailedUpdateLeaksSlot`.
- The settle callback deletes the entry of its id without asking whose it is. A callback that can run next would
  delete another record's entry only after an id was registered while the deletion of an earlier record of that id
  was due, and then it would: `OwnDeletionsIff`, `CallbacksDeleteOwnIff`, `OwnDeletionsMeans`; a concrete run is
  `OverlappingResumeLosesRecord`. Callers that register an id only when each earlier record of it is waiting or has
  run its callback never see this: `DisciplinedRuns`.
- A pending record leaves the map if and only if it is stopped while waiting, dropped by the sweep, replaced by a
  registration, or deleted by the due callback of another record of its id: `PendingLeavesIff`. It then never
  settles, so its callback never runs and its slot stays taken: `LostForever`.
- An entry that is not waiting although its callback has run, and that no due callback of an earlier record of its id
  would delete, blocks the loop that waits after the sweep. It stops blocking if and only if its id is registered
  anew, it is set to waiting, or another sweep drops it, whatever happens to other executions: `FreedIff`, over runs
  `BlocksUntilFreed`. As long as no such entry is freed in this way, the loop can end if and only if there was none that
  survived the sweep: `CanDrainIffNoneObstructs`, `ObstructedUntilFreed`. If meanwhile nothing registers and nothing is
  set to waiting, the loop does end once all promises have settled and all callbacks have run, under that condition:
  `DrainEndsIffNoneObstructs`. An entry comes to be in the map, not waiting, with its callback run, exactly by being set
  to a status other than waiting after its callback ran: `StuckStepIff`, over runs `StuckIffRevived` and
  `ObstructionWasRevived`. Concrete runs are `RevivalBlocksShutdown` and `WaitingFreesIt`.
- Each call of `getParentTypes` on a type with grandparents lengthens the registry's list once more, with repetitions:
  the last clause of `GetParentTypes`. The sets of ancestors nevertheless never change.

The slot balance is claimed for `executions.mode` = `regular` only: outside it, a new execution is not throttled
(packages/cli/src/active-executions.ts:74), but its callback still calls `release`. `RunBalances` counts these bypasses.

Deferred promises settle once (section 27.2.1.3 of ECMA-262, 14th edition); the range of `forEach` is fixed when it
starts (section 23.1.3.15).

## Model

| member | source | states |
|---|---|---|
| `ConcurrencyQueues.FindIndex` | packages/cli/src/concurrency/concurrency-queue.ts:46 | The first queued entry of an execution, or the length of the queue when there is none. |
| `ConcurrencyQueues.SlotsAreConserved` | packages/cli/src/concurrency/concurrency-queue.ts:22-75 | After any operations, capacity = limit - admitted and unreleased - waiting, and nobody waits while a slot is free. |
| `ConcurrencyQueues.FirstInFirstOut` | packages/cli/src/concurrency/concurrency-queue.ts:22-75 | After any operations, those let through followed by those waiting are the callers in order of arrival, less the removed ones. |
| `ConcurrencyQueues.StepWithinLimit` | packages/cli/src/concurrency/concurrency-queue.ts:22-75 | One operation exceeds the limit if and only if it removes an execution from a queue of two or more. |
| `ConcurrencyQueues.LimitHoldsIffNoOvertake` | packages/cli/src/concurrency/concurrency-queue.ts:45-75 | The limit holds at every point of a run if and only if no removal in it hit a queue of two or more. |
| `ConcurrencyQueues.RemoveOverAdmits` | packages/cli/src/concurrency/__tests__/concurrency-queue.test.ts:52-56 | With limit 1, removing one of two waiting executions leaves two running. |
| `ConcurrencyQueues.RemoveAllStartsHalf` | packages/cli/src/concurrency/concurrency-control.service.ts:145-151 | When no execution is queued twice, removing the ids of `getAll` one by one drops every other entry, starts the rest, leaves nobody, and gives half of the capacity back. |
| `ConcurrencyQueues.EmptyingReleasesAllIff` | packages/cli/src/concurrency/concurrency-control.service.ts:145-151 | For every queue: removing the ids of `getAll` brings all capacity back and leaves nobody, and starts nothing, if and only if at most one entry is queued. |
| `ConcurrencyQueues.RemoveEachCounts` | packages/cli/src/concurrency/concurrency-control.service.ts:148-150 | Each entry is dropped, started or left, and each dropped one gives one unit of capacity back. |
| `ConcurrencyQueues.LeftoversAreRepeated` | packages/cli/src/concurrency/concurrency-control.service.ts:146-150 | What stays queued is an execution of which another entry was dropped. |
| `ConcurrencyQueues.EmptiesOnlyIf` | packages/cli/src/concurrency/concurrency-control.service.ts:146-150 | A queue ends empty only if it holds at most twice as many entries as distinct executions. |
| `ConcurrencyQueues.RepeatedIdsStayQueued` | packages/cli/src/concurrency/concurrency-control.service.ts:146-150 | An execution queued three times: one entry is dropped, one started, one stays queued. |
| `ConcurrencyControl.RemoveAllReleasesAllIff` | packages/cli/src/concurrency/concurrency-control.service.ts:137-151 | While the service is on, `removeAll` brings all capacity back, and starts nothing, if and only if no queue holds more than one entry. |
| `ConcurrencyControl.RemoveAllHalves` | packages/cli/src/concurrency/concurrency-control.service.ts:142-151 | Without repeated ids it leaves a queue empty with half of the capacity back. |
| `ConcurrencyControl.RemoveAllCancels` | packages/cli/src/concurrency/concurrency-control.service.ts:142-160 | It hands the given executions to the repository for cancellation if and only if the service is on, and leaves the limits and the switch alone. |
| `Slots.SaneThrottle` | packages/cli/src/active-executions.ts:74-82 | Throttling a call keeps every queue and its capacity in agreement with the calls that hold or await a slot. |
| `Slots.SaneRelease` | packages/cli/src/active-executions.ts:114 | So does the release in a settle callback, which may let the next waiting call through. |
| `Slots.SaneRemove` | packages/cli/src/executions/execution.service.ts:451-453 | So does a removal from the queue, which strands one call and may let another through. |
| `Invariants.NextKeeps` | packages/cli/src/active-executions.ts:49-266 | Every step of every method keeps the slot books, the link of each record to its call, and the keys of the map. |
| `Invariants.RunKeeps` | packages/cli/src/active-executions.ts:49-266 | Every interleaving of any length keeps them. |
| `Invariants.MethodsOnlyTouchRecords` | packages/cli/src/active-executions.ts:133-225 | Attaching, resolving, stopping, finalising and setting a status move no slot, no call and no settled promise, and add no entry. |
| `Invariants.ShutdownNeverCancels` | packages/cli/src/active-executions.ts:233-254 | At shutdown the service is off before `removeAll` is called, so the queued calls stay as they are. |
| `SlotTheorems.StartIsSound` | packages/cli/src/concurrency/concurrency-control.service.ts:40-68 | A fresh process meets the invariant and its limits, for all limits the constructor accepts. |
| `SlotTheorems.SlotsBalance` | packages/cli/src/active-executions.ts:71-122 | In every reachable state a queue holds as many entries as calls of its kind are queued. While the service is on, the capacity taken is that of the calls past the throttle and unreleased, failed ones included, plus those queued, and a queue is empty while a slot is free. |
| `SlotTheorems.StepWithinLimits` | packages/cli/src/active-executions.ts:71-122 | Whether the service is on or off, a step exceeds a kept limit if and only if it removes an execution from a queue in which another one waits, or is a call that finds the service turned off and its kind at the limit. |
| `SlotTheorems.LimitKeptIffNoExcess` | packages/cli/src/active-executions.ts:49-254 | The limits hold throughout a run, whatever the interleaving, if and only if no such step occurs in it. |
| `SlotTheorems.HoldingOff` | packages/cli/src/concurrency/concurrency-control.service.ts:113-126 | While the service is off, each call that would have been throttled adds one to the slots held of its kind, and no other step adds any. |
| `SlotTheorems.RunningWithinLimit` | packages/cli/src/active-executions.ts:95-114 | While the limits are kept, with the service on or off, at most that many records of a limited kind are registered with their callback still to run. |
| `Modes.ProductionLimit` | packages/cli/src/concurrency/concurrency-control.service.ts:194-211 | In every state reached in regular mode with production limit P > 0, without removals or shutdown: at most P webhook and trigger executions together are past the throttle; the next one of either mode, resumed or new, goes through if fewer are and is queued otherwise. |
| `Modes.EvaluationLimit` | packages/cli/src/concurrency/concurrency-control.service.ts:194-211 | The same for evaluation executions and the evaluation limit. |
| `Modes.LimitedModes` | packages/cli/src/concurrency/concurrency-control.service.ts:40-68 | Only a zero limit is refused. Otherwise webhook and trigger are limited if and only if the production limit is positive, evaluation if and only if its own is, and nothing else, and nothing in queue mode. |
| `Modes.FreshQueues` | packages/cli/src/concurrency/concurrency-control.service.ts:45-68 | Each positive limit gives an empty queue with that capacity; a negative one counts as -1 and gives none. |
| `Modes.OtherModesPass` | packages/cli/src/concurrency/concurrency-control.service.ts:194-204 | Cli, error, integrated, internal, manual and retry executions are let through in every state, whatever the limits. |
| `Modes.UnlimitedPasses` | packages/cli/src/concurrency/concurrency-control.service.ts:113-135 | Where the service does not limit a mode, a throttle lets the call through at once, and a release or removal touches nothing. |
| `Modes.NegativeLimitsPass` | packages/cli/src/concurrency/concurrency-control.service.ts:45-68 | With a negative limit its modes are unlimited in every reachable state. |
| `ThrottleBalance.StepBalances` | packages/cli/src/active-executions.ts:71-122 | In each step and for each mode, calls become outstanding only by a completed throttle or by bypassing it, and stop only by a release. |
| `ThrottleBalance.RunBalances` | packages/cli/src/active-executions.ts:71-122 | Over every run and for each mode, in any `executions.mode`: throttles + bypasses = releases + calls outstanding. |
| `ThrottleBalance.ThrottlesBalance` | packages/cli/src/active-executions.ts:71-122 | In regular mode, for each mode: completed throttles = releases + records whose callback has not run + calls past the throttle that have not registered, failed ones included. |
| `ThrottleBalance.BackedRun` | packages/cli/src/active-executions.ts:95-105 | In every reachable state each registered call has its record. |
| `History.NextIsLater` | packages/cli/src/active-executions.ts:49-266 | No step unsettles a promise, takes back a callback, moves a call that ended, or changes an answered response promise. |
| `History.RunIsLater` | packages/cli/src/active-executions.ts:49-266 | Nor does any run. |
| `History.PromiseSettlesOnce` | packages/cli/src/active-executions.ts:107-122 | Once a post-execution promise is settled, what its waiters see never changes. |
| `History.StopWins` | packages/cli/src/active-executions.ts:150-175 | After a pending execution that is not waiting is stopped, no later finalisation shows; its callback runs at most once, and is due until it has run. |
| `History.CallbackRunsOnce` | packages/cli/src/active-executions.ts:108-122 | A record's callback occurs in a run exactly as often as it newly ran, so at most once; hence each `add` releases at most once. |
| `History.FailedCallsKeepTheirSlot` | packages/cli/src/active-executions.ts:74-93 | A call that failed after the throttle holds its slot in every later state; the exact condition is `SlotLeaks.SlotReturnsIff`. |
| `History.LostStays` | packages/cli/src/active-executions.ts:95-266 | No step settles a pending record that its id no longer leads to, or brings it back. |
| `History.LostForever` | packages/cli/src/active-executions.ts:95-266 | Such a record's callback never runs and its call never releases, in any run. |
| `Outcomes.RegisteredRuns` | packages/cli/src/active-executions.ts:95-122 | A call that registers a non-empty id, resumed or new, gives a record that is running in every later state until its status is set, whatever stood under the id before; its callback then takes the id's entry out. |
| `Outcomes.RegistersFreshRecord` | packages/cli/src/active-executions.ts:95-126 | Registering puts a fresh record under the id: running (new only for a resumed call with an empty id), pending, callback not run, no workflow execution, the mode of the call; start time and response promise as the old entry's, else new; nothing else changes. |
| `Outcomes.StatusStays` | packages/cli/src/active-executions.ts:223-225 | Without a `setStatus` for its id, a record's status never changes. |
| `Outcomes.FinalizeDelivers` | packages/cli/src/active-executions.ts:170-175 | After a pending execution is finalised with a run, its promise is resolved with that run in every later state, whatever is stopped, finalised or swept; its callback runs at most once and is due until it has. |
| `Outcomes.FinalizeSettles` | packages/cli/src/active-executions.ts:170-175 | Finalising resolves the promise of the id's entry with the run if pending, and changes nothing else. |
| `Outcomes.WaitingHoldsNoRun` | packages/cli/src/active-executions.ts:115-117 | After the callback of a waiting record, in every later state until a workflow execution is attached to its id, it holds none, and stopping its entry cancels no run. |
| `Outcomes.NoWorkflowUntilAttached` | packages/cli/src/active-executions.ts:133-135 | A record without a workflow execution stays so until one is attached to its id. |
| `Outcomes.CallbackForgets` | packages/cli/src/active-executions.ts:108-122 | A callback changes only its own record: a waiting one forgets its workflow execution and its entry stays, any other loses the entry of its id; all else of the record stays. |
| `Outcomes.StopDoes` | packages/cli/src/active-executions.ts:150-167 | Stopping refuses an unanswered response promise; a waiting entry is deleted, for any other its run is cancelled and its promise, if pending, rejected; no other record, answer or entry changes. |
| `Outcomes.StoresArgument` | packages/cli/src/active-executions.ts:133-225 | `attachWorkflowExecution`, `attachResponsePromise` and `setStatus` store their argument in the record of the id, and change nothing else. |
| `Outcomes.AbsentIdChangesNothing` | packages/cli/src/active-executions.ts:133-225 | A method called with an id that has no entry changes nothing. |
| `Outcomes.Answers` | packages/cli/src/active-executions.ts:144-191 | A response promise gets the given answer, or the empty one unless the execution is waiting, if it has none yet; no other promise changes. |
| `Outcomes.AnswerStands` | packages/cli/src/active-executions.ts:144-147 | An unanswered response promise that is answered with a value has that answer in every later state. |
| `Outcomes.SweepRefuses` | packages/cli/src/active-executions.ts:240-252 | The sweep refuses exactly the unanswered response promises of the entries. |
| `Outcomes.SweepCancels` | packages/cli/src/active-executions.ts:240-252 | The sweep cancels exactly the workflow executions of the entries it stops that are not waiting. |
| `Outcomes.BeginsCall` | packages/cli/src/active-executions.ts:49-82 | A new execution waits for its id; a resumed one is let through, or is queued and then stands last in the queue of its mode; no other call moves. |
| `Outcomes.CreatedNames` | packages/cli/src/active-executions.ts:71-78 | The call takes the new id and goes on as a resumed one does; an empty id fails it; outside regular mode it goes through and no queue changes. |
| `Outcomes.FailuresMark` | packages/cli/src/active-executions.ts:71-92 | A failing repository call ends this call of `add` only, recording whether it is past the throttle. |
| `Outcomes.SettleStarts` | packages/cli/src/active-executions.ts:108-114 | A callback of a limited mode releases its call, gives one unit of capacity back and starts exactly the head of that queue, if any; no other call or queue changes. |
| `Outcomes.SettleUnlimited` | packages/cli/src/active-executions.ts:108-114 | A callback of a mode without a limit releases its call and touches no queue. |
| `Outcomes.RemovalStrands` | packages/cli/src/executions/execution.service.ts:451-453 | Removing one of several queued executions strands its first queued call and starts the then first one in that queue; no other call moves. |
| `Outcomes.RemovalOfOnly` | packages/cli/src/executions/execution.service.ts:451-453 | Removing the only queued one strands it; no other call moves. |
| `Outcomes.RemovalShortens` | packages/cli/src/executions/execution.service.ts:451-453 | The queue loses the removed entry and then its head, and gets one unit of capacity back; no other queue changes. |
| `Outcomes.RemovalOfAbsent` | packages/cli/src/executions/execution.service.ts:451-453 | Removing an execution that is not queued, or whose mode is unlimited, changes nothing. |
| `SlotLeaks.SlotReturnsIff` | packages/cli/src/active-executions.ts:71-122 | A call past the throttle and unreleased has a continuation in which its callback is due and the service counts the release, if and only if the service limits its mode now and the call is yet to register or its record is not lost. |
| `SlotLeaks.ReachedSlotReturnsIff` | packages/cli/src/active-executions.ts:71-122 | The same in every reachable state, for every mode and all limits. |
| `SlotLeaks.RegisteredReleasesIff` | packages/cli/src/active-executions.ts:105-122 | The callback of a registered call can still run if and only if its record is not lost. |
| `SlotLeaks.ReleasesIff` | packages/cli/src/active-executions.ts:71-122 | The callback of an outstanding call can still run if and only if the call is yet to register or its record is not lost. |
| `SlotLeaks.FailedNeverReleases` | packages/cli/src/active-executions.ts:74-93 | A failed call has no continuation that releases it, and no record. |
| `Starvation.QueuedStartsIff` | packages/cli/src/active-executions.ts:74-114 | A queued call, at any place in its queue, can get past the throttle without a removal, if and only if the service is on and at least one slot of its kind can come back. |
| `Starvation.ReachedQueuedStartsIff` | packages/cli/src/active-executions.ts:74-114 | The same in every reachable state, for all limits. |
| `Starvation.Reaches` | packages/cli/src/concurrency/concurrency-control.service.ts:122-126 | One slot that can come back starts the head of the queue, which can return it in turn, and so on to any place in the queue. |
| `Starvation.StarvedForever` | packages/cli/src/concurrency/concurrency-control.service.ts:113-126 | Without one, or with the service off, no steps but removals move the queue. |
| `Ownership.OwnDeletionsIff` | packages/cli/src/active-executions.ts:95-122 | After a step all due deletions are still of the record's own entry if and only if the step did not register an id with a due deletion. |
| `Ownership.NewEntryIsDeleted` | packages/cli/src/active-executions.ts:105-119 | Registering such an id lets the old callback, which can run next, delete the new record's entry; the new record is then lost. |
| `Ownership.CallbacksDeleteOwnIff` | packages/cli/src/active-executions.ts:95-122 | Over every run, with any number of resumptions and late callbacks: at each point all due deletions are of the own entry, if and only if no id with a due deletion is registered. |
| `Ownership.OwnDeletionsMeans` | packages/cli/src/active-executions.ts:113-121 | All due deletions are of the own entry if and only if no callback that can run next takes another record's entry out of the map. |
| `Ownership.CallbackTouchesOwnEntry` | packages/cli/src/active-executions.ts:113-121 | A callback then removes its own entry unless waiting, and keeps every other entry. |
| `Ownership.DisciplineSuffices` | packages/cli/src/active-executions.ts:95-105 | Registering only when every earlier record of the id is waiting or has run its callback is never such a registration. |
| `Ownership.DisciplinedRuns` | packages/cli/src/active-executions.ts:95-122 | Under that discipline, callbacks only delete their own entries in every run. |
| `Ownership.PendingLeavesIff` | packages/cli/src/active-executions.ts:105-252 | In any state, a pending record leaves the map if and only if it is stopped while waiting, dropped by the sweep, replaced by a registration, or deleted by the due callback of another record of its id; it is then lost. |
| `Ownership.LeavesOnlySettled` | packages/cli/src/active-executions.ts:105-252 | Under the discipline, a record neither waiting nor new leaves the map only after its own promise settled. |
| `Ownership.ReachedLeavesOnlySettled` | packages/cli/src/active-executions.ts:105-252 | The same in every state disciplined callers can reach. |
| `Ownership.EntryKeeps` | packages/cli/src/active-executions.ts:95-105 | A step that leaves an id in the map keeps its start time, and its response promise unless it attaches one. |
| `Ownership.ResumptionKeeps` | packages/cli/src/active-executions.ts:95-142 | While an id stays in the map its start time never changes, over any number of resumptions, and its response promise changes only by being attached. |
| `Draining.SweepOneStep` | packages/cli/src/active-executions.ts:242-252 | One round of the sweep takes the state with some entries visited to the one with this entry visited too. |
| `Draining.SweepOrderIrrelevant` | packages/cli/src/active-executions.ts:240-252 | The loop over the keys, in whatever order, does to each entry what it does to it alone. |
| `Draining.AfterTheSweep` | packages/cli/src/active-executions.ts:240-252 | Afterwards no entry is waiting, and an entry still new has a settled promise. |
| `Draining.WhoIsStopped` | packages/cli/src/active-executions.ts:240-254 | `toCancel` is exactly the ids with a response promise, or all of them in regular mode with `cancelAll`; which entries stay, which are settled, and that the others are untouched. |
| `Draining.DrainSettle` | packages/cli/src/active-executions.ts:108-122 | After the sweep, the callback of a record that is not waiting takes the entry of its id out, so the map gets smaller by one if there is such an entry; the record of an entry is never waiting. |
| `Draining.BlockKept` | packages/cli/src/active-executions.ts:108-265 | While nothing registers and nothing is set to waiting, no step makes an entry blocking or frees a blocking one. |
| `Draining.DrainKeepsMap` | packages/cli/src/active-executions.ts:129-225 | While nothing registers or is set to waiting, no other step changes the map. |
| `Draining.DrainRun` | packages/cli/src/active-executions.ts:256-265 | Over a run in which nothing registers and nothing is set to waiting, the map only loses entries, nothing is waiting, and whether any entry blocks stays the same. |
| `Draining.DrainEndsIffNoneObstructs` | packages/cli/src/active-executions.ts:240-265 | If nothing registers and nothing is set to waiting after the sweep, then once every remaining promise has settled and every callback has run, the map is empty, so the loop exits, if and only if no entry obstructed when `shutdown` was called: one that survives the sweep with its callback run, and that no due callback will delete. |
| `Draining.CanDrainIffNoneObstructs` | packages/cli/src/active-executions.ts:240-265 | There are steps after the sweep that empty the map without freeing a blocking entry, if and only if no entry obstructed. |
| `Draining.ObstructedUntilFreed` | packages/cli/src/active-executions.ts:240-265 | Until it is freed, an obstructing entry stays in the map, whatever other executions do: register, wait, settle. |
| `Draining.FreedIff` | packages/cli/src/active-executions.ts:95-252 | In any state, a step frees a blocking entry if and only if it registers its id anew, sets it to waiting, or is a sweep that drops it. |
| `Draining.BlocksUntilFreed` | packages/cli/src/active-executions.ts:95-252 | Over every run, an entry blocks throughout if and only if no step frees it. |
| `Draining.StuckStepIff` | packages/cli/src/active-executions.ts:223-225 | A step makes an entry one that is not waiting although its callback has run, if and only if it sets it to a status other than waiting after its callback ran. |
| `Draining.StuckIffRevived` | packages/cli/src/active-executions.ts:115-225 | A run makes an entry so, at some point, if and only if such a step occurs in it. |
| `Draining.ObstructionWasRevived` | packages/cli/src/active-executions.ts:115-252 | From the start of a process, an entry that obstructs was set so before. |
| `ConcreteRuns.OverlappingResumeLosesRecord` | packages/cli/src/active-executions.ts:95-122 | A concrete run: resuming an execution whose run is just finishing leaves the resumed record out of the map, pending. |
| `ConcreteRuns.RevivalBlocksShutdown` | packages/cli/src/active-executions.ts:115-265 | A concrete run: an execution waits, its run ends, it is set to running; its entry then keeps the shutdown waiting until its id is registered anew, set to waiting, or swept. |
| `ConcreteRuns.WaitingFreesIt` | packages/cli/src/active-executions.ts:150-225 | Setting it to waiting and stopping it empties the map. |
| `ConcreteRuns.FailedUpdateLeaksSlot` | packages/cli/src/active-executions.ts:74-93 | A concrete run at limit 1: the first execution cannot be set running; the second is queued though nothing runs, no continuation releases the slot, and without a removal none starts the second. |
| `ConcreteRuns.LateCallExceedsLimit` | packages/cli/src/concurrency/concurrency-control.service.ts:113-114 | A concrete run at limit 1 without removals: a call, a shutdown, and another call leave two slots held. |
| `CredentialTypes.GrowingKeepsAncestors` | packages/cli/src/credential-types.ts:27-33 | Lists that only grow at their end, and by ancestors, leave the ancestors of every type as they were. |
| `CredentialTypes.GrownTwice` | packages/cli/src/credential-types.ts:29-31 | Growing twice is growing once. |
| `CredentialTypes.AnyCallsKeepAncestors` | packages/cli/src/credential-types.ts:26-34 | After any number of calls in any order, the ancestors are those of the first registry. |
| `CredentialTypes.RankDecreases` | packages/cli/src/credential-types.ts:30 | A parent has fewer ancestors than its child, even in the grown registry; so the recursion ends. |
| `CredentialTypes.PushKeepsGrown` | packages/cli/src/credential-types.ts:29-31 | Pushing the ancestors of a parent onto the list being iterated is growing it by ancestors. |
| `CredentialTypes.AllCollected` | packages/cli/src/credential-types.ts:28-33 | Parents and their ancestors are all ancestors there are, and the registry stays acyclic. |
| `Paging.PageSizes` | workflows/n8n_download.py:321-326 | A page is full exactly when it is among the first floor(T / P); the next one reaches the end of the list. |
| `TemplateDownload.FetchBound` | workflows/n8n_download.py:119-201 | Whatever the server does, at most K * (floor(T / P) + 1) page fetches. |
| `TemplateDownload.ScriptFetchBound` | workflows/n8n_download.py:17-125 | With the script's constants, at most 5 * floor(T / 250) + 5. |
| `TemplateDownload.AnsweredInOrder` | workflows/n8n_download.py:143-328 | The pages processed are strictly increasing, and each lies within the list. |
| `TemplateDownload.ProcessedOnceInOrder` | workflows/n8n_download.py:203-326 | The entries processed are those of the list at strictly increasing positions. |
| `TemplateDownload.CompleteIff` | workflows/n8n_download.py:143-328 | All entries are processed, once each and in order, if and only if no fetch for a page with entries is answered by anything but a page or a network error, or completes K failures in a row. |
| `TemplateDownload.MissedIffLoss` | workflows/n8n_download.py:143-328 | From any point of the walk: every page with entries is reached and none skipped, if and only if no later fetch loses one. |
| `TemplateDownload.RetriesLoseNothing` | workflows/n8n_download.py:167-175 | If only network errors occur, and never K in a row, every entry is processed exactly once. |
| `TemplateDownload.EveryEntryAccounted` | workflows/n8n_download.py:205-314 | After every entry: processed = downloaded + skipped + fetched but nowhere saved; downloaded counts exactly the entries on disk, and errors the failed or unexpected entries and the failed writes. |
| `TemplateDownload.SaveEntry` | workflows/n8n_download.py:282-305 | The write loop: saved if and only if some write worked, and one error for each that did not. |
| `TemplateDownload.ProcessEntry` | workflows/n8n_download.py:206-314 | The four counters after one entry, for every way it can end. |
| `TemplateDownload.ProcessPage` | workflows/n8n_download.py:205-314 | The counters after a page are those of all entries processed so far. |
| `TemplateDownload.ProcessAnswer` | workflows/n8n_download.py:196-323 | A page's entries are appended in order; the loop ends if and only if the page is not full. |
| `TemplateDownload.Round` | workflows/n8n_download.py:143-328 | One round of the page loop, for every outcome of the fetch. |
| `TemplateDownload.DownloadTemplates` | workflows/n8n_download.py:94-344 | The loop ends within the fetch bound, having processed exactly the entries of the answered pages in order, with the counters to match. |
| `TemplateSearch.MatchingFilters` | workflows/n8n_search.py:109-122 | The matches are the entries in which all keywords occur, in list order, each once. |
| `TemplateSearch.MatchesIff` | workflows/n8n_search.py:111-116 | An entry matches if and only if every keyword stands somewhere in its lowered name, a blank, and its lowered description; a missing one counts as empty. |
| `TemplateSearch.ContainsAt` | workflows/n8n_search.py:116 | A word is in a text if and only if it stands at some position of it. |
| `TemplateSearch.ShownFields` | workflows/n8n_search.py:118-121 | A match keeps the id and the name; a missing name becomes "Unnamed Workflow". |
| `TemplateSearch.FindMatchingTemplates` | workflows/n8n_search.py:77-132 | Without errors, floor(T / P) + 1 fetches and the filter of the whole list; else it stops at the first fetch without a page, with the filter of the pages before. |
| `TemplateSearch.FilterPage` | workflows/n8n_search.py:109-122 | The loop over one page extends the filter of the list to the end of the page. |
| `TemplateSearch.FirstBad` | workflows/n8n_search.py:86-107 | The first of the needed fetches that does not bring a page, all before it having brought one. |
| `TemplateSearch.WholeListIffNoError` | workflows/n8n_search.py:86-126 | The whole list is filtered if and only if each of the first floor(T / P) + 1 fetches brings a page. |
| `TemplateSearch.SplitJoins` | workflows/n8n_search.py:45 | Splitting at commas loses nothing and leaves no comma. |
| `TemplateSearch.SplitConcat` | workflows/n8n_search.py:45 | Splitting two texts joined by a comma splits each. |
| `TemplateSearch.ParsePart` | workflows/n8n_search.py:46-73 | The numbers one part stands for: those of a range, exactly the number for a single one, or none when malformed or out of bounds. |
| `TemplateSearch.ParseSelection` | workflows/n8n_search.py:39-75 | Exactly the union over the parts. |
| `TemplateSearch.UnionOfParts` | workflows/n8n_search.py:45-75 | A number is selected if and only if some part names it, and it lies within 1..max. |
| `TemplateSearch.PartNumbers` | workflows/n8n_search.py:46-73 | A part stands for the numbers between its bounds if it has bounds and 1 <= low and high <= max; the bounds of a single number and of a range are those of `SingleNumber` and `NumberRange`. |
| `TemplateSearch.SelectionConcat` | workflows/n8n_search.py:45-75 | A selection joined by a comma selects the union of both halves. |
| `TemplateSearch.WholeRange` | workflows/n8n_search.py:50-59 | "1-n" selects 1 to n. |
| `TemplateSearch.SingleNumber` | workflows/n8n_search.py:63-73 | A number n, with or without blanks around it, selects {n} if 1 <= n <= max and nothing otherwise; a text that is no number selects nothing. |
| `TemplateSearch.NumberRange` | workflows/n8n_search.py:50-62 | "a-b", with or without blanks anywhere around its numbers, selects exactly the numbers from a to b if 1 <= a <= b <= max, and nothing if not, or if either is no number. |
| `TemplateSearch.TwoNumbers` | workflows/n8n_search.py:45-73 | "a,b" of two numbers in range selects exactly those two. |
| `TemplateSearch.NoneChoosesNothing` | workflows/n8n_search.py:241-244 | Answering "none" chooses nothing. |
| `TemplateSearch.AscendingSorts` | workflows/n8n_search.py:261 | Sorting the selected numbers: strictly increasing, the same members. |
| `TemplateSearch.SelectIndices` | workflows/n8n_search.py:236-256 | The prompt is repeated until an input is "none", "all", or selects something; that input decides. |
| `TemplateSearch.Pick` | workflows/n8n_search.py:261 | Every access is in bounds; the result is the selected matches, each once, in the order of the matches. |
| `TemplateSearch.Choose` | workflows/n8n_search.py:235-261 | From the inputs to the templates to download: the matches that the deciding input selects. |
| `TemplateSearch.AllChoosesAll` | workflows/n8n_search.py:245-261 | "all" and "1-n" both choose exactly the list of matches. |
| `Filenames.DownloadNameIsClean` | workflows/n8n_download.py:61-92 | For every input, string or not: non-empty, at most 150 characters, no forbidden character, no stripped character at either end, no two adjacent underscores. |
| `Filenames.CleanNamesAreKept` | workflows/n8n_download.py:61-92 | Both normalisers leave every such name alone. |
| `Filenames.DownloadNamesAreFixed` | workflows/n8n_download.py:61-92 | The download version is idempotent, and its results are fixed points of the search version. |
| `Filenames.DownloadNameIs` | workflows/n8n_download.py:67-92 | The download name of every string, read off it in one pass: its words, less removed characters, joined by one underscore a run of separators; cut to 150 characters, less one if that ends in an underscore; the default name if no character is left. |
| `Filenames.NonStrings` | workflows/n8n_download.py:63-65 | Both normalisers turn a non-string into "invalid_name". |
| `Filenames.FinishDrops` | workflows/n8n_download.py:80-92 | Stripping and cutting drop only dots, underscores and blanks at the ends, all of them, and what is beyond 150 characters; a text of nothing else gets the default name. |
| `Filenames.SearchNameIsTrimmed` | workflows/n8n_search.py:27-37 | For every input: non-empty, at most 150 characters, no forbidden character or white space, no stripped character at either end. |
| `Filenames.SearchNamesAreFixed` | workflows/n8n_search.py:27-37 | The search version is idempotent. |
| `Filenames.SearchNameIs` | workflows/n8n_search.py:27-37 | The search name of every string: each run of white space and each forbidden character spelled as one underscore, then finished as `FinishDrops` says. |
| `HtmlEncoding.EncodedConcat` | cypress/pages/ndv.ts:353-360 | The encoding of a concatenation is the concatenation of the encodings. |
| `HtmlEncoding.References` | cypress/pages/ndv.ts:353-360 | The five references by name; every other character stands for itself. |
| `HtmlEncoding.SequentialIsSimultaneous` | cypress/pages/ndv.ts:353-360 | The five replacements in sequence equal one simultaneous replacement of each character by its reference. |
| `HtmlEncoding.DecodeEncode` | cypress/pages/ndv.ts:353-360 | Reading the references back gives the text. |
| `HtmlEncoding.EncodingIsInjective` | cypress/pages/ndv.ts:353-360 | Different texts have different encodings. |
| `ConcurrencyQueues.ConcurrencyQueue.constructor` | packages/cli/src/concurrency/concurrency-queue.ts:18-20 | A new queue has its whole capacity and nobody waiting. |
| `ConcurrencyQueues.ConcurrencyQueue.Enqueue` | packages/cli/src/concurrency/concurrency-queue.ts:22-33 | Takes one unit of capacity; the caller goes on unless the capacity went negative, else it is queued last. |
| `ConcurrencyQueues.ConcurrencyQueue.Dequeue` | packages/cli/src/concurrency/concurrency-queue.ts:39-43 | Gives one unit back and resolves the head of the queue, if any. |
| `ConcurrencyQueues.ConcurrencyQueue.Remove` | packages/cli/src/concurrency/concurrency-queue.ts:45-55 | Splices out the first entry of the execution, gives its unit back, and resolves the then first one; without such an entry nothing changes. |
| `ConcurrencyQueues.ConcurrencyQueue.ResolveNextWaiter` | packages/cli/src/concurrency/concurrency-queue.ts:65-75 | Shifts exactly the head of the queue and resolves it. |
| `ConcurrencyControl.ConcurrencyControlService.constructor` | packages/cli/src/concurrency/concurrency-control.service.ts:32-72 | Limits below -1 become -1; the service is on unless all are unlimited or the process is in queue mode; one queue per positive limit. |
| `ConcurrencyControl.ConcurrencyControlService.AddQueue` | packages/cli/src/concurrency/concurrency-control.service.ts:59-68 | Only a positive limit adds a queue, with that capacity. |
| `ConcurrencyControl.ConcurrencyControlService.Throttle` | packages/cli/src/concurrency/concurrency-control.service.ts:113-117 | Enqueues in the queue of the mode, or lets the caller through when the service is off or the mode unlimited; which modes share which limit is `Modes.ProductionLimit`, `Modes.EvaluationLimit` and `Modes.OtherModesPass`. |
| `ConcurrencyControl.ConcurrencyControlService.Release` | packages/cli/src/concurrency/concurrency-control.service.ts:122-126 | Dequeues from the queue of the mode, if it is limited. |
| `ConcurrencyControl.ConcurrencyControlService.Remove` | packages/cli/src/concurrency/concurrency-control.service.ts:131-135 | Removes the execution from the queue of the mode, if it is limited, with the effect of the queue's own removal. |
| `ConcurrencyControl.ConcurrencyControlService.RemoveAll` | packages/cli/src/concurrency/concurrency-control.service.ts:142-160 | When on, removes each distinct queued id once, from the production queue and then the evaluation queue, and hands the given executions to the repository for cancellation; when off, does nothing. |
| `ConcurrencyControl.ConcurrencyControlService.EmptyQueueOf` | packages/cli/src/concurrency/concurrency-control.service.ts:145-151 | Removes each distinct id queued in the queue of one kind, if that queue exists, and leaves the other alone. |
| `ConcurrencyControl.ConcurrencyControlService.EmptyQueue` | packages/cli/src/concurrency/concurrency-control.service.ts:146-150 | Removes each distinct id queued at the start, in order, with all effects of those removals. |
| `ConcurrencyControl.ConcurrencyControlService.DisableControl` | packages/cli/src/concurrency/concurrency-control.service.ts:162-164 | Turns the service off and changes nothing else. |
| `ActiveExecutionsClass.Execution.constructor` | packages/cli/src/active-executions.ts:96-104 | A new record is pending and has no workflow execution. |
| `ActiveExecutionsClass.ActiveExecutions.constructor` | packages/cli/src/active-executions.ts:32-40 | No execution is active and the concurrency service is fresh. |
| `ActiveExecutionsClass.ActiveExecutions.Add` | packages/cli/src/active-executions.ts:49-82 | `add` up to its first `await`: a new execution waits for its id, a resumed one is throttled. |
| `ActiveExecutionsClass.ActiveExecutions.Throttle` | packages/cli/src/active-executions.ts:75 | The call is queued, and let through at once if the service lets it. |
| `ActiveExecutionsClass.ActiveExecutions.ExecutionCreated` | packages/cli/src/active-executions.ts:71-77 | An empty id fails the call; a new id is throttled in regular mode only. |
| `ActiveExecutionsClass.ActiveExecutions.AddFails` | packages/cli/src/active-executions.ts:71-92 | A failing repository call ends the call of `add`, before or after the throttle. |
| `ActiveExecutionsClass.ActiveExecutions.RemoveFromQueue` | packages/cli/src/executions/execution.service.ts:451-453 | The removed call is stranded, and the call the queue then resolves goes on. |
| `ActiveExecutionsClass.ActiveExecutions.Register` | packages/cli/src/active-executions.ts:95-126 | The rest of `add`: a fresh pending record under the id, over whatever was there, with the fields of `RegistersFreshRecord`. |
| `ActiveExecutionsClass.ActiveExecutions.SettleCallback` | packages/cli/src/active-executions.ts:108-122 | Releases the slot of the record's mode; a waiting record only forgets its workflow execution (`CallbackForgets`), otherwise the entry of its id is deleted. |
| `ActiveExecutionsClass.ActiveExecutions.StopExecution` | packages/cli/src/active-executions.ts:150-167 | The response promise is rejected; a waiting entry is deleted, any other is cancelled and its promise rejected if pending; an absent id changes nothing. |
| `ActiveExecutionsClass.ActiveExecutions.FinalizeExecution` | packages/cli/src/active-executions.ts:170-175 | Resolves a pending post-execution promise with the run (`FinalizeSettles`); an absent id changes nothing. |
| `ActiveExecutionsClass.ActiveExecutions.SetStatusOf` | packages/cli/src/active-executions.ts:223-225 | Sets the status of the entry; throws if and only if there is none. |
| `ActiveExecutionsClass.ActiveExecutions.AttachWorkflow` | packages/cli/src/active-executions.ts:133-135 | Sets the workflow execution of the entry; throws if and only if there is none. |
| `ActiveExecutionsClass.ActiveExecutions.AttachResponse` | packages/cli/src/active-executions.ts:137-142 | Sets the response promise of the entry; throws if and only if there is none. |
| `ActiveExecutionsClass.ActiveExecutions.ResolveResponse` | packages/cli/src/active-executions.ts:144-147 | Answers the entry's response promise unless it was settled before. |
| `ActiveExecutionsClass.ActiveExecutions.ResolveExecutionResponse` | packages/cli/src/active-executions.ts:178-191 | Answers it with nothing, unless the entry is waiting. |
| `ActiveExecutionsClass.ActiveExecutions.Keys` | packages/cli/src/active-executions.ts:240 | The keys of the map, each once, in some order. |
| `ActiveExecutionsClass.ActiveExecutions.ShutdownSweep` | packages/cli/src/active-executions.ts:232-254 | Shutdown up to its waiting loop, whatever the order of the keys; `toCancel` as in `WhoIsStopped`. |
| `ActiveExecutionsClass.ActiveExecutions.SweepEntries` | packages/cli/src/active-executions.ts:240-252 | The loop over the keys read once at its start; no round reads a missing entry. |
| `ActiveExecutionsClass.ActiveExecutions.SweepEntry` | packages/cli/src/active-executions.ts:243-251 | Stops an entry with a response promise, or any when all are cancelled; else deletes it if waiting or new. |
| `CredentialTypes.CredentialTypeService.GetParentTypes` | packages/cli/src/credential-types.ts:26-34 | For every acyclic registry: ends, returns the live list or a fresh one: the listed parents followed by one list per parent, in their order, each holding exactly that parent's ancestors; so it holds exactly the ancestors before the call. Lists keep their content as a prefix and grow only by ancestors; types that are no ancestors keep theirs; unchanged if and only if no listed type has parents. |
| `CredentialTypes.CredentialTypeService.ForEachParent` | packages/cli/src/credential-types.ts:29-31 | The `forEach`, over the elements present at its start: one round for each of them, in order. |
| `CredentialTypes.CredentialTypeService.PushParentTypes` | packages/cli/src/credential-types.ts:29-31 | One round of the `forEach`: the list grows by exactly what the call for the element returns, its ancestors, and the recursive call leaves the list being iterated alone. |

## Left out

- The execution repository beyond the success or failure of the calls `add` awaits, and beyond the ids handed to `cancelMany`; logging, telemetry and events, the debounced `concurrency-check` included.
- Contents of runs, responses and execution data: promises, runs and workflow executions are numbers. `PCancelable.cancel` records the cancellation and settles nothing by itself.
- Callers that change a record obtained from `getExecutionOrFail`, and a change of `executionMode` after `add` has read it.
- The look-ups `has`, `getStatus`, `getActiveExecutions` and `getPostExecutePromise`.
- The sleeping of the loop at the end of `shutdown`: its exit condition is stated over the steps that can happen meanwhile.
- An unknown execution mode, for which the concurrency service throws.
- Cyclic credential registries, on which `getParentTypes` does not end, and two types sharing one `extends` array. The look-ups `recognizes`, `getByName` and `getSupportedNodes`.
- HTTP sessions, sleeping, prompts, directories and files of the Python scripts: outcomes of fetches and writes are arbitrary inputs. Python's `int` and `str.lower` are parameters.
- The matching of keywords to folders in the download script: how many target folders an entry has is an arbitrary input.
- `download_selected_templates` and the main loop of the search script around the selection.
- Exceptions that the Python scripts do not catch, such as a page that is no JSON object, or an entry of the search whose name is null.
- The rest of the Cypress page objects, the controller registry and server wiring, lint rules and configuration.
