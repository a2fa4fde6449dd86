# Verified model of git-commits-push

This project models the parts of git-commits-push where a mistake would lose or duplicate Git work, and proves
what those parts promise. `dafny verify dfyconfig.toml` checks everything.

**Reconciliation and execution fencing** (`ReconcilerRow`, `Transitions`, `RowUpdates`, `Coordinator`,
`ProcessTable`, `ExecutionBoundary`, `Fencing`, `FencingSteps`, `FencingRuns`, `FencingProgress`,
`FencingRecovery`, `FencingCoalescing`, `FencingUnattended`, `ExecutionController`, `SupervisorPass`,
`FencingOutcomes`). Any number of launchers share one coordinator row. `ReconcilerRow` is the fail-closed reader of
that row; `Transitions` are the seven ways to change it, and `RowUpdates` says of each which columns it writes;
`Coordinator` proves that the column-by-column transactions perform exactly those transitions. `Fencing`
interleaves launchers, controllers, supervisors and the operating system one step at a time, with a crash possible
between any two steps; `FencingSteps` proves the invariant for each of the 27 steps and `FencingRuns` draws the
conclusions for every run; `FencingProgress` shows that executions happen and `FencingRecovery` that no reachable
state is a dead end, `FencingCoalescing` when a merged request is attended, and `FencingUnattended` how it can be
left waiting. `ExecutionBoundary` proves that terminating an execution is a proof of death; `ExecutionController`
is the controller alone, `SupervisorPass` composes it with the launcher's single-use start, and `FencingOutcomes`
puts such a pass into every execution of a run of `Fencing`.

**Retry and fallback** (`RetryPolicy`, `ReplyOutcomes`, `CommitPhase`). Five attempt budgets, a fallback that resets
one of them, loop detection, what every result makes of its repository, and the round that leaves every repository
finished or with exactly one job.

**Publication** (`Publication`, `PushOnly`, `GitRepository`, `PlanFileState`, `Publisher`, `PublishErrors`).
Leased pushes with lost acknowledgements and rival writers, idempotent resumption of a push-only snapshot, and the
multi-commit publisher with its partition into landed commits and pending files, the inspection of a plan that
failed, and the errors a publication ends with.

**Smaller cores** (`DigestStream`, `ReleaseTree`, `ReleaseTreeIdentity`, `Installer`, `MessageRepair`,
`ConventionalCommit`, `BoundedCapture`). The release digest, the crash-safe installer, the commit-message repair
merge, the subject printer and parser, and bounded capture of process output. `Base`, `Plans` and `Sorting` hold
shared vocabulary.

## Form

Code that updates state is a class or a method whose contract ties the new state to a function of the old one;
decisions are functions; what the program promises is proved about those functions as lemmas and kept invariants,
and each decision is also said in other words than its own: by the columns it writes, by what the outside world did,
or by what came back, in the successful cases as in the failures.
The outside world is a parameter: the process table at each instant, what each system or network call meets, what
rival writers do before it, and whether each file-system operation works, fails or is never reached.

`Fencing` assumes, and only these: a coordinator transaction is atomic; owner and execution tokens are fresh; a
pid never gets the same birth identity twice and a process keeps its own; a pid is not handed out while it still
names a process or a group; descendants of an execution stay in its group and no outsider joins it; fewer than
2^53 - 1 registrations are made. Observing a group absent is one step. That this suffices for the sequence of
system calls behind it is `ExecutionBoundary.Terminate`.

## Findings

- A registration at the largest safe integer commits and leaves a row that the reader refuses from then on
  (`Transitions.CounterOverflowIsFatal`). So does a heartbeat, or a finish that goes on, with a time out of range,
  which only registration checks. `Transitions.CallKeepsValidIff` gives the exact condition.
- The controller alone does not prevent two supervisors: two STARTs can pass its guard before either resumes.
  `ExecutionController.SecondSpawnIff` and `SpawnsWereWaiting` say exactly when a second one is possible. The
  single use lies in the launcher, and with it the composition is safe (`SupervisorPass.Containment`).
- A pass can be reported successful although its supervisor did not succeed, in exactly two cases
  (`SupervisorPass.FalseSuccessIff`), both only over a closed channel. The trigger is a fault from outside: no step of
  the program closes the channel while `start` is pending, and a launcher that died never reads the result. If the
  channel closes after start was called but before the spawn, the controller exits 0 and nothing ran
  (`EarlyCloseLooksLikeSuccess`). If it closes later, only unref'd timers may be left once the supervisor's close is
  through: the event loop runs empty, the process ends with code 0, and the supervisor's own code is never looked at
  (`LateCloseLooksLikeSuccess`). Apart from these, a completed generation was answered by a supervisor that exited 0
  (`FencingOutcomes.CompletedWorkWasDone`). The other way round, a success is lost when the close is not heard before
  termination, or the controller is killed after its RESULT (`SupervisorPass.ReturnedPass`).
- Nine retry jobs bound a repository, but the ninth would need a bare push error, which the multi-commit publisher
  never raises: it wraps every push error as a failure after the commits, which is not retried. Without it the
  bound is eight, and eight happen with errors it does raise (`RetryPolicy.JobsAreBounded`,
  `PublishErrors.EightJobsFromRaisedErrors`; which errors those are say `PublishForPolicy` and `Raise`).
- A registration merged into an owner is attended if and only if the launcher whose token the row holds is alive
  and working when the merge commits (`FencingCoalescing.CoalescedIsAttendedIff`); the probe before it does not
  decide that. `FencingUnattended` has runs for four ways it fails: the owner dies between probe and merge; it was
  dead and its pid names a process whose identity cannot be read; it is alive but has left, its release refused
  because an execution is recorded; it is alive but was cancelled and is terminating its execution. The
  generation then waits for the next invocation. An attended one is not forgotten: a pass or preparation that fails
  at an earlier generation keeps the same owner at work on the latest one, so it leaves with the generation pending
  only when it is killed, cancelled or refused, or has failed at a generation at least as late
  (`FencingCoalescing.AttendedOverRuns`).
- A scope that is the empty string prints like no scope, so it does not survive printing and reading
  (`ConventionalCommit.RoundTripIff`).
- A publication failure does not always record every commit that landed. `Publisher.RecordsAllIff` gives the exact
  condition, and there are four ways to lose some: `rev-parse` fails after the commit; `git commit` takes effect and
  reports failure; the cleanup reset fails, or the inspection of the failing plan's files after it throws, and either
  of these loses the whole list. The last needs no fault, only a later plan that names a path git refuses to
  look at, such as one outside the repository (`PublishErrors.HiddenByRevParse`, `HiddenByItsOwnReport`,
  `LostByTheCleanup`, `LostByTheInspection`).

## Model

| member | source | states |
|---|---|---|
| ReconcilerRow.ReadAcceptsExactlyValid | src/modules/reconciliation/reconciler-state.ts:167-267 | The row reader accepts a row if and only if it is the encoding of a state that satisfies the durable-state rules, and returns that state: nothing malformed passes, nothing well-formed is refused, no two states share a row |
| ReconcilerRow.ExecutionColumnsDecode | src/modules/reconciliation/reconciler-state.ts:76-165 | The execution columns of every valid state read back as its execution, whatever its state name |
| Transitions.CallKeepsValidIff | src/modules/reconciliation/reconciler.ts:171-334 | Any of the seven transitions, with any arguments that pass its own checks, keeps a readable row readable exactly when a committed registration stays below the largest safe integer, a newly installed owner does not reuse the token that registered the recorded execution, and a heartbeat or a continuing finish does not write a time out of range |
| Transitions.CallKeepsRanges | src/modules/reconciliation/reconciler-state.ts:167-267 | The numeric half of the row rules is kept on its own, from numeric assumptions |
| Transitions.OnlyTheOwnerChangesTheRow | src/modules/reconciliation/reconciler.ts:239-334 | Apart from registration, a call whose token and pid are not the current owner's leaves the row unchanged; a registration changes neither `completed` nor the execution, and changes the row exactly when it commits |
| Transitions.GivingUpOwnership | src/modules/reconciliation/reconciler.ts:239-334 | Ownership is never given up while an execution is recorded; giving it up leaves completed = requested exactly for STOP_SUCCESS, and requested above completed otherwise |
| Transitions.FinishedPass | src/modules/reconciliation/reconciler.ts:239-292 | A finish call is accepted exactly from the owner of that running generation with no recorded execution; it then continues with the latest requested generation, or stops, successfully exactly when nothing is left |
| Transitions.CallRefersTo | src/modules/reconciliation/reconciler.ts:171-237 | The tokens a row refers to were all installed by some admission |
| Transitions.RunsStayValid | src/modules/reconciliation/reconciler-state.ts:167-267 | Every interleaving of the seven transitions with fresh tokens and times in range, from any valid row, stays readable, never lowers `completed`, and raises `requested` by the number of committed registrations |
| Transitions.CallCounts | src/modules/reconciliation/reconciler.ts:171-237 | One call raises `requested` by one exactly when it commits a registration, which is told that number |
| Transitions.RegistrationsAreNumberedInOrder | src/modules/reconciliation/reconciler.ts:171-237 | The n-th committed registration of any run from the initial row is told generation n |
| Transitions.CounterOverflowIsFatal | src/modules/reconciliation/reconciler.ts:171-237 | At the largest safe integer one more registration commits and the row can no longer be read |
| Coordinator.Database.Begin | src/modules/reconciliation/reconciler-transaction.ts:4-21 | A transaction starts from the current row and remembers it |
| Coordinator.Database.Commit | src/modules/reconciliation/reconciler-transaction.ts:4-21 | A commit keeps the new row, or restores the remembered one when storage refuses |
| Coordinator.Database.Rollback | src/modules/reconciliation/reconciler-transaction.ts:4-21 | A rollback restores the remembered row |
| Coordinator.Database.ClearOwnerColumns | src/modules/reconciliation/reconciler.ts:312-334 | Exactly the nine owner columns become null |
| Coordinator.Database.AdmitOnce | src/modules/reconciliation/reconciler.ts:171-237 | One admission attempt on the columns equals the transition on states, or changes nothing on an unreadable row, a changed owner or a storage fault |
| Coordinator.AdmissionWritesIff | src/modules/reconciliation/reconciler.ts:171-236 | An admission succeeds and writes if and only if its last attempt could read both rows, found the same ownership and storage commits; then it is one atomic admission; otherwise the row stays as it was met |
| Coordinator.Database.Register | src/modules/reconciliation/reconciler.ts:171-237 | Optimistic admission equals one atomic admission although rivals act before every look and before every transaction: at most eight attempts, every one but the last found the ownership changed, the last does one atomic admission to whatever row its rivals left, and an unreadable row, a refusing storage or eight lost attempts write nothing |
| Coordinator.Database.FinishPass | src/modules/reconciliation/reconciler.ts:239-292 | Column by column the finish transition: same refusals in the same order, same decision, old row on any failure |
| Coordinator.Database.BeatHeart | src/modules/reconciliation/reconciler.ts:294-310 | A heartbeat validates the row and then updates at most the heartbeat column, under the owner fence as of the update, which validates nothing itself |
| Coordinator.Database.ReleaseOwnership | src/modules/reconciliation/reconciler.ts:312-334 | On the columns: with matching token and pid and no execution the nine owner columns become null, every other column stays and the answer is true; otherwise nothing changes and the answer is false; an unreadable row and a refusing storage change nothing |
| Coordinator.Database.RecordExecution | src/modules/reconciliation/active-execution-state.ts:50-115 | The registration of one paused execution, written only under the owner's fence and generation |
| Coordinator.Database.AuthorizeStart | src/modules/reconciliation/active-execution-state.ts:117-140 | START_AUTHORIZED is written exactly for the registered execution of the current owner |
| Coordinator.Database.ClearExecution | src/modules/reconciliation/active-execution-state.ts:142-166 | The eight execution columns are cleared together under the owner and execution fences, else nothing changes |
| RowUpdates.AdmitWrites | src/modules/reconciliation/reconciler.ts:180-227 | Admission on the columns: a merge raises `requested` alone and names the owner it found, a takeover writes the registrant into ten columns and tells what it replaced, a changed owner or execution writes nothing |
| RowUpdates.FinishWrites | src/modules/reconciliation/reconciler.ts:243-291 | A finish on the columns: refusals in their order; with more requested it writes completed, running and heartbeat and goes on; otherwise it writes completed, clears the nine owner columns and stops by its success |
| RowUpdates.HeartbeatWrites | src/modules/reconciliation/reconciler.ts:294-309 | A heartbeat of the owner writes the heartbeat column alone; any other writes nothing |
| RowUpdates.ReleaseWrites | src/modules/reconciliation/reconciler.ts:312-334 | A release of an execution-free row by its owner clears the nine owner columns; any other writes nothing |
| RowUpdates.RegisterWrites | src/modules/reconciliation/active-execution-state.ts:50-114 | Registering an execution on the columns: refusals in their order, and otherwise exactly the eight execution columns, as REGISTERED |
| RowUpdates.AuthorizeWrites | src/modules/reconciliation/active-execution-state.ts:117-139 | START is authorised in one column, exactly for the registered execution of the owner |
| RowUpdates.ClearWrites | src/modules/reconciliation/active-execution-state.ts:142-166 | A clear under both fences empties the eight execution columns; any other writes nothing |
| ExecutionBoundary.Kernel.ProcessGroupExists | src/modules/reconciliation/execution-boundary-process.ts:51-65 | A group exists at an instant exactly when some process is in it |
| ExecutionBoundary.Classify | src/modules/reconciliation/execution-boundary-process.ts:67-83 | alive-exact and dead are each returned exactly on their observations, with the table changing arbitrarily in between; anything else is ambiguous |
| ExecutionBoundary.WaitForAbsence | src/modules/reconciliation/execution-boundary-process.ts:89-99 | Absent means the group was seen without members during the call; otherwise it was seen alive at every poll |
| ExecutionBoundary.SignalVerified | src/modules/reconciliation/execution-boundary-process.ts:101-120 | Each outcome by the world: signalled exactly when the boundary is exact and the kill meets a member and is not denied, already dead exactly when nobody is left, refused exactly when it is ambiguous or the kill is denied; one delivery, to that group, exactly when signalled |
| ExecutionBoundary.SignalAndWait | src/modules/reconciliation/execution-boundary-process.ts:122-158 | One rung, each outcome by the world: gone exactly when nobody is left to signal or some poll of the wait finds nobody, not gone exactly after a signal and a full wait that always found a member |
| ExecutionBoundary.Terminate | src/modules/reconciliation/execution-boundary-process.ts:122-158 | Termination decided by the world alone: a normal return exactly when the first look or one of the two rungs finds nobody, which is a proof of death; an ambiguous look, a denied kill, and two signals with two full waits are exactly the three failures; SIGTERM and SIGKILL are sent exactly in their rungs |
| ExecutionBoundary.OneOfFour | src/modules/reconciliation/execution-boundary-process.ts:101-158 | Whatever the world does, a rung meets exactly one of its four ends |
| ExecutionBoundary.GracefulEnds | src/modules/reconciliation/execution-boundary-process.ts:137-145 | Two exact looks, a permitted SIGTERM and a last member that goes within the graceful wait mean termination |
| ExecutionBoundary.HardEnds | src/modules/reconciliation/execution-boundary-process.ts:146-154 | The same for SIGKILL after a graceful wait in vain |
| ExecutionBoundary.SignalsAreJustified | src/modules/reconciliation/execution-boundary-process.ts:101-119 | Every signal sent follows directly on four exact observations of the recorded pid, identity and group |
| ExecutionBoundary.SignalReachesTheRecordedGroup | src/modules/reconciliation/execution-boundary-process.ts:101-120 | If the table stands still from the first observation to the signal, the receiving group is that of the recorded process |
| Fencing.SingleLive | src/modules/reconciliation/owned-reconciliation-loop.ts:102-207 | In every state satisfying the invariant, two Git-capable processes share one group and one token, which the row records as START_AUTHORIZED |
| Fencing.InitInv | src/modules/reconciliation/reconciler-state.ts:167-267 | The invariant holds initially |
| FencingSteps.TryAdmitInv | src/modules/reconciliation/reconciler.ts:171-237 | Committing or losing an admission attempt keeps the invariant |
| FencingSteps.AdmissionIsSafe | src/modules/reconciliation/reconciler.ts:91-105 | A granted admission finds no owner or a dead one, and no live launcher acting as owner |
| FencingSteps.AbsentGroupIsGone | src/modules/reconciliation/execution-boundary-process.ts:122-158 | When the recorded group has no member, no process of that execution is left |
| FencingSteps.RecordInv | src/modules/reconciliation/owned-reconciliation-loop.ts:102-207 | Recording the paused boundary keeps the invariant |
| FencingSteps.AuthorizeInv | src/modules/reconciliation/owned-reconciliation-loop.ts:102-207 | Authorising START keeps the invariant |
| FencingSteps.SendStartInv | src/modules/reconciliation/owned-reconciliation-loop.ts:102-207 | Sending START after the durable authorisation keeps the invariant |
| FencingSteps.ClearPriorInv | src/modules/reconciliation/owned-reconciliation-loop.ts:64-88 | Clearing a recovered predecessor's record keeps the invariant |
| FencingSteps.ClearPassInv | src/modules/reconciliation/owned-reconciliation-loop.ts:102-207 | Clearing the record of a finished pass keeps the invariant |
| FencingSteps.ClearStoppedInv | src/modules/reconciliation/owned-reconciliation-loop.ts:102-207 | Clearing after a cancelled or failed pass keeps the invariant |
| FencingSteps.FinishPassInv | src/modules/reconciliation/owned-reconciliation-loop.ts:209-280 | Finishing a pass, whatever its result, keeps the invariant |
| FencingSteps.FinishSaysSo | src/modules/reconciliation/owned-reconciliation-loop.ts:209-280 | A live owner's finish call is never refused, and a success answers its generation |
| FencingSteps.BeginsAfterAll | src/modules/reconciliation/owned-reconciliation-loop.ts:245-280 | A pass begun now begins after every registration the row has counted |
| FencingSteps.SpawnControllerInv | src/modules/reconciliation/supervisor-pass.ts:175-231 | Preparing a controller keeps the invariant |
| FencingSteps.CrashInv | src/modules/reconciliation/public-launcher.ts:73-329 | A launcher killed between any two steps keeps the invariant |
| FencingSteps.LeaveInv | src/modules/reconciliation/public-launcher.ts:171-181 | The best-effort release keeps the invariant |
| FencingSteps.RuntimeFailedInv | src/modules/reconciliation/owned-reconciliation-loop.ts:209-243 | A failed runtime preparation, finished as a failed pass, keeps the invariant |
| FencingRuns.RowMovesByCalls | src/modules/reconciliation/owned-reconciliation-loop.ts:64-280 | Every step of the system moves the row by one of the seven transitions with acceptable arguments and a time in range, or not at all |
| FencingRuns.StepInv | src/modules/reconciliation/owned-reconciliation-loop.ts:64-280 | Every step, by any launcher or by the operating system, keeps the invariant |
| FencingRuns.RunInv | src/modules/reconciliation/owned-reconciliation-loop.ts:64-280 | Every run keeps the invariant |
| FencingRuns.AtMostOneLiveExecution | src/modules/reconciliation/owned-reconciliation-loop.ts:64-207 | Over every run of any number of launchers that may crash at any step: all Git-capable processes belong to one execution in one group, and the row records exactly it as START_AUTHORIZED |
| FencingRuns.NoRecordNoGit | src/modules/reconciliation/active-execution-state.ts:117-166 | Whenever the row records no execution, no Git-capable process exists |
| FencingRuns.RecordClearedOnlyWhenGone | src/modules/reconciliation/active-execution-state.ts:142-166 | A record disappears or is replaced only by a clear step, and only when no process of its execution is left |
| FencingRuns.OwnershipIsTakenFromTheDead | src/modules/reconciliation/reconciler.ts:91-237 | Although liveness is read outside the transaction, ownership is taken only from nobody or from a process dead at that moment, and no live launcher acts as owner then |
| FencingRuns.OwnersAreCurrent | src/modules/reconciliation/owned-reconciliation-loop.ts:209-280 | A live launcher at an owner's program point is the owner the row names |
| FencingRuns.LeavingFreesTheRow | src/modules/reconciliation/public-launcher.ts:171-181 | Leaving gives the row up, unless an execution is recorded: then record and owner stay |
| FencingRuns.PriorIsCleared | src/modules/reconciliation/owned-reconciliation-loop.ts:64-100 | A recovered record is cleared, never refused, and preparation follows |
| FencingRuns.PassIsCleared | src/modules/reconciliation/owned-reconciliation-loop.ts:173-186 | The record of a finished pass is cleared, never refused, with the verdict kept |
| FencingRuns.StoppedIsCleared | src/modules/reconciliation/owned-reconciliation-loop.ts:187-205 | After a cancellation or failure the record, if there is one, is cleared, never refused, and the owner leaves |
| FencingRuns.StartIsAuthorized | src/modules/reconciliation/owned-reconciliation-loop.ts:162-169 | A live owner is always authorised to start its registered execution |
| FencingRuns.BeatIsWritten | src/modules/reconciliation/reconciler.ts:294-309 | Every beat of a live owner is written |
| FencingRuns.RefusedAfterEight | src/modules/reconciliation/reconciler.ts:176-236 | An admission is given up exactly when the ownership changed under its eighth attempt, and retried before that |
| FencingRuns.NoLostWakeup | src/modules/reconciliation/owned-reconciliation-loop.ts:245-280 | Every generation the row counts as completed was answered by a successful pass of at least that generation that began after its registration committed |
| FencingRuns.AdmissionsCountUp | src/modules/reconciliation/reconciler.ts:171-237 | Over every run committed registrations are told 1, 2, 3, ... and `requested` is their number |
| FencingRuns.ReachableRowsAreReadable | src/modules/reconciliation/reconciler-state.ts:167-267 | Every row reachable from a readable one passes the fail-closed reader |
| FencingCoalescing.CoalescedIsAttendedIff | src/modules/reconciliation/reconciler.ts:185-196 | When a request is merged into an owner, some live launcher works as owner afterwards if and only if the launcher whose token the row holds is alive and at a working point; that it seemed alive when probed decides nothing |
| FencingCoalescing.SuccessLeavesNothing | src/modules/reconciliation/owned-reconciliation-loop.ts:245-280 | A successful pass takes a working owner out only with everything requested completed |
| FencingCoalescing.FailureGoesOn | src/modules/reconciliation/owned-reconciliation-loop.ts:217-280 | A failed pass or preparation while more is requested keeps the same owner at work, on the latest requested generation |
| FencingCoalescing.LastFailureIsLate | src/modules/reconciliation/owned-reconciliation-loop.ts:234-280 | A failure that stops the owner was at the latest requested generation, so at no earlier one than any merged request |
| FencingCoalescing.AttendedUntilServed | src/modules/reconciliation/owned-reconciliation-loop.ts:209-280 | After any step a merged, attended generation is completed, or the same launcher still works, or that launcher was killed, cancelled or refused, or has just failed at a generation no earlier than it |
| FencingCoalescing.AttendedOverRuns | src/modules/reconciliation/owned-reconciliation-loop.ts:209-280 | Over every continuation a merged generation is completed or still attended by the same launcher, unless that launcher was killed, cancelled or refused, or ran a pass or preparation of at least that generation and failed; failures at earlier generations do not end it |
| FencingOutcomes.RunKeepsVerdicts | src/modules/reconciliation/owned-reconciliation-loop.ts:173-186 | In every run whose launchers take the verdict their own start returned, every verdict under way and every success written down is such a verdict |
| FencingOutcomes.CompletedWorkWasDone | src/modules/reconciliation/owned-reconciliation-loop.ts:245-280 | Every generation the row counts as completed was answered by a pass that began after its registration committed and whose supervisor really exited 0, unless the channel to its controller had closed before any RESULT was received |
| FencingUnattended.OwnerDiesBeforeTheMerge | src/modules/reconciliation/reconciler.ts:177-196 | From the initial state: the owner is alive when probed, dies, and the request is merged with nobody working |
| FencingUnattended.StrangerOnTheOwnersPid | src/modules/reconciliation/reconciler.ts:91-105 | From the initial state: the owner is dead, its pid is reused by a process whose identity cannot be read, and the request is merged with nobody working |
| FencingUnattended.OwnerHasLeft | src/modules/reconciliation/public-launcher.ts:171-181 | From the initial state: the owner's release was refused because an execution is recorded, it is alive but has left, and the request is merged with nobody working |
| FencingUnattended.OwnerIsCleaningUp | src/modules/reconciliation/owned-reconciliation-loop.ts:145-161 | From the initial state: the owner was cancelled and is terminating its execution, and the request is merged with nobody working |
| FencingProgress.ExecutionsHappen | src/modules/reconciliation/owned-reconciliation-loop.ts:102-207 | From any state with a free row a new launcher can reach a Git-capable execution of its own, so the safety results are not about an empty set of runs |
| FencingRecovery.RunKnowsLaunchers | src/modules/reconciliation/public-launcher.ts:120-181 | In every reachable state each launcher process is one of the live launchers |
| FencingRecovery.AllDie | src/modules/reconciliation/owned-reconciliation-loop.ts:64-100 | From every reachable state every process can die, with the row left as it is |
| FencingRecovery.EverythingCanBeServed | src/modules/reconciliation/owned-reconciliation-loop.ts:209-280 | From every reachable state, whatever crashed and whatever is recorded, there is a way on in which a new execution becomes Git-capable and then everything requested is completed and the row is free: the protocol has no dead end |
| ExecutionController.Controller.ExitController | src/entrypoints/execution-controller.ts:103-109 | Exiting happens once, with the first code |
| ExecutionController.Controller.FinishWhenQuiescent | src/entrypoints/execution-controller.ts:111-135 | RESULT or exit only while terminating, once, and only when the group listing shows nobody else |
| ExecutionController.Controller.BeginTermination | src/entrypoints/execution-controller.ts:137-153 | Termination starts once and looks at the group at once |
| ExecutionController.TerminateWindsDown | src/entrypoints/execution-controller.ts:111-153 | A look at the group can only note that termination has begun, send RESULT, or exit with the supervisor's code; the latter two only on a listing that shows nobody else |
| ExecutionController.Controller.Receive | src/entrypoints/execution-controller.ts:167-224 | The guards of PREPARE, START and malformed messages |
| ExecutionController.Controller.ContinueReady | src/entrypoints/execution-controller.ts:191-206 | READY is sent only over an open channel |
| ExecutionController.Controller.ContinueStart | src/entrypoints/execution-controller.ts:224-260 | After its suspension START rechecks everything except whether a supervisor exists; without a pid no STARTED follows |
| ExecutionController.Controller.ContinueStarted | src/entrypoints/execution-controller.ts:248-269 | STARTED is sent, or termination begins when it cannot be, and the close is listened to |
| ExecutionController.Controller.Disconnected | src/entrypoints/execution-controller.ts:158-162 | A lost channel exits at once when nothing was spawned |
| ExecutionController.Controller.ContinueDisconnect | src/entrypoints/execution-controller.ts:163-165 | A channel lost later begins termination |
| ExecutionController.Controller.SupervisorClosed | src/entrypoints/execution-controller.ts:261-269 | The supervisor's close is recorded and termination begins; when nobody else is left, RESULT with its end goes out at once, or the process ends with its code when there is nobody to tell |
| ExecutionController.Controller.Handle | src/entrypoints/execution-controller.ts:155-270 | Every message, signal, disconnect, poll, resumption and the loop running empty does to the object what the step function says |
| ExecutionController.VariablesAndCauses | src/entrypoints/execution-controller.ts:94-271 | What each occurrence does to the controller's variables and suspended handlers, and nothing else does: the first PREPARE gives the token, a START in time is admitted, a spawn needs an open controller, only a close is observed |
| ExecutionController.EffectsAndCauses | src/entrypoints/execution-controller.ts:94-271 | What brings each effect about, exactly: the beginning of termination, READY, STARTED, RESULT with the supervisor's end, and every way of ending with its code |
| ExecutionController.SpawnsWereWaiting | src/entrypoints/execution-controller.ts:209-236 | Over every history the number of supervisors is at most the largest number of START handlers that waited past their guard before the first spawn |
| ExecutionController.SecondSpawnIff | src/entrypoints/execution-controller.ts:209-236 | Without a further message some schedule has two supervisors if and only if two exist already, or two handlers are past the guard (counting the one that spawned) and the controller still takes work |
| ExecutionController.TwoStartsSpawnTwice | src/entrypoints/execution-controller.ts:167-236 | Both sides occur: after one START no schedule spawns twice, after two some schedule does |
| SupervisorPass.Play | src/modules/reconciliation/supervisor-pass.ts:209-281 | The composition played on a real controller object ends in the state the step functions give |
| SupervisorPass.DeliverKeepsInv | src/entrypoints/execution-controller.ts:167-224 | Delivering any queued message keeps the composition's invariant |
| SupervisorPass.WindDownKeepsInv | src/entrypoints/execution-controller.ts:111-153 | A truthful look at the group keeps the composition's invariant |
| SupervisorPass.ExitKeepsInv | src/entrypoints/execution-controller.ts:141-152 | Exiting, and the event loop running empty while only unref'd timers are left, keep the composition's invariant |
| SupervisorPass.MoveKeepsInv | src/entrypoints/execution-controller.ts:94-270 | Every message, signal, disconnect, exit, kill and natural end keeps the composition's invariant |
| SupervisorPass.RunKeepsInv | src/entrypoints/execution-controller.ts:94-270 | Every interleaving keeps the composition's invariant |
| SupervisorPass.Containment | src/modules/reconciliation/supervisor-pass.ts:209-281 | In every interleaving with one PREPARE and a single-use START: at most one supervisor, spawned under the launcher's own token; at most one RESULT, sent by a controller that is and stays alone; start returns only after the group is absent |
| SupervisorPass.FalseSuccessIff | src/modules/reconciliation/supervisor-pass.ts:233-275 | A returned pass falsely reports success if and only if the channel closed before any supervisor was spawned, or it closed later, the controller's event loop ran empty, and the supervisor had failed; in both cases success is reported whatever the supervisor did |
| SupervisorPass.ReturnedPass | src/modules/reconciliation/supervisor-pass.ts:233-275 | A returned pass is successful if and only if the controller was not killed and either the supervisor exited 0 and its close was heard, or one of the two channel cases happened; a heard close is the supervisor's own end, and a received RESULT speaks for it in exit code, signal and spawn error |
| SupervisorPass.OpenPassReports | src/modules/reconciliation/supervisor-pass.ts:233-275 | However a supervisor ends over an open channel, there is a run in which its close is heard, RESULT carries its end to the launcher, and the pass succeeds exactly when it exited 0 |
| SupervisorPass.OpenChannelTellsTheTruth | src/modules/reconciliation/supervisor-pass.ts:233-275 | Both cases need a closed channel and no RESULT received: otherwise a reported success is real |
| SupervisorPass.EarlyCloseLooksLikeSuccess | src/entrypoints/execution-controller.ts:158-162 | The first case happens |
| SupervisorPass.LateCloseLooksLikeSuccess | src/entrypoints/execution-controller.ts:141-152 | The second case happens, however the supervisor ended |
| RetryPolicy.MergeCommittedShas | src/phases/step2-commit-push.ts:28-40 | The loop with its set of known shas computes the order-preserving merge |
| RetryPolicy.MergeGrows | src/phases/step2-commit-push.ts:28-40 | Recorded commits only grow, earlier ones keep their place, every incoming sha is present, and merging repeats none |
| RetryPolicy.QueueingSpendsNothing | src/modules/core/queue-retry.ts:180-329 | Queueing changes only plan hash, feedback and diff hash, and needs a diff hash; a loop is reported exactly when the plan hash repeats |
| RetryPolicy.ValidationProgress | src/modules/core/validation-retry-handler.ts:79-246 | Rejected plans end the repository or queue one job that lowers the measure |
| RetryPolicy.LlmFailureProgress | src/modules/core/llm-job-failure-handler.ts:23-137 | A failed job ends the repository or queues one job that lowers the measure |
| RetryPolicy.PublishErrorProgress | src/phases/step2-commit-push.ts:169-313 | A failed publication ends the repository or queues one job that lowers the measure |
| RetryPolicy.LandedCommitsSpend | src/phases/step2-commit-push.ts:172-200 | Keeping landed commits of a failed publication never gives attempts back |
| RetryPolicy.ReplyFinishesOrDecreases | src/phases/step2-commit-push.ts:91-313 | Whatever comes back, the repository is finished, or exactly one job was queued under its id and the lexicographic measure (fallback unused, remaining budgets) fell |
| ReplyOutcomes.ReplyOutcome | src/phases/step2-commit-push.ts:91-315 | What every result makes of its repository, said from result and state: exactly a pushed checkpoint, a publication, an empty answer or an empty-plans error with commits recorded end it SUCCESS; exactly which results queue a job, its kind of attempt, its model and what it costs; everything else ends it FAILED; loops, landed commits and push retries are counted exactly |
| ReplyOutcomes.ThrowsIff | src/phases/step2-commit-push.ts:136-138 | Handling throws exactly when a diff hash is asked for, before publishing or queueing, and missing |
| ReplyOutcomes.MergeAppends | src/phases/step2-commit-push.ts:28-40 | New commits keep their order behind the known ones |
| RetryPolicy.FallbackNeverLoops | src/modules/core/validation-retry-handler.ts:132-246 | Queueing the fallback never reports a loop, because the plan hash was forgotten just before |
| RetryPolicy.FallbackGivesBudgetBack | src/modules/core/validation-retry-handler.ts:132-246 | The fallback raises the sum of remaining budgets by two, so that sum alone is no termination measure |
| RetryPolicy.JobsAreBounded | src/modules/core/queue-retry.ts:23-29 | However long replies keep coming, a repository gets at most nine retry jobs, and at most eight when no bare push error occurs |
| RetryPolicy.EightJobsHappen | src/modules/core/queue-retry.ts:23-29 | Eight jobs do happen without a bare push error |
| RetryPolicy.HistoryIsCapped | src/modules/core/queue-retry.ts:97-109 | The kept feedback history stays within its caps on entries and entry size, ends with the newest entry, cut and marked when too long, and otherwise is the newest part of what was there |
| CommitPhase.ReplySettles | src/phases/step2-commit-push.ts:91-313 | A handled reply leaves its repository finished without a job or with one job under its id, and its recorded commits grown |
| CommitPhase.Phase.Run | src/phases/step2-commit-push.ts:87-344 | Phase partition: leftover jobs are dropped, every known repository with a result ends SUCCESS or FAILED without a job or with exactly one job under its id, the others are untouched, the loop count is that of the handled results, and the verdict follows from what came back: delegate exactly when some result earns a job, done exactly when every result ends well and no repository without one had failed |
| CommitPhase.VerdictByReplies | src/phases/step2-commit-push.ts:318-344 | A round delegates exactly when some result earns another job, and is done exactly when every result ends its repository well and no other repository had failed |
| CommitPhase.RunToTheEnd | src/phases/step2-commit-push.ts:318-344 | The whole resumed phase, whatever comes back for the jobs of each round: at most nine rounds delegate, k repositories get at most 9k jobs, no landed commit is forgotten or listed twice, and if every job is answered every repository with a first result ends SUCCESS or FAILED; the run fails exactly when some repository ended FAILED |
| CommitPhase.NextRound | src/phases/step2-commit-push.ts:318-344 | One more round keeps what the phase has spent, what has landed, and that every repository with a first result is finished or has a job |
| Publication.TwoTriesAreQuiet | src/modules/git/push.ts:80-139 | The conversation of one publication holds one or two pushes and none after the source was seen |
| Publication.PublishWithFrozenEndpoint | src/modules/git/push.ts:80-139 | At most two leased pushes, the second exactly after a transient failure and a look that saw the baseline again; only the baseline is ever replaced; it succeeds exactly when a push was acknowledged or the last look saw the source; a normal return means the ref held the source during the call; an unacknowledged push that landed is recognised without pushing again |
| Publication.SecondTry | src/modules/git/push.ts:113-139 | The bounded retry pushes once more and succeeds exactly when that push is acknowledged or a final look sees the source |
| Publication.ExecutePush | src/modules/git/push.ts:199-290 | Nothing is pushed unless the remote was seen at an ancestor of HEAD; a push with a destination succeeds if and only if it went beyond the first look, its last act was a read equal to HEAD and the tracking branch works; calm calls from an absent, older or equal ref succeed without a retry, and one lost acknowledgement costs one |
| Publication.PublishUnlessThere | src/modules/git/push.ts:238-250 | A ref already at HEAD is not pushed to |
| Publication.PublishAndCheck | src/modules/git/push.ts:238-290 | After a preflight read at an ancestor of HEAD, success ended with a read of the ref equal to HEAD |
| Publication.Postflight | src/modules/git/push.ts:250-290 | The final read is repeated exactly after a transient failure with no retry spent; the push has succeeded if and only if the read that decides sees HEAD and the tracking branch works |
| PushOnly.ValidateAndPush | src/modules/git/push-only.ts:239-301 | One run, dying anywhere: it looks, pushes exactly on having seen the baseline, looks again; it returns the full outgoing list exactly when its last look saw the head; while nobody interferes, a valid run from the baseline pushes once and returns, and one that finds the head there returns without pushing |
| PushOnly.HandleCheckpoint | src/modules/git/push-only-checkpoint.ts:16-93 | The status and list follow from how the run ended; FAILED without a conversation when the checkpoint failed or publishing is off |
| PushOnly.ResumeUntilTheEnd | src/modules/git/push-only.ts:239-301 | Any sequence of runs of one snapshot racing other writers: every run keeps its own report, so each pushes only after its own ancestry check and sight of the baseline, and each SUCCESS has its own sight of the head and the full list; the ref moves only from the baseline to the validated head; alone at the ref, all runs together move it at most once; while nobody else writes and calls are answered, every run that is let through succeeds and the head is there from then on |
| Publisher.CollectPending | src/modules/git/publisher.ts:27-40 | The pending files are the order-preserving duplicate-free files of the remaining plans |
| Publisher.FirstDuplicate | src/modules/git/publisher.ts:69-84 | A duplicate is reported exactly when two files agree after path normalisation, and the file reported is the first whose normal form was there before |
| Publisher.GuardedSplit | src/modules/git/publisher.ts:69-84 | Past the duplicate guard the files before and from plan i are disjoint after normalisation |
| Publisher.GuardedPending | src/modules/git/publisher.ts:27-40 | Past the duplicate guard the pending list is simply all files of the remaining plans |
| Publisher.CommitPlanOnce | src/modules/git/publisher.ts:126-155 | A plan lands exactly when its add works, its commit takes effect and one of its files is dirty; the commit changes just those files; its sha is returned exactly when commit and rev-parse also report success |
| Publisher.CommitNext | src/modules/git/publisher.ts:122-226 | One turn of the loop: the plan is committed and recorded, or the failure accounts for everything that landed |
| Publisher.FailAtPlan | src/modules/git/publisher.ts:158-219 | The failure carries the landed commits and the pending files exactly when the reset and the look at every file of the plan worked, and is then classified by the state of those files; otherwise it is a bare git error |
| Publisher.CommitAll | src/modules/git/publisher.ts:122-236 | The loop commits the plans in order on a clean index and stops at the first plan that is not reported; a failure there records exactly the plans before it or, when the cleanup fails, nothing; what landed is fixed by which git commands worked |
| Publisher.RecordsAllIff | src/modules/git/publisher.ts:158-236 | A failure in the loop records every commit that landed if and only if the failing plan's own commit did not land and either it was the first plan or the cleanup worked: the reset, every status and ls-files command, and every lstat |
| Publisher.PublishGuarded | src/modules/git/publisher.ts:111-255 | Past the guards: an error of no class exactly when HEAD cannot be read or the first reset fails; then the loop; then one push, and nothing reaches the remote before every plan landed |
| Publisher.PushAll | src/modules/git/publisher.ts:238-255 | The push after the loop: its failure is wrapped with everything recorded; with a destination it succeeds exactly when its conversation ended with a read of the last commit and the tracking branch works; an outlook that is sure or doomed is met |
| Publisher.ExecuteMultiCommitAndPush | src/modules/git/publisher.ts:51-255 | Isolation and conservation over the whole publication: each new commit changes only its plan's paths; the guards fail exactly on no plans, duplicates and a changed diff; failures before the loop change nothing; a failure at plan i records exactly plans 0 to i - 1 in order with real shas and lists the rest as pending, disjoint from the recorded files, or nothing when the cleanup failed; it comes to the push exactly when the guards pass and every plan landed and was reported, and then all plans are recorded; with a destination it succeeds exactly when the push ended with a read of the last commit at the remote, as it does when nobody interferes |
| PlanFileState.LookAt | src/modules/git/commit-plan-file-state.ts:28-54 | One file: a changed or ignored path needs one command, a clean missing one a second; an unreadable path or a failing command throws |
| PlanFileState.Inspect | src/modules/git/commit-plan-file-state.ts:22-56 | The inspection returns exactly when every command and every lstat it makes works, with the nonexistent and the unchanged files of the plan in order |
| PlanFileState.ThoseIff | src/modules/git/publisher.ts:170-187 | The publisher's two tests mean: some planned file is nonexistent, and all planned files are unchanged |
| PlanFileState.StatesMean | src/modules/git/commit-plan-file-state.ts:21-56 | The four states of a file by what git, the file system and the index say |
| PlanFileState.InspectableIff | src/modules/git/commit-plan-file-state.ts:10-19 | While git works, one path that lstat cannot read is exactly what stops the inspection |
| PublishErrors.HiddenByRevParse | src/modules/git/publisher.ts:153-157 | A landed commit is not recorded when the rev-parse after it fails |
| PublishErrors.HiddenByItsOwnReport | src/modules/git/publisher.ts:139-143 | A landed commit is not recorded when git commit itself reports failure |
| PublishErrors.LostByTheCleanup | src/modules/git/publisher.ts:159-168 | Nothing is recorded when the cleanup reset fails |
| PublishErrors.LostByTheInspection | src/modules/git/publisher.ts:170-236 | Nothing is recorded when the reset works and git refuses to look at a path of the failing plan: an earlier plan landed and was reported, and is lost |
| PublishErrors.AsPublishError | src/modules/core/error-classifier.ts:12-89 | The publisher raises no bare push error; what it records reaches the retry policy unchanged |
| PublishErrors.PublishForPolicy | src/modules/git/publisher.ts:51-255 | Every error a publication ends with is a raisable one: any kind but a bare push error, with a list of commits that have files and share none, empty for an empty-plans error and not empty for a push failure |
| PublishErrors.Raise | src/modules/git/publisher.ts:51-255 | Conversely, for every raisable error there is a publication that ends with it |
| PublishErrors.FailAtExtra | src/modules/git/publisher.ts:122-219 | Any list of commits with distinct files can land before a plan that does not get through, and the error then carries that very list or, when the cleanup fails, none |
| PublishErrors.FailAtPush | src/modules/git/publisher.ts:240-251 | Any such list can land before a push that fails, and the error then carries that very list and the retries of the push |
| PublishErrors.EightJobsFromRaisedErrors | src/modules/core/queue-retry.ts:23-29 | The eight retry jobs come about with publish errors the publisher raises |
| DigestStream.NumeralReadsBack | src/modules/installation/release-tree.ts:114-122 | Decimal lengths and octal modes read back |
| DigestStream.FieldReadsBack | src/modules/installation/release-tree.ts:114-122 | A length-prefixed field reads back from in front of any bytes |
| DigestStream.EntryReadsBack | src/modules/installation/release-tree.ts:137-148 | A listing row reads back from in front of any bytes |
| DigestStream.DecodeInvertsEncode | src/modules/installation/release-tree.ts:131-150 | A decoder inverts the digest stream on every listing |
| DigestStream.StreamsAreUniquelyDecodable | src/modules/installation/release-tree.ts:131-150 | Two listings that feed the same bytes to the hash are equal |
| DigestStream.StreamOfThree | src/modules/installation/release-tree.ts:131-150 | The bytes themselves, on a listing with a directory, a file and a symlink |
| ReleaseTree.Digester.Visit | src/modules/installation/release-tree.ts:35-108 | The walk refuses a tree exactly when a special file or an escaping symlink is in it, and otherwise appends the sorted listing |
| ReleaseTree.CleanIff | src/modules/installation/release-tree.ts:35-108 | A tree is refused exactly when a special file or a symlink that leaves the release is somewhere in it, at any depth |
| ReleaseTree.EveryModeIsComposed | src/modules/installation/release-tree.ts:47 | Every mode is three permission digits under file type and special bits |
| ReleaseTree.ExecuteBitsAreKept | src/modules/installation/release-tree.ts:47 | Of a mode exactly the three execute bits are kept, each in its place |
| ReleaseTree.SameModesIff | src/modules/installation/release-tree.ts:47 | Two modes count as the same if and only if their three execute bits agree |
| ReleaseTree.Digester.UpdateDigestField | src/modules/installation/release-tree.ts:114-122 | Three updates feed one field |
| ReleaseTree.Digester.FeedEntry | src/modules/installation/release-tree.ts:137-148 | One row feeds its encoding, by type |
| ReleaseTree.Digester.DigestReleaseTree | src/modules/installation/release-tree.ts:131-150 | The hash is fed exactly the stream of the tree, or nothing when the tree is refused |
| ReleaseTreeIdentity.SameThenAligned | src/modules/installation/release-tree.ts:36-39 | Sorting gives one order whatever order readdir returned |
| ReleaseTreeIdentity.AlignedListing | src/modules/installation/release-tree.ts:35-108 | Equal trees list equally, at every depth |
| ReleaseTreeIdentity.ListingDetermines | src/modules/installation/release-tree.ts:35-108 | A listing determines the tree it came from |
| ReleaseTreeIdentity.StreamIdentifiesTheTree | src/modules/installation/release-tree.ts:131-150 | Two acceptable releases feed the same bytes if and only if they are the same tree: names, types, executable bits, contents and link targets, in whatever order siblings were read |
| Installer.ReleaseNames | src/modules/installation/release-identity.ts:17-31 | A created release name is recognised, carries its digest in its last 64 characters, and is no staging name |
| Installer.NumberIff | src/modules/installation/release-identity.ts:1-2 | A number of a version is the decimal numeral of some natural number, without leading zeros |
| Installer.VersionIff | src/modules/installation/release-identity.ts:1-2 | The versions are exactly the decimal numerals of three natural numbers joined by dots |
| Installer.StagingIsNoRelease | src/modules/installation/standalone-installer.ts:80-95 | A staging directory is never taken for a release |
| Installer.EvolvesKeepsSafe | src/modules/installation/standalone-installer.ts:186-297 | What any installer run may do keeps `current` absent or pointing at a genuine release, and never loses it |
| Installer.EvolvesTransitive | src/modules/installation/standalone-installer.ts:217-297 | The effects of runs compose |
| Installer.OneNameOneTree | src/modules/installation/standalone-installer.ts:97-112 | Two genuine releases of one name hold the same tree, if the hash does not collide on them |
| Installer.Installation.RemoveStale | src/modules/installation/standalone-installer.ts:80-95 | Only staging entries disappear; success leaves none |
| Installer.Installation.Stage | src/modules/installation/standalone-installer.ts:240-247 | Staging changes only its own directory and ends with the digest of what it holds |
| Installer.Installation.VerifyExisting | src/modules/installation/standalone-installer.ts:97-112 | An existing release is reused only if its tree has the expected digest; an intact one is accepted |
| Installer.Installation.ReplaceCurrent | src/modules/installation/standalone-installer.ts:123-148 | `current` is switched in one step or left alone, never from anything but absence or a link to a release |
| Installer.Installation.EnsurePublic | src/modules/installation/standalone-installer.ts:150-183 | The public link is created or already right, never overwritten |
| Installer.Installation.Activate | src/modules/installation/standalone-installer.ts:186-214 | Activation leaves `current` alone or switches it; success means both links are right |
| Installer.Installation.Publish | src/modules/installation/standalone-installer.ts:252-260 | The staged tree takes its release name, or an intact release of that name is reused; no release changes |
| Installer.Installation.Install | src/modules/installation/standalone-installer.ts:217-297 | Stopped between any two operations, an install has added only genuine releases, altered none, and left `current` alone or on a genuine release; success points at the requested one; an unobstructed install succeeds |
| Installer.InstallAll | src/modules/installation/standalone-installer.ts:217-297 | Any sequence of installs, each possibly failing or killed, serialised by the lock: `current` is absent or names a present release whose tree matches its digest, no installed release is removed or altered, and `current` is never lost |
| MessageRepair.SortsTellPermutations | src/modules/core/commit-message-repair.ts:58-75 | Comparing sorted index lists is comparing them as permutations |
| MessageRepair.MergeSucceedsIff | src/modules/core/commit-message-repair.ts:53-98 | The merge succeeds if and only if every requested plan is answered exactly once, no other is, and every answer keeps type, scope and breaking mark of an existing plan |
| MessageRepair.MergeRepairsOnlyMessages | src/modules/core/commit-message-repair.ts:91-97 | Then plan count, file lists, type, scope and breaking mark are preserved, each requested plan takes its own repair and all others are unchanged |
| ConventionalCommit.Format | src/modules/formatters/commit-formatter.ts:7-22 | The successive appends print the message |
| ConventionalCommit.ScannerIsTheExpression | src/modules/core/validators/commit-message-validator.ts:20 | Left-to-right scanning accepts exactly what the subject expression matches, with the same groups; it can match in one way only |
| ConventionalCommit.RoundTripIff | src/modules/core/validators/commit-message-validator.ts:47-72 | Printing and reading back gives exactly the type, scope, breaking mark and description, for any body, if and only if the type is non-empty word characters, a scope is non-empty without `)` or newline, and the description is one non-empty line without trailing blank |
| ConventionalCommit.PrintedLines | src/modules/formatters/commit-formatter.ts:7-22 | The first line of a printed message is its subject and reads back; after it comes nothing when there is no body, and otherwise one blank line and the body as it is |
| BoundedCapture.CapturedOutput.Accept | packages/node-runtime/src/run-process.ts:254-266 | One chunk: what fits is kept, and excess is reported exactly when something did not fit |
| BoundedCapture.ProcessRun.BeginTermination | packages/node-runtime/src/run-process.ts:81-89 | One soft signal, only to a running child |
| BoundedCapture.ProcessRun.RequestTermination | packages/node-runtime/src/run-process.ts:91-100 | The first request wins; after the close only excess output still counts |
| BoundedCapture.ProcessRun.RecordFailure | packages/node-runtime/src/run-process.ts:102-109 | The first I/O failure wins and stops the child |
| BoundedCapture.ProcessRun.Handle | packages/node-runtime/src/run-process.ts:122-157 | Every event moves the run's state by the specified step |
| BoundedCapture.AfterDescribes | packages/node-runtime/src/run-process.ts:239-267 | After any events the state says exactly: first bytes delivered, first request, first failure, every call of requestTermination, whether the child was stopped |
| BoundedCapture.ExcessIffOverLimit | packages/node-runtime/src/run-process.ts:254-266 | Whatever the chunking, the calls of requestTermination include one for excess output of a stream exactly when more than the limit was delivered on it |
| BoundedCapture.LimitedStreamIsOver | packages/node-runtime/src/run-process.ts:91-100 | The limited stream is named exactly with an output-limit request, and that stream is over its limit |
| BoundedCapture.RequestedIff | packages/node-runtime/src/run-process.ts:91-120 | A run is asked to stop exactly when an abort or a timeout came before the close, or some stream delivered more than the limit |
| BoundedCapture.Play | packages/node-runtime/src/run-process.ts:122-157 | Any sequence of events on a real run ends in the described state |
| BoundedCapture.Observe | packages/node-runtime/src/run-process.ts:122-190 | Without failures each captured stream is the first min(total, limit) bytes sent on it, for any chunking and interleaving; reason and limited stream are those of the first request; termination for excess output was called for on a stream exactly when it is over the limit; at most one soft signal |

## Left out

- SQLite itself: schema, WAL, busy timeouts and the row-count and singleton checks; a transaction commits or restores the old row.
- Timers and real time: a deadline is a number of polls that may be exhausted; heartbeats decide nothing.
- Real processes, `ps`, `/proc` and IPC framing: replaced by a process table that changes arbitrarily and an ordered channel.
- The READY handshake inside `prepareSupervisorPass` is one spawn step in `Fencing`; its messages are in `SupervisorPass`.
- The state-cutover lock, migration of legacy queues and historical runs, discovery and preflight: file inspection with easy claims.
- LLM calls, prompts, feedback texts, telemetry, reports, settings and Turnlock internals.
- Re-staging and the pending-file filter inside `queueRetry`: the next attempt's diff hash is a parameter; the `loopDetected` mark, error texts and the joined history of the prompt are not kept.
- `originalHead` in publication errors; nothing is stated about it.
- Git internals: a planned path names one file, not a directory; HEAD is a sequence of commits, the index a set of paths, a remote ref a compare-and-swap cell, ancestry an oracle; the publisher's temporary message file is not modelled, a failure to write it counts as a failing commit.
- `captureTrackedPushSnapshot` and the secret scan and test cascade inside revalidation: one observed verdict each run.
- Tracking set-up after a push is one observed verdict of `executePush`.
- Error classification by message text (`classifyTransient`) is an oracle.
- SHA-256 and JSON: hashes are functions of the canonical value; where no collision is needed, the lemma says so.
- File names in a release are byte strings and their comparison is any strict total order; JavaScript compares UTF-16 code units, which is one.
- Whether a release symlink stays inside the release is one observed fact of the link; path resolution is not modelled.
- The installer's ownership and permission checks, and how the lock recovers from a dead holder; the lock serialises installs.
- ReleaseTree.Digester.Visit: does not say which rows were collected before a refusal, because the source discards them.
- Validator rules beyond the subject expression (allowed types, mood, length): independent tests of the parsed parts.
- The force-kill timer of `runProcess`, its spawn-error path and UTF-8 decoding of the captured bytes.
- The controller's force timer kills the whole group, the controller included; it is one of the signals that may kill it at any time.
- Coordinator.Database.RecordExecution: the argument checks are one refusal, because the source's differ only in their texts.
