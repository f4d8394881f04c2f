# Astra control plane: a verified model

Astra's repository carries a Python control plane that admits benchmark runs, schedules
verifier probes, guards database domains and reports results. This project models its hard
core in Dafny and proves what those programs are for. It is checked with
`dafny verify dfyconfig.toml`.

| files | what they model |
|---|---|
| `ReadinessSchedule`, `TailDeadline`, `ReadinessRun`, `ReadinessTight` | the verifier-readiness worker pool as a transition system, the timeout preflight grants it, the per-probe deadline arithmetic that reserves time for cleanup, the pool whose phases last what the probes make them last, and runs that take all the granted time |
| `SetupPlan`, `SetupReceipt`, `SetupProbe` | the compiler from verifier scripts to dependency-setup plans, the independent receipt validator, and the prober whose receipts it judges |
| `SetupScript`, `SetupCertificate`, `SetupObserved` | the same three without their intermediate notions: which scripts compile, what an accepted receipt certifies field by field, and what a receipt says about its container |
| `LifecycleLease`, `LifecycleDomain` | abstract-socket leases and the guardian / runner / recovery protocol over them, with crashes at every step |
| `CaseReservation` | reservation leases and the admission history over them |
| `FreshDatabase` | the one-use database proof: `begin`, `seal`, `verify`, interleaved read by read |
| `DispatchApi`, `MiniDispatch` | the Mac dispatcher: budgeted requests, retries, the ETag cache, pagination and the wait loop |
| `ProgressReplay`, `ProgressCases`, `ProgressReader` | the harness progress log: acceptance as a fold and case by case, and incremental reading of a growing file |
| `Terminal`, `TerminalLaws`, `Screen` | a reference terminal on an unbounded tape, its laws, and the terminal emulator class refined against it |
| `RustBlanking`, `RustTokens` | the lexer that blanks comments and literals in Rust sources |
| `ToolClosure` | the one-pass check that a run log closes every tool call |

Code that updates state in place is a class or a method with loops, proved equal to a
specification function; protocols are transition systems, and their theorems hold over every
run. Durations are reals. Clocks, servers, file systems, processes and digests are parameters
or adversarial steps: what they may do is stated where they are introduced (`Conforming` for
the HTTP server, `PortDigest` and `Collisionless` for SHA-256, `Sane` and `Legal` for commands).

## Where the code does less than one would expect

Each of these has a witness and the exact condition under which the property holds.

- **Screen.** A signed count such as `ESC [ -5 A` is accepted by Python's `int`, and takes the
  cursor off the grid. A cursor control is safe on every grid if and only if its count is not
  negative (`StepCountExact`, `NegativeCountLeavesGrid`).
- **Receipt validator.** Fixture bindings are matched in plan order but walked in step order. A
  receipt whose plan lists two fixtures in reverse is accepted for all digests, although the
  commands it accepts for staging one step are those of the other's binding
  (`ReversedFixturesAccepted`); the walk is the intended one if and only if the plan lists them
  in step order (`FixtureWalkOrder`).
- **Prober.** Creating a virtualenv reports the status variable its predecessor left. First in a
  batch there is none, and no receipt appears (`LeadingVenvFails`); from a container that
  answers, a receipt appears if and only if this does not happen and no stateful step comes
  before a source (`ReceiptAppearsIff`). After a tolerated failure the receipt is refused
  (`InheritedFailureRejected`); a receipt is accepted if and only if no virtualenv inherits a
  failure (`ProbedReceiptAccepted`, `CompiledReceiptAccepted`).
- **Case reservation.** A reserve that is killed between its first and last lease leaves live
  leases behind. Publication is all-or-nothing if and only if the kill does not fall strictly
  between them (`KilledReserveIsPartial`). The leases left behind count as held exactly while
  their owner lives (`FoundAfterKill`): as long as it does and has not released a case, no later
  reserve of that case succeeds (`KilledLeaseBlocks`), and once it is dead none is held up by
  them (`DeadOwnerBlocksNone`).
- **Fresh database.** `begin`, `seal` and `verify` read and later replace the proof file without
  a lock of their own, and overlapping operations can undo one another (`OverlapMovesBack`).
  If on each path no two begins overlap and no two seals do, proofs only ever move on, whatever
  else overlaps (`PhasesOnlyMoveOn`); the first start that breaks this rule leads to a state
  from which some run replaces or takes back that proof (`FirstOverlapBreaks`). So does every
  reachable state with two begins in flight on a path, or with two seals that can still write
  different proofs or see the first write consumed (`ClashBreaks`, `ClashMovesBack`). One-use
  consumption does not depend on this (`VerifiedAtMostOnce`).

## Model

| member | source | states |
|---|---|---|
| `ReadinessSchedule.Makespan` | scripts/harness/preflight.py:894-974 | in every run of the pool, with any failures and any use of the budgets, the clock never passes the preflight bound |
| `ReadinessTight.AttainedAlone` | scripts/harness/preflight.py:962-974 | for one worker, every non-empty list of tasks has a run that ends exactly at the granted time |
| `ReadinessTight.Attained` | scripts/harness/preflight.py:962-974 | for every number of workers, every materialization time and every unit of tail time some list has a run that ends exactly at the granted time |
| `ReadinessSchedule.StepInv` | scripts/harness/verifier_readiness.py:3246-3292 | every worker step and every passage of time keeps the conservation of materialization and tail work that the bound rests on |
| `ReadinessSchedule.StepAccounted` | scripts/harness/verifier_readiness.py:3246-3292 | every step keeps each claimed task in exactly one worker's hands or with an outcome |
| `ReadinessSchedule.NeverStuck` | scripts/harness/verifier_readiness.py:3246-3292 | a pool that has not finished can always take a step |
| `ReadinessSchedule.NoResultLost` | scripts/harness/verifier_readiness.py:3293-3307 | a finished pool has a failure or a record for every task, so the lost-result error is unreachable |
| `ReadinessSchedule.PoolCompletes` | scripts/harness/verifier_readiness.py:3200-3307 | every run makes boundedly many moves, is never stuck before it finishes, and loses no result |
| `ReadinessSchedule.MaterializationFitsBudget` | scripts/harness/verifier_readiness.py:851-910 | every path through image inspection fits the materialization budget, a mutable tag is never answered from the cache, and the budget is attained |
| `ReadinessSchedule.ReadinessTimeoutSuffices` | scripts/harness/preflight.py:857-974 | the timeout computed from task files covers every run of the pool on them |
| `TailDeadline.StageFits` | scripts/harness/verifier_readiness.py:620-634 | an awaited stage takes at most its allowance and its own cancellation overrun, passes the tail deadline by no more than that overrun, and succeeds exactly if it fits both and does not raise |
| `TailDeadline.CleanupKeepsGrace` | scripts/harness/verifier_readiness.py:594-634 | whatever stages fail or time out, cleanup starts with its full grace before the tail deadline if termination overruns total at most the reserve |
| `TailDeadline.EveryLayerGetsItsShare` | scripts/harness/verifier_readiness.py:1026-1102 | dividing what remains among the layers left gives each of n layers its n-th of the grace, for every n |
| `TailDeadline.CleanupEndsByDeadline` | scripts/harness/verifier_readiness.py:1026-1102 | cleanup ends by the shared deadline up to synchronous removals and its own overruns |
| `TailDeadline.CleanupShares` | scripts/harness/verifier_readiness.py:1026-1102 | with instantaneous removals each asynchronous layer gets a third of the grace and the last ends by the deadline |
| `TailDeadline.TailFitsBudget` | scripts/harness/verifier_readiness.py:3074-3143 | the whole probe tail, cleanup included, fits the tail budget preflight grants that entry whenever all cancellations and synchronous removals together take at most the termination reserve |
| `TailDeadline.TailTakesBudget` | scripts/harness/verifier_readiness.py:594-616 | for every task some behaviour within the termination reserve takes the whole tail budget, so no smaller one would do |
| `TailDeadline.HealthcheckFitsBound` | scripts/harness/verifier_readiness.py:557-591 | a last attempt of the start period and then the counted ones, each within its timeout and an interval apart, end within the healthcheck's share of the budget |
| `TailDeadline.HealthcheckBoundIsLeast` | scripts/harness/verifier_readiness.py:557-591 | with a start period every smaller share is exceeded by some such sequence of attempts |
| `TailDeadline.CleanupStartsBy` | scripts/harness/verifier_readiness.py:3074-3143 | whatever stages fail or time out, cleanup starts so early that grace and reserve fit before the tail deadline, but for what cancellations cost |
| `ReadinessRun.SimulateMove` | scripts/harness/verifier_readiness.py:3246-3292 | each move of the pool with real phase lengths is a move of the budgeted pool that leaves at least as much time |
| `ReadinessRun.ProbesEndInTime` | scripts/harness/preflight.py:894-974 | the timeout computed from task files covers every run of their probes end to end, phases lasting what image inspection and tail make them last |
| `ReadinessRun.Progress` | scripts/harness/verifier_readiness.py:3246-3307 | every unfinished reachable state of that pool has a move, or has one once the shortest phase has elapsed; a run makes at most seven moves a task, and a finished one has a failure or a record for every task |
| `ReadinessRun.ProbesComplete` | scripts/harness/verifier_readiness.py:3246-3307 | every run of the probes extends to one in which all workers have left and every task is recorded or one failed, within seven moves a task |
| `SetupPlan.BuildPlan` | scripts/harness/verifier_readiness.py:1761-1900 | compilation succeeds exactly on scripts with a scoring boundary, and returns the plan of that boundary |
| `SetupPlan.StagingClash` | scripts/harness/verifier_readiness.py:1761-1900 | testing the lists built so far for a staging clash is testing the script before the unit |
| `SetupPlan.OnlyBoundary` | scripts/harness/verifier_readiness.py:1761-1900 | a script has at most one scoring boundary |
| `SetupPlan.NoBoundary` | scripts/harness/verifier_readiness.py:1761-1900 | the first unit that does not plan is the only candidate for a boundary, so giving up there is right |
| `SetupPlan.UnitsAccountedFor` | scripts/harness/verifier_readiness.py:1761-1900 | every unit before the scorer either declares a name or is the origin of exactly one step |
| `SetupPlan.DeclarationsAreUsedOnce` | scripts/harness/verifier_readiness.py:1761-1900 | every declared name is declared once and used by the scorer |
| `SetupPlan.CompiledPlanIsWellPlanned` | scripts/harness/verifier_readiness.py:1761-1900 | compiled plans stage fixtures in step order at exactly the staging steps, and end in their only entrypoint |
| `SetupScript.RoleMeans` | scripts/harness/verifier_readiness.py:1788-1883 | a unit declares, runs, stages or scores exactly on the stated answers of the classifiers about it, and is refused otherwise: an unsafe guard, an expanding command, an unknown command |
| `SetupScript.BoundaryIffCompiles` | scripts/harness/verifier_readiness.py:1761-1900 | the compiler finds its boundary at a unit if and only if that unit is a scorer using exactly the declared names, every unit before it is a new declaration, a safe guard, an allowed fixture or a classified command, and nothing after it sets anything up |
| `SetupScript.PlanOfScript` | scripts/harness/verifier_readiness.py:1761-1900 | the plan has one step for each unit that declares nothing, in script order with that unit's text, then the scorer's entrypoint where one is needed; the scorer is only named |
| `SetupScript.BuildScript` | scripts/harness/verifier_readiness.py:1761-1900 | compilation succeeds if and only if the script has such a unit |
| `SetupReceipt.ExpectedOperations` | scripts/harness/preflight.py:1387-1434 | the walk with three cursors yields the expected operation sequence, or refuses exactly where the recursive definition has none |
| `SetupReceipt.Validate` | scripts/harness/preflight.py:1088-1540 | the validator's answer is acceptance: plan, bindings, batches, every invocation and every execution agree |
| `SetupCertificate.AcceptedStages` | scripts/harness/preflight.py:1334-1384 | in an accepted receipt every staging step has a binding with the planned sequence, source path and content digest, and every binding is of a staging step |
| `SetupCertificate.AcceptedCodes` | scripts/harness/preflight.py:1245-1281 | each batch reports one status a step, nonzero only for a build, compound or filesystem step |
| `SetupCertificate.AcceptedSourceFiles` | scripts/harness/preflight.py:1282-1332 | each source is at a source step, a file of at most 64 KiB at an absolute path without parent components |
| `SetupCertificate.AcceptedExecutions` | scripts/harness/preflight.py:1519-1540 | the executions are the plan's steps in order, all with status 0 |
| `SetupCertificate.AcceptedPlan` | scripts/harness/preflight.py:1117-1245 | the plan is the one hashed, of a known family, ends with that family's entrypoint, and is rendered as one command, that of its only batch, exactly if no step is inspected |
| `SetupCertificate.AcceptedInvocations` | scripts/harness/preflight.py:1387-1518 | each source, fixture and batch has its calls, with its own digests and successful, at the place its step has in the plan; nothing else was invoked, and never the scorer |
| `SetupCertificate.AcceptedReceiptsAgree` | scripts/harness/preflight.py:1334-1384 | two accepted receipts of one plan agree in all that the container does not determine |
| `SetupCertificate.TamperedIsRejected` | scripts/harness/preflight.py:1245-1540 | an accepted receipt with a fixture, an execution or an invocation changed, or with a strict step reported as failed, is not accepted, even with its digests recomputed |
| `SetupReceipt.AcceptedPartitions` | scripts/harness/preflight.py:1245-1434 | an accepted receipt's batches, sources and fixtures partition the plan's steps by kind |
| `SetupReceipt.AcceptedInvocationsDetermined` | scripts/harness/preflight.py:1435-1518 | plan and bindings determine the accepted invocations, all successful and none of them scoring |
| `SetupReceipt.FixtureWalkOrder` | scripts/harness/preflight.py:1334-1434 | the k-th binding belongs to the k-th staging step for all k if and only if the plan lists fixtures in step order |
| `SetupReceipt.ReversedFixturesAccepted` | scripts/harness/preflight.py:1334-1434 | for all digests a receipt with two fixtures listed in reverse is accepted, its commands for staging one step being those of the other binding |
| `SetupProbe.RunBatch` | scripts/harness/verifier_readiness.py:2833-2884 | a rendered batch reports the statuses of its steps, a virtualenv repeating what its predecessor left, or nothing at all |
| `SetupProbe.Walk` | scripts/harness/verifier_readiness.py:1360-1484 | one pass that flushes batches at sources and fixtures produces the trace of the recursive definition |
| `SetupProbe.Probe` | scripts/harness/verifier_readiness.py:1151-1513 | the prober's receipt, or its refusal, is the specified one |
| `SetupObserved.ReceiptIsObserved` | scripts/harness/verifier_readiness.py:1151-1513 | each batch of a receipt ran with the environment of all sources before it and reports what its steps left, each source is the file resolved at its step, and each fixture has the content planned for its step |
| `SetupProbe.ScorerIsNeverSent` | scripts/harness/verifier_readiness.py:1151-1513 | no command of any probe is the scorer, and the receipt says so |
| `SetupProbe.ProbedReceiptAccepted` | scripts/harness/preflight.py:977-1543 | the validator accepts a receipt of the prober if and only if no virtualenv inherited a failure |
| `SetupProbe.CompiledReceiptAccepted` | scripts/harness/verifier_readiness.py:1761-1900 | the same from script to verdict, for every plan the compiler returns; and from a container that answers, an accepted receipt appears if and only if besides no stateful step precedes a source |
| `SetupProbe.LeadingVenvFails` | scripts/harness/verifier_readiness.py:2833-2884 | a virtualenv first in its batch makes the probe end without a receipt |
| `SetupProbe.ReceiptAppearsIff` | scripts/harness/verifier_readiness.py:1151-1513 | from a container that answers, a receipt appears if and only if no stateful step precedes a source and no virtualenv is first in its batch |
| `SetupObserved.ReceiptAppearsExactly` | scripts/harness/verifier_readiness.py:1151-1513 | the same in terms of step kinds alone: no stateful step before a source, no virtualenv first or right after a source or fixture |
| `SetupProbe.AcceptedReceiptAppearsIff` | scripts/harness/preflight.py:977-1543 | and an accepted one if and only if each virtualenv besides follows a success |
| `SetupProbe.InheritedFailureRejected` | scripts/harness/verifier_readiness.py:2833-2893 | a tolerated failure before a virtualenv gives a receipt that the validator rejects |
| `LifecycleLease.AddressesAreInjective` | scripts/harness/lifecycle_broker.py:30-66 | different identities, ports, kinds or scopes never share a socket name |
| `LifecycleLease.NameTable.Bind` | scripts/harness/lifecycle_broker.py:69-86 | a name has one open description at a time, and a refused bind changes nothing |
| `LifecycleLease.NameTable.Acquire` | scripts/harness/lifecycle_broker.py:102-114 | a lease takes both names or neither, and exactly when both are free |
| `LifecycleLease.NameTable.AcquireAll` | scripts/harness/lifecycle_domain.py:257-305 | recovery takes all six names exactly when all are free, and gives back everything it took otherwise |
| `LifecycleDomain.RunnersAreExclusive` | scripts/harness/lifecycle_domain.py:335-478 | in every run, with deaths at any step, two runners holding their inherited sockets serve different databases on different ports |
| `LifecycleDomain.DirectoryRemovalIsAuthorized` | scripts/harness/lifecycle_domain.py:257-305 | a state directory is removed only by its own live witness, or by a recoverer that alone holds the domain's database and gateway in all three scopes while its witness is dead |
| `LifecycleDomain.HeldDomainIsNotRecovered` | scripts/harness/lifecycle_domain.py:257-305 | while any process other than the deleting one, recoverers included, holds a domain's database or gateway in any scope, no step but its own witness's removes its state |
| `LifecycleDomain.HoldingRunnerKeepsState` | scripts/harness/lifecycle_domain.py:257-305 | in every run, a runner that still holds its launch's runtime sockets keeps that launch's state directory from every recovery by another process, its witness dead or not |
| `LifecycleDomain.SpawnedRunnerHolds` | scripts/harness/lifecycle_domain.py:335-478 | the runner a guardian starts holds both runtime sockets of its launch |
| `LifecycleDomain.DeadStaysDead` | scripts/harness/lifecycle_domain.py:54-58 | a dead incarnation is never taken for alive again, even if its pid is reused |
| `LifecycleDomain.RecoveryExact` | scripts/harness/lifecycle_domain.py:257-305 | an undisturbed recovery deletes exactly if the witness is dead and its database and gateway are free in all three scopes, and changes nothing otherwise |
| `CaseReservation.Allocator.Reserve` | scripts/harness/case_history.py:149-179 | the outcome is decided by the first obstacle, a live lease, a lease that cannot be written or the manifest; all leases are published, or none is left and only dead leases were reclaimed |
| `CaseReservation.PublishedIff` | scripts/harness/case_history.py:149-179 | a reserve publishes if and only if its owner lives, every lease is free and no write fails |
| `CaseReservation.Allocator.Release` | scripts/harness/case_history.py:189-199 | exactly the named leases of the stated owner incarnation are removed |
| `CaseReservation.ReleaseUndoesPublish` | scripts/harness/case_history.py:149-199 | a release by the owner takes back its publication and nothing else |
| `CaseReservation.ReleaseIsExact` | scripts/harness/case_history.py:189-199 | a case is gone after a release if and only if it was asked for and leased to that incarnation; an owner already dead releases nothing |
| `CaseReservation.ValidSelectionPartitions` | scripts/harness/case_history.py:218-238 | an accepted selection splits into new and previously measured cases, the latter all on the allowlist, at least three in all |
| `CaseReservation.ValidSelectionIff` | scripts/harness/case_history.py:218-238 | a selection is accepted if and only if it has three cases or more, none twice, the allowlist is within it, and every case measured before is on the allowlist |
| `CaseReservation.LiveLeaseIsKept` | scripts/harness/case_history.py:98-119 | a live lease leaves the directory only by a release naming its incarnation |
| `CaseReservation.NewTwiceMeansUnrewarded` | scripts/harness/case_history.py:264-278 | in every history a case is admitted as new twice only if it has no recorded reward and its earlier owner released it or died |
| `CaseReservation.RoundsTakeTurns` | scripts/harness/case_history.py:264-278 | of any two rounds of a history that took a case as new, the later did so with no reward recorded and after the earlier owner released it or died |
| `CaseReservation.FoundAfterKill` | scripts/harness/case_history.py:98-179 | right after a kill, whichever processes then live, a reserve can publish if and only if no case it asks for was live before or is among the leases left behind by an owner that is alive |
| `CaseReservation.KilledLeaseBlocks` | scripts/harness/case_history.py:98-179 | at every later point of every history, no reserve of a case left leased by a kill succeeds while its owner lives and has not released it |
| `CaseReservation.DeadOwnerBlocksNone` | scripts/harness/case_history.py:98-119 | in every history, once an owner incarnation is dead, a reserve that is held up is held up by another owner that is alive |
| `CaseReservation.KilledReserveIsPartial` | scripts/harness/case_history.py:149-179 | under a kill, publication is all-or-nothing if and only if it does not fall strictly between the first and last lease |
| `FreshDatabase.StepInv` | scripts/harness/fresh_database_contract.py:690-1065 | every read, write, failure and outside change keeps proofs genuine, markers owned and successes matched |
| `FreshDatabase.VerifiedAtMostOnce` | scripts/harness/fresh_database_contract.py:866-895 | over every interleaving a database identity is verified at most once |
| `FreshDatabase.VerifiedWasFresh` | scripts/harness/fresh_database_contract.py:999-1065 | a verified database was absent at its begin, sealed with one row in each of four seeded tables, none or the bootstrap administrator's in the four of authentication, some table contracts and no row in any other table, with a model checked since, and its counts, boot metadata and model were read back as sealed |
| `FreshDatabase.SealCountsExactlyCleanSeeds` | scripts/harness/fresh_database_contract.py:285-328 | a loaded seal passes its row counts if and only if they are those of a clean seed, table by table |
| `FreshDatabase.FailureBurnsTheIdentity` | scripts/harness/fresh_database_contract.py:1029-1065 | a verify that fails after its marker leaves an identity nothing later verifies |
| `FreshDatabase.PhasesOnlyMoveOn` | scripts/harness/fresh_database_contract.py:690-1065 | if no two begins and no two seals overlap on a path, every proof only moves on between any two points of a run: the same begin, a later phase, the content it was sealed with |
| `FreshDatabase.ClashMovesBack` | scripts/harness/fresh_database_contract.py:690-1065 | from every reachable state with two begins of a path in flight, or two seals one of whose databases is unmarked, some run moves that proof back |
| `FreshDatabase.ClashBreaks` | scripts/harness/fresh_database_contract.py:690-1065 | from every reachable state with two begins of a path in flight, or two seals, marked or not, that can write different proofs or see the first write consumed, some run replaces or takes back that proof |
| `FreshDatabase.FirstOverlapBreaks` | scripts/harness/fresh_database_contract.py:690-1065 | after a run without such overlaps no step breaks any proof, and a start that overlaps leads to a state from which some run breaks that path's proof |
| `FreshDatabase.OverlapMovesBack` | scripts/harness/fresh_database_contract.py:690-709 | on every path and for every database, overlapping begins can take a sealed proof back |
| `DispatchApi.Api.Pause` | scripts/ci/macos_dispatch.py:63-71 | a pause is decided at one clock reading, waits out the cooldown or refuses without sleeping, and a wait was to end before the deadline; a pause that is done leaves no cooldown, so the next one does not wait |
| `DispatchApi.Api.Request` | scripts/ci/macos_dispatch.py:121-135 | an admitted request leaves before the request deadline, or after a wait before the deadline itself but for the wait's overrun, and a rate-limited reply sets the cooldown it asks for |
| `DispatchApi.Api.Ask` | scripts/ci/macos_dispatch.py:137-168 | at most three requests, every one but the last answered by a retryable reply; each but the first leaves only when the backoff from the one before is over, which is never shorter than a rate limit asks for; a final reply leaves no cooldown |
| `DispatchApi.Backoff` | scripts/ci/macos_dispatch.py:157-168 | the wait is what a rate limit states, or its guess doubled on the second attempt, and otherwise two seconds more each time; never less than a rate limit asks for |
| `DispatchApi.Api.Settle` | scripts/ci/macos_dispatch.py:143-158 | a 200 or a 304 yields the resource's current body, and anything else an error with the cache unchanged |
| `DispatchApi.Api.Read` | scripts/ci/macos_dispatch.py:137-168 | given a server obeying sections 13.1.2 and 15.4.5 of RFC 9110, a read returns the body its resource has at its last request, cached or not, and fails only on a spent budget, a final reply or the third retryable one; a read that returns leaves no cooldown |
| `DispatchApi.Api.Collection` | scripts/ci/macos_dispatch.py:176-188 | a collection is the concatenation of distinct pages, at most five, each as it was at its own request, followed link by link until one has none |
| `MiniDispatch.CheckCurrent` | scripts/ci/macos_dispatch.py:206-221 | the answer is what the run, and after it the pull request, say at the requests that read them; an unanswered check never supersedes the source |
| `MiniDispatch.SuccessIffPassed` | scripts/ci/macos_dispatch.py:320-348 | the state is success if and only if a completed successful first attempt has one job whose single test step succeeded |
| `MiniDispatch.FailureIffFailed` | scripts/ci/macos_dispatch.py:320-348 | a first attempt with at most one job is a failure if and only if a test step failed, whatever else the run says, or the run failed past its preflight without its one test passing |
| `MiniDispatch.BusyIffAtWork` | scripts/ci/macos_dispatch.py:320-348 | no outcome is said of exactly the unfinished first attempts without a failed test, and then a runner is at work if and only if the one job has a runner and is in progress |
| `MiniDispatch.ListedAreDispatched` | scripts/ci/macos_dispatch.py:309-317 | the workers are exactly the listed runs of the mini workflow, dispatched under the source's title |
| `MiniDispatch.CheckedIsCurrent` | scripts/ci/macos_dispatch.py:206-221 | a check that succeeds read a current run and after it an open pull request with the expected head, and one that says superseded read that too |
| `MiniDispatch.EndRound` | scripts/ci/macos_dispatch.py:380-390 | a round that goes on took at least a poll interval or reached the deadline, assignment is noted once and never after the queue budget, and the rounds left decrease |
| `MiniDispatch.Observe` | scripts/ci/macos_dispatch.py:358-381 | an outcome of a round is shown by one listed worker and its jobs, the source being current afterwards; a failure alone may stand on an unanswered check, and nothing on a superseded source; a round without an outcome saw no worker, or one unfinished and whether its job is at work |
| `MiniDispatch.WaitForMini` | scripts/ci/macos_dispatch.py:351-390 | waiting ends for every clock and server; success is shown by a unique passed worker and a source read as current after it, superseded by a source read so; a spent budget comes no earlier than an hour after queueing if no round saw a job at work, and otherwise no earlier than the execution time after the first round that did, or after the queue time if that was earlier; no backoff passes two hours from queueing, and every request leaves before the minute after ends, however long sleeps take, but for the first one when a cooldown left over from before the call overran by more than an hour and a minute |
| `ProgressReplay.LogKeepsInv` | scripts/ci/manual_harness.py:590-653 | after every accepted log, queued, active and completed cases are disjoint and within the plan, and a terminal log has completed it |
| `ProgressReplay.SequenceIsConsecutive` | scripts/ci/manual_harness.py:590-653 | accepted events are numbered consecutively within one run |
| `ProgressReplay.RowsWereExecuted` | scripts/ci/manual_harness.py:590-653 | every row comes from a completion, and a passed or failed one was queued and started before it |
| `ProgressReplay.EveryCompletionIsARow` | scripts/ci/manual_harness.py:590-653 | there are as many rows as completions |
| `ProgressReplay.CountsAddUp` | scripts/ci/manual_harness.py:703-707 | the reported counts add up to the completed cases and to the plan |
| `ProgressReplay.SuccessMeansAllPassed` | scripts/ci/manual_harness.py:709-720 | success means exactly the planned number of distinct cases, each queued, started and passed |
| `ProgressCases.ReplayIsCaseByCase` | scripts/ci/manual_harness.py:590-653 | an accepted log leaves every case where its own events leave it, with the last time reported while it ran |
| `ProgressCases.ReplayHead` | scripts/ci/manual_harness.py:590-653 | the plan is that of the first event, made at the expected commit, and the log is terminal exactly once the suite is completed |
| `ProgressCases.AcceptedIff` | scripts/ci/manual_harness.py:590-653 | a log is accepted if and only if each event continues the run and its case's life, new cases fit the plan, and completion finds every planned case done and counted |
| `ProgressReader.PollThenRead` | scripts/ci/manual_harness.py:655-684 | reading a prefix first changes nothing about the read that follows |
| `ProgressReader.PollingIsInvisible` | scripts/ci/manual_harness.py:655-684 | however a growing file is polled, the last read leaves the state, records, offset and error of one read of the whole |
| `ProgressReader.ReadReplaysALog` | scripts/ci/manual_harness.py:655-684 | what a reader reports is the replay of an accepted log made of exactly the bytes it consumed |
| `ProgressReader.Replay.Accept` | scripts/ci/manual_harness.py:590-653 | an event is accepted if and only if it is acceptable, and a refused one changes nothing |
| `ProgressReader.Replay.ReadFile` | scripts/ci/manual_harness.py:655-684 | the reading loop leaves the object as the recursive reader says |
| `Terminal.RunAppends` | scripts/harness/work_surface_live.py:368-393 | feeding in pieces is feeding at once |
| `Terminal.ScrolledLinesAreFrozen` | scripts/harness/work_surface_live.py:296-302 | what has scrolled off is never touched again |
| `Terminal.CursorStaysOnGrid` | scripts/harness/work_surface_live.py:332-366 | a stream without negative counts keeps the cursor on every grid |
| `Terminal.StepCountExact` | scripts/harness/work_surface_live.py:332-366 | a control keeps the cursor on every grid if and only if it is no cursor step or its count is not negative |
| `Terminal.NegativeCountLeavesGrid` | scripts/harness/work_surface_live.py:332-366 | the stream ESC [ -5 A takes the cursor of a fresh screen of up to five rows off the grid |
| `TerminalLaws.TextAppears` | scripts/harness/work_surface_live.py:296-309 | printable text that fits on the line appears from the cursor on, and no other cell changes |
| `TerminalLaws.StepsGoUpAndDown` | scripts/harness/work_surface_live.py:332-366 | a step up or down by n that fits moves by n rows and the opposite step takes it back |
| `TerminalLaws.StepsGoRightAndLeft` | scripts/harness/work_surface_live.py:332-366 | the same to the right and to the left |
| `TerminalLaws.CursorIsAddressed` | scripts/harness/work_surface_live.py:332-366 | an addressed cursor goes to the nearest place to the named row and column, counted from one, wherever it was |
| `TerminalLaws.AddressedStream` | scripts/harness/work_surface_live.py:332-393 | the stream ESC [ row ; column H with any two numbers in decimal puts the cursor there |
| `TerminalLaws.LineIsErased` | scripts/harness/work_surface_live.py:310-316 | erasing in a line blanks exactly the cells from the cursor on, up to it, or all of them |
| `TerminalLaws.DisplayIsErased` | scripts/harness/work_surface_live.py:318-330 | erasing in the display blanks exactly the window after the cursor, before it, or as a whole, the cursor then going home |
| `Screen.Screen.NewlineM` | scripts/harness/work_surface_live.py:296-302 | a newline moves or scrolls the grid as the tape's window moves |
| `Screen.Screen.EraseLine` | scripts/harness/work_surface_live.py:310-316 | erasing in a line erases that stretch of the tape |
| `Screen.Screen.EraseDisplay` | scripts/harness/work_surface_live.py:318-330 | erasing the display erases that part of the window and no scrolled line |
| `Screen.Screen.Feed` | scripts/harness/work_surface_live.py:368-393 | the grid stays the window of the reference terminal for as long as that keeps its cursor on the grid |
| `Screen.Screen.Text` | scripts/harness/work_surface_live.py:395-396 | the text is the window's text, stripped on the right |
| `Screen.Transcript` | scripts/harness/work_surface_live.py:277-396 | a screen fed any pieces of a stream shows what the reference terminal shows after the whole |
| `RustBlanking.BlankNonCode` | scripts/e2e/validate_capability_matrix.py:33-133 | the in-place scan computes the blanked text |
| `RustBlanking.KeptOrMasked` | scripts/e2e/validate_capability_matrix.py:33-133 | each position is in a token and masked, or is code and kept |
| `RustBlanking.BlankingKeepsLayout` | scripts/e2e/validate_capability_matrix.py:33-133 | length and line structure are kept and characters change only to spaces |
| `RustBlanking.NothingToLex` | scripts/e2e/validate_capability_matrix.py:33-133 | no double quote and no comment opener survives |
| `RustBlanking.BlankedIsAllCode` | scripts/e2e/validate_capability_matrix.py:33-133 | no comment or literal starts anywhere in a blanked text |
| `RustBlanking.BlankingIsIdempotent` | scripts/e2e/validate_capability_matrix.py:33-133 | blanking twice is blanking once |
| `RustBlanking.NestedCommentIsOneToken` | scripts/e2e/validate_capability_matrix.py:33-133 | a block comment nested to any depth, lone slashes and stars included, is one token ending at its own closer |
| `RustBlanking.StringLiteralIsOneToken` | scripts/e2e/validate_capability_matrix.py:33-133 | a string literal with any escapes is one token |
| `RustTokens.LineCommentIsOneToken` | scripts/e2e/validate_capability_matrix.py:33-133 | a line comment is one token up to the end of its line or of the text |
| `RustTokens.RawStringIsOneToken` | scripts/e2e/validate_capability_matrix.py:33-133 | a raw string with any number of hashes is one token ending with the first quote followed by as many |
| `RustTokens.CharLiteralIsOneToken` | scripts/e2e/validate_capability_matrix.py:33-133 | a character literal, escaped or not, is one token and a lifetime is none |
| `ToolClosure.ValidateStream` | crates/astra-test-harness/harbor_adapter.py:173-254 | the one-pass check accepts exactly the non-empty well-formed logs in which each tool is settled by its own events |
| `ToolClosure.StuckNeverCloses` | crates/astra-test-harness/harbor_adapter.py:173-254 | a tool that is neither open nor settled at some point never closes, so rejecting at once is right |

## Left out

- Subprocess, container, SQL and HTTP mechanics, the registry-mirror probe and UTF-8 decoding: their results are inputs of the model.
- Shell lexing, command allowlists and scorer recognition in the setup compiler: each script unit arrives classified.
- Shape checks on JSON, digests and timestamps in receipts, proofs and API bodies: values arrive well-typed, and equal digests mean equal contents.
- Launch freshness windows, source revisions and schema manifests of database proofs: they only add refusals.
- FreshDatabase.StepInv: the several SQL statements behind one row-count observation count as one read.
- SetupProbe.ScorerIsNeverSent: that no scorer adapter accepts a text starting like a command of the prober is a condition on the script, since scorer recognition is not modelled, and equal digests mean equal texts.
- DispatchApi.Api.Collection: the link followed is that of the response the page came from, which a 304 does not refresh; only the body is claimed to be current.
- DispatchApi.Api.Request: the reply's quota report is not modelled, nor refusal of another origin.
- MiniDispatch.WaitForMini: the printed announcements are not modelled.
- Screen.Screen.Feed: after the cursor has left the grid nothing is claimed, and decimal digits other than ASCII in parameters are not modelled.
- CaseReservation.LiveLeaseIsKept: the start time is the token the program reads; a process name with blanks shifts that token.
- LifecycleDomain.RunnersAreExclusive: guardian start-up handshakes and signal forwarding are single steps.
- ReadinessSchedule.Makespan: floating-point rounding is not modelled; scheduling overhead between steps takes no time.
- TailDeadline.CleanupShares: synchronous file removal and cancellation take no time; `CleanupEndsByDeadline` and `TailFitsBudget` cover the general case.
- The dispatcher's `schedule` loop, cancellation, gates and source discovery: they add easy members.
- Process supervision, sealed snapshots, release and install scripts, the Rust crates and the web client.
