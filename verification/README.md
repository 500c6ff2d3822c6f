# Verified model of the Hikyo coordination cores

This project models, in Dafny, the parts of Hikyo that keep durable or shared
state correct while processes crash, replies get lost and actors run
concurrently, and proves what those parts are for.

| file | what it models |
|---|---|
| `Lease.dfy`, `SchedulerLoop.dfy` | the fenced singleton lease, its datastore statements, and the HA scheduler loop of any number of nodes |
| `Upgrade.dfy` | the crash-resumable upgrade: host journal and database pending operation over a route of hops |
| `Ledger.dfy`, `Sync.dfy`, `Ordering.dfy` | the adapter ownership ledger, planning, and a converge or teardown run of the in-process provider against the durable journal |
| `Worker.dfy` | the outbox worker: one claimed job, its loads, waits and settlement |
| `Windows.dfy`, `SharedWindows.dfy`, `Backoff.dfy`, `Semaphore.dfy`, `Limiter.dfy` | the admission limiter and the handoff of its counters |
| `Generation.dfy` | replacing the running application graph under live traffic |
| `Endpoints.dfy` | the two listening endpoints across configuration changes |
| `Discovery.dfy` | breadth-first discovery of the releases an upgrade route needs |
| `Faults.dfy` | the failing environment that upgrades and syncs run against |
| `Tracking.dfy` | bounded maps that evict one entry when full |
| `Options.dfy`, `Numbers.dfy` | an option type and small arithmetic |

Three modelling conventions recur.

* A protocol between concurrent actors is a state machine: a total function
  `Apply` for one atomic step (an action that is not enabled changes nothing), a
  fold `Run`, and theorems over every action sequence. Where the source is one
  loop updating its own variables, a class with those variables is proved
  against the step functions (`SchedulerLoop`).
* A sequential program against a failing environment takes an arbitrary
  sequence of choices, one per outside action: it returned, it failed, or the
  process died there, and how much of its durable effect landed. "Cut after any
  step" is then "for every choice sequence", and a failure-free run is a
  predicate on choices (`Smooth`, `Clean`).
* Instants are integers (nanoseconds where a unit matters) on a clock that never
  goes back.

## Where the code and its documentation disagree

The model follows the code.

* The comment on `RecordFailure` gives the backoff exponent as failures - 5. The
  code shifts by failures - 6 (`Backoff.DelayCurve`), so the sixth failure waits
  one second and not two (`Backoff.SixthFailureWaitsOneSecond`). Past the
  threshold the documented curve is the code's if and only if there were at least
  twelve failures, where both are capped (`Backoff.DocumentedCurveExactly`).
* `InheritCounters` is documented as final: the old limiter must not serve again
  after a successful handoff. `Activate` nevertheless resumes the old graph when
  installing a replacement connection pool fails after the handoff
  (internal/app/owner_runtime.go:299-303). For every handoff of every run, the old
  graph stays silent for good if and only if the activation replaces no pool
  (`Generation.HandoffFinalExactly`); with a pool, one failure is enough
  (`Generation.PoolResumes`). Both kinds of handoff occur
  (`Generation.HandoffHappens`).

## Results that needed a condition

* Lease exclusion needs the contract that a call returning an error has taken
  effect by then or never will. `Lease.LateRenewalBreaksExclusion` gives the run
  with two live leaders when one errored renewal lands late.
* That contract says nothing of a call that a crash cuts off. The statement it left
  in flight is an orphan in the model and may land at any later time. A crash is
  harmless in every continuation if and only if the fence its statement names had
  been issued by then, to whomever (`Lease.OrphanSafeExactly`; a claim names none).
  The other case exists because a claim that rolls back may have returned a fence
  (`Lease.OrphanBreaksExclusion`): its confirmation or release lands once the
  restarted node has been issued that very fence. The theorems about the cluster
  hold over every run without such a landing (`Tame`); fenced writes hold over every
  run at all.
* The sliding window reads its clock before it takes its lock, so attempts may take
  the lock out of clock order. For every order of readings, the last attempt is
  decided exactly under all subjects and allowances if and only if no attempt that
  had the lock before it prunes an instant of another that is still live at its own
  reading (`Windows.ExactExactly`). Readings in order are the simplest such case
  (`Windows.InOrderNotOvertaken`), `Windows.LateReadingIsThird` is a run that admits
  three under an allowance of two, and no order ever refuses too early
  (`Windows.NeverWronglyRefused`).
* A plan predicts a sync only for an upper-case name prefix.
  `Sync.PlanPredictsSync` proves the prediction for every such prefix, and
  `Sync.MixedCasePrefixMisplans` refutes it for every other one. The HTTP contract
  admits only upper-case prefixes (api/openapi.yaml:11615), so the misplan exists
  only for a caller of the module itself.
* A teardown whose manifest is empty, which is what a scrub job is given because it
  loads no entries (internal/store/adapter_runtime.go:152-154), keeps the sentinel
  bracketing at every cut if and only if no present ordinary name of ours sorts
  after a sentinel of ours in the prune order (`Sync.EmptyTeardownBracketed`, where
  the condition is `Orderly`). The sentinels are recognised by their suffix, so a
  deliverable name with that suffix can break it (`Sync.SuffixNameAccepted`,
  `Sync.SuffixNameBreaks`), and `Sync.Session.CutTeardown` reaches every such cut.
* A teardown whose manifest is not empty removes the sentinels and keeps ordinary
  names. Its completed state is bracketed if and only if someone else's names stand
  where the sentinels would (`Sync.TeardownBracketed`).
* The fixed shared window admits up to twice its allowance in a minute, and
  `SharedWindows.TwiceIsReached` shows that this is attained.

## Model

| member | source | states |
|---|---|---|
| Lease.RunInv | internal/app/scheduler.go:169-334 | every reachable cluster state keeps the protocol invariant: issued fences, backed leaders, one awaited term per node, ordered writes, and orphaned statements that touch nothing a restarted node relies on |
| Lease.LeaseExclusion | internal/app/scheduler.go:169-334 | over every interleaving with lost replies, pauses, shutdowns, crashes and orphans that land late, at most one node leads before its own deadline, and the row then is exactly its owner and fence and lives at least that long |
| Lease.OrphanSafeExactly | internal/app/scheduler.go:36-41 | from any reachable state, a crash with a statement in flight keeps exclusion in every continuation if and only if the fence it names had been issued |
| Lease.StrayElectsTwo | internal/app/scheduler.go:299-320 | from any reachable state the other kind of crash, with a standby at hand, has a continuation with two live leaders |
| Lease.OrphanBreaksExclusion | internal/app/scheduler.go:299-320 | such a state is reachable: a claim rolls back after returning its fence and the node crashes while confirming it |
| Lease.TermDiscipline | internal/app/scheduler.go:183-222 | live terms of a node never overlap, each runs under a fence issued to that node, and no two terms of the cluster share a fence |
| Lease.TermStartsConfirmed | internal/app/scheduler.go:287-326 | a term starts only by an error-free reply to a committed claim or an exact renewal, on a node that is not stopping and whose earlier terms have all exited |
| Lease.ReplyStarts | internal/app/scheduler.go:295-325 | the node-level form: which replies start a term, and under which fence |
| Lease.RowDiscipline | internal/store/coordination.go:65-177 | the row changes only by its own owner at its fence, in this life or an earlier one, or by a takeover under the next fence once expired; a release finds every term exited; no statement of a leader shortens what it relies on |
| Lease.JoinInv | internal/app/scheduler.go:226-250 | the shutdown branch reaches the release only with no term of the node alive |
| Lease.FencedWrites | internal/store/coordination_fence.go:33-80 | committed singleton writes carry nondecreasing fences over every run, whatever lands when, and after a claim nothing with a lower fence commits |
| Lease.LiveLeaderWritesAlone | internal/app/scheduler.go:62-69 | while a leader is live no other node's term, and no older term of its own, can commit |
| Lease.HeartbeatElects | internal/app/scheduler.go:251-326 | from any state in which the row can be claimed, a clean heartbeat of any standby, with a provisional claim or without, makes it the live leader under the next fence |
| Lease.LateRenewalBreaksExclusion | internal/app/scheduler.go:37-41 | a concrete run with two live leaders when an errored renewal takes effect later |
| SchedulerLoop.Loop.constructor | internal/app/scheduler.go:170-187 | the loop starts with no leadership, fence, claim or term |
| SchedulerLoop.Loop.DropLeadership | internal/app/scheduler.go:189-195 | the fields after a drop are the step function's |
| SchedulerLoop.Loop.TermDraining | internal/app/scheduler.go:199-210 | reports a term that has not exited and forgets one that has |
| SchedulerLoop.Loop.StartTerm | internal/app/scheduler.go:212-222 | the fields after starting a term are the step function's |
| SchedulerLoop.Loop.KeepLease | internal/app/scheduler.go:265-286 | the leader's half of a heartbeat is the fail-closed check followed by the renewal step |
| SchedulerLoop.Loop.Acquire | internal/app/scheduler.go:287-326 | the standby's half is the gate, confirm and claim steps in that order, with cancellation seen after each call |
| SchedulerLoop.Loop.TermsExit | internal/app/scheduler.go:199-221 | terms that end change nothing else of the loop |
| SchedulerLoop.Loop.Tick | internal/app/scheduler.go:251-326 | a whole heartbeat equals the composition of the cluster's step functions, with terms exiting before the draining check and after it |
| SchedulerLoop.Loop.Shutdown | internal/app/scheduler.go:226-250 | shutdown drops, waits, and releases exactly when the join step would |
| SchedulerLoop.HeartbeatIsRun | internal/app/scheduler.go:251-326 | a heartbeat whose answers come from the rows its statements commit on, with any actions of others in between, its own terms exiting at any time and any fate of each call, ends where some run of the cluster ends, so the run theorems cover nodes that run this loop |
| SchedulerLoop.UnreachableIsRun | internal/app/scheduler.go:255-263 | the same of a heartbeat that cannot read the clock |
| SchedulerLoop.HeartbeatKeepsInv | internal/app/scheduler.go:251-326 | after any run and then a heartbeat of the loop the cluster invariant holds of the loop's own state |
| Upgrade.ValidPendingIsExact | internal/app/automatic_apply.go:207-233 | on readable control records the pending and healthy checks accept exactly the one record of that hop |
| Upgrade.DispositionIsExact | internal/app/automatic_apply.go:235-277 | for any journal of the route and any readable database: migrations are asked for exactly at the unchanged measured source with no published write, or at a prepared operation under a recorded intent, and skipped exactly when this hop's write is recorded complete |
| Upgrade.Abort | internal/app/automatic_apply.go:46-53 | the failure fence keeps journal and database as they are and leaves the unit fenced and stopped when it returns |
| Upgrade.ConfirmMigrated | internal/app/automatic_apply.go:98-113 | schema-applied is published only over the exact applied hop, and any cut leaves journal and database corresponding |
| Upgrade.MigrateHop | internal/app/automatic_apply.go:83-114 | migrations run only from the measured source or a prepared operation; any cut survives; a failure-free run of a resumable state proceeds |
| Upgrade.RecordRefusal | internal/app/automatic_apply.go:294-318 | the database half of a health failure only moves an applied hop to restore-required and never reverses a healthy one |
| Upgrade.RecordHealthFailure | internal/app/automatic_apply.go:288-320 | a health failure makes the journal terminal at that hop and leaves both sides corresponding wherever it is cut |
| Upgrade.AwaitHealthy | internal/app/automatic_apply.go:131-140 | a candidate is accepted only when the database is exactly healthy at the hop, and is the only executable that can run meanwhile |
| Upgrade.StartHop | internal/app/automatic_apply.go:115-144 | a recorded hop is healthy in the database with its executable installed and serving |
| Upgrade.Hop | internal/app/automatic_apply.go:75-150 | one pass of the loop keeps the correspondence and the fence and advances the journal by exactly one hop |
| Upgrade.RunHops | internal/app/automatic_apply.go:75-150 | for routes of any length hops are migrated in order, each at most once a run, from the journal's position |
| Upgrade.CheckEntry | internal/app/automatic_apply.go:54-73 | entry proceeds only from a valid position and always from a resumable state |
| Upgrade.Finish | internal/app/automatic_apply.go:151-171 | completion lifts the fence only over the final healthy hop and publishes complete, without touching the database |
| Upgrade.ApplyRoute | internal/app/automatic_apply.go:43-172 | for every choice of failures and of the moment of death the journal and database still correspond and no executable can run over a schema that is not its own; success means complete, final release healthy, out of maintenance and serving |
| Upgrade.RestartsGuarded | internal/hostupgrade/host.go:336-359 | wherever the coordinator was cut, a restart of the unit or a reboot of the host starts nothing over a schema that is not its own, and a reboot starts something only over an untouched database or the finished route |
| Upgrade.Prepare | internal/app/automatic_upgrade.go:277-310 | a new operation opens its journal, fences and proves its evidence over an untouched database, at every cut |
| Upgrade.CompleteIsSource | internal/app/automatic_upgrade.go:206-232 | a completed route leaves the database at the source of any route that goes on from its target |
| Upgrade.Resume | internal/app/automatic_upgrade.go:311-320 | an unfinished operation resumes behind the fence |
| Upgrade.Begin | internal/app/automatic_upgrade.go:277-320 | a new operation ends under the new route, or under the old one unchanged |
| Upgrade.Attempt | internal/app/automatic_upgrade.go:122-329 | one invocation: a terminal journal only fences; no route means installed and no change; an unfinished journal resumes its own route or is refused unchanged; anything else begins a new operation; a new or resumable one completes without failures |
| Upgrade.CrashThenResume | internal/app/automatic_upgrade.go:122-329 | from a completed or barely begun operation, after any number of cut invocations with reboots and restarts between them, every surviving state corresponds and is guarded, one failure-free invocation completes the route unless the state needs an operator, and over all invocations together hops are migrated in nondecreasing order |
| Upgrade.RunMigrations | internal/app/automatic_apply.go:90-97 | callable only at the measured source or a prepared hop; leaves that hop applied, or interrupted in a recorded phase |
| Ledger.ValidateManifest | internal/adapter/adapter.go:236-265 | accepts exactly manifests whose every entry is deliverable and whose names are distinct up to case |
| Ledger.IndexLedger | internal/adapter/ledger.go:18-27 | refuses exactly ledgers with a missing mark on a bare reservation; otherwise the last row of each key |
| Ledger.BuildDesiredRows | internal/adapter/ledger.go:58-83 | the loop and stable sort give the desired rows |
| Ledger.DesiredRowsShape | internal/adapter/ledger.go:58-83 | desired rows are exactly the manifest and the sentinels, one row per key, sentinels first |
| Ledger.SentinelNameTaken | internal/adapter/adapter.go:245-250 | no deliverable name collides with the sentinel even up to case |
| Ledger.PlanChanges | internal/adapter/ledger.go:101-127 | the planned changes as a set, in sorted order |
| Ledger.Undesired | internal/adapter/ledger.go:129-175 | exactly the undesired rows, split by bare reservation, without repetition, the prunes sorted with sentinel-suffixed names last |
| Sync.Session.Deliver | internal/app/adapter_fake_dev.go:193-247 | gate, prepare, write, finish: any cut touches only its own row, never loses a claim, and success delivers the value as owned |
| Sync.Session.SyncRow | internal/app/adapter_fake_dev.go:162-248 | a present name without a claim is refused untouched; otherwise the row is delivered with the right disposition; any cut keeps the ledger's identity of the name |
| Sync.Session.SyncRows | internal/app/adapter_fake_dev.go:159-248 | at every cut the unclaimed names are untouched, the final state is unchanged, reported rows are delivered, and the sentinels bracket |
| Sync.Session.ReleaseReservation | internal/app/adapter_fake_dev.go:250-255 | drops one bare reservation and no provider name |
| Sync.Session.Prune | internal/app/adapter_fake_dev.go:256-275 | deletes the name before its ledger row at every cut |
| Sync.Session.DropAll | internal/app/adapter_fake_dev.go:249-275 | at every cut a prefix of the reservations is gone, and only then a prefix of the prunes in their order and perhaps the next name; the choices decide where |
| Sync.Session.DropUndesired | internal/app/adapter_fake_dev.go:249-276 | releases and prunes exactly what is undesired and ends in the run's final state |
| Sync.Session.Sync | internal/app/adapter_fake_dev.go:144-277 | for every cut: no present unclaimed name changes; success ends with exactly the desired values and owned rows and reports exactly the row changes and deletions; a conflict is reported only when there is one; failure-free runs without conflict succeed; ordinary names stay between the sentinels; an empty teardown ends in one of its cuts, and in the one its choices name |
| Sync.Session.CutTeardown | internal/app/adapter_fake_dev.go:249-275 | every cut of an empty teardown at the deletion of a claimed name is reached by a run |
| Sync.Session.Job | internal/adapter/outbox.go:194-237 | any number of cut runs, resumed with the reported names or restarted without them, then a failure-free run, end in the same state as one undisturbed run |
| Sync.Session.Plan | internal/app/adapter_fake_dev.go:116-138 | the plan is the planned set over the persisted ledger and the listed secrets |
| Sync.Session.PlanThenSync | internal/app/adapter_fake_dev.go:116-277 | a plan followed by a run: with an upper-case prefix, no planned conflict and no unclaimed variable in the way, the run meets no conflict, succeeds without failures, and success reports exactly the plan with unknown turned into create |
| Sync.DoneIsSkippable | internal/adapter/outbox.go:209-232 | skipping names that are already delivered does not change where a run ends |
| Sync.SettledIsFinal | internal/app/adapter_fake_dev.go:144-277 | a settled provider and ledger are a fixed point of a run |
| Sync.PlanPredictsSync | internal/adapter/ledger.go:101-127 | with an upper-case prefix, no planned conflict and no unclaimed variable in the way, a run meets no conflict and reports the planned changes with unknown turned into create |
| Sync.MixedCasePrefixMisplans | internal/adapter/ledger.go:85-91 | for every prefix that is not upper-case there is a provider where the plan hides a conflict |
| Sync.PrunesRespect | internal/adapter/ledger.go:158-175 | the prunes of a converge run drop no sentinel, and those of an empty teardown whose names are orderly drop no present ordinary name after one |
| Sync.EmptyTeardownBracketed | internal/adapter/ledger.go:129-175 | from a bracketed state an empty teardown is bracketed at every cut if and only if no present ordinary name of ours sorts after a sentinel of ours |
| Sync.SuffixNameBreaks | internal/adapter/ledger.go:158-175 | any other name with the sentinel suffix that sorts after the sentinel gives a bracketed state with a cut that is not |
| Sync.SuffixNameAccepted | internal/adapter/adapter.go:236-265 | manifests accept such a name |
| Sync.TeardownBracketed | internal/app/adapter_fake_dev.go:159-276 | a completed teardown is bracketed if and only if its manifest is empty or foreign names stand in for both sentinels |
| Worker.RetryDelay | internal/adapter/outbox.go:111-123 | the loop computes thirty seconds doubled per attempt up to an hour, and the default jitter draws from its upper half |
| Worker.RetryDue | internal/adapter/outbox.go:125-130 | a future instant named by the provider wins, otherwise the backoff; never due in the past |
| Worker.Absorb | internal/adapter/outbox.go:221-232 | completed names grow by exactly the reported ones, without repetition |
| Worker.FinishedLog | internal/adapter/outbox.go:132-254 | an accepted run settles its job exactly once, last, and has released every load before it loads, waits or settles |
| Worker.PhaseCounts | internal/adapter/outbox.go:160-216 | at every point at most one load is outstanding and at most one settlement made |
| Worker.Runner.WaitOut | internal/adapter/outbox.go:217-236 | a wait targets at most the safe deadline and moves the clock strictly forward, so the rate-limit loop ends |
| Worker.Runner.TryActivation | internal/adapter/outbox.go:161-175 | a tested activation releases its load before activating, and only a successful activation settles |
| Worker.Runner.RunActivation | internal/adapter/outbox.go:151-193 | an activation job ends settled once |
| Worker.Runner.SyncLoaded | internal/adapter/outbox.go:207-213 | a sync is told exactly the names reported before it and its load is released after it |
| Worker.Runner.RunSync | internal/adapter/outbox.go:194-254 | a sync job ends settled once: success after a successful sync, failure after a terminal refusal, retry otherwise |
| Worker.Runner.Refuse | internal/adapter/outbox.go:238-253 | fails exactly terminal refusals of the stage and schedules a retry for the others |
| Worker.Runner.RunOnce | internal/adapter/outbox.go:132-254 | every claimed job is settled once under a lease whose safe deadline no wait passes |
| Windows.PruneInPlace | internal/admission/admission.go:427-433 | in-place compaction leaves exactly the live instants in order |
| Windows.SweepStale | internal/admission/admission.go:448-460 | removes exactly the subjects with nothing live |
| Windows.OldestSubject | internal/admission/admission.go:466-476 | finds a subject whose first stored instant is oldest |
| Windows.EvictStale | internal/admission/admission.go:448-481 | forgets at most one live subject, exactly when the sweep leaves the map full, and then an oldest one |
| Windows.AllowIn | internal/admission/admission.go:415-443 | the effect of one attempt on a bucket, refused or admitted, with or without eviction |
| Windows.ChargedBounded | internal/admission/admission.go:415-481 | an attempt keeps the map within 4096 subjects with no empty key and no empty list |
| Windows.ChargedKeepsLive | internal/admission/admission.go:438-480 | an attempt forgets no live subject but the one an eviction names, which takes 4096 other live subjects |
| Windows.TraceBounded | internal/admission/admission.go:415-481 | the bounds hold over every run of attempts and handoffs, in whatever order attempts take the lock |
| Windows.Remembered | internal/admission/admission.go:415-443 | at any instant that nothing overtakes, the stored instants are exactly the live part of the subject's admission history since it was last forgotten |
| Windows.SlidingWindowExact | internal/admission/admission.go:415-443 | over every run and across handoffs an attempt that is not overtaken is admitted if and only if fewer than the allowance were admitted since a minute before it, and is then within the allowance |
| Windows.ExactExactly | internal/admission/admission.go:423-433 | for every order of clock readings the last attempt is always decided exactly if and only if none before it prunes an instant that is live at its reading |
| Windows.OvertakenOverAdmits | internal/admission/admission.go:423-433 | for every other order a run admits beyond the allowance |
| Windows.InOrderNotOvertaken | internal/admission/admission.go:423-426 | attempts that lock in clock order are never overtaken |
| Windows.LateReadingIsThird | internal/admission/admission.go:423-426 | a run that admits three within a minute under an allowance of two |
| Windows.NeverWronglyRefused | internal/admission/admission.go:415-443 | in every run an attempt with allowance to spare is admitted |
| Windows.NothingForgotten | internal/admission/admission.go:461-480 | without an eviction of the subject its history is all its admissions |
| SharedWindows.WindowBound | internal/admission/admission.go:269-285 | one fixed window admits at most the allowance, whatever increments failed or landed |
| SharedWindows.FixedWindowTwice | internal/admission/admission.go:115-119 | any minute of any run admits a subject at most twice its allowance |
| SharedWindows.TwiceIsReached | internal/admission/admission.go:115-119 | bursts on both sides of a boundary reach that bound |
| Backoff.DelayCurve | internal/admission/admission.go:509-515 | from the sixth failure the delay is min(2^(n-6), 60) seconds, and the shift stays within 64 bits |
| Backoff.DocumentedCurveExactly | internal/admission/admission.go:553-554 | past the threshold the documented min(2^(n-5), 60) seconds holds if and only if there were at least twelve failures |
| Backoff.SixthFailureWaitsOneSecond | internal/admission/admission.go:553-554 | the first delay differs from the documented one |
| Backoff.DelayMonotone | internal/admission/admission.go:509-515 | more failures never shorten the delay |
| Backoff.EvictAccounts | internal/admission/admission.go:644-667 | drops accounts without a running delay and, only if still full, one whose delay ends soonest |
| Backoff.Soonest | internal/admission/admission.go:656-663 | finds an account whose delay ends soonest |
| Backoff.RecordFailure | internal/admission/admission.go:589-605 | the new state of the account, the eviction and the threshold report |
| Backoff.RecordedBounded | internal/admission/admission.go:589-667 | tracking stays within 4096 accounts and forgets no running delay but the one an eviction names |
| Backoff.RunsCorrespond | internal/admission/admission.go:517-605 | over every sequence of failures and successes the stored deadline is the one the shared row implies |
| Backoff.BackoffAgreement | internal/admission/admission.go:517-605 | both forms give the same delay and the same failure count at every instant |
| Backoff.RecordedIsRun | internal/admission/admission.go:577-605 | without eviction a recorded failure is the agreed step, with the same threshold report |
| Semaphore.Derive | internal/admission/admission.go:201-241 | refuses exactly configurations where one verification cannot fit; otherwise the largest number that fits, up to eight |
| Semaphore.SlotsConserved | internal/admission/admission.go:335-369 | over every interleaving free slots plus unreleased leases equal the concurrency however often releases run, and waiters stay within sixteen |
| Semaphore.MemoryBound | internal/admission/admission.go:194-241 | unreleased leases times the Argon memory never exceed the budget less headroom |
| Semaphore.AtRestExactly | internal/admission/inherit.go:34-50 | under the invariant the lifecycle lock, queue and slots are at rest exactly when no operation is in progress and every lease is back: a waiter always holds the lock |
| Semaphore.QuiescentExactly | internal/admission/inherit.go:34-50 | the same of every run of arrivals, cancellations and releases |
| Limiter.CloneWindows | internal/admission/inherit.go:68-74 | the copy holds every subject's instants in a newly allocated slice of its own, shared with no other subject |
| Limiter.AdmissionLimiter.constructor | internal/admission/admission.go:226-240 | a new limiter is bounded, unused and at rest |
| Limiter.AdmissionLimiter.UseShared | internal/admission/admission.go:246-255 | attaches the shared counters and leaves the slots and memory counters of this node as they are |
| Limiter.AdmissionLimiter.AllowIP | internal/admission/admission.go:408-413 | charges the sliding or the shared window and keeps every map bounded |
| Limiter.AdmissionLimiter.AllowDiscovery | internal/admission/admission.go:375-382 | the same for the discovery bucket and its own allowance |
| Limiter.AdmissionLimiter.AllowIssuerRefresh | internal/admission/admission.go:399-406 | the same for issuer refreshes |
| Limiter.AdmissionLimiter.RecordFailure | internal/admission/admission.go:560-586 | records in memory or in the shared row; a coordination error never reports a crossing |
| Limiter.AdmissionLimiter.RecordSuccess | internal/admission/admission.go:608-628 | resets the account wherever it is kept |
| Limiter.AdmissionLimiter.AccountDelay | internal/admission/admission.go:487-551 | the memory or shared delay, or the advertised retry delay when the store is unreachable |
| Limiter.AdmissionLimiter.Arrive | internal/admission/admission.go:335-361 | a caller is queued exactly while fewer than sixteen wait, and is then inside |
| Limiter.AdmissionLimiter.Depart | internal/admission/admission.go:343-369 | a caller leaves with a fresh lease, or with none when it gives up, and gives back its place and the lifecycle lock either way |
| Limiter.AdmissionLimiter.Release | internal/admission/admission.go:346-347 | a lease gives its slot back once, however often it is released |
| Limiter.AllowShared | internal/admission/admission.go:269-285 | charges one hit, refuses on a failed increment or beyond the allowance |
| Limiter.AdmissionLimiter.InheritCounters | internal/admission/inherit.go:27-66 | the answer is the verdict on identity, rest, use and backend in that order; a refusal has no effect; success carries every counter and the backend, and leaves the previous limiter alone |
| Limiter.DrainedInherits | internal/admission/inherit.go:17-26 | with no operation in progress and the leases back, the handoff is not refused as non-quiescent, and an unused candidate that keeps the backend inherits |
| Generation.RunInv | internal/app/owner_runtime.go:72-336 | every reachable state keeps the fences, the served values, the candidates' graphs and every graph's limiter in order |
| Generation.GenerationExclusion | internal/app/owner_runtime.go:206-336 | in every interleaving at most one generation has a live request or worker, and it is the current one |
| Generation.ValuesDescribeServed | internal/app/owner_runtime.go:226-335 | the served values always describe the served graph |
| Generation.ReplacedOnlyWhenQuiet | internal/app/owner_runtime.go:278-336 | the current generation is replaced only with no request and no worker left, by a fresh one of the same graph or of the candidate's, working if the server serves |
| Generation.RequestsAdmitted | internal/app/owner_runtime.go:72-83 | whenever no change is in progress and no shutdown has begun, a request is admitted: every way out of an activation lifts its fence |
| Generation.HandoffNeverRefused | internal/app/owner_runtime.go:295-298 | after the join the handoff answers non-quiescent exactly when a lease of the retiring graph is out, otherwise a changed backend exactly when the candidate is configured with one that is not recognisably the one the process started with, otherwise success; never counters in use |
| Generation.BackendNeverChanges | internal/admission/inherit.go:57-61 | over every run and any chain of handoffs the served limiter counts in the backend the process started with |
| Generation.HandoffFinalExactly | internal/admission/inherit.go:20-21 | after a successful handoff the old graph is silent in every continuation if and only if the activation replaces no pool |
| Generation.PoolResumes | internal/app/owner_runtime.go:299-303 | from any handoff with a pool, a failed pool and one request put the old graph back to work |
| Generation.HandoffHappens | internal/app/owner_runtime.go:206-298 | runs reach a successful handoff with a pool and without |
| Generation.StoppedForGood | internal/app/owner_runtime.go:95-112 | after stop nothing is live in any later state |
| Endpoints.CloseAll | internal/app/runtime_listener.go:56-63 | closes every given connection while others arrive |
| Endpoints.ReplaceTransport | internal/app/runtime_listener.go:53-64 | after a replacement every connection accepted before is closed and the tracked ones speak the new transport |
| Endpoints.Reuse | internal/app/runtime_listener.go:170-175 | finds an endpoint in use under the address, other than the one taken, if and only if there is one |
| Endpoints.Reserve | internal/app/runtime_listener.go:168-201 | the chosen endpoints are distinct, in use or newly bound in the right role and transport |
| Endpoints.Owner.Prepare | internal/app/runtime_listener.go:168-201 | reserves without touching what is served; a failed second bind leaves the first one retired |
| Endpoints.Owner.Close | internal/app/runtime_listener.go:203-210 | retires exactly what the preparation reserved |
| Endpoints.Owner.Activate | internal/app/runtime_listener.go:212-241 | installs exactly a preparation that is not superseded and keeps the endpoint invariant |
| Endpoints.Owner.Accept | internal/app/runtime_listener.go:37-51 | a new connection is tracked on the current transport |
| Endpoints.InstalledRoles | internal/app/runtime_listener.go:214-233 | whatever is reused, swapped or new, public ends on the served certificate and operational in plaintext, distinct and in role |
| Endpoints.InstalledValid | internal/app/runtime_listener.go:212-241 | every other endpoint is then retired or reserved by exactly one pending preparation |
| Endpoints.ReplacementClosesAll | internal/app/runtime_listener.go:14-16 | no connection accepted before an endpoint's transport or role changed survives the activation |
| Discovery.First | internal/app/automatic_release.go:149-171 | the first reference in the sort order |
| Discovery.Collect | internal/app/automatic_release.go:132-143 | exactly the admissible references that are not present |
| Discovery.Relabel | internal/app/automatic_release.go:144-148 | the depth labels after a pass |
| Discovery.Expand | internal/app/automatic_release.go:144-148 | expanding a nearest reference keeps every label equal to its breadth-first distance |
| Discovery.CompleteUpTo | internal/app/automatic_release.go:172-174 | every release up to the nearest undiscovered reference is labelled, and nearer ones are present |
| Discovery.Pass | internal/app/automatic_release.go:95-223 | one pass stops with a justified result or adds exactly one release |
| Discovery.Discover | internal/app/automatic_release.go:92-224 | ends within 256 releases with exact labels; a returned route of k steps leaves every undiscovered admissible release at distance at least k; a refusal names its reason |
| Discovery.RouteBoundsDistance | internal/app/automatic_release.go:138-142 | along any route over edges the catalogue knows, from an installed release or a genesis source, a release is at least its reference distance from the target, so pruning loses none |
| Discovery.NoRouteOutside | internal/app/automatic_release.go:172-178 | every route of at most k steps, from any source over any such edges, already runs through discovered releases after its source |
| Discovery.GloballyShortest | internal/app/automatic_release.go:172-178 | a planner that gives the fewest steps the bundle offers over its own edges gives the fewest its edges offer at all, with the same ties |

## Left out

- Lease: maintenance revocation of leases and the topology check before a claim; timers, logging and `OnTick`; two processes under one node identity at the same time.
- SchedulerLoop: the single-node loop without a lease, and the job loop itself.
- Upgrade: staging, custody, and what the encrypted backup and evidence before the `proved` phase hold; a control record without any pending operation; the timeouts; a restart of the unit while the coordinator runs, as opposed to after it was cut.
- Upgrade.Attempt: how the route is planned; any route that starts from the measured source stands for it. A host without a journal, which begins like one with a completed journal, and a target version named by the operator are left out.
- Sync: the provider's test credentials (`revoked`, `e2e-possible-capture`, `e2e-owned-missing`); the `released` ledger state and route-move claims of the durable journal; other actors writing the same names.
- Ledger: case mapping beyond ASCII letters, the GitHub name rules and `ValidateCompletion`.
- Worker: the polling loop `Run`, the log line after an hour of failures, and the warnings and failed changes carried by a settlement.
- Windows.PruneInPlace: the compacted slice is an array inside the attempt; buckets themselves are map values, so only `Limiter.CloneWindows` speaks of backing arrays.
- Limiter: `Snapshot`, logging, nil and zero-value receivers, and the two-second timeout of shared calls; a shared call is a success, or a failure with or without effect.
- Generation: building graphs, the development provider check beyond its refusal, response draining, and calling `serve` after `stop`.
- Endpoints: starting servers, response tracking, and the shutdown of `serve`; endpoints are values in a table indexed by identity rather than heap objects.
- Discovery: signatures, digests and the planner's own search; the planner is any function of the bundle over any part of the catalogue's edges, and its optimality within the bundle is a hypothesis of `GloballyShortest`.
- Authorization evaluation, audit, HTTP, CLI, MCP, Kubernetes, cryptography and SQL are not modelled: they would add members without a deep property, or I/O.
