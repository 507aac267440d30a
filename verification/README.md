# MaintenanceJob operator: a verified model

The operator turns `MaintenanceJob` resources into real, reversible failures: it plans an action,
persists a revert token in the resource's status, and only then changes the cluster. The status is a
write-ahead undo log; a crash at any point must leave enough in it to restore everything later. This
project models the operator's controller, its five injection actions and its startup sweeper in Dafny
and proves that promise, and what surrounds it, over every run of the system.

`dafny verify dfyconfig.toml` checks the whole project.

## How it is built

Two descriptions of the operator are proved to agree.

* **The protocol** (`Protocol`, `UndoLog`, `Invariants`, `Theorems`, `Runs`, `Drain`, `Restarts`,
  `Deadman`). A `World` holds what is durable: resources with their status and finalizer, Deployments,
  Jobs, chaos objects, the leak ConfigMap and the clock. A `Label` is one atomic step: an API write of
  the operator, a user's write, a completion or loss in the cluster, a step of the sweeper, the passing
  of time. `Allowed` says what the operator may write in terms of what is durable, so a crash is simply
  the end of a pass: every prefix of a legal run is a legal run. The theorems speak of every reachable
  cluster and every legal run from one.
* **The program** (`ApiServers`, `Injectors`, `Reconciler`, `Sweepers`). The reconciler, the actions
  and the sweeper are classes and methods that follow the Go code branch by branch against an
  API server whose reads may be stale, whose calls may fail before or after they took effect, and
  between whose calls everybody else may act. A ghost trace records each step as a label; the
  methods' contracts prove that the trace stays legal. So the theorems hold of the program.

`Actions` gives the effect of each Plan, Ensure and Revert as a function of the cluster; `Injectors`
proves the step-by-step methods against it, and `Obstacles` says, from the objects in the cluster, when
exactly each fails or waits and what it reaches otherwise. `Interference` says what others leave in
place during a pass. `Names` holds the string facts, `Helpers` the decisions, `Passes` what a pass
computes on values. `Witnesses` puts together, with the steps in `Steps`, the runs that show where a
property ends.

Four fields of the model are not in the cluster and only remember: the audit of finished runs and the
era of the latest run of a resource, the runs ever started by era, and the margin, era and phase a Job
was made with. The ghost counter `faults` of the API server counts failed calls; a pass without a new
fault is one in which every call succeeded.

## Hypotheses

They are stated in the contracts, most of them through `Env` and `Allowed`.

* `env.freshReads` groups what restoration needs and the code does not enforce. The operator reads its
  own writes. Targets are disjoint across scenarios (`env.domain`), since Scale's Plan does not look
  at the held-by annotation. An action with a live token keeps its type and workload name, since
  Workload's Ensure looks up the token's name but creates the spec's. `knownGoodImage` is empty or
  the original image. Force-release is not used, nobody else writes to a target (a target may
  vanish), and targets start unheld and unmarked. With `freshReads` off, the operator may decide on
  any earlier version and users may do anything; write-once, finalizer safety, release by force and
  the leak keys hold all the same.
* `env.quiet` names the scenarios no user writes to, for the statements about restarts.
* One pass per scenario at a time; the actions of a spec are not edited within a pass. One Ensure or
  Revert call is one step with respect to other scenarios, because its patch carries no version check.
* Scenario names hold no "/" (Kubernetes). With `env.dotless` they hold no "." either, which is needed
  for the leak ConfigMap alone: without it leak keys collide, see the table.
* Stale copies are earlier versions of the same incarnation: a resource is not deleted and created
  again under a pass.
* `env.digest` is the hash prefix of a run ID; where it matters, it must tell this run's ID from others.
  That run IDs are not used twice is not assumed: it is the stated condition of the run-scoped exec.
* `settled` leaves open whether a rollout is seen complete or timed out.

## What the code does differently from its documentation

* An old manual trigger can run again: only the last completed run ID is remembered, so the trigger of
  a finished manual run that is left in the spec starts over after an enabled run
  (`Witnesses.OldTriggerRunsAgain`). An overdue enabled run is followed by another one exactly when
  another trigger stands, the spec validates and the resource is not being deleted
  (`Restarts.RestartsExactlyOnOtherTrigger`).
* Exec Job names are made from the run ID so that Jobs of earlier runs are never adopted. They are when
  the ID comes back: the second run of an old trigger reports its statements as executed, and as undone,
  on the Jobs of the first (`Witnesses.ReusedIDAdoptsOldJobs`). They also are when a Workload Job bears
  the name (`Witnesses.WorkloadJobIsAdopted`). Nothing else is (`Theorems.EnsureAdoptsExactlyMisleading`).
* An expired run is drained only while its spec validates: after an edit to an invalid spec, say a
  repeated action name, the tokens stay until the spec is mended or the resource deleted
  (`Witnesses.InvalidSpecBlocksDrain`, and the contract of `Reconcile`).
* Leak keys join names with dots, which Kubernetes allows in names; two scenarios can then share a key
  and overwrite each other's leaked token, exactly when one name continues the other after a dot
  (`Theorems.LeakKeysCollideIffDottedPrefix`).
* After force-release the target keeps the scenario label and its owner is gone, so the startup sweep,
  meant as a backstop, deletes the target Deployment itself (`Theorems.ForceReleasedTargetIsSwept`,
  `Witnesses.ForceReleaseLosesTarget`).
* The held-by stamp is described as a lock between scenarios. Scale takes a stale one over, but
  DeployImage never does: a target that a deleted scenario has left stamped is held against it for good
  (`Obstacles.ScaleTakesOverExactlyStale`, `Obstacles.DeployImageNeverTakesOver`).
* Default names of chaos objects join scenario and action with a dash, which names may hold; two
  scenarios can get the same name, and the later one is then refused
  (`Obstacles.DefaultChaosNamesCollideIffDashedPrefix`).
* Backoff is documented as capped at 30s; attempts are cut at five, so it never exceeds 16s
  (`Helpers.BackoffFor`).
* The API comments call the revert Job `<name>-revert` and the default chaos object
  `fs-<scenario>-<action>`; the code uses `<name>-<digest>-cleanup` and `mj-<scenario>-<action>`, and
  the model follows the code (`operator/api/v1alpha1/maintenancejob_types.go:165-168` and `:196`).
* A drain that starts from a stale copy with tokens, not yet marked as reverting, refreshes the copy when
  it marks it; if the status has no tokens left, the index expression after it panics in Go. The
  contract of `ReconcileRevert` says exactly when (`StaleTokens`), `Witnesses.StaleCopyIsReachable`
  reaches it, and under fresh reads no pass panics.
* The loop of an activation fixes its length before its status writes refresh the copy. When the
  resource has fewer actions than the copy had, the index panics in Go at the first step beyond them
  that a status write precedes. The contract of `ReconcileActivate` says exactly when (`FellShort`), and
  `Witnesses.ShortCopyIsReachable` reaches it by a stale copy; an edit during the pass does the same on
  fresh reads, which is why such edits are excluded.
* A sweep that runs beside passes can delete a target: the label is read when the Deployments are listed
  and the owner later, so a scenario that comes to rest in between leaves its restored target looking
  like an orphan (`Sweepers.SweepLosesExactlyRestored`, `Witnesses.SweepRaceLosesTarget`).

## Model

| member | source | states |
|---|---|---|
| Theorems.DurableRestoration | operator/internal/controller/maintenancejob_controller.go:153-357 | At every point of every run of operator writes, crashes, user steps and cluster steps, a scenario without live tokens has left nothing: each of its targets has its original replicas and images and no held-by, known-good or scenario mark, and no Workload Job or chaos object carries its label |
| Theorems.WriteAhead | operator/internal/controller/maintenancejob_controller.go:195-216 | At every such point, whatever differs from normal (a replica count, an image, a mark, a Workload Job, a chaos object) is named by a token already persisted in the status of the scenario responsible, with the value to restore |
| Theorems.WriteOnce | operator/internal/controller/maintenancejob_controller.go:202-213 | However stale the snapshots the operator decides on: while an action stays in the status its token is the one first persisted, and active names stay distinct |
| Theorems.TokensImplyFinalizer | operator/internal/controller/maintenancejob_controller.go:77-82 | However stale the snapshots: a resource with tokens has the finalizer |
| Theorems.FinalizerSafety | operator/internal/controller/maintenancejob_controller.go:408-427 | However stale the snapshots: a resource that still has tokens loses the finalizer only by force-release, each token under a leak key of its own, and, if scenario names hold no dots, in the leak ConfigMap |
| Theorems.LeaksStaySeparate | operator/internal/controller/maintenancejob_controller.go:429-452 | For names without dots, a leaked token is never overwritten on behalf of another scenario |
| Theorems.LeakKeysCollideIffDottedPrefix | operator/internal/controller/maintenancejob_controller.go:444-446 | Leak keys are not unique for all names: two scenarios may share one if and only if one name continues the other after a dot |
| Theorems.RunsAreSerial | operator/internal/controller/maintenancejob_controller.go:92-99 | Tokens exist only during a run; the history is exactly the last min(10, n) of the n finished runs, and its last ID is the last completed one |
| Theorems.RunChangesWithoutTokens | operator/internal/controller/maintenancejob_controller.go:92-99 | All tokens belong to the run in flight: whatever label starts, finishes or replaces a run finds no tokens and leaves none |
| Runs.RunsNeverOverlap | operator/internal/controller/maintenancejob_controller.go:361-391 | In the history of every reachable cluster no run ends before it began or in the future, each began when the one before it had ended, and so did the run in flight, give or take the second that truncation moves a start back |
| Runs.DelaysAreKept | operator/internal/controller/maintenancejob_controller.go:173-181 | Until a user writes, no token is recorded before the delay of its action is over, so nothing is injected before it, over every run of steps |
| Theorems.EnsureAdoptsExactlyMisleading | operator/internal/actions/dbexec.go:111-172 | DBExec Ensure reports done on a Job that was not made in this run for this phase if and only if a succeeded Job that misleads is there: one of another run of the same scenario and ID, or the Workload Job of a live action; never one of the other phase, of another ID or of somebody else |
| Theorems.RevertAdoptsExactlyMisleading | operator/internal/actions/dbexec.go:123-172 | The same for Revert, when there are statements to run |
| Theorems.RunScopedEnsure | operator/internal/actions/dbexec.go:39-62 | So when the ID of the run was never used before and no live Workload action bears the name, a done Ensure rests on a succeeded Job made in this very run (told apart from every other by its era, not its ID) for this phase, with finished Jobs of earlier runs still present |
| Theorems.RunScopedRevert | operator/internal/actions/dbexec.go:39-62 | The same for Revert and its phase |
| Witnesses.ReusedIDAdoptsOldJobs | operator/internal/actions/dbexec.go:39-48 | The condition on the ID is needed: a legal run from an empty cluster (m1, then e1 by enable, then m1 again from the trigger left in the spec) leads to an Ensure and a Revert that report done on Jobs of the first m1 |
| Witnesses.WorkloadJobIsAdopted | operator/internal/actions/dbexec.go:141-148 | The condition on the name is needed: a legal run in which a Workload Job under the exec name is adopted, in the first run of its ID |
| Theorems.NoSelfRestart | operator/internal/controller/maintenancejob_controller.go:101-116 | Once an enabled run has expired and no other manual trigger stands in the spec, no run starts until a user writes, wherever crashes fall, and the closed run leaves `enabled` off |
| Restarts.RestartsExactlyOnOtherTrigger | operator/internal/controller/maintenancejob_controller.go:73-134 | When exactly a restart happens: from any cluster that keeps the invariant, with an overdue enabled run and no user writing, some legal run starts another run if and only if another trigger stands in the spec, the spec validates and the resource is not being deleted |
| Restarts.BarredRun | operator/internal/controller/maintenancejob_controller.go:73-90 | While a spec does not validate or the resource is being deleted, no run starts, over every run of steps without user writes |
| Witnesses.OldTriggerRunsAgain | operator/internal/controller/helpers.go:69-74 | Such a cluster is reached by ordinary use: m1 has run, its trigger is left in the spec, e1 was enabled and is overdue; then steps of the operator alone start m1 a second time |
| Theorems.RequestedRunRunsOnce | operator/internal/api/server.go:248-253 | What the run button asks for is done at most once, whatever is in flight and whether or not the scenario is enabled when it is pressed: until a user writes again no manual run starts but the requested one, with its ID and duration, and that one not twice, over every run of steps |
| Runs.EnabledRunRunsOnce | operator/internal/api/server.go:205-213 | What enable asks for is done at most once: until a user writes again at most one enabled run starts, none if one is in flight or the spec is off, and it lasts as long as the duration of the spec says, to within a second, or without end, over every run of steps |
| Runs.RunHangsOnItsRequest | operator/internal/controller/helpers.go:80-88 | A manual run is driven until its expiry if and only if the trigger that stands names it; as soon as another one or none stands every pass drains it, whatever `enabled` says; an enabled run is drained once the spec is off, over every run of steps without user writes |
| Runs.CourseTells | operator/internal/controller/maintenancejob_controller.go:101-118 | Which way a pass goes, from the fields of the copy: it drives a run only before the instant of its expiry and while its own request stands, and starts one only without run and tokens |
| Theorems.DisableTurnsOff | operator/internal/api/server.go:215-224 | Disable and reset leave a spec from which the next row follows |
| Theorems.DisableIsFinal | operator/internal/api/server.go:215-224 | After disable (also reset) no run starts and none in flight stays wanted until a user writes again, over every run of steps |
| Theorems.SweepSparesCovered | operator/internal/controller/sweeper.go:58-80 | In a cluster the operator has kept, taken at one moment, no target Deployment may be swept, and a Job that may be swept is an exec Job of a scenario without tokens |
| Sweepers.SweepLosesExactlyRestored | operator/internal/controller/sweeper.go:47-80 | Beside passes that is not so, since the label is read at the list and the owner later: a listed target is deleted if and only if it bore the mark of its scenario at the list and that scenario is gone or no longer at work by the lookup; what is lost is the restored Deployment |
| Witnesses.SweepRaceLosesTarget | operator/internal/controller/sweeper.go:47-80 | A legal run between two points at which a sweep takes a restored target for an orphan |
| Theorems.ForceReleasedTargetIsSwept | operator/internal/controller/maintenancejob_controller.go:413-424 | Sparing targets fails after force-release, and exactly so: the next sweep deletes a Deployment if and only if it bears the released scenario's label or was to be swept anyway |
| Witnesses.ForceReleaseLosesTarget | operator/internal/controller/maintenancejob_controller.go:413-424 | Such a Deployment is reached: a legal run ends with the owner released, the token leaked, the bad image live and the target open to the next sweep |
| Theorems.ReachableInv | operator/internal/controller/maintenancejob_controller.go:153-155 | Every cluster to which some legal run leads, so every one a crash may leave, satisfies the whole invariant |
| Theorems.ClockRuns | operator/internal/controller/maintenancejob_controller.go:101-102 | Expiry is never undone: time only moves forward along a run |
| Invariants.InvStep | operator/internal/controller/maintenancejob_controller.go:65-452 | Every single label of the operator, the users and the cluster keeps the whole invariant (names distinct, finalizer, books, undo log of every target, cover of every Job and chaos object) |
| Invariants.InvRun | operator/internal/controller/maintenancejob_controller.go:65-452 | Hence every legal run keeps it, and so does every prefix at which a crash may fall |
| Protocol.LegalPrefix | operator/internal/controller/maintenancejob_controller.go:153-155 | A crash between any two API writes leaves a legal run |
| UndoLog.RecordKeeps | operator/internal/actions/deployimage.go:67-87 | Undo log: recording a planned token keeps "each good image is the original or the bad image of an earlier token, each live image the original or a live bad image, and the oldest Scale token remembers the original count" |
| UndoLog.DropKeeps | operator/internal/controller/maintenancejob_controller.go:346-357 | Undo log: dropping the newest token once its injection is gone keeps the same, also with several tokens on one Deployment or one container |
| UndoLog.DeployImageEnsureKeeps | operator/internal/actions/deployimage.go:89-140 | Undo log: Ensure of any live token, in any order and any number of times, keeps it |
| UndoLog.DeployImageRevertKeeps | operator/internal/actions/deployimage.go:142-187 | Undo log: Revert keeps it |
| UndoLog.ScaleEnsureKeeps | operator/internal/actions/scale.go:52-95 | Undo log: Scale Ensure keeps it |
| UndoLog.ScaleRevertKeeps | operator/internal/actions/scale.go:97-127 | Undo log: Scale Revert keeps it |
| UndoLog.EmptyLogMeansRestored | operator/internal/controller/maintenancejob_controller.go:361-403 | With no token left the undo log says that the Deployment is the original one |
| Drain.RiseMeansSetback | operator/internal/controller/maintenancejob_controller.go:287-357 | The measure (live tokens, work left on the newest) is raised by no drain write, other scenario, user or cluster step except the failure or loss of the newest exec Job, and then by at most three |
| Drain.OwnWriteLowers | operator/internal/controller/maintenancejob_controller.go:302-357 | Of the operator's own drain writes, dropping a token always lowers the measure and a Revert call lowers it whenever it changes anything |
| Drain.DrainIsBounded | operator/internal/controller/maintenancejob_controller.go:287-357 | Over any run of a draining scenario, the number of times the measure falls plus what is left is at most the initial measure and three per setback |
| Drain.DrainStepsAreBounded | operator/internal/controller/maintenancejob_controller.go:287-357 | Every drain ends: in any legal run, whatever the order of steps, the next steps of the drain that are taken (the operator's or the cluster's) are at most the initial measure and three per setback |
| Drain.DrainPassesAreBounded | operator/internal/controller/maintenancejob_controller.go:287-357 | If a run holds more pieces with progress of the scenario's own than the measure and three per setback, there is a point in it without tokens |
| Drain.CallProgress | operator/internal/controller/maintenancejob_controller.go:309-344 | A Revert call reports done, lowers the work left, or has to wait for the cluster or for a foreign Job to go |
| Drain.WaitsMeansClusterNext | operator/internal/controller/maintenancejob_controller.go:309-344 | The wait is exact: the next step of the drain is one of the cluster if and only if the operator has to wait for it |
| Drain.DrainPassesEnd | operator/internal/controller/maintenancejob_controller.go:287-403 | With the contract of Reconcile (PassDrainsOrWaits): among more passes without failure and without having to wait than the measure, three per setback and two, there is one at whose end no run is in flight, or the resource is gone |
| Drain.DrainReachesRest | operator/internal/controller/maintenancejob_controller.go:287-357 | The next steps exist, on a spec that validates or a resource that is being deleted: from every cluster that keeps the invariant and has no foreign Job under a revert name, at most as many as the measure says lead to no tokens and a restored world, with the run otherwise unchanged |
| Witnesses.InvalidSpecBlocksDrain | operator/internal/controller/maintenancejob_controller.go:84-90 | A legal run to a cluster with an expired run, a live token and a spec that does not validate, in which by the contract of Reconcile no pass drains |
| Actions.EnsureDoneMeansInjected | operator/internal/actions/action.go:50-52 | For all five types: when Ensure reports done the injection is live as the spec and token say, and Ensure again reports done and changes nothing |
| Actions.DeployImageEnsuresInTwo | operator/internal/actions/deployimage.go:109-140 | The bad image, known-good mark, held-by stamp and label land in one write, after which Ensure only waits for the rollout |
| Actions.ScaleRoundTrip | operator/internal/actions/scale.go:36-127 | Plan, Ensure, Revert on a free target gives the Deployment back, with its replica count spelled out |
| Actions.DeployImageRoundTrip | operator/internal/actions/deployimage.go:50-187 | Plan, Ensure, Revert on a free, unmarked target gives exactly the cluster back, and the second Revert reports done |
| Actions.RevertFixedPoint | operator/internal/actions/action.go:53-55 | For all five types: once Revert reports done, calling it again reports done and changes nothing |
| Actions.RevertToleratesAbsence | operator/internal/actions/action.go:53-55 | Revert of a vanished or foreign target reports done without a write |
| Actions.DeployImageRevertsInTwo | operator/internal/actions/deployimage.go:142-187 | Two undisturbed calls suffice; afterwards the container shows the good image if and only as it showed the bad one, the marks of this container are gone, and nothing else has changed |
| Actions.HeldByExclusion | operator/internal/actions/scale.go:66-91 | No Ensure or Revert of one scenario changes a Deployment held by another scenario that has a run or tokens, nor a Job or chaos object not labelled for it |
| Actions.StampOfAnother | operator/internal/actions/scale.go:66-91 | The prefix test for one's own stamp and cutting another's stamp at its first "/" never disagree about the holder |
| Obstacles.ScaleTakesOverExactlyStale | operator/internal/actions/scale.go:66-94 | Scale reports a target as held if and only if its stamp names a scenario that is in the cluster with a run or tokens, and is not its own; any other stamp it replaces, and is done with count and stamp set |
| Obstacles.DeployImageNeverTakesOver | operator/internal/actions/deployimage.go:103-105 | DeployImage reports a target as held if and only if the stamp is not its own, also when the scenario it names is gone |
| Obstacles.PlanFailsExactlyWhenBarred | operator/internal/actions/action.go:47-49 | For all five types: Plan of a well-formed action fails if and only if the target or the way back is missing or a name it needs is somebody else's |
| Obstacles.EnsureFailsExactlyWhenBarred | operator/internal/actions/action.go:50-52 | For all five types: Ensure fails if and only if its target or container is gone, somebody else holds the target or the name, or its exec Job has failed; otherwise one call launches the injection and it is done exactly if no rollout or exec Job is left to wait for; failing it changes nothing, but clears a failed exec Job away |
| Obstacles.RevertWaitsExactlyForUndoing | operator/internal/actions/action.go:53-55 | For all five types: Revert fails if and only if its exec Job has failed or its name is somebody else's, waits if and only if the bad image is live, an object of its own is there or an exec Job has not ended, having set that going, and else is done |
| Obstacles.DeployImagePlansWayBack | operator/internal/actions/deployimage.go:67-87 | DeployImage is planned if and only if the container shows an image and the way back is another than the one to deploy; the token leads to the image the spec names, else the one the mark names, else the one that runs |
| Obstacles.ReplanLeadsSameWay | operator/internal/actions/deployimage.go:70-79 | The way back outlives the token: with the bad image live, planning again leads back to the same good image |
| Obstacles.ChaosNameIsLabelGiven | operator/internal/actions/chaosmesh.go:177-185 | A chaos object is named as its spec says or by scenario and action, as it stands if that is a label, and always by a label |
| Obstacles.DefaultChaosNamesCollideIffDashedPrefix | operator/internal/actions/chaosmesh.go:177-185 | Default names tell the actions of one scenario apart, but two scenarios may share one if and only if one name continues the other after a dash; the later one to plan is then refused |
| Protocol.RevertDoneMeansUndone | operator/internal/actions/action.go:53-55 | When Revert reports done nothing of the token's injection is left: count or image back, marks gone, Job and chaos object gone or foreign |
| Protocol.PlanIsFaithful | operator/internal/actions/action.go:47-49 | A successful Plan returns a token of the action's type that names the spec's target and the value now live |
| Interference.RelyIsSteady | operator/internal/controller/maintenancejob_controller.go:470-489 | What a pass holds stays true while other scenarios, users (short of editing its actions) and the cluster act: its status, finalizer, leaked tokens, targets |
| Interference.SteadyStatus | operator/internal/controller/maintenancejob_controller.go:470-489 | A status write that is right for what was durable is still right after others have acted |
| Injectors.ScaleEnsure | operator/internal/actions/scale.go:52-95 | Step by step against the API, with lookups that may fail and a patch that may fail before or after it took effect: unless a call fails it has exactly the specified effect and outcome, else it may report an error |
| Injectors.ScaleRevert | operator/internal/actions/scale.go:97-127 | The same for Scale Revert |
| Injectors.DeployImageEnsure | operator/internal/actions/deployimage.go:89-140 | The same for DeployImage Ensure |
| Injectors.DeployImageRevert | operator/internal/actions/deployimage.go:142-187 | The same for DeployImage Revert |
| Injectors.WorkloadEnsure | operator/internal/actions/workload.go:67-92 | The same as ScaleEnsure, for Workload: looks up the token's name, creates the spec's, with the timer for run length and margin |
| Injectors.WorkloadRevert | operator/internal/actions/workload.go:229-253 | The same for Workload Revert |
| Injectors.ChaosMeshEnsure | operator/internal/actions/chaosmesh.go:75-108 | The same for ChaosMesh Ensure |
| Injectors.ChaosMeshRevert | operator/internal/actions/chaosmesh.go:138-166 | The same for ChaosMesh Revert |
| Injectors.RunJob | operator/internal/actions/dbexec.go:138-172 | The same for the exec Job driver: create, wait, clear away when failed |
| Injectors.DBExecEnsure | operator/internal/actions/dbexec.go:111-121 | The same for DBExec Ensure |
| Injectors.DBExecRevert | operator/internal/actions/dbexec.go:123-136 | The same for DBExec Revert: nothing to run when there are no revert statements |
| Injectors.Ensure | operator/internal/controller/maintenancejob_controller.go:228-228 | An Ensure call of a pass, after others acted, is one legal step with that effect, or an error after none |
| Injectors.Revert | operator/internal/controller/maintenancejob_controller.go:309-309 | A Revert call of a pass, after others acted, is one legal step; done means undone |
| Injectors.EnsureWaits | operator/internal/actions/action.go:50-52 | A call in progress asks to be looked at again within one to ten seconds: five after it set an image, ten while the rollout goes on, two for an exec Job |
| Injectors.RevertWaits | operator/internal/actions/action.go:53-55 | A Revert in progress asks to be looked at again in five seconds after it set the image back, else in two |
| Reconciler.MaintenanceJobReconciler.PatchStatus | operator/internal/controller/maintenancejob_controller.go:474-488 | On success the mutation was applied exactly once, to the status as it was, through up to five rounds, and the working copy is what is stored; on an error it was applied once or not at all, and under fresh reads a call has failed; it gives up on a conflict after five rounds |
| Reconciler.MaintenanceJobReconciler.TryPatch | operator/internal/controller/maintenancejob_controller.go:475-488 | One round: a conflict means nothing was written |
| Reconciler.MaintenanceJobReconciler.RecordToken | operator/internal/controller/maintenancejob_controller.go:181-216 | Plans and persists the token, guarded by its name on the latest version and not before the delay is over; unless a call fails it records nothing only when Plan itself fails, and says so in the condition |
| Reconciler.MaintenanceJobReconciler.EnsureAction | operator/internal/controller/maintenancejob_controller.go:218-260 | Calls Ensure and persists what came of it; the wake-up is the one proposed, or the backoff for the attempts now persisted, or none when done |
| Reconciler.MaintenanceJobReconciler.CallEnsureOf | operator/internal/controller/maintenancejob_controller.go:228-228 | The outcome is the one Ensure has at the point of the trace where it was called |
| Reconciler.MaintenanceJobReconciler.NoteEnsure | operator/internal/controller/maintenancejob_controller.go:229-260 | The status write after each outcome of Ensure, in full, and no other entry touched |
| Reconciler.MaintenanceJobReconciler.ActivateAction | operator/internal/controller/maintenancejob_controller.go:168-260 | One action: waits for its delay, records its token, calls Ensure; other entries stay, and the wake-up is exactly the one that goes with what happened |
| Reconciler.MaintenanceJobReconciler.FinishActivation | operator/internal/controller/maintenancejob_controller.go:262-281 | Phase Active exactly if everything was applied, with the condition; requeue within 30s, at most max(1s, time to expiry), no later than any wake-up asked for, and exactly one of these |
| Reconciler.MaintenanceJobReconciler.ReconcileActivate | operator/internal/controller/maintenancejob_controller.go:156-282 | A pass ends Active if and only if every action of its spec is in place: Ensure said done, or failed on one already applied, which is what Plan and Ensure really answered unless a call failed; otherwise Activating; Active means that all are applied. A wake-up is never missed nor invented: the requeue delay is the resync of 30s, the time to expiry (not under 1s), the end of a delay, ten seconds without a plan, the interval Ensure proposed, or the backoff for the persisted attempts, and none of these is shorter. It panics exactly when the copy, refreshed by a status write of the pass, has no action left for the next step (when it does not abort) |
| Reconciler.MaintenanceJobReconciler.DriveAll | operator/internal/controller/maintenancejob_controller.go:166-260 | The loop over the actions: each step finds its action and tells truly whether it is in place, or the pass panics on the copy that fell short, or aborts |
| Reconciler.MaintenanceJobReconciler.DriveNext | operator/internal/controller/maintenancejob_controller.go:166-260 | One step of it: the action at its place in the refreshed copy is driven once, and counts as in place only by its own answer |
| Witnesses.ShortCopyIsReachable | operator/internal/controller/maintenancejob_controller.go:168-216 | The copy that falls short exists: a legal run with an earlier version of two actions and a later one, of the same run, of one, whose first action a pass would record; an edit within the pass, which the model excludes, does the same |
| Reconciler.MaintenanceJobReconciler.ReconcileRevert | operator/internal/controller/maintenancejob_controller.go:287-357 | One drain pass reverts the newest token once and drops it exactly if Revert says done, with the whole status it leaves; unless a call fails the answer is what Revert really says there, and the pass lowers the measure by a step of its own or finds that it has to wait. With no token left it closes the run, ended during the pass, or releases the resource. It panics exactly on a copy that shows tokens, and no drain begun, of a status that has none (when it does not abort) |
| Reconciler.MaintenanceJobReconciler.DrainTokens | operator/internal/controller/maintenancejob_controller.go:294-357 | The same for a copy with tokens: marks the scenario as reverting (a degraded one stays so), then reverts the newest action |
| Reconciler.MaintenanceJobReconciler.RevertNewest | operator/internal/controller/maintenancejob_controller.go:302-357 | The newest token is dropped if and only if its Revert reported done, and nothing else changes; otherwise what is persisted and when the next pass comes follow from the answer; it aborts only when a call failed, and else makes progress or has to wait |
| Reconciler.MaintenanceJobReconciler.RevertToken | operator/internal/controller/maintenancejob_controller.go:309-309 | Unless a call fails, the answer is what Revert says at that point of the trace, and the call is done, lowers the measure, or finds that it has to wait |
| Reconciler.MaintenanceJobReconciler.NotDone | operator/internal/controller/maintenancejob_controller.go:310-344 | An error counts an attempt and backs off, the fifth one degrades the scenario; waiting clears the error and comes back when proposed; nothing else changes |
| Reconciler.MaintenanceJobReconciler.DropAction | operator/internal/controller/maintenancejob_controller.go:346-356 | Persists the removal of the newest action only once its injection is undone, which lowers the measure |
| Reconciler.MaintenanceJobReconciler.FinishRun | operator/internal/controller/maintenancejob_controller.go:361-403 | A drained run is closed in the cluster, ended during this pass, or the resource is gone; leftovers without a run settle into Idle; it aborts only when a call failed |
| Reconciler.MaintenanceJobReconciler.CloseRun | operator/internal/controller/maintenancejob_controller.go:369-391 | The books after a run: idle, nothing failing, last completed ID, and as newest history entry this run, ended between the begin and the end of the pass and Completed exactly when it had expired by then |
| Reconciler.MaintenanceJobReconciler.Release | operator/internal/controller/maintenancejob_controller.go:364-367 | The finalizer is removed from the very version that was seen drained or fully leaked, and the resource is gone |
| Reconciler.MaintenanceJobReconciler.LeakState | operator/internal/controller/maintenancejob_controller.go:429-452 | On success each remaining token is in the leak ConfigMap under its own key, and nothing else was written; a failed attempt wrote that or nothing |
| Reconciler.MaintenanceJobReconciler.LeakAndRelease | operator/internal/controller/maintenancejob_controller.go:413-422 | Force-release writes the leak and the removal of the finalizer and nothing else, in that order |
| Reconciler.MaintenanceJobReconciler.ReconcileDelete | operator/internal/controller/maintenancejob_controller.go:408-425 | Without the finalizer nothing is done. With the force-release annotation and tokens the pass calls no Revert, and unless a call fails every token is leaked under its own key and the resource is gone, also on stale reads. Otherwise nothing is leaked; the newest token is reverted once, or the resource released exactly when the copy shows none |
| Reconciler.MaintenanceJobReconciler.MaybeStartRun | operator/internal/controller/maintenancejob_controller.go:121-151 | Told from the fields of the spec: an enabled one starts a run under the drawn ID that lasts as long as its duration says, to within a second, or without end; else a trigger whose ID was not the last to complete starts that run, as long as it or the spec says; else the scenario settles into Idle. Nothing else of the status changes |
| Reconciler.MaintenanceJobReconciler.ReconcileRun | operator/internal/controller/maintenancejob_controller.go:101-118 | Drains if and only if the run has expired or is not wanted any more when the pass looks; otherwise drives it; with all that draining or driving promises on phase, history, progress and requeue |
| Reconciler.MaintenanceJobReconciler.ReconcileValid | operator/internal/controller/maintenancejob_controller.go:92-118 | The same with the start of a run; the crash-leftover branch is unreachable under fresh reads |
| Reconciler.MaintenanceJobReconciler.ReconcileChecked | operator/internal/controller/maintenancejob_controller.go:84-118 | An invalid spec is reported by one status write and nothing else is done; on a valid one the pass starts, drains or drives as ReconcileValid promises |
| Reconciler.MaintenanceJobReconciler.Reconcile | operator/internal/controller/maintenancejob_controller.go:65-118 | Everything a pass writes is a legal step wherever it stops; under fresh reads it never panics and aborts only when a call failed. What it does follows from the copy it read, which is what the cluster held at that point: none and it settles; deleted and it drains, releases, or leaks and releases exactly when forced; an invalid spec and it says so; else it starts the run the spec asks for with the length it asks for, drains the newest token as Revert answers or closes the run as ended in this pass, or drives with phase Active exactly if all is in place and no wake-up missed. Once the run has expired, is unwanted or the resource is being deleted, it records, injects and starts nothing, and unless a call fails it makes progress, has to wait, or ends the run, exactly if the spec is valid or the resource is being deleted |
| Witnesses.StaleCopyIsReachable | operator/internal/controller/maintenancejob_controller.go:294-306 | The copy that panics exists: a legal run with an earlier version that shows a token and a later one, of the same run, that has none |
| Passes.AppendOnceRecords | operator/internal/controller/maintenancejob_controller.go:202-213 | The guarded append leaves a token already persisted under the name alone, and otherwise adds the new one last |
| Passes.MutationIsLocal | operator/internal/controller/helpers.go:101-107 | A mutation of one action by name changes that entry, in place, and no other |
| Passes.DrivenRunsLast | operator/internal/controller/maintenancejob_controller.go:101-118 | A bounded run that a pass drives has a positive persisted length, so the day-long timer of unbounded runs is never given to it |
| Passes.ClosedTells | operator/internal/controller/maintenancejob_controller.go:370-373 | A run that had expired when the pass looked is closed as Completed, one that has not by the end of the pass as Reverted |
| Helpers.NewRunKeepsDuration | operator/internal/controller/maintenancejob_controller.go:137-143 | With second-granular times a run starts less than a second early, ends less than a second early, and lasts what was asked give or take less than a second |
| Helpers.ValidateSpec | operator/internal/controller/helpers.go:17-57 | Accepts exactly the specs with at least one action, distinct names and one matching configuration each; otherwise names the first offending action |
| Obstacles.WellFormedMeansOneConfiguration | operator/internal/controller/helpers.go:29-50 | An action is accepted if and only if the configurations it brings are exactly one, that of its type |
| Obstacles.ConfigurationDecides | operator/internal/controller/helpers.go:17-57 | Plan answers that a configuration or implementation is missing if and only if the action does not bring that of its type; so an action of a valid spec never runs into it, nor does its Ensure |
| Helpers.DesiredRunIsWanted | operator/internal/controller/helpers.go:61-88 | A proposed run is one the spec still wants, sticky enabled wins over a trigger, and a manual run has an ID that was not the last to complete |
| Helpers.DesiredRunIsAsked | operator/internal/controller/helpers.go:61-78 | From the fields of the spec: a run is proposed if and only if it is enabled or its trigger has an ID that is not empty and was not the last to complete, and the run then started has the trigger, ID and length asked for |
| Helpers.AppendKeepsLast | operator/internal/controller/helpers.go:110-116 | Appending to the capped history is capping the appended full history |
| Helpers.LowerRequeue | operator/internal/controller/helpers.go:119-126 | The result is one of the two proposals, no later than either, and unset only if neither proposes |
| Helpers.BackoffFor | operator/internal/controller/helpers.go:129-137 | 1s for the first attempt, doubled up to the fifth, then 16s |
| Api.FindActiveAction | operator/internal/controller/helpers.go:90-97 | The first entry with the name, or -1 when there is none |
| Api.ContainerIndex | operator/internal/actions/deployimage.go:189-196 | The first container with the name, or -1 when there is none |
| Sweepers.Sweeper.Start | operator/internal/controller/sweeper.go:32-56 | A sweep during which nobody else acts and no call fails requests deletion of exactly the labelled Jobs and Deployments whose owner is missing or idle without run and tokens; failures only leave some of them; in a kept cluster it takes exec Jobs only |
| Sweepers.Sweeper.OwnerAtRest | operator/internal/controller/sweeper.go:58-80 | An owner that is missing, or has no run, no tokens and no working phase, gives the object up, any other keeps it; a failed lookup keeps it |
| Sweepers.OrphansAreExecJobs | operator/internal/controller/sweeper.go:32-85 | Under the invariant no orphan is a target or is named by a live token |
| Deadman.WorkloadDeadman | operator/internal/actions/workload.go:113-120 | In every reachable cluster each Workload Job was made during the run in flight; if that is bounded and its margin not negative, the Job ends not before expiry and, made by expiry, no later than expiry plus run length plus margin; in an unbounded run it ends after a day |
| Deadman.ChaosDeadman | operator/internal/actions/chaosmesh.go:187-192 | The same for every chaos object with the operator's timer and its fixed margin |
| Deadman.LaunchSetsTimers | operator/internal/actions/workload.go:110-120 | What Ensure creates runs from now under the scenario's label: a Workload Job with the spec's margin or five minutes, a chaos object with the operator's timer exactly if its spec brings none, an exec Job of twenty minutes |
| Deadman.OutlivesIffMarginNotNegative | operator/internal/actions/workload.go:113-120 | The margin condition is exact: Jobs made at any time of the run outlive it if and only if the margin is not negative |
| Names.SanitizeYieldsLabel | operator/internal/actions/chaosmesh.go:194-209 | For every input the result is a label of section 2.1 of RFC 1123: 1 to 63 characters of [a-z0-9-], no "-" at an edge |
| Names.SanitizeFixesExactlyLabels | operator/internal/actions/chaosmesh.go:194-209 | The strings it leaves alone are exactly the labels |
| Names.SanitizeIsIdempotent | operator/internal/actions/chaosmesh.go:194-209 | Applying it twice is applying it once |
| Names.SanitizeKeepsContent | operator/internal/actions/chaosmesh.go:194-209 | The result keeps the letters and digits of the input in small letters and in order, all of them up to 63 characters of input and else those before the cut; without any it is "chaos" |
| Names.SanitizeIgnoresCase | operator/internal/actions/chaosmesh.go:199-199 | Capitals and small letters of ASCII yield the same name |
| Names.ExecNamesCarryRun | operator/internal/actions/dbexec.go:54-62 | Both exec names are labels and keep the run digest intact at the end |
| Names.ExecNamesDetermineRun | operator/internal/actions/dbexec.go:54-62 | Equal exec names come from equal digests, whatever the base names |
| Names.ExecNamesDetermineBase | operator/internal/actions/dbexec.go:54-62 | Within a run, label base names of at most 46 characters are told apart |
| Names.ExecPhasesNeverCollide | operator/internal/actions/dbexec.go:54-62 | No ensure name equals any revert name |
| Names.PrefixIffCut | operator/internal/actions/scale.go:66-78 | For a name without "/", being the prefix of a stamp before "/" is being what the cut at the first "/" yields |

## Left out

- Sweepers.Sweeper.Start: nobody else acts from the first list to the last delete here; beside passes a target may be lost (SweepLosesExactlyRestored says when), or an object of the same name that a run makes between the lookup and the delete.
- Theorems.RunScopedRevert: says that the right Job succeeded, not what its SQL did; restoration of a database is not claimed, and Revert does not wait for an ensure Job that is still running.
- Theorems.DurableRestoration: exec Jobs are not part of "nothing left", since the code keeps finished ones until their TTL removes them.
- Drain.DrainReachesRest: supposes that no foreign Job sits under the name of a revert Job to be run; in that case the code reports a conflict and drains no further until somebody removes it, which the pass contracts count as having to wait.
- Interference.RelyIsSteady: an edit of a scenario's own actions while one of its passes runs is not modelled, and would make the loop of an activation panic when it takes actions away; between passes it is.
- Injectors.DeployImageEnsure: rollout progress and its timeout are one open answer, `settled`.
- Injectors.RunJob: the answer that a Job to be created already exists needs somebody to create it within the call, which is one step here.
- Injectors.ChaosMeshEnsure: the body of a chaos object's spec, and the error when it does not decode, are left out; whether it brings its own duration is kept.
- Reconciler.MaintenanceJobReconciler.ReconcileRevert: on stale reads a pass may also abort without a failed call, when the copy it reads is missing.
- Reconciler.MaintenanceJobReconciler.Reconcile: JSON encoding of tokens, UIDs, generations, owner references, events, metrics and logs are left out; a token of another type than the action's stands for one that does not decode.
- Names.ExecNamesDetermineBase: strings are sequences of characters, so the cut of a base name with non-ASCII characters at 46 bytes is a cut at 46 characters here.
- The HTTP server and its embedded UI; only what enable, disable, run and reset write is modelled.
- Pod templates, resources, affinity and the arguments of the load and SQL tools: inert data of a Job.
- SHA-256 and UUIDs: a parameter and an unspecified fresh string.
- Ownership of created objects by garbage collection; objects may vanish at any time here.
- Restoration of a target that two scenarios share: the code does not guarantee it.
- The demo services, manifests, shell scripts and generated code.
