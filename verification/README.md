# Verification of the worker group operator

A Dafny model of the operator that turns a `WorkerGroupClaim` into ClusterAPI objects, with proofs of what
it keeps over whole runs. `dafny verify dfyconfig.toml` checks everything.

## What is modelled

**Template rollout** (`Objects`, `MachineDeployments`, `Ledger`, `Protocol`, `Safety`, `Tracking`,
`Convergence`, `PassResults`, `Outcomes`, `Reconciler`). A reconcile pass renders two templates, names them by hash,
creates them, points one MachineDeployment at them, and records the names it moves away from as pending
deletion; once no MachineSet uses them it deletes them. `Protocol` is a state machine whose events are the
single API calls of a pass (each carried out, refused, or carried out with its reply lost), a crash at any
point, the steps of the orphan cleaner, and what users, ClusterAPI, other claims and the clock do in between.
`Safety` proves invariants of all its runs, `Tracking` those of runs in which a pass that wrote the deployment
gets its status written and does not plan to use what the cleaner is about to delete. `Convergence` and
`PassResults` give an undisturbed pass in closed form and derive crash consistency, convergence, draining and
pause transparency; `Outcomes` tells outright what a pass leaves in status and templates, which calls let it
go on, and what it has made sure of when it does. `Reconciler` is the controller as it is written, methods that
change a local copy of the claim's status, proved to make exactly the calls of the protocol.

**Orphan cleaner** (`Collector`, `Hazards`). The clean-up as it is written, what it removes exactly, that nothing
leaks, and, for each way to leave the runs of `Tracking`, exactly which templates in use are lost.

**Node labels** (`NodeLabels`, `Delivery`). Policies with their built-in floors, sanitizing, the way of the
labels through the MachineDeployment, and their delivery to Nodes with field ownership.

**Kernels** (`Text`, `Injection`, `DeepMerge`). Indenting, the label printer, and the in-place merge of nested
maps on the heap.

## How to read the state machine

- A server call is atomic. An update or a status write is refused unless the stored object is the one that was
  read. Rendering, label policy and the shared templates are one read whose result users may change at any time;
  it yields the accepted labels, the two names and the two specs, or an error. A read of the label policy that
  fails does not end the pass: the code goes on with the built-in floor. Here that is a change of the rendering
  before this read (and back after it); `Injection.FallbackShowsIff` says when it makes a difference. A rendering
  that cannot be parsed into a template counts as a refused create.
- Names of different claims and kinds are distinct: nobody else touches a template whose name this claim
  uses, has on record or has in hand. Template names are never empty.
- Deleting the deployment marks it; it vanishes by a separate event. MachineSets appear only with the current
  references of the deployment and may disappear at any time; the status of the deployment is arbitrary.
- Cluster name and claim name are immutable. One worker handles a claim. A run ends with the claim's life; it may
  begin in any cluster, in `Tracking` in one without a deployment or MachineSets of that name.
- A server-side apply to a Node that has just been deleted creates it, as the API server does. Removing a key by
  null is section 2 of RFC 7396.
- The syntax of label keys and values is that of Kubernetes (`internal/validation/nodelabels.go:25` and `:30`
  call its validation).

## Where the code differs from its documentation

- `docs/user-guide/monitoring.md:96` and `docs/troubleshooting.md:105` describe phase Ready with pending
  deletions. The code never stores such a status (`Safety.StatusAlwaysOk`).
- `docs/concepts/rendering-pipeline.md:60` says the hash of the bootstrap template leaves the kubelet
  configuration out. The code hashes the whole rendering
  (`internal/controller/workergroupclaim_controller.go:125`), so nothing here claims that a kubelet edit causes
  no rollout.
- The comment at `internal/controller/nodelabeldelivery_controller.go:271` says keys owned by ClusterAPI are not
  removed. A key that the policy denies and that only the Node's annotation lists is removed;
  `Delivery.AnnotatedKeySurvivesIff` is the exact condition.
- The cleaner is meant to remove only what is not in use. A pass that ends between the write of the deployment and
  the status write leaves names that are not on record unprotected once the grace period is over:
  `Hazards.CrashBeforeStatusExposes` says exactly which, and after an edit the loss is final
  (`Hazards.RepointingLosesNames`, `Tracking.OffRecordForGood`). A clean-up that overlaps a pass does harm exactly
  if the pass plans to use what the clean-up has decided to delete (`Hazards.OverlapExposes`). For a clean-up
  that nobody disturbs `Collector.CollectedSparesUsedIff` is the exact condition.

## Model

| member | source | states |
|---|---|---|
| Safety.DeletionSafety | internal/controller/workergroupclaim_controller.go:444-473 | In every run (failures and lost replies at any call, crashes, edits, stale deployment status, MachineSets appearing between any two calls, the cleaner running anywhere) a template that a pass over a live claim deletes is at that moment used neither by the deployment nor by a MachineSet, is not a name the pass is about to record, and was on record as awaiting deletion. |
| Safety.StatusAlwaysOk | internal/controller/workergroupclaim_controller.go:158-247 | Every status ever stored satisfies the ledger and shape invariants: pending empty without a current pair, no duplicates, only the two kinds, disjoint from current; pending non-empty iff a rollout start is set; Ready implies pending empty; Updating or Degraded implies pending non-empty; Degraded implies RolloutTimedOut; unless Deleting, Ready condition True iff phase Ready. |
| Safety.LedgerConservation | internal/controller/workergroupclaim_controller.go:450-487 | As long as the claim exists, a name leaves current and pending only in the final status write of a pass, and only when no template of that name exists and neither the deployment nor a MachineSet uses it. |
| Safety.PendingGrowsOnlyByRetirement | internal/controller/workergroupclaim_controller.go:158-177 | A name enters the pending list only when a pass moves to other names, and only if that name was current and is not in the new pair; with stable names pending never grows. |
| Safety.TeardownOrder | internal/controller/workergroupclaim_controller.go:260-342 | In every run, a pass over a claim under deletion creates and re-points nothing, asks for the deletion of the deployment only once the health check is gone, deletes no template while either exists, and lets the claim go only when both are absent and a delete was issued for every name in current and pending. |
| Safety.CallDeletesOnlyUnused | internal/controller/workergroupclaim_controller.go:450-473 | The invariant behind deletion safety, for a single call with any outcome: only a retired template that nothing uses can disappear. |
| Safety.CallForgetsOnlyTheGone | internal/controller/workergroupclaim_controller.go:475-515 | For a single call with any outcome: a name goes off the record only in a commit, and then its template is gone and unused. |
| Safety.RunKeepsInv | internal/controller/workergroupclaim_controller.go:83-217 | The global invariant (claim, running pass, its local status and the world agree) is kept by every event, hence holds in every reachable state. |
| Ledger.RetireConserves | internal/controller/workergroupclaim_controller.go:158-177 | Moving to other names makes current and pending together exactly what they were plus the new pair, also when an earlier pair comes back. |
| Ledger.RetireKeepsLedger | internal/controller/workergroupclaim_controller.go:158-177 | Retiring keeps the ledger invariant and always leaves something to clean up. |
| Ledger.RetireKeepsOrder | internal/controller/workergroupclaim_controller.go:158-177 | What was pending stays in front, in order; the newly retired names follow, machine template before bootstrap template. |
| Ledger.CommitsKeepStatusOk | internal/controller/workergroupclaim_controller.go:219-247 | Each status a pass over a live claim writes satisfies both invariants if the one it read did. |
| Ledger.AppendResourceRef | internal/controller/workergroupclaim_controller.go:1030-1038 | Appends a reference unless listed; keeps lists free of duplicates. |
| Ledger.DropCurrent | internal/controller/workergroupclaim_controller.go:169-177 | The filter loop yields the references that are not in use again, in order. |
| Tracking.UsedTemplatesExistAndAreTracked | internal/controller/workergroupclaim_controller.go:136-215 | In every run, clean-ups overlapping passes included, in which no pass ends between the write of the deployment and its status write while its names are not all on record (a lost reply to that write counts as such an end) and the cleaner is never set to delete what a running pass plans to use: everything the deployment and its MachineSets use is in current, pending or the running pass, and exists while the claim is live. |
| Tracking.MarkSparesPlannedIff | internal/controller/orphan.go:91-137 | The cleaner decides to spare what a running pass plans to use iff every planned template it listed is named by some claim or younger than the grace period. |
| Tracking.CleanerDeletesOnlyUnused | internal/controller/orphan.go:91-127 | In those runs the cleaner, which never looks at MachineSets, deletes nothing in use. |
| Tracking.OffRecordForGood | internal/controller/workergroupclaim_controller.go:125-217 | A name that is off the record stays off it through any number of passes and edits, unless a pass renders it again. |
| Tracking.RunKeepsTracked | internal/controller/orphan.go:141-166 | The tracking invariant of the two processes is kept by every event of such a run. |
| Hazards.CrashBeforeStatusExposes | internal/controller/workergroupclaim_controller.go:179-215 | Without the first condition it fails, exactly so: for every claim, at first provisioning or later, whichever of its templates exist already, let the pass die after the write of the deployment, or its look-up of the health check fail; a later clean-up deletes a template from under the deployment iff no claim has its name on record and the pass created it or the cleaner finds it. |
| Hazards.RepointingLosesNames | internal/controller/workergroupclaim_controller.go:158-215 | If such a pass dies and the claim is edited to other names, the next pass completes and records its own names only; a clean-up then deletes a template that a MachineSet made in between uses iff no claim had it on record and the dying pass created it or the cleaner finds it. |
| Hazards.IntermediateNamesAreLost | internal/controller/workergroupclaim_controller.go:158-215 | The same from any state in which the deployment uses a template that is off the record. |
| Hazards.ReusedNameIsExposed | internal/controller/orphan.go:62-127 | For every claim and every name it renders: when a clean-up has decided and a pass then completes with that name on record, the clean-up takes the template from under the deployment iff the cleaner had found it and nobody had the name on record before. |
| Hazards.OverlapExposes | internal/controller/orphan.go:91-127 | Without the second condition it fails, exactly so: when a pass completes undisturbed while the cleaner is set to delete some templates, the delete of one of them takes it from the deployment or a MachineSet iff the pass plans to use it. |
| Convergence.CrashConsistency | internal/controller/workergroupclaim_controller.go:136-215 | A pass cut after any number of calls before its status write (also midway through the deletes) and run again at any later time with the same inputs, the clock running throughout, ends in a world that agrees with that of the uncut pass on everything that does not tell the time: templates, deployment, health check, the claim with its current pair and pending list. |
| Convergence.RestartEndsTheSame | internal/controller/workergroupclaim_controller.go:136-215 | With the clock standing still the two worlds are equal. |
| Convergence.GoalAgrees | internal/controller/workergroupclaim_controller.go:83-217 | What a pass aims at does not depend on when it starts, but for phase, conditions and times. |
| Convergence.EndsInFinished | internal/controller/workergroupclaim_controller.go:83-217 | Every undisturbed, failure-free pass ends, in exactly one world. |
| Convergence.PassReachesGoal | internal/controller/workergroupclaim_controller.go:83-217 | An uninterrupted, failure-free pass, from wherever it stands, ends in the world given by a closed form. |
| Convergence.CutStaysOnTrack | internal/controller/workergroupclaim_controller.go:136-215 | After any number of calls a quiet pass aims at the same final world as a fresh pass would. |
| Convergence.QuietCallStaysOnTrack | internal/controller/workergroupclaim_controller.go:744-925 | Each single call either ends the pass in the closed form or leaves it unchanged where a fresh pass would end. |
| PassResults.PassConverges | internal/controller/workergroupclaim_controller.go:744-925 | From any store, one quiet pass leaves both named templates in place, the deployment equal to the requested one on every compared field, and the health check present with the wanted spec iff enabled. |
| PassResults.ConvergedMeans | internal/builder/md.go:13-89 | Convergence spelled out against the claim: the deployment uses the two existing templates of the plan, and replicas, version, taints, labels, strategy with surge and unavailability, deletion order, the three timeouts and the remediation limit are as asked; so is the health check, with its selector, timeouts and threshold, present iff switched on. |
| PassResults.RolloutStarts | internal/controller/workergroupclaim_controller.go:158-257 | A quiet pass that renders other names deletes nothing, ends in Updating with the start time set, and has on record exactly what was on record plus the new pair. |
| PassResults.SecondPassOnlyReads | internal/controller/workergroupclaim_controller.go:744-925 | Over a converged world, a further pass creates, updates and deletes none of these objects at any of its calls. |
| PassResults.RolloutDrains | internal/controller/workergroupclaim_controller.go:444-515 | With stable names and the rollout reported complete, one quiet pass leaves pending exactly the references a MachineSet still uses, deletes the templates of the others, never lengthens the list, and reaches Ready with nothing pending iff no MachineSet uses an old reference. |
| PassResults.SweepKeepsExactly | internal/controller/workergroupclaim_controller.go:450-473 | However the look-ups and deletes go, and with other MachineSets at every look-up, the list afterwards is, in order, exactly the references then in use or of unknown kind or whose look-up or delete failed. |
| PassResults.KeptWithContents | internal/controller/workergroupclaim_controller.go:450-473 | What stays listed, told outright: a reference whose look-up or delete failed, whose kind is unknown, or that a MachineSet used when it was looked up. |
| Outcomes.EndsReady | internal/controller/workergroupclaim_controller.go:608-632 | With nothing pending and unchanged or first names, the pass leaves phase Ready, the Ready condition True and no rollout start. |
| Outcomes.EndsWaiting | internal/controller/workergroupclaim_controller.go:391-440 | With a rollout under way and not reported complete, the pass leaves phase Degraded iff more time than the claim allows (1800 seconds by default) has passed since its start, Updating otherwise; becoming Degraded sets RolloutTimedOut and clears Ready. |
| Outcomes.EndsSwept | internal/controller/workergroupclaim_controller.go:475-511 | With the rollout complete: Ready in phase and conditions if no MachineSet uses a retired template; otherwise phase, conditions and start stay, so Paused or Failed can outlast the annotation. |
| Outcomes.EndsFailed | internal/controller/workergroupclaim_controller.go:994-1027 | When rendering fails the claim is Failed and not Ready, with the finalizer, and nothing else changes. |
| Outcomes.EndsPaused | internal/controller/workergroupclaim_controller.go:345-376 | A paused claim becomes Paused and not Ready, once, and nothing else changes. |
| Outcomes.EndsTearing | internal/controller/workergroupclaim_controller.go:260-305 | While the deployment exists, a pass over a claim under deletion notes the phase, removes the health check and asks for the deletion; a claim without the finalizer is left alone. |
| Outcomes.StartsProvisioning | internal/controller/workergroupclaim_controller.go:635-651 | A new claim is Provisioning first, then carries the finalizer, and only then is rendered. |
| Outcomes.TemplatesAfter | internal/controller/workergroupclaim_controller.go:744-822 | A missing template of the plan is created with the rendered content and the label; an existing bootstrap template gets the content, an existing machine template stays; other templates are at most swept. |
| Outcomes.TeardownInOrder | internal/controller/workergroupclaim_controller.go:307-332 | The recorded templates are deleted one by one: current machine template, current bootstrap template, then the pending ones in order. |
| Outcomes.EnsuringGoesOnIff | internal/controller/workergroupclaim_controller.go:744-925 | A pass that ensures objects goes on iff its call succeeds and no write meets an object that changed or appeared; a template that appeared or a health check that vanished does not stop it. |
| Outcomes.EnteringGoesOnIff | internal/controller/workergroupclaim_controller.go:105-121 | Writes of phase and finalizer end the pass unless they succeed; a failed rendering is reported, and reporting ends the pass. |
| Outcomes.SettlingGoesOnIff | internal/controller/workergroupclaim_controller.go:379-473 | Only an unreadable deployment ends a pass that follows a rollout; no look-up or delete of the clean-up does. |
| Outcomes.TearingGoesOnIff | internal/controller/workergroupclaim_controller.go:260-342 | A teardown goes on iff its call succeeds, something to delete or not; it waits for the deployment and passes over templates it cannot delete. |
| Outcomes.FinalizerFirst | internal/controller/workergroupclaim_controller.go:105-145 | In every run, from before the first object is created until the commit, the claim is there and carries the finalizer, whatever users do. |
| Outcomes.PassesOnlyWhatIsThere | internal/controller/workergroupclaim_controller.go:136-191 | In every run, whatever fails or interferes, a pass goes on to the next object only when the one before is there as asked at that moment. |
| PassResults.TeardownIsClean | internal/controller/workergroupclaim_controller.go:260-342 | A quiet teardown pass removes exactly the recorded templates and the claim once the deployment is gone, and touches no template before. |
| PassResults.PausedRunTouchesNothing | internal/controller/workergroupclaim_controller.go:345-376 | Any number of passes (with any failures) and edits while paused changes no managed object, nor current, pending, rollout start. |
| PassResults.PauseIsTransparent | internal/controller/workergroupclaim_controller.go:93-106 | The resume pass gives the same templates, deployment, health check, current, pending and rollout start as one pass on the last spec without the pause. |
| PassResults.PhaseDoesNotMatter | internal/controller/workergroupclaim_controller.go:93-217 | Phase and Ready condition of the stored claim have no influence on the objects and the ledger a pass leaves. |
| Reconciler.Cluster.Request | internal/controller/workergroupclaim_controller.go:83-217 | Every API call is the protocol's next call, may fail or lose its reply, and anybody may act before it. |
| Reconciler.Reconcile | internal/controller/workergroupclaim_controller.go:83-217 | The imperative pass makes, call by call, one whole pass of the protocol, so all run results hold for it; if nothing fails or interferes the world ends in the closed form. |
| Reconciler.QuietPassIsFinished | internal/controller/workergroupclaim_controller.go:83-217 | A history without failure or interference in which one pass ended leaves the world of the closed form. |
| Reconciler.Provision | internal/controller/workergroupclaim_controller.go:125-217 | Ensures the objects in order, retires names after the templates are there, and settles. |
| Reconciler.RetireOldTemplates | internal/controller/workergroupclaim_controller.go:158-177 | The in-place bookkeeping equals the retirement function of the ledger. |
| Reconciler.EnsureFinalizer | internal/controller/workergroupclaim_controller.go:635-651 | Sets the first phase, then the finalizer, and continues only when both writes succeeded. |
| Reconciler.EnsureBMT | internal/controller/workergroupclaim_controller.go:744-776 | Reads, creates if absent, accepts a concurrent creation, ends the pass on any other error. |
| Reconciler.EnsureKCT | internal/controller/workergroupclaim_controller.go:781-822 | As for the machine template, and rewrites an existing one whose content differs. |
| Reconciler.EnsureMachineDeployment | internal/controller/workergroupclaim_controller.go:825-868 | Creates the deployment or copies the managed fields over the stored one iff the comparison finds a difference. |
| Reconciler.CopyManagedFields | internal/controller/workergroupclaim_controller.go:852-861 | The ten assignments yield the merged deployment. |
| Reconciler.EnsureMachineHealthCheck | internal/controller/workergroupclaim_controller.go:870-925 | Creates, updates or deletes the health check as asked. |
| Reconciler.StartRollout | internal/controller/workergroupclaim_controller.go:219-257 | Commits the started rollout in one status write. |
| Reconciler.TrackRollout | internal/controller/workergroupclaim_controller.go:379-440 | Completes, waits or notes the timeout, by the deployment read at that moment. |
| Reconciler.CompleteRollout | internal/controller/workergroupclaim_controller.go:444-521 | The loop with its list of what is still referenced follows the protocol's sweep and commits its result. |
| Reconciler.IsTemplateReferencedByMachineSet | internal/controller/workergroupclaim_controller.go:558-584 | True iff a listed MachineSet uses the template under the reference's kind. |
| Reconciler.SetReady | internal/controller/workergroupclaim_controller.go:608-632 | Commits Ready and clears the rollout start. |
| Reconciler.SetFailed | internal/controller/workergroupclaim_controller.go:994-1027 | Commits Failed and nothing else of the ledger. |
| Reconciler.ReconcilePaused | internal/controller/workergroupclaim_controller.go:345-376 | Writes the paused status once, otherwise nothing. |
| Reconciler.ReconcileDelete | internal/controller/workergroupclaim_controller.go:260-342 | Follows the ordered teardown of the protocol from beginning to end. |
| Reconciler.MarkDeleting | internal/controller/workergroupclaim_controller.go:269-275 | Writes the Deleting phase once; a failed write ends the pass. |
| Reconciler.DeleteDeployment | internal/controller/workergroupclaim_controller.go:289-305 | Asks for the deletion of the deployment and ends the pass, or reports it gone. |
| Reconciler.DeleteMachineHealthCheck | internal/controller/workergroupclaim_controller.go:277-287 | Deletes the health check if it is there; any error but not-found ends the pass. |
| Reconciler.DeleteOldTemplate | internal/controller/workergroupclaim_controller.go:524-553 | One delete by reference; an unknown kind makes no call. |
| Reconciler.DeletePending | internal/controller/workergroupclaim_controller.go:328-332 | The loop tries every pending name and then stands before the finalizer. |
| Reconciler.DeleteTemplates | internal/controller/workergroupclaim_controller.go:302-342 | Issues a delete for every recorded name of a known kind, current first, passing over failures, then drops the finalizer. |
| MachineDeployments.BuildMachineDeployment | internal/builder/md.go:13-89 | The layered construction yields the requested deployment, field by field against the claim: labels, both references with group and kind, strategy, order, timeouts, remediation limit, selector. |
| MachineDeployments.UpToDateIsAsAsked | internal/builder/md_diff.go:24-62 | A stored deployment in which the comparison finds no difference is as the claim asks in every managed field. |
| MachineDeployments.BuildMachineDeletion | internal/builder/md.go:122-142 | Each timeout is the user's value when given, else the default. |
| MachineDeployments.ConvertTaints | internal/builder/md.go:158-174 | All taints are carried over in order with all fields. |
| MachineDeployments.ComputeDiff | internal/builder/md_diff.go:24-62 | Reports a difference iff some managed field differs, and a reference change iff the two use different templates. |
| MachineDeployments.Merge | internal/controller/workergroupclaim_controller.go:852-861 | After the field copy the comparison finds nothing; status and selector are untouched: the copied and the compared fields agree. |
| MachineDeployments.Ensured | internal/controller/workergroupclaim_controller.go:832-868 | Whatever was stored, the result agrees with the request on every compared field; an up-to-date deployment is left alone. |
| MachineDeployments.CompleteIff | internal/controller/rollout.go:12-44 | A rollout counts as complete iff replicas are requested and either the RollingOut condition is there, not True, with all of them up to date, or it is absent and the older fields report all present, updated and none unavailable. |
| Collector.ListTemplates | internal/controller/orphan.go:62-81 | Lists the labelled templates of both kinds; ends exactly if a list failed. |
| Collector.MarkOrphans | internal/controller/orphan.go:83-93 | Unless the list of claims fails, decides by the statuses of all claims as listed and the clock at that moment. |
| Collector.CleanList | internal/controller/orphan.go:95-127 | The loop issues a delete for exactly the orphans of its list and goes on after a failed one. |
| Collector.CollectedExactly | internal/controller/orphan.go:59-137 | An undisturbed clean-up removes exactly the labelled templates of the two kinds that no claim's current or pending names and that are at least as old as the grace period. |
| Collector.LeftoversAreCollected | internal/controller/orphan.go:91-166 | Over all runs, crashes and failed teardown deletes included: a template that a pass created and that is not on record, the claim live or gone, is labelled, of the two kinds and seen by the cleaner, and the first undisturbed clean-up past the grace period removes it. |
| Collector.CollectedSparesUsedIff | internal/controller/orphan.go:91-137 | The exact condition: an undisturbed clean-up spares every template in use iff each labelled one past its grace period is named by a claim's status. |
| Collector.CleanupOnce | internal/controller/orphan.go:59-128 | It runs through iff no list fails; once it has decided, a delete is issued for every template it decided on, whichever of them fail; undisturbed it removes exactly the orphans, in any order of the lists. |
| Collector.FindReferencedTemplates | internal/controller/orphan.go:141-166 | The two name sets are exactly the names of each kind that some status refers to. |
| NodeLabels.NewPolicy | internal/nodelabels/policy.go:52-70 | The floor is in force whatever the deny patterns; exactly the patterns that do not compile are skipped and all others count. |
| NodeLabels.NodePolicyMeans | internal/nodelabels/policy.go:73-102 | A node policy refuses a key iff it is on the floor or a deny pattern matches, and wants it off iff a deny pattern matches and it is not on the floor. |
| NodeLabels.NodeFloorIs | internal/nodelabels/policy.go:18-32 | The node safety floor, told outright. |
| NodeLabels.ClaimFloorIs | internal/nodelabels/policy.go:8-16 | The reserved keys of claims, told outright. |
| NodeLabels.RolesAreFree | internal/nodelabels/policy.go:18-19 | Node roles are not on the floor. |
| NodeLabels.Denies | internal/nodelabels/policy.go:73-86 | True iff the floor or a deny pattern matches. |
| NodeLabels.Removable | internal/nodelabels/policy.go:89-102 | True iff a deny pattern matches and the floor does not. |
| NodeLabels.Filter | internal/nodelabels/policy.go:105-125 | Allowed labels keep their values; refused keys come sorted; in whatever order the map is read. |
| NodeLabels.ClaimFloorInNodeFloor | internal/nodelabels/policy.go:9-32 | Every key the claim floor reserves is on the node safety floor, also node-group.beget.com, by its host pattern. |
| NodeLabels.SanitizeNodeLabels | internal/validation/nodelabels.go:14-52 | Any badly formed entry makes the map invalid, even if its key is reserved; otherwise the result is the allowed labels and the sorted rejected keys. |
| NodeLabels.KeyParts | internal/validation/nodelabels.go:25-29 | A key is valid iff it is a valid name, or a valid host and a valid name with a slash between. |
| NodeLabels.PlainTexts | internal/validation/nodelabels.go:25-34 | Letters and digits alone are a valid name from 1 to 63 of them, and a valid value up to 63, the empty one included. |
| NodeLabels.SanitizedPartition | internal/validation/nodelabels.go:29-51 | Accepted and rejected keys partition the input, values unchanged. |
| NodeLabels.FindUserLabels | internal/controller/nodelabeldelivery_controller.go:149-164 | Template labels without the selector keys. |
| NodeLabels.FallbackAcceptsOthersIff | internal/controller/workergroupclaim_controller.go:957-970 | When the label policy cannot be read, other labels are accepted iff a deny pattern refuses an unreserved label of the claim. |
| NodeLabels.RoundTrip | internal/controller/nodelabeldelivery_controller.go:149-164 | The labels accepted under any policy with the claim floor come back unchanged from every deployment the operator keeps for that claim. |
| NodeLabels.RoundTripIff | internal/builder/md.go:20-28 | For arbitrary labels: they come back iff none of their keys is a selector key or one of the three ClusterAPI keys. |
| Delivery.FloorSafety | internal/controller/nodelabeldelivery_controller.go:241-320 | Over any run of deliveries with changing deny patterns, other writers and failures, this controller owns no floor label and none of its writes adds, changes or removes one or its owners. |
| Delivery.CarefulRunKeepsFloor | internal/controller/nodelabeldelivery_controller.go:372-391 | Not owning floor labels is kept by every event, including applies that drop labels by omission. |
| Delivery.DeliveryIsExact | internal/controller/nodelabeldelivery_controller.go:241-320 | After a delivery with removal: every managed key has its value and owner; no key the policy wants off remains except the Machine's own; every other label is unchanged but for this controller's ownership, and goes only if nobody else owned it. |
| Delivery.DeliveryIsIdempotent | internal/controller/nodelabeldelivery_controller.go:241-269 | Repeating a delivery changes nothing and is never refused as a conflict. |
| Delivery.ManagedAndForeignAreApart | internal/controller/nodelabeldelivery_controller.go:272-293 | Managed and removed keys are disjoint and off the floor. |
| Delivery.AnnotatedKeySurvivesIff | internal/controller/nodelabeldelivery_controller.go:271-293 | Contrary to the comment, the annotation alone protects nothing: a key it lists survives a removing delivery iff it is not owned by this controller alone and, should the policy want it off, is still among the Machine's keys. |
| Delivery.DeliveredLabel | internal/controller/nodelabeldelivery_controller.go:241-320 | What becomes of one label, case by case. |
| Delivery.AnnotationRecordsManaged | internal/controller/nodelabeldelivery_controller.go:373-382 | Splitting the written annotation gives exactly the applied keys. |
| Delivery.Target.ApplyLabels | internal/controller/nodelabeldelivery_controller.go:373-389 | One server-side apply; on success the Node is as the apply says; undisturbed it succeeds iff nothing conflicts. |
| Delivery.Target.RemoveLabels | internal/controller/nodelabeldelivery_controller.go:296-320 | One merge patch; on success exactly the keys are gone. |
| Delivery.FindNode | internal/controller/nodelabeldelivery_controller.go:323-344 | Finds a Node unless a call fails; calls that fail at most for cause find it iff there is one: by provider ID if one matches, else by reference. |
| Delivery.ExcludeCAPIOwned | internal/controller/nodelabeldelivery_controller.go:347-370 | Drops exactly the keys synced from the Machine and those the annotation lists. |
| Delivery.ForeignDenied | internal/controller/nodelabeldelivery_controller.go:272-293 | Lists exactly the removable keys that are neither managed nor synced from the Machine. |
| Delivery.ApplyAndVerify | internal/controller/nodelabeldelivery_controller.go:373-425 | Applies without force, where a conflict is an error that writes nothing, then reads back; succeeds iff all its calls do. |
| Delivery.WriteNode | internal/controller/nodelabeldelivery_controller.go:257-266 | Applies, reads back, removes; succeeds iff all its calls do, and has then applied and read the Node back. |
| Delivery.Deliver | internal/controller/nodelabeldelivery_controller.go:241-269 | Succeeds iff all its calls do, and has then applied and read back unless observing; with no failure but for cause, iff the Machine has a Node and, unless only observing, nothing conflicts; a success that nobody disturbs leaves the Node as specified and the others unchanged; never writes the floor, nor anything when observing. |
| Delivery.Reconcile | internal/controller/nodelabeldelivery_controller.go:89-146 | Filters, delivers to every Machine that has a Node reference, one after the other, whatever fails for one of them, and counts the successes; all are delivered iff no call fails, and undisturbed the Nodes are then as specified; keeps the floor in any case. |
| Delivery.WithNodeIsFilter | internal/controller/nodelabeldelivery_controller.go:126-132 | Exactly the Machines with a Node reference take part. |
| Delivery.DeliverAllIsExact | internal/controller/nodelabeldelivery_controller.go:126-140 | When Machines have Nodes of their own, each gets exactly its delivery and all other Nodes stay. |
| Delivery.SecondPassChangesNothing | internal/controller/nodelabeldelivery_controller.go:126-140 | A second pass over the same Machines changes nothing. |
| Delivery.ClaimLabelsReachTheNode | internal/controller/nodelabeldelivery_controller.go:102-140 | End to end: a key is managed iff the claim has it, both policies let it through and ClusterAPI does not own it there; then the Node carries the claim's value. |
| DeepMerge.DeepMerge | internal/kubelet/merge.go:52-69 | The recursive in-place merge terminates on tree-shaped maps, yields the merge of the two values in whatever order the keys come, keeps a tree, and leaves the source unmodified although its subtrees are shared. |
| DeepMerge.MergeByPath | internal/kubelet/merge.go:50-69 | At every path: leaves of the overrides win and hide what is below; their maps win over leaves and over nothing, and over a map give a map with the keys of both; where they have nothing the default stays. |
| DeepMerge.OnlyMergeIsRight | internal/kubelet/merge.go:50-69 | That specification is complete: no other configuration satisfies it at every path. |
| DeepMerge.MergeIsIdempotent | internal/kubelet/merge.go:52-69 | Merging the same overrides twice is merging them once. |
| DeepMerge.NoOverrides | internal/kubelet/merge.go:24-26 | Skipping the merge for empty overrides is right. |
| Injection.Variables.InjectNodeLabels | internal/renderer/inject.go:10-27 | Leaves a variable that is set; otherwise sets it to a string that depends on the labels only, not on iteration order. |
| Injection.PrintedIsInjective | internal/renderer/inject.go:15-26 | Two maps with keys free of comma and equals sign and values free of comma that print the same are the same. |
| Injection.SanitizedPrintsInjectively | internal/validation/nodelabels.go:24-34 | All label maps that pass validation print injectively. |
| Injection.FallbackShowsIff | internal/controller/workergroupclaim_controller.go:957-970 | Such a failed read changes the rendered string of labels, and so can start a rollout, iff a deny pattern refuses an unreserved label of the claim. |
| Injection.CommaInValueClashes | internal/renderer/inject.go:21-26 | Without the condition on values two different maps print the same. |
| Text.Indent | internal/renderer/renderer.go:54-64 | Pads the lines in place; the number of lines is kept. |
| Text.IndentComposes | internal/renderer/renderer.go:54-64 | Indenting by n and then by m is indenting by m + n. |
| Text.IndentIsInvertible | internal/renderer/renderer.go:54-64 | Taking the padding off gives the text back. |
| Text.IndentKeepsLines | internal/renderer/renderer.go:56-63 | Line by line, the indented text is the padded lines of the text. |
| Text.IndentPads | internal/renderer/renderer.go:54-64 | Every non-empty line gets n leading spaces, empty lines stay empty. |
| Text.SplitJoin | internal/renderer/renderer.go:56-63 | Splitting gives back any pieces that were joined, if none holds the separator. |
| Text.JoinSplit | internal/renderer/renderer.go:56-63 | Joining the pieces of a string gives it back. |

## Left out

- Watches, caches, leader election, requeue delays, events, logs, metrics, flags and the fan-out from templates to claims.
- Stale cached reads, server-side defaulting and admission: every read sees the store, written objects read back unchanged.
- Garbage collection by owner references when a claim is deleted.
- Text templates, YAML and JSON parsing, SHA-256 and the joining and cutting of names: a rendering is an abstract value, distinctness of names is the assumption above.
- The whole syntax of host names and label texts beyond what `NodeLabels.HostName` and `NodeLabels.LabelText` say: it is library code.
- Regular expressions: a built-in pattern is a prefix, an exact key or a host suffix; a deny pattern is any predicate, and which patterns compile is a parameter.
- Condition messages and reasons, the conditions Paused, RolloutComplete, TemplatesRendered, NodeLabelsAccepted and Autohealing, observed generation, last rendered hashes, mirrored deployment and health check status.
- The configurable timeout of health checks: the default is used.
- Names, owner references and object labels of the managed objects except the cleaner's claim label; each kind of object that exists once per claim has one slot.
- Go's difference between nil and empty lists and maps.
- The report of skipped patterns in the policy's status, and the log of co-owned labels after an apply; the read-back itself is modelled.
- Ownership of the annotation that lists the delivered keys: only its content is modelled.
- The text of the error for invalid labels: only the set of bad keys is modelled.
- Order of the removed keys in the patch: a set.
- Which labels of a Machine ClusterAPI syncs: a parameter of the Machine.
- Remote client cache, kubeconfig lookup, CRD types and manifests.
- Tracking.UsedTemplatesExistAndAreTracked: does not promise anything for runs in which a pass ends between the write of the deployment and its status write with a name that is not on record, or plans to use a template the cleaner is set to delete, because such names can be lost, and exactly which is proved (Hazards.CrashBeforeStatusExposes, Hazards.OverlapExposes); nor for a claim created over MachineSets of an earlier life.
