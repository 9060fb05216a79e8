# The managed-upgrade-operator, modelled and proved in Dafny

The managed-upgrade-operator drives one `UpgradeConfig` through a cluster upgrade. It is a reconciler: every
pass re-reads the world, re-runs the upgrade steps from the first one, and writes back what it found. Its
correctness lies in what holds over *all* series of passes, with other controllers acting in between and any
remote call failing. This project models the parts that carry that correctness and proves what they keep.

`dafny verify dfyconfig.toml` checks the whole project.

## How the model is built

**Remote calls.** Every write to a remote store takes a `Kube.Fault`: it is applied, it is refused, or it takes
effect while the caller sees an error. Reads may fail. Nothing is assumed about how often either
happens. Where a class counts its failed requests in `faults`, its methods also say that an error is reported only
when a request failed or for a reason they name.

**The upgrade lifecycle.** `Lifecycle` is a transition system of three actors (reconciler, MachineConfigPool
controller, config manager) and an environment that share one stored object guarded by its resource version.
The calls on the UpgradeConfig are transitions of their own, so the actors interleave between any two of them. Three
transitions stand for several calls without losing an interleaving: `Inspect` and `Commence` read and patch the
ClusterVersion, which nobody else writes and whose published offers they take as arguments; `RefreshChanged` is the
last effect of a refresh, whose earlier deletion requests are events of the environment.
The environment may create, delete and edit the object in place at any moment, and request its deletion while a
finalizer holds it, so a history grows one entry for every version the spec was edited to. `LifecycleInvariant`
states the invariant and `LifecycleSteps` proves that every transition keeps it; `LifecycleTheorems`,
`LifecycleCommitment`, `LifecycleWindow` and `LifecycleConditions` hold what follows for every reachable state and
every run, `LifecycleOutcomes` what a stored outcome means and exactly when an undisturbed pass moves an entry on, and
`LifecycleRuns` the runs that reach the exceptions. `Reconciler` is the imperative code of both
controllers, proved to be a run of that system whatever happens between its statements. `StatusObjects` is the status as it
lies in memory: history records are copied when looked up and share the backing array of their conditions.
`StepRunner` and `StepTimes` prove the step runner over any number of runs, and `ClusterVersion` the
commitment, with its patches as JSON Merge Patches (section 2 of RFC 7396, in `Json`).

**Node drains.** `Pods`, `Drain` and `DrainTheorems` model the five timed strategies on a pod store;
`DrainVerdict` models the failure verdict, including the sort whose comparison looks into the unsorted list.

**Capacity, notifications, silences, spec sync.** `Scaler` and `ScalerCalls` clone and remove MachineSets;
`Notifier` and `Events` are the lossy notification protocol and its texts; `SilenceText` and `Silences` the
Alertmanager silences; `MaintenanceWindow` the 64-bit arithmetic of the worker window; `Refresh` the
delete-confirm-recreate of the UpgradeConfig. `Substrings` is the substring search that
notifications and silences rely on.

Time is in whole units on one clock that does not run backwards.

## What was found

Some promises do not hold as the code stands. Each has a proof of exactly when it does.

- **Edits in place.** What is edited in after the approval is committed without validation, time check or refresh: the
  committed update was approved exactly if its version was approved with the image it has now
  (`LifecycleTheorems.CommitIsApprovedIff`, `LifecycleRuns.EditedRequestIsCommitted`). A version has an approval
  exactly if its entry was not adopted from an existing commitment; an adopted one is committed after an edit with
  no approval at all (`LifecycleTheorems.CommitIsAuthorized`, `LifecycleRuns.AdoptedVersionIsCommitted`).
- **Losing the commitment.** While the stored object stays as it is, the commitment to what it asks for is lost
  exactly if a pass is in hand that read it before its last edit, or read an object that was since deleted and
  recreated, and can still commit what that asked for (`LifecycleCommitment.CommitmentLostIff`,
  `LifecycleRuns.StalePassesOccur`, `LifecycleRuns.RecreatedUnderPass`).
- **Failure window.** Of the passes that examine an uncommitted upgrade after its window closed, exactly those whose
  ClusterVersion read fails at that point can still commit it (`LifecycleWindow.LateCommitIffReadFailed`).
- **Back to New.** The write that resets an entry to New after a remote change takes effect exactly if the object
  the pass read was terminating already and is still that version (`LifecycleTheorems.ResetLandsIff`,
  `LifecycleTheorems.ResetLandsIffTerminating`).
- **Drain verdict.** The sort compares positions of the unsorted list, so the verdict, errors
  included, is the intended rule exactly when the budget wait is not below the drain timeout
  (`DrainVerdict.VerdictIsRuleIff`), and its answer "failed" alone also when no drain time is expected
  (`DrainVerdict.FailingIsRuleIff`); a failed node stays failed exactly when the budget grace is within the
  timeout, or no drain time is expected (`DrainVerdict.FailedStaysFailedIff`).
- **Budgets.** A budget whose selector names no label selects every pod and protects none
  (`Pods.RecognisedIffLabelled`). A protected pod somebody else began to terminate, with grace left or no finalizers, is never removed by a pass
  (`DrainTheorems.CompletePassDrainsNode`).
- **Scale-up after a partial failure.** The loop stops at the first original whose clone is listed, so originals
  behind it stay without a clone, however often it is repeated (`Scaler.AllClonedIff`,
  `ScalerCalls.PartialScaleUpPersists`). A clone whose status counts no machine while its machine has no node yet,
  as when it was just created, takes the operator down (`ScalerCalls.Cluster.NodesAreReady`,
  `ScalerCalls.FreshCloneDangles`), and so does an upgrade machine without a phase
  (`ScalerCalls.Cluster.ExtraUpgradeNodes`).
- **Notifications.** The drain engine's delay is read back as a skip, which hides later skips
  (`Events.DelayReadBackIff`), and so is a skipped scale-up, which hides later delays
  (`Events.ScaleSkipHidesDelays`); the guard's row for a skipped scale-up is never used (`Notifier.ReadBackIff`).
- **Notices about steps.** The step a failure or delay notice describes is the one the latest pass stopped at
  exactly when no step beyond that pass's reach is still incomplete (`StepRunner.StopStepIsReported`,
  `StepRunner.AnotherStepIsReported`).
- **Reasons of conditions.** The reason says "done" exactly if the step was ever done, also while its status is False again
  (`StepRunner.TextTellsOutcome`).
- **Silences.** If a silence with the same comment has expired, no new one is created
  (`Silences.Maintenance.SetWorker`, `Silences.Maintenance.StartControlPlane`). A comment of one kind is taken for
  the other kind's exactly if the version spells that kind's phrase out (`SilenceText.KindsApartIff`). A worker
  silence of another version is counted as this one's exactly if this version is a prefix of it
  (`SilenceText.SeenIffPrefix`, `Silences.OtherVersionKeepsOneActiveIff`).
- **Spec sync.** An all-zero provider spec is never created on a cluster without an UpgradeConfig
  (`Refresh.Manager.Sync`).
- **Failed upgrades.** The condition that records a failed upgrade is set in a copy and lost
  (`StatusObjects.UpgradeConfig.PerformUpgradeFailure`, `LifecycleConditions.StoredConditionsAreSound`).

## Model

| member | source | states |
|---|---|---|
| `LifecycleTheorems.StoredHistoryIsSound` | controllers/upgradeconfig/upgradeconfig_controller.go:100-312 | in every reachable state, with edits, deletions and all interleavings: however many versions the history holds they are unique, Upgrading/Upgraded/Failed have a start time, a completion time is set exactly for Upgraded, start ≤ worker start ≤ worker complete ≤ complete where set, worker complete implies worker start, and no missing entry or time was dereferenced |
| `LifecycleTheorems.StepEvolves` | controllers/upgradeconfig/upgradeconfig_controller.go:140-290 | every transition of anybody's moves each stored entry only along New→Pending→Upgrading→{Upgraded, Failed}, or Pending→New on an object that is being deleted, writes each timestamp at most once, drops no entry and changes the spec only by an edit |
| `LifecycleTheorems.PoolUpdateEvolves` | controllers/machineconfigpool/machineconfigpool_controller.go:63-83 | the pool controller's write never changes a phase and only adds timestamps |
| `LifecycleTheorems.HistoryOnlyMovesForward` | controllers/upgradeconfig/upgradeconfig_controller.go:140-312 | between any two moments of a run an object still stored has, for every version with an entry, only moved forward: phases never go back (save Pending→New while it is being deleted), Upgraded and Failed are absorbing, timestamps once set keep their value |
| `LifecycleTheorems.ResetLandsIff` | controllers/upgradeconfig/upgradeconfig_controller.go:237-246 | in every reachable state the write that resets an entry to New takes effect if and only if it gets through and the object is still the version the pass read, which it is only if it was terminating when read |
| `LifecycleTheorems.ResetLandsIffTerminating` | pkg/upgradeconfigmanager/upgradeconfigmanager.go:217-226 | seen from the refresh, with nobody else acting: it lands if and only if the refresh requested the deletion of an object that was the pass's own version and terminating already |
| `LifecycleRuns.ResetsOccur` | controllers/upgradeconfig/upgradeconfig_controller.go:237-246 | a concrete run in which a pending entry is sent back to New |
| `LifecycleTheorems.CommitIsAuthorized` | pkg/upgraders/osdupgrader.go:66-84 | every change of desiredUpdate in every run is made at the step named "UpgradeCommenced" by a pass in which every step named "StartedNotificationSent", "IsClusterUpgradable", "ClusterHealthyBeforeUpgrade", "ExternalDependenciesAvailable", "ComputeCapacityReserved" and "ControlPlaneMaintenanceWindowCreated" returned true; some pass of this object found its version Pending, valid, available and past its time with no remote change if and only if its entry was not adopted from an existing commitment, with that very spec unless it was edited since, and if adopted only after an edit; and it commits exactly its copy's request |
| `LifecycleTheorems.CommitIsApprovedIff` | controllers/upgradeconfig/upgradeconfig_controller.go:279-281 | for every commit, the committed update is one that was approved if and only if the version was approved with the copy's image; never for an adopted version, always for an approval without an edit since |
| `LifecycleRuns.EditedRequestIsCommitted` | controllers/upgradeconfig/upgradeconfig_controller.go:279-281 | a concrete run in which an image edited in after the approval is committed |
| `LifecycleRuns.AdoptedVersionIsCommitted` | controllers/upgradeconfig/upgradeconfig_controller.go:107-119 | a concrete run in which a request of an adopted version is committed with no approval in the log |
| `LifecycleCommitment.CommitmentLostIff` | pkg/upgraders/controlplanestep.go:16-44 | the commitment to what the stored object asks for can be lost while the object stays as it is if and only if a pass that read it before its last edit, or read an earlier object, can still commit |
| `LifecycleCommitment.NoFailureOnceCommitted` | pkg/upgraders/osdupgrader.go:95-140 | once committed to what a stored object asks for, with or without an entry yet and with no such pass in hand, every continuation stays committed while the object exists unedited and its phase never becomes Failed |
| `LifecycleCommitment.PassCanCommit` | pkg/upgradesteps/runner.go:24-45 | a pass that found its copy upgrading and uncommitted reaches the commitment in some continuation with nobody else acting |
| `LifecycleRuns.StalePassesOccur` | pkg/upgraders/controlplanestep.go:16-44 | a concrete run with a pass from before an edit in hand |
| `LifecycleRuns.RecreatedUnderPass` | pkg/upgradeconfigmanager/upgradeconfigmanager.go:336-383 | a concrete run in which the object is deleted and recreated under a pass that then takes the commitment back |
| `LifecycleCommitment.NoCommitOnceFailed` | pkg/upgraders/osdupgrader.go:95-140 | once a version of an object is stored as Failed, every later change of desiredUpdate by a pass with fresh reads is made for another version or another object |
| `LifecycleRuns.OtherVersionIsCommitted` | controllers/upgradeconfig/upgradeconfig_controller.go:100-130 | a concrete run in which the same object, edited to another version after it failed, is committed |
| `LifecycleWindow.LateCommitIffReadFailed` | pkg/upgraders/osdupgrader.go:98-140 | of the passes that examine an uncommitted upgrade late, one can still commit it if and only if its ClusterVersion read failed at the check |
| `LifecycleRuns.LateUpgradesOccur` | pkg/upgraders/osdupgrader.go:114-140 | such a state is reached by a concrete run |
| `LifecycleSteps.NextKeepsInv` | controllers/upgradeconfig/upgradeconfig_controller.go:70-312 | every transition of every actor, failed or not, edits and deletions included, keeps the joint invariant of store, held copies and log |
| `LifecycleOutcomes.LogIsTrue` | controllers/upgradeconfig/upgradeconfig_controller.go:153-312 | over whole runs: whatever the log says happened did, at an event of that pass: approvals when valid, available and past the time, step results when the step returned true, window checks, give-ups, adoptions |
| `LifecycleOutcomes.UpgradedIsComplete` | pkg/upgraders/osdupgrader.go:66-84 | in every run Upgraded is stored only by the last write of a pass in which every step of every name, up to "CompletedNotificationSent", returned true |
| `LifecycleOutcomes.FailedIsGivenUp` | pkg/upgraders/osdupgrader.go:143-181 | in every run Failed is stored only by a pass that read the ClusterVersion, found the upgrade uncommitted and late, and then met no error in scaling down nor in notifying |
| `LifecycleOutcomes.StoredOutcomeIsEarned` | controllers/upgradeconfig/upgradeconfig_controller.go:296-312 | in every reachable state a version stored as Upgraded had such a pass, and so had one stored as Failed |
| `LifecycleOutcomes.EntryIsAddedIff` | controllers/upgradeconfig/upgradeconfig_controller.go:100-130 | an undisturbed pass adds an entry if and only if the ClusterVersion was read, the spec names an update and the write takes effect; it is Upgrading from now exactly if the cluster is committed, else New |
| `LifecycleOutcomes.NewBecomesPending` | controllers/upgradeconfig/upgradeconfig_controller.go:162-189 | an undisturbed pass makes a New entry Pending if and only if its write takes effect, and changes nothing else of it |
| `LifecycleOutcomes.PendingStartsIff` | controllers/upgradeconfig/upgradeconfig_controller.go:196-260 | an undisturbed pass starts a Pending upgrade if and only if it is valid, available and past its time, the provider asks for no change and the write takes effect; its start is then now |
| `LifecycleOutcomes.UpgradingFailsIff` | pkg/upgraders/osdupgrader.go:118-181 | an undisturbed pass makes an upgrade Failed if and only if the ClusterVersion was read and shows no commitment, the window has passed, neither scaling down nor notifying met an error, and the write takes effect |
| `LifecycleOutcomes.UpgradingCompletesIff` | pkg/upgradesteps/runner.go:24-45 | an undisturbed pass that does not give up makes an upgrade Upgraded, completed now, if and only if all its steps return true (the commitment in terms of the document, the offers and the calls) and the write takes effect; else it stays Upgrading |
| `LifecycleOutcomes.WorkerTimesIff` | controllers/machineconfigpool/machineconfigpool_controller.go:63-83 | an undisturbed pass of the pool controller records the workers' start if and only if the entry is Upgrading without one, no machine is updated and the write takes effect, their completion accordingly, and nothing else |
| `LifecycleConditions.StoredConditionsAreSound` | pkg/upgradesteps/runner.go:24-107 | under every interleaving and lost write, the stored conditions of every version are the reversed, de-duplicated prefix of the OSD steps with sound times, and "FailedUpgrade" is never among them |
| `Reconciler.World.Reconcile` | controllers/upgradeconfig/upgradeconfig_controller.go:61-294 | the reconcile's own statements, with arbitrary interference between its calls, form a run of the transition system, end with nothing in hand and no crash, drop what they had in hand only if one of the pass's reads failed, and leave a surviving object only moved forward and, without a stale pass, an unedited object's commitment kept |
| `Reconciler.World.AddEntry` | controllers/upgradeconfig/upgradeconfig_controller.go:100-130 | the entry added for a new version follows the ClusterVersion, and is found again after its write succeeded |
| `Reconciler.World.PhaseSwitch` | controllers/upgradeconfig/upgradeconfig_controller.go:153-294 | every branch of the phase switch computes the history the transition system writes, and ends the pass |
| `Reconciler.World.UpgradeCluster` | controllers/upgradeconfig/upgradeconfig_controller.go:296-312 | the failure check, the steps and the final write agree with the transition system in every interleaving |
| `Reconciler.World.RunStep` | pkg/upgradesteps/runner.go:25-43 | one step's two condition writes and its outcome advance, stop or complete the pass |
| `Reconciler.World.ReconcilePool` | controllers/machineconfigpool/machineconfigpool_controller.go:33-88 | the pool controller's statements, with arbitrary interference, form a run of the transition system and only move the object forward |
| `StatusObjects.SetConditionIn` | api/v1alpha1/upgradeconfig_types.go:296-314 | setting a known condition type goes through the shared backing array, a new one through a new array that leaves the shared one alone; the result reports a change of status, reason or message |
| `StatusObjects.UpgradeConfig.CopyHistory` | api/v1alpha1/upgradeconfig_types.go:345-353 | the record returned is a copy on the same backing array as the stored one |
| `StatusObjects.UpgradeConfig.WriteBack` | api/v1alpha1/upgradeconfig_types.go:355-365 | what readers see is the history with exactly that version's entry replaced or put in front |
| `StatusObjects.UpgradeConfig.SetConditionStart` | pkg/upgradesteps/runner.go:61-74 | readers see the start condition if there was none for the step, and nothing else changes |
| `StatusObjects.UpgradeConfig.SetConditionInProgress` | pkg/upgradesteps/runner.go:78-89 | readers see the condition back to False without completion time, and nothing else changes |
| `StatusObjects.UpgradeConfig.SetConditionComplete` | pkg/upgradesteps/runner.go:93-107 | readers see the condition True with its first completion time kept, and nothing else changes |
| `StatusObjects.UpgradeConfig.Run` | pkg/upgradesteps/runner.go:24-45 | the in-place runner leaves exactly the conditions of the specified run, and returns Upgraded exactly when all steps are done, and an error exactly when the step it stopped at erred |
| `StatusObjects.UpgradeConfig.PerformUpgradeFailure` | pkg/upgraders/osdupgrader.go:145-178 | the failure condition reaches the stored status only if one of that type was already there; otherwise nothing readers see changes |
| `UpgradeStatus.SetConditionIsKeyed` | api/v1alpha1/upgradeconfig_types.go:296-314 | a set writes one key: type added in front exactly when missing, transition time kept exactly when the status is the same, every other condition untouched |
| `UpgradeStatus.SetHistoryIsKeyed` | api/v1alpha1/upgradeconfig_types.go:355-365 | a write-back is found under its version, touches no other version and keeps versions unique |
| `StepRunner.RecordedTypes` | pkg/upgradesteps/runner.go:24-107 | after any number of runs with any outcomes the condition types are the reverse of the de-duplicated names up to the furthest step ever started |
| `StepRunner.StatusIsVerdict` | pkg/upgradesteps/runner.go:24-107 | a condition's status is the latest result of its step over all runs |
| `StepRunner.TextTellsOutcome` | pkg/upgradesteps/runner.go:24-107 | over all runs a condition's message tells the latest outcome of its step, the error text included; its reason is "not done" until the step was done in any run and "done" ever after |
| `StepRunner.NoticeDescribesFurthestIncomplete` | pkg/eventmanager/eventmanager.go:222-231 | the first False condition is the furthest-started step not done; the default text is used exactly when all started steps are done |
| `StepRunner.StopStepIsReported` | pkg/eventmanager/eventmanager.go:222-231 | it is the step the latest run stopped at if and only if no step beyond that run's reach is still incomplete |
| `StepRunner.AnotherStepIsReported` | pkg/eventmanager/eventmanager.go:222-231 | two runs after which another step than the one the latest stopped at is reported |
| `StepRunner.FindIncomplete` | pkg/eventmanager/eventmanager.go:222-231 | the scan returns the first False condition's type |
| `StepTimes.ConditionTimes` | pkg/upgradesteps/runner.go:61-107 | over every series of runs each condition's start is its first set, it is True exactly when it has a completion time, which is when it last became so, it never completes before it starts, and its transition time is that of the latest set that changed its status |
| `StepTimes.CollectorReadsArePresent` | pkg/collector/collector.go:380-413 | the time the collector reads for a condition is never missing |
| `Json.MergedField` | pkg/clusterversion/cv.go:305-368 | member-wise reading of a JSON Merge Patch: named members merged, nulls removed, the rest kept |
| `ClusterVersion.SpecPatchIsLocal` | pkg/clusterversion/cv.go:305-368 | a patch of one spec member changes nothing else in the document |
| `ClusterVersion.ImagePatchEffect` | pkg/clusterversion/cv.go:305-317 | the image patch commits the image alone, drops an earlier version and keeps the channel |
| `ClusterVersion.VersionPatchEffect` | pkg/clusterversion/cv.go:335-368 | the version patch commits the version, with an image only for a conditional update, and keeps the channel |
| `ClusterVersion.ChannelPatchEffect` | pkg/clusterversion/cv.go:319-333 | the channel patch leaves the committed update alone |
| `ClusterVersion.FindUpdate` | pkg/clusterversion/cv.go:335-358 | the two scans find the version exactly if it is among the available or the conditional updates with an image, and yield the image of its last conditional offer that has one |
| `ClusterVersion.EnsureDesiredHonours` | pkg/clusterversion/cv.go:79-108 | for all documents and faults: true means committed to exactly the request, and without an effective patch desiredUpdate is unchanged, in particular on false without error |
| `ClusterVersion.EnsureDesiredExactly` | pkg/clusterversion/cv.go:79-108 | for all documents, offers and faults, in terms of these: the call returns true if and only if the image is committed already or the update patch succeeds with an image requested or the version in the available or the conditional updates it saw; an error if and only if a read failed, the spec names no update or a patch it made failed; and the desiredUpdate and channel it leaves |
| `ClusterVersion.CommitmentIsKept` | pkg/clusterversion/cv.go:177-210 | a commitment survives every further call for the same spec |
| `ClusterVersion.Client.EnsureDesiredConfig` | pkg/clusterversion/cv.go:79-108 | the patching code leaves exactly the specified document and results; true and error exactly as just stated, and true implies HasUpgradeCommenced |
| `ClusterVersion.Client.RunUpgradeWithImage` | pkg/clusterversion/cv.go:305-317 | true if and only if the image was committed or the patch succeeded, an error otherwise; a patch that takes effect commits the image alone |
| `ClusterVersion.Client.RunUpgradeWithChannelVersion` | pkg/clusterversion/cv.go:319-368 | true if and only if the channel was set (or set and re-read), the version is among the available or conditional updates then seen, and the patch succeeded; an error if and only if one of the calls made failed |
| `Pods.CheckDaemonSet` | pkg/drain/pod_predicates.go:28-39 | the flag loop is true exactly if some owner is a DaemonSet |
| `Pods.ContainsMatchLabel` | pkg/drain/pod_predicates.go:45-61 | the nested loops are true exactly if the pod shares a label with some budget's selector |
| `Pods.RecognisedIffLabelled` | pkg/drain/pod_predicates.go:45-61 | all pods a budget selects are recognised if and only if its selector is absent or names a label |
| `Drain.Engine.TargetPods` | pkg/pod/pod.go:19-35 | the filter yields exactly the pods of the store that the strategy targets, each once |
| `Drain.Engine.IsValid` | pkg/drain/podDeleteStrategy.go:35-43 | a strategy is valid exactly if some pod is targeted |
| `Drain.Engine.ActOnPods` | pkg/pod/pod.go:44-100 | without error every listed pod was acted on; with errors each was or was not; all others are untouched |
| `Drain.Engine.Execute` | pkg/drain/nodeDrainStrategy.go:52-105 | an error-free pass has on every pod the effect that `DrainTheorems.PassDrainsWhatIsDue` spells out; any pass, cut short anywhere, leaves pods no due strategy is for exactly as they were; an error only after a failed request or without a known cordon time |
| `DrainTheorems.PassDrainsWhatIsDue` | pkg/drain/nodeDrainStrategy.go:62-76 | at any time since the cordon an error-free pass removes exactly the drainable pods without a budget if the timeout is over, removes or (if lingering) strips exactly those with one if the grace is over, and leaves every other pod as it was; within both waits it changes nothing |
| `DrainTheorems.TimeoutPassSparesBudgets` | pkg/drain/strategy.go:95-122 | between the waits with the timeout over first: what is left is exactly the store without its drainable unprotected pods |
| `DrainTheorems.GracePassSparesOthers` | pkg/drain/strategy.go:95-122 | between the waits with the grace over first: of the drainable protected pods only the lingering ones are left, without finalizers, and all others are as they were |
| `DrainTheorems.CompletePassDrainsNode` | pkg/drain/strategy.go:95-122 | an error-free pass past all waits leaves no drainable unprotected pod, leaves a protected one only terminating without finalizers and exactly if it was lingering before, and touches nothing else |
| `DrainTheorems.ProtectedIsRecognised` | pkg/drain/pod_predicates.go:45-61 | every pod that a listed budget with a non-empty selector selects counts as a budget's pod |
| `DrainTheorems.PdbGrace` | pkg/drain/nodeDrainStrategy.go:62-101 | over any sequence of passes within the grace period, failed or not and with anything happening to other pods in between, a pod that a budget with a non-empty selector selects is exactly as it was |
| `DrainVerdict.SortDuration` | pkg/drain/nodeDrainStrategy.go:180-190 | the in-place sort returns a permutation, and for short slices the insertion sort under the comparison of unsorted positions |
| `DrainVerdict.SortOfFive` | pkg/drain/strategy.go:95-122 | the five strategies come out sorted if and only if the budget wait is at least the timeout, and in which order otherwise |
| `DrainVerdict.HasFailed` | pkg/drain/nodeDrainStrategy.go:107-151 | the loops and early returns compute the specified verdict, errors included |
| `DrainVerdict.VerdictBounds` | pkg/drain/nodeDrainStrategy.go:107-151 | for any permutation: never failed within the timeout, always failed without error once every strategy is overdue by the expected drain time |
| `DrainVerdict.AscendingVerdictIsRule` | pkg/drain/nodeDrainStrategy.go:107-151 | for ascending waits the pending slice is exactly what is not yet due, and the verdict is the rule, errors included |
| `DrainVerdict.VerdictIsRuleIff` | pkg/drain/strategy.go:99-100 | on the operator's list the whole verdict, errors included, is the rule at all times for all pods if and only if the budget wait is not below the timeout |
| `DrainVerdict.FailingIsRuleIff` | pkg/drain/strategy.go:99-100 | the answer "failed" alone is the rule's if and only if that holds or no drain time is expected |
| `DrainVerdict.FailedStaysFailedIff` | pkg/drain/nodeDrainStrategy.go:137-150 | a failed node stays failed, as pods leave in between, if and only if the budget grace is within the timeout or no drain time is expected |
| `DrainVerdict.VerdictIsTakenBack` | pkg/drain/nodeDrainStrategy.go:137-150 | with timeout 45, grace 60 and 8 expected, an empty node is failed at 54 and not at 70 |
| `Scaler.ClonesAreSound` | pkg/scaler/machineSetScaler.go:272-312 | the upgrade label marks exactly the clones; each is named after its original and has one replica, its template and selector with just the two labels replaced, at most one per original, and none is an original a scale-up would clone |
| `Scaler.WithClonesKeepsInv` | pkg/scaler/machineSetScaler.go:272-312 | creating clones for any part of the originals keeps originals unchanged and every other set a clone |
| `Scaler.AllClonedIff` | pkg/scaler/machineSetScaler.go:272-312 | a creating loop without error leaves every original cloned if and only if no original without a clone is listed after one with a clone |
| `ScalerCalls.PartialScaleUpPersists` | pkg/scaler/machineSetScaler.go:272-312 | after a scale-up that failed behind its first creations, no number of further loops in the same listing order creates anything, and exactly the originals behind have no clone |
| `ScalerCalls.Cluster.ListByPoolPatterns` | pkg/scaler/machineSetScaler.go:208-238 | lists each non-worker set whose pool matches a pattern exactly once, also for overlapping patterns |
| `ScalerCalls.Cluster.ExtraMachineSetCreated` | pkg/scaler/machineSetScaler.go:272-312 | under any failure a leading part of the originals got clones and nothing else changed; without error exactly those before the first listed clone |
| `ScalerCalls.Cluster.SetIsReady` | pkg/scaler/machineSetScaler.go:316-361 | unless a request fails: ready if and only if the replica counts match and the only machine is on a Ready node; a timeout if and only if the counts differ or that node is not Ready and the time since creation is over; an error if and only if that node does not exist; a crash if and only if the only machine has no node while no machine counts as missing |
| `ScalerCalls.Cluster.NodesAreReady` | pkg/scaler/machineSetScaler.go:314-364 | the first listed clone that is not ready decides: unless a request fails, true if and only if all are ready, and a timeout, an error or a crash if and only if such a clone is listed behind ready ones |
| `ScalerCalls.FreshCloneDangles` | pkg/scaler/machineSetScaler.go:339-341 | a clone as it is created, with its machine but no node yet, is such a clone |
| `ScalerCalls.Cluster.EnsureScaleUpNodes` | pkg/scaler/machineSetScaler.go:59-124 | keeps the store's invariant under any failure; unless a request fails: an error with no originals or a clone's name taken, waiting after creating them all, and else true, timeout, error or crash if and only if the listed clones are all ready or the first that is not is late, without its node or dangling |
| `ScalerCalls.Cluster.ExtraUpgradeNodes` | pkg/scaler/machineSetScaler.go:240-270 | yields exactly the nodes of running or deleting upgrade machines; unless a request fails, a crash if and only if the walk comes to an upgrade machine without phase |
| `ScalerCalls.Cluster.EnsureScaleDownNodes` | pkg/scaler/machineSetScaler.go:127-180 | keeps every set without the upgrade label unchanged under any failure; unless a request fails every upgrade set is gone or terminating, and a machine without phase, one without node, a node whose drain has failed and a remaining upgrade machine decide the outcome, in this order |
| `ScalerCalls.SecondScaleUpCreatesNone` | pkg/scaler/machineSetScaler.go:104-112 | from no clones an error-free loop clones all originals, and every later scale-up, in any listing order, creates none |
| `ScalerCalls.ScaleRoundTrip` | pkg/scaler/machineSetScaler.go:127-180 | once a finished scale-down's terminating sets are gone, the sets are the originals as they were and nothing else |
| `Notifier.MapState` | pkg/notifier/ocmnotifier.go:285-294 | the loop returns the first state of the iteration order that maps to the value |
| `Notifier.OrderIrrelevantIff` | pkg/notifier/ocmnotifier.go:285-294 | its result is independent of map iteration order if and only if the value is not "delayed", which is never looked up |
| `Notifier.ReadBackIff` | pkg/notifier/ocmnotifier.go:138-152 | a state survives writing and reading back if and only if it is not a skipped scale-up and its text tells delay and skip apart |
| `Notifier.OcmNotifier.NotifyState` | pkg/notifier/ocmnotifier.go:104-166 | unless a request fails: an error if and only if the policy's value has no name, and the policy is rewritten if and only if the state is one that `Notifier.ReportableIff` lists for its value and text; at most one write per call whatever fails |
| `Notifier.ReportableIff` | pkg/notifier/ocmnotifier.go:204-282 | by value and text of the policy, exactly what is reported: to "scheduled" the start; to "started" a skipped scale-up, a delay, completion and failure; to "delayed" completion, failure and, if the text mentions a retry, a skip; to any other value nothing |
| `Notifier.FirstEndIsFinal` | pkg/notifier/ocmnotifier.go:104-166 | over every run from "started" or "delayed": the first completion or failure whose requests get through is the value the policy ends with, and without one the upgrade stays under way |
| `Notifier.ScheduledUntilStarted` | pkg/notifier/ocmnotifier.go:211-218 | over every run a scheduled policy is as it was exactly until a start gets through |
| `Notifier.WriteRaisesRank` | pkg/notifier/ocmnotifier.go:204-282 | each write sends a named OCM state and raises the rank of the read-back state, save a skip whose text mentions a retry |
| `Notifier.WritesAreBounded` | pkg/notifier/ocmnotifier.go:104-166 | a run never writes more often than its policy has ranks left, at most four times |
| `Notifier.TerminalIsKept` | pkg/notifier/ocmnotifier.go:273-278 | no run leaves completed or failed |
| `Notifier.AtMostFourIff` | pkg/notifier/ocmnotifier.go:138-161 | with one text for all skips, no run writes more than four times if and only if the text does not mention a retry |
| `Notifier.FourWritesOccur` | pkg/notifier/ocmnotifier.go:204-282 | four writes are reached |
| `Events.SkipTextIff` | pkg/eventmanager/eventmanager.go:26-39 | the operator's two skip texts mention a retry if and only if the version does |
| `Events.DelayReadBackIff` | pkg/drain/nodeDrainStrategy.go:84-86 | of the five delay texts exactly the event manager's four are read back as a delay, for every version; the drain engine's is read back as a skip, after which only completion or failure is reported |
| `Events.AtMostFourWritesIff` | pkg/eventmanager/eventmanager.go:138-139 | with the operator's own skip text, no run on any policy writes more than four times if and only if the version does not contain "retry" |
| `Events.ScaleSkipHidesDelays` | pkg/eventmanager/eventmanager.go:134-139 | after a reported skipped scale-up no delay is reported for any version, and a skip exactly if the version mentions a retry, although the guard allows both |
| `SilenceText.CommentsApart` | pkg/maintenance/alertmanagerMaintenance.go:128-174 | for every version the comments differ and only the worker's contain the worker's |
| `SilenceText.KindsApartIff` | pkg/maintenance/alertmanagerMaintenance.go:206-213 | for every version a comment of one kind contains the other kind's phrase if and only if the version does |
| `SilenceText.FullCommentIsOwn` | pkg/maintenance/alertmanagerMaintenance.go:173-174 | two worker silences have the same comment if and only if version and count of remaining nodes are the same, for all versions |
| `Silences.Maintenance.StartControlPlane` | pkg/maintenance/alertmanagerMaintenance.go:128-168 | under any failure each control plane comment keeps at most one silence and none is removed; on success each is active if and only if none was listed or the listed one was active, and whatever is new is active until the given end |
| `Silences.Maintenance.SetWorker` | pkg/maintenance/alertmanagerMaintenance.go:172-203 | under any failure at most one silence is ended, one active under this version's worker comment, and at most one added; after a new count for this version no silence for another count is active; at most one worker silence of a version is active, also with calls for other versions whose comments are not seen under it; on success one for this count is active if and only if none was listed or the listed one was active |
| `SilenceText.SeenIffPrefix` | pkg/maintenance/alertmanagerMaintenance.go:272-276 | for versions without spaces the substring filter of one version sees another's worker silences if and only if it is a prefix of it |
| `Silences.OtherVersionKeepsOneActiveIff` | pkg/maintenance/alertmanagerMaintenance.go:184-197 | another version's new worker silence leaves at most one active under this version if and only if none was or this one is no prefix of the other |
| `Silences.Maintenance.EndSilences` | pkg/maintenance/alertmanagerMaintenance.go:217-231 | ends only the operator's silences with the phrase, all of them if no request failed |
| `Silences.Maintenance.EndControlPlane` | pkg/maintenance/alertmanagerMaintenance.go:206-208 | leaves every worker silence as it is, whatever fails, unless its version spells out the control plane phrase |
| `Silences.Maintenance.EndWorker` | pkg/maintenance/alertmanagerMaintenance.go:211-213 | leaves every control plane silence as it is, whatever fails, unless its version spells out the worker phrase |
| `MaintenanceWindow.WorkerWindow` | pkg/upgraders/maintenancestep.go:45-66 | the 64-bit computation equals n·(max(P, D)+E) minutes if and only if that is at most 153722867 minutes |
| `MaintenanceWindow.WindowCoversDrains` | pkg/upgraders/maintenancestep.go:51-64 | the window grows with the workers and is at least n times the wait of every drain strategy |
| `Refresh.Manager.RecreateOnChange` | pkg/upgradeconfigmanager/upgradeconfigmanager.go:336-383 | with other writers acting between its calls the new object is created only into an empty store; otherwise nothing, the old object or somebody else's remains; with nobody else acting and no failed request it fails if and only if the old object's deletion was requested and something holds it still, and never if it goes within the polls |
| `Refresh.Manager.ConfirmDeleted` | pkg/upgradeconfigmanager/upgradeconfigmanager.go:356-372 | success means nothing is stored, whatever others did meanwhile; with nobody else acting and no failed request it fails if and only if the object is not terminating or does not go within the polls |
| `Refresh.Manager.Sync` | pkg/upgradeconfigmanager/upgradeconfigmanager.go:180-263 | with other writers acting between its calls: on success the flag says whether the specs differed and a changed cluster is in step; on failure nothing, the old object or somebody else's remains, unless the creation's reply was lost; with nobody else acting, in step if and only if the spec is non-zero or an object existed, and, if no request failed, an error if and only if there are no specs to be had or the old object was to be replaced and is still held |
| `Refresh.SecondRefreshIsIdle` | pkg/upgradeconfigmanager/upgradeconfigmanager.go:216-262 | a cluster in step has nothing more to do, unless the last object is still on its way out |

## Left out

- The ARO upgrader: its step list is a shorter one of the same runner.
- Health checks, availability checks, PDB linting, validation and the post-upgrade tasks are steps or oracles with
  arbitrary results; image-digest validation, which rewrites the desired version, is one that leaves the spec alone.
- Reads from a stale client cache: every read returns the store's present content. The ClusterVersion patch is not
  guarded by the UpgradeConfig's resource version, so what is said about later commitments is about fresh reads.
- Clock readings inside one helper are one instant; a single reading serves a whole drain pass or verdict.
- `GetCurrentVersion`, `GetCurrentVersionMinusOne`, `HasDegradedOperators` and `RemoveCondition`, which no modelled
  operation calls.
- Regular expressions (ignored namespaces), glob matching (pool patterns) and RFC 3339 parsing are predicates or
  optional values given from outside.
- Selector match expressions of budgets, which the code does not read either.
- MachineSets without template or selector labels, on which the clone code would write into a nil map.
- Pending silences and clock skew between the operator and Alertmanager; only active and expired silences occur.
- De-duplication of notifications through Prometheus, service log posts, metrics, HTTP transports and tokens.
- Jitter and backoff of the periodic sync.
- Finding the policy that belongs to an UpgradeConfig: it is one of the notifier's requests, and fails if none matches.
- DrainVerdict.SortDuration: for more than twelve strategies only the fact that the library permutes them is used;
  the operator's lists have none or five.
- MaintenanceWindow.WorkerWindow: beyond 153722867 minutes only the fact that the result is not the intended window
  is stated.
- Reconciler.World.Reconcile: the requeue intervals it returns are not modelled.
