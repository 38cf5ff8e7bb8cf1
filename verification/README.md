# A Dafny model of shoot-grafter

shoot-grafter is a Kubernetes operator that onboards Gardener shoots to Greenhouse. This project models its
controllers in Dafny 4.11 and proves what they keep over whole runs. `dafny verify dfyconfig.toml` checks it.

| file | what it models |
|---|---|
| `Api.dfy`, `Strings.dfy` | API objects and call outcomes; Go's string order, sorting, join and split |
| `Gardens.dfy` | the `gardens` map, the managers it starts, and what holds of both at all times |
| `Passes.dfy` | one reconcile pass over a CareInstruction as a function of what the API servers answer |
| `Reconciler.dfy` | the CareInstruction controller in place: mutable garden entries, a mutable status, gauges |
| `Lifecycle.dfy` | all runs: passes of any number of CareInstructions cut in two phases and interleaved with edits, removals, exiting managers and process restarts |
| `Accounting.dfy` | the Ready condition at the end of a pass, and the restart count over runs |
| `Stability.dfy` | coming to rest in a steady environment |
| `ShootStatuses.dfy`, `Aggregation.dfy`, `Metrics.dfy` | merging three status sources under any map order, the count tests, the gauges |
| `Secrets.dfy` | the Secret of a shoot and its mutation, once and many times |
| `ShootController.dfy` | deriving the Secret from a Shoot, and the event filter in front of it |
| `Ownership.dfy` | several shoot controllers in one namespace |
| `Oidc.dfy`, `Rbac.dfy` | authentication ConfigMaps and the ClusterRoleBinding |

Code that changes things step by step is modelled by methods and classes (`Reconciler`, `Metrics.Gauges`,
`Secrets.MutateInPlace`, `Ownership.Greenhouse`, `Oidc.ApiServers`, `Rbac.ShootCluster`); each is proved equal to
a function, and the results are lemmas about these functions. Hashing, label copying and the CEL filter are
parameters or part of what a call answers, so every result holds for all of them. A manager is a position in the
list of all managers ever started; a cancel function and a stop channel refer to a manager by that position.

Assumptions taken from the system: passes of one CareInstruction do not overlap; the status written by one pass is
what the next one reads; a patch changes only the field it is for; the spec recorded in a garden entry is a snapshot
(the code keeps a pointer into the reconciled object, which is taken not to change afterwards); names are unique
per kind and namespace; the API servers accept only annotation keys without commas.

Main results, each over all runs or all inputs: `Lifecycle.UniqueManager`, `Lifecycle.PassIsManaged`,
`Stability.Stabilises`, `Accounting.RestartsAreTriggers`, `Accounting.RestartsFromSeed`, `Accounting.ReadyAtEndOfPass`,
`Accounting.ReadyMeansReconciled`, `Accounting.CountersReported`, `ShootStatuses.BuildShootStatuses`,
`Aggregation.ListedIff`, `Aggregation.TargetsReported`, `ShootController.WrittenAnnotations`,
`Secrets.AnnotationsAfterRun`, `Secrets.RemovalIff`, `ShootController.FilterRefinesIff`, `Ownership.OwnerKeepsShoot`,
`Ownership.MoveSurvivesIff`, `Oidc.RetryNotifiesIff`, `Oidc.OnlyWriterTold`, `Oidc.ChangesReachShoots`,
`Rbac.Converges`.

Where the model shows a limit of the code:

- Tracking of `additionalAnnotations` rests on the API server refusing keys with commas. Recording and removing keys
  is right for every Secret and every change of the spec iff no key has a comma and the empty key is not the only one
  (`TrackingRoundTrip`, `RecordsExactlyIff`, `RemovalIff`); `CommaBreaksTracking` shows what happens otherwise. Mere
  idempotence needs less (`IdempotentIff`).
- With annotation keys as the API server accepts them, the event filter is harmless on every stream of updates of one
  shoot exactly when there is no CA data or the selection does not tell apart versions of a shoot that differ only in
  status the filter ignores (`FilterRefinesIff`, `CommaFreeHarmlessIff`); a CEL expression on other status fields can
  miss a shoot (`MissedEvent`). With other keys repeating a reconcile must be safe, too.
- If labelling or annotating a Shoot fails after the ConfigMap it already references was written, retries find nothing
  to do and the Shoot is never told; if it did not reference the ConfigMap, retries make up for the failure
  (`NotifiedIff`, `RetryNotifiesIff`, `ChangeIsLost`).
- Of several Shoots that reference one garden ConfigMap, such as the default one of a CareInstruction, only the Shoot
  whose call writes a change is told of it, over every run and whichever calls fail (`OnlyWriterTold`,
  `AtMostOneTold`); docs/user-guides/usage-examples.md:132 promises an immediate reconciliation to each of them.
- Between relabelling a Secret and the copying of the label the old owner can undo a move by reconciling the shoot.
  If it finds the shoot missing it deletes the Cluster, and a third controller that writes next takes the shoot
  (`MoveSurvivesIff`, `MoveTaken`). The guide on moving shoots mentions neither; without a reconcile of the old owner
  no run disturbs the move (`MoveUndisturbed`).
- The API documentation of `authenticationConfigMapName` (api/v1alpha1/careinstruction_types.go:103-107) speaks of
  merging with existing configuration; the code overwrites it, and the model follows the code.

## Model

| member | source | states |
|---|---|---|
| Lifecycle.UniqueManager | controller/careinstruction/careinstruction_controller.go:147-365 | in every reachable state, over all interleavings of passes, failed recreations, restarts, removals, exits and process restarts, a CareInstruction has at most one uncancelled manager and it is the one in the map |
| Lifecycle.RemovedHasNoManager | controller/careinstruction/careinstruction_controller.go:575-598 | after cleanup in any reachable state no manager of that CareInstruction is left uncancelled |
| Lifecycle.PassIsManaged | controller/careinstruction/careinstruction_controller.go:147-394 | in every reachable state in which reconcileManager returns nil, on the skip path too, and from then until the second phase whatever happens in between, the entry holds an uncancelled manager built from the spec of the pass and the config just obtained, with client, cancel function and stop channel set |
| Lifecycle.ManagerPhaseOk | controller/careinstruction/careinstruction_controller.go:94-117 | a nil result means an uncancelled manager built from the current spec and config with all fields of its entry agreeing and both conditions True; an error leaves ShootControllerStarted not True; other keys, the recorded hash and the rest of the object are untouched |
| Lifecycle.SkipIsManaged | controller/careinstruction/careinstruction_controller.go:210-239 | the skip path is sound: a cancelled manager left by a failed recreation is never taken for a running one, because the status condition records the failure |
| Lifecycle.FailedPassLeavesNoManager | controller/careinstruction/careinstruction_controller.go:260-331 | in every reachable state, a pass that has access but cannot recreate the manager leaves no manager of that CareInstruction uncancelled |
| Lifecycle.FailedRecreationCancels | controller/careinstruction/careinstruction_controller.go:260-276 | the old manager is cancelled before anything that can fail is built |
| Lifecycle.DeniedAccessKeepsManagers | controller/careinstruction/careinstruction_controller.go:157-202 | without access the pass returns that error, both conditions carry it, and all managers stay; an unreadable seed ConfigMap stops a first pass before that |
| Lifecycle.GrantedAccessConditions | controller/careinstruction/careinstruction_controller.go:202-362 | with access the conditions say so, and whether the manager was started or which error prevented it |
| Lifecycle.ExitedIsReplaced | controller/careinstruction/careinstruction_controller.go:221-270 | in every reachable state, a manager that exited by itself is cancelled and replaced by the next successful pass |
| Lifecycle.StoppedIsReplaced | controller/careinstruction/careinstruction_controller.go:221-270 | a manager whose goroutine returned is cancelled and replaced by a new one |
| Lifecycle.RestartsOnce | controller/careinstruction/careinstruction_controller.go:383-439 | a pass restarts once if the annotation is "true" and could be removed or the hash of config.yaml differs from the recorded one, not twice if both; else the registry is unchanged; the observed hash is recorded |
| Lifecycle.OtherKeysUntouched | controller/careinstruction/careinstruction_controller.go:147-598 | a step of one CareInstruction leaves entry, managers, object and pass of every other one alone |
| Lifecycle.RunInv | controller/careinstruction/careinstruction_controller.go:94-144 | every run keeps the invariant that ties entries, managers, persisted conditions and passes under way together |
| Gardens.GardenKeyInjective | controller/careinstruction/careinstruction_controller.go:150-151 | namespace-qualified keys of different CareInstructions do not collide |
| Passes.FirstNotTrueSpec | controller/careinstruction/status.go:51-69 | the loop finds the first known condition, in list order, that is set and not True, or there is none |
| Accounting.ReconcileStatusSpec | controller/careinstruction/status.go:41-70 | Ready is True iff all known conditions are, and else carries reason and message of the first that is not |
| Accounting.ReadyTakesFirst | controller/careinstruction/status.go:16-70 | Ready takes reason and message from garden access, else the shoot controller, else the shoots, whichever is the first that is set and not True; no other condition changes |
| Accounting.InitializedConditions | controller/careinstruction/status.go:16-39 | exactly the three missing conditions become Unknown, the others stay |
| Accounting.ReadyAtEndOfPass | controller/careinstruction/careinstruction_controller.go:94-132 | over all runs, Ready is True at the end of a pass iff both calls returned nil in that pass; else it carries reason and message of the first known condition that is not True |
| Accounting.ReadyMeansReconciled | controller/careinstruction/careinstruction_controller.go:119-131 | over all runs, a pass past reconcileManager ends with Ready True iff no call failed, every included shoot has an owned Cluster and every relevant Cluster is ready |
| Accounting.ShootsReconciledIff | controller/careinstruction/careinstruction_controller.go:368-552 | reconcileShootsNClusters returns nil iff no call failed, every included shoot has an owned Cluster and every owned Cluster of a shoot not excluded is ready |
| Accounting.CallError | controller/careinstruction/careinstruction_controller.go:383-552 | the error is that of the annotation, else of the shoots, else of the ConfigMap, else of the aggregation |
| Accounting.CountersReported | controller/careinstruction/careinstruction_controller.go:370-525 | on every path the status reports the shoots and Clusters the pass got to see, the list, and as many failed Clusters as it has Failed entries |
| Accounting.RequestHandledOnce | controller/careinstruction/careinstruction_controller.go:383-390 | the reconcile annotation is gone from the object iff its removal succeeded |
| Accounting.StepCounts | controller/careinstruction/careinstruction_controller.go:556-572 | of all steps but the removal of the CareInstruction, process restarts included, only a pass that calls for a restart raises its restart count, by exactly one |
| Accounting.RestartsAreTriggers | controller/careinstruction/careinstruction_controller.go:383-439 | over every run in which the CareInstruction is not removed, with or without an entry at the start and across process restarts, the restart count rises by the number of passes that call for a restart |
| Accounting.TriggersAreChanges | controller/careinstruction/careinstruction_controller.go:420-439 | over every run without handled annotations these are the observed hashes of config.yaml that differ from the hash seeded or observed before; removals and process restarts start from a new seed |
| Accounting.RestartsFromSeed | controller/careinstruction/careinstruction_controller.go:157-187 | from the start of the controller the restart count rises by the changes in the sequence of seeded and observed hashes, which begins with a seed |
| Accounting.OneSeedPerEntry | controller/careinstruction/careinstruction_controller.go:157-187 | while an entry survives, all later hashes are observed: the seed counts once, at the beginning |
| Accounting.FirstPassDoesNotRestart | controller/careinstruction/careinstruction_controller.go:157-169 | a first pass that reads the same ConfigMap twice restarts nothing and ends with a live manager |
| Accounting.OtherDataIgnored | controller/careinstruction/careinstruction_controller.go:627-633 | changes to keys other than config.yaml restart nothing |
| Stability.Stabilises | controller/careinstruction/careinstruction_controller.go:236-239 | from any reachable state in a steady environment, after two completed passes no manager of the key is created or cancelled and entry, hash and restart count stay, however other keys are interleaved |
| Reconciler.CareInstructionReconciler.EnsureCreated | controller/careinstruction/careinstruction_controller.go:94-132 | the pass in place equals manager phase, shoots phase and status of the pure model |
| Reconciler.CareInstructionReconciler.EnsureDeleted | controller/careinstruction/careinstruction_controller.go:134-144 | conditions initialised, manager cancelled, entry removed if it had a cancel function |
| Reconciler.CareInstructionReconciler.DoReconcileManager | controller/careinstruction/careinstruction_controller.go:147-365 | registry, object and error after the call are those of the pure reconcileManager |
| Reconciler.CareInstructionReconciler.CanSkip | controller/careinstruction/careinstruction_controller.go:210-236 | the five checks decide exactly the skip condition |
| Reconciler.CareInstructionReconciler.RecreateManager | controller/careinstruction/careinstruction_controller.go:260-362 | equals the pure recreation, of which FailedRecreationCancels says that the old manager is cancelled even if building the new one fails |
| Reconciler.CareInstructionReconciler.RestartShootController | controller/careinstruction/careinstruction_controller.go:556-572 | cancels, forgets the manager and counts unless it was already stopped |
| Reconciler.CareInstructionReconciler.CleanupCareInstruction | controller/careinstruction/careinstruction_controller.go:575-598 | cancels and removes the entry if it has a cancel function, sets the Delete condition |
| Reconciler.CareInstructionReconciler.HandleTriggers | controller/careinstruction/careinstruction_controller.go:370-439 | counters reset, annotation and hash handled in order, with every early return |
| Reconciler.CareInstructionReconciler.DoReconcileShootsNClusters | controller/careinstruction/careinstruction_controller.go:368-552 | on every return path the status counts what the pass saw, the count gauges of the CareInstruction's series equal the counters, and the onboarded gauges follow the list, whose names are distinct |
| Reconciler.CareInstructionObject.InitializeConditionsToUnknown | controller/careinstruction/status.go:23-39 | the loop equals the pure initialisation |
| Reconciler.CareInstructionObject.SetReady | controller/careinstruction/status.go:41-70 | the loop with its break equals the pure status computation |
| ShootStatuses.BuildShootStatuses | controller/careinstruction/shootstatus.go:38-97 | for every iteration order of the maps the result is one fixed list and the failed count that of its merged map |
| ShootStatuses.MergedListSpec | controller/careinstruction/shootstatus.go:35-97 | the list is strictly sorted by name, names exactly the union of the sources, gives each name its last highest-ranked status, and has as many Failed entries as counted |
| ShootStatuses.ListIsUnique | controller/careinstruction/shootstatus.go:87-94 | no other sorted list has the entries of the merged map |
| ShootStatuses.WinnerIsLastMaximum | controller/careinstruction/shootstatus.go:24-50 | preferring by rank from left to right picks the last maximum |
| ShootStatuses.EntryIs | controller/careinstruction/shootstatus.go:24-85 | the entry of every name in closed form, without ranks: exclusion with its reason, else what is not ready, else a ready conflict naming the owner, else Onboarded |
| Aggregation.AggregateStatus | controller/careinstruction/careinstruction_controller.go:393-552 | the loops and early returns compute the aggregate of the pure model |
| Aggregation.SelectShoots | controller/careinstruction/careinstruction_controller.go:404-418 | splits the target shoots into included names and excluded names with the reason |
| Aggregation.MatchClusters | controller/careinstruction/careinstruction_controller.go:452-463 | collects the owned names and counts included shoots among them |
| Aggregation.HandleClusterAnnotations | controller/careinstruction/careinstruction_controller.go:465-485 | returns the error of the last Cluster whose annotation could not be handed on |
| Aggregation.AnnotationErrorIff | controller/careinstruction/careinstruction_controller.go:465-485 | no error remains iff every requested annotation was handed on |
| Aggregation.FindConflicts | controller/careinstruction/careinstruction_controller.go:497-522 | the scan with its early return equals the pure scan |
| Aggregation.CountTest | controller/careinstruction/careinstruction_controller.go:458-488 | the counts agree iff every included shoot has an owned Cluster |
| Aggregation.NoConflictLost | controller/careinstruction/careinstruction_controller.go:487-489 | when the counts agree, the skipped scan could neither fail nor find a conflict |
| Aggregation.ConflictsAreForeign | controller/careinstruction/careinstruction_controller.go:495-522 | a name is a conflict iff it is included, not owned, and its Cluster names another owner |
| Aggregation.ReconciledIff | controller/careinstruction/careinstruction_controller.go:525-549 | success iff Clusters were listed, annotations handed on, included shoots owned and relevant Clusters ready |
| Aggregation.ListedIff | controller/careinstruction/careinstruction_controller.go:404-525 | with everything readable the list holds exactly the excluded targets with their reason, the other owned Clusters with their state, and the included shoots with a foreign Cluster, Onboarded iff that is ready and naming its owner |
| Aggregation.ErrorIs | controller/careinstruction/careinstruction_controller.go:441-541 | which error is returned, in order of precedence, and that nothing is listed if Clusters cannot be read |
| Aggregation.ScanFailsIff | controller/careinstruction/careinstruction_controller.go:497-522 | the scan fails iff a lookup does, with the error of the first |
| Aggregation.LastErrorRemains | controller/careinstruction/careinstruction_controller.go:465-485 | the remaining annotation error is that of the last Cluster that met one |
| Aggregation.CountersSpec | controller/careinstruction/careinstruction_controller.go:398-450 | the counters are the target shoots, the owned Clusters and the Failed entries of the list |
| Aggregation.TargetsConserved | controller/careinstruction/careinstruction_controller.go:398-418 | the target count is included plus excluded shoots, which are disjoint |
| Aggregation.ConflictsDisjoint | controller/careinstruction/careinstruction_controller.go:497-525 | conflicts are disjoint from owned and excluded names |
| Aggregation.TargetsReported | controller/careinstruction/careinstruction_controller.go:525-549 | after success every target shoot stands exactly once in the list |
| Metrics.Gauges.Update | controller/careinstruction/metrics.go:60-111 | sets the three count series and one onboarded series per listed shoot, and nothing else |
| Metrics.OnboardedSpec | controller/careinstruction/metrics.go:97-111 | with distinct names a listed shoot's gauge is 1 if Onboarded and else 0; other shoots and other series are unchanged |
| Metrics.AggregateNamesDistinct | controller/careinstruction/shootstatus.go:94 | what a pass reports never names a shoot twice |
| Strings.TrackingRoundTrip | controller/shoot/shoot_controller.go:296-316 | sort, join and split return the key set iff no key has a comma and the set is not just the empty key |
| Strings.LexLeIff | controller/careinstruction/shootstatus.go:94 | names are ordered by their first difference, and a prefix comes first |
| Strings.SortStringsIsSortedKeys | controller/shoot/shoot_controller.go:225-234 | sorting makes the order independent of map iteration |
| Secrets.MutateInPlace | controller/shoot/shoot_controller.go:286-316 | the mutation, whether or not the Secret's map is the wanted map itself, computes the pure one |
| Secrets.MutatedAt | controller/shoot/shoot_controller.go:286-316 | at each key: managed value with reserved keys winning, or removed as stale, or left alone |
| Secrets.AnnotationsAfterRun | controller/shoot/shoot_controller.go:242-316 | after any sequence of additional annotations (recorded exactly) and worker states each key holds what the last reconcile manages, else nothing if it was ever managed or tracked, else its initial value |
| Secrets.RecordsExactlyIff | controller/shoot/shoot_controller.go:310-316 | additional keys are recorded exactly iff none has a comma and they are not just the empty key |
| Secrets.RemovalIff | controller/shoot/shoot_controller.go:296-316 | under the same condition, and only then, a change of the additional annotations removes those taken out and leaves those of others, for every Secret and every change |
| Secrets.IdempotentIff | controller/shoot/shoot_controller.go:286-326 | the mutation is idempotent on every Secret iff the recorded keys are among those it manages |
| Secrets.MutateTwice | controller/shoot/shoot_controller.go:286-326 | a second identical mutation changes nothing |
| Secrets.CreateIsUpdateOfEmpty | controller/shoot/shoot_controller.go:273-326 | creating agrees with updating an empty Secret |
| Secrets.ForeignPreserved | controller/shoot/shoot_controller.go:287-321 | data keys other than ca.crt, foreign labels and foreign annotations survive |
| Secrets.CommaBreaksTracking | controller/shoot/shoot_controller.go:296-303 | a concrete case: with a comma in a key a foreign annotation is deleted and the stale one stays |
| ShootController.FindApiServerURL | controller/shoot/shoot_controller.go:201-209 | the loop yields the URL of an address named external |
| ShootController.ApiServerURLSpec | controller/shoot/shoot_controller.go:201-209 | the last external address wins; none gives the empty URL |
| ShootController.BuildLabels | controller/shoot/shoot_controller.go:217-238 | labels and propagated keys do not depend on map iteration order |
| ShootController.WrittenAnnotations | controller/shoot/shoot_controller.go:201-316 | the annotations a reconcile writes, from Shoot and spec: last external URL, workerless iff no workers, keys to propagate in order, additional annotations and their record, reserved keys winning |
| ShootController.WrittenLabels | controller/shoot/shoot_controller.go:217-323 | the labels it writes, copied ones winning over the owner and that over additional ones, and the CA beside data of others |
| ShootController.NothingToWrite | controller/shoot/shoot_controller.go:201-215 | without a URL or CA the Secret stays as it is |
| ShootController.NoiseIff | internal/clientutil/predicates.go:54-89 | an update is dropped iff neither metadata, spec, addresses nor the state of the last operation changed |
| ShootController.ReconcileTwice | controller/shoot/shoot_controller.go:201-326 | a second identical reconcile writes nothing, if the tracked annotation keys are among the managed ones |
| ShootController.NoiseDoesNotMatter | internal/clientutil/predicates.go:54-89 | versions the filter calls noise lead to the same Secret |
| ShootController.FilterRefinesIff | internal/clientutil/predicates.go:54-89 | for all streams of updates of one shoot and all initial Secrets the filtered run leaves the same Secret as the unfiltered one, iff nothing is ever written, or the selection ignores noise and repeating a reconcile is safe |
| ShootController.CommaFreeHarmlessIff | internal/clientutil/predicates.go:54-89 | with comma-free annotation keys this comes down to: no CA data, or the selection ignores noise |
| ShootController.FilterRefines | internal/clientutil/predicates.go:54-89 | with a selection by name and compared fields the filtered run leaves the same Secret as the unfiltered one |
| ShootController.MissedEvent | internal/clientutil/predicates.go:85-86 | a shoot that becomes selected by a change taken for noise is not onboarded |
| Ownership.Greenhouse.ReconcileShoot | controller/shoot/shoot_controller.go:139-337 | the reconcile in place equals the pure one, with the answer of every path: done, come back after a write conflict, or an error |
| Ownership.ReconcileEffect | controller/shoot/shoot_controller.go:142-326 | a reconcile deletes the Cluster iff that is its own and the shoot is missing, brings the Secret in line with the Shoot unless the Cluster is another's, and touches nothing else |
| Ownership.AnswerIff | controller/shoot/shoot_controller.go:142-337 | it comes back after five seconds iff the write met a conflict, ends for good iff no call it makes fails, and else returns the error of the first that does |
| Ownership.RunConsistent | controller/shoot/shoot_controller.go:142-165 | over all runs of any controllers and Greenhouse, a Cluster labelled c has its Secret labelled c |
| Ownership.OthersStepBack | controller/shoot/shoot_controller.go:142-199 | nobody but the owner changes the Secret of an owned Cluster or deletes the Cluster |
| Ownership.OwnerKeepsShoot | controller/shoot/shoot_controller.go:142-199 | over whole runs of others an owned Cluster and its Secret stay as they are |
| Ownership.MoveSurvivesIff | docs/user-guides/usage-examples.md:138-146 | for every run between the relabelling of a Secret and the copying of its label, the move survives iff the last reconcile able to write the Secret, if any, is the new owner's |
| Ownership.MoveUndisturbed | docs/user-guides/usage-examples.md:138-146 | while the old owner does not reconcile the shoot, every run leaves both labels as they are and the copying completes the move |
| Ownership.MoveTaken | controller/shoot/shoot_controller.go:167-198 | after the old owner has deleted the Cluster of a missing shoot, whichever controller writes next gets the shoot |
| Oidc.ApiServers.ConfigureOIDCAuthentication | controller/shoot/auth.go:31-149 | the configuration in place equals the pure one on every path |
| Oidc.SuccessfulCall | controller/shoot/auth.go:58-133 | after success the Shoot references its old reference or the default, that ConfigMap is filled, nothing else in the garden changed |
| Oidc.SucceedsIff | controller/shoot/auth.go:31-149 | which inputs make a call succeed, and that it reports a change iff it updates or annotates the Shoot |
| Oidc.AuthMapLabelled | controller/shoot/auth.go:33-52 | every call that can read the Greenhouse ConfigMap leaves the watched label on it unless the patch fails, and changes nothing else there |
| Oidc.FilledSpec | controller/shoot/auth.go:76-89 | the ConfigMap holds exactly the content and the owner label, keeps other labels, and filling it again changes nothing |
| Oidc.SecondCallDoesNothing | controller/shoot/auth.go:136-148 | an immediate second call returns false and leaves the garden as it is |
| Oidc.WritesIff | controller/shoot/auth.go:31-89 | which calls change the garden ConfigMap, from the inputs |
| Oidc.NotifiedIff | controller/shoot/auth.go:91-148 | a call that writes the ConfigMap updates the Shoot's spec or leaves the reconcile operation on it iff one was pending or neither a needed label patch nor the update or annotation fails |
| Oidc.RetryNotifiesIff | controller/shoot/auth.go:91-148 | if one of these fails, then after any retries a call without failures succeeds, and the Shoot has been told iff it did not reference the ConfigMap before |
| Oidc.ChangeIsLost | controller/shoot/auth.go:136-148 | a concrete Shoot that no retry, failing or not, ever tells of the change |
| Oidc.OnlyWriterTold | controller/shoot/auth.go:136-148 | of the Shoots that reference a ConfigMap, exactly the one whose call writes the change, if its calls go through, is told, whatever calls for whichever Shoots follow |
| Oidc.AtMostOneTold | controller/shoot/auth.go:136-148 | over every run of calls, failing or not, at most one of the Shoots that reference a ConfigMap is told of its new content |
| Oidc.ChangesReachShoots | controller/shoot/shoot_controller.go:121-137 | over every run of one CareInstruction a configured Shoot is found from its ConfigMap, and only Shoots of the same namespace and owner are |
| Rbac.ShootCluster.EnsureRBAC | controller/shoot/rbac.go:27-96 | against an API server that refuses to change a RoleRef, binding and requests are those of the pure model, whichever of its four calls fail |
| Rbac.NeverRefused | controller/shoot/rbac.go:36-75 | no request changes an existing RoleRef, whichever calls fail |
| Rbac.DeletedOnlyForRoleRef | controller/shoot/rbac.go:36-52 | the binding is deleted iff its RoleRef is another one; otherwise it and its metadata survive every failure |
| Rbac.Converges | controller/shoot/rbac.go:27-96 | after any failures one call without failures ends with cluster-admin for exactly the service account of organisation and shoot, and the next sends nothing |

## Left out

- Client construction, kubeconfig parsing and scheme setup: access to a garden cluster is a config or an error.
- The locking of the gardens map: each phase of a pass is one step; other keys and exits fall between phases.
- Waiting for an old manager to stop: the code does not wait, so uniqueness is about uncancelled managers.
- The pointer to the spec kept in a garden entry: the model records a snapshot.
- `Patch` replies that overwrite other fields of the object in memory.
- The Shoot and Cluster patches behind a Cluster's reconcile annotation: only their failures are modelled.
- Labelling the authentication ConfigMap in the CareInstruction controller: its failure is only logged there.
- Base64 and SHA-256: the CA stands for its encoding, the hash is any function.
- CEL evaluation and label propagation: results of library code, taken as given.
- Coalescing of events in work queues: each event is processed when it arrives.
- Namespaces in `Ownership`: one Greenhouse namespace; controllers of different ones do not meet.
- Several CareInstructions whose Shoots reference one pre-existing garden ConfigMap: `ChangesReachShoots` is about one.
- Interference on the ClusterRoleBinding between the read and the write of one call.
- Watch mapping functions, label and secret-type predicates, webhooks, events, logging, condition timestamps: single-branch or mechanical.
