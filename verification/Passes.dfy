/**
 One reconcile pass over a CareInstruction as a function of the gardens registry, the object and what the
 API servers answer. The Reconciler class performs the same steps in place and is proved equal to it.
 */
module Passes {
  import opened Api
  import opened Aggregation
  import opened Gardens

  datatype Access = Granted(config: RestConfig) | Denied(error: string)

  /** What reconcileManager reads: the seeding Get, GetGardenClusterAccess, and the first failure, if any,
      among creating the client, the manager, its field index and the shoot controller. */
  datatype ManagerObs = ManagerObs(seed: Reply<ConfigMap>, access: Access, buildError: Option<string>)

  datatype Outcome = Outcome(registry: Registry, ci: CareInstruction, error: Option<string>)

  const KNOWN_CONDITION_TYPES: seq<ConditionType> :=
    [GardenClusterAccessReady, ShootControllerStarted, ShootsReconciled]

  // ---- Conditions ----

  function InitializeUpTo(ci: CareInstruction, n: nat): CareInstruction
    requires n <= |KNOWN_CONDITION_TYPES|
  {
    if n == 0 then ci
    else
      var before := InitializeUpTo(ci, n - 1);
      var kind := KNOWN_CONDITION_TYPES[n - 1];
      if kind in before.status.conditions then before
      else SetCondition(before, kind, Condition(CondUnknown, "Unknown", "Condition is unknown"))
  }

  /** initializeConditionsToUnknown */
  function InitializeConditions(ci: CareInstruction): CareInstruction {
    InitializeUpTo(ci, |KNOWN_CONDITION_TYPES|)
  }

  /** The first known condition, from position n on, that is set and not True. */
  function FirstNotTrue(conditions: map<ConditionType, Condition>, n: nat): Option<Condition>
    requires n <= |KNOWN_CONDITION_TYPES|
    decreases |KNOWN_CONDITION_TYPES| - n
  {
    if n == |KNOWN_CONDITION_TYPES| then None
    else
      var kind := KNOWN_CONDITION_TYPES[n];
      if kind in conditions && conditions[kind].status != CondTrue then Some(conditions[kind])
      else FirstNotTrue(conditions, n + 1)
  }

  /** reconcileStatus */
  function ReconcileStatus(ci: CareInstruction): CareInstruction {
    match FirstNotTrue(ci.status.conditions, 0)
    case None => SetCondition(ci, Ready, Condition(CondTrue, "Ready", "CareInstruction is ready"))
    case Some(c) => SetCondition(ci, Ready, Condition(CondFalse, c.reason, c.message))
  }

  // ---- The manager phase ----

  /** Only config.yaml is hashed. */
  function HashAuthConfigMap(sha: string -> string, cm: ConfigMap): string {
    sha(Lookup(cm.data, AUTH_CONFIG_MAP_KEY))
  }

  function Key(ci: CareInstruction): string {
    GardenKey(ci.namespace, ci.name)
  }

  /** The hash recorded in a new entry, so that the first pass does not restart what it has just started. */
  function SeedHash(sha: string -> string, ci: CareInstruction, seed: Reply<ConfigMap>): string {
    if ci.spec.authenticationConfigMapName != "" && seed.Got? then HashAuthConfigMap(sha, seed.value) else ""
  }

  predicate SeedFails(r: Registry, ci: CareInstruction, seed: Reply<ConfigMap>) {
    Key(ci) !in r.gardens && ci.spec.authenticationConfigMapName != "" && seed.Error?
  }

  /** The manager runs, was started, and was built from the current config and spec. */
  predicate SkipsRecreation(r: Registry, ci: CareInstruction, config: RestConfig)
    requires Key(ci) in r.gardens
  {
    var g := r.gardens[Key(ci)];
    && g.mgr.Some?
    && IsTrue(ci.status, ShootControllerStarted)
    && g.gardenConfig == Some(config)
    && g.careInstructionSpec == ci.spec
    && g.stopChan.Some?
    && !(g.stopChan.value < |r.managers| && r.managers[g.stopChan.value].stopped)
  }

  function Recreate(r: Registry, ci: CareInstruction, config: RestConfig, buildError: Option<string>): Outcome
    requires Key(ci) in r.gardens
  {
    var stopped := StopForRecreation(r, Key(ci));
    if buildError.Some? then Outcome(stopped, ci, buildError)
    else Outcome(Install(stopped, Key(ci), ci.spec, config),
                 SetCondition(ci, ShootControllerStarted, Condition(CondTrue, "Started", "")), None)
  }

  /** reconcileManager once the entry exists: access, the skip test, recreation. */
  function ReconcileEntry(r: Registry, ci: CareInstruction, o: ManagerObs): Outcome
    requires Key(ci) in r.gardens
  {
    match o.access
    case Denied(e) =>
      Outcome(r, SetCondition(ci, GardenClusterAccessReady, Condition(CondFalse, "GardenClusterAccessError", e)),
        Some(e))
    case Granted(config) =>
      var ci1 := SetCondition(ci, GardenClusterAccessReady, Condition(CondTrue, "GardenClusterAccessReady", ""));
      if SkipsRecreation(r, ci1, config) then Outcome(r, ci1, None) else Recreate(r, ci1, config, o.buildError)
  }

  /** reconcileManager */
  function ReconcileManager(sha: string -> string, r: Registry, ci: CareInstruction, o: ManagerObs): Outcome {
    if SeedFails(r, ci, o.seed) then Outcome(r, ci, Some(o.seed.message))
    else ReconcileEntry(AddEntry(r, Key(ci), ci.spec, SeedHash(sha, ci, o.seed)), ci, o)
  }

  /** EnsureCreated up to and including reconcileManager. */
  function ManagerPhase(sha: string -> string, r: Registry, ci: CareInstruction, o: ManagerObs): Outcome {
    var out := ReconcileManager(sha, r, InitializeConditions(ci), o);
    if out.error.None? then out
    else out.(ci := SetCondition(out.ci, ShootControllerStarted,
      Condition(CondFalse, "ShootControllerError", out.error.value)))
  }

  // ---- The shoots phase ----

  predicate Requested(ci: CareInstruction) {
    Lookup(ci.annotations, RECONCILE_ANNOTATION) == "true"
  }

  /** The reconcile annotation was seen and removed. */
  predicate Handled(ci: CareInstruction, o: ShootsObs) {
    Requested(ci) && o.patchError.None?
  }

  /** The object once the annotation has been deleted from it, which happens before the patch is sent. */
  function Acknowledge(ci: CareInstruction): CareInstruction {
    if Requested(ci) then ci.(annotations := ci.annotations - {RECONCILE_ANNOTATION}) else ci
  }

  /** The hash of the authentication ConfigMap, if one is named and found. */
  function AuthHash(sha: string -> string, ci: CareInstruction, o: ShootsObs): Option<string> {
    if ci.spec.authenticationConfigMapName == "" || !o.authConfigMap.Got? then None
    else Some(HashAuthConfigMap(sha, o.authConfigMap.value))
  }

  /** The hash the pass compares with the recorded one, if it gets that far. */
  function ObservedHash(sha: string -> string, ci: CareInstruction, o: ShootsObs): Option<string> {
    if (Requested(ci) && o.patchError.Some?) || o.shoots.Error? then None else AuthHash(sha, ci, o)
  }

  datatype Restarted = Restarted(registry: Registry, restarts: nat)

  /** Restart for the reconcile annotation. */
  function AnnotationRestart(r: Registry, ci: CareInstruction): Restarted {
    if Requested(ci) then Restarted(Restart(r, Key(ci)), RestartIncrement(r, Key(ci))) else Restarted(r, 0)
  }

  /** Restart for changed authentication configuration. */
  function HashRestart(r: Registry, key: string, h: Option<string>): Restarted {
    if h.None? || key !in r.gardens || r.gardens[key].authConfigMapHash == h.value then Restarted(r, 0)
    else
      var r1 := SetHash(r, key, h.value);
      Restarted(Restart(r1, key), RestartIncrement(r1, key))
  }

  function AddRestarts(ci: CareInstruction, n: nat): CareInstruction {
    ci.(status := ci.status.(restartCount := ci.status.restartCount + n))
  }

  function Fill(ci: CareInstruction, a: Aggregate): CareInstruction {
    var ci1 := ci.(status := ci.status.(totalTargetShoots := a.total, createdClusters := a.created,
                                        failedClusters := a.failed, shoots := a.shoots));
    if a.error.Some? then ci1
    else SetCondition(ci1, ShootsReconciled,
      Condition(CondTrue, "Reconciled", "All shoots and clusters are reconciled"))
  }

  /** The counters as they stand before the Clusters are listed. */
  function WithTotal(ci: CareInstruction, total: nat): CareInstruction {
    ci.(status := ci.status.(totalTargetShoots := total, createdClusters := 0, failedClusters := 0, shoots := []))
  }

  /** The return paths before the Clusters are listed. */
  function EarlyError(ci: CareInstruction, o: ShootsObs): Option<string> {
    if Requested(ci) && o.patchError.Some? then o.patchError
    else if o.shoots.Error? then Some(o.shoots.message)
    else if ci.spec.authenticationConfigMapName != "" && o.authConfigMap.Error? then Some(o.authConfigMap.message)
    else None
  }

  /** What the pass does to the registry, and by how much it raises the restart count. */
  function Restarts(sha: string -> string, r: Registry, ci: CareInstruction, o: ShootsObs): Restarted {
    if Requested(ci) && o.patchError.Some? then Restarted(r, 0)
    else
      var a := AnnotationRestart(r, ci);
      var h := HashRestart(a.registry, Key(ci), ObservedHash(sha, ci, o));
      Restarted(h.registry, a.restarts + h.restarts)
  }

  /** The target count of a pass that fails before it has listed the Clusters. */
  function EarlyTotal(ci: CareInstruction, o: ShootsObs): nat {
    if Requested(ci) && o.patchError.Some? then 0 else |Targets(o)|
  }

  /** reconcileShootsNClusters up to the listing of the Clusters. */
  function TriggerPhase(sha: string -> string, r: Registry, ci: CareInstruction, o: ShootsObs): Outcome {
    var restarted := Restarts(sha, r, ci, o);
    Outcome(restarted.registry, WithTotal(AddRestarts(Acknowledge(ci), restarted.restarts), EarlyTotal(ci, o)),
      EarlyError(ci, o))
  }

  /** TriggerPhase after the reconcile annotation. */
  function AuthPhase(sha: string -> string, r: Registry, ci: CareInstruction, o: ShootsObs): Outcome {
    if o.shoots.Error? then Outcome(r, ci, Some(o.shoots.message))
    else
      var ci1 := WithTotal(ci, |Targets(o)|);
      if ci.spec.authenticationConfigMapName != "" && o.authConfigMap.Error?
      then Outcome(r, ci1, Some(o.authConfigMap.message))
      else
        var h := HashRestart(r, Key(ci), AuthHash(sha, ci, o));
        Outcome(h.registry, AddRestarts(ci1, h.restarts), None)
  }

  /** The steps of TriggerPhase one after the other, each on the object the one before has left. */
  lemma TriggersInOrder(sha: string -> string, r: Registry, ci: CareInstruction, o: ShootsObs)
    ensures TriggerPhase(sha, r, ci, o) ==
      var ci0 := Acknowledge(WithTotal(ci, 0));
      if Requested(ci) && o.patchError.Some? then Outcome(r, ci0, o.patchError)
      else
        var a := AnnotationRestart(r, ci);
        AuthPhase(sha, a.registry, AddRestarts(ci0, a.restarts), o)
  {
    var ci1 := AddRestarts(Acknowledge(WithTotal(ci, 0)), AnnotationRestart(r, ci).restarts);
    assert AuthHash(sha, ci1, o) == AuthHash(sha, ci, o);
  }

  /** reconcileShootsNClusters, where agg is what aggregating shoots and Clusters yields if the pass gets that far. */
  function ReconcileShootsNClusters(sha: string -> string, r: Registry, ci: CareInstruction, o: ShootsObs,
      agg: Aggregate): Outcome {
    var out := TriggerPhase(sha, r, ci, o);
    if out.error.Some? then out else Outcome(out.registry, Fill(out.ci, agg), agg.error)
  }

  /** EnsureCreated from reconcileShootsNClusters on, then reconcileStatus. */
  function ShootsPhase(sha: string -> string, r: Registry, ci: CareInstruction, o: ShootsObs, agg: Aggregate): Outcome {
    var out := ReconcileShootsNClusters(sha, r, ci, o, agg);
    out.(ci := ReconcileStatus(
      if out.error.None? then out.ci
      else SetCondition(out.ci, ShootsReconciled, Condition(CondFalse, "ShootsReconciledError", out.error.value))))
  }

  // ---- What one phase guarantees ----

  /** Initialising the conditions changes nothing that is already known. */
  lemma {:induction false} InitializeKeeps(ci: CareInstruction, n: nat)
    requires n <= |KNOWN_CONDITION_TYPES|
    ensures var ci' := InitializeUpTo(ci, n);
      && ci' == ci.(status := ci.status.(conditions := ci'.status.conditions))
      && (forall kind :: kind in ci.status.conditions ==>
          kind in ci'.status.conditions && ci'.status.conditions[kind] == ci.status.conditions[kind])
      && (forall kind :: IsTrue(ci'.status, kind) <==> IsTrue(ci.status, kind))
      && (forall i :: 0 <= i < n ==> KNOWN_CONDITION_TYPES[i] in ci'.status.conditions)
  {
    if n > 0 {
      InitializeKeeps(ci, n - 1);
    }
  }

  /** Ready is True exactly when every known condition is True or unset; else it explains the first that is not. */
  lemma {:induction false} FirstNotTrueSpec(conditions: map<ConditionType, Condition>, n: nat)
    requires n <= |KNOWN_CONDITION_TYPES|
    ensures match FirstNotTrue(conditions, n)
      case None => forall i :: n <= i < |KNOWN_CONDITION_TYPES| && KNOWN_CONDITION_TYPES[i] in conditions
                     ==> conditions[KNOWN_CONDITION_TYPES[i]].status == CondTrue
      case Some(c) =>
        exists i :: n <= i < |KNOWN_CONDITION_TYPES|
                 && IsFirstNotTrue(conditions, n, i) && c == conditions[KNOWN_CONDITION_TYPES[i]]
    decreases |KNOWN_CONDITION_TYPES| - n
  {
    if n < |KNOWN_CONDITION_TYPES| {
      var kind := KNOWN_CONDITION_TYPES[n];
      if kind in conditions && conditions[kind].status != CondTrue {
        assert IsFirstNotTrue(conditions, n, n);
      } else {
        FirstNotTrueSpec(conditions, n + 1);
        if FirstNotTrue(conditions, n).Some? {
          var i :| n + 1 <= i < |KNOWN_CONDITION_TYPES| && IsFirstNotTrue(conditions, n + 1, i)
            && FirstNotTrue(conditions, n + 1).value == conditions[KNOWN_CONDITION_TYPES[i]];
          assert IsFirstNotTrue(conditions, n, i);
        }
      }
    }
  }

  /** From position n on, the condition at i is the first one that is set and not True. */
  ghost predicate IsFirstNotTrue(conditions: map<ConditionType, Condition>, n: nat, i: nat)
    requires n <= i < |KNOWN_CONDITION_TYPES|
  {
    && KNOWN_CONDITION_TYPES[i] in conditions && conditions[KNOWN_CONDITION_TYPES[i]].status != CondTrue
    && forall j :: n <= j < i && KNOWN_CONDITION_TYPES[j] in conditions ==>
        conditions[KNOWN_CONDITION_TYPES[j]].status == CondTrue
  }
}
