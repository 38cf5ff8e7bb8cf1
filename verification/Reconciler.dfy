/**
 The CareInstruction controller as it works: a map of mutable garden entries, and a CareInstruction object
 whose status is written in place. Every method is proved against the functions of Gardens and Passes.
 */
module Reconciler {
  import opened Api
  import opened Accounting
  import opened Aggregation
  import opened Gardens
  import Metrics
  import opened Passes

  /** The garden struct. */
  class GardenEntry {
    var mgr: Option<nat>
    var gardenConfig: Option<RestConfig>
    var gardenClient: Option<RestConfig>
    var careInstructionSpec: CareInstructionSpec
    var cancelFunc: Option<nat>
    var stopChan: Option<nat>
    var authConfigMapHash: string

    constructor (spec: CareInstructionSpec, hash: string)
      ensures Record() == Garden(None, None, None, spec, None, None, hash)
    {
      mgr, gardenConfig, gardenClient := None, None, None;
      careInstructionSpec := spec;
      cancelFunc, stopChan := None, None;
      authConfigMapHash := hash;
    }

    ghost function Record(): Garden
      reads this
    {
      Garden(mgr, gardenConfig, gardenClient, careInstructionSpec, cancelFunc, stopChan, authConfigMapHash)
    }
  }

  /** The CareInstruction object a pass works on. */
  class CareInstructionObject {
    const namespace: string
    const name: string
    const spec: CareInstructionSpec
    var annotations: map<string, string>
    var conditions: map<ConditionType, Condition>
    var shoots: seq<ShootStatus>
    var totalTargetShoots: nat
    var createdClusters: nat
    var failedClusters: nat
    var restartCount: nat

    constructor (ci: CareInstruction)
      ensures View() == ci
    {
      namespace, name, spec, annotations := ci.namespace, ci.name, ci.spec, ci.annotations;
      conditions, shoots := ci.status.conditions, ci.status.shoots;
      totalTargetShoots, createdClusters, failedClusters :=
        ci.status.totalTargetShoots, ci.status.createdClusters, ci.status.failedClusters;
      restartCount := ci.status.restartCount;
    }

    function View(): CareInstruction
      reads this
    {
      CareInstruction(namespace, name, annotations, spec,
        CareInstructionStatus(conditions, shoots, totalTargetShoots, createdClusters, failedClusters, restartCount))
    }

    function Key(): string {
      GardenKey(namespace, name)
    }

    function GaugeSeries(): Metrics.Series {
      Metrics.Series(name, namespace, spec.gardenNamespace)
    }

    method Set(kind: ConditionType, c: Condition)
      modifies this
      ensures View() == SetCondition(old(View()), kind, c)
    {
      conditions := conditions[kind := c];
    }

    method SetTotal(total: nat)
      modifies this
      ensures View() == WithTotal(old(View()), total)
    {
      totalTargetShoots, createdClusters, failedClusters, shoots := total, 0, 0, [];
    }

    /** initializeConditionsToUnknown */
    method InitializeConditionsToUnknown()
      modifies this
      ensures View() == InitializeConditions(old(View()))
    {
      for i := 0 to |KNOWN_CONDITION_TYPES|
        invariant View() == InitializeUpTo(old(View()), i)
      {
        if KNOWN_CONDITION_TYPES[i] !in conditions {
          Set(KNOWN_CONDITION_TYPES[i], Condition(CondUnknown, "Unknown", "Condition is unknown"));
        }
      }
    }

    /** reconcileStatus: start from True and let the first known condition that is not True overwrite it. */
    method SetReady()
      modifies this
      ensures View() == ReconcileStatus(old(View()))
    {
      Set(Ready, Condition(CondTrue, "Ready", "CareInstruction is ready"));
      ghost var start := View();
      ghost var given := old(conditions);
      for i := 0 to |KNOWN_CONDITION_TYPES|
        invariant View() == start
        invariant FirstNotTrue(given, i) == FirstNotTrue(given, 0)
      {
        var kind := KNOWN_CONDITION_TYPES[i];
        if kind in conditions && conditions[kind].status != CondTrue {
          Set(Ready, Condition(CondFalse, conditions[kind].reason, conditions[kind].message));
          assert conditions == given[Ready := Condition(CondFalse, given[kind].reason, given[kind].message)];
          return;
        }
      }
    }
  }

  class CareInstructionReconciler {
    var gardens: map<string, GardenEntry>
    var managers: seq<Manager>
    const sha: string -> string

    constructor (sha: string -> string)
      ensures Valid() && View() == Registry(map[], []) && this.sha == sha
    {
      gardens, managers := map[], [];
      this.sha := sha;
    }

    /** Different keys have different entries. */
    ghost predicate Valid()
      reads this
    {
      forall k, k' :: k in gardens && k' in gardens && k != k' ==> gardens[k] != gardens[k']
    }

    ghost function View(): Registry
      reads this, gardens.Values
    {
      Registry(map k | k in gardens :: gardens[k].Record(), managers)
    }

    /** The entries are those of before, or new. */
    twostate predicate KeepsEntries()
      reads this
    {
      forall k :: k in gardens ==> (k in old(gardens) && gardens[k] == old(gardens[k])) || fresh(gardens[k])
    }

    /** Calling a cancel function: the context of that manager ends. */
    method CallCancel(id: Option<nat>)
      modifies this`managers
      ensures managers == Cancel(old(managers), id)
    {
      if id.Some? && id.value < |managers| {
        managers := managers[id.value := managers[id.value].(cancelled := true)];
      }
    }

    /** Cancelling and forgetting the manager of an entry; tells whether there was one to be counted. */
    method ForgetManager(key: string) returns (counts: bool)
      requires Valid()
      modifies this`managers, gardens.Values
      ensures Valid() && gardens == old(gardens)
      ensures View() == Restart(old(View()), key)
      ensures RestartIncrement(old(View()), key) == if counts then 1 else 0
    {
      if key !in gardens || gardens[key].cancelFunc.None? {
        return false;
      }
      var garden := gardens[key];
      var alreadyStopped := garden.mgr.None?;
      CallCancel(garden.cancelFunc);
      garden.mgr := None;
      assert View().gardens == Restart(old(View()), key).gardens;
      counts := !alreadyStopped;
    }

    /** restartShootController */
    method RestartShootController(ci: CareInstructionObject)
      requires Valid()
      modifies this`managers, gardens.Values, ci
      ensures Valid() && gardens == old(gardens)
      ensures View() == Restart(old(View()), ci.Key())
      ensures ci.View() == AddRestarts(old(ci.View()), RestartIncrement(old(View()), ci.Key()))
    {
      var counts := ForgetManager(ci.Key());
      if counts {
        ci.restartCount := ci.restartCount + 1;
      }
    }

    /** The manager of an entry is cancelled and the entry deleted, unless it has no cancel function. */
    method DropEntry(key: string)
      requires Valid()
      modifies this
      ensures Valid() && KeepsEntries()
      ensures View() == Cleanup(old(View()), key)
    {
      if key in gardens && gardens[key].cancelFunc.Some? {
        CallCancel(gardens[key].cancelFunc);
        gardens := gardens - {key};
        assert View().gardens == Cleanup(old(View()), key).gardens;
      }
    }

    /** cleanupCareInstruction */
    method CleanupCareInstruction(ci: CareInstructionObject)
      requires Valid()
      modifies this, ci
      ensures Valid() && KeepsEntries()
      ensures View() == Cleanup(old(View()), ci.Key())
      ensures ci.View() == SetCondition(old(ci.View()), Delete,
        Condition(CondFalse, "PendingDeletion", "CareInstruction is being deleted"))
    {
      ci.Set(Delete, Condition(CondFalse, "PendingDeletion", "CareInstruction is being deleted"));
      DropEntry(ci.Key());
    }

    /** EnsureDeleted */
    method EnsureDeleted(ci: CareInstructionObject)
      requires Valid()
      modifies this, ci
      ensures Valid() && KeepsEntries()
      ensures View() == Cleanup(old(View()), ci.Key())
      ensures ci.View() == SetCondition(InitializeConditions(old(ci.View())), Delete,
                             Condition(CondFalse, "PendingDeletion", "CareInstruction is being deleted"))
    {
      ci.InitializeConditionsToUnknown();
      CleanupCareInstruction(ci);
    }

    /** The entry is inserted unless there is one. */
    method EnsureEntry(key: string, spec: CareInstructionSpec, hash: string)
      requires Valid()
      modifies this`gardens
      ensures Valid() && KeepsEntries() && key in gardens
      ensures View() == AddEntry(old(View()), key, spec, hash)
    {
      if key !in gardens {
        var entry := new GardenEntry(spec, hash);
        gardens := gardens[key := entry];
      }
      assert View().gardens == AddEntry(old(View()), key, spec, hash).gardens;
    }

    /** The manager is started and recorded in the entry. */
    method InstallManager(key: string, spec: CareInstructionSpec, config: RestConfig)
      requires Valid() && key in gardens
      modifies this`managers, gardens.Values
      ensures Valid() && gardens == old(gardens)
      ensures View() == Install(old(View()), key, spec, config)
    {
      var id := |managers|;
      var garden := gardens[key];
      garden.gardenConfig := Some(config);
      garden.gardenClient := Some(config);
      garden.mgr := Some(id);
      garden.cancelFunc := Some(id);
      garden.stopChan := Some(id);
      garden.careInstructionSpec := spec;
      managers := managers + [Manager(key, spec, config, false, false)];
      assert View().gardens == Install(old(View()), key, spec, config).gardens;
    }

    /** The old manager is stopped before the new one is built, which may fail. */
    method RecreateManager(ci: CareInstructionObject, config: RestConfig, buildError: Option<string>)
        returns (err: Option<string>)
      requires Valid() && ci.Key() in gardens
      modifies this`managers, gardens.Values, ci
      ensures Valid() && gardens == old(gardens)
      ensures Outcome(View(), ci.View(), err) == Recreate(old(View()), old(ci.View()), config, buildError)
    {
      var garden := gardens[ci.Key()];
      assert View().gardens[ci.Key()] == garden.Record();
      if garden.mgr.Some? {
        CallCancel(garden.cancelFunc);
      }
      assert View() == StopForRecreation(old(View()), ci.Key());
      if buildError.Some? {
        return buildError;
      }
      InstallManager(ci.Key(), ci.spec, config);
      ci.Set(ShootControllerStarted, Condition(CondTrue, "Started", ""));
      err := None;
    }

    /** The five checks of whether the manager can stay. */
    method CanSkip(ci: CareInstructionObject, config: RestConfig) returns (skip: bool)
      requires Valid() && ci.Key() in gardens
      ensures skip == SkipsRecreation(View(), ci.View(), config)
    {
      var garden := gardens[ci.Key()];
      var mgrExists := garden.mgr.Some?;
      var shootControllerStarted := IsTrue(ci.View().status, ShootControllerStarted);
      var gardenConfigChanged := garden.gardenConfig != Some(config);
      var careInstructionSpecChanged := garden.careInstructionSpec != ci.spec;
      var channelExists := garden.stopChan.Some?;
      var channelOpen := true;
      if channelExists && garden.stopChan.value < |managers| {
        channelOpen := !managers[garden.stopChan.value].stopped;
      }
      assert View().gardens[ci.Key()] == garden.Record();
      skip := mgrExists && shootControllerStarted && !gardenConfigChanged && !careInstructionSpecChanged
        && channelExists && channelOpen;
    }

    /** reconcileManager once the entry exists. */
    method ReconcileExisting(ci: CareInstructionObject, o: ManagerObs) returns (err: Option<string>)
      requires Valid() && ci.Key() in gardens
      modifies this`managers, gardens.Values, ci
      ensures Valid() && gardens == old(gardens)
      ensures Outcome(View(), ci.View(), err) == ReconcileEntry(old(View()), old(ci.View()), o)
    {
      if o.access.Denied? {
        ci.Set(GardenClusterAccessReady, Condition(CondFalse, "GardenClusterAccessError", o.access.error));
        return Some(o.access.error);
      }
      ci.Set(GardenClusterAccessReady, Condition(CondTrue, "GardenClusterAccessReady", ""));
      var skip := CanSkip(ci, o.access.config);
      if skip {
        return None;
      }
      err := RecreateManager(ci, o.access.config, o.buildError);
    }

    /** reconcileManager */
    method DoReconcileManager(ci: CareInstructionObject, o: ManagerObs) returns (err: Option<string>)
      requires Valid()
      modifies this, gardens.Values, ci
      ensures Valid() && KeepsEntries() && (err.None? ==> ci.Key() in gardens)
      ensures Outcome(View(), ci.View(), err) == ReconcileManager(sha, old(View()), old(ci.View()), o)
    {
      var key := ci.Key();
      var initialHash := "";
      if key !in gardens && ci.spec.authenticationConfigMapName != "" {
        match o.seed {
          case Got(cm) => initialHash := HashAuthConfigMap(sha, cm);
          case Missing =>
          case Error(m) => return Some(m);
        }
      }
      EnsureEntry(key, ci.spec, initialHash);
      err := ReconcileExisting(ci, o);
    }

    /** The reconcile annotation is deleted from the object, and the restart follows unless the patch fails. */
    method HandleAnnotation(ci: CareInstructionObject, patchError: Option<string>) returns (err: Option<string>)
      requires Valid() && ci.Key() in gardens
      modifies this`managers, gardens.Values, ci
      ensures Valid() && gardens == old(gardens)
      ensures err == if Requested(old(ci.View())) then patchError else None
      ensures var a := if err.Some? then Restarted(old(View()), 0) else AnnotationRestart(old(View()), old(ci.View()));
        View() == a.registry && ci.View() == AddRestarts(Acknowledge(old(ci.View())), a.restarts)
    {
      if !Requested(ci.View()) {
        return None;
      }
      ci.annotations := ci.annotations - {RECONCILE_ANNOTATION};
      if patchError.Some? {
        return patchError;
      }
      RestartShootController(ci);
      err := None;
    }

    method RecordHash(key: string, h: string)
      requires Valid() && key in gardens
      modifies gardens.Values
      ensures Valid() && gardens == old(gardens)
      ensures View() == SetHash(old(View()), key, h)
    {
      var garden := gardens[key];
      garden.authConfigMapHash := h;
      assert View().gardens == SetHash(old(View()), key, h).gardens;
    }

    /** The comparison of the authentication ConfigMap with the recorded hash. */
    method HandleAuthConfigMap(ci: CareInstructionObject, o: ShootsObs)
      requires Valid() && ci.Key() in gardens
      modifies this`managers, gardens.Values, ci
      ensures Valid() && gardens == old(gardens)
      ensures var h := HashRestart(old(View()), ci.Key(), AuthHash(sha, ci.View(), o));
        View() == h.registry && ci.View() == AddRestarts(old(ci.View()), h.restarts)
    {
      if ci.spec.authenticationConfigMapName != "" && o.authConfigMap.Got? {
        var h := HashAuthConfigMap(sha, o.authConfigMap.value);
        var garden := gardens[ci.Key()];
        assert View().gardens[ci.Key()] == garden.Record();
        if h != garden.authConfigMapHash {
          RecordHash(ci.Key(), h);
          assert View() == SetHash(old(View()), ci.Key(), h);
          RestartShootController(ci);
        }
      }
    }

    /** The shoot list and the authentication ConfigMap. */
    method HandleShootsAndAuth(ci: CareInstructionObject, o: ShootsObs) returns (err: Option<string>)
      requires Valid() && ci.Key() in gardens
      modifies this`managers, gardens.Values, ci
      ensures Valid() && gardens == old(gardens)
      ensures Outcome(View(), ci.View(), err) == AuthPhase(sha, old(View()), old(ci.View()), o)
    {
      if o.shoots.Error? {
        return Some(o.shoots.message);
      }
      ci.SetTotal(if o.shoots.Got? then |o.shoots.value| else 0);
      if ci.spec.authenticationConfigMapName != "" && o.authConfigMap.Error? {
        return Some(o.authConfigMap.message);
      }
      HandleAuthConfigMap(ci, o);
      err := None;
    }

    /** reconcileShootsNClusters up to the listing of the Clusters. */
    method HandleTriggers(ci: CareInstructionObject, o: ShootsObs) returns (err: Option<string>)
      requires Valid() && ci.Key() in gardens
      modifies this`managers, gardens.Values, ci
      ensures Valid() && gardens == old(gardens)
      ensures Outcome(View(), ci.View(), err) == TriggerPhase(sha, old(View()), old(ci.View()), o)
    {
      TriggersInOrder(sha, View(), ci.View(), o);
      ci.SetTotal(0);
      err := HandleAnnotation(ci, o.patchError);
      if err.None? {
        err := HandleShootsAndAuth(ci, o);
      }
    }

    /** The counters and the list of the status, and ShootsReconciled if nothing is amiss. */
    method FillStatus(ci: CareInstructionObject, a: Aggregate)
      modifies ci
      ensures ci.View() == Fill(old(ci.View()), a)
    {
      ci.totalTargetShoots, ci.createdClusters, ci.failedClusters, ci.shoots := a.total, a.created, a.failed, a.shoots;
      if a.error.None? {
        ci.Set(ShootsReconciled, Condition(CondTrue, "Reconciled", "All shoots and clusters are reconciled"));
      }
    }

    /** reconcileShootsNClusters without its deferred metrics update. */
    method ReconcileAndCount(ci: CareInstructionObject, o: ShootsObs) returns (err: Option<string>)
      requires Valid() && ci.Key() in gardens
      modifies this`managers, gardens.Values, ci
      ensures Valid() && gardens == old(gardens)
      ensures Outcome(View(), ci.View(), err)
           == ReconcileShootsNClusters(sha, old(View()), old(ci.View()), o, AggregateSpec(o, ci.name))
    {
      err := HandleTriggers(ci, o);
      if err.None? {
        var a := AggregateStatus(o, ci.name);
        FillStatus(ci, a);
        err := a.error;
      }
    }

    /** reconcileShootsNClusters: on every return path the gauges end up with the counters of the status. */
    method DoReconcileShootsNClusters(ci: CareInstructionObject, o: ShootsObs, gauges: Metrics.Gauges)
        returns (err: Option<string>)
      requires Valid() && ci.Key() in gardens
      modifies this`managers, gardens.Values, ci, gauges
      ensures Valid() && gardens == old(gardens)
      ensures Outcome(View(), ci.View(), err)
           == ReconcileShootsNClusters(sha, old(View()), old(ci.View()), o, AggregateSpec(o, ci.name))
      ensures CountsWhatItSaw(ci.View().status, old(ci.View()), o)
      ensures var series := Metrics.Series(ci.name, ci.namespace, ci.spec.gardenNamespace);
        && gauges.totalTargetShoots == old(gauges.totalTargetShoots)[series := ci.totalTargetShoots]
        && gauges.createdClusters == old(gauges.createdClusters)[series := ci.createdClusters]
        && gauges.failedClusters == old(gauges.failedClusters)[series := ci.failedClusters]
        && gauges.onboarded == Metrics.SetOnboarded(old(gauges.onboarded), series, ci.shoots)
      ensures Metrics.DistinctNames(ci.shoots)
    {
      CountersOfCall(sha, View(), ci.View(), o);
      err := ReconcileAndCount(ci, o);
      Metrics.AggregateNamesDistinct(o, ci.name);
      gauges.Update(ci.GaugeSeries(), ci.totalTargetShoots, ci.createdClusters, ci.failedClusters, ci.shoots);
    }

    /** The end of a pass whose reconcileManager succeeded. */
    method EndPass(ci: CareInstructionObject, err: Option<string>)
      modifies ci
      ensures ci.View() == ReconcileStatus(
        if err.None? then old(ci.View())
        else SetCondition(old(ci.View()), ShootsReconciled, Condition(CondFalse, "ShootsReconciledError", err.value)))
    {
      if err.Some? {
        ci.Set(ShootsReconciled, Condition(CondFalse, "ShootsReconciledError", err.value));
      }
      ci.SetReady();
    }

    /** EnsureCreated from reconcileShootsNClusters on, then reconcileStatus. */
    method FinishPass(ci: CareInstructionObject, so: ShootsObs, gauges: Metrics.Gauges)
      requires Valid() && ci.Key() in gardens
      modifies this`managers, gardens.Values, ci, gauges
      ensures Valid() && gardens == old(gardens)
      ensures var s := ShootsPhase(sha, old(View()), old(ci.View()), so, AggregateSpec(so, ci.name));
        View() == s.registry && ci.View() == s.ci
    {
      var err := DoReconcileShootsNClusters(ci, so, gauges);
      EndPass(ci, err);
    }

    /** The end of a pass whose reconcileManager failed. */
    method FailPass(ci: CareInstructionObject, message: string)
      modifies ci
      ensures ci.View() == ReconcileStatus(SetCondition(old(ci.View()), ShootControllerStarted,
                                                        Condition(CondFalse, "ShootControllerError", message)))
    {
      ci.Set(ShootControllerStarted, Condition(CondFalse, "ShootControllerError", message));
      ci.SetReady();
    }

    /** EnsureCreated up to and including reconcileManager, then reconcileStatus if that failed. */
    method StartPass(ci: CareInstructionObject, mo: ManagerObs) returns (err: Option<string>)
      requires Valid()
      modifies this, gardens.Values, ci
      ensures Valid() && KeepsEntries() && (err.None? ==> ci.Key() in gardens)
      ensures var m := ManagerPhase(sha, old(View()), old(ci.View()), mo);
        err == m.error && View() == m.registry && ci.View() == if err.Some? then ReconcileStatus(m.ci) else m.ci
    {
      ci.InitializeConditionsToUnknown();
      assert View() == old(View());
      err := DoReconcileManager(ci, mo);
      if err.Some? {
        FailPass(ci, err.value);
      }
    }

    /** EnsureCreated followed by reconcileStatus: one whole pass. */
    method EnsureCreated(ci: CareInstructionObject, mo: ManagerObs, so: ShootsObs, gauges: Metrics.Gauges)
        returns (err: Option<string>)
      requires Valid()
      modifies this, gardens.Values, ci, gauges
      ensures Valid() && KeepsEntries()
      ensures var m := ManagerPhase(sha, old(View()), old(ci.View()), mo);
        && err == m.error
        && (m.error.Some? ==> View() == m.registry && ci.View() == ReconcileStatus(m.ci))
        && (m.error.None? ==>
              var s := ShootsPhase(sha, m.registry, m.ci, so, AggregateSpec(so, ci.name));
              View() == s.registry && ci.View() == s.ci)
    {
      err := StartPass(ci, mo);
      if err.None? {
        FinishPass(ci, so, gauges);
      }
    }
  }
}
