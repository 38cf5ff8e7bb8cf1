/**
 Over whole runs: the Ready condition at the end of a pass, and how often the shoot controller is restarted.
 */
module Accounting {
  import opened Api
  import opened Aggregation
  import opened Gardens
  import opened Lifecycle
  import opened Passes

  // ---- Ready ----

  /** Ready is False and says why the first known condition that is not True is not. */
  ghost predicate ExplainsFirst(before: map<ConditionType, Condition>, ready: Condition) {
    exists i :: 0 <= i < |KNOWN_CONDITION_TYPES| && IsFirstNotTrue(before, 0, i)
      && var c := before[KNOWN_CONDITION_TYPES[i]]; ready == Condition(CondFalse, c.reason, c.message)
  }

  /** A condition that is set and not True. */
  ghost predicate NotTrue(ci: CareInstruction, kind: ConditionType) {
    kind in ci.status.conditions && ci.status.conditions[kind].status != CondTrue
  }

  /**
   Ready takes reason and message from garden access if that is not True, else from the shoot controller, else
   from the shoots; a condition that is not set is passed over. No other condition changes.
   */
  lemma ReadyTakesFirst(ci: CareInstruction)
    ensures var before, after := ci.status.conditions, ReconcileStatus(ci).status.conditions;
      after == before[Ready :=
        if NotTrue(ci, GardenClusterAccessReady) then
          Condition(CondFalse, before[GardenClusterAccessReady].reason, before[GardenClusterAccessReady].message)
        else if NotTrue(ci, ShootControllerStarted) then
          Condition(CondFalse, before[ShootControllerStarted].reason, before[ShootControllerStarted].message)
        else if NotTrue(ci, ShootsReconciled) then
          Condition(CondFalse, before[ShootsReconciled].reason, before[ShootsReconciled].message)
        else Condition(CondTrue, "Ready", "CareInstruction is ready")]
  {
    assert KNOWN_CONDITION_TYPES[0] == GardenClusterAccessReady;
    assert KNOWN_CONDITION_TYPES[1] == ShootControllerStarted;
    assert KNOWN_CONDITION_TYPES[2] == ShootsReconciled;
    var c := ci.status.conditions;
    assert FirstNotTrue(c, 2) ==
      if NotTrue(ci, ShootsReconciled) then Some(c[ShootsReconciled]) else FirstNotTrue(c, 3);
    assert FirstNotTrue(c, 1) ==
      if NotTrue(ci, ShootControllerStarted) then Some(c[ShootControllerStarted]) else FirstNotTrue(c, 2);
  }

  /** A pass starts by setting each of the three conditions that is missing to Unknown, and changes no other. */
  lemma InitializedConditions(ci: CareInstruction)
    ensures var before, after := ci.status.conditions, InitializeConditions(ci).status.conditions;
      && after.Keys == before.Keys + {GardenClusterAccessReady, ShootControllerStarted, ShootsReconciled}
      && (forall kind :: kind in before ==> after[kind] == before[kind])
      && (forall kind :: kind in after && kind !in before ==>
            after[kind] == Condition(CondUnknown, "Unknown", "Condition is unknown"))
  {
    assert KNOWN_CONDITION_TYPES[0] == GardenClusterAccessReady;
    assert KNOWN_CONDITION_TYPES[1] == ShootControllerStarted;
    assert KNOWN_CONDITION_TYPES[2] == ShootsReconciled;
    assert InitializeUpTo(ci, 0) == ci;
    var one, two := InitializeUpTo(ci, 1), InitializeUpTo(ci, 2);
  }

  /** With all known conditions set, Ready is True iff all of them are, and else explains the first. */
  lemma ReconcileStatusSpec(ci: CareInstruction)
    requires forall i :: 0 <= i < |KNOWN_CONDITION_TYPES| ==> KNOWN_CONDITION_TYPES[i] in ci.status.conditions
    ensures IsTrue(ReconcileStatus(ci).status, Ready) <==>
      IsTrue(ci.status, GardenClusterAccessReady) && IsTrue(ci.status, ShootControllerStarted)
        && IsTrue(ci.status, ShootsReconciled)
    ensures !IsTrue(ReconcileStatus(ci).status, Ready) ==>
      ExplainsFirst(ci.status.conditions, ReconcileStatus(ci).status.conditions[Ready])
  {
    FirstNotTrueSpec(ci.status.conditions, 0);
    assert KNOWN_CONDITION_TYPES[0] == GardenClusterAccessReady;
    assert KNOWN_CONDITION_TYPES[1] == ShootControllerStarted;
    assert KNOWN_CONDITION_TYPES[2] == ShootsReconciled;
  }

  /** A pass whose reconcileManager fails ends with Ready not True, explaining the first condition in list order. */
  lemma FailedManagerNotReady(sha: string -> string, r: Registry, ci: CareInstruction, o: ManagerObs)
    requires RegistryOk(r) && StaleKnown(r, Key(ci), ci)
    requires ManagerPhase(sha, r, ci, o).error.Some?
    ensures var out := ManagerPhase(sha, r, ci, o);
      && !IsTrue(ReconcileStatus(out.ci).status, Ready)
      && ExplainsFirst(out.ci.status.conditions, ReconcileStatus(out.ci).status.conditions[Ready])
  {
    ManagerPhaseOk(sha, r, ci, o);
    InitializeKeeps(ci, |KNOWN_CONDITION_TYPES|);
    ReconcileStatusSpec(ManagerPhase(sha, r, ci, o).ci);
  }

  /** A pass that got past reconcileManager ends Ready exactly when reconcileShootsNClusters returns nil. */
  lemma ReadyIffReconciled(sha: string -> string, r: Registry, ci: CareInstruction, o: ShootsObs, agg: Aggregate)
    requires IsTrue(ci.status, GardenClusterAccessReady) && IsTrue(ci.status, ShootControllerStarted)
    ensures var out := ShootsPhase(sha, r, ci, o, agg);
      && (IsTrue(out.ci.status, Ready) <==> out.error.None?)
      && (IsTrue(out.ci.status, ShootsReconciled) <==> out.error.None?)
      && (out.error.Some? ==>
          out.ci.status.conditions[Ready] == Condition(CondFalse, "ShootsReconciledError", out.error.value))
      && Is(out.ci, ShootsReconciled,
            if out.error.Some? then Condition(CondFalse, "ShootsReconciledError", out.error.value)
            else Condition(CondTrue, "Reconciled", "All shoots and clusters are reconciled"))
  {
    var out := ReconcileShootsNClusters(sha, r, ci, o, agg);
    var ci' := if out.error.None? then out.ci
      else SetCondition(out.ci, ShootsReconciled, Condition(CondFalse, "ShootsReconciledError", out.error.value));
    assert KNOWN_CONDITION_TYPES[0] == GardenClusterAccessReady;
    assert KNOWN_CONDITION_TYPES[1] == ShootControllerStarted;
    assert KNOWN_CONDITION_TYPES[2] == ShootsReconciled;
    ReconcileStatusSpec(ci');
  }

  /**
   At the end of every pass in every run Ready is True iff both calls returned nil in that pass, and else it
   carries reason and message of the first known condition, in list order, that is not True.
   */
  lemma ReadyAtEndOfPass(sha: string -> string, w: World, steps: seq<Step>, k: string, o: ManagerObs, so: ShootsObs,
      agg: Aggregate)
    requires Initial(w) && k in Run(sha, w, steps).objects
    ensures var w1 := Run(sha, w, steps);
      && (k !in w1.inFlight && ManagerPhase(sha, w1.registry, w1.objects[k], o).error.Some? ==>
            var before := ManagerPhase(sha, w1.registry, w1.objects[k], o).ci.status;
            var after := Next(sha, w1, Manage(k, o)).objects[k].status;
            !IsTrue(after, Ready) && ExplainsFirst(before.conditions, after.conditions[Ready]))
      && (k in w1.inFlight ==>
            var error := ShootsPhase(sha, w1.registry, w1.inFlight[k], so, agg).error;
            var after := Next(sha, w1, Report(k, so, agg)).objects[k].status;
            && (IsTrue(after, Ready) <==> error.None?)
            && (error.Some? ==> after.conditions[Ready] == Condition(CondFalse, "ShootsReconciledError", error.value)))
  {
    var w1 := Run(sha, w, steps);
    RunInv(sha, w, steps);
    if k in w1.inFlight {
      assert Underway(w1, k);
      ReadyIffReconciled(sha, w1.registry, w1.inFlight[k], so, agg);
    } else if ManagerPhase(sha, w1.registry, w1.objects[k], o).error.Some? {
      FailedManagerNotReady(sha, w1.registry, w1.objects[k], o);
    }
  }

  /** No call of the second phase fails, every included shoot has an owned Cluster, every relevant Cluster is ready. */
  ghost predicate NothingAmiss(ci: CareInstruction, o: ShootsObs) {
    && !(Asked(ci) && o.patchError.Some?)
    && !o.shoots.Error?
    && !(ci.spec.authenticationConfigMapName != "" && o.authConfigMap.Error?)
    && !o.clusters.Error?
    && AllReconciled(Targets(o), Owned(o), o)
  }

  /** When reconcileShootsNClusters returns nil. */
  lemma ShootsReconciledIff(sha: string -> string, r: Registry, ci: CareInstruction, o: ShootsObs)
    ensures ReconcileShootsNClusters(sha, r, ci, o, AggregateSpec(o, ci.name)).error.None? <==> NothingAmiss(ci, o)
  {
    ReconciledIff(o, ci.name);
  }

  /** The error of the call is that of the first step that fails, in the order in which they are taken. */
  lemma CallError(sha: string -> string, r: Registry, ci: CareInstruction, o: ShootsObs, agg: Aggregate)
    ensures ReconcileShootsNClusters(sha, r, ci, o, agg).error ==
      if Asked(ci) && o.patchError.Some? then o.patchError
      else if o.shoots.Error? then Some(o.shoots.message)
      else if ci.spec.authenticationConfigMapName != "" && o.authConfigMap.Error? then Some(o.authConfigMap.message)
      else agg.error
  {
  }

  /** The reconcile annotation is off the object iff its removal succeeds, so that each request is handled once. */
  lemma RequestHandledOnce(sha: string -> string, w: World, s: Step, k: string)
    requires Inv(w) && Reports(w, s, k)
    ensures var w' := Next(sha, w, s);
      && k in w'.objects
      && (if Asked(w.inFlight[k]) && s.shoots.patchError.None? then !Asked(w'.objects[k])
          else w'.objects[k].annotations == w.objects[k].annotations)
  {
  }

  /** What Ready means: in every run a pass that reports what it has seen ends with Ready True iff nothing is amiss. */
  lemma ReadyMeansReconciled(sha: string -> string, w: World, steps: seq<Step>, k: string, so: ShootsObs)
    requires Initial(w) && k in Run(sha, w, steps).inFlight
    ensures var w1 := Run(sha, w, steps);
      var w2 := Next(sha, w1, Report(k, so, AggregateSpec(so, w1.inFlight[k].name)));
      k in w2.objects && (IsTrue(w2.objects[k].status, Ready) <==> NothingAmiss(w1.inFlight[k], so))
  {
    var w1 := Run(sha, w, steps);
    RunInv(sha, w, steps);
    assert Underway(w1, k);
    ReadyIffReconciled(sha, w1.registry, w1.inFlight[k], so, AggregateSpec(so, w1.inFlight[k].name));
    ShootsReconciledIff(sha, w1.registry, w1.inFlight[k], so);
  }

  // ---- Counters ----

  /** The pass fails before it has listed the Clusters. */
  ghost predicate StopsEarly(ci: CareInstruction, o: ShootsObs) {
    || (Asked(ci) && o.patchError.Some?)
    || o.shoots.Error?
    || (ci.spec.authenticationConfigMapName != "" && o.authConfigMap.Error?)
  }

  ghost function ReportedTotal(ci: CareInstruction, o: ShootsObs): nat {
    if (Asked(ci) && o.patchError.Some?) || !o.shoots.Got? then 0 else |o.shoots.value|
  }

  ghost function ReportedCreated(ci: CareInstruction, o: ShootsObs): nat {
    if StopsEarly(ci, o) || !o.clusters.Got? then 0 else |o.clusters.value|
  }

  ghost function ReportedShoots(ci: CareInstruction, o: ShootsObs): seq<ShootStatus> {
    if StopsEarly(ci, o) then [] else AggregateSpec(o, ci.name).shoots
  }

  /** The status holds the counters of what the pass got to see: shoots, Clusters, and Failed entries of the list. */
  ghost predicate CountsWhatItSaw(st: CareInstructionStatus, ci: CareInstruction, o: ShootsObs) {
    && st.totalTargetShoots == ReportedTotal(ci, o)
    && st.createdClusters == ReportedCreated(ci, o)
    && st.shoots == ReportedShoots(ci, o)
    && st.failedClusters == |set s | s in st.shoots && s.status == Failed|
  }

  ghost predicate HoldsCounters(st: CareInstructionStatus, total: nat, created: nat, failed: nat,
      shoots: seq<ShootStatus>) {
    st.totalTargetShoots == total && st.createdClusters == created && st.failedClusters == failed && st.shoots == shoots
  }

  lemma EarlyCounters(sha: string -> string, r: Registry, ci: CareInstruction, o: ShootsObs)
    ensures var out := TriggerPhase(sha, r, ci, o);
      HoldsCounters(out.ci.status, ReportedTotal(ci, o), 0, 0, []) && (out.error.Some? <==> StopsEarly(ci, o))
  {
  }

  lemma FilledCounters(ci: CareInstruction, a: Aggregate)
    ensures HoldsCounters(Fill(ci, a).status, a.total, a.created, a.failed, a.shoots)
  {
  }

  /** The aggregate holds the numbers that the status is to report. */
  lemma AggregateCounters(ci: CareInstruction, o: ShootsObs)
    requires !StopsEarly(ci, o)
    ensures var a := AggregateSpec(o, ci.name);
      && a.total == ReportedTotal(ci, o) && a.created == ReportedCreated(ci, o)
      && a.failed == |set s | s in a.shoots && s.status == Failed|
  {
    CountersSpec(o, ci.name);
  }

  lemma CountersOfCall(sha: string -> string, r: Registry, ci: CareInstruction, o: ShootsObs)
    ensures CountsWhatItSaw(ReconcileShootsNClusters(sha, r, ci, o, AggregateSpec(o, ci.name)).ci.status, ci, o)
  {
    EarlyCounters(sha, r, ci, o);
    var out := TriggerPhase(sha, r, ci, o);
    if out.error.None? {
      AggregateCounters(ci, o);
      FilledCounters(out.ci, AggregateSpec(o, ci.name));
    } else {
      assert (set s | s in out.ci.status.shoots && s.status == Failed) == {};
    }
  }

  lemma StatusKeepsCounters(ci: CareInstruction, st: CareInstructionStatus)
    requires HoldsCounters(ci.status, st.totalTargetShoots, st.createdClusters, st.failedClusters, st.shoots)
    ensures var st' := ReconcileStatus(ci).status;
      HoldsCounters(st', st.totalTargetShoots, st.createdClusters, st.failedClusters, st.shoots)
  {
  }

  /** On every path the status ends up with these counters. */
  lemma CountersReported(sha: string -> string, r: Registry, ci: CareInstruction, o: ShootsObs)
    ensures CountsWhatItSaw(ShootsPhase(sha, r, ci, o, AggregateSpec(o, ci.name)).ci.status, ci, o)
  {
    CountersOfCall(sha, r, ci, o);
    var out := ReconcileShootsNClusters(sha, r, ci, o, AggregateSpec(o, ci.name));
    StatusKeepsCounters(
      if out.error.None? then out.ci
      else SetCondition(out.ci, ShootsReconciled, Condition(CondFalse, "ShootsReconciledError", out.error.value)),
      out.ci.status);
  }

  // ---- Restarts ----

  ghost predicate Reports(w: World, s: Step, k: string) {
    s.Report? && s.key == k && k in w.objects && k in w.inFlight
  }

  /** The step is a pass of k in which the annotation was handled or the hash differs from the recorded one. */
  ghost predicate StepTriggers(sha: string -> string, w: World, s: Step, k: string) {
    && Reports(w, s, k)
    && Key(w.inFlight[k]) in w.registry.gardens
    && Triggered(sha, w.registry, w.inFlight[k], s.shoots)
  }

  ghost function Triggers(sha: string -> string, w: World, steps: seq<Step>, k: string): nat
    decreases |steps|
  {
    if steps == [] then 0
    else (if StepTriggers(sha, w, steps[0], k) then 1 else 0) + Triggers(sha, Next(sha, w, steps[0]), steps[1..], k)
  }

  lemma ManageCounts(sha: string -> string, w: World, k: string, o: ManagerObs)
    requires Inv(w) && k in w.objects && k !in w.inFlight
    ensures var w' := Next(sha, w, Manage(k, o));
      k in w'.objects && w'.objects[k].status.restartCount == w.objects[k].status.restartCount
  {
    ManagerPhaseOk(sha, w.registry, w.objects[k], o);
  }

  /** The end of a pass: the count rises by one if the pass triggers, and an observed hash is recorded. */
  lemma ReportCounts(sha: string -> string, w: World, s: Step, k: string)
    requires Inv(w) && Reports(w, s, k)
    ensures var w', h := Next(sha, w, s), SeenHash(sha, w.inFlight[k], s.shoots);
      && k in w'.objects
      && w'.objects[k].status.restartCount ==
          w.objects[k].status.restartCount + (if StepTriggers(sha, w, s, k) then 1 else 0)
      && k in w.registry.gardens && k in w'.registry.gardens
      && w'.registry.gardens[k].authConfigMapHash ==
          (if h.Some? then h.value else w.registry.gardens[k].authConfigMapHash)
  {
    assert Underway(w, k);
    ShootsPhaseSpec(sha, w.registry, w.inFlight[k], s.shoots, s.agg);
    RestartsOnce(sha, w.registry, w.inFlight[k], s.shoots);
  }

  /** Only a pass of k that triggers raises the restart count of k, by exactly one. */
  lemma StepCounts(sha: string -> string, w: World, s: Step, k: string)
    requires Inv(w) && k in w.objects && s != Remove(k)
    ensures var w' := Next(sha, w, s);
      && k in w'.objects
      && w'.objects[k].status.restartCount ==
          w.objects[k].status.restartCount + (if StepTriggers(sha, w, s, k) then 1 else 0)
  {
    if StepOf(s, k) {
      match s
      case Manage(_, o) => if k !in w.inFlight { ManageCounts(sha, w, k, o); }
      case Report(_, _, _) => if k in w.inFlight { ReportCounts(sha, w, s, k); }
      case Apply(_, _, _, _) =>
      case ProcessRestart =>
    } else {
      OtherKeysUntouched(sha, w, s, k);
    }
  }

  ghost predicate NeverRemoved(steps: seq<Step>, k: string) {
    forall i :: 0 <= i < |steps| ==> steps[i] != Remove(k)
  }

  /**
   Over every run in which the CareInstruction is not removed, restarts of the process included, its restart
   count rises by the number of passes that call for a restart.
   */
  lemma {:induction false} RestartsAreTriggers(sha: string -> string, w: World, steps: seq<Step>, k: string)
    requires Inv(w) && k in w.objects && NeverRemoved(steps, k)
    ensures k in Run(sha, w, steps).objects
    ensures Run(sha, w, steps).objects[k].status.restartCount ==
      w.objects[k].status.restartCount + Triggers(sha, w, steps, k)
    decreases |steps|
  {
    if steps != [] {
      StepCounts(sha, w, steps[0], k);
      NextInv(sha, w, steps[0]);
      RestartsAreTriggers(sha, Next(sha, w, steps[0]), steps[1..], k);
    }
  }

  // ---- Restarts as changes of the hash ----

  /** A new entry is seeded with a hash; later passes observe one. */
  datatype HashEvent = Seeded(hash: string) | Observed(hash: string)

  ghost function StepEvents(sha: string -> string, w: World, s: Step, k: string): seq<HashEvent> {
    match s
    case Manage(key, o) =>
      if key == k && k in w.objects && k !in w.inFlight && k !in w.registry.gardens
        && !(w.objects[k].spec.authenticationConfigMapName != "" && o.seed.Error?)
      then [Seeded(SeedOf(sha, w.objects[k], o.seed))] else []
    case Report(_, o, _) =>
      if Reports(w, s, k) && SeenHash(sha, w.inFlight[k], o).Some?
      then [Observed(SeenHash(sha, w.inFlight[k], o).value)] else []
    case _ => []
  }

  ghost function HashEvents(sha: string -> string, w: World, steps: seq<Step>, k: string): seq<HashEvent>
    decreases |steps|
  {
    if steps == [] then [] else StepEvents(sha, w, steps[0], k) + HashEvents(sha, Next(sha, w, steps[0]), steps[1..], k)
  }

  /** How often an observed hash differs from the one before it, observed or seeded; prev comes before the first. */
  ghost function Changes(prev: string, events: seq<HashEvent>): nat
    decreases |events|
  {
    if events == [] then 0
    else (if events[0].Observed? && events[0].hash != prev then 1 else 0) + Changes(events[0].hash, events[1..])
  }

  /** No pass of k along the run handles a reconcile annotation. */
  ghost predicate NoRequests(sha: string -> string, w: World, steps: seq<Step>, k: string)
    decreases |steps|
  {
    steps == [] ||
    (&& (Reports(w, steps[0], k) ==> !(Asked(w.inFlight[k]) && steps[0].shoots.patchError.None?))
     && NoRequests(sha, Next(sha, w, steps[0]), steps[1..], k))
  }

  /** prev is the recorded hash of k, if k has an entry. */
  ghost predicate Records(w: World, k: string, prev: string) {
    k in w.registry.gardens ==> w.registry.gardens[k].authConfigMapHash == prev
  }

  lemma ManageRecords(sha: string -> string, w: World, k: string, o: ManagerObs, prev: string)
    requires Inv(w) && k in w.objects && k !in w.inFlight && Records(w, k, prev)
    ensures var w', e := Next(sha, w, Manage(k, o)), StepEvents(sha, w, Manage(k, o), k);
      Records(w', k, if e == [] then prev else e[0].hash)
  {
    ManagerPhaseOk(sha, w.registry, w.objects[k], o);
    if k !in w.registry.gardens {
      if SeedFails(w.registry, w.objects[k], o.seed) {
        InitializeKeeps(w.objects[k], |KNOWN_CONDITION_TYPES|);
      } else {
        SeedRecorded(sha, w.registry, w.objects[k], o);
      }
    }
  }

  /** The entry of k records the last hash seeded or observed. */
  lemma StepRecords(sha: string -> string, w: World, s: Step, k: string, prev: string)
    requires Inv(w) && Records(w, k, prev)
    ensures var e := StepEvents(sha, w, s, k); Records(Next(sha, w, s), k, if e == [] then prev else e[0].hash)
  {
    if StepOf(s, k) {
      match s
      case Manage(_, o) => if k in w.objects && k !in w.inFlight { ManageRecords(sha, w, k, o, prev); }
      case Report(_, _, _) => if Reports(w, s, k) { ReportCounts(sha, w, s, k); }
      case Remove(_) =>
      case Apply(_, _, _, _) =>
      case ProcessRestart =>
    } else {
      OtherKeysUntouched(sha, w, s, k);
    }
  }

  /** A pass that handles no annotation triggers exactly if it observes another hash than the recorded one. */
  lemma StepChanges(sha: string -> string, w: World, s: Step, k: string, prev: string)
    requires Inv(w) && Records(w, k, prev)
    requires Reports(w, s, k) ==> !(Asked(w.inFlight[k]) && s.shoots.patchError.None?)
    ensures StepTriggers(sha, w, s, k) <==>
      var e := StepEvents(sha, w, s, k); e != [] && e[0].Observed? && e[0].hash != prev
  {
    if Reports(w, s, k) { assert Underway(w, k); }
  }

  /** Over every run the passes that call for a restart, if not by annotation, are the changes of the observed hash. */
  lemma {:induction false} TriggersAreChanges(sha: string -> string, w: World, steps: seq<Step>, k: string,
      prev: string)
    requires Inv(w) && Records(w, k, prev) && NoRequests(sha, w, steps, k)
    ensures Triggers(sha, w, steps, k) == Changes(prev, HashEvents(sha, w, steps, k))
    decreases |steps|
  {
    if steps != [] {
      var w', e := Next(sha, w, steps[0]), StepEvents(sha, w, steps[0], k);
      NextInv(sha, w, steps[0]);
      StepRecords(sha, w, steps[0], k, prev);
      StepChanges(sha, w, steps[0], k, prev);
      TriggersAreChanges(sha, w', steps[1..], k, if e == [] then prev else e[0].hash);
      var rest := HashEvents(sha, w', steps[1..], k);
      assert e == [] ==> e + rest == rest;
      assert e != [] ==> (e + rest)[1..] == rest;
    }
  }

  lemma PassHasEntry(w: World, k: string)
    requires Inv(w)
    ensures k in w.inFlight ==> k in w.registry.gardens
  {
    if k in w.inFlight { assert Underway(w, k); }
  }

  /** Without an entry the next event of k, if any, is a seed: what came before does not matter. */
  lemma {:induction false} SeedComesFirst(sha: string -> string, w: World, steps: seq<Step>, k: string)
    requires Inv(w) && k !in w.registry.gardens
    ensures var e := HashEvents(sha, w, steps, k); e == [] || e[0].Seeded?
    decreases |steps|
  {
    if steps != [] {
      PassHasEntry(w, k);
      NextInv(sha, w, steps[0]);
      if StepEvents(sha, w, steps[0], k) == [] {
        NoEntryYet(sha, w, steps[0], k);
        SeedComesFirst(sha, Next(sha, w, steps[0]), steps[1..], k);
      }
    }
  }

  lemma NoEntryYet(sha: string -> string, w: World, s: Step, k: string)
    requires Inv(w) && k !in w.registry.gardens && StepEvents(sha, w, s, k) == []
    ensures k !in Next(sha, w, s).registry.gardens
  {
    PassHasEntry(w, k);
    if !StepOf(s, k) {
      OtherKeysUntouched(sha, w, s, k);
    } else if s.Manage? && k in w.objects {
      InitializeKeeps(w.objects[k], |KNOWN_CONDITION_TYPES|);
    }
  }

  /** While the entry of k survives, every event is an observation: there is one seed per life of an entry. */
  lemma {:induction false} OneSeedPerEntry(sha: string -> string, w: World, steps: seq<Step>, k: string)
    requires Inv(w) && k in w.registry.gardens
    requires NeverRemoved(steps, k) && ProcessRestart !in steps
    ensures forall e :: e in HashEvents(sha, w, steps, k) ==> e.Observed?
    decreases |steps|
  {
    if steps != [] {
      NextInv(sha, w, steps[0]);
      EntryStays(sha, w, steps[0], k);
      OneSeedPerEntry(sha, Next(sha, w, steps[0]), steps[1..], k);
    }
  }

  lemma EntryStays(sha: string -> string, w: World, s: Step, k: string)
    requires Inv(w) && k in w.registry.gardens && s != Remove(k) && s != ProcessRestart
    ensures k in Next(sha, w, s).registry.gardens
  {
    if !StepOf(s, k) {
      OtherKeysUntouched(sha, w, s, k);
    } else if Reports(w, s, k) {
      ReportCounts(sha, w, s, k);
    } else if s.Manage? && k in w.objects && k !in w.inFlight {
      ManagerPhaseOk(sha, w.registry, w.objects[k], s.manager);
    }
  }

  /**
   From the start of the controller, over every run in which the CareInstruction is not removed and no
   annotation is handled, the restart count rises by the number of changes in the observed hash sequence,
   where every new entry, also after a restart of the process, starts the sequence anew from its seed.
   */
  lemma RestartsFromSeed(sha: string -> string, w: World, steps: seq<Step>, k: string)
    requires Initial(w) && k in w.objects && NeverRemoved(steps, k) && NoRequests(sha, w, steps, k)
    ensures var events := HashEvents(sha, w, steps, k);
      && (events == [] || events[0].Seeded?)
      && k in Run(sha, w, steps).objects
      && Run(sha, w, steps).objects[k].status.restartCount == w.objects[k].status.restartCount + Changes("", events)
  {
    RestartsAreTriggers(sha, w, steps, k);
    TriggersAreChanges(sha, w, steps, k, "");
    SeedComesFirst(sha, w, steps, k);
  }

  lemma SeedRecorded(sha: string -> string, r: Registry, ci: CareInstruction, o: ManagerObs)
    requires RegistryOk(r) && Key(ci) !in r.gardens && !SeedFails(r, ci, o.seed)
    ensures var r' := ManagerPhase(sha, r, ci, o).registry;
      Key(ci) in r'.gardens && r'.gardens[Key(ci)].authConfigMapHash == SeedOf(sha, ci, o.seed)
  {
    InitializeKeeps(ci, |KNOWN_CONDITION_TYPES|);
    var ci0 := InitializeConditions(ci);
    var r1 := AddEntry(r, Key(ci), ci.spec, SeedHash(sha, ci0, o.seed));
    AddEntryOk(r, Key(ci), ci.spec, SeedHash(sha, ci0, o.seed));
    ReconcileEntryConfined(r1, ci0, o);
  }

  /** Thanks to the seed, a first pass that reads the same configuration twice does not restart what it has started. */
  lemma FirstPassDoesNotRestart(sha: string -> string, w: World, k: string, o: ManagerObs, so: ShootsObs,
      agg: Aggregate)
    requires Inv(w) && k in w.objects && k !in w.inFlight && k !in w.registry.gardens
    requires ManagerPhase(sha, w.registry, w.objects[k], o).error.None? && !Asked(w.objects[k])
    requires so.authConfigMap.Got? ==> o.seed == so.authConfigMap
    ensures var w2 := Next(sha, Next(sha, w, Manage(k, o)), Report(k, so, agg));
      && k in w2.objects && w2.objects[k].status.restartCount == w.objects[k].status.restartCount
      && Live(w2.registry, k)
  {
    var w1 := Next(sha, w, Manage(k, o));
    NextInv(sha, w, Manage(k, o));
    ManagerPhaseOk(sha, w.registry, w.objects[k], o);
    InitializeKeeps(w.objects[k], |KNOWN_CONDITION_TYPES|);
    SeedRecorded(sha, w.registry, w.objects[k], o);
    assert Underway(w1, k);
    ShootsPhaseSpec(sha, w1.registry, w1.inFlight[k], so, agg);
    RestartsOnce(sha, w1.registry, w1.inFlight[k], so);
  }

  /** Changes to other keys of the authentication ConfigMap restart nothing. */
  lemma OtherDataIgnored(sha: string -> string, r: Registry, ci: CareInstruction, o: ShootsObs, cm: ConfigMap)
    requires o.authConfigMap.Got?
    requires Lookup(cm.data, AUTH_CONFIG_MAP_KEY) == Lookup(o.authConfigMap.value.data, AUTH_CONFIG_MAP_KEY)
    ensures Restarts(sha, r, ci, o.(authConfigMap := Got(cm))) == Restarts(sha, r, ci, o)
  {
  }
}
