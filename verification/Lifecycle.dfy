/**
 All runs of the CareInstruction controller: passes over any number of CareInstructions, cut between the
 manager phase and the shoots phase so that passes of other keys, edits by users, exits of managers and a
 crash of the process may fall in between.
 */
module Lifecycle {
  import opened Api
  import opened Aggregation
  import opened Gardens
  import opened Passes

  /** The registry in memory, the objects on the API server, and the copies that passes under way hold. */
  datatype World = World(
    registry: Registry,
    objects: map<string, CareInstruction>,
    inFlight: map<string, CareInstruction>)

  datatype Step =
    | Manage(key: string, manager: ManagerObs)           // first phase of a pass
    | Report(key: string, shoots: ShootsObs, agg: Aggregate)   // second phase, which ends the pass
    | Remove(key: string)                                // EnsureDeleted, after which the object is gone
    | ManagerExit(id: nat)                               // a manager's goroutine returns
    | Apply(namespace: string, name: string, annotations: map<string, string>, spec: CareInstructionSpec)
    | ProcessRestart

  ghost function ApplyTo(w: World, namespace: string, name: string, annotations: map<string, string>,
      spec: CareInstructionSpec): CareInstruction {
    var k := GardenKey(namespace, name);
    if k in w.objects then w.objects[k].(annotations := annotations, spec := spec)
    else CareInstruction(namespace, name, annotations, spec, EMPTY_STATUS)
  }

  /** A failed pass ends at once; a successful one goes on to the shoots phase. */
  ghost function AfterManage(w: World, key: string, out: Outcome): World
    requires key in w.objects
  {
    if out.error.Some?
    then World(out.registry, w.objects[key := w.objects[key].(status := ReconcileStatus(out.ci).status)], w.inFlight)
    else World(out.registry, w.objects, w.inFlight[key := out.ci])
  }

  ghost function AfterReport(w: World, key: string, out: Outcome, handled: bool): World
    requires key in w.objects
  {
    var o := w.objects[key];
    var annotations := if handled then o.annotations - {RECONCILE_ANNOTATION} else o.annotations;
    World(out.registry, w.objects[key := o.(status := out.ci.status, annotations := annotations)], w.inFlight - {key})
  }

  /** One step; a step that is not enabled changes nothing. Passes of one key do not overlap. */
  ghost function Next(sha: string -> string, w: World, s: Step): World {
    match s
    case Manage(k, o) =>
      if k in w.objects && k !in w.inFlight
      then AfterManage(w, k, ManagerPhase(sha, w.registry, w.objects[k], o)) else w
    case Report(k, o, agg) =>
      if k in w.objects && k in w.inFlight
      then AfterReport(w, k, ShootsPhase(sha, w.registry, w.inFlight[k], o, agg), Handled(w.inFlight[k], o)) else w
    case Remove(k) =>
      if k in w.objects && k !in w.inFlight then World(Cleanup(w.registry, k), w.objects - {k}, w.inFlight) else w
    case ManagerExit(id) => w.(registry := Exit(w.registry, id))
    case Apply(ns, n, a, spec) => w.(objects := w.objects[GardenKey(ns, n) := ApplyTo(w, ns, n, a, spec)])
    case ProcessRestart => World(Crash(w.registry), w.objects, map[])
  }

  ghost function Run(sha: string -> string, w: World, steps: seq<Step>): World
    decreases |steps|
  {
    if steps == [] then w else Run(sha, Next(sha, w, steps[0]), steps[1..])
  }

  /** The controller starts with an empty registry and whatever objects and statuses earlier processes left. */
  ghost predicate Initial(w: World) {
    && w.registry == Registry(map[], []) && w.inFlight == map[]
    && forall k :: k in w.objects ==> Key(w.objects[k]) == k
  }

  // ---- The invariant ----

  /** A cancelled manager still in the map was left there by a failed recreation, and the status says so. */
  ghost predicate StaleKnown(r: Registry, k: string, ci: CareInstruction) {
    k in r.gardens && r.gardens[k].mgr.Some? && !Live(r, k) ==> !IsTrue(ci.status, ShootControllerStarted)
  }

  /** The entry is complete and belongs to an uncancelled manager built from that spec. */
  ghost predicate Managed(r: Registry, k: string, spec: CareInstructionSpec) {
    && Live(r, k)
    && r.gardens[k].cancelFunc == r.gardens[k].mgr == r.gardens[k].stopChan
    && r.gardens[k].gardenConfig.Some? && r.gardens[k].gardenClient == r.gardens[k].gardenConfig
    && var m := r.managers[r.gardens[k].mgr.value];
    && m.key == k && m.spec == spec == r.gardens[k].careInstructionSpec && Some(m.config) == r.gardens[k].gardenConfig
  }

  /** A pass between its phases: its manager is in place and both conditions are True. */
  ghost predicate Underway(w: World, k: string)
    requires k in w.inFlight
  {
    var ci := w.inFlight[k];
    && k in w.objects
    && Key(ci) == k
    && Managed(w.registry, k, ci.spec)
    && IsTrue(ci.status, GardenClusterAccessReady)
    && IsTrue(ci.status, ShootControllerStarted)
    && ci.status.restartCount == w.objects[k].status.restartCount
  }

  ghost predicate Inv(w: World) {
    && RegistryOk(w.registry)
    && (forall k :: k in w.objects ==> Key(w.objects[k]) == k && StaleKnown(w.registry, k, w.objects[k]))
    && (forall k :: k in w.inFlight ==> Underway(w, k))
  }

  // ---- Frames ----

  lemma RecreateFrame(r: Registry, ci: CareInstruction, config: RestConfig, e: Option<string>, k: string)
    requires RegistryOk(r) && Key(ci) in r.gardens && k != Key(ci)
    ensures SameFor(r, Recreate(r, ci, config, e).registry, k)
  {
    assert GardenOk(Key(ci), r.gardens[Key(ci)], r.managers);
  }

  lemma RestartFrame(r: Registry, key: string, k: string)
    requires RegistryOk(r) && k != key
    ensures SameFor(r, Restart(r, key), k)
  {
    if key in r.gardens { assert GardenOk(key, r.gardens[key], r.managers); }
  }

  lemma SetHashOk(r: Registry, key: string, hash: string)
    requires RegistryOk(r) && key in r.gardens
    ensures RegistryOk(SetHash(r, key, hash))
  {
    assert GardenOk(key, r.gardens[key], r.managers);
  }

  lemma SameForTrans(r: Registry, r': Registry, r'': Registry, k: string)
    requires SameFor(r, r', k) && SameFor(r', r'', k)
    ensures SameFor(r, r'', k)
  {
  }

  lemma AnnotationRestartOk(r: Registry, ci: CareInstruction, k: string)
    requires RegistryOk(r)
    ensures RegistryOk(AnnotationRestart(r, ci).registry)
    ensures k != Key(ci) ==> SameFor(r, AnnotationRestart(r, ci).registry, k)
  {
    RestartOk(r, Key(ci));
    if k != Key(ci) { RestartFrame(r, Key(ci), k); }
  }

  lemma HashRestartOk(r: Registry, key: string, h: Option<string>, k: string)
    requires RegistryOk(r)
    ensures RegistryOk(HashRestart(r, key, h).registry)
    ensures k != key ==> SameFor(r, HashRestart(r, key, h).registry, k)
  {
    if h.Some? && key in r.gardens && r.gardens[key].authConfigMapHash != h.value {
      var r1 := SetHash(r, key, h.value);
      SetHashOk(r, key, h.value);
      RestartOk(r1, key);
      if k != key {
        RestartFrame(r1, key, k);
        SameForTrans(r, r1, Restart(r1, key), k);
      }
    }
  }

  /** A shoots phase keeps the registry consistent and touches only its own entry and its own managers. */
  lemma RestartsOk(sha: string -> string, r: Registry, ci: CareInstruction, o: ShootsObs, k: string)
    requires RegistryOk(r)
    ensures RegistryOk(Restarts(sha, r, ci, o).registry)
    ensures k != Key(ci) ==> SameFor(r, Restarts(sha, r, ci, o).registry, k)
  {
    if !(Requested(ci) && o.patchError.Some?) {
      var r1, h := AnnotationRestart(r, ci).registry, ObservedHash(sha, ci, o);
      AnnotationRestartOk(r, ci, k);
      HashRestartOk(r1, Key(ci), h, k);
      if k != Key(ci) { SameForTrans(r, r1, HashRestart(r1, Key(ci), h).registry, k); }
    }
  }

  // ---- The manager phase ----

  lemma RecreateOk(r: Registry, ci: CareInstruction, config: RestConfig, e: Option<string>)
    requires RegistryOk(r) && Key(ci) in r.gardens
    ensures var out := Recreate(r, ci, config, e);
      && RegistryOk(out.registry)
      && (e.None? ==>
          Managed(out.registry, Key(ci), ci.spec) && out.registry.gardens[Key(ci)].gardenConfig == Some(config))
  {
    StopForRecreationOk(r, Key(ci));
    if e.None? { InstallOk(StopForRecreation(r, Key(ci)), Key(ci), ci.spec, config); }
  }

  /** On the skip path the entry is live: a cancelled manager in the map would have been known as stale. */
  lemma SkipIsManaged(r: Registry, ci: CareInstruction, config: RestConfig)
    requires RegistryOk(r) && Key(ci) in r.gardens && StaleKnown(r, Key(ci), ci)
    requires SkipsRecreation(r, ci, config)
    ensures Managed(r, Key(ci), ci.spec) && r.gardens[Key(ci)].gardenConfig == Some(config)
  {
    assert GardenOk(Key(ci), r.gardens[Key(ci)], r.managers);
  }

  /** What a nil result of reconcileManager guarantees. */
  ghost predicate Succeeded(k: string, spec: CareInstructionSpec, access: Access, out: Outcome) {
    && access.Granted?
    && Managed(out.registry, k, spec)
    && out.registry.gardens[k].gardenConfig == Some(access.config)
    && IsTrue(out.ci.status, GardenClusterAccessReady) && IsTrue(out.ci.status, ShootControllerStarted)
  }

  /** What a manager phase does at most: own entry but for its hash, own managers, conditions of the object. */
  ghost predicate Confined(r: Registry, ci: CareInstruction, out: Outcome) {
    && RegistryOk(out.registry)
    && (forall k :: k != Key(ci) ==> SameFor(r, out.registry, k))
    && (Key(ci) in r.gardens ==>
          && Key(ci) in out.registry.gardens
          && out.registry.gardens[Key(ci)].authConfigMapHash == r.gardens[Key(ci)].authConfigMapHash)
    && out.ci == ci.(status := ci.status.(conditions := out.ci.status.conditions))
  }

  ghost predicate ManagerOutcomeOk(r: Registry, ci: CareInstruction, access: Access, out: Outcome) {
    && Confined(r, ci, out)
    && (out.error.None? ==> Succeeded(Key(ci), ci.spec, access, out))
    && (out.error.Some? ==> !IsTrue(out.ci.status, ShootControllerStarted))
  }

  lemma ReconcileEntryConfined(r: Registry, ci: CareInstruction, o: ManagerObs)
    requires RegistryOk(r) && Key(ci) in r.gardens
    ensures Confined(r, ci, ReconcileEntry(r, ci, o))
  {
    if o.access.Granted? {
      var ci1 := SetCondition(ci, GardenClusterAccessReady, Condition(CondTrue, "GardenClusterAccessReady", ""));
      RecreateOk(r, ci1, o.access.config, o.buildError);
      forall k | k != Key(ci) ensures SameFor(r, Recreate(r, ci1, o.access.config, o.buildError).registry, k) {
        RecreateFrame(r, ci1, o.access.config, o.buildError, k);
      }
    }
  }

  lemma ReconcileEntrySucceeds(r: Registry, ci: CareInstruction, o: ManagerObs)
    requires RegistryOk(r) && Key(ci) in r.gardens && StaleKnown(r, Key(ci), ci)
    ensures ReconcileEntry(r, ci, o).error.None? ==> Succeeded(Key(ci), ci.spec, o.access, ReconcileEntry(r, ci, o))
  {
    if o.access.Granted? {
      var ci1 := SetCondition(ci, GardenClusterAccessReady, Condition(CondTrue, "GardenClusterAccessReady", ""));
      if SkipsRecreation(r, ci1, o.access.config) {
        SkipIsManaged(r, ci1, o.access.config);
      } else {
        RecreateOk(r, ci1, o.access.config, o.buildError);
      }
    }
  }

  /**
   Whenever reconcileManager returns nil, on the skip path too, the entry holds an uncancelled manager
   built from the current spec and config, with client, cancel function and stop channel all set; when it
   fails, ShootControllerStarted is not True afterwards. Other keys are not affected.
   */
  lemma ManagerPhaseOk(sha: string -> string, r: Registry, ci: CareInstruction, o: ManagerObs)
    requires RegistryOk(r) && StaleKnown(r, Key(ci), ci)
    ensures ManagerOutcomeOk(r, ci, o.access, ManagerPhase(sha, r, ci, o))
  {
    InitializeKeeps(ci, |KNOWN_CONDITION_TYPES|);
    var ci0 := InitializeConditions(ci);
    if !SeedFails(r, ci0, o.seed) {
      var r1 := AddEntry(r, Key(ci), ci.spec, SeedHash(sha, ci0, o.seed));
      AddEntryOk(r, Key(ci), ci.spec, SeedHash(sha, ci0, o.seed));
      ReconcileEntryConfined(r1, ci0, o);
      ReconcileEntrySucceeds(r1, ci0, o);
      forall k | k != Key(ci) ensures SameFor(r, ReconcileEntry(r1, ci0, o).registry, k) {
        SameForTrans(r, r1, ReconcileEntry(r1, ci0, o).registry, k);
      }
    }
  }

  /**
   Recreation stops the old manager first: if access is granted and reconcileManager fails nevertheless, no
   manager of that key is left uncancelled, so that none goes on working with an outdated spec or config.
   */
  lemma FailedRecreationCancels(sha: string -> string, r: Registry, ci: CareInstruction, o: ManagerObs)
    requires RegistryOk(r) && o.access.Granted? && ManagerPhase(sha, r, ci, o).error.Some?
    ensures NoUncancelled(ManagerPhase(sha, r, ci, o).registry, Key(ci))
  {
    InitializeKeeps(ci, |KNOWN_CONDITION_TYPES|);
    var ci0 := InitializeConditions(ci);
    if !SeedFails(r, ci0, o.seed) {
      var r1 := AddEntry(r, Key(ci), ci.spec, SeedHash(sha, ci0, o.seed));
      AddEntryOk(r, Key(ci), ci.spec, SeedHash(sha, ci0, o.seed));
      StopForRecreationOk(r1, Key(ci));
    }
  }

  /**
   Without access to the garden cluster the pass fails with that error, both conditions say so, and every
   manager stays as it is; an unreadable authentication ConfigMap stops a first pass before that.
   */
  lemma DeniedAccessKeepsManagers(sha: string -> string, r: Registry, ci: CareInstruction, o: ManagerObs)
    requires o.access.Denied?
    ensures var out := ManagerPhase(sha, r, ci, o);
      && out.registry.managers == r.managers
      && (Key(ci) in r.gardens ==> out.registry.gardens == r.gardens)
      && (if Key(ci) !in r.gardens && ci.spec.authenticationConfigMapName != "" && o.seed.Error? then
            out.error == Some(o.seed.message) && out.registry == r
          else
            && out.error == Some(o.access.error) && Key(ci) in out.registry.gardens
            && Is(out.ci, GardenClusterAccessReady, Condition(CondFalse, "GardenClusterAccessError", o.access.error)))
      && Is(out.ci, ShootControllerStarted, Condition(CondFalse, "ShootControllerError", out.error.value))
  {
    InitializeKeeps(ci, |KNOWN_CONDITION_TYPES|);
  }

  /**
   With access, the conditions say so, and whether the manager was started: by this pass, by an earlier one if
   it could stay, or not, with the error of whatever could not be built.
   */
  lemma GrantedAccessConditions(sha: string -> string, r: Registry, ci: CareInstruction, o: ManagerObs)
    requires o.access.Granted?
    requires !(Key(ci) !in r.gardens && ci.spec.authenticationConfigMapName != "" && o.seed.Error?)
    ensures var out := ManagerPhase(sha, r, ci, o);
      && Is(out.ci, GardenClusterAccessReady, Condition(CondTrue, "GardenClusterAccessReady", ""))
      && (out.error.None? ==>
            || Is(out.ci, ShootControllerStarted, Condition(CondTrue, "Started", ""))
            || (IsTrue(ci.status, ShootControllerStarted)
                && Is(out.ci, ShootControllerStarted, ci.status.conditions[ShootControllerStarted])))
      && (out.error.Some? ==>
            && out.error == o.buildError
            && Is(out.ci, ShootControllerStarted, Condition(CondFalse, "ShootControllerError", out.error.value)))
  {
    InitializeKeeps(ci, |KNOWN_CONDITION_TYPES|);
  }

  ghost predicate Is(ci: CareInstruction, kind: ConditionType, c: Condition) {
    kind in ci.status.conditions && ci.status.conditions[kind] == c
  }

  /** A manager whose goroutine has returned is cancelled and replaced by a new one. */
  lemma StoppedIsReplaced(r: Registry, ci: CareInstruction, o: ManagerObs, m: nat)
    requires RegistryOk(r) && Key(ci) in r.gardens && r.gardens[Key(ci)].mgr == Some(m) && m < |r.managers|
      && r.managers[m].stopped
    requires ReconcileEntry(r, ci, o).error.None?
    ensures var r' := ReconcileEntry(r, ci, o).registry;
      && |r'.managers| == |r.managers| + 1 && r'.managers[m].cancelled
      && r'.gardens[Key(ci)].mgr == Some(|r.managers|) && !r'.managers[|r.managers|].stopped
  {
    assert GardenOk(Key(ci), r.gardens[Key(ci)], r.managers);
  }

  // ---- The shoots phase ----

  /** The CareInstruction carries the reconcile annotation. */
  ghost predicate Asked(ci: CareInstruction) {
    && "shoot-grafter.cloudoperators.dev/reconcile" in ci.annotations
    && ci.annotations["shoot-grafter.cloudoperators.dev/reconcile"] == "true"
  }

  /** The content whose changes matter; a missing key counts as empty content. */
  ghost function ConfigYaml(cm: ConfigMap): string {
    if "config.yaml" in cm.data then cm.data["config.yaml"] else ""
  }

  /** The hash a pass sees: none if the annotation or the shoots fail, or if there is no ConfigMap. */
  ghost function SeenHash(sha: string -> string, ci: CareInstruction, o: ShootsObs): Option<string> {
    if && !(Asked(ci) && o.patchError.Some?) && !o.shoots.Error?
       && ci.spec.authenticationConfigMapName != "" && o.authConfigMap.Got?
    then Some(sha(ConfigYaml(o.authConfigMap.value)))
    else None
  }

  /** The hash a new entry starts from. */
  ghost function SeedOf(sha: string -> string, ci: CareInstruction, seed: Reply<ConfigMap>): string {
    if ci.spec.authenticationConfigMapName != "" && seed.Got? then sha(ConfigYaml(seed.value)) else ""
  }

  /** Something in this pass calls for a restart of the shoot controller: an annotation or another hash. */
  ghost predicate Triggered(sha: string -> string, r: Registry, ci: CareInstruction, o: ShootsObs)
    requires Key(ci) in r.gardens
  {
    || (Asked(ci) && o.patchError.None?)
    || (SeenHash(sha, ci, o).Some? && SeenHash(sha, ci, o).value != r.gardens[Key(ci)].authConfigMapHash)
  }

  /**
   A pass restarts the shoot controller once if the reconcile annotation was handled or the observed hash
   differs from the recorded one (or both), and leaves the registry alone otherwise.
   */
  lemma RestartsOnce(sha: string -> string, r: Registry, ci: CareInstruction, o: ShootsObs)
    requires RegistryOk(r) && Managed(r, Key(ci), ci.spec)
    ensures var out := Restarts(sha, r, ci, o);
      && Key(ci) in out.registry.gardens
      && out.restarts == (if Triggered(sha, r, ci, o) then 1 else 0)
      && (Triggered(sha, r, ci, o) ==> out.registry.gardens[Key(ci)].mgr.None?)
      && (!Triggered(sha, r, ci, o) ==> out.registry == r)
      && out.registry.gardens[Key(ci)].authConfigMapHash ==
           (if SeenHash(sha, ci, o).Some? then SeenHash(sha, ci, o).value else r.gardens[Key(ci)].authConfigMapHash)
  {
    if Handled(ci, o) {
      var r1 := AnnotationRestart(r, ci);
      assert r1.restarts == 1 && r1.registry.gardens[Key(ci)].mgr.None?;
    }
  }

  /**
   What else a shoots phase leaves of the object: the counted restarts, ShootControllerStarted as it was, and no
   reconcile annotation, whether or not taking it off the stored object succeeded.
   */
  lemma ShootsPhaseSpec(sha: string -> string, r: Registry, ci: CareInstruction, o: ShootsObs, agg: Aggregate)
    ensures var out := ShootsPhase(sha, r, ci, o, agg);
      && out.registry == Restarts(sha, r, ci, o).registry
      && out.ci.status.restartCount == ci.status.restartCount + Restarts(sha, r, ci, o).restarts
      && (IsTrue(out.ci.status, ShootControllerStarted) <==> IsTrue(ci.status, ShootControllerStarted))
      && out.ci.annotations ==
           if Asked(ci) then ci.annotations - {"shoot-grafter.cloudoperators.dev/reconcile"} else ci.annotations
  {
  }

  // ---- Which keys a step touches ----

  /** The keys a step works on; an exiting manager belongs to none of them. */
  ghost predicate StepOf(s: Step, k: string) {
    match s
    case Manage(key, _) => key == k
    case Report(key, _, _) => key == k
    case Remove(key) => key == k
    case ManagerExit(_) => false
    case Apply(ns, n, _, _) => GardenKey(ns, n) == k
    case ProcessRestart => true
  }

  /** What a world knows of one key is untouched, up to the stopped flags of its managers. */
  ghost predicate Untouched(w: World, w': World, k: string) {
    && (k in w.objects <==> k in w'.objects) && (k in w.objects ==> w'.objects[k] == w.objects[k])
    && (k in w.inFlight <==> k in w'.inFlight) && (k in w.inFlight ==> w'.inFlight[k] == w.inFlight[k])
    && (k in w.registry.gardens <==> k in w'.registry.gardens)
    && (k in w.registry.gardens ==> w'.registry.gardens[k] == w.registry.gardens[k])
    && SameManagers(w.registry, w'.registry, k)
  }

  /** No manager of that key is created or cancelled. */
  ghost predicate SameManagers(r: Registry, r': Registry, k: string) {
    && |r.managers| <= |r'.managers|
    && (forall m :: 0 <= m < |r.managers| ==> (r'.managers[m].key == k <==> r.managers[m].key == k))
    && (forall m :: 0 <= m < |r.managers| && r.managers[m].key == k ==>
        r'.managers[m].(stopped := r.managers[m].stopped) == r.managers[m])
    && (forall m :: |r.managers| <= m < |r'.managers| ==> r'.managers[m].key != k)
  }

  lemma CleanupFrame(r: Registry, key: string, k: string)
    requires RegistryOk(r) && k != key
    ensures SameFor(r, Cleanup(r, key), k)
  {
    if key in r.gardens { assert GardenOk(key, r.gardens[key], r.managers); }
  }

  lemma SameForManagers(r: Registry, r': Registry, k: string)
    requires SameFor(r, r', k)
    ensures SameManagers(r, r', k)
  {
  }

  lemma AfterManageUntouched(w: World, key: string, access: Access, out: Outcome, k: string)
    requires k != key && key in w.objects && key !in w.inFlight && Key(w.objects[key]) == key
    requires ManagerOutcomeOk(w.registry, w.objects[key], access, out)
    ensures Untouched(w, AfterManage(w, key, out), k)
  {
    SameForManagers(w.registry, out.registry, k);
  }

  lemma ReportUntouched(sha: string -> string, w: World, key: string, o: ShootsObs, agg: Aggregate, k: string)
    requires Inv(w) && k != key && key in w.objects && key in w.inFlight
    ensures Untouched(w, Next(sha, w, Report(key, o, agg)), k)
  {
    assert Underway(w, key);
    RestartsOk(sha, w.registry, w.inFlight[key], o, k);
    SameForManagers(w.registry, Restarts(sha, w.registry, w.inFlight[key], o).registry, k);
  }

  /** Unless a manager exits, the registry is the same for every other key. */
  lemma OtherKeysSame(sha: string -> string, w: World, s: Step, k: string)
    requires Inv(w) && !StepOf(s, k) && !s.ManagerExit?
    ensures SameFor(w.registry, Next(sha, w, s).registry, k)
  {
    match s
    case Manage(key, o) =>
      if key in w.objects && key !in w.inFlight { ManagerPhaseOk(sha, w.registry, w.objects[key], o); }
    case Report(key, o, agg) =>
      if key in w.objects && key in w.inFlight {
        assert Underway(w, key);
        RestartsOk(sha, w.registry, w.inFlight[key], o, k);
      }
    case Remove(key) => CleanupFrame(w.registry, key, k);
    case Apply(ns, n, a, spec) =>
    case ProcessRestart =>
  }

  lemma OtherObjectsSame(sha: string -> string, w: World, s: Step, k: string)
    requires !StepOf(s, k)
    ensures var w' := Next(sha, w, s);
      && (k in w.objects <==> k in w'.objects) && (k in w.objects ==> w'.objects[k] == w.objects[k])
      && (k in w.inFlight <==> k in w'.inFlight) && (k in w.inFlight ==> w'.inFlight[k] == w.inFlight[k])
  {
  }

  /** A step of one key leaves the entry, the managers, the object and the pass of every other key alone. */
  lemma OtherKeysUntouched(sha: string -> string, w: World, s: Step, k: string)
    requires Inv(w) && !StepOf(s, k)
    ensures Untouched(w, Next(sha, w, s), k)
  {
    OtherObjectsSame(sha, w, s, k);
    if !s.ManagerExit? {
      OtherKeysSame(sha, w, s, k);
      SameForManagers(w.registry, Next(sha, w, s).registry, k);
    }
  }

  // ---- Every run keeps the invariant ----

  /** What the invariant says of one key carries over to a world that does not touch it. */
  lemma UntouchedInv(w: World, w': World, k: string)
    requires Inv(w) && Untouched(w, w', k)
    ensures k in w'.objects ==> Key(w'.objects[k]) == k && StaleKnown(w'.registry, k, w'.objects[k])
    ensures k in w'.inFlight ==> Underway(w', k)
  {
    if k in w.registry.gardens { assert GardenOk(k, w.registry.gardens[k], w.registry.managers); }
    if k in w.inFlight { assert Underway(w, k); }
  }

  lemma AfterManageInv(w: World, key: string, access: Access, out: Outcome)
    requires Inv(w) && key in w.objects && key !in w.inFlight
    requires ManagerOutcomeOk(w.registry, w.objects[key], access, out)
    ensures Inv(AfterManage(w, key, out))
  {
    var w' := AfterManage(w, key, out);
    forall k | k != key
      ensures k in w'.objects ==> Key(w'.objects[k]) == k && StaleKnown(w'.registry, k, w'.objects[k])
      ensures k in w'.inFlight ==> Underway(w', k)
    {
      AfterManageUntouched(w, key, access, out, k);
      UntouchedInv(w, w', k);
    }
  }

  lemma ManageInv(sha: string -> string, w: World, key: string, o: ManagerObs)
    requires Inv(w) && key in w.objects && key !in w.inFlight
    ensures Inv(Next(sha, w, Manage(key, o)))
  {
    ManagerPhaseOk(sha, w.registry, w.objects[key], o);
    AfterManageInv(w, key, o.access, ManagerPhase(sha, w.registry, w.objects[key], o));
  }

  lemma ReportInv(sha: string -> string, w: World, key: string, o: ShootsObs, agg: Aggregate)
    requires Inv(w) && key in w.objects && key in w.inFlight
    ensures Inv(Next(sha, w, Report(key, o, agg)))
  {
    var w', ci := Next(sha, w, Report(key, o, agg)), w.inFlight[key];
    assert Underway(w, key);
    RestartsOk(sha, w.registry, ci, o, key);
    RestartsOnce(sha, w.registry, ci, o);
    assert w'.registry == Restarts(sha, w.registry, ci, o).registry;
    forall k | k != key
      ensures k in w'.objects ==> Key(w'.objects[k]) == k && StaleKnown(w'.registry, k, w'.objects[k])
      ensures k in w'.inFlight ==> Underway(w', k)
    {
      ReportUntouched(sha, w, key, o, agg, k);
      UntouchedInv(w, w', k);
    }
  }

  lemma RemoveInv(sha: string -> string, w: World, key: string)
    requires Inv(w) && key in w.objects && key !in w.inFlight
    ensures Inv(Next(sha, w, Remove(key)))
  {
    var w' := Next(sha, w, Remove(key));
    CleanupOk(w.registry, key);
    forall k | k != key
      ensures k in w'.objects ==> Key(w'.objects[k]) == k && StaleKnown(w'.registry, k, w'.objects[k])
      ensures k in w'.inFlight ==> Underway(w', k)
    {
      OtherKeysUntouched(sha, w, Remove(key), k);
      UntouchedInv(w, w', k);
    }
  }

  lemma ApplyInv(sha: string -> string, w: World, s: Step)
    requires Inv(w) && s.Apply?
    ensures Inv(Next(sha, w, s))
  {
    var w', key := Next(sha, w, s), GardenKey(s.namespace, s.name);
    forall k | k in w'.inFlight ensures Underway(w', k) { assert Underway(w, k); }
  }

  lemma ExitInv(sha: string -> string, w: World, id: nat)
    requires Inv(w)
    ensures Inv(Next(sha, w, ManagerExit(id)))
  {
    var w' := Next(sha, w, ManagerExit(id));
    ExitOk(w.registry, id);
    forall k
      ensures k in w'.objects ==> Key(w'.objects[k]) == k && StaleKnown(w'.registry, k, w'.objects[k])
      ensures k in w'.inFlight ==> Underway(w', k)
    {
      UntouchedInv(w, w', k);
    }
  }

  lemma NextInv(sha: string -> string, w: World, s: Step)
    requires Inv(w)
    ensures Inv(Next(sha, w, s))
  {
    match s
    case Manage(key, o) => if key in w.objects && key !in w.inFlight { ManageInv(sha, w, key, o); }
    case Report(key, o, agg) => if key in w.objects && key in w.inFlight { ReportInv(sha, w, key, o, agg); }
    case Remove(key) => if key in w.objects && key !in w.inFlight { RemoveInv(sha, w, key); }
    case ManagerExit(id) => ExitInv(sha, w, id);
    case Apply(_, _, _, _) => ApplyInv(sha, w, s);
    case ProcessRestart =>
  }

  lemma {:induction false} RunInv(sha: string -> string, w: World, steps: seq<Step>)
    requires Inv(w)
    ensures Inv(Run(sha, w, steps))
    decreases |steps|
  {
    if steps != [] {
      NextInv(sha, w, steps[0]);
      RunInv(sha, Next(sha, w, steps[0]), steps[1..]);
    }
  }

  // ---- Main results ----

  /**
   In every reachable state each CareInstruction has at most one uncancelled manager, and it is the one in
   the gardens map.
   */
  lemma UniqueManager(sha: string -> string, w: World, steps: seq<Step>, i: nat, j: nat)
    requires Initial(w)
    requires var r := Run(sha, w, steps).registry;
      && i < |r.managers| && j < |r.managers|
      && r.managers[i].key == r.managers[j].key && !r.managers[i].cancelled && !r.managers[j].cancelled
    ensures i == j
    ensures var r := Run(sha, w, steps).registry;
      Live(r, r.managers[i].key) && r.gardens[r.managers[i].key].mgr == Some(i)
  {
    RunInv(sha, w, steps);
    AtMostOneUncancelled(Run(sha, w, steps).registry, i, j);
  }

  /**
   In every reachable state in which a manager has access but cannot be recreated, the pass leaves the
   CareInstruction without any uncancelled manager.
   */
  lemma FailedPassLeavesNoManager(sha: string -> string, w: World, steps: seq<Step>, key: string, o: ManagerObs)
    requires Initial(w) && o.access.Granted?
    requires var w1 := Run(sha, w, steps);
      key in w1.objects && key !in w1.inFlight && ManagerPhase(sha, w1.registry, w1.objects[key], o).error.Some?
    ensures NoUncancelled(Next(sha, Run(sha, w, steps), Manage(key, o)).registry, key)
  {
    RunInv(sha, w, steps);
    var w1 := Run(sha, w, steps);
    FailedRecreationCancels(sha, w1.registry, w1.objects[key], o);
  }

  /** In every reachable state, a manager that has exited by itself is replaced by the next pass that succeeds. */
  lemma ExitedIsReplaced(sha: string -> string, w: World, steps: seq<Step>, key: string, o: ManagerObs)
    requires Initial(w)
    requires var w1 := Run(sha, w, steps); key in w1.objects && key !in w1.inFlight && Live(w1.registry, key)
    requires var w1 := Run(sha, w, steps);
      var w2 := Next(sha, w1, ManagerExit(w1.registry.gardens[key].mgr.value));
      ManagerPhase(sha, w2.registry, w2.objects[key], o).error.None?
    ensures var w1 := Run(sha, w, steps);
      var m := w1.registry.gardens[key].mgr.value;
      var r := Next(sha, Next(sha, w1, ManagerExit(m)), Manage(key, o)).registry;
      Live(r, key) && r.gardens[key].mgr.value != m && r.managers[m].cancelled
  {
    RunInv(sha, w, steps);
    var w1 := Run(sha, w, steps);
    var m := w1.registry.gardens[key].mgr.value;
    var w2 := Next(sha, w1, ManagerExit(m));
    NextInv(sha, w1, ManagerExit(m));
    var ci := w2.objects[key];
    InitializeKeeps(ci, |KNOWN_CONDITION_TYPES|);
    ManagerPhaseOk(sha, w2.registry, ci, o);
    assert GardenOk(key, w1.registry.gardens[key], w1.registry.managers);
    StoppedIsReplaced(w2.registry, InitializeConditions(ci), o, m);
  }

  /** Once a CareInstruction has been removed, none of its managers is left uncancelled. */
  lemma RemovedHasNoManager(sha: string -> string, w: World, steps: seq<Step>, key: string)
    requires Initial(w)
    requires var w1 := Run(sha, w, steps); key in w1.objects && key !in w1.inFlight
    ensures NoUncancelled(Next(sha, Run(sha, w, steps), Remove(key)).registry, key)
  {
    RunInv(sha, w, steps);
    CleanupOk(Run(sha, w, steps).registry, key);
  }

  /** Neither the second phase of that key's pass nor the end of the process: the pass stays under way. */
  ghost predicate KeepsPass(s: Step, key: string) {
    !(s.Report? && s.key == key) && s != ProcessRestart
  }

  lemma {:induction false} PassContinues(sha: string -> string, w: World, steps: seq<Step>, key: string)
    requires Inv(w) && key in w.inFlight && key in w.registry.gardens
    requires forall i :: 0 <= i < |steps| ==> KeepsPass(steps[i], key)
    ensures var w' := Run(sha, w, steps);
      && Inv(w') && key in w'.inFlight && w'.inFlight[key] == w.inFlight[key]
      && key in w'.registry.gardens && w'.registry.gardens[key] == w.registry.gardens[key]
    decreases |steps|
  {
    if steps != [] {
      assert Underway(w, key) && KeepsPass(steps[0], key);
      NextInv(sha, w, steps[0]);
      if !StepOf(steps[0], key) { OtherKeysUntouched(sha, w, steps[0], key); }
      PassContinues(sha, Next(sha, w, steps[0]), steps[1..], key);
    }
  }

  /**
   In every reachable state in which reconcileManager returns nil, on the skip path too, and at every moment
   from then to the second phase of the pass, the entry holds an uncancelled manager built from the spec of
   the pass and the config just obtained, with client, cancel function and stop channel set, whatever other
   keys, exiting managers and users do in the meantime.
   */
  lemma PassIsManaged(sha: string -> string, w: World, before: seq<Step>, key: string, o: ManagerObs,
      between: seq<Step>)
    requires Initial(w)
    requires var w1 := Run(sha, w, before);
      && key in w1.objects && key !in w1.inFlight && ManagerPhase(sha, w1.registry, w1.objects[key], o).error.None?
    requires forall i :: 0 <= i < |between| ==> KeepsPass(between[i], key)
    ensures var w1 := Run(sha, w, before);
      var w2 := Run(sha, Next(sha, w1, Manage(key, o)), between);
      && key in w2.inFlight && w2.inFlight[key].spec == w1.objects[key].spec
      && Managed(w2.registry, key, w1.objects[key].spec)
      && o.access.Granted? && w2.registry.gardens[key].gardenConfig == Some(o.access.config)
  {
    var w1 := Run(sha, w, before);
    RunInv(sha, w, before);
    ManagerPhaseOk(sha, w1.registry, w1.objects[key], o);
    NextInv(sha, w1, Manage(key, o));
    PassContinues(sha, Next(sha, w1, Manage(key, o)), between, key);
    assert Underway(Run(sha, Next(sha, w1, Manage(key, o)), between), key);
  }
}
