/**
 Stabilisation: in a steady environment a CareInstruction comes to rest after two passes, whatever the
 other CareInstructions do.
 */
module Stability {
  import opened Api
  import opened Accounting
  import opened Gardens
  import opened Lifecycle
  import opened Passes

  /** What stays the same for one CareInstruction: the garden config and the authentication ConfigMap. */
  datatype Environment = Environment(config: RestConfig, auth: Reply<ConfigMap>)

  /** A step in which nothing goes wrong for k and nobody touches k. Other keys may do as they please. */
  ghost predicate SteadyStep(w: World, s: Step, k: string, env: Environment) {
    match s
    case Manage(key, o) => key == k ==> o == ManagerObs(env.auth, Granted(env.config), None)
    case Report(key, o, _) => key == k ==> o.patchError.None? && !o.shoots.Error? && o.authConfigMap == env.auth
    case Remove(key) => key != k
    case ManagerExit(id) =>
      id < |w.registry.managers| && w.registry.managers[id].key == k ==> w.registry.managers[id].cancelled
    case Apply(ns, n, _, _) => GardenKey(ns, n) != k
    case ProcessRestart => false
  }

  ghost predicate SteadyRun(sha: string -> string, w: World, steps: seq<Step>, k: string, env: Environment)
    decreases |steps|
  {
    steps == [] || (SteadyStep(w, steps[0], k, env) && SteadyRun(sha, Next(sha, w, steps[0]), steps[1..], k, env))
  }

  /** The number of passes of k that the run completes. */
  ghost function Completed(sha: string -> string, w: World, steps: seq<Step>, k: string): nat
    decreases |steps|
  {
    if steps == [] then 0
    else (if Reports(w, steps[0], k) then 1 else 0) + Completed(sha, Next(sha, w, steps[0]), steps[1..], k)
  }

  /** The pass under way, if any, works on the current object. */
  ghost predicate Aligned(w: World, k: string) {
    && k in w.objects
    && (k in w.inFlight ==>
        w.inFlight[k].spec == w.objects[k].spec && w.inFlight[k].annotations == w.objects[k].annotations)
  }

  /** Nothing calls for a restart: no annotation is pending and the recorded hash is the current one. */
  ghost predicate Quiet(sha: string -> string, w: World, k: string, env: Environment) {
    && Aligned(w, k)
    && k in w.registry.gardens
    && !Asked(w.objects[k])
    && (w.objects[k].spec.authenticationConfigMapName != "" && env.auth.Got? ==>
          w.registry.gardens[k].authConfigMapHash == sha(ConfigYaml(env.auth.value)))
  }

  /** Quiet, and the manager in the map runs with the current spec and config and is known to be started. */
  ghost predicate Settled(sha: string -> string, w: World, k: string, env: Environment) {
    && Quiet(sha, w, k, env)
    && Managed(w.registry, k, w.objects[k].spec)
    && w.registry.gardens[k].gardenConfig == Some(env.config)
    && !w.registry.managers[w.registry.gardens[k].mgr.value].stopped
    && (k !in w.inFlight ==> IsTrue(w.objects[k].status, ShootControllerStarted))
  }

  /** Where the run stands after n completed passes. */
  ghost predicate Progress(sha: string -> string, w: World, k: string, env: Environment, n: nat) {
    && Inv(w) && Aligned(w, k)
    && (n >= 1 ==> Quiet(sha, w, k, env))
    && (n >= 2 || (n >= 1 && k in w.inFlight) ==> Settled(sha, w, k, env))
  }

  /** Entry, managers and restart count of k are the same; no manager of k is created or cancelled. */
  ghost predicate Frozen(w: World, w': World, k: string) {
    && k in w.objects && k in w'.objects
    && k in w.registry.gardens && k in w'.registry.gardens
    && w'.registry.gardens[k] == w.registry.gardens[k]
    && SameManagers(w.registry, w'.registry, k)
    && w'.objects[k].status.restartCount == w.objects[k].status.restartCount
  }

  // ---- Steps of others ----

  lemma OthersKeepProgress(sha: string -> string, w: World, s: Step, k: string, env: Environment, n: nat)
    requires Progress(sha, w, k, env, n) && SteadyStep(w, s, k, env) && !StepOf(s, k)
    ensures Progress(sha, Next(sha, w, s), k, env, n)
    ensures k in w.registry.gardens ==> Frozen(w, Next(sha, w, s), k)
  {
    NextInv(sha, w, s);
    OtherKeysUntouched(sha, w, s, k);
    if Settled(sha, w, k, env) { OthersKeepRunning(sha, w, s, k, env); }
  }

  lemma OthersKeepRunning(sha: string -> string, w: World, s: Step, k: string, env: Environment)
    requires Inv(w) && Settled(sha, w, k, env) && SteadyStep(w, s, k, env) && !StepOf(s, k)
    ensures Settled(sha, Next(sha, w, s), k, env)
  {
    var w', m := Next(sha, w, s), w.registry.gardens[k].mgr.value;
    OtherKeysUntouched(sha, w, s, k);
    assert w.registry.managers[m].key == k;
    if !s.ManagerExit? { OtherKeysSame(sha, w, s, k); }
  }

  // ---- Steps of k ----

  /** With access granted and nothing failing to build, the manager phase succeeds and its manager runs. */
  lemma SteadyManagerPhase(sha: string -> string, r: Registry, ci: CareInstruction, env: Environment)
    requires RegistryOk(r) && StaleKnown(r, Key(ci), ci) && !env.auth.Error?
    ensures var out := ManagerPhase(sha, r, ci, ManagerObs(env.auth, Granted(env.config), None));
      && out.error.None?
      && Succeeded(Key(ci), ci.spec, Granted(env.config), out)
      && !out.registry.managers[out.registry.gardens[Key(ci)].mgr.value].stopped
  {
    var o := ManagerObs(env.auth, Granted(env.config), None);
    ManagerPhaseOk(sha, r, ci, o);
    InitializeKeeps(ci, |KNOWN_CONDITION_TYPES|);
    var ci0 := InitializeConditions(ci);
    var r1 := AddEntry(r, Key(ci), ci.spec, SeedHash(sha, ci0, o.seed));
    SteadyEntry(r1, ci0, env);
  }

  lemma SteadyEntry(r: Registry, ci: CareInstruction, env: Environment)
    requires Key(ci) in r.gardens
    ensures var out := ReconcileEntry(r, ci, ManagerObs(env.auth, Granted(env.config), None));
      && out.error.None?
      && Key(ci) in out.registry.gardens
      && var g := out.registry.gardens[Key(ci)];
      g.mgr.Some? && g.stopChan.Some?
        && !(g.stopChan.value < |out.registry.managers| && out.registry.managers[g.stopChan.value].stopped)
  {
  }

  /** A manager phase of a quiet key settles it; of a settled key it changes nothing in the registry. */
  lemma ManageSettles(sha: string -> string, w: World, k: string, env: Environment)
    requires Inv(w) && Quiet(sha, w, k, env) && k !in w.inFlight && !env.auth.Error?
    ensures var w' := Next(sha, w, Manage(k, ManagerObs(env.auth, Granted(env.config), None)));
      && Settled(sha, w', k, env) && k in w'.inFlight
      && w'.objects == w.objects
  {
    SteadyManagerPhase(sha, w.registry, w.objects[k], env);
    ManagerPhaseOk(sha, w.registry, w.objects[k], ManagerObs(env.auth, Granted(env.config), None));
  }

  lemma SettledSkips(sha: string -> string, r: Registry, ci: CareInstruction, env: Environment)
    requires Managed(r, Key(ci), ci.spec) && r.gardens[Key(ci)].gardenConfig == Some(env.config)
    requires !r.managers[r.gardens[Key(ci)].mgr.value].stopped && IsTrue(ci.status, ShootControllerStarted)
    ensures ManagerPhase(sha, r, ci, ManagerObs(env.auth, Granted(env.config), None)).registry == r
  {
    InitializeKeeps(ci, |KNOWN_CONDITION_TYPES|);
    var ci0 := InitializeConditions(ci);
    var ci1 := SetCondition(ci0, GardenClusterAccessReady, Condition(CondTrue, "GardenClusterAccessReady", ""));
    assert IsTrue(ci0.status, ShootControllerStarted);
    assert SkipsRecreation(r, ci1, env.config);
  }

  /** A completed pass leaves its key quiet. */
  lemma ReportQuiets(sha: string -> string, w: World, s: Step, k: string, env: Environment)
    requires Inv(w) && Aligned(w, k) && Reports(w, s, k) && SteadyStep(w, s, k, env)
    ensures Quiet(sha, Next(sha, w, s), k, env)
  {
    assert Underway(w, k);
    ShootsPhaseSpec(sha, w.registry, w.inFlight[k], s.shoots, s.agg);
    RestartsOnce(sha, w.registry, w.inFlight[k], s.shoots);
  }

  /** A pass over a settled key restarts nothing and leaves it settled. */
  lemma ReportKeepsSettled(sha: string -> string, w: World, s: Step, k: string, env: Environment)
    requires Inv(w) && Settled(sha, w, k, env) && Reports(w, s, k) && SteadyStep(w, s, k, env)
    ensures Settled(sha, Next(sha, w, s), k, env)
    ensures Frozen(w, Next(sha, w, s), k)
  {
    assert Underway(w, k);
    ShootsPhaseSpec(sha, w.registry, w.inFlight[k], s.shoots, s.agg);
    RestartsOnce(sha, w.registry, w.inFlight[k], s.shoots);
    assert !Triggered(sha, w.registry, w.inFlight[k], s.shoots);
    ReportQuiets(sha, w, s, k, env);
  }

  lemma StepProgress(sha: string -> string, w: World, s: Step, k: string, env: Environment, n: nat)
    requires Progress(sha, w, k, env, n) && SteadyStep(w, s, k, env) && !env.auth.Error?
    ensures Progress(sha, Next(sha, w, s), k, env, n + if Reports(w, s, k) then 1 else 0)
  {
    NextInv(sha, w, s);
    if !StepOf(s, k) {
      OthersKeepProgress(sha, w, s, k, env, n);
    } else if s.Manage? && k !in w.inFlight {
      ManagerPhaseOk(sha, w.registry, w.objects[k], s.manager);
      if n >= 1 {
        ManageSettles(sha, w, k, env);
      } else {
        SteadyManagerPhase(sha, w.registry, w.objects[k], env);
      }
    } else if s.Report? && k in w.inFlight {
      ReportQuiets(sha, w, s, k, env);
      if n >= 1 { ReportKeepsSettled(sha, w, s, k, env); }
    }
  }

  /** From two completed passes on, a step of anybody leaves k's managers, entry, hash and restart count as they are. */
  lemma StepFrozen(sha: string -> string, w: World, s: Step, k: string, env: Environment)
    requires Inv(w) && Settled(sha, w, k, env) && SteadyStep(w, s, k, env) && !env.auth.Error?
    ensures Frozen(w, Next(sha, w, s), k)
  {
    if !StepOf(s, k) {
      OthersKeepProgress(sha, w, s, k, env, 2);
    } else if s.Manage? && k !in w.inFlight {
      ManageSettles(sha, w, k, env);
      SettledSkips(sha, w.registry, w.objects[k], env);
    } else if s.Report? && k in w.inFlight {
      ReportKeepsSettled(sha, w, s, k, env);
    }
  }

  // ---- Runs ----

  lemma {:induction false} RunProgress(sha: string -> string, w: World, steps: seq<Step>, k: string, env: Environment,
      n: nat)
    requires Progress(sha, w, k, env, n) && SteadyRun(sha, w, steps, k, env) && !env.auth.Error?
    ensures Progress(sha, Run(sha, w, steps), k, env, n + Completed(sha, w, steps, k))
    decreases |steps|
  {
    if steps != [] {
      StepProgress(sha, w, steps[0], k, env, n);
      RunProgress(sha, Next(sha, w, steps[0]), steps[1..], k, env, n + if Reports(w, steps[0], k) then 1 else 0);
    }
  }

  lemma FrozenTrans(w: World, w': World, w'': World, k: string)
    requires Frozen(w, w', k) && Frozen(w', w'', k)
    ensures Frozen(w, w'', k)
  {
  }

  lemma {:induction false} RunFrozen(sha: string -> string, w: World, steps: seq<Step>, k: string, env: Environment)
    requires Progress(sha, w, k, env, 2) && SteadyRun(sha, w, steps, k, env) && !env.auth.Error?
    ensures Frozen(w, Run(sha, w, steps), k)
    decreases |steps|
  {
    if steps != [] {
      var w' := Next(sha, w, steps[0]);
      StepProgress(sha, w, steps[0], k, env, 2);
      StepFrozen(sha, w, steps[0], k, env);
      RunFrozen(sha, w', steps[1..], k, env);
      FrozenTrans(w, w', Run(sha, w', steps[1..]), k);
    }
  }

  /**
   From any reachable state between two passes of k, and in a steady environment for k, once two passes of
   k are completed every further pass creates no manager of k, cancels none, and changes neither the entry
   with its hash nor the restart count, however the steps of other keys are interleaved.
   */
  lemma Stabilises(sha: string -> string, w0: World, before: seq<Step>, two: seq<Step>, more: seq<Step>, k: string,
      env: Environment)
    requires Initial(w0)
    requires k in Run(sha, w0, before).objects && k !in Run(sha, w0, before).inFlight
    requires !env.auth.Error?
    requires SteadyRun(sha, Run(sha, w0, before), two, k, env) && Completed(sha, Run(sha, w0, before), two, k) >= 2
    requires SteadyRun(sha, Run(sha, Run(sha, w0, before), two), more, k, env)
    ensures var w2 := Run(sha, Run(sha, w0, before), two);
      Settled(sha, w2, k, env) && Frozen(w2, Run(sha, w2, more), k)
  {
    RunInv(sha, w0, before);
    var w1 := Run(sha, w0, before);
    RunProgress(sha, w1, two, k, env, 0);
    RunFrozen(sha, Run(sha, w1, two), more, k, env);
  }
}
