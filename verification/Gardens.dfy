/**
 The gardens map of the CareInstruction controller and the managers it starts. A manager is named by its
 position in the list of all managers ever started; cancelFunc and stopChan refer to it by that position.
 */
module Gardens {
  import opened Api

  datatype RestConfig = RestConfig(host: string, credentials: string)

  /** A started manager: what it was built from, whether its context is cancelled, whether Start returned. */
  datatype Manager = Manager(key: string, spec: CareInstructionSpec, config: RestConfig, cancelled: bool, stopped: bool)

  datatype Garden = Garden(
    mgr: Option<nat>,
    gardenConfig: Option<RestConfig>,
    gardenClient: Option<RestConfig>,          // a client is known by the config it was made from
    careInstructionSpec: CareInstructionSpec,
    cancelFunc: Option<nat>,
    stopChan: Option<nat>,
    authConfigMapHash: string)

  datatype Registry = Registry(gardens: map<string, Garden>, managers: seq<Manager>)

  /** The key of a CareInstruction in the gardens map. */
  function GardenKey(namespace: string, name: string): string {
    namespace + "/" + name
  }

  /** Namespace-qualified keys of different CareInstructions never collide. */
  lemma {:induction false} GardenKeyInjective(namespace: string, name: string, namespace': string, name': string)
    requires '/' !in namespace && '/' !in namespace'
    requires GardenKey(namespace, name) == GardenKey(namespace', name')
    ensures namespace == namespace' && name == name'
  {
    var k, k' := GardenKey(namespace, name), GardenKey(namespace', name');
    assert k[|namespace|] == '/' && k'[|namespace'|] == '/';
    assert forall i :: 0 <= i < |namespace| ==> k[i] == namespace[i];
    assert forall i :: 0 <= i < |namespace'| ==> k'[i] == namespace'[i];
    assert |namespace| == |namespace'|;
    assert k[..|namespace|] == namespace && k'[..|namespace'|] == namespace';
    assert k[|namespace| + 1..] == name && k'[|namespace'| + 1..] == name';
  }

  // ---- What the controller does to the map ----

  /** Calling a cancel function. */
  function Cancel(managers: seq<Manager>, id: Option<nat>): seq<Manager> {
    if id.Some? && id.value < |managers| then managers[id.value := managers[id.value].(cancelled := true)] else managers
  }

  function AddEntry(r: Registry, key: string, spec: CareInstructionSpec, hash: string): Registry {
    if key in r.gardens then r
    else r.(gardens := r.gardens[key := Garden(None, None, None, spec, None, None, hash)])
  }

  /** Stopping the manager before it is replaced; the entry keeps pointing at it. */
  function StopForRecreation(r: Registry, key: string): Registry
    requires key in r.gardens
  {
    if r.gardens[key].mgr.Some? then r.(managers := Cancel(r.managers, r.gardens[key].cancelFunc)) else r
  }

  /** Recording and starting a new manager. */
  function Install(r: Registry, key: string, spec: CareInstructionSpec, config: RestConfig): Registry
    requires key in r.gardens
  {
    var id := |r.managers|;
    Registry(
      r.gardens[key := Garden(Some(id), Some(config), Some(config), spec, Some(id), Some(id),
        r.gardens[key].authConfigMapHash)],
      r.managers + [Manager(key, spec, config, false, false)])
  }

  function SetHash(r: Registry, key: string, hash: string): Registry
    requires key in r.gardens
  {
    r.(gardens := r.gardens[key := r.gardens[key].(authConfigMapHash := hash)])
  }

  /** restartShootController */
  function Restart(r: Registry, key: string): Registry {
    if key !in r.gardens || r.gardens[key].cancelFunc.None? then r
    else Registry(r.gardens[key := r.gardens[key].(mgr := None)], Cancel(r.managers, r.gardens[key].cancelFunc))
  }

  /** By how much restartShootController raises the restart count. */
  function RestartIncrement(r: Registry, key: string): nat {
    if key in r.gardens && r.gardens[key].cancelFunc.Some? && r.gardens[key].mgr.Some? then 1 else 0
  }

  /** cleanupCareInstruction */
  function Cleanup(r: Registry, key: string): Registry {
    if key in r.gardens && r.gardens[key].cancelFunc.Some?
    then Registry(r.gardens - {key}, Cancel(r.managers, r.gardens[key].cancelFunc))
    else r
  }

  /** The goroutine of a manager returns and closes its stop channel. */
  function Exit(r: Registry, id: nat): Registry {
    if id < |r.managers| then r.(managers := r.managers[id := r.managers[id].(stopped := true)]) else r
  }

  /** The process goes away: the map is lost and every manager ends with it. */
  function Crash(r: Registry): Registry {
    Registry(map[], seq(|r.managers|, i requires 0 <= i < |r.managers| =>
      r.managers[i].(cancelled := true, stopped := true)))
  }

  // ---- What holds of the map at all times ----

  /** The fields of one entry agree: cancelFunc, stopChan, config, client and spec belong to the same manager. */
  ghost predicate GardenOk(k: string, g: Garden, managers: seq<Manager>) {
    match g.cancelFunc
    case None => g.mgr.None? && g.stopChan.None?
    case Some(c) =>
      && c < |managers|
      && managers[c].key == k
      && g.stopChan == Some(c)
      && g.gardenConfig == Some(managers[c].config)
      && g.gardenClient == Some(managers[c].config)
      && g.careInstructionSpec == managers[c].spec
      && (g.mgr == Some(c) || (g.mgr.None? && managers[c].cancelled))
  }

  ghost predicate RegistryOk(r: Registry) {
    && (forall k :: k in r.gardens ==> GardenOk(k, r.gardens[k], r.managers))
    && (forall m :: 0 <= m < |r.managers| && !r.managers[m].cancelled ==>
          r.managers[m].key in r.gardens && r.gardens[r.managers[m].key].mgr == Some(m))
  }

  /** The entry holds an uncancelled manager. */
  ghost predicate Live(r: Registry, key: string) {
    && key in r.gardens
    && r.gardens[key].mgr.Some?
    && r.gardens[key].mgr.value < |r.managers|
    && !r.managers[r.gardens[key].mgr.value].cancelled
  }

  ghost predicate NoUncancelled(r: Registry, key: string) {
    forall m :: 0 <= m < |r.managers| && r.managers[m].key == key ==> r.managers[m].cancelled
  }

  lemma AddEntryOk(r: Registry, key: string, spec: CareInstructionSpec, hash: string)
    requires RegistryOk(r)
    ensures RegistryOk(AddEntry(r, key, spec, hash))
  {
  }

  lemma StopForRecreationOk(r: Registry, key: string)
    requires RegistryOk(r) && key in r.gardens
    ensures RegistryOk(StopForRecreation(r, key))
    ensures NoUncancelled(StopForRecreation(r, key), key)
    ensures StopForRecreation(r, key).gardens == r.gardens
  {
    assert GardenOk(key, r.gardens[key], r.managers);
  }

  lemma InstallOk(r: Registry, key: string, spec: CareInstructionSpec, config: RestConfig)
    requires RegistryOk(r) && key in r.gardens && NoUncancelled(r, key)
    ensures RegistryOk(Install(r, key, spec, config))
    ensures Live(Install(r, key, spec, config), key)
  {
    var r' := Install(r, key, spec, config);
    forall k | k in r'.gardens ensures GardenOk(k, r'.gardens[k], r'.managers) {
      if k != key { assert GardenOk(k, r.gardens[k], r.managers); }
    }
  }

  lemma RestartOk(r: Registry, key: string)
    requires RegistryOk(r)
    ensures RegistryOk(Restart(r, key))
    ensures NoUncancelled(Restart(r, key), key)
  {
    if key in r.gardens { assert GardenOk(key, r.gardens[key], r.managers); }
  }

  /** After cleanup no manager of that CareInstruction is left uncancelled, whether or not the entry was removed. */
  lemma CleanupOk(r: Registry, key: string)
    requires RegistryOk(r)
    ensures RegistryOk(Cleanup(r, key))
    ensures NoUncancelled(Cleanup(r, key), key)
    ensures key in Cleanup(r, key).gardens <==> key in r.gardens && r.gardens[key].cancelFunc.None?
  {
    if key in r.gardens { assert GardenOk(key, r.gardens[key], r.managers); }
    var r' := Cleanup(r, key);
    forall k | k in r'.gardens ensures GardenOk(k, r'.gardens[k], r'.managers) {
      assert GardenOk(k, r.gardens[k], r.managers);
    }
  }

  lemma ExitOk(r: Registry, id: nat)
    requires RegistryOk(r)
    ensures RegistryOk(Exit(r, id))
  {
    forall k | k in Exit(r, id).gardens ensures GardenOk(k, Exit(r, id).gardens[k], Exit(r, id).managers) {
      assert GardenOk(k, r.gardens[k], r.managers);
    }
  }

  /** Two uncancelled managers of one CareInstruction are the same one, and it stands in the map. */
  lemma AtMostOneUncancelled(r: Registry, i: nat, j: nat)
    requires RegistryOk(r) && i < |r.managers| && j < |r.managers|
    requires r.managers[i].key == r.managers[j].key && !r.managers[i].cancelled && !r.managers[j].cancelled
    ensures i == j && Live(r, r.managers[i].key) && r.gardens[r.managers[i].key].mgr == Some(i)
  {
  }

  // ---- What one key's operations do to the others ----

  /** Entry and managers of key k are the same in both registries. */
  ghost predicate SameFor(r: Registry, r': Registry, k: string) {
    && (k in r.gardens <==> k in r'.gardens)
    && (k in r.gardens ==> r'.gardens[k] == r.gardens[k])
    && |r.managers| <= |r'.managers|
    && (forall m :: 0 <= m < |r.managers| && r.managers[m].key == k ==> r'.managers[m] == r.managers[m])
    && (forall m :: 0 <= m < |r.managers| && r.managers[m].key != k ==> r'.managers[m].key != k)
    && (forall m :: |r.managers| <= m < |r'.managers| ==> r'.managers[m].key != k)
  }
}
