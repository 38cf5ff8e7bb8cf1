/**
 OIDC configuration of shoots: the authentication ConfigMap of Greenhouse is copied to a ConfigMap of the
 garden cluster, the Shoot is made to reference it, and changes of it lead back to the Shoots concerned.
 */
module Oidc {
  import opened Api

  const AUTH_CONFIG_MAP_LABEL := "shoot-grafter.cloudoperators.dev/auth-configmap"
  const MANAGED_BY := "shoot-grafter.cloudoperators.dev/managed-by"
  const MANAGED_BY_VALUE := "shoot-grafter - do not edit by hand, this is maintained by automation"
  const OPERATION := "gardener.cloud/operation"

  datatype Name = Name(namespace: string, name: string)

  /** spec.kubernetes.kubeAPIServer.structuredAuthentication.configMapName, with its two optional parents. */
  datatype AuthRef = NoKubeAPIServer | NoStructuredAuthentication | Reference(configMapName: string)

  datatype Shoot = Shoot(labels: map<string, string>, annotations: map<string, string>, auth: AuthRef)

  /** The Greenhouse ConfigMaps of the CareInstruction's namespace, and ConfigMaps and Shoots of the garden. */
  datatype Clusters = Clusters(
    greenhouse: map<string, ConfigMap>,
    configMaps: map<Name, ConfigMap>,
    shoots: map<Name, Shoot>)

  /** The CareInstruction: its name and the name of the authentication ConfigMap. */
  datatype Care = Care(name: string, configMapName: string)

  /** Which calls fail: reading and labelling the Greenhouse ConfigMap, writing the garden ConfigMap, and
      labelling, updating and annotating the Shoot. */
  datatype Faults = Faults(
    getAuth: Option<string>,
    patchAuth: Option<string>,
    writeMap: Option<string>,
    patchShoot: Option<string>,
    updateShoot: Option<string>,
    annotate: Option<string>)

  const NO_FAULTS := Faults(None, None, None, None, None, None)

  datatype Result = Result(state: Clusters, changed: bool, error: Option<string>)

  const NOT_FOUND := "failed to fetch AuthenticationConfiguration ConfigMap"
  const NO_CONTENT := "AuthenticationConfiguration ConfigMap does not contain config.yaml"

  // ---- The steps ----

  /** The existing reference of the Shoot, or the default name. */
  function TargetName(ci: Care, shoot: Shoot): string {
    if shoot.auth.Reference? && shoot.auth.configMapName != "" then shoot.auth.configMapName
    else ci.name + "-greenhouse-auth"
  }

  function Target(ci: Care, key: Name, shoot: Shoot): Name {
    Name(key.namespace, TargetName(ci, shoot))
  }

  function LabelAuth(s: Clusters, ci: Care, fails: bool): Clusters
    requires ci.configMapName in s.greenhouse
  {
    var cm := s.greenhouse[ci.configMapName];
    if AUTH_CONFIG_MAP_LABEL in cm.labels || fails then s
    else s.(greenhouse := s.greenhouse[ci.configMapName := cm.(labels := cm.labels[AUTH_CONFIG_MAP_LABEL := "true"])])
  }

  /** The mutation of the garden ConfigMap: labels and annotations are merged, the data is replaced. */
  function Filled(cm: ConfigMap, ci: Care, content: string): ConfigMap {
    ConfigMap(cm.labels[CARE_INSTRUCTION_LABEL := ci.name], cm.annotations[MANAGED_BY := MANAGED_BY_VALUE],
              map[AUTH_CONFIG_MAP_KEY := content])
  }

  function StoredMap(s: Clusters, n: Name): ConfigMap {
    if n in s.configMaps then s.configMaps[n] else ConfigMap(map[], map[], map[])
  }

  function WriteMap(s: Clusters, n: Name, ci: Care, content: string): Clusters {
    s.(configMaps := s.configMaps[n := Filled(StoredMap(s, n), ci, content)])
  }

  /** CreateOrUpdate reports a change. */
  predicate MapChanges(s: Clusters, n: Name, ci: Care, content: string) {
    n !in s.configMaps || Filled(s.configMaps[n], ci, content) != s.configMaps[n]
  }

  function LabelShoot(s: Clusters, key: Name, ci: Care): Clusters
    requires key in s.shoots
  {
    s.(shoots := s.shoots[key := s.shoots[key].(labels := s.shoots[key].labels[CARE_INSTRUCTION_LABEL := ci.name])])
  }

  function ReferMap(s: Clusters, key: Name, n: Name): Clusters
    requires key in s.shoots
  {
    s.(shoots := s.shoots[key := s.shoots[key].(auth := Reference(n.name))])
  }

  /** AnnotateShootForReconcile */
  function Annotate(s: Clusters, key: Name): Clusters
    requires key in s.shoots
  {
    s.(shoots := s.shoots[key := s.shoots[key].(annotations := s.shoots[key].annotations[OPERATION := "reconcile"])])
  }

  /** The Shoot is pointed at the ConfigMap, or told that the ConfigMap it points at has changed. */
  function Notify(s: Clusters, key: Name, n: Name, written: bool, f: Faults): Result
    requires key in s.shoots
  {
    if s.shoots[key].auth != Reference(n.name) then
      if f.updateShoot.Some? then Result(s, false, f.updateShoot) else Result(ReferMap(s, key, n), true, None)
    else if written then
      if f.annotate.Some? then Result(s, false, f.annotate) else Result(Annotate(s, key), true, None)
    else Result(s, false, None)
  }

  /** From the writing of the garden ConfigMap on. */
  function Apply(s: Clusters, ci: Care, key: Name, content: string, f: Faults): Result
    requires key in s.shoots
  {
    if f.writeMap.Some? then Result(s, false, f.writeMap)
    else
      var n := Target(ci, key, s.shoots[key]);
      var s1 := WriteMap(s, n, ci, content);
      var labelled := Lookup(s.shoots[key].labels, CARE_INSTRUCTION_LABEL) == ci.name;
      if !labelled && f.patchShoot.Some? then Result(s1, false, f.patchShoot)
      else Notify(if labelled then s1 else LabelShoot(s1, key, ci), key, n, MapChanges(s, n, ci, content), f)
  }

  /** ConfigureOIDCAuthentication */
  function Configure(s: Clusters, ci: Care, key: Name, f: Faults): Result
    requires key in s.shoots
  {
    if f.getAuth.Some? then Result(s, false, f.getAuth)
    else if ci.configMapName !in s.greenhouse then Result(s, false, Some(NOT_FOUND))
    else
      var content := Lookup(s.greenhouse[ci.configMapName].data, AUTH_CONFIG_MAP_KEY);
      var s1 := LabelAuth(s, ci, f.patchAuth.Some?);
      if content == "" then Result(s1, false, Some(NO_CONTENT)) else Apply(s1, ci, key, content, f)
  }

  // ---- The configuration in place ----

  class ApiServers {
    var greenhouse: map<string, ConfigMap>
    var configMaps: map<Name, ConfigMap>
    var shoots: map<Name, Shoot>

    ghost function View(): Clusters
      reads this
    {
      Clusters(greenhouse, configMaps, shoots)
    }

    method LabelAuthConfigMap(ci: Care, fails: bool)
      requires ci.configMapName in greenhouse
      modifies this`greenhouse
      ensures View() == LabelAuth(old(View()), ci, fails)
    {
      var cm := greenhouse[ci.configMapName];
      if AUTH_CONFIG_MAP_LABEL !in cm.labels && !fails {
        greenhouse := greenhouse[ci.configMapName := cm.(labels := cm.labels[AUTH_CONFIG_MAP_LABEL := "true"])];
      }
    }

    method WriteGardenConfigMap(n: Name, ci: Care, content: string) returns (written: bool)
      modifies this`configMaps
      ensures View() == WriteMap(old(View()), n, ci, content)
      ensures written == MapChanges(old(View()), n, ci, content)
    {
      var cm := if n in configMaps then configMaps[n] else ConfigMap(map[], map[], map[]);
      var labels := cm.labels[CARE_INSTRUCTION_LABEL := ci.name];
      var annotations := cm.annotations[MANAGED_BY := MANAGED_BY_VALUE];
      var filled := ConfigMap(labels, annotations, map[AUTH_CONFIG_MAP_KEY := content]);
      written := n !in configMaps || filled != cm;
      if written {
        configMaps := configMaps[n := filled];
      } else {
        assert configMaps[n := filled] == configMaps;
      }
    }

    method ConfigureOIDCAuthentication(ci: Care, key: Name, f: Faults) returns (changed: bool, err: Option<string>)
      requires key in shoots
      modifies this
      ensures Result(View(), changed, err) == Configure(old(View()), ci, key, f)
    {
      if f.getAuth.Some? {
        return false, f.getAuth;
      }
      if ci.configMapName !in greenhouse {
        return false, Some(NOT_FOUND);
      }
      var content := Lookup(greenhouse[ci.configMapName].data, AUTH_CONFIG_MAP_KEY);
      LabelAuthConfigMap(ci, f.patchAuth.Some?);
      if content == "" {
        return false, Some(NO_CONTENT);
      }
      changed, err := ApplyContent(ci, key, content, f);
    }

    method ApplyContent(ci: Care, key: Name, content: string, f: Faults) returns (changed: bool, err: Option<string>)
      requires key in shoots
      modifies this`configMaps, this`shoots
      ensures Result(View(), changed, err) == Apply(old(View()), ci, key, content, f)
    {
      if f.writeMap.Some? {
        return false, f.writeMap;
      }
      var shoot := shoots[key];
      var configMapName := ci.name + "-greenhouse-auth";
      if shoot.auth.Reference? && shoot.auth.configMapName != "" {
        configMapName := shoot.auth.configMapName;
      }
      var written := WriteGardenConfigMap(Name(key.namespace, configMapName), ci, content);
      if Lookup(shoot.labels, CARE_INSTRUCTION_LABEL) != ci.name {
        if f.patchShoot.Some? {
          return false, f.patchShoot;
        }
        shoots := shoots[key := shoot.(labels := shoot.labels[CARE_INSTRUCTION_LABEL := ci.name])];
      }
      shoot := shoots[key];
      var shootNeedsUpdate := false;
      if shoot.auth.NoKubeAPIServer? {
        shoot := shoot.(auth := NoStructuredAuthentication);
        shootNeedsUpdate := true;
      }
      if shoot.auth.NoStructuredAuthentication? {
        shoot := shoot.(auth := Reference(""));
        shootNeedsUpdate := true;
      }
      if shoot.auth.configMapName != configMapName {
        shoot := shoot.(auth := Reference(configMapName));
        shootNeedsUpdate := true;
      }
      if shootNeedsUpdate {
        if f.updateShoot.Some? {
          return false, f.updateShoot;
        }
        shoots := shoots[key := shoot];
        return true, None;
      }
      if written {
        if f.annotate.Some? {
          return false, f.annotate;
        }
        shoots := shoots[key := shoot.(annotations := shoot.annotations[OPERATION := "reconcile"])];
        return true, None;
      }
      return false, None;
    }
  }

  // ---- Convergence ----

  ghost predicate Labelled(labels: map<string, string>, ci: Care) {
    Lookup(labels, CARE_INSTRUCTION_LABEL) == ci.name
  }

  /** The Shoot references a ConfigMap, and both carry the owner label. */
  ghost predicate Configured(s: Clusters, ci: Care, key: Name) {
    && key in s.shoots
    && s.shoots[key].auth.Reference?
    && Labelled(s.shoots[key].labels, ci)
    && var n := Name(key.namespace, s.shoots[key].auth.configMapName);
    && n in s.configMaps
    && Labelled(s.configMaps[n].labels, ci)
  }

  lemma NotifySpec(s: Clusters, key: Name, n: Name, written: bool, f: Faults)
    requires key in s.shoots
    ensures var r := Notify(s, key, n, written, f);
      && r.state.greenhouse == s.greenhouse && r.state.configMaps == s.configMaps
      && key in r.state.shoots && r.state.shoots == s.shoots[key := r.state.shoots[key]]
      && r.state.shoots[key].labels == s.shoots[key].labels
      && (r.error.None? ==> r.state.shoots[key].auth == Reference(n.name))
      && (r.error.Some? ==> r.state == s)
      && (r.changed <==> r.error.None? && (s.shoots[key].auth != Reference(n.name) || written))
  {
    assert s.shoots[key := s.shoots[key]] == s.shoots;
  }

  /** What the part after the Greenhouse ConfigMap does: one ConfigMap is filled, one Shoot labelled and notified. */
  lemma ApplySpec(s: Clusters, ci: Care, key: Name, content: string, f: Faults)
    requires key in s.shoots && ci.name != ""
    ensures var r, n := Apply(s, ci, key, content, f), Target(ci, key, s.shoots[key]);
      && r.state.greenhouse == s.greenhouse
      && r.state.configMaps ==
          (if f.writeMap.Some? then s.configMaps else s.configMaps[n := Filled(StoredMap(s, n), ci, content)])
      && key in r.state.shoots && r.state.shoots == s.shoots[key := r.state.shoots[key]]
      && (r.error.None? ==>
          && f.writeMap.None?
          && Labelled(r.state.shoots[key].labels, ci)
          && r.state.shoots[key].auth == Reference(n.name))
      && (r.error.Some? ==>
          && r.state.shoots[key].auth == s.shoots[key].auth
          && r.state.shoots[key].annotations == s.shoots[key].annotations)
      && (Labelled(s.shoots[key].labels, ci) ==> Labelled(r.state.shoots[key].labels, ci))
  {
    assert s.shoots[key := s.shoots[key]] == s.shoots;
    if f.writeMap.None? {
      var n := Target(ci, key, s.shoots[key]);
      var s1 := WriteMap(s, n, ci, content);
      var s2 := if Labelled(s.shoots[key].labels, ci) then s1 else LabelShoot(s1, key, ci);
      NotifySpec(s2, key, n, MapChanges(s, n, ci, content), f);
    }
  }

  /** The Greenhouse ConfigMaps once the watched label is on the authentication ConfigMap, unless the patch fails. */
  ghost function AuthLabelled(s: Clusters, ci: Care, fails: bool): map<string, ConfigMap> {
    var watched := "shoot-grafter.cloudoperators.dev/auth-configmap";
    if ci.configMapName !in s.greenhouse || watched in s.greenhouse[ci.configMapName].labels || fails then s.greenhouse
    else
      var cm := s.greenhouse[ci.configMapName];
      s.greenhouse[ci.configMapName := ConfigMap(cm.labels[watched := "true"], cm.annotations, cm.data)]
  }

  /** Every call that can read the authentication ConfigMap leaves the label on it, even if it fails afterwards. */
  lemma AuthMapLabelled(s: Clusters, ci: Care, key: Name, f: Faults)
    requires key in s.shoots && ci.name != ""
    ensures Configure(s, ci, key, f).state.greenhouse ==
      if f.getAuth.Some? then s.greenhouse else AuthLabelled(s, ci, f.patchAuth.Some?)
  {
    if ci.configMapName in s.greenhouse {
      LabelAuthSpec(s, ci, f.patchAuth.Some?);
      ApplySpec(LabelAuth(s, ci, f.patchAuth.Some?), ci, key, Content(s, ci), f);
    }
  }

  /** Labelling the Greenhouse ConfigMap touches nothing in the garden and no data. */
  lemma LabelAuthSpec(s: Clusters, ci: Care, fails: bool)
    requires ci.configMapName in s.greenhouse
    ensures var s' := LabelAuth(s, ci, fails);
      && s'.configMaps == s.configMaps && s'.shoots == s.shoots
      && ci.configMapName in s'.greenhouse
      && s'.greenhouse[ci.configMapName].data == s.greenhouse[ci.configMapName].data
      && (!fails ==> LabelAuth(s', ci, false) == s')
      && s'.greenhouse == AuthLabelled(s, ci, fails)
  {
  }

  ghost function Content(s: Clusters, ci: Care): string {
    if ci.configMapName in s.greenhouse then Lookup(s.greenhouse[ci.configMapName].data, AUTH_CONFIG_MAP_KEY) else ""
  }

  /** The reference a Shoot already has, if it is not empty, else the default name. */
  ghost function KeptOrDefault(ci: Care, shoot: Shoot): string {
    match shoot.auth
    case Reference(name) => if name == "" then ci.name + "-greenhouse-auth" else name
    case _ => ci.name + "-greenhouse-auth"
  }

  /**
   After a successful call the Shoot references its old reference or the default, that ConfigMap holds
   exactly the Greenhouse content and the owner label, and no other ConfigMap or Shoot has changed.
   */
  lemma SuccessfulCall(s: Clusters, ci: Care, key: Name, f: Faults)
    requires key in s.shoots && ci.name != "" && Configure(s, ci, key, f).error.None?
    ensures var s', n := Configure(s, ci, key, f).state, Name(key.namespace, KeptOrDefault(ci, s.shoots[key]));
      && Content(s, ci) != "" && Content(s', ci) == Content(s, ci)
      && Configured(s', ci, key) && s'.shoots[key].auth == Reference(n.name)
      && s'.configMaps == s.configMaps[n := Filled(StoredMap(s, n), ci, Content(s, ci))]
      && s'.shoots == s.shoots[key := s'.shoots[key]]
  {
    LabelAuthSpec(s, ci, f.patchAuth.Some?);
    ApplySpec(LabelAuth(s, ci, f.patchAuth.Some?), ci, key, Content(s, ci), f);
  }

  /** What Filled means: exactly the content, the owner label, and nothing of the other labels lost. */
  lemma FilledSpec(cm: ConfigMap, ci: Care, content: string)
    ensures var filled := Filled(cm, ci, content);
      && filled.data == map[AUTH_CONFIG_MAP_KEY := content]
      && Labelled(filled.labels, ci)
      && (forall k :: k in cm.labels && k != CARE_INSTRUCTION_LABEL ==>
          k in filled.labels && filled.labels[k] == cm.labels[k])
      && filled.annotations == cm.annotations[MANAGED_BY := MANAGED_BY_VALUE]
      && Filled(filled, ci, content) == filled
  {
    var filled := Filled(cm, ci, content);
    assert filled.labels[CARE_INSTRUCTION_LABEL := ci.name] == filled.labels;
    assert filled.annotations[MANAGED_BY := MANAGED_BY_VALUE] == filled.annotations;
  }

  /** With the ConfigMap up to date and the Shoot labelled and pointing at it, there is nothing to do. */
  lemma NothingToApply(s: Clusters, ci: Care, key: Name, content: string, f: Faults)
    requires key in s.shoots && Labelled(s.shoots[key].labels, ci) && f.writeMap.None?
    requires s.shoots[key].auth.Reference? && s.shoots[key].auth.configMapName != ""
    requires var n := Target(ci, key, s.shoots[key]);
      n in s.configMaps && Filled(s.configMaps[n], ci, content) == s.configMaps[n]
    ensures Apply(s, ci, key, content, f) == Result(s, false, None)
  {
    var n := Target(ci, key, s.shoots[key]);
    assert s.configMaps[n := s.configMaps[n]] == s.configMaps;
    assert WriteMap(s, n, ci, content) == s;
  }

  /** An immediate second call reports no change and leaves the garden as it is. */
  lemma SecondCallDoesNothing(s: Clusters, ci: Care, key: Name, f: Faults, f': Faults)
    requires key in s.shoots && ci.name != "" && Configure(s, ci, key, f).error.None? && f'.getAuth.None?
      && f'.writeMap.None?
    ensures var s' := Configure(s, ci, key, f).state;
      var r := Configure(s', ci, key, f');
      !r.changed && r.error.None? && r.state.configMaps == s'.configMaps && r.state.shoots == s'.shoots
  {
    SuccessfulCall(s, ci, key, f);
    var s', n := Configure(s, ci, key, f).state, Target(ci, key, s.shoots[key]);
    FilledSpec(StoredMap(s, n), ci, Content(s, ci));
    LabelAuthSpec(s', ci, f'.patchAuth.Some?);
    NothingToApply(LabelAuth(s', ci, f'.patchAuth.Some?), ci, key, Content(s, ci), f');
  }

  /**
   A call succeeds iff there is content and none of the calls it makes fails: reading, writing the ConfigMap,
   the label patch of a Shoot without the label, then the update of a Shoot that does not reference the
   ConfigMap, or the annotation of one that does if the ConfigMap has changed. It reports a change iff it then
   updates or annotates the Shoot.
   */
  lemma SucceedsIff(s: Clusters, ci: Care, key: Name, f: Faults)
    requires key in s.shoots && ci.name != ""
    ensures var r, shoot := Configure(s, ci, key, f), s.shoots[key];
      var refers := shoot.auth == Reference(KeptOrDefault(ci, shoot));
      var writes := MapChanges(s, Name(key.namespace, KeptOrDefault(ci, shoot)), ci, Content(s, ci));
      && (r.error.None? <==>
            && f.getAuth.None? && Content(s, ci) != "" && f.writeMap.None?
            && (Labelled(shoot.labels, ci) || f.patchShoot.None?)
            && if refers then writes ==> f.annotate.None? else f.updateShoot.None?)
      && (r.changed <==> r.error.None? && (writes || !refers))
  {
    if ci.configMapName in s.greenhouse {
      var s1, n := LabelAuth(s, ci, f.patchAuth.Some?), Target(ci, key, s.shoots[key]);
      LabelAuthSpec(s, ci, f.patchAuth.Some?);
      var s2 := WriteMap(s1, n, ci, Content(s, ci));
      var s3 := if Labelled(s.shoots[key].labels, ci) then s2 else LabelShoot(s2, key, ci);
      NotifySpec(s3, key, n, MapChanges(s1, n, ci, Content(s, ci)), f);
    }
  }

  // ---- Notification ----

  ghost predicate WritesMap(s: Clusters, s': Clusters) {
    s'.configMaps != s.configMaps
  }

  ghost predicate Pending(shoot: Shoot) {
    && "gardener.cloud/operation" in shoot.annotations
    && shoot.annotations["gardener.cloud/operation"] == "reconcile"
  }

  /** The Shoot's spec was changed, or the Shoot carries the reconcile operation. */
  ghost predicate Notified(s: Clusters, s': Clusters, key: Name)
    requires key in s.shoots && key in s'.shoots
  {
    s'.shoots[key].auth != s.shoots[key].auth || Pending(s'.shoots[key])
  }

  lemma NotifyNotifies(s: Clusters, key: Name, n: Name, f: Faults)
    requires key in s.shoots && Notify(s, key, n, true, f).error.None?
    ensures key in Notify(s, key, n, true, f).state.shoots && Notified(s, Notify(s, key, n, true, f).state, key)
  {
  }

  lemma ApplyNotifies(s: Clusters, ci: Care, key: Name, content: string, f: Faults)
    requires key in s.shoots && Apply(s, ci, key, content, f).error.None?
    requires MapChanges(s, Target(ci, key, s.shoots[key]), ci, content)
    ensures key in Apply(s, ci, key, content, f).state.shoots && Notified(s, Apply(s, ci, key, content, f).state, key)
  {
    var n := Target(ci, key, s.shoots[key]);
    var s1 := WriteMap(s, n, ci, content);
    NotifyNotifies(if Labelled(s.shoots[key].labels, ci) then s1 else LabelShoot(s1, key, ci), key, n, f);
  }

  /** The call gets to the garden ConfigMap and finds it missing or not as it should be. */
  ghost predicate Writes(s: Clusters, ci: Care, key: Name, f: Faults)
    requires key in s.shoots
  {
    f.getAuth.None? && f.writeMap.None? && Content(s, ci) != ""
      && MapChanges(s, Target(ci, key, s.shoots[key]), ci, Content(s, ci))
  }

  /** The calls on the way to the Shoot go through: the label patch where needed, then the update or the annotation. */
  ghost predicate Reaches(s: Clusters, ci: Care, key: Name, f: Faults)
    requires key in s.shoots
  {
    var shoot := s.shoots[key];
    && (Labelled(shoot.labels, ci) || f.patchShoot.None?)
    && if Refers(ci, shoot) then f.annotate.None? else f.updateShoot.None?
  }

  /** The Shoot references a ConfigMap already, so that only an annotation can tell it of a change. */
  ghost predicate Refers(ci: Care, shoot: Shoot) {
    shoot.auth == Reference(TargetName(ci, shoot))
  }

  /** Which calls write the ConfigMap. */
  lemma WritesIff(s: Clusters, ci: Care, key: Name, f: Faults)
    requires key in s.shoots && ci.name != ""
    ensures WritesMap(s, Configure(s, ci, key, f).state) <==> Writes(s, ci, key, f)
  {
    if ci.configMapName in s.greenhouse {
      var s1, n := LabelAuth(s, ci, f.patchAuth.Some?), Target(ci, key, s.shoots[key]);
      LabelAuthSpec(s, ci, f.patchAuth.Some?);
      ApplySpec(s1, ci, key, Content(s, ci), f);
      if n in s.configMaps { assert s.configMaps[n := s.configMaps[n]] == s.configMaps; }
    }
  }

  /** With the ConfigMap written, exactly these failures end the call with an error. */
  lemma ApplyReaches(s: Clusters, ci: Care, key: Name, content: string, f: Faults)
    requires key in s.shoots && f.writeMap.None? && MapChanges(s, Target(ci, key, s.shoots[key]), ci, content)
    ensures Apply(s, ci, key, content, f).error.None? <==> Reaches(s, ci, key, f)
  {
  }

  /**
   A call that writes the ConfigMap updates the Shoot's spec or sets the reconcile operation (unless one is
   pending anyway) exactly when none of the calls on the way to the Shoot fails.
   */
  lemma NotifiedIff(s: Clusters, ci: Care, key: Name, f: Faults)
    requires key in s.shoots && ci.name != "" && Writes(s, ci, key, f)
    ensures key in Configure(s, ci, key, f).state.shoots
    ensures Notified(s, Configure(s, ci, key, f).state, key) <==> Pending(s.shoots[key]) || Reaches(s, ci, key, f)
  {
    var s1 := LabelAuth(s, ci, f.patchAuth.Some?);
    LabelAuthSpec(s, ci, f.patchAuth.Some?);
    ApplySpec(s1, ci, key, Content(s, ci), f);
    ApplyReaches(s1, ci, key, Content(s, ci), f);
    if Reaches(s, ci, key, f) {
      ApplyNotifies(s1, ci, key, Content(s, ci), f);
    }
  }

  // ---- Retries ----

  /** The last of a sequence of calls for one Shoot, each with its own failures. */
  function Retry(s: Clusters, ci: Care, key: Name, fs: seq<Faults>): (r: Result)
    requires key in s.shoots && ci.name != ""
    ensures key in r.state.shoots
  {
    if fs == [] then Result(s, false, None)
    else
      var before := Retry(s, ci, key, fs[..|fs| - 1]).state;
      ConfigureKeepsShoot(before, ci, key, fs[|fs| - 1]);
      Configure(before, ci, key, fs[|fs| - 1])
  }

  lemma ConfigureKeepsShoot(s: Clusters, ci: Care, key: Name, f: Faults)
    requires key in s.shoots && ci.name != ""
    ensures key in Configure(s, ci, key, f).state.shoots
  {
    if ci.configMapName in s.greenhouse {
      LabelAuthSpec(s, ci, f.patchAuth.Some?);
      ApplySpec(LabelAuth(s, ci, f.patchAuth.Some?), ci, key, Content(s, ci), f);
    }
  }

  /** There is content, and the ConfigMap already holds it. */
  ghost predicate UpToDate(s: Clusters, ci: Care, n: Name) {
    && Content(s, ci) != ""
    && n in s.configMaps && Filled(s.configMaps[n], ci, Content(s, ci)) == s.configMaps[n]
  }

  /** From s to s' the Shoot has got nothing but labels and, maybe, its reference to the ConfigMap. */
  ghost predicate OnlyReferred(s: Clusters, s': Clusters, ci: Care, key: Name)
    requires key in s.shoots && key in s'.shoots
  {
    && s'.shoots[key].annotations == s.shoots[key].annotations
    && (s'.shoots[key].auth == s.shoots[key].auth || s'.shoots[key].auth == Reference(TargetName(ci, s.shoots[key])))
  }

  lemma WriteLeavesUpToDate(s: Clusters, ci: Care, key: Name, f: Faults)
    requires key in s.shoots && ci.name != "" && Writes(s, ci, key, f) && !Reaches(s, ci, key, f)
    ensures var s' := Configure(s, ci, key, f).state;
      && key in s'.shoots && UpToDate(s', ci, Target(ci, key, s.shoots[key]))
      && s'.shoots[key].auth == s.shoots[key].auth && OnlyReferred(s, s', ci, key)
  {
    var s1, n := LabelAuth(s, ci, f.patchAuth.Some?), Target(ci, key, s.shoots[key]);
    LabelAuthSpec(s, ci, f.patchAuth.Some?);
    ApplySpec(s1, ci, key, Content(s, ci), f);
    ApplyReaches(s1, ci, key, Content(s, ci), f);
    FilledSpec(StoredMap(s, n), ci, Content(s, ci));
  }

  lemma NotifyUnwritten(s: Clusters, key: Name, n: Name, f: Faults)
    requires key in s.shoots
    ensures var r := Notify(s, key, n, false, f);
      && key in r.state.shoots && r.state.shoots[key].annotations == s.shoots[key].annotations
      && (r.state.shoots[key].auth == s.shoots[key].auth || r.state.shoots[key].auth == Reference(n.name))
      && (f == NO_FAULTS ==> r.error.None?)
  {
  }

  /** Once the ConfigMap is up to date, a call never annotates the Shoot; without failures it succeeds. */
  lemma UpToDateApply(s: Clusters, ci: Care, key: Name, content: string, f: Faults)
    requires key in s.shoots && ci.name != "" && !MapChanges(s, Target(ci, key, s.shoots[key]), ci, content)
    ensures var r := Apply(s, ci, key, content, f);
      && r.state.configMaps == s.configMaps && key in r.state.shoots && OnlyReferred(s, r.state, ci, key)
      && (f == NO_FAULTS ==> r.error.None?)
  {
    var n := Target(ci, key, s.shoots[key]);
    var s1 := WriteMap(s, n, ci, content);
    assert s.configMaps[n := s.configMaps[n]] == s.configMaps;
    ApplySpec(s, ci, key, content, f);
    NotifyUnwritten(if Labelled(s.shoots[key].labels, ci) then s1 else LabelShoot(s1, key, ci), key, n, f);
  }

  lemma UpToDateStays(s: Clusters, ci: Care, key: Name, f: Faults)
    requires key in s.shoots && ci.name != "" && UpToDate(s, ci, Target(ci, key, s.shoots[key]))
    ensures var r := Configure(s, ci, key, f);
      && key in r.state.shoots && UpToDate(r.state, ci, Target(ci, key, s.shoots[key]))
      && OnlyReferred(s, r.state, ci, key)
      && (f == NO_FAULTS ==> r.error.None?)
  {
    var s1 := LabelAuth(s, ci, f.patchAuth.Some?);
    LabelAuthSpec(s, ci, f.patchAuth.Some?);
    ApplySpec(s1, ci, key, Content(s, ci), f);
    UpToDateApply(s1, ci, key, Content(s, ci), f);
  }

  lemma {:induction false} RetriesOnlyRefer(s: Clusters, ci: Care, key: Name, fs: seq<Faults>)
    requires key in s.shoots && ci.name != "" && UpToDate(s, ci, Target(ci, key, s.shoots[key]))
    ensures var s' := Retry(s, ci, key, fs).state;
      UpToDate(s', ci, Target(ci, key, s.shoots[key])) && OnlyReferred(s, s', ci, key)
  {
    if fs != [] {
      var init := fs[..|fs| - 1];
      RetriesOnlyRefer(s, ci, key, init);
      UpToDateStays(Retry(s, ci, key, init).state, ci, key, fs[|fs| - 1]);
    }
  }

  /**
   A call that writes the ConfigMap and then fails on the way to the Shoot, by whichever call: after any
   retries, failing or not, the next one without failures succeeds, and by then the Shoot has been told
   exactly if it did not reference the ConfigMap before. Otherwise the change is lost on it.
   */
  lemma RetryNotifiesIff(s: Clusters, ci: Care, key: Name, f: Faults, fs: seq<Faults>)
    requires key in s.shoots && ci.name != "" && !Pending(s.shoots[key])
    requires Writes(s, ci, key, f) && !Reaches(s, ci, key, f)
    ensures var s' := Configure(s, ci, key, f).state;
      && key in s'.shoots
      && var last := Retry(s', ci, key, fs + [NO_FAULTS]);
      && last.error.None?
      && (Notified(s, last.state, key) <==> !Refers(ci, s.shoots[key]))
  {
    var s' := Configure(s, ci, key, f).state;
    WriteLeavesUpToDate(s, ci, key, f);
    RetriesOnlyRefer(s', ci, key, fs);
    var t := Retry(s', ci, key, fs).state;
    assert (fs + [NO_FAULTS])[..|fs|] == fs;
    UpToDateStays(t, ci, key, NO_FAULTS);
    SuccessfulCall(t, ci, key, NO_FAULTS);
  }

  /** A Shoot that references its ConfigMap: its annotation fails, and no retry ever tells it of the change. */
  lemma ChangeIsLost() returns (s: Clusters, ci: Care, key: Name, f: Faults)
    ensures key in s.shoots && Labelled(s.shoots[key].labels, ci) && f == NO_FAULTS.(annotate := Some("timeout"))
    ensures ci.name != "" && key in Configure(s, ci, key, f).state.shoots
    ensures WritesMap(s, Configure(s, ci, key, f).state)
    ensures forall fs :: !Notified(s, Retry(Configure(s, ci, key, f).state, ci, key, fs).state, key)
  {
    ci, key, f := Care("care", "auth"), Name("garden", "shoot"), NO_FAULTS.(annotate := Some("timeout"));
    s := Clusters(map["auth" := ConfigMap(map[], map[], map[AUTH_CONFIG_MAP_KEY := "new"])],
                  map[], map[key := Shoot(map[CARE_INSTRUCTION_LABEL := "care"], map[], Reference("existing"))]);
    WritesIff(s, ci, key, f);
    WriteLeavesUpToDate(s, ci, key, f);
    forall fs ensures !Notified(s, Retry(Configure(s, ci, key, f).state, ci, key, fs).state, key) {
      RetriesOnlyRefer(Configure(s, ci, key, f).state, ci, key, fs);
    }
  }

  // ---- A ConfigMap shared by several Shoots ----

  datatype Call = Call(key: Name, f: Faults)

  /** A sequence of calls for one CareInstruction and any of its Shoots. */
  function CallAll(s: Clusters, ci: Care, calls: seq<Call>): Clusters
    decreases |calls|
  {
    if calls == [] then s
    else
      var c := calls[0];
      CallAll(if c.key in s.shoots then Configure(s, ci, c.key, c.f).state else s, ci, calls[1..])
  }

  /** The Shoot references ConfigMap n already. */
  ghost predicate SharesMap(s: Clusters, ci: Care, n: Name, key: Name) {
    key in s.shoots && Refers(ci, s.shoots[key]) && Target(ci, key, s.shoots[key]) == n
  }

  /** Neither its spec nor its annotations have changed. */
  ghost predicate NotTold(s: Clusters, s': Clusters, key: Name)
    requires key in s.shoots
  {
    && key in s'.shoots
    && s'.shoots[key].auth == s.shoots[key].auth && s'.shoots[key].annotations == s.shoots[key].annotations
  }

  lemma ConfigureFrame(s: Clusters, ci: Care, key: Name, f: Faults)
    requires key in s.shoots && ci.name != ""
    ensures var s' := Configure(s, ci, key, f).state;
      && Content(s', ci) == Content(s, ci)
      && key in s'.shoots && s'.shoots == s.shoots[key := s'.shoots[key]]
      && (forall n :: n != Target(ci, key, s.shoots[key]) ==>
            (n in s'.configMaps <==> n in s.configMaps) && (n in s.configMaps ==> s'.configMaps[n] == s.configMaps[n]))
  {
    assert s.shoots[key := s.shoots[key]] == s.shoots;
    if ci.configMapName in s.greenhouse {
      var s1 := LabelAuth(s, ci, f.patchAuth.Some?);
      LabelAuthSpec(s, ci, f.patchAuth.Some?);
      ApplySpec(s1, ci, key, Content(s, ci), f);
    }
  }

  /** A call that does not write the ConfigMap of a Shoot that references one does not tell that Shoot anything. */
  lemma UnwrittenNotTold(s: Clusters, ci: Care, call: Call, n: Name, key: Name)
    requires ci.name != "" && call.key in s.shoots && SharesMap(s, ci, n, key)
    requires Target(ci, call.key, s.shoots[call.key]) != n || !Writes(s, ci, call.key, call.f)
    ensures NotTold(s, Configure(s, ci, call.key, call.f).state, key)
  {
    ConfigureFrame(s, ci, call.key, call.f);
    if call.key == key && ci.configMapName in s.greenhouse {
      var s1 := LabelAuth(s, ci, call.f.patchAuth.Some?);
      LabelAuthSpec(s, ci, call.f.patchAuth.Some?);
      if call.f.getAuth.None? && call.f.writeMap.None? && Content(s, ci) != "" {
        UpToDateApply(s1, ci, key, Content(s, ci), call.f);
      }
    }
  }

  lemma UpToDateKept(s: Clusters, ci: Care, call: Call, n: Name)
    requires ci.name != "" && call.key in s.shoots && UpToDate(s, ci, n)
    ensures UpToDate(Configure(s, ci, call.key, call.f).state, ci, n)
  {
    if Target(ci, call.key, s.shoots[call.key]) == n {
      UpToDateStays(s, ci, call.key, call.f);
    } else {
      ConfigureFrame(s, ci, call.key, call.f);
    }
  }

  /** Once a ConfigMap is up to date, no calls tell a Shoot that references it anything. */
  lemma {:induction false} UpToDateTellsNobody(s: Clusters, ci: Care, calls: seq<Call>, n: Name, key: Name)
    requires ci.name != "" && UpToDate(s, ci, n) && SharesMap(s, ci, n, key)
    ensures NotTold(s, CallAll(s, ci, calls), key)
    decreases |calls|
  {
    if calls != [] {
      var call := calls[0];
      if call.key in s.shoots {
        UpToDateKept(s, ci, call, n);
        UnwrittenNotTold(s, ci, call, n, key);
        UpToDateTellsNobody(Configure(s, ci, call.key, call.f).state, ci, calls[1..], n, key);
      } else {
        UpToDateTellsNobody(s, ci, calls[1..], n, key);
      }
    }
  }

  lemma WrittenIsUpToDate(s: Clusters, ci: Care, key: Name, f: Faults)
    requires key in s.shoots && ci.name != "" && Writes(s, ci, key, f)
    ensures UpToDate(Configure(s, ci, key, f).state, ci, Target(ci, key, s.shoots[key]))
  {
    var s1, n := LabelAuth(s, ci, f.patchAuth.Some?), Target(ci, key, s.shoots[key]);
    LabelAuthSpec(s, ci, f.patchAuth.Some?);
    ApplySpec(s1, ci, key, Content(s, ci), f);
    FilledSpec(StoredMap(s, n), ci, Content(s, ci));
  }

  /**
   Of all Shoots that reference a ConfigMap, the one whose call writes a change is the only one told, provided
   its calls go through: whatever calls follow, for whichever Shoots, nobody else learns of the change.
   */
  lemma OnlyWriterTold(s: Clusters, ci: Care, writer: Call, calls: seq<Call>, key: Name)
    requires ci.name != "" && writer.key in s.shoots && Writes(s, ci, writer.key, writer.f)
    requires SharesMap(s, ci, Target(ci, writer.key, s.shoots[writer.key]), key)
    ensures var s' := CallAll(s, ci, [writer] + calls);
      && key in s'.shoots
      && (Notified(s, s', key) <==> Pending(s.shoots[key]) || (key == writer.key && Reaches(s, ci, key, writer.f)))
  {
    var n, s1 := Target(ci, writer.key, s.shoots[writer.key]), Configure(s, ci, writer.key, writer.f).state;
    assert ([writer] + calls)[1..] == calls;
    WrittenIsUpToDate(s, ci, writer.key, writer.f);
    NotifiedIff(s, ci, writer.key, writer.f);
    ConfigureFrame(s, ci, writer.key, writer.f);
    if key == writer.key { WriterKeepsReference(s, ci, key, writer.f); }
    UpToDateTellsNobody(s1, ci, calls, n, key);
  }

  lemma WriterKeepsReference(s: Clusters, ci: Care, key: Name, f: Faults)
    requires key in s.shoots && ci.name != "" && Writes(s, ci, key, f) && Refers(ci, s.shoots[key])
    ensures key in Configure(s, ci, key, f).state.shoots
    ensures Configure(s, ci, key, f).state.shoots[key].auth == s.shoots[key].auth
  {
    var s1 := LabelAuth(s, ci, f.patchAuth.Some?);
    LabelAuthSpec(s, ci, f.patchAuth.Some?);
    ApplySpec(s1, ci, key, Content(s, ci), f);
  }

  /**
   Over every run of calls, whichever of them fail, at most one of the Shoots that reference a ConfigMap is told
   of its new content.
   */
  lemma {:induction false} AtMostOneTold(s: Clusters, ci: Care, calls: seq<Call>, n: Name, key: Name, key': Name)
    requires ci.name != "" && SharesMap(s, ci, n, key) && SharesMap(s, ci, n, key')
    requires !Pending(s.shoots[key]) && !Pending(s.shoots[key'])
    ensures var s' := CallAll(s, ci, calls);
      && key in s'.shoots && key' in s'.shoots
      && (Notified(s, s', key) && Notified(s, s', key') ==> key == key')
    decreases |calls|
  {
    if calls != [] {
      var call := calls[0];
      if call.key !in s.shoots {
        AtMostOneTold(s, ci, calls[1..], n, key, key');
      } else if Target(ci, call.key, s.shoots[call.key]) == n && Writes(s, ci, call.key, call.f) {
        assert calls == [call] + calls[1..];
        OnlyWriterTold(s, ci, call, calls[1..], key);
        OnlyWriterTold(s, ci, call, calls[1..], key');
      } else {
        UnwrittenNotTold(s, ci, call, n, key);
        UnwrittenNotTold(s, ci, call, n, key');
        AtMostOneTold(Configure(s, ci, call.key, call.f).state, ci, calls[1..], n, key, key');
      }
    }
  }

  // ---- From ConfigMap back to Shoots ----

  /** EnqueueShoots: the Shoots of the ConfigMap's namespace that the index lists under its owner label. */
  function EnqueueShoots(s: Clusters, n: Name): set<Name>
    requires n in s.configMaps
  {
    var owner := Lookup(s.configMaps[n].labels, CARE_INSTRUCTION_LABEL);
    set k | k in s.shoots && k.namespace == n.namespace && owner != ""
      && Lookup(s.shoots[k].labels, CARE_INSTRUCTION_LABEL) == owner
  }

  datatype Step =
    | Reconcile(key: Name, f: Faults)               // a call of ConfigureOIDCAuthentication
    | PutShoot(key: Name, shoot: Shoot)             // a Shoot not yet configured appears or changes
    | PutAuth(name: string, cm: ConfigMap)          // a Greenhouse ConfigMap appears or changes

  /** The clusters, and the Shoots configured so far. */
  datatype World = World(state: Clusters, configured: set<Name>)

  function Next(w: World, ci: Care, s: Step): World {
    match s
    case Reconcile(key, f) =>
      if key !in w.state.shoots then w
      else
        var r := Configure(w.state, ci, key, f);
        World(r.state, if r.error.None? then w.configured + {key} else w.configured)
    case PutShoot(key, shoot) =>
      if key in w.configured then w else w.(state := w.state.(shoots := w.state.shoots[key := shoot]))
    case PutAuth(name, cm) => w.(state := w.state.(greenhouse := w.state.greenhouse[name := cm]))
  }

  function Run(w: World, ci: Care, steps: seq<Step>): World
    decreases |steps|
  {
    if steps == [] then w else Run(Next(w, ci, steps[0]), ci, steps[1..])
  }

  ghost predicate AllConfigured(w: World, ci: Care) {
    forall key :: key in w.configured ==> Configured(w.state, ci, key)
  }

  lemma ConfigureKeeps(s: Clusters, ci: Care, key: Name, f: Faults, other: Name)
    requires key in s.shoots && ci.name != "" && Configured(s, ci, other)
    ensures Configured(Configure(s, ci, key, f).state, ci, other)
  {
    if ci.configMapName in s.greenhouse {
      var s1, n := LabelAuth(s, ci, f.patchAuth.Some?), Target(ci, key, s.shoots[key]);
      LabelAuthSpec(s, ci, f.patchAuth.Some?);
      ApplySpec(s1, ci, key, Content(s, ci), f);
      FilledSpec(StoredMap(s, n), ci, Content(s, ci));
    }
  }

  lemma NextConfigured(w: World, ci: Care, s: Step)
    requires ci.name != "" && AllConfigured(w, ci)
    ensures AllConfigured(Next(w, ci, s), ci)
  {
    if s.Reconcile? && s.key in w.state.shoots {
      forall other | other in w.configured ensures Configured(Next(w, ci, s).state, ci, other) {
        ConfigureKeeps(w.state, ci, s.key, s.f, other);
      }
      if Configure(w.state, ci, s.key, s.f).error.None? { SuccessfulCall(w.state, ci, s.key, s.f); }
    }
  }

  /**
   Over every run of calls for one CareInstruction, failing or not, a change of the ConfigMap that a
   configured Shoot references is mapped to that Shoot, and to no Shoot of another namespace or owner.
   */
  lemma {:induction false} ChangesReachShoots(w: World, ci: Care, steps: seq<Step>, key: Name)
    requires ci.name != "" && AllConfigured(w, ci) && key in Run(w, ci, steps).configured
    ensures var s := Run(w, ci, steps).state;
      && Configured(s, ci, key)
      && var n := Name(key.namespace, s.shoots[key].auth.configMapName);
      && key in EnqueueShoots(s, n)
      && (forall k :: k in EnqueueShoots(s, n) ==>
            k.namespace == key.namespace && k in s.shoots
              && Lookup(s.shoots[k].labels, CARE_INSTRUCTION_LABEL) == ci.name)
    decreases |steps|
  {
    if steps == [] {
      assert Configured(w.state, ci, key);
    } else {
      NextConfigured(w, ci, steps[0]);
      ChangesReachShoots(Next(w, ci, steps[0]), ci, steps[1..], key);
    }
  }
}
