/**
 The shoot controller up to the Secret: reading a Shoot, deriving what the Secret should hold, and the event
 filter that decides which updates of a Shoot are worth a reconcile.
 */
module ShootController {
  import opened Api
  import opened Secrets
  import opened Strings

  datatype Address = Address(name: string, url: string)

  datatype LastOperation = LastOperation(state: string, progress: int, description: string)

  datatype ShootSpec = ShootSpec(workers: nat, rest: string)

  datatype Shoot = Shoot(
    name: string,
    generation: int,
    spec: ShootSpec,
    labels: map<string, string>,
    annotations: map<string, string>,
    advertisedAddresses: seq<Address>,
    lastOperation: Option<LastOperation>,
    otherStatus: string)

  /** A controller: its CareInstruction, the reserved annotation keys, and the library function that selects
      the shoot labels to copy. */
  datatype Controller = Controller(
    name: string,
    spec: CareInstructionSpec,
    keys: Keys,
    copyLabels: (map<string, string>, seq<string>) -> map<string, string>)

  const EXTERNAL := "external"

  // ---- Deriving the desired Secret ----

  /** The URL of the last address named external; empty if there is none. */
  function ApiServerURL(addresses: seq<Address>): string {
    if addresses == [] then ""
    else
      var last := addresses[|addresses| - 1];
      if last.name == EXTERNAL then last.url else ApiServerURL(addresses[..|addresses| - 1])
  }

  ghost predicate LastExternal(addresses: seq<Address>, i: nat)
    requires i < |addresses|
  {
    addresses[i].name == EXTERNAL && forall j :: i < j < |addresses| ==> addresses[j].name != EXTERNAL
  }

  /** Without an external address the URL is empty; else it is that of the last one. */
  lemma {:induction false} ApiServerURLSpec(addresses: seq<Address>)
    ensures (forall i :: 0 <= i < |addresses| ==> addresses[i].name != EXTERNAL) ==> ApiServerURL(addresses) == ""
    ensures forall i :: 0 <= i < |addresses| && LastExternal(addresses, i) ==>
      ApiServerURL(addresses) == addresses[i].url
  {
    if addresses != [] {
      var init := addresses[..|addresses| - 1];
      assert forall i :: 0 <= i < |init| ==> init[i] == addresses[i];
      ApiServerURLSpec(init);
    }
  }

  method FindApiServerURL(addresses: seq<Address>) returns (url: string)
    ensures url == ApiServerURL(addresses)
    ensures url != "" ==> Address(EXTERNAL, url) in addresses
  {
    url := "";
    for i := 0 to |addresses|
      invariant url == ApiServerURL(addresses[..i])
      invariant url != "" ==> Address(EXTERNAL, url) in addresses
    {
      assert addresses[..i + 1][..i] == addresses[..i];
      if addresses[i].name == EXTERNAL {
        url := addresses[i].url;
      }
    }
    assert addresses[..|addresses|] == addresses;
  }

  function SecretLabels(c: Controller): map<string, string> {
    c.spec.additionalLabels[CARE_INSTRUCTION_LABEL := c.name]
  }

  /** The labels Greenhouse is asked to propagate, in a fixed order. */
  ghost function LabelKeysToPropagate(c: Controller): seq<string> {
    c.spec.propagateLabels + SortedKeys(c.spec.additionalLabels.Keys) + [CARE_INSTRUCTION_LABEL]
  }

  ghost function DesiredFor(c: Controller, shoot: Shoot, ca: string): Desired {
    Desired(c.spec.additionalAnnotations, Join(LabelKeysToPropagate(c)), ApiServerURL(shoot.advertisedAddresses),
            shoot.spec.workers == 0, SecretLabels(c), c.copyLabels(shoot.labels, c.spec.propagateLabels), ca)
  }

  /** The construction of labels and label keys, which iterates over a map and is made stable by sorting. */
  method BuildLabels(c: Controller) returns (labels: map<string, string>, toPropagate: seq<string>)
    ensures labels == SecretLabels(c) && toPropagate == LabelKeysToPropagate(c)
  {
    var keys := CollectKeys(c.spec.additionalLabels);
    SortStringsIsSortedKeys(keys, c.spec.additionalLabels.Keys);
    var sorted := SortStrings(keys);
    assert forall k :: k in sorted <==> k in Elements(sorted);
    labels, toPropagate := AddLabels(c.spec.additionalLabels, sorted, c.spec.propagateLabels);
    labels := labels[CARE_INSTRUCTION_LABEL := c.name];
    toPropagate := toPropagate + [CARE_INSTRUCTION_LABEL];
  }

  method AddLabels(m: map<string, string>, order: seq<string>, before: seq<string>)
      returns (labels: map<string, string>, keys: seq<string>)
    requires forall k :: k in order <==> k in m
    ensures labels == m && keys == before + order
  {
    labels, keys := map[], before;
    for i := 0 to |order|
      invariant keys == before + order[..i]
      invariant forall k :: k in labels <==> k in order[..i]
      invariant forall k :: k in labels ==> k in m && labels[k] == m[k]
    {
      labels := labels[order[i] := m[order[i]]];
      keys := keys + [order[i]];
    }
    assert order[..|order|] == order;
  }

  /** The effect of a reconcile on the Secret once ownership is settled: nothing without URL or CA. */
  ghost function ReconcileSecret(c: Controller, existing: Option<Secret>, shoot: Shoot, ca: string): Option<Secret> {
    if ApiServerURL(shoot.advertisedAddresses) == "" || ca == "" then existing
    else Some(CreateOrUpdate(c.keys, existing, DesiredFor(c, shoot, ca)))
  }

  /** The label of a Secret at key k: copied from the shoot, else the owner, else additional, else as it was. */
  ghost function LabelAt(c: Controller, existing: Option<Secret>, shoot: Shoot, k: string): Option<string> {
    var copied := c.copyLabels(shoot.labels, c.spec.propagateLabels);
    if k in copied then Some(copied[k])
    else if k == "shoot-grafter.cloudoperators.dev/careinstruction" then Some(c.name)
    else if k in c.spec.additionalLabels then Some(c.spec.additionalLabels[k])
    else if existing.Some? then At(existing.value.labels, k)
    else None
  }

  ghost function StartSecret(existing: Option<Secret>): Secret {
    if existing.Some? then existing.value else EMPTY_SECRET
  }

  lemma WrittenByMutation(c: Controller, existing: Option<Secret>, shoot: Shoot, ca: string, i: nat)
    requires Distinct(c.keys) && ca != ""
    requires i < |shoot.advertisedAddresses| && LastExternal(shoot.advertisedAddresses, i)
    requires shoot.advertisedAddresses[i].url != ""
    ensures DesiredFor(c, shoot, ca).url == shoot.advertisedAddresses[i].url
    ensures ReconcileSecret(c, existing, shoot, ca) ==
      Some(Mutate(c.keys, StartSecret(existing), DesiredFor(c, shoot, ca)))
  {
    ApiServerURLSpec(shoot.advertisedAddresses);
    if existing.None? { CreateIsUpdateOfEmpty(c.keys, DesiredFor(c, shoot, ca)); }
  }

  /** The annotation of a Secret at a key the controller cares for, from Shoot, URL and spec; reserved keys win. */
  ghost function AnnotationAt(c: Controller, shoot: Shoot, url: string, k: string): Option<string> {
    var own := "shoot-grafter.cloudoperators.dev/careinstruction";
    if k == c.keys.workerless then if shoot.spec.workers == 0 then Some("true") else None
    else if k == c.keys.apiServerURL then Some(url)
    else if k == c.keys.propagateLabels then
      Some(Join(c.spec.propagateLabels + SortedKeys(c.spec.additionalLabels.Keys) + [own]))
    else if k == c.keys.tracking then Some(Join(SortedKeys(c.spec.additionalAnnotations.Keys)))
    else At(c.spec.additionalAnnotations, k)
  }

  /**
   What a reconcile that writes puts into the annotations: the URL of the last external address, the workerless
   mark iff there are no workers, the labels to propagate in a fixed order, the additional annotations and
   their record.
   */
  lemma WrittenAnnotations(c: Controller, existing: Option<Secret>, shoot: Shoot, ca: string, i: nat, k: string)
    requires Distinct(c.keys) && ca != ""
    requires i < |shoot.advertisedAddresses| && LastExternal(shoot.advertisedAddresses, i)
    requires shoot.advertisedAddresses[i].url != ""
    ensures ReconcileSecret(c, existing, shoot, ca).Some?
    ensures k in Reserved(c.keys) + c.spec.additionalAnnotations.Keys ==>
      At(ReconcileSecret(c, existing, shoot, ca).value.annotations, k) ==
        AnnotationAt(c, shoot, shoot.advertisedAddresses[i].url, k)
  {
    WrittenByMutation(c, existing, shoot, ca, i);
    MutatedAt(c.keys, StartSecret(existing).annotations, DesiredFor(c, shoot, ca), k);
  }

  /** And what into labels and data: copied labels win over the owner label, that over additional ones; the CA. */
  lemma WrittenLabels(c: Controller, existing: Option<Secret>, shoot: Shoot, ca: string, i: nat, k: string)
    requires Distinct(c.keys) && ca != ""
    requires i < |shoot.advertisedAddresses| && LastExternal(shoot.advertisedAddresses, i)
    requires shoot.advertisedAddresses[i].url != ""
    ensures ReconcileSecret(c, existing, shoot, ca).Some?
    ensures var s := ReconcileSecret(c, existing, shoot, ca).value;
      && At(s.labels, k) == LabelAt(c, existing, shoot, k)
      && At(s.data, k) == if k == "ca.crt" then Some(ca) else At(StartSecret(existing).data, k)
  {
    WrittenByMutation(c, existing, shoot, ca, i);
    MutatedLabelAt(c.keys, StartSecret(existing), DesiredFor(c, shoot, ca), k);
    ForeignPreserved(c.keys, StartSecret(existing), DesiredFor(c, shoot, ca), k);
  }

  /** Without a URL, because no address is external or the last one has none, or without CA, nothing is written. */
  lemma NothingToWrite(c: Controller, existing: Option<Secret>, shoot: Shoot, ca: string)
    requires var addresses := shoot.advertisedAddresses;
      ca == "" || forall i :: 0 <= i < |addresses| && LastExternal(addresses, i) ==> addresses[i].url == ""
    ensures ReconcileSecret(c, existing, shoot, ca) == existing
  {
    ApiServerURLSpec(shoot.advertisedAddresses);
    LastExternalExists(shoot.advertisedAddresses);
  }

  lemma {:induction false} LastExternalExists(addresses: seq<Address>)
    ensures (exists i :: 0 <= i < |addresses| && LastExternal(addresses, i))
      || forall i :: 0 <= i < |addresses| ==> addresses[i].name != EXTERNAL
  {
    if addresses != [] {
      var last := |addresses| - 1;
      if addresses[last].name == EXTERNAL {
        assert LastExternal(addresses, last);
      } else {
        var init := addresses[..last];
        LastExternalExists(init);
        if i :| 0 <= i < |init| && LastExternal(init, i) { assert LastExternal(addresses, i); }
        assert forall i :: 0 <= i < last ==> addresses[i] == init[i];
      }
    }
  }

  /** The annotation keys a controller records are among those it manages, so that repeating it is safe. */
  ghost predicate TracksOwn(c: Controller) {
    var own := c.spec.additionalAnnotations.Keys;
    TrackedKeys(Join(SortedKeys(own))) <= Reserved(c.keys) + own
  }

  /** A second identical reconcile writes nothing. */
  lemma ReconcileTwice(c: Controller, existing: Option<Secret>, shoot: Shoot, ca: string)
    requires Distinct(c.keys) && TracksOwn(c)
    ensures var once := ReconcileSecret(c, existing, shoot, ca); ReconcileSecret(c, once, shoot, ca) == once
  {
    var d := DesiredFor(c, shoot, ca);
    match existing
    case None => MutateTwice(c.keys, Built(c.keys, d), d);
    case Some(s) => MutateTwice(c.keys, s, d);
  }

  // ---- The event filter ----

  function State(op: Option<LastOperation>): string {
    if op.Some? then op.value.state else ""
  }

  /** PredicateShootStatusNoise on an update event: does it pass? */
  predicate PassesNoiseFilter(oldShoot: Shoot, newShoot: Shoot) {
    if || oldShoot.generation != newShoot.generation || oldShoot.spec != newShoot.spec
       || oldShoot.labels != newShoot.labels || oldShoot.annotations != newShoot.annotations
    then true
    else if oldShoot.advertisedAddresses != newShoot.advertisedAddresses then true
    else State(oldShoot.lastOperation) != State(newShoot.lastOperation)
  }

  /** Two versions of one shoot that differ in status noise at most. */
  ghost predicate NoiseApart(a: Shoot, b: Shoot) {
    a.name == b.name && !PassesNoiseFilter(a, b)
  }

  /** What the filter promises to look at: everything but the status, and of that the addresses and the state. */
  datatype Compared = Compared(
    generation: int,
    spec: ShootSpec,
    labels: map<string, string>,
    annotations: map<string, string>,
    advertisedAddresses: seq<Address>,
    operationState: string)

  ghost function ComparedOf(s: Shoot): Compared {
    Compared(s.generation, s.spec, s.labels, s.annotations, s.advertisedAddresses,
             match s.lastOperation case None => "" case Some(op) => op.state)
  }

  /** An update is dropped exactly if none of these has changed. */
  lemma NoiseIff(a: Shoot, b: Shoot)
    ensures PassesNoiseFilter(a, b) <==> ComparedOf(a) != ComparedOf(b)
  {
  }

  /** Non-interference: what a reconcile does to the Secret depends only on fields the filter compares. */
  lemma NoiseDoesNotMatter(c: Controller, existing: Option<Secret>, a: Shoot, b: Shoot, ca: string)
    requires NoiseApart(a, b)
    ensures ReconcileSecret(c, existing, a, ca) == ReconcileSecret(c, existing, b, ca)
  {
  }

  /** The controller with what stays fixed while it processes a stream of events: selection and CA data. */
  datatype Setting = Setting(c: Controller, selects: Shoot -> bool, ca: string)

  /** The effect of an event: a reconcile, if the selection accepts the new version. */
  ghost function Process(t: Setting, secret: Option<Secret>, shoot: Shoot): Option<Secret> {
    if t.selects(shoot) then ReconcileSecret(t.c, secret, shoot, t.ca) else secret
  }

  ghost function RunAll(t: Setting, secret: Option<Secret>, updates: seq<Shoot>): Option<Secret>
    decreases |updates|
  {
    if updates == [] then secret else RunAll(t, Process(t, secret, updates[0]), updates[1..])
  }

  ghost function RunFiltered(t: Setting, secret: Option<Secret>, last: Shoot, updates: seq<Shoot>): Option<Secret>
    decreases |updates|
  {
    if updates == [] then secret
    else
      var next := if PassesNoiseFilter(last, updates[0]) then Process(t, secret, updates[0]) else secret;
      RunFiltered(t, next, updates[0], updates[1..])
  }

  /** The Secret after the create event of a shoot and a stream of updates, with and without the filter. */
  ghost function Unfiltered(t: Setting, secret: Option<Secret>, first: Shoot, updates: seq<Shoot>): Option<Secret> {
    RunAll(t, Process(t, secret, first), updates)
  }

  ghost function Filtered(t: Setting, secret: Option<Secret>, first: Shoot, updates: seq<Shoot>): Option<Secret> {
    RunFiltered(t, Process(t, secret, first), first, updates)
  }

  /** All events are about the same shoot. */
  ghost predicate OneShoot(first: Shoot, updates: seq<Shoot>) {
    forall u :: u in updates ==> u.name == first.name
  }

  /** The filter makes no difference to that stream of events. */
  ghost predicate SameResult(t: Setting, secret: Option<Secret>, first: Shoot, updates: seq<Shoot>) {
    Filtered(t, secret, first, updates) == Unfiltered(t, secret, first, updates)
  }

  /** The selection does not tell apart two versions of a shoot with a URL that differ only in noise. */
  ghost predicate SelectionIgnoresNoise(selects: Shoot -> bool) {
    forall a, b :: NoiseApart(a, b) && ApiServerURL(a.advertisedAddresses) != "" ==> (selects(a) <==> selects(b))
  }

  /** No shoot with a URL is selected. */
  ghost predicate SelectsNothing(selects: Shoot -> bool) {
    forall a :: selects(a) ==> ApiServerURL(a.advertisedAddresses) == ""
  }

  /** Nothing is ever written, or the selection ignores noise and repeating a reconcile is safe. */
  ghost predicate FilterHarmless(t: Setting) {
    t.ca == "" || SelectsNothing(t.selects) || (SelectionIgnoresNoise(t.selects) && TracksOwn(t.c))
  }

  lemma ProcessTwice(t: Setting, secret: Option<Secret>, shoot: Shoot)
    requires Distinct(t.c.keys) && FilterHarmless(t)
    ensures var once := Process(t, secret, shoot); Process(t, once, shoot) == once
  {
    if TracksOwn(t.c) { ReconcileTwice(t.c, secret, shoot, t.ca); }
  }

  lemma {:induction false} RunsAgree(t: Setting, secret: Option<Secret>, last: Shoot, updates: seq<Shoot>)
    requires Distinct(t.c.keys) && FilterHarmless(t) && OneShoot(last, updates)
    requires Process(t, secret, last) == secret
    ensures RunFiltered(t, secret, last, updates) == RunAll(t, secret, updates)
    decreases |updates|
  {
    if updates != [] {
      var next := updates[0];
      var after := Process(t, secret, next);
      assert next in updates;
      if NoiseApart(last, next) {
        NoiseDoesNotMatter(t.c, secret, last, next, t.ca);
        assert after == secret;
      }
      ProcessTwice(t, secret, next);
      RunsAgree(t, after, next, updates[1..]);
    }
  }

  /**
   Dropping status noise leaves the same Secret as processing every event, for every stream of updates of one
   shoot and every initial Secret, exactly when nothing is ever written anyway, or the selection ignores noise
   and the tracked annotation keys are among the managed ones.
   */
  lemma FilterRefinesIff(t: Setting)
    requires Distinct(t.c.keys)
    ensures (forall secret, first, updates :: OneShoot(first, updates) ==> SameResult(t, secret, first, updates))
       <==> FilterHarmless(t)
  {
    if FilterHarmless(t) {
      forall secret, first, updates | OneShoot(first, updates) ensures SameResult(t, secret, first, updates) {
        ProcessTwice(t, secret, first);
        RunsAgree(t, Process(t, secret, first), first, updates);
      }
    } else if SelectionIgnoresNoise(t.selects) {
      var a :| t.selects(a) && ApiServerURL(a.advertisedAddresses) != "";
      var secret := RepetitionMatters(t, a);
      assert OneShoot(a, [a]);
    } else {
      var a, b :| NoiseApart(a, b) && ApiServerURL(a.advertisedAddresses) != "" && t.selects(a) != t.selects(b);
      var before, after := if t.selects(a) then b else a, if t.selects(a) then a else b;
      MissedEvent(t, before, after);
      assert OneShoot(before, [after]);
    }
  }

  /** With annotation keys as the API server accepts them, only the selection matters. */
  lemma CommaFreeHarmlessIff(t: Setting)
    requires CommaFree(t.c.spec.additionalAnnotations.Keys)
    ensures FilterHarmless(t) <==> t.ca == "" || SelectionIgnoresNoise(t.selects)
  {
    CommaFreeTracksOwn(t.c.keys, Desired(t.c.spec.additionalAnnotations, "", "", false, map[], map[], ""));
  }

  /**
   With a selection by name and compared fields, such as a label selector or a filter on the state of the last
   operation, the filter never makes a difference.
   */
  lemma FilterRefines(t: Setting, chosen: (string, Compared) -> bool, secret: Option<Secret>, first: Shoot,
      updates: seq<Shoot>)
    requires Distinct(t.c.keys) && CommaFree(t.c.spec.additionalAnnotations.Keys)
    requires forall s :: t.selects(s) == chosen(s.name, ComparedOf(s))
    requires OneShoot(first, updates)
    ensures Filtered(t, secret, first, updates) == Unfiltered(t, secret, first, updates)
  {
    forall a, b | NoiseApart(a, b) ensures t.selects(a) <==> t.selects(b) { NoiseIff(a, b); }
    CommaFreeHarmlessIff(t);
    FilterRefinesIff(t);
    assert SameResult(t, secret, first, updates);
  }

  lemma OneUpdate(t: Setting, secret: Option<Secret>, last: Shoot, next: Shoot)
    requires NoiseApart(last, next)
    ensures RunFiltered(t, secret, last, [next]) == secret
    ensures RunAll(t, secret, [next]) == Process(t, secret, next)
  {
    assert [next][1..] == [];
    assert RunFiltered(t, secret, last, [next]) == RunFiltered(t, secret, next, [next][1..]);
    assert RunAll(t, secret, [next]) == RunAll(t, Process(t, secret, next), [next][1..]);
  }

  /** A shoot that becomes selected by a change the filter takes for noise is not onboarded. */
  lemma MissedEvent(t: Setting, a: Shoot, b: Shoot)
    requires NoiseApart(a, b) && ApiServerURL(b.advertisedAddresses) != "" && !t.selects(a) && t.selects(b)
      && t.ca != ""
    ensures Filtered(t, None, a, [b]) == None
    ensures Unfiltered(t, None, a, [b]).Some?
    ensures !SameResult(t, None, a, [b])
  {
    OneUpdate(t, None, a, b);
  }

  /** Where repeating a reconcile is not safe, dropping an event that changes nothing does change the Secret. */
  lemma RepetitionMatters(t: Setting, a: Shoot) returns (secret: Option<Secret>)
    requires Distinct(t.c.keys) && !TracksOwn(t.c)
    requires t.selects(a) && ApiServerURL(a.advertisedAddresses) != "" && t.ca != ""
    ensures !SameResult(t, secret, a, [a])
  {
    var d := DesiredFor(t.c, a, t.ca);
    var p :| p in TrackedKeys(TrackingValue(d)) && p !in Reserved(t.c.keys) + d.additional.Keys;
    var s := NotIdempotent(t.c.keys, d, p);
    secret := Some(s);
    OneUpdate(t, Process(t, secret, a), a, a);
  }
}
