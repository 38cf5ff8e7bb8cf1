/**
 The Greenhouse Secret of a shoot: what the shoot controller wants in it, the mutation it applies to the
 stored one, and what a sequence of such mutations amounts to.
 */
module Secrets {
  import opened Api
  import opened Strings

  const CA_CRT := "ca.crt"

  /** The annotation keys the controller reserves. All results hold for any distinct keys. */
  datatype Keys = Keys(propagateLabels: string, tracking: string, apiServerURL: string, workerless: string)

  ghost predicate Distinct(keys: Keys) {
    && keys.propagateLabels != keys.tracking && keys.propagateLabels != keys.apiServerURL
    && keys.propagateLabels != keys.workerless && keys.tracking != keys.apiServerURL
    && keys.tracking != keys.workerless && keys.apiServerURL != keys.workerless
  }

  ghost function Reserved(keys: Keys): set<string> {
    {keys.propagateLabels, keys.tracking, keys.apiServerURL, keys.workerless}
  }

  datatype Secret = Secret(annotations: map<string, string>, labels: map<string, string>, data: map<string, string>)

  const EMPTY_SECRET := Secret(map[], map[], map[])

  /** What one reconcile wants: additional annotations, the values of the reserved ones, labels, copied shoot
      labels, and the encoded CA. */
  datatype Desired = Desired(
    additional: map<string, string>,
    propagate: string,
    url: string,
    workerless: bool,
    labels: map<string, string>,
    copied: map<string, string>,
    ca: string)

  /** Additional annotations, overwritten by the reserved keys. */
  function SecretAnnotations(keys: Keys, d: Desired): map<string, string> {
    var a := d.additional[keys.propagateLabels := d.propagate][keys.apiServerURL := d.url];
    if d.workerless then a[keys.workerless := "true"] else a
  }

  ghost function TrackingValue(d: Desired): string {
    Join(SortedKeys(d.additional.Keys))
  }

  /** Removal of tracked keys that are no longer wanted. */
  function RemoveStale(keys: Keys, annotations: map<string, string>, wanted: set<string>): map<string, string> {
    annotations - (TrackedKeys(Lookup(annotations, keys.tracking)) - wanted)
  }

  ghost function MutateAnnotations(keys: Keys, annotations: map<string, string>, d: Desired): map<string, string> {
    var sa := SecretAnnotations(keys, d);
    var merged := RemoveStale(keys, annotations, sa.Keys) + sa;
    (if d.workerless then merged else merged - {keys.workerless})[keys.tracking := TrackingValue(d)]
  }

  /** The mutation function of CreateOrUpdate. */
  ghost function Mutate(keys: Keys, s: Secret, d: Desired): Secret {
    Secret(MutateAnnotations(keys, s.annotations, d), s.labels + d.labels + d.copied, s.data[CA_CRT := d.ca])
  }

  /** The object CreateOrUpdate starts from when there is no Secret yet. */
  function Built(keys: Keys, d: Desired): Secret {
    Secret(SecretAnnotations(keys, d), d.labels, map[CA_CRT := d.ca])
  }

  /** The Secret after a successful CreateOrUpdate. */
  ghost function CreateOrUpdate(keys: Keys, existing: Option<Secret>, d: Desired): Secret {
    match existing
    case None => Mutate(keys, Built(keys, d), d)
    case Some(s) => Mutate(keys, s, d)
  }

  // ---- The mutation in place ----

  /** A map that may be shared: on creation the Secret's annotations are the wanted annotations. */
  class StringMap {
    var m: map<string, string>
    constructor (m: map<string, string>)
      ensures this.m == m
    {
      this.m := m;
    }
  }

  method RemoveStaleKeys(keys: Keys, target: StringMap, wanted: StringMap)
    modifies target
    ensures target.m == RemoveStale(keys, old(target.m), old(wanted.m).Keys)
  {
    var tracked := Lookup(target.m, keys.tracking);
    if tracked != "" {
      var pieces := Split(tracked);
      for i := 0 to |pieces|
        invariant target == wanted ==> wanted.m == old(wanted.m)
        invariant target.m == old(target.m) - ((set p | p in pieces[..i]) - old(wanted.m).Keys)
      {
        assert pieces[..i + 1] == pieces[..i] + [pieces[i]];
        if pieces[i] !in wanted.m {
          target.m := target.m - {pieces[i]};
        }
      }
      assert pieces[..|pieces|] == pieces;
    }
  }

  /** The annotation part of the mutation, whether or not the two maps are the same object. */
  method MutateInPlace(keys: Keys, target: StringMap, wanted: StringMap, d: Desired)
    requires wanted.m == SecretAnnotations(keys, d)
    modifies target
    ensures target.m == MutateAnnotations(keys, old(target.m), d)
  {
    ghost var before := target.m;
    RemoveStaleKeys(keys, target, wanted);
    ghost var sa := SecretAnnotations(keys, d);
    assert target == wanted ==> target.m == sa;
    target.m := target.m + wanted.m;
    assert target.m == RemoveStale(keys, before, sa.Keys) + sa;
    if !d.workerless {
      target.m := target.m - {keys.workerless};
    }
    var tracking := JoinedKeys(d.additional);
    target.m := target.m[keys.tracking := tracking];
  }

  /** The sorted keys of a map, joined. */
  method JoinedKeys(m: map<string, string>) returns (r: string)
    ensures r == Join(SortedKeys(m.Keys))
  {
    var keys := CollectKeys(m);
    SortStringsIsSortedKeys(keys, m.Keys);
    r := Join(SortStrings(keys));
  }

  /** The keys of a map, in whatever order the iteration delivers them. */
  method CollectKeys(m: map<string, string>) returns (r: seq<string>)
    ensures DistinctKeys(r, Itself) && Elements(r) == m.Keys
  {
    r := [];
    var remaining := m.Keys;
    while remaining != {}
      invariant forall k :: k in m <==> k in remaining || k in r
      invariant forall k :: k in r ==> k !in remaining
      invariant DistinctKeys(r, Itself)
      decreases |remaining|
    {
      var k :| k in remaining;
      assert ([k] + r)[1..] == r;
      r := [k] + r;
      remaining := remaining - {k};
    }
    assert forall k :: k in Elements(r) <==> k in m.Keys;
  }

  // ---- One mutation ----

  ghost function At(m: map<string, string>, k: string): Option<string> {
    if k in m then Some(m[k]) else None
  }

  lemma SameMap(a: map<string, string>, b: map<string, string>)
    requires forall k :: At(a, k) == At(b, k)
    ensures a == b
  {
    assert forall k :: k in a <==> At(a, k).Some?;
    assert forall k :: k in b <==> At(b, k).Some?;
    forall k | k in a ensures a[k] == b[k] { assert At(a, k) == At(b, k); }
  }

  /** What the controller manages at one key. */
  ghost function ManagedAt(keys: Keys, d: Desired, k: string): Option<string> {
    if k == keys.tracking then Some(TrackingValue(d))
    else if k == keys.workerless then (if d.workerless then Some("true") else None)
    else if k == keys.apiServerURL then Some(d.url)
    else if k == keys.propagateLabels then Some(d.propagate)
    else At(d.additional, k)
  }

  lemma WantedAt(keys: Keys, d: Desired, k: string)
    requires Distinct(keys) && k != keys.tracking
    ensures At(SecretAnnotations(keys, d), k) ==
      if k == keys.workerless && !d.workerless then At(d.additional, k) else ManagedAt(keys, d, k)
  {
  }

  /** The mutation at one key: managed, or removed as stale, or left alone. */
  lemma MutatedAt(keys: Keys, a: map<string, string>, d: Desired, k: string)
    requires Distinct(keys)
    ensures At(MutateAnnotations(keys, a, d), k) ==
      if k in Reserved(keys) + d.additional.Keys then ManagedAt(keys, d, k)
      else if k in TrackedKeys(Lookup(a, keys.tracking)) then None
      else At(a, k)
  {
    if k != keys.tracking { WantedAt(keys, d, k); }
    var sa := SecretAnnotations(keys, d);
    var stale := RemoveStale(keys, a, sa.Keys);
    assert At(stale + sa, k) == if k in sa then At(sa, k) else At(stale, k);
  }

  /** Copied labels win over wanted ones, and these over the ones that are there; of the data only the CA is set. */
  lemma MutatedLabelAt(keys: Keys, s: Secret, d: Desired, k: string)
    ensures At(Mutate(keys, s, d).labels, k) ==
      if k in d.copied then Some(d.copied[k]) else if k in d.labels then Some(d.labels[k]) else At(s.labels, k)
  {
  }

  lemma TrackingAfter(keys: Keys, a: map<string, string>, d: Desired)
    ensures Lookup(MutateAnnotations(keys, a, d), keys.tracking) == TrackingValue(d)
  {
  }

  /** Creating agrees with updating an empty Secret. */
  lemma CreateIsUpdateOfEmpty(keys: Keys, d: Desired)
    requires Distinct(keys)
    ensures CreateOrUpdate(keys, None, d) == Mutate(keys, EMPTY_SECRET, d)
  {
    var sa := SecretAnnotations(keys, d);
    forall k ensures At(MutateAnnotations(keys, sa, d), k) == At(MutateAnnotations(keys, map[], d), k) {
      MutatedAt(keys, sa, d, k);
      MutatedAt(keys, map[], d, k);
    }
    SameMap(MutateAnnotations(keys, sa, d), MutateAnnotations(keys, map[], d));
    assert d.labels + d.labels + d.copied == map[] + d.labels + d.copied;
  }

  /** Everything the controller does not manage survives: data, labels and annotations of others. */
  lemma ForeignPreserved(keys: Keys, s: Secret, d: Desired, k: string)
    requires Distinct(keys)
    ensures var s' := Mutate(keys, s, d);
      && At(s'.data, k) == (if k == CA_CRT then Some(d.ca) else At(s.data, k))
      && (k !in d.labels && k !in d.copied ==> At(s'.labels, k) == At(s.labels, k))
      && (k !in Reserved(keys) && k !in d.additional && k !in TrackedKeys(Lookup(s.annotations, keys.tracking)) ==>
            At(s'.annotations, k) == At(s.annotations, k))
  {
    MutatedAt(keys, s.annotations, d, k);
  }

  /** The keys a mutation records do not reach beyond the keys it manages. */
  ghost predicate TracksOwnKeys(keys: Keys, d: Desired) {
    TrackedKeys(TrackingValue(d)) <= Reserved(keys) + d.additional.Keys
  }

  lemma CommaFreeTracksOwn(keys: Keys, d: Desired)
    requires CommaFree(d.additional.Keys)
    ensures TracksOwnKeys(keys, d)
  {
    TrackingRoundTrip(d.additional.Keys);
    if d.additional.Keys == {""} {
      StrictlySortedUnique(SortedKeys({""}), [""], Itself);
    }
  }

  /**
   The mutation is idempotent on every Secret exactly when the recorded keys are among those it manages,
   which holds whenever no additional key contains a comma.
   */
  lemma IdempotentIff(keys: Keys, d: Desired)
    requires Distinct(keys)
    ensures (forall s :: Mutate(keys, Mutate(keys, s, d), d) == Mutate(keys, s, d)) <==> TracksOwnKeys(keys, d)
  {
    if TracksOwnKeys(keys, d) {
      forall s ensures Mutate(keys, Mutate(keys, s, d), d) == Mutate(keys, s, d) {
        MutateTwice(keys, s, d);
      }
    } else {
      var p :| p in TrackedKeys(TrackingValue(d)) && p !in Reserved(keys) + d.additional.Keys;
      var s := NotIdempotent(keys, d, p);
    }
  }

  lemma NotIdempotent(keys: Keys, d: Desired, p: string) returns (s: Secret)
    requires Distinct(keys)
    requires p in TrackedKeys(TrackingValue(d)) && p !in Reserved(keys) + d.additional.Keys
    ensures Mutate(keys, Mutate(keys, s, d), d) != Mutate(keys, s, d)
  {
    s := Secret(map[p := ""], map[], map[]);
    var a1 := MutateAnnotations(keys, s.annotations, d);
    MutatedAt(keys, s.annotations, d, p);
    TrackingAfter(keys, s.annotations, d);
    MutatedAt(keys, a1, d, p);
    assert At(MutateAnnotations(keys, a1, d), p) != At(a1, p);
  }

  lemma LabelsTwice(a: map<string, string>, b: map<string, string>, c: map<string, string>)
    ensures (a + b + c) + b + c == a + b + c
  {
  }

  lemma TwiceAt(keys: Keys, a: map<string, string>, d: Desired, k: string)
    requires Distinct(keys) && TracksOwnKeys(keys, d)
    ensures var a1 := MutateAnnotations(keys, a, d); At(MutateAnnotations(keys, a1, d), k) == At(a1, k)
  {
    TrackingAfter(keys, a, d);
    MutatedAt(keys, a, d, k);
    MutatedAt(keys, MutateAnnotations(keys, a, d), d, k);
  }

  lemma MutateTwice(keys: Keys, s: Secret, d: Desired)
    requires Distinct(keys) && TracksOwnKeys(keys, d)
    ensures Mutate(keys, Mutate(keys, s, d), d) == Mutate(keys, s, d)
  {
    var a1 := MutateAnnotations(keys, s.annotations, d);
    forall k ensures At(MutateAnnotations(keys, a1, d), k) == At(a1, k) { TwiceAt(keys, s.annotations, d, k); }
    SameMap(MutateAnnotations(keys, a1, d), a1);
    LabelsTwice(s.labels, d.labels, d.copied);
  }

  // ---- Many mutations ----

  ghost function MutateAll(keys: Keys, a: map<string, string>, ds: seq<Desired>): map<string, string> {
    if ds == [] then a else MutateAnnotations(keys, MutateAll(keys, a, ds[..|ds| - 1]), ds[|ds| - 1])
  }

  ghost function EverManaged(ds: seq<Desired>): set<string> {
    if ds == [] then {} else EverManaged(ds[..|ds| - 1]) + ds[|ds| - 1].additional.Keys
  }

  /** Apart from reserved keys, the tracking annotation gives back the additional keys. */
  ghost predicate RecordsExactly(keys: Keys, d: Desired) {
    TrackedKeys(TrackingValue(d)) - Reserved(keys) == d.additional.Keys - Reserved(keys)
  }

  /** The reserved keys are annotation keys themselves: without commas, and not empty. */
  ghost predicate WellFormed(keys: Keys) {
    Distinct(keys) && CommaFree(Reserved(keys)) && "" !in Reserved(keys)
  }

  /** Which additional keys are recorded exactly. */
  lemma RecordsExactlyIff(keys: Keys, d: Desired)
    requires WellFormed(keys)
    ensures RecordsExactly(keys, d) <==> CommaFree(d.additional.Keys) && d.additional.Keys != {""}
  {
    var tracked, own := TrackedKeys(TrackingValue(d)), d.additional.Keys;
    TrackingRoundTrip(own);
    if own == {""} {
      StrictlySortedUnique(SortedKeys({""}), [""], Itself);
      assert "" !in tracked && "" in own - Reserved(keys);
    }
    if RecordsExactly(keys, d) {
      forall k | k in own ensures ',' !in k {
        assert k !in Reserved(keys) ==> k in own - Reserved(keys);
      }
    }
  }

  /**
   After any sequence of reconciles with any additional annotations and worker states, a key holds what the
   last reconcile manages there; otherwise nothing, if it was ever managed or tracked; otherwise its initial
   value. No key managed earlier survives unless it still is managed.
   */
  lemma {:induction false} AnnotationsAfterRun(keys: Keys, a: map<string, string>, ds: seq<Desired>, k: string)
    requires Distinct(keys) && ds != []
    requires forall i :: 0 <= i < |ds| - 1 ==> RecordsExactly(keys, ds[i])
    ensures var last := ds[|ds| - 1];
      At(MutateAll(keys, a, ds), k) ==
        if k in Reserved(keys) + last.additional.Keys then ManagedAt(keys, last, k)
        else if k in EverManaged(ds) + TrackedKeys(Lookup(a, keys.tracking)) then None
        else At(a, k)
  {
    var init, last := ds[..|ds| - 1], ds[|ds| - 1];
    var b := MutateAll(keys, a, init);
    MutatedAt(keys, b, last, k);
    if init != [] {
      AnnotationsAfterRun(keys, a, init, k);
      AnnotationsAfterRun(keys, a, init, keys.tracking);
      var before := init[|init| - 1];
      assert before == ds[|ds| - 2];
      assert Lookup(b, keys.tracking) == TrackingValue(before);
      assert k in TrackedKeys(TrackingValue(before)) - Reserved(keys) <==> k in before.additional.Keys - Reserved(keys);
    }
  }

  /** Replacing d by d' on a Secret without tracking removes exactly the keys of d that d' no longer has. */
  ghost predicate ReplacesAt(keys: Keys, a: map<string, string>, d: Desired, d': Desired, k: string) {
    At(MutateAnnotations(keys, MutateAnnotations(keys, a, d), d'), k) ==
      if k in Reserved(keys) + d'.additional.Keys then ManagedAt(keys, d', k)
      else if k in d.additional then None
      else At(a, k)
  }

  lemma ReplacedAt(keys: Keys, a: map<string, string>, d: Desired, d': Desired, k: string)
    requires Distinct(keys)
    ensures At(MutateAnnotations(keys, MutateAnnotations(keys, a, d), d'), k) ==
      if k in Reserved(keys) + d'.additional.Keys then ManagedAt(keys, d', k)
      else if k in TrackedKeys(TrackingValue(d)) then None
      else At(MutateAnnotations(keys, a, d), k)
  {
    TrackingAfter(keys, a, d);
    MutatedAt(keys, MutateAnnotations(keys, a, d), d', k);
  }

  /**
   Whatever the Secret holds and whatever is wanted next, annotations of others stay and annotations taken out
   of the spec go, exactly when no additional key has a comma and the empty key is not the only one.
   */
  lemma RemovalIff(keys: Keys, d: Desired)
    requires WellFormed(keys)
    ensures (forall a, d', k :: Lookup(a, keys.tracking) == "" ==> ReplacesAt(keys, a, d, d', k))
       <==> CommaFree(d.additional.Keys) && d.additional.Keys != {""}
  {
    RecordsExactlyIff(keys, d);
    if RecordsExactly(keys, d) {
      forall a, d', k | Lookup(a, keys.tracking) == "" ensures ReplacesAt(keys, a, d, d', k) {
        ReplacedAt(keys, a, d, d', k);
        MutatedAt(keys, a, d, k);
        assert k in TrackedKeys(TrackingValue(d)) - Reserved(keys) <==> k in d.additional.Keys - Reserved(keys);
      }
    } else {
      var a, d', k := RemovalFails(keys, d);
    }
  }

  /** A key recorded but not managed is taken from others; a key managed but not recorded is left behind. */
  lemma RemovalFails(keys: Keys, d: Desired) returns (a: map<string, string>, d': Desired, k: string)
    requires Distinct(keys) && !RecordsExactly(keys, d)
    ensures Lookup(a, keys.tracking) == "" && !ReplacesAt(keys, a, d, d', k)
  {
    k :| k !in Reserved(keys) && (k in TrackedKeys(TrackingValue(d)) <==> k !in d.additional);
    a, d' := map[k := "foreign"], d.(additional := map[]);
    ReplacedAt(keys, a, d, d', k);
    MutatedAt(keys, a, d, k);
  }

  /** With a comma in a key, tracking removes an annotation of somebody else and leaves the stale one. */
  lemma CommaBreaksTracking(keys: Keys, d: Desired, d': Desired)
    requires Distinct(keys) && Reserved(keys) !! {"a", "a,b"}
    requires d.additional == map["a,b" := "x"] && d'.additional == map[]
    ensures var a := MutateAnnotations(keys, MutateAnnotations(keys, map["a" := "foreign"], d), d');
      "a" !in a && "a,b" in a
  {
    var foreign := map["a" := "foreign"];
    var a1 := MutateAnnotations(keys, foreign, d);
    TrackingAfter(keys, foreign, d);
    TrackedComma(d);
    assert Lookup(foreign, keys.tracking) == "";
    MutatedAt(keys, foreign, d, "a,b");
    MutatedAt(keys, a1, d', "a");
    MutatedAt(keys, a1, d', "a,b");
  }

  lemma TrackedComma(d: Desired)
    requires d.additional == map["a,b" := "x"]
    ensures TrackedKeys(TrackingValue(d)) == {"a", "b"}
  {
    assert d.additional.Keys == {"a,b"};
    StrictlySortedUnique(SortedKeys({"a,b"}), ["a,b"], Itself);
    SplitFirst("a", "b");
    SplitFirst("b", "");
    assert "a" + "," + "b" == "a,b";
  }
}
