/**
 The second half of a reconcile pass: which target shoots are included or excluded, which of them have
 an owned Cluster, which Clusters belong to another CareInstruction, and what the status reports.
 */
module Aggregation {
  import opened Api
  import opened ShootStatuses
  import opened Strings

  /** The outcome of the CEL filter for one shoot. */
  datatype FilterResult = Matches | FilteredOut | EvaluationFailed(message: string)

  /** A shoot that matched the label selector, with what the CEL filter says of it. */
  datatype TargetShoot = TargetShoot(name: string, filter: FilterResult)

  /** Everything reconcileShootsNClusters reads after a successful reconcileManager. */
  datatype ShootsObs = ShootsObs(
    patchError: Option<string>,               // removing the reconcile annotation from the CareInstruction
    shoots: Reply<seq<TargetShoot>>,          // ListShoots
    authConfigMap: Reply<ConfigMap>,          // the authentication ConfigMap
    clusters: Reply<seq<Cluster>>,            // ListClusters
    annotateErrors: map<string, string>,      // failures to hand a Cluster's reconcile annotation to its Shoot
    lookup: map<string, Reply<Cluster>>)      // Clusters by name, for the ownership scan

  const COUNT_MISMATCH := "shoot count and cluster count do not match"
  const NOT_READY := "cluster is not ready"

  /** What the pass leaves in the status, and the error it returns. */
  datatype Aggregate = Aggregate(total: nat, created: nat, failed: nat, shoots: seq<ShootStatus>, error: Option<string>)

  // ---- Target shoots ----

  function Targets(o: ShootsObs): seq<TargetShoot> {
    if o.shoots.Got? then o.shoots.value else []
  }

  /** The listed Clusters; a NotFound reply counts as an empty list. */
  function Owned(o: ShootsObs): seq<Cluster> {
    if o.clusters.Got? then o.clusters.value else []
  }

  function Reason(f: FilterResult): string {
    if f.EvaluationFailed? then "CEL evaluation failed: " + f.message else "filtered out by CEL expression"
  }

  function Included(shoots: seq<TargetShoot>): seq<string> {
    if shoots == [] then []
    else
      var last := shoots[|shoots| - 1];
      Included(shoots[..|shoots| - 1]) + if last.filter.Matches? then [last.name] else []
  }

  function ExcludedShoots(shoots: seq<TargetShoot>): map<string, string> {
    if shoots == [] then map[]
    else
      var last := shoots[|shoots| - 1];
      var before := ExcludedShoots(shoots[..|shoots| - 1]);
      if last.filter.Matches? then before else before[last.name := Reason(last.filter)]
  }

  method SelectShoots(shoots: seq<TargetShoot>) returns (included: seq<string>, excluded: map<string, string>)
    ensures included == Included(shoots) && excluded == ExcludedShoots(shoots)
  {
    included, excluded := [], map[];
    for i := 0 to |shoots|
      invariant included == Included(shoots[..i]) && excluded == ExcludedShoots(shoots[..i])
    {
      assert shoots[..i + 1][..i] == shoots[..i];
      match shoots[i].filter {
        case EvaluationFailed(m) => excluded := excluded[shoots[i].name := "CEL evaluation failed: " + m];
        case FilteredOut => excluded := excluded[shoots[i].name := "filtered out by CEL expression"];
        case Matches => included := included + [shoots[i].name];
      }
    }
    assert shoots[..|shoots|] == shoots;
  }

  // ---- Owned Clusters ----

  function MatchedOwned(included: seq<string>, owned: set<string>): nat {
    if included == [] then 0
    else MatchedOwned(included[..|included| - 1], owned) + if included[|included| - 1] in owned then 1 else 0
  }

  method MatchClusters(included: seq<string>, clusters: seq<Cluster>) returns (owned: set<string>, matched: nat)
    ensures owned == OwnedNames(clusters) && matched == MatchedOwned(included, owned)
  {
    owned := {};
    for i := 0 to |clusters|
      invariant owned == OwnedNames(clusters[..i])
    {
      assert clusters[..i + 1][..i] == clusters[..i];
      owned := owned + {clusters[i].name};
    }
    assert clusters[..|clusters|] == clusters;
    matched := 0;
    for i := 0 to |included|
      invariant matched == MatchedOwned(included[..i], owned)
    {
      assert included[..i + 1][..i] == included[..i];
      if included[i] in owned {
        matched := matched + 1;
      }
    }
    assert included[..|included|] == included;
  }

  predicate AskedToReconcile(c: Cluster) {
    Lookup(c.annotations, RECONCILE_ANNOTATION) == "true"
  }

  /** The error of the last Cluster whose reconcile annotation could not be handed on. */
  function AnnotationError(clusters: seq<Cluster>, errors: map<string, string>): Option<string> {
    if clusters == [] then None
    else
      var last := clusters[|clusters| - 1];
      if AskedToReconcile(last) && last.name in errors then Some(errors[last.name])
      else AnnotationError(clusters[..|clusters| - 1], errors)
  }

  method HandleClusterAnnotations(clusters: seq<Cluster>, errors: map<string, string>) returns (retErr: Option<string>)
    ensures retErr == AnnotationError(clusters, errors)
  {
    retErr := None;
    for i := 0 to |clusters|
      invariant retErr == AnnotationError(clusters[..i], errors)
    {
      assert clusters[..i + 1][..i] == clusters[..i];
      if AskedToReconcile(clusters[i]) && clusters[i].name in errors {
        retErr := Some(errors[clusters[i].name]);
      }
    }
    assert clusters[..|clusters|] == clusters;
  }

  /** The Cluster at i asked for a reconcile that could not be handed on, and no later one did. */
  ghost predicate LastRefused(clusters: seq<Cluster>, errors: map<string, string>, i: nat) {
    && i < |clusters| && Refused(clusters[i], errors)
    && forall j :: i < j < |clusters| ==> !Refused(clusters[j], errors)
  }

  ghost predicate Refused(c: Cluster, errors: map<string, string>) {
    && "shoot-grafter.cloudoperators.dev/reconcile" in c.annotations
    && c.annotations["shoot-grafter.cloudoperators.dev/reconcile"] == "true"
    && c.name in errors
  }

  /** The error that remains is that of the last Cluster that met one. */
  lemma {:induction false} LastErrorRemains(clusters: seq<Cluster>, errors: map<string, string>)
    ensures match AnnotationError(clusters, errors)
      case None => forall c :: c in clusters ==> !Refused(c, errors)
      case Some(e) => exists i: nat :: LastRefused(clusters, errors, i) && e == errors[clusters[i].name]
  {
    if clusters != [] {
      var init, last := clusters[..|clusters| - 1], clusters[|clusters| - 1];
      assert clusters == init + [last];
      LastErrorRemains(init, errors);
      if Refused(last, errors) {
        assert LastRefused(clusters, errors, |clusters| - 1);
      } else if AnnotationError(init, errors).Some? {
        var i: nat :| LastRefused(init, errors, i) && AnnotationError(init, errors).value == errors[init[i].name];
        assert LastRefused(clusters, errors, i);
      }
    }
  }

  /** No error remains exactly when every requested annotation was handed on. */
  lemma {:induction false} AnnotationErrorIff(clusters: seq<Cluster>, errors: map<string, string>)
    ensures AnnotationError(clusters, errors).None? <==>
      forall c :: c in clusters && AskedToReconcile(c) ==> c.name !in errors
  {
    if clusters != [] {
      var init, last := clusters[..|clusters| - 1], clusters[|clusters| - 1];
      assert clusters == init + [last];
      AnnotationErrorIff(init, errors);
    }
  }

  // ---- Ownership conflicts ----

  datatype Scan = Scanned(conflicts: map<string, ConflictInfo>) | ScanFailed(error: string)

  function Find(lookup: map<string, Reply<Cluster>>, name: string): Reply<Cluster> {
    if name in lookup then lookup[name] else Missing
  }

  /** A Cluster that names another CareInstruction as its owner. */
  predicate OwnedByOther(c: Cluster, ciName: string) {
    CARE_INSTRUCTION_LABEL in c.labels && c.labels[CARE_INSTRUCTION_LABEL] != ciName
  }

  function ScanOne(before: map<string, ConflictInfo>, name: string, r: Reply<Cluster>, ciName: string): Scan {
    match r
    case Error(m) => ScanFailed(m)
    case Missing => Scanned(before)
    case Got(c) =>
      if OwnedByOther(c, ciName) then Scanned(before[name := ConflictInfo(c.labels[CARE_INSTRUCTION_LABEL], c.ready)])
      else Scanned(before)
  }

  function ScanConflicts(included: seq<string>, owned: set<string>, lookup: map<string, Reply<Cluster>>,
      ciName: string): Scan {
    if included == [] then Scanned(map[])
    else
      var last := included[|included| - 1];
      var before := ScanConflicts(included[..|included| - 1], owned, lookup, ciName);
      if before.ScanFailed? || last in owned then before
      else ScanOne(before.conflicts, last, Find(lookup, last), ciName)
  }

  lemma {:induction false} ScanFailureStays(included: seq<string>, i: nat, owned: set<string>,
      lookup: map<string, Reply<Cluster>>, ciName: string)
    requires i <= |included| && ScanConflicts(included[..i], owned, lookup, ciName).ScanFailed?
    ensures ScanConflicts(included, owned, lookup, ciName) == ScanConflicts(included[..i], owned, lookup, ciName)
    decreases |included|
  {
    if i < |included| {
      assert included[..|included| - 1][..i] == included[..i];
      ScanFailureStays(included[..|included| - 1], i, owned, lookup, ciName);
    } else {
      assert included[..i] == included;
    }
  }

  method FindConflicts(included: seq<string>, owned: set<string>, lookup: map<string, Reply<Cluster>>, ciName: string)
    returns (scan: Scan)
    ensures scan == ScanConflicts(included, owned, lookup, ciName)
  {
    var conflicts: map<string, ConflictInfo> := map[];
    for i := 0 to |included|
      invariant ScanConflicts(included[..i], owned, lookup, ciName) == Scanned(conflicts)
    {
      assert included[..i + 1][..i] == included[..i];
      if included[i] !in owned {
        var r := Find(lookup, included[i]);
        if r.Error? {
          ScanFailureStays(included, i + 1, owned, lookup, ciName);
          return ScanFailed(r.message);
        }
        if r.Got? && OwnedByOther(r.value, ciName) {
          conflicts := conflicts[included[i] := ConflictInfo(r.value.labels[CARE_INSTRUCTION_LABEL], r.value.ready)];
        }
      }
    }
    assert included[..|included|] == included;
    scan := Scanned(conflicts);
  }

  // ---- The whole aggregation ----

  ghost function CountsMatch(included: seq<string>, owned: set<string>): bool {
    |included| == MatchedOwned(included, owned)
  }

  /** The result once the three sources are known. */
  ghost function Report(total: nat, src: Sources, countsMatch: bool, retErr: Option<string>): Aggregate {
    var failed := |FailedNames(MergedMap(src))|;
    Aggregate(total, |src.owned|, failed, MergedList(src),
              if retErr.Some? then retErr
              else if !countsMatch then Some(COUNT_MISMATCH)
              else if failed > 0 then Some(NOT_READY)
              else None)
  }

  ghost function AggregateClusters(targets: seq<TargetShoot>, clusters: seq<Cluster>, o: ShootsObs,
      ciName: string): Aggregate {
    var included, owned := Included(targets), OwnedNames(clusters);
    var scan := if CountsMatch(included, owned) then Scanned(map[])
      else ScanConflicts(included, owned, o.lookup, ciName);
    if scan.ScanFailed? then Aggregate(|targets|, |clusters|, 0, [], Some(scan.error))
    else Report(|targets|, Sources(ExcludedShoots(targets), clusters, scan.conflicts),
                CountsMatch(included, owned), AnnotationError(clusters, o.annotateErrors))
  }

  ghost function AggregateSpec(o: ShootsObs, ciName: string): Aggregate {
    if o.clusters.Error? then Aggregate(|Targets(o)|, 0, 0, [], Some(o.clusters.message))
    else AggregateClusters(Targets(o), Owned(o), o, ciName)
  }

  /** From the shoot list to the end of reconcileShootsNClusters. */
  method AggregateStatus(o: ShootsObs, ciName: string) returns (a: Aggregate)
    ensures a == AggregateSpec(o, ciName)
  {
    var targets := if o.shoots.Got? then o.shoots.value else [];
    var included, excluded := SelectShoots(targets);
    if o.clusters.Error? {
      return Aggregate(|targets|, 0, 0, [], Some(o.clusters.message));
    }
    var clusters := if o.clusters.Got? then o.clusters.value else [];
    var owned, matched := MatchClusters(included, clusters);
    var retErr := HandleClusterAnnotations(clusters, o.annotateErrors);
    var countsMatch := |included| == matched;
    var conflicts: map<string, ConflictInfo> := map[];
    if !countsMatch {
      var scan := FindConflicts(included, owned, o.lookup, ciName);
      if scan.ScanFailed? {
        return Aggregate(|targets|, |clusters|, 0, [], Some(scan.error));
      }
      conflicts := scan.conflicts;
    }
    var statuses, failed := BuildShootStatuses(Sources(excluded, clusters, conflicts));
    var error := None;
    if retErr.Some? {
      error := retErr;
    } else if !countsMatch {
      error := Some(COUNT_MISMATCH);
    } else if failed > 0 {
      error := Some(NOT_READY);
    }
    a := Aggregate(|targets|, |clusters|, failed, statuses, error);
  }

  // ---- The count test ----

  lemma {:induction false} MatchedAtMost(included: seq<string>, owned: set<string>)
    ensures MatchedOwned(included, owned) <= |included|
  {
    if included != [] { MatchedAtMost(included[..|included| - 1], owned); }
  }

  /** The counts agree exactly when every included shoot has an owned Cluster. */
  lemma {:induction false} CountTest(included: seq<string>, owned: set<string>)
    ensures CountsMatch(included, owned) <==> forall n :: n in included ==> n in owned
  {
    if included != [] {
      var init, last := included[..|included| - 1], included[|included| - 1];
      CountTest(init, owned);
      MatchedAtMost(init, owned);
      assert included == init + [last];
    }
  }

  /** When the counts agree, the scan that is skipped could neither fail nor find a conflict. */
  lemma {:induction false} NoConflictLost(included: seq<string>, owned: set<string>,
      lookup: map<string, Reply<Cluster>>, ciName: string)
    requires CountsMatch(included, owned)
    ensures ScanConflicts(included, owned, lookup, ciName) == Scanned(map[])
  {
    CountTest(included, owned);
    if included != [] {
      var init := included[..|included| - 1];
      CountTest(init, owned);
      NoConflictLost(init, owned, lookup, ciName);
    }
  }

  /** The name is included and not owned, and looking up its Cluster fails. */
  ghost predicate Unreadable(n: string, owned: set<string>, lookup: map<string, Reply<Cluster>>) {
    n !in owned && n in lookup && lookup[n].Error?
  }

  ghost predicate FirstUnreadable(included: seq<string>, owned: set<string>,
      lookup: map<string, Reply<Cluster>>, i: nat)
    requires i < |included|
  {
    Unreadable(included[i], owned, lookup) && forall j :: 0 <= j < i ==> !Unreadable(included[j], owned, lookup)
  }

  /** The scan fails exactly if some lookup does, with the error of the first one that does. */
  lemma {:induction false} ScanFailsIff(included: seq<string>, owned: set<string>,
      lookup: map<string, Reply<Cluster>>, ciName: string)
    ensures match ScanConflicts(included, owned, lookup, ciName)
      case Scanned(_) => forall n :: n in included ==> !Unreadable(n, owned, lookup)
      case ScanFailed(e) =>
        exists i :: 0 <= i < |included|
                 && FirstUnreadable(included, owned, lookup, i) && e == lookup[included[i]].message
  {
    if included != [] {
      var init, last := included[..|included| - 1], included[|included| - 1];
      assert included == init + [last];
      ScanFailsIff(init, owned, lookup, ciName);
      var before := ScanConflicts(init, owned, lookup, ciName);
      if before.Scanned? && Unreadable(last, owned, lookup) {
        assert forall j :: 0 <= j < |init| ==> included[j] in init;
        assert FirstUnreadable(included, owned, lookup, |included| - 1);
      } else if before.ScanFailed? {
        var i :| 0 <= i < |init| && FirstUnreadable(init, owned, lookup, i) && before.error == lookup[init[i]].message;
        assert FirstUnreadable(included, owned, lookup, i);
      }
    }
  }

  /** What is recorded of a conflict: the owner its Cluster names, and whether that Cluster is ready. */
  lemma {:induction false} ConflictRecords(included: seq<string>, owned: set<string>,
      lookup: map<string, Reply<Cluster>>, ciName: string, n: string)
    requires ScanConflicts(included, owned, lookup, ciName).Scanned?
    requires n in ScanConflicts(included, owned, lookup, ciName).conflicts
    ensures n in lookup && lookup[n].Got? && CARE_INSTRUCTION_LABEL in lookup[n].value.labels
    ensures ScanConflicts(included, owned, lookup, ciName).conflicts[n] ==
      ConflictInfo(lookup[n].value.labels[CARE_INSTRUCTION_LABEL], lookup[n].value.ready)
  {
    var init, last := included[..|included| - 1], included[|included| - 1];
    var before := ScanConflicts(init, owned, lookup, ciName);
    if before.Scanned? && n in before.conflicts { ConflictRecords(init, owned, lookup, ciName, n); }
  }

  /** A conflict is an included shoot without an owned Cluster whose Cluster another CareInstruction owns. */
  lemma {:induction false} ConflictsAreForeign(included: seq<string>, owned: set<string>,
      lookup: map<string, Reply<Cluster>>, ciName: string)
    requires ScanConflicts(included, owned, lookup, ciName).Scanned?
    ensures forall n :: n in ScanConflicts(included, owned, lookup, ciName).conflicts <==>
      n in included && n !in owned && Find(lookup, n).Got? && OwnedByOther(Find(lookup, n).value, ciName)
  {
    if included != [] {
      var init, last := included[..|included| - 1], included[|included| - 1];
      assert included == init + [last];
      ConflictsAreForeign(init, owned, lookup, ciName);
    }
  }

  // ---- When ShootsReconciled becomes True ----

  lemma {:induction false} OwnedWinner(name: string, owned: seq<Cluster>)
    ensures forall s :: s in OwnedCandidates(name, owned) ==> s.status != Excluded
    ensures (exists s :: s in OwnedCandidates(name, owned) && s.status == Failed)
       <==> (exists c :: c in owned && c.name == name && !c.ready)
  {
    if owned != [] {
      var init, last := owned[..|owned| - 1], owned[|owned| - 1];
      assert owned == init + [last];
      OwnedWinner(name, init);
      var before, now := OwnedCandidates(name, init), OwnedCandidates(name, owned);
      if last.name == name {
        assert now == before + [OwnedStatus(last)];
        assert OwnedStatus(last) in now;
      }
    }
  }

  /** The winner among candidates that are not Excluded is Failed iff one of them is. */
  lemma {:induction false} FailedWinner(c: seq<ShootStatus>)
    requires c != [] && forall s :: s in c ==> s.status != Excluded
    ensures Winner(c).status == Failed <==> exists s :: s in c && s.status == Failed
  {
    var i := WinnerIsLastMaximum(c);
    assert c[i] in c;
  }

  /** Without conflicts, a name is Failed iff it is not excluded and one of its owned Clusters is not ready. */
  lemma {:induction false} FailedIff(n: string, src: Sources)
    requires src.conflicts == map[] && n in Names(src)
    ensures MergedMap(src)[n].status == Failed <==>
      n !in src.excluded && exists c :: c in src.owned && c.name == n && !c.ready
  {
    var cs := Candidates(n, src);
    CandidatesExist(n, src);
    if n in src.excluded {
      var i := WinnerIsLastMaximum(cs);
      assert cs[0].status == Excluded;
    } else {
      assert cs == OwnedCandidates(n, src.owned);
      OwnedWinner(n, src.owned);
      FailedWinner(cs);
    }
  }

  lemma {:induction false} OwnedNamesSpec(owned: seq<Cluster>)
    ensures forall c :: c in owned ==> c.name in OwnedNames(owned)
    ensures forall n :: n in OwnedNames(owned) ==> exists c :: c in owned && c.name == n
  {
    if owned != [] {
      var init, last := owned[..|owned| - 1], owned[|owned| - 1];
      assert owned == init + [last];
      OwnedNamesSpec(init);
    }
  }

  lemma NoneFailed(src: Sources)
    requires src.conflicts == map[]
    ensures |FailedNames(MergedMap(src))| == 0 <==>
      forall c :: c in src.owned && c.name !in src.excluded ==> c.ready
  {
    OwnedNamesSpec(src.owned);
    forall n | n in Names(src)
      ensures n in FailedNames(MergedMap(src)) <==>
        n !in src.excluded && exists c :: c in src.owned && c.name == n && !c.ready
    {
      FailedIff(n, src);
    }
    if forall c :: c in src.owned && c.name !in src.excluded ==> c.ready {
      assert FailedNames(MergedMap(src)) == {};
    } else {
      var c :| c in src.owned && c.name !in src.excluded && !c.ready;
      assert c.name in FailedNames(MergedMap(src));
    }
  }

  /** The three things that make an aggregation over listed Clusters succeed. */
  ghost predicate AllReconciled(targets: seq<TargetShoot>, clusters: seq<Cluster>, o: ShootsObs) {
    && (forall c :: c in clusters && AskedToReconcile(c) ==> c.name !in o.annotateErrors)
    && (forall n :: n in Included(targets) ==> n in OwnedNames(clusters))
    && (forall c :: c in clusters && c.name !in ExcludedShoots(targets) ==> c.ready)
  }

  /**
   The aggregation ends without an error exactly when the Clusters could be listed, every reconcile
   annotation was handed on, every included shoot has an owned Cluster, and every owned Cluster of a shoot
   that is not excluded is ready; the list is then the merge of two sources, without conflicts.
   */
  lemma ReconciledIff(o: ShootsObs, ciName: string)
    ensures AggregateSpec(o, ciName).error.None? <==> !o.clusters.Error? && AllReconciled(Targets(o), Owned(o), o)
    ensures AggregateSpec(o, ciName).error.None? ==>
      AggregateSpec(o, ciName).shoots == MergedList(Sources(ExcludedShoots(Targets(o)), Owned(o), map[]))
  {
    if !o.clusters.Error? {
      ClustersReconciledIff(Targets(o), Owned(o), o, ciName);
    }
  }

  lemma ClustersReconciledIff(targets: seq<TargetShoot>, clusters: seq<Cluster>, o: ShootsObs, ciName: string)
    ensures var a := AggregateClusters(targets, clusters, o, ciName);
      && (a.error.None? <==> AllReconciled(targets, clusters, o))
      && (a.error.None? ==> a.shoots == MergedList(Sources(ExcludedShoots(targets), clusters, map[])))
  {
    var included, owned := Included(targets), OwnedNames(clusters);
    AnnotationErrorIff(clusters, o.annotateErrors);
    CountTest(included, owned);
    var src := Sources(ExcludedShoots(targets), clusters, map[]);
    if CountsMatch(included, owned) {
      NoneFailed(src);
      assert AggregateClusters(targets, clusters, o, ciName)
          == Report(|targets|, src, true, AnnotationError(clusters, o.annotateErrors));
    }
  }

  lemma FailedCounted(total: nat, src: Sources, countsMatch: bool, retErr: Option<string>)
    ensures var a := Report(total, src, countsMatch, retErr); a.failed == |set s | s in a.shoots && s.status == Failed|
  {
    MergedListSpec(src);
  }

  /** The counters: target shoots, owned Clusters, and the Failed entries of the reported list. */
  lemma CountersSpec(o: ShootsObs, ciName: string)
    ensures var a := AggregateSpec(o, ciName);
      && a.total == |Targets(o)|
      && (!o.clusters.Error? ==> a.created == |Owned(o)|)
      && a.failed == |set s | s in a.shoots && s.status == Failed|
  {
    if !o.clusters.Error? {
      var included, owned := Included(Targets(o)), OwnedNames(Owned(o));
      var scan := if CountsMatch(included, owned) then Scanned(map[])
        else ScanConflicts(included, owned, o.lookup, ciName);
      if scan.Scanned? {
        FailedCounted(|Targets(o)|, Sources(ExcludedShoots(Targets(o)), Owned(o), scan.conflicts),
                      CountsMatch(included, owned), AnnotationError(Owned(o), o.annotateErrors));
      }
    }
  }

  // ---- Conservation ----

  /** Kubernetes gives no two objects of one kind and namespace the same name. */
  ghost predicate DistinctTargets(shoots: seq<TargetShoot>) {
    forall i, j :: 0 <= i < j < |shoots| ==> shoots[i].name != shoots[j].name
  }

  lemma {:induction false} SelectionSpec(shoots: seq<TargetShoot>)
    ensures forall n :: n in Included(shoots) <==> exists s :: s in shoots && s.name == n && s.filter.Matches?
    ensures forall n :: n in ExcludedShoots(shoots) <==> exists s :: s in shoots && s.name == n && !s.filter.Matches?
  {
    if shoots != [] {
      var init, last := shoots[..|shoots| - 1], shoots[|shoots| - 1];
      assert shoots == init + [last];
      SelectionSpec(init);
    }
  }

  /** Every target shoot is either included or excluded, and is counted once. */
  lemma {:induction false} TargetsConserved(shoots: seq<TargetShoot>)
    requires DistinctTargets(shoots)
    ensures |shoots| == |Included(shoots)| + |ExcludedShoots(shoots)|
    ensures forall n :: n in Included(shoots) ==> n !in ExcludedShoots(shoots)
  {
    if shoots != [] {
      var init, last := shoots[..|shoots| - 1], shoots[|shoots| - 1];
      assert shoots == init + [last];
      TargetsConserved(init);
      SelectionSpec(init);
      assert last.name !in Included(init) && last.name !in ExcludedShoots(init);
    }
  }

  /** Conflicts are disjoint from the owned Clusters and from the excluded shoots. */
  lemma ConflictsDisjoint(shoots: seq<TargetShoot>, owned: set<string>, lookup: map<string, Reply<Cluster>>,
      ciName: string)
    requires DistinctTargets(shoots)
    requires ScanConflicts(Included(shoots), owned, lookup, ciName).Scanned?
    ensures ScanConflicts(Included(shoots), owned, lookup, ciName).conflicts.Keys !! owned + ExcludedShoots(shoots).Keys
  {
    ConflictsAreForeign(Included(shoots), owned, lookup, ciName);
    TargetsConserved(shoots);
  }

  /** Exactly one entry of the list carries the name. */
  ghost predicate ReportedOnce(r: seq<ShootStatus>, name: string) {
    exists i :: 0 <= i < |r| && r[i].name == name && forall j :: 0 <= j < |r| && r[j].name == name ==> j == i
  }

  lemma NameReportedOnce(src: Sources, name: string)
    requires name in Names(src)
    ensures ReportedOnce(MergedList(src), name)
  {
    EntryNames(src);
    var r := MergedList(src);
    var i :| 0 <= i < |r| && r[i] == MergedMap(src)[name];
    forall j | 0 <= j < |r| && j != i ensures r[j].name != name {
      if i < j { StrictlySortedAt(r, NameOf, i, j); } else { StrictlySortedAt(r, NameOf, j, i); }
    }
  }

  /** After a pass without an error every target shoot stands exactly once in the reported list. */
  lemma TargetsReported(o: ShootsObs, ciName: string, s: TargetShoot)
    requires AggregateSpec(o, ciName).error.None? && s in Targets(o)
    ensures ReportedOnce(AggregateSpec(o, ciName).shoots, s.name)
  {
    ReconciledIff(o, ciName);
    SelectionSpec(Targets(o));
    NameReportedOnce(Sources(ExcludedShoots(Targets(o)), Owned(o), map[]), s.name);
  }

  // ---- The whole list, and the error, from what was read ----

  /** The reason of an excluded shoot, as its filter gives it. */
  lemma {:induction false} ExclusionReason(shoots: seq<TargetShoot>, s: TargetShoot)
    requires DistinctTargets(shoots) && s in shoots && !s.filter.Matches?
    ensures s.name in ExcludedShoots(shoots)
    ensures ExcludedShoots(shoots)[s.name] == ReasonOf(s.filter)
  {
    var init, last := shoots[..|shoots| - 1], shoots[|shoots| - 1];
    assert shoots == init + [last];
    if s != last {
      assert s in init;
      var i :| 0 <= i < |init| && init[i] == s;
      assert shoots[i] == s;
      ExclusionReason(init, s);
    }
  }

  ghost predicate IsOwned(o: ShootsObs, n: string) {
    exists c :: c in Owned(o) && c.name == n
  }

  /** A target that the filter rejects or cannot judge. */
  ghost predicate IsExcluded(o: ShootsObs, n: string) {
    exists t :: t in Targets(o) && t.name == n && !t.filter.Matches?
  }

  ghost predicate IsIncluded(o: ShootsObs, n: string) {
    exists t :: t in Targets(o) && t.name == n && t.filter.Matches?
  }

  /** The Cluster of that name carries the label of another CareInstruction. */
  ghost predicate IsForeign(o: ShootsObs, ciName: string, n: string) {
    && n in o.lookup && o.lookup[n].Got?
    && CARE_INSTRUCTION_LABEL in o.lookup[n].value.labels
    && o.lookup[n].value.labels[CARE_INSTRUCTION_LABEL] != ciName
  }

  ghost function ReasonOf(f: FilterResult): string {
    if f.EvaluationFailed? then "CEL evaluation failed: " + f.message else "filtered out by CEL expression"
  }

  /** An excluded target: listed with the reason. */
  ghost predicate ExcludedEntryOf(o: ShootsObs, s: ShootStatus) {
    exists t :: t in Targets(o) && !t.filter.Matches? && s == ShootStatus(t.name, Excluded, ReasonOf(t.filter))
  }

  /** An owned Cluster of a shoot that is not excluded: Failed with its message if one of that name is not ready. */
  ghost predicate OwnedEntryOf(o: ShootsObs, s: ShootStatus) {
    && IsOwned(o, s.name) && !IsExcluded(o, s.name)
    && match LastUnready(s.name, Owned(o))
      case Some(c) => s.status == Failed && s.message == c.readyMessage
      case None => s.status == Onboarded && s.message == ""
  }

  /** An included shoot whose Cluster is another's: Onboarded if that is ready, naming the owner. */
  ghost predicate ForeignEntryOf(o: ShootsObs, ciName: string, s: ShootStatus) {
    && IsIncluded(o, s.name) && !IsOwned(o, s.name) && IsForeign(o, ciName, s.name)
    && s.status == (if o.lookup[s.name].value.ready then Onboarded else Failed)
    && var owner := o.lookup[s.name].value.labels[CARE_INSTRUCTION_LABEL];
    s.message == "Cluster managed by different CareInstruction: " + owner
  }

  /** Looking up the Cluster of an included shoot without an owned one fails. */
  ghost predicate LookupFails(o: ShootsObs, n: string) {
    IsIncluded(o, n) && !IsOwned(o, n) && n in o.lookup && o.lookup[n].Error?
  }

  /** No lookup of the ownership scan fails. */
  ghost predicate ScanReads(o: ShootsObs) {
    forall n :: !LookupFails(o, n)
  }

  /** The sources of the list: the conflicts are the included, unowned names with a foreign Cluster. */
  ghost predicate SourcesOf(src: Sources, o: ShootsObs, ciName: string) {
    && src.excluded == ExcludedShoots(Targets(o)) && src.owned == Owned(o)
    && (forall n :: n in src.conflicts <==> IsIncluded(o, n) && !IsOwned(o, n) && IsForeign(o, ciName, n))
    && (forall n :: n in src.conflicts ==>
          src.conflicts[n] == ConflictInfo(o.lookup[n].value.labels[CARE_INSTRUCTION_LABEL], o.lookup[n].value.ready))
  }

  lemma NamesOf(o: ShootsObs)
    ensures forall n :: n in Included(Targets(o)) <==> IsIncluded(o, n)
    ensures forall n :: n in ExcludedShoots(Targets(o)) <==> IsExcluded(o, n)
    ensures forall n :: n in OwnedNames(Owned(o)) <==> IsOwned(o, n)
  {
    SelectionSpec(Targets(o));
    OwnedNamesSpec(Owned(o));
  }

  lemma ScanSucceeds(o: ShootsObs, ciName: string)
    requires ScanReads(o)
    ensures ScanConflicts(Included(Targets(o)), OwnedNames(Owned(o)), o.lookup, ciName).Scanned?
  {
    var included, owned := Included(Targets(o)), OwnedNames(Owned(o));
    NamesOf(o);
    ScanFailsIff(included, owned, o.lookup, ciName);
    forall n | n in included ensures !Unreadable(n, owned, o.lookup) { assert !LookupFails(o, n); }
  }

  /** The list of a pass that can read everything is the merge of these sources. */
  lemma ListSources(o: ShootsObs, ciName: string) returns (src: Sources)
    requires !o.clusters.Error? && ScanReads(o)
    ensures SourcesOf(src, o, ciName) && AggregateSpec(o, ciName).shoots == MergedList(src)
  {
    var included, owned := Included(Targets(o)), OwnedNames(Owned(o));
    NamesOf(o);
    CountTest(included, owned);
    ScanSucceeds(o, ciName);
    var scan := if CountsMatch(included, owned) then Scanned(map[])
      else ScanConflicts(included, owned, o.lookup, ciName);
    src := Sources(ExcludedShoots(Targets(o)), Owned(o), scan.conflicts);
    if !CountsMatch(included, owned) {
      ConflictsAreForeign(included, owned, o.lookup, ciName);
      forall n | n in scan.conflicts
        ensures scan.conflicts[n] ==
          ConflictInfo(o.lookup[n].value.labels[CARE_INSTRUCTION_LABEL], o.lookup[n].value.ready)
      {
        ConflictRecords(included, owned, o.lookup, ciName, n);
      }
    }
  }

  /** A name of the sources belongs to exactly one of the three kinds, and its entry is of that kind. */
  lemma EntryOfSource(o: ShootsObs, ciName: string, src: Sources, s: ShootStatus)
    requires DistinctTargets(Targets(o)) && SourcesOf(src, o, ciName)
    ensures s.name in Names(src) && s == Expected(s.name, src) <==>
      ExcludedEntryOf(o, s) || OwnedEntryOf(o, s) || ForeignEntryOf(o, ciName, s)
  {
    NamesOf(o);
    TargetsConserved(Targets(o));
    var n := s.name;
    OwnedEntry(n, Owned(o));
    if IsExcluded(o, n) {
      var t :| t in Targets(o) && t.name == n && !t.filter.Matches?;
      ExclusionReason(Targets(o), t);
      if ExcludedEntryOf(o, s) {
        var t' :| t' in Targets(o) && !t'.filter.Matches? && s == ShootStatus(t'.name, Excluded, ReasonOf(t'.filter));
        ExclusionReason(Targets(o), t');
      }
      assert n !in Included(Targets(o));
    }
  }

  /**
   With everything readable, the list of the status holds exactly these entries: the excluded targets with the
   reason, the owned Clusters of the others with their state, and the included shoots whose Cluster belongs to
   another CareInstruction, with the state of that Cluster and the name of its owner.
   */
  lemma ListedIff(o: ShootsObs, ciName: string, s: ShootStatus)
    requires DistinctTargets(Targets(o)) && !o.clusters.Error? && ScanReads(o)
    ensures s in AggregateSpec(o, ciName).shoots <==>
      ExcludedEntryOf(o, s) || OwnedEntryOf(o, s) || ForeignEntryOf(o, ciName, s)
  {
    var src := ListSources(o, ciName);
    EntryOfSource(o, ciName, src, s);
    if s.name in Names(src) { EntryIs(s.name, src); }
  }

  lemma LookupError(o: ShootsObs, ciName: string)
    requires !o.clusters.Error? && !ScanReads(o)
    ensures exists n :: LookupFails(o, n) && AggregateSpec(o, ciName).error == Some(o.lookup[n].message)
    ensures AggregateSpec(o, ciName).shoots == []
  {
    var included, owned := Included(Targets(o)), OwnedNames(Owned(o));
    NamesOf(o);
    CountTest(included, owned);
    ScanFailsIff(included, owned, o.lookup, ciName);
    var n :| LookupFails(o, n);
    assert n in included && Unreadable(n, owned, o.lookup);
    var e := ScanConflicts(included, owned, o.lookup, ciName).error;
    var i :| 0 <= i < |included| && FirstUnreadable(included, owned, o.lookup, i) && e == o.lookup[included[i]].message;
    assert LookupFails(o, included[i]);
  }

  /** The error of a pass that reads everything is decided by annotations, counts and failures, in this order. */
  lemma ReadError(o: ShootsObs, ciName: string)
    requires !o.clusters.Error? && ScanReads(o)
    ensures AggregateSpec(o, ciName).error ==
      if AnnotationError(Owned(o), o.annotateErrors).Some? then AnnotationError(Owned(o), o.annotateErrors)
      else if exists n :: IsIncluded(o, n) && !IsOwned(o, n) then Some("shoot count and cluster count do not match")
      else if AggregateSpec(o, ciName).failed > 0 then Some("cluster is not ready")
      else None
  {
    NamesOf(o);
    CountTest(Included(Targets(o)), OwnedNames(Owned(o)));
    ScanSucceeds(o, ciName);
  }

  lemma SomeFailed(o: ShootsObs, ciName: string)
    ensures AggregateSpec(o, ciName).failed > 0 <==>
      exists s :: s in AggregateSpec(o, ciName).shoots && s.status == Failed
  {
    CountersSpec(o, ciName);
    var failed := set s | s in AggregateSpec(o, ciName).shoots && s.status == Failed;
    assert |failed| == 0 <==> failed == {};
    if s :| s in AggregateSpec(o, ciName).shoots && s.status == Failed { assert s in failed; }
  }

  /**
   The error of the aggregation: of listing the Clusters, else of a lookup that fails, else of the last
   annotation that could not be handed on, else a missing Cluster, else an entry that is Failed, else none. In the
   first two cases no shoot is listed.
   */
  lemma ErrorIs(o: ShootsObs, ciName: string)
    ensures var e := AggregateSpec(o, ciName).error;
      if o.clusters.Error? then e == Some(o.clusters.message) && AggregateSpec(o, ciName).shoots == []
      else if !ScanReads(o) then
        (exists n :: LookupFails(o, n) && e == Some(o.lookup[n].message)) && AggregateSpec(o, ciName).shoots == []
      else if exists c :: c in Owned(o) && Refused(c, o.annotateErrors) then
        exists i: nat :: LastRefused(Owned(o), o.annotateErrors, i) && e == Some(o.annotateErrors[Owned(o)[i].name])
      else if exists n :: IsIncluded(o, n) && !IsOwned(o, n) then
        e == Some("shoot count and cluster count do not match")
      else if exists s :: s in AggregateSpec(o, ciName).shoots && s.status == Failed then
        e == Some("cluster is not ready")
      else e == None
  {
    if !o.clusters.Error? {
      if ScanReads(o) {
        ReadError(o, ciName);
        LastErrorRemains(Owned(o), o.annotateErrors);
        SomeFailed(o, ciName);
      } else {
        LookupError(o, ciName);
      }
    }
  }
}
