/**
 Merging the excluded shoots, the owned Clusters and the ownership conflicts of one CareInstruction
 into one status entry per shoot name.
 */
module ShootStatuses {
  import opened Api
  import opened Strings

  datatype ConflictInfo = ConflictInfo(owner: string, ready: bool)

  /** Precedence of a status when several sources report the same shoot. */
  function Rank(s: ShootState): nat {
    match s
    case Excluded => 2
    case Failed => 1
    case Onboarded => 0
  }

  function NameOf(s: ShootStatus): string { s.name }

  function ExcludedStatus(name: string, reason: string): ShootStatus {
    ShootStatus(name, Excluded, reason)
  }

  function OwnedStatus(c: Cluster): ShootStatus {
    if c.ready then ShootStatus(c.name, Onboarded, "") else ShootStatus(c.name, Failed, c.readyMessage)
  }

  function ConflictStatus(name: string, c: ConflictInfo): ShootStatus {
    ShootStatus(name, if c.ready then Onboarded else Failed,
                "Cluster managed by different CareInstruction: " + c.owner)
  }

  // ---- What is reported for a name: the last of the highest-ranked sources ----

  /** The three sources: excluded shoots with the reason, owned Clusters, ownership conflicts. */
  datatype Sources = Sources(excluded: map<string, string>, owned: seq<Cluster>, conflicts: map<string, ConflictInfo>)

  ghost function OwnedNames(owned: seq<Cluster>): set<string> {
    if owned == [] then {} else OwnedNames(owned[..|owned| - 1]) + {owned[|owned| - 1].name}
  }

  /** Every shoot name some source reports. */
  ghost function Names(src: Sources): set<string> {
    src.excluded.Keys + OwnedNames(src.owned) + src.conflicts.Keys
  }

  /** What the owned Clusters of that name say, in list order. */
  ghost function OwnedCandidates(name: string, owned: seq<Cluster>): seq<ShootStatus> {
    if owned == [] then []
    else
      var last := owned[|owned| - 1];
      OwnedCandidates(name, owned[..|owned| - 1]) + if last.name == name then [OwnedStatus(last)] else []
  }

  /** Everything the sources say about one name, in the order in which they are consulted. */
  ghost function Candidates(name: string, src: Sources): seq<ShootStatus> {
    (if name in src.excluded then [ExcludedStatus(name, src.excluded[name])] else [])
    + OwnedCandidates(name, src.owned)
    + (if name in src.conflicts then [ConflictStatus(name, src.conflicts[name])] else [])
  }

  ghost function Prefer(current: ShootStatus, next: ShootStatus): ShootStatus {
    if Rank(current.status) > Rank(next.status) then current else next
  }

  ghost function Winner(c: seq<ShootStatus>): ShootStatus {
    if c == [] then ShootStatus("", Onboarded, "")
    else if |c| == 1 then c[0]
    else Prefer(Winner(c[..|c| - 1]), c[|c| - 1])
  }

  /** The merged result: one entry per reported name. */
  ghost function MergedMap(src: Sources): map<string, ShootStatus> {
    map n | n in Names(src) :: Winner(Candidates(n, src))
  }

  /** At position i stands a maximum of the ranks, and nothing after it equals it. */
  ghost predicate LastMaximum(c: seq<ShootStatus>, i: nat) {
    && i < |c|
    && (forall j :: 0 <= j < |c| ==> Rank(c[j].status) <= Rank(c[i].status))
    && (forall j :: i < j < |c| ==> Rank(c[j].status) < Rank(c[i].status))
  }

  lemma {:induction false} WinnerIsLastMaximum(c: seq<ShootStatus>) returns (i: nat)
    requires c != []
    ensures LastMaximum(c, i) && Winner(c) == c[i]
  {
    if |c| == 1 {
      i := 0;
    } else {
      i := WinnerIsLastMaximum(c[..|c| - 1]);
      i := if Rank(c[i].status) > Rank(c[|c| - 1].status) then i else |c| - 1;
    }
  }

  lemma {:induction false} OwnedCandidatesExist(name: string, owned: seq<Cluster>)
    ensures OwnedCandidates(name, owned) != [] <==> name in OwnedNames(owned)
    ensures forall s :: s in OwnedCandidates(name, owned) ==> s.name == name
  {
    if owned != [] {
      OwnedCandidatesExist(name, owned[..|owned| - 1]);
    }
  }

  lemma {:induction false} CandidatesExist(name: string, src: Sources)
    ensures Candidates(name, src) != [] <==> name in Names(src)
    ensures forall s :: s in Candidates(name, src) ==> s.name == name
  {
    OwnedCandidatesExist(name, src.owned);
  }

  lemma EntryNames(src: Sources)
    ensures forall n :: n in MergedMap(src) ==> MergedMap(src)[n].name == n
  {
    forall n | n in MergedMap(src) ensures MergedMap(src)[n].name == n {
      CandidatesExist(n, src);
      var i := WinnerIsLastMaximum(Candidates(n, src));
      assert Candidates(n, src)[i] in Candidates(n, src);
    }
  }

  // ---- One source entry more ----

  /** The setStatus closure: an entry stays only if it outranks the new one. */
  function SetStatus(byName: map<string, ShootStatus>, s: ShootStatus): map<string, ShootStatus> {
    if s.name in byName && Rank(byName[s.name].status) > Rank(s.status) then byName else byName[s.name := s]
  }

  lemma SetStatusIs(m: map<string, ShootStatus>, m': map<string, ShootStatus>, s: ShootStatus)
    requires m'.Keys == m.Keys + {s.name}
    requires forall n :: n in m && n != s.name ==> m'[n] == m[n]
    requires m'[s.name] == if s.name in m then Prefer(m[s.name], s) else s
    ensures m' == SetStatus(m, s)
  {
  }

  lemma WinnerAppend(c: seq<ShootStatus>, s: ShootStatus)
    ensures Winner(c + [s]) == if c == [] then s else Prefer(Winner(c), s)
  {
    assert (c + [s])[..|c|] == c;
  }

  /** Adding one candidate at the end for one name is what SetStatus does to the merged result. */
  lemma {:induction false} SetStatusMerges(src: Sources, src': Sources, s: ShootStatus)
    requires Names(src') == Names(src) + {s.name}
    requires Candidates(s.name, src') == Candidates(s.name, src) + [s]
    requires forall n :: n != s.name ==> Candidates(n, src') == Candidates(n, src)
    ensures MergedMap(src') == SetStatus(MergedMap(src), s)
  {
    CandidatesExist(s.name, src);
    WinnerAppend(Candidates(s.name, src), s);
    SetStatusIs(MergedMap(src), MergedMap(src'), s);
  }

  lemma ExcludedMerges(src: Sources, name: string, reason: string)
    requires src.owned == [] && src.conflicts == map[] && name !in src.excluded
    ensures MergedMap(src.(excluded := src.excluded[name := reason]))
         == SetStatus(MergedMap(src), ExcludedStatus(name, reason))
  {
    SetStatusMerges(src, src.(excluded := src.excluded[name := reason]), ExcludedStatus(name, reason));
  }

  lemma OwnedMerges(src: Sources, c: Cluster)
    requires src.conflicts == map[]
    ensures MergedMap(src.(owned := src.owned + [c])) == SetStatus(MergedMap(src), OwnedStatus(c))
  {
    assert (src.owned + [c])[..|src.owned|] == src.owned;
    SetStatusMerges(src, src.(owned := src.owned + [c]), OwnedStatus(c));
  }

  lemma ConflictMerges(src: Sources, name: string, info: ConflictInfo)
    requires name !in src.conflicts
    ensures MergedMap(src.(conflicts := src.conflicts[name := info]))
         == SetStatus(MergedMap(src), ConflictStatus(name, info))
  {
    SetStatusMerges(src, src.(conflicts := src.conflicts[name := info]), ConflictStatus(name, info));
  }

  // ---- The merge itself ----

  /** The list and the map hold the same entries. */
  ghost predicate SameEntries(statuses: seq<ShootStatus>, byName: map<string, ShootStatus>) {
    forall s :: s in statuses <==> s.name in byName && byName[s.name] == s
  }

  ghost predicate IsListOf(statuses: seq<ShootStatus>, byName: map<string, ShootStatus>) {
    StrictlySorted(statuses, NameOf) && SameEntries(statuses, byName)
  }

  ghost function FailedNames(byName: map<string, ShootStatus>): set<string> {
    set n | n in byName && byName[n].status == Failed
  }

  /** An iteration over a map: the entries visited so far, and the keys still to come. */
  ghost predicate Visiting<V>(m: map<string, V>, remaining: set<string>, done: map<string, V>) {
    && (forall n :: n in remaining ==> n in m && n !in done)
    && (forall n :: n in m ==> n in remaining || n in done)
    && (forall n :: n in done ==> n in m && done[n] == m[n])
  }

  lemma VisitNext<V>(m: map<string, V>, remaining: set<string>, done: map<string, V>, name: string)
    requires Visiting(m, remaining, done) && name in remaining
    ensures Visiting(m, remaining - {name}, done[name := m[name]])
    ensures |remaining - {name}| < |remaining|
  {
  }

  lemma Visited<V>(m: map<string, V>, done: map<string, V>)
    requires Visiting(m, {}, done)
    ensures done == m
  {
  }

  lemma InsertIntoList(byName: map<string, ShootStatus>, s: ShootStatus, rest: seq<ShootStatus>)
    requires IsListOf(rest, byName) && s.name !in byName
    ensures IsListOf(InsertBy(s, rest, NameOf), byName[s.name := s])
  {
    var r := InsertBy(s, rest, NameOf);
    InsertByKeepsOrder(s, rest, NameOf);
    InsertByElements(s, rest, NameOf);
    forall x ensures x in r <==> x == s || x in rest {
      assert x in Elements(r) <==> x in Elements(rest) + {s};
    }
  }

  /** The sorted list of the map's entries; ListIsUnique says there is no other. */
  ghost function ListOf(byName: map<string, ShootStatus>): (r: seq<ShootStatus>)
    requires forall n :: n in byName ==> byName[n].name == n
    ensures IsListOf(r, byName)
    decreases |byName|
  {
    if byName == map[] then []
    else
      var n :| n in byName;
      var rest := ListOf(byName - {n});
      assert (byName - {n})[n := byName[n]] == byName;
      InsertIntoList(byName - {n}, byName[n], rest);
      InsertBy(byName[n], rest, NameOf)
  }

  /** The merged list of shoot statuses. */
  ghost function MergedList(src: Sources): (r: seq<ShootStatus>)
    ensures IsListOf(r, MergedMap(src))
  {
    EntryNames(src);
    ListOf(MergedMap(src))
  }

  method MergeExcluded(excluded: map<string, string>) returns (byName: map<string, ShootStatus>)
    ensures byName == MergedMap(Sources(excluded, [], map[]))
  {
    byName := map[];
    ghost var done: map<string, string> := map[];
    var remaining := excluded.Keys;
    while remaining != {}
      invariant Visiting(excluded, remaining, done)
      invariant byName == MergedMap(Sources(done, [], map[]))
      decreases |remaining|
    {
      var name :| name in remaining;
      VisitNext(excluded, remaining, done, name);
      ExcludedMerges(Sources(done, [], map[]), name, excluded[name]);
      byName := SetStatus(byName, ExcludedStatus(name, excluded[name]));
      done := done[name := excluded[name]];
      remaining := remaining - {name};
    }
    Visited(excluded, done);
  }

  method MergeOwned(start: map<string, ShootStatus>, excluded: map<string, string>, owned: seq<Cluster>)
    returns (byName: map<string, ShootStatus>)
    requires start == MergedMap(Sources(excluded, [], map[]))
    ensures byName == MergedMap(Sources(excluded, owned, map[]))
  {
    byName := start;
    for i := 0 to |owned|
      invariant byName == MergedMap(Sources(excluded, owned[..i], map[]))
    {
      OwnedMerges(Sources(excluded, owned[..i], map[]), owned[i]);
      assert owned[..i + 1] == owned[..i] + [owned[i]];
      byName := SetStatus(byName, OwnedStatus(owned[i]));
    }
    assert owned[..|owned|] == owned;
  }

  method MergeConflicts(start: map<string, ShootStatus>, src: Sources) returns (byName: map<string, ShootStatus>)
    requires start == MergedMap(src.(conflicts := map[]))
    ensures byName == MergedMap(src)
  {
    byName := start;
    ghost var done: map<string, ConflictInfo> := map[];
    var remaining := src.conflicts.Keys;
    while remaining != {}
      invariant Visiting(src.conflicts, remaining, done)
      invariant byName == MergedMap(src.(conflicts := done))
      decreases |remaining|
    {
      var name :| name in remaining;
      VisitNext(src.conflicts, remaining, done, name);
      ConflictMerges(src.(conflicts := done), name, src.conflicts[name]);
      byName := SetStatus(byName, ConflictStatus(name, src.conflicts[name]));
      done := done[name := src.conflicts[name]];
      remaining := remaining - {name};
    }
    Visited(src.conflicts, done);
  }

  /**
   buildShootStatuses. The maps are iterated in any order (each key is picked arbitrarily from those
   left), and the result is the sorted list of one fixed merged map for all of them.
   */
  method BuildShootStatuses(src: Sources) returns (statuses: seq<ShootStatus>, failed: nat)
    ensures statuses == MergedList(src)
    ensures failed == |FailedNames(MergedMap(src))|
  {
    var byName := MergeExcluded(src.excluded);
    byName := MergeOwned(byName, src.excluded, src.owned);
    byName := MergeConflicts(byName, src);
    EntryNames(src);
    statuses, failed := Collect(byName);
    ListIsUnique(statuses, MergedList(src), byName);
  }

  /** The last loop: append the map's values in any order, count the failed ones, sort by name. */
  method Collect(byName: map<string, ShootStatus>) returns (statuses: seq<ShootStatus>, failed: nat)
    requires forall n :: n in byName ==> byName[n].name == n
    ensures IsListOf(statuses, byName)
    ensures failed == |FailedNames(byName)|
  {
    statuses, failed := [], 0;
    ghost var done: map<string, ShootStatus> := map[];
    var remaining := byName.Keys;
    while remaining != {}
      invariant Visiting(byName, remaining, done)
      invariant DistinctKeys(statuses, NameOf) && SameEntries(statuses, done)
      invariant failed == |FailedNames(done)|
      decreases |remaining|
    {
      var name :| name in remaining;
      VisitNext(byName, remaining, done, name);
      CollectOne(statuses, done, byName[name]);
      FailedOne(done, byName[name]);
      statuses := statuses + [byName[name]];
      if byName[name].status == Failed {
        failed := failed + 1;
      }
      done := done[name := byName[name]];
      remaining := remaining - {name};
    }
    Visited(byName, done);
    SortedList(statuses, byName);
    statuses := SortBy(statuses, NameOf);
  }

  lemma SortedList(statuses: seq<ShootStatus>, byName: map<string, ShootStatus>)
    requires DistinctKeys(statuses, NameOf) && SameEntries(statuses, byName)
    ensures IsListOf(SortBy(statuses, NameOf), byName)
  {
    SortByOrders(statuses, NameOf);
    forall s ensures s in SortBy(statuses, NameOf) <==> s in statuses {
      assert s in Elements(SortBy(statuses, NameOf)) <==> s in Elements(statuses);
    }
  }

  lemma {:induction false} CollectOne(statuses: seq<ShootStatus>, done: map<string, ShootStatus>, s: ShootStatus)
    requires s.name !in done
    requires DistinctKeys(statuses, NameOf) && SameEntries(statuses, done)
    ensures DistinctKeys(statuses + [s], NameOf)
    ensures SameEntries(statuses + [s], done[s.name := s])
  {
    AppendDistinct(statuses, s);
  }

  lemma FailedOne(done: map<string, ShootStatus>, s: ShootStatus)
    requires s.name !in done
    ensures |FailedNames(done[s.name := s])| == |FailedNames(done)| + if s.status == Failed then 1 else 0
  {
    assert FailedNames(done[s.name := s]) == FailedNames(done) + if s.status == Failed then {s.name} else {};
  }

  lemma {:induction false} AppendDistinct(s: seq<ShootStatus>, x: ShootStatus)
    requires DistinctKeys(s, NameOf)
    requires forall y :: y in s ==> y.name != x.name
    ensures DistinctKeys(s + [x], NameOf)
  {
    if s != [] {
      AppendDistinct(s[1..], x);
      assert (s + [x])[1..] == s[1..] + [x];
    }
  }

  // ---- What the merged list says ----

  /** One fixed result: two lists of the same merged map, built in whatever order, are equal. */
  lemma ListIsUnique(a: seq<ShootStatus>, b: seq<ShootStatus>, byName: map<string, ShootStatus>)
    requires IsListOf(a, byName) && IsListOf(b, byName)
    ensures a == b
  {
    assert forall s :: s in Elements(a) <==> s in Elements(b);
    StrictlySortedUnique(a, b, NameOf);
  }

  /** Some candidate for that name is the last of its highest-ranked ones and is this entry. */
  ghost predicate IsLastMaximum(s: ShootStatus, c: seq<ShootStatus>) {
    exists i: nat :: LastMaximum(c, i) && c[i] == s
  }

  /**
   The list is strictly sorted by name, names exactly the shoots some source reports, each of them
   once, gives it the status of its last highest-ranked source, and holds as many Failed entries as
   are counted.
   */
  lemma MergedListSpec(src: Sources)
    ensures var r := MergedList(src);
      && (forall i, j :: 0 <= i < j < |r| ==> LexLess(r[i].name, r[j].name))
      && (set s | s in r :: s.name) == Names(src)
      && (forall s :: s in r ==> IsLastMaximum(s, Candidates(s.name, src)))
      && |FailedNames(MergedMap(src))| == |set s | s in r && s.status == Failed|
  {
    var r := MergedList(src);
    forall i, j | 0 <= i < j < |r| ensures LexLess(r[i].name, r[j].name) {
      StrictlySortedAt(r, NameOf, i, j);
    }
    EntryNames(src);
    forall n | n in Names(src) ensures n in (set s | s in r :: s.name) {
      assert MergedMap(src)[n] in r;
    }
    forall s | s in r ensures IsLastMaximum(s, Candidates(s.name, src)) {
      EntryIsLastMaximum(s.name, src);
    }
    FailedCount(r, MergedMap(src));
  }

  lemma EntryIsLastMaximum(n: string, src: Sources)
    requires n in Names(src)
    ensures IsLastMaximum(MergedMap(src)[n], Candidates(n, src))
  {
    CandidatesExist(n, src);
    var i := WinnerIsLastMaximum(Candidates(n, src));
  }

  lemma FailedCount(statuses: seq<ShootStatus>, byName: map<string, ShootStatus>)
    requires IsListOf(statuses, byName)
    requires forall n :: n in byName ==> byName[n].name == n
    ensures |FailedNames(byName)| == |set s | s in statuses && s.status == Failed|
  {
    var entries := set s | s in statuses && s.status == Failed;
    assert (set s | s in entries :: s.name) == FailedNames(byName);
    SameSize(entries);
  }

  lemma {:induction false} SameSize(entries: set<ShootStatus>)
    requires forall s, t :: s in entries && t in entries && s.name == t.name ==> s == t
    ensures |set s | s in entries :: s.name| == |entries|
  {
    if entries != {} {
      var x :| x in entries;
      SameSize(entries - {x});
      assert (set s | s in entries :: s.name) == (set s | s in entries - {x} :: s.name) + {x.name};
    }
  }

  // ---- What the entry of a name is ----

  /** The last of the Clusters of that name that are not ready. */
  ghost function LastUnready(name: string, owned: seq<Cluster>): Option<Cluster> {
    if owned == [] then None
    else
      var last := owned[|owned| - 1];
      if last.name == name && !last.ready then Some(last) else LastUnready(name, owned[..|owned| - 1])
  }

  /**
   The entry of a name without ranks: an exclusion comes first, then whatever is not ready, a conflict before an
   owned Cluster, then a conflict with a Cluster that is ready, and a ready Cluster of its own last.
   */
  ghost function Expected(name: string, src: Sources): ShootStatus {
    var unready := LastUnready(name, src.owned);
    if name in src.excluded then ShootStatus(name, Excluded, src.excluded[name])
    else if name in src.conflicts && (!src.conflicts[name].ready || unready.None?) then
      ShootStatus(name, if src.conflicts[name].ready then Onboarded else Failed,
                  "Cluster managed by different CareInstruction: " + src.conflicts[name].owner)
    else if unready.Some? then ShootStatus(name, Failed, unready.value.readyMessage)
    else ShootStatus(name, Onboarded, "")
  }

  lemma {:induction false} OwnedEntry(name: string, owned: seq<Cluster>)
    ensures name in OwnedNames(owned) ==>
      Winner(OwnedCandidates(name, owned)) == Expected(name, Sources(map[], owned, map[]))
    ensures name !in OwnedNames(owned) ==> LastUnready(name, owned).None?
    ensures forall s :: s in OwnedCandidates(name, owned) ==> s.status != Excluded
  {
    if owned != [] {
      var init, last := owned[..|owned| - 1], owned[|owned| - 1];
      OwnedEntry(name, init);
      OwnedCandidatesExist(name, init);
      var before := OwnedCandidates(name, init);
      if last.name == name {
        assert OwnedCandidates(name, owned) == before + [OwnedStatus(last)];
        WinnerAppend(before, OwnedStatus(last));
      } else {
        assert OwnedCandidates(name, owned) == before;
      }
    }
  }

  lemma {:induction false} ExcludedEntry(name: string, src: Sources)
    requires name in src.excluded
    ensures Winner(Candidates(name, src)) == Expected(name, src)
  {
    var cs := Candidates(name, src);
    OwnedEntry(name, src.owned);
    var i := WinnerIsLastMaximum(cs);
    assert cs[0] == Expected(name, src) && cs[0].status == Excluded;
    forall j | 0 < j < |cs| ensures cs[j].status != Excluded {
      assert j <= |OwnedCandidates(name, src.owned)| ==> cs[j] in OwnedCandidates(name, src.owned);
    }
  }

  /** What the merge reports for every name. */
  lemma {:induction false} EntryIs(name: string, src: Sources)
    requires name in Names(src)
    ensures MergedMap(src)[name] == Expected(name, src)
  {
    OwnedEntry(name, src.owned);
    OwnedCandidatesExist(name, src.owned);
    if name in src.excluded {
      ExcludedEntry(name, src);
    } else if name in src.conflicts {
      var conflict := ConflictStatus(name, src.conflicts[name]);
      assert Candidates(name, src) == OwnedCandidates(name, src.owned) + [conflict];
      WinnerAppend(OwnedCandidates(name, src.owned), conflict);
    } else {
      assert Candidates(name, src) == OwnedCandidates(name, src.owned);
    }
  }
}
