/**
 The gauge vectors. A series of the count gauges is named by CareInstruction, namespace and garden
 namespace; a series of the onboarded gauge by these and the shoot name.
 */
module Metrics {
  import opened Api
  import opened Aggregation
  import opened ShootStatuses
  import opened Strings

  datatype Series = Series(careInstruction: string, namespace: string, gardenNamespace: string)

  type OnboardedGauge = map<(Series, string), nat>

  function GaugeValue(s: ShootState): nat {
    if s.Onboarded? then 1 else 0
  }

  function SetOnboarded(gauge: OnboardedGauge, series: Series, shoots: seq<ShootStatus>): OnboardedGauge {
    if shoots == [] then gauge
    else
      var last := shoots[|shoots| - 1];
      SetOnboarded(gauge, series, shoots[..|shoots| - 1])[(series, last.name) := GaugeValue(last.status)]
  }

  /** No two entries of the status list carry the same name. */
  ghost predicate DistinctNames(shoots: seq<ShootStatus>) {
    forall i, j :: 0 <= i < j < |shoots| ==> shoots[i].name != shoots[j].name
  }

  ghost predicate Listed(shoots: seq<ShootStatus>, name: string) {
    exists i :: 0 <= i < |shoots| && shoots[i].name == name
  }

  /**
   After an update each listed shoot's gauge is 1 if its status is Onboarded and else 0, and the gauges of unlisted
   shoots and of other series are as before.
   */
  lemma {:induction false} OnboardedSpec(gauge: OnboardedGauge, series: Series, shoots: seq<ShootStatus>)
    requires DistinctNames(shoots)
    ensures var g := SetOnboarded(gauge, series, shoots);
      && (forall i :: 0 <= i < |shoots| ==>
            && (series, shoots[i].name) in g
            && g[(series, shoots[i].name)] == (if shoots[i].status == Onboarded then 1 else 0))
      && (forall other: Series, name :: other != series || !Listed(shoots, name) ==>
            && ((other, name) in g <==> (other, name) in gauge)
            && ((other, name) in gauge ==> g[(other, name)] == gauge[(other, name)]))
  {
    if shoots != [] {
      var init, last := shoots[..|shoots| - 1], shoots[|shoots| - 1];
      OnboardedSpec(gauge, series, init);
      forall name | !Listed(shoots, name) ensures !Listed(init, name) && name != last.name {
        assert forall i :: 0 <= i < |init| ==> init[i] == shoots[i];
      }
      assert forall i :: 0 <= i < |init| ==> init[i].name == shoots[i].name != last.name;
    }
  }

  /** What a pass reports never names a shoot twice. */
  lemma AggregateNamesDistinct(o: ShootsObs, ciName: string)
    ensures DistinctNames(AggregateSpec(o, ciName).shoots)
  {
    var r := AggregateSpec(o, ciName).shoots;
    if r != [] {
      assert StrictlySorted(r, NameOf);
      forall i, j | 0 <= i < j < |r| ensures r[i].name != r[j].name {
        StrictlySortedAt(r, NameOf, i, j);
      }
    }
  }

  class Gauges {
    var totalTargetShoots: map<Series, nat>
    var createdClusters: map<Series, nat>
    var failedClusters: map<Series, nat>
    var onboarded: OnboardedGauge

    constructor ()
      ensures totalTargetShoots == map[] && createdClusters == map[] && failedClusters == map[] && onboarded == map[]
    {
      totalTargetShoots, createdClusters, failedClusters, onboarded := map[], map[], map[], map[];
    }

    /** UpdateCareInstructionMetrics */
    method Update(series: Series, total: nat, created: nat, failed: nat, shoots: seq<ShootStatus>)
      modifies this
      ensures totalTargetShoots == old(totalTargetShoots)[series := total]
      ensures createdClusters == old(createdClusters)[series := created]
      ensures failedClusters == old(failedClusters)[series := failed]
      ensures onboarded == SetOnboarded(old(onboarded), series, shoots)
    {
      totalTargetShoots := totalTargetShoots[series := total];
      createdClusters := createdClusters[series := created];
      failedClusters := failedClusters[series := failed];
      for i := 0 to |shoots|
        invariant totalTargetShoots == old(totalTargetShoots)[series := total]
        invariant createdClusters == old(createdClusters)[series := created]
        invariant failedClusters == old(failedClusters)[series := failed]
        invariant onboarded == SetOnboarded(old(onboarded), series, shoots[..i])
      {
        assert shoots[..i + 1][..i] == shoots[..i];
        if shoots[i].status == Onboarded {
          onboarded := onboarded[(series, shoots[i].name) := 1];
        } else {
          onboarded := onboarded[(series, shoots[i].name) := 0];
        }
      }
      assert shoots[..|shoots|] == shoots;
    }
  }
}
