/**
 Several shoot controllers working in one Greenhouse namespace. The owner of a shoot is recorded in a label
 of its Secret, which Greenhouse copies to the Cluster; a controller steps back from a Cluster of another.
 */
module Ownership {
  import opened Api
  import opened Secrets
  import opened ShootController

  /** The Secrets of the namespace, and the labels of its Clusters, by shoot name. */
  datatype Namespace = Namespace(secrets: map<string, Secret>, clusters: map<string, map<string, string>>)

  /** Why the Secret could not be written: somebody else has just changed it, or any other error. */
  datatype WriteFault = Conflict | Refused(message: string)

  /** What one reconcile reads, and which of its calls fail. */
  datatype ShootObs = ShootObs(
    clusterError: Option<string>,
    shoot: Reply<Shoot>,
    deleteError: Option<string>,
    ca: Reply<string>,
    writeError: Option<WriteFault>)

  function OwnerOf(labels: map<string, string>): Option<string> {
    if CARE_INSTRUCTION_LABEL in labels then Some(labels[CARE_INSTRUCTION_LABEL]) else None
  }

  function ClusterOwner(g: Namespace, n: string): Option<string> {
    if n in g.clusters then OwnerOf(g.clusters[n]) else None
  }

  function SecretOwner(g: Namespace, n: string): Option<string> {
    if n in g.secrets then OwnerOf(g.secrets[n].labels) else None
  }

  function StoredSecret(g: Namespace, n: string): Option<Secret> {
    if n in g.secrets then Some(g.secrets[n]) else None
  }

  /** The Cluster exists and names another CareInstruction. */
  predicate Blocked(g: Namespace, c: Controller, n: string) {
    ClusterOwner(g, n).Some? && ClusterOwner(g, n).value != c.name
  }

  /** The reconcile reaches the Secret and writes it. */
  predicate Writes(o: ShootObs) {
    && o.shoot.Got? && ApiServerURL(o.shoot.value.advertisedAddresses) != ""
    && o.ca.Got? && o.ca.value != ""
    && o.writeError.None?
  }

  /** ShootController.Reconcile on Secrets and Clusters. */
  ghost function Reconcile(g: Namespace, c: Controller, n: string, o: ShootObs): Namespace {
    if o.clusterError.Some? || Blocked(g, c, n) then g
    else if o.shoot.Missing? then
      if ClusterOwner(g, n) == Some(c.name) && o.deleteError.None? then g.(clusters := g.clusters - {n}) else g
    else if Writes(o) then
      g.(secrets := g.secrets[n :=
        CreateOrUpdate(c.keys, StoredSecret(g, n), DesiredFor(c, o.shoot.value, o.ca.value))])
    else g
  }

  /** How a reconcile ends: for good, with a request to come back, or with an error. */
  datatype Answer = Finished | RequeueAfter(seconds: nat) | Failing(error: string)

  function ErrorOrFinished(e: Option<string>): Answer {
    if e.Some? then Failing(e.value) else Finished
  }

  /** A Secret that another writer has just changed is no error: the reconcile comes back in five seconds. */
  function WriteAnswer(e: Option<WriteFault>): Answer {
    match e
    case None => Finished
    case Some(Conflict) => RequeueAfter(5)
    case Some(Refused(m)) => Failing(m)
  }

  function ReconcileAnswer(g: Namespace, c: Controller, n: string, o: ShootObs): Answer {
    if o.clusterError.Some? then Failing(o.clusterError.value)
    else if Blocked(g, c, n) then Finished
    else match o.shoot
      case Error(m) => Failing(m)
      case Missing => if ClusterOwner(g, n) == Some(c.name) then ErrorOrFinished(o.deleteError) else Finished
      case Got(shoot) =>
        if ApiServerURL(shoot.advertisedAddresses) == "" then Finished
        else if o.ca.Error? then Failing(o.ca.message)
        else if o.ca.Missing? then Failing(NO_CA_CONFIG_MAP)
        else if o.ca.value == "" then Finished
        else WriteAnswer(o.writeError)
  }

  const NO_CA_CONFIG_MAP := "CA ConfigMap not found"

  /** The Cluster exists and carries that owner label. */
  ghost predicate OwnedBy(g: Namespace, n: string, owner: string) {
    && n in g.clusters && "shoot-grafter.cloudoperators.dev/careinstruction" in g.clusters[n]
    && g.clusters[n]["shoot-grafter.cloudoperators.dev/careinstruction"] == owner
  }

  ghost predicate OwnedByAnother(g: Namespace, n: string, owner: string) {
    && n in g.clusters && "shoot-grafter.cloudoperators.dev/careinstruction" in g.clusters[n]
    && g.clusters[n]["shoot-grafter.cloudoperators.dev/careinstruction"] != owner
  }

  /**
   All a reconcile does: it deletes the Cluster iff that is its own and the shoot is missing, and it brings the
   Secret in line with the shoot unless the Cluster is another's.
   */
  lemma ReconcileEffect(g: Namespace, c: Controller, n: string, o: ShootObs)
    ensures var g' := Reconcile(g, c, n, o);
      && g'.clusters == (if OwnedBy(g, n, c.name) && o.clusterError.None? && o.shoot.Missing? && o.deleteError.None?
                         then g.clusters - {n} else g.clusters)
      && (forall m :: m != n ==> StoredSecret(g', m) == StoredSecret(g, m))
      && StoredSecret(g', n) ==
           if && o.clusterError.None? && !OwnedByAnother(g, n, c.name)
              && o.shoot.Got? && o.ca.Got? && o.writeError.None?
           then ReconcileSecret(c, StoredSecret(g, n), o.shoot.value, o.ca.value)
           else StoredSecret(g, n)
  {
  }

  /** The reconcile gets as far as writing the Secret. */
  ghost predicate ReachesSecret(g: Namespace, c: Controller, n: string, o: ShootObs) {
    && o.clusterError.None? && !OwnedByAnother(g, n, c.name)
    && o.shoot.Got? && ApiServerURL(o.shoot.value.advertisedAddresses) != "" && o.ca.Got? && o.ca.value != ""
  }

  /**
   A reconcile comes back after five seconds iff its write met a conflict. It ends for good iff no call it makes
   fails: a read, the deletion of its own Cluster for a missing shoot, the CA of a shoot with a URL, the write.
   Otherwise it returns the error of the first call that fails.
   */
  lemma AnswerIff(g: Namespace, c: Controller, n: string, o: ShootObs)
    ensures var answer := ReconcileAnswer(g, c, n, o);
      && (answer.RequeueAfter? <==> ReachesSecret(g, c, n, o) && o.writeError == Some(Conflict))
      && (answer.RequeueAfter? ==> answer.seconds == 5)
      && (answer == Finished <==>
            && o.clusterError.None?
            && (OwnedByAnother(g, n, c.name) ||
                match o.shoot
                case Error(_) => false
                case Missing => OwnedBy(g, n, c.name) ==> o.deleteError.None?
                case Got(shoot) => ApiServerURL(shoot.advertisedAddresses) != "" ==>
                  o.ca.Got? && (o.ca.value != "" ==> o.writeError.None?)))
      && (answer.Failing? ==>
            answer.error == (if o.clusterError.Some? then o.clusterError.value
              else match o.shoot
                case Error(m) => m
                case Missing => o.deleteError.value
                case Got(_) => if o.ca.Error? then o.ca.message else if o.ca.Missing? then NO_CA_CONFIG_MAP
                  else o.writeError.value.message))
  {
  }

  /** Greenhouse copies the owner label of a Secret to its Cluster, creating the Cluster if need be. */
  function Propagate(g: Namespace, n: string): Namespace {
    if SecretOwner(g, n).None? then g
    else
      var labels := if n in g.clusters then g.clusters[n] else map[];
      g.(clusters := g.clusters[n := labels[CARE_INSTRUCTION_LABEL := SecretOwner(g, n).value]])
  }

  /** Somebody else rewrites a Secret, leaving the owner label as it is. */
  function ForeignWrite(g: Namespace, n: string, s: Secret): Namespace {
    if n in g.secrets && OwnerOf(s.labels) == OwnerOf(g.secrets[n].labels) then g.(secrets := g.secrets[n := s]) else g
  }

  datatype Step =
    | ByController(c: Controller, n: string, o: ShootObs)
    | ByGreenhouse(n: string)
    | ByOthers(n: string, s: Secret)

  ghost function Next(g: Namespace, s: Step): Namespace {
    match s
    case ByController(c, n, o) => Reconcile(g, c, n, o)
    case ByGreenhouse(n) => Propagate(g, n)
    case ByOthers(n, secret) => ForeignWrite(g, n, secret)
  }

  ghost function Run(g: Namespace, steps: seq<Step>): Namespace
    decreases |steps|
  {
    if steps == [] then g else Run(Next(g, steps[0]), steps[1..])
  }

  /** The ownership label is not among the labels copied from shoots. */
  ghost predicate KeepsOwnLabel(c: Controller) {
    forall labels :: CARE_INSTRUCTION_LABEL !in c.copyLabels(labels, c.spec.propagateLabels)
  }

  ghost predicate Proper(steps: seq<Step>) {
    forall i :: 0 <= i < |steps| && steps[i].ByController? ==> KeepsOwnLabel(steps[i].c)
  }

  /** A Cluster labelled c has its Secret labelled c. */
  ghost predicate Consistent(g: Namespace) {
    forall n :: n in g.clusters && OwnerOf(g.clusters[n]).Some? ==> SecretOwner(g, n) == OwnerOf(g.clusters[n])
  }

  // ---- The reconcile in place ----

  class Greenhouse {
    var secrets: map<string, Secret>
    var clusters: map<string, map<string, string>>

    ghost function View(): Namespace
      reads this
    {
      Namespace(secrets, clusters)
    }

    /** ShootController.Reconcile up to and including the Secret. */
    method ReconcileShoot(c: Controller, n: string, o: ShootObs) returns (answer: Answer)
      modifies this
      ensures View() == Reconcile(old(View()), c, n, o)
      ensures answer == ReconcileAnswer(old(View()), c, n, o)
    {
      if o.clusterError.Some? {
        return Failing(o.clusterError.value);
      }
      var owner := if n in clusters then OwnerOf(clusters[n]) else None;
      if owner.Some? && owner.value != c.name {
        return Finished;
      }
      if o.shoot.Missing? {
        if owner == Some(c.name) {
          if o.deleteError.Some? {
            return Failing(o.deleteError.value);
          }
          clusters := clusters - {n};
        }
        return Finished;
      }
      if o.shoot.Error? {
        return Failing(o.shoot.message);
      }
      var shoot := o.shoot.value;
      var url := FindApiServerURL(shoot.advertisedAddresses);
      if url == "" {
        return Finished;
      }
      var labels, toPropagate := BuildLabels(c);
      if !o.ca.Got? {
        return Failing(if o.ca.Error? then o.ca.message else NO_CA_CONFIG_MAP);
      }
      if o.ca.value == "" {
        return Finished;
      }
      if o.writeError.Some? {
        return if o.writeError.value.Conflict? then RequeueAfter(5) else Failing(o.writeError.value.message);
      }
      WriteSecret(c, n, shoot, o.ca.value, url, labels, toPropagate);
      answer := Finished;
    }

    method WriteSecret(c: Controller, n: string, shoot: Shoot, ca: string, url: string, labels: map<string, string>,
        toPropagate: seq<string>)
      requires url == ApiServerURL(shoot.advertisedAddresses) && labels == SecretLabels(c)
        && toPropagate == LabelKeysToPropagate(c)
      modifies this
      ensures clusters == old(clusters)
      ensures secrets == old(secrets)[n :=
        CreateOrUpdate(c.keys, old(StoredSecret(View(), n)), DesiredFor(c, shoot, ca))]
    {
      var d := Desired(c.spec.additionalAnnotations, Strings.Join(toPropagate), url, shoot.spec.workers == 0,
                       labels, c.copyLabels(shoot.labels, c.spec.propagateLabels), ca);
      var wanted := new StringMap(SecretAnnotations(c.keys, d));
      var target := wanted;
      var stored := Built(c.keys, d);
      if n in secrets {
        stored := secrets[n];
        target := new StringMap(stored.annotations);
      }
      MutateInPlace(c.keys, target, wanted, d);
      secrets := secrets[n := Secret(target.m, stored.labels + d.labels + d.copied, stored.data[CA_CRT := d.ca])];
    }
  }

  // ---- Ownership over runs ----

  lemma WrittenOwner(c: Controller, existing: Option<Secret>, shoot: Shoot, ca: string)
    requires KeepsOwnLabel(c)
    ensures OwnerOf(CreateOrUpdate(c.keys, existing, DesiredFor(c, shoot, ca)).labels) == Some(c.name)
  {
  }

  lemma ReconcileOwner(g: Namespace, c: Controller, n: string, o: ShootObs)
    requires KeepsOwnLabel(c)
    ensures Reconcile(g, c, n, o) != g && !o.shoot.Missing? ==> SecretOwner(Reconcile(g, c, n, o), n) == Some(c.name)
  {
    if Writes(o) { WrittenOwner(c, StoredSecret(g, n), o.shoot.value, o.ca.value); }
  }

  lemma NextConsistent(g: Namespace, s: Step)
    requires Consistent(g) && (s.ByController? ==> KeepsOwnLabel(s.c))
    ensures Consistent(Next(g, s))
  {
    if s.ByController? { ReconcileOwner(g, s.c, s.n, s.o); }
  }

  /** In every run a Cluster labelled c has its Secret labelled c. */
  lemma {:induction false} RunConsistent(g: Namespace, steps: seq<Step>)
    requires Consistent(g) && Proper(steps)
    ensures Consistent(Run(g, steps))
    decreases |steps|
  {
    if steps != [] {
      NextConsistent(g, steps[0]);
      RunConsistent(Next(g, steps[0]), steps[1..]);
    }
  }

  /** The step is one of Greenhouse, or of a controller other than the owner, or rewrites another Secret. */
  ghost predicate NotBy(s: Step, owner: string, n: string) {
    match s
    case ByController(c, _, _) => c.name != owner
    case ByGreenhouse(_) => true
    case ByOthers(m, _) => m != n
  }

  /** Nobody but the owner changes the Secret of an owned Cluster or deletes the Cluster. */
  lemma OthersStepBack(g: Namespace, s: Step, owner: string, n: string)
    requires Consistent(g) && ClusterOwner(g, n) == Some(owner) && NotBy(s, owner, n)
    ensures var g' := Next(g, s);
      StoredSecret(g', n) == StoredSecret(g, n) && n in g'.clusters && g'.clusters[n] == g.clusters[n]
  {
    if s == ByGreenhouse(n) {
      assert g.clusters[n][CARE_INSTRUCTION_LABEL := owner] == g.clusters[n];
    }
  }

  /** Over every run of the other controllers and Greenhouse, an owned Cluster and its Secret stay as they are. */
  lemma {:induction false} OwnerKeepsShoot(g: Namespace, steps: seq<Step>, owner: string, n: string)
    requires Consistent(g) && Proper(steps) && ClusterOwner(g, n) == Some(owner)
    requires forall i :: 0 <= i < |steps| ==> NotBy(steps[i], owner, n)
    ensures var g' := Run(g, steps);
      StoredSecret(g', n) == StoredSecret(g, n) && n in g'.clusters && g'.clusters[n] == g.clusters[n]
    decreases |steps|
  {
    if steps != [] {
      NextConsistent(g, steps[0]);
      OthersStepBack(g, steps[0], owner, n);
      OwnerKeepsShoot(Next(g, steps[0]), steps[1..], owner, n);
    }
  }

  // ---- Moving a shoot ----

  /** A user relabels the Secret. */
  function Relabel(g: Namespace, n: string, owner: string): Namespace
    requires n in g.secrets
  {
    g.(secrets := g.secrets[n := g.secrets[n].(labels := g.secrets[n].labels[CARE_INSTRUCTION_LABEL := owner])])
  }

  /** The old owner finds the shoot gone and deletes the Cluster. */
  ghost predicate Frees(s: Step, n: string, from: string) {
    s.ByController? && s.n == n && s.c.name == from && s.o.clusterError.None? && s.o.shoot.Missing?
      && s.o.deleteError.None?
  }

  ghost predicate Freed(steps: seq<Step>, n: string, from: string) {
    exists i :: 0 <= i < |steps| && Frees(steps[i], n, from)
  }

  /** A reconcile that writes the Secret unless the Cluster is another's. */
  ghost predicate WouldWrite(s: Step, n: string) {
    s.ByController? && s.n == n && s.o.clusterError.None? && Writes(s.o)
  }

  /** The i-th step writes the Secret: it comes from the old owner, or the old owner has deleted the Cluster before. */
  ghost predicate Takes(steps: seq<Step>, i: nat, n: string, from: string)
    requires i < |steps|
  {
    WouldWrite(steps[i], n) && (steps[i].c.name == from || Freed(steps[..i], n, from))
  }

  ghost predicate LastTake(steps: seq<Step>, i: nat, n: string, from: string)
    requires i < |steps|
  {
    Takes(steps, i, n, from) && forall j :: i < j < |steps| ==> !Takes(steps, j, n, from)
  }

  /** Whom the Secret names after the steps. */
  ghost function Latest(steps: seq<Step>, n: string, from: string, to: string): string {
    if steps == [] then to
    else
      var last := |steps| - 1;
      if Takes(steps, last, n, from) then steps[last].c.name else Latest(steps[..last], n, from, to)
  }

  lemma {:induction false} LatestSpec(steps: seq<Step>, n: string, from: string, to: string)
    ensures forall i :: 0 <= i < |steps| && LastTake(steps, i, n, from) ==>
      Latest(steps, n, from, to) == steps[i].c.name
    ensures Latest(steps, n, from, to) == to || exists i :: 0 <= i < |steps| && LastTake(steps, i, n, from)
  {
    if steps != [] {
      var last := |steps| - 1;
      var init := steps[..last];
      if Takes(steps, last, n, from) {
        assert LastTake(steps, last, n, from);
      } else {
        LatestSpec(init, n, from, to);
        assert forall i {:trigger init[..i]} {:trigger steps[..i]} :: 0 <= i < last ==> init[..i] == steps[..i];
        assert forall i :: 0 <= i < last ==> (Takes(init, i, n, from) <==> Takes(steps, i, n, from));
        assert forall i :: 0 <= i < last ==> (LastTake(init, i, n, from) <==> LastTake(steps, i, n, from));
      }
    }
  }

  lemma {:induction false} RunSnoc(g: Namespace, steps: seq<Step>)
    requires steps != []
    ensures Run(g, steps) == Next(Run(g, steps[..|steps| - 1]), steps[|steps| - 1])
    decreases |steps|
  {
    if |steps| > 1 {
      RunSnoc(Next(g, steps[0]), steps[1..]);
      assert steps[1..][..|steps| - 2] == steps[..|steps| - 1][1..];
    }
  }

  /** One step, from a Cluster that is gone or names the old owner, and a Secret that names its holder. */
  lemma MoveStep(g: Namespace, s: Step, n: string, from: string, gone: bool, holder: string)
    requires if gone then n !in g.clusters else ClusterOwner(g, n) == Some(from)
    requires SecretOwner(g, n) == Some(holder) && s != ByGreenhouse(n) && (s.ByController? ==> KeepsOwnLabel(s.c))
    ensures var g' := Next(g, s);
      && (if gone || Frees(s, n, from) then n !in g'.clusters else ClusterOwner(g', n) == Some(from))
      && SecretOwner(g', n) == Some(if WouldWrite(s, n) && (s.c.name == from || gone) then s.c.name else holder)
  {
    if WouldWrite(s, n) { WrittenOwner(s.c, StoredSecret(g, n), s.o.shoot.value, s.o.ca.value); }
  }

  /** Before the copying the Cluster names the old owner until it is freed, and the Secret the latest taker. */
  lemma {:induction false} MoveUnderway(g: Namespace, steps: seq<Step>, n: string, from: string, to: string)
    requires ClusterOwner(g, n) == Some(from) && SecretOwner(g, n) == Some(to)
    requires Proper(steps) && ByGreenhouse(n) !in steps
    ensures var g' := Run(g, steps);
      && (if Freed(steps, n, from) then n !in g'.clusters else ClusterOwner(g', n) == Some(from))
      && SecretOwner(g', n) == Some(Latest(steps, n, from, to))
    decreases |steps|
  {
    if steps != [] {
      var last := |steps| - 1;
      var init := steps[..last];
      MoveUnderway(g, init, n, from, to);
      RunSnoc(g, steps);
      assert forall i :: 0 <= i < last ==> steps[i] == init[i];
      assert Freed(steps, n, from) <==> Freed(init, n, from) || Frees(steps[last], n, from);
      MoveStep(Run(g, init), steps[last], n, from, Freed(init, n, from), Latest(init, n, from, to));
    }
  }

  /**
   Whatever run of controllers and other writers falls between the relabelling of a Secret and the copying of
   its label, the move survives exactly when the last reconcile that could write the Secret, if any, is the new
   owner's. Only the old owner could, or anybody once the old owner has deleted the Cluster of a missing shoot.
   */
  lemma MoveSurvivesIff(g: Namespace, steps: seq<Step>, n: string, from: string, to: string)
    requires n in g.secrets && ClusterOwner(g, n) == Some(from)
    requires Proper(steps) && ByGreenhouse(n) !in steps
    ensures ClusterOwner(Propagate(Run(Relabel(g, n, to), steps), n), n) == Some(to) <==>
      forall i :: 0 <= i < |steps| && LastTake(steps, i, n, from) ==> steps[i].c.name == to
  {
    MoveUnderway(Relabel(g, n, to), steps, n, from, to);
    LatestSpec(steps, n, from, to);
  }

  /** No reconcile of the shoot is the old owner's. */
  ghost predicate WithoutOwner(steps: seq<Step>, n: string, from: string) {
    forall i :: 0 <= i < |steps| ==> !(steps[i].ByController? && steps[i].n == n && steps[i].c.name == from)
  }

  lemma {:induction false} NobodyTakes(steps: seq<Step>, n: string, from: string, to: string)
    requires WithoutOwner(steps, n, from)
    ensures !Freed(steps, n, from) && Latest(steps, n, from, to) == to
  {
    if steps != [] {
      var last := |steps| - 1;
      assert forall i :: 0 <= i < last ==> steps[..last][i] == steps[i];
      NobodyTakes(steps[..last], n, from, to);
    }
  }

  /** As long as the old owner does not reconcile the shoot, no run disturbs the move. */
  lemma MoveUndisturbed(g: Namespace, steps: seq<Step>, n: string, from: string, to: string)
    requires n in g.secrets && ClusterOwner(g, n) == Some(from)
    requires Proper(steps) && ByGreenhouse(n) !in steps
    requires WithoutOwner(steps, n, from)
    ensures var g' := Run(Relabel(g, n, to), steps);
      && ClusterOwner(g', n) == Some(from) && SecretOwner(g', n) == Some(to)
      && ClusterOwner(Propagate(g', n), n) == Some(to)
  {
    MoveUnderway(Relabel(g, n, to), steps, n, from, to);
    NobodyTakes(steps, n, from, to);
  }

  /** The old owner deletes the Cluster of a missing shoot, and whoever writes the Secret next gets the shoot. */
  lemma MoveTaken(g: Namespace, n: string, from: string, to: string, delete: Step, write: Step)
    requires n in g.secrets && ClusterOwner(g, n) == Some(from) && Frees(delete, n, from)
    requires WouldWrite(write, n)
    requires Proper([delete, write])
    ensures ClusterOwner(Propagate(Run(Relabel(g, n, to), [delete, write]), n), n) == Some(write.c.name)
  {
    var steps := [delete, write];
    MoveUnderway(Relabel(g, n, to), steps, n, from, to);
    LatestSpec(steps, n, from, to);
    assert Frees(steps[..1][0], n, from);
    assert LastTake(steps, 1, n, from);
  }
}
