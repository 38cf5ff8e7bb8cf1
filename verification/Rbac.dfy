/**
 The ClusterRoleBinding on a shoot cluster. Its RoleRef is immutable: the API server rejects an update that
 changes it, so a wrong one has to be deleted and created anew.
 */
module Rbac {
  import opened Api

  datatype RoleRef = RoleRef(apiGroup: string, kind: string, name: string)

  datatype Subject = Subject(kind: string, apiGroup: string, name: string)

  datatype Binding = Binding(roleRef: RoleRef, subjects: seq<Subject>, metadata: string)

  const RBAC_GROUP := "rbac.authorization.k8s.io"
  const DESIRED_ROLE_REF := RoleRef(RBAC_GROUP, "ClusterRole", "cluster-admin")

  /** The Greenhouse service account of the organisation for that shoot. */
  function DesiredSubject(org: string, shootName: string): Subject {
    Subject("User", RBAC_GROUP, "greenhouse:system:serviceaccount:" + org + ":" + shootName)
  }

  /** A request that reaches the API server. */
  datatype Request = DeleteBinding | CreateBinding(created: Binding) | UpdateBinding(before: Binding, after: Binding)

  /** Which calls fail: the first Get, the deletion, and the Get and the write inside CreateOrUpdate. */
  datatype Faults = Faults(get: bool, delete: bool, getAgain: bool, write: bool)

  const NO_FAULTS := Faults(false, false, false, false)

  datatype Result = Result(binding: Option<Binding>, requests: seq<Request>)

  /** The API server refuses to change an existing RoleRef. */
  predicate Accepted(r: Request) {
    r.UpdateBinding? ==> r.after.roleRef == r.before.roleRef
  }

  /** CreateOrUpdate: get, then create, or write only what differs. */
  function Write(b: Option<Binding>, subject: Subject, f: Faults): Result {
    if f.getAgain then Result(b, [])
    else match b
      case None =>
        var wanted := Binding(DESIRED_ROLE_REF, [subject], "");
        Result(if f.write then None else Some(wanted), [CreateBinding(wanted)])
      case Some(x) =>
        var wanted := x.(roleRef := DESIRED_ROLE_REF, subjects := [subject]);
        if wanted == x then Result(b, []) else Result(if f.write then b else Some(wanted), [UpdateBinding(x, wanted)])
  }

  /** SetRBAC */
  function SetRBAC(b: Option<Binding>, subject: Subject, f: Faults): Result {
    if f.get then Result(b, [])
    else if b.Some? && b.value.roleRef != DESIRED_ROLE_REF then
      if f.delete then Result(b, [DeleteBinding])
      else
        var w := Write(None, subject, f);
        Result(w.binding, [DeleteBinding] + w.requests)
    else Write(b, subject, f)
  }

  /** The shoot cluster's API server, which logs the requests and enforces the immutable RoleRef. */
  class ShootCluster {
    var binding: Option<Binding>
    var requests: seq<Request>

    method Delete(fails: bool)
      modifies this
      ensures binding == if fails then old(binding) else None
      ensures requests == old(requests) + [DeleteBinding]
    {
      requests := requests + [DeleteBinding];
      if !fails { binding := None; }
    }

    method Create(b: Binding, fails: bool)
      requires binding.None?
      modifies this
      ensures binding == if fails then None else Some(b)
      ensures requests == old(requests) + [CreateBinding(b)]
    {
      requests := requests + [CreateBinding(b)];
      if !fails { binding := Some(b); }
    }

    method Update(b: Binding, fails: bool)
      requires binding.Some?
      modifies this
      ensures requests == old(requests) + [UpdateBinding(old(binding.value), b)]
      ensures binding == if fails || b.roleRef != old(binding.value.roleRef) then old(binding) else Some(b)
    {
      requests := requests + [UpdateBinding(binding.value, b)];
      if !fails && b.roleRef == binding.value.roleRef { binding := Some(b); }
    }

    /** SetRBAC in the organisation's name for that shoot. */
    method EnsureRBAC(org: string, shootName: string, f: Faults)
      modifies this
      ensures var r := SetRBAC(old(binding), DesiredSubject(org, shootName), f);
        binding == r.binding && requests == old(requests) + r.requests
    {
      var subject := DesiredSubject(org, shootName);
      if f.get {
        return;
      }
      if binding.Some? && binding.value.roleRef != DESIRED_ROLE_REF {
        Delete(f.delete);
        if f.delete {
          return;
        }
      }
      if f.getAgain {
        return;
      }
      if binding.None? {
        Create(Binding(DESIRED_ROLE_REF, [subject], ""), f.write);
      } else {
        var wanted := binding.value.(roleRef := DESIRED_ROLE_REF, subjects := [subject]);
        if wanted != binding.value {
          Update(wanted, f.write);
        }
      }
    }
  }

  /** Whatever the binding and whichever calls fail, no request is one the API server must refuse. */
  lemma NeverRefused(b: Option<Binding>, subject: Subject, f: Faults)
    ensures forall i :: 0 <= i < |SetRBAC(b, subject, f).requests| ==> Accepted(SetRBAC(b, subject, f).requests[i])
  {
  }

  /** The binding after a sequence of calls, each with its own failures. */
  function SetAll(b: Option<Binding>, subject: Subject, fs: seq<Faults>): Option<Binding> {
    if fs == [] then b else SetRBAC(SetAll(b, subject, fs[..|fs| - 1]), subject, fs[|fs| - 1]).binding
  }

  /** A binding of the role cluster-admin to the service account of that organisation and shoot, and nobody else. */
  ghost predicate GrantsAdmin(b: Binding, org: string, shootName: string) {
    && b.roleRef == RoleRef("rbac.authorization.k8s.io", "ClusterRole", "cluster-admin")
    && b.subjects == [Subject("User", "rbac.authorization.k8s.io",
                              "greenhouse:system:serviceaccount:" + org + ":" + shootName)]
  }

  /**
   From every binding and after every sequence of failing calls, one call without failures ends with exactly
   the desired RoleRef and the single subject, and the next one sends no request at all.
   */
  lemma Converges(b: Option<Binding>, org: string, shootName: string, fs: seq<Faults>)
    ensures var subject := DesiredSubject(org, shootName);
      var b' := SetAll(b, subject, fs + [NO_FAULTS]);
      b'.Some? && GrantsAdmin(b'.value, org, shootName) && SetRBAC(b', subject, NO_FAULTS) == Result(b', [])
  {
    assert (fs + [NO_FAULTS])[..|fs|] == fs;
  }

  /** The binding is deleted only for another RoleRef; one with the right RoleRef is never lost, whatever fails. */
  lemma DeletedOnlyForRoleRef(b: Option<Binding>, subject: Subject, f: Faults)
    ensures DeleteBinding in SetRBAC(b, subject, f).requests <==>
      !f.get && b.Some? && b.value.roleRef != RoleRef("rbac.authorization.k8s.io", "ClusterRole", "cluster-admin")
    ensures DeleteBinding !in SetRBAC(b, subject, f).requests && b.Some? ==>
      SetRBAC(b, subject, f).binding.Some? && SetRBAC(b, subject, f).binding.value.metadata == b.value.metadata
  {
  }
}
