/** The function that prepares an asset for the static resource controller. */
module StaticAssets {
  import opened Wrappers

  datatype OwnerReference = OwnerReference(apiVersion: string, kind: string, name: string, uid: string)
  datatype Subject = Subject(name: string, namespace: string, rest: string)
  datatype Identity = Identity(name: string, uid: string)

  /** A decoded asset; subjects is nil except for the two kinds of bindings. */
  class Asset {
    const kind: string
    var ownerReferences: seq<OwnerReference>
    var namespace: string
    const subjects: array<Subject>
    var rest: string

    constructor (kind: string, ownerReferences: seq<OwnerReference>, namespace: string,
            subjects: array<Subject>, rest: string)
      ensures this.kind == kind && this.ownerReferences == ownerReferences && this.namespace == namespace
      ensures this.subjects == subjects && this.rest == rest
    {
      this.kind, this.ownerReferences, this.namespace := kind, ownerReferences, namespace;
      this.subjects, this.rest := subjects, rest;
    }
  }

  /** The asset closure. asset is null if the asset is missing or cannot be decoded, operator
      is None if the operator resource cannot be read; then there is an error and nothing is
      changed. Otherwise the owner is appended, a namespace is replaced where there is one, and
      every subject of a binding is moved to the namespace, in its place. */
  method Prepare(asset: Asset?, operator: Option<Identity>, namespace: string) returns (failed: bool)
    modifies asset, if asset == null then {} else {asset.subjects}
    ensures failed <==> asset == null || operator.None?
    ensures asset != null ==>
              && asset.rest == old(asset.rest)
              && asset.ownerReferences == old(asset.ownerReferences) +
                   (if failed then []
                    else [OwnerReference("operator.openshift.io/v1", "JobSetOperator",
                                         operator.value.name, operator.value.uid)])
              && asset.namespace == (if failed || old(asset.namespace) == "" then old(asset.namespace) else namespace)
              && forall i :: 0 <= i < asset.subjects.Length ==>
                   asset.subjects[i] ==
                     if !failed && asset.kind in {"RoleBinding", "ClusterRoleBinding"}
                     then Subject(old(asset.subjects[i]).name, namespace, old(asset.subjects[i]).rest)
                     else old(asset.subjects[i])
  {
    if asset == null || operator.None? {
      return true;
    }
    var newOwnerRefs := asset.ownerReferences +
      [OwnerReference("operator.openshift.io/v1", "JobSetOperator", operator.value.name, operator.value.uid)];
    asset.ownerReferences := newOwnerRefs;
    if asset.namespace != "" {
      asset.namespace := namespace;
    }
    match asset.kind {
      case "RoleBinding" => MoveSubjects(asset.subjects, namespace);
      case "ClusterRoleBinding" => MoveSubjects(asset.subjects, namespace);
      case _ =>
    }
    return false;
  }

  method MoveSubjects(subjects: array<Subject>, namespace: string)
    modifies subjects
    ensures forall i :: 0 <= i < subjects.Length ==>
              subjects[i] == Subject(old(subjects[i]).name, namespace, old(subjects[i]).rest)
  {
    for i := 0 to subjects.Length
      invariant forall j :: 0 <= j < i ==> subjects[j] == old(subjects[j]).(namespace := namespace)
      invariant forall j :: i <= j < subjects.Length ==> subjects[j] == old(subjects[j])
    {
      subjects[i] := subjects[i].(namespace := namespace);
    }
  }
}
