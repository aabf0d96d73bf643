/** The objects of the cluster, as far as the operator reads or writes them.
    Resource versions are natural numbers handed out by one counter for the whole cluster. */
module ClusterModel {
  import opened Wrappers

  /** One object of the cluster. The first thirteen are the objects the target
      config reconciler applies; the two secrets are filled by cert-manager. */
  datatype Key =
    | NetworkPolicy | WebhookService | Issuer | ServingCert | MetricsCert
    | ValidatingWebhook | MutatingWebhook | JobSetCrd
    | PrometheusRole | PrometheusRoleBinding | ServiceMonitor | ConfigMap | Deployment
    | WebhookSecret | MetricsSecret
    | Other(id: string)

  datatype Container = Container(image: string, args: seq<string>, terminationPolicy: string, rest: string)

  datatype PodTemplate = PodTemplate(
    annotations: map<string, string>,
    containers: seq<Container>,
    initContainers: seq<Container>,
    rest: string)

  /** One webhook of a webhook configuration; no bundle means the field is nil. */
  datatype Hook = Hook(name: string, bundle: Option<string>, rest: string)

  /** The conversion stanza of a CRD: either without a webhook client
      configuration, or with one and its CA bundle ("" is the unset bundle). */
  datatype Conversion = NoClientConfig | ClientConfig(bundle: string, rest: string)

  /** The part of an object below its metadata. Everything the operator never
      looks into is kept as text. */
  datatype Spec =
    | Plain(text: string)
    | ServiceSpec(selector: string, kind: string, ports: string)
    | Hooks(hooks: seq<Hook>)
    | Crd(conversion: Conversion, versions: string)
    | Deploy(replicas: Option<int>, template: PodTemplate, rest: string)
    | SecretData(crt: string, key: string)

  /** A value of a label, annotation or owner reference. The spec-hash annotation is
      kept as the spec it digests: two digests are equal when the specs are. */
  datatype Val = Text(text: string) | Digest(of: Spec)

  type Meta = map<string, Val>

  datatype Manifest = Manifest(meta: Meta, spec: Spec)

  /** available is status.availableReplicas; it is read on the Deployment only. */
  datatype Object = Object(rv: nat, gen: nat, meta: Meta, spec: Spec, available: int)

  datatype Condition = Condition(kind: string, status: bool, reason: string, message: string, since: nat)

  /** recorded is status.generations for the operand Deployment. */
  datatype Status = Status(conditions: seq<Condition>, recorded: Option<nat>, ready: int)

  /** The JobSetOperator resource named "cluster". */
  datatype Operator = Operator(uid: string, management: string, logLevel: string, status: Status)

  /** One state of the API server: all objects, the operator resource, the kinds served in
      cert-manager.io/v1 if that group version is known, and the server version. */
  datatype Snapshot = Snapshot(
    objs: map<Key, Object>,
    operator: Option<Operator>,
    certManagerKinds: Option<seq<string>>,
    major: nat,
    minor: nat)

  /** Servers that do not understand the CRD's newer validation rules. */
  predicate LegacyServer(major: nat, minor: nat) {
    major == 1 && minor <= 31
  }

  predicate IssuerServed(c: Snapshot) {
    c.certManagerKinds.Some? && "Issuer" in c.certManagerKinds.value
  }

  const SPEC_HASH := "operator.openshift.io/spec-hash"
  const OWNER := "ownerReferences/operator.openshift.io/JobSetOperator/cluster"

  lemma DistinctMetaKeys()
    ensures OWNER != SPEC_HASH
  {
    assert |OWNER| == 60 && |SPEC_HASH| == 31;
  }
}
