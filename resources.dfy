/** The records the operator reads and writes, reduced to the fields its code
    touches, and the constants (label keys, condition types, fixed namespaces)
    shared by the managers. */
module Resources {
  import opened Wrappers
  import opened Text

  /** The process-wide settings istio.IstioSystemNamespace and
      istio.IstioReleaseName, passed explicitly (by default "istio-system" and
      "k0rdent-istio"). */
  datatype Config = Config(systemNamespace: string, releaseName: string)

  const IstioRoleLabel := "k0rdent.mirantis.com/istio-role"
  /** Accepted istio-role values; "child" is the deprecated spelling. */
  const IstioRoleExpectedValues: seq<string> := ["member", "child"]
  const IstioMeshLabel := "k0rdent.mirantis.com/istio-mesh"
  const ManagedByLabel := "app.kubernetes.io/managed-by"
  const ManagedByValue := "istio-operator"
  const KcmRegionClusterLabel := "k0rdent.mirantis.com/kcm-region-cluster"
  const KcmSystemNamespace := "kcm-system"

  /** A Go map read: the value under `key`, or "" when the key is absent. */
  function LabelValue(labels: map<string, string>, key: string): (v: string)
    ensures key in labels ==> v == labels[key]
    ensures key !in labels ==> v == ""
  {
    if key in labels then labels[key] else ""
  }

  /** A label selector's matchLabels: every selector entry is present in the
      labels with the same value. */
  predicate MatchLabels(selector: map<string, string>, labels: map<string, string>) {
    forall k :: k in selector ==> k in labels && labels[k] == selector[k]
  }

  /** controller-runtime's ctrl.Request: the name and namespace of the object to reconcile. */
  datatype Request = Request(name: string, namespace: string)

  const ReadyCondition := "Ready"
  const CapiClusterSummaryCondition := "CAPIClusterSummary"

  /** A status condition; the operator only ever looks at its type. */
  datatype Condition = Condition(conditionType: string, status: string)

  /** kcm's ClusterDeployment: metadata, the template and credential names of its
      spec, and its status conditions. */
  datatype ClusterDeployment = ClusterDeployment(
    name: string,
    namespace: string,
    labels: map<string, string>,
    generation: int,
    template: string,
    credential: string,
    conditions: seq<Condition>)

  datatype Secret = Secret(
    name: string,
    namespace: string,
    labels: map<string, string>,
    annotations: map<string, string>,
    secretType: string,
    data: map<string, seq<byte>>)

  datatype IssuerRef = IssuerRef(name: string, kind: string, group: string)

  /** cert-manager's Certificate request. */
  datatype Certificate = Certificate(
    name: string,
    namespace: string,
    labels: map<string, string>,
    isCA: bool,
    commonName: string,
    organizations: seq<string>,
    keyAlgorithm: string,
    keySize: nat,
    secretName: string,
    issuer: IssuerRef)

  datatype Service = Service(name: string, namespace: string, template: string)

  datatype ObjectReference = ObjectReference(apiVersion: string, kind: string, name: string, namespace: string)

  datatype TemplateResourceRef = TemplateResourceRef(identifier: string, resource: ObjectReference)

  /** kcm's MultiClusterService, the propagation descriptor: copies the referenced
      resources to every cluster its selector matches. Cluster-scoped. */
  datatype MultiClusterService = MultiClusterService(
    name: string,
    labels: map<string, string>,
    clusterSelector: map<string, string>,
    services: seq<Service>,
    templateResourceRefs: seq<TemplateResourceRef>)

  datatype IdentityRef = IdentityRef(kind: string, name: string)

  datatype Credential = Credential(name: string, namespace: string, region: string, identityRef: IdentityRef)

  datatype ClusterDeploymentRef = ClusterDeploymentRef(namespace: string, name: string)

  /** kcm's Region; its validation admits exactly one of the two sources, the
      operator's code handles every combination. */
  datatype Region = Region(name: string, kubeConfig: Option<string>, clusterDeployment: Option<ClusterDeploymentRef>)

  datatype SecretRef = SecretRef(name: string, namespace: string)

  datatype ServiceAccount = ServiceAccount(name: string, namespace: string, secrets: seq<SecretRef>)

  datatype EventType = Normal | Warning

  /** A recorded Kubernetes event about a ClusterDeployment. */
  datatype Event = Event(
    objectName: string,
    objectNamespace: string,
    eventType: EventType,
    reason: string,
    annotations: map<string, string>,
    message: string)
}
