/** internal/k8s/secrets.go, and the kubeconfig read of internal/k8s/client.go:
    where a cluster's kubeconfig secret is found and how its payload is read. */
module K8sSecrets {
  import opened Wrappers
  import opened Text
  import opened Resources
  import opened Store
  import opened Utils

  const ClusterSecretSuffix := "kubeconfig"
  /** The data key holding a kubeconfig in kcm's cluster secrets. */
  const KubeconfigValueKey := "value"

  /** GetSecretValue: the bytes under "value", or nil (None) when the key is absent. */
  function GetSecretValue(secret: Secret): (r: Option<seq<byte>>)
    ensures r.Some? <==> KubeconfigValueKey in secret.data
    ensures r.Some? ==> r.value == secret.data[KubeconfigValueKey]
  {
    if KubeconfigValueKey in secret.data then Some(secret.data[KubeconfigValueKey]) else None
  }

  /** Only the "value" key matters: other keys never change the answer. */
  lemma GetSecretValueIgnoresOtherKeys(secret: Secret, k: string, v: seq<byte>)
    requires k != KubeconfigValueKey
    ensures GetSecretValue(secret.(data := secret.data[k := v])) == GetSecretValue(secret)
    ensures GetSecretValue(secret.(data := secret.data - {k})) == GetSecretValue(secret)
  {
  }

  /** GetCloudClusterSecretName: "<name>-kubeconfig". */
  function GetCloudClusterSecretName(cd: ClusterDeployment): (r: string)
    ensures |r| == |cd.name| + 11
    ensures r[..|cd.name|] == cd.name && r[|cd.name|..] == "-kubeconfig"
  {
    cd.name + "-" + ClusterSecretSuffix
  }

  /** Clusters with different names get different secret names. */
  lemma CloudClusterSecretNameInjective(a: ClusterDeployment, b: ClusterDeployment)
    requires GetCloudClusterSecretName(a) == GetCloudClusterSecretName(b)
    ensures a.name == b.name
  {
    var r := GetCloudClusterSecretName(a);
    assert |a.name| == |b.name|;
    assert a.name == r[..|a.name|] == b.name;
  }

  /** GetAdoptedClusterSecretName: the Credential named by the cluster's spec, in
      the cluster's own namespace, must reference a Secret; that Secret's name is
      the answer. A failed lookup is wrapped (`%w`); another kind is refused. */
  function GetAdoptedClusterSecretName(s: State, cd: ClusterDeployment): (r: Result<string, Error>)
    ensures r.Ok? <==> (s.GetCredential(cd.namespace, cd.credential).Ok? &&
                        s.GetCredential(cd.namespace, cd.credential).value.identityRef.kind == "Secret")
    ensures r.Ok? ==> r.value == s.GetCredential(cd.namespace, cd.credential).value.identityRef.name
    ensures s.GetCredential(cd.namespace, cd.credential).Err? ==>
      r == Err(Wrapped("failed to get credential", Api(s.GetCredential(cd.namespace, cd.credential).error)))
  {
    match s.GetCredential(cd.namespace, cd.credential)
    case Err(e) => Err(Wrapped("failed to get credential", Api(e)))
    case Ok(cred) =>
      if cred.identityRef.kind != "Secret" then
        Err(Fault("unsupported Credential IdentityRef kind " + cred.identityRef.kind + " for adopted cluster"))
      else Ok(cred.identityRef.name)
  }

  /** GetKubeconfigSecretName: adopted clusters go through their Credential,
      the others get the fixed "<name>-kubeconfig" name. */
  function GetKubeconfigSecretName(s: State, cd: ClusterDeployment): (r: Result<string, Error>)
    ensures !IsAdopted(cd) ==> r == Ok(GetCloudClusterSecretName(cd))
    ensures IsAdopted(cd) ==> r == GetAdoptedClusterSecretName(s, cd)
  {
    if IsAdopted(cd) then GetAdoptedClusterSecretName(s, cd) else Ok(GetCloudClusterSecretName(cd))
  }

  /** A non-adopted cluster's secret name does not depend on the store at all. */
  lemma CloudSecretNameNeedsNoLookup(s1: State, s2: State, cd: ClusterDeployment)
    requires !IsAdopted(cd)
    ensures GetKubeconfigSecretName(s1, cd) == GetKubeconfigSecretName(s2, cd)
  {
  }

  /** GetKubeconfigFromSecret (client.go): read the named secret in kcm-system and
      return its "value"; a failed read or a missing key is an error. */
  function GetKubeconfigFromSecret(s: State, secretName: string): (r: Result<seq<byte>, Error>)
    ensures r.Ok? <==> (s.GetSecret(KcmSystemNamespace, secretName).Ok? &&
                        KubeconfigValueKey in s.GetSecret(KcmSystemNamespace, secretName).value.data)
    ensures r.Ok? ==> r.value == s.GetSecret(KcmSystemNamespace, secretName).value.data[KubeconfigValueKey]
    ensures s.GetSecret(KcmSystemNamespace, secretName).Ok? && r.Err? ==> r.error == Fault("kubeconfig is empty")
  {
    match s.GetSecret(KcmSystemNamespace, secretName)
    case Err(e) => Err(Errorf("failed to get secret", Api(e)))
    case Ok(secret) =>
      match GetSecretValue(secret)
      case None => Err(Fault("kubeconfig is empty"))
      case Some(kubeconfig) => Ok(kubeconfig)
  }
}
