/** internal/k8s/region.go: whether a cluster was created in a kcm region, the
    region a cluster's Credential names, and the kubeconfig a Region points at. */
module K8sRegion {
  import opened Wrappers
  import opened Text
  import opened Resources
  import opened Store
  import opened Utils
  import opened K8sSecrets

  /** CreatedInKCMRegion: the cluster's Credential, looked up in kcm-system (not
      in the cluster's namespace), names a non-empty region. Lookup errors are
      returned as they are. */
  function CreatedInKCMRegion(s: State, cd: ClusterDeployment): (r: Result<bool, Error>)
    ensures s.GetCredential(KcmSystemNamespace, cd.credential).Err? ==>
      r == Err(Api(s.GetCredential(KcmSystemNamespace, cd.credential).error))
    ensures s.GetCredential(KcmSystemNamespace, cd.credential).Ok? ==>
      r == Ok(s.GetCredential(KcmSystemNamespace, cd.credential).value.region != "")
  {
    match s.GetCredential(KcmSystemNamespace, cd.credential)
    case Err(e) => Err(Api(e))
    case Ok(cred) => Ok(cred.region != "")
  }

  /** The region of the first credential called `name`, or "" when none is. */
  function FirstRegionNamed(items: seq<Credential>, name: string): (region: string)
    ensures (forall i :: 0 <= i < |items| ==> items[i].name != name) ==> region == ""
    ensures (exists i :: 0 <= i < |items| && items[i].name == name) ==>
      exists i :: 0 <= i < |items| && items[i].name == name && region == items[i].region &&
        forall j :: 0 <= j < i ==> items[j].name != name
    decreases |items|
  {
    if items == [] then ""
    else if items[0].name == name then items[0].region
    else
      var region := FirstRegionNamed(items[1..], name);
      assert forall i :: 1 <= i < |items| ==> items[i] == items[1..][i - 1];
      region
  }

  /** GetKcmRegionClusterNameRelatedToClusterDeployment: scan the listed
      credentials in list order and return the region of the first one carrying
      the cluster's credential name; namespaces are not compared. `credentials`
      is the list call's answer. */
  function GetKcmRegionClusterNameRelatedToClusterDeployment(credentials: Result<seq<Credential>, Error>, cd: ClusterDeployment)
    : (r: Result<string, Error>)
    ensures credentials.Err? ==> r == Err(credentials.error)
    ensures credentials.Ok? ==> r == Ok(FirstRegionNamed(credentials.value, cd.credential))
  {
    match credentials
    case Err(e) => Err(e)
    case Ok(items) => Ok(FirstRegionNamed(items, cd.credential))
  }

  /** A credential of the same name listed earlier, from any namespace, wins. */
  lemma FirstListedCredentialWins(items: seq<Credential>, c: Credential, rest: seq<Credential>)
    ensures FirstRegionNamed(items + [c] + rest, c.name) == FirstRegionNamed(items + [c], c.name)
    ensures (forall i :: 0 <= i < |items| ==> items[i].name != c.name) ==> FirstRegionNamed(items + [c] + rest, c.name) == c.region
  {
    assert (items + [c])[|items|].name == c.name;
    FirstRegionNamedAppend(items + [c], rest, c.name);
    if forall i :: 0 <= i < |items| ==> items[i].name != c.name {
      FirstRegionNamedSkips(items, c);
    }
  }

  lemma {:induction false} FirstRegionNamedAppend(a: seq<Credential>, b: seq<Credential>, name: string)
    requires exists i :: 0 <= i < |a| && a[i].name == name
    ensures FirstRegionNamed(a + b, name) == FirstRegionNamed(a, name)
    decreases |a|
  {
    assert (a + b)[0] == a[0];
    if a[0].name != name {
      assert (a + b)[1..] == a[1..] + b;
      var i :| 0 <= i < |a| && a[i].name == name;
      assert a[1..][i - 1].name == name;
      FirstRegionNamedAppend(a[1..], b, name);
    }
  }

  lemma {:induction false} FirstRegionNamedSkips(items: seq<Credential>, c: Credential)
    requires forall i :: 0 <= i < |items| ==> items[i].name != c.name
    ensures FirstRegionNamed(items + [c], c.name) == c.region
    decreases |items|
  {
    if items != [] {
      assert (items + [c])[0] == items[0];
      assert (items + [c])[1..] == items[1..] + [c];
      assert forall i :: 0 <= i < |items[1..]| ==> items[1..][i] == items[i + 1];
      FirstRegionNamedSkips(items[1..], c);
    }
  }

  /** GetKubeconfigFromClusterDeployment (client.go): the kubeconfig secret of a
      cluster, named by `secretNameOf` (client.go's GetSecretName is not part of
      this model). */
  function GetKubeconfigFromClusterDeployment(s: State, cd: ClusterDeployment, secretNameOf: ClusterDeployment -> string)
    : Result<seq<byte>, Error>
  {
    GetKubeconfigFromSecret(s, secretNameOf(cd))
  }

  /** GetKubeconfigByRegionName: an empty name fails before any lookup; the
      Region's ClusterDeployment reference takes priority over its KubeConfig
      secret; with neither the answer is (nil, nil), here Ok(None). */
  function GetKubeconfigByRegionName(s: State, regionName: string, secretNameOf: ClusterDeployment -> string)
    : (r: Result<Option<seq<byte>>, Error>)
    ensures regionName == "" ==> r == Err(Fault("region name is empty"))
    ensures regionName != "" && s.GetRegion(regionName).Err? ==> r.Err?
    ensures regionName != "" && s.GetRegion(regionName).Ok? ==>
      var region := s.GetRegion(regionName).value;
      && (region.clusterDeployment.Some? ==>
            var ref := region.clusterDeployment.value;
            && (s.GetClusterDeployment(ref.namespace, ref.name).Err? ==> r.Err?)
            && (s.GetClusterDeployment(ref.namespace, ref.name).Ok? ==>
                  var k := GetKubeconfigFromClusterDeployment(s, s.GetClusterDeployment(ref.namespace, ref.name).value, secretNameOf);
                  (r.Ok? <==> k.Ok?) && (k.Ok? ==> r == Ok(Some(k.value)))))
      && (region.clusterDeployment.None? && region.kubeConfig.Some? ==>
            var k := GetKubeconfigFromSecret(s, region.kubeConfig.value);
            (r.Ok? <==> k.Ok?) && (k.Ok? ==> r == Ok(Some(k.value))) && (k.Err? ==> r == Err(k.error)))
      && (region.clusterDeployment.None? && region.kubeConfig.None? ==> r == Ok(None))
  {
    if regionName == "" then Err(Fault("region name is empty"))
    else
      match s.GetRegion(regionName)
      case Err(e) => Err(Errorf("failed to get Region " + regionName, Api(e)))
      case Ok(region) =>
        if region.clusterDeployment.Some? then
          var ref := region.clusterDeployment.value;
          match s.GetClusterDeployment(ref.namespace, ref.name)
          case Err(e) => Err(Errorf("failed to get ClusterDeployment " + ref.name, Api(e)))
          case Ok(cd) =>
            match GetKubeconfigFromClusterDeployment(s, cd, secretNameOf)
            case Err(e) => Err(Errorf("failed to get kubeconfig from ClusterDeployment", e))
            case Ok(kubeconfig) => Ok(Some(kubeconfig))
        else if region.kubeConfig.Some? then
          match GetKubeconfigFromSecret(s, region.kubeConfig.value)
          case Err(e) => Err(e)
          case Ok(kubeconfig) => Ok(Some(kubeconfig))
        else Ok(None)
  }

  /** With both references set, the KubeConfig secret is never consulted. */
  lemma ClusterDeploymentReferenceWins(s: State, regionName: string, secretNameOf: ClusterDeployment -> string, other: string)
    requires regionName != "" && s.GetRegion(regionName).Ok?
    requires s.GetRegion(regionName).value.clusterDeployment.Some?
    ensures var region := s.GetRegion(regionName).value;
      var s' := s.(objects := s.objects[Key(RegionKind, "", regionName) := RegionObj(region.(kubeConfig := Some(other)))]);
      GetKubeconfigByRegionName(s', regionName, secretNameOf) == GetKubeconfigByRegionName(s, regionName, secretNameOf)
  {
  }
}
