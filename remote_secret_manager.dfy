/** internal/controller/istio/remote-secret/remote_secret_manager.go: keeps one
    Istio remote secret per ready cluster in the Istio namespace of the
    management cluster, built from the cluster's kubeconfig secret by an
    injected creator. */
module RemoteSecretManager {
  import opened Wrappers
  import opened Text
  import opened Resources
  import opened Store
  import opened Utils
  import K8sSecrets
  import opened RemoteSecret

  // Error contexts and event texts.
  const CheckFailedContext := "failed to check remote secret"
  const KubeconfigFailedContext := "failed to get kubeconfig from secret"
  const CreateFailedContext := "failed to create remote secret"
  const CreatedReason := "SecretCreated"
  const DeletedReason := "SecretDeleted"
  const EventSubject := "Istio remote secret '"
  const CreatedSuffix := "' is successfully created"
  const DeletedSuffix := "' is successfully deleted"

  /** IIstioRemoteSecretCreator.GetRemoteSecret: from the kubeconfig bytes and the
      cluster to the secret (or the error). */
  type Creator = (seq<byte>, ClusterDeployment) -> Result<Secret, Error>

  const ErrNoKubeconfigValue := Fault("kubeconfig secret does not contain 'value' key")

  /** getFullSecretName: "<name>-kubeconf" for adopted clusters, "<name>-kubeconfig" otherwise. */
  function GetFullSecretName(cd: ClusterDeployment): (r: string)
    ensures |r| > |cd.name| && r[..|cd.name|] == cd.name
    ensures r[|cd.name|..] == if IsAdopted(cd) then "-kubeconf" else "-kubeconfig"
  {
    if IsAdopted(cd) then cd.name + "-kubeconf" else cd.name + "-kubeconfig"
  }

  /** For clusters kcm created, the name agrees with the one the cluster-secret
      lookup uses; adopted clusters get the short suffix instead. */
  lemma FullSecretNameAgreesWithCloudName(cd: ClusterDeployment)
    ensures !IsAdopted(cd) ==> GetFullSecretName(cd) == K8sSecrets.GetCloudClusterSecretName(cd)
    ensures IsAdopted(cd) ==> GetFullSecretName(cd) != K8sSecrets.GetCloudClusterSecretName(cd)
  {
    if IsAdopted(cd) {
      assert |GetFullSecretName(cd)| != |K8sSecrets.GetCloudClusterSecretName(cd)|;
    }
  }

  /** The remote secret of a cluster, in the Istio namespace. */
  function RemoteSecretKey(cfg: Config, clusterName: string, namespace: string): Key {
    Key(SecretKind, cfg.systemNamespace, GetRemoteSecretName(clusterName, namespace))
  }

  /** GetKubeconfigFromSecret: the "value" of the cluster's kubeconfig secret in
      the cluster's own namespace. */
  function GetKubeconfigFromSecret(s: State, cd: ClusterDeployment): (r: Result<seq<byte>, Error>)
    ensures var got := s.GetSecret(cd.namespace, GetFullSecretName(cd));
      && (got.Err? ==> r == Err(Api(got.error)))
      && (got.Ok? && K8sSecrets.KubeconfigValueKey !in got.value.data ==> r == Err(ErrNoKubeconfigValue))
      && (got.Ok? && K8sSecrets.KubeconfigValueKey in got.value.data ==> r == Ok(got.value.data[K8sSecrets.KubeconfigValueKey]))
  {
    match s.GetSecret(cd.namespace, GetFullSecretName(cd))
    case Err(e) => Err(Api(e))
    case Ok(secret) =>
      match K8sSecrets.GetSecretValue(secret)
      case None => Err(ErrNoKubeconfigValue)
      case Some(kubeconfig) => Ok(kubeconfig)
  }

  function CreationEvent(cd: ClusterDeployment): Event {
    Event(cd.name, cd.namespace, Normal, CreatedReason, GetEventsAnnotations(cd.generation),
      EventSubject + GetRemoteSecretName(cd.name, cd.namespace) + CreatedSuffix)
  }

  /** Sent about a stub of the deleted cluster, without annotations. */
  function DeletionEvent(req: Request): Event {
    Event(req.name, req.namespace, Normal, DeletedReason, map[],
      EventSubject + GetRemoteSecretName(req.name, req.namespace) + DeletedSuffix)
  }

  function SecretKey(secret: Secret): Key {
    Key(SecretKind, secret.namespace, secret.name)
  }

  // ---------------------------------------------------------------------------
  // The steps as store transitions

  /** createSecretResource: AlreadyExists counts as success. */
  function CreateSecretResourceSpec(s: State, secret: Secret): (o: Outcome)
    ensures o.state == s.Create(SecretKey(secret), SecretObj(secret))
    ensures o.err.None? <==> SecretKey(secret) !in s.failing
    ensures o.err.Some? ==> o.err == Some(Api(Unavailable))
  {
    match s.CreateError(SecretKey(secret))
    case None => Outcome(s.Create(SecretKey(secret), SecretObj(secret)), None)
    case Some(AlreadyExists) => Outcome(s, None)
    case Some(e) => Outcome(s, Some(Api(e)))
  }

  /** TryCreate once the cluster is ready and its remote secret is known to be
      absent: read the kubeconfig, build the secret, store it, record it. */
  function BuildAndStoreSpec(creator: Creator, s: State, cd: ClusterDeployment): Outcome {
    match GetKubeconfigFromSecret(s, cd)
    case Err(e) => Outcome(s, Some(Errorf(KubeconfigFailedContext, e)))
    case Ok(kubeconfig) =>
      match creator(kubeconfig, cd)
      case Err(e) => Outcome(s, Some(Errorf(CreateFailedContext, e)))
      case Ok(secret) =>
        var created := CreateSecretResourceSpec(s, secret);
        if created.err.Some? then Outcome(created.state, Some(Errorf(CreateFailedContext, created.err.value)))
        else Outcome(created.state.Emit(CreationEvent(cd)), None)
  }

  /** TryCreate: nothing for a cluster that is not ready or whose remote secret
      already exists. */
  function TryCreateSpec(cfg: Config, creator: Creator, s: State, cd: ClusterDeployment): Outcome {
    if !IsReady(cd) then Outcome(s, None)
    else
      var (found, err) := IsResourceExists(s, RemoteSecretKey(cfg, cd.name, cd.namespace));
      if err.Some? then Outcome(s, Some(Errorf(CheckFailedContext, err.value)))
      else if found then Outcome(s, None)
      else BuildAndStoreSpec(creator, s, cd)
  }

  /** TryDelete: a secret that is already gone is success without an event; any
      other failure is returned as the store gave it. */
  function TryDeleteSpec(cfg: Config, s: State, req: Request): Outcome {
    var k := RemoteSecretKey(cfg, req.name, req.namespace);
    match s.DeleteError(k)
    case Some(NotFound) => Outcome(s, None)
    case Some(e) => Outcome(s, Some(Api(e)))
    case None => Outcome(s.Delete(k).Emit(DeletionEvent(req)), None)
  }

  // ---------------------------------------------------------------------------
  // The manager

  class RemoteSecretManager {
    const client: Store
    const config: Config
    const creator: Creator

    constructor (client: Store, config: Config, creator: Creator)
      ensures this.client == client && this.config == config && this.creator == creator
    {
      this.client := client;
      this.config := config;
      this.creator := creator;
    }

    method TryCreate(cd: ClusterDeployment) returns (err: Option<Error>)
      modifies client
      ensures client.View() == TryCreateSpec(config, creator, old(client.View()), cd).state
      ensures err == TryCreateSpec(config, creator, old(client.View()), cd).err
    {
      var ready := IsClusterDeploymentReady(cd);
      if !ready {
        return None;
      }
      var (found, e) := IsResourceExists(client.View(), RemoteSecretKey(config, cd.name, cd.namespace));
      if e.Some? {
        return Some(Errorf(CheckFailedContext, e.value));
      }
      if found {
        return None;
      }
      var kubeconfig := GetKubeconfigFromSecret(client.View(), cd);
      if kubeconfig.Err? {
        return Some(Errorf(KubeconfigFailedContext, kubeconfig.error));
      }
      var remoteSecret := creator(kubeconfig.value, cd);
      if remoteSecret.Err? {
        return Some(Errorf(CreateFailedContext, remoteSecret.error));
      }
      e := CreateSecretResource(remoteSecret.value);
      if e.Some? {
        return Some(Errorf(CreateFailedContext, e.value));
      }
      client.Record(CreationEvent(cd));
      return None;
    }

    method TryDelete(req: Request) returns (err: Option<Error>)
      modifies client
      ensures client.View() == TryDeleteSpec(config, old(client.View()), req).state
      ensures err == TryDeleteSpec(config, old(client.View()), req).err
    {
      var e := client.Delete(RemoteSecretKey(config, req.name, req.namespace));
      if e.Some? {
        if e.value == NotFound {
          return None;
        }
        return Some(Api(e.value));
      }
      client.Record(DeletionEvent(req));
      return None;
    }

    method CreateSecretResource(secret: Secret) returns (err: Option<Error>)
      modifies client
      ensures client.View() == CreateSecretResourceSpec(old(client.View()), secret).state
      ensures err == CreateSecretResourceSpec(old(client.View()), secret).err
    {
      var e := client.Create(SecretKey(secret), SecretObj(secret));
      if e.Some? {
        if e.value == AlreadyExists {
          return None;
        }
        return Some(Api(e.value));
      }
      return None;
    }
  }

  // ---------------------------------------------------------------------------
  // Properties

  /** The gates: a cluster that is not ready, or whose remote secret exists, is
      left alone; a failing existence check is reported with nothing written. */
  lemma TryCreateGates(cfg: Config, creator: Creator, s: State, cd: ClusterDeployment)
    ensures var o := TryCreateSpec(cfg, creator, s, cd);
      var k := RemoteSecretKey(cfg, cd.name, cd.namespace);
      && (!IsReady(cd) ==> o == Outcome(s, None))
      && (IsReady(cd) && k in s.failing ==> o == Outcome(s, Some(Errorf(CheckFailedContext, Api(Unavailable)))))
      && (IsReady(cd) && k !in s.failing && k in s.objects ==> o == Outcome(s, None))
  {
  }

  /** A TryCreate that fails leaves the store exactly as it was, events included. */
  lemma FailedTryCreateWritesNothing(cfg: Config, creator: Creator, s: State, cd: ClusterDeployment)
    ensures TryCreateSpec(cfg, creator, s, cd).err.Some? ==> TryCreateSpec(cfg, creator, s, cd).state == s
  {
  }

  /** TryCreate records its event exactly when it built a secret and the store
      accepted it (or already held one under that name), and then nothing but
      that secret has been written. */
  lemma TryCreateEvent(cfg: Config, creator: Creator, s: State, cd: ClusterDeployment)
    ensures var o := TryCreateSpec(cfg, creator, s, cd);
      var k := RemoteSecretKey(cfg, cd.name, cd.namespace);
      var kubeconfig := GetKubeconfigFromSecret(s, cd);
      && (o.state.events == s.events + [CreationEvent(cd)] <==>
            && IsReady(cd) && k !in s.objects && k !in s.failing
            && kubeconfig.Ok? && creator(kubeconfig.value, cd).Ok?
            && SecretKey(creator(kubeconfig.value, cd).value) !in s.failing)
      && (o.state.events == s.events + [CreationEvent(cd)] ==>
            o.state.objects == s.Create(SecretKey(creator(kubeconfig.value, cd).value), SecretObj(creator(kubeconfig.value, cd).value)).objects)
      && (o.state.events == s.events || o.state.events == s.events + [CreationEvent(cd)])
  {
    assert s.events != s.events + [CreationEvent(cd)];
  }

  /** The creator stores the secret where the manager looks for it. */
  ghost predicate CreatorNamesSecret(cfg: Config, creator: Creator) {
    forall kubeconfig, cd: ClusterDeployment ::
      cd.name != "" && creator(kubeconfig, cd).Ok? ==>
        SecretKey(creator(kubeconfig, cd).value) == RemoteSecretKey(cfg, cd.name, cd.namespace)
  }

  /** With such a creator, a TryCreate that returned nil leaves nothing for a
      second one to do. */
  lemma TryCreateIdempotent(cfg: Config, creator: Creator, s: State, cd: ClusterDeployment)
    requires CreatorNamesSecret(cfg, creator) && cd.name != ""
    requires TryCreateSpec(cfg, creator, s, cd).err.None?
    ensures var s1 := TryCreateSpec(cfg, creator, s, cd).state;
      TryCreateSpec(cfg, creator, s1, cd) == Outcome(s1, None)
  {
    var k := RemoteSecretKey(cfg, cd.name, cd.namespace);
    var s1 := TryCreateSpec(cfg, creator, s, cd).state;
    if IsReady(cd) && k !in s.objects && k !in s.failing {
      var kubeconfig := GetKubeconfigFromSecret(s, cd);
      assert kubeconfig.Ok?;
      assert SecretKey(creator(kubeconfig.value, cd).value) == k;
      assert k in s1.objects && k !in s1.failing;
    }
  }

  /** The operator's own creator, IstioRemoteSecretCreator.GetRemoteSecret, is
      such a creator, whatever the remote clusters answer. `connect` stands for
      building a client from the kubeconfig bytes. */
  lemma RealCreatorNamesSecret(cfg: Config, connect: seq<byte> -> Result<(ClusterFacts, State), Error>)
    ensures CreatorNamesSecret(cfg, (kubeconfig: seq<byte>, cd: ClusterDeployment) =>
      match connect(kubeconfig)
      case Err(e) => Err(e)
      case Ok(remote) => GetRemoteSecretSpec(cfg, Ok(remote), cd).result)
  {
    forall kubeconfig: seq<byte>, cd: ClusterDeployment | cd.name != "" && connect(kubeconfig).Ok?
      ensures var r := GetRemoteSecretSpec(cfg, Ok(connect(kubeconfig).value), cd).result;
        r.Ok? ==> SecretKey(r.value) == RemoteSecretKey(cfg, cd.name, cd.namespace)
    {
      GetRemoteSecretNaming(cfg, connect(kubeconfig).value.0, connect(kubeconfig).value.1, cd);
    }
  }

  /** TryDelete: success leaves no remote secret; the event is recorded exactly
      when one was removed; nothing else moves. */
  lemma TryDeleteEffect(cfg: Config, s: State, req: Request)
    ensures var o := TryDeleteSpec(cfg, s, req);
      var k := RemoteSecretKey(cfg, req.name, req.namespace);
      && (o.err.None? <==> k !in s.failing)
      && (o.err.None? ==> k !in o.state.objects)
      && (o.state.events == s.events + [DeletionEvent(req)] <==> k in s.objects && k !in s.failing)
      && (o.state.events == s.events || o.state.events == s.events + [DeletionEvent(req)])
      && (forall k' :: k' != k ==>
            (k' in o.state.objects <==> k' in s.objects) && (k' in s.objects ==> o.state.objects[k'] == s.objects[k']))
  {
    assert s.events != s.events + [DeletionEvent(req)];
  }

  lemma TryDeleteIdempotent(cfg: Config, s: State, req: Request)
    requires TryDeleteSpec(cfg, s, req).err.None?
    ensures var s1 := TryDeleteSpec(cfg, s, req).state;
      TryDeleteSpec(cfg, s1, req) == Outcome(s1, None)
  {
  }
}
