/** internal/controller/istio/multicluster: the MultiClusterService that has
    Sveltos copy a cluster's Istio remote secret to every mesh member cluster. */
module Multicluster {
  import opened Wrappers
  import opened Resources
  import opened Store
  import opened Utils
  import opened RemoteSecret

  // Error contexts and event texts.
  const CheckFailedContext := "failed to check MultiClusterService existence"
  const CreateFailedContext := "failed to create MultiClusterService resource"
  const DeleteFailedContext := "failed to delete MultiClusterService"
  const CreatedReason := "MultiClusterServiceCreated"
  const DeletedReason := "MultiClusterServiceDeleted"
  const EventSubject := "MultiClusterService '"
  const CreatedSuffix := "' for secret propagation is successfully created"
  const DeletedSuffix := "' for secret propagation is successfully deleted"
  const PropagationTemplate := "istio-secret-propagation"
  const BasePropagationSuffix := "-base-propagation"

  const PropagationPrefix := "remote-secret-propagation"
  const MemberRole := "member"

  /** prefix-hash of "<namespace>-<name>" under "remote-secret-propagation". */
  function GetMultiClusterServiceName(clusterName: string, namespace: string): (r: string)
    ensures |r| > |PropagationPrefix| + 1
    ensures r[..|PropagationPrefix| + 1] == PropagationPrefix + "-"
  {
    GetNameHash(PropagationPrefix, namespace + "-" + clusterName)
  }

  /** MultiClusterServices are cluster-scoped. */
  function McsKey(clusterName: string, namespace: string): Key {
    Key(MultiClusterServiceKind, "", GetMultiClusterServiceName(clusterName, namespace))
  }

  /** Sveltos' cluster selector of the propagation descriptor. */
  const MemberSelector := map[IstioRoleLabel := MemberRole]

  lemma MemberSelectorMatches(labels: map<string, string>)
    ensures MatchLabels(MemberSelector, labels) <==> IstioRoleLabel in labels && labels[IstioRoleLabel] == MemberRole
  {
    if MatchLabels(MemberSelector, labels) {
      assert IstioRoleLabel in MemberSelector;
    }
  }

  /** The propagation descriptor of a cluster: its remote secret, from the Istio
      namespace, to the clusters labelled as mesh members. */
  function PropagationMcs(cfg: Config, cd: ClusterDeployment): (m: MultiClusterService)
    ensures m.name == GetMultiClusterServiceName(cd.name, cd.namespace)
    ensures m.labels == map[ManagedByLabel := ManagedByValue, "cluster-name" := cd.name, "cluster-namespace" := cd.namespace]
    ensures m.services == [Service(PropagationTemplate, cfg.systemNamespace, cfg.releaseName + BasePropagationSuffix)]
    ensures m.templateResourceRefs ==
      [TemplateResourceRef("Secret", ObjectReference("v1", "Secret", GetRemoteSecretName(cd.name, cd.namespace), cfg.systemNamespace))]
    ensures m.clusterSelector == MemberSelector
  {
    MultiClusterService(
      GetMultiClusterServiceName(cd.name, cd.namespace),
      map[ManagedByLabel := ManagedByValue, "cluster-name" := cd.name, "cluster-namespace" := cd.namespace],
      MemberSelector,
      [Service(PropagationTemplate, cfg.systemNamespace, cfg.releaseName + BasePropagationSuffix)],
      [TemplateResourceRef("Secret", ObjectReference("v1", "Secret", GetRemoteSecretName(cd.name, cd.namespace), cfg.systemNamespace))])
  }

  function CreationEvent(cd: ClusterDeployment): Event {
    Event(cd.name, cd.namespace, Normal, CreatedReason, GetEventsAnnotations(cd.generation),
      EventSubject + GetMultiClusterServiceName(cd.name, cd.namespace) + CreatedSuffix)
  }

  /** Sent about a stub of the deleted cluster, without annotations. */
  function DeletionEvent(req: Request): Event {
    Event(req.name, req.namespace, Normal, DeletedReason, map[],
      EventSubject + GetMultiClusterServiceName(req.name, req.namespace) + DeletedSuffix)
  }

  // ---------------------------------------------------------------------------
  // The steps as store transitions

  /** createMultiClusterService: AlreadyExists counts as success. */
  function CreateMultiClusterServiceSpec(cfg: Config, s: State, cd: ClusterDeployment): (o: Outcome)
    ensures var k := McsKey(cd.name, cd.namespace);
      && o.state == s.Create(k, MultiClusterServiceObj(PropagationMcs(cfg, cd)))
      && (o.err.None? <==> k !in s.failing)
      && (o.err.Some? ==> o.err == Some(Api(Unavailable)))
  {
    var k := McsKey(cd.name, cd.namespace);
    match s.CreateError(k)
    case None => Outcome(s.Create(k, MultiClusterServiceObj(PropagationMcs(cfg, cd))), None)
    case Some(AlreadyExists) => Outcome(s, None)
    case Some(e) => Outcome(s, Some(Api(e)))
  }

  /** TryCreate: nothing to do when the descriptor exists; otherwise create it
      and record the creation. No readiness gate. */
  function TryCreateSpec(cfg: Config, s: State, cd: ClusterDeployment): Outcome {
    var (found, err) := IsResourceExists(s, McsKey(cd.name, cd.namespace));
    if err.Some? then Outcome(s, Some(Errorf(CheckFailedContext, err.value)))
    else if found then Outcome(s, None)
    else
      var created := CreateMultiClusterServiceSpec(cfg, s, cd);
      if created.err.Some? then Outcome(created.state, Some(Errorf(CreateFailedContext, created.err.value)))
      else Outcome(created.state.Emit(CreationEvent(cd)), None)
  }

  /** TryDelete: a descriptor that is already gone is success without an event. */
  function TryDeleteSpec(s: State, req: Request): Outcome {
    var k := McsKey(req.name, req.namespace);
    match s.DeleteError(k)
    case Some(NotFound) => Outcome(s, None)
    case Some(e) => Outcome(s, Some(Errorf(DeleteFailedContext, Api(e))))
    case None => Outcome(s.Delete(k).Emit(DeletionEvent(req)), None)
  }

  // ---------------------------------------------------------------------------
  // The manager

  class RemoteSecretPropagationManager {
    const client: Store
    const config: Config

    constructor (client: Store, config: Config)
      ensures this.client == client && this.config == config
    {
      this.client := client;
      this.config := config;
    }

    method TryCreate(cd: ClusterDeployment) returns (err: Option<Error>)
      modifies client
      ensures client.View() == TryCreateSpec(config, old(client.View()), cd).state
      ensures err == TryCreateSpec(config, old(client.View()), cd).err
    {
      var (found, e) := IsResourceExists(client.View(), McsKey(cd.name, cd.namespace));
      if e.Some? {
        return Some(Errorf(CheckFailedContext, e.value));
      }
      if found {
        return None;
      }
      e := CreateMultiClusterService(cd);
      match e {
        case Some(cause) => return Some(Errorf(CreateFailedContext, cause));
        case None =>
      }
      client.Record(CreationEvent(cd));
      return None;
    }

    method TryDelete(req: Request) returns (err: Option<Error>)
      modifies client
      ensures client.View() == TryDeleteSpec(old(client.View()), req).state
      ensures err == TryDeleteSpec(old(client.View()), req).err
    {
      var e := client.Delete(McsKey(req.name, req.namespace));
      if e.Some? {
        if e.value == NotFound {
          return None;
        }
        return Some(Errorf(DeleteFailedContext, Api(e.value)));
      }
      client.Record(DeletionEvent(req));
      return None;
    }

    method CreateMultiClusterService(cd: ClusterDeployment) returns (err: Option<Error>)
      modifies client
      ensures client.View() == CreateMultiClusterServiceSpec(config, old(client.View()), cd).state
      ensures err == CreateMultiClusterServiceSpec(config, old(client.View()), cd).err
    {
      var mcs := PropagationMcs(config, cd);
      var e := client.Create(Key(MultiClusterServiceKind, "", mcs.name), MultiClusterServiceObj(mcs));
      if e.Some? {
        if e.value == AlreadyExists {
          return None;
        }
        return Some(Api(e.value));
      }
      return None;
    }
  }

  // ---------------------------------------------------------------------------
  // Properties

  /** TryCreate in closed form: an existing descriptor is left alone with no
      event, a failing existence check is reported with nothing written, and an
      absent one is written and announced. */
  lemma TryCreateEffect(cfg: Config, s: State, cd: ClusterDeployment)
    ensures var o := TryCreateSpec(cfg, s, cd);
      var k := McsKey(cd.name, cd.namespace);
      && (k in s.failing ==> o == Outcome(s, Some(Errorf(CheckFailedContext, Api(Unavailable)))))
      && (k !in s.failing && k in s.objects ==> o == Outcome(s, None))
      && (k !in s.failing && k !in s.objects ==>
            && o.err.None?
            && o.state.objects == s.objects[k := MultiClusterServiceObj(PropagationMcs(cfg, cd))]
            && o.state.events == s.events + [CreationEvent(cd)])
      && o.state.failing == s.failing
  {
  }

  /** The cluster's readiness plays no part: TryCreate reads neither its
      conditions nor anything else beyond its name, namespace and generation. */
  lemma TryCreateIgnoresReadiness(cfg: Config, s: State, cd: ClusterDeployment, conditions: seq<Condition>)
    ensures TryCreateSpec(cfg, s, cd.(conditions := conditions)) == TryCreateSpec(cfg, s, cd)
  {
    var cd2 := cd.(conditions := conditions);
    assert PropagationMcs(cfg, cd2) == PropagationMcs(cfg, cd);
    assert CreationEvent(cd2) == CreationEvent(cd);
  }

  /** The remote secret reaches clusters labelled "member" only: the deprecated
      "child" value that the controller still accepts is not selected. */
  lemma PropagatesToMembersOnly(cfg: Config, cd: ClusterDeployment, labels: map<string, string>)
    ensures MatchLabels(PropagationMcs(cfg, cd).clusterSelector, labels) <==> LabelValue(labels, IstioRoleLabel) == "member"
    ensures LabelValue(labels, IstioRoleLabel) == "child" ==> !MatchLabels(PropagationMcs(cfg, cd).clusterSelector, labels)
  {
    MemberSelectorMatches(labels);
  }

  lemma TryCreateIdempotent(cfg: Config, s: State, cd: ClusterDeployment)
    requires TryCreateSpec(cfg, s, cd).err.None?
    ensures var s1 := TryCreateSpec(cfg, s, cd).state;
      TryCreateSpec(cfg, s1, cd) == Outcome(s1, None)
  {
    TryCreateEffect(cfg, s, cd);
  }

  /** TryDelete: success leaves no descriptor; the event is recorded exactly
      when a descriptor was removed; nothing else moves. */
  lemma TryDeleteEffect(s: State, req: Request)
    ensures var o := TryDeleteSpec(s, req);
      var k := McsKey(req.name, req.namespace);
      && (o.err.None? <==> k !in s.failing)
      && (o.err.None? ==> k !in o.state.objects)
      && (o.state.events == s.events + [DeletionEvent(req)] <==> k in s.objects && k !in s.failing)
      && (o.state.events == s.events || o.state.events == s.events + [DeletionEvent(req)])
      && (forall k' :: k' != k ==>
            (k' in o.state.objects <==> k' in s.objects) && (k' in s.objects ==> o.state.objects[k'] == s.objects[k']))
  {
    assert s.events != s.events + [DeletionEvent(req)];
  }

  lemma TryDeleteIdempotent(s: State, req: Request)
    requires TryDeleteSpec(s, req).err.None?
    ensures var s1 := TryDeleteSpec(s, req).state;
      TryDeleteSpec(s1, req) == Outcome(s1, None)
  {
  }

  /** A created descriptor is removed by deleting the same cluster's request. */
  lemma CreateThenDelete(cfg: Config, s: State, cd: ClusterDeployment)
    requires TryCreateSpec(cfg, s, cd).err.None?
    ensures var s1 := TryCreateSpec(cfg, s, cd).state;
      var o := TryDeleteSpec(s1, Request(cd.name, cd.namespace));
      && o.err.None?
      && McsKey(cd.name, cd.namespace) !in o.state.objects
      && o.state.events == s1.events + [DeletionEvent(Request(cd.name, cd.namespace))]
  {
    TryCreateEffect(cfg, s, cd);
  }
}
