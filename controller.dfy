/** internal/controller/clusterdeployment_controller.go: the reconciler of
    ClusterDeployments. A cluster that exists gets its remote secret, its CA
    certificate and its propagation descriptor, in that order; a cluster that
    is gone has them deleted in the same order. The first failure is recorded
    as a warning event and ends the pass. */
module Controller {
  import opened Wrappers
  import opened Resources
  import opened Store
  import opened Utils
  import RemoteSecret
  import Cert
  import Multicluster
  import RemoteSecretManager

  // Reasons, messages and keys of the warnings the passes record.
  const SecretDeletionFailed := "SecretDeletionFailed"
  const SecretDeletionMessage := "Failed to delete remote secret"
  const IstioCertDeletionFailed := "IstioCertDeletionFailed"
  const IstioCertDeletionMessage := "Failed to delete istio certificate"
  const McsDeletionFailed := "MultiClusterServiceDeletionFailed"
  const McsDeletionMessage := "Failed to delete MultiClusterService"
  const SecretCreationFailed := "SecretCreationFailed"
  const SecretCreationMessage := "Failed to create remote secret"
  const IstioCertCreationFailed := "IstioCertCreationFailed"
  const IstioCertCreationMessage := "Failed to create istio CA certificate"
  const McsCreationFailed := "MultiClusterServiceCreationFailed"
  const McsCreationMessage := "Failed to create MultiClusterService"
  const RemoteSecretNameKey := "remoteSecretName"
  const CertNameKey := "certName"
  const McsNameKey := "multiClusterServiceName"

  /** The event filter: only clusters whose istio-role label holds an expected
      value reach the reconciler. A missing label reads as "", which is not
      an expected value, so the label must be present. */
  predicate EventFilter(labels: map<string, string>): (b: bool)
    ensures b <==> IstioRoleLabel in labels && labels[IstioRoleLabel] in IstioRoleExpectedValues
  {
    LabelValue(labels, IstioRoleLabel) in IstioRoleExpectedValues
  }

  lemma EventFilterAccepts(labels: map<string, string>)
    ensures EventFilter(labels) <==>
      (IstioRoleLabel in labels && (labels[IstioRoleLabel] == "member" || labels[IstioRoleLabel] == "child"))
  {
    if IstioRoleLabel !in labels {
      assert LabelValue(labels, IstioRoleLabel) == "";
      assert "" != IstioRoleExpectedValues[0] && "" != IstioRoleExpectedValues[1];
    }
  }

  /** GetClusterDeploymentStub: name and namespace only, generation zero. */
  function ClusterStub(req: Request): (cd: ClusterDeployment)
    ensures cd.name == req.name && cd.namespace == req.namespace
    ensures GetEventsAnnotations(cd.generation) == map["generation" := "nil"]
  {
    ClusterDeployment(req.name, req.namespace, map[], 0, "", "", [])
  }

  /** The warning LogEvent records for a failed step. */
  function FailureEvent(reason: string, message: string, obj: ClusterDeployment, err: Error, key: string, value: string): Event {
    Event(obj.name, obj.namespace, Warning, reason, GetEventsAnnotations(obj.generation),
      message + Suffix(EventArgs(Some(err), [Str(key), Str(value)])))
  }

  /** The warning names the failing object and carries the error and the name
      of the resource at stake in its message. */
  lemma FailureEventContents(reason: string, message: string, obj: ClusterDeployment, err: Error, key: string, value: string)
    ensures var e := FailureEvent(reason, message, obj, err, key, value);
      && e.eventType == Warning && e.reason == reason
      && e.objectName == obj.name && e.objectNamespace == obj.namespace
      && e.message == message + KeyText(ErrKey) + GoSyntax(ErrArg(err)) + KeyText(key) + GoSyntax(Str(value))
  {
    FailureMessage(err, key, value);
  }

  /** A step's outcome, with its failure (if any) recorded as a warning about
      `obj` naming the resource at stake. */
  function Reported(o: Outcome, reason: string, message: string, obj: ClusterDeployment, key: string, value: string)
    : (r: Outcome)
    ensures r.err == o.err && r.state.objects == o.state.objects && r.state.failing == o.state.failing
    ensures r.state.events == o.state.events + (if o.err.Some? then [FailureEvent(reason, message, obj, o.err.value, key, value)] else [])
  {
    if o.err.Some? then Outcome(o.state.Emit(FailureEvent(reason, message, obj, o.err.value, key, value)), o.err) else o
  }

  // ---------------------------------------------------------------------------
  // The passes as store transitions

  function TryDeleteResourcesSpec(cfg: Config, s: State, req: Request): Outcome {
    var stub := ClusterStub(req);
    var o1 := RemoteSecretManager.TryDeleteSpec(cfg, s, req);
    if o1.err.Some? then
      Reported(o1, SecretDeletionFailed, SecretDeletionMessage, stub,
          RemoteSecretNameKey, RemoteSecret.GetRemoteSecretName(req.name, req.namespace))
    else
      var o2 := Cert.TryDeleteSpec(cfg, o1.state, req);
      if o2.err.Some? then
        Reported(o2, IstioCertDeletionFailed, IstioCertDeletionMessage, stub,
          CertNameKey, Cert.GetCertName(cfg, req.name, req.namespace))
      else
        var o3 := Multicluster.TryDeleteSpec(o2.state, req);
        Reported(o3, McsDeletionFailed, McsDeletionMessage, stub,
          McsNameKey, Multicluster.GetMultiClusterServiceName(req.name, req.namespace))
  }

  function TryCreateResourcesSpec(cfg: Config, creator: RemoteSecretManager.Creator, s: State, req: Request, cd: ClusterDeployment)
    : Outcome
  {
    var o1 := RemoteSecretManager.TryCreateSpec(cfg, creator, s, cd);
    if o1.err.Some? then
      Reported(o1, SecretCreationFailed, SecretCreationMessage, cd,
          RemoteSecretNameKey, RemoteSecret.GetRemoteSecretName(req.name, req.namespace))
    else
      var o2 := Cert.TryCreateSpec(cfg, o1.state, cd);
      if o2.err.Some? then
        Reported(o2, IstioCertCreationFailed, IstioCertCreationMessage, cd,
          CertNameKey, Cert.GetCertName(cfg, req.name, req.namespace))
      else
        var o3 := Multicluster.TryCreateSpec(cfg, o2.state, cd);
        Reported(o3, McsCreationFailed, McsCreationMessage, cd,
          McsNameKey, Multicluster.GetMultiClusterServiceName(req.name, req.namespace))
  }

  /** Reconcile: a cluster that cannot be found is cleaned up after; one that
      cannot be read is an error; one that is read is provisioned. The
      returned ctrl.Result is always the zero one and is not modelled. */
  function ReconcileSpec(cfg: Config, creator: RemoteSecretManager.Creator, s: State, req: Request): Outcome {
    match s.GetClusterDeployment(req.namespace, req.name)
    case Err(NotFound) => TryDeleteResourcesSpec(cfg, s, req)
    case Err(e) => Outcome(s, Some(Api(e)))
    case Ok(cd) => TryCreateResourcesSpec(cfg, creator, s, req, cd)
  }

  // ---------------------------------------------------------------------------
  // The reconciler

  class ClusterDeploymentReconciler {
    const client: Store
    const config: Config
    const remoteSecretManager: RemoteSecretManager.RemoteSecretManager
    const istioCertManager: Cert.CertManager
    const remoteSecretPropagationManager: Multicluster.RemoteSecretPropagationManager

    /** The three managers work on the reconciler's own client and settings. */
    predicate Valid() {
      && remoteSecretManager.client == client && remoteSecretManager.config == config
      && istioCertManager.client == client && istioCertManager.config == config
      && remoteSecretPropagationManager.client == client && remoteSecretPropagationManager.config == config
    }

    constructor (client: Store, config: Config, creator: RemoteSecretManager.Creator)
      ensures Valid()
      ensures this.client == client && this.config == config && remoteSecretManager.creator == creator
    {
      this.client := client;
      this.config := config;
      this.remoteSecretManager := new RemoteSecretManager.RemoteSecretManager(client, config, creator);
      this.istioCertManager := new Cert.CertManager(client, config);
      this.remoteSecretPropagationManager := new Multicluster.RemoteSecretPropagationManager(client, config);
    }

    method Reconcile(req: Request) returns (err: Option<Error>)
      requires Valid()
      modifies client
      ensures client.View() == ReconcileSpec(config, remoteSecretManager.creator, old(client.View()), req).state
      ensures err == ReconcileSpec(config, remoteSecretManager.creator, old(client.View()), req).err
    {
      var clusterDeployment := client.View().GetClusterDeployment(req.namespace, req.name);
      if clusterDeployment.Err? {
        if clusterDeployment.error == NotFound {
          err := TryDeleteResources(req);
          return;
        }
        return Some(Api(clusterDeployment.error));
      }
      err := TryCreateResources(req, clusterDeployment.value);
    }

    method TryDeleteResources(req: Request) returns (err: Option<Error>)
      requires Valid()
      modifies client
      ensures client.View() == TryDeleteResourcesSpec(config, old(client.View()), req).state
      ensures err == TryDeleteResourcesSpec(config, old(client.View()), req).err
    {
      var clusterDeployment := ClusterStub(req);
      err := remoteSecretManager.TryDelete(req);
      if err.Some? {
        var e := LogEvent(SecretDeletionFailed, SecretDeletionMessage, clusterDeployment, err,
          [Str(RemoteSecretNameKey), Str(RemoteSecret.GetRemoteSecretName(req.name, req.namespace))]);
        client.Record(e);
        return;
      }
      err := istioCertManager.TryDelete(req);
      if err.Some? {
        var e := LogEvent(IstioCertDeletionFailed, IstioCertDeletionMessage, clusterDeployment, err,
          [Str(CertNameKey), Str(Cert.GetCertName(config, req.name, req.namespace))]);
        client.Record(e);
        return;
      }
      err := remoteSecretPropagationManager.TryDelete(req);
      if err.Some? {
        var e := LogEvent(McsDeletionFailed, McsDeletionMessage, clusterDeployment, err,
          [Str(McsNameKey), Str(Multicluster.GetMultiClusterServiceName(req.name, req.namespace))]);
        client.Record(e);
        return;
      }
    }

    method TryCreateResources(req: Request, clusterDeployment: ClusterDeployment) returns (err: Option<Error>)
      requires Valid()
      modifies client
      ensures client.View() == TryCreateResourcesSpec(config, remoteSecretManager.creator, old(client.View()), req, clusterDeployment).state
      ensures err == TryCreateResourcesSpec(config, remoteSecretManager.creator, old(client.View()), req, clusterDeployment).err
    {
      err := remoteSecretManager.TryCreate(clusterDeployment);
      if err.Some? {
        var e := LogEvent(SecretCreationFailed, SecretCreationMessage, clusterDeployment, err,
          [Str(RemoteSecretNameKey), Str(RemoteSecret.GetRemoteSecretName(req.name, req.namespace))]);
        client.Record(e);
        return;
      }
      err := istioCertManager.TryCreate(clusterDeployment);
      if err.Some? {
        var e := LogEvent(IstioCertCreationFailed, IstioCertCreationMessage, clusterDeployment, err,
          [Str(CertNameKey), Str(Cert.GetCertName(config, req.name, req.namespace))]);
        client.Record(e);
        return;
      }
      err := remoteSecretPropagationManager.TryCreate(clusterDeployment);
      if err.Some? {
        var e := LogEvent(McsCreationFailed, McsCreationMessage, clusterDeployment, err,
          [Str(McsNameKey), Str(Multicluster.GetMultiClusterServiceName(req.name, req.namespace))]);
        client.Record(e);
        return;
      }
    }
  }

  // ---------------------------------------------------------------------------
  // Properties

  /** Reconcile deletes for a cluster that is not found, creates for one that is
      read, and for a read that fails returns the error with nothing written. */
  lemma ReconcileDispatch(cfg: Config, creator: RemoteSecretManager.Creator, s: State, req: Request)
    ensures var o := ReconcileSpec(cfg, creator, s, req);
      var k := Key(ClusterDeploymentKind, req.namespace, req.name);
      && (k in s.failing ==> o == Outcome(s, Some(Api(Unavailable))))
      && (k !in s.failing && k !in s.objects ==> o == TryDeleteResourcesSpec(cfg, s, req))
      && (k !in s.failing && k in s.objects && s.objects[k].ClusterDeploymentObj? ==>
            o == TryCreateResourcesSpec(cfg, creator, s, req, s.objects[k].cd))
  {
  }

  /** All the keys of one cluster are distinct: its remote secret, its
      certificate and its two descriptors. */
  lemma ClusterKeysDistinct(cfg: Config, name: string, namespace: string)
    ensures Multicluster.McsKey(name, namespace) != Cert.CaMcsKey(cfg, name, namespace)
    ensures Multicluster.McsKey(name, namespace) != Cert.CertKey(cfg, name, namespace)
    ensures RemoteSecretManager.RemoteSecretKey(cfg, name, namespace) != Cert.CertKey(cfg, name, namespace)
  {
    NameHashPrefixesSeparate(Multicluster.PropagationPrefix, Cert.CaCertPropagationPrefix,
      namespace + "-" + name, Cert.GetCertName(cfg, name, namespace));
  }

  /** A failed step ends the pass: when the remote secret cannot be made, neither
      the certificate nor either descriptor is touched and the store holds just
      what it held, plus one warning; when the certificate step fails, the
      propagation descriptor is untouched. */
  lemma CreateFailureStops(cfg: Config, creator: RemoteSecretManager.Creator, s: State, req: Request, cd: ClusterDeployment)
    ensures var o := TryCreateResourcesSpec(cfg, creator, s, req, cd);
      var o1 := RemoteSecretManager.TryCreateSpec(cfg, creator, s, cd);
      var mk := Multicluster.McsKey(cd.name, cd.namespace);
      && (o1.err.Some? ==>
            && o.err == o1.err
            && o.state.objects == s.objects
            && o.state.events == s.events + [FailureEvent(SecretCreationFailed, SecretCreationMessage, cd,
                 o1.err.value, RemoteSecretNameKey, RemoteSecret.GetRemoteSecretName(req.name, req.namespace))])
      && (o1.err.None? && Cert.TryCreateSpec(cfg, o1.state, cd).err.Some? ==>
            && o.err == Cert.TryCreateSpec(cfg, o1.state, cd).err
            && (mk in o.state.objects <==> mk in o1.state.objects)
            && (mk in o1.state.objects ==> o.state.objects[mk] == o1.state.objects[mk]))
  {
    RemoteSecretManager.FailedTryCreateWritesNothing(cfg, creator, s, cd);
    if RemoteSecretManager.TryCreateSpec(cfg, creator, s, cd).err.None? {
      var o1 := RemoteSecretManager.TryCreateSpec(cfg, creator, s, cd);
      Cert.TryCreateFrame(cfg, o1.state, cd);
      ClusterKeysDistinct(cfg, cd.name, cd.namespace);
    }
  }

  /** `t` holds just what `s` holds at every key outside `keys`. */
  ghost predicate SameOutside(s: State, t: State, keys: set<Key>) {
    forall k :: k !in keys ==> (k in t.objects <==> k in s.objects) && (k in s.objects ==> t.objects[k] == s.objects[k])
  }

  // Each delete step removes the keys it names and keeps the rest of the store.

  lemma RemoteSecretDeleteStep(cfg: Config, s: State, req: Request)
    ensures var o := RemoteSecretManager.TryDeleteSpec(cfg, s, req);
      var rk := RemoteSecretManager.RemoteSecretKey(cfg, req.name, req.namespace);
      && o.state.failing == s.failing
      && o.state.objects == (if o.err.None? then s.objects - {rk} else s.objects)
      && (o.err.None? ==> rk !in s.failing)
      && (rk !in s.objects && rk !in s.failing ==> o == Outcome(s, None))
  {
    var rk := RemoteSecretManager.RemoteSecretKey(cfg, req.name, req.namespace);
    if rk !in s.objects {
      assert s.objects - {rk} == s.objects;
    }
  }

  lemma CertDeleteStep(cfg: Config, s: State, req: Request)
    ensures var o := Cert.TryDeleteSpec(cfg, s, req);
      var ck := Cert.CertKey(cfg, req.name, req.namespace);
      var cmk := Cert.CaMcsKey(cfg, req.name, req.namespace);
      && o.state.failing == s.failing
      && (o.err.None? && ck in s.objects ==> o.state.objects == s.objects - {ck, cmk})
      && (o.err.None? && ck !in s.objects ==> o.state.objects == s.objects)
      && (o.err.Some? ==> o.state.objects == s.objects || o.state.objects == s.objects - {ck})
      && (o.err.None? ==> ck !in s.failing)
      && (ck !in s.objects && ck !in s.failing ==> o == Outcome(s, None))
  {
    var ck := Cert.CertKey(cfg, req.name, req.namespace);
    var cmk := Cert.CaMcsKey(cfg, req.name, req.namespace);
    if ck in s.objects && ck !in s.failing && cmk !in s.objects {
      assert s.objects - {ck} == s.objects - {ck, cmk};
    }
    if ck in s.objects && ck !in s.failing && cmk in s.objects && cmk !in s.failing {
      assert s.objects - {ck} - {cmk} == s.objects - {ck, cmk};
    }
  }

  lemma PropagationDeleteStep(s: State, req: Request)
    ensures var o := Multicluster.TryDeleteSpec(s, req);
      var mk := Multicluster.McsKey(req.name, req.namespace);
      && o.state.failing == s.failing
      && o.state.objects == (if o.err.None? then s.objects - {mk} else s.objects)
      && (o.err.None? ==> mk !in s.failing)
      && (mk !in s.objects && mk !in s.failing ==> o == Outcome(s, None))
  {
    var mk := Multicluster.McsKey(req.name, req.namespace);
    if mk !in s.objects {
      assert s.objects - {mk} == s.objects;
    }
  }

  /** A delete pass returns nil only when all three steps do, and then it is
      the last step's outcome, with no warning added. */
  lemma DeletePassSucceeded(cfg: Config, s: State, req: Request)
    ensures var o := TryDeleteResourcesSpec(cfg, s, req);
      var o1 := RemoteSecretManager.TryDeleteSpec(cfg, s, req);
      var o2 := Cert.TryDeleteSpec(cfg, o1.state, req);
      var o3 := Multicluster.TryDeleteSpec(o2.state, req);
      o.err.None? <==> o1.err.None? && o2.err.None? && o3.err.None? && o == o3
  {
  }

  /** A delete pass that returns nil leaves no remote secret, no certificate and
      no propagation descriptor, and the CA descriptor goes too when the
      certificate was still there. */
  lemma DeletePassRemoves(cfg: Config, s: State, req: Request)
    ensures var o := TryDeleteResourcesSpec(cfg, s, req);
      var rk := RemoteSecretManager.RemoteSecretKey(cfg, req.name, req.namespace);
      var ck := Cert.CertKey(cfg, req.name, req.namespace);
      var cmk := Cert.CaMcsKey(cfg, req.name, req.namespace);
      var mk := Multicluster.McsKey(req.name, req.namespace);
      && (o.err.None? ==> rk !in o.state.objects && ck !in o.state.objects && mk !in o.state.objects)
      && (o.err.None? && ck in s.objects ==> cmk !in o.state.objects)
  {
    DeletePassSucceeded(cfg, s, req);
    var o1 := RemoteSecretManager.TryDeleteSpec(cfg, s, req);
    RemoteSecretDeleteStep(cfg, s, req);
    var o2 := Cert.TryDeleteSpec(cfg, o1.state, req);
    CertDeleteStep(cfg, o1.state, req);
    PropagationDeleteStep(o2.state, req);
  }

  lemma SameOutsideTrans(s: State, t: State, u: State, keys: set<Key>)
    requires SameOutside(s, t, keys) && SameOutside(t, u, keys)
    ensures SameOutside(s, u, keys)
  {
  }

  lemma RemoteSecretDeleteFrame(cfg: Config, s: State, req: Request, keys: set<Key>)
    requires RemoteSecretManager.RemoteSecretKey(cfg, req.name, req.namespace) in keys
    ensures SameOutside(s, RemoteSecretManager.TryDeleteSpec(cfg, s, req).state, keys)
  {
    RemoteSecretDeleteStep(cfg, s, req);
  }

  lemma CertDeleteFrame(cfg: Config, s: State, req: Request, keys: set<Key>)
    requires Cert.CertKey(cfg, req.name, req.namespace) in keys && Cert.CaMcsKey(cfg, req.name, req.namespace) in keys
    ensures SameOutside(s, Cert.TryDeleteSpec(cfg, s, req).state, keys)
  {
    CertDeleteStep(cfg, s, req);
  }

  lemma PropagationDeleteFrame(s: State, req: Request, keys: set<Key>)
    requires Multicluster.McsKey(req.name, req.namespace) in keys
    ensures SameOutside(s, Multicluster.TryDeleteSpec(s, req).state, keys)
  {
    PropagationDeleteStep(s, req);
  }

  /** The pass leaves the store of the step that ended it, with at most a
      warning added. */
  lemma DeletePassStages(cfg: Config, s: State, req: Request)
    ensures var o := TryDeleteResourcesSpec(cfg, s, req);
      var o1 := RemoteSecretManager.TryDeleteSpec(cfg, s, req);
      var o2 := Cert.TryDeleteSpec(cfg, o1.state, req);
      var o3 := Multicluster.TryDeleteSpec(o2.state, req);
      o.state.objects == (if o1.err.Some? then o1.state.objects else if o2.err.Some? then o2.state.objects else o3.state.objects)
  {
  }

  /** A delete pass touches no key but the cluster's four. */
  lemma DeletePassFrame(cfg: Config, s: State, req: Request)
    ensures var rk := RemoteSecretManager.RemoteSecretKey(cfg, req.name, req.namespace);
      var ck := Cert.CertKey(cfg, req.name, req.namespace);
      var cmk := Cert.CaMcsKey(cfg, req.name, req.namespace);
      var mk := Multicluster.McsKey(req.name, req.namespace);
      SameOutside(s, TryDeleteResourcesSpec(cfg, s, req).state, {rk, ck, cmk, mk})
  {
    var all := {RemoteSecretManager.RemoteSecretKey(cfg, req.name, req.namespace),
      Cert.CertKey(cfg, req.name, req.namespace), Cert.CaMcsKey(cfg, req.name, req.namespace),
      Multicluster.McsKey(req.name, req.namespace)};
    var o1 := RemoteSecretManager.TryDeleteSpec(cfg, s, req);
    var o2 := Cert.TryDeleteSpec(cfg, o1.state, req);
    var o3 := Multicluster.TryDeleteSpec(o2.state, req);
    DeletePassStages(cfg, s, req);
    RemoteSecretDeleteFrame(cfg, s, req, all);
    CertDeleteFrame(cfg, o1.state, req, all);
    PropagationDeleteFrame(o2.state, req, all);
    SameOutsideTrans(s, o1.state, o2.state, all);
    SameOutsideTrans(s, o2.state, o3.state, all);
  }

  /** A second delete pass after one that returned nil does nothing. */
  lemma DeletePassIdempotent(cfg: Config, s: State, req: Request)
    requires TryDeleteResourcesSpec(cfg, s, req).err.None?
    ensures var s1 := TryDeleteResourcesSpec(cfg, s, req).state;
      TryDeleteResourcesSpec(cfg, s1, req) == Outcome(s1, None)
  {
    var s1 := TryDeleteResourcesSpec(cfg, s, req).state;
    DeletePassRemoves(cfg, s, req);
    DeletePassSucceeded(cfg, s, req);
    var o1 := RemoteSecretManager.TryDeleteSpec(cfg, s, req);
    RemoteSecretDeleteStep(cfg, s, req);
    var o2 := Cert.TryDeleteSpec(cfg, o1.state, req);
    CertDeleteStep(cfg, o1.state, req);
    PropagationDeleteStep(o2.state, req);
    assert s1.failing == s.failing;
    RemoteSecretDeleteStep(cfg, s1, req);
    CertDeleteStep(cfg, s1, req);
    PropagationDeleteStep(s1, req);
  }

  /** The certificate gates the deletion of its CA descriptor: a descriptor
      whose certificate is already gone survives a delete pass that returns nil. */
  lemma CaDescriptorOutlivesMissingCertificate(cfg: Config, req: Request, m: MultiClusterService)
    ensures var cmk := Cert.CaMcsKey(cfg, req.name, req.namespace);
      var s := State(map[cmk := MultiClusterServiceObj(m)], {}, []);
      var o := TryDeleteResourcesSpec(cfg, s, req);
      o.err.None? && cmk in o.state.objects
  {
    var cmk := Cert.CaMcsKey(cfg, req.name, req.namespace);
    var s := State(map[cmk := MultiClusterServiceObj(m)], {}, []);
    ClusterKeysDistinct(cfg, req.name, req.namespace);
    assert RemoteSecretManager.RemoteSecretKey(cfg, req.name, req.namespace) != cmk;
    RemoteSecretDeleteStep(cfg, s, req);
    assert RemoteSecretManager.TryDeleteSpec(cfg, s, req) == Outcome(s, None);
    CertDeleteStep(cfg, s, req);
    assert Cert.TryDeleteSpec(cfg, s, req) == Outcome(s, None);
    PropagationDeleteStep(s, req);
    assert Multicluster.TryDeleteSpec(s, req) == Outcome(s, None);
  }

  // Each create step writes only the keys it names, and a step that returned
  // nil leaves its object in the store.

  lemma RemoteSecretCreateStep(cfg: Config, creator: RemoteSecretManager.Creator, s: State, cd: ClusterDeployment)
    requires RemoteSecretManager.CreatorNamesSecret(cfg, creator) && cd.name != ""
    ensures var o := RemoteSecretManager.TryCreateSpec(cfg, creator, s, cd);
      var rk := RemoteSecretManager.RemoteSecretKey(cfg, cd.name, cd.namespace);
      && o.state.failing == s.failing
      && SameOutside(s, o.state, {rk})
      && (o.err.None? && IsReady(cd) ==> rk in o.state.objects && rk !in s.failing)
  {
    var rk := RemoteSecretManager.RemoteSecretKey(cfg, cd.name, cd.namespace);
    var o := RemoteSecretManager.TryCreateSpec(cfg, creator, s, cd);
    RemoteSecretManager.TryCreateEvent(cfg, creator, s, cd);
    if IsReady(cd) && rk !in s.objects && rk !in s.failing {
      var kubeconfig := RemoteSecretManager.GetKubeconfigFromSecret(s, cd);
      if kubeconfig.Ok? && creator(kubeconfig.value, cd).Ok? {
        assert RemoteSecretManager.SecretKey(creator(kubeconfig.value, cd).value) == rk;
      }
    }
  }

  /** The secret a ready cluster gets when it had none: the creator's, built
      from the cluster's kubeconfig secret. */
  lemma RemoteSecretCreated(cfg: Config, creator: RemoteSecretManager.Creator, s: State, cd: ClusterDeployment)
    requires RemoteSecretManager.CreatorNamesSecret(cfg, creator) && cd.name != ""
    requires IsReady(cd) && RemoteSecretManager.RemoteSecretKey(cfg, cd.name, cd.namespace) !in s.objects
    requires RemoteSecretManager.TryCreateSpec(cfg, creator, s, cd).err.None?
    ensures var kubeconfig := RemoteSecretManager.GetKubeconfigFromSecret(s, cd);
      kubeconfig.Ok? && creator(kubeconfig.value, cd).Ok?
    ensures var kubeconfig := RemoteSecretManager.GetKubeconfigFromSecret(s, cd);
      var rk := RemoteSecretManager.RemoteSecretKey(cfg, cd.name, cd.namespace);
      RemoteSecretManager.TryCreateSpec(cfg, creator, s, cd).state.objects
        == s.objects[rk := SecretObj(creator(kubeconfig.value, cd).value)]
  {
    var rk := RemoteSecretManager.RemoteSecretKey(cfg, cd.name, cd.namespace);
    var kubeconfig := RemoteSecretManager.GetKubeconfigFromSecret(s, cd);
    assert kubeconfig.Ok?;
    assert RemoteSecretManager.SecretKey(creator(kubeconfig.value, cd).value) == rk;
  }

  lemma CertCreateStep(cfg: Config, s: State, cd: ClusterDeployment)
    ensures var o := Cert.TryCreateSpec(cfg, s, cd);
      var ck := Cert.CertKey(cfg, cd.name, cd.namespace);
      var cmk := Cert.CaMcsKey(cfg, cd.name, cd.namespace);
      && o.state.failing == s.failing
      && SameOutside(s, o.state, {ck, cmk})
      && (o.err.None? ==> ck in o.state.objects && ck !in s.failing)
      && (o.err.None? && ck !in s.objects ==>
            o.state.objects[ck] == CertificateObj(Cert.GenerateClusterCACertificate(cfg, cd)))
  {
    Cert.CertificateComesFirst(cfg, s, cd);
    Cert.TryCreateFrame(cfg, s, cd);
  }

  lemma PropagationCreateStep(cfg: Config, s: State, cd: ClusterDeployment)
    ensures var o := Multicluster.TryCreateSpec(cfg, s, cd);
      var mk := Multicluster.McsKey(cd.name, cd.namespace);
      && o.state.failing == s.failing
      && SameOutside(s, o.state, {mk})
      && (o.err.None? ==> mk in o.state.objects && mk !in s.failing)
      && (o.err.None? && mk !in s.objects ==>
            o.state.objects[mk] == MultiClusterServiceObj(Multicluster.PropagationMcs(cfg, cd)))
  {
    Multicluster.TryCreateEffect(cfg, s, cd);
  }

  /** A create pass returns nil only when all three steps do, and then it is
      the last step's outcome, with no warning added. */
  lemma CreatePassSucceeded(cfg: Config, creator: RemoteSecretManager.Creator, s: State, req: Request, cd: ClusterDeployment)
    ensures var o := TryCreateResourcesSpec(cfg, creator, s, req, cd);
      var o1 := RemoteSecretManager.TryCreateSpec(cfg, creator, s, cd);
      var o2 := Cert.TryCreateSpec(cfg, o1.state, cd);
      var o3 := Multicluster.TryCreateSpec(cfg, o2.state, cd);
      o.err.None? <==> o1.err.None? && o2.err.None? && o3.err.None? && o == o3
  {
  }

  /** Three writes to disjoint keys compose: the store after all three agrees
      with each step's store at its keys and with the first outside all of them. */
  lemma CreateChain(s: State, t1: State, t2: State, t3: State, rk: Key, ck: Key, cmk: Key, mk: Key)
    requires rk != ck && rk != cmk && rk != mk && ck != mk && cmk != mk
    requires SameOutside(s, t1, {rk}) && SameOutside(t1, t2, {ck, cmk}) && SameOutside(t2, t3, {mk})
    ensures SameOutside(s, t3, {rk, ck, cmk, mk})
    ensures AgreesAt(t1, t3, rk) && AgreesAt(t2, t3, ck) && AgreesAt(t2, t3, cmk)
    ensures AgreesAt(s, t2, mk) && AgreesAt(s, t1, ck)
  {
    var all := {rk, ck, cmk, mk};
    assert SameOutside(s, t1, all);
    assert SameOutside(t1, t2, all);
    assert SameOutside(t2, t3, all);
    SameOutsideTrans(s, t1, t2, all);
    SameOutsideTrans(s, t2, t3, all);
  }

  /** A create pass that returns nil leaves the cluster's certificate and
      propagation descriptor in the store, and, for a ready cluster, its remote
      secret; each one that was missing holds what its step builds; no other
      key changes. */
  lemma CreatePassEffect(cfg: Config, creator: RemoteSecretManager.Creator, s: State, req: Request, cd: ClusterDeployment)
    requires RemoteSecretManager.CreatorNamesSecret(cfg, creator) && cd.name != ""
    requires TryCreateResourcesSpec(cfg, creator, s, req, cd).err.None?
    ensures var o := TryCreateResourcesSpec(cfg, creator, s, req, cd);
      var rk := RemoteSecretManager.RemoteSecretKey(cfg, cd.name, cd.namespace);
      var ck := Cert.CertKey(cfg, cd.name, cd.namespace);
      var mk := Multicluster.McsKey(cd.name, cd.namespace);
      && (IsReady(cd) ==> rk in o.state.objects)
      && ck in o.state.objects && mk in o.state.objects
      && (ck !in s.objects ==> o.state.objects[ck] == CertificateObj(Cert.GenerateClusterCACertificate(cfg, cd)))
      && (mk !in s.objects ==> o.state.objects[mk] == MultiClusterServiceObj(Multicluster.PropagationMcs(cfg, cd)))
      && o.state.failing == s.failing
      && SameOutside(s, o.state, {rk, ck, Cert.CaMcsKey(cfg, cd.name, cd.namespace), mk})
    ensures var rk := RemoteSecretManager.RemoteSecretKey(cfg, cd.name, cd.namespace);
      var kubeconfig := RemoteSecretManager.GetKubeconfigFromSecret(s, cd);
      IsReady(cd) && rk !in s.objects ==>
        && kubeconfig.Ok? && creator(kubeconfig.value, cd).Ok?
        && rk in TryCreateResourcesSpec(cfg, creator, s, req, cd).state.objects
        && TryCreateResourcesSpec(cfg, creator, s, req, cd).state.objects[rk] == SecretObj(creator(kubeconfig.value, cd).value)
  {
    var rk := RemoteSecretManager.RemoteSecretKey(cfg, cd.name, cd.namespace);
    var ck := Cert.CertKey(cfg, cd.name, cd.namespace);
    var cmk := Cert.CaMcsKey(cfg, cd.name, cd.namespace);
    var mk := Multicluster.McsKey(cd.name, cd.namespace);
    CreatePassSucceeded(cfg, creator, s, req, cd);
    var o1 := RemoteSecretManager.TryCreateSpec(cfg, creator, s, cd);
    var o2 := Cert.TryCreateSpec(cfg, o1.state, cd);
    var o3 := Multicluster.TryCreateSpec(cfg, o2.state, cd);
    assert TryCreateResourcesSpec(cfg, creator, s, req, cd) == o3;
    ClusterKeysDistinct(cfg, cd.name, cd.namespace);
    RemoteSecretCreateStep(cfg, creator, s, cd);
    CertCreateStep(cfg, o1.state, cd);
    PropagationCreateStep(cfg, o2.state, cd);
    CreateChain(s, o1.state, o2.state, o3.state, rk, ck, cmk, mk);
    if IsReady(cd) && rk !in s.objects {
      RemoteSecretCreated(cfg, creator, s, cd);
    }
  }

  /** A pass whose three steps change nothing changes nothing. */
  lemma CreatePassNoOp(cfg: Config, creator: RemoteSecretManager.Creator, t: State, req: Request, cd: ClusterDeployment)
    requires RemoteSecretManager.TryCreateSpec(cfg, creator, t, cd) == Outcome(t, None)
    requires Cert.TryCreateSpec(cfg, t, cd) == Outcome(t, None)
    requires Multicluster.TryCreateSpec(cfg, t, cd) == Outcome(t, None)
    ensures TryCreateResourcesSpec(cfg, creator, t, req, cd) == Outcome(t, None)
  {
  }

  // A step finds nothing to do once its object is in place.

  lemma RemoteSecretSettled(cfg: Config, creator: RemoteSecretManager.Creator, t: State, cd: ClusterDeployment)
    requires var rk := RemoteSecretManager.RemoteSecretKey(cfg, cd.name, cd.namespace);
      IsReady(cd) ==> rk in t.objects && rk !in t.failing
    ensures RemoteSecretManager.TryCreateSpec(cfg, creator, t, cd) == Outcome(t, None)
  {
    RemoteSecretManager.TryCreateGates(cfg, creator, t, cd);
  }

  lemma PropagationSettled(cfg: Config, t: State, cd: ClusterDeployment)
    requires Multicluster.McsKey(cd.name, cd.namespace) in t.objects
    requires Multicluster.McsKey(cd.name, cd.namespace) !in t.failing
    ensures Multicluster.TryCreateSpec(cfg, t, cd) == Outcome(t, None)
  {
    Multicluster.TryCreateEffect(cfg, t, cd);
  }

  /** The certificate step after one that returned nil finds nothing to do on
      any later store that agrees at the keys it reads. */
  lemma CertSettled(cfg: Config, u: State, t: State, cd: ClusterDeployment)
    requires Cert.TryCreateSpec(cfg, u, cd).err.None?
    requires var u1 := Cert.TryCreateSpec(cfg, u, cd).state;
      && t.failing == u1.failing
      && AgreesAt(u1, t, Cert.CertKey(cfg, cd.name, cd.namespace))
      && AgreesAt(u1, t, Cert.CaMcsKey(cfg, cd.name, cd.namespace))
      && AgreesAt(u1, t, Key(CredentialKind, KcmSystemNamespace, cd.credential))
    ensures Cert.TryCreateSpec(cfg, t, cd) == Outcome(t, None)
  {
    Cert.TryCreateIdempotent(cfg, u, cd);
    Cert.TryCreateNoOpStable(cfg, Cert.TryCreateSpec(cfg, u, cd).state, t, cd);
  }

  /** What a first create pass that returned nil leaves for the second, at the
      keys the second pass looks at first: `u2` is the store after its
      certificate step and `t` the one it ends with. */
  ghost predicate FirstCreatePassLeft(cfg: Config, cd: ClusterDeployment, u2: State, t: State) {
    var rk := RemoteSecretManager.RemoteSecretKey(cfg, cd.name, cd.namespace);
    var mk := Multicluster.McsKey(cd.name, cd.namespace);
    && (IsReady(cd) ==> rk in t.objects && rk !in t.failing)
    && t.failing == u2.failing
    && mk in t.objects && mk !in t.failing
  }

  /** What a first create pass that returned nil leaves at the keys its
      certificate step reads, for the second pass. */
  ghost predicate FirstCreatePassKeptCert(cfg: Config, cd: ClusterDeployment, u2: State, t: State) {
    && AgreesAt(u2, t, Cert.CertKey(cfg, cd.name, cd.namespace))
    && AgreesAt(u2, t, Cert.CaMcsKey(cfg, cd.name, cd.namespace))
    && AgreesAt(u2, t, Key(CredentialKind, KcmSystemNamespace, cd.credential))
  }

  /** The credential the certificate step reads is not the propagation descriptor. */
  lemma CredentialKeyApart(cfg: Config, cd: ClusterDeployment)
    ensures Key(CredentialKind, KcmSystemNamespace, cd.credential) != Multicluster.McsKey(cd.name, cd.namespace)
  {
  }

  lemma FirstCreatePass(cfg: Config, creator: RemoteSecretManager.Creator, s: State, req: Request, cd: ClusterDeployment)
    requires RemoteSecretManager.CreatorNamesSecret(cfg, creator) && cd.name != ""
    requires TryCreateResourcesSpec(cfg, creator, s, req, cd).err.None?
    ensures var o1 := RemoteSecretManager.TryCreateSpec(cfg, creator, s, cd);
      var o2 := Cert.TryCreateSpec(cfg, o1.state, cd);
      && o2.err.None?
      && FirstCreatePassLeft(cfg, cd, o2.state, TryCreateResourcesSpec(cfg, creator, s, req, cd).state)
  {
    var rk := RemoteSecretManager.RemoteSecretKey(cfg, cd.name, cd.namespace);
    var ck := Cert.CertKey(cfg, cd.name, cd.namespace);
    var cmk := Cert.CaMcsKey(cfg, cd.name, cd.namespace);
    var mk := Multicluster.McsKey(cd.name, cd.namespace);
    CreatePassSucceeded(cfg, creator, s, req, cd);
    var o1 := RemoteSecretManager.TryCreateSpec(cfg, creator, s, cd);
    var o2 := Cert.TryCreateSpec(cfg, o1.state, cd);
    var o3 := Multicluster.TryCreateSpec(cfg, o2.state, cd);
    assert TryCreateResourcesSpec(cfg, creator, s, req, cd) == o3;
    ClusterKeysDistinct(cfg, cd.name, cd.namespace);
    RemoteSecretCreateStep(cfg, creator, s, cd);
    CertCreateStep(cfg, o1.state, cd);
    PropagationCreateStep(cfg, o2.state, cd);
    CreateChain(s, o1.state, o2.state, o3.state, rk, ck, cmk, mk);
  }

  lemma FirstCreatePassCert(cfg: Config, creator: RemoteSecretManager.Creator, s: State, req: Request, cd: ClusterDeployment)
    requires TryCreateResourcesSpec(cfg, creator, s, req, cd).err.None?
    ensures var o1 := RemoteSecretManager.TryCreateSpec(cfg, creator, s, cd);
      var o2 := Cert.TryCreateSpec(cfg, o1.state, cd);
      FirstCreatePassKeptCert(cfg, cd, o2.state, TryCreateResourcesSpec(cfg, creator, s, req, cd).state)
  {
    CreatePassSucceeded(cfg, creator, s, req, cd);
    var o1 := RemoteSecretManager.TryCreateSpec(cfg, creator, s, cd);
    var o2 := Cert.TryCreateSpec(cfg, o1.state, cd);
    var o3 := Multicluster.TryCreateSpec(cfg, o2.state, cd);
    assert TryCreateResourcesSpec(cfg, creator, s, req, cd) == o3;
    PropagationCreateStep(cfg, o2.state, cd);
    KeptCertOutsideDescriptor(cfg, cd, o2.state, o3.state);
  }

  /** Writing the propagation descriptor leaves what the certificate step reads. */
  lemma KeptCertOutsideDescriptor(cfg: Config, cd: ClusterDeployment, u2: State, t: State)
    requires SameOutside(u2, t, {Multicluster.McsKey(cd.name, cd.namespace)})
    ensures FirstCreatePassKeptCert(cfg, cd, u2, t)
  {
    ClusterKeysDistinct(cfg, cd.name, cd.namespace);
    CredentialKeyApart(cfg, cd);
  }

  /** The second pass on the store `t` the first one left finds each step done. */
  lemma SecondCreatePass(cfg: Config, creator: RemoteSecretManager.Creator, u1: State, u2: State, t: State,
                         req: Request, cd: ClusterDeployment)
    requires Cert.TryCreateSpec(cfg, u1, cd).err.None? && Cert.TryCreateSpec(cfg, u1, cd).state == u2
    requires FirstCreatePassLeft(cfg, cd, u2, t) && FirstCreatePassKeptCert(cfg, cd, u2, t)
    ensures TryCreateResourcesSpec(cfg, creator, t, req, cd) == Outcome(t, None)
  {
    RemoteSecretSettled(cfg, creator, t, cd);
    CertSettled(cfg, u1, t, cd);
    PropagationSettled(cfg, t, cd);
    CreatePassNoOp(cfg, creator, t, req, cd);
  }

  /** After a create pass that returned nil, a second one for the same cluster
      changes nothing and returns nil. */
  lemma CreatePassIdempotent(cfg: Config, creator: RemoteSecretManager.Creator, s: State, req: Request, cd: ClusterDeployment)
    requires RemoteSecretManager.CreatorNamesSecret(cfg, creator) && cd.name != ""
    requires TryCreateResourcesSpec(cfg, creator, s, req, cd).err.None?
    ensures var s1 := TryCreateResourcesSpec(cfg, creator, s, req, cd).state;
      TryCreateResourcesSpec(cfg, creator, s1, req, cd) == Outcome(s1, None)
  {
    FirstCreatePass(cfg, creator, s, req, cd);
    FirstCreatePassCert(cfg, creator, s, req, cd);
    var o1 := RemoteSecretManager.TryCreateSpec(cfg, creator, s, cd);
    var o2 := Cert.TryCreateSpec(cfg, o1.state, cd);
    SecondCreatePass(cfg, creator, o1.state, o2.state, TryCreateResourcesSpec(cfg, creator, s, req, cd).state, req, cd);
  }
}
