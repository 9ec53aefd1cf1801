/** internal/controller/istio/cert: the per-cluster intermediate CA certificate
    (a cert-manager Certificate in the Istio namespace) and, for clusters of a
    mesh that live in a kcm region, the MultiClusterService that copies the
    CA secret to the region clusters. */
module Cert {
  import opened Wrappers
  import opened Text
  import opened Resources
  import opened Store
  import opened Utils
  import opened K8sRegion

  // Error contexts and event texts.
  const RegionFailedContext := "failed to determine cluster region"
  const PropagationFailedContext := "failed to create MultiClusterService for certificate propagation"
  const CreateFailedContext := "failed to create istio certificate"
  const DeleteFailedMessage := "failed to delete istio certificate"
  const McsDeleteFailedContext := "failed to delete MultiClusterService"
  const CreatedReason := "CertificateCreated"
  const DeletedReason := "CertificateDeleted"
  const EventSubject := "Istio certificate '"
  const CreatedSuffix := "' is successfully created"
  const DeletedSuffix := "' is successfully deleted"
  const PropagationTemplate := "istio-secret-propagation"
  const BasePropagationSuffix := "-base-propagation"
  const CertManagerGroup := "cert-manager.io"

  const CaCertPropagationPrefix := "ca-cert-propagation"
  const ECDSAKeyAlgorithm := "ECDSA"
  const CaKeySize: nat := 521

  /** "<release>-<namespace>-<name>-ca" */
  function GetCertName(cfg: Config, clusterName: string, namespace: string): (r: string)
    ensures |r| == |cfg.releaseName| + |namespace| + |clusterName| + 5
    ensures r[..|cfg.releaseName| + 1] == cfg.releaseName + "-"
    ensures r[|r| - 3..] == "-ca"
  {
    cfg.releaseName + "-" + namespace + "-" + clusterName + "-ca"
  }

  function GetCertNameHash(cfg: Config, clusterName: string, namespace: string): (r: string)
    ensures |r| > |CaCertPropagationPrefix| + 1
    ensures r[..|CaCertPropagationPrefix| + 1] == CaCertPropagationPrefix + "-"
  {
    GetNameHash(CaCertPropagationPrefix, GetCertName(cfg, clusterName, namespace))
  }

  /** The certificate lives in the Istio namespace under its cert name; its CA
      descriptor is cluster-scoped under the hashed name. */
  function CertKey(cfg: Config, clusterName: string, namespace: string): Key {
    Key(CertificateKind, cfg.systemNamespace, GetCertName(cfg, clusterName, namespace))
  }

  function CaMcsKey(cfg: Config, clusterName: string, namespace: string): Key {
    Key(MultiClusterServiceKind, "", GetCertNameHash(cfg, clusterName, namespace))
  }

  /** The CA certificate requested for a cluster. */
  function GenerateClusterCACertificate(cfg: Config, cd: ClusterDeployment): (c: Certificate)
    ensures c.name == GetCertName(cfg, cd.name, cd.namespace) && c.namespace == cfg.systemNamespace
    ensures c.labels == map[ManagedByLabel := ManagedByValue]
    ensures c.isCA && c.commonName == cd.name + " CA" && c.organizations == ["Istio"]
    ensures c.keyAlgorithm == ECDSAKeyAlgorithm && c.keySize == 521
    ensures c.secretName == c.name
    ensures c.issuer == IssuerRef(cfg.releaseName + "-root", "Issuer", CertManagerGroup)
  {
    var certName := GetCertName(cfg, cd.name, cd.namespace);
    Certificate(
      certName, cfg.systemNamespace, map[ManagedByLabel := ManagedByValue],
      true, cd.name + " CA", ["Istio"], ECDSAKeyAlgorithm, CaKeySize, certName,
      IssuerRef(cfg.releaseName + "-root", "Issuer", CertManagerGroup))
  }

  /** The descriptor that copies the CA secret to the region clusters of the
      cluster's mesh. */
  function CaMultiClusterService(cfg: Config, cd: ClusterDeployment): (m: MultiClusterService)
    ensures m.name == GetCertNameHash(cfg, cd.name, cd.namespace)
    ensures m.labels == map[ManagedByLabel := ManagedByValue, "cluster-name" := cd.name, "cluster-namespace" := cd.namespace]
    ensures m.clusterSelector.Keys == {IstioMeshLabel, KcmRegionClusterLabel}
    ensures m.clusterSelector[IstioMeshLabel] == LabelValue(cd.labels, IstioMeshLabel)
    ensures m.clusterSelector[KcmRegionClusterLabel] == "true"
    ensures m.services == [Service(PropagationTemplate, cfg.systemNamespace, cfg.releaseName + BasePropagationSuffix)]
    ensures m.templateResourceRefs ==
      [TemplateResourceRef("Data", ObjectReference("v1", "Secret", GetCertName(cfg, cd.name, cd.namespace), cfg.systemNamespace))]
  {
    MultiClusterService(
      GetCertNameHash(cfg, cd.name, cd.namespace),
      map[ManagedByLabel := ManagedByValue, "cluster-name" := cd.name, "cluster-namespace" := cd.namespace],
      map[IstioMeshLabel := LabelValue(cd.labels, IstioMeshLabel), KcmRegionClusterLabel := "true"],
      [Service(PropagationTemplate, cfg.systemNamespace, cfg.releaseName + BasePropagationSuffix)],
      [TemplateResourceRef("Data", ObjectReference("v1", "Secret", GetCertName(cfg, cd.name, cd.namespace), cfg.systemNamespace))])
  }

  function CreationEvent(cfg: Config, cd: ClusterDeployment): Event {
    Event(cd.name, cd.namespace, Normal, CreatedReason, GetEventsAnnotations(cd.generation),
      EventSubject + GetCertName(cfg, cd.name, cd.namespace) + CreatedSuffix)
  }

  /** Sent about a stub of the deleted cluster, without annotations. */
  function DeletionEvent(cfg: Config, req: Request): Event {
    Event(req.name, req.namespace, Normal, DeletedReason, map[],
      EventSubject + GetCertName(cfg, req.name, req.namespace) + DeletedSuffix)
  }

  // ---------------------------------------------------------------------------
  // The steps as store transitions

  /** createCertificate: AlreadyExists is success without an event; any other
      error is returned as the store gave it. */
  function CreateCertificateSpec(s: State, cert: Certificate, event: Event): (o: Outcome)
    ensures var k := Key(CertificateKind, cert.namespace, cert.name);
      && o.state.failing == s.failing
      && (o.err.None? <==> s.CreateError(k) != Some(Unavailable))
      && (o.err.Some? ==> o == Outcome(s, Some(Api(Unavailable))))
      && (s.CreateError(k).None? ==> o.state == s.Create(k, CertificateObj(cert)).Emit(event))
      && (s.CreateError(k).Some? ==> o.state == s)
  {
    var k := Key(CertificateKind, cert.namespace, cert.name);
    match s.CreateError(k)
    case None => Outcome(s.Create(k, CertificateObj(cert)).Emit(event), None)
    case Some(AlreadyExists) => Outcome(s, None)
    case Some(e) => Outcome(s, Some(Api(e)))
  }

  /** createCaMultiClusterService: AlreadyExists is success; no event either way. */
  function CreateCaMultiClusterServiceSpec(cfg: Config, s: State, cd: ClusterDeployment): (o: Outcome)
    ensures var k := CaMcsKey(cfg, cd.name, cd.namespace);
      && (o.err.None? <==> k !in s.failing)
      && (o.err.Some? ==> o == Outcome(s, Some(Api(Unavailable))))
      && o.state == s.Create(k, MultiClusterServiceObj(CaMultiClusterService(cfg, cd)))
  {
    var k := CaMcsKey(cfg, cd.name, cd.namespace);
    match s.CreateError(k)
    case None => Outcome(s.Create(k, MultiClusterServiceObj(CaMultiClusterService(cfg, cd))), None)
    case Some(AlreadyExists) => Outcome(s, None)
    case Some(e) => Outcome(s, Some(Api(e)))
  }

  /** What TryCreate does once the certificate step has succeeded, on the store
      it left: the CA descriptor only for a ready cluster of a mesh that was
      created in a kcm region; no event. */
  function DescriptorStepSpec(cfg: Config, s: State, cd: ClusterDeployment): (o: Outcome)
    ensures var mk := CaMcsKey(cfg, cd.name, cd.namespace);
      var gated := IsReady(cd) && IsInMesh(cd) && CreatedInKCMRegion(s, cd) == Ok(true);
      && o.state == (if gated then s.Create(mk, MultiClusterServiceObj(CaMultiClusterService(cfg, cd))) else s)
      && (o.err.None? <==> !IsReady(cd) || !IsInMesh(cd) || CreatedInKCMRegion(s, cd) == Ok(false) || (gated && mk !in s.failing))
  {
    if !IsReady(cd) || !IsInMesh(cd) then
      Outcome(s, None)
    else
      match CreatedInKCMRegion(s, cd)
      case Err(e) => Outcome(s, Some(Errorf(RegionFailedContext, e)))
      case Ok(inRegion) =>
        if !inRegion then Outcome(s, None)
        else
          var mcs := CreateCaMultiClusterServiceSpec(cfg, s, cd);
          if mcs.err.Some? then
            Outcome(mcs.state, Some(Errorf(PropagationFailedContext, mcs.err.value)))
          else mcs
  }

  /** TryCreate: the certificate first and unconditionally, then the gated descriptor. */
  function TryCreateSpec(cfg: Config, s: State, cd: ClusterDeployment): Outcome {
    var created := CreateCertificateSpec(s, GenerateClusterCACertificate(cfg, cd), CreationEvent(cfg, cd));
    if created.err.Some? then
      Outcome(created.state, Some(Errorf(CreateFailedContext, created.err.value)))
    else
      DescriptorStepSpec(cfg, created.state, cd)
  }

  /** TryDelete: the certificate, then its CA descriptor; a certificate that is
      already gone ends the call at once. */
  function TryDeleteSpec(cfg: Config, s: State, req: Request): Outcome {
    var ck := CertKey(cfg, req.name, req.namespace);
    match s.DeleteError(ck)
    case Some(NotFound) => Outcome(s, None)
    case Some(_) => Outcome(s, Some(Fault(DeleteFailedMessage)))
    case None =>
      var s1 := s.Delete(ck);
      var mk := CaMcsKey(cfg, req.name, req.namespace);
      match s1.DeleteError(mk)
      case Some(NotFound) => Outcome(s1, None)
      case Some(e) => Outcome(s1, Some(Errorf(McsDeleteFailedContext, Api(e))))
      case None => Outcome(s1.Delete(mk).Emit(DeletionEvent(cfg, req)), None)
  }

  // ---------------------------------------------------------------------------
  // The manager

  class CertManager {
    const client: Store
    const config: Config

    constructor (client: Store, config: Config)
      ensures this.client == client && this.config == config
    {
      this.client := client;
      this.config := config;
    }

    method TryCreate(cd: ClusterDeployment) returns (err: Option<Error>)
      modifies client
      ensures client.View() == TryCreateSpec(config, old(client.View()), cd).state
      ensures err == TryCreateSpec(config, old(client.View()), cd).err
    {
      var cert := GenerateClusterCACertificate(config, cd);
      var e := CreateCertificate(cert, cd);
      if e.Some? {
        return Some(Errorf(CreateFailedContext, e.value));
      }
      ghost var created := client.View();
      var ready := IsClusterDeploymentReady(cd);
      if !ready {
        return None;
      }
      if !IsInMesh(cd) {
        return None;
      }
      var createdInKCMRegion := CreatedInKCMRegion(client.View(), cd);
      if createdInKCMRegion.Err? {
        return Some(Errorf(RegionFailedContext, createdInKCMRegion.error));
      }
      if !createdInKCMRegion.value {
        return None;
      }
      e := CreateCaMultiClusterService(cd);
      assert client.View() == DescriptorStepSpec(config, created, cd).state;
      if e.Some? {
        return Some(Errorf(PropagationFailedContext, e.value));
      }
      return None;
    }

    method TryDelete(req: Request) returns (err: Option<Error>)
      modifies client
      ensures client.View() == TryDeleteSpec(config, old(client.View()), req).state
      ensures err == TryDeleteSpec(config, old(client.View()), req).err
    {
      var e := client.Delete(CertKey(config, req.name, req.namespace));
      if e.Some? {
        if e.value == NotFound {
          return None;
        }
        return Some(Fault(DeleteFailedMessage));
      }
      e := client.Delete(CaMcsKey(config, req.name, req.namespace));
      if e.Some? {
        if e.value == NotFound {
          return None;
        }
        return Some(Errorf(McsDeleteFailedContext, Api(e.value)));
      }
      client.Record(DeletionEvent(config, req));
      return None;
    }

    method CreateCertificate(cert: Certificate, cd: ClusterDeployment) returns (err: Option<Error>)
      modifies client
      ensures client.View() == CreateCertificateSpec(old(client.View()), cert, CreationEvent(config, cd)).state
      ensures err == CreateCertificateSpec(old(client.View()), cert, CreationEvent(config, cd)).err
    {
      var e := client.Create(Key(CertificateKind, cert.namespace, cert.name), CertificateObj(cert));
      if e.Some? {
        if e.value == AlreadyExists {
          return None;
        }
        return Some(Api(e.value));
      }
      client.Record(CreationEvent(config, cd));
      return None;
    }

    method CreateCaMultiClusterService(cd: ClusterDeployment) returns (err: Option<Error>)
      modifies client
      ensures client.View() == CreateCaMultiClusterServiceSpec(config, old(client.View()), cd).state
      ensures err == CreateCaMultiClusterServiceSpec(config, old(client.View()), cd).err
    {
      var mcs := CaMultiClusterService(config, cd);
      var e := client.Create(Key(MultiClusterServiceKind, "", mcs.name), MultiClusterServiceObj(mcs));
      if e.Some? {
        if e.value == AlreadyExists {
          return None;
        }
        return Some(Api(e.value));
      }
      return None;
    }
  }

  // ---------------------------------------------------------------------------
  // Properties

  /** Creating the certificate touches no Credential, so the region answer is
      the same before and after it. */
  lemma RegionUnaffectedByCertificate(s: State, k: Key, o: Object, e: Event, cd: ClusterDeployment)
    requires k.kind == CertificateKind
    ensures CreatedInKCMRegion(s.Create(k, o).Emit(e), cd) == CreatedInKCMRegion(s, cd)
  {
    var ck := Key(CredentialKind, KcmSystemNamespace, cd.credential);
    assert s.Create(k, o).Emit(e).Get(ck) == s.Get(ck);
  }

  /** The store the certificate step leaves answers the region question as the
      original store does, and differs from it at most at the certificate key. */
  lemma CertificateStep(cfg: Config, s: State, cd: ClusterDeployment)
    ensures var created := CreateCertificateSpec(s, GenerateClusterCACertificate(cfg, cd), CreationEvent(cfg, cd));
      && CreatedInKCMRegion(created.state, cd) == CreatedInKCMRegion(s, cd)
      && CaMcsKey(cfg, cd.name, cd.namespace) != CertKey(cfg, cd.name, cd.namespace)
  {
    var k := CertKey(cfg, cd.name, cd.namespace);
    if s.CreateError(k).None? {
      RegionUnaffectedByCertificate(s, k, CertificateObj(GenerateClusterCACertificate(cfg, cd)), CreationEvent(cfg, cd), cd);
    }
  }

  /** The certificate is requested before, and regardless of, every gate: its
      fate depends only on what the store holds at its key. */
  lemma CertificateComesFirst(cfg: Config, s: State, cd: ClusterDeployment)
    ensures var o := TryCreateSpec(cfg, s, cd);
      var k := CertKey(cfg, cd.name, cd.namespace);
      && (s.CreateError(k).None? ==>
            k in o.state.objects && o.state.objects[k] == CertificateObj(GenerateClusterCACertificate(cfg, cd)))
      && (s.CreateError(k) == Some(AlreadyExists) ==> k in o.state.objects && o.state.objects[k] == s.objects[k])
      && (s.CreateError(k) == Some(Unavailable) ==>
            o == Outcome(s, Some(Errorf(CreateFailedContext, Api(Unavailable)))))
  {
    CertificateStep(cfg, s, cd);
  }

  /** The CA descriptor is written only for a ready cluster of a mesh that was
      created in a kcm region, and, past a successful certificate step, it is
      always written for one. */
  lemma CaDescriptorGate(cfg: Config, s: State, cd: ClusterDeployment)
    ensures var o := TryCreateSpec(cfg, s, cd);
      var mk := CaMcsKey(cfg, cd.name, cd.namespace);
      && (mk in o.state.objects && mk !in s.objects ==>
            && IsReady(cd) && IsInMesh(cd) && CreatedInKCMRegion(s, cd) == Ok(true)
            && o.state.objects[mk] == MultiClusterServiceObj(CaMultiClusterService(cfg, cd)))
      && (IsReady(cd) && IsInMesh(cd) && CreatedInKCMRegion(s, cd) == Ok(true)
          && s.CreateError(CertKey(cfg, cd.name, cd.namespace)) != Some(Unavailable) && mk !in s.failing ==>
            mk in o.state.objects && o.err.None?)
  {
    CertificateStep(cfg, s, cd);
  }

  /** A failed region lookup is reported and stops the call before the descriptor. */
  lemma RegionErrorReported(cfg: Config, s: State, cd: ClusterDeployment)
    requires IsReady(cd) && IsInMesh(cd)
    requires s.CreateError(CertKey(cfg, cd.name, cd.namespace)) != Some(Unavailable)
    requires CreatedInKCMRegion(s, cd).Err?
    ensures var o := TryCreateSpec(cfg, s, cd);
      && o.err == Some(Errorf(RegionFailedContext, CreatedInKCMRegion(s, cd).error))
      && o.state == CreateCertificateSpec(s, GenerateClusterCACertificate(cfg, cd), CreationEvent(cfg, cd)).state
  {
    CertificateStep(cfg, s, cd);
  }

  /** TryCreate writes at most the certificate and its descriptor, and records
      one event exactly when the certificate is new. */
  lemma TryCreateFrame(cfg: Config, s: State, cd: ClusterDeployment)
    ensures var o := TryCreateSpec(cfg, s, cd);
      && o.state.failing == s.failing
      && (forall k :: k != CertKey(cfg, cd.name, cd.namespace) && k != CaMcsKey(cfg, cd.name, cd.namespace) ==>
            (k in o.state.objects <==> k in s.objects) && (k in s.objects ==> o.state.objects[k] == s.objects[k]))
      && o.state.events == s.events + (if s.CreateError(CertKey(cfg, cd.name, cd.namespace)).None? then [CreationEvent(cfg, cd)] else [])
  {
    var ck := CertKey(cfg, cd.name, cd.namespace);
    var mk := CaMcsKey(cfg, cd.name, cd.namespace);
    var created := CreateCertificateSpec(s, GenerateClusterCACertificate(cfg, cd), CreationEvent(cfg, cd));
    assert forall k :: k != ck ==> (k in created.state.objects <==> k in s.objects) && (k in s.objects ==> created.state.objects[k] == s.objects[k]);
  }

  /** After a TryCreate that returned nil, a second one changes nothing. */
  lemma TryCreateIdempotent(cfg: Config, s: State, cd: ClusterDeployment)
    requires TryCreateSpec(cfg, s, cd).err.None?
    ensures var s1 := TryCreateSpec(cfg, s, cd).state;
      TryCreateSpec(cfg, s1, cd) == Outcome(s1, None)
  {
    CertificateStep(cfg, s, cd);
    var s1 := TryCreateSpec(cfg, s, cd).state;
    var k := CertKey(cfg, cd.name, cd.namespace);
    assert s1.CreateError(k) == Some(AlreadyExists);
    if IsReady(cd) && IsInMesh(cd) {
      var cred := Key(CredentialKind, KcmSystemNamespace, cd.credential);
      assert s1.Get(cred) == s.Get(cred);
      assert CreatedInKCMRegion(s1, cd) == CreatedInKCMRegion(s, cd);
    }
  }

  /** TryCreate reads the store only at the certificate, its CA descriptor and
      the cluster's credential: a call that changed nothing still changes
      nothing on a store that agrees there and fails at the same keys. */
  lemma TryCreateNoOpStable(cfg: Config, u: State, t: State, cd: ClusterDeployment)
    requires TryCreateSpec(cfg, u, cd) == Outcome(u, None)
    requires t.failing == u.failing
    requires AgreesAt(u, t, CertKey(cfg, cd.name, cd.namespace))
    requires AgreesAt(u, t, CaMcsKey(cfg, cd.name, cd.namespace))
    requires AgreesAt(u, t, Key(CredentialKind, KcmSystemNamespace, cd.credential))
    ensures TryCreateSpec(cfg, t, cd) == Outcome(t, None)
  {
    var ck := CertKey(cfg, cd.name, cd.namespace);
    var mk := CaMcsKey(cfg, cd.name, cd.namespace);
    CertificateStep(cfg, u, cd);
    assert u.CreateError(ck) == Some(AlreadyExists);
    assert t.GetCredential(KcmSystemNamespace, cd.credential) == u.GetCredential(KcmSystemNamespace, cd.credential);
    assert CreatedInKCMRegion(t, cd) == CreatedInKCMRegion(u, cd);
    if IsReady(cd) && IsInMesh(cd) && CreatedInKCMRegion(u, cd) == Ok(true) {
      assert u.CreateError(mk) == Some(AlreadyExists);
    }
  }

  /** TryDelete: gone certificate means no call at all; success leaves neither the
      certificate nor its descriptor; the event needs both deletes; nothing else moves. */
  lemma TryDeleteEffect(cfg: Config, s: State, req: Request)
    ensures var o := TryDeleteSpec(cfg, s, req);
      var ck := CertKey(cfg, req.name, req.namespace);
      var mk := CaMcsKey(cfg, req.name, req.namespace);
      && (ck !in s.objects && ck !in s.failing ==> o == Outcome(s, None))
      && (o.err.None? ==> ck !in o.state.objects)
      && (o.err.None? && ck in s.objects ==> mk !in o.state.objects)
      && (o.state.events == s.events + [DeletionEvent(cfg, req)] <==> s.DeleteError(ck).None? && s.DeleteError(mk).None?)
      && (o.state.events == s.events || o.state.events == s.events + [DeletionEvent(cfg, req)])
      && (forall k :: k != ck && k != mk ==>
            (k in o.state.objects <==> k in s.objects) && (k in s.objects ==> o.state.objects[k] == s.objects[k]))
  {
    var ck := CertKey(cfg, req.name, req.namespace);
    var mk := CaMcsKey(cfg, req.name, req.namespace);
    assert ck != mk;
    assert s.events != s.events + [DeletionEvent(cfg, req)];
    if s.DeleteError(ck).None? {
      var s1 := s.Delete(ck);
      assert s1.objects == s.objects - {ck};
      assert s1.DeleteError(mk) == s.DeleteError(mk);
      if s.DeleteError(mk).None? {
        assert TryDeleteSpec(cfg, s, req).state.objects == s.objects - {ck} - {mk};
      } else {
        assert TryDeleteSpec(cfg, s, req).state == s1;
      }
    } else {
      assert TryDeleteSpec(cfg, s, req).state == s;
    }
  }

  /** A second TryDelete after a successful one changes nothing. */
  lemma TryDeleteIdempotent(cfg: Config, s: State, req: Request)
    requires TryDeleteSpec(cfg, s, req).err.None?
    ensures var s1 := TryDeleteSpec(cfg, s, req).state;
      TryDeleteSpec(cfg, s1, req) == Outcome(s1, None)
  {
    var ck := CertKey(cfg, req.name, req.namespace);
    var mk := CaMcsKey(cfg, req.name, req.namespace);
    assert ck != mk;
  }

  /** The certificate name joins namespace and name with "-", so two clusters
      whose namespace and name split "a-b-c" differently share a certificate. */
  lemma CertNamesCanCollide(cfg: Config)
    ensures GetCertName(cfg, "b-c", "a") == GetCertName(cfg, "c", "a-b")
    ensures Request("b-c", "a") != Request("c", "a-b")
  {
    assert cfg.releaseName + "-" + "a" + "-" + "b-c" + "-ca" == cfg.releaseName + "-a-b-c-ca";
    assert cfg.releaseName + "-" + "a-b" + "-" + "c" + "-ca" == cfg.releaseName + "-a-b-c-ca";
  }

  /** Index of the first '-' of `s`, |s| when there is none. */
  function DashIndex(s: string): (i: nat)
    ensures i <= |s|
    ensures i < |s| ==> s[i] == '-'
    decreases |s|
  {
    if s == [] || s[0] == '-' then 0 else 1 + DashIndex(s[1..])
  }

  lemma {:induction false} DashIndexAfter(a: string, u: string)
    requires '-' !in a
    ensures DashIndex(a + ("-" + u)) == |a|
    decreases |a|
  {
    var t := a + ("-" + u);
    if a == [] {
      assert t == "-" + u;
    } else {
      assert t[0] == a[0] && t[1..] == a[1..] + ("-" + u);
      DashIndexAfter(a[1..], u);
    }
  }

  /** With namespaces free of '-', the certificate name does tell clusters
      apart: the first dash after the release name ends the namespace. */
  lemma CertNameSeparatesDashFreeNamespaces(cfg: Config, c1: string, ns1: string, c2: string, ns2: string)
    requires '-' !in ns1 && '-' !in ns2
    requires GetCertName(cfg, c1, ns1) == GetCertName(cfg, c2, ns2)
    ensures c1 == c2 && ns1 == ns2
  {
    var p := |cfg.releaseName| + 1;
    var r1, r2 := GetCertName(cfg, c1, ns1), GetCertName(cfg, c2, ns2);
    assert r1[p..] == ns1 + ("-" + (c1 + "-ca"));
    assert r2[p..] == ns2 + ("-" + (c2 + "-ca"));
    DashIndexAfter(ns1, c1 + "-ca");
    DashIndexAfter(ns2, c2 + "-ca");
    assert |ns1| == |ns2|;
    var q := p + |ns1| + 1;
    assert ns1 == r1[p..q - 1] && ns2 == r2[p..q - 1];
    assert c1 == r1[q..q + |c1|] && c2 == r2[q..q + |c2|];
  }
}
