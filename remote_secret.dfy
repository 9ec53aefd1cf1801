/** internal/controller/istio/remote-secret/remote_secret.go: the builder of an
    Istio remote secret. It reads (or creates) a service-account token secret in
    the remote cluster, wraps the token or an auth plugin in a one-cluster
    kubeconfig and returns a Secret holding that kubeconfig. The remote cluster
    is a `Store` for the objects the builder reads and writes, plus
    `ClusterFacts`, the answers of the calls that are not object reads. */
module RemoteSecret {
  import opened Wrappers
  import opened Text
  import opened Resources
  import opened Store
  import opened Utils
  import opened K8sKube

  const RemoteSecretPrefix := "istio-remote-secret"
  const ConfigSecretName := "istio-kubeconfig"
  const ConfigSecretKey := "config"
  const ClusterNameAnnotationKey := "networking.istio.io/cluster"
  const MultiClusterSecretLabel := "istio/multiCluster"
  const ServiceAccountTokenExpirationSeconds := 7200

  const ServiceAccountRootCAKey := "ca.crt"
  const ServiceAccountTokenKey := "token"
  const ServiceAccountNameKey := "kubernetes.io/service-account.name"
  const SecretTypeOpaque := "Opaque"

  const DefaultServiceAccountName := "istio-reader-service-account"
  const DefaultConfigServiceAccountName := "istiod"

  const AuthTypeBearerToken := "bearer-token"
  const AuthTypePlugin := "plugin"
  const SecretTypeRemote := "remote"
  const SecretTypeConfig := "config"

  const ErrMissingRootCAKey := Fault("no \"ca.crt\" data found")
  const ErrMissingTokenKey := Fault("no \"token\" data found")
  const ErrServiceAccountNotFound := Fault("service account not found, it should be created by K0rdent Istio helm chart")

  /** The retry policy of waitForTokenData: one retry after the first re-read
      at most this many times. */
  const MaxTokenRetries: nat := 5

  /** The options the builder reads; the kubeconfig path, context and manifests
      path of the original option set play no part in it. */
  datatype RemoteSecretOptions = RemoteSecretOptions(
    namespace: string,
    clusterName: string,
    serviceAccountName: string,
    authType: string,
    authPluginName: string,
    authPluginConfig: map<string, string>,
    secretType: string,
    serverOverride: string,
    secretName: string,
    allowOverwrite: bool)

  datatype TokenRequest = TokenRequest(audiences: seq<string>, expirationSeconds: int)

  datatype ClusterInfo = ClusterInfo(certificateAuthorityData: seq<byte>, server: string)
  datatype ContextInfo = ContextInfo(cluster: string, authInfo: string)
  datatype AuthProviderConfig = AuthProviderConfig(name: string, config: map<string, string>)
  /** An auth-info entry; `token` holds the token's bytes. */
  datatype AuthInfo = AuthInfo(token: seq<byte>, authProvider: Option<AuthProviderConfig>)

  /** client-go's clientcmd api.Config, reduced to the parts the builder fills. */
  datatype KubeConfig = KubeConfig(
    clusters: map<string, ClusterInfo>,
    authInfos: map<string, AuthInfo>,
    contexts: map<string, ContextInfo>,
    currentContext: string)

  /** What the remote cluster answers outside its object store: the kube-system
      UID, the server version probe, the host of the client's REST config, the
      CA of the client's raw config, token requests (namespace, account,
      request), kubeconfig validation and serialisation, and the answer to the
      n-th re-read (from 0) of a secret during the token wait. */
  datatype ClusterFacts = ClusterFacts(
    kubeSystemUid: Result<string, Error>,
    serverVersion: Result<Info, Error>,
    restHost: Result<string, Error>,
    caCert: Result<seq<byte>, Error>,
    createToken: (string, string, TokenRequest) -> Result<string, Error>,
    validate: KubeConfig -> Option<Error>,
    encode: KubeConfig -> Result<seq<byte>, Error>,
    reread: (nat, string, string) -> Result<Secret, ApiError>)

  /** k8s.KubeClient: the remote cluster's clientset and REST configuration. */
  class KubeClient {
    const clientset: Store
    const facts: ClusterFacts

    constructor (clientset: Store, facts: ClusterFacts)
      ensures this.clientset == clientset && this.facts == facts
    {
      this.clientset := clientset;
      this.facts := facts;
    }
  }

  /** A builder step on the remote store: the store afterwards and the secret
      (or error) it returns. */
  datatype Produced = Produced(state: State, result: Result<Secret, Error>)

  datatype TokenData = TokenData(ca: seq<byte>, token: seq<byte>)

  // ---------------------------------------------------------------------------
  // Names

  /** prefix-hash of "<namespace>-<name>" under "istio-remote-secret". */
  function GetRemoteSecretName(clusterName: string, namespace: string): (r: string)
    ensures |r| > |RemoteSecretPrefix| + 1
    ensures r[..|RemoteSecretPrefix| + 1] == RemoteSecretPrefix + "-"
  {
    GetNameHash(RemoteSecretPrefix, namespace + "-" + clusterName)
  }

  const TokenSecretSuffix := "-istio-remote-secret-token"

  /** The default token secret of a service account: its name, then a fixed suffix. */
  function TokenSecretName(saName: string): (r: string)
    ensures |r| == |saName| + |TokenSecretSuffix|
    ensures r[..|saName|] == saName && r[|saName|..] == TokenSecretSuffix
  {
    saName + TokenSecretSuffix
  }

  /** Distinct service accounts never share a default token secret. */
  lemma TokenSecretNameInjective(a: string, b: string)
    requires TokenSecretName(a) == TokenSecretName(b)
    ensures a == b
  {
    assert |a| == |b|;
    assert a == TokenSecretName(a)[..|a|];
    assert b == TokenSecretName(b)[..|b|];
  }

  // ---------------------------------------------------------------------------
  // Token data

  /** The CA is looked for before the token, so a secret lacking both reports
      the missing CA. */
  function TokenDataFromSecret(secret: Secret): (r: Result<TokenData, Error>)
    ensures r.Ok? <==> ServiceAccountRootCAKey in secret.data && ServiceAccountTokenKey in secret.data
    ensures r.Ok? ==> r.value == TokenData(secret.data[ServiceAccountRootCAKey], secret.data[ServiceAccountTokenKey])
    ensures ServiceAccountRootCAKey !in secret.data ==> r == Err(ErrMissingRootCAKey)
    ensures ServiceAccountRootCAKey in secret.data && ServiceAccountTokenKey !in secret.data ==> r == Err(ErrMissingTokenKey)
  {
    if ServiceAccountRootCAKey !in secret.data then Err(ErrMissingRootCAKey)
    else if ServiceAccountTokenKey !in secret.data then Err(ErrMissingTokenKey)
    else Ok(TokenData(secret.data[ServiceAccountRootCAKey], secret.data[ServiceAccountTokenKey]))
  }

  /** The n-th re-read of namespace/name; client-go refuses an empty name before
      any request is sent. */
  function Reread(f: ClusterFacts, attempt: nat, namespace: string, name: string): (r: Result<Secret, Error>)
    ensures name == "" ==> r == Err(Fault("resource name may not be empty"))
    ensures name != "" ==> (r.Ok? <==> f.reread(attempt, namespace, name).Ok?)
  {
    if name == "" then Err(Fault("resource name may not be empty"))
    else
      match f.reread(attempt, namespace, name)
      case Ok(s) => Ok(s)
      case Err(e) => Err(Api(e))
  }

  /** One retry operation: re-read, then extract the token data. */
  function Attempt(f: ClusterFacts, attempt: nat, namespace: string, name: string): Result<TokenData, Error> {
    match Reread(f, attempt, namespace, name)
    case Err(e) => Err(e)
    case Ok(s) => TokenDataFromSecret(s)
  }

  /** The retries from `attempt` on, every one addressed to the given secret:
      the first success ends them, otherwise the last error stands. */
  function Retry(f: ClusterFacts, namespace: string, name: string, attempt: nat): Result<TokenData, Error>
    requires attempt <= MaxTokenRetries
    decreases MaxTokenRetries - attempt
  {
    var r := Attempt(f, attempt, namespace, name);
    if r.Ok? || attempt == MaxTokenRetries then r else Retry(f, namespace, name, attempt + 1)
  }

  /** waitForTokenData with every re-read addressed to the given secret. */
  function WaitForTokenDataSpec(f: ClusterFacts, secret: Secret): Result<TokenData, Error> {
    var first := TokenDataFromSecret(secret);
    if first.Ok? then first else Retry(f, secret.namespace, secret.name, 0)
  }

  /** A secret that already holds both keys is used as it is: no re-read. */
  lemma NoRereadWhenPopulated(f: ClusterFacts, g: ClusterFacts, secret: Secret)
    requires ServiceAccountRootCAKey in secret.data && ServiceAccountTokenKey in secret.data
    ensures WaitForTokenDataSpec(f, secret) == WaitForTokenDataSpec(g, secret)
    ensures WaitForTokenDataSpec(f, secret) == Ok(TokenData(secret.data[ServiceAccountRootCAKey], secret.data[ServiceAccountTokenKey]))
  {
  }

  /** The retries end at the first re-read that holds both keys. */
  lemma {:induction false} RetryStopsAtFirstSuccess(f: ClusterFacts, namespace: string, name: string, attempt: nat, j: nat)
    requires attempt <= j <= MaxTokenRetries
    requires Attempt(f, j, namespace, name).Ok?
    requires forall i :: attempt <= i < j ==> Attempt(f, i, namespace, name).Err?
    ensures Retry(f, namespace, name, attempt) == Attempt(f, j, namespace, name)
    decreases j - attempt
  {
    if attempt < j {
      RetryStopsAtFirstSuccess(f, namespace, name, attempt + 1, j);
    }
  }

  /** At most 1 + MaxTokenRetries re-reads: answers beyond them change nothing. */
  lemma {:induction false} RetryIsBounded(f: ClusterFacts, g: ClusterFacts, namespace: string, name: string, attempt: nat)
    requires attempt <= MaxTokenRetries
    requires forall i :: attempt <= i <= MaxTokenRetries ==> f.reread(i, namespace, name) == g.reread(i, namespace, name)
    ensures Retry(f, namespace, name, attempt) == Retry(g, namespace, name, attempt)
    decreases MaxTokenRetries - attempt
  {
    assert Attempt(f, attempt, namespace, name) == Attempt(g, attempt, namespace, name);
    if attempt < MaxTokenRetries {
      RetryIsBounded(f, g, namespace, name, attempt + 1);
    }
  }

  /** waitForTokenData: the secret as given, then re-reads under the retry bound. */
  method WaitForTokenData(client: KubeClient, secret: Secret) returns (r: Result<TokenData, Error>)
    ensures r == WaitForTokenDataSpec(client.facts, secret)
  {
    r := TokenDataFromSecret(secret);
    if r.Ok? {
      return;
    }
    var attempt := 0;
    var read := Reread(client.facts, attempt, secret.namespace, secret.name);
    r := if read.Ok? then TokenDataFromSecret(read.value) else Err(read.error);
    while r.Err? && attempt < MaxTokenRetries
      invariant 0 <= attempt <= MaxTokenRetries
      invariant r == Attempt(client.facts, attempt, secret.namespace, secret.name)
      invariant Retry(client.facts, secret.namespace, secret.name, 0) == Retry(client.facts, secret.namespace, secret.name, attempt)
      decreases MaxTokenRetries - attempt
    {
      attempt := attempt + 1;
      read := Reread(client.facts, attempt, secret.namespace, secret.name);
      r := if read.Ok? then TokenDataFromSecret(read.value) else Err(read.error);
    }
  }

  // ---------------------------------------------------------------------------
  // waitForTokenData as written: the retry closure assigns the result of each
  // Get back to `secret`, and a failed Get yields an empty Secret, so every
  // later retry asks for the secret with empty namespace and name.

  const EmptySecret := Secret("", "", map[], map[], "", map[])

  /** The retries from `attempt` on, as the closure runs them: each one asks
      for the secret the previous one left behind. Once that is a secret
      without a name, every retry fails before a request is sent. */
  function RetryAsWritten(f: ClusterFacts, secret: Secret, attempt: nat): (r: Result<TokenData, Error>)
    requires attempt <= MaxTokenRetries
    ensures secret.name == "" ==> r == Err(Fault("resource name may not be empty"))
    decreases MaxTokenRetries - attempt
  {
    var read := Reread(f, attempt, secret.namespace, secret.name);
    var next := if read.Ok? then read.value else EmptySecret;
    var r := if read.Ok? then TokenDataFromSecret(read.value) else Err(read.error);
    if r.Ok? || attempt == MaxTokenRetries then r else RetryAsWritten(f, next, attempt + 1)
  }

  /** waitForTokenData as written: the secret as given, then the retries. */
  function WaitForTokenDataAsWritten(f: ClusterFacts, secret: Secret): (r: Result<TokenData, Error>)
    ensures TokenDataFromSecret(secret).Ok? ==> r == TokenDataFromSecret(secret)
    ensures TokenDataFromSecret(secret).Err? && secret.name == "" ==> r == Err(Fault("resource name may not be empty"))
  {
    var first := TokenDataFromSecret(secret);
    if first.Ok? then first else RetryAsWritten(f, secret, 0)
  }

  /** Every re-read from `attempt` on answers a secret with the same namespace
      and name, as a healthy API server does. */
  predicate StableReads(f: ClusterFacts, secret: Secret, attempt: nat) {
    forall i :: attempt <= i <= MaxTokenRetries ==>
      var read := f.reread(i, secret.namespace, secret.name);
      read.Ok? && read.value.namespace == secret.namespace && read.value.name == secret.name
  }

  /** As long as no re-read fails, the retries as written address the original
      secret throughout and so agree with the intended ones. */
  lemma {:induction false} RetryAsWrittenOnStableReads(f: ClusterFacts, secret: Secret, attempt: nat)
    requires attempt <= MaxTokenRetries
    requires secret.name != "" && StableReads(f, secret, attempt)
    ensures RetryAsWritten(f, secret, attempt) == Retry(f, secret.namespace, secret.name, attempt)
    decreases MaxTokenRetries - attempt
  {
    var read := f.reread(attempt, secret.namespace, secret.name);
    assert read.Ok?;
    if attempt < MaxTokenRetries {
      var next := read.value;
      forall i | attempt + 1 <= i <= MaxTokenRetries
        ensures var r := f.reread(i, next.namespace, next.name);
          r.Ok? && r.value.namespace == next.namespace && r.value.name == next.name
      {
        assert attempt <= i <= MaxTokenRetries;
      }
      RetryAsWrittenOnStableReads(f, next, attempt + 1);
    }
  }

  /** The wait as written and the intended wait agree whenever no re-read fails. */
  lemma WaitAsWrittenOnStableReads(f: ClusterFacts, secret: Secret)
    requires secret.name != "" && StableReads(f, secret, 0)
    ensures WaitForTokenDataAsWritten(f, secret) == WaitForTokenDataSpec(f, secret)
  {
    if TokenDataFromSecret(secret).Err? {
      RetryAsWrittenOnStableReads(f, secret, 0);
    }
  }

  /** As written, one failed re-read condemns the wait: whatever the later
      re-reads of the real secret would have answered, it ends in the
      empty-name error. */
  lemma AsWrittenLosesSecretAfterFailedRead(f: ClusterFacts, secret: Secret)
    requires secret.name != ""
    requires TokenDataFromSecret(secret).Err?
    requires f.reread(0, secret.namespace, secret.name).Err?
    ensures WaitForTokenDataAsWritten(f, secret) == Err(Fault("resource name may not be empty"))
  {
    assert RetryAsWritten(f, EmptySecret, 1) == Err(Fault("resource name may not be empty"));
  }

  /** A transient failure of the first re-read followed by a populated secret:
      the retries as written fail, retries addressed to the secret succeed. */
  lemma TransientReadFailureDiscrepancy(f: ClusterFacts, secret: Secret, populated: Secret)
    requires secret.name != "" && secret.data == map[]
    requires populated.data == map[ServiceAccountRootCAKey := [1], ServiceAccountTokenKey := [2]]
    requires forall i: nat, ns: string, n: string :: f.reread(i, ns, n) == if i == 0 then Err(Unavailable) else Ok(populated)
    ensures WaitForTokenDataAsWritten(f, secret) == Err(Fault("resource name may not be empty"))
    ensures WaitForTokenDataSpec(f, secret) == Ok(TokenData([1], [2]))
  {
    AsWrittenLosesSecretAfterFailedRead(f, secret);
    RetryStopsAtFirstSuccess(f, secret.namespace, secret.name, 0, 1);
  }

  // ---------------------------------------------------------------------------
  // Kubeconfig

  /** One cluster, one context and one auth-info, all under the cluster name,
      which is also the current context. */
  predicate SingleClusterKubeconfig(c: KubeConfig, clusterName: string) {
    && c.clusters.Keys == {clusterName}
    && c.contexts.Keys == {clusterName}
    && c.authInfos.Keys == {clusterName}
    && c.currentContext == clusterName
    && c.contexts[clusterName] == ContextInfo(clusterName, clusterName)
  }

  /** One cluster and one context, both keyed by the cluster name, the context
      current and pointing at that cluster and user; no user yet. */
  function CreateBaseKubeconfig(caData: seq<byte>, clusterName: string, server: string): (c: KubeConfig)
    ensures c.clusters.Keys == {clusterName} && c.clusters[clusterName] == ClusterInfo(caData, server)
    ensures c.contexts.Keys == {clusterName} && c.contexts[clusterName] == ContextInfo(clusterName, clusterName)
    ensures c.authInfos == map[] && c.currentContext == clusterName
  {
    KubeConfig(
      map[clusterName := ClusterInfo(caData, server)],
      map[],
      map[clusterName := ContextInfo(clusterName, clusterName)],
      clusterName)
  }

  function CreateBearerTokenKubeconfig(caData: seq<byte>, token: seq<byte>, clusterName: string, server: string): (c: KubeConfig)
    ensures SingleClusterKubeconfig(c, clusterName)
    ensures c.clusters[clusterName] == ClusterInfo(caData, server)
    ensures c.authInfos[clusterName] == AuthInfo(token, None)
  {
    var c := CreateBaseKubeconfig(caData, clusterName, server);
    c.(authInfos := c.authInfos[c.currentContext := AuthInfo(token, None)])
  }

  function CreatePluginKubeconfig(caData: seq<byte>, clusterName: string, server: string, provider: AuthProviderConfig): (c: KubeConfig)
    ensures SingleClusterKubeconfig(c, clusterName)
    ensures c.clusters[clusterName] == ClusterInfo(caData, server)
    ensures c.authInfos[clusterName] == AuthInfo([], Some(provider))
  {
    var c := CreateBaseKubeconfig(caData, clusterName, server);
    c.(authInfos := c.authInfos[c.currentContext := AuthInfo([], Some(provider))])
  }

  /** The secret Istio loads: the serialised kubeconfig under one key (the
      cluster name, or "config" for the config-cluster secret), annotated with
      the cluster name and labelled as a multi-cluster secret. */
  function CreateRemoteServiceAccountSecret(f: ClusterFacts, kubeconfig: KubeConfig, clusterName: string, secName: string)
    : (r: Result<Secret, Error>)
    ensures r.Ok? <==> f.encode(kubeconfig).Ok?
    ensures r.Err? ==> r.error == f.encode(kubeconfig).error
    ensures r.Ok? ==>
      var key := if secName == ConfigSecretName then ConfigSecretKey else clusterName;
      && r.value.name == secName
      && r.value.data.Keys == {key}
      && r.value.data[key] == f.encode(kubeconfig).value
      && r.value.annotations == map[ClusterNameAnnotationKey := clusterName]
      && r.value.labels == map[MultiClusterSecretLabel := "true"]
  {
    match f.encode(kubeconfig)
    case Err(e) => Err(e)
    case Ok(data) =>
      var key := if secName == ConfigSecretName then ConfigSecretKey else clusterName;
      Ok(Secret(secName, "", map[MultiClusterSecretLabel := "true"], map[ClusterNameAnnotationKey := clusterName], "", map[key := data]))
  }

  const LoopbackAddress := "127.0.0.1"
  const LoopbackHost := "localhost"

  /** The server names the local host, by address or by name. */
  predicate IsLoopback(server: string) {
    Contains(server, LoopbackAddress) || Contains(server, LoopbackHost)
  }

  const LoopbackAdvice := ". This is likely not reachable from inside the cluster, "
    + "if you're using Kubernetes in Docker, pass --server with the container IP for the API Server"

  function LoopbackWarning(server: string): Error {
    Fault("server in Kubeconfig is " + server + LoopbackAdvice)
  }

  /** The server of the client's REST config, with a warning when it names the
      loopback host. */
  function GetServerFromKubeconfig(f: ClusterFacts): (r: (Result<string, Error>, Option<Error>))
    ensures f.restHost.Err? ==> r == (Err(Errorf("failed getting REST config from client", f.restHost.error)), None)
    ensures f.restHost.Ok? ==> r.0 == Ok(f.restHost.value)
    ensures f.restHost.Ok? ==> (r.1.Some? <==> IsLoopback(f.restHost.value))
    ensures r.1.Some? ==> r.1.value == LoopbackWarning(f.restHost.value)
  {
    match f.restHost
    case Err(e) => (Err(Errorf("failed getting REST config from client", e)), None)
    case Ok(server) =>
      if IsLoopback(server) then (Ok(server), Some(LoopbackWarning(server)))
      else (Ok(server), None)
  }

  function CreateRemoteSecretFromPlugin(f: ClusterFacts, tokenSecret: Secret, server: string, clusterName: string, secName: string,
                                        provider: AuthProviderConfig): (r: Result<Secret, Error>)
    ensures ServiceAccountRootCAKey !in tokenSecret.data ==> r == Err(ErrMissingRootCAKey)
    ensures ServiceAccountRootCAKey in tokenSecret.data ==>
      var kubeconfig := CreatePluginKubeconfig(tokenSecret.data[ServiceAccountRootCAKey], clusterName, server, provider);
      && (f.validate(kubeconfig).Some? ==> r == Err(Errorf("invalid kubeconfig", f.validate(kubeconfig).value)))
      && (f.validate(kubeconfig).None? ==> r == CreateRemoteServiceAccountSecret(f, kubeconfig, clusterName, secName))
    ensures r.Ok? ==> r.value.name == secName
  {
    if ServiceAccountRootCAKey !in tokenSecret.data then Err(ErrMissingRootCAKey)
    else
      var kubeconfig := CreatePluginKubeconfig(tokenSecret.data[ServiceAccountRootCAKey], clusterName, server, provider);
      match f.validate(kubeconfig)
      case Some(e) => Err(Errorf("invalid kubeconfig", e))
      case None => CreateRemoteServiceAccountSecret(f, kubeconfig, clusterName, secName)
  }

  function CreateRemoteSecretFromTokenAndServerSpec(f: ClusterFacts, tokenSecret: Secret, clusterName: string, server: string,
                                                    secName: string): (r: Result<Secret, Error>)
    ensures r.Ok? ==> r.value.name == secName
  {
    match WaitForTokenDataSpec(f, tokenSecret)
    case Err(e) => Err(e)
    case Ok(data) =>
      var kubeconfig := CreateBearerTokenKubeconfig(data.ca, data.token, clusterName, server);
      match f.validate(kubeconfig)
      case Some(e) => Err(Errorf("invalid kubeconfig", e))
      case None => CreateRemoteServiceAccountSecret(f, kubeconfig, clusterName, secName)
  }

  /** The plugin secret embeds, under the cluster's key, a kubeconfig whose
      cluster carries the token secret's CA and whose user carries the auth
      provider and no token. */
  lemma PluginSecretCarriesProvider(f: ClusterFacts, tokenSecret: Secret, server: string, clusterName: string, secName: string,
                                    provider: AuthProviderConfig)
    requires CreateRemoteSecretFromPlugin(f, tokenSecret, server, clusterName, secName, provider).Ok?
    ensures ServiceAccountRootCAKey in tokenSecret.data
    ensures var kubeconfig := CreatePluginKubeconfig(tokenSecret.data[ServiceAccountRootCAKey], clusterName, server, provider);
      var key := if secName == ConfigSecretName then ConfigSecretKey else clusterName;
      var secret := CreateRemoteSecretFromPlugin(f, tokenSecret, server, clusterName, secName, provider).value;
      && f.validate(kubeconfig).None?
      && kubeconfig.clusters[clusterName].certificateAuthorityData == tokenSecret.data[ServiceAccountRootCAKey]
      && kubeconfig.authInfos[clusterName] == AuthInfo([], Some(provider))
      && secret.data.Keys == {key}
      && secret.data[key] == f.encode(kubeconfig).value
  {
  }

  method CreateRemoteSecretFromTokenAndServer(client: KubeClient, tokenSecret: Secret, clusterName: string, server: string,
                                              secName: string) returns (r: Result<Secret, Error>)
    ensures r == CreateRemoteSecretFromTokenAndServerSpec(client.facts, tokenSecret, clusterName, server, secName)
  {
    var data := WaitForTokenData(client, tokenSecret);
    if data.Err? {
      return Err(data.error);
    }
    var kubeconfig := CreateBearerTokenKubeconfig(data.value.ca, data.value.token, clusterName, server);
    var invalid := client.facts.validate(kubeconfig);
    if invalid.Some? {
      return Err(Errorf("invalid kubeconfig", invalid.value));
    }
    r := CreateRemoteServiceAccountSecret(client.facts, kubeconfig, clusterName, secName);
  }

  /** The bearer-token secret embeds, under the cluster's key, a kubeconfig with
      the token data the wait produced. */
  lemma BearerSecretCarriesToken(f: ClusterFacts, tokenSecret: Secret, clusterName: string, server: string, secName: string)
    requires CreateRemoteSecretFromTokenAndServerSpec(f, tokenSecret, clusterName, server, secName).Ok?
    ensures var data := WaitForTokenDataSpec(f, tokenSecret);
      var key := if secName == ConfigSecretName then ConfigSecretKey else clusterName;
      var secret := CreateRemoteSecretFromTokenAndServerSpec(f, tokenSecret, clusterName, server, secName).value;
      && data.Ok?
      && secret.data.Keys == {key}
      && secret.data[key] == f.encode(CreateBearerTokenKubeconfig(data.value.ca, data.value.token, clusterName, server)).value
  {
  }

  // ---------------------------------------------------------------------------
  // The service account and its token secret

  function GetOrCreateServiceAccount(s: State, opt: RemoteSecretOptions): (r: Result<ServiceAccount, Error>)
    ensures s.GetServiceAccount(opt.namespace, opt.serviceAccountName) == Err(NotFound) ==>
      r == Err(ErrServiceAccountNotFound)
    ensures r.Ok? <==> s.GetServiceAccount(opt.namespace, opt.serviceAccountName).Ok?
  {
    match s.GetServiceAccount(opt.namespace, opt.serviceAccountName)
    case Ok(sa) => Ok(sa)
    case Err(NotFound) => Err(ErrServiceAccountNotFound)
    case Err(e) => Err(Errorf("failed to get ServiceAccount", Api(e)))
  }

  /** The index of the first reference named `name`, |refs| when there is none. */
  function FirstSecretNamed(refs: seq<SecretRef>, name: string): (i: nat)
    ensures i <= |refs|
    ensures i < |refs| ==> refs[i].name == name
    ensures forall j :: 0 <= j < i ==> refs[j].name != name
    decreases |refs|
  {
    if refs == [] then 0
    else if refs[0].name == name then 0
    else 1 + FirstSecretNamed(refs[1..], name)
  }

  const NoSecretFoundMessage := "no secret found in the service account: "
  const MissingSecretMessage := "provided secret does not exist: "

  function WrongSecretCountMessage(n: nat, opt: RemoteSecretOptions): string {
    "wrong number of secrets (" + NatToString(n) + ") in serviceaccount "
      + opt.namespace + "/" + opt.serviceAccountName + ", please use --secret-name to specify one"
  }

  /** Which of the service account's listed secrets the legacy path reads. */
  function LegacySelect(sa: ServiceAccount, opt: RemoteSecretOptions): (r: Result<SecretRef, Error>)
    ensures |sa.secrets| == 0 ==> r.Err?
    ensures |sa.secrets| > 0 && opt.secretName != "" ==>
      (r.Ok? <==> exists i :: 0 <= i < |sa.secrets| && sa.secrets[i].name == opt.secretName)
    ensures |sa.secrets| > 0 && opt.secretName == "" ==> (r.Ok? <==> |sa.secrets| == 1)
    ensures r.Ok? ==> exists i :: (0 <= i < |sa.secrets|
      && (forall j :: 0 <= j < i ==> sa.secrets[j].name != opt.secretName || opt.secretName == "")
      && r.value.name == sa.secrets[i].name
      && r.value.namespace == (if sa.secrets[i].namespace == "" then opt.namespace else sa.secrets[i].namespace))
  {
    if |sa.secrets| == 0 then
      Err(Fault(NoSecretFoundMessage + sa.name))
    else if opt.secretName != "" then
      var i := FirstSecretNamed(sa.secrets, opt.secretName);
      if i == |sa.secrets| then Err(Fault(MissingSecretMessage + opt.secretName))
      else Ok(SecretRef(sa.secrets[i].name, if sa.secrets[i].namespace == "" then opt.namespace else sa.secrets[i].namespace))
    else if |sa.secrets| == 1 then
      Ok(SecretRef(sa.secrets[0].name, if sa.secrets[0].namespace == "" then opt.namespace else sa.secrets[0].namespace))
    else
      Err(Fault(WrongSecretCountMessage(|sa.secrets|, opt)))
  }

  function LegacyGetServiceAccountSecretSpec(s: State, sa: ServiceAccount, opt: RemoteSecretOptions): Result<Secret, Error> {
    match LegacySelect(sa, opt)
    case Err(e) => Err(e)
    case Ok(ref) =>
      match s.GetSecret(ref.namespace, ref.name)
      case Ok(secret) => Ok(secret)
      case Err(e) => Err(Api(e))
  }

  /** legacyGetServiceAccountSecret: pick the listed secret (a search that stops
      at the first match), default its namespace, then read it. */
  method LegacyGetServiceAccountSecret(client: KubeClient, sa: ServiceAccount, opt: RemoteSecretOptions)
    returns (r: Result<Secret, Error>)
    ensures r == LegacyGetServiceAccountSecretSpec(client.clientset.View(), sa, opt)
  {
    if |sa.secrets| == 0 {
      return Err(Fault(NoSecretFoundMessage + sa.name));
    }
    var secretName := "";
    var secretNamespace := "";
    if opt.secretName != "" {
      var found := false;
      var i := 0;
      while i < |sa.secrets| && !found
        invariant 0 <= i <= |sa.secrets|
        invariant !found ==> forall j :: 0 <= j < i ==> sa.secrets[j].name != opt.secretName
        invariant found ==> 0 < i && i - 1 == FirstSecretNamed(sa.secrets, opt.secretName)
        invariant found ==> secretName == sa.secrets[i - 1].name && secretNamespace == sa.secrets[i - 1].namespace
        decreases |sa.secrets| - i, if found then 0 else 1
      {
        if sa.secrets[i].name == opt.secretName {
          found := true;
          secretName := sa.secrets[i].name;
          secretNamespace := sa.secrets[i].namespace;
        }
        i := i + 1;
      }
      if !found {
        return Err(Fault(MissingSecretMessage + opt.secretName));
      }
    } else {
      if |sa.secrets| == 1 {
        secretName := sa.secrets[0].name;
        secretNamespace := sa.secrets[0].namespace;
      } else {
        return Err(Fault(WrongSecretCountMessage(|sa.secrets|, opt)));
      }
    }
    if secretNamespace == "" {
      secretNamespace := opt.namespace;
    }
    assert LegacySelect(sa, opt) == Ok(SecretRef(secretName, secretNamespace));
    var got := client.clientset.View().GetSecret(secretNamespace, secretName);
    r := if got.Ok? then Ok(got.value) else Err(Api(got.error));
  }

  /** The token request: no audiences, a two-hour expiry. */
  function GetServiceAccountToken(f: ClusterFacts, saName: string, namespace: string): (r: Result<string, Error>)
    ensures var answer := f.createToken(namespace, saName, TokenRequest([], ServiceAccountTokenExpirationSeconds));
      && (r.Ok? <==> answer.Ok?)
      && (r.Ok? ==> r.value == answer.value)
  {
    match f.createToken(namespace, saName, TokenRequest([], ServiceAccountTokenExpirationSeconds))
    case Err(e) => Err(Wrapped("failed to create token for service account " + namespace + "/" + saName, e))
    case Ok(token) => Ok(token)
  }

  function TokenSecretData(token: string, namespace: string, ca: seq<byte>): map<string, seq<byte>> {
    map["token" := Utf8(token), "namespace" := Utf8(namespace), ServiceAccountRootCAKey := ca]
  }

  /** The token secret's name: the one asked for, or the account's default. */
  function TokenSecretNameFor(sa: ServiceAccount, opt: RemoteSecretOptions): string {
    if opt.secretName != "" then opt.secretName else TokenSecretName(sa.name)
  }

  /** An existing secret as the code tests it: found, with a non-empty name. */
  predicate ExistingTokenSecret(s: State, sa: ServiceAccount, opt: RemoteSecretOptions) {
    var got := s.GetSecret(opt.namespace, TokenSecretNameFor(sa, opt));
    got.Ok? && got.value.name != ""
  }

  /** getOrCreateServiceAccountSecret: reuse the existing token secret unless
      overwriting is allowed; otherwise request a token and update the existing
      secret in place or create a new one, holding exactly token, namespace and
      CA. */
  function GetOrCreateServiceAccountSecretSpec(f: ClusterFacts, s: State, sa: ServiceAccount, opt: RemoteSecretOptions): (p: Produced)
    ensures var secretName := TokenSecretNameFor(sa, opt);
      var got := s.GetSecret(opt.namespace, secretName);
      var k := Key(SecretKind, opt.namespace, secretName);
      && (got.Err? && got.error != NotFound ==>
            p == Produced(s, Err(Wrapped("failed to get existing secret " + opt.namespace + "/" + secretName, Api(got.error)))))
      && (!opt.allowOverwrite && ExistingTokenSecret(s, sa, opt) ==> p == Produced(s, Ok(got.value)))
      && (p.result.Err? ==> p.state == s)
      && (p.result.Ok? && (opt.allowOverwrite || !ExistingTokenSecret(s, sa, opt)) ==>
            var token := GetServiceAccountToken(f, sa.name, opt.namespace);
            && token.Ok? && f.caCert.Ok?
            && p.result.value.name == (if ExistingTokenSecret(s, sa, opt) then got.value.name else secretName)
            && p.result.value.data == TokenSecretData(token.value, opt.namespace, f.caCert.value)
            && p.result.value.annotations == map[ServiceAccountNameKey := sa.name]
            && p.result.value.secretType == SecretTypeOpaque
            && (ExistingTokenSecret(s, sa, opt) ==>
                  p.result.value.labels == got.value.labels && p.state == s.Update(k, SecretObj(p.result.value)))
            && (!ExistingTokenSecret(s, sa, opt) ==> p.state == s.Create(k, SecretObj(p.result.value))))
  {
    var secretName := TokenSecretNameFor(sa, opt);
    var k := Key(SecretKind, opt.namespace, secretName);
    var got := s.GetSecret(opt.namespace, secretName);
    var existing := got.Ok? && got.value.name != "";
    if got.Err? && got.error != NotFound then
      Produced(s, Err(Wrapped("failed to get existing secret " + opt.namespace + "/" + secretName, Api(got.error))))
    else if !opt.allowOverwrite && existing then
      Produced(s, Ok(got.value))
    else if f.caCert.Err? then
      Produced(s, Err(Wrapped("failed to get CA certificate", f.caCert.error)))
    else
      var token := GetServiceAccountToken(f, sa.name, opt.namespace);
      if token.Err? then
        Produced(s, Err(Wrapped("failed to get service account token", token.error)))
      else
        var data := TokenSecretData(token.value, opt.namespace, f.caCert.value);
        var annotations := map[ServiceAccountNameKey := sa.name];
        if opt.allowOverwrite && existing then
          var updated := got.value.(secretType := SecretTypeOpaque, data := data, annotations := annotations);
          match s.UpdateError(k)
          case Some(e) =>
            Produced(s, Err(Wrapped("failed to update existing secret " + opt.namespace + "/" + got.value.name, Api(e))))
          case None => Produced(s.Update(k, SecretObj(updated)), Ok(updated))
        else
          var secret := Secret(secretName, opt.namespace, map[], annotations, SecretTypeOpaque, data);
          match s.CreateError(k)
          case Some(e) => Produced(s, Err(Api(e)))
          case None => Produced(s.Create(k, SecretObj(secret)), Ok(secret))
  }

  method GetOrCreateServiceAccountSecret(client: KubeClient, sa: ServiceAccount, opt: RemoteSecretOptions)
    returns (r: Result<Secret, Error>)
    modifies client.clientset
    ensures client.clientset.View() == GetOrCreateServiceAccountSecretSpec(client.facts, old(client.clientset.View()), sa, opt).state
    ensures r == GetOrCreateServiceAccountSecretSpec(client.facts, old(client.clientset.View()), sa, opt).result
  {
    var secretName := opt.secretName;
    if secretName == "" {
      secretName := TokenSecretName(sa.name);
    }
    var got := client.clientset.View().GetSecret(opt.namespace, secretName);
    if got.Err? && got.error != NotFound {
      return Err(Wrapped("failed to get existing secret " + opt.namespace + "/" + secretName, Api(got.error)));
    }
    var existing := got.Ok? && got.value.name != "";
    if !opt.allowOverwrite && existing {
      return Ok(got.value);
    }
    var caCert := client.facts.caCert;
    if caCert.Err? {
      return Err(Wrapped("failed to get CA certificate", caCert.error));
    }
    var saToken := GetServiceAccountToken(client.facts, sa.name, opt.namespace);
    if saToken.Err? {
      return Err(Wrapped("failed to get service account token", saToken.error));
    }
    var k := Key(SecretKind, opt.namespace, secretName);
    if opt.allowOverwrite && existing {
      var existingSecret := got.value;
      existingSecret := existingSecret.(secretType := SecretTypeOpaque);
      existingSecret := existingSecret.(data := TokenSecretData(saToken.value, opt.namespace, caCert.value));
      existingSecret := existingSecret.(annotations := map[ServiceAccountNameKey := sa.name]);
      var e := client.clientset.Update(k, SecretObj(existingSecret));
      match e {
        case Some(code) =>
          return Err(Wrapped("failed to update existing secret " + opt.namespace + "/" + existingSecret.name, Api(code)));
        case None =>
      }
      return Ok(existingSecret);
    }
    var secret := Secret(secretName, opt.namespace, map[], map[ServiceAccountNameKey := sa.name], SecretTypeOpaque,
      TokenSecretData(saToken.value, opt.namespace, caCert.value));
    var e := client.clientset.Create(k, SecretObj(secret));
    if e.Some? {
      return Err(Api(e.value));
    }
    return Ok(secret);
  }

  /** getServiceAccountSecret: the account must exist; clusters older than 1.24
      take the legacy path, newer ones the token-secret path. */
  function GetServiceAccountSecretSpec(f: ClusterFacts, s: State, opt: RemoteSecretOptions): (p: Produced)
    ensures s.GetServiceAccount(opt.namespace, opt.serviceAccountName) == Err(NotFound) ==>
      p == Produced(s, Err(ErrServiceAccountNotFound))
    ensures GetOrCreateServiceAccount(s, opt).Err? ==> p == Produced(s, Err(GetOrCreateServiceAccount(s, opt).error))
    ensures var sa := s.GetServiceAccount(opt.namespace, opt.serviceAccountName);
      && (sa.Ok? && !IsAtLeastVersion(f.serverVersion, 24) ==>
            p == Produced(s, LegacyGetServiceAccountSecretSpec(s, sa.value, opt)))
      && (sa.Ok? && IsAtLeastVersion(f.serverVersion, 24) ==>
            p == GetOrCreateServiceAccountSecretSpec(f, s, sa.value, opt))
    ensures !IsAtLeastVersion(f.serverVersion, 24) ==> p.state == s
  {
    match GetOrCreateServiceAccount(s, opt)
    case Err(e) => Produced(s, Err(e))
    case Ok(sa) =>
      if !IsAtLeastVersion(f.serverVersion, 24) then Produced(s, LegacyGetServiceAccountSecretSpec(s, sa, opt))
      else GetOrCreateServiceAccountSecretSpec(f, s, sa, opt)
  }

  method GetServiceAccountSecret(client: KubeClient, opt: RemoteSecretOptions) returns (r: Result<Secret, Error>)
    modifies client.clientset
    ensures client.clientset.View() == GetServiceAccountSecretSpec(client.facts, old(client.clientset.View()), opt).state
    ensures r == GetServiceAccountSecretSpec(client.facts, old(client.clientset.View()), opt).result
  {
    var serviceAccount := GetOrCreateServiceAccount(client.clientset.View(), opt);
    if serviceAccount.Err? {
      return Err(serviceAccount.error);
    }
    if !IsAtLeastVersion(client.facts.serverVersion, 24) {
      r := LegacyGetServiceAccountSecret(client, serviceAccount.value, opt);
      return;
    }
    r := GetOrCreateServiceAccountSecret(client, serviceAccount.value, opt);
  }

  // ---------------------------------------------------------------------------
  // CreateRemoteSecret

  /** CreateRemoteSecret's defaulting: the cluster name (the kube-system UID
      when none is given), then, by secret type, the output secret's name and
      the default service account. */
  function ResolveOptions(f: ClusterFacts, opt: RemoteSecretOptions, clusterNamespace: string)
    : (r: Result<(string, RemoteSecretOptions), Error>)
    ensures opt.clusterName == "" && f.kubeSystemUid.Err? ==> r == Err(f.kubeSystemUid.error)
    ensures r.Ok? ==> r.value.1.clusterName == (if opt.clusterName == "" then f.kubeSystemUid.value else opt.clusterName)
    ensures r.Ok? ==> r.value.1 == opt.(clusterName := r.value.1.clusterName, serviceAccountName := r.value.1.serviceAccountName)
    ensures r.Ok? && opt.serviceAccountName != "" ==> r.value.1.serviceAccountName == opt.serviceAccountName
    ensures (opt.clusterName != "" || f.kubeSystemUid.Ok?) ==>
      && (opt.secretType == SecretTypeRemote ==>
            r.Ok? && r.value.0 == GetRemoteSecretName(r.value.1.clusterName, clusterNamespace)
            && (opt.serviceAccountName == "" ==> r.value.1.serviceAccountName == DefaultServiceAccountName))
      && (opt.secretType == SecretTypeConfig ==>
            r.Ok? && r.value.0 == ConfigSecretName
            && (opt.serviceAccountName == "" ==> r.value.1.serviceAccountName == DefaultConfigServiceAccountName))
      && (opt.secretType != SecretTypeRemote && opt.secretType != SecretTypeConfig ==>
            r == Err(Fault("unsupported type: " + opt.secretType)))
  {
    if opt.clusterName == "" && f.kubeSystemUid.Err? then Err(f.kubeSystemUid.error)
    else
      var named := if opt.clusterName == "" then opt.(clusterName := f.kubeSystemUid.value) else opt;
      if named.secretType == SecretTypeRemote then
        Ok((GetRemoteSecretName(named.clusterName, clusterNamespace),
            if named.serviceAccountName == "" then named.(serviceAccountName := DefaultServiceAccountName) else named))
      else if named.secretType == SecretTypeConfig then
        Ok((ConfigSecretName,
            if named.serviceAccountName == "" then named.(serviceAccountName := DefaultConfigServiceAccountName) else named))
      else Err(Fault("unsupported type: " + named.secretType))
  }

  /** The authentication dispatch of CreateRemoteSecret. */
  function BuildRemoteSecretSpec(f: ClusterFacts, opt: RemoteSecretOptions, tokenSecret: Secret, server: string, secretName: string)
    : (r: Result<Secret, Error>)
    ensures opt.authType != AuthTypeBearerToken && opt.authType != AuthTypePlugin ==>
      r == Err(Fault("unsupported authentication type: " + opt.authType))
    ensures r.Ok? ==> r.value.name == secretName
  {
    if opt.authType == AuthTypeBearerToken then
      CreateRemoteSecretFromTokenAndServerSpec(f, tokenSecret, opt.clusterName, server, secretName)
    else if opt.authType == AuthTypePlugin then
      CreateRemoteSecretFromPlugin(f, tokenSecret, server, opt.clusterName, secretName,
        AuthProviderConfig(opt.authPluginName, opt.authPluginConfig))
    else Err(Fault("unsupported authentication type: " + opt.authType))
  }

  /** CreateRemoteSecret once the token secret is in hand: the server (the
      override, or the client's host with its warning), the secret for the
      authentication type, placed in the options' namespace. */
  function FinishRemoteSecretSpec(f: ClusterFacts, opt: RemoteSecretOptions, tokenSecret: Secret, secretName: string)
    : (r: (Result<Secret, Error>, Option<Error>))
    ensures r.0.Ok? ==> r.0.value.name == secretName && r.0.value.namespace == opt.namespace
    ensures r.1 == if opt.serverOverride != "" then None else GetServerFromKubeconfig(f).1
    ensures (opt.serverOverride != "" || f.restHost.Ok?) && opt.authType != AuthTypeBearerToken && opt.authType != AuthTypePlugin ==>
      r.0 == Err(Fault("unsupported authentication type: " + opt.authType))
  {
    var (server, warn) := if opt.serverOverride != "" then (Ok(opt.serverOverride), None) else GetServerFromKubeconfig(f);
    if server.Err? then (Err(server.error), warn)
    else
      match BuildRemoteSecretSpec(f, opt, tokenSecret, server.value, secretName)
      case Err(e) => (Err(e), warn)
      case Ok(secret) => (Ok(secret.(namespace := opt.namespace)), warn)
  }

  method FinishRemoteSecret(client: KubeClient, opt: RemoteSecretOptions, tokenSecret: Secret, secretName: string)
    returns (secret: Result<Secret, Error>, warn: Option<Error>)
    ensures (secret, warn) == FinishRemoteSecretSpec(client.facts, opt, tokenSecret, secretName)
  {
    var server;
    warn := None;
    if opt.serverOverride != "" {
      server := opt.serverOverride;
    } else {
      var answer := GetServerFromKubeconfig(client.facts);
      warn := answer.1;
      if answer.0.Err? {
        return Err(answer.0.error), warn;
      }
      server := answer.0.value;
    }
    var remoteSecret: Result<Secret, Error>;
    if opt.authType == AuthTypeBearerToken {
      remoteSecret := CreateRemoteSecretFromTokenAndServer(client, tokenSecret, opt.clusterName, server, secretName);
    } else if opt.authType == AuthTypePlugin {
      remoteSecret := CreateRemoteSecretFromPlugin(client.facts, tokenSecret, server, opt.clusterName, secretName,
        AuthProviderConfig(opt.authPluginName, opt.authPluginConfig));
    } else {
      remoteSecret := Err(Fault("unsupported authentication type: " + opt.authType));
    }
    if remoteSecret.Err? {
      return Err(remoteSecret.error), warn;
    }
    secret := Ok(remoteSecret.value.(namespace := opt.namespace));
  }

  datatype Created = Created(state: State, result: Result<Secret, Error>, warning: Option<Error>)

  function CreateRemoteSecretSpec(f: ClusterFacts, s: State, opt: RemoteSecretOptions, clusterNamespace: string): Created {
    match ResolveOptions(f, opt, clusterNamespace)
    case Err(e) => Created(s, Err(e), None)
    case Ok((secretName, resolved)) =>
      var token := GetServiceAccountSecretSpec(f, s, resolved);
      if token.result.Err? then
        Created(token.state, Err(Errorf("could not get access token to read resources from local kube-apiserver", token.result.error)), None)
      else
        var (secret, warn) := FinishRemoteSecretSpec(f, resolved, token.result.value, secretName);
        Created(token.state, secret, warn)
  }

  method CreateRemoteSecret(client: KubeClient, opt: RemoteSecretOptions, clusterNamespace: string)
    returns (secret: Result<Secret, Error>, warn: Option<Error>)
    modifies client.clientset
    ensures client.clientset.View() == CreateRemoteSecretSpec(client.facts, old(client.clientset.View()), opt, clusterNamespace).state
    ensures secret == CreateRemoteSecretSpec(client.facts, old(client.clientset.View()), opt, clusterNamespace).result
    ensures warn == CreateRemoteSecretSpec(client.facts, old(client.clientset.View()), opt, clusterNamespace).warning
  {
    var resolved := ResolveOptions(client.facts, opt, clusterNamespace);
    if resolved.Err? {
      return Err(resolved.error), None;
    }
    var (secretName, named) := resolved.value;
    var tokenSecret := GetServiceAccountSecret(client, named);
    if tokenSecret.Err? {
      return Err(Errorf("could not get access token to read resources from local kube-apiserver", tokenSecret.error)), None;
    }
    secret, warn := FinishRemoteSecret(client, named, tokenSecret.value, secretName);
  }

  /** A secret CreateRemoteSecret returns carries the name and namespace the
      option defaulting chose. */
  lemma CreatedSecretPlacement(f: ClusterFacts, s: State, opt: RemoteSecretOptions, clusterNamespace: string)
    ensures var c := CreateRemoteSecretSpec(f, s, opt, clusterNamespace);
      var r := ResolveOptions(f, opt, clusterNamespace);
      c.result.Ok? ==> r.Ok? && c.result.value.name == r.value.0 && c.result.value.namespace == r.value.1.namespace
  {
    var r := ResolveOptions(f, opt, clusterNamespace);
    if r.Ok? {
      var token := GetServiceAccountSecretSpec(f, s, r.value.1);
      if token.result.Ok? {
        var finished := FinishRemoteSecretSpec(f, r.value.1, token.result.value, r.value.0);
        assert CreateRemoteSecretSpec(f, s, opt, clusterNamespace).result == finished.0;
      }
    }
  }

  /** Type dispatch: an unsupported type fails before any token is fetched (the
      remote store is untouched); a remote or config secret is named after the
      cluster or "istio-kubeconfig" and lands in the options' namespace. */
  lemma SecretTypeDispatch(f: ClusterFacts, s: State, opt: RemoteSecretOptions, clusterNamespace: string)
    requires opt.clusterName != "" || f.kubeSystemUid.Ok?
    ensures var c := CreateRemoteSecretSpec(f, s, opt, clusterNamespace);
      var clusterName := if opt.clusterName == "" then f.kubeSystemUid.value else opt.clusterName;
      && (opt.secretType != SecretTypeRemote && opt.secretType != SecretTypeConfig ==>
            c == Created(s, Err(Fault("unsupported type: " + opt.secretType)), None))
      && (c.result.Ok? && opt.secretType == SecretTypeRemote ==>
            c.result.value.name == GetRemoteSecretName(clusterName, clusterNamespace))
      && (c.result.Ok? && opt.secretType == SecretTypeConfig ==> c.result.value.name == ConfigSecretName)
      && (c.result.Ok? ==> c.result.value.namespace == opt.namespace)
  {
    CreatedSecretPlacement(f, s, opt, clusterNamespace);
  }

  /** Past a successful token fetch, an auth type other than bearer-token or
      plugin is an error, whatever the server warning. */
  lemma AuthTypeDispatch(f: ClusterFacts, s: State, opt: RemoteSecretOptions, clusterNamespace: string)
    requires ResolveOptions(f, opt, clusterNamespace).Ok?
    requires GetServiceAccountSecretSpec(f, s, ResolveOptions(f, opt, clusterNamespace).value.1).result.Ok?
    requires opt.serverOverride != "" || f.restHost.Ok?
    requires opt.authType != AuthTypeBearerToken && opt.authType != AuthTypePlugin
    ensures CreateRemoteSecretSpec(f, s, opt, clusterNamespace).result == Err(Fault("unsupported authentication type: " + opt.authType))
  {
  }

  /** A server override is used verbatim and never draws the loopback warning. */
  lemma ServerOverrideWins(f: ClusterFacts, s: State, opt: RemoteSecretOptions, clusterNamespace: string)
    requires opt.serverOverride != ""
    ensures CreateRemoteSecretSpec(f, s, opt, clusterNamespace).warning == None
  {
  }

  // ---------------------------------------------------------------------------
  // The operator's creator: IstioRemoteSecretCreator.GetRemoteSecret

  /** The options GetRemoteSecret passes: a bearer-token remote secret for the
      cluster, in the Istio namespace, reusing an existing token secret. */
  function GetRemoteSecretOptions(cfg: Config, cd: ClusterDeployment): RemoteSecretOptions {
    RemoteSecretOptions(cfg.systemNamespace, cd.name, "", AuthTypeBearerToken, "", map[], SecretTypeRemote, "", "", false)
  }

  /** `connected` is what building a client from the kubeconfig bytes gave:
      the client of the remote cluster, or the error. */
  function GetRemoteSecretSpec(cfg: Config, connected: Result<(ClusterFacts, State), Error>, cd: ClusterDeployment): Produced
    requires connected.Ok?
  {
    var c := CreateRemoteSecretSpec(connected.value.0, connected.value.1, GetRemoteSecretOptions(cfg, cd), cd.namespace);
    Produced(c.state, c.result)
  }

  method GetRemoteSecret(cfg: Config, connected: Result<KubeClient, Error>, cd: ClusterDeployment) returns (r: Result<Secret, Error>)
    modifies if connected.Ok? then {connected.value.clientset} else {}
    ensures connected.Err? ==> r == Err(connected.error)
    ensures connected.Ok? ==>
      var client := connected.value;
      && client.clientset.View() == GetRemoteSecretSpec(cfg, Ok((client.facts, old(client.clientset.View()))), cd).state
      && r == GetRemoteSecretSpec(cfg, Ok((client.facts, old(client.clientset.View()))), cd).result
  {
    if connected.Err? {
      return Err(connected.error);
    }
    var secret, warn := CreateRemoteSecret(connected.value, GetRemoteSecretOptions(cfg, cd), cd.namespace);
    if secret.Err? {
      return Err(secret.error);
    }
    return Ok(secret.value);
  }

  /** The secret the operator's creator returns is the one its manager looks
      for: GetRemoteSecretName of the cluster, in the Istio namespace. */
  lemma GetRemoteSecretNaming(cfg: Config, f: ClusterFacts, s: State, cd: ClusterDeployment)
    requires cd.name != ""
    ensures var r := GetRemoteSecretSpec(cfg, Ok((f, s)), cd).result;
      r.Ok? ==> r.value.name == GetRemoteSecretName(cd.name, cd.namespace) && r.value.namespace == cfg.systemNamespace
  {
    SecretTypeDispatch(f, s, GetRemoteSecretOptions(cfg, cd), cd.namespace);
  }
}
