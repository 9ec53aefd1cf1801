# Istio operator for k0rdent, modelled in Dafny

This project models the core of the k0rdent Istio operator and the script that
draws its Helm chart's MultiClusterService graph, and proves properties of the
model.

The operator watches kcm ClusterDeployments. For every cluster of the mesh it
keeps three derived objects in the management cluster:

- an **Istio remote secret**: a kubeconfig that lets Istio reach the cluster
  with a service-account token;
- a **cert-manager Certificate**: the cluster's intermediate CA. When the
  cluster was created in a kcm region, a MultiClusterService is added that
  copies the CA secret to the region clusters;
- a **propagation MultiClusterService**: it copies the remote secret to every
  member cluster.

A ClusterDeployment that is gone is cleaned up after. An hourly worker calls
the remote-secret manager again for every cluster carrying the istio-role label.

## How the model is built

- **Store.** The API server is the `Store` class: a map of objects keyed by
  (kind, namespace, name), the events recorded so far, and a fixed set of keys
  on which every call answers a transient error. `State` is the same store as a
  value.
- **Managers.** Each manager (`Cert.CertManager`,
  `RemoteSecretManager.RemoteSecretManager`,
  `Multicluster.RemoteSecretPropagationManager`, the reconciler
  `Controller.ClusterDeploymentReconciler`, the rotation `SecretRotation.Manager`)
  is a class over that store. Every method's postcondition ties the new store and
  the returned error to a pure specification function of the old store. The
  lemmas beside them prove what the operator promises: idempotent creation,
  deletion that tolerates absence, the readiness, mesh and region gates, the
  order of the steps, and that nothing else in the store changes.
- **Remote cluster.** The remote-secret builder (`RemoteSecret`) works on a
  second `Store`, the remote cluster. Calls that are not object reads (version
  probe, REST host, CA, token request, kubeconfig validation and serialisation,
  the re-reads of the token wait) are answers held in a `ClusterFacts` value.
- **Helpers.** Go's `version.ParseGeneric` and the comparison of generic
  versions are modelled in `K8sKube`. FNV-1a with `%x` is modelled in `Utils`.
  `Text` models `strconv.Itoa`, `strings.Contains`, Go's UTF-8 conversion of
  strings to bytes, and Python's `str.split` (with its inverse, a join).
- **Diagram script.** `McsDiagram` models `scripts/mcs_diagram_generator.py`:
  - loaded YAML is a value type with these pieces:
    - Python truthiness;
    - `dict.get`;
    - subscripts;
    - iteration;
  - `deep_get`, `extract_kind` and the three resource classes;
  - the placeholder regular expression, as a backtracking matcher proved equal
    to an independent definition of a match;
  - the node labels, which are proved injective;
  - `generate_diagram`, as the sequence of strings passed to `f.write` together
    with the exception that stops it.

Where the code and the design description of the operator disagree, the model
follows the code:

- The token wait re-reads the secret up to six times: one first attempt, then
  up to five retries. It is not five.
- The propagation MultiClusterService is created whether or not the cluster is
  ready (`Multicluster.TryCreateIgnoresReadiness`).
- In this revision, rotation calls the plain `TryCreate`. That call returns early
  when the remote secret exists, so rotation does not overwrite
  (`SecretRotation.RotationKeepsExistingSecrets`).
- The reconciler names its descriptor with `GetMultiClusterServiceNameHash`,
  which the propagation package does not define. The model uses
  `GetMultiClusterServiceName`.

One place follows the evident intent instead of the code. The remote-secret
builder waits for the token with the corrected wait described under Findings
(`RemoteSecret.WaitForTokenData`). The wait as written is modelled beside it
(`RemoteSecret.WaitForTokenDataAsWritten`), and the two are proved equal
whenever every re-read succeeds with the same secret
(`RemoteSecret.WaitAsWrittenOnStableReads`).

## Model

| member | source | states |
|---|---|---|
| Store.State.Get | istio-operator/internal/controller/clusterdeployment_controller.go:71-81 | A Get succeeds exactly when the key is present and not failing, and returns the stored object. Otherwise it answers Unavailable for a failing key and NotFound for an absent one. |
| Store.State.Create | istio-operator/internal/controller/istio/cert/cert_manager.go:109-115 | Create writes the object only when the key is neither failing nor present. It never touches the failing set or the events. |
| Store.State.Delete | istio-operator/internal/controller/istio/cert/cert_manager.go:74-85 | Delete removes the key only when it is present and not failing. Afterwards the key is absent exactly when it was absent before or the delete succeeded. |
| Store.State.Update | istio-operator/internal/controller/istio/remote-secret/remote_secret.go:454-457 | Update overwrites the object only when the key is present and not failing. It never touches the failing set or the events. |
| Store.State.Emit | istio-operator/internal/controller/istio/cert/cert_manager.go:202-210 | Recording an event appends it to the event list and leaves the objects alone. |
| Store.Store.constructor | istio-operator/internal/controller/istio/remote-secret/remote_secret_manager.go:28-33 | A new store holds the given objects and failing keys and no events. |
| Store.Store.Create | istio-operator/internal/controller/istio/cert/cert_manager.go:109-115 | The method returns the create error of the old store (Unavailable, AlreadyExists or none) and leaves exactly the state of `State.Create`. |
| Store.Store.Delete | istio-operator/internal/controller/istio/cert/cert_manager.go:74-85 | The method returns the delete error of the old store (Unavailable, NotFound or none) and leaves exactly the state of `State.Delete`. |
| Store.Store.Update | istio-operator/internal/controller/istio/remote-secret/remote_secret.go:454-457 | The method returns the update error of the old store and leaves exactly the state of `State.Update`. |
| Store.Store.Record | istio-operator/internal/controller/istio/cert/cert_manager.go:202-210 | Recording an event appends exactly that event, as `State.Emit` describes. |
| Text.ContainsAt | istio-operator/internal/controller/istio/remote-secret/remote_secret.go:341-346 | An occurrence of `s` at a position of `t` makes `strings.Contains(t, s)` true. |
| Text.ContainsWitness | istio-operator/internal/controller/istio/remote-secret/remote_secret.go:341-346 | When `strings.Contains(t, s)` holds, the lemma returns a position at which `s` occurs in `t`. |
| Text.HexRoundTrip | istio-operator/internal/controller/utils/utils.go:117 | The `%x` rendering of n is a non-empty string of lowercase hex digits. It parses back to n, and it has no leading zero unless n is 0. |
| Text.HexInjective | istio-operator/internal/controller/utils/utils.go:117 | Different numbers have different `%x` renderings. |
| Text.HexLength | istio-operator/internal/controller/utils/utils.go:117 | A number below 16^k renders in at most k hex digits. |
| Text.NatToStringRoundTrip | istio-operator/internal/controller/utils/utils.go:35 | The decimal rendering of a natural number consists of digits only and reads back as the same number. |
| Text.IntToStringRoundTrip | istio-operator/internal/controller/utils/utils.go:35 | `strconv.Itoa` of any integer, sign included, parses back to the same integer. |
| Text.Split | scripts/mcs_diagram_generator.py:90 | Splitting always yields at least one part, as Python's `str.split` does. |
| Text.JoinSplit | scripts/mcs_diagram_generator.py:90 | Joining the parts of a split with the separator gives the original string back. |
| Text.SplitJoin | scripts/mcs_diagram_generator.py:90 | Splitting the join of separator-free parts (at least one) gives exactly those parts back. |
| Text.SplitPrefix | scripts/mcs_diagram_generator.py:90 | A separator-free prefix glues onto the first part of the rest's split. |
| Text.SplitPartsLackSeparator | scripts/mcs_diagram_generator.py:90 | No part produced by a split contains the separator. |
| Text.EncodeRune | istio-operator/internal/controller/utils/utils.go:113-118 | A rune encodes as one to four UTF-8 bytes, and as its own code when it is ASCII. |
| Resources.LabelValue | istio-operator/internal/controller/clusterdeployment_controller.go:90-93 | Reading a label gives its value, or the empty string when the label is absent (Go map zero value). |
| Utils.Fnv1a32Vectors | istio-operator/internal/controller/utils/utils.go:113-118 | FNV-1a 32 starts from the offset basis 0x811c9dc5. The hash of "a" is 0xe40c292c. |
| Utils.GetNameHash | istio-operator/internal/controller/utils/utils.go:113-118 | The name is the prefix, a dash, and then one to eight lowercase hex digits with no leading zero. Those digits are the FNV-1a hash of the name's UTF-8 bytes. |
| Utils.NameHashInjective | istio-operator/internal/controller/utils/utils.go:113-118 | Two names give the same hashed name exactly when their FNV-1a hashes agree. |
| Utils.NameHashPrefixesSeparate | istio-operator/internal/controller/utils/utils.go:113-118 | Hashed names built from prefixes with different first letters never collide. |
| Utils.IsAdopted | istio-operator/internal/controller/utils/utils.go:109-111 | A deployment is adopted exactly when its template name starts with "adopted-". |
| Utils.IsInMeshIgnoresValue | istio-operator/internal/controller/utils/utils.go:133-136 | Mesh membership depends only on whether the mesh label is present, whatever its value. |
| Utils.IsInMesh | istio-operator/internal/controller/utils/utils.go:133-136 | A cluster is in the mesh exactly when the mesh label is present. A cluster not in the mesh reads the label as "". |
| Utils.IsClusterDeploymentReady | istio-operator/internal/controller/utils/utils.go:143-159 | Readiness is the presence of a condition of the type that depends on adoption: Ready for adopted clusters, the CAPI cluster summary otherwise. |
| Utils.ReadinessIgnoresStatus | istio-operator/internal/controller/utils/utils.go:143-159 | Readiness does not depend on the conditions' status fields: only the condition types count. |
| Utils.IsResourceExists | istio-operator/internal/controller/utils/utils.go:120-131 | The existence check reports true exactly for a present key that is not failing. It reports an error only for a failing key, and then reports false with Unavailable. NotFound counts as absent. |
| Utils.GetEventsAnnotations | istio-operator/internal/controller/utils/utils.go:24-41 | The annotation map has only the "generation" key. Its value is "nil" exactly when the generation is 0, and otherwise the decimal generation, which parses back. |
| Utils.Errorf | istio-operator/internal/controller/istio/cert/cert_manager.go:40 | Wrapping an error with a context gives the message "context: cause". |
| Utils.LogEvent | istio-operator/internal/controller/utils/utils.go:74-107 | The event is a Warning exactly when an error is given, and Normal otherwise. It carries the reason, the object's name and namespace, and the generation annotations. Its message is followed by the rendered key/value pairs, with the error first when there is one. |
| Utils.RenderArgs | istio-operator/internal/controller/utils/utils.go:92-99 | The loop renders the key/value pairs exactly as the reference rendering `Suffix` does. |
| Utils.SuffixSnoc | istio-operator/internal/controller/utils/utils.go:92-99 | Rendering one more argument appends that argument's part to the rendering. |
| Utils.FailureMessage | istio-operator/internal/controller/utils/utils.go:84-105 | For a failure with one key/value pair, the rendered suffix is the error pair followed by that pair, each value in Go syntax. |
| K8sKube.SkipSpace | istio-operator/internal/k8s/kube.go:30-33 | After skipping leading whitespace, the rest is empty or starts with a non-space character. |
| K8sKube.DigitRun | istio-operator/internal/k8s/kube.go:30-33 | The run is the longest prefix of digits. |
| K8sKube.Numerals | istio-operator/internal/k8s/kube.go:30-33 | The dotted numerals are a non-empty sequence of digit strings. |
| K8sKube.ParseGeneric | istio-operator/internal/k8s/kube.go:30-37 | A successful parse yields at least two components (major and minor), each below 2^64 as Go's `uint` requires. A newline anywhere after the optional `v` makes the parse fail. |
| K8sKube.NumeralValues | istio-operator/internal/k8s/kube.go:30-33 | Each component's value is the decimal value of its numeral. |
| K8sKube.Compare | istio-operator/internal/k8s/kube.go:39-41 | The comparison answers -1, 0 or 1. |
| K8sKube.CompareAntisymmetric | istio-operator/internal/k8s/kube.go:39-41 | Swapping the two versions negates the comparison. |
| K8sKube.CompareCons | istio-operator/internal/k8s/kube.go:39-41 | Versions compare by their first components, then by the rest. |
| K8sKube.CompareTriples | istio-operator/internal/k8s/kube.go:39-41 | Three-part versions are less exactly in lexicographic order. |
| K8sKube.IsKubeAtLeastOrLessThanVersion | istio-operator/internal/k8s/kube.go:26-42 | For a `uint` minorVersion: with no version, or one that does not parse, the answer is true. Otherwise it is whether the server version is at least 1.minor.0 (atLeast) or below it. |
| K8sKube.IsAtLeastVersion | istio-operator/internal/k8s/kube.go:15-23 | A failed version probe counts as "at least". Otherwise the answer is the atLeast comparison against 1.minor.0. |
| K8sKube.ParsesNumerals | istio-operator/internal/k8s/kube.go:30-37 | "v" + a + "." + b + ".0", written in decimal, parses to [a, b, 0] exactly when a and b are below 2^64. Otherwise the parse fails. |
| K8sKube.NewlineInMinorCountsAsRecent | istio-operator/internal/k8s/kube.go:30-33 | A reported minor version holding a newline fails the parse, so both the at-least and the less-than test answer true. |
| K8sKube.AtLeastMeansLexicographic | istio-operator/internal/k8s/kube.go:26-42 | Server version major.minor is at least 1.m exactly when major > 1, or major is 1 and minor >= m, or major or minor is 2^64 or more, which fails the parse and so counts as at least. |
| K8sKube.AtLeastAndLessThanComplementary | istio-operator/internal/k8s/kube.go:39-41 | For a parseable version, "at least" and "less than" are complementary. |
| K8sKube.DocumentedExample | istio-operator/internal/k8s/kube.go:16 | The documented example: 1.15 is at least 1.13 and not at least 1.17. |
| K8sSecrets.GetSecretValue | istio-operator/internal/k8s/secrets.go:27-32 | The value is present exactly when the "value" key is in the data, and is that entry. |
| K8sSecrets.GetSecretValueIgnoresOtherKeys | istio-operator/internal/k8s/secrets.go:27-32 | Adding or removing any other data key does not change the value read. |
| K8sSecrets.GetCloudClusterSecretName | istio-operator/internal/k8s/secrets.go:62-64 | The secret name is the deployment name followed by "-kubeconfig". |
| K8sSecrets.CloudClusterSecretNameInjective | istio-operator/internal/k8s/secrets.go:62-64 | Different deployment names give different kubeconfig secret names. |
| K8sSecrets.GetAdoptedClusterSecretName | istio-operator/internal/k8s/secrets.go:44-60 | It succeeds exactly when the credential can be read and references a Secret, and then gives the referenced name. A failed read gives the wrapped "failed to get credential" error. |
| K8sSecrets.GetKubeconfigSecretName | istio-operator/internal/k8s/secrets.go:37-42 | Adopted clusters get their secret name from their credential. Other clusters get the name-derived one. |
| K8sSecrets.CloudSecretNameNeedsNoLookup | istio-operator/internal/k8s/secrets.go:37-42 | For a non-adopted cluster the answer does not depend on the store. |
| K8sSecrets.GetKubeconfigFromSecret | istio-operator/internal/k8s/client.go:57-69 | It succeeds exactly when the secret in the kcm namespace can be read and has a "value" entry, and gives that entry. A readable secret without one gives "kubeconfig is empty". |
| K8sRegion.CreatedInKCMRegion | istio-operator/internal/k8s/region.go:14-30 | A failed credential read is returned as the error. Otherwise the answer is whether the credential names a region. |
| K8sRegion.FirstRegionNamed | istio-operator/internal/k8s/region.go:39-43 | The answer is the region of the first credential with that name, or "" when none matches. |
| K8sRegion.GetKcmRegionClusterNameRelatedToClusterDeployment | istio-operator/internal/k8s/region.go:32-46 | A failed list is returned as the error. Otherwise the answer is the region of the first listed credential named by the deployment. |
| K8sRegion.FirstListedCredentialWins | istio-operator/internal/k8s/region.go:39-43 | Credentials listed after the first match do not change the answer. |
| K8sRegion.GetKubeconfigByRegionName | istio-operator/internal/k8s/region.go:48-79 | The cases in order: an empty name is an error, and a failed region read is an error; a ClusterDeployment reference takes precedence and its kubeconfig is used; otherwise a KubeConfig secret reference is read; with neither the answer is (nil, nil). |
| K8sRegion.ClusterDeploymentReferenceWins | istio-operator/internal/k8s/region.go:58-72 | When the region references a ClusterDeployment, its KubeConfig field is ignored. |
| Cert.GetCertNameHash | istio-operator/internal/controller/istio/cert/cert_manager.go:227-229 | The CA propagation name is the propagation prefix, a dash and the hash. |
| Cert.GenerateClusterCACertificate | istio-operator/internal/controller/istio/cert/cert_manager.go:120-149 | The certificate is named by GetCertName in the system namespace and labelled as managed. It is a CA for "<name> CA" in organisation Istio, uses ECDSA P-521, and its secret has its own name. The issuer is the release's root Issuer. |
| Cert.CaMultiClusterService | istio-operator/internal/controller/istio/cert/cert_manager.go:153-200 | The descriptor is named by GetCertNameHash and labelled with the cluster name and namespace. It selects mesh clusters in kcm regions, runs the release's propagation template, and references the certificate's secret as Data. |
| Cert.CreateCertificateSpec | istio-operator/internal/controller/istio/cert/cert_manager.go:105-118 | Only Unavailable is an error; AlreadyExists is tolerated. The certificate is written and the creation event sent only when the create succeeds; otherwise nothing changes. |
| Cert.CreateCaMultiClusterServiceSpec | istio-operator/internal/controller/istio/cert/cert_manager.go:153-200 | Only a failing key is an error; an existing descriptor is tolerated and left alone. |
| Cert.DescriptorStepSpec | istio-operator/internal/controller/istio/cert/cert_manager.go:43-64 | The descriptor is created only for a ready mesh cluster in a kcm region. Every other case (not ready, not in the mesh, no region) ends without an error. |
| Cert.CertManager.constructor | istio-operator/internal/controller/istio/cert/cert_manager.go:34-67 | The manager uses the given client and configuration. |
| Cert.CertManager.TryCreate | istio-operator/internal/controller/istio/cert/cert_manager.go:34-67 | The new store and the error are those of the specification `TryCreateSpec`, whose properties are proved in the lemmas below. |
| Cert.CertManager.TryDelete | istio-operator/internal/controller/istio/cert/cert_manager.go:69-103 | The new store and the error are those of `TryDeleteSpec`. |
| Cert.CertManager.CreateCertificate | istio-operator/internal/controller/istio/cert/cert_manager.go:105-118 | The new store and the error are those of `CreateCertificateSpec`. |
| Cert.CertManager.CreateCaMultiClusterService | istio-operator/internal/controller/istio/cert/cert_manager.go:153-200 | The new store and the error are those of `CreateCaMultiClusterServiceSpec`. |
| Cert.RegionUnaffectedByCertificate | istio-operator/internal/controller/istio/cert/cert_manager.go:52-59 | Creating the certificate and sending its event does not change the region answer read afterwards. |
| Cert.CertificateStep | istio-operator/internal/controller/istio/cert/cert_manager.go:38-59 | The certificate step keeps the region answer, and its key differs from the descriptor's. |
| Cert.CertificateComesFirst | istio-operator/internal/controller/istio/cert/cert_manager.go:38-41 | A new certificate is stored, an existing one is kept, and an unavailable store stops TryCreate with the wrapped error and no other change. |
| Cert.CaDescriptorGate | istio-operator/internal/controller/istio/cert/cert_manager.go:43-64 | A descriptor appears only for a ready mesh cluster in a kcm region, and then with the expected contents. In that case it is created, without an error, unless a key is failing. |
| Cert.RegionErrorReported | istio-operator/internal/controller/istio/cert/cert_manager.go:52-59 | A failed region check is returned wrapped, after the certificate was created. |
| Cert.TryCreateFrame | istio-operator/internal/controller/istio/cert/cert_manager.go:34-67 | TryCreate changes no key but the certificate's and the descriptor's. It adds the creation event exactly when the certificate was new. |
| Cert.TryCreateIdempotent | istio-operator/internal/controller/istio/cert/cert_manager.go:34-67 | Repeating a successful TryCreate changes nothing and succeeds. |
| Cert.TryCreateNoOpStable | istio-operator/internal/controller/istio/cert/cert_manager.go:34-67 | TryCreate reads only the certificate, its CA descriptor and the cluster's credential. A call that changes nothing still changes nothing on any store that agrees at those keys and fails at the same keys. |
| Cert.TryDeleteEffect | istio-operator/internal/controller/istio/cert/cert_manager.go:69-103 | A missing certificate ends TryDelete without change. Success means the certificate is gone, and also the descriptor when the certificate existed. The deletion event is sent exactly when both deletes succeeded. No other key changes. |
| Cert.TryDeleteIdempotent | istio-operator/internal/controller/istio/cert/cert_manager.go:69-103 | Repeating a successful TryDelete changes nothing and succeeds. |
| Cert.CertNamesCanCollide | istio-operator/internal/controller/istio/cert/cert_manager.go:223-225 | Clusters "a/b-c" and "a-b/c" get the same certificate name, because namespace and name are joined with a dash. |
| Cert.GetCertName | istio-operator/internal/controller/istio/cert/cert_manager.go:223-225 | The certificate name is the release name and a dash, then namespace, dash and cluster name, then "-ca". Its length is the sum of the three parts plus five. |
| Cert.CertNameSeparatesDashFreeNamespaces | istio-operator/internal/controller/istio/cert/cert_manager.go:223-225 | When neither namespace contains a dash, equal certificate names mean the same namespace and the same cluster name. |
| RemoteSecretManager.GetFullSecretName | istio-operator/internal/controller/istio/remote-secret/remote_secret_manager.go:138-143 | The kubeconfig secret name is the cluster name followed by "-kubeconf" for adopted clusters and "-kubeconfig" otherwise. |
| RemoteSecretManager.FullSecretNameAgreesWithCloudName | istio-operator/internal/controller/istio/remote-secret/remote_secret_manager.go:138-143 | For a non-adopted cluster the name agrees with `GetCloudClusterSecretName`. For an adopted one it never does. |
| RemoteSecretManager.GetKubeconfigFromSecret | istio-operator/internal/controller/istio/remote-secret/remote_secret_manager.go:99-116 | A failed read is returned as the error, and a secret without "value" gives the missing-value error. Otherwise the answer is the "value" entry. |
| RemoteSecretManager.CreateSecretResourceSpec | istio-operator/internal/controller/istio/remote-secret/remote_secret_manager.go:152-160 | The secret is created under its own key. Only a failing key is an error, so an existing secret is tolerated. |
| RemoteSecretManager.RemoteSecretManager.constructor | istio-operator/internal/controller/istio/remote-secret/remote_secret_manager.go:28-33 | The manager uses the given client, configuration and remote-secret creator. |
| RemoteSecretManager.RemoteSecretManager.TryCreate | istio-operator/internal/controller/istio/remote-secret/remote_secret_manager.go:59-96 | The new store and the error are those of `TryCreateSpec`. |
| RemoteSecretManager.RemoteSecretManager.TryDelete | istio-operator/internal/controller/istio/remote-secret/remote_secret_manager.go:36-56 | The new store and the error are those of `TryDeleteSpec`. |
| RemoteSecretManager.RemoteSecretManager.CreateSecretResource | istio-operator/internal/controller/istio/remote-secret/remote_secret_manager.go:152-160 | The new store and the error are those of `CreateSecretResourceSpec`. |
| RemoteSecretManager.TryCreateGates | istio-operator/internal/controller/istio/remote-secret/remote_secret_manager.go:63-76 | A cluster that is not ready is skipped without an error. A failing existence check is the wrapped error. An existing secret ends TryCreate without change. |
| RemoteSecretManager.FailedTryCreateWritesNothing | istio-operator/internal/controller/istio/remote-secret/remote_secret_manager.go:59-96 | When TryCreate fails, the store is unchanged. |
| RemoteSecretManager.TryCreateEvent | istio-operator/internal/controller/istio/remote-secret/remote_secret_manager.go:59-96 | The creation event is sent exactly when every stage succeeds: the cluster is ready; the secret is absent; the kubeconfig is read; the creator succeeds; the create goes through. Then exactly the created secret is added. |
| RemoteSecretManager.TryCreateIdempotent | istio-operator/internal/controller/istio/remote-secret/remote_secret_manager.go:59-96 | Repeating a successful TryCreate changes nothing, when the creator names the secret as the manager expects. |
| RemoteSecretManager.RealCreatorNamesSecret | istio-operator/internal/controller/istio/remote-secret/remote_secret_manager.go:194-232 | The creator built from `GetRemoteSecret` names the secret as the manager expects. |
| RemoteSecretManager.TryDeleteEffect | istio-operator/internal/controller/istio/remote-secret/remote_secret_manager.go:36-56 | TryDelete fails exactly on a failing key. Success removes the secret, and a missing secret is tolerated. The event is sent exactly when a secret was deleted, and no other key changes. |
| RemoteSecretManager.TryDeleteIdempotent | istio-operator/internal/controller/istio/remote-secret/remote_secret_manager.go:36-56 | Repeating a successful TryDelete changes nothing and succeeds. |
| Multicluster.GetMultiClusterServiceName | istio-operator/internal/controller/istio/multicluster/remote_secret_propagation_manager.go:152-155 | The propagation descriptor name is the propagation prefix, a dash and the hash. |
| Multicluster.PropagationMcs | istio-operator/internal/controller/istio/multicluster/remote_secret_propagation_manager.go:83-129 | The descriptor is named by GetMultiClusterServiceName and labelled with the cluster name and namespace. It runs the release's propagation template, references the remote secret, and selects clusters by `MemberSelector`. |
| Multicluster.MemberSelectorMatches | istio-operator/internal/controller/istio/multicluster/remote_secret_propagation_manager.go:94-98 | The member selector matches exactly the label sets whose istio-role is "member". |
| Multicluster.CreateMultiClusterServiceSpec | istio-operator/internal/controller/istio/multicluster/remote_secret_propagation_manager.go:83-129 | The descriptor is created under its key. Only a failing key is an error. |
| Multicluster.RemoteSecretPropagationManager.constructor | istio-operator/internal/controller/istio/multicluster/remote_secret_propagation_manager.go:31-52 | The manager uses the given client and configuration. |
| Multicluster.RemoteSecretPropagationManager.TryCreate | istio-operator/internal/controller/istio/multicluster/remote_secret_propagation_manager.go:31-52 | The new store and the error are those of `TryCreateSpec`. |
| Multicluster.RemoteSecretPropagationManager.TryDelete | istio-operator/internal/controller/istio/multicluster/remote_secret_propagation_manager.go:54-75 | The new store and the error are those of `TryDeleteSpec`. |
| Multicluster.RemoteSecretPropagationManager.CreateMultiClusterService | istio-operator/internal/controller/istio/multicluster/remote_secret_propagation_manager.go:83-129 | The new store and the error are those of `CreateMultiClusterServiceSpec`. |
| Multicluster.TryCreateEffect | istio-operator/internal/controller/istio/multicluster/remote_secret_propagation_manager.go:31-52 | A failing check is the wrapped error, and an existing descriptor ends TryCreate without change. Otherwise exactly the descriptor and the creation event are added. |
| Multicluster.TryCreateIgnoresReadiness | istio-operator/internal/controller/istio/multicluster/remote_secret_propagation_manager.go:31-52 | The outcome does not depend on the cluster's conditions: there is no readiness gate. |
| Multicluster.PropagatesToMembersOnly | istio-operator/internal/controller/istio/multicluster/remote_secret_propagation_manager.go:94-98 | A cluster is selected exactly when its istio-role is "member". Child clusters are never selected. |
| Multicluster.TryCreateIdempotent | istio-operator/internal/controller/istio/multicluster/remote_secret_propagation_manager.go:31-52 | Repeating a successful TryCreate changes nothing and succeeds. |
| Multicluster.TryDeleteEffect | istio-operator/internal/controller/istio/multicluster/remote_secret_propagation_manager.go:54-75 | TryDelete fails exactly on a failing key. Success removes the descriptor. The event is sent exactly when one was deleted, and no other key changes. |
| Multicluster.TryDeleteIdempotent | istio-operator/internal/controller/istio/multicluster/remote_secret_propagation_manager.go:54-75 | Repeating a successful TryDelete changes nothing and succeeds. |
| Multicluster.CreateThenDelete | istio-operator/internal/controller/istio/multicluster/remote_secret_propagation_manager.go:31-75 | Deleting after a successful create succeeds, removes the descriptor and sends the deletion event. |
| Controller.EventFilterAccepts | istio-operator/internal/controller/clusterdeployment_controller.go:90-93 | The controller admits exactly the deployments whose istio-role label is "member" or "child". |
| Controller.EventFilter | istio-operator/internal/controller/clusterdeployment_controller.go:90-93 | A deployment passes exactly when its istio-role label is present and holds one of the expected values. The zero value of a missing label is not one of them. |
| Controller.ClusterStub | istio-operator/internal/controller/utils/utils.go:43-54 | The stub for a deleted cluster has the request's name and namespace and generation 0, so its events are annotated "nil". |
| Controller.FailureEventContents | istio-operator/internal/controller/clusterdeployment_controller.go:106-180 | A failure event is a Warning with the reason, the object, and the message followed by the error and the one key/value pair. |
| Controller.Reported | istio-operator/internal/controller/clusterdeployment_controller.go:106-180 | Reporting keeps the objects and the error, and appends a failure event exactly when there is an error. |
| Controller.ClusterDeploymentReconciler.constructor | istio-operator/internal/controller/clusterdeployment_controller.go:67-84 | The reconciler's three managers share its client. The remote-secret manager uses the given creator. |
| Controller.ClusterDeploymentReconciler.Reconcile | istio-operator/internal/controller/clusterdeployment_controller.go:67-84 | The new store and the error are those of `ReconcileSpec`. |
| Controller.ClusterDeploymentReconciler.TryDeleteResources | istio-operator/internal/controller/clusterdeployment_controller.go:103-143 | The new store and the error are those of `TryDeleteResourcesSpec`. |
| Controller.ClusterDeploymentReconciler.TryCreateResources | istio-operator/internal/controller/clusterdeployment_controller.go:145-183 | The new store and the error are those of `TryCreateResourcesSpec`. |
| Controller.ReconcileDispatch | istio-operator/internal/controller/clusterdeployment_controller.go:67-84 | A failed read is returned. A missing deployment runs the delete pass, and a present one the create pass. |
| Controller.ClusterKeysDistinct | istio-operator/internal/controller/clusterdeployment_controller.go:103-183 | The remote secret, certificate, CA descriptor and propagation descriptor of a cluster have distinct keys. |
| Controller.RemoteSecretCreateStep | istio-operator/internal/controller/istio/remote-secret/remote_secret_manager.go:59-96 | With a creator that names the secret where the manager looks, the secret stage changes only the remote secret's key. After success, a ready cluster has its remote secret. |
| Controller.RemoteSecretCreated | istio-operator/internal/controller/istio/remote-secret/remote_secret_manager.go:59-96 | A ready cluster without a remote secret gets, on success, exactly the creator's secret built from its kubeconfig secret. |
| Controller.CertCreateStep | istio-operator/internal/controller/istio/cert/cert_manager.go:34-67 | The certificate stage changes only the certificate and CA descriptor keys. After success the certificate is present, and a new one is the generated CA certificate. |
| Controller.PropagationCreateStep | istio-operator/internal/controller/istio/multicluster/remote_secret_propagation_manager.go:31-52 | The propagation stage changes only the propagation descriptor key. After success the descriptor is present, and a new one is the generated descriptor. |
| Controller.CreatePassSucceeded | istio-operator/internal/controller/clusterdeployment_controller.go:145-183 | The create pass succeeds exactly when all three stages, in order, succeed. Its outcome is then that of the last stage. |
| Controller.CreatePassEffect | istio-operator/internal/controller/clusterdeployment_controller_test.go:142-161 | After a successful create pass the certificate and propagation descriptor are present, and so is the remote secret of a ready cluster. Each that was missing holds what its stage builds; the certificate's common name is "<cluster> CA". No other key changes. |
| Controller.RemoteSecretSettled | istio-operator/internal/controller/istio/remote-secret/remote_secret_manager.go:63-76 | The secret stage does nothing on a store that already holds a ready cluster's remote secret. |
| Controller.PropagationSettled | istio-operator/internal/controller/istio/multicluster/remote_secret_propagation_manager.go:31-52 | The propagation stage does nothing on a store that already holds the descriptor. |
| Controller.CertSettled | istio-operator/internal/controller/istio/cert/cert_manager.go:34-67 | After a successful certificate stage, the stage does nothing on any later store that agrees at the keys it reads. |
| Controller.CreatePassNoOp | istio-operator/internal/controller/clusterdeployment_controller.go:145-183 | A pass whose three stages each do nothing does nothing, and adds no warning. |
| Controller.CreatePassIdempotent | istio-operator/internal/controller/clusterdeployment_controller_test.go:202-221 | Repeating a successful create pass for the same cluster changes nothing and succeeds. |
| Controller.CreateFailureStops | istio-operator/internal/controller/clusterdeployment_controller.go:145-183 | A failed remote-secret stage is reported as a SecretCreationFailed event and stops the pass. A failed certificate stage is returned, and the propagation stage is not run. |
| Controller.RemoteSecretDeleteStep | istio-operator/internal/controller/istio/remote-secret/remote_secret_manager.go:36-56 | The secret stage of the delete pass removes only the secret, and only on success. An absent secret is a no-op. |
| Controller.CertDeleteStep | istio-operator/internal/controller/istio/cert/cert_manager.go:69-103 | The certificate stage removes the certificate and the descriptor, or nothing when there is no certificate. A failure leaves at most the certificate removed. |
| Controller.PropagationDeleteStep | istio-operator/internal/controller/istio/multicluster/remote_secret_propagation_manager.go:54-75 | The propagation stage removes only the propagation descriptor, and only on success. |
| Controller.DeletePassSucceeded | istio-operator/internal/controller/clusterdeployment_controller.go:103-143 | The delete pass succeeds exactly when all three stages, in order, succeed. |
| Controller.DeletePassRemoves | istio-operator/internal/controller/clusterdeployment_controller.go:103-143 | A successful delete pass leaves no remote secret, certificate or propagation descriptor. The CA descriptor goes too when the certificate existed. |
| Controller.DeletePassStages | istio-operator/internal/controller/clusterdeployment_controller.go:103-143 | The objects after the pass are those after the first failing stage, or after the last stage. |
| Controller.DeletePassFrame | istio-operator/internal/controller/clusterdeployment_controller.go:103-143 | The delete pass changes no object outside the cluster's four keys. |
| Controller.DeletePassIdempotent | istio-operator/internal/controller/clusterdeployment_controller.go:103-143 | Repeating a successful delete pass changes nothing and succeeds. |
| Controller.CaDescriptorOutlivesMissingCertificate | istio-operator/internal/controller/istio/cert/cert_manager.go:74-82 | A CA descriptor whose certificate is already gone survives a successful delete pass. TryDelete returns before the descriptor delete when the certificate is not found. |
| SecretRotation.SelectIstioClusters | istio-operator/internal/secret-rotation/istio_secret_rotation.go:87-101 | A cluster is selected exactly when it was listed and carries the istio-role label. |
| SecretRotation.HasIstioRole | istio-operator/internal/secret-rotation/istio_secret_rotation.go:90-93 | The `Exists` requirement holds exactly when the istio-role key is present. A label with the empty value satisfies it. |
| SecretRotation.GetIstioClusters | istio-operator/internal/secret-rotation/istio_secret_rotation.go:87-101 | A failed List gives "failed to list clusters". Otherwise the answer is exactly the listed clusters that have the istio-role label. |
| SecretRotation.RotateAll | istio-operator/internal/secret-rotation/istio_secret_rotation.go:75-82 | No more clusters succeed than were given. |
| SecretRotation.RotateAllStep | istio-operator/internal/secret-rotation/istio_secret_rotation.go:75-82 | Each cluster's step runs on the state left by the clusters before it, and the count grows exactly on success. |
| SecretRotation.RotateSecretsSpec | istio-operator/internal/secret-rotation/istio_secret_rotation.go:56-85 | Without a report the store is unchanged. A report's successes and failures add up to the total. |
| SecretRotation.CycleOfNoSelection | istio-operator/internal/secret-rotation/istio_secret_rotation.go:60-69 | A failed or empty selection ends the cycle without a report and without change. |
| SecretRotation.CycleOfSelection | istio-operator/internal/secret-rotation/istio_secret_rotation.go:56-85 | For a non-empty selection, the report has the total, the successful count and the difference. The state is the clusters' rotation. |
| SecretRotation.Manager.constructor | istio-operator/internal/secret-rotation/istio_secret_rotation.go:30-36 | The manager's remote-secret manager shares its client and uses the given configuration and creator. |
| SecretRotation.Manager.RotateSecrets | istio-operator/internal/secret-rotation/istio_secret_rotation.go:56-85 | The new store and the report are those of `RotateSecretsSpec` on the selected clusters. |
| SecretRotation.Manager.RotateClusters | istio-operator/internal/secret-rotation/istio_secret_rotation.go:75-82 | The loop leaves the state and count of `RotateAll`. |
| SecretRotation.StepSucceededPrefix | istio-operator/internal/secret-rotation/istio_secret_rotation.go:75-82 | Whether a cluster's step succeeds depends only on the clusters before it. |
| SecretRotation.CountSucceededPrefix | istio-operator/internal/secret-rotation/istio_secret_rotation.go:75-82 | The number of successes among the first k clusters does not depend on later ones. |
| SecretRotation.SuccessfulCountsSuccesses | istio-operator/internal/secret-rotation/istio_secret_rotation.go:75-82 | The reported count is the number of clusters whose step succeeded. |
| SecretRotation.NoFailureMeansAllSucceeded | istio-operator/internal/secret-rotation/istio_secret_rotation.go:75-84 | The count equals the number of clusters exactly when every step succeeded. |
| SecretRotation.NoSuccessMeansAllFailed | istio-operator/internal/secret-rotation/istio_secret_rotation.go:75-84 | The count is zero exactly when every step failed. |
| SecretRotation.FailureDoesNotStopRotation | istio-operator/internal/secret-rotation/istio_secret_rotation.go:75-82 | A failing cluster leaves state and count unchanged, and the loop goes on. |
| SecretRotation.RotationKeepsExistingSecrets | istio-operator/internal/secret-rotation/istio_secret_rotation.go:74-82 | When every ready cluster already has its remote secret, a cycle changes nothing and counts every cluster as successful. |
| SecretRotation.CycleOutcome | istio-operator/internal/secret-rotation/istio_secret_rotation.go:56-101 | There is no report exactly when the list fails or no listed cluster has the label. Otherwise the report covers the selected clusters and the state is their rotation. |
| SecretRotation.SelectorWiderThanEventFilter | istio-operator/internal/secret-rotation/istio_secret_rotation.go:90-93 | Every cluster the controller admits is also rotated. A cluster with istio-role "foo" is rotated but never reconciled. |
| RemoteSecret.KubeClient.constructor | istio-operator/internal/controller/istio/remote-secret/remote_secret_manager.go:194-232 | The client holds the remote cluster's store and the cluster's answers. |
| RemoteSecret.GetRemoteSecretName | istio-operator/internal/controller/istio/remote-secret/remote_secret.go:350-353 | The remote secret name is the remote-secret prefix, a dash and the hash. |
| RemoteSecret.TokenSecretName | istio-operator/internal/controller/istio/remote-secret/remote_secret.go:490-492 | The default token secret name is the service account's name followed by the fixed suffix "-istio-remote-secret-token". |
| RemoteSecret.TokenSecretNameInjective | istio-operator/internal/controller/istio/remote-secret/remote_secret.go:490-492 | Different service accounts get different token secret names. |
| RemoteSecret.TokenDataFromSecret | istio-operator/internal/controller/istio/remote-secret/remote_secret.go:319-332 | It succeeds exactly when both ca.crt and token are present, and gives them. Otherwise it reports the first missing key. |
| RemoteSecret.Reread | istio-operator/internal/controller/istio/remote-secret/remote_secret.go:306-315 | Re-reading with an empty name fails. Otherwise it succeeds exactly when the cluster's answer for that attempt does. |
| RemoteSecret.NoRereadWhenPopulated | istio-operator/internal/controller/istio/remote-secret/remote_secret.go:297-305 | A secret that already holds token data is used as is, whatever the cluster answers. |
| RemoteSecret.RetryStopsAtFirstSuccess | istio-operator/internal/controller/istio/remote-secret/remote_secret.go:306-315 | The wait ends with the first attempt that succeeds. |
| RemoteSecret.RetryIsBounded | istio-operator/internal/controller/istio/remote-secret/remote_secret.go:315 | Only the attempts up to the retry limit matter. |
| RemoteSecret.WaitForTokenData | istio-operator/internal/controller/istio/remote-secret/remote_secret.go:297-317 | The corrected wait: each retry re-reads the original secret. Its result is `WaitForTokenDataSpec`. |
| RemoteSecret.RetryAsWritten | istio-operator/internal/controller/istio/remote-secret/remote_secret.go:306-315 | The retries as written, each asking for the secret the previous one returned. When that secret has no name, the result is the empty-name error. |
| RemoteSecret.WaitForTokenDataAsWritten | istio-operator/internal/controller/istio/remote-secret/remote_secret.go:297-317 | The wait as written returns the given secret's token data when it already holds both keys. An unpopulated secret without a name ends in the empty-name error. |
| RemoteSecret.RetryAsWrittenOnStableReads | istio-operator/internal/controller/istio/remote-secret/remote_secret.go:306-315 | When every re-read succeeds and returns the same namespace and name, the retries as written equal the intended retries. |
| RemoteSecret.WaitAsWrittenOnStableReads | istio-operator/internal/controller/istio/remote-secret/remote_secret.go:297-317 | When every re-read succeeds and returns the same namespace and name, the wait as written equals the intended wait. Only a failed re-read tells them apart. |
| RemoteSecret.AsWrittenLosesSecretAfterFailedRead | istio-operator/internal/controller/istio/remote-secret/remote_secret.go:306-315 | As written, one failed first re-read of an unpopulated secret makes the wait fail. |
| RemoteSecret.TransientReadFailureDiscrepancy | istio-operator/internal/controller/istio/remote-secret/remote_secret.go:306-315 | In the counterexample, the code as written fails while the intended wait returns the token data. |
| RemoteSecret.CreateBearerTokenKubeconfig | istio-operator/internal/controller/istio/remote-secret/remote_secret.go:494-500 | The kubeconfig has one cluster, context and user, all named by the cluster name. It carries the CA, the server and the token. |
| RemoteSecret.CreateBaseKubeconfig | istio-operator/internal/controller/istio/remote-secret/remote_secret.go:228-245 | One cluster carries the CA and the server, and one context points at that cluster and at a user. Both are keyed by the cluster name, the context is current, and there is no user yet. |
| RemoteSecret.CreatePluginKubeconfig | istio-operator/internal/controller/istio/remote-secret/remote_secret.go:273-279 | The kubeconfig has one cluster, context and user, all named by the cluster name. It carries the CA, the server and the auth provider, with no token. |
| RemoteSecret.CreateRemoteServiceAccountSecret | istio-operator/internal/controller/istio/remote-secret/remote_secret.go:247-271 | It succeeds exactly when the kubeconfig serialises. The data is then the one entry (the cluster name, or the config key for the config secret) holding the serialised kubeconfig, with the cluster-name annotation and the multicluster label. |
| RemoteSecret.GetServerFromKubeconfig | istio-operator/internal/controller/istio/remote-secret/remote_secret.go:334-348 | The REST host is the server. A loopback host gives a warning exactly when it is loopback, and a failed config gives the wrapped error. |
| RemoteSecret.CreateRemoteSecretFromPlugin | istio-operator/internal/controller/istio/remote-secret/remote_secret.go:208-226 | A token secret without ca.crt gives the missing-key error. Otherwise a kubeconfig that `validate` rejects gives the "invalid kubeconfig" error wrapping its error. An accepted one gives the service-account secret built from the plugin kubeconfig for the token secret's CA. A created secret has the requested name. |
| RemoteSecret.PluginSecretCarriesProvider | istio-operator/internal/controller/istio/remote-secret/remote_secret.go:208-226 | A created plugin secret comes from a token secret with ca.crt and a kubeconfig that passed validation. That kubeconfig's cluster holds that CA, and its user holds the auth provider and no token. The secret's single entry holds the serialised kubeconfig. |
| RemoteSecret.CreateRemoteSecretFromTokenAndServerSpec | istio-operator/internal/controller/istio/remote-secret/remote_secret.go:281-295 | A created secret has the requested name. The token data come from the corrected wait (see Findings). |
| RemoteSecret.CreateRemoteSecretFromTokenAndServer | istio-operator/internal/controller/istio/remote-secret/remote_secret.go:281-295 | The result is that of `CreateRemoteSecretFromTokenAndServerSpec`. |
| RemoteSecret.BearerSecretCarriesToken | istio-operator/internal/controller/istio/remote-secret/remote_secret.go:281-295 | A created bearer secret holds, in its single entry, the serialised kubeconfig built from the waited-for token data. |
| RemoteSecret.GetOrCreateServiceAccount | istio-operator/internal/controller/istio/remote-secret/remote_secret.go:479-488 | A service account that is not found gives the not-found error. Otherwise the lookup succeeds exactly when the read does. |
| RemoteSecret.FirstSecretNamed | istio-operator/internal/controller/istio/remote-secret/remote_secret.go:381-388 | The index is that of the first reference with the name, or the length when none has it. |
| RemoteSecret.LegacySelect | istio-operator/internal/controller/istio/remote-secret/remote_secret.go:373-404 | With a secret name requested, the selection succeeds exactly when a referenced secret has it. Without one, it succeeds exactly when there is exactly one reference. The chosen reference's namespace defaults to the options' namespace. |
| RemoteSecret.LegacyGetServiceAccountSecret | istio-operator/internal/controller/istio/remote-secret/remote_secret.go:368-406 | The result is that of `LegacyGetServiceAccountSecretSpec`. |
| RemoteSecret.GetServiceAccountToken | istio-operator/internal/controller/istio/remote-secret/remote_secret.go:538-552 | The token request asks for the fixed expiry and no audiences. The call succeeds exactly when the cluster's answer does. |
| RemoteSecret.GetOrCreateServiceAccountSecretSpec | istio-operator/internal/controller/istio/remote-secret/remote_secret.go:408-477 | A read error other than NotFound is returned wrapped. An existing token secret is reused when overwriting is off. Failures write nothing. Otherwise the token, namespace and CA are written under the service account's annotation, updating the existing secret with its labels or creating a new one. |
| RemoteSecret.GetOrCreateServiceAccountSecret | istio-operator/internal/controller/istio/remote-secret/remote_secret.go:408-477 | The new store and the result are those of `GetOrCreateServiceAccountSecretSpec`. |
| RemoteSecret.GetServiceAccountSecretSpec | istio-operator/internal/controller/istio/remote-secret/remote_secret.go:355-366 | The service-account lookup is checked first: a missing account gives the not-found error, and any lookup error is returned with nothing written. Before Kubernetes 1.24 the result is the legacy lookup for the stored account, and nothing is written. From 1.24 on, the result and the new store are those of the get-or-create token-secret path. |
| RemoteSecret.GetServiceAccountSecret | istio-operator/internal/controller/istio/remote-secret/remote_secret.go:355-366 | The new store and the result are those of `GetServiceAccountSecretSpec`. |
| RemoteSecret.ResolveOptions | istio-operator/internal/controller/istio/remote-secret/remote_secret.go:145-169 | An empty cluster name takes the kube-system UID, and a failed UID read is the error. Each secret type has its own secret name and default service account. An unknown type is "unsupported type". No other option changes. |
| RemoteSecret.BuildRemoteSecretSpec | istio-operator/internal/controller/istio/remote-secret/remote_secret.go:186-202 | An unknown auth type is "unsupported authentication type". A created secret has the requested name. |
| RemoteSecret.FinishRemoteSecretSpec | istio-operator/internal/controller/istio/remote-secret/remote_secret.go:175-204 | The secret has the requested name and the options' namespace. The loopback warning is produced only without a server override. An unknown auth type is rejected once a server is known. |
| RemoteSecret.FinishRemoteSecret | istio-operator/internal/controller/istio/remote-secret/remote_secret.go:175-204 | The secret and warning are those of `FinishRemoteSecretSpec`. |
| RemoteSecret.CreateRemoteSecret | istio-operator/internal/controller/istio/remote-secret/remote_secret.go:145-206 | The new remote store, secret and warning are those of `CreateRemoteSecretSpec`. |
| RemoteSecret.CreatedSecretPlacement | istio-operator/internal/controller/istio/remote-secret/remote_secret.go:145-206 | A created secret has the resolved name and the resolved namespace. |
| RemoteSecret.SecretTypeDispatch | istio-operator/internal/controller/istio/remote-secret/remote_secret.go:155-169 | An unknown type fails and writes nothing. A remote secret is named by GetRemoteSecretName and a config secret by the config name, both in the options' namespace. |
| RemoteSecret.AuthTypeDispatch | istio-operator/internal/controller/istio/remote-secret/remote_secret.go:186-202 | An unknown auth type makes CreateRemoteSecret fail with "unsupported authentication type". |
| RemoteSecret.ServerOverrideWins | istio-operator/internal/controller/istio/remote-secret/remote_secret.go:175-184 | With a server override, no loopback warning is produced. |
| RemoteSecret.GetRemoteSecret | istio-operator/internal/controller/istio/remote-secret/remote_secret_manager.go:194-232 | A failed connection is returned as the error. Otherwise the new remote store and the result are those of `GetRemoteSecretSpec`. |
| RemoteSecret.GetRemoteSecretNaming | istio-operator/internal/controller/istio/remote-secret/remote_secret_manager.go:209-221 | A created remote secret is named by GetRemoteSecretName for the deployment and placed in the system namespace. |
| McsDiagram.Lookup | scripts/mcs_diagram_generator.py:94 | `dict.get` on a missing key gives None, and any non-None answer is an entry of the mapping. |
| McsDiagram.Elements | scripts/mcs_diagram_generator.py:174-178 | Iterating a list gives its items, a mapping its keys, and a string its characters. None, booleans and integers raise TypeError. |
| McsDiagram.Subscript | scripts/mcs_diagram_generator.py:179 | Subscripting succeeds exactly on a mapping with the key. A missing key raises KeyError and a non-mapping raises TypeError. |
| McsDiagram.DeepGet | scripts/mcs_diagram_generator.py:79-97 | The loop computes the reference `DeepGetPath` on the dot-split path. |
| McsDiagram.DeepGetNest | scripts/mcs_diagram_generator.py:90-97 | Following a path through the nested mappings it names gives the value back. |
| McsDiagram.DeepGetNeverNull | scripts/mcs_diagram_generator.py:92-96 | With a non-None default, deep_get never returns None. |
| McsDiagram.DeepGetConcat | scripts/mcs_diagram_generator.py:90-97 | A longer path is the shorter path followed by the rest, falling back to the default when the shorter one ends in None. |
| McsDiagram.ExtractKind | scripts/mcs_diagram_generator.py:56-70 | The loop returns the reference filter `FilterKind`. |
| McsDiagram.FilterKind | scripts/mcs_diagram_generator.py:66-70 | The filter keeps no more documents than it is given. |
| McsDiagram.FilterKindMembers | scripts/mcs_diagram_generator.py:66-70 | A document is kept exactly when it is a mapping of that kind. |
| McsDiagram.FilterKindAppend | scripts/mcs_diagram_generator.py:66-70 | Filtering a concatenation filters each part, keeping the order. |
| McsDiagram.FilterKindKeepsMatching | scripts/mcs_diagram_generator.py:68-69 | When every document has the kind, all are kept, in order. |
| McsDiagram.FilterKindIdempotent | scripts/mcs_diagram_generator.py:66-70 | Filtering twice is filtering once. |
| McsDiagram.ServiceTemplatePaths | scripts/mcs_diagram_generator.py:143-149 | The dotted paths the ServiceTemplate reads split into their key lists. |
| McsDiagram.MultiClusterServicePaths | scripts/mcs_diagram_generator.py:168-182 | The dotted paths the MultiClusterService reads split into their key lists. |
| McsDiagram.TemplateResourcePaths | scripts/mcs_diagram_generator.py:185-186 | The dotted paths a template resource reads split into their key lists. |
| McsDiagram.MultiClusterServiceLayout | scripts/mcs_diagram_generator.py:196-202 | The dependencies are the service templates, then the template resources with their own kinds, then the MultiClusterServices, in order. |
| McsDiagram.TemplateDeps | scripts/mcs_diagram_generator.py:197 | Each template resource becomes one dependency with its name and kind. |
| McsDiagram.KindedDeps | scripts/mcs_diagram_generator.py:198-201 | Each name becomes one dependency with the given kind. |
| McsDiagram.ServiceTemplateShape | scripts/mcs_diagram_generator.py:142-150 | A ServiceTemplate's name is `metadata.name`, with "" by default. It depends on its source exactly when `spec.resources.localSourceRef` is truthy. |
| McsDiagram.NewServiceTemplate | scripts/mcs_diagram_generator.py:142-150 | The constructor builds exactly `ServiceTemplateOf`. |
| McsDiagram.TemplateNamesSticky | scripts/mcs_diagram_generator.py:177-179 | Once a service lacks "template", the KeyError is the result, whatever follows. |
| McsDiagram.TemplateNamesOk | scripts/mcs_diagram_generator.py:177-179 | The names are collected exactly when every service has "template", and they are those values in order. |
| McsDiagram.TemplateResources | scripts/mcs_diagram_generator.py:184-188 | Each reference yields one template resource. |
| McsDiagram.NewMultiClusterService | scripts/mcs_diagram_generator.py:167-188 | The constructor builds exactly `MultiClusterServiceOf`. |
| McsDiagram.CollectNames | scripts/mcs_diagram_generator.py:173-175 | The dependsOn loop collects the names unchanged. |
| McsDiagram.CollectTemplateNames | scripts/mcs_diagram_generator.py:177-179 | The services loop gives `TemplateNames`. |
| McsDiagram.CollectTemplateResources | scripts/mcs_diagram_generator.py:181-188 | The refs loop gives `TemplateResources`. |
| McsDiagram.MultiClusterServiceOk | scripts/mcs_diagram_generator.py:167-188 | Construction succeeds exactly when the three fields can be iterated and every service has "template". |
| McsDiagram.MultiClusterServiceDeps | scripts/mcs_diagram_generator.py:167-202 | A constructed MultiClusterService is named by `metadata.name`. It has one dependency per service, reference and dependsOn entry. |
| McsDiagram.SpaceRun | scripts/mcs_diagram_generator.py:244 | The run is the longest whitespace run at that position. |
| McsDiagram.LazyGroupEnd | scripts/mcs_diagram_generator.py:244 | A found end is a closing "}}" position. |
| McsDiagram.MatchWithLeadSound | scripts/mcs_diagram_generator.py:244 | Any match found has the placeholder shape. |
| McsDiagram.LazyGroupEndClean | scripts/mcs_diagram_generator.py:244 | The lazy group spans no newline. |
| McsDiagram.LazyGroupEndFirst | scripts/mcs_diagram_generator.py:244 | The lazy group ends at the earliest closing position. |
| McsDiagram.MatchWithLeadComplete | scripts/mcs_diagram_generator.py:244 | Every placeholder shape is found, with the greedy leading whitespace and the lazy end. |
| McsDiagram.MatchAtExactly | scripts/mcs_diagram_generator.py:244 | The matcher finds a placeholder exactly when one starts there, preferring the most leading space and then the earliest end, as the regular expression does. |
| McsDiagram.SpaceRunCovers | scripts/mcs_diagram_generator.py:244 | A whitespace stretch is no longer than the run. |
| McsDiagram.SpaceThenBraces | scripts/mcs_diagram_generator.py:244 | Whitespace followed by "}}" is a closing position. |
| McsDiagram.CleanWithoutBraces | scripts/mcs_diagram_generator.py:235-244 | A string without "{{" is left unchanged. |
| McsDiagram.CleanShrinks | scripts/mcs_diagram_generator.py:235-244 | Cleaning never lengthens a string. |
| McsDiagram.CleanTemplatePlaceholders | scripts/mcs_diagram_generator.py:235-244 | Cleaning never lengthens a name, and it leaves a name without "{{" unchanged. |
| McsDiagram.NodeLabel | scripts/mcs_diagram_generator.py:246-257 | The label is built exactly when name and kind are strings (otherwise TypeError), from their cleaned forms. |
| McsDiagram.LabelChars | scripts/mcs_diagram_generator.py:257 | The label places the name, "/" and kind, then the name again, at fixed positions. |
| McsDiagram.Label | scripts/mcs_diagram_generator.py:257 | The label is twice as long as name and kind together, plus 8. It starts with the name followed by "/". |
| McsDiagram.LabelInjective | scripts/mcs_diagram_generator.py:257 | Different (name, kind) pairs give different node labels. |
| McsDiagram.GenerateDiagram | scripts/mcs_diagram_generator.py:214-233 | The writes are those of the reference `DiagramOf`. |
| McsDiagram.WriteResource | scripts/mcs_diagram_generator.py:222-232 | The writes are those of `ResourceEdges`. |
| McsDiagram.WriteDepEdges | scripts/mcs_diagram_generator.py:226-232 | The writes are those of `DepEdges`. |
| McsDiagram.DepEdgesSticky | scripts/mcs_diagram_generator.py:226-232 | Once a dependency cannot be labelled, nothing more is written. |
| McsDiagram.EdgeWritesSticky | scripts/mcs_diagram_generator.py:222-232 | Once a resource fails, nothing more is written. |
| McsDiagram.DepLines | scripts/mcs_diagram_generator.py:226-232 | There is one line per dependency. |
| McsDiagram.DepEdgesOk | scripts/mcs_diagram_generator.py:226-232 | The edges are written without error exactly when every dependency has a string name and kind. Otherwise TypeError is raised. |
| McsDiagram.DepEdgesLines | scripts/mcs_diagram_generator.py:226-232 | With labelled dependencies the writes are exactly the dependency lines. |
| McsDiagram.ResourceEdgesOk | scripts/mcs_diagram_generator.py:222-232 | A resource is written without error exactly when it is drawable, and then as its lines. Otherwise TypeError is raised. |
| McsDiagram.EdgeWritesOk | scripts/mcs_diagram_generator.py:222-232 | All resources are written exactly when all are drawable. Otherwise TypeError is raised. |
| McsDiagram.EdgeWritesLines | scripts/mcs_diagram_generator.py:222-232 | With drawable resources the writes are all their lines. |
| McsDiagram.DiagramOfDrawable | scripts/mcs_diagram_generator.py:219-233 | A drawable diagram is the fence, the header, all lines and the closing fence. |
| McsDiagram.DiagramOfUndrawable | scripts/mcs_diagram_generator.py:219-233 | An undrawable resource raises TypeError after the fence, the header and the lines before it. |
| McsDiagram.BuildAll | scripts/mcs_diagram_generator.py:266-268 | A successful build gives one resource per document. |
| McsDiagram.BuildEach | scripts/mcs_diagram_generator.py:270-271 | Each document gives the resource built from it. |
| McsDiagram.CollectResources | scripts/mcs_diagram_generator.py:263-271 | The collected resources are those of `ResourcesOf`. |
| McsDiagram.CollectMultiClusterServices | scripts/mcs_diagram_generator.py:266-268 | The loop gives `MultiClusterServices`. |
| McsDiagram.CollectServiceTemplates | scripts/mcs_diagram_generator.py:270-271 | The loop gives `ServiceTemplates`. |
| McsDiagram.BuildAllSticky | scripts/mcs_diagram_generator.py:266-268 | The first failing document's error is the result. |
| McsDiagram.BuildAllOk | scripts/mcs_diagram_generator.py:266-268 | The build succeeds exactly when every document builds, giving their resources in order. |
| McsDiagram.ResourcesOfMultiClusterServices | scripts/mcs_diagram_generator.py:263-271 | The resources start with the MultiClusterServices, one per such document, in order. |
| McsDiagram.ResourcesOfServiceTemplates | scripts/mcs_diagram_generator.py:263-271 | After the MultiClusterServices come the ServiceTemplates of the ServiceTemplate documents. |

## Left out

- Logging (`log.Info`, `log.Error`) is not modelled. It changes no state.
- The `context.Context` arguments are not modelled.
- `ctrl.Result` is left out because it is always empty.
- Of `SetupWithManager`, only the event filter is modelled (`Controller.EventFilter`).
  Its rate limiter and its wiring into the manager are controller-runtime settings
  and are left out.
- `StartRotationWorker` and the ticker are left out: they are a clock and a `select`
  loop. One cycle (`rotateSecrets`) is modelled.
- `NewManager`, `New` and `NewIstioRemoteSecret` are modelled as the constructors of
  the classes.
- Concurrency between a reconcile and a rotation cycle is not modelled. Each call is
  one atomic store step.
- The backend's faults are one fixed set of failing keys. A Get that succeeds is
  therefore always followed by an Update that succeeds. Conflicts (optimistic
  concurrency) are not modelled.
- List answers (credentials, clusters) are parameters, in the API server's order.
  The label selector of the rotation List is applied in the model.
- `labels.NewRequirement` cannot fail for the constant key and `Exists`, so its error
  path is not modelled.
- `CreateOptions{AllowOverwrite: true}` in the rotation cycle is left out.
  `TryCreate` in this revision takes no options, so the value is never used.
- client.go's `GetSecretName` is not part of this model. It is a parameter
  (`secretNameOf`) of `K8sRegion.GetKubeconfigByRegionName`.
- `clientcmd.NewClientConfigFromBytes` and `kube.NewCLIClient` are one parameter.
  `connected` in `RemoteSecret.GetRemoteSecret` is the client or the error they
  produced.
- Some remote-cluster calls are answers in `ClusterFacts`:
  - `clusterUID`;
  - `GetKubernetesVersion`;
  - `ClientConfig().Host`;
  - `getCAcert`, including its file read;
  - `CreateToken`;
  - `clientcmd.Validate`;
  - `latest.Codec.Encode`.
  Their internals are not modelled.
- The messages of the API server's own errors (NotFound, AlreadyExists, Unavailable)
  are stand-in texts.
- Error values keep only their text. `%v` renders an error as its message, `%w`
  keeps the cause, and `%#v` of an error is written as its quoted message.
- `%#v` of a string uses a quoting that escapes only `"` and `\`. Other control
  characters are not escaped.
- `%s` of a ServiceAccount in the legacy "no secret found" error is rendered as the
  account's name.
- A nil `[]byte` and an empty one are not told apart.
- A Go map read of a missing key gives the zero value (`Resources.LabelValue`).
- `render_helm_template` (a `helm template` subprocess) and `parse_arguments`
  (argparse) are left out. `yaml.safe_load_all` is left out too: the model starts
  from the loaded documents.
- The output file of `generate_diagram` is the list of strings written. Opening and
  closing the file are not modelled.
- YAML floats, non-string mapping keys and duplicate keys are not modelled.
- Python's `\s` is the set of characters `str.isspace` accepts. The Unicode
  separators beyond those written out in `McsDiagram.IsSpace` are not modelled.
- `version.MustParseGeneric` and the other parts of apimachinery's version package
  beyond `ParseGeneric` (with a leading `v`), `AtLeast` and `LessThan` are left out.
- `K8sRegion.GetKubeconfigFromClusterDeployment` has no contract. It only passes the
  cluster's secret name to `GetKubeconfigFromSecret`.
- RemoteSecret.CreateRemoteSecretFromTokenAndServerSpec: uses the corrected token wait, not the wait as written. After a failed first re-read of an unpopulated token secret, the code fails with "resource name may not be empty", while the model can still succeed. The two agree whenever every re-read succeeds with the same secret (`RemoteSecret.WaitAsWrittenOnStableReads`).
- RemoteSecret.CreateRemoteSecretFromTokenAndServer: calls the corrected `WaitForTokenData`, for the reason given on the line above.
- RemoteSecret.BuildRemoteSecretSpec: its bearer-token branch inherits the corrected wait from `CreateRemoteSecretFromTokenAndServerSpec`.
- RemoteSecret.FinishRemoteSecretSpec: inherits the corrected wait through `BuildRemoteSecretSpec`.
- RemoteSecret.FinishRemoteSecret: inherits the corrected wait through `CreateRemoteSecretFromTokenAndServer`.
- RemoteSecret.CreateRemoteSecret: inherits the corrected wait, so it succeeds on a transient failure of the first token re-read where the code fails.
- RemoteSecret.GetRemoteSecret: composes `CreateRemoteSecretSpec`, so it inherits the corrected wait.
- Go's `uint` is 64 bits wide here: `K8sKube.UintLimit` is 2^64. On a 32-bit platform, `strconv.ParseUint(comp, 10, 0)` would reject components from 2^32 on, and this is not modelled.

## Findings

| source | as written | input that shows it | evidently intended | confidence | as-written member | corrected member |
|---|---|---|---|---|---|---|
| istio-operator/internal/controller/istio/remote-secret/remote_secret.go:306-315 | The retry closure assigns the Get result back to `secret`. After a failed Get, that is an empty Secret, so every later retry asks for a secret with an empty name and fails. | A token secret without data; the first re-read fails transiently; every later re-read would return a secret holding `ca.crt` and `token` (`RemoteSecret.TransientReadFailureDiscrepancy`). | Every retry re-reads the original secret, and the first populated read ends the wait. | not executed | RemoteSecret.WaitForTokenDataAsWritten | RemoteSecret.WaitForTokenData |
