/** internal/secret-rotation/istio_secret_rotation.go: the periodic rotation of
    remote secrets. One cycle lists the ClusterDeployments that carry the
    istio-role label, with any value, and runs the remote secret manager's
    TryCreate on each of them in list order; a failure is counted and the
    cycle moves on. */
module SecretRotation {
  import opened Wrappers
  import opened Resources
  import opened Store
  import opened Utils
  import Controller
  import RemoteSecretManager

  /** The label requirement of getIstioClusters: `Exists` on the istio-role
      key, so any value, even "", matches. */
  predicate HasIstioRole(labels: map<string, string>): (b: bool)
    ensures b <==> IstioRoleLabel in labels
    ensures labels == map[IstioRoleLabel := ""] ==> b
  {
    IstioRoleLabel in labels
  }

  /** The clusters the label selector keeps, in the order they were listed. */
  function SelectIstioClusters(clusters: seq<ClusterDeployment>): (r: seq<ClusterDeployment>)
    ensures |r| <= |clusters|
    ensures forall cd :: cd in r <==> cd in clusters && HasIstioRole(cd.labels)
    decreases |clusters|
  {
    if clusters == [] then []
    else
      var rest := SelectIstioClusters(clusters[1..]);
      assert clusters == [clusters[0]] + clusters[1..];
      if HasIstioRole(clusters[0].labels) then [clusters[0]] + rest else rest
  }

  /** getIstioClusters over the answer of the List call: a failed list is
      wrapped, a successful one is narrowed by the selector. */
  function GetIstioClusters(listed: Result<seq<ClusterDeployment>, ApiError>): (r: Result<seq<ClusterDeployment>, Error>)
    ensures listed.Err? ==> r == Err(Wrapped("failed to list clusters", Api(listed.error)))
    ensures listed.Ok? ==> r.Ok? && forall cd :: cd in r.value <==> cd in listed.value && HasIstioRole(cd.labels)
  {
    match listed
    case Err(e) => Err(Wrapped("failed to list clusters", Api(e)))
    case Ok(clusters) => Ok(SelectIstioClusters(clusters))
  }

  // ---------------------------------------------------------------------------
  // One cycle as a store transition

  /** What one cluster's call does to the store. */
  type Step = (State, ClusterDeployment) -> Outcome

  /** RemoteSecretManager.TryCreate as a step. */
  function TryCreateStep(cfg: Config, creator: RemoteSecretManager.Creator): Step {
    (s: State, cd: ClusterDeployment) => RemoteSecretManager.TryCreateSpec(cfg, creator, s, cd)
  }

  /** The store after a run of calls and how many of them returned nil. */
  datatype Rotated = Rotated(state: State, successful: nat)

  /** `step` on each cluster in turn, each call seeing the store the previous
      one left, whatever the previous one returned. */
  function RotateAll(step: Step, s: State, clusters: seq<ClusterDeployment>): (r: Rotated)
    ensures r.successful <= |clusters|
    decreases |clusters|
  {
    if clusters == [] then Rotated(s, 0)
    else
      var prev := RotateAll(step, s, clusters[..|clusters| - 1]);
      var o := step(prev.state, clusters[|clusters| - 1]);
      Rotated(o.state, prev.successful + if o.err.None? then 1 else 0)
  }

  /** One more cluster: the run so far, then one call on the store it left. */
  lemma RotateAllStep(step: Step, s: State, clusters: seq<ClusterDeployment>, i: nat)
    requires i < |clusters|
    ensures var prev := RotateAll(step, s, clusters[..i]);
      var o := step(prev.state, clusters[i]);
      RotateAll(step, s, clusters[..i + 1]) == Rotated(o.state, prev.successful + if o.err.None? then 1 else 0)
  {
    assert clusters[..i + 1][..i] == clusters[..i];
  }

  /** The counts a cycle logs at its end. */
  datatype CycleReport = CycleReport(total: nat, successful: nat, failed: nat)

  datatype Cycle = Cycle(state: State, report: Option<CycleReport>)

  /** rotateSecrets on what getIstioClusters returned: an error or an empty
      selection ends the cycle before any call; otherwise every selected
      cluster is tried and counted. */
  function RotateSecretsSpec(step: Step, s: State, selected: Result<seq<ClusterDeployment>, Error>): (c: Cycle)
    ensures c.report.None? ==> c.state == s
    ensures c.report.Some? ==> c.report.value.successful + c.report.value.failed == c.report.value.total
  {
    match selected
    case Err(_) => Cycle(s, None)
    case Ok(clusters) =>
      if |clusters| == 0 then Cycle(s, None)
      else
        var r := RotateAll(step, s, clusters);
        Cycle(r.state, Some(CycleReport(|clusters|, r.successful, |clusters| - r.successful)))
  }

  /** The cycle an error or an empty selection gives: nothing written, nothing reported. */
  lemma CycleOfNoSelection(step: Step, s: State, selected: Result<seq<ClusterDeployment>, Error>)
    requires selected.Err? || |selected.value| == 0
    ensures RotateSecretsSpec(step, s, selected) == Cycle(s, None)
  {
  }

  /** The cycle a non-empty selection gives, from the run over it. */
  lemma CycleOfSelection(step: Step, s: State, selected: Result<seq<ClusterDeployment>, Error>, t: State, successful: nat)
    requires selected.Ok? && |selected.value| > 0
    requires RotateAll(step, s, selected.value) == Rotated(t, successful)
    ensures RotateSecretsSpec(step, s, selected) ==
      Cycle(t, Some(CycleReport(|selected.value|, successful, |selected.value| - successful)))
  {
  }

  /** `step` is what TryCreate of a manager configured with `cfg` and `creator`
      does, on every store and cluster. */
  ghost predicate CallsTryCreate(step: Step, cfg: Config, creator: RemoteSecretManager.Creator) {
    forall t: State, cd: ClusterDeployment {:trigger RemoteSecretManager.TryCreateSpec(cfg, creator, t, cd)} ::
      step(t, cd) == RemoteSecretManager.TryCreateSpec(cfg, creator, t, cd)
  }

  // ---------------------------------------------------------------------------
  // The rotation manager

  class Manager {
    const kubeClient: Store
    const remoteSecretManager: RemoteSecretManager.RemoteSecretManager
    /** The remote secret manager's TryCreate as a store transition. */
    ghost const step: Step

    /** The manager shares its client with the remote secret manager it owns. */
    ghost predicate Valid() {
      && remoteSecretManager.client == kubeClient
      && CallsTryCreate(step, remoteSecretManager.config, remoteSecretManager.creator)
    }

    constructor (kubeClient: Store, config: Config, creator: RemoteSecretManager.Creator)
      ensures this.kubeClient == kubeClient
      ensures remoteSecretManager.config == config && remoteSecretManager.creator == creator
      ensures step == TryCreateStep(config, creator)
      ensures Valid()
    {
      this.kubeClient := kubeClient;
      this.remoteSecretManager := new RemoteSecretManager.RemoteSecretManager(kubeClient, config, creator);
      this.step := TryCreateStep(config, creator);
    }

    /** One cycle; `listed` is what the API server answers to the List call. */
    method RotateSecrets(listed: Result<seq<ClusterDeployment>, ApiError>) returns (report: Option<CycleReport>)
      requires Valid()
      modifies kubeClient
      ensures kubeClient.View() == RotateSecretsSpec(step, old(kubeClient.View()), GetIstioClusters(listed)).state
      ensures report == RotateSecretsSpec(step, old(kubeClient.View()), GetIstioClusters(listed)).report
    {
      ghost var s0 := kubeClient.View();
      var clusters := GetIstioClusters(listed);
      if clusters.Err? || |clusters.value| == 0 {
        CycleOfNoSelection(step, s0, clusters);
        return None;
      }
      var cs := clusters.value;
      var successCount := RotateClusters(cs);
      CycleOfSelection(step, s0, clusters, kubeClient.View(), successCount);
      return Some(CycleReport(|cs|, successCount, |cs| - successCount));
    }

    /** The loop of rotateSecrets: TryCreate on every cluster, counting the nils. */
    method RotateClusters(cs: seq<ClusterDeployment>) returns (successCount: nat)
      requires Valid()
      modifies kubeClient
      ensures Rotated(kubeClient.View(), successCount) == RotateAll(step, old(kubeClient.View()), cs)
    {
      ghost var s0 := kubeClient.View();
      successCount := 0;
      for i := 0 to |cs|
        invariant Rotated(kubeClient.View(), successCount) == RotateAll(step, s0, cs[..i])
      {
        RotateAllStep(step, s0, cs, i);
        var err := remoteSecretManager.TryCreate(cs[i]);
        if err.None? {
          successCount := successCount + 1;
        }
      }
      assert cs[..|cs|] == cs;
    }
  }

  // ---------------------------------------------------------------------------
  // Properties

  /** Whether the call on the i-th cluster of a run returned nil. */
  ghost predicate StepSucceeded(step: Step, s: State, clusters: seq<ClusterDeployment>, i: nat) {
    i < |clusters| && step(RotateAll(step, s, clusters[..i]).state, clusters[i]).err.None?
  }

  /** The i-th call of a run does not depend on the clusters after it. */
  lemma StepSucceededPrefix(step: Step, s: State, clusters: seq<ClusterDeployment>, j: nat, i: nat)
    requires i < j <= |clusters|
    ensures StepSucceeded(step, s, clusters[..j], i) == StepSucceeded(step, s, clusters, i)
  {
    assert clusters[..j][..i] == clusters[..i];
  }

  /** How many of the first k calls of the run on `clusters` returned nil. */
  ghost function CountSucceeded(step: Step, s: State, clusters: seq<ClusterDeployment>, k: nat): nat
    decreases k
  {
    if k == 0 then 0
    else CountSucceeded(step, s, clusters, k - 1) + if StepSucceeded(step, s, clusters, k - 1) then 1 else 0
  }

  lemma {:induction false} CountSucceededPrefix(step: Step, s: State, clusters: seq<ClusterDeployment>, j: nat, k: nat)
    requires k <= j <= |clusters|
    ensures CountSucceeded(step, s, clusters[..j], k) == CountSucceeded(step, s, clusters, k)
    decreases k
  {
    if k > 0 {
      CountSucceededPrefix(step, s, clusters, j, k - 1);
      StepSucceededPrefix(step, s, clusters, j, k - 1);
    }
  }

  /** The success count of a run is the number of clusters whose call returned nil. */
  lemma {:induction false} SuccessfulCountsSuccesses(step: Step, s: State, clusters: seq<ClusterDeployment>)
    ensures RotateAll(step, s, clusters).successful == CountSucceeded(step, s, clusters, |clusters|)
    decreases |clusters|
  {
    var n := |clusters|;
    if n > 0 {
      SuccessfulCountsSuccesses(step, s, clusters[..n - 1]);
      CountSucceededPrefix(step, s, clusters, n - 1, n - 1);
    }
  }

  /** A run counts every cluster as a success exactly when every call returned nil. */
  lemma {:induction false} NoFailureMeansAllSucceeded(step: Step, s: State, clusters: seq<ClusterDeployment>)
    ensures RotateAll(step, s, clusters).successful == |clusters| <==>
      forall i :: 0 <= i < |clusters| ==> StepSucceeded(step, s, clusters, i)
    decreases |clusters|
  {
    var n := |clusters|;
    if n > 0 {
      var front := clusters[..n - 1];
      NoFailureMeansAllSucceeded(step, s, front);
      forall i | 0 <= i < n - 1
        ensures StepSucceeded(step, s, front, i) == StepSucceeded(step, s, clusters, i)
      {
        StepSucceededPrefix(step, s, clusters, n - 1, i);
      }
      var last := StepSucceeded(step, s, clusters, n - 1);
      assert RotateAll(step, s, clusters).successful ==
        RotateAll(step, s, front).successful + if last then 1 else 0;
      if forall i :: 0 <= i < n ==> StepSucceeded(step, s, clusters, i) {
        assert StepSucceeded(step, s, clusters, n - 1);
      }
    }
  }

  /** A run counts no success exactly when every call returned an error. */
  lemma {:induction false} NoSuccessMeansAllFailed(step: Step, s: State, clusters: seq<ClusterDeployment>)
    ensures RotateAll(step, s, clusters).successful == 0 <==>
      forall i :: 0 <= i < |clusters| ==> !StepSucceeded(step, s, clusters, i)
    decreases |clusters|
  {
    var n := |clusters|;
    if n > 0 {
      var front := clusters[..n - 1];
      NoSuccessMeansAllFailed(step, s, front);
      forall i | 0 <= i < n - 1
        ensures StepSucceeded(step, s, front, i) == StepSucceeded(step, s, clusters, i)
      {
        StepSucceededPrefix(step, s, clusters, n - 1, i);
      }
      var last := StepSucceeded(step, s, clusters, n - 1);
      assert RotateAll(step, s, clusters).successful ==
        RotateAll(step, s, front).successful + if last then 1 else 0;
      if forall i :: 0 <= i < n ==> !StepSucceeded(step, s, clusters, i) {
        assert !StepSucceeded(step, s, clusters, n - 1);
      }
    }
  }

  /** A failing cluster does not end the cycle: it leaves the store as it found
      it and the next cluster is tried from there. */
  lemma FailureDoesNotStopRotation(cfg: Config, creator: RemoteSecretManager.Creator, s: State,
                                   clusters: seq<ClusterDeployment>, i: nat)
    requires i < |clusters|
    ensures var step := TryCreateStep(cfg, creator);
      var before := RotateAll(step, s, clusters[..i]);
      var after := RotateAll(step, s, clusters[..i + 1]);
      var o := RemoteSecretManager.TryCreateSpec(cfg, creator, before.state, clusters[i]);
      && (o.err.Some? ==> after == before)
      && (o.err.None? ==> after == Rotated(o.state, before.successful + 1))
  {
    assert clusters[..i + 1][..i] == clusters[..i];
    var before := RotateAll(TryCreateStep(cfg, creator), s, clusters[..i]);
    RemoteSecretManager.FailedTryCreateWritesNothing(cfg, creator, before.state, clusters[i]);
  }

  /** A cluster whose remote secret is already there (or that is not ready) is
      counted as a success and left as it is: TryCreate, as this revision has
      it, does not overwrite. */
  lemma {:induction false} RotationKeepsExistingSecrets(cfg: Config, creator: RemoteSecretManager.Creator, s: State,
                                                         clusters: seq<ClusterDeployment>)
    requires forall i :: 0 <= i < |clusters| && IsReady(clusters[i]) ==>
      RemoteSecretManager.RemoteSecretKey(cfg, clusters[i].name, clusters[i].namespace) in s.objects &&
      RemoteSecretManager.RemoteSecretKey(cfg, clusters[i].name, clusters[i].namespace) !in s.failing
    ensures RotateAll(TryCreateStep(cfg, creator), s, clusters) == Rotated(s, |clusters|)
    decreases |clusters|
  {
    if clusters != [] {
      var n := |clusters|;
      RotationKeepsExistingSecrets(cfg, creator, s, clusters[..n - 1]);
      RemoteSecretManager.TryCreateGates(cfg, creator, s, clusters[n - 1]);
    }
  }

  /** A cycle whose list fails, or selects nothing, writes nothing and reports
      nothing; otherwise the report counts every selected cluster. */
  lemma CycleOutcome(step: Step, s: State, listed: Result<seq<ClusterDeployment>, ApiError>)
    ensures var c := RotateSecretsSpec(step, s, GetIstioClusters(listed));
      && (c.report.None? <==> listed.Err? || forall cd :: cd in listed.value ==> !HasIstioRole(cd.labels))
      && (c.report.Some? ==>
            && c.report.value.total == |SelectIstioClusters(listed.value)|
            && c.report.value.successful <= c.report.value.total
            && c.state == RotateAll(step, s, SelectIstioClusters(listed.value)).state)
  {
    if listed.Ok? {
      var cs := SelectIstioClusters(listed.value);
      if |cs| > 0 {
        assert cs[0] in cs;
      }
    }
  }

  /** The rotation selector is wider than the reconciler's event filter: every
      cluster the reconciler handles is rotated, and one labelled with any
      other istio-role value is rotated but never reconciled. */
  lemma SelectorWiderThanEventFilter(labels: map<string, string>)
    ensures Controller.EventFilter(labels) ==> HasIstioRole(labels)
    ensures var other := map[IstioRoleLabel := "foo"];
      HasIstioRole(other) && !Controller.EventFilter(other)
  {
    Controller.EventFilterAccepts(labels);
    Controller.EventFilterAccepts(map[IstioRoleLabel := "foo"]);
  }
}
