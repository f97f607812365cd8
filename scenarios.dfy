/** Worked scenarios: a client of `NewDeterminer` and `DeterminePrune` that
    relies on their contracts alone, as the pruning command does. */
module Scenarios {
  import opened Kube
  import opened References
  import opened Client
  import opened Determiner

  function Candidate(kind: string, name: string): Info
  {
    Info(kind, "default", name, "")
  }

  /** Converters that decode nothing, and a selector compiler that accepts
      only `app=web`. */
  function Runtime(pod: Pod): Collaborators
  {
    Collaborators(
      _ => Ok(pod),
      (info: Info) => Ok(PodDisruptionBudget(info.name, Some(LabelSelector(map["app" := "web"], [])))),
      _ => Compiled((l: Labels) => "app" in l && l["app"] == "web"))
  }

  /** A ConfigMap imported by `envFrom` is kept and an unreferenced one is
      pruned; a Secret listed only by a service account is kept; a budget
      whose selector matches no pod is pruned; a Pending pod is pruned and a
      Running one is kept; an unsupported kind is an
      error; asking twice gives the same answer. */
  method ReadyDeterminer()
    returns (kept: bool, orphaned: bool, token: bool, budget: bool, pending: bool, running: bool,
             deployment: Option<Error>)
    ensures !kept && orphaned && !token && budget
    ensures pending && !running
    ensures deployment == Some(UnsupportedKind("Deployment", "web"))
  {
    var app := Container("app", [EnvFromSource(Some("app-config"), None)], []);
    var db := Pod("db", map["app" := "db"], [app], [], "Pending");
    var account := ServiceAccount("default", [ObjectReference("default", "default-token")]);
    var cluster := new Cluster(_ => Ok([db]), _ => Ok([account]));
    var candidates := [
      Candidate(KindConfigMap, "app-config"),
      Candidate(KindSecret, "default-token"),
      Candidate(KindPodDisruptionBudget, "web")];
    assert candidates[0].kind == KindConfigMap;
    assert candidates[1].kind == KindSecret;

    var d, err := NewDeterminer(cluster, candidates, None, "default");
    assert NeedsPods(candidates);
    assert d != null;
    var ext := Runtime(db);

    assert PodRefers(d.pods[0], ConfigMapObject, "app-config") by {
      assert EnvFromName(d.pods[0].containers[0].envFrom[0], ConfigMapObject) == Some("app-config");
      assert ContainerRefers(d.pods[0].containers[0], ConfigMapObject, "app-config");
    }
    var e;
    kept, e := d.DeterminePrune(Candidate(KindConfigMap, "app-config"), ext);
    var again, _ := d.DeterminePrune(Candidate(KindConfigMap, "app-config"), ext);
    assert again == kept;

    assert !PodRefers(d.pods[0], ConfigMapObject, "orphan-config");
    orphaned, e := d.DeterminePrune(Candidate(KindConfigMap, "orphan-config"), ext);

    assert d.serviceAccounts[0].secrets[0].name == "default-token";
    token, e := d.DeterminePrune(Candidate(KindSecret, "default-token"), ext);

    assert !SomePodMatches(d.pods, (l: Labels) => "app" in l && l["app"] == "web");
    budget, e := d.DeterminePrune(Candidate(KindPodDisruptionBudget, "web"), ext);

    pending, e := d.DeterminePrune(Candidate(KindPod, "db"), ext);
    running, e := d.DeterminePrune(Candidate(KindPod, "db"), Runtime(db.(phase := PodRunning)));

    var _, unsupported := d.DeterminePrune(Candidate("Deployment", "web"), ext);
    deployment := unsupported;
  }
}
