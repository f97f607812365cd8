/** The prune determiner: reference indices built once from the live pods
    and service accounts of a namespace, and a per-resource decision that
    reads them. */
module Determiner {
  import opened Kube
  import opened References
  import opened Client

  const KindConfigMap: string := "ConfigMap"
  const KindSecret: string := "Secret"
  const KindPod: string := "Pod"
  const KindPersistentVolumeClaim: string := "PersistentVolumeClaim"
  const KindPodDisruptionBudget: string := "PodDisruptionBudget"

  // ---------------------------------------------------------------------
  // Reference-index builders
  // ---------------------------------------------------------------------

  /** Adds what one container imports through `envFrom` and `env`. */
  method AddContainerReferences(used: set<string>, c: Container, r: Referent) returns (used': set<string>)
    ensures forall n :: n in used' <==> n in used || ContainerRefers(c, r, n)
  {
    used' := used;
    for k := 0 to |c.envFrom|
      invariant forall n :: n in used' <==>
        n in used || exists k' :: 0 <= k' < k && EnvFromName(c.envFrom[k'], r) == Some(n)
    {
      var name := EnvFromName(c.envFrom[k], r);
      if name.Some? {
        used' := used' + {name.value};
      }
    }
    ghost var afterEnvFrom := used';
    for k := 0 to |c.env|
      invariant forall n :: n in used' <==>
        n in afterEnvFrom || exists k' :: 0 <= k' < k && EnvName(c.env[k'], r) == Some(n)
    {
      var name := EnvName(c.env[k], r);
      if name.Some? {
        used' := used' + {name.value};
      }
    }
  }

  /** Adds what one volume mounts directly or through its projected sources. */
  method AddVolumeReferences(used: set<string>, v: Volume, r: Referent) returns (used': set<string>)
    ensures forall n :: n in used' <==> n in used || VolumeRefers(v, r, n)
  {
    used' := used;
    var direct := VolumeName(v, r);
    if direct.Some? {
      used' := used' + {direct.value};
    }
    if v.projected.Some? {
      var sources := v.projected.value;
      ghost var afterDirect := used';
      for k := 0 to |sources|
        invariant forall n :: n in used' <==>
          n in afterDirect || exists k' :: 0 <= k' < k && ProjectionName(sources[k'], r) == Some(n)
      {
        var name := ProjectionName(sources[k], r);
        if name.Some? {
          used' := used' + {name.value};
        }
      }
    }
  }

  /** Adds what one pod references through its containers and its volumes. */
  method AddPodReferences(used: set<string>, p: Pod, r: Referent) returns (used': set<string>)
    ensures forall n :: n in used' <==> n in used || PodRefers(p, r, n)
  {
    used' := used;
    for k := 0 to |p.containers|
      invariant forall n :: n in used' <==>
        n in used || exists k' :: 0 <= k' < k && ContainerRefers(p.containers[k'], r, n)
    {
      used' := AddContainerReferences(used', p.containers[k], r);
    }
    ghost var afterContainers := used';
    for k := 0 to |p.volumes|
      invariant forall n :: n in used' <==>
        n in afterContainers || exists k' :: 0 <= k' < k && VolumeRefers(p.volumes[k'], r, n)
    {
      used' := AddVolumeReferences(used', p.volumes[k], r);
    }
  }

  /** The names of the referent kind referenced by any of the pods. */
  method DetectPodReferences(pods: seq<Pod>, r: Referent) returns (used: set<string>)
    ensures forall n :: n in used <==> SomePodRefers(pods, r, n)
  {
    used := {};
    for k := 0 to |pods|
      invariant forall n :: n in used <==> exists k' :: 0 <= k' < k && PodRefers(pods[k'], r, n)
    {
      used := AddPodReferences(used, pods[k], r);
    }
  }

  /** `detectUsedConfigMaps`. */
  method DetectUsedConfigMaps(pods: seq<Pod>) returns (used: set<string>)
    ensures forall n :: n in used <==> SomePodRefers(pods, ConfigMapObject, n)
  {
    used := DetectPodReferences(pods, ConfigMapObject);
  }

  /** `detectUsedSecrets`: the pods' Secret references, then every Secret
      listed by a service account. */
  method DetectUsedSecrets(pods: seq<Pod>, sas: seq<ServiceAccount>) returns (used: set<string>)
    ensures forall n :: n in used <==> SomePodRefers(pods, SecretObject, n) || SomeAccountLists(sas, n)
  {
    used := DetectPodReferences(pods, SecretObject);
    ghost var fromPods := used;
    for i := 0 to |sas|
      invariant forall n :: n in used <==>
        n in fromPods || exists i', j :: 0 <= i' < i && 0 <= j < |sas[i'].secrets| && sas[i'].secrets[j].name == n
    {
      ghost var before := used;
      var secrets := sas[i].secrets;
      for j := 0 to |secrets|
        invariant forall n :: n in used <==>
          n in before || exists j' :: 0 <= j' < j && secrets[j'].name == n
      {
        used := used + {secrets[j].name};
      }
    }
  }

  /** `detectUsedPersistentVolumeClaims`: the claim name of every volume
      that has a claim source; other volumes are skipped. */
  method DetectUsedPersistentVolumeClaims(pods: seq<Pod>) returns (used: set<string>)
    ensures forall n :: n in used <==> SomePodClaims(pods, n)
  {
    used := {};
    for i := 0 to |pods|
      invariant forall n :: n in used <==>
        exists i', j :: 0 <= i' < i && 0 <= j < |pods[i'].volumes| && pods[i'].volumes[j].persistentVolumeClaim == Some(n)
    {
      ghost var before := used;
      var volumes := pods[i].volumes;
      for j := 0 to |volumes|
        invariant forall n :: n in used <==>
          n in before || exists j' :: 0 <= j' < j && volumes[j'].persistentVolumeClaim == Some(n)
      {
        if volumes[j].persistentVolumeClaim.None? {
          continue;
        }
        used := used + {volumes[j].persistentVolumeClaim.value};
      }
    }
  }

  // ---------------------------------------------------------------------
  // Construction
  // ---------------------------------------------------------------------

  ghost predicate HasKind(candidates: seq<Info>, kind: string)
  {
    exists k :: 0 <= k < |candidates| && candidates[k].kind == kind
  }

  /** The kinds that need the pod list: every kind with a reference index,
      and PodDisruptionBudget. Pod itself does not. */
  ghost predicate NeedsPods(candidates: seq<Info>)
  {
    || HasKind(candidates, KindConfigMap)
    || HasKind(candidates, KindSecret)
    || HasKind(candidates, KindPersistentVolumeClaim)
    || HasKind(candidates, KindPodDisruptionBudget)
  }

  /** The visitor of `newDeterminer`: which of the four flag kinds occur
      among the candidates. */
  method ScanKinds(candidates: seq<Info>)
    returns (configMaps: bool, secrets: bool, persistentVolumeClaims: bool, podDisruptionBudgets: bool)
    ensures configMaps == HasKind(candidates, KindConfigMap)
    ensures secrets == HasKind(candidates, KindSecret)
    ensures persistentVolumeClaims == HasKind(candidates, KindPersistentVolumeClaim)
    ensures podDisruptionBudgets == HasKind(candidates, KindPodDisruptionBudget)
  {
    configMaps, secrets, persistentVolumeClaims, podDisruptionBudgets := false, false, false, false;
    for k := 0 to |candidates|
      invariant configMaps == exists k' :: 0 <= k' < k && candidates[k'].kind == KindConfigMap
      invariant secrets == exists k' :: 0 <= k' < k && candidates[k'].kind == KindSecret
      invariant persistentVolumeClaims == exists k' :: 0 <= k' < k && candidates[k'].kind == KindPersistentVolumeClaim
      invariant podDisruptionBudgets == exists k' :: 0 <= k' < k && candidates[k'].kind == KindPodDisruptionBudget
    {
      var kind := candidates[k].kind;
      if kind == KindConfigMap {
        configMaps := true;
      } else if kind == KindSecret {
        secrets := true;
      } else if kind == KindPersistentVolumeClaim {
        persistentVolumeClaims := true;
      } else if kind == KindPodDisruptionBudget {
        podDisruptionBudgets := true;
      }
    }
  }

  /** `newDeterminer`. A visit error aborts before any request; otherwise the
      pods are listed iff some candidate needs them and the service accounts
      iff some candidate is a Secret, each at most once, and a failed list
      aborts with that list's error and no determiner. Exactly the indices
      of the kinds present are built. */
  method NewDeterminer(cluster: Cluster, candidates: seq<Info>, visitError: Option<Error>, namespace: string)
    returns (d: Determiner?, err: Option<Error>)
    modifies cluster
    ensures d == null <==> err.Some?
    ensures visitError.Some? ==> err == visitError && cluster.requests == old(cluster.requests)
    ensures visitError.None? ==>
      var listed := cluster.podsIn(namespace);
      var accounts := cluster.serviceAccountsIn(namespace);
      && cluster.requests == old(cluster.requests)
           + (if NeedsPods(candidates) then [ListPods(namespace)] else [])
           + (if HasKind(candidates, KindSecret) && listed.Ok? then [ListServiceAccounts(namespace)] else [])
      && (if NeedsPods(candidates) && listed.Err? then err == Some(listed.error)
          else if HasKind(candidates, KindSecret) && accounts.Err? then err == Some(accounts.error)
          else err.None?)
    ensures d != null ==>
      && fresh(d) && d.Valid()
      && d.pods == (if NeedsPods(candidates) then cluster.podsIn(namespace).value else [])
      && (d.usedConfigMaps.Some? <==> HasKind(candidates, KindConfigMap))
      && (d.usedSecrets.Some? <==> HasKind(candidates, KindSecret))
      && (d.usedPersistentVolumeClaims.Some? <==> HasKind(candidates, KindPersistentVolumeClaim))
      && (d.usedSecrets.Some? ==> d.serviceAccounts == cluster.serviceAccountsIn(namespace).value)
  {
    var configMaps, secrets, persistentVolumeClaims, podDisruptionBudgets := ScanKinds(candidates);
    if visitError.Some? {
      return null, visitError;
    }

    var det := new Determiner();

    if configMaps || secrets || persistentVolumeClaims || podDisruptionBudgets {
      var listed := cluster.ListPodsIn(namespace);
      if listed.Err? {
        return null, Some(listed.error);
      }
      det.pods := listed.value;
    }

    if configMaps {
      var used := DetectUsedConfigMaps(det.pods);
      det.usedConfigMaps := Some(used);
    }

    if secrets {
      var accounts := cluster.ListServiceAccountsIn(namespace);
      if accounts.Err? {
        return null, Some(accounts.error);
      }
      var used := DetectUsedSecrets(det.pods, accounts.value);
      det.usedSecrets := Some(used);
      det.serviceAccounts := accounts.value;
    }

    if persistentVolumeClaims {
      var used := DetectUsedPersistentVolumeClaims(det.pods);
      det.usedPersistentVolumeClaims := Some(used);
    }

    return det, None;
  }

  // ---------------------------------------------------------------------
  // The determiner and its decision
  // ---------------------------------------------------------------------

  /** `determiner`: up to three name indices (None when never built) and the
      pod list (empty when never listed). Nothing changes it after
      `NewDeterminer`: neither decision method has a modifies clause. */
  class Determiner {
    var usedConfigMaps: Option<set<string>>
    var usedSecrets: Option<set<string>>
    var usedPersistentVolumeClaims: Option<set<string>>
    var pods: seq<Pod>
    /** The service accounts the Secret index was built from. */
    ghost var serviceAccounts: seq<ServiceAccount>

    /** Every built index holds exactly the names its kind's references give. */
    ghost predicate Valid()
      reads this
    {
      && (usedConfigMaps.Some? ==>
            forall n :: n in usedConfigMaps.value <==> SomePodRefers(pods, ConfigMapObject, n))
      && (usedSecrets.Some? ==>
            forall n :: n in usedSecrets.value <==> SomePodRefers(pods, SecretObject, n) || SomeAccountLists(serviceAccounts, n))
      && (usedPersistentVolumeClaims.Some? ==>
            forall n :: n in usedPersistentVolumeClaims.value <==> SomePodClaims(pods, n))
    }

    /** `&determiner{}`: nothing built, no pods. */
    constructor ()
      ensures Valid()
      ensures usedConfigMaps.None? && usedSecrets.None? && usedPersistentVolumeClaims.None?
      ensures pods == [] && serviceAccounts == []
    {
      usedConfigMaps := None;
      usedSecrets := None;
      usedPersistentVolumeClaims := None;
      pods := [];
      serviceAccounts := [];
    }

    /** `determineUsedPodDisruptionBudget`: an invalid selector is an error
        naming the budget; otherwise the budget is used iff its selector
        matches the labels of some stored pod, whatever the pod's phase. */
    method DetermineUsedPodDisruptionBudget(pdb: PodDisruptionBudget, asSelector: Option<LabelSelector> -> Selector)
      returns (used: bool, err: Option<Error>)
      ensures asSelector(pdb.selector).InvalidSelector? ==>
        !used && err == Some(SelectorError(pdb.name, asSelector(pdb.selector).reason))
      ensures asSelector(pdb.selector).Compiled? ==>
        err.None? && (used <==> SomePodMatches(pods, asSelector(pdb.selector).matches))
    {
      var selector := asSelector(pdb.selector);
      if selector.InvalidSelector? {
        return false, Some(SelectorError(pdb.name, selector.reason));
      }
      for k := 0 to |pods|
        invariant forall k' :: 0 <= k' < k ==> !selector.matches(pods[k'].labels)
      {
        if selector.matches(pods[k].labels) {
          return true, None;
        }
      }
      return false, None;
    }

    /** `determinePrune`. For the three indexed kinds the candidate is pruned
        iff no reference to its name was indexed, so a never-built index
        prunes every name; a Pod is pruned iff it is not Running; a budget
        is pruned iff no stored pod matches its selector. Every error (a
        failed conversion, an invalid selector, an unsupported kind) comes
        with no prune. */
    method DeterminePrune(info: Info, ext: Collaborators) returns (prune: bool, err: Option<Error>)
      requires Valid()
      ensures err.Some? ==> !prune
      ensures info.kind == KindConfigMap ==>
        err.None? && (prune <==> !(usedConfigMaps.Some? && SomePodRefers(pods, ConfigMapObject, info.name)))
      ensures info.kind == KindSecret ==>
        err.None? &&
        (prune <==>
           !(usedSecrets.Some? && (SomePodRefers(pods, SecretObject, info.name) || SomeAccountLists(serviceAccounts, info.name))))
      ensures info.kind == KindPersistentVolumeClaim ==>
        err.None? && (prune <==> !(usedPersistentVolumeClaims.Some? && SomePodClaims(pods, info.name)))
      ensures info.kind == KindPod ==>
        match ext.infoToPod(info)
        case Err(e) => err == Some(e)
        case Ok(pod) => err.None? && (prune <==> pod.phase != PodRunning)
      ensures info.kind == KindPodDisruptionBudget ==>
        match ext.infoToPodDisruptionBudget(info)
        case Err(e) => err == Some(e)
        case Ok(pdb) =>
          match ext.labelSelectorAsSelector(pdb.selector)
          case InvalidSelector(reason) => err == Some(SelectorError(pdb.name, reason))
          case Compiled(matches) => err.None? && (prune <==> !SomePodMatches(pods, matches))
      ensures info.kind !in {KindConfigMap, KindSecret, KindPersistentVolumeClaim, KindPod, KindPodDisruptionBudget} ==>
        err == Some(UnsupportedKind(info.kind, info.name))
    {
      var kind := info.kind;
      if kind == KindConfigMap {
        if !(usedConfigMaps.Some? && info.name in usedConfigMaps.value) {
          return true, None;
        }
      } else if kind == KindSecret {
        if !(usedSecrets.Some? && info.name in usedSecrets.value) {
          return true, None;
        }
      } else if kind == KindPersistentVolumeClaim {
        if !(usedPersistentVolumeClaims.Some? && info.name in usedPersistentVolumeClaims.value) {
          return true, None;
        }
      } else if kind == KindPod {
        var pod := ext.infoToPod(info);
        if pod.Err? {
          return false, Some(pod.error);
        }
        if pod.value.phase != PodRunning {
          return true, None;
        }
      } else if kind == KindPodDisruptionBudget {
        var pdb := ext.infoToPodDisruptionBudget(info);
        if pdb.Err? {
          return false, Some(pdb.error);
        }
        var used, e := DetermineUsedPodDisruptionBudget(pdb.value, ext.labelSelectorAsSelector);
        if e.Some? {
          return false, e;
        }
        return !used, None;
      } else {
        return false, Some(UnsupportedKind(kind, info.name));
      }
      return false, None;
    }
  }
}
