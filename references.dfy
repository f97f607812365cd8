/** What it means for the live workload to reference an object by name.
    These predicates quantify over positions instead of following the
    builders' loops: the builders in module Determiner are proved to compute
    exactly the names they describe. */
module References {
  import opened Kube

  /** ConfigMaps and Secrets are referenced from pods in the same four ways;
      only the field consulted differs. */
  datatype Referent = ConfigMapObject | SecretObject

  /** The name an `envFrom` entry imports for the referent, if any. */
  function EnvFromName(e: EnvFromSource, r: Referent): Option<string>
  {
    match r
    case ConfigMapObject => e.configMapRef
    case SecretObject => e.secretRef
  }

  /** The name an `env` entry's `valueFrom` key selector names, if any. */
  function EnvName(e: EnvVar, r: Referent): Option<string>
  {
    if e.valueFrom.None? then None
    else
      var sel := match r
        case ConfigMapObject => e.valueFrom.value.configMapKeyRef
        case SecretObject => e.valueFrom.value.secretKeyRef;
      if sel.Some? then Some(sel.value.name) else None
  }

  /** The name a direct ConfigMap volume or Secret volume mounts, if any. */
  function VolumeName(v: Volume, r: Referent): Option<string>
  {
    match r
    case ConfigMapObject => v.configMap
    case SecretObject => v.secret
  }

  /** The name one projected-volume source names, if any. */
  function ProjectionName(s: VolumeProjection, r: Referent): Option<string>
  {
    match r
    case ConfigMapObject => s.configMap
    case SecretObject => s.secret
  }

  ghost predicate ContainerRefers(c: Container, r: Referent, n: string)
  {
    || (exists k :: 0 <= k < |c.envFrom| && EnvFromName(c.envFrom[k], r) == Some(n))
    || (exists k :: 0 <= k < |c.env| && EnvName(c.env[k], r) == Some(n))
  }

  ghost predicate VolumeRefers(v: Volume, r: Referent, n: string)
  {
    || VolumeName(v, r) == Some(n)
    || (v.projected.Some? &&
        exists k :: 0 <= k < |v.projected.value| && ProjectionName(v.projected.value[k], r) == Some(n))
  }

  /** A pod references `n` through one of its (regular) containers or one of its volumes. */
  ghost predicate PodRefers(p: Pod, r: Referent, n: string)
  {
    || (exists k :: 0 <= k < |p.containers| && ContainerRefers(p.containers[k], r, n))
    || (exists k :: 0 <= k < |p.volumes| && VolumeRefers(p.volumes[k], r, n))
  }

  ghost predicate SomePodRefers(pods: seq<Pod>, r: Referent, n: string)
  {
    exists k :: 0 <= k < |pods| && PodRefers(pods[k], r, n)
  }

  /** Some service account lists a Secret named `n`. */
  ghost predicate SomeAccountLists(sas: seq<ServiceAccount>, n: string)
  {
    exists i, j :: 0 <= i < |sas| && 0 <= j < |sas[i].secrets| && sas[i].secrets[j].name == n
  }

  /** Some volume of some pod declares a claim source whose claim name is `n`. */
  ghost predicate SomePodClaims(pods: seq<Pod>, n: string)
  {
    exists i, j :: 0 <= i < |pods| && 0 <= j < |pods[i].volumes| && pods[i].volumes[j].persistentVolumeClaim == Some(n)
  }

  /** Some pod, whatever its phase, carries labels that `matches` accepts. */
  ghost predicate SomePodMatches(pods: seq<Pod>, matches: Labels -> bool)
  {
    exists k :: 0 <= k < |pods| && matches(pods[k].labels)
  }

  /** The indices have set semantics: the order and multiplicity of the pod
      list do not matter. */
  lemma {:induction false} ReferencesIgnorePodOrder(pods: seq<Pod>, pods': seq<Pod>, r: Referent, n: string)
    requires multiset(pods) == multiset(pods')
    ensures SomePodRefers(pods, r, n) <==> SomePodRefers(pods', r, n)
    ensures SomePodClaims(pods, n) <==> SomePodClaims(pods', n)
  {
    forall a: seq<Pod>, b: seq<Pod> | multiset(a) == multiset(b)
      ensures SomePodRefers(a, r, n) ==> SomePodRefers(b, r, n)
      ensures SomePodClaims(a, n) ==> SomePodClaims(b, n)
    {
      if SomePodRefers(a, r, n) {
        var k :| 0 <= k < |a| && PodRefers(a[k], r, n);
        var k' := IndexIn(a[k], b);
        assert PodRefers(b[k'], r, n);
      }
      if SomePodClaims(a, n) {
        var i, j :| 0 <= i < |a| && 0 <= j < |a[i].volumes| && a[i].volumes[j].persistentVolumeClaim == Some(n);
        var i' := IndexIn(a[i], b);
        assert b[i'].volumes[j].persistentVolumeClaim == Some(n);
      }
    }
  }

  /** A position of `p` in `s`, when `p` occurs in it. */
  lemma IndexIn(p: Pod, s: seq<Pod>) returns (k: nat)
    requires p in multiset(s)
    ensures k < |s| && s[k] == p
  {
    assert p in s;
    k :| 0 <= k < |s| && s[k] == p;
  }

  /** More pods never make a referenced name unreferenced: a name kept by one
      pod list is kept by any list that extends it. */
  lemma {:induction false} ReferencesGrowWithPods(pods: seq<Pod>, extra: seq<Pod>, r: Referent, n: string)
    ensures SomePodRefers(pods, r, n) ==> SomePodRefers(pods + extra, r, n)
    ensures SomePodRefers(pods + extra, r, n) <==> SomePodRefers(pods, r, n) || SomePodRefers(extra, r, n)
  {
    var all := pods + extra;
    if SomePodRefers(pods, r, n) {
      var k :| 0 <= k < |pods| && PodRefers(pods[k], r, n);
      assert all[k] == pods[k];
    }
    if SomePodRefers(extra, r, n) {
      var k :| 0 <= k < |extra| && PodRefers(extra[k], r, n);
      assert all[|pods| + k] == extra[k];
    }
    if SomePodRefers(all, r, n) {
      var k :| 0 <= k < |all| && PodRefers(all[k], r, n);
      if k < |pods| { assert all[k] == pods[k]; } else { assert all[k] == extra[k - |pods|]; }
    }
  }

  /** A selector that accepts every label set matches iff there is a pod. */
  lemma AcceptAllMatchesIffPodExists(pods: seq<Pod>, matches: Labels -> bool)
    requires forall l :: matches(l)
    ensures SomePodMatches(pods, matches) <==> |pods| > 0
  {
    if |pods| > 0 {
      assert matches(pods[0].labels);
    }
  }
}
