# kubectl-reap prune determiner in Dafny

This is a model of the prune determiner of kubectl-reap (`pkg/cmd/determiner.go`). The determiner decides whether a ConfigMap, Secret, PersistentVolumeClaim, Pod or PodDisruptionBudget is still in use in a namespace. The pruning command deletes the ones that are not.

It is built once per run:

- It looks at the kinds among the pruning candidates.
- It lists the namespace's pods only if a candidate is a ConfigMap, Secret, PersistentVolumeClaim or PodDisruptionBudget.
- It lists the service accounts only if a candidate is a Secret.
- It builds a name index only for each of those kinds that is present.

After that, `determinePrune` answers per candidate:

- ConfigMap, Secret, PersistentVolumeClaim: a lookup in the matching index.
- Pod: a phase check.
- PodDisruptionBudget: a selector match against the stored pods.

Files:

- `kube.dfy` (module `Kube`): the API records the determiner reads. Pointers become `Option`. The module also holds the error datatype and the foreign collaborators: `infoToPod`, `infoToPodDisruptionBudget` and `LabelSelectorAsSelector`, as function-valued fields.
- `references.dfy` (module `References`): what "referenced" means, stated over positions in the pod and service-account lists. This is the independent definition that the builders are proved against. It also holds the lemmas about these predicates.
- `client.dfy` (module `Client`): the cluster API as a class. What the cluster answers is fixed when the class is made. A ghost log records which list calls were issued, in order.
- `determiner.dfy` (module `Determiner`):
  - the index builders, as nested `for` loops with invariants;
  - the candidate visitor `ScanKinds`;
  - `NewDeterminer`;
  - the class `Determiner`, with its fields, its object invariant `Valid()` and its two read-only decision methods.
- `scenarios.dfy` (module `Scenarios`): a client that builds a determiner and proves the outcomes of the worked examples from the contracts alone.

Two Go functions, `detectUsedConfigMaps` and `detectUsedSecrets`, scan pods in the same way and differ only in the field they read. The model writes that scan once, with a `Referent` parameter (`ConfigMapObject` or `SecretObject`).

A Go `map[string]struct{}` index is an `Option<set<string>>`. `None` is the nil map left by a `newDeterminer` that never built that index. Looking a name up in it fails, just as with an empty set. `DeterminePrune` has no `modifies` clause, so the verifier proves that a decision never changes the determiner, and asking twice gives the same answer.

## Model

| member | source | states |
|---|---|---|
| `Determiner.AddContainerReferences` | pkg/cmd/determiner.go:138-150 | adds exactly the names that the container's `envFrom` entries and `env` key selectors give for the referent, and keeps all names already present |
| `Determiner.AddVolumeReferences` | pkg/cmd/determiner.go:152-164 | adds exactly the volume's direct ConfigMap or Secret name and the names of its projected sources for the referent |
| `Determiner.AddPodReferences` | pkg/cmd/determiner.go:137-165 | adds exactly what any of the pod's containers or volumes references |
| `Determiner.DetectPodReferences` | pkg/cmd/determiner.go:137-165 | a name is in the result iff some pod references it through envFrom, an env key selector, a direct volume or a projected source |
| `Determiner.DetectUsedConfigMaps` | pkg/cmd/determiner.go:134-167 | a name is in the ConfigMap index iff some pod references a ConfigMap of that name in one of those four ways; no other field contributes |
| `Determiner.DetectUsedSecrets` | pkg/cmd/determiner.go:170-212 | a name is in the Secret index iff some pod references a Secret of that name in one of those four ways, or some service account lists it |
| `Determiner.DetectUsedPersistentVolumeClaims` | pkg/cmd/determiner.go:214-227 | a name is in the claim index iff some volume of some pod has a claim source with that claim name; volumes without one are skipped |
| `Determiner.ScanKinds` | pkg/cmd/determiner.go:40-51 | each of the four flags is set iff a candidate of that kind exists; a Pod candidate sets none |
| `Determiner.NewDeterminer` | pkg/cmd/determiner.go:32-85 | a visit error is returned before any request; pods are listed iff a ConfigMap, Secret, claim or budget candidate exists; service accounts are listed iff a Secret candidate exists and the pod list succeeded; a failed list returns that error and no determiner; otherwise each index is built iff its kind is present, equals its reference definition, and the pods are the listed ones |
| `Determiner.Determiner.constructor` | pkg/cmd/determiner.go:56 | the empty determiner: no index built, no pods |
| `Determiner.Determiner.DetermineUsedPodDisruptionBudget` | pkg/cmd/determiner.go:229-242 | an invalid selector gives a `SelectorError` naming the budget and "not used"; otherwise "used" iff the compiled selector matches the labels of some stored pod, whatever its phase |
| `Determiner.Determiner.DeterminePrune` | pkg/cmd/determiner.go:88-132 | for ConfigMap, Secret and claim: no error, and prune iff the index was never built or no reference (for Secrets, no pod and no service account) names the candidate; Pod: a failed conversion is that error, otherwise prune iff the phase is not `Running`; budget: a failed conversion or invalid selector is an error, otherwise prune iff no stored pod matches; any other kind: `UnsupportedKind` with the kind and name; an error never comes with a prune |
| `Client.Cluster.ListPodsIn` | pkg/cmd/determiner.go:62 | returns the cluster's pod answer for the namespace and logs exactly one pod-list request |
| `Client.Cluster.ListServiceAccountsIn` | pkg/cmd/determiner.go:73 | returns the cluster's service-account answer for the namespace and logs exactly one request |
| `References.ReferencesIgnorePodOrder` | pkg/cmd/determiner.go:134-227 | reordering or regrouping the pod list with the same multiset leaves the ConfigMap, Secret and claim references unchanged |
| `References.ReferencesGrowWithPods` | pkg/cmd/determiner.go:137-165 | the references of a concatenated pod list are the union of both parts' references, so adding pods never makes a used name unused |
| `References.AcceptAllMatchesIffPodExists` | pkg/cmd/determiner.go:235-239 | a selector that accepts every label set matches some pod iff the pod list is non-empty |
| `Scenarios.ReadyDeterminer` | pkg/cmd/determiner.go:88-132 | end to end: a ConfigMap imported by `envFrom` is kept and an unreferenced one is pruned; a Secret listed only by a service account is kept; a budget whose selector matches no pod is pruned; a Pending pod is pruned and a Running one kept; `Deployment` is an `UnsupportedKind` error; a repeated decision gives the same answer |

## Left out

- `listPods`, `listServiceAccounts`, the clientset and `context.Background` are not modelled: they are network calls whose bodies are not part of this model. `Client.Cluster` stands in for them: its per-namespace answers are fixed, and its ghost log records the calls made.
- `resource.Result.Visit` is not modelled: it is CLI-runtime iteration. The candidates are a sequence of `Info` values plus an optional visit error. The visitor callback always returns nil, so the only visit error is the one `Visit` itself reports.
- `infoToPod`, `infoToPodDisruptionBudget`, `metav1.LabelSelectorAsSelector` and `labels.Set.Matches` are foreign code. They are abstract function-valued parameters that may fail (`Kube.Collaborators`), and the selector grammar is not modelled. So the effect of a nil selector (Kubernetes compiles it to "matches nothing") is decided by that parameter.
- The text of the `fmt.Errorf` messages is not modelled. Errors are the datatype `Kube.Error`. `UnsupportedKind` carries the kind and the name, and `SelectorError` carries the budget's name and the compiler's reason.
- Only `Spec.Containers` and `Spec.Volumes` are scanned, as in the source. Init containers, ephemeral containers, `imagePullSecrets` and a service account's `imagePullSecrets` are not part of the records, because the determiner never reads them.
- `DeterminePrune`: "no index is consulted for an unsupported kind" and "the budget loop stops at the first match" are internal to the method bodies (early returns). They are visible there, but no contract states them.
- Pod and service-account lists hold values, not pointers. A nil element, which would make the Go code panic, cannot be expressed.
- Concurrency is not modelled. The determiner is read-only after construction; the missing `modifies` clauses state this.
