/** The slice of the Kubernetes object model that the prune determiner reads:
    pods (their containers, environment and volumes), service accounts,
    pod disruption budgets and the generic resource descriptor of the CLI
    runtime. Every optional pointer of the Go API becomes an Option; a
    reference to another object is kept only as the fields that the
    determiner can observe. */
module Kube {

  datatype Option<+T> = None | Some(value: T)

  /** Failures the determiner can return. Fetch and conversion failures come
      from collaborators and are passed on unchanged; the last two are made
      by the determiner itself. */
  datatype Error =
    | FetchError(reason: string)
    | VisitError(reason: string)
    | ConversionError(reason: string)
    | SelectorError(pdbName: string, reason: string)
    | UnsupportedKind(kind: string, name: string)

  datatype Result<+T> = Ok(value: T) | Err(error: Error)

  /** A label set, `labels.Set` in Go. */
  type Labels = map<string, string>

  /** `ConfigMapKeySelector` / `SecretKeySelector`: a key of a named object. */
  datatype KeySelector = KeySelector(name: string, key: string)

  /** `EnvFromSource`: the names of the ConfigMap and Secret it imports, if any. */
  datatype EnvFromSource = EnvFromSource(configMapRef: Option<string>, secretRef: Option<string>)

  /** `EnvVarSource`: where the value of one environment variable comes from. */
  datatype EnvVarSource = EnvVarSource(configMapKeyRef: Option<KeySelector>, secretKeyRef: Option<KeySelector>)

  /** `EnvVar`: a literal value or a `valueFrom` source. */
  datatype EnvVar = EnvVar(name: string, value: string, valueFrom: Option<EnvVarSource>)

  datatype Container = Container(name: string, envFrom: seq<EnvFromSource>, env: seq<EnvVar>)

  /** `VolumeProjection`: one source of a projected volume. */
  datatype VolumeProjection = VolumeProjection(configMap: Option<string>, secret: Option<string>)

  /** `Volume` with the four sources the determiner looks at: the ConfigMap
      name, the Secret's `SecretName`, the claim's `ClaimName` and the
      sources of a projected volume. */
  datatype Volume = Volume(
    name: string,
    configMap: Option<string>,
    secret: Option<string>,
    persistentVolumeClaim: Option<string>,
    projected: Option<seq<VolumeProjection>>)

  /** `Pod`: metadata labels, `Spec.Containers`, `Spec.Volumes` and `Status.Phase`. */
  datatype Pod = Pod(
    name: string,
    labels: Labels,
    containers: seq<Container>,
    volumes: seq<Volume>,
    phase: string)

  /** `corev1.PodRunning`. */
  const PodRunning: string := "Running"

  /** `ObjectReference` as listed in a service account's `Secrets`. */
  datatype ObjectReference = ObjectReference(namespace: string, name: string)

  datatype ServiceAccount = ServiceAccount(name: string, secrets: seq<ObjectReference>)

  /** `metav1.LabelSelector`, kept uninterpreted: only the selector compiler
      of the API machinery gives it a meaning. */
  datatype Requirement = Requirement(key: string, operator: string, values: seq<string>)
  datatype LabelSelector = LabelSelector(matchLabels: map<string, string>, matchExpressions: seq<Requirement>)

  /** `PodDisruptionBudget`; `Spec.Selector` is a pointer and may be nil. */
  datatype PodDisruptionBudget = PodDisruptionBudget(name: string, selector: Option<LabelSelector>)

  /** A compiled selector: either the parse error or the match predicate. */
  datatype Selector = InvalidSelector(reason: string) | Compiled(matches: Labels -> bool)

  /** `resource.Info`: the kind read from the object's GroupVersionKind, its
      name and namespace, and the object itself as an opaque payload. */
  datatype Info = Info(kind: string, namespace: string, name: string, object: string)

  /** The foreign conversions the decision relies on: `infoToPod`,
      `infoToPodDisruptionBudget` and `metav1.LabelSelectorAsSelector`. */
  datatype Collaborators = Collaborators(
    infoToPod: Info -> Result<Pod>,
    infoToPodDisruptionBudget: Info -> Result<PodDisruptionBudget>,
    labelSelectorAsSelector: Option<LabelSelector> -> Selector)
}
