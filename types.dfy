/** Records shared by the binding matcher, the patch builder and the admission handler.
    They follow the Go shapes of pkg/apis/vaultwebhook.uswitch.com/v1alpha1/types.go and
    the parts of the Kubernetes core/v1 Pod that the webhook reads or writes. */
module Types {

  datatype Option<+T> = None | Some(value: T)

  /** The outcome of a call that returns a value or a Go `error` (only its message is kept). */
  datatype Result<+T> = Ok(value: T) | Err(message: string)

  // Lifecycle hooks a binding may carry in its `container` override.
  datatype ExecAction = ExecAction(command: seq<string>)
  datatype SleepAction = SleepAction(seconds: int)
  datatype LifecycleHandler = LifecycleHandler(exec: Option<ExecAction>, sleep: Option<SleepAction>)
  datatype Lifecycle = Lifecycle(preStop: Option<LifecycleHandler>)

  /** The `container` field of a binding's spec: only a lifecycle. */
  datatype ContainerOverride = ContainerOverride(lifecycle: Lifecycle)

  /** A DatabaseCredentialBinding: its namespace (from the object metadata) and its spec. */
  datatype Binding = Binding(
    namespace: string,
    database: string,
    role: string,
    outputPath: string,
    outputFile: string,
    serviceAccount: string,
    container: ContainerOverride)

  /** One matched credential, the unit the patch builder works on. */
  datatype Database = Database(
    database: string,
    role: string,
    outputPath: string,
    outputFile: string,
    vaultContainer: ContainerOverride)

  /** The fields two matched credentials are compared on; the container override is not one. */
  datatype DatabaseKey = DatabaseKey(role: string, database: string, outputPath: string, outputFile: string)

  function Key(d: Database): DatabaseKey {
    DatabaseKey(d.role, d.database, d.outputPath, d.outputFile)
  }

  /** The remaining fields of a volume mount: read-only, sub-path, sub-path expression and
      mount propagation (absent when unset). Two mounts are equal only when these agree too. */
  datatype MountOptions = MountOptions(readOnly: bool, subPath: string, subPathExpr: string,
                                       mountPropagation: Option<string>)

  /** The options of a mount that sets none of them. */
  const PlainMount := MountOptions(false, "", "", None)

  datatype VolumeMount = VolumeMount(name: string, mountPath: string, options: MountOptions)

  datatype VolumeSource = EmptyDir | OtherSource(kind: string)

  datatype Volume = Volume(name: string, source: VolumeSource)

  /** An environment variable whose value is read from a field of the Pod. */
  datatype EnvVar = EnvVar(name: string, fieldPath: string)

  /** Resource requests and limits, quantities kept as their literal text. */
  datatype Resources = Resources(requests: map<string, string>, limits: map<string, string>)

  datatype Container = Container(
    name: string,
    image: string,
    imagePullPolicy: string,
    args: seq<string>,
    env: seq<EnvVar>,
    resources: Resources,
    volumeMounts: seq<VolumeMount>)

  /** The parts of a decoded Pod the webhook uses; `ownerKinds` lists the kinds of its
      owner references, in order. */
  datatype PodValue = PodValue(
    serviceAccountName: string,
    ownerKinds: seq<string>,
    volumes: seq<Volume>,
    containers: seq<Container>,
    initContainers: seq<Container>)

  /** The `value` of a patch operation: the webhook only ever sends these three shapes. */
  datatype PatchValue =
    | VolumeList(volumes: seq<Volume>)
    | SingleVolume(volume: Volume)
    | ContainerList(containers: seq<Container>)

  datatype PatchOp = PatchOp(op: string, path: string, value: PatchValue)

  /** Process-wide settings fixed at start-up. `secretPath` stands for formatting the
      configured secret-path format with the database and then the role. */
  datatype Config = Config(
    sidecarImage: string,
    vaultAddr: string,
    gatewayAddr: string,
    vaultCaPath: string,
    loginPath: string,
    secretPath: (string, string) -> string)
}
