/** The API objects the operator reads and writes, as values. */
module Api {
  import opened Wrappers

  type int32 = x: int | -0x8000_0000 <= x < 0x8000_0000

  const DEFAULT_CONTAINER: string := "mxnet"
  const DEFAULT_IMAGE: string := "stefanofioravanzo/mxnet:1.3.0"
  const DEFAULT_PORT: int32 := 9000
  const DEFAULT_REPLICAS: int32 := 1

  // ---------------------------------------------------------------- pods and services

  datatype EnvVar = EnvVar(name: string, value: string)
  datatype Volume = Volume(name: string, hostPath: string)
  datatype Mount = Mount(name: string, mountPath: string)
  datatype Container = Container(name: string, env: seq<EnvVar>, mounts: seq<Mount>,
                                 limits: set<string>, requests: set<string>)
  datatype Template = Template(volumes: seq<Volume>, containers: seq<Container>)

  datatype Termination = Termination(exitCode: int, reason: string)
  datatype ContainerState = ContainerState(running: bool, waiting: bool, terminated: Option<Termination>)
  datatype ContainerStatus = ContainerStatus(name: string, state: ContainerState, last: ContainerState)

  datatype PodPhase = PodPending | PodRunning | PodSucceeded | PodFailed

  type Labels = map<string, string>

  // The name and UID of the job an object belongs to.
  datatype Owner = Owner(name: string, uid: string)

  datatype Pod = Pod(labels: Labels, owner: Option<Owner>, scheduler: string, spec: Template,
                     phase: PodPhase, started: int, statuses: seq<ContainerStatus>)

  datatype Service = Service(labels: Labels, owner: Option<Owner>, selector: Labels, portName: string, port: int32)

  // The key of a namespaced object.
  datatype Ref = Ref(ns: string, name: string)

  // ---------------------------------------------------------------- jobs

  datatype ReplicaSpec = ReplicaSpec(replicas: Option<int32>, template: Option<Template>,
                                     port: Option<int32>, typ: string)
  datatype Chief = Chief(name: string, index: int)
  datatype Policy = Policy(chief: Option<Chief>)
  datatype JobSpec = JobSpec(runtimeId: string, replicaSpecs: seq<ReplicaSpec>, image: string,
                             policy: Option<Policy>, schedulerName: string)

  datatype Phase = NoPhase | Creating | Running | CleanUp | Failed | Done
  datatype State = NoState | UnknownState | RunningState | SucceededState | FailedState
  datatype ReplicaState = ReplicaUnknown | ReplicaRunning | ReplicaFailed | ReplicaSucceeded

  datatype SpecError =
    | NoChiefPolicy
    | MissingTemplate(at: nat)
    | NilPort(at: nat)
    | BadType(at: nat)
    | NoContainer(at: nat)
    | MissingChief(name: string)

  datatype ReplicaError = SchedulerNotSingle | ReplicaNilPort | ReplicaNilTemplate | ReplicaBadType

  // Status.Reason, by what it was printed from.
  datatype Reason =
    | Text(text: string)
    | InvalidSpec(error: SpecError)
    | AcceleratorError
    | CouldNotCreate(why: ReplicaError)

  datatype ReplicaStatus = ReplicaStatus(typ: string, state: ReplicaState, counts: map<ReplicaState, nat>)

  // A nil ReplicaStatuses slice is not the same as an empty one.
  datatype Status = Status(phase: Phase, reason: Reason, state: State, replicaStatuses: Option<seq<ReplicaStatus>>)

  datatype Job = Job(ref: Ref, uid: string, spec: JobSpec, status: Status)

  datatype AcceleratorVolume = AcceleratorVolume(name: string, hostPath: string, mountPath: string)
  datatype AcceleratorConfig = AcceleratorConfig(volumes: seq<AcceleratorVolume>, env: seq<EnvVar>)
  type Accelerators = map<string, AcceleratorConfig>
}
