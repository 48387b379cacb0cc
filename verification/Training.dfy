/** TrainingJob: setup, status persistence and Reconcile, as functions of the world and of the job's memory. */
module Training {
  import opened Wrappers
  import opened Api
  import opened Naming
  import opened Store
  import opened Loops
  import opened Replicas
  import opened Validation
  import opened AcceleratorSetup

  // What a TrainingJob holds: its copy of the stored job, the status to be persisted, and its replica sets.
  datatype Memory = Memory(job: Job, status: Status, replicas: seq<ReplicaSpec>)

  // The memory after a step, and how the step ended.
  datatype Turn = Turn(m: Memory, out: Outcome)

  function NewJob(job: Job): Memory
  {
    Memory(job, job.status, [])
  }

  function CtxOf(m: Memory): Ctx
  {
    Ctx(m.job.ref, m.job.uid, m.job.spec, m.replicas)
  }

  // ---------------------------------------------------------------- setup

  // The spec that setup leaves behind, and what went wrong; a spec that fails validation keeps its
  // defaults but gets no runtime id.
  function SetupSpec(spec: JobSpec, accelerators: Accelerators, order: Order, id: string): (JobSpec, Option<Reason>)
  {
    var s := WithDefaults(spec);
    var fault := Validate(s);
    if fault.Some? then (s, Some(InvalidSpec(fault.value)))
    else
      var (rs, ok) := ConfigureFrom(s.replicaSpecs, 0, accelerators, order);
      var s' := s.(replicaSpecs := rs);
      if !ok then (s', Some(AcceleratorError))
      else (s'.(runtimeId := if s'.runtimeId == "" then id else s'.runtimeId), None)
  }

  function Setup(env: Env, w: World, m: Memory, accelerators: Accelerators): Memory
  {
    if m.status.phase != NoPhase then m.(status := m.status.(phase := Creating, state := RunningState))
    else
      var (spec, fault) := SetupSpec(m.job.spec, accelerators, env.order, env.random(|w.trace|, 4));
      m.(job := m.job.(spec := spec),
         status := if fault.Some? then m.status.(reason := fault.value, phase := Failed, state := FailedState)
                   else m.status.(phase := Creating, state := RunningState))
  }

  datatype Check = Accepted | Refusal(why: ReplicaError) | NilReplicas

  // NewTFReplicaSet
  function CheckReplica(r: ReplicaSpec): Check
  {
    if r.typ == SCHEDULER && r.replicas.None? then NilReplicas
    else if r.typ == SCHEDULER && r.replicas.value != 1 then Refusal(SchedulerNotSingle)
    else if r.port.None? then Refusal(ReplicaNilPort)
    else if r.template.None? && r.typ != SERVER then Refusal(ReplicaNilTemplate)
    else if !ValidType(r.typ) then Refusal(ReplicaBadType)
    else Accepted
  }

  /** Which replica specs a set is made for, and what the others get, in the source's order of checks. */
  lemma ChecksByCondition(r: ReplicaSpec)
    ensures CheckReplica(r) == Accepted
       <==> && (r.typ == "SCHEDULER" ==> r.replicas == Some(1)) && r.port.Some?
            && (r.template.Some? || r.typ == "SERVER") && r.typ in {"SCHEDULER", "SERVER", "WORKER"}
    ensures CheckReplica(r) == NilReplicas <==> r.typ == "SCHEDULER" && r.replicas.None?
    ensures CheckReplica(r) == Refusal(SchedulerNotSingle)
       <==> r.typ == "SCHEDULER" && r.replicas.Some? && r.replicas.value != 1
    ensures CheckReplica(r) == Refusal(ReplicaNilPort)
       <==> (r.typ == "SCHEDULER" ==> r.replicas == Some(1)) && r.port.None?
    ensures CheckReplica(r) == Refusal(ReplicaNilTemplate)
       <==> (r.typ == "SCHEDULER" ==> r.replicas == Some(1)) && r.port.Some? && r.template.None? && r.typ != "SERVER"
    ensures CheckReplica(r) == Refusal(ReplicaBadType)
       <==> r.port.Some? && r.template.Some? && r.typ !in {"SCHEDULER", "SERVER", "WORKER"}
  {}

  datatype Built = Built(replicas: seq<ReplicaSpec>, out: Outcome, why: Option<ReplicaError>)

  // The replica sets made before the first spec that is refused.
  function BuildFrom(rs: seq<ReplicaSpec>, i: nat): (b: Built)
    requires i <= |rs|
    ensures b.replicas <= rs[i..]
    ensures b.out == Fine ==> b.replicas == rs[i..]
    ensures b.out != Fine ==> |b.replicas| < |rs| - i
    ensures b.out == Erred <==> b.why.Some?
    decreases |rs| - i
  {
    if i == |rs| then Built([], Fine, None)
    else
      match CheckReplica(rs[i])
      case NilReplicas => Built([], Panicked, None)
      case Refusal(e) => Built([], Erred, Some(e))
      case Accepted =>
        var b := BuildFrom(rs, i + 1);
        b.(replicas := [rs[i]] + b.replicas)
  }

  function SetupReplicas(m: Memory): (b: Built)
    ensures b.out == Erred <==> b.why.Some?
  {
    if |m.replicas| != |m.job.spec.replicaSpecs| then BuildFrom(m.job.spec.replicaSpecs, 0)
    else Built(m.replicas, Fine, None)
  }

  // ---------------------------------------------------------------- status persistence

  // The cached job takes the new status before the write, so a write that fails is not retried
  // until the status changes again.
  function UpdateCRD(env: Env, w: World, m: Memory): Ret<Turn>
  {
    if m.job.status == m.status then Ret(w, Turn(m, Fine))
    else
      var m' := m.(job := m.job.(status := m.status));
      var u := UpdateJob(env, w, m'.job);
      Ret(u.w, Turn(m', if u.v then Fine else Erred))
  }

  // ---------------------------------------------------------------- reconcile

  function Begin(env: Env, w: World, m: Memory, accelerators: Accelerators): Ret<Turn>
  {
    if m.job.status.phase == NoPhase then UpdateCRD(env, w, Setup(env, w, m, accelerators))
    else Ret(w, Turn(m, Fine))
  }

  function Prepare(env: Env, w: World, m: Memory): Ret<Turn>
  {
    var b := SetupReplicas(m);
    var m' := m.(replicas := b.replicas);
    match b.out
    case Fine => Ret(w, Turn(m', Fine))
    case Panicked => Ret(w, Turn(m', Panicked))
    case Erred =>
      var u := UpdateCRD(env, w, m'.(status := m'.status.(reason := CouldNotCreate(b.why.value))));
      Ret(u.w, Turn(u.v.m, Erred))
  }

  function Push(env: Env, w: World, m: Memory): Ret<Turn>
  {
    var pods := SyncAllPods(env, w, CtxOf(m), 0);
    if pods.v == Panicked then Ret(pods.w, Turn(m, Panicked))
    else UpdateCRD(env, SyncAllServices(env, pods.w, CtxOf(m), 0), m)
  }

  function JobState(chief: ReplicaState): State
  {
    match chief
    case ReplicaRunning => RunningState
    case ReplicaFailed => FailedState
    case ReplicaSucceeded => SucceededState
    case ReplicaUnknown => UnknownState
  }

  function NextStatus(status: Status, state: State, replicaStatuses: seq<ReplicaStatus>): Status
  {
    var s := status.(replicaStatuses := Some(replicaStatuses));
    match state
    case FailedState => s.(phase := Done, state := FailedState)
    case SucceededState => s.(phase := Done, state := SucceededState)
    case RunningState => s.(phase := Running, state := RunningState)
    case _ => s
  }

  // GetStatus needs a chief to compare with as soon as there is a replica set.
  predicate ChiefReadable(c: Ctx)
  {
    c.spec.policy.Some? && (c.replicas != [] ==> c.spec.policy.value.chief.Some?)
  }

  function GetStatus(env: Env, w: World, c: Ctx): Ret<Reading>
    requires ChiefReadable(c)
  {
    if c.replicas == [] then Ret(w, Reading(ReplicaUnknown, []))
    else ReadAll(env, w, c, c.spec.policy.value.chief.value, 0, ReplicaUnknown)
  }

  function Observe(env: Env, w: World, m: Memory): Ret<Turn>
  {
    if !ChiefReadable(CtxOf(m)) then Ret(w, Turn(m, Panicked))
    else
      var read := GetStatus(env, w, CtxOf(m));
      UpdateCRD(env, read.w, m.(status := NextStatus(m.status, JobState(read.v.chief), read.v.statuses)))
  }

  function Finish(env: Env, w: World, m: Memory): Ret<Turn>
  {
    if m.job.status.phase == CleanUp then Ret(DeleteAll(env, w, CtxOf(m), 0).w, Turn(m, Fine))
    else UpdateCRD(env, w, m)
  }

  // Everything after the replica sets are built.
  function Proceed(env: Env, w: World, m: Memory): Ret<Turn>
  {
    var d := Push(env, w, m);
    if d.v.out != Fine then d else
    var e := Observe(env, d.w, d.v.m);
    if e.v.out != Fine then e else
    Finish(env, e.w, e.v.m)
  }

  // Everything after the first status write.
  function Rest(env: Env, w: World, m: Memory): Ret<Turn>
  {
    var b := Prepare(env, w, m);
    if b.v.out != Fine then b else Proceed(env, b.w, b.v.m)
  }

  function Reconcile(env: Env, w: World, m: Memory, accelerators: Accelerators): Ret<Turn>
  {
    var a := Begin(env, w, m, accelerators);
    if a.v.out != Fine then a else Rest(env, a.w, a.v.m)
  }
}
