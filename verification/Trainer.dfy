/** MXReplicaSet and TrainingJob as objects that change in place. Every method is proved to do to the
cluster and to the object's own fields what its function in Replicas or Training says. */
module Trainer {
  import opened Wrappers
  import opened Api
  import opened Naming
  import opened Store
  import opened Loops
  import opened Replicas
  import opened PodStatus
  import opened Training
  import opened Validation
  import opened AcceleratorSetup
  import opened ClusterClient
  import opened Passes
  import opened Created
  import opened PassResults
  import Rendezvous
  import SetupSoundness

  // ---------------------------------------------------------------- loops that collect, one turn at a time

  // What was read before, put in front of what is read from now on.
  function Preceded(states: seq<ReplicaState>, rest: Ret<seq<ReplicaState>>): Ret<seq<ReplicaState>>
  {
    Ret(rest.w, states + rest.v)
  }

  lemma ReadSetTurn(env: Env, w: World, c: Ctx, r: ReplicaSpec, index: nat, states: seq<ReplicaState>)
    requires index < Size(r)
    ensures var one := ReadReplica(env, w, c, r, index);
            Preceded(states, ReadSet(env, w, c, r, index)) ==
            Preceded(states + [one.v], ReadSet(env, one.w, c, r, index + 1))
  {
    var one := ReadReplica(env, w, c, r, index);
    var rest := ReadSet(env, one.w, c, r, index + 1);
    assert states + ([one.v] + rest.v) == (states + [one.v]) + rest.v;
  }

  lemma TallyTurn(states: seq<ReplicaState>, s: ReplicaState)
    ensures var t := Tally(states); Tally(states + [s]) == t[s := if s in t then t[s] + 1 else 1]
  {
    assert (states + [s])[..|states|] == states;
  }

  function PrecededReading(statuses: seq<ReplicaStatus>, rest: Ret<Reading>): Ret<Reading>
  {
    Ret(rest.w, Reading(rest.v.chief, statuses + rest.v.statuses))
  }

  lemma ReadAllSplits(env: Env, w: World, c: Ctx, chief: Chief, k: nat, state: ReplicaState)
    requires k < |c.replicas|
    ensures var r := c.replicas[k];
            var read := ReadSet(env, w, c, r, 0);
            var own := ReadChief(env, read.w, c, r, chief, state);
            ReadAll(env, w, c, chief, k, state) ==
            PrecededReading([StatusOf(r.typ, read.v)], ReadAll(env, own.w, c, chief, k + 1, own.v))
  {}

  lemma PrecededTwice(statuses: seq<ReplicaStatus>, status: ReplicaStatus, rest: Ret<Reading>)
    ensures PrecededReading(statuses, PrecededReading([status], rest)) == PrecededReading(statuses + [status], rest)
  {
    assert statuses + ([status] + rest.v.statuses) == (statuses + [status]) + rest.v.statuses;
  }

  lemma ReadAllTurn(env: Env, w: World, c: Ctx, chief: Chief, k: nat, state: ReplicaState, statuses: seq<ReplicaStatus>,
                    w': World, state': ReplicaState)
    requires k < |c.replicas|
    requires var r := c.replicas[k]; Ret(w', state') == ReadChief(env, ReadSet(env, w, c, r, 0).w, c, r, chief, state)
    ensures var status := StatusOf(c.replicas[k].typ, ReadSet(env, w, c, c.replicas[k], 0).v);
            PrecededReading(statuses, ReadAll(env, w, c, chief, k, state))
            == PrecededReading(statuses + [status], ReadAll(env, w', c, chief, k + 1, state'))
  {
    var status := StatusOf(c.replicas[k].typ, ReadSet(env, w, c, c.replicas[k], 0).v);
    ReadAllSplits(env, w, c, chief, k, state);
    PrecededTwice(statuses, status, ReadAll(env, w', c, chief, k + 1, state'));
  }

  // The answer after more deletions, if these went well or not.
  function PrecededAnswer(ok: bool, rest: Ret<bool>): Ret<bool>
  {
    Ret(rest.w, ok && rest.v)
  }

  lemma DeleteServicesTurn(env: Env, w: World, c: Ctx, r: ReplicaSpec, index: nat, ok: bool, one: Ret<bool>)
    requires index < Size(r) && one == DeleteService(env, w, Replicas.RefOf(c, r.typ, index))
    ensures PrecededAnswer(ok, DeleteServices(env, w, c, r, index))
         == PrecededAnswer(ok && one.v, DeleteServices(env, one.w, c, r, index + 1))
  {}

  function PrecededBuilt(sets: seq<ReplicaSpec>, rest: Built): Built
  {
    rest.(replicas := sets + rest.replicas)
  }

  lemma BuildTurn(rs: seq<ReplicaSpec>, i: nat, sets: seq<ReplicaSpec>)
    requires i < |rs|
    ensures PrecededBuilt(sets, BuildFrom(rs, i))
         == match CheckReplica(rs[i])
            case NilReplicas => Built(sets, Panicked, None)
            case Refusal(e) => Built(sets, Erred, Some(e))
            case Accepted => PrecededBuilt(sets + [rs[i]], BuildFrom(rs, i + 1))
  {
    assert sets + [] == sets;
    if CheckReplica(rs[i]) == Accepted {
      assert sets + ([rs[i]] + BuildFrom(rs, i + 1).replicas) == (sets + [rs[i]]) + BuildFrom(rs, i + 1).replicas;
    }
  }

  // ---------------------------------------------------------------- objects

  function SpecsOf(sets: seq<MXReplicaSet>): (specs: seq<ReplicaSpec>)
    ensures |specs| == |sets| && forall i :: 0 <= i < |sets| ==> specs[i] == sets[i].spec
  {
    seq(|sets|, i requires 0 <= i < |sets| => sets[i].spec)
  }

  lemma SpecsOfMore(sets: seq<MXReplicaSet>, r: MXReplicaSet)
    ensures SpecsOf(sets + [r]) == SpecsOf(sets) + [r.spec]
  {}

  class MXReplicaSet {
    const cluster: Cluster
    const job: TrainingJob
    const spec: ReplicaSpec

    constructor (cluster: Cluster, job: TrainingJob, spec: ReplicaSpec)
      ensures this.cluster == cluster && this.job == job && this.spec == spec
    {
      this.cluster := cluster;
      this.job := job;
      this.spec := spec;
    }

    // NewTFReplicaSet: the set, or null with what is wrong with its spec.
    static method New(cluster: Cluster, job: TrainingJob, spec: ReplicaSpec) returns (check: Check, r: MXReplicaSet?)
      ensures check == CheckReplica(spec) && (r == null <==> check != Accepted)
      ensures r != null ==> fresh(r) && r.cluster == cluster && r.job == job && r.spec == spec
    {
      r := null;
      if spec.typ == SCHEDULER {
        if spec.replicas.None? {
          return NilReplicas, null;
        }
        if spec.replicas.value != 1 {
          return Refusal(SchedulerNotSingle), null;
        }
      }
      if spec.port.None? {
        return Refusal(ReplicaNilPort), null;
      }
      if spec.template.None? && spec.typ != SERVER {
        return Refusal(ReplicaNilTemplate), null;
      }
      if !ValidType(spec.typ) {
        return Refusal(ReplicaBadType), null;
      }
      r := new MXReplicaSet(cluster, job, spec);
      check := Accepted;
    }

    // One of the sets its job holds.
    ghost predicate Attached()
      reads job
    {
      this in job.replicas && job.Valid()
    }

    function Labels(): Labels
      reads job
    {
      SetLabels(job.job.ref.name, job.job.spec.runtimeId, spec.typ)
    }

    function GenName(index: int): string
      reads job
    {
      Naming.GenName(job.job.ref.name, spec.typ, job.job.spec.runtimeId, index)
    }

    function RefOf(index: int): Ref
      reads job
    {
      Ref(job.job.ref.ns, GenName(index))
    }

    function TaskLabels(index: int): Labels
      reads job
    {
      Labels()[INDEX_LABEL := Decimal(index)]
    }

    // The numbers of workers and servers; none if the number of some set is nil.
    method CountRoles() returns (counts: Option<(int, int)>)
      ensures counts.None? <==> UnsizedRole(job.Specs())
      ensures counts.Some? ==> counts.value == (SizeOfType(job.Specs(), WORKER), SizeOfType(job.Specs(), SERVER))
    {
      var numWorkers, numServers := 0, 0;
      ghost var specs := job.Specs();
      for k := 0 to |job.replicas|
        invariant numWorkers == SizeOfType(specs[..k], WORKER) && numServers == SizeOfType(specs[..k], SERVER)
        invariant forall i :: 0 <= i < k && specs[i].replicas.None? ==> specs[i].typ != SERVER && specs[i].typ != WORKER
      {
        var c := job.replicas[k];
        assert specs[..k + 1][..k] == specs[..k] && specs[..k + 1][k] == c.spec;
        if c.spec.typ == WORKER {
          if c.spec.replicas.None? {
            return None;
          }
          numWorkers := c.spec.replicas.value;
        }
        if c.spec.typ == SERVER {
          if c.spec.replicas.None? {
            return None;
          }
          numServers := c.spec.replicas.value;
        }
      }
      assert specs[..|specs|] == specs;
      counts := Some((numWorkers, numServers));
    }

    // A container's variables with the six for rendezvous appended.
    method WithVariables(before: seq<EnvVar>, numWorkers: int, numServers: int) returns (env: seq<EnvVar>)
      requires Attached()
      requires numWorkers == SizeOfType(job.Specs(), WORKER) && numServers == SizeOfType(job.Specs(), SERVER)
      ensures env == before + DmlcEnv(job.Context(), spec)
    {
      env := before;
      env := env + [EnvVar("DMLC_ROLE", Lower(spec.typ))];
      env := env + [EnvVar("DMLC_PS_ROOT_URI", job.replicas[0].GenName(0))];
      env := env + [EnvVar("DMLC_PS_ROOT_PORT", Decimal(spec.port.value))];
      env := env + [EnvVar("DMLC_NUM_SERVER", Decimal(numServers))];
      env := env + [EnvVar("DMLC_NUM_WORKER", Decimal(numWorkers))];
      env := env + [EnvVar("PS_VERBOSE", "2")];
    }

    // The containers of a new pod, each mxnet container with its rendezvous variables; none on a nil dereference.
    method EquippedContainers(template: Template) returns (out: Option<seq<Container>>)
      requires Attached()
      ensures out.None? <==> HasDefaultContainer(template) && UnsizedRole(job.Specs())
      ensures out.Some? ==> out.value == EquipAll(template.containers, DmlcEnv(job.Context(), spec))
      ensures out.Some? ==> ContainersMade(job.Context(), spec, template.containers, out.value)
    {
      var containers := template.containers;
      var cs := containers;
      ghost var dmlc := DmlcEnv(job.Context(), spec);
      for i := 0 to |containers|
        invariant |cs| == |containers|
        invariant forall k :: 0 <= k < |cs| ==> cs[k] == if k < i then Equip(containers[k], dmlc) else containers[k]
        invariant UnsizedRole(job.Specs()) ==> forall k :: 0 <= k < i ==> containers[k].name != DEFAULT_CONTAINER
      {
        var c := cs[i];
        if c.name != DEFAULT_CONTAINER {
          continue;
        }
        var counts := CountRoles();
        if counts.None? {
          return None;
        }
        var env := WithVariables(c.env, counts.value.0, counts.value.1);
        cs := cs[i := c.(env := env)];
      }
      assert cs == EquipAll(containers, dmlc);
      AllEquippedAreMade(job.Context(), spec, containers);
      out := Some(cs);
    }

    method CreatePodWithIndex(index: nat) returns (reply: Option<CreateReply>)
      requires Attached()
      modifies cluster
      ensures reply.None? <==> PodPanics(job.Context(), spec)
      ensures reply.None? ==> cluster.world == old(cluster.world)
      ensures reply.Some? ==>
                var name := GenPodName(job.job.ref.name, spec.typ, job.job.spec.runtimeId, index,
                                       cluster.env.random(|old(cluster.world).trace|, 5));
                Ret(cluster.world, reply.value)
                == Store.CreatePod(cluster.env, old(cluster.world), Ref(job.job.ref.ns, name),
                                   BuildPod(job.Context(), spec, index))
      ensures reply == Some(Created) ==>
                exists ref, pod :: && PodShaped(cluster.env, job.Context(), spec, index, ref, pod)
                                   && ref in cluster.world.pods && cluster.world.pods[ref] == pod
    {
      var taskLabels := TaskLabels(index);
      var name := GenName(index) + "-" + cluster.env.random(|cluster.world.trace|, 5);
      if spec.template.None? {
        return None;
      }
      var containers := EquippedContainers(spec.template.value);
      if containers.None? {
        return None;
      }
      var pod := Pod(taskLabels, Some(Owner(job.job.ref.name, job.job.uid)), job.job.spec.schedulerName,
                     spec.template.value.(containers := containers.value), PodPending, 0, []);
      assert pod == BuildPod(job.Context(), spec, index);
      BuiltIsShaped(cluster.env, job.Context(), spec, index, |cluster.world.trace|);
      var created := cluster.CreatePod(Ref(job.job.ref.ns, name), pod);
      reply := Some(created);
    }

    // The body of the loop in SyncPods.
    method SyncPod(index: nat) returns (out: Outcome)
      requires Attached()
      modifies cluster
      ensures Ret(cluster.world, out) == SyncPodAt(cluster.env, old(cluster.world), job.Context(), spec, index)
    {
      cluster.Look();
      var pl := cluster.ListPods(job.job.ref.ns, TaskLabels(index), true);
      if pl.None? || pl.value == [] {
        var created := CreatePodWithIndex(index);
        if created.None? {
          return Panicked;
        }
        if created.value == CreateFailed {
          return Erred;
        }
      }
      out := Fine;
    }

    method SyncPods() returns (out: Outcome)
      requires Attached()
      modifies cluster
      ensures Ret(cluster.world, out) == Replicas.SyncPods(cluster.env, old(cluster.world), job.Context(), spec)
    {
      if spec.replicas.None? {
        return Panicked;
      }
      ghost var c, w0 := job.Context(), cluster.world;
      ghost var turn := PodTurn(cluster.env, c, spec);
      var index: nat := 0;
      while index < spec.replicas.value
        invariant Loop(turn, w0, 0, Size(spec)) == Loop(turn, cluster.world, index, Size(spec))
      {
        out := SyncPod(index);
        if out != Fine {
          return;
        }
        index := index + 1;
      }
      out := Fine;
    }

    method CreateServiceWithIndex(index: nat) returns (reply: CreateReply)
      requires Attached()
      modifies cluster
      ensures Ret(cluster.world, reply)
           == Store.CreateService(cluster.env, old(cluster.world), RefOf(index),
                                  BuildService(job.Context(), spec, index))
    {
      var taskLabels := TaskLabels(index);
      var service := Service(taskLabels, Some(Owner(job.job.ref.name, job.job.uid)), taskLabels, "mx-port",
                             spec.port.value);
      reply := cluster.CreateService(RefOf(index), service);
    }

    // The body of the loop in SyncServices.
    method SyncService(index: nat) returns (out: Outcome)
      requires Attached()
      modifies cluster
      ensures Ret(cluster.world, out) == SyncServiceAt(cluster.env, old(cluster.world), job.Context(), spec, index)
    {
      var got := cluster.GetService(RefOf(index));
      if got == NotFound {
        var created := CreateServiceWithIndex(index);
        if created == CreateFailed {
          return Erred;
        }
      }
      out := Fine;
    }

    // The nil check is made by SyncPods, which runs first.
    method SyncServices() returns (out: Outcome)
      requires Attached() && spec.replicas.Some?
      modifies cluster
      ensures Ret(cluster.world, out) == Replicas.SyncServices(cluster.env, old(cluster.world), job.Context(), spec)
    {
      ghost var c, w0 := job.Context(), cluster.world;
      ghost var turn := ServiceTurn(cluster.env, c, spec);
      var index: nat := 0;
      while index < spec.replicas.value
        invariant Loop(turn, w0, 0, Size(spec)) == Loop(turn, cluster.world, index, Size(spec))
      {
        out := SyncService(index);
        if out != Fine {
          return;
        }
        index := index + 1;
      }
      out := Fine;
    }

    method GetSingleReplicaStatus(index: int) returns (state: ReplicaState)
      requires Attached()
      modifies cluster
      ensures Ret(cluster.world, state) == ReadReplica(cluster.env, old(cluster.world), job.Context(), spec, index)
    {
      var p := cluster.GetPod(RefOf(index));
      if p.None? {
        return ReplicaUnknown;
      }
      if p.value.phase == PodSucceeded {
        return ReplicaSucceeded;
      }
      var l := cluster.ListPods(job.job.ref.ns, TaskLabels(index), false);
      if l.None? {
        return ReplicaFailed;
      }
      state := ReplicaStatusFromPodList(l.value, DEFAULT_CONTAINER);
    }

    method GetStatus() returns (status: ReplicaStatus)
      requires Attached() && spec.replicas.Some?
      modifies cluster
      ensures var read := ReadSet(cluster.env, old(cluster.world), job.Context(), spec, 0);
              cluster.world == read.w && status == StatusOf(spec.typ, read.v)
    {
      ghost var c, env, states := job.Context(), cluster.env, [];
      ghost var read := ReadSet(env, cluster.world, c, spec, 0);
      assert states + read.v == read.v;
      var counts: map<ReplicaState, nat> := map[];
      var index: nat := 0;
      while index < spec.replicas.value
        invariant counts == Tally(states) && |states| == index && (index <= spec.replicas.value || index == 0)
        invariant read == Preceded(states, ReadSet(env, cluster.world, c, spec, index))
      {
        ReadSetTurn(env, cluster.world, c, spec, index, states);
        var state := GetSingleReplicaStatus(index);
        counts := counts[state := if state in counts then counts[state] + 1 else 1];
        TallyTurn(states, state);
        states := states + [state];
        index := index + 1;
      }
      assert states + [] == states;
      var overall := SetState(counts, spec.replicas.value, states);
      status := ReplicaStatus(spec.typ, overall, counts);
    }

    // The services of the set, one by one.
    method DeleteServices() returns (ok: bool)
      requires Attached() && spec.replicas.Some?
      modifies cluster
      ensures Ret(cluster.world, ok) == Replicas.DeleteServices(cluster.env, old(cluster.world), job.Context(), spec, 0)
    {
      ghost var c, env := job.Context(), cluster.env;
      ghost var services := Replicas.DeleteServices(env, cluster.world, c, spec, 0);
      ok := true;
      var index: nat := 0;
      while index < spec.replicas.value
        invariant services == PrecededAnswer(ok, Replicas.DeleteServices(env, cluster.world, c, spec, index))
      {
        ghost var w := cluster.world;
        var gone := cluster.DeleteService(RefOf(index));
        DeleteServicesTurn(env, w, c, spec, index, ok, Ret(cluster.world, gone));
        if !gone {
          ok := false;
        }
        index := index + 1;
      }
    }

    method DeleteDefaultConfigMap() returns (ok: bool)
      requires Attached()
      modifies cluster
      ensures Ret(cluster.world, ok) == Replicas.DeleteDefaultConfigMap(cluster.env, old(cluster.world), job.Context())
    {
      var cm := Ref(job.job.ref.ns, "cm-ps-" + job.job.spec.runtimeId);
      var got := cluster.GetConfigMap(cm);
      if got == GetFailed {
        return false;
      }
      ok := true;
      if got == Found {
        ok := cluster.DeleteConfigMap(cm);
      }
    }

    method Delete() returns (ok: bool)
      requires Attached() && spec.replicas.Some?
      modifies cluster
      ensures Ret(cluster.world, ok) == DeleteSet(cluster.env, old(cluster.world), job.Context(), spec)
    {
      var ns, selector := job.job.ref.ns, Labels();
      var failures := false;
      var gone := cluster.DeletePods(ns, selector);
      if !gone {
        failures := true;
      }
      gone := cluster.DeletePods(ns, selector);
      if !gone {
        failures := true;
      }
      gone := DeleteServices();
      if !gone {
        failures := true;
      }
      gone := DeleteDefaultConfigMap();
      if !gone {
        failures := true;
      }
      ok := !failures;
    }
  }

  class TrainingJob {
    const cluster: Cluster
    var job: Job
    var status: Status
    var replicas: seq<MXReplicaSet>

    constructor (cluster: Cluster, job: Job)
      ensures this.cluster == cluster && Valid() && Mem() == NewJob(job)
    {
      this.cluster := cluster;
      this.job := job;
      this.status := job.status;
      this.replicas := [];
    }

    function Specs(): (specs: seq<ReplicaSpec>)
      reads this`replicas
      ensures |specs| == |replicas| && forall i :: 0 <= i < |replicas| ==> specs[i] == replicas[i].spec
    {
      SpecsOf(replicas)
    }

    // All the job remembers, as a value.
    function Mem(): Memory
      reads this
    {
      Memory(job, status, Specs())
    }

    function Context(): Ctx
      reads this
    {
      CtxOf(Mem())
    }

    // The sets are the job's own and were accepted.
    ghost predicate Valid()
      reads this
    {
      forall r <- replicas :: r.cluster == cluster && r.job == this && CheckReplica(r.spec) == Accepted
    }

    method Setup(accelerators: Accelerators)
      modifies this`job, this`status
      ensures Mem() == Training.Setup(cluster.env, cluster.world, old(Mem()), accelerators)
      ensures forall d :: old(status).phase == NoPhase && HasDefaults(old(job).spec, d) && Validate(d).Some? ==>
                job.spec == d && status == old(status).(reason := InvalidSpec(Validate(d).value), phase := Failed,
                                                        state := FailedState)
      ensures forall d :: old(status).phase == NoPhase && HasDefaults(old(job).spec, d) && Validate(d).None? ==>
                status == old(status).(phase := Creating, state := RunningState)
      ensures old(status).phase != NoPhase ==>
                job == old(job) && status == old(status).(phase := Creating, state := RunningState)
    {
      var err: Option<Reason> := None;
      if status.phase == NoPhase {
        var spec := SetDefaults(job.spec);
        job := job.(spec := spec);
        var fault := ValidateTFJobSpec(spec);
        if fault.Some? {
          err := Some(InvalidSpec(fault.value));
        } else {
          var rs, ok := ConfigureAccelerators(spec.replicaSpecs, accelerators, cluster.env.order);
          job := job.(spec := spec.(replicaSpecs := rs));
          if !ok {
            err := Some(AcceleratorError);
          } else if job.spec.runtimeId == "" {
            job := job.(spec := job.spec.(runtimeId := cluster.env.random(|cluster.world.trace|, 4)));
          }
        }
      }
      if err.Some? {
        status := status.(reason := err.value, phase := Failed, state := FailedState);
      } else {
        status := status.(phase := Creating, state := RunningState);
      }
      SetupSoundness.SetupByValue(cluster.env, cluster.world, old(Mem()), accelerators);
      forall d | HasDefaults(old(job).spec, d)
        ensures d == WithDefaults(old(job).spec)
      {
        DefaultsByValue(old(job).spec, d);
      }
    }

    method SetupReplicas() returns (out: Outcome, why: Option<ReplicaError>)
      requires Valid()
      modifies this`replicas
      ensures Valid()
      ensures var b := Training.SetupReplicas(old(Mem()));
              Mem() == old(Mem()).(replicas := b.replicas) && out == b.out && why == b.why
      ensures |old(replicas)| == |job.spec.replicaSpecs| ==> replicas == old(replicas)
    {
      if |replicas| == |job.spec.replicaSpecs| {
        return Fine, None;
      }
      var specs := job.spec.replicaSpecs;
      ghost var b := BuildFrom(specs, 0);
      replicas := [];
      assert Specs() + b.replicas == b.replicas;
      for i := 0 to |specs|
        invariant Valid() && job == old(job) && status == old(status)
        invariant b == PrecededBuilt(Specs(), BuildFrom(specs, i))
      {
        BuildTurn(specs, i, Specs());
        var check, r := MXReplicaSet.New(cluster, this, specs[i]);
        if check == NilReplicas {
          return Panicked, None;
        }
        if r == null {
          return Erred, Some(check.why);
        }
        SpecsOfMore(replicas, r);
        replicas := replicas + [r];
      }
      assert Specs() + [] == Specs();
      return Fine, None;
    }

    method UpdateCRDStatus() returns (ok: bool)
      modifies this`job, cluster
      ensures Ret(cluster.world, Turn(Mem(), if ok then Fine else Erred))
           == UpdateCRD(cluster.env, old(cluster.world), old(Mem()))
    {
      if job.status == status {
        return true;
      }
      job := job.(status := status);
      ok := cluster.UpdateJob(job);
    }

    method GetStatus() returns (out: Outcome, reading: Reading)
      requires Valid() && forall r <- replicas :: r.spec.replicas.Some?
      modifies cluster
      ensures out == Fine || out == Panicked
      ensures out == Fine <==> ChiefReadable(Context())
      ensures out == Fine ==>
                Ret(cluster.world, reading) == Training.GetStatus(cluster.env, old(cluster.world), Context())
      ensures out == Fine ==> Reports(Specs(), reading.statuses)
      ensures out == Panicked ==> cluster.world == old(cluster.world)
    {
      reading := Reading(ReplicaUnknown, []);
      if job.spec.policy.None? {
        return Panicked, reading;
      }
      if ChiefReadable(Context()) {
        GetStatusReports(cluster.env, cluster.world, Context());
      }
      if replicas == [] {
        return Fine, reading;
      }
      if job.spec.policy.value.chief.None? {
        return Panicked, reading;
      }
      var chief := job.spec.policy.value.chief.value;
      var chiefState, statuses := ReplicaUnknown, [];
      ghost var c, env := Context(), cluster.env;
      ghost var read := ReadAll(env, cluster.world, c, chief, 0, ReplicaUnknown);
      assert statuses + read.v.statuses == read.v.statuses;
      for k := 0 to |replicas|
        invariant read == PrecededReading(statuses, ReadAll(env, cluster.world, c, chief, k, chiefState))
      {
        var r := replicas[k];
        ghost var w, before := cluster.world, chiefState;
        var rStatus := r.GetStatus();
        if r.spec.typ == chief.name {
          chiefState := r.GetSingleReplicaStatus(ToInt32(chief.index));
        }
        ReadAllTurn(env, w, c, chief, k, before, statuses, cluster.world, chiefState);
        statuses := statuses + [rStatus];
      }
      assert statuses + [] == statuses;
      out, reading := Fine, Reading(chiefState, statuses);
    }

    method ReplicaNames(p: MXReplicaSet) returns (replicaNames: seq<string>)
      requires Valid() && p in replicas && p.spec.replicas.Some?
      ensures replicaNames == Rendezvous.Addresses(Context(), p.spec, Rendezvous.Count(p.spec))
    {
      replicaNames := [];
      var i: nat := 0;
      while i < p.spec.replicas.value
        invariant i <= Rendezvous.Count(p.spec) && replicaNames == Rendezvous.Addresses(Context(), p.spec, i)
      {
        replicaNames := replicaNames + [p.GenName(i) + ":" + Decimal(p.spec.port.value)];
        i := i + 1;
      }
    }

    method ClusterSpec() returns (clusterSpec: map<string, seq<string>>)
      requires Valid() && forall r <- replicas :: r.spec.replicas.Some?
      ensures clusterSpec == Rendezvous.ClusterSpec(Context(), |replicas|)
    {
      clusterSpec := map[];
      ghost var c := Context();
      for k := 0 to |replicas|
        invariant clusterSpec == Rendezvous.ClusterSpec(c, k)
      {
        var p := replicas[k];
        var replicaNames := ReplicaNames(p);
        clusterSpec := clusterSpec[Lower(p.spec.typ) := replicaNames];
      }
    }

    method DeleteResources() returns (ok: bool)
      requires Valid() && forall r <- replicas :: r.spec.replicas.Some?
      modifies cluster
      ensures Ret(cluster.world, ok) == DeleteAll(cluster.env, old(cluster.world), Context(), 0)
    {
      ghost var c, env := Context(), cluster.env;
      for k := 0 to |replicas|
        invariant DeleteAll(env, old(cluster.world), c, 0) == DeleteAll(env, cluster.world, c, k)
      {
        var gone := replicas[k].Delete();
        if !gone {
          return false;
        }
      }
      ok := true;
    }

    // The loop over the replica sets that creates pods; errors are only logged.
    method SyncAllPods() returns (out: Outcome)
      requires Valid()
      modifies cluster
      ensures var pods := Replicas.SyncAllPods(cluster.env, old(cluster.world), Context(), 0);
              cluster.world == pods.w && (out == Panicked <==> pods.v == Panicked) && out != Erred
      ensures out == Fine ==> forall r <- replicas :: r.spec.replicas.Some?
    {
      ghost var c, env, w0 := Context(), cluster.env, cluster.world;
      for k := 0 to |replicas|
        invariant Replicas.SyncAllPods(env, w0, c, 0) == Replicas.SyncAllPods(env, cluster.world, c, k)
      {
        var err := replicas[k].SyncPods();
        if err == Panicked {
          return Panicked;
        }
      }
      forall k | 0 <= k < |replicas|
        ensures replicas[k].spec.replicas.Some?
      {
        SyncedIsSized(env, w0, c, 0, k);
      }
      out := Fine;
    }

    method SyncAllServices()
      requires Valid() && forall r <- replicas :: r.spec.replicas.Some?
      modifies cluster
      ensures cluster.world == Replicas.SyncAllServices(cluster.env, old(cluster.world), Context(), 0)
    {
      ghost var c, env, w0 := Context(), cluster.env, cluster.world;
      for k := 0 to |replicas|
        invariant Replicas.SyncAllServices(env, w0, c, 0) == Replicas.SyncAllServices(env, cluster.world, c, k)
      {
        var _ := replicas[k].SyncServices();
      }
    }

    // Setup and the write of what came of it.
    method Begin(accelerators: Accelerators) returns (out: Outcome)
      requires Valid()
      modifies this`job, this`status, cluster
      ensures Ret(cluster.world, Turn(Mem(), out))
           == Training.Begin(cluster.env, old(cluster.world), old(Mem()), accelerators)
    {
      if job.status.phase != NoPhase {
        return Fine;
      }
      Setup(accelerators);
      var ok := UpdateCRDStatus();
      out := if ok then Fine else Erred;
    }

    method Prepare() returns (out: Outcome)
      requires Valid()
      modifies this, cluster
      ensures Valid()
      ensures Ret(cluster.world, Turn(Mem(), out)) == Training.Prepare(cluster.env, old(cluster.world), old(Mem()))
    {
      var why;
      out, why := SetupReplicas();
      if out == Erred {
        status := status.(reason := CouldNotCreate(why.value));
        var _ := UpdateCRDStatus();
      }
    }

    method Push() returns (out: Outcome)
      requires Valid()
      modifies this`job, cluster
      ensures Ret(cluster.world, Turn(Mem(), out)) == Training.Push(cluster.env, old(cluster.world), old(Mem()))
      ensures out == Fine ==> forall r <- replicas :: r.spec.replicas.Some?
    {
      out := SyncAllPods();
      if out == Fine {
        SyncAllServices();
        var ok := UpdateCRDStatus();
        out := if ok then Fine else Erred;
      }
    }

    // The status turned into the one that was read, and written.
    method Observe() returns (out: Outcome)
      requires Valid() && forall r <- replicas :: r.spec.replicas.Some?
      modifies this`job, this`status, cluster
      ensures Ret(cluster.world, Turn(Mem(), out)) == Training.Observe(cluster.env, old(cluster.world), old(Mem()))
    {
      var reading;
      out, reading := GetStatus();
      if out == Panicked {
        return;
      }
      status := status.(replicaStatuses := Some(reading.statuses));
      var state := JobState(reading.chief);
      if state == FailedState {
        status := status.(phase := Done, state := FailedState);
      } else if state == SucceededState {
        status := status.(phase := Done, state := SucceededState);
      } else if state == RunningState {
        status := status.(phase := Running, state := RunningState);
      }
      var ok := UpdateCRDStatus();
      out := if ok then Fine else Erred;
    }

    method Finish() returns (out: Outcome)
      requires Valid() && forall r <- replicas :: r.spec.replicas.Some?
      modifies this`job, cluster
      ensures Ret(cluster.world, Turn(Mem(), out)) == Training.Finish(cluster.env, old(cluster.world), old(Mem()))
    {
      if job.status.phase == CleanUp {
        var _ := DeleteResources();
        return Fine;
      }
      var ok := UpdateCRDStatus();
      out := if ok then Fine else Erred;
    }

    method Reconcile(accelerators: Accelerators) returns (out: Outcome)
      requires Valid()
      modifies this, cluster
      ensures Valid()
      ensures Ret(cluster.world, Turn(Mem(), out))
           == Training.Reconcile(cluster.env, old(cluster.world), old(Mem()), accelerators)
      ensures out == Fine && old(job).status == old(status) && old(status).phase != CleanUp ==>
                |replicas| == |job.spec.replicaSpecs| && status.replicaStatuses.Some?
                && Reports(Specs(), status.replicaStatuses.value)
    {
      if job.status == status && status.phase != CleanUp {
        ghost var p := Training.Reconcile(cluster.env, cluster.world, Mem(), accelerators);
        if p.v.out == Fine {
          PassReports(cluster.env, cluster.world, Mem(), accelerators);
        }
      }
      out := Begin(accelerators);
      if out != Fine {
        return;
      }
      out := Prepare();
      if out != Fine {
        return;
      }
      out := Proceed();
    }

    // From the loops over the replica sets on.
    method Proceed() returns (out: Outcome)
      requires Valid()
      modifies this`job, this`status, cluster
      ensures Ret(cluster.world, Turn(Mem(), out)) == Training.Proceed(cluster.env, old(cluster.world), old(Mem()))
    {
      out := Push();
      if out != Fine {
        return;
      }
      out := Observe();
      if out != Fine {
        return;
      }
      out := Finish();
    }
  }
}
