/** What one MXReplicaSet does: SyncPods, SyncServices, GetStatus and Delete, as functions of the world. */
module Replicas {
  import opened Wrappers
  import opened Api
  import opened Naming
  import opened Selectors
  import opened Store
  import opened Loops
  import opened PodStatus
  import opened Validation

  // What a replica set knows of its job.
  datatype Ctx = Ctx(ref: Ref, uid: string, spec: JobSpec, replicas: seq<ReplicaSpec>)

  const APP_LABEL: string := "fioravanzo.org"
  const TYPE_LABEL: string := "job_type"
  const ID_LABEL: string := "runtime_id"
  const NAME_LABEL: string := "mx_job_name"
  const INDEX_LABEL: string := "task_index"

  function SetLabels(job: string, rid: string, typ: string): Labels
  {
    map[APP_LABEL := "", TYPE_LABEL := typ, ID_LABEL := rid, NAME_LABEL := job]
  }

  function TaskLabels(job: string, rid: string, typ: string, index: int): Labels
  {
    SetLabels(job, rid, typ)[INDEX_LABEL := Decimal(index)]
  }

  function LabelsOf(c: Ctx, typ: string, index: int): Labels
  {
    TaskLabels(c.ref.name, c.spec.runtimeId, typ, index)
  }

  function NameOf(c: Ctx, typ: string, index: int): string
  {
    GenName(c.ref.name, typ, c.spec.runtimeId, index)
  }

  function RefOf(c: Ctx, typ: string, index: int): Ref
  {
    Ref(c.ref.ns, NameOf(c, typ, index))
  }

  function Size(r: ReplicaSpec): int
  {
    if r.replicas.Some? then r.replicas.value else 0
  }

  // The size of the last replica set of a type, 0 if there is none.
  function SizeOfType(rs: seq<ReplicaSpec>, typ: string): int
  {
    if rs == [] then 0
    else if rs[|rs| - 1].typ == typ then Size(rs[|rs| - 1])
    else SizeOfType(rs[..|rs| - 1], typ)
  }

  /** Of several sets of a type the last one counts, whatever their order otherwise. */
  lemma {:induction false} SizeOfTypeIsLast(rs: seq<ReplicaSpec>, typ: string, k: nat)
    requires k < |rs| && rs[k].typ == typ && forall j :: k < j < |rs| ==> rs[j].typ != typ
    ensures SizeOfType(rs, typ) == Size(rs[k])
  {
    if k < |rs| - 1 {
      SizeOfTypeIsLast(rs[..|rs| - 1], typ, k);
    }
  }

  lemma {:induction false} SizeOfNoType(rs: seq<ReplicaSpec>, typ: string)
    requires forall j :: 0 <= j < |rs| ==> rs[j].typ != typ
    ensures SizeOfType(rs, typ) == 0
  {
    if rs != [] {
      SizeOfNoType(rs[..|rs| - 1], typ);
    }
  }

  // ---------------------------------------------------------------- pods

  function RootUri(c: Ctx): string
  {
    if c.replicas == [] then "" else NameOf(c, c.replicas[0].typ, 0)
  }

  function PortOf(r: ReplicaSpec): int32
  {
    if r.port.Some? then r.port.value else 0
  }

  function DmlcEnv(c: Ctx, r: ReplicaSpec): seq<EnvVar>
  {
    [EnvVar("DMLC_ROLE", Lower(r.typ)),
     EnvVar("DMLC_PS_ROOT_URI", RootUri(c)),
     EnvVar("DMLC_PS_ROOT_PORT", Decimal(PortOf(r))),
     EnvVar("DMLC_NUM_SERVER", Decimal(SizeOfType(c.replicas, SERVER))),
     EnvVar("DMLC_NUM_WORKER", Decimal(SizeOfType(c.replicas, WORKER))),
     EnvVar("PS_VERBOSE", "2")]
  }

  function Equip(c: Container, env: seq<EnvVar>): Container
  {
    if c.name == DEFAULT_CONTAINER then c.(env := c.env + env) else c
  }

  function EquipAll(cs: seq<Container>, env: seq<EnvVar>): (out: seq<Container>)
    ensures |out| == |cs| && forall i :: 0 <= i < |cs| ==> out[i] == Equip(cs[i], env)
  {
    if cs == [] then [] else [Equip(cs[0], env)] + EquipAll(cs[1..], env)
  }

  function BuildPod(c: Ctx, r: ReplicaSpec, index: int): Pod
    requires r.template.Some?
  {
    Pod(LabelsOf(c, r.typ, index), Some(Owner(c.ref.name, c.uid)), c.spec.schedulerName,
        r.template.value.(containers := EquipAll(r.template.value.containers, DmlcEnv(c, r))),
        PodPending, 0, [])
  }

  function BuildService(c: Ctx, r: ReplicaSpec, index: int): Service
  {
    Service(LabelsOf(c, r.typ, index), Some(Owner(c.ref.name, c.uid)), LabelsOf(c, r.typ, index), "mx-port", PortOf(r))
  }

  // Some set of servers or workers has no size.
  predicate UnsizedRole(rs: seq<ReplicaSpec>)
  {
    exists k :: 0 <= k < |rs| && rs[k].replicas.None? && (rs[k].typ == SERVER || rs[k].typ == WORKER)
  }

  // Building a pod follows nil pointers: a missing template, or an unsized server or worker set
  // when there is a container to equip.
  predicate PodPanics(c: Ctx, r: ReplicaSpec)
  {
    || r.template.None?
    || (HasDefaultContainer(r.template.value) && UnsizedRole(c.replicas))
  }

  // One turn of the loop in SyncPods: two list calls, the first for its log line only; a failed
  // list counts as an empty one.
  function SyncPodAt(env: Env, w: World, c: Ctx, r: ReplicaSpec, index: int): Ret<Outcome>
  {
    var seen := Look(env, w);
    var mine := ListPods(env, seen, c.ref.ns, LabelsOf(c, r.typ, index), true);
    if mine.v.Some? && mine.v.value != [] then Ret(mine.w, Fine)
    else if PodPanics(c, r) then Ret(mine.w, Panicked)
    else
      var name := GenPodName(c.ref.name, r.typ, c.spec.runtimeId, index, env.random(|mine.w.trace|, 5));
      var made := CreatePod(env, mine.w, Ref(c.ref.ns, name), BuildPod(c, r, index));
      Ret(made.w, if made.v == CreateFailed then Erred else Fine)
  }

  function PodTurn(env: Env, c: Ctx, r: ReplicaSpec): Body
  {
    (w: World, index: nat) => SyncPodAt(env, w, c, r, index)
  }

  function SyncPods(env: Env, w: World, c: Ctx, r: ReplicaSpec): Ret<Outcome>
  {
    if r.replicas.None? then Ret(w, Panicked) else Loop(PodTurn(env, c, r), w, 0, Size(r))
  }

  lemma SyncPodsSized(env: Env, w: World, c: Ctx, r: ReplicaSpec)
    requires SyncPods(env, w, c, r).v != Panicked
    ensures r.replicas.Some?
  {}

  // The loop over the replica sets in Reconcile: errors are logged, a panic ends it.
  function SyncAllPods(env: Env, w: World, c: Ctx, k: nat): Ret<Outcome>
    requires k <= |c.replicas|
    decreases |c.replicas| - k
  {
    if k == |c.replicas| then Ret(w, Fine)
    else
      var s := SyncPods(env, w, c, c.replicas[k]);
      if s.v == Panicked then s else SyncAllPods(env, s.w, c, k + 1)
  }

  // Once the pods of all sets are synced, no set is of nil size.
  lemma {:induction false} SyncedIsSized(env: Env, w: World, c: Ctx, k: nat, j: nat)
    requires k <= j < |c.replicas| && SyncAllPods(env, w, c, k).v != Panicked
    ensures c.replicas[j].replicas.Some?
    decreases j - k
  {
    SyncPodsSized(env, w, c, c.replicas[k]);
    if k < j {
      SyncedIsSized(env, SyncPods(env, w, c, c.replicas[k]).w, c, k + 1, j);
    }
  }

  // ---------------------------------------------------------------- services

  function SyncServiceAt(env: Env, w: World, c: Ctx, r: ReplicaSpec, index: int): Ret<Outcome>
  {
    var got := GetService(env, w, RefOf(c, r.typ, index));
    if got.v != NotFound then Ret(got.w, Fine)
    else
      var made := CreateService(env, got.w, RefOf(c, r.typ, index), BuildService(c, r, index));
      Ret(made.w, if made.v == CreateFailed then Erred else Fine)
  }

  function ServiceTurn(env: Env, c: Ctx, r: ReplicaSpec): Body
  {
    (w: World, index: nat) => SyncServiceAt(env, w, c, r, index)
  }

  // An unsized set is not reached here: SyncPods has died of it.
  function SyncServices(env: Env, w: World, c: Ctx, r: ReplicaSpec): Ret<Outcome>
  {
    Loop(ServiceTurn(env, c, r), w, 0, Size(r))
  }

  function SyncAllServices(env: Env, w: World, c: Ctx, k: nat): World
    requires k <= |c.replicas|
    decreases |c.replicas| - k
  {
    if k == |c.replicas| then w
    else SyncAllServices(env, SyncServices(env, w, c, c.replicas[k]).w, c, k + 1)
  }

  // ---------------------------------------------------------------- status

  function ReadReplica(env: Env, w: World, c: Ctx, r: ReplicaSpec, index: int): Ret<ReplicaState>
  {
    var got := GetPod(env, w, RefOf(c, r.typ, index));
    if got.v.None? then Ret(got.w, ReplicaUnknown)
    else if got.v.value.phase == PodSucceeded then Ret(got.w, ReplicaSucceeded)
    else
      var list := ListPods(env, got.w, c.ref.ns, LabelsOf(c, r.typ, index), false);
      Ret(list.w, if list.v.None? then ReplicaFailed else ListedState(list.v.value, DEFAULT_CONTAINER))
  }

  /** What is read of one replica, in every environment.  Without the pod, or if the call fails, it is
  unknown; a pod that succeeded, succeeded.  Otherwise the replica's pods are listed: failed if the list
  fails, running if it is empty, else what the mxnet container of the pod listed last says. */
  lemma ReplicaReads(env: Env, w: World, c: Ctx, r: ReplicaSpec, index: int)
    ensures var w1, ref := Tick(env, w), Ref(c.ref.ns, GenName(c.ref.name, r.typ, c.spec.runtimeId, index));
            var w2 := Tick(env, Apply(w1, Read));
            var pods := PodsAt(w2, env.listing(Selected(w2, c.ref.ns, LabelsOf(c, r.typ, index), false)));
            var v, found := ReadReplica(env, w, c, r, index).v, !env.readFails(|w1.trace|) && ref in w1.pods;
            && (!found ==> v == ReplicaUnknown)
            && (found && w1.pods[ref].phase == PodSucceeded ==> v == ReplicaSucceeded)
            && (found && w1.pods[ref].phase != PodSucceeded ==>
                  && (env.readFails(|w2.trace|) ==> v == ReplicaFailed)
                  && (!env.readFails(|w2.trace|) && pods == [] ==> v == ReplicaRunning)
                  && (!env.readFails(|w2.trace|) && pods != [] ==> v == StateOfPod(pods[|pods| - 1], "mxnet")))
  {}

  function ReadSet(env: Env, w: World, c: Ctx, r: ReplicaSpec, index: nat): Ret<seq<ReplicaState>>
    decreases Size(r) - index
  {
    if index >= Size(r) then Ret(w, [])
    else
      var one := ReadReplica(env, w, c, r, index);
      var rest := ReadSet(env, one.w, c, r, index + 1);
      Ret(rest.w, [one.v] + rest.v)
  }

  function StatusOf(typ: string, states: seq<ReplicaState>): ReplicaStatus
  {
    ReplicaStatus(typ, FoldStates(states), Tally(states))
  }

  // int32(i)
  function ToInt32(i: int): int
  {
    (i + 0x8000_0000) % 0x1_0000_0000 - 0x8000_0000
  }

  datatype Reading = Reading(chief: ReplicaState, statuses: seq<ReplicaStatus>)

  // n is the 32-bit integer that i becomes.
  predicate IsInt32Of(n: int, i: int)
  {
    -0x8000_0000 <= n < 0x8000_0000 && (i - n) % 0x1_0000_0000 == 0
  }

  /** The index that is read is the chief's own if that fits 32 bits, and else the only number of 32 bits
  that differs from it by a multiple of 2^32. */
  lemma ToInt32Wraps(i: int, n: int)
    ensures IsInt32Of(ToInt32(i), i)
    ensures -0x8000_0000 <= i < 0x8000_0000 ==> ToInt32(i) == i
    ensures IsInt32Of(n, i) ==> n == ToInt32(i)
  {
    var m, k := 0x1_0000_0000, i + 0x8000_0000;
    assert i - ToInt32(i) == k - k % m == m * (k / m);
  }

  // The chief's state after a set has been read: read by itself if the set is of its type.
  function ReadChief(env: Env, w: World, c: Ctx, r: ReplicaSpec, chief: Chief, state: ReplicaState): Ret<ReplicaState>
  {
    if r.typ == chief.name then ReadReplica(env, w, c, r, ToInt32(chief.index)) else Ret(w, state)
  }

  // The loop in TrainingJob.GetStatus: each set is read, and the chief once more, by itself, in
  // each set of its type.
  function ReadAll(env: Env, w: World, c: Ctx, chief: Chief, k: nat, chiefState: ReplicaState): Ret<Reading>
    requires k <= |c.replicas|
    decreases |c.replicas| - k
  {
    if k == |c.replicas| then Ret(w, Reading(chiefState, []))
    else
      var r := c.replicas[k];
      var set_ := ReadSet(env, w, c, r, 0);
      var own := ReadChief(env, set_.w, c, r, chief, chiefState);
      var rest := ReadAll(env, own.w, c, chief, k + 1, own.v);
      Ret(rest.w, Reading(rest.v.chief, [StatusOf(r.typ, set_.v)] + rest.v.statuses))
  }

  // ---------------------------------------------------------------- deletion

  // The services of indices index.. are deleted one by one; true if none failed.
  function DeleteServices(env: Env, w: World, c: Ctx, r: ReplicaSpec, index: nat): Ret<bool>
    decreases Size(r) - index
  {
    if index >= Size(r) then Ret(w, true)
    else
      var one := DeleteService(env, w, RefOf(c, r.typ, index));
      var rest := DeleteServices(env, one.w, c, r, index + 1);
      Ret(rest.w, one.v && rest.v)
  }

  function ConfigMapRef(c: Ctx): Ref
  {
    Ref(c.ref.ns, "cm-ps-" + c.spec.runtimeId)
  }

  function DeleteDefaultConfigMap(env: Env, w: World, c: Ctx): Ret<bool>
  {
    var got := GetConfigMap(env, w, ConfigMapRef(c));
    match got.v
    case NotFound => Ret(got.w, true)
    case GetFailed => Ret(got.w, false)
    case Found => DeleteConfigMap(env, got.w, ConfigMapRef(c))
  }

  // MXReplicaSet.Delete: true if nothing failed.
  function DeleteSet(env: Env, w: World, c: Ctx, r: ReplicaSpec): Ret<bool>
  {
    var selector := SetLabels(c.ref.name, c.spec.runtimeId, r.typ);
    var first := DeletePods(env, w, c.ref.ns, selector);
    var second := DeletePods(env, first.w, c.ref.ns, selector);
    var services := DeleteServices(env, second.w, c, r, 0);
    var cm := DeleteDefaultConfigMap(env, services.w, c);
    Ret(cm.w, first.v && second.v && services.v && cm.v)
  }

  // TrainingJob.deleteResources: stops at the first set with a failure.
  function DeleteAll(env: Env, w: World, c: Ctx, k: nat): Ret<bool>
    requires k <= |c.replicas|
    decreases |c.replicas| - k
  {
    if k == |c.replicas| then Ret(w, true)
    else
      var s := DeleteSet(env, w, c, c.replicas[k]);
      if !s.v then s else DeleteAll(env, s.w, c, k + 1)
  }

  // ---------------------------------------------------------------- labels

  lemma LabelKeysDistinct()
    ensures INDEX_LABEL !in {APP_LABEL, TYPE_LABEL, ID_LABEL, NAME_LABEL}
    ensures NAME_LABEL !in {APP_LABEL, TYPE_LABEL, ID_LABEL}
    ensures ID_LABEL !in {APP_LABEL, TYPE_LABEL} && TYPE_LABEL != APP_LABEL
  {
    assert |APP_LABEL| == 14 && |TYPE_LABEL| == 8 && |ID_LABEL| == 10 && |NAME_LABEL| == 11 && |INDEX_LABEL| == 10;
    assert INDEX_LABEL[0] != ID_LABEL[0];
  }

  lemma TaskLabelsValues(job: string, rid: string, typ: string, index: int)
    ensures var l := TaskLabels(job, rid, typ, index);
            && l.Keys == {APP_LABEL, TYPE_LABEL, ID_LABEL, NAME_LABEL, INDEX_LABEL}
            && l[NAME_LABEL] == job && l[ID_LABEL] == rid && l[TYPE_LABEL] == typ && l[INDEX_LABEL] == Decimal(index)
    ensures var l := SetLabels(job, rid, typ);
            && l.Keys == {APP_LABEL, TYPE_LABEL, ID_LABEL, NAME_LABEL}
            && l[NAME_LABEL] == job && l[ID_LABEL] == rid && l[TYPE_LABEL] == typ
  {
    LabelKeysDistinct();
  }

  /** The selector of one replica matches the label set of another only if they are the same one. */
  lemma TaskSelectorsDisjoint(job: string, rid: string, typ: string, index: int,
                              job': string, rid': string, typ': string, index': int)
    ensures Matches(TaskLabels(job, rid, typ, index), TaskLabels(job', rid', typ', index'))
       <==> job == job' && rid == rid' && typ == typ' && index == index'
    ensures Matches(SetLabels(job, rid, typ), TaskLabels(job', rid', typ', index'))
       <==> job == job' && rid == rid' && typ == typ'
  {
    TaskLabelsValues(job, rid, typ, index);
    TaskLabelsValues(job', rid', typ', index');
    var l, l' := TaskLabels(job, rid, typ, index), TaskLabels(job', rid', typ', index');
    MatchesSameKeys(l, l');
    if l == l' {
      DecimalInjective(index, index');
    }
    var s := SetLabels(job, rid, typ);
    if Matches(s, l') {
      assert l'[NAME_LABEL] == s[NAME_LABEL] && l'[ID_LABEL] == s[ID_LABEL] && l'[TYPE_LABEL] == s[TYPE_LABEL];
    }
  }
}
