/** What a pass leaves behind: the statuses of the replica sets in memory and in the store, what it says of
a set it cannot make, and, if nothing interferes, a pod and a service for every replica. */
module PassResults {
  import opened Wrappers
  import opened Api
  import opened Naming
  import opened Store
  import opened Loops
  import opened Replicas
  import opened Trails
  import opened Training
  import opened Passes
  import opened PodStatus
  import opened CalmPasses
  import opened Quiescence
  import opened ChiefOnly
  import opened SetupSoundness
  import opened Durability

  // ---------------------------------------------------------------- the statuses of the sets

  // The replicas a set is to have.
  function Wished(r: ReplicaSpec): nat
  {
    if r.replicas.Some? && r.replicas.value > 0 then r.replicas.value else 0
  }

  // A status of the set's type, with counts that add up to its size and decide its state.
  predicate Fits(r: ReplicaSpec, s: ReplicaStatus)
  {
    s.typ == r.typ && Judged(s.state, s.counts, Wished(r))
  }

  // One such status for each set.
  predicate Reports(sets: seq<ReplicaSpec>, statuses: seq<ReplicaStatus>)
  {
    |statuses| == |sets| && forall k :: 0 <= k < |sets| ==> Fits(sets[k], statuses[k])
  }

  // The counts are those of the states of the set's replicas, read off these pods.
  ghost predicate CountsPods(env: Env, pods: map<Ref, Pod>, c: Ctx, r: ReplicaSpec, s: ReplicaStatus)
  {
    forall states: seq<ReplicaState>, v: ReplicaState ::
      |states| == Wished(r) && (forall i :: 0 <= i < |states| ==> states[i] == StateFromPods(env, pods, c, r, i)) ==>
        CountOf(s.counts, v) == multiset(states)[v]
  }

  ghost predicate ReportsPods(env: Env, pods: map<Ref, Pod>, c: Ctx, sets: seq<ReplicaSpec>,
                              statuses: seq<ReplicaStatus>)
  {
    |statuses| == |sets| && forall k :: 0 <= k < |sets| ==> CountsPods(env, pods, c, sets[k], statuses[k])
  }

  lemma ReportsMore(r: ReplicaSpec, s: ReplicaStatus, sets: seq<ReplicaSpec>, statuses: seq<ReplicaStatus>)
    requires Fits(r, s) && Reports(sets, statuses)
    ensures Reports([r] + sets, [s] + statuses)
  {}

  lemma ReportsPodsMore(env: Env, pods: map<Ref, Pod>, c: Ctx, r: ReplicaSpec, s: ReplicaStatus,
                        sets: seq<ReplicaSpec>, statuses: seq<ReplicaStatus>)
    requires CountsPods(env, pods, c, r, s) && ReportsPods(env, pods, c, sets, statuses)
    ensures ReportsPods(env, pods, c, [r] + sets, [s] + statuses)
  {}

  lemma SetStatusFits(env: Env, w: World, c: Ctx, r: ReplicaSpec)
    ensures Fits(r, StatusOf(r.typ, ReadSet(env, w, c, r, 0).v))
  {
    SetStatusAddsUp(env, w, c, r);
  }

  lemma {:induction false} ReadAllReports(env: Env, w: World, c: Ctx, chief: Chief, k: nat, state: ReplicaState)
    requires k <= |c.replicas|
    ensures Reports(c.replicas[k..], ReadAll(env, w, c, chief, k, state).v.statuses)
    decreases |c.replicas| - k
  {
    if k < |c.replicas| {
      var r := c.replicas[k];
      var read := ReadSet(env, w, c, r, 0);
      var own := ReadChief(env, read.w, c, r, chief, state);
      var rest := ReadAll(env, own.w, c, chief, k + 1, own.v).v.statuses;
      ReadAllReports(env, own.w, c, chief, k + 1, own.v);
      SetStatusFits(env, w, c, r);
      ReportsMore(r, StatusOf(r.typ, read.v), c.replicas[k + 1..], rest);
      assert ReadAll(env, w, c, chief, k, state).v.statuses == [StatusOf(r.typ, read.v)] + rest;
      assert c.replicas[k..] == [r] + c.replicas[k + 1..];
    }
  }

  lemma StatesCount(env: Env, pods: map<Ref, Pod>, c: Ctx, r: ReplicaSpec)
    ensures CountsPods(env, pods, c, r, StatusOf(r.typ, StatesFromPods(env, pods, c, r, 0)))
  {
    var own := StatesFromPods(env, pods, c, r, 0);
    TallyCounts(own);
    forall states: seq<ReplicaState>
      | |states| == Wished(r) && forall i :: 0 <= i < |states| ==> states[i] == StateFromPods(env, pods, c, r, i)
      ensures states == own
    {}
  }

  lemma {:induction false} ReadingReportsPods(env: Env, pods: map<Ref, Pod>, c: Ctx, chief: Chief, k: nat,
                                              state: ReplicaState)
    requires k <= |c.replicas|
    ensures ReportsPods(env, pods, c, c.replicas[k..], ReadingFromPods(env, pods, c, chief, k, state).statuses)
    decreases |c.replicas| - k
  {
    if k < |c.replicas| {
      var r := c.replicas[k];
      var own := if r.typ == chief.name then StateFromPods(env, pods, c, r, ToInt32(chief.index)) else state;
      var status := StatusOf(r.typ, StatesFromPods(env, pods, c, r, 0));
      var rest := ReadingFromPods(env, pods, c, chief, k + 1, own).statuses;
      StatesCount(env, pods, c, r);
      ReadingReportsPods(env, pods, c, chief, k + 1, own);
      ReportsPodsMore(env, pods, c, r, status, c.replicas[k + 1..], rest);
      assert ReadingFromPods(env, pods, c, chief, k, state).statuses == [status] + rest;
      assert c.replicas[k..] == [r] + c.replicas[k + 1..];
    }
  }

  lemma GetStatusReports(env: Env, w: World, c: Ctx)
    requires ChiefReadable(c)
    ensures var read := GetStatus(env, w, c);
            && Reports(c.replicas, read.v.statuses) && read.w.jobs == w.jobs
            && (Still(env, w) ==> ReportsPods(env, w.pods, c, c.replicas, read.v.statuses))
  {
    GetStatusTrail(env, c, w);
    QuietEvents(env, c, w, Since(w, GetStatus(env, w, c).w));
    if c.replicas != [] {
      ReadAllReports(env, w, c, c.spec.policy.value.chief.value, 0, ReplicaUnknown);
      assert c.replicas[0..] == c.replicas;
      if Still(env, w) {
        CalmGetStatus(env, w, c);
        ReadingReportsPods(env, w.pods, c, c.spec.policy.value.chief.value, 0, ReplicaUnknown);
      }
    }
  }

  // The stored job has the status of the TrainingJob.
  predicate StoredStatus(w: World, m: Memory)
  {
    m.job.ref in w.jobs && w.jobs[m.job.ref].uid == m.job.uid && w.jobs[m.job.ref].status == m.status
  }

  /** Observing, in every environment, leaves one status for each replica set, of the set's type, with
  counts that add up to its size and decide its state; in calm the counts are those of the states of
  the set's pods; and if the write is answered, or none is needed, the stored job has them. */
  lemma ObserveReports(env: Env, w: World, m: Memory)
    requires ChiefReadable(CtxOf(m)) && m.status.phase != NoPhase
    ensures var e := Observe(env, w, m);
            && e.v.m.replicas == m.replicas && e.v.m.status.replicaStatuses.Some?
            && Reports(m.replicas, e.v.m.status.replicaStatuses.value)
            && e.v.m.job.spec == m.job.spec && e.v.m.status.reason == m.status.reason
            && Follows(m.status, e.v.m.status, GetStatus(env, w, CtxOf(m)).v.chief)
            && (Still(env, w) ==>
                  ReportsPods(env, w.pods, CtxOf(m), m.replicas, e.v.m.status.replicaStatuses.value))
            && (InSync(w, m) && e.v.out == Fine ==> StoredStatus(e.w, e.v.m))
  {
    var read := GetStatus(env, w, CtxOf(m));
    var status := NextStatus(m.status, JobState(read.v.chief), read.v.statuses);
    GetStatusReports(env, w, CtxOf(m));
    NextStatusPhase(m.status, JobState(read.v.chief), read.v.statuses);
    assert status.replicaStatuses == Some(read.v.statuses);
    UpdateStores(env, read.w, m.(status := status));
    assert Observe(env, w, m) == UpdateCRD(env, read.w, m.(status := status));
    assert InSync(w, m) ==> InSync(read.w, m.(status := status));
  }

  lemma UpdateStores(env: Env, w: World, m: Memory)
    requires m.status.phase != NoPhase
    ensures var u := UpdateCRD(env, w, m);
            && u.v.m.status == m.status && u.v.m.replicas == m.replicas && u.v.m.job.spec == m.job.spec
            && (InSync(w, m) && u.v.out == Fine ==> StoredStatus(u.w, u.v.m))
  {
    UpdateCRDTrail(env, CtxOf(m), AnyPuts, w, m);
  }

  lemma ProceedReports(env: Env, w: World, m: Memory)
    requires Agrees(m) && m.status.phase != NoPhase && m.status.phase != CleanUp
    requires Proceed(env, w, m).v.out == Fine
    ensures var p := Proceed(env, w, m);
            && p.v.m.replicas == m.replicas && p.v.m.status.replicaStatuses.Some?
            && Reports(m.replicas, p.v.m.status.replicaStatuses.value)
            && (InSync(w, m) ==> StoredStatus(p.w, p.v.m))
  {
    var c, d := CtxOf(m), Push(env, w, m);
    PushStep(env, c, AnyPuts, w, m);
    QuietEvents(env, c, w, Since(w, d.w));
    var e := Observe(env, d.w, m);
    ObserveReports(env, d.w, m);
    ObserveStep(env, c, AnyPuts, d.w, m);
    FinishIsIdle(env, e.w, e.v.m);
  }

  /** A pass that ends well, in every environment, has left such a status for each of its replica sets; and
  the stored job has the same, if it was in step with the TrainingJob before. */
  lemma PassReports(env: Env, w: World, m: Memory, accelerators: Accelerators)
    requires Agrees(m) && m.status.phase != CleanUp && Reconcile(env, w, m, accelerators).v.out == Fine
    ensures var p := Reconcile(env, w, m, accelerators);
            && |p.v.m.replicas| == |p.v.m.job.spec.replicaSpecs| && p.v.m.status.replicaStatuses.Some?
            && Reports(p.v.m.replicas, p.v.m.status.replicaStatuses.value)
            && (InSync(w, m) ==> StoredStatus(p.w, p.v.m))
  {
    if m.status.phase == NoPhase {
      BeginKeeps(env, w, m, accelerators);
      var a := Begin(env, w, m, accelerators);
      RestReports(env, a.w, a.v.m);
    } else {
      RestReports(env, w, m);
    }
  }

  lemma RestReports(env: Env, w: World, m: Memory)
    requires Agrees(m) && m.status.phase != NoPhase && m.status.phase != CleanUp && Rest(env, w, m).v.out == Fine
    ensures var p := Rest(env, w, m);
            && |p.v.m.replicas| == |p.v.m.job.spec.replicaSpecs| && p.v.m.status.replicaStatuses.Some?
            && Reports(p.v.m.replicas, p.v.m.status.replicaStatuses.value)
            && (InSync(w, m) ==> StoredStatus(p.w, p.v.m))
  {
    var b := Prepare(env, w, m);
    RestStep(env, AnyPuts, w, m);
    ProceedReports(env, w, b.v.m);
    assert m.job.spec.replicaSpecs[0..] == m.job.spec.replicaSpecs;
  }

  // ---------------------------------------------------------------- a set that cannot be made

  /** If the first replica spec that no set is made for is number k, a pass over a job that is set up
  fails, in every environment: it creates nothing, holds the k sets before it, says why in the status and
  leaves the status as it is otherwise; and the stored job says so too, if it was in step and no write
  fails. */
  lemma RefusedSetIsReported(env: Env, w: World, m: Memory, accelerators: Accelerators, k: nat, why: ReplicaError)
    requires Agrees(m) && m.status.phase != NoPhase && m.status.phase != CleanUp && Cached(m)
    requires var rs := m.job.spec.replicaSpecs;
             k < |rs| && AllAccepted(rs[..k]) && CheckReplica(rs[k]) == Refusal(why)
    ensures var p := Reconcile(env, w, m, accelerators);
            && p.v.out == Erred && NoCreation(Since(w, p.w)) && p.v.m.replicas == m.job.spec.replicaSpecs[..k]
            && p.v.m.status == m.status.(reason := CouldNotCreate(why)) && p.v.m.job.spec == m.job.spec
            && (InSync(w, m) && NoFailedUpdate(Since(w, p.w)) ==> StoredStatus(p.w, p.v.m))
  {
    var rs, b := m.job.spec.replicaSpecs, SetupReplicas(m);
    CachedIsPrefix(m);
    BuildStopsAtFirst(rs, 0);
    var n := |b.replicas|;
    forall j | 0 <= j < k
      ensures CheckReplica(rs[j]) == Accepted
    {
      assert rs[..k][j] == rs[j];
    }
    assert n == k;
    PrepareCreatesNothing(env, w, m);
    ReconcileKeeps(env, w, m, accelerators);
    RestStep(env, AnyPuts, w, m);
    PrepareStep(env, CtxOf(m).(replicas := b.replicas), AnyPuts, w, m);
    UpdateStores(env, w, m.(replicas := b.replicas, status := m.status.(reason := CouldNotCreate(why))));
  }

  // ---------------------------------------------------------------- a pass that nothing interferes with

  predicate CarriesLabels(labels: Labels, c: Ctx, r: ReplicaSpec, index: nat)
  {
    && "fioravanzo.org" in labels && labels["fioravanzo.org"] == ""
    && "job_type" in labels && labels["job_type"] == r.typ
    && "runtime_id" in labels && labels["runtime_id"] == c.spec.runtimeId
    && "mx_job_name" in labels && labels["mx_job_name"] == c.ref.name
    && "task_index" in labels && labels["task_index"] == Decimal(index)
  }

  // Replica `index` of set r has a pod that has not failed, and its service.
  ghost predicate Delivered(w: World, c: Ctx, r: ReplicaSpec, index: nat)
  {
    && (exists ref <- w.pods ::
          ref.ns == c.ref.ns && CarriesLabels(w.pods[ref].labels, c, r, index) && w.pods[ref].phase != PodFailed)
    && Ref(c.ref.ns, GenName(c.ref.name, r.typ, c.spec.runtimeId, index)) in w.services
  }

  lemma SettledIsDelivered(w: World, c: Ctx, k: nat, index: nat)
    requires Settled(w, c) && k < |c.replicas| && index < Wished(c.replicas[k])
    ensures Delivered(w, c, c.replicas[k], index)
  {
    var r := c.replicas[k];
    assert Populated(w, c, r, 0) && Served(w, c, r, 0);
    var live := Live(w, c.ref.ns, LabelsOf(c, r.typ, index));
    assert live != {};
    var ref :| ref in live;
    LabelKeysDistinct();
    TaskLabelsValues(c.ref.name, c.spec.runtimeId, r.typ, index);
    assert CarriesLabels(w.pods[ref].labels, c, r, index);
    assert RefOf(c, r.typ, index) in w.services;
  }

  /** A pass that finds a calm environment, is refused nothing and ends well has left, for every replica
  of every set of the job, a pod that has not failed and a service, and statuses that count the states
  of the sets' pods. */
  lemma UndisturbedPassDelivers(env: Env, w: World, m: Memory, accelerators: Accelerators)
    requires Agrees(m) && m.status.phase != CleanUp
    requires var p := Reconcile(env, w, m, accelerators); p.v.out == Fine && Undisturbed(env, w, p.w)
    ensures var p := Reconcile(env, w, m, accelerators);
            var c := CtxOf(p.v.m);
            && |c.replicas| == |c.spec.replicaSpecs|
            && (forall k: nat, index: nat :: k < |c.replicas| && index < Wished(c.replicas[k]) ==>
                  Delivered(p.w, c, c.replicas[k], index))
            && p.v.m.status.replicaStatuses.Some?
            && ReportsPods(env, p.w.pods, c, c.replicas, p.v.m.status.replicaStatuses.value)
  {
    var p := Reconcile(env, w, m, accelerators);
    var c := CtxOf(p.v.m);
    UndisturbedRests(env, w, m, accelerators);
    PassReports(env, w, m, accelerators);
    assert SetupReplicas(p.v.m).out == Fine;
    forall k: nat, index: nat | k < |c.replicas| && index < Wished(c.replicas[k])
      ensures Delivered(p.w, c, c.replicas[k], index)
    {
      SettledIsDelivered(p.w, c, k, index);
    }
    StatusFromReports(env, p.w, c, p.v.m.status);
  }

  lemma StatusFromReports(env: Env, w: World, c: Ctx, status: Status)
    requires ChiefReadable(c) && exists m0 :: status == StatusFrom(env, w, c, m0)
    ensures status.replicaStatuses.Some? && ReportsPods(env, w.pods, c, c.replicas, status.replicaStatuses.value)
  {
    if c.replicas != [] {
      ReadingReportsPods(env, w.pods, c, c.spec.policy.value.chief.value, 0, ReplicaUnknown);
      assert c.replicas[0..] == c.replicas;
    }
  }

  // ---------------------------------------------------------------- one turn for one replica

  // What comes of an attempt to create what is or is not there already.
  predicate CreateAnswers(reply: Reply, taken: bool, v: Outcome)
  {
    && v != Panicked
    && (v == Erred <==> reply == Rejected || (reply == Lost && !taken))
  }

  /** One turn of SyncServices, in every environment.  A service that is there, and one that cannot be read,
  is left alone.  A missing one is created unless the call is turned away or another has come at its name;
  the turn fails exactly if no answer but "already exists" came back. */
  lemma ServiceTurnAnswers(env: Env, w: World, c: Ctx, r: ReplicaSpec, index: int)
    ensures var s, ref := SyncServiceAt(env, w, c, r, index),
                          Ref(c.ref.ns, GenName(c.ref.name, r.typ, c.spec.runtimeId, index));
            var w1 := Tick(env, w);
            var w2 := Tick(env, Apply(w1, Read));
            var reply := env.reply(|w2.trace|);
            if env.readFails(|w1.trace|) || ref in w1.services then s == Ret(Apply(w1, Read), Fine)
            else
              && CreateAnswers(reply, ref in w2.services, s.v)
              && s.w.pods == w2.pods && s.w.jobs == w2.jobs
              && s.w.services == (if ref in w2.services || reply == Rejected then w2.services
                                  else w2.services[ref := BuildService(c, r, index)])
  {}

  lemma CreatePodAnswers(env: Env, w: World, ref: Ref, pod: Pod)
    ensures var made, w1 := CreatePod(env, w, ref, pod), Tick(env, w);
            var reply := env.reply(|w1.trace|);
            && CreateAnswers(reply, ref in w1.pods, if made.v == CreateFailed then Erred else Fine)
            && made.w.services == w1.services && made.w.jobs == w1.jobs
            && made.w.pods == (if ref in w1.pods || reply == Rejected then w1.pods else w1.pods[ref := pod])
  {}

  /** One turn of SyncPods, in every environment.  If its list answers with a pod that has not failed, that
  is all.  If it answers with none, or fails, a pod is created, at a fresh name, unless the call is turned
  away or the name is taken; the turn fails exactly if no answer but "already exists" came back, and
  panics exactly if no pod can be built. */
  lemma PodTurnAnswers(env: Env, w: World, c: Ctx, r: ReplicaSpec, index: int)
    requires FairListing(env)
    ensures var s, labels, w2 := SyncPodAt(env, w, c, r, index), LabelsOf(c, r.typ, index), Tick(env, Look(env, w));
            var failed := env.readFails(|w2.trace|);
            var listed := Apply(w2, if failed then ListFailed(c.ref.ns, labels, true) else Read);
            var name := GenPodName(c.ref.name, r.typ, c.spec.runtimeId, index, env.random(|listed.trace|, 5));
            var w3, ref := Tick(env, listed), Ref(c.ref.ns, name);
            var reply := env.reply(|w3.trace|);
            if !failed && Live(w2, c.ref.ns, labels) != {} then s == Ret(listed, Fine)
            else if PodPanics(c, r) then s == Ret(listed, Panicked)
            else
              && CreateAnswers(reply, ref in w3.pods, s.v)
              && s.w.services == w3.services && s.w.jobs == w3.jobs
              && s.w.pods == (if ref in w3.pods || reply == Rejected then w3.pods
                              else w3.pods[ref := BuildPod(c, r, index)])
  {
    var w2, labels := Tick(env, Look(env, w)), LabelsOf(c, r.typ, index);
    var mine := ListPods(env, Look(env, w), c.ref.ns, labels, true);
    ListedEmpty(env, w2, c.ref.ns, labels, true);
    assert Selected(w2, c.ref.ns, labels, true) == Live(w2, c.ref.ns, labels);
    if (mine.v.None? || mine.v.value == []) && !PodPanics(c, r) {
      var name := GenPodName(c.ref.name, r.typ, c.spec.runtimeId, index, env.random(|mine.w.trace|, 5));
      CreatePodAnswers(env, mine.w, Ref(c.ref.ns, name), BuildPod(c, r, index));
    }
  }

  // ---------------------------------------------------------------- one set after another

  // The sync of the pods of set i, as far as it matters to the loop over the sets: whether it panics.
  function PodsOfSet(env: Env, c: Ctx): (World, nat) -> Ret<bool>
  {
    (w: World, i: nat) =>
      if i < |c.replicas| then
        var s := SyncPods(env, w, c, c.replicas[i]);
        Ret(s.w, s.v != Panicked)
      else Ret(w, true)
  }

  function ServicesOfSet(env: Env, c: Ctx): (World, nat) -> Ret<bool>
  {
    (w: World, i: nat) => Ret(if i < |c.replicas| then SyncServices(env, w, c, c.replicas[i]).w else w, true)
  }

  /** Pods are synced for one set after another, also after a set whose sync has failed; only a panic ends
  the loop. */
  lemma {:induction false} PodsInTurn(env: Env, w: World, c: Ctx, k: nat) returns (ws: seq<World>)
    requires k <= |c.replicas|
    ensures var s, turn := SyncAllPods(env, w, c, k), PodsOfSet(env, c);
            && GoesThrough(turn, ws, k) && AllBefore(turn, ws, k, true) && ws[0] == w && ws[|ws| - 1] == s.w
            && s.v == (if LastOutcome(turn, ws, k, true) then Fine else Panicked)
            && (s.v == Fine ==> |ws| - 1 == |c.replicas| - k)
    decreases |c.replicas| - k
  {
    if k == |c.replicas| {
      ws := [w];
    } else {
      var one := SyncPods(env, w, c, c.replicas[k]);
      if one.v == Panicked {
        ws := [w, one.w];
      } else {
        var rest := PodsInTurn(env, one.w, c, k + 1);
        ws := [w] + rest;
        OneMoreTurn(PodsOfSet(env, c), w, rest, k, true);
      }
    }
  }

  /** Services are synced for all sets, one after another, whatever fails. */
  lemma {:induction false} ServicesInTurn(env: Env, w: World, c: Ctx, k: nat) returns (ws: seq<World>)
    requires k <= |c.replicas|
    ensures GoesThrough(ServicesOfSet(env, c), ws, k) && AllBefore(ServicesOfSet(env, c), ws, k, true)
    ensures ws[0] == w && ws[|ws| - 1] == SyncAllServices(env, w, c, k) && |ws| - 1 == |c.replicas| - k
    decreases |c.replicas| - k
  {
    if k == |c.replicas| {
      ws := [w];
    } else {
      var rest := ServicesInTurn(env, SyncServices(env, w, c, c.replicas[k]).w, c, k + 1);
      ws := [w] + rest;
      OneMoreTurn(ServicesOfSet(env, c), w, rest, k, true);
    }
  }
}
