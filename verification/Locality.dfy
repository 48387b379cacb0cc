/** A run consults its environment only at the positions of the trace that it adds itself.  So what a
sync does is settled before anything later is decided: a controller that dies in the course of one is
an environment that turns away the rest of that pass, whatever it does afterwards. */
module Locality {
  import opened Wrappers
  import opened Api
  import opened Naming
  import opened Store
  import opened Loops
  import opened Replicas
  import opened Trails
  import opened Training
  import opened Passes
  import opened Durability
  import opened Controller
  import opened Runs

  // What two environments choose at one position.
  ghost predicate SameAt(e: Env, f: Env, n: nat)
  {
    && e.moves(n) == f.moves(n) && e.readFails(n) == f.readFails(n) && e.reply(n) == f.reply(n)
    && forall k: nat :: e.random(n, k) == f.random(n, k)
  }

  ghost predicate SameFrom(e: Env, f: Env, lo: nat, hi: nat)
  {
    e.listing == f.listing && e.order == f.order && forall n: nat :: lo <= n < hi ==> SameAt(e, f, n)
  }

  // ---------------------------------------------------------------- calls

  // Before a call: the environment moves at one position and answers at another.
  lemma CallLocal(e: Env, f: Env, w: World, hi: nat)
    requires SameFrom(e, f, |w.trace|, hi) && |Tick(e, w).trace| < hi
    ensures Tick(f, w) == Tick(e, w) && SameAt(e, f, |Tick(e, w).trace|) && |w.trace| <= |Tick(e, w).trace|
  {
    MovesAreNoCalls(w, e.moves(|w.trace|));
    assert SameAt(e, f, |w.trace|);
  }

  lemma ReadLocal(e: Env, f: Env, w: World, c: Ctx, r: ReplicaSpec, index: int)
    requires SameFrom(e, f, |w.trace|, |ReadReplica(e, w, c, r, index).w.trace|)
    ensures ReadReplica(f, w, c, r, index) == ReadReplica(e, w, c, r, index)
  {
    var hi := |ReadReplica(e, w, c, r, index).w.trace|;
    var got := GetPod(e, w, RefOf(c, r.typ, index));
    if got.v.Some? && got.v.value.phase != PodSucceeded {
      MovesAreNoCalls(got.w, e.moves(|got.w.trace|));
      CallLocal(e, f, w, hi);
      CallLocal(e, f, got.w, hi);
    } else {
      CallLocal(e, f, w, hi);
    }
  }

  lemma UpdateLocal(e: Env, f: Env, w: World, m: Memory)
    requires SameFrom(e, f, |w.trace|, |UpdateCRD(e, w, m).w.trace|)
    ensures UpdateCRD(f, w, m) == UpdateCRD(e, w, m)
  {
    if m.job.status != m.status {
      CallLocal(e, f, w, |UpdateCRD(e, w, m).w.trace|);
    }
  }

  // ---------------------------------------------------------------- pods

  lemma ListLocal(e: Env, f: Env, w: World, ns: string, labels: Labels)
    requires SameFrom(e, f, |w.trace|, |ListPods(e, w, ns, labels, true).w.trace|)
    ensures ListPods(f, w, ns, labels, true) == ListPods(e, w, ns, labels, true)
  {
    CallLocal(e, f, w, |ListPods(e, w, ns, labels, true).w.trace|);
  }

  lemma CreateLocal(e: Env, f: Env, w: World, ref: Ref, pod: Pod)
    requires SameFrom(e, f, |w.trace|, |CreatePod(e, w, ref, pod).w.trace|)
    ensures CreatePod(f, w, ref, pod) == CreatePod(e, w, ref, pod)
  {
    CallLocal(e, f, w, |CreatePod(e, w, ref, pod).w.trace|);
  }

  lemma CreateGrows(e: Env, w: World, ref: Ref, pod: Pod)
    ensures |w.trace| < |CreatePod(e, w, ref, pod).w.trace|
  {
    MovesAreNoCalls(w, e.moves(|w.trace|));
  }

  lemma LookLocal(e: Env, f: Env, w: World, hi: nat)
    requires SameFrom(e, f, |w.trace|, hi) && |Look(e, w).trace| <= hi
    ensures Look(f, w) == Look(e, w) && |w.trace| < |Look(e, w).trace|
  {
    MovesAreNoCalls(w, e.moves(|w.trace|));
    CallLocal(e, f, w, hi);
  }

  // What SyncPodAt does after its list.
  function AfterList(env: Env, mine: Ret<Option<seq<Pod>>>, c: Ctx, r: ReplicaSpec, index: int): Ret<Outcome>
  {
    if mine.v.Some? && mine.v.value != [] then Ret(mine.w, Fine)
    else if PodPanics(c, r) then Ret(mine.w, Panicked)
    else
      var name := GenPodName(c.ref.name, r.typ, c.spec.runtimeId, index, env.random(|mine.w.trace|, 5));
      var made := CreatePod(env, mine.w, Ref(c.ref.ns, name), BuildPod(c, r, index));
      Ret(made.w, if made.v == CreateFailed then Erred else Fine)
  }

  lemma AfterListLocal(e: Env, f: Env, mine: Ret<Option<seq<Pod>>>, c: Ctx, r: ReplicaSpec, index: int)
    requires SameFrom(e, f, |mine.w.trace|, |AfterList(e, mine, c, r, index).w.trace|)
    ensures AfterList(f, mine, c, r, index) == AfterList(e, mine, c, r, index)
  {
    if (mine.v.None? || mine.v.value == []) && !PodPanics(c, r) {
      var name := GenPodName(c.ref.name, r.typ, c.spec.runtimeId, index, e.random(|mine.w.trace|, 5));
      CreateGrows(e, mine.w, Ref(c.ref.ns, name), BuildPod(c, r, index));
      assert SameAt(e, f, |mine.w.trace|);
      CreateLocal(e, f, mine.w, Ref(c.ref.ns, name), BuildPod(c, r, index));
    }
  }

  lemma AfterListGrows(e: Env, mine: Ret<Option<seq<Pod>>>, c: Ctx, r: ReplicaSpec, index: int)
    ensures |mine.w.trace| <= |AfterList(e, mine, c, r, index).w.trace|
  {
    if (mine.v.None? || mine.v.value == []) && !PodPanics(c, r) {
      var name := GenPodName(c.ref.name, r.typ, c.spec.runtimeId, index, e.random(|mine.w.trace|, 5));
      CreateGrows(e, mine.w, Ref(c.ref.ns, name), BuildPod(c, r, index));
    }
  }

  lemma PodTurnLocal(e: Env, f: Env, w: World, c: Ctx, r: ReplicaSpec, index: int)
    requires SameFrom(e, f, |w.trace|, |SyncPodAt(e, w, c, r, index).w.trace|)
    ensures SyncPodAt(f, w, c, r, index) == SyncPodAt(e, w, c, r, index)
  {
    var labels := LabelsOf(c, r.typ, index);
    var seen := Look(e, w);
    var mine := ListPods(e, seen, c.ref.ns, labels, true);
    assert SyncPodAt(e, w, c, r, index) == AfterList(e, mine, c, r, index);
    AfterListGrows(e, mine, c, r, index);
    ListGrows(e, seen, c.ref.ns, labels);
    LookLocal(e, f, w, |SyncPodAt(e, w, c, r, index).w.trace|);
    ListLocal(e, f, seen, c.ref.ns, labels);
    AfterListLocal(e, f, mine, c, r, index);
  }

  lemma ListGrows(e: Env, w: World, ns: string, labels: Labels)
    ensures |w.trace| < |ListPods(e, w, ns, labels, true).w.trace|
  {
    MovesAreNoCalls(w, e.moves(|w.trace|));
  }

  lemma {:induction false} PodLoopLocal(e: Env, f: Env, w: World, c: Ctx, k: nat, index: nat)
    requires k < |c.replicas|
    requires var r := c.replicas[k];
             SameFrom(e, f, |w.trace|, |Loop(PodTurn(e, c, r), w, index, Size(r)).w.trace|)
    ensures var r := c.replicas[k];
            Loop(PodTurn(f, c, r), w, index, Size(r)) == Loop(PodTurn(e, c, r), w, index, Size(r))
    decreases Size(c.replicas[k]) - index
  {
    var r := c.replicas[k];
    if index < Size(r) {
      var turn := PodTurn(e, c, r)(w, index);
      SyncPodAtTrail(e, w, c, k, index);
      if turn.v == Fine {
        PodLoopTrail(e, turn.w, c, k, index + 1);
        PodTurnLocal(e, f, w, c, r, index);
        PodLoopLocal(e, f, turn.w, c, k, index + 1);
      } else {
        PodTurnLocal(e, f, w, c, r, index);
      }
    }
  }

  lemma {:induction false} PodsLocal(e: Env, f: Env, w: World, c: Ctx, k: nat)
    requires k <= |c.replicas| && SameFrom(e, f, |w.trace|, |SyncAllPods(e, w, c, k).w.trace|)
    ensures SyncAllPods(f, w, c, k) == SyncAllPods(e, w, c, k)
    decreases |c.replicas| - k
  {
    if k < |c.replicas| {
      var one := SyncPods(e, w, c, c.replicas[k]);
      SyncPodsTrail(e, w, c, k);
      if one.v != Panicked {
        SyncAllPodsTrail(e, one.w, c, k + 1);
      }
      if c.replicas[k].replicas.Some? {
        PodLoopLocal(e, f, w, c, k, 0);
      }
      if one.v != Panicked {
        PodsLocal(e, f, one.w, c, k + 1);
      }
    }
  }

  // ---------------------------------------------------------------- services

  lemma ServiceTurnLocal(e: Env, f: Env, w: World, c: Ctx, r: ReplicaSpec, index: int)
    requires SameFrom(e, f, |w.trace|, |SyncServiceAt(e, w, c, r, index).w.trace|)
    ensures SyncServiceAt(f, w, c, r, index) == SyncServiceAt(e, w, c, r, index)
  {
    var hi := |SyncServiceAt(e, w, c, r, index).w.trace|;
    var got := GetService(e, w, RefOf(c, r.typ, index));
    MovesAreNoCalls(got.w, e.moves(|got.w.trace|));
    CallLocal(e, f, w, hi);
    if got.v == NotFound {
      CallLocal(e, f, got.w, hi);
    }
  }

  lemma {:induction false} ServiceLoopGrows(e: Env, w: World, c: Ctx, k: nat, index: nat)
    requires k < |c.replicas|
    ensures var r := c.replicas[k]; |w.trace| <= |Loop(ServiceTurn(e, c, r), w, index, Size(r)).w.trace|
    decreases Size(c.replicas[k]) - index
  {
    if index < Size(c.replicas[k]) {
      SyncServiceAtTrail(e, w, c, k, index);
      ServiceLoopGrows(e, SyncServiceAt(e, w, c, c.replicas[k], index).w, c, k, index + 1);
    }
  }

  lemma {:induction false} ServiceLoopLocal(e: Env, f: Env, w: World, c: Ctx, k: nat, index: nat)
    requires k < |c.replicas|
    requires var r := c.replicas[k];
             SameFrom(e, f, |w.trace|, |Loop(ServiceTurn(e, c, r), w, index, Size(r)).w.trace|)
    ensures var r := c.replicas[k];
            Loop(ServiceTurn(f, c, r), w, index, Size(r)) == Loop(ServiceTurn(e, c, r), w, index, Size(r))
    decreases Size(c.replicas[k]) - index
  {
    var r := c.replicas[k];
    if index < Size(r) {
      var turn := ServiceTurn(e, c, r)(w, index);
      SyncServiceAtTrail(e, w, c, k, index);
      if turn.v == Fine {
        ServiceLoopGrows(e, turn.w, c, k, index + 1);
        ServiceTurnLocal(e, f, w, c, r, index);
        ServiceLoopLocal(e, f, turn.w, c, k, index + 1);
      } else {
        ServiceTurnLocal(e, f, w, c, r, index);
      }
    }
  }

  lemma {:induction false} ServicesLocal(e: Env, f: Env, w: World, c: Ctx, k: nat)
    requires k <= |c.replicas| && SameFrom(e, f, |w.trace|, |SyncAllServices(e, w, c, k).trace|)
    ensures SyncAllServices(f, w, c, k) == SyncAllServices(e, w, c, k)
    decreases |c.replicas| - k
  {
    if k < |c.replicas| {
      var one := SyncServices(e, w, c, c.replicas[k]);
      SyncServicesTrail(e, w, c, k);
      SyncAllServicesTrail(e, one.w, c, k + 1);
      ServiceLoopLocal(e, f, w, c, k, 0);
      ServicesLocal(e, f, one.w, c, k + 1);
    }
  }

  // ---------------------------------------------------------------- status

  lemma {:induction false} SetLocal(e: Env, f: Env, w: World, c: Ctx, r: ReplicaSpec, index: nat)
    requires SameFrom(e, f, |w.trace|, |ReadSet(e, w, c, r, index).w.trace|)
    ensures ReadSet(f, w, c, r, index) == ReadSet(e, w, c, r, index)
    decreases Size(r) - index
  {
    if index < Size(r) {
      var one := ReadReplica(e, w, c, r, index).w;
      ReplicaReadCreatesNothing(e, w, c, r, index);
      SetReadCreatesNothing(e, one, c, r, index + 1);
      ReadLocal(e, f, w, c, r, index);
      SetLocal(e, f, one, c, r, index + 1);
    }
  }

  lemma {:induction false} AllLocal(e: Env, f: Env, w: World, c: Ctx, chief: Chief, k: nat, state: ReplicaState)
    requires k <= |c.replicas| && SameFrom(e, f, |w.trace|, |ReadAll(e, w, c, chief, k, state).w.trace|)
    ensures ReadAll(f, w, c, chief, k, state) == ReadAll(e, w, c, chief, k, state)
    decreases |c.replicas| - k
  {
    if k < |c.replicas| {
      var r, at := c.replicas[k], ToInt32(chief.index);
      var w1 := ReadSet(e, w, c, r, 0).w;
      var own := ReadChief(e, w1, c, r, chief, state);
      SetReadCreatesNothing(e, w, c, r, 0);
      ReplicaReadCreatesNothing(e, w1, c, r, at);
      AllReadCreatesNothing(e, own.w, c, chief, k + 1, own.v);
      SetLocal(e, f, w, c, r, 0);
      if r.typ == chief.name {
        ReadLocal(e, f, w1, c, r, at);
      }
      AllLocal(e, f, own.w, c, chief, k + 1, own.v);
    }
  }

  // ---------------------------------------------------------------- the parts of a pass

  lemma PushLocal(e: Env, f: Env, w: World, m: Memory)
    requires SameFrom(e, f, |w.trace|, |Push(e, w, m).w.trace|)
    ensures Push(f, w, m) == Push(e, w, m)
  {
    var c := CtxOf(m);
    var pods := SyncAllPods(e, w, c, 0);
    if pods.v == Panicked {
      PodsLocal(e, f, w, c, 0);
    } else {
      var w2 := SyncAllServices(e, pods.w, c, 0);
      SyncAllPodsTrail(e, w, c, 0);
      SyncAllServicesTrail(e, pods.w, c, 0);
      UpdateCRDCreatesNothing(e, w2, m);
      PodsLocal(e, f, w, c, 0);
      ServicesLocal(e, f, pods.w, c, 0);
      UpdateLocal(e, f, w2, m);
    }
  }

  lemma ObserveLocal(e: Env, f: Env, w: World, m: Memory)
    requires SameFrom(e, f, |w.trace|, |Observe(e, w, m).w.trace|)
    ensures Observe(f, w, m) == Observe(e, w, m)
  {
    var c := CtxOf(m);
    if ChiefReadable(c) {
      var read := GetStatus(e, w, c);
      var m' := m.(status := NextStatus(m.status, JobState(read.v.chief), read.v.statuses));
      UpdateCRDCreatesNothing(e, read.w, m');
      if c.replicas != [] {
        var chief := c.spec.policy.value.chief.value;
        AllReadCreatesNothing(e, w, c, chief, 0, ReplicaUnknown);
        AllLocal(e, f, w, c, chief, 0, ReplicaUnknown);
      }
      UpdateLocal(e, f, read.w, m');
    }
  }

  lemma PrepareLocal(e: Env, f: Env, w: World, m: Memory)
    requires SameFrom(e, f, |w.trace|, |Prepare(e, w, m).w.trace|)
    ensures Prepare(f, w, m) == Prepare(e, w, m)
  {
    var b := SetupReplicas(m);
    if b.out == Erred {
      UpdateLocal(e, f, w, m.(replicas := b.replicas, status := m.status.(reason := CouldNotCreate(b.why.value))));
    }
  }

  lemma ProceedLocal(e: Env, f: Env, w: World, m: Memory)
    requires Agrees(m) && m.status.phase != NoPhase && m.status.phase != CleanUp
    requires SameFrom(e, f, |w.trace|, |Proceed(e, w, m).w.trace|)
    ensures Proceed(f, w, m) == Proceed(e, w, m)
  {
    var c, d := CtxOf(m), Push(e, w, m);
    PushStep(e, c, AnyPuts, w, m);
    if d.v.out == Fine {
      var o := Observe(e, d.w, m);
      ObserveStep(e, c, AnyPuts, d.w, m);
      if o.v.out == Fine {
        FinishIsIdle(e, o.w, o.v.m);
        FinishIsIdle(f, o.w, o.v.m);
      }
      ObserveCreatesNothing(e, d.w, m);
      PushLocal(e, f, w, m);
      ObserveLocal(e, f, d.w, m);
    } else {
      PushLocal(e, f, w, m);
    }
  }

  lemma RestLocal(e: Env, f: Env, w: World, m: Memory)
    requires Agrees(m) && m.status.phase != NoPhase && m.status.phase != CleanUp
    requires SameFrom(e, f, |w.trace|, |Rest(e, w, m).w.trace|)
    ensures Rest(f, w, m) == Rest(e, w, m)
  {
    var b := Prepare(e, w, m);
    PrepareCreatesNothing(e, w, m);
    PrepareLocal(e, f, w, m);
    if b.v.out == Fine {
      ProceedLocal(e, f, w, b.v.m);
    }
  }

  lemma BeginLocal(e: Env, f: Env, w: World, m: Memory, accelerators: Accelerators)
    requires Agrees(m) && m.status.phase == NoPhase
    requires SameFrom(e, f, |w.trace|, |Begin(e, w, m, accelerators).w.trace|)
    ensures Begin(f, w, m, accelerators) == Begin(e, w, m, accelerators)
  {
    var m1 := Setup(e, w, m, accelerators);
    SetupPhase(e, w, m, accelerators);
    MovesAreNoCalls(w, e.moves(|w.trace|));
    assert SameAt(e, f, |w.trace|);
    assert Setup(f, w, m, accelerators) == m1;
    UpdateLocal(e, f, w, m1);
  }

  /** Two environments that agree at the positions a pass adds to the trace give the same pass. */
  lemma PassIsLocal(e: Env, f: Env, w: World, m: Memory, accelerators: Accelerators)
    requires Agrees(m) && m.status.phase != CleanUp
    requires SameFrom(e, f, |w.trace|, |Reconcile(e, w, m, accelerators).w.trace|)
    ensures Reconcile(f, w, m, accelerators) == Reconcile(e, w, m, accelerators)
  {
    if m.status.phase != NoPhase {
      RestLocal(e, f, w, m);
    } else {
      var a := Begin(e, w, m, accelerators);
      BeginKeeps(e, w, m, accelerators);
      if a.v.out == Fine {
        RestStep(e, AnyPuts, a.w, a.v.m);
        BeginLocal(e, f, w, m, accelerators);
        RestLocal(e, f, a.w, a.v.m);
      } else {
        BeginLocal(e, f, w, m, accelerators);
      }
    }
  }

  lemma GetJobLocal(e: Env, f: Env, w: World, ref: Ref)
    requires SameFrom(e, f, |w.trace|, |GetJob(e, w, ref).w.trace|)
    ensures GetJob(f, w, ref) == GetJob(e, w, ref)
  {
    CallLocal(e, f, w, |GetJob(e, w, ref).w.trace|);
  }

  lemma ConcludeLocal(e: Env, f: Env, w: World, jobs: Jobs, ref: Ref, out: Outcome)
    requires SameFrom(e, f, |w.trace|, |Conclude(e, w, jobs, ref, out).w.trace|)
    ensures Conclude(f, w, jobs, ref, out) == Conclude(e, w, jobs, ref, out)
  {
    if out == Fine {
      GetJobLocal(e, f, w, ref);
    }
  }

  lemma ConcludeGrows(e: Env, w: World, jobs: Jobs, ref: Ref, out: Outcome)
    ensures |w.trace| <= |Conclude(e, w, jobs, ref, out).w.trace|
  {
    MovesAreNoCalls(w, e.moves(|w.trace|));
  }

  lemma SyncIsLocal(e: Env, f: Env, w: World, jobs: Jobs, key: string, job: Job, accelerators: Accelerators)
    requires SplitKey(key).Some?
    requires var m := Adopt(jobs, key, job); Agrees(m) && m.status.phase != CleanUp
    requires SameFrom(e, f, |w.trace|, |SyncJob(e, w, jobs, key, InCache(job), accelerators).w.trace|)
    ensures SyncJob(f, w, jobs, key, InCache(job), accelerators) == SyncJob(e, w, jobs, key, InCache(job), accelerators)
  {
    var m, ref := Adopt(jobs, key, job), SplitKey(key).value;
    var p := Reconcile(e, w, m, accelerators);
    ReconcileKeeps(e, w, m, accelerators);
    ConcludeGrows(e, p.w, jobs[key := p.v.m], ref, p.v.out);
    PassIsLocal(e, f, w, m, accelerators);
    ConcludeLocal(e, f, p.w, jobs[key := p.v.m], ref, p.v.out);
  }

  lemma ActIsLocal(e: Env, f: Env, s: System, a: Action, accelerators: Accelerators)
    requires Sound(s) && SameFrom(e, f, |s.w.trace|, |Act(e, s, a, accelerators).w.trace|)
    ensures Act(f, s, a, accelerators) == Act(e, s, a, accelerators)
  {
    if Effective(s, a) {
      TargetReady(s, a);
      EffectiveAct(e, s, a, accelerators);
      EffectiveAct(f, s, a, accelerators);
      SyncIsLocal(e, f, s.w, s.jobs, a.key, s.w.jobs[SplitKey(a.key).value], accelerators);
    }
  }

  /** Two environments that agree at the positions a run adds to the trace give the same run. */
  lemma {:induction false} RunIsLocal(e: Env, f: Env, s: System, actions: seq<Action>, accelerators: Accelerators)
    requires Sound(s) && SameFrom(e, f, |s.w.trace|, |Run(e, s, actions, accelerators).w.trace|)
    ensures Run(f, s, actions, accelerators) == Run(e, s, actions, accelerators)
    decreases |actions|
  {
    if actions != [] {
      var s1 := Act(e, s, actions[0], accelerators);
      ActEvents(e, s, actions[0], accelerators);
      ActIsSound(e, s, actions[0], accelerators);
      RunEvents(e, s1, actions[1..], accelerators);
      ActIsLocal(e, f, s, actions[0], accelerators);
      RunIsLocal(e, f, s1, actions[1..], accelerators);
    }
  }
}
