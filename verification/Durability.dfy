/** What write-ahead hangs on: the cached job takes the new status before the write, so a write that
fails is not tried again, and unless the controller is restarted the next pass creates pods for a
job that is not stored as set up. */
module Durability {
  import opened Api
  import opened Store
  import opened Loops
  import opened Replicas
  import opened Trails
  import opened Training
  import opened Passes
  import opened CalmPasses

  // ---------------------------------------------------------------- what writes ahead, exactly

  lemma {:induction false} WriteAheadPrefix(c: Ctx, w: World, a: seq<Event>, b: seq<Event>)
    requires WriteAhead(c, w, a + b)
    ensures WriteAhead(c, w, a)
    decreases |a|
  {
    if a != [] {
      assert (a + b)[0] == a[0] && (a + b)[1..] == a[1..] + b;
      WriteAheadPrefix(c, Apply(w, a[0]), a[1..], b);
    }
  }

  // Without a status write among them, events over a job that is not set up write ahead only if
  // nothing is created.
  lemma {:induction false} QuietWriteAhead(env: Env, c: Ctx, w: World, es: seq<Event>)
    requires LegalAll(env, c, NoPuts, w, es) && !SetUp(c, w) && WriteAhead(c, w, es)
    ensures NoCreation(es)
    decreases |es|
  {
    if es != [] {
      QuietWriteAhead(env, c, Apply(w, es[0]), es[1..]);
      assert es == [es[0]] + es[1..];
    }
  }

  // ---------------------------------------------------------------- reading creates nothing

  lemma ListCreatesNothing(env: Env, w: World, ns: string, labels: Labels, notFailed: bool)
    ensures var w' := ListPods(env, w, ns, labels, notFailed).w; w.trace <= w'.trace && NoCreation(Since(w, w'))
  {
    var w1 := Tick(env, w);
    MovesCreateNothing(w, env.moves(|w.trace|));
    SinceConcat(w, w1, ListPods(env, w, ns, labels, notFailed).w);
  }

  lemma GetPodCreatesNothing(env: Env, w: World, ref: Ref)
    ensures var w' := GetPod(env, w, ref).w; w.trace <= w'.trace && NoCreation(Since(w, w'))
  {
    var w1 := Tick(env, w);
    MovesCreateNothing(w, env.moves(|w.trace|));
    SinceConcat(w, w1, GetPod(env, w, ref).w);
  }

  lemma ReplicaReadCreatesNothing(env: Env, w: World, c: Ctx, r: ReplicaSpec, index: int)
    ensures var w' := ReadReplica(env, w, c, r, index).w; w.trace <= w'.trace && NoCreation(Since(w, w'))
  {
    var got := GetPod(env, w, RefOf(c, r.typ, index));
    GetPodCreatesNothing(env, w, RefOf(c, r.typ, index));
    ListCreatesNothing(env, got.w, c.ref.ns, LabelsOf(c, r.typ, index), false);
    SinceConcat(w, got.w, ListPods(env, got.w, c.ref.ns, LabelsOf(c, r.typ, index), false).w);
  }

  lemma {:induction false} SetReadCreatesNothing(env: Env, w: World, c: Ctx, r: ReplicaSpec, index: nat)
    ensures var w' := ReadSet(env, w, c, r, index).w; w.trace <= w'.trace && NoCreation(Since(w, w'))
    decreases Size(r) - index
  {
    if index < Size(r) {
      var one := ReadReplica(env, w, c, r, index).w;
      ReplicaReadCreatesNothing(env, w, c, r, index);
      SetReadCreatesNothing(env, one, c, r, index + 1);
      SinceConcat(w, one, ReadSet(env, w, c, r, index).w);
    }
  }

  lemma {:induction false} AllReadCreatesNothing(env: Env, w: World, c: Ctx, chief: Chief, k: nat, state: ReplicaState)
    requires k <= |c.replicas|
    ensures var w' := ReadAll(env, w, c, chief, k, state).w; w.trace <= w'.trace && NoCreation(Since(w, w'))
    decreases |c.replicas| - k
  {
    if k < |c.replicas| {
      var r := c.replicas[k];
      var w1 := ReadSet(env, w, c, r, 0).w;
      SetReadCreatesNothing(env, w, c, r, 0);
      var own := ReadChief(env, w1, c, r, chief, state);
      ReplicaReadCreatesNothing(env, w1, c, r, ToInt32(chief.index));
      AllReadCreatesNothing(env, own.w, c, chief, k + 1, own.v);
      SinceConcat(w, w1, own.w);
      SinceConcat(w, own.w, ReadAll(env, w, c, chief, k, state).w);
    }
  }

  lemma ObserveCreatesNothing(env: Env, w: World, m: Memory)
    ensures var w' := Observe(env, w, m).w; w.trace <= w'.trace && NoCreation(Since(w, w'))
  {
    var c := CtxOf(m);
    if ChiefReadable(c) {
      var read := GetStatus(env, w, c);
      if c.replicas != [] {
        AllReadCreatesNothing(env, w, c, c.spec.policy.value.chief.value, 0, ReplicaUnknown);
      }
      var m' := m.(status := NextStatus(m.status, JobState(read.v.chief), read.v.statuses));
      UpdateCRDCreatesNothing(env, read.w, m');
      SinceConcat(w, read.w, UpdateCRD(env, read.w, m').w);
    }
  }

  // ---------------------------------------------------------------- a pass

  // A pass of which only the first stretch, which writes no status, creates anything.
  lemma QuietThenNothing(env: Env, c: Ctx, w: World, w1: World, w2: World)
    requires Trail(env, c, NoPuts, w, w1) && w1.trace <= w2.trace && NoCreation(Since(w1, w2)) && !SetUp(c, w)
    requires WriteAhead(c, w, Since(w, w2))
    ensures NoCreation(Since(w, w2))
  {
    SinceConcat(w, w1, w2);
    WriteAheadPrefix(c, w, Since(w, w1), Since(w1, w2));
    QuietWriteAhead(env, c, w, Since(w, w1));
  }

  lemma ProceedWritesAhead(env: Env, w: World, m: Memory)
    requires Agrees(m) && m.status.phase != NoPhase && m.status.phase != CleanUp
    requires !SetUp(CtxOf(m), w) && WriteAhead(CtxOf(m), w, Since(w, Proceed(env, w, m).w))
    ensures NoCreation(Since(w, Proceed(env, w, m).w))
  {
    var c, d, p := CtxOf(m), Push(env, w, m), Proceed(env, w, m);
    PushStep(env, c, AnyPuts, w, m);
    if d.v.out == Fine {
      var e := Observe(env, d.w, m);
      ObserveStep(env, c, AnyPuts, d.w, m);
      ObserveCreatesNothing(env, d.w, m);
      FinishIsIdle(env, e.w, e.v.m);
    } else {
      assert Since(d.w, p.w) == [];
    }
    QuietThenNothing(env, c, w, d.w, p.w);
  }

  lemma PrepareCreatesNothing(env: Env, w: World, m: Memory)
    ensures var b := Prepare(env, w, m);
            w.trace <= b.w.trace && NoCreation(Since(w, b.w)) && (b.v.out == Fine ==> b.w == w)
  {
    var b := SetupReplicas(m);
    assert Since(w, w) == [];
    if b.out == Erred {
      var status := m.status.(reason := CouldNotCreate(b.why.value));
      UpdateCRDCreatesNothing(env, w, m.(replicas := b.replicas, status := status));
    }
  }

  /** A pass of a started job writes ahead, in every environment, exactly if the stored job is set up
  as the pass begins, or the pass creates nothing. */
  lemma WriteAheadExactly(env: Env, w: World, m: Memory, accelerators: Accelerators)
    requires Agrees(m) && m.status.phase != NoPhase && m.status.phase != CleanUp
    ensures var p := Reconcile(env, w, m, accelerators);
            WriteAhead(CtxOf(p.v.m), w, Since(w, p.w)) <==> SetUp(CtxOf(p.v.m), w) || NoCreation(Since(w, p.w))
  {
    var p := Reconcile(env, w, m, accelerators);
    var c, es := CtxOf(p.v.m), Since(w, p.w);
    ReconcileKeeps(env, w, m, accelerators);
    if SetUp(c, w) {
      SetUpStays(env, c, PutsFrom(m), w, es);
    } else if NoCreation(es) {
      NothingToWriteAhead(c, w, es);
    } else {
      if WriteAhead(c, w, es) {
        RestWritesAhead(env, w, m);
      }
    }
  }

  lemma RestWritesAhead(env: Env, w: World, m: Memory)
    requires Agrees(m) && m.status.phase != NoPhase && m.status.phase != CleanUp
    requires var p := Rest(env, w, m); !SetUp(CtxOf(p.v.m), w) && WriteAhead(CtxOf(p.v.m), w, Since(w, p.w))
    ensures NoCreation(Since(w, Rest(env, w, m).w))
  {
    var b := Prepare(env, w, m);
    PrepareCreatesNothing(env, w, m);
    if b.v.out == Fine {
      RestStep(env, AnyPuts, w, m);
      ProceedStep(env, AnyPuts, w, b.v.m);
      ProceedWritesAhead(env, w, b.v.m);
    }
  }

  // ---------------------------------------------------------------- a pass that creates at once

  // Set k is the first one with pods to create.
  predicate FirstSized(rs: seq<ReplicaSpec>, k: nat)
  {
    k < |rs| && Size(rs[k]) > 0 && forall j :: 0 <= j < k ==> rs[j].replicas.Some? && Size(rs[j]) <= 0
  }

  // A pass over m that gets so far creates a pod of set k at once, if the set's first replica has none.
  ghost predicate CreatesAtOnce(m: Memory, k: nat)
  {
    var b := SetupReplicas(m);
    b.out == Fine && FirstSized(b.replicas, k) && !PodPanics(CtxOf(m.(replicas := b.replicas)), b.replicas[k])
  }

  function BuiltCtx(m: Memory): Ctx
  {
    CtxOf(m.(replicas := SetupReplicas(m).replicas))
  }

  // The first replica of set k has no live pod, and the name its pod will get is free.
  ghost predicate Vacant(env: Env, w: World, c: Ctx, k: nat)
    requires k < |c.replicas|
  {
    && Live(w, c.ref.ns, LabelsOf(c, c.replicas[k].typ, 0)) == {}
    && PodRef(env, w, c, c.replicas[k], 0) !in w.pods
  }

  function FirstPod(env: Env, w: World, c: Ctx, k: nat): Event
    requires k < |c.replicas| && c.replicas[k].template.Some?
  {
    PodCreated(PodRef(env, w, c, c.replicas[k], 0), BuildPod(c, c.replicas[k], 0))
  }

  // The calls of a first turn find the environment unmoved and are answered.
  predicate FirstTurnGoes(env: Env, w: World)
  {
    && env.moves(|w.trace|) == [] && env.moves(|w.trace| + 1) == [] && env.moves(|w.trace| + 2) == []
    && !env.readFails(|w.trace| + 1) && env.reply(|w.trace| + 2) == Answered
  }

  lemma SetBegins(env: Env, w: World, c: Ctx, k: nat)
    requires FairListing(env) && FirstTurnGoes(env, w) && k < |c.replicas| && Vacant(env, w, c, k)
    requires Size(c.replicas[k]) > 0 && !PodPanics(c, c.replicas[k])
    ensures w.trace + [Read, Read, FirstPod(env, w, c, k)] <= SyncPods(env, w, c, c.replicas[k]).w.trace
  {
    var r := c.replicas[k];
    var turn := PodTurn(env, c, r);
    UnmovedSyncPodAt(env, w, c, r, 0);
    assert turn(w, 0) == Ret(Apply(AfterReads(w), FirstPod(env, w, c, k)), Fine);
    assert turn(w, 0).w.trace == w.trace + [Read, Read, FirstPod(env, w, c, k)];
    PodLoopTrail(env, turn(w, 0).w, c, k, 1);
  }

  lemma {:induction false} EmptySetsAreSkipped(env: Env, w: World, c: Ctx, j: nat, k: nat)
    requires j <= k <= |c.replicas|
    requires forall i :: j <= i < k ==> c.replicas[i].replicas.Some? && Size(c.replicas[i]) <= 0
    ensures SyncAllPods(env, w, c, j) == SyncAllPods(env, w, c, k)
    decreases k - j
  {
    if j < k {
      assert SyncPods(env, w, c, c.replicas[j]) == Ret(w, Fine);
      EmptySetsAreSkipped(env, w, c, j + 1, k);
    }
  }

  lemma SyncGoesOn(env: Env, w: World, c: Ctx, k: nat)
    requires k < |c.replicas|
    ensures SyncPods(env, w, c, c.replicas[k]).w.trace <= SyncAllPods(env, w, c, k).w.trace
  {
    var s := SyncPods(env, w, c, c.replicas[k]);
    if s.v != Panicked {
      SyncAllPodsTrail(env, s.w, c, k + 1);
    }
  }

  // A sync of pods over a vacant first replica starts with two reads and a creation.
  lemma SyncBegins(env: Env, w: World, c: Ctx, k: nat)
    requires FairListing(env) && FirstTurnGoes(env, w) && FirstSized(c.replicas, k) && Vacant(env, w, c, k)
    requires !PodPanics(c, c.replicas[k])
    ensures w.trace + [Read, Read, FirstPod(env, w, c, k)] <= SyncAllPods(env, w, c, 0).w.trace
  {
    EmptySetsAreSkipped(env, w, c, 0, k);
    SetBegins(env, w, c, k);
    SyncGoesOn(env, w, c, k);
  }

  lemma PushBegins(env: Env, w: World, m: Memory, k: nat)
    requires var c := CtxOf(m);
             && FairListing(env) && FirstTurnGoes(env, w) && FirstSized(c.replicas, k) && Vacant(env, w, c, k)
             && !PodPanics(c, c.replicas[k])
    ensures w.trace + [Read, Read, FirstPod(env, w, CtxOf(m), k)] <= Push(env, w, m).w.trace
  {
    var c := CtxOf(m);
    var pods := SyncAllPods(env, w, c, 0);
    SyncBegins(env, w, c, k);
    if pods.v != Panicked {
      SyncAllServicesTrail(env, pods.w, c, 0);
      UpdateCRDCreatesNothing(env, SyncAllServices(env, pods.w, c, 0), m);
    }
  }

  lemma PassBegins(env: Env, w: World, m: Memory, k: nat)
    requires FairListing(env) && FirstTurnGoes(env, w) && CreatesAtOnce(m, k) && Vacant(env, w, BuiltCtx(m), k)
    requires Agrees(m) && m.status.phase != NoPhase && m.status.phase != CleanUp
    ensures var p, c := Rest(env, w, m), BuiltCtx(m);
            CtxOf(p.v.m) == c && w.trace + [Read, Read, FirstPod(env, w, c, k)] <= p.w.trace
  {
    var b := Prepare(env, w, m);
    RestStep(env, AnyPuts, w, m);
    PushBegins(env, w, b.v.m, k);
    var d := Push(env, w, b.v.m);
    if d.v.out == Fine {
      ObserveCreatesNothing(env, d.w, d.v.m);
      PushStep(env, CtxOf(b.v.m), AnyPuts, w, b.v.m);
      ObserveStep(env, CtxOf(b.v.m), AnyPuts, d.w, b.v.m);
    }
  }

  lemma BeginningCreates(w: World, w': World, e: Event)
    requires Creation(e) && w.trace + [Read, Read, e] <= w'.trace
    ensures e in Since(w, w') && !NoCreation(Since(w, w'))
  {
    assert Since(w, w')[2] == e;
  }

  /** A setup write that is turned away, with no restart after it, does break write-ahead: the store
  still has the job as it was, and the next pass creates a pod for it. */
  lemma RefusedWriteBreaksWriteAhead(env: Env, w: World, m: Memory, accelerators: Accelerators, k: nat)
    requires m.status.phase == NoPhase && Agrees(m) && InSync(w, m) && w.pods == map[] && FairListing(env)
    requires env.moves(|w.trace|) == [] && env.reply(|w.trace|) == Rejected
    requires var p := Reconcile(env, w, m, accelerators); CreatesAtOnce(p.v.m, k) && FirstTurnGoes(env, p.w)
    ensures var p := Reconcile(env, w, m, accelerators);
            var q := Reconcile(env, p.w, p.v.m, accelerators);
            && p.v.out == Erred && Agrees(p.v.m) && p.w.jobs == w.jobs
            && !WriteAhead(CtxOf(q.v.m), p.w, Since(p.w, q.w))
  {
    var p := Reconcile(env, w, m, accelerators);
    SetupPhase(env, w, m, accelerators);
    assert Tick(env, w) == w;
    assert p.w == Apply(w, Refused(UpdateJobVerb));
    var c := BuiltCtx(p.v.m);
    assert Vacant(env, p.w, c, k);
    PassBegins(env, p.w, p.v.m, k);
    var q := Reconcile(env, p.w, p.v.m, accelerators);
    BeginningCreates(p.w, q.w, FirstPod(env, p.w, c, k));
    WriteAheadExactly(env, p.w, p.v.m, accelerators);
  }
}
