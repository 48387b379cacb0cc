/** Quiescence: once a pass has gone through undisturbed, the next one changes nothing. */
module Quiescence {
  import opened Wrappers
  import opened Api
  import opened Store
  import opened Loops
  import opened Replicas
  import opened Training
  import opened Passes
  import opened CalmPasses

  // A pass that found a calm environment and was refused nothing: no random pod name was taken,
  // and the stored job could be written.
  ghost predicate Undisturbed(env: Env, w: World, w': World)
  {
    Still(env, w) && w.trace <= w'.trace && NoneRefused(Since(w, w'))
  }

  lemma CalmUpdate(env: Env, w: World, m: Memory)
    requires Still(env, w)
    ensures var u := UpdateCRD(env, w, m);
            && Still(env, u.w) && w.trace <= u.w.trace && Agrees(u.v.m)
            && u.v.m == m.(job := m.job.(status := m.status))
            && u.w.pods == w.pods && u.w.services == w.services
            && (Agrees(m) ==> u.w == w && u.v.out == Fine)
            && (NoneRefused(Since(w, u.w)) ==> u.v.out == Fine)
  {
    StillTick(env, w);
    var u := UpdateCRD(env, w, m);
    StillLater(env, w, u.w);
    if u.v.out != Fine {
      assert Since(w, u.w) == [Refused(UpdateJobVerb)];
      assert Refused(UpdateJobVerb) in Since(w, u.w);
    }
  }

  // What GetStatus reads off these pods.
  function ReadingOf(env: Env, pods: map<Ref, Pod>, c: Ctx): Reading
    requires ChiefReadable(c)
  {
    if c.replicas == [] then Reading(ReplicaUnknown, [])
    else ReadingFromPods(env, pods, c, c.spec.policy.value.chief.value, 0, ReplicaUnknown)
  }

  lemma CalmGetStatus(env: Env, w: World, c: Ctx)
    requires Still(env, w) && ChiefReadable(c)
    ensures var s := GetStatus(env, w, c);
            && Idle(w, s.w) && Still(env, s.w)
            && s.v == ReadingOf(env, w.pods, c)
  {
    IdleRead(w);
    if c.replicas != [] {
      CalmReadAll(env, w, c, c.spec.policy.value.chief.value, 0, ReplicaUnknown);
    }
  }

  // ---------------------------------------------------------------- where an undisturbed pass ends

  // The memory and store an undisturbed pass leaves: either the replica sets cannot be built, and
  // the status says why, or everything is there and the status is what the pods say.
  ghost predicate Rested(env: Env, w: World, m: Memory)
  {
    && Agrees(m) && m.status.phase != NoPhase && m.status.phase != CleanUp
    && var b := SetupReplicas(m);
    && b.replicas == m.replicas
    && (b.out == Erred ==> m.status.reason == CouldNotCreate(b.why.value))
    && (b.out == Fine ==>
          && Settled(w, CtxOf(m)) && ChiefReadable(CtxOf(m))
          && exists m0 :: m.status == StatusFrom(env, w, CtxOf(m), m0))
    && b.out != Panicked
  }

  // The status that reading these pods turns another one into.
  function StatusFrom(env: Env, w: World, c: Ctx, before: Status): Status
    requires ChiefReadable(c)
  {
    var read := ReadingOf(env, w.pods, c);
    NextStatus(before, JobState(read.chief), read.statuses)
  }

  lemma StatusFromTwice(env: Env, w: World, c: Ctx, before: Status)
    requires ChiefReadable(c)
    ensures StatusFrom(env, w, c, StatusFrom(env, w, c, before)) == StatusFrom(env, w, c, before)
  {}

  lemma StatusFromSamePods(env: Env, w: World, w': World, c: Ctx, before: Status)
    requires ChiefReadable(c) && w.pods == w'.pods
    ensures StatusFrom(env, w, c, before) == StatusFrom(env, w', c, before)
  {}

  /** From a rested state, another pass in calm issues no write at all: store and memory stay as
  they are, and it ends the same way every time. */
  lemma RestedStaysPut(env: Env, w: World, m: Memory, accelerators: Accelerators)
    requires Still(env, w) && Rested(env, w, m)
    ensures var p := Reconcile(env, w, m, accelerators);
            Idle(w, p.w) && p.v.m == m && (p.v.out == Erred <==> SetupReplicas(m).out == Erred) && p.v.out != Panicked
  {
    IdleRead(w);
    var b := SetupReplicas(m);
    if b.out == Fine {
      RestedPush(env, w, m);
      var d := Push(env, w, m);
      RestedObserve(env, d.w, m, w);
      var e := Observe(env, d.w, m);
      IdleTrans(w, d.w, e.w);
    }
  }

  lemma RestedPush(env: Env, w: World, m: Memory)
    requires Still(env, w) && Settled(w, CtxOf(m)) && Agrees(m)
    ensures var d := Push(env, w, m); Idle(w, d.w) && Still(env, d.w) && d.v == Turn(m, Fine)
  {
    var c := CtxOf(m);
    var pods := SyncAllPods(env, w, c, 0);
    SettledAllPods(env, w, c, 0);
    StillLater(env, w, pods.w);
    SettledIdle(w, pods.w, c);
    SettledAllServices(env, pods.w, c, 0);
    IdleTrans(w, pods.w, SyncAllServices(env, pods.w, c, 0));
    StillLater(env, w, SyncAllServices(env, pods.w, c, 0));
  }

  lemma RestedObserve(env: Env, w: World, m: Memory, w0: World)
    requires Still(env, w) && Agrees(m) && ChiefReadable(CtxOf(m)) && w.pods == w0.pods
    requires exists m0 :: m.status == StatusFrom(env, w0, CtxOf(m), m0)
    ensures var e := Observe(env, w, m); Idle(w, e.w) && Still(env, e.w) && e.v == Turn(m, Fine)
  {
    var c := CtxOf(m);
    var m0 :| m.status == StatusFrom(env, w0, c, m0);
    CalmGetStatus(env, w, c);
    StatusFromSamePods(env, w, w0, c, m.status);
    StatusFromTwice(env, w0, c, m0);
    assert m.(status := m.status) == m;
  }

  // ---------------------------------------------------------------- an undisturbed pass comes to rest

  lemma PushSettles(env: Env, w: World, m: Memory)
    requires Still(env, w) && Agrees(m)
    ensures var d := Push(env, w, m);
            && w.trace <= d.w.trace && Still(env, d.w) && d.v.m == m && d.v.out != Erred
            && (d.v.out == Fine && NoneRefused(Since(w, d.w)) ==> Settled(d.w, CtxOf(m)))
  {
    var c := CtxOf(m);
    var pods := SyncAllPods(env, w, c, 0);
    CalmSyncAllPods(env, w, c, 0);
    if pods.v != Panicked {
      var w2 := SyncAllServices(env, pods.w, c, 0);
      CalmSyncAllServices(env, pods.w, c, 0);
      if NoneRefused(Since(w, w2)) {
        RefusedConcat(w, pods.w, w2);
        forall k | 0 <= k < |c.replicas|
          ensures c.replicas[k].replicas.Some? && Populated(w2, c, c.replicas[k], 0) && Served(w2, c, c.replicas[k], 0)
        {
          PopulatedGrows(pods.w, w2, c, c.replicas[k], 0);
        }
      }
    }
  }

  lemma ObserveRests(env: Env, w: World, m: Memory)
    requires Still(env, w) && Agrees(m) && Settled(w, CtxOf(m)) && SetupReplicas(m) == Built(m.replicas, Fine, None)
    requires m.status.phase != NoPhase && m.status.phase != CleanUp
    ensures var e := Observe(env, w, m);
            && w.trace <= e.w.trace && Still(env, e.w) && Agrees(e.v.m) && e.v.m.status.phase != CleanUp
            && (NoneRefused(Since(w, e.w)) && e.v.out != Panicked ==> e.v.out == Fine && Rested(env, e.w, e.v.m))
  {
    var c := CtxOf(m);
    if ChiefReadable(c) {
      var read := GetStatus(env, w, c);
      CalmGetStatus(env, w, c);
      var status := StatusFrom(env, w, c, m.status);
      assert status == NextStatus(m.status, JobState(read.v.chief), read.v.statuses);
      NextStatusPhase(m.status, JobState(read.v.chief), read.v.statuses);
      var m1 := m.(status := status);
      CalmUpdate(env, read.w, m1);
      var e := UpdateCRD(env, read.w, m1);
      if NoneRefused(Since(w, e.w)) {
        RefusedConcat(w, read.w, e.w);
        SettledIdle(w, e.w, c);
        StatusFromSamePods(env, w, e.w, c, m.status);
        assert CtxOf(e.v.m) == c;
      }
    }
  }

  lemma RestRests(env: Env, w: World, m: Memory)
    requires Still(env, w) && Agrees(m) && m.status.phase != NoPhase && m.status.phase != CleanUp
    ensures var p := Rest(env, w, m);
            && w.trace <= p.w.trace && Still(env, p.w)
            && (NoneRefused(Since(w, p.w)) && p.v.out != Panicked ==> Rested(env, p.w, p.v.m))
  {
    var b, p := Prepare(env, w, m), Rest(env, w, m);
    var built := SetupReplicas(m);
    BuildAgain(m);
    if built.out == Erred {
      var status := m.status.(reason := CouldNotCreate(built.why.value));
      CalmUpdate(env, w, m.(replicas := built.replicas, status := status));
    } else if built.out == Fine {
      var d := Push(env, w, b.v.m);
      PushSettles(env, w, b.v.m);
      if d.v.out == Fine {
        var e := Observe(env, d.w, b.v.m);
        if NoneRefused(Since(w, d.w)) {
          ObserveRests(env, d.w, b.v.m);
        } else {
          ObserveStill(env, d.w, b.v.m);
        }
        SinceConcat(w, d.w, e.w);
        FinishIsIdle(env, e.w, e.v.m);
        if NoneRefused(Since(w, p.w)) {
          RefusedConcat(w, d.w, e.w);
        }
      }
    }
  }

  lemma ObserveStill(env: Env, w: World, m: Memory)
    requires Still(env, w) && Agrees(m) && m.status.phase != CleanUp
    ensures var e := Observe(env, w, m);
            w.trace <= e.w.trace && Still(env, e.w) && Agrees(e.v.m) && e.v.m.status.phase != CleanUp
  {
    var c := CtxOf(m);
    if ChiefReadable(c) {
      var read := GetStatus(env, w, c);
      CalmGetStatus(env, w, c);
      CalmUpdate(env, read.w, m.(status := NextStatus(m.status, JobState(read.v.chief), read.v.statuses)));
    }
  }

  lemma BuildAgain(m: Memory)
    ensures var b := SetupReplicas(m);
            SetupReplicas(m.(replicas := b.replicas)) == b
  {
    assert m.job.spec.replicaSpecs[0..] == m.job.spec.replicaSpecs;
  }

  /** Quiescence: after a pass that was disturbed by nothing and did not end in a panic, for a job
  not in CleanUp, the next pass in the same calm only reads: it creates nothing, writes no status,
  and leaves store, status and replica sets equal, also when the replica sets cannot be built. */
  lemma SecondPassIsIdle(env: Env, w: World, m: Memory, accelerators: Accelerators)
    requires Agrees(m) && m.status.phase != CleanUp
    requires var p := Reconcile(env, w, m, accelerators); p.v.out != Panicked && Undisturbed(env, w, p.w)
    ensures var p := Reconcile(env, w, m, accelerators);
            var q := Reconcile(env, p.w, p.v.m, accelerators);
            Idle(p.w, q.w) && q.v.m == p.v.m && q.v.out != Panicked
  {
    var p := Reconcile(env, w, m, accelerators);
    UndisturbedRests(env, w, m, accelerators);
    StillLater(env, w, p.w);
    RestedStaysPut(env, p.w, p.v.m, accelerators);
  }

  lemma UndisturbedRests(env: Env, w: World, m: Memory, accelerators: Accelerators)
    requires Agrees(m) && m.status.phase != CleanUp
    requires var p := Reconcile(env, w, m, accelerators); p.v.out != Panicked && Undisturbed(env, w, p.w)
    ensures var p := Reconcile(env, w, m, accelerators); Rested(env, p.w, p.v.m)
  {
    var p := Reconcile(env, w, m, accelerators);
    if m.status.phase != NoPhase {
      RestRests(env, w, m);
    } else {
      var m1, a := Setup(env, w, m, accelerators), Begin(env, w, m, accelerators);
      SetupPhase(env, w, m, accelerators);
      CalmUpdate(env, w, m1);
      if a.v.out == Fine {
        RestRests(env, a.w, a.v.m);
        RefusedConcat(w, a.w, p.w);
      }
    }
  }
}
