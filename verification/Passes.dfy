/** What every pass of Reconcile keeps, in every environment. */
module Passes {
  import opened Api
  import opened Store
  import opened Loops
  import opened Replicas
  import opened Trails
  import opened Training

  // ---------------------------------------------------------------- reading a trace

  // The status writes tried.
  function Updates(es: seq<Event>): nat
  {
    if es == [] then 0
    else (if es[0].JobUpdated? || es[0] == Refused(UpdateJobVerb) then 1 else 0) + Updates(es[1..])
  }

  predicate NoFailedUpdate(es: seq<Event>)
  {
    forall e <- es :: e != Refused(UpdateJobVerb) && e != Unanswered(UpdateJobVerb)
  }

  predicate Creation(e: Event)
  {
    e.PodCreated? || e.ServiceCreated?
  }

  predicate Deletion(e: Event)
  {
    e.PodsDeleted? || e.ServiceDeleted? || e.ConfigMapDeleted?
  }

  lemma {:induction false} UpdatesConcat(a: seq<Event>, b: seq<Event>)
    ensures Updates(a + b) == Updates(a) + Updates(b)
  {
    if a == [] {
      assert a + b == b;
    } else {
      UpdatesConcat(a[1..], b);
      assert (a + b)[1..] == a[1..] + b;
    }
  }

  lemma {:induction false} QuietEvents(env: Env, c: Ctx, w: World, es: seq<Event>)
    requires LegalAll(env, c, NoPuts, w, es)
    ensures Updates(es) == 0 && NoFailedUpdate(es) && Replay(w, es).jobs == w.jobs
    decreases |es|
  {
    if es != [] {
      QuietEvents(env, c, Apply(w, es[0]), es[1..]);
      assert es == [es[0]] + es[1..];
    }
  }

  lemma SinceConcat(w: World, w1: World, w2: World)
    requires w.trace <= w1.trace && w1.trace <= w2.trace
    ensures w.trace <= w2.trace && Since(w, w2) == Since(w, w1) + Since(w1, w2)
  {}

  // ---------------------------------------------------------------- the bundle

  // The stored job is the cached one.
  predicate InSync(w: World, m: Memory)
  {
    m.job.ref in w.jobs && w.jobs[m.job.ref] == m.job
  }

  predicate Agrees(m: Memory)
  {
    m.job.status == m.status
  }

  predicate About(c: Ctx, m: Memory)
  {
    c.ref == m.job.ref && c.uid == m.job.uid && c.spec == m.job.spec
  }

  // From (w, m) to (w', m') within one pass over c: legal events, at most n status writes, the
  // cached status never left behind, the stored job left behind only by a failed write.
  ghost predicate Step(env: Env, c: Ctx, puts: Puts, n: nat, w: World, m: Memory, w': World, m': Memory)
  {
    && Trail(env, c, puts, w, w')
    && About(c, m) && About(c, m')
    && Updates(Since(w, w')) <= n
    && (Agrees(m) ==> Agrees(m'))
    && (InSync(w, m) && NoFailedUpdate(Since(w, w')) ==> InSync(w', m'))
  }

  lemma StepTrans(env: Env, c: Ctx, puts: Puts, n: nat, w: World, m: Memory, n1: nat, w1: World, m1: Memory,
                  w2: World, m2: Memory)
    requires Step(env, c, puts, n, w, m, w1, m1) && Step(env, c, puts, n1, w1, m1, w2, m2)
    ensures Step(env, c, puts, n + n1, w, m, w2, m2)
  {
    var a, b := Since(w, w1), Since(w1, w2);
    TrailTrans(env, c, puts, w, w1, w2);
    SinceConcat(w, w1, w2);
    UpdatesConcat(a, b);
    if NoFailedUpdate(a + b) {
      assert forall e <- a :: e in a + b;
      assert forall e <- b :: e in a + b;
    }
  }

  lemma QuietStep(env: Env, c: Ctx, puts: Puts, w: World, m: Memory, w': World)
    requires Trail(env, c, NoPuts, w, w') && About(c, m)
    ensures Step(env, c, puts, 0, w, m, w', m)
  {
    TrailWithPuts(env, c, puts, w, w');
    QuietEvents(env, c, w, Since(w, w'));
  }

  lemma TickKeepsJobs(env: Env, c: Ctx, w: World)
    ensures var w' := Tick(env, w);
            w'.jobs == w.jobs && Updates(Since(w, w')) == 0 && NoFailedUpdate(Since(w, w'))
  {
    TickTrail(env, c, NoPuts, w);
    QuietEvents(env, c, w, Since(w, Tick(env, w)));
  }

  // A status write of memory m, which may have been changed in any way since the job was in sync.
  lemma UpdateCRDTrail(env: Env, c: Ctx, puts: Puts, w: World, m: Memory)
    requires About(c, m) && m.status.phase != NoPhase && puts != NoPuts && (puts == PairedPuts ==> PhasePair(m.status))
    ensures var u := UpdateCRD(env, w, m);
            && Trail(env, c, puts, w, u.w)
            && About(c, u.v.m) && Agrees(u.v.m) && u.v.m.status == m.status && u.v.m.replicas == m.replicas
            && Updates(Since(w, u.w)) == (if Agrees(m) then 0 else 1)
            && (Agrees(m) ==> u.w == w && u.v.m == m)
            && (!Agrees(m) && NoFailedUpdate(Since(w, u.w)) ==> InSync(u.w, u.v.m))
            && (u.v.out == Fine && !Agrees(m) ==> InSync(u.w, u.v.m))
            && (c.ref in w.jobs && w.jobs[c.ref].uid == c.uid ==>
                  c.ref in u.w.jobs && (u.w.jobs[c.ref] == w.jobs[c.ref] || InSync(u.w, u.v.m)))
  {
    var u := UpdateCRD(env, w, m);
    if Agrees(m) {
      TrailRefl(env, c, puts, w);
      assert Since(w, w) == [];
    } else {
      var job := m.job.(status := m.status);
      var w1 := Tick(env, w);
      var allowed := job.ref in w1.jobs && w1.jobs[job.ref].uid == job.uid;
      TickTrail(env, c, puts, w);
      TickKeepsJobs(env, c, w);
      WriteTrail(env, c, puts, w, w1, allowed, UpdateJobVerb, JobUpdated(job));
      WriteEvents(env, w, w1, allowed, job);
    }
  }

  // What a write of a status leaves in the trace and in the store.
  lemma WriteTail(env: Env, w1: World, allowed: bool, job: Job)
    ensures var r := Write(env, w1, allowed, UpdateJobVerb, JobUpdated(job));
            && w1.trace <= r.w.trace
            && Since(w1, r.w) == (if r.v then [JobUpdated(job)]
                                  else if env.reply(|w1.trace|) == Rejected || !allowed then [Refused(UpdateJobVerb)]
                                  else [JobUpdated(job), Unanswered(UpdateJobVerb)])
            && r.w.jobs == (if env.reply(|w1.trace|) == Rejected || !allowed then w1.jobs else w1.jobs[job.ref := job])
  {}

  lemma TailCounts(job: Job, tail: seq<Event>)
    requires || tail == [JobUpdated(job)] || tail == [Refused(UpdateJobVerb)]
             || tail == [JobUpdated(job), Unanswered(UpdateJobVerb)]
    ensures Updates(tail) == 1 && NoCreation(tail) && (NoFailedUpdate(tail) <==> tail == [JobUpdated(job)])
  {
    var rest := tail[1..];
    assert Updates(tail) == 1 + Updates(rest);
    assert tail[0] in tail;
    if |tail| == 2 {
      assert rest == [Unanswered(UpdateJobVerb)] && rest[1..] == [];
      assert Updates(rest) == Updates([]);
      assert tail[1] in tail;
    } else {
      assert rest == [];
    }
  }

  lemma WriteEvents(env: Env, w: World, w1: World, allowed: bool, job: Job)
    requires w.trace <= w1.trace && Updates(Since(w, w1)) == 0
    ensures var r := Write(env, w1, allowed, UpdateJobVerb, JobUpdated(job));
            && Updates(Since(w, r.w)) == 1
            && (NoFailedUpdate(Since(w, r.w)) || r.v ==> job.ref in r.w.jobs && r.w.jobs[job.ref] == job)
            && (r.w.jobs == w1.jobs || (job.ref in r.w.jobs && r.w.jobs[job.ref] == job))
  {
    var r := Write(env, w1, allowed, UpdateJobVerb, JobUpdated(job));
    var tail := Since(w1, r.w);
    WriteTail(env, w1, allowed, job);
    TailCounts(job, tail);
    SinceConcat(w, w1, r.w);
    UpdatesConcat(Since(w, w1), tail);
    if NoFailedUpdate(Since(w, r.w)) {
      assert forall e <- tail :: e in Since(w, r.w);
    }
  }

  // ---------------------------------------------------------------- the parts of a pass

  lemma SetupPhase(env: Env, w: World, m: Memory, accelerators: Accelerators)
    requires m.status.phase == NoPhase
    ensures var m' := Setup(env, w, m, accelerators);
            && (m'.status.phase == Creating || m'.status.phase == Failed) && PhasePair(m'.status)
            && m'.job == m.job.(spec := m'.job.spec) && m'.replicas == m.replicas && m'.status != m.status
  {}

  lemma PrepareStep(env: Env, c: Ctx, puts: Puts, w: World, m: Memory)
    requires About(c, m) && m.status.phase != NoPhase && puts != NoPuts && (puts == PairedPuts ==> PhasePair(m.status))
    ensures var p := Prepare(env, w, m);
            && Step(env, c, puts, 1, w, m, p.w, p.v.m)
            && (p.v.out == Fine ==> p.w == w && p.v.m == m.(replicas := p.v.m.replicas))
            && p.v.m.status == m.status.(reason := p.v.m.status.reason)
            && p.v.m.replicas == SetupReplicas(m).replicas
  {
    var b := SetupReplicas(m);
    var m' := m.(replicas := b.replicas);
    TrailRefl(env, c, puts, w);
    assert Since(w, w) == [];
    if b.out == Erred {
      UpdateCRDTrail(env, c, puts, w, m'.(status := m'.status.(reason := CouldNotCreate(b.why.value))));
    }
  }

  lemma PushStep(env: Env, c: Ctx, puts: Puts, w: World, m: Memory)
    requires c == CtxOf(m) && m.status.phase != NoPhase && Agrees(m)
    ensures var p := Push(env, w, m);
            Step(env, c, puts, 0, w, m, p.w, p.v.m) && p.v.m == m && Trail(env, c, NoPuts, w, p.w)
  {
    var pods := SyncAllPods(env, w, c, 0);
    SyncAllPodsTrail(env, w, c, 0);
    if pods.v != Panicked {
      SyncAllServicesTrail(env, pods.w, c, 0);
      TrailTrans(env, c, NoPuts, w, pods.w, SyncAllServices(env, pods.w, c, 0));
    }
    QuietStep(env, c, puts, w, m, Push(env, w, m).w);
  }

  // Reading, then writing what was read.
  lemma QuietThenWrite(env: Env, c: Ctx, puts: Puts, w: World, m: Memory, w1: World, status: Status)
    requires Trail(env, c, NoPuts, w, w1) && About(c, m) && Agrees(m) && status.phase != NoPhase
    requires puts != NoPuts && (puts == PairedPuts ==> PhasePair(status))
    ensures var u := UpdateCRD(env, w1, m.(status := status));
            Step(env, c, puts, 1, w, m, u.w, u.v.m) && u.v.m.replicas == m.replicas && u.v.m.status == status
  {
    var m1 := m.(status := status);
    var u := UpdateCRD(env, w1, m1);
    QuietStep(env, c, puts, w, m, w1);
    UpdateCRDTrail(env, c, puts, w1, m1);
    TrailTrans(env, c, puts, w, w1, u.w);
    SinceConcat(w, w1, u.w);
    UpdatesConcat(Since(w, w1), Since(w1, u.w));
    if NoFailedUpdate(Since(w, u.w)) {
      assert forall e <- Since(w1, u.w) :: e in Since(w, u.w);
      assert forall e <- Since(w, w1) :: e in Since(w, u.w);
    }
  }

  lemma NextStatusPhase(status: Status, state: State, statuses: seq<ReplicaStatus>)
    ensures var s := NextStatus(status, state, statuses);
            && (status.phase != NoPhase ==> s.phase != NoPhase)
            && (PhasePair(status) ==> PhasePair(s))
            && (status.phase != CleanUp ==> s.phase != CleanUp)
  {}

  lemma GetStatusTrail(env: Env, c: Ctx, w: World)
    requires ChiefReadable(c)
    ensures Trail(env, c, NoPuts, w, GetStatus(env, w, c).w)
  {
    if c.replicas == [] {
      TrailRefl(env, c, NoPuts, w);
    } else {
      ReadAllTrail(env, w, c, c.spec.policy.value.chief.value, 0, ReplicaUnknown);
    }
  }

  lemma ObserveStep(env: Env, c: Ctx, puts: Puts, w: World, m: Memory)
    requires c == CtxOf(m) && m.status.phase != NoPhase && Agrees(m)
    requires puts != NoPuts && (puts == PairedPuts ==> PhasePair(m.status))
    ensures var p := Observe(env, w, m);
            && Step(env, c, puts, 1, w, m, p.w, p.v.m) && p.v.m.replicas == m.replicas
            && p.v.m.status.phase != NoPhase
            && (PhasePair(m.status) ==> PhasePair(p.v.m.status))
            && (m.status.phase != CleanUp ==> p.v.m.status.phase != CleanUp)
  {
    if ChiefReadable(c) {
      var read := GetStatus(env, w, c);
      GetStatusTrail(env, c, w);
      NextStatusPhase(m.status, JobState(read.v.chief), read.v.statuses);
      QuietThenWrite(env, c, puts, w, m, read.w, NextStatus(m.status, JobState(read.v.chief), read.v.statuses));
    } else {
      StepIdle(env, c, puts, w, m, w, m);
    }
  }

  lemma FinishIsIdle(env: Env, w: World, m: Memory)
    requires Agrees(m) && m.status.phase != CleanUp
    ensures Finish(env, w, m) == Ret(w, Turn(m, Fine))
  {}

  lemma ProceedStep(env: Env, puts: Puts, w: World, m: Memory)
    requires m.status.phase != NoPhase && m.status.phase != CleanUp && Agrees(m)
    requires puts != NoPuts && (puts == PairedPuts ==> PhasePair(m.status))
    ensures var p := Proceed(env, w, m);
            && Step(env, CtxOf(m), puts, 1, w, m, p.w, p.v.m)
            && p.v.m.replicas == m.replicas
            && p.v.m.status.phase != NoPhase && p.v.m.status.phase != CleanUp
            && (PhasePair(m.status) ==> PhasePair(p.v.m.status))
  {
    var c, d := CtxOf(m), Push(env, w, m);
    PushStep(env, c, puts, w, m);
    if d.v.out == Fine {
      var e := Observe(env, d.w, m);
      ObserveStep(env, c, puts, d.w, m);
      StepTrans(env, c, puts, 0, w, m, 1, d.w, m, e.w, e.v.m);
      FinishIsIdle(env, e.w, e.v.m);
    }
  }

  lemma RestStep(env: Env, puts: Puts, w: World, m: Memory)
    requires m.status.phase != NoPhase && m.status.phase != CleanUp && Agrees(m)
    requires puts != NoPuts && (puts == PairedPuts ==> PhasePair(m.status))
    ensures var p := Rest(env, w, m);
            && Step(env, CtxOf(p.v.m), puts, 1, w, m, p.w, p.v.m)
            && p.v.m.replicas == SetupReplicas(m).replicas
            && p.v.m.status.phase != NoPhase && p.v.m.status.phase != CleanUp
            && (PhasePair(m.status) ==> PhasePair(p.v.m.status))
  {
    var c := CtxOf(m).(replicas := SetupReplicas(m).replicas);
    var b, p := Prepare(env, w, m), Rest(env, w, m);
    PrepareStep(env, c, puts, w, m);
    if b.v.out == Fine {
      StepIdle(env, c, puts, w, m, w, b.v.m);
      ProceedStep(env, puts, w, b.v.m);
      StepTrans(env, c, puts, 0, w, m, 1, w, b.v.m, p.w, p.v.m);
    }
  }

  // Building the replica sets touches neither world nor job.
  lemma StepIdle(env: Env, c: Ctx, puts: Puts, w: World, m: Memory, w': World, m': Memory)
    requires About(c, m) && w' == w && m' == m.(replicas := m'.replicas)
    ensures Step(env, c, puts, 0, w, m, w', m')
  {
    TrailRefl(env, c, puts, w);
    assert Since(w, w) == [];
  }

  // ---------------------------------------------------------------- write-ahead

  // The stored job has this spec, runtime id and accelerator edits included, and a phase.
  ghost predicate SetUp(c: Ctx, w: World)
  {
    c.ref in w.jobs && w.jobs[c.ref].spec == c.spec && w.jobs[c.ref].status.phase != NoPhase
  }

  // Whenever a pod or a service is created, the stored job is set up already.
  ghost predicate WriteAhead(c: Ctx, w: World, es: seq<Event>)
    decreases |es|
  {
    es == [] || ((Creation(es[0]) ==> SetUp(c, w)) && WriteAhead(c, Apply(w, es[0]), es[1..]))
  }

  predicate NoCreation(es: seq<Event>)
  {
    forall e <- es :: !Creation(e)
  }

  lemma {:induction false} NothingToWriteAhead(c: Ctx, w: World, es: seq<Event>)
    requires NoCreation(es)
    ensures WriteAhead(c, w, es)
    decreases |es|
  {
    if es != [] {
      assert es[0] in es && forall e <- es[1..] :: e in es;
      NothingToWriteAhead(c, Apply(w, es[0]), es[1..]);
    }
  }

  lemma {:induction false} SetUpStays(env: Env, c: Ctx, puts: Puts, w: World, es: seq<Event>)
    requires SetUp(c, w) && LegalAll(env, c, puts, w, es)
    ensures WriteAhead(c, w, es) && SetUp(c, Replay(w, es))
    decreases |es|
  {
    if es != [] {
      SetUpStays(env, c, puts, Apply(w, es[0]), es[1..]);
    }
  }

  lemma {:induction false} WriteAheadConcat(c: Ctx, w: World, a: seq<Event>, b: seq<Event>)
    requires WriteAhead(c, w, a) && WriteAhead(c, Replay(w, a), b)
    ensures WriteAhead(c, w, a + b)
    decreases |a|
  {
    if a == [] {
      assert a + b == b;
    } else {
      assert (a + b)[1..] == a[1..] + b;
      WriteAheadConcat(c, Apply(w, a[0]), a[1..], b);
    }
  }

  lemma {:induction false} MovesCreateNothing(w: World, ms: seq<Move>)
    ensures w.trace <= MoveAll(w, ms).trace && NoCreation(Since(w, MoveAll(w, ms)))
    decreases |ms|
  {
    if ms != [] {
      var w1 := Apply(w, Moved(ms[0]));
      MovesCreateNothing(w1, ms[1..]);
      assert Since(w, w1) == [Moved(ms[0])];
      SinceConcat(w, w1, MoveAll(w, ms));
    }
  }

  lemma UpdateCRDCreatesNothing(env: Env, w: World, m: Memory)
    ensures w.trace <= UpdateCRD(env, w, m).w.trace && NoCreation(Since(w, UpdateCRD(env, w, m).w))
  {
    if m.job.status != m.status {
      var w1, u, job := Tick(env, w), UpdateCRD(env, w, m).w, m.job.(status := m.status);
      var allowed := job.ref in w1.jobs && w1.jobs[job.ref].uid == job.uid;
      MovesCreateNothing(w, env.moves(|w.trace|));
      WriteTail(env, w1, allowed, job);
      TailCounts(job, Since(w1, u));
      SinceConcat(w, w1, u);
    }
  }

  // ---------------------------------------------------------------- a whole pass

  // The status of a job that was created without one, or of one the operator has written.
  predicate Started(s: Status)
  {
    s.phase == NoPhase || PhasePair(s)
  }

  function PutsFrom(m: Memory): Puts
  {
    if Started(m.status) then PairedPuts else AnyPuts
  }

  // What a pass from (w, m) to (w', m') has kept.
  ghost predicate Kept(env: Env, w: World, m: Memory, w': World, m': Memory)
  {
    && Trail(env, CtxOf(m'), PutsFrom(m), w, w')
    && m'.job.ref == m.job.ref && m'.job.uid == m.job.uid
    && Agrees(m')
    && m'.status.phase != NoPhase && m'.status.phase != CleanUp
    && (Started(m.status) ==> PhasePair(m'.status))
    && (m.status.phase != NoPhase ==> m'.job.spec == m.job.spec)
    && Updates(Since(w, w')) <= 2
    && (InSync(w, m) && NoFailedUpdate(Since(w, w')) ==> InSync(w', m'))
    && (InSync(w, m) ==> WriteAhead(CtxOf(m'), w, Since(w, w')))
  }

  lemma BeginKeeps(env: Env, w: World, m: Memory, accelerators: Accelerators)
    requires Agrees(m) && m.status.phase == NoPhase
    ensures var a := Begin(env, w, m, accelerators);
            && a.v.m.job.ref == m.job.ref && a.v.m.job.uid == m.job.uid && a.v.m.replicas == m.replicas
            && Agrees(a.v.m) && PhasePair(a.v.m.status)
            && (a.v.m.status.phase == Creating || a.v.m.status.phase == Failed)
            && (forall c :: About(c, a.v.m) ==> Trail(env, c, PairedPuts, w, a.w))
            && Updates(Since(w, a.w)) == 1 && NoCreation(Since(w, a.w))
            && (a.v.out == Fine || NoFailedUpdate(Since(w, a.w)) ==> InSync(a.w, a.v.m))
  {
    var m1 := Setup(env, w, m, accelerators);
    SetupPhase(env, w, m, accelerators);
    UpdateCRDCreatesNothing(env, w, m1);
    UpdateCRDTrail(env, CtxOf(m1), PairedPuts, w, m1);
    forall c | About(c, m1)
      ensures Trail(env, c, PairedPuts, w, UpdateCRD(env, w, m1).w)
    {
      UpdateCRDTrail(env, c, PairedPuts, w, m1);
    }
  }

  /** Every pass, whatever fails or moves meanwhile: the cached status is never left behind, phase
  and state stay paired, the phase never goes back to none nor on to CleanUp, at most two status
  writes are tried, nothing is deleted, the stored job is left behind only by a failed write, and
  no pod or service is created before the set-up job is stored. */
  lemma ReconcileKeeps(env: Env, w: World, m: Memory, accelerators: Accelerators)
    requires Agrees(m) && m.status.phase != CleanUp
    ensures var p := Reconcile(env, w, m, accelerators); Kept(env, w, m, p.w, p.v.m)
  {
    var p, puts := Reconcile(env, w, m, accelerators), PutsFrom(m);
    if m.status.phase != NoPhase {
      RestStep(env, puts, w, m);
      if InSync(w, m) {
        SetUpStays(env, CtxOf(p.v.m), puts, w, Since(w, p.w));
      }
    } else {
      var a := Begin(env, w, m, accelerators);
      BeginKeeps(env, w, m, accelerators);
      var c := CtxOf(p.v.m);
      NothingToWriteAhead(c, w, Since(w, a.w));
      if a.v.out == Fine {
        RestStep(env, puts, a.w, a.v.m);
        TrailTrans(env, c, puts, w, a.w, p.w);
        SinceConcat(w, a.w, p.w);
        UpdatesConcat(Since(w, a.w), Since(a.w, p.w));
        SetUpStays(env, c, puts, a.w, Since(a.w, p.w));
        WriteAheadConcat(c, w, Since(w, a.w), Since(a.w, p.w));
        if NoFailedUpdate(Since(w, p.w)) {
          assert forall e <- Since(a.w, p.w) :: e in Since(w, p.w);
        }
      }
    }
  }

  // The spec a pass ends with is that of the job, or what setup makes of it.
  lemma PassSpec(env: Env, w: World, m: Memory, accelerators: Accelerators)
    requires Agrees(m) && m.status.phase != CleanUp
    ensures Reconcile(env, w, m, accelerators).v.m.job.spec
         == if m.status.phase == NoPhase then Setup(env, w, m, accelerators).job.spec else m.job.spec
  {
    if m.status.phase == NoPhase {
      var a := Begin(env, w, m, accelerators);
      BeginKeeps(env, w, m, accelerators);
      if a.v.out == Fine {
        RestStep(env, PairedPuts, a.w, a.v.m);
      }
    } else {
      ReconcileKeeps(env, w, m, accelerators);
    }
  }

  lemma {:induction false} NothingDeleted(env: Env, c: Ctx, puts: Puts, w: World, es: seq<Event>)
    requires LegalAll(env, c, puts, w, es)
    ensures forall e <- es :: !Deletion(e)
    decreases |es|
  {
    if es != [] {
      NothingDeleted(env, c, puts, Apply(w, es[0]), es[1..]);
      assert es == [es[0]] + es[1..];
    }
  }
}
