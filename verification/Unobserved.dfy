/** Pods are created under one name and looked up under another: as long as nobody else puts a pod at
the looked-up name, no status read ever sees a pod, and no job ever leaves Creating or Failed. */
module Unobserved {
  import opened Api
  import opened Naming
  import opened Store
  import opened Loops
  import opened Replicas
  import opened Trails
  import opened Training
  import opened Passes
  import opened Controller
  import opened Runs
  import opened Validation

  // A name under which some job could look a pod up.
  ghost predicate BareName(name: string)
  {
    exists job: string, typ: string, rid: string, index: int ::
      ValidType(typ) && GeneratedId(rid) && name == GenName(job, typ, rid, index)
  }

  ghost predicate NoBarePods(w: World)
  {
    forall ref <- w.pods :: !BareName(ref.name)
  }

  ghost predicate NoBarePlaces(env: Env)
  {
    forall m: Move :: FromEnv(env, m) && m.Place? ==> !BareName(m.ref.name)
  }

  // Only the operator's CreatePodWithIndex ever puts a pod at a name of the operator's making.
  ghost predicate OnlyOperatorNames(env: Env)
  {
    FairRandom(env) && NoBarePlaces(env)
  }

  // A job whose names can be told apart from pod names.
  predicate Namable(c: Ctx)
  {
    GeneratedId(c.spec.runtimeId) && forall k :: 0 <= k < |c.replicas| ==> ValidType(c.replicas[k].typ)
  }

  lemma PodNameIsNotBare(env: Env, c: Ctx, k: nat, index: nat, n: nat, ref: Ref, pod: Pod)
    requires PodFor(env, c, k, index, n, ref, pod) && Namable(c) && FairRandom(env)
    ensures !BareName(ref.name)
  {
    var suffix := env.random(n, 5);
    assert '-' !in suffix;
    forall job: string, typ: string, rid: string, i: int | ValidType(typ) && GeneratedId(rid)
      ensures ref.name != GenName(job, typ, rid, i)
    {
      PodNameIsNoGenNameOfAnyJob(c.ref.name, c.replicas[k].typ, c.spec.runtimeId, index, suffix, job, typ, rid, i);
    }
  }

  lemma EventNoBare(env: Env, c: Ctx, puts: Puts, w: World, e: Event)
    requires Legal(env, c, puts, w, e) && Namable(c) && OnlyOperatorNames(env) && NoBarePods(w)
    ensures NoBarePods(Apply(w, e))
  {
    if e.PodCreated? {
      var k: nat, index: nat, n: nat :| PodFor(env, c, k, index, n, e.ref, e.pod);
      PodNameIsNotBare(env, c, k, index, n, e.ref, e.pod);
    }
  }

  lemma {:induction false} TrailNoBare(env: Env, c: Ctx, puts: Puts, w: World, es: seq<Event>)
    requires LegalAll(env, c, puts, w, es) && Namable(c) && OnlyOperatorNames(env) && NoBarePods(w)
    ensures NoBarePods(Replay(w, es))
    decreases |es|
  {
    if es != [] {
      EventNoBare(env, c, puts, w, es[0]);
      TrailNoBare(env, c, puts, Apply(w, es[0]), es[1..]);
    }
  }

  // ---------------------------------------------------------------- reading

  lemma ReadsUnknown(env: Env, w: World, c: Ctx, k: nat, index: int)
    requires k < |c.replicas| && Namable(c) && OnlyOperatorNames(env) && NoBarePods(w)
    ensures var s := ReadReplica(env, w, c, c.replicas[k], index);
            s.v == ReplicaUnknown && NoBarePods(s.w)
  {
    var w1 := Tick(env, w);
    TickTrail(env, c, NoPuts, w);
    TrailNoBare(env, c, NoPuts, w, Since(w, w1));
    var ref := RefOf(c, c.replicas[k].typ, index);
    assert BareName(ref.name);
    assert ref !in w1.pods;
  }

  lemma {:induction false} SetReadsUnknown(env: Env, w: World, c: Ctx, k: nat, index: nat)
    requires k < |c.replicas| && Namable(c) && OnlyOperatorNames(env) && NoBarePods(w)
    ensures var s := ReadSet(env, w, c, c.replicas[k], index);
            (forall v <- s.v :: v == ReplicaUnknown) && NoBarePods(s.w)
    decreases Size(c.replicas[k]) - index
  {
    if index < Size(c.replicas[k]) {
      ReadsUnknown(env, w, c, k, index);
      SetReadsUnknown(env, ReadReplica(env, w, c, c.replicas[k], index).w, c, k, index + 1);
    }
  }

  lemma {:induction false} AllReadsUnknown(env: Env, w: World, c: Ctx, chief: Chief, k: nat)
    requires k <= |c.replicas| && Namable(c) && OnlyOperatorNames(env) && NoBarePods(w)
    ensures var s := ReadAll(env, w, c, chief, k, ReplicaUnknown);
            s.v.chief == ReplicaUnknown
    decreases |c.replicas| - k
  {
    if k < |c.replicas| {
      var r := c.replicas[k];
      var states := ReadSet(env, w, c, r, 0);
      SetReadsUnknown(env, w, c, k, 0);
      var w2 := states.w;
      if r.typ == chief.name {
        ReadsUnknown(env, states.w, c, k, ToInt32(chief.index));
        w2 := ReadReplica(env, states.w, c, r, ToInt32(chief.index)).w;
      }
      AllReadsUnknown(env, w2, c, chief, k + 1);
    }
  }

  // ---------------------------------------------------------------- one pass

  predicate Early(s: Status)
  {
    s.phase == NoPhase || s.phase == Creating || s.phase == Failed
  }

  predicate TypesOk(rs: seq<ReplicaSpec>)
  {
    forall k :: 0 <= k < |rs| ==> ValidType(rs[k].typ)
  }

  lemma {:induction false} BuiltTypes(rs: seq<ReplicaSpec>, i: nat)
    requires i <= |rs|
    ensures TypesOk(BuildFrom(rs, i).replicas)
    decreases |rs| - i
  {
    if i < |rs| && CheckReplica(rs[i]) == Accepted {
      BuiltTypes(rs, i + 1);
    }
  }

  // No stored job has gone further than Creating or Failed, nor has an id of another kind.
  ghost predicate StoredEarly(w: World)
  {
    forall ref <- w.jobs :: Early(w.jobs[ref].status) && GeneratedId(w.jobs[ref].spec.runtimeId)
  }

  predicate EarlyMemory(m: Memory)
  {
    Agrees(m) && Early(m.status) && GeneratedId(m.job.spec.runtimeId) && TypesOk(m.replicas)
  }

  lemma UpdateEarly(env: Env, w: World, m: Memory)
    requires Early(m.status) && GeneratedId(m.job.spec.runtimeId) && StoredEarly(w)
    ensures var u := UpdateCRD(env, w, m);
            && StoredEarly(u.w)
            && u.v.m.status == m.status && u.v.m.replicas == m.replicas && u.v.m.job.spec == m.job.spec && Agrees(u.v.m)
  {
    TickKeepsJobs(env, CtxOf(m), w);
  }

  lemma PrepareEarly(env: Env, w: World, m: Memory)
    requires EarlyMemory(m) && StoredEarly(w)
    ensures var b := Prepare(env, w, m);
            && b.v.m.status.phase == m.status.phase && EarlyMemory(b.v.m) && StoredEarly(b.w)
            && (b.v.out == Fine ==> b.w == w)
  {
    BuiltTypes(m.job.spec.replicaSpecs, 0);
    var b := SetupReplicas(m);
    if b.out == Erred {
      UpdateEarly(env, w, m.(replicas := b.replicas, status := m.status.(reason := CouldNotCreate(b.why.value))));
    }
  }

  lemma PushEarly(env: Env, w: World, m: Memory)
    requires EarlyMemory(m) && m.status.phase != NoPhase && StoredEarly(w) && OnlyOperatorNames(env) && NoBarePods(w)
    ensures var d := Push(env, w, m); d.v.m == m && StoredEarly(d.w) && NoBarePods(d.w)
  {
    var d := Push(env, w, m);
    PushStep(env, CtxOf(m), AnyPuts, w, m);
    TrailNoBare(env, CtxOf(m), NoPuts, w, Since(w, d.w));
    QuietEvents(env, CtxOf(m), w, Since(w, d.w));
  }

  lemma ObserveEarly(env: Env, w: World, m: Memory)
    requires EarlyMemory(m) && StoredEarly(w) && OnlyOperatorNames(env) && NoBarePods(w)
    ensures var e := Observe(env, w, m); e.v.m.status.phase == m.status.phase && EarlyMemory(e.v.m) && StoredEarly(e.w)
  {
    var c := CtxOf(m);
    if ChiefReadable(c) {
      var read := GetStatus(env, w, c);
      if c.replicas != [] {
        AllReadsUnknown(env, w, c, c.spec.policy.value.chief.value, 0);
      }
      GetStatusTrail(env, c, w);
      QuietEvents(env, c, w, Since(w, read.w));
      UpdateEarly(env, read.w, m.(status := NextStatus(m.status, JobState(read.v.chief), read.v.statuses)));
    }
  }

  lemma RestEarly(env: Env, w: World, m: Memory)
    requires EarlyMemory(m) && m.status.phase != NoPhase && StoredEarly(w) && OnlyOperatorNames(env) && NoBarePods(w)
    ensures var p := Rest(env, w, m); p.v.m.status.phase == m.status.phase && EarlyMemory(p.v.m) && StoredEarly(p.w)
  {
    var b := Prepare(env, w, m);
    PrepareEarly(env, w, m);
    if b.v.out == Fine {
      var d := Push(env, w, b.v.m);
      PushEarly(env, w, b.v.m);
      if d.v.out == Fine {
        var e := Observe(env, d.w, b.v.m);
        ObserveEarly(env, d.w, b.v.m);
        UpdateEarly(env, e.w, e.v.m);
      }
    }
  }

  lemma SetupGeneratesId(env: Env, w: World, m: Memory, accelerators: Accelerators)
    requires m.status.phase == NoPhase && GeneratedId(m.job.spec.runtimeId) && FairRandom(env)
    ensures GeneratedId(Setup(env, w, m, accelerators).job.spec.runtimeId)
  {
    DefaultsIdempotent(m.job.spec);
  }

  lemma BeginEarly(env: Env, w: World, m: Memory, accelerators: Accelerators)
    requires EarlyMemory(m) && m.status.phase == NoPhase && StoredEarly(w) && OnlyOperatorNames(env) && NoBarePods(w)
    ensures var a := Begin(env, w, m, accelerators);
            EarlyMemory(a.v.m) && a.v.m.status.phase != NoPhase && StoredEarly(a.w) && NoBarePods(a.w)
  {
    var m1, a := Setup(env, w, m, accelerators), Begin(env, w, m, accelerators);
    SetupPhase(env, w, m, accelerators);
    SetupGeneratesId(env, w, m, accelerators);
    BeginKeeps(env, w, m, accelerators);
    UpdateEarly(env, w, m1);
    var c := CtxOf(a.v.m);
    assert Trail(env, c, PairedPuts, w, a.w);
    TrailNoBare(env, c, PairedPuts, w, Since(w, a.w));
  }

  lemma PassEarly(env: Env, w: World, m: Memory, accelerators: Accelerators)
    requires EarlyMemory(m) && StoredEarly(w) && OnlyOperatorNames(env) && NoBarePods(w)
    ensures var p := Reconcile(env, w, m, accelerators);
            && EarlyMemory(p.v.m) && StoredEarly(p.w)
            && (m.status.phase == Failed ==> p.v.m.status.phase == Failed)
  {
    if m.status.phase != NoPhase {
      RestEarly(env, w, m);
    } else {
      BeginEarly(env, w, m, accelerators);
      var a := Begin(env, w, m, accelerators);
      if a.v.out == Fine {
        RestEarly(env, a.w, a.v.m);
      }
    }
  }

  // ---------------------------------------------------------------- runs

  ghost predicate AllEarly(s: System)
  {
    NoBarePods(s.w) && StoredEarly(s.w) && forall key <- s.jobs :: EarlyMemory(s.jobs[key])
  }

  // Users submit jobs without a runtime id, or with one of the operator's kind.
  predicate OrdinaryId(a: Action)
  {
    a.Submit? ==> GeneratedId(a.job.spec.runtimeId)
  }

  lemma UserEarly(s: System, a: Action, s': System)
    requires AllEarly(s) && OrdinaryId(a) && (s'.jobs == s.jobs || s'.jobs == map[])
    requires s'.w == match UserEvent(s.w, a) case None => s.w case Some(e) => Apply(s.w, e)
    ensures AllEarly(s')
  {
    assert s'.w.pods == s.w.pods;
    assert StoredEarly(s'.w);
  }

  lemma PassedEarly(env: Env, s: System, a: Action, s': System, m': Memory)
    requires Sound(s) && AllEarly(s) && OnlyOperatorNames(env) && Effective(s, a) && Passed(env, s, a, s', m')
    requires EarlyMemory(m') && StoredEarly(s'.w)
    ensures AllEarly(s')
  {
    TargetReady(s, a);
    TrailNoBare(env, CtxOf(m'), PairedPuts, s.w, Since(s.w, s'.w));
  }

  lemma ActEarly(env: Env, s: System, a: Action, accelerators: Accelerators)
    requires Sound(s) && AllEarly(s) && OnlyOperatorNames(env) && OrdinaryId(a)
    ensures AllEarly(Act(env, s, a, accelerators))
  {
    if Effective(s, a) {
      TargetReady(s, a);
      PassEarly(env, s.w, Target(s, a), accelerators);
      var m' := ActPasses(env, s, a, accelerators);
      ActStoredJobs(env, s, a, accelerators);
      PassedEarly(env, s, a, Act(env, s, a, accelerators), m');
    } else {
      IdleAct(env, s, a, accelerators);
      UserEarly(s, a, Act(env, s, a, accelerators));
    }
  }

  /** In every run of jobs with generated runtime ids, in which no one else puts a pod at one of the
  names the operator looks up, no job, stored or in memory, is ever in another phase than none,
  Creating or Failed: the operator never sees one of its own pods. */
  lemma {:induction false} NoJobIsEverObserved(env: Env, s: System, actions: seq<Action>, accelerators: Accelerators)
    requires Sound(s) && AllEarly(s) && OnlyOperatorNames(env) && forall a <- actions :: OrdinaryId(a)
    ensures AllEarly(Run(env, s, actions, accelerators))
    decreases |actions|
  {
    if actions != [] {
      ActEarly(env, s, actions[0], accelerators);
      ActIsSound(env, s, actions[0], accelerators);
      assert forall a <- actions[1..] :: a in actions;
      NoJobIsEverObserved(env, Act(env, s, actions[0], accelerators), actions[1..], accelerators);
    }
  }
}
