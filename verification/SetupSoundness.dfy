/** What a successful setup guarantees to the rest of Reconcile: no nil pointer is ever followed. */
module SetupSoundness {
  import opened Wrappers
  import opened Api
  import opened Naming
  import opened Store
  import opened Loops
  import opened Replicas
  import opened Trails
  import opened Training
  import opened Passes
  import opened Validation
  import opened AcceleratorSetup
  import opened Controller
  import opened Runs
  import opened CalmPasses

  // Every pointer that Reconcile follows is there.
  predicate SafeReplica(r: ReplicaSpec)
  {
    r.replicas.Some? && r.port.Some? && r.template.Some? && ValidType(r.typ)
  }

  predicate SafeSpec(spec: JobSpec)
  {
    && spec.policy.Some? && spec.policy.value.chief.Some?
    && forall i :: 0 <= i < |spec.replicaSpecs| ==> SafeReplica(spec.replicaSpecs[i])
  }

  // The cached replica sets are none, or those that building them from the specs gives.
  predicate Cached(m: Memory)
  {
    m.replicas == [] || m.replicas == BuildFrom(m.job.spec.replicaSpecs, 0).replicas
  }

  lemma ConfiguredIsSafe(rs: seq<ReplicaSpec>, accelerators: Accelerators, order: Order)
    requires forall i :: 0 <= i < |rs| ==> SafeReplica(rs[i])
    ensures var out := ConfigureFrom(rs, 0, accelerators, order);
            out.1 && |out.0| == |rs| && forall i :: 0 <= i < |rs| ==> SafeReplica(out.0[i]) && out.0[i].typ == rs[i].typ
  {
    var out := ConfigureFrom(rs, 0, accelerators, order);
    ConfigureSucceeds(rs, 0, accelerators, order);
    forall i | 0 <= i < |rs|
      ensures SafeReplica(out.0[i]) && out.0[i].typ == rs[i].typ
    {
      ConfigureTouchesTemplates(rs, 0, i, accelerators, order);
    }
  }

  /** Setup succeeds exactly when the defaulted spec is valid; the accelerator step never fails
  after validation; and then every pointer is set, the chief's type is among the replicas and the
  job has a runtime id. */
  lemma SetupSucceedsIffValid(env: Env, w: World, m: Memory, accelerators: Accelerators)
    requires m.status.phase == NoPhase && FairRandom(env)
    ensures var m' := Setup(env, w, m, accelerators);
            && (m'.status.phase == Creating <==> ValidSpec(WithDefaults(m.job.spec)))
            && (m'.status.phase == Failed ==> m'.status.reason.InvalidSpec?)
            && (m'.status.phase == Creating ==>
                  && SafeSpec(m'.job.spec) && m'.job.spec.runtimeId != ""
                  && ChiefAmong(m'.job.spec.replicaSpecs, m'.job.spec.policy.value.chief.value.name))
  {
    var s := WithDefaults(m.job.spec);
    DefaultsIdempotent(m.job.spec);
    if ValidSpec(s) {
      forall i | 0 <= i < |s.replicaSpecs|
        ensures SafeReplica(s.replicaSpecs[i])
      {
        assert ValidReplica(s.replicaSpecs[i]);
      }
      ConfiguredIsSafe(s.replicaSpecs, accelerators, env.order);
      assert |env.random(|w.trace|, 4)| == 4;
    }
  }

  /** Setup, by value: a job that has a phase only takes the status of one that was set up; one without is
  given its defaults, and then either fails with the error validation finds, or is set up. */
  lemma SetupByValue(env: Env, w: World, m: Memory, accelerators: Accelerators)
    ensures var m', d := Setup(env, w, m, accelerators), WithDefaults(m.job.spec);
            && m'.replicas == m.replicas && m'.job == m.job.(spec := m'.job.spec)
            && (m.status.phase == NoPhase && Validate(d).Some? ==>
                  && m'.job.spec == d
                  && m'.status == Status(Failed, InvalidSpec(Validate(d).value), FailedState, m.status.replicaStatuses))
            && (m.status.phase != NoPhase || Validate(d).None? ==>
                  m'.status == Status(Creating, m.status.reason, RunningState, m.status.replicaStatuses))
            && (m.status.phase != NoPhase ==> m'.job.spec == m.job.spec)
  {
    var d := WithDefaults(m.job.spec);
    if m.status.phase == NoPhase && Validate(d).None? {
      assert forall k :: 0 <= k < |d.replicaSpecs| ==> ValidReplica(d.replicaSpecs[k]);
      ConfigureSucceeds(d.replicaSpecs, 0, accelerators, env.order);
    }
  }

  /** A job with no policy and one set without type, size and port, whose template has an mxnet container,
  is set up: as one scheduler on port 9000 that is its own chief, for which a replica set is made. */
  lemma PlainJobIsSetUp(env: Env, w: World, job: Job, t: Template, accelerators: Accelerators)
    requires job.status.phase == NoPhase && job.spec.policy.None?
    requires job.spec.replicaSpecs == [ReplicaSpec(None, Some(t), None, "")]
    requires exists c <- t.containers :: c.name == "mxnet"
    ensures var m := Setup(env, w, NewJob(job), accelerators);
            && m.status.phase == Creating && m.job.spec.policy == Some(Policy(Some(Chief("SCHEDULER", 0))))
            && SetupReplicas(m).out == Fine && |SetupReplicas(m).replicas| == 1
            && var r := SetupReplicas(m).replicas[0];
            r.typ == "SCHEDULER" && r.replicas == Some(1) && r.port == Some(9000) && r.template.Some?
  {
    var m, d := Setup(env, w, NewJob(job), accelerators), WithDefaults(job.spec);
    DefaultsByValue(job.spec, d);
    assert Defaulted(job.spec.replicaSpecs[0], d.replicaSpecs[0]);
    ErrorsByCondition(d, 0);
    assert Faultless(d.replicaSpecs[0]) && d.replicaSpecs[0] in d.replicaSpecs;
    SetupByValue(env, w, NewJob(job), accelerators);
    SetupConfigures(env, w, NewJob(job), accelerators, 0);
    ChecksByCondition(m.job.spec.replicaSpecs[0]);
    BuildIsFine(m.job.spec.replicaSpecs);
  }

  /** A valid job leaves setup with its defaulted spec, changed in nothing but this: every template is
  the accelerator step's, and a missing runtime id is the random one. */
  lemma SetupConfigures(env: Env, w: World, m: Memory, accelerators: Accelerators, i: nat)
    requires m.status.phase == NoPhase && ValidSpec(WithDefaults(m.job.spec)) && i < |m.job.spec.replicaSpecs|
    ensures var s, s' := WithDefaults(m.job.spec), Setup(env, w, m, accelerators).job.spec;
            && s' == s.(runtimeId := s'.runtimeId, replicaSpecs := s'.replicaSpecs)
            && s'.runtimeId == (if m.job.spec.runtimeId == "" then env.random(|w.trace|, 4) else m.job.spec.runtimeId)
            && |s'.replicaSpecs| == |s.replicaSpecs| && s.replicaSpecs[i].template.Some?
            && s'.replicaSpecs[i] == s.replicaSpecs[i].(
                 template := Some(ConfigureTemplate(s.replicaSpecs[i].template.value, i, accelerators, env.order)))
  {
    var s := WithDefaults(m.job.spec);
    DefaultsIdempotent(m.job.spec);
    assert forall k :: 0 <= k < |s.replicaSpecs| ==> ValidReplica(s.replicaSpecs[k]);
    ConfigureSucceeds(s.replicaSpecs, 0, accelerators, env.order);
    ConfigureTouchesTemplates(s.replicaSpecs, 0, i, accelerators, env.order);
  }

  /** The sets built are those of the specs before the first one that is not accepted, and that one
  decides how building ends. */
  lemma {:induction false} BuildStopsAtFirst(rs: seq<ReplicaSpec>, i: nat)
    requires i <= |rs|
    ensures var b := BuildFrom(rs, i);
            var n := i + |b.replicas|;
            && n <= |rs| && b.replicas == rs[i..n] && (forall k :: i <= k < n ==> CheckReplica(rs[k]) == Accepted)
            && (b.out == Fine <==> n == |rs|)
            && (n < |rs| ==> CheckReplica(rs[n]) == if b.out == Panicked then NilReplicas else Refusal(b.why.value))
    decreases |rs| - i
  {
    if i < |rs| {
      BuildStopsAtFirst(rs, i + 1);
    }
  }

  /** With a safe spec the replica sets cannot fail to be built except for a scheduler set whose
  size is not one, and building them never panics. */
  lemma {:induction false} BuildFailsOnlyForScheduler(rs: seq<ReplicaSpec>, i: nat)
    requires i <= |rs| && forall k :: i <= k < |rs| ==> SafeReplica(rs[k])
    ensures var b := BuildFrom(rs, i);
            && b.out != Panicked
            && (b.out == Erred <==> exists k :: i <= k < |rs| && rs[k].typ == SCHEDULER && rs[k].replicas != Some(1))
            && (b.out == Erred ==> b.why == Some(SchedulerNotSingle))
    decreases |rs| - i
  {
    if i < |rs| {
      BuildFailsOnlyForScheduler(rs, i + 1);
    }
  }

  /** The cached list is either shorter than the spec list or agrees with it element by element. */
  lemma CachedIsPrefix(m: Memory)
    requires Cached(m)
    ensures m.replicas == m.job.spec.replicaSpecs || |m.replicas| < |m.job.spec.replicaSpecs|
    ensures SetupReplicas(m) == BuildFrom(m.job.spec.replicaSpecs, 0)
  {
    var rs := m.job.spec.replicaSpecs;
    assert rs[0..] == rs;
  }

  // ---------------------------------------------------------------- specs that kill

  predicate AllAccepted(rs: seq<ReplicaSpec>)
  {
    forall k :: 0 <= k < |rs| ==> CheckReplica(rs[k]) == Accepted
  }

  // The nil size of a scheduler set is followed before any set is refused.
  predicate DeadlyBuild(rs: seq<ReplicaSpec>)
  {
    exists k :: 0 <= k < |rs| && CheckReplica(rs[k]) == NilReplicas && AllAccepted(rs[..k])
  }

  // A set whose size is nil, or which has pods to create and no template.
  predicate DeadlySet(r: ReplicaSpec)
  {
    r.replicas.None? || (r.template.None? && r.replicas.value > 0)
  }

  // A spec over which a pass can follow a nil pointer.
  predicate Deadly(spec: JobSpec)
  {
    var rs := spec.replicaSpecs;
    || DeadlyBuild(rs)
    || (AllAccepted(rs)
        && ((exists k :: 0 <= k < |rs| && DeadlySet(rs[k]))
            || spec.policy.None? || (rs != [] && spec.policy.value.chief.None?)))
  }

  lemma BuildIsFine(rs: seq<ReplicaSpec>)
    ensures var b := BuildFrom(rs, 0);
            (b.out == Fine <==> AllAccepted(rs)) && (b.out == Fine ==> b.replicas == rs)
  {
    BuildStopsAtFirst(rs, 0);
    assert rs[0..] == rs;
  }

  lemma BuildOutcome(rs: seq<ReplicaSpec>)
    ensures var b := BuildFrom(rs, 0);
            && (b.out == Panicked <==> DeadlyBuild(rs))
            && (b.out == Fine <==> AllAccepted(rs)) && (b.out == Fine ==> b.replicas == rs)
  {
    BuildIsFine(rs);
    BuildStopsAtFirst(rs, 0);
    var b := BuildFrom(rs, 0);
    var n := |b.replicas|;
    if b.out == Panicked {
      assert CheckReplica(rs[n]) == NilReplicas && AllAccepted(rs[..n]);
    } else if DeadlyBuild(rs) {
      var k :| 0 <= k < |rs| && CheckReplica(rs[k]) == NilReplicas && AllAccepted(rs[..k]);
      forall j | 0 <= j < k
        ensures CheckReplica(rs[j]) == Accepted
      {
        assert rs[..k][j] == rs[j];
      }
    }
  }

  /** What defaults leave to go wrong: no template for pods to create, or a policy without a chief. */
  lemma DefaultsDeadly(spec: JobSpec)
    ensures var d := WithDefaults(spec);
            Deadly(d) <==>
              && AllAccepted(d.replicaSpecs)
              && ((exists k ::
                     0 <= k < |d.replicaSpecs| && d.replicaSpecs[k].template.None? && Size(d.replicaSpecs[k]) > 0)
                  || (spec.policy == Some(Policy(None)) && spec.replicaSpecs != []))
  {
    var d := WithDefaults(spec);
    DefaultsIdempotent(spec);
    forall k | 0 <= k < |d.replicaSpecs|
      ensures CheckReplica(d.replicaSpecs[k]) != NilReplicas
      ensures DeadlySet(d.replicaSpecs[k]) <==> d.replicaSpecs[k].template.None? && Size(d.replicaSpecs[k]) > 0
    {
      assert d.replicaSpecs[k].replicas.Some?;
    }
  }

  lemma SafeIsNotDeadly(spec: JobSpec)
    requires SafeSpec(spec)
    ensures !Deadly(spec)
  {
    forall k | 0 <= k < |spec.replicaSpecs|
      ensures CheckReplica(spec.replicaSpecs[k]) != NilReplicas && !DeadlySet(spec.replicaSpecs[k])
    {
      assert SafeReplica(spec.replicaSpecs[k]);
    }
  }

  /** Setup neither makes a spec deadly nor saves one. */
  lemma SetupKeepsDeadly(env: Env, w: World, m: Memory, accelerators: Accelerators)
    requires m.status.phase == NoPhase
    ensures Deadly(Setup(env, w, m, accelerators).job.spec) <==> Deadly(WithDefaults(m.job.spec))
  {
    var s, s' := WithDefaults(m.job.spec), Setup(env, w, m, accelerators).job.spec;
    DefaultsIdempotent(m.job.spec);
    if ValidSpec(s) {
      forall i | 0 <= i < |s.replicaSpecs|
        ensures SafeReplica(s.replicaSpecs[i])
      {
        assert ValidReplica(s.replicaSpecs[i]);
      }
      ConfiguredIsSafe(s.replicaSpecs, accelerators, env.order);
      SafeIsNotDeadly(s);
      SafeIsNotDeadly(s');
    }
  }

  // ---------------------------------------------------------------- no panic over any other spec

  lemma SyncPodAtCalm(env: Env, w: World, c: Ctx, r: ReplicaSpec, index: nat)
    requires !PodPanics(c, r)
    ensures SyncPodAt(env, w, c, r, index).v != Panicked
  {}

  lemma SyncPodsCalm(env: Env, w: World, c: Ctx, r: ReplicaSpec)
    requires !DeadlySet(r) && !UnsizedRole(c.replicas)
    ensures SyncPods(env, w, c, r).v != Panicked
  {
    var turn := PodTurn(env, c, r);
    var inv, done := (v: World) => true, (v: World, i: nat) => true;
    forall v: World, i: nat | i < Size(r)
      ensures turn(v, i).v in {Fine, Erred}
    {
      SyncPodAtCalm(env, v, c, r, i);
    }
    assert Carries(turn, Size(r), inv, done, {Fine, Erred});
    LoopCarries(turn, w, 0, Size(r), inv, done, {Fine, Erred});
  }

  lemma {:induction false} SyncAllPodsCalm(env: Env, w: World, c: Ctx, k: nat)
    requires k <= |c.replicas| && forall i :: 0 <= i < |c.replicas| ==> !DeadlySet(c.replicas[i])
    ensures SyncAllPods(env, w, c, k).v == Fine
    decreases |c.replicas| - k
  {
    if k < |c.replicas| {
      SyncPodsCalm(env, w, c, c.replicas[k]);
      SyncAllPodsCalm(env, SyncPods(env, w, c, c.replicas[k]).w, c, k + 1);
    }
  }

  // A step that does not panic and leaves spec and replica sets alone.
  predicate Smooth(m: Memory, t: Turn)
  {
    t.out != Panicked && t.m.job.spec == m.job.spec && t.m.replicas == m.replicas
  }

  lemma UpdateNeverPanics(env: Env, w: World, m: Memory)
    ensures Smooth(m, UpdateCRD(env, w, m).v)
  {}

  lemma PrepareOutcome(env: Env, w: World, m: Memory)
    requires Cached(m)
    ensures var b := Prepare(env, w, m).v;
            && (b.out == Panicked <==> DeadlyBuild(m.job.spec.replicaSpecs))
            && (b.out == Fine <==> AllAccepted(m.job.spec.replicaSpecs))
            && b.m.job.spec == m.job.spec && Cached(b.m)
            && (b.out == Fine ==> b.m.replicas == m.job.spec.replicaSpecs)
  {
    CachedIsPrefix(m);
    BuildOutcome(m.job.spec.replicaSpecs);
    var b := SetupReplicas(m);
    if b.out == Erred {
      UpdateNeverPanics(env, w, m.(replicas := b.replicas, status := m.status.(reason := CouldNotCreate(b.why.value))));
    }
  }

  lemma PushNeverPanics(env: Env, w: World, m: Memory)
    requires forall i :: 0 <= i < |m.replicas| ==> !DeadlySet(m.replicas[i])
    ensures Smooth(m, Push(env, w, m).v)
  {
    var pods := SyncAllPods(env, w, CtxOf(m), 0);
    SyncAllPodsCalm(env, w, CtxOf(m), 0);
    UpdateNeverPanics(env, SyncAllServices(env, pods.w, CtxOf(m), 0), m);
  }

  lemma ObserveNeverPanics(env: Env, w: World, m: Memory)
    requires ChiefReadable(CtxOf(m))
    ensures Smooth(m, Observe(env, w, m).v)
  {
    var read := GetStatus(env, w, CtxOf(m));
    UpdateNeverPanics(env, read.w, m.(status := NextStatus(m.status, JobState(read.v.chief), read.v.statuses)));
  }

  lemma FinishNeverPanics(env: Env, w: World, m: Memory)
    ensures Smooth(m, Finish(env, w, m).v)
  {
    UpdateNeverPanics(env, w, m);
  }

  lemma ProceedNeverPanics(env: Env, w: World, m: Memory)
    requires ChiefReadable(CtxOf(m)) && forall i :: 0 <= i < |m.replicas| ==> !DeadlySet(m.replicas[i])
    ensures Smooth(m, Proceed(env, w, m).v)
  {
    var d := Push(env, w, m);
    PushNeverPanics(env, w, m);
    if d.v.out == Fine {
      var e := Observe(env, d.w, d.v.m);
      ObserveNeverPanics(env, d.w, d.v.m);
      FinishNeverPanics(env, e.w, e.v.m);
    }
  }

  lemma RestNeverPanics(env: Env, w: World, m: Memory)
    requires Cached(m) && !Deadly(m.job.spec)
    ensures var t := Rest(env, w, m).v; t.out != Panicked && Cached(t.m) && t.m.job.spec == m.job.spec
  {
    var b := Prepare(env, w, m);
    PrepareOutcome(env, w, m);
    if b.v.out == Fine {
      ProceedNeverPanics(env, b.w, b.v.m);
    }
  }

  // What the spec of a job will be in a pass over it.
  function SpecToRun(job: Job): JobSpec
  {
    if job.status.phase == NoPhase then WithDefaults(job.spec) else job.spec
  }

  lemma ReconcileNeverPanics(env: Env, w: World, m: Memory, accelerators: Accelerators)
    requires Agrees(m) && Cached(m) && !Deadly(SpecToRun(m.job)) && (m.status.phase == NoPhase ==> m.replicas == [])
    ensures var p := Reconcile(env, w, m, accelerators);
            p.v.out != Panicked && Cached(p.v.m) && !Deadly(p.v.m.job.spec)
  {
    if m.status.phase == NoPhase {
      SetupKeepsDeadly(env, w, m, accelerators);
      var m1 := Setup(env, w, m, accelerators);
      SetupPhase(env, w, m, accelerators);
      UpdateNeverPanics(env, w, m1);
      var a := Begin(env, w, m, accelerators);
      if a.v.out == Fine {
        RestNeverPanics(env, a.w, a.v.m);
      }
    } else {
      RestNeverPanics(env, w, m);
    }
  }

  // ---------------------------------------------------------------- and a panic over every deadly one

  // Nothing moves, every write is answered, every read fails; fair in all else.
  ghost predicate Dire(env: Env)
  {
    && FairListing(env) && FairRandom(env) && FairOrder(env.order)
    && forall n: nat :: env.moves(n) == [] && env.reply(n) == Answered && env.readFails(n)
  }

  lemma DireTick(env: Env, w: World)
    requires Dire(env)
    ensures Tick(env, w) == w
  {
    assert env.moves(|w.trace|) == [];
  }

  lemma DireSyncPods(env: Env, w: World, c: Ctx, r: ReplicaSpec)
    requires Dire(env) && DeadlySet(r)
    ensures SyncPods(env, w, c, r).v == Panicked
  {
    if r.replicas.Some? {
      var seen := Look(env, w);
      DireTick(env, seen);
      assert env.readFails(|seen.trace|);
      assert PodTurn(env, c, r)(w, 0).v == Panicked;
    }
  }

  lemma {:induction false} DireSyncAllPods(env: Env, w: World, c: Ctx, k: nat, j: nat)
    requires Dire(env) && k <= j < |c.replicas| && DeadlySet(c.replicas[j])
    ensures SyncAllPods(env, w, c, k).v == Panicked
    decreases j - k
  {
    if k == j {
      DireSyncPods(env, w, c, c.replicas[k]);
    } else {
      var s := SyncPods(env, w, c, c.replicas[k]);
      DireSyncAllPods(env, s.w, c, k + 1, j);
      assert SyncAllPods(env, w, c, k) == if s.v == Panicked then s else SyncAllPods(env, s.w, c, k + 1);
    }
  }

  lemma UnreadableChiefPanics(env: Env, w: World, m: Memory)
    requires Agrees(m) && !ChiefReadable(CtxOf(m))
    ensures Proceed(env, w, m).v.out == Panicked
  {}

  lemma DireRest(env: Env, w: World, m: Memory)
    requires Dire(env) && Agrees(m) && Cached(m) && Deadly(m.job.spec)
    ensures Rest(env, w, m).v.out == Panicked
  {
    var b := Prepare(env, w, m);
    var rs := m.job.spec.replicaSpecs;
    PrepareOutcome(env, w, m);
    if b.v.out == Fine {
      var c := CtxOf(b.v.m);
      if k :| 0 <= k < |rs| && DeadlySet(rs[k]) {
        DireSyncAllPods(env, w, c, 0, k);
      } else {
        UnreadableChiefPanics(env, w, b.v.m);
      }
    }
  }

  lemma DireBegin(env: Env, w: World, m: Memory, accelerators: Accelerators)
    requires Dire(env) && InSync(w, m)
    ensures Begin(env, w, m, accelerators).v.out == Fine
  {
    DireTick(env, w);
    assert env.reply(|w.trace|) == Answered;
  }

  lemma DireReconcile(env: Env, w: World, m: Memory, accelerators: Accelerators)
    requires Dire(env) && Agrees(m) && Cached(m) && Deadly(SpecToRun(m.job))
    requires m.status.phase == NoPhase ==> m.replicas == [] && InSync(w, m)
    ensures Reconcile(env, w, m, accelerators).v.out == Panicked
  {
    if m.status.phase == NoPhase {
      SetupKeepsDeadly(env, w, m, accelerators);
      SetupPhase(env, w, m, accelerators);
      DireBegin(env, w, m, accelerators);
      var a := Begin(env, w, m, accelerators);
      UpdateNeverPanics(env, w, Setup(env, w, m, accelerators));
      DireRest(env, a.w, a.v.m);
    } else {
      DireRest(env, w, m);
    }
  }

  ghost function Listing<T(!new)>(s: set<T>): (q: seq<T>)
    ensures multiset(q) == multiset(s)
  {
    if s == {} then [] else
    var x :| x in s;
    assert multiset(s) == multiset{x} + multiset(s - {x});
    [x] + Listing(s - {x})
  }

  function Filled(n: nat): (s: string)
    ensures |s| == n && '-' !in s
  {
    seq(n, i => 'a')
  }

  lemma DireExists() returns (env: Env)
    ensures Dire(env)
  {
    ghost var listing := (s: set<Ref>) => Listing(s);
    ghost var order := (i: nat, s: set<string>) => Listing(s);
    env := Env((n: nat) => [], (n: nat) => true, (n: nat) => Answered, (n: nat, k: nat) => Filled(k), listing, order);
  }

  /** A pass over a job that has a phase can follow a nil pointer exactly over a deadly spec. */
  lemma PassCanPanicIff(w: World, m: Memory, accelerators: Accelerators)
    requires Agrees(m) && Cached(m) && m.status.phase != NoPhase
    ensures (exists env :: Reconcile(env, w, m, accelerators).v.out == Panicked) <==> Deadly(m.job.spec)
  {
    if Deadly(m.job.spec) {
      var env := DireExists();
      DireReconcile(env, w, m, accelerators);
    } else {
      forall env
        ensures Reconcile(env, w, m, accelerators).v.out != Panicked
      {
        ReconcileNeverPanics(env, w, m, accelerators);
      }
    }
  }

  /** The first pass over a stored job can get past setup and then follow a nil pointer exactly if,
  after defaults, every replica set is accepted, and either a set with pods to create has no
  template, or the policy has no chief and there is a replica set. */
  lemma FirstPassCanPanicIff(w: World, m: Memory, accelerators: Accelerators)
    requires Agrees(m) && m.status.phase == NoPhase && m.replicas == [] && InSync(w, m)
    ensures var rs := WithDefaults(m.job.spec).replicaSpecs;
            (exists env ::
               Begin(env, w, m, accelerators).v.out == Fine && Reconcile(env, w, m, accelerators).v.out == Panicked)
            <==> AllAccepted(rs)
                 && ((exists k :: 0 <= k < |rs| && rs[k].template.None? && Size(rs[k]) > 0)
                     || (m.job.spec.policy == Some(Policy(None)) && m.job.spec.replicaSpecs != []))
  {
    DefaultsDeadly(m.job.spec);
    if Deadly(WithDefaults(m.job.spec)) {
      var env := DireExists();
      DireBegin(env, w, m, accelerators);
      DireReconcile(env, w, m, accelerators);
    } else {
      forall env
        ensures Reconcile(env, w, m, accelerators).v.out != Panicked
      {
        ReconcileNeverPanics(env, w, m, accelerators);
      }
    }
  }

  /** A policy without a chief fails validation, and the same pass goes on to follow the nil chief, in
  every environment in which the setup write is answered, as soon as there is a replica set and
  all are accepted. */
  lemma ChieflessPanics(env: Env, w: World, m: Memory, accelerators: Accelerators)
    requires Agrees(m) && m.status.phase == NoPhase && m.replicas == []
    requires m.job.spec.policy == Some(Policy(None)) && m.job.spec.replicaSpecs != []
    requires AllAccepted(WithDefaults(m.job.spec).replicaSpecs)
    requires Begin(env, w, m, accelerators).v.out == Fine
    ensures Setup(env, w, m, accelerators).status.phase == Failed
    ensures Reconcile(env, w, m, accelerators).v.out == Panicked
  {
    var a := Begin(env, w, m, accelerators);
    SetupPhase(env, w, m, accelerators);
    UpdateNeverPanics(env, w, Setup(env, w, m, accelerators));
    PrepareOutcome(env, a.w, a.v.m);
    var b := Prepare(env, a.w, a.v.m);
    UnreadableChiefPanics(env, a.w, b.v.m);
  }

  // A job with one server and no template for it.
  function TemplatelessSpec(): JobSpec
  {
    JobSpec("", [ReplicaSpec(Some(1), None, Some(9000), SERVER)], DEFAULT_IMAGE,
            Some(Policy(Some(Chief(SERVER, 0)))), "")
  }

  /** A server set without a template fails validation too, is accepted all the same, and its pod is
  built from the nil template, with nothing else going wrong. */
  lemma TemplatelessPanics(env: Env, w: World, job: Job, accelerators: Accelerators)
    requires job.spec == TemplatelessSpec() && job.status.phase == NoPhase && InSync(w, NewJob(job))
    requires Still(env, w) && w.pods == map[]
    ensures Setup(env, w, NewJob(job), accelerators).status.phase == Failed
    ensures Reconcile(env, w, NewJob(job), accelerators).v.out == Panicked
  {
    var m, r := NewJob(job), TemplatelessSpec().replicaSpecs[0];
    assert WithDefaults(job.spec) == job.spec by {
      assert DefaultReplicas(job.spec.replicaSpecs) == job.spec.replicaSpecs;
    }
    StillTick(env, w);
    var a := Begin(env, w, m, accelerators);
    SetupPhase(env, w, m, accelerators);
    assert a.v.out == Fine && a.w.pods == map[] && a.v.m.job.spec == job.spec;
    StillLater(env, w, a.w);
    LowerTypes();
    assert AllAccepted(job.spec.replicaSpecs);
    PrepareOutcome(env, a.w, a.v.m);
    var b := Prepare(env, a.w, a.v.m);
    assert b.w == a.w;
    TemplatelessPush(env, a.w, b.v.m);
  }

  lemma TemplatelessPush(env: Env, w: World, m: Memory)
    requires m.replicas == TemplatelessSpec().replicaSpecs && Still(env, w) && w.pods == map[]
    ensures Push(env, w, m).v.out == Panicked
  {
    var c, r := CtxOf(m), m.replicas[0];
    CalmSyncPodAt(env, w, c, r, 0);
    assert PodTurn(env, c, r)(w, 0).v == Panicked;
    assert SyncPods(env, w, c, r).v == Panicked;
    assert c.replicas[0] == r;
  }

  // ---------------------------------------------------------------- runs

  // No stored job that has a key has a deadly spec.
  ghost predicate NoneDeadly(jobs: map<Ref, Job>)
  {
    forall ref <- jobs :: HasKey(ref) ==> !Deadly(SpecToRun(jobs[ref]))
  }

  ghost predicate AllSafe(s: System)
  {
    && NoneDeadly(s.w.jobs)
    && (forall key <- s.jobs :: !Deadly(s.jobs[key].job.spec) && Cached(s.jobs[key]))
  }

  lemma TargetSafe(s: System, a: Action)
    requires Sound(s) && AllSafe(s) && Effective(s, a)
    ensures var m := Target(s, a);
            && Agrees(m) && Cached(m) && !Deadly(SpecToRun(m.job))
            && (m.status.phase == NoPhase ==> m.replicas == [])
  {
    TargetReady(s, a);
    SplitKeyIff(a.key, SplitKey(a.key).value);
  }

  // The controller dies in this sync.
  predicate Dies(env: Env, s: System, a: Action, accelerators: Accelerators)
  {
    a.Sync? && SyncJob(env, s.w, s.jobs, a.key, ListedIn(s, a), accelerators).v.died
  }

  lemma ActDoesNotDie(env: Env, s: System, a: Action, accelerators: Accelerators)
    requires Sound(s) && AllSafe(s)
    ensures !Dies(env, s, a, accelerators)
  {
    if Effective(s, a) {
      TargetSafe(s, a);
      ReconcileNeverPanics(env, s.w, Target(s, a), accelerators);
      SyncShape(env, s.w, s.jobs, a.key, s.w.jobs[SplitKey(a.key).value], accelerators);
    }
  }

  lemma PassedIsSafe(env: Env, s: System, a: Action, s': System, m': Memory)
    requires Sound(s) && AllSafe(s) && Effective(s, a) && Passed(env, s, a, s', m')
    requires !Deadly(m'.job.spec) && Cached(m')
    ensures AllSafe(s')
  {
    TargetReady(s, a);
    var c, es := CtxOf(m'), Since(s.w, s'.w);
    LegalKeepsJobs(env, c, PairedPuts, s.w, es);
    ChangedIsSetUp(env, c, PairedPuts, s.w, es);
    StoredStaySafe(s.w, s'.w, c);
  }

  lemma StoredStaySafe(w: World, w': World, c: Ctx)
    requires JobsKept(c.ref, w.jobs, w'.jobs) && !Deadly(c.spec)
    requires c.ref in w.jobs && w'.jobs[c.ref] != w.jobs[c.ref] ==>
               w'.jobs[c.ref].spec == c.spec && w'.jobs[c.ref].status.phase != NoPhase
    requires NoneDeadly(w.jobs)
    ensures NoneDeadly(w'.jobs)
  {
    forall ref | ref in w'.jobs && HasKey(ref)
      ensures !Deadly(SpecToRun(w'.jobs[ref]))
    {
      assert !Deadly(SpecToRun(w.jobs[ref]));
    }
  }

  // Users submit no job that kills.
  predicate Harmless(a: Action)
  {
    a.Submit? ==> !Deadly(SpecToRun(a.job))
  }

  lemma ActIsSafe(env: Env, s: System, a: Action, accelerators: Accelerators)
    requires Sound(s) && AllSafe(s) && Harmless(a)
    ensures AllSafe(Act(env, s, a, accelerators))
  {
    if Effective(s, a) {
      TargetSafe(s, a);
      ReconcileNeverPanics(env, s.w, Target(s, a), accelerators);
      var m' := ActPasses(env, s, a, accelerators);
      PassedIsSafe(env, s, a, Act(env, s, a, accelerators), m');
    } else {
      IdleAct(env, s, a, accelerators);
      UserIsSafe(s, a, Act(env, s, a, accelerators));
    }
  }

  lemma UserIsSafe(s: System, a: Action, s': System)
    requires AllSafe(s) && Harmless(a) && (s'.jobs == s.jobs || s'.jobs == map[])
    requires s'.w == match UserEvent(s.w, a) case None => s.w case Some(e) => Apply(s.w, e)
    ensures AllSafe(s')
  {
    forall ref | ref in s'.w.jobs && HasKey(ref)
      ensures !Deadly(SpecToRun(s'.w.jobs[ref]))
    {
      if ref in s.w.jobs {
        assert !Deadly(SpecToRun(s.w.jobs[ref]));
      }
    }
  }

  /** If no job, stored or submitted, has a deadly spec, no pass of any run ever dies of a nil pointer. */
  lemma {:induction false} RunNeverPanics(env: Env, s: System, actions: seq<Action>, accelerators: Accelerators)
    requires Sound(s) && AllSafe(s) && forall a <- actions :: Harmless(a)
    ensures AllSafe(Run(env, s, actions, accelerators))
    ensures forall k | 0 <= k < |actions| ::
              !Dies(env, Run(env, s, actions[..k], accelerators), actions[k], accelerators)
    decreases |actions|
  {
    if actions != [] {
      var a := actions[0];
      ActDoesNotDie(env, s, a, accelerators);
      ActIsSafe(env, s, a, accelerators);
      ActIsSound(env, s, a, accelerators);
      assert forall x <- actions[1..] :: x in actions;
      RunNeverPanics(env, Act(env, s, a, accelerators), actions[1..], accelerators);
      forall k | 0 <= k < |actions|
        ensures !Dies(env, Run(env, s, actions[..k], accelerators), actions[k], accelerators)
      {
        if k > 0 {
          assert actions[..k][1..] == actions[1..][..k - 1] && actions[..k][0] == a;
        }
      }
    }
  }

  // Some run of a controller started on this store dies, and not of a job submitted meanwhile.
  ghost predicate SomeRunDies(w: World, accelerators: Accelerators)
  {
    exists env: Env, actions: seq<Action>, k: nat ::
      k < |actions| && (forall a <- actions :: Harmless(a))
      && Dies(env, Run(env, System(w, map[]), actions[..k], accelerators), actions[k], accelerators)
  }

  /** A run can die of a nil pointer exactly if some stored job that has a key has a deadly spec. */
  lemma RunCanPanicIff(w: World, accelerators: Accelerators)
    requires JobsStarted(w.jobs) && Identified(w)
    ensures SomeRunDies(w, accelerators)
       <==> exists ref <- w.jobs :: HasKey(ref) && Deadly(SpecToRun(w.jobs[ref]))
  {
    var s := System(w, map[]);
    if ref :| ref in w.jobs && HasKey(ref) && Deadly(SpecToRun(w.jobs[ref])) {
      var env := DireExists();
      var a := Sync(KeyOf(ref), true, false);
      SplitKeyIff(a.key, ref);
      DeadlySyncDies(env, s, a, accelerators);
      assert [a][..0] == [] && Run(env, s, [], accelerators) == s;
      assert [a][0] == a;
    } else {
      assert AllSafe(s);
      forall env: Env, actions: seq<Action>, k: nat | k < |actions| && forall a <- actions :: Harmless(a)
        ensures !Dies(env, Run(env, s, actions[..k], accelerators), actions[k], accelerators)
      {
        RunNeverPanics(env, s, actions, accelerators);
      }
    }
  }

  lemma DeadlySyncDies(env: Env, s: System, a: Action, accelerators: Accelerators)
    requires Dire(env) && Sound(s) && s.jobs == map[] && Effective(s, a)
    requires Deadly(SpecToRun(s.w.jobs[SplitKey(a.key).value]))
    ensures Dies(env, s, a, accelerators)
  {
    TargetReady(s, a);
    DireReconcile(env, s.w, Target(s, a), accelerators);
    SyncShape(env, s.w, s.jobs, a.key, s.w.jobs[SplitKey(a.key).value], accelerators);
  }
}
