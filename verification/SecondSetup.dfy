/** What a setup write that does not reach the store can cost when no restart follows it: the job is
set up a second time, under a second runtime id, and has two live pods for one replica.  Exactly
which stored jobs this can happen to, with no list failing and no pod lost. */
module SecondSetup {
  import opened Wrappers
  import opened Api
  import opened Naming
  import opened Store
  import opened Loops
  import opened Replicas
  import opened Trails
  import opened Training
  import opened Passes
  import opened CalmPasses
  import opened Durability
  import opened Locality
  import opened LivePods
  import opened Controller
  import opened Runs
  import opened Recovery
  import opened SetupSoundness
  import opened Validation
  import opened AcceleratorSetup

  // ---------------------------------------------------------------- the environments

  function Letters(c: char, k: nat): (s: string)
    ensures |s| == k && forall x <- s :: x == c
  {
    seq(k, i => c)
  }

  // From position n on: the setup write is turned away; of the next pass the first pod is created, and
  // every other write of it is turned away, and so on for ever.  Pod names end in l letters.
  function Hopeless(n: nat, l: nat, listing: set<Ref> -> seq<Ref>, order: Order): Env
  {
    Env((i: nat) => [], (i: nat) => false, (i: nat) => if i == n + 3 then Answered else Rejected,
        (i: nat, k: nat) => Letters('a', if k == 5 then l else k), listing, order)
  }

  // The same up to position m, from where on every call is answered, and other letters are drawn.
  function Unlucky(n: nat, m: nat, l: nat, listing: set<Ref> -> seq<Ref>, order: Order): Env
  {
    Env((i: nat) => [], (i: nat) => false, (i: nat) => if i == n + 3 || i >= m then Answered else Rejected,
        (i: nat, k: nat) => Letters(if i < m then 'a' else 'b', if k == 5 then l else k), listing, order)
  }

  ghost predicate Unmoved(env: Env)
  {
    forall n: nat :: env.moves(n) == [] && !env.readFails(n)
  }

  lemma UnmovedTick(env: Env, w: World)
    requires Unmoved(env)
    ensures Tick(env, w) == w
  {
    assert env.moves(|w.trace|) == [];
  }

  lemma UnmovedIsGuarded(env: Env, key: Ref)
    requires Unmoved(env) && FairListing(env)
    ensures GuardedJob(env, key)
  {
    forall n: nat
      ensures OursAlone(env.moves(n), key)
    {
      assert env.moves(n) == [];
    }
  }

  // ---------------------------------------------------------------- what setup makes of the job

  // A TrainingJob that has set a valid job up under this id, and has built no replica sets yet.
  ghost predicate Ready(m: Memory, job: Job, rid: string)
  {
    var d := WithDefaults(job.spec);
    && m.job.ref == job.ref && m.job.uid == job.uid && m.replicas == []
    && Agrees(m) && m.status.phase == Creating && m.job.spec.runtimeId == rid
    && |m.job.spec.replicaSpecs| == |d.replicaSpecs|
    && forall i :: 0 <= i < |d.replicaSpecs| ==> SameButTemplate(m.job.spec.replicaSpecs[i], d.replicaSpecs[i])
  }

  predicate SameButTemplate(r: ReplicaSpec, d: ReplicaSpec)
  {
    r == d.(template := r.template) && r.template.Some? && SafeReplica(d)
  }

  // What setup makes of the job, with its status taken over by the cached job.
  function SetUpJob(env: Env, w: World, job: Job, accelerators: Accelerators): Memory
  {
    var m := Setup(env, w, NewJob(job), accelerators);
    m.(job := m.job.(status := m.status))
  }

  lemma SetsUpReady(env: Env, w: World, job: Job, accelerators: Accelerators)
    requires DrawsId(job)
    ensures Ready(SetUpJob(env, w, job, accelerators), job, env.random(|w.trace|, 4))
  {
    var m, d := NewJob(job), WithDefaults(job.spec);
    DefaultsIdempotent(job.spec);
    assert forall k :: 0 <= k < |d.replicaSpecs| ==> ValidReplica(d.replicaSpecs[k]);
    ConfigureSucceeds(d.replicaSpecs, 0, accelerators, env.order);
    assert Setup(env, w, m, accelerators).status.phase == Creating;
    forall i | 0 <= i < |d.replicaSpecs|
      ensures SameButTemplate(Setup(env, w, m, accelerators).job.spec.replicaSpecs[i], d.replicaSpecs[i])
    {
      SetupConfigures(env, w, m, accelerators, i);
      assert ValidReplica(d.replicaSpecs[i]);
    }
    ConfigureTouchesOnlyId(env, w, m, accelerators);
  }

  lemma ConfigureTouchesOnlyId(env: Env, w: World, m: Memory, accelerators: Accelerators)
    requires DrawsId(m.job) && Agrees(m)
    ensures Setup(env, w, m, accelerators).job.spec.runtimeId == env.random(|w.trace|, 4)
    ensures |Setup(env, w, m, accelerators).job.spec.replicaSpecs| == |WithDefaults(m.job.spec).replicaSpecs|
  {
    var d := WithDefaults(m.job.spec);
    DefaultsIdempotent(m.job.spec);
    assert forall k :: 0 <= k < |d.replicaSpecs| ==> ValidReplica(d.replicaSpecs[k]);
    ConfigureSucceeds(d.replicaSpecs, 0, accelerators, env.order);
  }

  // What a job must be like for a pass over it to create a pod of set k, which is of this type.
  predicate Creates(job: Job, k: nat, typ: string)
  {
    var rs := WithDefaults(job.spec).replicaSpecs; AllAccepted(rs) && FirstSized(rs, k) && rs[k].typ == typ
  }

  // What the replica sets of a TrainingJob that is ready will be told of the job.
  function ReadyCtx(m: Memory): Ctx
  {
    CtxOf(m.(replicas := m.job.spec.replicaSpecs))
  }

  lemma AcceptedAlike(r: ReplicaSpec, d: ReplicaSpec)
    requires SameButTemplate(r, d) && CheckReplica(d) == Accepted
    ensures CheckReplica(r) == Accepted
  {}

  lemma ReadyIsAccepted(m: Memory, job: Job, rid: string)
    requires Ready(m, job, rid) && AllAccepted(WithDefaults(job.spec).replicaSpecs)
    ensures AllAccepted(m.job.spec.replicaSpecs)
  {
    var rs, d := m.job.spec.replicaSpecs, WithDefaults(job.spec).replicaSpecs;
    forall i | 0 <= i < |rs|
      ensures CheckReplica(rs[i]) == Accepted
    {
      AcceptedAlike(rs[i], d[i]);
    }
  }

  lemma AcceptedBuilds(m: Memory)
    requires m.replicas == [] && AllAccepted(m.job.spec.replicaSpecs)
    ensures SetupReplicas(m) == Built(m.job.spec.replicaSpecs, Fine, None) && BuiltCtx(m) == ReadyCtx(m)
  {
    BuildIsFine(m.job.spec.replicaSpecs);
  }

  lemma ReadyBuilds(m: Memory, job: Job, rid: string)
    requires Ready(m, job, rid) && AllAccepted(WithDefaults(job.spec).replicaSpecs)
    ensures SetupReplicas(m) == Built(m.job.spec.replicaSpecs, Fine, None) && BuiltCtx(m) == ReadyCtx(m)
  {
    ReadyIsAccepted(m, job, rid);
    AcceptedBuilds(m);
  }

  lemma ReadySizes(m: Memory, job: Job, rid: string, k: nat)
    requires Ready(m, job, rid) && FirstSized(WithDefaults(job.spec).replicaSpecs, k)
    ensures var rs := m.job.spec.replicaSpecs;
            && FirstSized(rs, k) && rs[k].template.Some? && !UnsizedRole(rs)
            && rs[k].typ == WithDefaults(job.spec).replicaSpecs[k].typ
  {
    var rs, d := m.job.spec.replicaSpecs, WithDefaults(job.spec).replicaSpecs;
    forall i | 0 <= i < |rs|
      ensures rs[i].replicas.Some? && Size(rs[i]) == Size(d[i])
    {
      assert SameButTemplate(rs[i], d[i]);
    }
    assert SameButTemplate(rs[k], d[k]);
  }

  // A TrainingJob of this job, set up under this id, that will create a pod of set k.
  ghost predicate Armed(m: Memory, ref: Ref, uid: string, rid: string, k: nat, typ: string)
  {
    && m.job.ref == ref && m.job.uid == uid && m.job.spec.runtimeId == rid
    && Agrees(m) && m.status.phase == Creating && CreatesAtOnce(m, k) && BuiltCtx(m) == ReadyCtx(m)
    && k < |m.job.spec.replicaSpecs|
    && m.job.spec.replicaSpecs[k].typ == typ && m.job.spec.replicaSpecs[k].template.Some?
  }

  lemma SetsUpArmed(env: Env, w: World, job: Job, accelerators: Accelerators, k: nat, typ: string)
    requires DrawsId(job) && Creates(job, k, typ)
    ensures Armed(SetUpJob(env, w, job, accelerators), job.ref, job.uid, env.random(|w.trace|, 4), k, typ)
  {
    var m, rid := SetUpJob(env, w, job, accelerators), env.random(|w.trace|, 4);
    SetsUpReady(env, w, job, accelerators);
    ReadyBuilds(m, job, rid);
    ReadySizes(m, job, rid, k);
  }

  // ---------------------------------------------------------------- pods of a stretch without moves

  // Every pod was there before, as it is, or was made for the job.
  ghost predicate OldOrMade(env: Env, c: Ctx, w0: World, w: World)
  {
    forall ref <- w.pods :: OldPod(w0, ref, w.pods[ref]) || MadePod(env, c, ref, w.pods[ref])
  }

  predicate OldPod(w0: World, ref: Ref, pod: Pod)
  {
    ref in w0.pods && pod == w0.pods[ref]
  }

  ghost predicate MadePod(env: Env, c: Ctx, ref: Ref, pod: Pod)
  {
    exists k: nat, index: nat, n: nat :: PodFor(env, c, k, index, n, ref, pod)
  }

  lemma {:induction false} PodsOldOrMade(env: Env, c: Ctx, puts: Puts, w0: World, w: World, es: seq<Event>)
    requires LegalAll(env, c, puts, w, es) && Unmoved(env) && OldOrMade(env, c, w0, w)
    ensures OldOrMade(env, c, w0, Replay(w, es))
    decreases |es|
  {
    if es != [] {
      EventOldOrMade(env, c, puts, w0, w, es[0]);
      PodsOldOrMade(env, c, puts, w0, Apply(w, es[0]), es[1..]);
    }
  }

  lemma OtherEventsKeepPods(w: World, e: Event)
    requires !e.PodCreated? && !e.Moved? && !e.PodsDeleted?
    ensures Apply(w, e).pods == w.pods
  {}

  lemma EventOldOrMade(env: Env, c: Ctx, puts: Puts, w0: World, w: World, e: Event)
    requires Legal(env, c, puts, w, e) && Unmoved(env) && OldOrMade(env, c, w0, w)
    ensures OldOrMade(env, c, w0, Apply(w, e))
  {
    if e.PodCreated? {
      assert MadePod(env, c, e.ref, e.pod);
    } else {
      OtherEventsKeepPods(w, e);
    }
  }

  predicate EndsIn(s: string, c: char)
  {
    s != "" && s[|s| - 1] == c
  }

  lemma OldNotLive(w0: World, w: World, ref: Ref, slot: Slot)
    requires ref in w.pods && OldPod(w0, ref, w.pods[ref]) && LiveIn(w0, slot) == {}
    ensures ref !in LiveIn(w, slot)
  {
    assert ref !in LiveIn(w0, slot);
  }

  lemma MadeNotLive(env: Env, c: Ctx, w: World, ref: Ref, slot: Slot)
    requires ref in w.pods && MadePod(env, c, ref, w.pods[ref]) && c.spec.runtimeId != slot.rid
    ensures ref !in LiveIn(w, slot)
  {
    var j: nat, i: nat, n: nat :| PodFor(env, c, j, i, n, ref, w.pods[ref]);
    TaskSelectorsDisjoint(slot.job, slot.rid, slot.typ, slot.index, c.ref.name, c.spec.runtimeId, c.replicas[j].typ, i);
  }

  // Nothing that was there, or was made under one id, is a pod of a replica under another.
  lemma NotLiveAgain(env: Env, c: Ctx, w0: World, w: World, rid: string, typ: string, index: int)
    requires OldOrMade(env, c, w0, w) && Bare(w0, c.ref) && c.spec.runtimeId != rid
    ensures LiveIn(w, Slot(c.ref.ns, c.ref.name, rid, typ, index)) == {}
  {
    var slot := Slot(c.ref.ns, c.ref.name, rid, typ, index);
    BareSlot(w0, c.ref, rid, typ, index);
    forall ref | ref in w.pods
      ensures ref !in LiveIn(w, slot)
    {
      if OldPod(w0, ref, w.pods[ref]) {
        OldNotLive(w0, w, ref, slot);
      } else {
        MadeNotLive(env, c, w, ref, slot);
      }
    }
  }

  lemma MadeName(env: Env, c: Ctx, ref: Ref, pod: Pod, letter: char)
    requires MadePod(env, c, ref, pod) && forall n: nat :: EndsIn(env.random(n, 5), letter)
    ensures EndsIn(ref.name, letter)
  {
    var j: nat, i: nat, n: nat :| PodFor(env, c, j, i, n, ref, pod);
    assert EndsIn(env.random(n, 5), letter);
  }

  // Names that end otherwise than all that were made are free if they were.
  lemma NameFreeAgain(env: Env, c: Ctx, w0: World, w: World, ref: Ref)
    requires OldOrMade(env, c, w0, w) && ref !in w0.pods
    requires EndsIn(ref.name, 'b') && forall n: nat :: EndsIn(env.random(n, 5), 'a')
    ensures ref !in w.pods
  {
    forall r | r in w.pods && r !in w0.pods
      ensures EndsIn(r.name, 'a')
    {
      MadeName(env, c, r, w.pods[r], 'a');
    }
  }

  // ---------------------------------------------------------------- one pass that makes a pod

  // The creation of the first pod of a set of this type for a job, under an id made of one letter.
  predicate IsPodOf(e: Event, ref: Ref, uid: string, typ: string, letter: char)
  {
    && e.PodCreated? && e.ref.ns == ref.ns && EndsIn(e.ref.name, letter)
    && e.pod.phase == PodPending && e.pod.owner == Some(Owner(ref.name, uid))
    && e.pod.labels == TaskLabels(ref.name, Letters(letter, 4), typ, 0)
  }

  function PodUnder(ref: Ref, typ: string, letter: char, suffix: string): Ref
  {
    Ref(ref.ns, GenPodName(ref.name, typ, Letters(letter, 4), 0, suffix))
  }

  lemma RestMakes(env: Env, w: World, m: Memory, ref: Ref, uid: string, k: nat, typ: string, letter: char)
    returns (e: Event)
    requires Armed(m, ref, uid, Letters(letter, 4), k, typ) && FairListing(env) && FirstTurnGoes(env, w)
    requires LiveIn(w, Slot(ref.ns, ref.name, Letters(letter, 4), typ, 0)) == {}
    requires PodUnder(ref, typ, letter, env.random(|w.trace| + 2, 5)) !in w.pods
    requires EndsIn(env.random(|w.trace| + 2, 5), letter)
    ensures IsPodOf(e, ref, uid, typ, letter)
    ensures var p := Rest(env, w, m);
            && CtxOf(p.v.m) == ReadyCtx(m) && w.trace + [Read, Read, e] <= p.w.trace
            && w.trace + [Read, Read, e] <= Push(env, w, m.(replicas := m.job.spec.replicaSpecs)).w.trace
  {
    var c := ReadyCtx(m);
    e := FirstPod(env, w, c, k);
    assert Vacant(env, w, c, k);
    PassBegins(env, w, m, k);
    PushBegins(env, w, m.(replicas := m.job.spec.replicaSpecs), k);
  }

  // ---------------------------------------------------------------- the run

  // The second sync is cut short by the death of the controller.
  function Actions(key: string): seq<Action>
  {
    [Sync(key, true, false), Sync(key, true, true), Sync(key, true, false)]
  }

  // A store with a job that draws an id and has pods to create, and no pod of the operator under its
  // name, nor with the names its pods will get.
  ghost predicate Scene(w0: World, key: string, job: Job, k: nat, typ: string, l: nat)
  {
    && JobsStarted(w0.jobs) && Identified(w0) && SplitKey(key) == Some(job.ref)
    && job.ref in w0.jobs && w0.jobs[job.ref] == job && Bare(w0, job.ref) && DrawsId(job) && Creates(job, k, typ)
    && l > 0 && PodUnder(job.ref, typ, 'a', Letters('a', l)) !in w0.pods
    && PodUnder(job.ref, typ, 'b', Letters('b', l)) !in w0.pods
  }

  lemma FirstAct(env: Env, w0: World, key: string, job: Job, k: nat, typ: string, l: nat, accelerators: Accelerators,
                 listing: set<Ref> -> seq<Ref>, order: Order)
    requires env == Hopeless(|w0.trace|, l, listing, order) && Scene(w0, key, job, k, typ, l)
    ensures Act(env, System(w0, map[]), Sync(key, true, false), accelerators)
         == System(Apply(w0, Refused(UpdateJobVerb)), map[key := SetUpJob(env, w0, job, accelerators)])
  {
    EffectiveAct(env, System(w0, map[]), Sync(key, true, false), accelerators);
    BeginRejected(env, w0, job, accelerators);
  }

  lemma BeginRejected(env: Env, w: World, job: Job, accelerators: Accelerators)
    requires Unmoved(env) && job.status.phase == NoPhase && env.reply(|w.trace|) == Rejected
    ensures Reconcile(env, w, NewJob(job), accelerators)
         == Ret(Apply(w, Refused(UpdateJobVerb)), Turn(SetUpJob(env, w, job, accelerators), Erred))
  {
    UnmovedTick(env, w);
    SetupPhase(env, w, NewJob(job), accelerators);
  }

  lemma BeginAnswered(env: Env, w: World, job: Job, accelerators: Accelerators)
    requires Unmoved(env) && InSync(w, NewJob(job)) && job.status.phase == NoPhase && env.reply(|w.trace|) == Answered
    ensures var m := SetUpJob(env, w, job, accelerators);
            Begin(env, w, NewJob(job), accelerators) == Ret(Apply(w, JobUpdated(m.job)), Turn(m, Fine))
  {
    UnmovedTick(env, w);
    SetupPhase(env, w, NewJob(job), accelerators);
  }

  lemma UpdateRejected(env: Env, w: World, m: Memory)
    requires Unmoved(env) && env.reply(|w.trace|) == Rejected
    ensures UpdateCRD(env, w, m).w.jobs == w.jobs
  {
    UnmovedTick(env, w);
  }

  // A pass whose status writes are all turned away leaves the stored jobs as they are.
  lemma ProceedRejected(env: Env, w: World, m: Memory, n: nat)
    requires Unmoved(env) && Agrees(m) && m.status.phase != NoPhase && m.status.phase != CleanUp
    requires n <= |Push(env, w, m).w.trace| && forall i: nat :: n <= i ==> env.reply(i) == Rejected
    ensures Proceed(env, w, m).w.jobs == w.jobs
  {
    var c, d := CtxOf(m), Push(env, w, m);
    PushStep(env, c, AnyPuts, w, m);
    QuietEvents(env, c, w, Since(w, d.w));
    if d.v.out == Fine && ChiefReadable(c) {
      var read, e := GetStatus(env, d.w, c), Observe(env, d.w, m);
      GetStatusTrail(env, c, d.w);
      QuietEvents(env, c, d.w, Since(d.w, read.w));
      UpdateRejected(env, read.w, m.(status := NextStatus(m.status, JobState(read.v.chief), read.v.statuses)));
      ObserveStep(env, c, AnyPuts, d.w, m);
      FinishIsIdle(env, e.w, e.v.m);
    }
  }

  // What the store and the trace are like when the controller has died: the job is as it was, and one
  // of its pods was made under the first id.
  ghost predicate Halfway(env: Env, w0: World, s: System, c: Ctx, job: Job, typ: string, first: Event)
  {
    && Sound(s) && s.jobs == map[] && s.w.jobs == w0.jobs && w0.trace <= s.w.trace
    && c.ref == job.ref && c.spec.runtimeId == Letters('a', 4) && OldOrMade(env, c, w0, s.w)
    && first in Since(w0, s.w) && IsPodOf(first, job.ref, job.uid, typ, 'a')
  }

  // The second pass: the first pod is made, and nothing is stored.
  lemma SecondPass(env: Env, w: World, m: Memory, ref: Ref, uid: string, k: nat, typ: string) returns (first: Event)
    requires Unmoved(env) && FairListing(env) && FirstTurnGoes(env, w)
    requires forall i: nat :: |w.trace| + 3 <= i ==> env.reply(i) == Rejected
    requires Armed(m, ref, uid, Letters('a', 4), k, typ) && EndsIn(env.random(|w.trace| + 2, 5), 'a')
    requires LiveIn(w, Slot(ref.ns, ref.name, Letters('a', 4), typ, 0)) == {}
    requires PodUnder(ref, typ, 'a', env.random(|w.trace| + 2, 5)) !in w.pods
    ensures IsPodOf(first, ref, uid, typ, 'a')
    ensures var p := Rest(env, w, m);
            p.w.jobs == w.jobs && CtxOf(p.v.m) == ReadyCtx(m) && w.trace + [Read, Read, first] <= p.w.trace
  {
    first := RestMakes(env, w, m, ref, uid, k, typ, 'a');
    ProceedRejected(env, w, m.(replicas := m.job.spec.replicaSpecs), |w.trace| + 3);
  }

  lemma SecondAct(env: Env, w0: World, key: string, job: Job, k: nat, typ: string, l: nat, accelerators: Accelerators,
                  listing: set<Ref> -> seq<Ref>, order: Order, s1: System) returns (c: Ctx, first: Event)
    requires env == Hopeless(|w0.trace|, l, listing, order) && FairListing(env)
    requires Scene(w0, key, job, k, typ, l) && Sound(s1)
    requires s1 == System(Apply(w0, Refused(UpdateJobVerb)), map[key := SetUpJob(env, w0, job, accelerators)])
    ensures Halfway(env, w0, Act(env, s1, Sync(key, true, true), accelerators), c, job, typ, first)
  {
    SetsUpArmed(env, w0, job, accelerators, k, typ);
    BareSlot(w0, job.ref, Letters('a', 4), typ, 0);
    c, first := SecondSync(env, w0, key, job, k, typ, accelerators, s1);
  }

  lemma SecondSync(env: Env, w0: World, key: string, job: Job, k: nat, typ: string, accelerators: Accelerators,
                   s: System)
    returns (c: Ctx, first: Event)
    requires Unmoved(env) && FairListing(env) && FirstTurnGoes(env, s.w)
    requires forall i: nat :: |s.w.trace| + 3 <= i ==> env.reply(i) == Rejected
    requires Sound(s) && SplitKey(key) == Some(job.ref) && key in s.jobs && StoredAs(s.w, job.ref, job.uid)
    requires w0.trace <= s.w.trace && s.w.jobs == w0.jobs && s.w.pods == w0.pods
    requires Armed(s.jobs[key], job.ref, job.uid, Letters('a', 4), k, typ)
    requires EndsIn(env.random(|s.w.trace| + 2, 5), 'a')
    requires LiveIn(w0, Slot(job.ref.ns, job.ref.name, Letters('a', 4), typ, 0)) == {}
    requires PodUnder(job.ref, typ, 'a', env.random(|s.w.trace| + 2, 5)) !in w0.pods
    ensures Halfway(env, w0, Act(env, s, Sync(key, true, true), accelerators), c, job, typ, first)
  {
    var slot := Slot(job.ref.ns, job.ref.name, Letters('a', 4), typ, 0);
    assert LiveIn(s.w, slot) == LiveIn(w0, slot);
    first := SecondPass(env, s.w, s.jobs[key], job.ref, job.uid, k, typ);
    c := ReadyCtx(s.jobs[key]);
    AfterSecondPass(env, w0, s, Sync(key, true, true), accelerators, c, first);
  }

  lemma AfterSecondPass(env: Env, w0: World, s: System, a: Action, accelerators: Accelerators, c: Ctx, first: Event)
    requires Sound(s) && Effective(s, a) && a.dies && Unmoved(env) && w0.trace <= s.w.trace
    requires s.w.jobs == w0.jobs && s.w.pods == w0.pods
    requires var p := Reconcile(env, s.w, Target(s, a), accelerators);
             p.w.jobs == s.w.jobs && CtxOf(p.v.m) == c && s.w.trace + [Read, Read, first] <= p.w.trace
    ensures var s' := Act(env, s, a, accelerators);
            && Sound(s') && s'.jobs == map[] && s'.w.jobs == w0.jobs && w0.trace <= s'.w.trace
            && OldOrMade(env, c, w0, s'.w) && first in Since(w0, s'.w)
  {
    var s' := Act(env, s, a, accelerators);
    var m' := ActPasses(env, s, a, accelerators);
    ActIsSound(env, s, a, accelerators);
    ActStoredJobs(env, s, a, accelerators);
    PassedPods(env, c, w0, s, a, s', m');
    ActKeepsPassTrace(env, s, a, accelerators);
    ThirdAdded(w0, s.w, s'.w, first);
  }

  lemma PassedPods(env: Env, c: Ctx, w0: World, s: System, a: Action, s': System, m': Memory)
    requires Sound(s) && Effective(s, a) && Passed(env, s, a, s', m') && CtxOf(m') == c
    requires Unmoved(env) && s.w.pods == w0.pods
    ensures OldOrMade(env, c, w0, s'.w)
  {
    TargetReady(s, a);
    PodsOldOrMade(env, c, PairedPuts, w0, s.w, Since(s.w, s'.w));
  }

  lemma ThirdAdded(w0: World, w: World, w': World, e: Event)
    requires w0.trace <= w.trace && w.trace + [Read, Read, e] <= w'.trace
    ensures w0.trace <= w'.trace && e in Since(w0, w')
  {
    assert Since(w0, w')[|w.trace| - |w0.trace| + 2] == e;
  }

  lemma ActKeepsPassTrace(env: Env, s: System, a: Action, accelerators: Accelerators)
    requires Effective(s, a)
    ensures Reconcile(env, s.w, Target(s, a), accelerators).w.trace <= Act(env, s, a, accelerators).w.trace
  {
    EffectiveAct(env, s, a, accelerators);
    var p, ref := Reconcile(env, s.w, Target(s, a), accelerators), SplitKey(a.key).value;
    SyncShape(env, s.w, s.jobs, a.key, s.w.jobs[ref], accelerators);
    GetJobTrail(env, CtxOf(p.v.m), p.w, ref);
  }

  // The third pass sets the job up again and makes a pod under the second id.
  lemma ThirdPass(env: Env, w: World, job: Job, k: nat, typ: string, accelerators: Accelerators) returns (second: Event)
    requires Unmoved(env) && FairListing(env) && InSync(w, NewJob(job)) && DrawsId(job) && Creates(job, k, typ)
    requires forall i: nat :: |w.trace| <= i ==> env.reply(i) == Answered
    requires env.random(|w.trace|, 4) == Letters('b', 4) && EndsIn(env.random(|w.trace| + 3, 5), 'b')
    requires LiveIn(w, Slot(job.ref.ns, job.ref.name, Letters('b', 4), typ, 0)) == {}
    requires PodUnder(job.ref, typ, 'b', env.random(|w.trace| + 3, 5)) !in w.pods
    ensures var p := Reconcile(env, w, NewJob(job), accelerators);
            w.trace <= p.w.trace && second in Since(w, p.w) && IsPodOf(second, job.ref, job.uid, typ, 'b')
  {
    SetsUpArmed(env, w, job, accelerators, k, typ);
    BeginAnswered(env, w, job, accelerators);
    second := ThirdRest(env, w, SetUpJob(env, w, job, accelerators), job.ref, job.uid, k, typ);
  }

  lemma ThirdRest(env: Env, w: World, m: Memory, ref: Ref, uid: string, k: nat, typ: string) returns (second: Event)
    requires Unmoved(env) && FairListing(env) && Armed(m, ref, uid, Letters('b', 4), k, typ)
    requires forall i: nat :: |w.trace| <= i ==> env.reply(i) == Answered
    requires EndsIn(env.random(|w.trace| + 3, 5), 'b')
    requires LiveIn(w, Slot(ref.ns, ref.name, Letters('b', 4), typ, 0)) == {}
    requires PodUnder(ref, typ, 'b', env.random(|w.trace| + 3, 5)) !in w.pods
    ensures var w' := Rest(env, Apply(w, JobUpdated(m.job)), m).w;
            w.trace <= w'.trace && second in Since(w, w') && IsPodOf(second, ref, uid, typ, 'b')
  {
    var w1, slot := Apply(w, JobUpdated(m.job)), Slot(ref.ns, ref.name, Letters('b', 4), typ, 0);
    assert LiveIn(w1, slot) == LiveIn(w, slot);
    second := RestMakes(env, w1, m, ref, uid, k, typ, 'b');
    ThirdAdded(w, w1, Rest(env, w1, m).w, second);
  }

  // ---------------------------------------------------------------- two pods

  // Without moves, what a run creates stays as it was created.
  lemma {:induction false} CreatedStays(env: Env, w: World, es: seq<Event>, e: Event)
    requires FairAll(env, w, es) && Unmoved(env)
    requires e.PodCreated? && (e in es || OldPod(w, e.ref, e.pod))
    ensures OldPod(Replay(w, es), e.ref, e.pod)
    decreases |es|
  {
    if es != [] {
      assert es == [es[0]] + es[1..];
      CreatedStays(env, Apply(w, es[0]), es[1..], e);
    }
  }

  predicate NoFailedList(es: seq<Event>)
  {
    forall e <- es :: !e.ListFailed?
  }

  lemma {:induction false} NoListFails(env: Env, w: World, es: seq<Event>)
    requires FairAll(env, w, es) && Unmoved(env)
    ensures NoFailedList(es)
    decreases |es|
  {
    if es != [] {
      NoListFails(env, Apply(w, es[0]), es[1..]);
      assert es == [es[0]] + es[1..];
    }
  }

  lemma {:induction false} NoFailedListCounts(es: seq<Event>, s: Slot)
    requires NoFailedList(es)
    ensures FailedLists(es, s) == 0
  {
    if es != [] {
      assert es[0] in es && forall e <- es[1..] :: e in es;
      NoFailedListCounts(es[1..], s);
    }
  }

  lemma TwoIdsTwoPods(w: World, ref: Ref, uid: string, typ: string, first: Event, second: Event)
    requires IsPodOf(first, ref, uid, typ, 'a') && OldPod(w, first.ref, first.pod)
    requires IsPodOf(second, ref, uid, typ, 'b') && OldPod(w, second.ref, second.pod)
    ensures |PodsOfReplica(w, ref, uid, typ, 0)| >= 2
  {
    TaskLabelsValues(ref.name, Letters('a', 4), typ, 0);
    TaskLabelsValues(ref.name, Letters('b', 4), typ, 0);
    var both := {first.ref, second.ref};
    assert first.ref != second.ref && both <= PodsOfReplica(w, ref, uid, typ, 0);
    SubsetSize(both, PodsOfReplica(w, ref, uid, typ, 0));
  }

  // A run that ends in two live pods of one replica, though no list fails in it.
  ghost predicate Doubles(env: Env, w0: World, actions: seq<Action>, accelerators: Accelerators,
                          key: Ref, uid: string, typ: string, index: int)
  {
    var w := Run(env, System(w0, map[]), actions, accelerators).w;
    NoFailedList(Since(w0, w)) && |PodsOfReplica(w, key, uid, typ, index)| >= 2
  }

  lemma UnluckyIsHopelessAtFirst(n: nat, m: nat, l: nat, listing: set<Ref> -> seq<Ref>, order: Order)
    ensures SameFrom(Hopeless(n, l, listing, order), Unlucky(n, m, l, listing, order), n, m)
  {
    var e, f := Hopeless(n, l, listing, order), Unlucky(n, m, l, listing, order);
    forall i: nat | n <= i < m
      ensures SameAt(e, f, i)
    {
      assert forall k: nat :: e.random(i, k) == f.random(i, k);
    }
  }

  lemma {:induction false} RunConcat(env: Env, s: System, a: seq<Action>, b: seq<Action>, accelerators: Accelerators)
    ensures Run(env, s, a + b, accelerators) == Run(env, Run(env, s, a, accelerators), b, accelerators)
    decreases |a|
  {
    if a == [] {
      assert a + b == b;
    } else {
      assert (a + b)[1..] == a[1..] + b;
      RunConcat(env, Act(env, s, a[0], accelerators), a[1..], b, accelerators);
    }
  }

  lemma OneAct(env: Env, s: System, a: Action, accelerators: Accelerators)
    ensures Run(env, s, [a], accelerators) == Act(env, s, a, accelerators)
  {
    assert [a][1..] == [];
  }

  lemma TwoActs(env: Env, s: System, key: string, accelerators: Accelerators)
    ensures Run(env, s, Actions(key)[..2], accelerators)
         == Act(env, Act(env, s, Sync(key, true, false), accelerators), Sync(key, true, true), accelerators)
  {
    var a1, a2 := Sync(key, true, false), Sync(key, true, true);
    assert Actions(key)[..2] == [a1] + [a2];
    RunConcat(env, s, [a1], [a2], accelerators);
    OneAct(env, s, a1, accelerators);
    OneAct(env, Act(env, s, a1, accelerators), a2, accelerators);
  }

  lemma UpToHalfway(env: Env, w0: World, key: string, job: Job, k: nat, typ: string, l: nat, accelerators: Accelerators,
                    listing: set<Ref> -> seq<Ref>, order: Order) returns (c: Ctx, first: Event, s: System)
    requires env == Hopeless(|w0.trace|, l, listing, order) && FairListing(env) && Scene(w0, key, job, k, typ, l)
    ensures s == Run(env, System(w0, map[]), Actions(key)[..2], accelerators)
    ensures Halfway(env, w0, s, c, job, typ, first)
  {
    var s0, a1 := System(w0, map[]), Sync(key, true, false);
    var s1 := System(Apply(w0, Refused(UpdateJobVerb)), map[key := SetUpJob(env, w0, job, accelerators)]);
    FirstAct(env, w0, key, job, k, typ, l, accelerators, listing, order);
    ActIsSound(env, s0, a1, accelerators);
    c, first := SecondAct(env, w0, key, job, k, typ, l, accelerators, listing, order, s1);
    s := Act(env, s1, Sync(key, true, true), accelerators);
    TwoActs(env, s0, key, accelerators);
  }

  lemma ThirdAct(env: Env, w: World, jobs: Jobs, key: string, job: Job, k: nat, typ: string, accelerators: Accelerators)
    returns (second: Event)
    requires Unmoved(env) && FairListing(env) && InSync(w, NewJob(job)) && DrawsId(job) && Creates(job, k, typ)
    requires SplitKey(key) == Some(job.ref) && jobs == map[]
    requires forall i: nat :: |w.trace| <= i ==> env.reply(i) == Answered
    requires env.random(|w.trace|, 4) == Letters('b', 4) && EndsIn(env.random(|w.trace| + 3, 5), 'b')
    requires LiveIn(w, Slot(job.ref.ns, job.ref.name, Letters('b', 4), typ, 0)) == {}
    requires PodUnder(job.ref, typ, 'b', env.random(|w.trace| + 3, 5)) !in w.pods
    ensures var s' := Act(env, System(w, jobs), Sync(key, true, false), accelerators);
            w.trace <= s'.w.trace && second in Since(w, s'.w) && IsPodOf(second, job.ref, job.uid, typ, 'b')
  {
    second := ThirdPass(env, w, job, k, typ, accelerators);
    ThirdActKeeps(env, System(w, jobs), key, job, accelerators, second);
  }

  lemma ThirdActKeeps(env: Env, s: System, key: string, job: Job, accelerators: Accelerators, e: Event)
    requires InSync(s.w, NewJob(job)) && SplitKey(key) == Some(job.ref) && s.jobs == map[]
    requires var p := Reconcile(env, s.w, NewJob(job), accelerators); s.w.trace <= p.w.trace && e in Since(s.w, p.w)
    ensures var s' := Act(env, s, Sync(key, true, false), accelerators);
            s.w.trace <= s'.w.trace && e in Since(s.w, s'.w)
  {
    ActKeepsPassTrace(env, s, Sync(key, true, false), accelerators);
    var p, s' := Reconcile(env, s.w, NewJob(job), accelerators), Act(env, s, Sync(key, true, false), accelerators);
    assert Since(s.w, p.w) <= Since(s.w, s'.w);
  }

  // Halfway, the way is free for a second pod.
  lemma FreeHalfway(env: Env, w0: World, s: System, c: Ctx, job: Job, typ: string, first: Event, l: nat)
    requires Halfway(env, w0, s, c, job, typ, first) && Bare(w0, job.ref) && l > 0
    requires forall n: nat :: env.random(n, 5) == Letters('a', l)
    requires PodUnder(job.ref, typ, 'b', Letters('b', l)) !in w0.pods
    ensures LiveIn(s.w, Slot(job.ref.ns, job.ref.name, Letters('b', 4), typ, 0)) == {}
    ensures PodUnder(job.ref, typ, 'b', Letters('b', l)) !in s.w.pods
  {
    assert Letters('a', 4)[0] != Letters('b', 4)[0];
    NotLiveAgain(env, c, w0, s.w, Letters('b', 4), typ, 0);
    forall n: nat
      ensures EndsIn(env.random(n, 5), 'a')
    {
      assert env.random(n, 5) == Letters('a', l);
    }
    NameFreeAgain(env, c, w0, s.w, PodUnder(job.ref, typ, 'b', Letters('b', l)));
  }

  lemma BothStay(env: Env, w0: World, s: System, s': System, ref: Ref, uid: string, typ: string, first: Event,
                 second: Event)
    requires Unmoved(env) && Happens(env, w0, s'.w) && w0.trace <= s.w.trace && s.w.trace <= s'.w.trace
    requires first in Since(w0, s.w) && IsPodOf(first, ref, uid, typ, 'a')
    requires second in Since(s.w, s'.w) && IsPodOf(second, ref, uid, typ, 'b')
    ensures NoFailedList(Since(w0, s'.w)) && |PodsOfReplica(s'.w, ref, uid, typ, 0)| >= 2
  {
    var es := Since(w0, s'.w);
    SinceConcat(w0, s.w, s'.w);
    NoListFails(env, w0, es);
    CreatedStays(env, w0, es, first);
    CreatedStays(env, w0, es, second);
    TwoIdsTwoPods(s'.w, ref, uid, typ, first, second);
  }

  // The third act, and what the run has come to.
  lemma ThirdActDoubles(env: Env, w0: World, s: System, key: string, job: Job, typ: string, accelerators: Accelerators,
                first: Event, second: Event)
    requires Unmoved(env) && Sound(System(w0, map[])) && w0.trace <= s.w.trace
    requires s == Run(env, System(w0, map[]), Actions(key)[..2], accelerators)
    requires first in Since(w0, s.w) && IsPodOf(first, job.ref, job.uid, typ, 'a')
    requires var s' := Act(env, s, Sync(key, true, false), accelerators);
             s.w.trace <= s'.w.trace && second in Since(s.w, s'.w) && IsPodOf(second, job.ref, job.uid, typ, 'b')
    ensures Doubles(env, w0, Actions(key), accelerators, job.ref, job.uid, typ, 0)
  {
    var s0, a3 := System(w0, map[]), Sync(key, true, false);
    assert Actions(key) == Actions(key)[..2] + [a3];
    RunConcat(env, s0, Actions(key)[..2], [a3], accelerators);
    OneAct(env, s, a3, accelerators);
    RunEvents(env, s0, Actions(key), accelerators);
    BothStay(env, w0, s, Act(env, s, a3, accelerators), job.ref, job.uid, typ, first, second);
  }

  // The run, once the two environments part.
  lemma UnluckyDoubles(env: Env, w0: World, s: System, key: string, job: Job, k: nat, typ: string, l: nat,
                       accelerators: Accelerators, listing: set<Ref> -> seq<Ref>, order: Order, first: Event)
    requires env == Unlucky(|w0.trace|, |s.w.trace|, l, listing, order) && FairListing(env)
    requires Sound(System(w0, map[])) && w0.trace <= s.w.trace && s.jobs == map[] && InSync(s.w, NewJob(job))
    requires s == Run(env, System(w0, map[]), Actions(key)[..2], accelerators) && SplitKey(key) == Some(job.ref)
    requires DrawsId(job) && Creates(job, k, typ) && l > 0
    requires first in Since(w0, s.w) && IsPodOf(first, job.ref, job.uid, typ, 'a')
    requires LiveIn(s.w, Slot(job.ref.ns, job.ref.name, Letters('b', 4), typ, 0)) == {}
    requires PodUnder(job.ref, typ, 'b', Letters('b', l)) !in s.w.pods
    ensures Doubles(env, w0, Actions(key), accelerators, job.ref, job.uid, typ, 0)
  {
    var second := ThirdAct(env, s.w, s.jobs, key, job, k, typ, accelerators);
    ThirdActDoubles(env, w0, s, key, job, typ, accelerators, first, second);
  }

  // The run of `Actions` in the environment that parts at position m from the hopeless one: nothing moves,
  // no read fails, random strings are fair if pod names end in five letters, and two pods are left.
  ghost predicate PartsAt(m: nat, w0: World, key: string, job: Job, typ: string, l: nat, accelerators: Accelerators,
                          listing: set<Ref> -> seq<Ref>, order: Order)
  {
    var env := Unlucky(|w0.trace|, m, l, listing, order);
    && Unmoved(env) && (l == 5 ==> FairRandom(env))
    && Doubles(env, w0, Actions(key), accelerators, job.ref, job.uid, typ, 0)
  }

  // Up to where they part, the two environments give the same run.
  lemma AlikeAtFirst(env: Env, env': Env, w0: World, s: System, key: string, l: nat, accelerators: Accelerators,
                     listing: set<Ref> -> seq<Ref>, order: Order)
    requires env == Hopeless(|w0.trace|, l, listing, order) && Sound(System(w0, map[]))
    requires s == Run(env, System(w0, map[]), Actions(key)[..2], accelerators)
    requires env' == Unlucky(|w0.trace|, |s.w.trace|, l, listing, order)
    ensures s == Run(env', System(w0, map[]), Actions(key)[..2], accelerators)
  {
    UnluckyIsHopelessAtFirst(|w0.trace|, |s.w.trace|, l, listing, order);
    RunIsLocal(env, env', System(w0, map[]), Actions(key)[..2], accelerators);
  }

  /** The run, for every job that draws an id and has pods to create: the setup write is turned away and
  no restart follows; the next pass creates a pod and then the controller dies, before it has stored
  anything; the third pass sets the job up again, under another id, and creates the pod again. */
  lemma TwoPodsForOneReplica(w0: World, key: string, job: Job, k: nat, typ: string, l: nat, accelerators: Accelerators,
                             listing: set<Ref> -> seq<Ref>, order: Order)
    requires Scene(w0, key, job, k, typ, l) && FairListing(Hopeless(0, l, listing, order))
    ensures exists m: nat :: PartsAt(m, w0, key, job, typ, l, accelerators, listing, order)
  {
    var env := Hopeless(|w0.trace|, l, listing, order);
    assert FairListing(env);
    var c, first, s := UpToHalfway(env, w0, key, job, k, typ, l, accelerators, listing, order);
    FreeHalfway(env, w0, s, c, job, typ, first, l);
    var env' := Unlucky(|w0.trace|, |s.w.trace|, l, listing, order);
    AlikeAtFirst(env, env', w0, s, key, l, accelerators, listing, order);
    UnluckyDoubles(env', w0, s, key, job, k, typ, l, accelerators, listing, order, first);
    UnluckyParts(w0, |s.w.trace|, key, job, typ, l, accelerators, listing, order);
  }

  lemma UnluckyParts(w0: World, m: nat, key: string, job: Job, typ: string, l: nat, accelerators: Accelerators,
                     listing: set<Ref> -> seq<Ref>, order: Order)
    requires var env := Unlucky(|w0.trace|, m, l, listing, order);
             Doubles(env, w0, Actions(key), accelerators, job.ref, job.uid, typ, 0)
    ensures PartsAt(m, w0, key, job, typ, l, accelerators, listing, order)
  {
    FairLetters(|w0.trace|, m, listing, order);
  }

  lemma FairLetters(n: nat, m: nat, listing: set<Ref> -> seq<Ref>, order: Order)
    ensures FairRandom(Unlucky(n, m, 5, listing, order))
  {
    var env := Unlucky(n, m, 5, listing, order);
    forall i: nat, k: nat
      ensures |env.random(i, k)| == k && '-' !in env.random(i, k)
    {
      assert env.random(i, k) == Letters(if i < m then 'a' else 'b', k);
    }
  }

  // ---------------------------------------------------------------- jobs for which nothing is ever made

  // A spec over which a pass can create something.
  predicate Creative(spec: JobSpec)
  {
    AllAccepted(spec.replicaSpecs) && exists k :: 0 <= k < |spec.replicaSpecs| && Size(spec.replicaSpecs[k]) > 0
  }

  lemma SetupKeepsCreative(env: Env, w: World, m: Memory, accelerators: Accelerators)
    requires Agrees(m) && m.status.phase == NoPhase
    ensures Creative(Setup(env, w, m, accelerators).job.spec) <==> Creative(WithDefaults(m.job.spec))
  {
    var rs, d := Setup(env, w, m, accelerators).job.spec.replicaSpecs, WithDefaults(m.job.spec).replicaSpecs;
    DefaultsIdempotent(m.job.spec);
    if ValidSpec(WithDefaults(m.job.spec)) {
      assert |rs| == |d| by {
        assert forall k :: 0 <= k < |d| ==> ValidReplica(d[k]);
        ConfigureSucceeds(d, 0, accelerators, env.order);
      }
      forall i | 0 <= i < |d|
        ensures CheckReplica(rs[i]) == CheckReplica(d[i]) && Size(rs[i]) == Size(d[i])
      {
        SetupConfigures(env, w, m, accelerators, i);
      }
    }
  }

  lemma {:induction false} EmptySetsCreateNothing(env: Env, c: Ctx, puts: Puts, w: World, es: seq<Event>)
    requires LegalAll(env, c, puts, w, es) && forall k :: 0 <= k < |c.replicas| ==> Size(c.replicas[k]) <= 0
    ensures NoCreation(es)
    decreases |es|
  {
    if es != [] {
      EmptySetsCreateNothing(env, c, puts, Apply(w, es[0]), es[1..]);
      assert es == [es[0]] + es[1..];
    }
  }

  lemma RestCreatesNothing(env: Env, w: World, m: Memory)
    requires Agrees(m) && m.status.phase != NoPhase && m.status.phase != CleanUp && Cached(m) && !Creative(m.job.spec)
    ensures var p := Rest(env, w, m);
            NoCreation(Since(w, p.w)) && p.v.m.job.spec == m.job.spec && Cached(p.v.m) && w.trace <= p.w.trace
  {
    var p := Rest(env, w, m);
    CachedIsPrefix(m);
    RestStep(env, AnyPuts, w, m);
    PrepareOutcome(env, w, m);
    PrepareCreatesNothing(env, w, m);
    if AllAccepted(m.job.spec.replicaSpecs) {
      BuildOutcome(m.job.spec.replicaSpecs);
      EmptySetsCreateNothing(env, CtxOf(p.v.m), AnyPuts, w, Since(w, p.w));
    }
  }

  lemma PassCreatesNothing(env: Env, w: World, m: Memory, accelerators: Accelerators)
    requires Agrees(m) && m.status.phase != CleanUp && Cached(m) && !Creative(SpecToRun(m.job))
    requires m.status.phase == NoPhase ==> m.replicas == []
    ensures var p := Reconcile(env, w, m, accelerators);
            && w.trace <= p.w.trace && NoCreation(Since(w, p.w))
            && !Creative(p.v.m.job.spec) && Cached(p.v.m)
  {
    if m.status.phase == NoPhase {
      var a := Begin(env, w, m, accelerators);
      SetupKeepsCreative(env, w, m, accelerators);
      UpdateNeverPanics(env, w, Setup(env, w, m, accelerators));
      BeginKeeps(env, w, m, accelerators);
      assert Trail(env, CtxOf(a.v.m), PairedPuts, w, a.w);
      if a.v.out == Fine {
        RestCreatesNothing(env, a.w, a.v.m);
        SinceConcat(w, a.w, Rest(env, a.w, a.v.m).w);
      }
    } else {
      RestCreatesNothing(env, w, m);
    }
  }

  // No pass over the job of this key and UID will create anything.
  ghost predicate Barren(s: System, key: Ref, uid: string)
  {
    && UidKnown(s.w, uid)
    && (StoredAs(s.w, key, uid) && HasKey(key) ==> !Creative(SpecToRun(s.w.jobs[key])))
    && (forall k <- s.jobs :: IsOf(s.jobs[k], key, uid) ==> !Creative(s.jobs[k].job.spec) && Cached(s.jobs[k]))
  }

  lemma BarrenTarget(env: Env, s: System, a: Action, accelerators: Accelerators, key: Ref, uid: string)
    requires Sound(s) && Barren(s, key, uid) && Effective(s, a) && IsOf(Target(s, a), key, uid)
    ensures var s' := Act(env, s, a, accelerators); Barren(s', key, uid) && NoneMade(Since(s.w, s'.w), key, uid)
  {
    TargetReady(s, a);
    var m, s' := Target(s, a), Act(env, s, a, accelerators);
    assert SplitKey(a.key) == Some(key);
    SplitKeyIff(a.key, key);
    assert Cached(m) && !Creative(SpecToRun(m.job));
    PassCreatesNothing(env, s.w, m, accelerators);
    var m' := ActPasses(env, s, a, accelerators);
    ActCreatesNothing(env, s, a, accelerators);
    BarrenAfter(env, s, a, s', m', key, uid);
  }

  lemma ActCreatesNothing(env: Env, s: System, a: Action, accelerators: Accelerators)
    requires Effective(s, a)
    requires var p := Reconcile(env, s.w, Target(s, a), accelerators);
             s.w.trace <= p.w.trace && NoCreation(Since(s.w, p.w))
    ensures NoCreation(Since(s.w, Act(env, s, a, accelerators).w))
  {
    EffectiveAct(env, s, a, accelerators);
    var p, ref := Reconcile(env, s.w, Target(s, a), accelerators), SplitKey(a.key).value;
    SyncShape(env, s.w, s.jobs, a.key, s.w.jobs[ref], accelerators);
    GetJobTrail(env, CtxOf(p.v.m), p.w, ref);
    SinceConcat(s.w, p.w, GetJob(env, p.w, ref).w);
  }

  lemma BarrenAfter(env: Env, s: System, a: Action, s': System, m': Memory, key: Ref, uid: string)
    requires Sound(s) && Barren(s, key, uid) && Effective(s, a) && IsOf(Target(s, a), key, uid)
    requires Passed(env, s, a, s', m') && !Creative(m'.job.spec) && Cached(m')
    ensures Barren(s', key, uid)
  {
    TargetReady(s, a);
    var c, es := CtxOf(m'), Since(s.w, s'.w);
    LegalKeepsUids(env, c, PairedPuts, s.w, es, uid);
    LegalKeepsJobs(env, c, PairedPuts, s.w, es);
    ChangedIsSetUp(env, c, PairedPuts, s.w, es);
    OnlyTarget(s, a, s', m');
  }

  lemma BarrenOther(env: Env, s: System, a: Action, accelerators: Accelerators, key: Ref, uid: string)
    requires Sound(s) && Barren(s, key, uid) && Effective(s, a) && !IsOf(Target(s, a), key, uid)
    ensures var s' := Act(env, s, a, accelerators); Barren(s', key, uid) && NoneMade(Since(s.w, s'.w), key, uid)
  {
    TargetReady(s, a);
    var m' := ActPasses(env, s, a, accelerators);
    BarrenElsewhere(env, s, a, Act(env, s, a, accelerators), m', key, uid);
  }

  lemma BarrenElsewhere(env: Env, s: System, a: Action, s': System, m': Memory, key: Ref, uid: string)
    requires Sound(s) && Barren(s, key, uid) && Effective(s, a) && !IsOf(Target(s, a), key, uid)
    requires Passed(env, s, a, s', m')
    ensures Barren(s', key, uid) && NoneMade(Since(s.w, s'.w), key, uid)
  {
    TargetReady(s, a);
    var c, es := CtxOf(m'), Since(s.w, s'.w);
    LegalIds(env, c, PairedPuts, s.w, es, key, uid);
    LegalKeepsUids(env, c, PairedPuts, s.w, es, uid);
    OtherStored(env, c, s.w, s'.w, key, uid);
  }

  lemma OtherStored(env: Env, c: Ctx, w: World, w': World, key: Ref, uid: string)
    requires Trail(env, c, PairedPuts, w, w') && (c.ref != key || c.uid != uid) && StoredAs(w, c.ref, c.uid)
    ensures StoredAs(w', key, uid) ==> StoredAs(w, key, uid) && w'.jobs[key] == w.jobs[key]
  {
    LegalKeepsJobs(env, c, PairedPuts, w, Since(w, w'));
  }

  lemma BarrenUser(s: System, a: Action, s': System, key: Ref, uid: string)
    requires Barren(s, key, uid) && UserEvent(s.w, a).Some?
    requires s'.w == Apply(s.w, UserEvent(s.w, a).value) && (s'.jobs == s.jobs || s'.jobs == map[])
    ensures Barren(s', key, uid) && NoneMade(Since(s.w, s'.w), key, uid)
  {
    UserKeepsUids(s.w, a, uid);
    UserStores(s.w, a, key, uid);
    assert Since(s.w, s'.w) == [UserEvent(s.w, a).value];
  }

  // A job that no pass can create anything for has nothing made for it in any run.
  lemma {:induction false} NothingMade(env: Env, s: System, actions: seq<Action>, accelerators: Accelerators,
                                       key: Ref, uid: string)
    requires Sound(s) && Barren(s, key, uid)
    ensures NoneMade(Since(s.w, Run(env, s, actions, accelerators).w), key, uid)
    decreases |actions|
  {
    if actions == [] {
      assert Since(s.w, s.w) == [];
    } else {
      var a, s1, s' := actions[0], Act(env, s, actions[0], accelerators), Run(env, s, actions, accelerators);
      ActIsSound(env, s, a, accelerators);
      if Effective(s, a) {
        if IsOf(Target(s, a), key, uid) {
          BarrenTarget(env, s, a, accelerators, key, uid);
        } else {
          BarrenOther(env, s, a, accelerators, key, uid);
        }
      } else {
        IdleAct(env, s, a, accelerators);
        if UserEvent(s.w, a).Some? {
          BarrenUser(s, a, s1, key, uid);
        } else {
          assert Since(s.w, s1.w) == [];
        }
      }
      NothingMade(env, s1, actions[1..], accelerators, key, uid);
      ActEvents(env, s, a, accelerators);
      RunEvents(env, s1, actions[1..], accelerators);
      SinceConcat(s.w, s1.w, s'.w);
    }
  }

  // ---------------------------------------------------------------- exactly which jobs

  // In no run do two live pods of a job come about that draws no id, or has no pods to create.
  lemma NeverDoubles(env: Env, w0: World, actions: seq<Action>, accelerators: Accelerators, key: Ref, typ: string,
                     index: int)
    requires JobsStarted(w0.jobs) && Identified(w0) && GuardedJob(env, key) && Bare(w0, key) && key in w0.jobs
    requires !DrawsId(w0.jobs[key]) || !HasKey(key) || !Creative(WithDefaults(w0.jobs[key].spec))
    ensures !Doubles(env, w0, actions, accelerators, key, w0.jobs[key].uid, typ, index)
  {
    var s0, uid := System(w0, map[]), w0.jobs[key].uid;
    var w := Run(env, s0, actions, accelerators).w;
    var rid := "";
    if !DrawsId(w0.jobs[key]) {
      GivenIdNeedsNoRestart(env, w0, actions, accelerators, key, typ, index);
      rid :| |PodsOfReplica(w, key, uid, typ, index)|
               <= 1 + FailedLists(Since(w0, w), Slot(key.ns, key.name, rid, typ, index));
    } else {
      NothingMade(env, s0, actions, accelerators, key, uid);
      RunEvents(env, s0, actions, accelerators);
      OneIdBounds(env, w0, w, key, uid, rid, typ, index);
    }
    if NoFailedList(Since(w0, w)) {
      NoFailedListCounts(Since(w0, w), Slot(key.ns, key.name, rid, typ, index));
    }
  }

  lemma {:induction false} LongName(refs: set<Ref>) returns (l: nat)
    ensures l > 0 && forall ref <- refs :: |ref.name| < l
  {
    if refs == {} {
      l := 1;
    } else {
      var ref :| ref in refs;
      l := LongName(refs - {ref});
      l := if |ref.name| < l then l else |ref.name| + 1;
      assert forall r <- refs :: r in refs - {ref} || r == ref;
    }
  }

  lemma {:induction false} SomeFirstSized(rs: seq<ReplicaSpec>, j: nat) returns (k: nat)
    requires j < |rs| && Size(rs[j]) > 0 && forall i :: 0 <= i < |rs| ==> rs[i].replicas.Some?
    ensures FirstSized(rs, k)
  {
    if i :| 0 <= i < j && Size(rs[i]) > 0 {
      k := SomeFirstSized(rs, i);
    } else {
      k := j;
    }
  }

  // Some guarded run on this store ends in two live pods of one replica of the job, though no list fails.
  ghost predicate SomeRunDoubles(w0: World, accelerators: Accelerators, key: Ref, uid: string)
  {
    exists env: Env, actions: seq<Action>, typ: string, index: int ::
      GuardedJob(env, key) && Doubles(env, w0, actions, accelerators, key, uid, typ, index)
  }

  lemma DoublesSometimes(w0: World, accelerators: Accelerators, key: Ref)
    requires JobsStarted(w0.jobs) && Identified(w0) && Bare(w0, key) && key in w0.jobs
    requires HasKey(key) && DrawsId(w0.jobs[key]) && Creative(WithDefaults(w0.jobs[key].spec))
    ensures SomeRunDoubles(w0, accelerators, key, w0.jobs[key].uid)
  {
    var k0, k, typ, l := SceneExists(w0, key);
    var job := w0.jobs[key];
    ghost var listing := (s: set<Ref>) => Listing(s);
    ghost var order := (i: nat, s: set<string>) => Listing(s);
    TwoPodsForOneReplica(w0, k0, job, k, typ, l, accelerators, listing, order);
    var m: nat :| PartsAt(m, w0, k0, job, typ, l, accelerators, listing, order);
    UnmovedIsGuarded(Unlucky(|w0.trace|, m, l, listing, order), key);
  }

  lemma SceneExists(w0: World, key: Ref) returns (k0: string, k: nat, typ: string, l: nat)
    requires JobsStarted(w0.jobs) && Identified(w0) && Bare(w0, key) && key in w0.jobs
    requires HasKey(key) && DrawsId(w0.jobs[key]) && Creative(WithDefaults(w0.jobs[key].spec))
    ensures Scene(w0, k0, w0.jobs[key], k, typ, l)
  {
    var rs := WithDefaults(w0.jobs[key].spec).replicaSpecs;
    DefaultsIdempotent(w0.jobs[key].spec);
    k0 := KeyOf(key);
    SplitKeyIff(k0, key);
    var j :| 0 <= j < |rs| && Size(rs[j]) > 0;
    k := SomeFirstSized(rs, j);
    typ := rs[k].typ;
    l := LongName(w0.pods.Keys);
  }

  /** Start a controller on a store that holds no pod of the operator under a job's name.  Some run, in
  which lists that succeed tell the truth, none fails, and nobody else makes the job's pods, ends in two
  live pods of one replica of the job exactly if the job has a key, is without a phase and a runtime id,
  is valid once defaulted, and then has only replica sets that are accepted, and pods to create. */
  lemma TwoPodsIff(w0: World, accelerators: Accelerators, key: Ref)
    requires JobsStarted(w0.jobs) && Identified(w0) && Bare(w0, key) && key in w0.jobs
    ensures var job := w0.jobs[key];
            var d := WithDefaults(job.spec);
            SomeRunDoubles(w0, accelerators, key, job.uid)
            <==> && HasKey(key) && job.status.phase == NoPhase && job.spec.runtimeId == "" && ValidSpec(d)
                 && AllAccepted(d.replicaSpecs)
                 && exists k :: 0 <= k < |d.replicaSpecs| && Size(d.replicaSpecs[k]) > 0
  {
    var job := w0.jobs[key];
    if HasKey(key) && DrawsId(job) && Creative(WithDefaults(job.spec)) {
      DoublesSometimes(w0, accelerators, key);
    } else {
      forall env: Env, actions: seq<Action>, typ: string, index: int | GuardedJob(env, key)
        ensures !Doubles(env, w0, actions, accelerators, key, job.uid, typ, index)
      {
        NeverDoubles(env, w0, actions, accelerators, key, typ, index);
      }
    }
  }
}
