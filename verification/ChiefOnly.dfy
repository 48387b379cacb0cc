/** A job's phase and state follow its chief and nothing else; a job without a chief never leaves Failed. */
module ChiefOnly {
  import opened Wrappers
  import opened Api
  import opened Selectors
  import opened Store
  import opened Loops
  import opened Replicas
  import opened Trails
  import opened Training
  import opened Passes
  import opened PodStatus
  import opened CalmPasses
  import opened Quiescence
  import opened Controller
  import opened Runs
  import opened Validation

  // ---------------------------------------------------------------- the fold over a set

  lemma {:induction false} ReadSetSize(env: Env, w: World, c: Ctx, r: ReplicaSpec, index: nat)
    ensures |ReadSet(env, w, c, r, index).v| == if index < Size(r) then Size(r) - index else 0
    decreases Size(r) - index
  {
    if index < Size(r) {
      ReadSetSize(env, ReadReplica(env, w, c, r, index).w, c, r, index + 1);
    }
  }

  /** In every environment the counts a set reports are those of the states read, add up to its size
  (0 for a negative one), and decide its state. */
  lemma SetStatusAddsUp(env: Env, w: World, c: Ctx, r: ReplicaSpec)
    ensures var states := ReadSet(env, w, c, r, 0).v;
            var s := StatusOf(r.typ, states);
            && (forall v <- states :: CountOf(s.counts, v) == multiset(states)[v])
            && Judged(s.state, s.counts, if Size(r) > 0 then Size(r) else 0)
  {
    var states := ReadSet(env, w, c, r, 0).v;
    ReadSetSize(env, w, c, r, 0);
    TallyCounts(states);
    FoldIsJudged(states);
  }

  // ---------------------------------------------------------------- the chief's pods

  // The pods that decide a replica's state: the one at its name and those its selector matches.
  predicate Concerns(ref: Ref, pods: map<Ref, Pod>, c: Ctx, typ: string, index: int)
  {
    ref == RefOf(c, typ, index)
    || (ref in pods && ref.ns == c.ref.ns && Matches(LabelsOf(c, typ, index), pods[ref].labels))
  }

  // Two stores that hold the same pods for a replica.
  ghost predicate SamePods(p: map<Ref, Pod>, q: map<Ref, Pod>, c: Ctx, typ: string, index: int)
  {
    forall ref :: Concerns(ref, p, c, typ, index) || Concerns(ref, q, c, typ, index) ==>
      (ref in p <==> ref in q) && (ref in p ==> p[ref] == q[ref])
  }

  lemma {:induction false} SameListing(w: World, w': World, refs: seq<Ref>)
    requires forall r <- refs :: r in w.pods && r in w'.pods && w.pods[r] == w'.pods[r]
    ensures PodsAt(w, refs) == PodsAt(w', refs)
  {
    if refs != [] {
      SameListing(w, w', refs[1..]);
    }
  }

  lemma SameState(env: Env, p: map<Ref, Pod>, q: map<Ref, Pod>, c: Ctx, r: ReplicaSpec, index: int)
    requires SamePods(p, q, c, r.typ, index) && FairListing(env)
    ensures StateFromPods(env, p, c, r, index) == StateFromPods(env, q, c, r, index)
  {
    var labels := LabelsOf(c, r.typ, index);
    assert Concerns(RefOf(c, r.typ, index), p, c, r.typ, index);
    var w, w' := World(p, map[], {}, map[], []), World(q, map[], {}, map[], []);
    var s, s' := Selected(w, c.ref.ns, labels, false), Selected(w', c.ref.ns, labels, false);
    forall ref
      ensures ref in s <==> ref in s'
    {
      if ref in s || ref in s' {
        assert Concerns(ref, p, c, r.typ, index) || Concerns(ref, q, c, r.typ, index);
      }
    }
    assert s == s';
    var refs := env.listing(s);
    assert multiset(refs) == multiset(s);
    forall ref | ref in refs
      ensures ref in p && ref in q && p[ref] == q[ref]
    {
      assert ref in multiset(refs) && ref in s && ref in s';
      assert Concerns(ref, p, c, r.typ, index);
    }
    SameListing(w, w', refs);
  }

  lemma {:induction false} SameChief(env: Env, p: map<Ref, Pod>, q: map<Ref, Pod>, c: Ctx, chief: Chief, k: nat,
                                     state: ReplicaState)
    requires k <= |c.replicas| && FairListing(env) && SamePods(p, q, c, chief.name, ToInt32(chief.index))
    ensures ReadingFromPods(env, p, c, chief, k, state).chief == ReadingFromPods(env, q, c, chief, k, state).chief
    decreases |c.replicas| - k
  {
    if k < |c.replicas| {
      var r := c.replicas[k];
      if r.typ == chief.name {
        SameState(env, p, q, c, r, ToInt32(chief.index));
        SameChief(env, p, q, c, chief, k + 1, StateFromPods(env, p, c, r, ToInt32(chief.index)));
      } else {
        SameChief(env, p, q, c, chief, k + 1, state);
      }
    }
  }

  lemma CalmObserved(env: Env, w: World, m: Memory)
    requires Still(env, w) && ChiefReadable(CtxOf(m))
    ensures Observe(env, w, m).v.m.status == StatusFrom(env, w, CtxOf(m), m.status)
  {
    CalmGetStatus(env, w, CtxOf(m));
  }

  lemma SameReading(env: Env, p: map<Ref, Pod>, q: map<Ref, Pod>, c: Ctx)
    requires FairListing(env) && ChiefReadable(c) && c.spec.policy.value.chief.Some?
    requires var chief := c.spec.policy.value.chief.value; SamePods(p, q, c, chief.name, ToInt32(chief.index))
    ensures ReadingOf(env, p, c).chief == ReadingOf(env, q, c).chief
  {
    SameChief(env, p, q, c, c.spec.policy.value.chief.value, 0, ReplicaUnknown);
  }

  lemma SameVerdict(before: Status, r: Reading, r': Reading)
    requires r.chief == r'.chief
    ensures var s := NextStatus(before, JobState(r.chief), r.statuses);
            var s' := NextStatus(before, JobState(r'.chief), r'.statuses);
            s.phase == s'.phase && s.state == s'.state
  {}

  /** Two passes of observation that find the same pods of the chief, whatever else is or is not
  there, come to the same phase and state.  The chief is the replica at the policy's index, or at the
  32-bit integer that index becomes. */
  lemma OnlyTheChiefCounts(env: Env, w: World, w': World, m: Memory, at: int)
    requires Still(env, w) && Still(env, w')
    requires ChiefReadable(CtxOf(m)) && m.job.spec.policy.value.chief.Some?
    requires var chief := m.job.spec.policy.value.chief.value;
             IsInt32Of(at, chief.index) && SamePods(w.pods, w'.pods, CtxOf(m), chief.name, at)
    ensures var s, s' := Observe(env, w, m).v.m.status, Observe(env, w', m).v.m.status;
            s.phase == s'.phase && s.state == s'.state
  {
    ToInt32Wraps(m.job.spec.policy.value.chief.value.index, at);
    CalmObserved(env, w, m);
    CalmObserved(env, w', m);
    SameReading(env, w.pods, w'.pods, CtxOf(m));
    SameVerdict(m.status, ReadingOf(env, w.pods, CtxOf(m)), ReadingOf(env, w'.pods, CtxOf(m)));
  }

  // The chief's state alone.
  function ChiefFromPods(env: Env, pods: map<Ref, Pod>, c: Ctx, chief: Chief, k: nat, state: ReplicaState): ReplicaState
    requires k <= |c.replicas|
    decreases |c.replicas| - k
  {
    if k == |c.replicas| then state
    else
      var r := c.replicas[k];
      ChiefFromPods(env, pods, c, chief, k + 1,
                    if r.typ == chief.name then StateFromPods(env, pods, c, r, ToInt32(chief.index)) else state)
  }

  lemma {:induction false} ReadingsChief(env: Env, pods: map<Ref, Pod>, c: Ctx, chief: Chief, k: nat,
                                         state: ReplicaState)
    requires k <= |c.replicas|
    ensures ReadingFromPods(env, pods, c, chief, k, state).chief == ChiefFromPods(env, pods, c, chief, k, state)
    decreases |c.replicas| - k
  {
    if k < |c.replicas| {
      var r := c.replicas[k];
      ReadingsChief(env, pods, c, chief, k + 1,
                    if r.typ == chief.name then StateFromPods(env, pods, c, r, ToInt32(chief.index)) else state);
    }
  }

  lemma {:induction false} LastChief(env: Env, pods: map<Ref, Pod>, c: Ctx, chief: Chief, k: nat,
                                     state: ReplicaState, j: nat)
    requires k <= j < |c.replicas| && c.replicas[j].typ == chief.name && ChieflessFrom(c.replicas, chief.name, j + 1)
    ensures ChiefFromPods(env, pods, c, chief, k, state)
         == StateFromPods(env, pods, c, c.replicas[j], ToInt32(chief.index))
    decreases j - k
  {
    var r := c.replicas[k];
    var own := if r.typ == chief.name then StateFromPods(env, pods, c, r, ToInt32(chief.index)) else state;
    if k < j {
      LastChief(env, pods, c, chief, k + 1, own, j);
    } else {
      NoChiefAfter(env, pods, c, chief, k + 1, own);
    }
  }

  predicate ChieflessFrom(rs: seq<ReplicaSpec>, name: string, k: nat)
  {
    forall i :: k <= i < |rs| ==> rs[i].typ != name
  }

  lemma {:induction false} NoChiefAfter(env: Env, pods: map<Ref, Pod>, c: Ctx, chief: Chief, k: nat,
                                        state: ReplicaState)
    requires k <= |c.replicas| && ChieflessFrom(c.replicas, chief.name, k)
    ensures ChiefFromPods(env, pods, c, chief, k, state) == state
    decreases |c.replicas| - k
  {
    if k < |c.replicas| {
      NoChiefAfter(env, pods, c, chief, k + 1, state);
    }
  }

  // The phase and state a chief in this state leads to.
  predicate Follows(before: Status, after: Status, chief: ReplicaState)
  {
    && (chief == ReplicaSucceeded ==> after.phase == Done && after.state == SucceededState)
    && (chief == ReplicaFailed ==> after.phase == Done && after.state == FailedState)
    && (chief == ReplicaRunning ==> after.phase == Running && after.state == RunningState)
    && (chief == ReplicaUnknown ==> after.phase == before.phase && after.state == before.state)
  }

  /** In calm, a job follows the replica of the chief's index in the last set of the chief's type; an
  index of more than 32 bits is the 32-bit integer it becomes. */
  lemma ChiefDecides(env: Env, w: World, m: Memory, j: nat, at: int)
    requires Still(env, w) && ChiefReadable(CtxOf(m)) && j < |m.replicas|
    requires var name := m.job.spec.policy.value.chief.value.name;
             m.replicas[j].typ == name && forall i :: j < i < |m.replicas| ==> m.replicas[i].typ != name
    requires IsInt32Of(at, m.job.spec.policy.value.chief.value.index)
    ensures Follows(m.status, Observe(env, w, m).v.m.status, StateFromPods(env, w.pods, CtxOf(m), m.replicas[j], at))
  {
    ToInt32Wraps(m.job.spec.policy.value.chief.value.index, at);
    CalmObserved(env, w, m);
    ReadingsChief(env, w.pods, CtxOf(m), m.job.spec.policy.value.chief.value, 0, ReplicaUnknown);
    LastChief(env, w.pods, CtxOf(m), m.job.spec.policy.value.chief.value, 0, ReplicaUnknown, j);
  }

  // ---------------------------------------------------------------- no chief

  // The policy names a type that no replica set has.
  predicate NoChief(spec: JobSpec)
  {
    && spec.policy.Some? && spec.policy.value.chief.Some?
    && !ChiefAmong(spec.replicaSpecs, spec.policy.value.chief.value.name)
  }

  predicate Stuck(spec: JobSpec, status: Status)
  {
    NoChief(spec) && status.phase == Failed
  }

  predicate StuckMemory(m: Memory)
  {
    Agrees(m) && Stuck(m.job.spec, m.status) && Among(m.replicas, m.job.spec.replicaSpecs)
  }

  // Every cached set is one of the specs.
  predicate Among(sets: seq<ReplicaSpec>, specs: seq<ReplicaSpec>)
  {
    forall k :: 0 <= k < |sets| ==> sets[k] in specs
  }

  lemma {:induction false} NobodyIsChief(env: Env, w: World, c: Ctx, chief: Chief, k: nat, state: ReplicaState)
    requires k <= |c.replicas| && forall i :: 0 <= i < |c.replicas| ==> c.replicas[i].typ != chief.name
    ensures ReadAll(env, w, c, chief, k, state).v.chief == state
    decreases |c.replicas| - k
  {
    if k < |c.replicas| {
      NobodyIsChief(env, ReadSet(env, w, c, c.replicas[k], 0).w, c, chief, k + 1, state);
    }
  }

  lemma UpdateStuck(env: Env, w: World, m: Memory, key: Ref)
    requires Stuck(m.job.spec, m.status) && m.job.ref == key
    requires key in w.jobs ==> Stuck(w.jobs[key].spec, w.jobs[key].status)
    ensures var u := UpdateCRD(env, w, m);
            && (key in u.w.jobs ==> Stuck(u.w.jobs[key].spec, u.w.jobs[key].status))
            && Agrees(u.v.m) && u.v.m.status == m.status && u.v.m.replicas == m.replicas
            && u.v.m.job == m.job.(status := m.status)
  {
    TickKeepsJobs(env, CtxOf(m), w);
  }

  lemma QuietStuck(env: Env, c: Ctx, w: World, w': World)
    requires Trail(env, c, NoPuts, w, w')
    ensures w'.jobs == w.jobs
  {
    QuietEvents(env, c, w, Since(w, w'));
  }

  lemma ObserveStuck(env: Env, w: World, m: Memory, key: Ref)
    requires StuckMemory(m) && m.job.ref == key
    requires key in w.jobs ==> Stuck(w.jobs[key].spec, w.jobs[key].status)
    ensures var e := Observe(env, w, m);
            && StuckMemory(e.v.m) && e.v.m.job.ref == key
            && (key in e.w.jobs ==> Stuck(e.w.jobs[key].spec, e.w.jobs[key].status))
  {
    var c := CtxOf(m);
    var chief := m.job.spec.policy.value.chief.value;
    forall i | 0 <= i < |c.replicas|
      ensures c.replicas[i].typ != chief.name
    {
      assert c.replicas[i] in m.job.spec.replicaSpecs;
    }
    var read := GetStatus(env, w, c);
    NobodyIsChief(env, w, c, chief, 0, ReplicaUnknown);
    GetStatusTrail(env, c, w);
    QuietStuck(env, c, w, read.w);
    UpdateStuck(env, read.w, m.(status := NextStatus(m.status, JobState(read.v.chief), read.v.statuses)), key);
  }

  lemma PrepareStuck(env: Env, w: World, m: Memory, key: Ref)
    requires StuckMemory(m) && m.job.ref == key
    requires key in w.jobs ==> Stuck(w.jobs[key].spec, w.jobs[key].status)
    ensures var b := Prepare(env, w, m);
            && StuckMemory(b.v.m) && b.v.m.job.ref == key
            && (key in b.w.jobs ==> Stuck(b.w.jobs[key].spec, b.w.jobs[key].status))
  {
    var b := SetupReplicas(m);
    assert m.job.spec.replicaSpecs[0..] == m.job.spec.replicaSpecs;
    assert Among(b.replicas, m.job.spec.replicaSpecs);
    if b.out == Erred {
      UpdateStuck(env, w, m.(replicas := b.replicas, status := m.status.(reason := CouldNotCreate(b.why.value))), key);
    }
  }

  lemma ProceedStuck(env: Env, w: World, m: Memory, key: Ref)
    requires StuckMemory(m) && m.job.ref == key
    requires key in w.jobs ==> Stuck(w.jobs[key].spec, w.jobs[key].status)
    ensures var p := Proceed(env, w, m);
            StuckMemory(p.v.m) && (key in p.w.jobs ==> Stuck(p.w.jobs[key].spec, p.w.jobs[key].status))
  {
    var d := Push(env, w, m);
    PushStep(env, CtxOf(m), AnyPuts, w, m);
    QuietStuck(env, CtxOf(m), w, d.w);
    if d.v.out == Fine {
      var e := Observe(env, d.w, m);
      ObserveStuck(env, d.w, m, key);
      FinishIsIdle(env, e.w, e.v.m);
    }
  }

  lemma RestStuck(env: Env, w: World, m: Memory, key: Ref)
    requires StuckMemory(m) && m.job.ref == key
    requires key in w.jobs ==> Stuck(w.jobs[key].spec, w.jobs[key].status)
    ensures var p := Rest(env, w, m);
            StuckMemory(p.v.m) && (key in p.w.jobs ==> Stuck(p.w.jobs[key].spec, p.w.jobs[key].status))
  {
    var b := Prepare(env, w, m);
    PrepareStuck(env, w, m, key);
    if b.v.out == Fine {
      ProceedStuck(env, b.w, b.v.m, key);
    }
  }

  // The job of this UID has failed for want of a chief, stored or not, and so has whatever memory
  // there is of it.
  ghost predicate StuckIn(s: System, key: Ref, uid: string)
  {
    && UidKnown(s.w, uid)
    && (key in s.w.jobs && s.w.jobs[key].uid == uid ==> Stuck(s.w.jobs[key].spec, s.w.jobs[key].status))
    && forall k <- s.jobs :: SplitKey(k) == Some(key) && s.jobs[k].job.uid == uid ==> StuckMemory(s.jobs[k])
  }

  // The stored side of it, over a pass for the same key.
  lemma PassStuck(env: Env, s: System, a: Action, accelerators: Accelerators, key: Ref, uid: string)
    requires Sound(s) && StuckIn(s, key, uid) && Effective(s, a)
    requires SplitKey(a.key).value == key && s.w.jobs[key].uid == uid
    ensures var p := Reconcile(env, s.w, Target(s, a), accelerators);
            StuckMemory(p.v.m) && (key in p.w.jobs ==> Stuck(p.w.jobs[key].spec, p.w.jobs[key].status))
  {
    TargetReady(s, a);
    assert StuckMemory(Target(s, a));
    RestStuck(env, s.w, Target(s, a), key);
  }

  lemma ActStuck(env: Env, s: System, a: Action, accelerators: Accelerators, key: Ref, uid: string)
    requires Sound(s) && StuckIn(s, key, uid)
    ensures StuckIn(Act(env, s, a, accelerators), key, uid)
  {
    var s' := Act(env, s, a, accelerators);
    if !Effective(s, a) {
      IdleAct(env, s, a, accelerators);
      UserStuck(s, a, s', key, uid);
    } else {
      TargetReady(s, a);
      var m' := ActPasses(env, s, a, accelerators);
      if SplitKey(a.key).value == key && s.w.jobs[key].uid == uid {
        PassStuck(env, s, a, accelerators, key, uid);
        ActStoredJobs(env, s, a, accelerators);
      }
      PassedStuck(env, s, a, s', m', key, uid);
    }
  }

  lemma PassedStuck(env: Env, s: System, a: Action, s': System, m': Memory, key: Ref, uid: string)
    requires Sound(s) && StuckIn(s, key, uid) && Effective(s, a) && Passed(env, s, a, s', m')
    requires SplitKey(a.key).value == key && s.w.jobs[key].uid == uid ==>
               StuckMemory(m') && (key in s'.w.jobs ==> Stuck(s'.w.jobs[key].spec, s'.w.jobs[key].status))
    ensures StuckIn(s', key, uid)
  {
    TargetReady(s, a);
    var c, es := CtxOf(m'), Since(s.w, s'.w);
    LegalKeepsJobs(env, c, PairedPuts, s.w, es);
    LegalKeepsUids(env, c, PairedPuts, s.w, es, uid);
    MemoriesStuck(s, a, s', m', key, uid);
  }

  lemma MemoriesStuck(s: System, a: Action, s': System, m': Memory, key: Ref, uid: string)
    requires a.Sync? && SplitKey(a.key) == Some(m'.job.ref)
    requires s'.jobs == map[] || s'.jobs == s.jobs[a.key := m']
    requires forall k <- s.jobs :: SplitKey(k) == Some(key) && s.jobs[k].job.uid == uid ==> StuckMemory(s.jobs[k])
    requires m'.job.ref == key && m'.job.uid == uid ==> StuckMemory(m')
    ensures forall k <- s'.jobs :: SplitKey(k) == Some(key) && s'.jobs[k].job.uid == uid ==> StuckMemory(s'.jobs[k])
  {
    forall k | k in s'.jobs && SplitKey(k) == Some(key) && s'.jobs[k].job.uid == uid
      ensures StuckMemory(s'.jobs[k])
    {
      if k != a.key {
        assert StuckMemory(s.jobs[k]);
      }
    }
  }

  lemma UserStuck(s: System, a: Action, s': System, key: Ref, uid: string)
    requires StuckIn(s, key, uid) && (s'.jobs == s.jobs || s'.jobs == map[])
    requires s'.w == match UserEvent(s.w, a) case None => s.w case Some(e) => Apply(s.w, e)
    ensures StuckIn(s', key, uid)
  {
    if UserEvent(s.w, a).Some? {
      UserKeepsUids(s.w, a, uid);
    }
  }

  /** A job whose setup failed for want of a chief stays Failed in every run, as long as it is stored. */
  lemma {:induction false} NoChiefStaysFailed(env: Env, s: System, actions: seq<Action>, accelerators: Accelerators,
                                              key: Ref, uid: string)
    requires Sound(s) && StuckIn(s, key, uid)
    ensures StuckIn(Run(env, s, actions, accelerators), key, uid)
    decreases |actions|
  {
    if actions != [] {
      ActStuck(env, s, actions[0], accelerators, key, uid);
      ActIsSound(env, s, actions[0], accelerators);
      NoChiefStaysFailed(env, Act(env, s, actions[0], accelerators), actions[1..], accelerators, key, uid);
    }
  }

  /** Setup fails for want of a chief exactly on the specs that are valid but for that, and the memory
  it leaves is stuck. */
  lemma SetupWithoutChief(env: Env, w: World, m: Memory, accelerators: Accelerators)
    requires m.status.phase == NoPhase && Agrees(m) && m.replicas == []
    ensures var spec, m' := WithDefaults(m.job.spec), Setup(env, w, m, accelerators);
            && ((exists name :: m'.status.phase == Failed && m'.status.reason == InvalidSpec(MissingChief(name)))
                <==> NoChief(spec) && forall i :: 0 <= i < |spec.replicaSpecs| ==> ValidReplica(spec.replicaSpecs[i]))
            && (m'.status.phase == Failed && m'.status.reason.InvalidSpec? && m'.status.reason.error.MissingChief?
                ==> Stuck(m'.job.spec, m'.status))
  {
    var spec, m' := WithDefaults(m.job.spec), Setup(env, w, m, accelerators);
    var fault := Validate(spec);
    if NoChief(spec) && forall i :: 0 <= i < |spec.replicaSpecs| ==> ValidReplica(spec.replicaSpecs[i]) {
      assert fault == Some(MissingChief(spec.policy.value.chief.value.name));
    }
    FaultKinds(spec.replicaSpecs, 0);
  }

  lemma {:induction false} FaultKinds(rs: seq<ReplicaSpec>, i: nat)
    requires i <= |rs|
    ensures FirstFault(rs, i).Some? ==> !FirstFault(rs, i).value.MissingChief?
    decreases |rs| - i
  {
    if i < |rs| {
      FaultKinds(rs, i + 1);
    }
  }
}
