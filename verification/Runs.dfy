/** Properties of whole runs of the controller: many jobs, crashes, and any environment. */
module Runs {
  import opened Wrappers
  import opened Api
  import opened Store
  import opened Loops
  import opened Replicas
  import opened Trails
  import opened Training
  import opened Passes
  import opened LivePods
  import opened Controller

  // ---------------------------------------------------------------- stored jobs over a pass

  // Every job is stored under its own key and has a status to start from.
  ghost predicate JobsStarted(jobs: map<Ref, Job>)
  {
    forall ref <- jobs :: jobs[ref].ref == ref && Started(jobs[ref].status)
  }

  // What legal events do to the stored jobs.
  ghost predicate JobsKept(key: Ref, before: map<Ref, Job>, after: map<Ref, Job>)
  {
    && after.Keys == before.Keys
    && (forall ref <- before :: after[ref].uid == before[ref].uid && (ref != key ==> after[ref] == before[ref]))
    && (key in before ==> after[key] == before[key] || after[key].status.phase != NoPhase)
  }

  lemma EventKeepsJobs(env: Env, c: Ctx, puts: Puts, w: World, e: Event)
    requires Legal(env, c, puts, w, e)
    ensures JobsKept(c.ref, w.jobs, Apply(w, e).jobs)
    ensures puts == PairedPuts && JobsStarted(w.jobs) ==> JobsStarted(Apply(w, e).jobs)
  {
    if !e.JobUpdated? {
      assert Apply(w, e).jobs == w.jobs;
    }
  }

  lemma {:induction false} LegalKeepsJobs(env: Env, c: Ctx, puts: Puts, w: World, es: seq<Event>)
    requires LegalAll(env, c, puts, w, es)
    ensures JobsKept(c.ref, w.jobs, Replay(w, es).jobs)
    ensures puts == PairedPuts && JobsStarted(w.jobs) ==> JobsStarted(Replay(w, es).jobs)
    decreases |es|
  {
    if es != [] {
      EventKeepsJobs(env, c, puts, w, es[0]);
      LegalKeepsJobs(env, c, puts, Apply(w, es[0]), es[1..]);
    }
  }

  lemma EventChanges(env: Env, c: Ctx, puts: Puts, w: World, e: Event)
    requires Legal(env, c, puts, w, e) && c.ref in w.jobs
    ensures var w' := Apply(w, e); c.ref in w'.jobs && (w'.jobs[c.ref] == w.jobs[c.ref] || SetUp(c, w'))
  {
    if !e.JobUpdated? {
      assert Apply(w, e).jobs == w.jobs;
    }
  }

  // A stored job that changes in a pass is set up afterwards.
  lemma {:induction false} ChangedIsSetUp(env: Env, c: Ctx, puts: Puts, w: World, es: seq<Event>)
    requires LegalAll(env, c, puts, w, es) && c.ref in w.jobs
    ensures var w' := Replay(w, es); c.ref in w'.jobs && (w'.jobs[c.ref] == w.jobs[c.ref] || SetUp(c, w'))
    decreases |es|
  {
    if es != [] {
      var w1 := Apply(w, es[0]);
      EventChanges(env, c, puts, w, es[0]);
      ChangedIsSetUp(env, c, puts, w1, es[1..]);
      if SetUp(c, w1) {
        SetUpStays(env, c, puts, w1, es[1..]);
      }
    }
  }

  // ---------------------------------------------------------------- UIDs

  // No two stored jobs share a UID, and none has that of a job that was withdrawn.
  ghost predicate Identified(w: World)
  {
    && (forall ref, ref' :: ref in w.jobs && ref' in w.jobs && w.jobs[ref].uid == w.jobs[ref'].uid ==> ref == ref')
    && (forall ref <- w.jobs :: !Withdrawn(w, w.jobs[ref].uid))
  }

  lemma {:induction false} LegalWithdrawsNone(env: Env, c: Ctx, puts: Puts, w: World, es: seq<Event>)
    requires LegalAll(env, c, puts, w, es)
    ensures forall e <- es :: !e.JobWithdrawn?
    decreases |es|
  {
    if es != [] {
      LegalWithdrawsNone(env, c, puts, Apply(w, es[0]), es[1..]);
      assert es == [es[0]] + es[1..];
    }
  }

  lemma LegalKeepsUids(env: Env, c: Ctx, puts: Puts, w: World, es: seq<Event>, uid: string)
    requires LegalAll(env, c, puts, w, es)
    ensures Withdrawn(Replay(w, es), uid) <==> Withdrawn(w, uid)
    ensures UidKnown(w, uid) ==> UidKnown(Replay(w, es), uid)
  {
    var w' := Replay(w, es);
    ReplayTrace(w, es);
    LegalWithdrawsNone(env, c, puts, w, es);
    LegalKeepsJobs(env, c, puts, w, es);
    if Withdrawn(w, uid) {
      var e :| e in w.trace && e.JobWithdrawn? && e.uid == uid;
      assert e in w'.trace;
    } else if UidKnown(w, uid) {
      var ref :| ref in w.jobs && w.jobs[ref].uid == uid;
      assert ref in w'.jobs && w'.jobs[ref].uid == uid;
    }
  }

  lemma LegalKeepsIdentity(env: Env, c: Ctx, puts: Puts, w: World, es: seq<Event>)
    requires LegalAll(env, c, puts, w, es) && Identified(w)
    ensures Identified(Replay(w, es))
  {
    LegalKeepsJobs(env, c, puts, w, es);
    forall ref | ref in Replay(w, es).jobs
      ensures !Withdrawn(Replay(w, es), Replay(w, es).jobs[ref].uid)
    {
      LegalKeepsUids(env, c, puts, w, es, w.jobs[ref].uid);
    }
  }

  lemma UserKeepsUids(w: World, a: Action, uid: string)
    requires UserEvent(w, a).Some?
    ensures var e := UserEvent(w, a).value;
            && (Withdrawn(Apply(w, e), uid) <==> Withdrawn(w, uid) || (e.JobWithdrawn? && e.uid == uid))
            && (UidKnown(w, uid) ==> UidKnown(Apply(w, e), uid))
  {
    var e := UserEvent(w, a).value;
    var w' := Apply(w, e);
    assert e in w'.trace && forall x :: x in w'.trace <==> x in w.trace || x == e;
    if e.JobWithdrawn? && e.uid == uid {
      assert Withdrawn(w', uid);
    } else if !Withdrawn(w', uid) && UidKnown(w, uid) {
      var ref :| ref in w.jobs && w.jobs[ref].uid == uid;
      assert ref in w'.jobs && w'.jobs[ref].uid == uid;
    }
  }

  predicate StoredAs(w: World, ref: Ref, uid: string)
  {
    ref in w.jobs && w.jobs[ref].uid == uid
  }

  // A user's action gives a job a UID nobody had, changes no stored job, and forgets no UID.
  lemma UserStores(w: World, a: Action, key: Ref, uid: string)
    requires UserEvent(w, a).Some?
    ensures var w' := Apply(w, UserEvent(w, a).value);
            StoredAs(w', key, uid) ==> (StoredAs(w, key, uid) && w'.jobs[key] == w.jobs[key]) || !UidKnown(w, uid)
    ensures StoredAs(w, key, uid) ==> UidKnown(w, uid)
  {}

  lemma UserKeepsJobs(w: World, a: Action)
    requires UserEvent(w, a).Some? && JobsStarted(w.jobs) && Identified(w)
    ensures var w' := Apply(w, UserEvent(w, a).value); JobsStarted(w'.jobs) && Identified(w')
  {
    var e := UserEvent(w, a).value;
    var w' := Apply(w, e);
    forall ref | ref in w'.jobs
      ensures !Withdrawn(w', w'.jobs[ref].uid)
    {
      UserKeepsUids(w, a, w'.jobs[ref].uid);
      if e.JobSubmitted? && ref == e.job.ref {
        assert !UidKnown(w, e.job.uid);
      } else {
        assert ref in w.jobs && w'.jobs[ref] == w.jobs[ref];
      }
    }
  }

  // ---------------------------------------------------------------- one sync

  lemma GetJobTrail(env: Env, c: Ctx, w: World, ref: Ref)
    ensures var w' := GetJob(env, w, ref).w;
            && Trail(env, c, NoPuts, w, w') && w'.jobs == w.jobs && NoCreation(Since(w, w'))
            && Updates(Since(w, w')) == 0 && NoFailedUpdate(Since(w, w'))
  {
    var w1, w' := Tick(env, w), GetJob(env, w, ref).w;
    ReadTrail(env, c, NoPuts, w);
    QuietEvents(env, c, w, Since(w, w'));
    MovesCreateNothing(w, env.moves(|w.trace|));
    SinceConcat(w, w1, w');
  }

  lemma KeptThenRead(env: Env, w: World, m: Memory, w1: World, m': Memory, ref: Ref)
    requires Kept(env, w, m, w1, m')
    ensures Kept(env, w, m, GetJob(env, w1, ref).w, m')
  {
    var c, w' := CtxOf(m'), GetJob(env, w1, ref).w;
    GetJobTrail(env, c, w1, ref);
    TrailWithPuts(env, c, PutsFrom(m), w1, w');
    TrailTrans(env, c, PutsFrom(m), w, w1, w');
    SinceConcat(w, w1, w');
    UpdatesConcat(Since(w, w1), Since(w1, w'));
    NothingToWriteAhead(c, w1, Since(w1, w'));
    if InSync(w, m) {
      WriteAheadConcat(c, w, Since(w, w1), Since(w1, w'));
    }
    if NoFailedUpdate(Since(w, w')) {
      assert forall e <- Since(w, w1) :: e in Since(w, w');
    }
  }

  lemma SyncShape(env: Env, w: World, jobs: Jobs, key: string, job: Job, accelerators: Accelerators)
    requires SplitKey(key).Some?
    ensures var r := SyncJob(env, w, jobs, key, InCache(job), accelerators);
            var p := Reconcile(env, w, Adopt(jobs, key, job), accelerators);
            && r.v.jobs == jobs[key := p.v.m] && (r.v.died <==> p.v.out == Panicked)
            && (r.w == p.w || r.w == GetJob(env, p.w, SplitKey(key).value).w)
  {}

  /** Syncing a key runs one pass over the TrainingJob kept for its UID, or over a new one; every
  other TrainingJob stays as it is. */
  lemma SyncKeeps(env: Env, w: World, jobs: Jobs, key: string, job: Job, accelerators: Accelerators)
    requires SplitKey(key).Some?
    requires var m := Adopt(jobs, key, job); Agrees(m) && m.status.phase != CleanUp
    ensures var r := SyncJob(env, w, jobs, key, InCache(job), accelerators);
            && key in r.v.jobs && r.v.jobs[key].job.uid == job.uid
            && r.v.jobs.Keys == jobs.Keys + {key}
            && (forall k <- jobs :: k != key ==> r.v.jobs[k] == jobs[k])
            && Kept(env, w, Adopt(jobs, key, job), r.w, r.v.jobs[key])
  {
    var m := Adopt(jobs, key, job);
    var p := Reconcile(env, w, m, accelerators);
    ReconcileKeeps(env, w, m, accelerators);
    SyncShape(env, w, jobs, key, job, accelerators);
    KeptThenRead(env, w, m, p.w, p.v.m, SplitKey(key).value);
  }

  // An event that deletes nothing, writes no other job, and labels what it creates with this job's name.
  ghost predicate OnlyAbout(key: Ref, e: Event)
  {
    match e
    case PodCreated(ref, pod) => ref.ns == key.ns && NAME_LABEL in pod.labels && pod.labels[NAME_LABEL] == key.name
    case ServiceCreated(ref, service) =>
      ref.ns == key.ns && NAME_LABEL in service.labels && service.labels[NAME_LABEL] == key.name
    case JobUpdated(job) => job.ref == key
    case PodsDeleted(_, _) => false
    case ServiceDeleted(_) => false
    case ConfigMapDeleted(_) => false
    case _ => true
  }

  // A creation never overwrites.
  ghost predicate NewNames(w: World, es: seq<Event>)
    decreases |es|
  {
    es == [] || (
      && (es[0].PodCreated? ==> es[0].ref !in w.pods)
      && (es[0].ServiceCreated? ==> es[0].ref !in w.services)
      && NewNames(Apply(w, es[0]), es[1..]))
  }

  lemma {:induction false} LegalIsOnlyAbout(env: Env, c: Ctx, puts: Puts, w: World, es: seq<Event>)
    requires LegalAll(env, c, puts, w, es)
    ensures NewNames(w, es) && forall e <- es :: OnlyAbout(c.ref, e)
    decreases |es|
  {
    if es != [] {
      LegalIsOnlyAbout(env, c, puts, Apply(w, es[0]), es[1..]);
      assert es == [es[0]] + es[1..];
      match es[0]
      case PodCreated(ref, pod) =>
        var k: nat, index: nat, n: nat :| PodFor(env, c, k, index, n, ref, pod);
        TaskLabelsValues(c.ref.name, c.spec.runtimeId, c.replicas[k].typ, index);
      case ServiceCreated(ref, service) =>
        var k: nat, index: nat :| ServiceFor(c, k, index, ref, service);
        TaskLabelsValues(c.ref.name, c.spec.runtimeId, c.replicas[k].typ, index);
      case _ =>
    }
  }

  /** Isolation: a sync changes no pod and no service that exists, except through the environment,
  touches no other job's stored object, and labels everything it creates with its own job's name. */
  lemma SyncIsIsolated(env: Env, w: World, jobs: Jobs, key: string, job: Job, accelerators: Accelerators)
    requires SplitKey(key) == Some(job.ref)
    requires var m := Adopt(jobs, key, job); Agrees(m) && m.status.phase != CleanUp && m.job.ref == job.ref
    ensures var r := SyncJob(env, w, jobs, key, InCache(job), accelerators);
            && w.trace <= r.w.trace && r.w == Replay(w, Since(w, r.w))
            && NewNames(w, Since(w, r.w)) && (forall e <- Since(w, r.w) :: OnlyAbout(job.ref, e))
            && JobsKept(job.ref, w.jobs, r.w.jobs)
  {
    var m, r := Adopt(jobs, key, job), SyncJob(env, w, jobs, key, InCache(job), accelerators);
    SyncKeeps(env, w, jobs, key, job, accelerators);
    var c := CtxOf(r.v.jobs[key]);
    LegalIsOnlyAbout(env, c, PutsFrom(m), w, Since(w, r.w));
    LegalKeepsJobs(env, c, PutsFrom(m), w, Since(w, r.w));
  }

  // ---------------------------------------------------------------- the run invariant

  ghost predicate Sound(s: System)
  {
    && JobsStarted(s.w.jobs) && Identified(s.w)
    && (forall key <- s.jobs :: SplitKey(key) == Some(s.jobs[key].job.ref) && Agrees(s.jobs[key])
                                && PhasePair(s.jobs[key].status) && UidKnown(s.w, s.jobs[key].job.uid))
  }

  // A sync that reaches Reconcile.
  predicate Effective(s: System, a: Action)
  {
    a.Sync? && SplitKey(a.key).Some? && a.visible && SplitKey(a.key).value in s.w.jobs
  }

  function Target(s: System, a: Action): Memory
    requires Effective(s, a)
  {
    Adopt(s.jobs, a.key, s.w.jobs[SplitKey(a.key).value])
  }

  lemma TargetReady(s: System, a: Action)
    requires Sound(s) && Effective(s, a)
    ensures var m := Target(s, a);
            Agrees(m) && Started(m.status) && m.job.ref == SplitKey(a.key).value
            && m.job.uid == s.w.jobs[m.job.ref].uid
            && (m.status.phase == NoPhase ==> m == NewJob(s.w.jobs[m.job.ref]))
  {}

  lemma IdleAct(env: Env, s: System, a: Action, accelerators: Accelerators)
    requires !Effective(s, a)
    ensures var s' := Act(env, s, a, accelerators);
            && (s'.jobs == s.jobs || s'.jobs == map[])
            && s'.w == match UserEvent(s.w, a) case None => s.w case Some(e) => Apply(s.w, e)
  {}

  lemma EffectiveAct(env: Env, s: System, a: Action, accelerators: Accelerators)
    requires Effective(s, a)
    ensures var r := SyncJob(env, s.w, s.jobs, a.key, InCache(s.w.jobs[SplitKey(a.key).value]), accelerators);
            Act(env, s, a, accelerators) == System(r.w, if r.v.died || a.dies then map[] else r.v.jobs)
  {}

  // After an effective action: one pass was made over the target, and its memory is kept or all is lost.
  ghost predicate Passed(env: Env, s: System, a: Action, s': System, m': Memory)
    requires Effective(s, a)
  {
    && Kept(env, s.w, Target(s, a), s'.w, m')
    && (s'.jobs == map[] || (s'.jobs == s.jobs[a.key := m'] && !a.dies))
  }

  // What one action amounts to.
  lemma ActPasses(env: Env, s: System, a: Action, accelerators: Accelerators) returns (m': Memory)
    requires Sound(s) && Effective(s, a)
    ensures Passed(env, s, a, Act(env, s, a, accelerators), m')
    ensures m' == Reconcile(env, s.w, Target(s, a), accelerators).v.m
  {
    TargetReady(s, a);
    EffectiveAct(env, s, a, accelerators);
    var job := s.w.jobs[SplitKey(a.key).value];
    SyncKeeps(env, s.w, s.jobs, a.key, job, accelerators);
    SyncShape(env, s.w, s.jobs, a.key, job, accelerators);
    m' := SyncJob(env, s.w, s.jobs, a.key, InCache(job), accelerators).v.jobs[a.key];
  }

  // The read after the pass leaves the stored jobs alone.
  lemma ActStoredJobs(env: Env, s: System, a: Action, accelerators: Accelerators)
    requires Effective(s, a)
    ensures Act(env, s, a, accelerators).w.jobs == Reconcile(env, s.w, Target(s, a), accelerators).w.jobs
  {
    EffectiveAct(env, s, a, accelerators);
    var m, key := Target(s, a), SplitKey(a.key).value;
    SyncShape(env, s.w, s.jobs, a.key, s.w.jobs[key], accelerators);
    GetJobTrail(env, CtxOf(m), Reconcile(env, s.w, m, accelerators).w, key);
  }

  /** One sync in a run, with the key spelled out: for the key of a namespace and a name, the pass is over
  the job stored under just these, over the TrainingJob kept for its UID if there is one; it writes
  no other job, labels what it creates with this job's name, and leaves every other TrainingJob alone.
  If no such job is visible, or the string is no key, the sync does nothing. */
  lemma SyncIsOfItsKey(env: Env, s: System, ref: Ref, visible: bool, dies: bool, accelerators: Accelerators)
    requires Sound(s) && HasKey(ref)
    ensures var key := ref.ns + "/" + ref.name;
            var s' := Act(env, s, Sync(key, visible, dies), accelerators);
            if !visible || ref !in s.w.jobs then s'.w == s.w && s'.jobs == (if dies then map[] else s.jobs)
            else
              var job := s.w.jobs[ref];
              var m := if key in s.jobs && s.jobs[key].job.uid == job.uid then s.jobs[key]
                       else Memory(job, job.status, []);
              var m' := Reconcile(env, s.w, m, accelerators).v.m;
              && m.job.ref == ref && m'.job.ref == ref && m'.job.uid == job.uid
              && (s'.jobs == map[] || (!dies && s'.jobs == s.jobs[key := m']))
              && s.w.trace <= s'.w.trace && s'.w == Replay(s.w, Since(s.w, s'.w))
              && (forall e <- Since(s.w, s'.w) :: OnlyAbout(ref, e)) && JobsKept(ref, s.w.jobs, s'.w.jobs)
  {
    var a := Sync(ref.ns + "/" + ref.name, visible, dies);
    SplitKeyIff(a.key, ref);
    if Effective(s, a) {
      TargetReady(s, a);
      EffectiveAct(env, s, a, accelerators);
      SyncIsIsolated(env, s.w, s.jobs, a.key, s.w.jobs[ref], accelerators);
      var m' := ActPasses(env, s, a, accelerators);
      assert Act(env, s, a, accelerators).w == SyncJob(env, s.w, s.jobs, a.key, InCache(s.w.jobs[ref]), accelerators).w;
      ActMemory(env, s, a, accelerators, m');
    }
  }

  lemma ActMemory(env: Env, s: System, a: Action, accelerators: Accelerators, m': Memory)
    requires Effective(s, a) && Passed(env, s, a, Act(env, s, a, accelerators), m')
    requires m' == Reconcile(env, s.w, Target(s, a), accelerators).v.m
    ensures var s' := Act(env, s, a, accelerators); s'.jobs == map[] || (!a.dies && s'.jobs == s.jobs[a.key := m'])
  {}

  lemma NoKeyNoSync(env: Env, s: System, key: string, visible: bool, dies: bool, accelerators: Accelerators)
    requires forall ref: Ref :: HasKey(ref) ==> key != ref.ns + "/" + ref.name
    ensures Act(env, s, Sync(key, visible, dies), accelerators) == System(s.w, if dies then map[] else s.jobs)
  {
    if SplitKey(key).Some? {
      SplitKeyIff(key, SplitKey(key).value);
    }
  }

  lemma PassedIsSound(env: Env, s: System, a: Action, s': System, m': Memory)
    requires Sound(s) && Effective(s, a) && Passed(env, s, a, s', m')
    ensures Sound(s')
  {
    TargetReady(s, a);
    var c, es := CtxOf(m'), Since(s.w, s'.w);
    LegalKeepsJobs(env, c, PairedPuts, s.w, es);
    LegalKeepsIdentity(env, c, PairedPuts, s.w, es);
    forall key | key in s'.jobs
      ensures UidKnown(s'.w, s'.jobs[key].job.uid)
    {
      LegalKeepsUids(env, c, PairedPuts, s.w, es, s'.jobs[key].job.uid);
    }
  }

  lemma UserIsSound(env: Env, s: System, a: Action, s': System)
    requires Sound(s) && (s'.jobs == s.jobs || s'.jobs == map[])
    requires UserEvent(s.w, a).Some? && s'.w == Apply(s.w, UserEvent(s.w, a).value)
    ensures Sound(s')
  {
    UserKeepsJobs(s.w, a);
    forall key | key in s'.jobs
      ensures UidKnown(s'.w, s'.jobs[key].job.uid)
    {
      UserKeepsUids(s.w, a, s'.jobs[key].job.uid);
    }
  }

  lemma ActIsSound(env: Env, s: System, a: Action, accelerators: Accelerators)
    requires Sound(s)
    ensures Sound(Act(env, s, a, accelerators))
  {
    if Effective(s, a) {
      var m' := ActPasses(env, s, a, accelerators);
      PassedIsSound(env, s, a, Act(env, s, a, accelerators), m');
    } else {
      IdleAct(env, s, a, accelerators);
      if UserEvent(s.w, a).Some? {
        UserIsSound(env, s, a, Act(env, s, a, accelerators));
      }
    }
  }

  lemma ForgetsOnlyCleanUp(env: Env, c: Ctx, w: World, jobs: Jobs, ref: Ref, out: Outcome)
    ensures Conclude(env, w, jobs, ref, out).v.forget ==> ref in w.jobs && w.jobs[ref].status.phase == CleanUp
  {
    TickKeepsJobs(env, c, w);
  }

  /** No job that the lister knows is ever forgotten: its stored phase is never CleanUp. */
  lemma ListedIsNotForgotten(env: Env, s: System, a: Action, accelerators: Accelerators)
    requires Sound(s) && Effective(s, a)
    ensures !SyncJob(env, s.w, s.jobs, a.key, ListedIn(s, a), accelerators).v.forget
  {
    var ref, m := SplitKey(a.key).value, Target(s, a);
    TargetReady(s, a);
    ReconcileKeeps(env, s.w, m, accelerators);
    var p := Reconcile(env, s.w, m, accelerators);
    LegalKeepsJobs(env, CtxOf(p.v.m), PairedPuts, s.w, Since(s.w, p.w));
    ForgetsOnlyCleanUp(env, CtxOf(m), p.w, s.jobs[a.key := p.v.m], ref, p.v.out);
  }

  /** In every run, with jobs submitted, withdrawn and submitted again: phase and state of every job,
  stored or in memory, are the start or one of the five pairs, the cached status of every
  TrainingJob is its status, and no UID is ever given to two jobs. */
  lemma {:induction false} RunInvariant(env: Env, s: System, actions: seq<Action>, accelerators: Accelerators)
    requires Sound(s)
    ensures Sound(Run(env, s, actions, accelerators))
    decreases |actions|
  {
    if actions != [] {
      ActIsSound(env, s, actions[0], accelerators);
      RunInvariant(env, Act(env, s, actions[0], accelerators), actions[1..], accelerators);
    }
  }

  // A job that has a phase keeps having one as long as it is not withdrawn.
  ghost predicate StartedStays(w: World, w': World)
  {
    forall ref <- w.jobs :: w.jobs[ref].status.phase != NoPhase ==>
      || Withdrawn(w', w.jobs[ref].uid)
      || (ref in w'.jobs && w'.jobs[ref].uid == w.jobs[ref].uid && w'.jobs[ref].status.phase != NoPhase)
  }

  // A stretch of a run, as events.
  ghost predicate Happens(env: Env, w: World, w': World)
  {
    && w.trace <= w'.trace && w' == Replay(w, Since(w, w'))
    && FairAll(env, w, Since(w, w')) && Opened(Since(w, w'))
    && (forall e <- Since(w, w') :: !Deletion(e))
    && StartedStays(w, w')
  }

  lemma NothingHappens(env: Env, w: World)
    ensures Happens(env, w, w)
  {
    assert Since(w, w) == [];
  }

  lemma HappensThen(env: Env, w: World, w1: World, w2: World)
    requires Happens(env, w, w1) && Happens(env, w1, w2)
    ensures Happens(env, w, w2)
  {
    var a, b := Since(w, w1), Since(w1, w2);
    SinceConcat(w, w1, w2);
    ReplayConcat(w, a, b);
    FairConcat(env, w, a, b);
    OpenedConcat(a, b);
    forall ref | ref in w.jobs && Withdrawn(w1, w.jobs[ref].uid)
      ensures Withdrawn(w2, w.jobs[ref].uid)
    {
      WithdrawnStays(w1, w2, w.jobs[ref].uid);
    }
  }

  lemma WithdrawnStays(w: World, w': World, uid: string)
    requires w.trace <= w'.trace && Withdrawn(w, uid)
    ensures Withdrawn(w', uid)
  {
    var e :| e in w.trace && e.JobWithdrawn? && e.uid == uid;
    assert e in w'.trace;
  }

  lemma TrailHappens(env: Env, c: Ctx, w: World, w': World)
    requires Trail(env, c, PairedPuts, w, w')
    ensures Happens(env, w, w')
  {
    var es := Since(w, w');
    LegalAllIsFair(env, c, PairedPuts, w, es);
    NothingDeleted(env, c, PairedPuts, w, es);
    LegalKeepsJobs(env, c, PairedPuts, w, es);
  }

  lemma UserHappens(env: Env, w: World, a: Action)
    requires UserEvent(w, a).Some?
    ensures Happens(env, w, Apply(w, UserEvent(w, a).value))
  {
    var e := UserEvent(w, a).value;
    var w' := Apply(w, e);
    assert Since(w, w') == [e] && [e][1..] == [];
    assert Replay(w', []) == w' && FairAll(env, w', []);
    forall ref | ref in w.jobs && ref !in w'.jobs
      ensures Withdrawn(w', w.jobs[ref].uid)
    {
      UserKeepsUids(w, a, w.jobs[ref].uid);
    }
  }

  lemma ActEvents(env: Env, s: System, a: Action, accelerators: Accelerators)
    requires Sound(s)
    ensures Happens(env, s.w, Act(env, s, a, accelerators).w)
  {
    if Effective(s, a) {
      TargetReady(s, a);
      var m' := ActPasses(env, s, a, accelerators);
      TrailHappens(env, CtxOf(m'), s.w, Act(env, s, a, accelerators).w);
    } else {
      IdleAct(env, s, a, accelerators);
      NothingHappens(env, s.w);
      if UserEvent(s.w, a).Some? {
        UserHappens(env, s.w, a);
      }
    }
  }

  /** Every run is a run of the event machine of LivePods; it deletes no pod, service or config map,
  and a job that has started stays started until it is withdrawn. */
  lemma {:induction false} RunEvents(env: Env, s: System, actions: seq<Action>, accelerators: Accelerators)
    requires Sound(s)
    ensures Happens(env, s.w, Run(env, s, actions, accelerators).w)
    decreases |actions|
  {
    if actions == [] {
      NothingHappens(env, s.w);
    } else {
      var s1 := Act(env, s, actions[0], accelerators);
      ActEvents(env, s, actions[0], accelerators);
      ActIsSound(env, s, actions[0], accelerators);
      RunEvents(env, s1, actions[1..], accelerators);
      HappensThen(env, s.w, s1.w, Run(env, s, actions, accelerators).w);
    }
  }

  // ---------------------------------------------------------------- the cache, as long as no status write fails

  // A TrainingJob whose job is still stored holds it as it is stored.
  predicate Fresh(w: World, m: Memory)
  {
    StoredAs(w, m.job.ref, m.job.uid) ==> InSync(w, m)
  }

  predicate AllFresh(s: System)
  {
    forall key <- s.jobs :: Fresh(s.w, s.jobs[key])
  }

  lemma PassedIsFresh(env: Env, s: System, a: Action, s': System, m': Memory)
    requires Sound(s) && AllFresh(s) && Effective(s, a) && Passed(env, s, a, s', m')
    requires NoFailedUpdate(Since(s.w, s'.w))
    ensures AllFresh(s')
  {
    TargetReady(s, a);
    LegalKeepsJobs(env, CtxOf(m'), PairedPuts, s.w, Since(s.w, s'.w));
    forall key | key in s'.jobs && key != a.key
      ensures Fresh(s'.w, s'.jobs[key])
    {
      if s'.jobs[key].job.ref == m'.job.ref {
        KeysInjective(key, a.key);
      }
      assert Fresh(s.w, s.jobs[key]);
    }
  }

  lemma UserKeepsFresh(w: World, a: Action, m: Memory)
    requires UserEvent(w, a).Some? && UidKnown(w, m.job.uid) && Fresh(w, m)
    ensures Fresh(Apply(w, UserEvent(w, a).value), m)
  {
    UserStores(w, a, m.job.ref, m.job.uid);
  }

  lemma UserIsFresh(s: System, a: Action, s': System)
    requires Sound(s) && AllFresh(s) && (s'.jobs == s.jobs || s'.jobs == map[])
    requires UserEvent(s.w, a).Some? && s'.w == Apply(s.w, UserEvent(s.w, a).value)
    ensures AllFresh(s')
  {
    forall key | key in s'.jobs
      ensures Fresh(s'.w, s'.jobs[key])
    {
      UserKeepsFresh(s.w, a, s.jobs[key]);
    }
  }

  lemma ActIsFresh(env: Env, s: System, a: Action, accelerators: Accelerators)
    requires Sound(s) && AllFresh(s) && NoFailedUpdate(Since(s.w, Act(env, s, a, accelerators).w))
    ensures AllFresh(Act(env, s, a, accelerators))
  {
    var s' := Act(env, s, a, accelerators);
    if Effective(s, a) {
      var m' := ActPasses(env, s, a, accelerators);
      PassedIsFresh(env, s, a, s', m');
    } else {
      IdleAct(env, s, a, accelerators);
      if UserEvent(s.w, a).Some? {
        UserIsFresh(s, a, s');
      }
    }
  }

  /** In every run in which no status write fails, every TrainingJob in memory holds the stored job
  exactly as it is stored, as long as that job is stored. */
  lemma {:induction false} RunStaysFresh(env: Env, s: System, actions: seq<Action>, accelerators: Accelerators)
    requires Sound(s) && AllFresh(s) && NoFailedUpdate(Since(s.w, Run(env, s, actions, accelerators).w))
    ensures AllFresh(Run(env, s, actions, accelerators))
    decreases |actions|
  {
    if actions != [] {
      var s1, s' := Act(env, s, actions[0], accelerators), Run(env, s, actions, accelerators);
      ActIsSound(env, s, actions[0], accelerators);
      ActEvents(env, s, actions[0], accelerators);
      RunEvents(env, s1, actions[1..], accelerators);
      SinceConcat(s.w, s1.w, s'.w);
      assert forall e <- Since(s.w, s1.w) :: e in Since(s.w, s'.w);
      assert forall e <- Since(s1.w, s'.w) :: e in Since(s.w, s'.w);
      ActIsFresh(env, s, actions[0], accelerators);
      RunStaysFresh(env, s1, actions[1..], accelerators);
    }
  }

  /** Live-pod accounting for whole runs of many jobs with restarts, submissions and withdrawals. */
  lemma RunLivePods(env: Env, s: System, actions: seq<Action>, accelerators: Accelerators, slot: Slot)
    requires Sound(s) && Guarded(env, slot.ns, SlotLabels(slot))
    ensures var s' := Run(env, s, actions, accelerators);
            var n, n', es := |LiveIn(s.w, slot)|, |LiveIn(s'.w, slot)|, Since(s.w, s'.w);
            && n' == n + CreatedIn(es, slot) - KilledIn(s.w, es, slot)
            && n' <= (if n == 0 then 1 else n) + FailedLists(es, slot)
            && CreatedIn(es, slot) <= (if n == 0 then 1 else 0) + KilledIn(s.w, es, slot) + FailedLists(es, slot)
  {
    RunEvents(env, s, actions, accelerators);
    MachineAccounting(env, s.w, Run(env, s, actions, accelerators).w, slot);
  }

  lemma MachineAccounting(env: Env, w: World, w': World, slot: Slot)
    requires Happens(env, w, w') && Guarded(env, slot.ns, SlotLabels(slot))
    ensures var n, n', es := |LiveIn(w, slot)|, |LiveIn(w', slot)|, Since(w, w');
            && n' == n + CreatedIn(es, slot) - KilledIn(w, es, slot)
            && n' <= (if n == 0 then 1 else n) + FailedLists(es, slot)
            && CreatedIn(es, slot) <= (if n == 0 then 1 else 0) + KilledIn(w, es, slot) + FailedLists(es, slot)
  {
    LivePodAccounting(env, w, Since(w, w'), slot);
  }

  /** In no run is a succeeded pod that is not deleted run again, but for failed lists. */
  lemma RunNeverReruns(env: Env, s: System, actions: seq<Action>, accelerators: Accelerators, slot: Slot, ref: Ref)
    requires Sound(s) && Guarded(env, slot.ns, SlotLabels(slot))
    requires ref in LiveIn(s.w, slot) && s.w.pods[ref].phase == PodSucceeded
    requires Moved(Remove(ref)) !in Since(s.w, Run(env, s, actions, accelerators).w)
    ensures var s' := Run(env, s, actions, accelerators);
            var es := Since(s.w, s'.w);
            && CreatedIn(es, slot) <= FailedLists(es, slot)
            && ref in LiveIn(s'.w, slot) && s'.w.pods[ref].phase == PodSucceeded
  {
    RunEvents(env, s, actions, accelerators);
    MachineKeepsSucceeded(env, s.w, Run(env, s, actions, accelerators).w, slot, ref);
  }

  lemma MachineKeepsSucceeded(env: Env, w: World, w': World, slot: Slot, ref: Ref)
    requires Happens(env, w, w') && Guarded(env, slot.ns, SlotLabels(slot))
    requires ref in LiveIn(w, slot) && w.pods[ref].phase == PodSucceeded && Moved(Remove(ref)) !in Since(w, w')
    ensures CreatedIn(Since(w, w'), slot) <= FailedLists(Since(w, w'), slot)
    ensures ref in LiveIn(w', slot) && w'.pods[ref].phase == PodSucceeded
  {
    SucceededIsNotRerun(env, w, Since(w, w'), slot, ref);
  }
}
