/** Crash recovery: the set-up job is written before anything is created, so a job keeps one runtime
id and at most one non-failed pod per replica through any number of crashes, unless the setup that
draws its id is not stored and no restart follows. */
module Recovery {
  import opened Wrappers
  import opened Api
  import opened Naming
  import opened Store
  import opened Replicas
  import opened Trails
  import opened Training
  import opened Passes
  import opened LivePods
  import opened Controller
  import opened Runs
  import opened Validation
  import opened Selectors

  // ---------------------------------------------------------------- what a run has made for a job

  predicate NamedFor(labels: Labels, key: Ref)
  {
    NAME_LABEL in labels && labels[NAME_LABEL] == key.name
  }

  predicate HasId(labels: Labels, rid: string)
  {
    ID_LABEL in labels && labels[ID_LABEL] == rid
  }

  // Who an object was created for.
  function OwnerOf(e: Event): Option<Owner>
  {
    if e.PodCreated? then e.pod.owner else if e.ServiceCreated? then e.service.owner else None
  }

  // A pod or service created for the job of this key and UID.
  predicate MadeFor(e: Event, key: Ref, uid: string)
  {
    && OwnerOf(e) == Some(Owner(key.name, uid))
    && ((e.PodCreated? && e.ref.ns == key.ns && NamedFor(e.pod.labels, key))
        || (e.ServiceCreated? && e.ref.ns == key.ns && NamedFor(e.service.labels, key)))
  }

  predicate MadeWithId(e: Event, rid: string)
  {
    (e.PodCreated? ==> HasId(e.pod.labels, rid)) && (e.ServiceCreated? ==> HasId(e.service.labels, rid))
  }

  ghost predicate OneId(es: seq<Event>, key: Ref, uid: string, rid: string)
  {
    forall e <- es :: MadeFor(e, key, uid) ==> MadeWithId(e, rid)
  }

  ghost predicate NoneMade(es: seq<Event>, key: Ref, uid: string)
  {
    forall e <- es :: !MadeFor(e, key, uid)
  }

  lemma LegalEventId(env: Env, c: Ctx, puts: Puts, w: World, e: Event)
    requires Legal(env, c, puts, w, e) && Creation(e)
    ensures MadeFor(e, c.ref, c.uid) && MadeWithId(e, c.spec.runtimeId)
    ensures forall key, uid :: key != c.ref || uid != c.uid ==> !MadeFor(e, key, uid)
  {
    if e.PodCreated? {
      var k: nat, index: nat, n: nat :| PodFor(env, c, k, index, n, e.ref, e.pod);
      TaskLabelsValues(c.ref.name, c.spec.runtimeId, c.replicas[k].typ, index);
    } else {
      var k: nat, index: nat :| ServiceFor(c, k, index, e.ref, e.service);
      TaskLabelsValues(c.ref.name, c.spec.runtimeId, c.replicas[k].typ, index);
    }
  }

  lemma {:induction false} LegalIds(env: Env, c: Ctx, puts: Puts, w: World, es: seq<Event>, key: Ref, uid: string)
    requires LegalAll(env, c, puts, w, es)
    ensures OneId(es, c.ref, c.uid, c.spec.runtimeId) && (key != c.ref || uid != c.uid ==> NoneMade(es, key, uid))
    decreases |es|
  {
    if es != [] {
      LegalIds(env, c, puts, Apply(w, es[0]), es[1..], key, uid);
      if Creation(es[0]) {
        LegalEventId(env, c, puts, w, es[0]);
      }
      assert es == [es[0]] + es[1..];
    }
  }

  lemma {:induction false} CreationNeedsSetUp(env: Env, c: Ctx, puts: Puts, w: World, es: seq<Event>)
    requires WriteAhead(c, w, es) && LegalAll(env, c, puts, w, es) && !NoCreation(es)
    ensures SetUp(c, Replay(w, es))
    decreases |es|
  {
    if Creation(es[0]) {
      SetUpStays(env, c, puts, w, es);
    } else {
      assert es == [es[0]] + es[1..];
      CreationNeedsSetUp(env, c, puts, Apply(w, es[0]), es[1..]);
    }
  }

  lemma NoCreationNoneMade(es: seq<Event>, key: Ref, uid: string)
    requires NoCreation(es)
    ensures NoneMade(es, key, uid)
  {}

  // ---------------------------------------------------------------- the spec of a started job

  // If the job of a TrainingJob is stored with a phase, it is stored with the TrainingJob's spec.
  predicate SpecKept(w: World, m: Memory)
  {
    StoredAs(w, m.job.ref, m.job.uid) && w.jobs[m.job.ref].status.phase != NoPhase ==>
      w.jobs[m.job.ref].spec == m.job.spec
  }

  ghost predicate SpecsKept(s: System)
  {
    forall key <- s.jobs :: SpecKept(s.w, s.jobs[key])
  }

  // A job with a phase keeps its spec, runtime id and accelerator edits included, until it is withdrawn.
  ghost predicate StoredStays(w: World, w': World)
  {
    forall ref <- w.jobs :: w.jobs[ref].status.phase != NoPhase ==>
      || Withdrawn(w', w.jobs[ref].uid)
      || (StoredAs(w', ref, w.jobs[ref].uid)
          && w'.jobs[ref].spec == w.jobs[ref].spec && w'.jobs[ref].status.phase != NoPhase)
  }

  // The job of one pass: its TrainingJob keeps the spec it is stored with.
  lemma PassKeepsSpec(env: Env, w: World, m: Memory, w': World, m': Memory)
    requires Kept(env, w, m, w', m') && Started(m.status) && StoredAs(w, m.job.ref, m.job.uid)
    requires SpecKept(w, m) && (m.status.phase == NoPhase ==> InSync(w, m) && Agrees(m))
    ensures StoredAs(w', m.job.ref, m.job.uid) && SpecKept(w', m')
    ensures w.jobs[m.job.ref].status.phase != NoPhase ==>
              w'.jobs[m.job.ref].spec == w.jobs[m.job.ref].spec && w'.jobs[m.job.ref].status.phase != NoPhase
  {
    var c, es := CtxOf(m'), Since(w, w');
    LegalKeepsJobs(env, c, PairedPuts, w, es);
    ChangedIsSetUp(env, c, PairedPuts, w, es);
  }

  lemma PassedSpecs(env: Env, s: System, a: Action, s': System, m': Memory)
    requires Sound(s) && SpecsKept(s) && Effective(s, a) && Passed(env, s, a, s', m')
    ensures SpecsKept(s') && StoredStays(s.w, s'.w)
  {
    TargetReady(s, a);
    PassKeepsSpec(env, s.w, Target(s, a), s'.w, m');
    LegalKeepsJobs(env, CtxOf(m'), PairedPuts, s.w, Since(s.w, s'.w));
    forall key | key in s'.jobs && key != a.key
      ensures SpecKept(s'.w, s'.jobs[key])
    {
      if s'.jobs[key].job.ref == m'.job.ref {
        KeysInjective(key, a.key);
      }
      assert SpecKept(s.w, s.jobs[key]);
    }
  }

  lemma UserKeepsSpec(w: World, a: Action, m: Memory)
    requires UserEvent(w, a).Some? && UidKnown(w, m.job.uid) && SpecKept(w, m)
    ensures SpecKept(Apply(w, UserEvent(w, a).value), m)
  {
    UserStores(w, a, m.job.ref, m.job.uid);
  }

  lemma UserStoredStays(w: World, a: Action)
    requires UserEvent(w, a).Some?
    ensures StoredStays(w, Apply(w, UserEvent(w, a).value))
  {
    var w' := Apply(w, UserEvent(w, a).value);
    forall ref | ref in w.jobs && ref !in w'.jobs
      ensures Withdrawn(w', w.jobs[ref].uid)
    {
      UserKeepsUids(w, a, w.jobs[ref].uid);
    }
  }

  lemma UserSpecs(s: System, a: Action, s': System)
    requires Sound(s) && SpecsKept(s) && UserEvent(s.w, a).Some?
    requires s'.w == Apply(s.w, UserEvent(s.w, a).value) && (s'.jobs == s.jobs || s'.jobs == map[])
    ensures SpecsKept(s') && StoredStays(s.w, s'.w)
  {
    UserStoredStays(s.w, a);
    forall key | key in s'.jobs
      ensures SpecKept(s'.w, s'.jobs[key])
    {
      UserKeepsSpec(s.w, a, s.jobs[key]);
    }
  }

  lemma ActSpecs(env: Env, s: System, a: Action, accelerators: Accelerators)
    requires Sound(s) && SpecsKept(s)
    ensures var s' := Act(env, s, a, accelerators); SpecsKept(s') && StoredStays(s.w, s'.w)
  {
    var s' := Act(env, s, a, accelerators);
    if Effective(s, a) {
      var m' := ActPasses(env, s, a, accelerators);
      PassedSpecs(env, s, a, s', m');
    } else {
      IdleAct(env, s, a, accelerators);
      if UserEvent(s.w, a).Some? {
        UserSpecs(s, a, s');
      }
    }
  }

  lemma StoredStaysThen(w: World, w1: World, w2: World)
    requires StoredStays(w, w1) && StoredStays(w1, w2) && w1.trace <= w2.trace
    ensures StoredStays(w, w2)
  {
    forall ref | ref in w.jobs && Withdrawn(w1, w.jobs[ref].uid)
      ensures Withdrawn(w2, w.jobs[ref].uid)
    {
      WithdrawnStays(w1, w2, w.jobs[ref].uid);
    }
  }

  /** In every run, whatever fails: once a job is stored with a phase, its stored spec, runtime id and
  accelerator edits included, does not change until the job is withdrawn. */
  lemma {:induction false} StoredSpecStays(env: Env, s: System, actions: seq<Action>, accelerators: Accelerators)
    requires Sound(s) && SpecsKept(s)
    ensures var s' := Run(env, s, actions, accelerators); SpecsKept(s') && StoredStays(s.w, s'.w)
    decreases |actions|
  {
    if actions != [] {
      var s1, s' := Act(env, s, actions[0], accelerators), Run(env, s, actions, accelerators);
      ActIsSound(env, s, actions[0], accelerators);
      ActSpecs(env, s, actions[0], accelerators);
      StoredSpecStays(env, s1, actions[1..], accelerators);
      RunEvents(env, s1, actions[1..], accelerators);
      StoredStaysThen(s.w, s1.w, s'.w);
    }
  }

  // ---------------------------------------------------------------- the ledger of one job

  // The setup of this job draws a runtime id.
  predicate DrawsId(job: Job)
  {
    job.status.phase == NoPhase && job.spec.runtimeId == "" && ValidSpec(WithDefaults(job.spec))
  }

  // The jobs that must be stored with their setup before anything is made for them: those whose setup
  // draws an id, or all.
  predicate Watched(job: Job, all: bool)
  {
    job.status.phase == NoPhase && (all || DrawsId(job))
  }

  // What the events since the start say about a job as it is stored now.
  ghost predicate Recorded(es: seq<Event>, key: Ref, job: Job, all: bool)
  {
    if Watched(job, all) then NoneMade(es, key, job.uid) else OneId(es, key, job.uid, job.spec.runtimeId)
  }

  // The job a TrainingJob was made for, if it is stored, has the TrainingJob's runtime id.
  predicate Backed(w: World, m: Memory, all: bool)
  {
    StoredAs(w, m.job.ref, m.job.uid) ==>
      !Watched(w.jobs[m.job.ref], all) && w.jobs[m.job.ref].spec.runtimeId == m.job.spec.runtimeId
  }

  predicate IsOf(m: Memory, key: Ref, uid: string)
  {
    m.job.ref == key && m.job.uid == uid
  }

  // What the events say of this key and UID, whether they are a stored job's, were, or may come to be.
  ghost predicate Entry(es: seq<Event>, w: World, key: Ref, uid: string, all: bool)
  {
    if StoredAs(w, key, uid) then Recorded(es, key, w.jobs[key], all)
    else if UidKnown(w, uid) then exists rid :: OneId(es, key, uid, rid)
    else NoneMade(es, key, uid)
  }

  ghost predicate Ledger(w0: World, s: System, key: Ref, uid: string, all: bool)
  {
    && w0.trace <= s.w.trace
    && (forall k <- s.jobs :: IsOf(s.jobs[k], key, uid) ==> Backed(s.w, s.jobs[k], all))
    && Entry(Since(w0, s.w), s.w, key, uid, all)
  }

  // The setup of a watched job with this UID.
  predicate SetsUp(s: System, a: Action, uid: string, all: bool)
  {
    && Effective(s, a) && Target(s, a).status.phase == NoPhase
    && var job := s.w.jobs[SplitKey(a.key).value]; job.uid == uid && Watched(job, all)
  }

  predicate Reached(a: Action, s': System)
    requires a.Sync? && SplitKey(a.key).Some?
  {
    var ref := SplitKey(a.key).value;
    ref in s'.w.jobs && s'.w.jobs[ref].status.phase != NoPhase
  }

  // A setup of the job with this UID that draws an id (or, if `all`, any setup of it) and does not
  // reach the store is followed by a restart.  Writes that fail later need none, nor do other jobs'.
  ghost predicate Durable(env: Env, s: System, actions: seq<Action>, accelerators: Accelerators, uid: string, all: bool)
    decreases |actions|
  {
    actions == [] ||
    var s' := Act(env, s, actions[0], accelerators);
    && (SetsUp(s, actions[0], uid, all) && s'.jobs != map[] ==> Reached(actions[0], s'))
    && Durable(env, s', actions[1..], accelerators, uid, all)
  }

  // ---------------------------------------------------------------- one pass

  lemma SetupKeepsId(env: Env, w: World, m: Memory, accelerators: Accelerators)
    requires Agrees(m) && m.status.phase == NoPhase && !DrawsId(m.job)
    ensures Setup(env, w, m, accelerators).job.spec.runtimeId == m.job.spec.runtimeId
  {
    DefaultsIdempotent(m.job.spec);
  }

  lemma PassKeepsId(env: Env, w: World, m: Memory, accelerators: Accelerators)
    requires Agrees(m) && m.status.phase != CleanUp && !DrawsId(m.job)
    ensures Reconcile(env, w, m, accelerators).v.m.job.spec.runtimeId == m.job.spec.runtimeId
  {
    PassSpec(env, w, m, accelerators);
    if m.status.phase == NoPhase {
      SetupKeepsId(env, w, m, accelerators);
    }
  }

  // One pass over a stored job: what it makes is recorded by the job it leaves stored.
  lemma PassRecorded(env: Env, w: World, m: Memory, w': World, m': Memory, es0: seq<Event>, all: bool)
    requires Kept(env, w, m, w', m') && Started(m.status) && StoredAs(w, m.job.ref, m.job.uid)
    requires if m.status.phase == NoPhase then InSync(w, m) && Agrees(m) else Backed(w, m, all)
    requires !DrawsId(m.job) ==> m'.job.spec.runtimeId == m.job.spec.runtimeId
    requires Recorded(es0, m.job.ref, w.jobs[m.job.ref], all)
    ensures StoredAs(w', m.job.ref, m.job.uid) && Recorded(es0 + Since(w, w'), m.job.ref, w'.jobs[m.job.ref], all)
    ensures Watched(w.jobs[m.job.ref], all) ==> m.status.phase == NoPhase
    ensures (Watched(w.jobs[m.job.ref], all) && w'.jobs[m.job.ref].status.phase == NoPhase) || Backed(w', m', all)
  {
    var c, es := CtxOf(m'), Since(w, w');
    LegalIds(env, c, PairedPuts, w, es, c.ref, c.uid);
    LegalKeepsJobs(env, c, PairedPuts, w, es);
    ChangedIsSetUp(env, c, PairedPuts, w, es);
    if Watched(w.jobs[c.ref], all) {
      if NoCreation(es) {
        NoCreationNoneMade(es, c.ref, c.uid);
      } else {
        CreationNeedsSetUp(env, c, PairedPuts, w, es);
      }
    }
  }

  // The job of a pass, seen from its own ledger.
  lemma TargetPass(env: Env, w0: World, s: System, a: Action, s': System, m': Memory, all: bool)
    requires Sound(s) && Effective(s, a) && Passed(env, s, a, s', m')
    requires var m := Target(s, a);
             && Ledger(w0, s, m.job.ref, m.job.uid, all)
             && (!DrawsId(m.job) ==> m'.job.spec.runtimeId == m.job.spec.runtimeId)
             && (SetsUp(s, a, m.job.uid, all) && s'.jobs != map[] ==> Reached(a, s'))
    ensures var m := Target(s, a); Ledger(w0, s', m.job.ref, m.job.uid, all)
  {
    TargetReady(s, a);
    var m := Target(s, a);
    PassRecorded(env, s.w, m, s'.w, m', Since(w0, s.w), all);
    SinceConcat(w0, s.w, s'.w);
    OnlyTarget(s, a, s', m');
  }

  // No other TrainingJob is of the same key and UID.
  lemma OnlyTarget(s: System, a: Action, s': System, m': Memory)
    requires Sound(s) && Effective(s, a) && (s'.jobs == map[] || s'.jobs == s.jobs[a.key := m'])
    requires SplitKey(a.key) == Some(m'.job.ref)
    ensures forall k <- s'.jobs :: IsOf(s'.jobs[k], m'.job.ref, m'.job.uid) ==> s'.jobs[k] == m'
  {
    forall k | k in s'.jobs && IsOf(s'.jobs[k], m'.job.ref, m'.job.uid)
      ensures s'.jobs[k] == m'
    {
      KeysInjective(k, a.key);
    }
  }

  // A pass leaves the entry of every other job alone.
  lemma OtherEntry(env: Env, c: Ctx, w: World, w': World, es0: seq<Event>, key: Ref, uid: string, all: bool)
    requires Trail(env, c, PairedPuts, w, w') && Identified(w) && StoredAs(w, c.ref, c.uid)
    requires Entry(es0, w, key, uid, all) && (key != c.ref || uid != c.uid)
    ensures Entry(es0 + Since(w, w'), w', key, uid, all)
    ensures StoredAs(w', key, uid) <==> StoredAs(w, key, uid)
    ensures StoredAs(w, key, uid) ==> w'.jobs[key] == w.jobs[key]
  {
    var es := Since(w, w');
    LegalIds(env, c, PairedPuts, w, es, key, uid);
    LegalKeepsJobs(env, c, PairedPuts, w, es);
    LegalKeepsUids(env, c, PairedPuts, w, es, uid);
    if !StoredAs(w, key, uid) {
      EntryGrows(es0, es, w, key, uid, all);
    }
  }

  lemma EntryGrows(es0: seq<Event>, es: seq<Event>, w: World, key: Ref, uid: string, all: bool)
    requires Entry(es0, w, key, uid, all) && NoneMade(es, key, uid)
    ensures exists rid :: OneId(es0 + es, key, uid, rid)
    ensures !StoredAs(w, key, uid) && !UidKnown(w, uid) ==> NoneMade(es0 + es, key, uid)
  {
    var rid := "";
    if StoredAs(w, key, uid) {
      rid := w.jobs[key].spec.runtimeId;
    } else if UidKnown(w, uid) {
      rid :| OneId(es0, key, uid, rid);
    }
    assert OneId(es0 + es, key, uid, rid);
  }

  lemma OtherPass(env: Env, w0: World, s: System, a: Action, s': System, m': Memory, key: Ref, uid: string, all: bool)
    requires Sound(s) && Effective(s, a) && Passed(env, s, a, s', m') && Ledger(w0, s, key, uid, all)
    requires !IsOf(Target(s, a), key, uid)
    ensures Ledger(w0, s', key, uid, all)
  {
    TargetReady(s, a);
    OtherEntry(env, CtxOf(m'), s.w, s'.w, Since(w0, s.w), key, uid, all);
    SinceConcat(w0, s.w, s'.w);
    forall k | k in s'.jobs && IsOf(s'.jobs[k], key, uid)
      ensures Backed(s'.w, s'.jobs[k], all)
    {
      assert Backed(s.w, s.jobs[k], all);
    }
  }

  lemma ActLedger(env: Env, w0: World, s: System, a: Action, accelerators: Accelerators, key: Ref, uid: string,
                  all: bool)
    requires Sound(s) && Ledger(w0, s, key, uid, all) && Effective(s, a)
    requires var s' := Act(env, s, a, accelerators); SetsUp(s, a, uid, all) && s'.jobs != map[] ==> Reached(a, s')
    ensures Ledger(w0, Act(env, s, a, accelerators), key, uid, all)
  {
    TargetReady(s, a);
    var m := Target(s, a);
    var m' := ActPasses(env, s, a, accelerators);
    if IsOf(m, key, uid) {
      if !DrawsId(m.job) {
        PassKeepsId(env, s.w, m, accelerators);
      }
      TargetPass(env, w0, s, a, Act(env, s, a, accelerators), m', all);
    } else {
      OtherPass(env, w0, s, a, Act(env, s, a, accelerators), m', key, uid, all);
    }
  }

  // ---------------------------------------------------------------- one action of a user

  lemma UserEntry(w: World, e: Event, w': World, es: seq<Event>, key: Ref, uid: string, all: bool)
    requires Entry(es, w, key, uid, all) && OwnerOf(e).None?
    requires StoredAs(w', key, uid) ==> (StoredAs(w, key, uid) && w'.jobs[key] == w.jobs[key]) || !UidKnown(w, uid)
    requires (StoredAs(w, key, uid) ==> UidKnown(w, uid)) && (UidKnown(w, uid) ==> UidKnown(w', uid))
    ensures Entry(es + [e], w', key, uid, all)
  {
    EntryGrows(es, [e], w, key, uid, all);
  }

  lemma UserBacked(w: World, a: Action, m: Memory, all: bool)
    requires UserEvent(w, a).Some? && UidKnown(w, m.job.uid) && Backed(w, m, all)
    ensures Backed(Apply(w, UserEvent(w, a).value), m, all)
  {
    UserStores(w, a, m.job.ref, m.job.uid);
  }

  lemma UserLedger(w0: World, s: System, a: Action, s': System, key: Ref, uid: string, all: bool)
    requires Sound(s) && Ledger(w0, s, key, uid, all) && UserEvent(s.w, a).Some?
    requires s'.w == Apply(s.w, UserEvent(s.w, a).value) && (s'.jobs == s.jobs || s'.jobs == map[])
    ensures Ledger(w0, s', key, uid, all)
  {
    var e := UserEvent(s.w, a).value;
    assert s'.w.trace == s.w.trace + [e] && Since(w0, s'.w) == Since(w0, s.w) + [e];
    UserStores(s.w, a, key, uid);
    UserKeepsUids(s.w, a, uid);
    UserEntry(s.w, e, s'.w, Since(w0, s.w), key, uid, all);
    forall k | k in s'.jobs && IsOf(s'.jobs[k], key, uid)
      ensures Backed(s'.w, s'.jobs[k], all)
    {
      UserBacked(s.w, a, s.jobs[k], all);
    }
  }

  // ---------------------------------------------------------------- runs

  /** In every run in which a setup that draws an id for the job with this UID, and does not reach the
  store, is followed by a restart, whatever else fails and whatever happens to other jobs: nothing is
  made for the job before its id is stored, and all that is made for it carries the id it is stored
  with.  If all setups of the job are followed so, nothing is made for it before it has a phase. */
  lemma {:induction false} OneRuntimeId(env: Env, w0: World, s: System, actions: seq<Action>,
                                        accelerators: Accelerators, key: Ref, uid: string, all: bool)
    requires Sound(s) && Ledger(w0, s, key, uid, all) && Durable(env, s, actions, accelerators, uid, all)
    ensures Ledger(w0, Run(env, s, actions, accelerators), key, uid, all)
    decreases |actions|
  {
    if actions != [] {
      var a := actions[0];
      var s1 := Act(env, s, a, accelerators);
      ActIsSound(env, s, a, accelerators);
      if Effective(s, a) {
        ActLedger(env, w0, s, a, accelerators, key, uid, all);
      } else {
        IdleAct(env, s, a, accelerators);
        if UserEvent(s.w, a).Some? {
          UserLedger(w0, s, a, s1, key, uid, all);
        }
      }
      OneRuntimeId(env, w0, s1, actions[1..], accelerators, key, uid, all);
    }
  }

  lemma FreshLedger(w: World, key: Ref, uid: string, all: bool)
    ensures Ledger(w, System(w, map[]), key, uid, all)
  {
    assert Since(w, w) == [];
    assert OneId([], key, uid, "");
  }

  // The job with this UID, if it is stored, or is still to come, draws no id.
  ghost predicate DrawsNone(w: World, uid: string)
  {
    UidKnown(w, uid) && forall ref <- w.jobs :: w.jobs[ref].uid == uid ==> !DrawsId(w.jobs[ref])
  }

  lemma UserDrawsNone(w: World, a: Action, uid: string)
    requires UserEvent(w, a).Some? && DrawsNone(w, uid)
    ensures DrawsNone(Apply(w, UserEvent(w, a).value), uid)
  {
    var w' := Apply(w, UserEvent(w, a).value);
    UserKeepsUids(w, a, uid);
    forall ref | StoredAs(w', ref, uid)
      ensures !DrawsId(w'.jobs[ref])
    {
      UserStores(w, a, ref, uid);
    }
  }

  lemma ActDrawsNone(env: Env, s: System, a: Action, accelerators: Accelerators, uid: string)
    requires Sound(s) && DrawsNone(s.w, uid)
    ensures DrawsNone(Act(env, s, a, accelerators).w, uid)
  {
    if Effective(s, a) {
      TargetReady(s, a);
      var m' := ActPasses(env, s, a, accelerators);
      var es := Since(s.w, Act(env, s, a, accelerators).w);
      LegalKeepsJobs(env, CtxOf(m'), PairedPuts, s.w, es);
      LegalKeepsUids(env, CtxOf(m'), PairedPuts, s.w, es, uid);
    } else {
      IdleAct(env, s, a, accelerators);
      if UserEvent(s.w, a).Some? {
        UserDrawsNone(s.w, a, uid);
      }
    }
  }

  lemma {:induction false} DrawingNoneIsDurable(env: Env, s: System, actions: seq<Action>,
                                                accelerators: Accelerators, uid: string)
    requires Sound(s) && DrawsNone(s.w, uid)
    ensures Durable(env, s, actions, accelerators, uid, false)
    decreases |actions|
  {
    if actions != [] {
      ActDrawsNone(env, s, actions[0], accelerators, uid);
      ActIsSound(env, s, actions[0], accelerators);
      DrawingNoneIsDurable(env, Act(env, s, actions[0], accelerators), actions[1..], accelerators, uid);
    }
  }

  // ---------------------------------------------------------------- at most one pod per replica, under all ids

  // The operator's pods of a job all carry one runtime id.
  ghost predicate Tagged(w: World, key: Ref, uid: string, rid: string)
  {
    forall ref <- w.pods :: OperatorPod(w, key, ref) && w.pods[ref].owner == Some(Owner(key.name, uid)) ==>
      exists s: Slot :: s.rid == rid && SlotLabels(s) == w.pods[ref].labels
  }

  // Labelled as the operator labels the pods of a job of this name.
  predicate Marked(key: Ref, ref: Ref, labels: Labels)
  {
    ref.ns == key.ns && APP_LABEL in labels && NamedFor(labels, key)
  }

  predicate OperatorPod(w: World, key: Ref, ref: Ref)
    requires ref in w.pods
  {
    Marked(key, ref, w.pods[ref].labels)
  }

  predicate OursAlone(ms: seq<Move>, key: Ref)
  {
    forall m <- ms :: m.Place? ==> !Marked(key, m.ref, m.pod.labels)
  }

  // The environments in which lists that succeed tell the truth, and in which nobody but the operator
  // makes pods labelled as those of a job of this name are.
  ghost predicate GuardedJob(env: Env, key: Ref)
  {
    FairListing(env) && forall n: nat :: OursAlone(env.moves(n), key)
  }

  lemma GuardedSlot(env: Env, key: Ref, rid: string, typ: string, index: int)
    requires GuardedJob(env, key)
    ensures var s := Slot(key.ns, key.name, rid, typ, index); Guarded(env, s.ns, SlotLabels(s))
  {
    var s := Slot(key.ns, key.name, rid, typ, index);
    TaskLabelsValues(key.name, rid, typ, index);
    forall n: nat
      ensures ForeignMoves(env.moves(n), s.ns, SlotLabels(s))
    {
      assert OursAlone(env.moves(n), key);
      forall m | m in env.moves(n) && m.Place? && Matches(SlotLabels(s), m.pod.labels)
        ensures m.ref.ns != s.ns
      {
        assert m.pod.labels[NAME_LABEL] == key.name && APP_LABEL in m.pod.labels;
      }
    }
  }

  lemma EventTags(env: Env, w: World, e: Event, key: Ref, uid: string, rid: string)
    requires GuardedJob(env, key) && Fair(env, w, e) && Tagged(w, key, uid, rid)
    requires (MadeFor(e, key, uid) ==> MadeWithId(e, rid))
    ensures Tagged(Apply(w, e), key, uid, rid)
  {
    var w' := Apply(w, e);
    if e.Moved? && e.move.Place? {
      var n: nat :| e.move in env.moves(n);
      assert OursAlone(env.moves(n), key);
    }
    forall ref | ref in w'.pods && OperatorPod(w', key, ref) && w'.pods[ref].owner == Some(Owner(key.name, uid))
      ensures exists s: Slot :: s.rid == rid && SlotLabels(s) == w'.pods[ref].labels
    {
      if ref in w.pods && w'.pods[ref].labels == w.pods[ref].labels && w'.pods[ref].owner == w.pods[ref].owner {
        assert OperatorPod(w, key, ref);
      } else {
        assert e.PodCreated? && e.ref == ref;
        var s: Slot :| s.ns == ref.ns && SlotLabels(s) == e.pod.labels;
        TaskLabelsValues(s.job, s.rid, s.typ, s.index);
      }
    }
  }

  lemma {:induction false} TagsStay(env: Env, w: World, es: seq<Event>, key: Ref, uid: string, rid: string)
    requires GuardedJob(env, key) && FairAll(env, w, es) && OneId(es, key, uid, rid) && Tagged(w, key, uid, rid)
    ensures Tagged(Replay(w, es), key, uid, rid)
    decreases |es|
  {
    if es != [] {
      assert es[0] in es && forall e <- es[1..] :: e in es;
      EventTags(env, w, es[0], key, uid, rid);
      TagsStay(env, Apply(w, es[0]), es[1..], key, uid, rid);
    }
  }

  // The non-failed pods the operator made for one replica of a job, under any runtime id.
  function PodsOfReplica(w: World, key: Ref, uid: string, typ: string, index: int): set<Ref>
  {
    set ref | ref in w.pods && OperatorPod(w, key, ref) && w.pods[ref].owner == Some(Owner(key.name, uid))
              && w.pods[ref].phase != PodFailed
              && TYPE_LABEL in w.pods[ref].labels && w.pods[ref].labels[TYPE_LABEL] == typ
              && INDEX_LABEL in w.pods[ref].labels && w.pods[ref].labels[INDEX_LABEL] == Decimal(index)
  }

  lemma TaggedReplica(w: World, key: Ref, uid: string, rid: string, typ: string, index: int)
    requires Tagged(w, key, uid, rid)
    ensures PodsOfReplica(w, key, uid, typ, index) <= LiveIn(w, Slot(key.ns, key.name, rid, typ, index))
  {
    forall ref | ref in PodsOfReplica(w, key, uid, typ, index)
      ensures ref in LiveIn(w, Slot(key.ns, key.name, rid, typ, index))
    {
      var s: Slot :| s.rid == rid && SlotLabels(s) == w.pods[ref].labels;
      TaskLabelsValues(s.job, s.rid, s.typ, s.index);
      DecimalInjective(s.index, index);
    }
  }

  // A store without pods of the operator that carry the job's name.
  ghost predicate Bare(w: World, key: Ref)
  {
    forall ref <- w.pods :: !OperatorPod(w, key, ref)
  }

  lemma BareSlot(w: World, key: Ref, rid: string, typ: string, index: int)
    requires Bare(w, key)
    ensures LiveIn(w, Slot(key.ns, key.name, rid, typ, index)) == {}
  {
    var slot := Slot(key.ns, key.name, rid, typ, index);
    TaskLabelsValues(key.name, rid, typ, index);
    forall ref | ref in LiveIn(w, slot)
      ensures false
    {
      assert OperatorPod(w, key, ref);
    }
  }

  // The id a job is stored with, if it is stored.
  predicate IdOf(w: World, key: Ref, uid: string, rid: string)
  {
    StoredAs(w, key, uid) ==> w.jobs[key].spec.runtimeId == rid
  }

  lemma OneIdBounds(env: Env, w0: World, w: World, key: Ref, uid: string, rid: string, typ: string, index: int)
    requires GuardedJob(env, key) && Bare(w0, key) && Happens(env, w0, w) && OneId(Since(w0, w), key, uid, rid)
    ensures |PodsOfReplica(w, key, uid, typ, index)|
              <= 1 + FailedLists(Since(w0, w), Slot(key.ns, key.name, rid, typ, index))
  {
    var slot := Slot(key.ns, key.name, rid, typ, index);
    TagsStay(env, w0, Since(w0, w), key, uid, rid);
    TaggedReplica(w, key, uid, rid, typ, index);
    BareSlot(w0, key, rid, typ, index);
    GuardedSlot(env, key, rid, typ, index);
    MachineAccounting(env, w0, w, slot);
    SubsetSize(PodsOfReplica(w, key, uid, typ, index), LiveIn(w, slot));
  }

  lemma LedgerId(w0: World, s: System, key: Ref, uid: string, all: bool) returns (rid: string)
    requires Ledger(w0, s, key, uid, all)
    ensures OneId(Since(w0, s.w), key, uid, rid) && IdOf(s.w, key, uid, rid)
  {
    if StoredAs(s.w, key, uid) {
      rid := s.w.jobs[key].spec.runtimeId;
    } else if UidKnown(s.w, uid) {
      rid :| OneId(Since(w0, s.w), key, uid, rid);
    } else {
      rid := "";
    }
  }

  /** Recovery: start a controller on a store that holds no pod of the operator under a job's name.
  After any run with crashes, every replica of the job with this UID, stored or withdrawn by then,
  has at most one pod that has not failed, under all runtime ids together, and one more for every
  list of its pods that failed; if a setup that draws an id for this job, and does not reach the
  store, is followed by a restart.  Other jobs' setups need not be. */
  lemma AtMostOnePodPerReplica(env: Env, w0: World, actions: seq<Action>, accelerators: Accelerators,
                               key: Ref, uid: string, typ: string, index: int)
    requires JobsStarted(w0.jobs) && Identified(w0) && GuardedJob(env, key) && Bare(w0, key)
    requires Durable(env, System(w0, map[]), actions, accelerators, uid, false)
    ensures var w := Run(env, System(w0, map[]), actions, accelerators).w;
            exists rid :: IdOf(w, key, uid, rid)
              && |PodsOfReplica(w, key, uid, typ, index)|
                   <= 1 + FailedLists(Since(w0, w), Slot(key.ns, key.name, rid, typ, index))
  {
    var s := System(w0, map[]);
    var s' := Run(env, s, actions, accelerators);
    FreshLedger(w0, key, uid, false);
    OneRuntimeId(env, w0, s, actions, accelerators, key, uid, false);
    RunEvents(env, s, actions, accelerators);
    var rid := LedgerId(w0, s', key, uid, false);
    OneIdBounds(env, w0, s'.w, key, uid, rid, typ, index);
  }

  /** A job that has a phase, was given a runtime id, or is not valid once defaulted needs no restart
  at all: the bound holds for it in every run from a bare store. */
  lemma GivenIdNeedsNoRestart(env: Env, w0: World, actions: seq<Action>, accelerators: Accelerators,
                              key: Ref, typ: string, index: int)
    requires JobsStarted(w0.jobs) && Identified(w0) && GuardedJob(env, key) && Bare(w0, key)
    requires key in w0.jobs && !DrawsId(w0.jobs[key])
    ensures var w, uid := Run(env, System(w0, map[]), actions, accelerators).w, w0.jobs[key].uid;
            exists rid :: IdOf(w, key, uid, rid)
              && |PodsOfReplica(w, key, uid, typ, index)|
                   <= 1 + FailedLists(Since(w0, w), Slot(key.ns, key.name, rid, typ, index))
  {
    var uid := w0.jobs[key].uid;
    DrawingNoneIsDurable(env, System(w0, map[]), actions, accelerators, uid);
    AtMostOnePodPerReplica(env, w0, actions, accelerators, key, uid, typ, index);
  }

  lemma {:induction false} SubsetSize(a: set<Ref>, b: set<Ref>)
    requires a <= b
    ensures |a| <= |b|
  {
    if a != {} {
      var x :| x in a;
      SubsetSize(a - {x}, b - {x});
    }
  }
}
