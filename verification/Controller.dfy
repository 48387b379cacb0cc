/** The controller: one TrainingJob per key, replaced when the UID changes (syncMXJob), and its runs. */
module Controller {
  import opened Wrappers
  import opened Api
  import opened Selectors
  import opened Store
  import opened Loops
  import opened Training

  // ---------------------------------------------------------------- keys

  // cache.SplitMetaNamespaceKey, with the check that neither part is empty.
  function SplitKey(key: string): Option<Ref>
  {
    match SplitFirst(key, '/')
    case None => None
    case Some((ns, name)) => if ns == "" || name == "" || '/' in name then None else Some(Ref(ns, name))
  }

  lemma {:induction false} SplitFirstParts(s: string, c: char)
    ensures SplitFirst(s, c).Some? ==> s == SplitFirst(s, c).value.0 + [c] + SplitFirst(s, c).value.1
  {
    if s != "" && s[0] != c {
      SplitFirstParts(s[1..], c);
      assert s == [s[0]] + s[1..];
    }
  }

  lemma {:induction false} SplitFirstHead(s: string, c: char)
    ensures SplitFirst(s, c).Some? ==> c !in SplitFirst(s, c).value.0
  {
    if s != "" && s[0] != c {
      SplitFirstHead(s[1..], c);
    }
  }

  // The objects that have a key.
  predicate HasKey(ref: Ref)
  {
    ref.ns != "" && ref.name != "" && '/' !in ref.ns && '/' !in ref.name
  }

  function KeyOf(ref: Ref): string
  {
    ref.ns + "/" + ref.name
  }

  /** A key is the namespace, a slash and the name, neither empty nor with a slash; anything else is no
  key. */
  lemma SplitKeyIff(k: string, ref: Ref)
    ensures SplitKey(k) == Some(ref) <==> k == ref.ns + "/" + ref.name && HasKey(ref)
  {
    SplitFirstParts(k, '/');
    SplitFirstHead(k, '/');
    if k == ref.ns + "/" + ref.name && HasKey(ref) {
      assert k == ref.ns + ['/'] + ref.name;
      SplitFirstGlue(ref.ns, '/', ref.name);
    }
  }

  /** Two keys never stand for the same object. */
  lemma {:induction false} KeysInjective(k: string, l: string)
    requires SplitKey(k).Some? && SplitKey(k) == SplitKey(l)
    ensures k == l
  {
    SplitFirstParts(k, '/');
    SplitFirstParts(l, '/');
  }

  // ---------------------------------------------------------------- one sync

  // What the lister's cache says about a key.
  datatype Listed = InCache(job: Job) | NotInCache | CacheError

  type Jobs = map<string, Memory>

  datatype Synced = Synced(jobs: Jobs, forget: bool, failed: bool, died: bool)

  // The TrainingJob kept for the key, or a new one.
  function Adopt(jobs: Jobs, key: string, job: Job): Memory
  {
    if key in jobs && jobs[key].job.uid == job.uid then jobs[key] else NewJob(job)
  }

  // What comes after the pass: the stored job is read once more, to see whether it is done with.
  function Conclude(env: Env, w: World, jobs: Jobs, ref: Ref, out: Outcome): Ret<Synced>
  {
    match out
    case Panicked => Ret(w, Synced(jobs, false, true, true))
    case Erred => Ret(w, Synced(jobs, false, true, false))
    case Fine =>
      var got := GetJob(env, w, ref);
      Ret(got.w, Synced(jobs, got.v.Some? && got.v.value.status.phase == CleanUp, got.v.None?, false))
  }

  function SyncJob(env: Env, w: World, jobs: Jobs, key: string, listed: Listed, accelerators: Accelerators): Ret<Synced>
  {
    match SplitKey(key)
    case None => Ret(w, Synced(jobs, false, true, false))
    case Some(ref) =>
      match listed
      case CacheError => Ret(w, Synced(jobs, false, true, false))
      case NotInCache => Ret(w, Synced(jobs, true, false, false))
      case InCache(job) =>
        var p := Reconcile(env, w, Adopt(jobs, key, job), accelerators);
        Conclude(env, p.w, jobs[key := p.v.m], ref, p.v.out)
  }

  /** What a sync answers, with the key's parts spelled out.  A string that is no key, and a lister that
  errs, are failures, and a job the lister does not know is done with; none of them does anything.
  Otherwise one pass is made over the TrainingJob kept for the UID, or over a new one; if it ends well
  the job of that namespace and name is read once more; the sync has failed if the pass or that read
  did, and the job is done with if it is read to be in CleanUp. */
  lemma SyncAnswers(env: Env, w: World, jobs: Jobs, key: string, listed: Listed, accelerators: Accelerators, ref: Ref)
    ensures (forall r: Ref :: HasKey(r) ==> key != r.ns + "/" + r.name) ==>
              SyncJob(env, w, jobs, key, listed, accelerators) == Ret(w, Synced(jobs, false, true, false))
    ensures HasKey(ref) && key == ref.ns + "/" + ref.name ==>
              var s := SyncJob(env, w, jobs, key, listed, accelerators);
              match listed
              case CacheError => s == Ret(w, Synced(jobs, false, true, false))
              case NotInCache => s == Ret(w, Synced(jobs, true, false, false))
              case InCache(job) =>
                var m := if key in jobs && jobs[key].job.uid == job.uid then jobs[key] else Memory(job, job.status, []);
                var p := Reconcile(env, w, m, accelerators);
                var w' := Tick(env, p.w);
                var found := p.v.out == Fine && !env.readFails(|w'.trace|) && ref in w'.jobs;
                && s.v.jobs == jobs[key := p.v.m] && (p.v.out != Fine ==> s.w == p.w)
                && (s.v.died <==> p.v.out == Panicked) && (s.v.failed <==> !found)
                && (s.v.forget <==> found && w'.jobs[ref].status.phase == CleanUp)
  {
    SplitKeyIff(key, ref);
    if SplitKey(key).Some? {
      SplitKeyIff(key, SplitKey(key).value);
    }
  }

  // ---------------------------------------------------------------- runs

  // The world and the controller's memory.
  datatype System = System(w: World, jobs: Jobs)

  // A sync of a key: the lister either knows the stored job or does not (yet), and the controller may
  // die in the course of it, which loses its memory and, through the environment, the rest of its
  // calls.  Or, between two syncs, what users do: they submit a new job and withdraw one.
  datatype Action =
    | Sync(key: string, visible: bool, dies: bool)
    | Submit(job: Job)
    | Withdraw(ref: Ref)

  function ListedIn(s: System, a: Action): Listed
    requires a.Sync?
  {
    match SplitKey(a.key)
    case None => NotInCache
    case Some(ref) => if a.visible && ref in s.w.jobs then InCache(s.w.jobs[ref]) else NotInCache
  }

  predicate Withdrawn(w: World, uid: string)
  {
    exists e <- w.trace :: e.JobWithdrawn? && e.uid == uid
  }

  // UIDs that have been given out.
  predicate UidKnown(w: World, uid: string)
  {
    (exists ref <- w.jobs :: w.jobs[ref].uid == uid) || Withdrawn(w, uid)
  }

  // What a user's action comes to: a job is created under a new name, with a new UID and no phase.
  function UserEvent(w: World, a: Action): Option<Event>
  {
    match a
    case Sync(_, _, _) => None
    case Submit(job) =>
      if job.ref in w.jobs || job.status.phase != NoPhase || UidKnown(w, job.uid) then None else Some(JobSubmitted(job))
    case Withdraw(ref) => if ref in w.jobs then Some(JobWithdrawn(ref, w.jobs[ref].uid)) else None
  }

  function Act(env: Env, s: System, a: Action, accelerators: Accelerators): System
  {
    if a.Sync? then
      var r := SyncJob(env, s.w, s.jobs, a.key, ListedIn(s, a), accelerators);
      System(r.w, if r.v.died || a.dies then map[] else r.v.jobs)
    else
      match UserEvent(s.w, a)
      case None => s
      case Some(e) => System(Apply(s.w, e), s.jobs)
  }

  function Run(env: Env, s: System, actions: seq<Action>, accelerators: Accelerators): System
    decreases |actions|
  {
    if actions == [] then s else Run(env, Act(env, s, actions[0], accelerators), actions[1..], accelerators)
  }
}
