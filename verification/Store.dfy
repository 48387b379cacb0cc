/** The API server: what it stores, what every call does to it, and the environment that answers the
calls and moves between them.

Every call first lets the environment move, then appends one event (two, if the reply is lost) to the
trace; the length of the trace is the index at which the environment is asked for its next choices.
A controller that dies in mid-call is an environment that rejects every later call of that pass. */
module Store {
  import opened Wrappers
  import opened Api
  import opened Selectors
  import opened AcceleratorSetup

  datatype Verb = CreatePodVerb | CreateServiceVerb | UpdateJobVerb | DeleteVerb

  // What kubelets and users do between two calls.
  datatype Move =
    | Report(ref: Ref, phase: PodPhase, started: int, statuses: seq<ContainerStatus>)
    | Remove(ref: Ref)
    | Place(ref: Ref, pod: Pod)
    | RemoveService(ref: Ref)

  datatype Event =
    | Moved(move: Move)
    | Read
    | ListFailed(ns: string, selector: Labels, notFailed: bool)
    | Refused(verb: Verb)
    | Unanswered(verb: Verb)  // the write before this event took effect, the caller saw an error
    | PodCreated(ref: Ref, pod: Pod)
    | ServiceCreated(ref: Ref, service: Service)
    | JobUpdated(job: Job)
    | PodsDeleted(ns: string, selector: Labels)
    | ServiceDeleted(ref: Ref)
    | ConfigMapDeleted(ref: Ref)
    | JobSubmitted(job: Job)  // by a user, between two syncs
    | JobWithdrawn(ref: Ref, uid: string)

  datatype World = World(pods: map<Ref, Pod>, services: map<Ref, Service>, configMaps: set<Ref>,
                         jobs: map<Ref, Job>, trace: seq<Event>)

  datatype Reply = Answered | Rejected | Lost

  datatype Env = Env(moves: nat -> seq<Move>, readFails: nat -> bool, reply: nat -> Reply,
                     random: (nat, nat) -> string, listing: set<Ref> -> seq<Ref>, order: Order)

  // The world after a call, and what the call returned.
  datatype Ret<+T> = Ret(w: World, v: T)

  // ---------------------------------------------------------------- the state machine

  predicate Terminal(phase: PodPhase)
  {
    phase == PodSucceeded || phase == PodFailed
  }

  function AfterMove(w: World, m: Move): World
  {
    match m
    case Report(ref, phase, started, statuses) =>
      if ref in w.pods && (Terminal(w.pods[ref].phase) ==> phase == w.pods[ref].phase)
      then w.(pods := w.pods[ref := w.pods[ref].(phase := phase, started := started, statuses := statuses)])
      else w
    case Remove(ref) => w.(pods := w.pods - {ref})
    case Place(ref, pod) => if ref in w.pods then w else w.(pods := w.pods[ref := pod])
    case RemoveService(ref) => w.(services := w.services - {ref})
  }

  function Apply(w: World, e: Event): World
  {
    var w1 := match e
      case Moved(m) => AfterMove(w, m)
      case Read => w
      case ListFailed(_, _, _) => w
      case Refused(_) => w
      case Unanswered(_) => w
      case PodCreated(ref, pod) => w.(pods := w.pods[ref := pod])
      case ServiceCreated(ref, service) => w.(services := w.services[ref := service])
      case JobUpdated(job) => w.(jobs := w.jobs[job.ref := job])
      case PodsDeleted(ns, selector) => w.(pods := w.pods - Selected(w, ns, selector, false))
      case ServiceDeleted(ref) => w.(services := w.services - {ref})
      case ConfigMapDeleted(ref) => w.(configMaps := w.configMaps - {ref})
      case JobSubmitted(job) => w.(jobs := w.jobs[job.ref := job])
      case JobWithdrawn(ref, _) => w.(jobs := w.jobs - {ref});
    w1.(trace := w.trace + [e])
  }

  function Replay(w: World, es: seq<Event>): World
    decreases |es|
  {
    if es == [] then w else Replay(Apply(w, es[0]), es[1..])
  }

  // The events between two worlds of one run.
  function Since(w: World, w': World): seq<Event>
  {
    if |w.trace| <= |w'.trace| then w'.trace[|w.trace|..] else []
  }

  // ---------------------------------------------------------------- calls

  function MoveAll(w: World, ms: seq<Move>): World
    decreases |ms|
  {
    if ms == [] then w else MoveAll(Apply(w, Moved(ms[0])), ms[1..])
  }

  function Tick(env: Env, w: World): World
  {
    MoveAll(w, env.moves(|w.trace|))
  }

  // The pods of a namespace a list call selects; the field selector leaves out failed pods.
  function Selected(w: World, ns: string, selector: Labels, notFailed: bool): set<Ref>
  {
    set ref | ref in w.pods && ref.ns == ns && Matches(selector, w.pods[ref].labels)
              && (notFailed ==> w.pods[ref].phase != PodFailed)
  }

  function PodsAt(w: World, refs: seq<Ref>): seq<Pod>
  {
    if refs == [] then []
    else (if refs[0] in w.pods then [w.pods[refs[0]]] else []) + PodsAt(w, refs[1..])
  }

  // A call whose answer goes nowhere but to the log.
  function Look(env: Env, w: World): World
  {
    Apply(Tick(env, w), Read)
  }

  function ListPods(env: Env, w: World, ns: string, selector: Labels, notFailed: bool): Ret<Option<seq<Pod>>>
  {
    var w1 := Tick(env, w);
    if env.readFails(|w1.trace|) then Ret(Apply(w1, ListFailed(ns, selector, notFailed)), None)
    else Ret(Apply(w1, Read), Some(PodsAt(w1, env.listing(Selected(w1, ns, selector, notFailed)))))
  }

  function GetPod(env: Env, w: World, ref: Ref): Ret<Option<Pod>>
  {
    var w1 := Tick(env, w);
    Ret(Apply(w1, Read), if env.readFails(|w1.trace|) || ref !in w1.pods then None else Some(w1.pods[ref]))
  }

  function GetJob(env: Env, w: World, ref: Ref): Ret<Option<Job>>
  {
    var w1 := Tick(env, w);
    Ret(Apply(w1, Read), if env.readFails(|w1.trace|) || ref !in w1.jobs then None else Some(w1.jobs[ref]))
  }

  datatype GetReply = Found | NotFound | GetFailed

  function GetService(env: Env, w: World, ref: Ref): Ret<GetReply>
  {
    var w1 := Tick(env, w);
    Ret(Apply(w1, Read),
        if env.readFails(|w1.trace|) then GetFailed else if ref in w1.services then Found else NotFound)
  }

  function GetConfigMap(env: Env, w: World, ref: Ref): Ret<GetReply>
  {
    var w1 := Tick(env, w);
    Ret(Apply(w1, Read),
        if env.readFails(|w1.trace|) then GetFailed else if ref in w1.configMaps then Found else NotFound)
  }

  // A write: turned away, or done and answered, or done and not answered.
  function Write(env: Env, w1: World, allowed: bool, verb: Verb, e: Event): Ret<bool>
  {
    if env.reply(|w1.trace|) == Rejected || !allowed then Ret(Apply(w1, Refused(verb)), false)
    else if env.reply(|w1.trace|) == Lost then Ret(Apply(Apply(w1, e), Unanswered(verb)), false)
    else Ret(Apply(w1, e), true)
  }

  datatype CreateReply = Created | AlreadyExists | CreateFailed

  function CreatePod(env: Env, w: World, ref: Ref, pod: Pod): Ret<CreateReply>
  {
    var w1 := Tick(env, w);
    var r := Write(env, w1, ref !in w1.pods, CreatePodVerb, PodCreated(ref, pod));
    Ret(r.w, if r.v then Created
             else if env.reply(|w1.trace|) != Rejected && ref in w1.pods then AlreadyExists
             else CreateFailed)
  }

  function CreateService(env: Env, w: World, ref: Ref, service: Service): Ret<CreateReply>
  {
    var w1 := Tick(env, w);
    var r := Write(env, w1, ref !in w1.services, CreateServiceVerb, ServiceCreated(ref, service));
    Ret(r.w, if r.v then Created
             else if env.reply(|w1.trace|) != Rejected && ref in w1.services then AlreadyExists
             else CreateFailed)
  }

  // Update echoes the object it was sent; an object with another UID, or none, cannot be updated.
  function UpdateJob(env: Env, w: World, job: Job): Ret<bool>
  {
    var w1 := Tick(env, w);
    Write(env, w1, job.ref in w1.jobs && w1.jobs[job.ref].uid == job.uid, UpdateJobVerb, JobUpdated(job))
  }

  function DeletePods(env: Env, w: World, ns: string, selector: Labels): Ret<bool>
  {
    Write(env, Tick(env, w), true, DeleteVerb, PodsDeleted(ns, selector))
  }

  function DeleteService(env: Env, w: World, ref: Ref): Ret<bool>
  {
    var w1 := Tick(env, w);
    Write(env, w1, ref in w1.services, DeleteVerb, ServiceDeleted(ref))
  }

  function DeleteConfigMap(env: Env, w: World, ref: Ref): Ret<bool>
  {
    var w1 := Tick(env, w);
    Write(env, w1, ref in w1.configMaps, DeleteVerb, ConfigMapDeleted(ref))
  }

  // ---------------------------------------------------------------- kinds of environment

  // Every list answer holds each selected pod once.
  ghost predicate FairListing(env: Env)
  {
    forall s: set<Ref> :: multiset(env.listing(s)) == multiset(s)
  }

  // The trace positions from n on at which something moves or fails.
  ghost function Disturbances(env: Env, n: nat): iset<nat>
  {
    iset k: nat | n <= k && (env.moves(k) != [] || env.readFails(k) || env.reply(k) != Answered)
  }

  // From trace position n on: nothing moves, no call fails.
  ghost predicate Calm(env: Env, n: nat)
  {
    Disturbances(env, n) == iset{}
  }

  // Random strings have the length asked for and hold no dash, as RandString.RandString gives them.
  ghost predicate FairRandom(env: Env)
  {
    forall n: nat, k: nat :: |env.random(n, k)| == k && '-' !in env.random(n, k)
  }

  // ---------------------------------------------------------------- lists

  lemma {:induction false} PodsAtEmpty(w: World, refs: seq<Ref>)
    requires forall r <- refs :: r in w.pods
    ensures |PodsAt(w, refs)| == |refs|
  {
    if refs != [] {
      PodsAtEmpty(w, refs[1..]);
    }
  }

  // A fair list answer is empty exactly when nothing is selected.
  lemma ListedEmpty(env: Env, w: World, ns: string, selector: Labels, notFailed: bool)
    requires FairListing(env)
    ensures var s := Selected(w, ns, selector, notFailed);
            PodsAt(w, env.listing(s)) == [] <==> s == {}
  {
    var s := Selected(w, ns, selector, notFailed);
    var refs := env.listing(s);
    assert multiset(refs) == multiset(s);
    forall r | r in refs
      ensures r in w.pods
    {
      assert r in multiset(refs);
    }
    PodsAtEmpty(w, refs);
    assert |multiset(refs)| == |refs| && |multiset(s)| == |s|;
  }
}
