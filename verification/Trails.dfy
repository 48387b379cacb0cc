/** Which events a pass over one job may add to the trace, and the proof that every part of the pass
adds no others: the operations refine a small event machine, on which run properties are proved. */
module Trails {
  import opened Wrappers
  import opened Api
  import opened Naming
  import opened Selectors
  import opened Store
  import opened Loops
  import opened Replicas

  // If a pod is placed, it is none of those a selector matches in a namespace.
  predicate Foreign(m: Move, ns: string, labels: Labels)
  {
    m.Place? && m.ref.ns == ns ==> !Matches(labels, m.pod.labels)
  }

  predicate ForeignMoves(ms: seq<Move>, ns: string, labels: Labels)
  {
    forall m <- ms :: Foreign(m, ns, labels)
  }

  // A move the environment may make.
  ghost predicate FromEnv(env: Env, m: Move)
  {
    exists n: nat :: m in env.moves(n)
  }

  // The environments in which a list of a replica's pods that succeeds tells the truth, and in which
  // nobody but the operator makes pods with that replica's labels.
  ghost predicate Guarded(env: Env, ns: string, labels: Labels)
  {
    FairListing(env) && forall n: nat :: ForeignMoves(env.moves(n), ns, labels)
  }

  lemma ForeignMove(env: Env, m: Move, ns: string, labels: Labels)
    requires Guarded(env, ns, labels) && FromEnv(env, m)
    ensures Foreign(m, ns, labels)
  {
    var n: nat :| m in env.moves(n);
    assert ForeignMoves(env.moves(n), ns, labels);
  }

  // The last event of a trace that is not the environment's.
  function LastCall(es: seq<Event>): Option<Event>
  {
    if es == [] then None
    else if es[|es| - 1].Moved? then LastCall(es[..|es| - 1])
    else Some(es[|es| - 1])
  }

  // The last call was a list of these pods that failed, which SyncPods takes for an empty one.
  predicate Misled(w: World, ns: string, labels: Labels)
  {
    LastCall(w.trace) == Some(ListFailed(ns, labels, true))
  }

  // The non-failed pods a replica's selector matches.
  function Live(w: World, ns: string, labels: Labels): set<Ref>
  {
    Selected(w, ns, labels, true)
  }

  ghost predicate PodFor(env: Env, c: Ctx, k: nat, index: nat, n: nat, ref: Ref, pod: Pod)
  {
    && k < |c.replicas| && index < Size(c.replicas[k]) && c.replicas[k].template.Some?
    && pod == BuildPod(c, c.replicas[k], index)
    && ref == Ref(c.ref.ns, GenPodName(c.ref.name, c.replicas[k].typ, c.spec.runtimeId, index, env.random(n, 5)))
  }

  ghost predicate ServiceFor(c: Ctx, k: nat, index: nat, ref: Ref, service: Service)
  {
    && k < |c.replicas| && index < Size(c.replicas[k])
    && service == BuildService(c, c.replicas[k], index) && ref == RefOf(c, c.replicas[k].typ, index)
  }

  // A pod is created only under a new name, for a replica of the job, and only while that replica
  // has no other pod that has not failed, or right after a failed list of its pods.
  ghost predicate LegalPod(env: Env, c: Ctx, w: World, ref: Ref, pod: Pod)
  {
    && ref !in w.pods
    && (exists k: nat, index: nat, n: nat :: PodFor(env, c, k, index, n, ref, pod))
    && (Guarded(env, c.ref.ns, pod.labels) && !Misled(w, c.ref.ns, pod.labels) ==> Live(w, c.ref.ns, pod.labels) == {})
  }

  ghost predicate LegalService(c: Ctx, w: World, ref: Ref, service: Service)
  {
    && ref !in w.services
    && (exists k: nat, index: nat :: ServiceFor(c, k, index, ref, service))
  }

  // A stored job changes only under its own key and UID, to the job's own spec, and is set up.
  ghost predicate LegalUpdate(c: Ctx, w: World, job: Job)
  {
    && job.ref == c.ref && job.uid == c.uid && job.spec == c.spec && job.status.phase != NoPhase
    && c.ref in w.jobs && w.jobs[c.ref].uid == c.uid
  }

  // Whether a stretch of a pass may write the job's status: not at all, with any status, or only
  // with one whose phase and state belong together.
  datatype Puts = NoPuts | AnyPuts | PairedPuts

  predicate PhasePair(s: Status)
  {
    || (s.phase == Creating && s.state == RunningState)
    || (s.phase == Failed && s.state == FailedState)
    || (s.phase == Running && s.state == RunningState)
    || (s.phase == Done && (s.state == FailedState || s.state == SucceededState))
  }

  // The events of a pass over job c; deletions never.
  ghost predicate Legal(env: Env, c: Ctx, puts: Puts, w: World, e: Event)
  {
    match e
    case Moved(m) => FromEnv(env, m)
    case Read => true
    case ListFailed(_, _, _) => env.readFails(|w.trace|)
    case Refused(verb) => verb != DeleteVerb && (verb == UpdateJobVerb ==> puts != NoPuts)
    case Unanswered(verb) => verb != DeleteVerb && (verb == UpdateJobVerb ==> puts != NoPuts)
    case PodCreated(ref, pod) => LegalPod(env, c, w, ref, pod)
    case ServiceCreated(ref, service) => LegalService(c, w, ref, service)
    case JobUpdated(job) => puts != NoPuts && LegalUpdate(c, w, job) && (puts == PairedPuts ==> PhasePair(job.status))
    case _ => false
  }

  ghost predicate LegalAll(env: Env, c: Ctx, puts: Puts, w: World, es: seq<Event>)
    decreases |es|
  {
    es == [] || (Legal(env, c, puts, w, es[0]) && LegalAll(env, c, puts, Apply(w, es[0]), es[1..]))
  }

  // The first call is not the creation of a pod: every pod is listed for before it is created.
  predicate Opened(es: seq<Event>)
  {
    es == [] || (if es[0].Moved? then Opened(es[1..]) else !es[0].PodCreated?)
  }

  // w' is reached from w by legal events, which are what the trace has grown by.
  ghost predicate Trail(env: Env, c: Ctx, puts: Puts, w: World, w': World)
  {
    && w.trace <= w'.trace
    && w' == Replay(w, Since(w, w'))
    && LegalAll(env, c, puts, w, Since(w, w'))
    && Opened(Since(w, w'))
  }

  // ---------------------------------------------------------------- trails compose

  lemma {:induction false} ReplayTrace(w: World, es: seq<Event>)
    ensures Replay(w, es).trace == w.trace + es
    decreases |es|
  {
    if es != [] {
      ReplayTrace(Apply(w, es[0]), es[1..]);
      assert w.trace + es == (w.trace + [es[0]]) + es[1..];
    }
  }

  lemma {:induction false} ReplayConcat(w: World, a: seq<Event>, b: seq<Event>)
    ensures Replay(w, a + b) == Replay(Replay(w, a), b)
    decreases |a|
  {
    if a == [] {
      assert a + b == b;
    } else {
      assert (a + b)[1..] == a[1..] + b;
      ReplayConcat(Apply(w, a[0]), a[1..], b);
    }
  }

  lemma {:induction false} LegalConcat(env: Env, c: Ctx, puts: Puts, w: World, a: seq<Event>, b: seq<Event>)
    requires LegalAll(env, c, puts, w, a) && LegalAll(env, c, puts, Replay(w, a), b)
    ensures LegalAll(env, c, puts, w, a + b)
    decreases |a|
  {
    if a == [] {
      assert a + b == b;
    } else {
      assert (a + b)[1..] == a[1..] + b;
      LegalConcat(env, c, puts, Apply(w, a[0]), a[1..], b);
    }
  }

  lemma {:induction false} OpenedConcat(a: seq<Event>, b: seq<Event>)
    requires Opened(a) && (Opened(b) || exists e <- a :: !e.Moved?)
    ensures Opened(a + b)
  {
    if a == [] {
      assert a + b == b;
    } else if a[0].Moved? {
      assert (a + b)[1..] == a[1..] + b;
      OpenedConcat(a[1..], b);
    }
  }

  lemma TrailRefl(env: Env, c: Ctx, puts: Puts, w: World)
    ensures Trail(env, c, puts, w, w)
  {
    assert Since(w, w) == [];
  }

  lemma OneLegal(env: Env, c: Ctx, puts: Puts, w: World, e: Event)
    requires Legal(env, c, puts, w, e)
    ensures var w1 := Apply(w, e);
            w.trace <= w1.trace && Since(w, w1) == [e] && w1 == Replay(w, [e]) && LegalAll(env, c, puts, w, [e])
  {
    assert Since(w, Apply(w, e)) == [e];
    assert [e][1..] == [];
  }

  lemma TrailStep(env: Env, c: Ctx, puts: Puts, w: World, e: Event)
    requires Legal(env, c, puts, w, e) && !e.PodCreated?
    ensures Trail(env, c, puts, w, Apply(w, e))
  {
    OneLegal(env, c, puts, w, e);
    assert [e][1..] == [];
  }

  lemma TrailTrans(env: Env, c: Ctx, puts: Puts, w: World, w1: World, w2: World)
    requires Trail(env, c, puts, w, w1) && Trail(env, c, puts, w1, w2)
    ensures Trail(env, c, puts, w, w2)
  {
    var a, b := Since(w, w1), Since(w1, w2);
    assert Since(w, w2) == a + b;
    ReplayConcat(w, a, b);
    LegalConcat(env, c, puts, w, a, b);
    OpenedConcat(a, b);
  }

  // A step after a call, the creation of a pod included.
  lemma TrailThen(env: Env, c: Ctx, puts: Puts, w: World, w1: World, e: Event)
    requires Trail(env, c, puts, w, w1) && Legal(env, c, puts, w1, e)
    requires e.PodCreated? ==> exists x <- Since(w, w1) :: !x.Moved?
    ensures Trail(env, c, puts, w, Apply(w1, e))
  {
    var a := Since(w, w1);
    OneLegal(env, c, puts, w1, e);
    assert Since(w, Apply(w1, e)) == a + [e];
    ReplayConcat(w, a, [e]);
    LegalConcat(env, c, puts, w, a, [e]);
    OpenedConcat(a, [e]);
  }

  lemma {:induction false} LegalWithPuts(env: Env, c: Ctx, puts: Puts, w: World, es: seq<Event>)
    requires LegalAll(env, c, NoPuts, w, es)
    ensures LegalAll(env, c, puts, w, es)
    decreases |es|
  {
    if es != [] {
      LegalWithPuts(env, c, puts, Apply(w, es[0]), es[1..]);
    }
  }

  lemma TrailWithPuts(env: Env, c: Ctx, puts: Puts, w: World, w': World)
    requires Trail(env, c, NoPuts, w, w')
    ensures Trail(env, c, puts, w, w')
  {
    LegalWithPuts(env, c, puts, w, Since(w, w'));
  }

  // ---------------------------------------------------------------- calls

  lemma {:induction false} MovesTrail(env: Env, c: Ctx, puts: Puts, w: World, ms: seq<Move>)
    requires forall m <- ms :: FromEnv(env, m)
    ensures Trail(env, c, puts, w, MoveAll(w, ms))
    decreases |ms|
  {
    if ms == [] {
      TrailRefl(env, c, puts, w);
    } else {
      assert ms[0] in ms && forall m <- ms[1..] :: m in ms;
      TrailStep(env, c, puts, w, Moved(ms[0]));
      MovesTrail(env, c, puts, Apply(w, Moved(ms[0])), ms[1..]);
      TrailTrans(env, c, puts, w, Apply(w, Moved(ms[0])), MoveAll(w, ms));
    }
  }

  lemma TickTrail(env: Env, c: Ctx, puts: Puts, w: World)
    ensures Trail(env, c, puts, w, Tick(env, w))
  {
    var n := |w.trace|;
    forall m | m in env.moves(n)
      ensures FromEnv(env, m)
    {
      assert m in env.moves(n);
    }
    MovesTrail(env, c, puts, w, env.moves(n));
  }

  lemma ListTrail(env: Env, c: Ctx, puts: Puts, w: World, ns: string, labels: Labels, notFailed: bool)
    ensures var w' := ListPods(env, w, ns, labels, notFailed).w;
            Trail(env, c, puts, w, w') && exists x <- Since(w, w') :: !x.Moved?
  {
    var w1, w' := Tick(env, w), ListPods(env, w, ns, labels, notFailed).w;
    TickTrail(env, c, puts, w);
    var e := w'.trace[|w1.trace|];
    TrailStep(env, c, puts, w1, e);
    TrailTrans(env, c, puts, w, w1, w');
    assert e in Since(w, w') by {
      assert Since(w, w')[|w1.trace| - |w.trace|] == e;
    }
  }

  lemma {:induction false} MovesAreNoCalls(w: World, ms: seq<Move>)
    ensures w.trace <= MoveAll(w, ms).trace && LastCall(MoveAll(w, ms).trace) == LastCall(w.trace)
    decreases |ms|
  {
    if ms != [] {
      var w1 := Apply(w, Moved(ms[0]));
      assert w1.trace[..|w1.trace| - 1] == w.trace;
      MovesAreNoCalls(w1, ms[1..]);
    }
  }

  lemma ReadTrail(env: Env, c: Ctx, puts: Puts, w: World)
    ensures Trail(env, c, puts, w, Apply(Tick(env, w), Read))
  {
    var w1 := Tick(env, w);
    TickTrail(env, c, puts, w);
    TrailStep(env, c, puts, w1, Read);
    TrailTrans(env, c, puts, w, w1, Apply(w1, Read));
  }

  lemma WriteTrail(env: Env, c: Ctx, puts: Puts, w: World, w1: World, allowed: bool, verb: Verb, e: Event)
    requires Trail(env, c, puts, w, w1) && (e.PodCreated? ==> exists x <- Since(w, w1) :: !x.Moved?)
    requires verb != DeleteVerb && (verb == UpdateJobVerb ==> puts != NoPuts)
    requires allowed ==> Legal(env, c, puts, w1, e)
    ensures Trail(env, c, puts, w, Write(env, w1, allowed, verb, e).w)
  {
    if env.reply(|w1.trace|) == Rejected || !allowed {
      TrailStep(env, c, puts, w1, Refused(verb));
      TrailTrans(env, c, puts, w, w1, Apply(w1, Refused(verb)));
    } else {
      TrailThen(env, c, puts, w, w1, e);
      TrailStep(env, c, puts, Apply(w1, e), Unanswered(verb));
      TrailTrans(env, c, puts, w, Apply(w1, e), Apply(Apply(w1, e), Unanswered(verb)));
    }
  }

  // The environment by itself only ever empties a replica of the operator's pods.
  lemma {:induction false} LiveShrinks(w: World, ms: seq<Move>, ns: string, labels: Labels)
    requires ForeignMoves(ms, ns, labels)
    ensures Live(MoveAll(w, ms), ns, labels) <= Live(w, ns, labels)
    decreases |ms|
  {
    if ms != [] {
      assert ms[0] in ms && forall m <- ms[1..] :: m in ms;
      LiveShrinks(Apply(w, Moved(ms[0])), ms[1..], ns, labels);
      MoveShrinksLive(w, ms[0], ns, labels);
    }
  }

  lemma MoveShrinksLive(w: World, m: Move, ns: string, labels: Labels)
    requires Foreign(m, ns, labels)
    ensures Live(Apply(w, Moved(m)), ns, labels) <= Live(w, ns, labels)
  {}

  // ---------------------------------------------------------------- pods

  lemma SyncPodAtTrail(env: Env, w: World, c: Ctx, k: nat, index: nat)
    requires k < |c.replicas| && index < Size(c.replicas[k])
    ensures Trail(env, c, NoPuts, w, SyncPodAt(env, w, c, c.replicas[k], index).w)
  {
    var r := c.replicas[k];
    var labels := LabelsOf(c, r.typ, index);
    var seen := Look(env, w);
    var mine := ListPods(env, seen, c.ref.ns, labels, true);
    ReadTrail(env, c, NoPuts, w);
    ListTrail(env, c, NoPuts, seen, c.ref.ns, labels, true);
    TrailTrans(env, c, NoPuts, w, seen, mine.w);
    if (mine.v.None? || mine.v.value == []) && !PodPanics(c, r) {
      var n := |mine.w.trace|;
      var name := GenPodName(c.ref.name, r.typ, c.spec.runtimeId, index, env.random(n, 5));
      var ref, pod := Ref(c.ref.ns, name), BuildPod(c, r, index);
      var w1 := Tick(env, mine.w);
      TickTrail(env, c, NoPuts, mine.w);
      TrailTrans(env, c, NoPuts, w, mine.w, w1);
      if ref !in w1.pods {
        assert PodFor(env, c, k, index, n, ref, pod);
        if Guarded(env, c.ref.ns, labels) {
          EmptyOrMisled(env, seen, c.ref.ns, labels);
        }
        assert LegalPod(env, c, w1, ref, pod);
      }
      CallBefore(w, seen, mine.w, w1);
      WriteTrail(env, c, NoPuts, w, w1, ref !in w1.pods, CreatePodVerb, PodCreated(ref, pod));
    }
  }

  // A call between two worlds lies between any two around them.
  lemma CallBefore(w: World, w1: World, w2: World, w3: World)
    requires w.trace <= w1.trace && w1.trace <= w2.trace && w2.trace <= w3.trace
    requires exists x <- Since(w1, w2) :: !x.Moved?
    ensures exists x <- Since(w, w3) :: !x.Moved?
  {
    var x :| x in Since(w1, w2) && !x.Moved?;
    assert Since(w, w3) == Since(w, w1) + Since(w1, w2) + Since(w2, w3);
    assert x in Since(w, w3);
  }

  // An empty list answer still holds when the next call is served; a failed one is on record.
  lemma EmptyOrMisled(env: Env, w: World, ns: string, labels: Labels)
    requires Guarded(env, ns, labels)
    ensures var mine := ListPods(env, w, ns, labels, true);
            var w' := Tick(env, mine.w);
            && (mine.v.None? ==> Misled(w', ns, labels))
            && (mine.v.Some? && mine.v.value == [] ==> Live(w', ns, labels) == {})
  {
    var w1 := Tick(env, w);
    var mine := ListPods(env, w, ns, labels, true);
    MovesAreNoCalls(mine.w, env.moves(|mine.w.trace|));
    if mine.v.Some? {
      ListedEmpty(env, w1, ns, labels, true);
      assert Live(mine.w, ns, labels) == Live(w1, ns, labels);
      LiveShrinks(mine.w, env.moves(|mine.w.trace|), ns, labels);
    }
  }

  lemma PodLoopTrail(env: Env, w: World, c: Ctx, k: nat, index: nat)
    requires k < |c.replicas|
    ensures var r := c.replicas[k]; Trail(env, c, NoPuts, w, Loop(PodTurn(env, c, r), w, index, Size(r)).w)
  {
    var r := c.replicas[k];
    var turn := PodTurn(env, c, r);
    var inv := (v: World) => Trail(env, c, NoPuts, w, v);
    var done := (v: World, i: nat) => true;
    TrailRefl(env, c, NoPuts, w);
    forall v: World, i: nat | i < Size(r) && inv(v)
      ensures inv(turn(v, i).w)
    {
      SyncPodAtTrail(env, v, c, k, i);
      TrailTrans(env, c, NoPuts, w, v, turn(v, i).w);
    }
    assert Carries(turn, Size(r), inv, done, {Fine, Erred, Panicked});
    LoopCarries(turn, w, index, Size(r), inv, done, {Fine, Erred, Panicked});
  }

  lemma SyncPodsTrail(env: Env, w: World, c: Ctx, k: nat)
    requires k < |c.replicas|
    ensures Trail(env, c, NoPuts, w, SyncPods(env, w, c, c.replicas[k]).w)
  {
    TrailRefl(env, c, NoPuts, w);
    PodLoopTrail(env, w, c, k, 0);
  }

  lemma {:induction false} SyncAllPodsTrail(env: Env, w: World, c: Ctx, k: nat)
    requires k <= |c.replicas|
    ensures Trail(env, c, NoPuts, w, SyncAllPods(env, w, c, k).w)
    decreases |c.replicas| - k
  {
    if k == |c.replicas| {
      TrailRefl(env, c, NoPuts, w);
    } else {
      var s := SyncPods(env, w, c, c.replicas[k]);
      SyncPodsTrail(env, w, c, k);
      if s.v != Panicked {
        SyncAllPodsTrail(env, s.w, c, k + 1);
        TrailTrans(env, c, NoPuts, w, s.w, SyncAllPods(env, s.w, c, k + 1).w);
      }
    }
  }

  // ---------------------------------------------------------------- services

  lemma SyncServiceAtTrail(env: Env, w: World, c: Ctx, k: nat, index: nat)
    requires k < |c.replicas| && index < Size(c.replicas[k])
    ensures Trail(env, c, NoPuts, w, SyncServiceAt(env, w, c, c.replicas[k], index).w)
  {
    var r := c.replicas[k];
    var ref, service := RefOf(c, r.typ, index), BuildService(c, r, index);
    var got := GetService(env, w, ref);
    ReadTrail(env, c, NoPuts, w);
    if got.v == NotFound {
      var w1 := Tick(env, got.w);
      TickTrail(env, c, NoPuts, got.w);
      TrailTrans(env, c, NoPuts, w, got.w, w1);
      if ref !in w1.services {
        assert ServiceFor(c, k, index, ref, service);
        assert LegalService(c, w1, ref, service);
      }
      WriteTrail(env, c, NoPuts, w, w1, ref !in w1.services, CreateServiceVerb, ServiceCreated(ref, service));
    }
  }

  lemma SyncServicesTrail(env: Env, w: World, c: Ctx, k: nat)
    requires k < |c.replicas|
    ensures Trail(env, c, NoPuts, w, SyncServices(env, w, c, c.replicas[k]).w)
  {
    var r := c.replicas[k];
    var turn := ServiceTurn(env, c, r);
    var inv := (v: World) => Trail(env, c, NoPuts, w, v);
    var done := (v: World, i: nat) => true;
    TrailRefl(env, c, NoPuts, w);
    forall v: World, i: nat | i < Size(r) && inv(v)
      ensures inv(turn(v, i).w)
    {
      SyncServiceAtTrail(env, v, c, k, i);
      TrailTrans(env, c, NoPuts, w, v, turn(v, i).w);
    }
    assert Carries(turn, Size(r), inv, done, {Fine, Erred, Panicked});
    LoopCarries(turn, w, 0, Size(r), inv, done, {Fine, Erred, Panicked});
  }

  lemma {:induction false} SyncAllServicesTrail(env: Env, w: World, c: Ctx, k: nat)
    requires k <= |c.replicas|
    ensures Trail(env, c, NoPuts, w, SyncAllServices(env, w, c, k))
    decreases |c.replicas| - k
  {
    if k == |c.replicas| {
      TrailRefl(env, c, NoPuts, w);
    } else {
      var w1 := SyncServices(env, w, c, c.replicas[k]).w;
      SyncServicesTrail(env, w, c, k);
      SyncAllServicesTrail(env, w1, c, k + 1);
      TrailTrans(env, c, NoPuts, w, w1, SyncAllServices(env, w1, c, k + 1));
    }
  }

  // ---------------------------------------------------------------- status

  lemma ReadReplicaTrail(env: Env, w: World, c: Ctx, r: ReplicaSpec, index: int)
    ensures Trail(env, c, NoPuts, w, ReadReplica(env, w, c, r, index).w)
  {
    var got := GetPod(env, w, RefOf(c, r.typ, index));
    ReadTrail(env, c, NoPuts, w);
    if got.v.Some? && got.v.value.phase != PodSucceeded {
      ListTrail(env, c, NoPuts, got.w, c.ref.ns, LabelsOf(c, r.typ, index), false);
      TrailTrans(env, c, NoPuts, w, got.w, ReadReplica(env, w, c, r, index).w);
    }
  }

  lemma {:induction false} ReadSetTrail(env: Env, w: World, c: Ctx, r: ReplicaSpec, index: nat)
    ensures Trail(env, c, NoPuts, w, ReadSet(env, w, c, r, index).w)
    decreases Size(r) - index
  {
    if index >= Size(r) {
      TrailRefl(env, c, NoPuts, w);
    } else {
      var one := ReadReplica(env, w, c, r, index);
      ReadReplicaTrail(env, w, c, r, index);
      ReadSetTrail(env, one.w, c, r, index + 1);
      TrailTrans(env, c, NoPuts, w, one.w, ReadSet(env, one.w, c, r, index + 1).w);
    }
  }

  lemma {:induction false} ReadAllTrail(env: Env, w: World, c: Ctx, chief: Chief, k: nat, chiefState: ReplicaState)
    requires k <= |c.replicas|
    ensures Trail(env, c, NoPuts, w, ReadAll(env, w, c, chief, k, chiefState).w)
    decreases |c.replicas| - k
  {
    if k == |c.replicas| {
      TrailRefl(env, c, NoPuts, w);
    } else {
      var r := c.replicas[k];
      var states := ReadSet(env, w, c, r, 0);
      ReadSetTrail(env, w, c, r, 0);
      var own := ReadChief(env, states.w, c, r, chief, chiefState);
      if r.typ == chief.name {
        ReadReplicaTrail(env, states.w, c, r, ToInt32(chief.index));
        TrailTrans(env, c, NoPuts, w, states.w, own.w);
      }
      ReadAllTrail(env, own.w, c, chief, k + 1, own.v);
      TrailTrans(env, c, NoPuts, w, own.w, ReadAll(env, own.w, c, chief, k + 1, own.v).w);
    }
  }
}
