/** Passes in a calm environment: nothing moves between calls and every call is answered. */
module CalmPasses {
  import opened Api
  import opened Naming
  import opened Store
  import opened Loops
  import opened Replicas
  import opened Trails
  import opened Passes
  import opened PodStatus

  // Calm from here on.
  ghost predicate Still(env: Env, w: World)
  {
    Calm(env, |w.trace|) && FairListing(env)
  }

  lemma StillLater(env: Env, w: World, w': World)
    requires Still(env, w) && |w.trace| <= |w'.trace|
    ensures Still(env, w')
  {
    assert Disturbances(env, |w'.trace|) <= Disturbances(env, |w.trace|);
  }

  lemma StillAt(env: Env, w: World, k: nat)
    requires Still(env, w) && |w.trace| <= k
    ensures env.moves(k) == [] && !env.readFails(k) && env.reply(k) == Answered
  {
    assert k !in Disturbances(env, |w.trace|);
  }

  lemma StillTick(env: Env, w: World)
    requires Still(env, w)
    ensures Tick(env, w) == w && !env.readFails(|w.trace|) && env.reply(|w.trace|) == Answered
  {
    assert |w.trace| !in Disturbances(env, |w.trace|);
  }

  // Nothing that was there is gone or changed.
  predicate Grows(w: World, w': World)
  {
    && w.trace <= w'.trace
    && (forall ref <- w.pods :: ref in w'.pods && w'.pods[ref] == w.pods[ref])
    && (forall ref <- w.services :: ref in w'.services && w'.services[ref] == w.services[ref])
  }

  predicate NoneRefused(es: seq<Event>)
  {
    forall e <- es :: !e.Refused?
  }

  lemma RefusedConcat(w: World, w1: World, w2: World)
    requires w.trace <= w1.trace && w1.trace <= w2.trace && NoneRefused(Since(w, w2))
    ensures NoneRefused(Since(w, w1)) && NoneRefused(Since(w1, w2))
  {
    SinceConcat(w, w1, w2);
    assert forall e <- Since(w, w1) :: e in Since(w, w2);
    assert forall e <- Since(w1, w2) :: e in Since(w, w2);
  }

  lemma GrowsTrans(w: World, w1: World, w2: World)
    requires Grows(w, w1) && Grows(w1, w2)
    ensures Grows(w, w2)
  {}

  // ---------------------------------------------------------------- pods

  function PodRef(env: Env, w: World, c: Ctx, r: ReplicaSpec, index: int): Ref
  {
    Ref(c.ref.ns, GenPodName(c.ref.name, r.typ, c.spec.runtimeId, index, env.random(|w.trace| + 2, 5)))
  }

  function AfterReads(w: World): World
  {
    Apply(Apply(w, Read), Read)
  }

  // What one turn of SyncPods does when nothing moves and its list succeeds.
  lemma UnmovedSyncPodAt(env: Env, w: World, c: Ctx, r: ReplicaSpec, index: int)
    requires FairListing(env) && !env.readFails(|w.trace| + 1)
    requires env.moves(|w.trace|) == [] && env.moves(|w.trace| + 1) == [] && env.moves(|w.trace| + 2) == []
    ensures var w2, s, ref := AfterReads(w), SyncPodAt(env, w, c, r, index), PodRef(env, w, c, r, index);
            if Live(w, c.ref.ns, LabelsOf(c, r.typ, index)) != {} then s == Ret(w2, Fine)
            else if PodPanics(c, r) then s == Ret(w2, Panicked)
            else if env.reply(|w.trace| + 2) == Answered then
              if ref in w.pods then s == Ret(Apply(w2, Refused(CreatePodVerb)), Fine)
              else s == Ret(Apply(w2, PodCreated(ref, BuildPod(c, r, index))), Fine)
            else env.reply(|w.trace| + 2) == Rejected ==> s == Ret(Apply(w2, Refused(CreatePodVerb)), Erred)
  {
    var labels := LabelsOf(c, r.typ, index);
    var w1 := Apply(w, Read);
    var w2 := Apply(w1, Read);
    assert Look(env, w) == w1;
    ListedEmpty(env, w1, c.ref.ns, labels, true);
    assert Selected(w1, c.ref.ns, labels, true) == Live(w, c.ref.ns, labels);
    assert ListPods(env, w1, c.ref.ns, labels, true).w == w2;
    assert Tick(env, w2) == w2;
  }

  // What one turn of SyncPods does when nothing interferes.
  lemma CalmSyncPodAt(env: Env, w: World, c: Ctx, r: ReplicaSpec, index: int)
    requires Still(env, w)
    ensures var w2, s, ref := AfterReads(w), SyncPodAt(env, w, c, r, index), PodRef(env, w, c, r, index);
            if Live(w, c.ref.ns, LabelsOf(c, r.typ, index)) != {} then s == Ret(w2, Fine)
            else if PodPanics(c, r) then s == Ret(w2, Panicked)
            else if ref in w.pods then s == Ret(Apply(w2, Refused(CreatePodVerb)), Fine)
            else s == Ret(Apply(w2, PodCreated(ref, BuildPod(c, r, index))), Fine)
  {
    StillAt(env, w, |w.trace|);
    StillAt(env, w, |w.trace| + 1);
    StillAt(env, w, |w.trace| + 2);
    UnmovedSyncPodAt(env, w, c, r, index);
  }

  // Every replica of the set from `index` on has a pod that has not failed.
  ghost predicate Populated(w: World, c: Ctx, r: ReplicaSpec, index: int)
  {
    forall i: nat :: index <= i < Size(r) ==> Live(w, c.ref.ns, LabelsOf(c, r.typ, i)) != {}
  }

  lemma LiveGrows(w: World, w': World, ns: string, labels: Labels)
    requires Grows(w, w') && Live(w, ns, labels) != {}
    ensures Live(w', ns, labels) != {}
  {
    var ref :| ref in Live(w, ns, labels);
    assert ref in Live(w', ns, labels);
  }

  lemma PopulatedGrows(w: World, w': World, c: Ctx, r: ReplicaSpec, index: int)
    requires Grows(w, w') && Populated(w, c, r, index)
    ensures Populated(w', c, r, index)
  {
    forall i: nat | index <= i < Size(r)
      ensures Live(w', c.ref.ns, LabelsOf(c, r.typ, i)) != {}
    {
      LiveGrows(w, w', c.ref.ns, LabelsOf(c, r.typ, i));
    }
  }

  lemma ReadsGrow(w: World)
    ensures Grows(w, AfterReads(w))
  {}

  lemma RefusalShows(w: World)
    ensures var w' := Apply(AfterReads(w), Refused(CreatePodVerb)); Grows(w, w') && !NoneRefused(Since(w, w'))
  {
    var es := Since(w, Apply(AfterReads(w), Refused(CreatePodVerb)));
    assert es == [Read, Read, Refused(CreatePodVerb)];
    assert es[2] in es;
  }

  lemma CreatedIsLive(w: World, ref: Ref, pod: Pod)
    requires ref !in w.pods && pod.phase != PodFailed
    ensures var w' := Apply(AfterReads(w), PodCreated(ref, pod)); Grows(w, w') && Live(w', ref.ns, pod.labels) != {}
  {
    assert ref in Live(Apply(AfterReads(w), PodCreated(ref, pod)), ref.ns, pod.labels);
  }

  lemma CalmSyncPodAtPopulates(env: Env, w: World, c: Ctx, r: ReplicaSpec, index: int)
    requires Still(env, w)
    ensures var s := SyncPodAt(env, w, c, r, index);
            && Grows(w, s.w) && Still(env, s.w) && s.v != Erred
            && (s.v == Fine && NoneRefused(Since(w, s.w)) ==> Live(s.w, c.ref.ns, LabelsOf(c, r.typ, index)) != {})
  {
    var s, labels := SyncPodAt(env, w, c, r, index), LabelsOf(c, r.typ, index);
    CalmSyncPodAt(env, w, c, r, index);
    StillLater(env, w, s.w);
    ReadsGrow(w);
    if Live(w, c.ref.ns, labels) != {} {
      LiveGrows(w, s.w, c.ref.ns, labels);
    } else if s.v == Fine {
      var ref := PodRef(env, w, c, r, index);
      if ref in w.pods {
        RefusalShows(w);
      } else {
        CreatedIsLive(w, ref, BuildPod(c, r, index));
      }
    }
  }

  // A turn among others: what the loop that began in w0 has come to by w.
  ghost predicate Filling(env: Env, w0: World, w: World)
  {
    Still(env, w) && Grows(w0, w)
  }

  ghost predicate Filled(w0: World, w: World, c: Ctx, r: ReplicaSpec, i: nat)
  {
    NoneRefused(Since(w0, w)) ==> Live(w, c.ref.ns, LabelsOf(c, r.typ, i)) != {}
  }

  lemma CalmPodTurn(env: Env, w0: World, w: World, c: Ctx, r: ReplicaSpec, k: nat)
    requires Filling(env, w0, w)
    ensures var s := SyncPodAt(env, w, c, r, k);
            Filling(env, w0, s.w) && Grows(w, s.w) && s.v != Erred && (s.v == Fine ==> Filled(w0, s.w, c, r, k))
  {
    var s := SyncPodAt(env, w, c, r, k);
    CalmSyncPodAtPopulates(env, w, c, r, k);
    GrowsTrans(w0, w, s.w);
    if NoneRefused(Since(w0, s.w)) {
      RefusedConcat(w0, w, s.w);
    }
  }

  lemma FilledGrows(w0: World, w: World, w': World, c: Ctx, r: ReplicaSpec, i: nat)
    requires Filled(w0, w, c, r, i) && Grows(w0, w) && Grows(w, w')
    ensures Filled(w0, w', c, r, i)
  {
    if NoneRefused(Since(w0, w')) {
      RefusedConcat(w0, w, w');
      LiveGrows(w, w', c.ref.ns, LabelsOf(c, r.typ, i));
    }
  }

  lemma PodLoopFills(env: Env, w: World, c: Ctx, r: ReplicaSpec, inv: World -> bool, done: (World, nat) -> bool)
    requires forall v :: inv(v) == Filling(env, w, v)
    requires forall v: World, i: nat :: done(v, i) == Filled(w, v, c, r, i)
    ensures Carries(PodTurn(env, c, r), Size(r), inv, done, {Fine, Panicked})
  {
    var turn := PodTurn(env, c, r);
    forall v: World, k: nat | inv(v)
      ensures inv(turn(v, k).w) && turn(v, k).v != Erred && Grows(v, turn(v, k).w)
      ensures turn(v, k).v == Fine ==> done(turn(v, k).w, k)
    {
      CalmPodTurn(env, w, v, c, r, k);
    }
    forall v: World, i: nat, k: nat | inv(v) && done(v, i)
      ensures done(turn(v, k).w, i)
    {
      FilledGrows(w, v, turn(v, k).w, c, r, i);
    }
  }

  lemma CalmSyncPods(env: Env, w: World, c: Ctx, r: ReplicaSpec)
    requires Still(env, w)
    ensures var s := SyncPods(env, w, c, r);
            && Grows(w, s.w) && Still(env, s.w) && s.v != Erred
            && (s.v == Fine && NoneRefused(Since(w, s.w)) ==> Populated(s.w, c, r, 0))
  {
    if r.replicas.Some? {
      var turn := PodTurn(env, c, r);
      var inv, done := (v: World) => Filling(env, w, v), (v: World, i: nat) => Filled(w, v, c, r, i);
      PodLoopFills(env, w, c, r, inv, done);
      LoopCarries(turn, w, 0, Size(r), inv, done, {Fine, Panicked});
      var s := SyncPods(env, w, c, r);
      forall i: nat | i < Size(r) && s.v == Fine && NoneRefused(Since(w, s.w))
        ensures Live(s.w, c.ref.ns, LabelsOf(c, r.typ, i)) != {}
      {
        assert done(s.w, i);
      }
    }
  }

  ghost predicate AllPopulated(w: World, c: Ctx, k: nat)
  {
    forall j :: k <= j < |c.replicas| ==> c.replicas[j].replicas.Some? && Populated(w, c, c.replicas[j], 0)
  }

  lemma AllPopulatedFirst(w: World, w': World, c: Ctx, k: nat)
    requires k < |c.replicas| && c.replicas[k].replicas.Some?
    requires Populated(w, c, c.replicas[k], 0) && Grows(w, w') && AllPopulated(w', c, k + 1)
    ensures AllPopulated(w', c, k)
  {
    PopulatedGrows(w, w', c, c.replicas[k], 0);
  }

  // With no name taken, every set that does not panic ends up populated.
  lemma {:induction false} CalmSyncAllPods(env: Env, w: World, c: Ctx, k: nat)
    requires k <= |c.replicas| && Still(env, w)
    ensures var s := SyncAllPods(env, w, c, k);
            && Grows(w, s.w) && Still(env, s.w) && s.v != Erred
            && (s.v == Fine && NoneRefused(Since(w, s.w)) ==> AllPopulated(s.w, c, k))
    decreases |c.replicas| - k
  {
    if k < |c.replicas| {
      var r := c.replicas[k];
      var one, s := SyncPods(env, w, c, r), SyncAllPods(env, w, c, k);
      CalmSyncPods(env, w, c, r);
      if one.v != Panicked {
        SyncPodsSized(env, w, c, r);
        CalmSyncAllPods(env, one.w, c, k + 1);
        GrowsTrans(w, one.w, s.w);
        if s.v == Fine && NoneRefused(Since(w, s.w)) {
          RefusedConcat(w, one.w, s.w);
          AllPopulatedFirst(one.w, s.w, c, k);
        }
      }
    }
  }

  // ---------------------------------------------------------------- services

  lemma CalmSyncServiceAt(env: Env, w: World, c: Ctx, r: ReplicaSpec, index: int)
    requires Still(env, w)
    ensures var s, ref := SyncServiceAt(env, w, c, r, index), RefOf(c, r.typ, index);
            && s == Ret(if ref in w.services then Apply(w, Read)
                        else Apply(Apply(w, Read), ServiceCreated(ref, BuildService(c, r, index))), Fine)
            && Grows(w, s.w) && Still(env, s.w) && ref in s.w.services && s.w.pods == w.pods
  {
    var w1 := Apply(w, Read);
    StillTick(env, w);
    StillLater(env, w, w1);
    StillTick(env, w1);
    StillLater(env, w, SyncServiceAt(env, w, c, r, index).w);
  }

  ghost predicate Served(w: World, c: Ctx, r: ReplicaSpec, index: int)
  {
    forall i: nat :: index <= i < Size(r) ==> RefOf(c, r.typ, i) in w.services
  }

  ghost predicate Serving(env: Env, w0: World, w: World)
  {
    Still(env, w) && Grows(w0, w) && w.pods == w0.pods
  }

  predicate HasService(w: World, c: Ctx, r: ReplicaSpec, i: int)
  {
    RefOf(c, r.typ, i) in w.services
  }

  lemma ServiceLoopServes(env: Env, w: World, c: Ctx, r: ReplicaSpec, inv: World -> bool, done: (World, nat) -> bool)
    requires forall v :: inv(v) == Serving(env, w, v)
    requires forall v: World, i: nat :: done(v, i) == HasService(v, c, r, i)
    ensures Carries(ServiceTurn(env, c, r), Size(r), inv, done, {Fine})
  {
    var turn := ServiceTurn(env, c, r);
    forall v: World, k: nat | inv(v)
      ensures inv(turn(v, k).w) && turn(v, k).v == Fine && done(turn(v, k).w, k) && Grows(v, turn(v, k).w)
    {
      CalmSyncServiceAt(env, v, c, r, k);
      GrowsTrans(w, v, turn(v, k).w);
    }
  }

  lemma CalmSyncServices(env: Env, w: World, c: Ctx, r: ReplicaSpec)
    requires Still(env, w)
    ensures var s := SyncServices(env, w, c, r);
            s.v == Fine && Grows(w, s.w) && Still(env, s.w) && s.w.pods == w.pods && Served(s.w, c, r, 0)
  {
    var turn := ServiceTurn(env, c, r);
    var inv, done := (v: World) => Serving(env, w, v), (v: World, i: nat) => HasService(v, c, r, i);
    ServiceLoopServes(env, w, c, r, inv, done);
    LoopCarries(turn, w, 0, Size(r), inv, done, {Fine});
    var s := SyncServices(env, w, c, r);
    forall i: nat | i < Size(r)
      ensures RefOf(c, r.typ, i) in s.w.services
    {
      assert done(s.w, i);
    }
  }

  lemma {:induction false} CalmSyncAllServices(env: Env, w: World, c: Ctx, k: nat)
    requires k <= |c.replicas| && Still(env, w)
    ensures var s := SyncAllServices(env, w, c, k);
            && Grows(w, s) && Still(env, s) && s.pods == w.pods
            && forall j :: k <= j < |c.replicas| ==> Served(s, c, c.replicas[j], 0)
    decreases |c.replicas| - k
  {
    if k < |c.replicas| {
      var one, s := SyncServices(env, w, c, c.replicas[k]), SyncAllServices(env, w, c, k);
      CalmSyncServices(env, w, c, c.replicas[k]);
      CalmSyncAllServices(env, one.w, c, k + 1);
      GrowsTrans(w, one.w, s);
    }
  }

  // ---------------------------------------------------------------- the second time

  // Only reads: the store is the same.
  predicate Idle(w: World, w': World)
  {
    && w.trace <= w'.trace && (forall e <- Since(w, w') :: e == Read)
    && w' == w.(trace := w'.trace)
  }

  lemma IdleTrans(w: World, w1: World, w2: World)
    requires Idle(w, w1) && Idle(w1, w2)
    ensures Idle(w, w2)
  {
    SinceConcat(w, w1, w2);
  }

  lemma IdleRead(w: World)
    ensures Idle(w, Apply(w, Read)) && Idle(w, w)
  {
    assert Since(w, Apply(w, Read)) == [Read] && Since(w, w) == [];
  }

  // All replicas of the job have a live pod and a service.
  ghost predicate Settled(w: World, c: Ctx)
  {
    forall k :: 0 <= k < |c.replicas| ==>
      c.replicas[k].replicas.Some? && Populated(w, c, c.replicas[k], 0) && Served(w, c, c.replicas[k], 0)
  }

  lemma SettledPodAt(env: Env, w: World, c: Ctx, r: ReplicaSpec, index: int)
    requires Still(env, w) && Live(w, c.ref.ns, LabelsOf(c, r.typ, index)) != {}
    ensures var s := SyncPodAt(env, w, c, r, index); s.v == Fine && Idle(w, s.w)
  {
    CalmSyncPodAt(env, w, c, r, index);
    IdleRead(w);
    IdleRead(Apply(w, Read));
    IdleTrans(w, Apply(w, Read), AfterReads(w));
  }

  lemma PopulatedIdle(w: World, w': World, c: Ctx, r: ReplicaSpec, index: int)
    requires w'.pods == w.pods && Populated(w, c, r, index)
    ensures Populated(w', c, r, index)
  {
    forall i: nat | index <= i < Size(r)
      ensures Live(w', c.ref.ns, LabelsOf(c, r.typ, i)) != {}
    {
      assert Live(w', c.ref.ns, LabelsOf(c, r.typ, i)) == Live(w, c.ref.ns, LabelsOf(c, r.typ, i));
    }
  }

  ghost predicate Idling(env: Env, w0: World, w: World)
  {
    Still(env, w) && Idle(w0, w)
  }

  lemma SettledPods(env: Env, w: World, c: Ctx, r: ReplicaSpec)
    requires Still(env, w) && r.replicas.Some? && Populated(w, c, r, 0)
    ensures var s := SyncPods(env, w, c, r); s.v == Fine && Idle(w, s.w)
  {
    var turn := PodTurn(env, c, r);
    var inv, done := (v: World) => Idling(env, w, v), (v: World, i: nat) => true;
    IdleRead(w);
    forall v: World, i: nat | i < Size(r) && inv(v)
      ensures inv(turn(v, i).w) && turn(v, i).v == Fine
    {
      assert Live(w, c.ref.ns, LabelsOf(c, r.typ, i)) != {};
      assert Live(v, c.ref.ns, LabelsOf(c, r.typ, i)) == Live(w, c.ref.ns, LabelsOf(c, r.typ, i));
      SettledPodAt(env, v, c, r, i);
      StillLater(env, v, turn(v, i).w);
      IdleTrans(w, v, turn(v, i).w);
    }
    assert Carries(turn, Size(r), inv, done, {Fine});
    LoopCarries(turn, w, 0, Size(r), inv, done, {Fine});
  }

  lemma SettledIdle(w: World, w': World, c: Ctx)
    requires Settled(w, c) && w'.pods == w.pods && w'.services == w.services
    ensures Settled(w', c)
  {
    forall k | 0 <= k < |c.replicas|
      ensures Populated(w', c, c.replicas[k], 0) && Served(w', c, c.replicas[k], 0)
    {
      assert Populated(w, c, c.replicas[k], 0) && Served(w, c, c.replicas[k], 0);
      PopulatedIdle(w, w', c, c.replicas[k], 0);
    }
  }

  lemma {:induction false} SettledAllPods(env: Env, w: World, c: Ctx, k: nat)
    requires Still(env, w) && Settled(w, c) && k <= |c.replicas|
    ensures var s := SyncAllPods(env, w, c, k); s.v == Fine && Idle(w, s.w)
    decreases |c.replicas| - k
  {
    IdleRead(w);
    if k < |c.replicas| {
      var one := SyncPods(env, w, c, c.replicas[k]);
      SettledPods(env, w, c, c.replicas[k]);
      StillLater(env, w, one.w);
      SettledIdle(w, one.w, c);
      SettledAllPods(env, one.w, c, k + 1);
      IdleTrans(w, one.w, SyncAllPods(env, w, c, k).w);
    }
  }

  lemma SettledServices(env: Env, w: World, c: Ctx, r: ReplicaSpec)
    requires Still(env, w) && Served(w, c, r, 0)
    ensures Idle(w, SyncServices(env, w, c, r).w)
  {
    var turn := ServiceTurn(env, c, r);
    var inv, done := (v: World) => Idling(env, w, v), (v: World, i: nat) => true;
    IdleRead(w);
    forall v: World, i: nat | i < Size(r) && inv(v)
      ensures inv(turn(v, i).w) && turn(v, i).v == Fine
    {
      CalmSyncServiceAt(env, v, c, r, i);
      IdleRead(v);
      IdleTrans(w, v, turn(v, i).w);
    }
    assert Carries(turn, Size(r), inv, done, {Fine});
    LoopCarries(turn, w, 0, Size(r), inv, done, {Fine});
  }

  lemma {:induction false} SettledAllServices(env: Env, w: World, c: Ctx, k: nat)
    requires Still(env, w) && Settled(w, c) && k <= |c.replicas|
    ensures var s := SyncAllServices(env, w, c, k); Idle(w, s)
    decreases |c.replicas| - k
  {
    IdleRead(w);
    if k < |c.replicas| {
      var one := SyncServices(env, w, c, c.replicas[k]);
      SettledServices(env, w, c, c.replicas[k]);
      StillLater(env, w, one.w);
      SettledIdle(w, one.w, c);
      SettledAllServices(env, one.w, c, k + 1);
      IdleTrans(w, one.w, SyncAllServices(env, w, c, k));
    }
  }

  // ---------------------------------------------------------------- reading

  // The replica's state, as a function of the pods alone.
  function StateFromPods(env: Env, pods: map<Ref, Pod>, c: Ctx, r: ReplicaSpec, index: int): ReplicaState
  {
    var ref := RefOf(c, r.typ, index);
    if ref !in pods then ReplicaUnknown
    else if pods[ref].phase == PodSucceeded then ReplicaSucceeded
    else
      var w := World(pods, map[], {}, map[], []);
      ListedState(PodsAt(w, env.listing(Selected(w, c.ref.ns, LabelsOf(c, r.typ, index), false))), DEFAULT_CONTAINER)
  }

  lemma {:induction false} PodsAtSame(w: World, w': World, refs: seq<Ref>)
    requires w.pods == w'.pods
    ensures PodsAt(w, refs) == PodsAt(w', refs)
  {
    if refs != [] {
      PodsAtSame(w, w', refs[1..]);
    }
  }

  lemma CalmRead(env: Env, w: World, c: Ctx, r: ReplicaSpec, index: int)
    requires Still(env, w)
    ensures var s := ReadReplica(env, w, c, r, index);
            Idle(w, s.w) && Still(env, s.w) && s.v == StateFromPods(env, w.pods, c, r, index)
  {
    var w1 := Apply(w, Read);
    StillTick(env, w);
    StillLater(env, w, w1);
    StillTick(env, w1);
    IdleRead(w);
    IdleRead(w1);
    IdleTrans(w, w1, Apply(w1, Read));
    StillLater(env, w, Apply(w1, Read));
    var labels := LabelsOf(c, r.typ, index);
    var w0 := World(w.pods, map[], {}, map[], []);
    assert Selected(w1, c.ref.ns, labels, false) == Selected(w0, c.ref.ns, labels, false);
    PodsAtSame(w1, w0, env.listing(Selected(w0, c.ref.ns, labels, false)));
  }

  // The states of the replicas of a set from `index` on.
  function StatesFromPods(env: Env, pods: map<Ref, Pod>, c: Ctx, r: ReplicaSpec, index: nat): seq<ReplicaState>
  {
    seq(if index < Size(r) then Size(r) - index else 0, (i: int) => StateFromPods(env, pods, c, r, index + i))
  }

  lemma StatesFirst(env: Env, pods: map<Ref, Pod>, c: Ctx, r: ReplicaSpec, index: nat)
    requires index < Size(r)
    ensures StatesFromPods(env, pods, c, r, index)
         == [StateFromPods(env, pods, c, r, index)] + StatesFromPods(env, pods, c, r, index + 1)
  {
    var all, rest := StatesFromPods(env, pods, c, r, index), StatesFromPods(env, pods, c, r, index + 1);
    forall i | 0 <= i < |rest|
      ensures all[i + 1] == rest[i]
    {
      assert index + (i + 1) == (index + 1) + i;
    }
  }

  lemma {:induction false} CalmReadSet(env: Env, w: World, c: Ctx, r: ReplicaSpec, index: nat)
    requires Still(env, w)
    ensures var s := ReadSet(env, w, c, r, index);
            Idle(w, s.w) && Still(env, s.w) && s.v == StatesFromPods(env, w.pods, c, r, index)
    decreases Size(r) - index
  {
    IdleRead(w);
    if index < Size(r) {
      var one := ReadReplica(env, w, c, r, index);
      CalmRead(env, w, c, r, index);
      CalmReadSet(env, one.w, c, r, index + 1);
      StatesFirst(env, w.pods, c, r, index);
      IdleTrans(w, one.w, ReadSet(env, w, c, r, index).w);
    }
  }

  function ReadingFromPods(env: Env, pods: map<Ref, Pod>, c: Ctx, chief: Chief, k: nat,
                           chiefState: ReplicaState): Reading
    requires k <= |c.replicas|
    decreases |c.replicas| - k
  {
    if k == |c.replicas| then Reading(chiefState, [])
    else
      var r := c.replicas[k];
      var own := if r.typ == chief.name then StateFromPods(env, pods, c, r, ToInt32(chief.index)) else chiefState;
      var rest := ReadingFromPods(env, pods, c, chief, k + 1, own);
      Reading(rest.chief, [StatusOf(r.typ, StatesFromPods(env, pods, c, r, 0))] + rest.statuses)
  }

  lemma {:induction false} CalmReadAll(env: Env, w: World, c: Ctx, chief: Chief, k: nat, chiefState: ReplicaState)
    requires Still(env, w) && k <= |c.replicas|
    ensures var s := ReadAll(env, w, c, chief, k, chiefState);
            Idle(w, s.w) && Still(env, s.w) && s.v == ReadingFromPods(env, w.pods, c, chief, k, chiefState)
    decreases |c.replicas| - k
  {
    IdleRead(w);
    if k < |c.replicas| {
      var r := c.replicas[k];
      var states := ReadSet(env, w, c, r, 0);
      CalmReadSet(env, w, c, r, 0);
      var own := ReadChief(env, states.w, c, r, chief, chiefState);
      if r.typ == chief.name {
        CalmRead(env, states.w, c, r, ToInt32(chief.index));
        IdleTrans(w, states.w, own.w);
      }
      CalmReadAll(env, own.w, c, chief, k + 1, own.v);
      IdleTrans(w, own.w, ReadAll(env, w, c, chief, k, chiefState).w);
    }
  }
}
