/** Teardown undoes creation: in calm, creating a job's pods and services and then deleting its
resources puts the pod and service maps back exactly as they were. */
module Teardown {
  import opened Api
  import opened Naming
  import opened Store
  import opened Loops
  import opened Replicas
  import opened Training
  import opened Passes
  import opened CalmPasses
  import opened Rendezvous

  // No pod of the store is matched by the selector of a replica set of the job, and no service
  // has one of the job's names.
  ghost predicate Untouched(w: World, c: Ctx)
  {
    && (forall k :: 0 <= k < |c.replicas| ==> Matched(w, c, c.replicas[k].typ) == {})
    && w.services.Keys !! RefsFrom(c, 0)
  }

  // The pods the selector of a whole replica set matches.
  function Matched(w: World, c: Ctx, typ: string): set<Ref>
  {
    Selected(w, c.ref.ns, SetLabels(c.ref.name, c.spec.runtimeId, typ), false)
  }

  ghost predicate TypesDistinct(c: Ctx)
  {
    && (forall k :: 0 <= k < |c.replicas| ==> ValidType(c.replicas[k].typ))
    && (forall k, l :: 0 <= k < l < |c.replicas| ==> c.replicas[k].typ != c.replicas[l].typ)
  }

  // ---------------------------------------------------------------- what is left after deleting sets k..

  // The pods of w0, plus pods of the sets from k on.
  ghost predicate PodsLeft(w0: World, w: World, c: Ctx, k: nat)
  {
    && (forall ref <- w0.pods :: ref in w.pods && w.pods[ref] == w0.pods[ref])
    && (forall ref <- w.pods :: ref !in w0.pods ==>
          exists j :: k <= j < |c.replicas| && ref in Matched(w, c, c.replicas[j].typ))
  }

  function ServiceRefs(c: Ctx, typ: string, size: int, index: nat): set<Ref>
  {
    set i: int | index <= i < size :: RefOf(c, typ, i)
  }

  // The services of the sets from k on.
  function RefsFrom(c: Ctx, k: nat): set<Ref>
    decreases |c.replicas| - k
  {
    if k >= |c.replicas| then {} else ServiceRefs(c, c.replicas[k].typ, Size(c.replicas[k]), 0) + RefsFrom(c, k + 1)
  }

  // The services of w0, plus all services of the sets from k on.
  ghost predicate ServicesLeft(w0: World, w: World, c: Ctx, k: nat)
  {
    && w.services.Keys == w0.services.Keys + RefsFrom(c, k)
    && (forall ref <- w0.services :: w.services[ref] == w0.services[ref])
  }

  ghost predicate LeftOver(w0: World, w: World, c: Ctx, k: nat)
  {
    PodsLeft(w0, w, c, k) && ServicesLeft(w0, w, c, k)
  }

  lemma CalmDeletePods(env: Env, w: World, c: Ctx, typ: string)
    requires Still(env, w)
    ensures var s := DeletePods(env, w, c.ref.ns, SetLabels(c.ref.name, c.spec.runtimeId, typ));
            && s.v && Still(env, s.w) && w.trace <= s.w.trace
            && s.w == w.(pods := w.pods - Matched(w, c, typ), trace := s.w.trace)
  {
    StillTick(env, w);
    StillLater(env, w, DeletePods(env, w, c.ref.ns, SetLabels(c.ref.name, c.spec.runtimeId, typ)).w);
  }

  lemma CalmDeleteService(env: Env, w: World, ref: Ref)
    requires Still(env, w) && ref in w.services
    ensures var s := DeleteService(env, w, ref);
            && s.v && Still(env, s.w) && w.trace <= s.w.trace
            && s.w == w.(services := w.services - {ref}, trace := s.w.trace)
  {
    StillTick(env, w);
    StillLater(env, w, DeleteService(env, w, ref).w);
  }

  lemma ServedWithout(w: World, w': World, c: Ctx, r: ReplicaSpec, index: nat)
    requires index < Size(r) && Served(w, c, r, index) && ValidType(r.typ)
    requires w'.services == w.services - {RefOf(c, r.typ, index)}
    ensures Served(w', c, r, index + 1)
  {
    forall i: nat | index + 1 <= i < Size(r)
      ensures RefOf(c, r.typ, i) in w'.services
    {
      assert RefOf(c, r.typ, i) in w.services;
      if RefOf(c, r.typ, i) == RefOf(c, r.typ, index) {
        GenNameInjectiveWithinJob(c.ref.name, c.spec.runtimeId, r.typ, i, r.typ, index);
      }
    }
  }

  lemma ServiceRefsFirst(c: Ctx, typ: string, size: int, index: nat)
    requires index < size
    ensures ServiceRefs(c, typ, size, index) == {RefOf(c, typ, index)} + ServiceRefs(c, typ, size, index + 1)
  {}

  lemma MinusFirst(m: map<Ref, Service>, ref: Ref, rest: set<Ref>)
    ensures m - ({ref} + rest) == (m - {ref}) - rest
  {}

  lemma {:induction false} CalmDeleteServices(env: Env, w: World, c: Ctx, r: ReplicaSpec, index: nat)
    requires Still(env, w) && Served(w, c, r, index) && ValidType(r.typ)
    ensures var s := DeleteServices(env, w, c, r, index);
            && s.v && Still(env, s.w) && w.trace <= s.w.trace
            && s.w == w.(services := w.services - ServiceRefs(c, r.typ, Size(r), index), trace := s.w.trace)
    decreases Size(r) - index
  {
    if index < Size(r) {
      var ref := RefOf(c, r.typ, index);
      assert ref in w.services;
      var one := DeleteService(env, w, ref);
      CalmDeleteService(env, w, ref);
      ServedWithout(w, one.w, c, r, index);
      CalmDeleteServices(env, one.w, c, r, index + 1);
      ServiceRefsFirst(c, r.typ, Size(r), index);
      MinusFirst(w.services, ref, ServiceRefs(c, r.typ, Size(r), index + 1));
    } else {
      assert ServiceRefs(c, r.typ, Size(r), index) == {};
      assert w.services - {} == w.services;
    }
  }

  lemma CalmDeleteConfigMap(env: Env, w: World, c: Ctx)
    requires Still(env, w)
    ensures var s := DeleteDefaultConfigMap(env, w, c);
            && s.v && Still(env, s.w) && w.trace <= s.w.trace
            && s.w == w.(configMaps := w.configMaps - {ConfigMapRef(c)}, trace := s.w.trace)
  {
    var w1 := Apply(w, Read);
    StillTick(env, w);
    assert GetConfigMap(env, w, ConfigMapRef(c)).w == w1;
    StillLater(env, w, w1);
    StillTick(env, w1);
    StillLater(env, w, DeleteDefaultConfigMap(env, w, c).w);
  }

  lemma CalmDeleteSet(env: Env, w: World, c: Ctx, r: ReplicaSpec)
    requires Still(env, w) && Served(w, c, r, 0) && ValidType(r.typ)
    ensures var s := DeleteSet(env, w, c, r);
            && s.v && Still(env, s.w) && w.trace <= s.w.trace
            && s.w == w.(pods := w.pods - Matched(w, c, r.typ),
                         services := w.services - ServiceRefs(c, r.typ, Size(r), 0),
                         configMaps := w.configMaps - {ConfigMapRef(c)}, trace := s.w.trace)
  {
    var selector := SetLabels(c.ref.name, c.spec.runtimeId, r.typ);
    var first := DeletePods(env, w, c.ref.ns, selector);
    CalmDeletePods(env, w, c, r.typ);
    var second := DeletePods(env, first.w, c.ref.ns, selector);
    CalmDeletePods(env, first.w, c, r.typ);
    assert Matched(first.w, c, r.typ) == {};
    assert second.w.pods == first.w.pods;
    CalmDeleteServices(env, second.w, c, r, 0);
    var services := DeleteServices(env, second.w, c, r, 0);
    CalmDeleteConfigMap(env, services.w, c);
  }

  lemma PodsShrink(w0: World, w: World, w': World, c: Ctx, k: nat)
    requires k < |c.replicas| && PodsLeft(w0, w, c, k) && Untouched(w0, c)
    requires w'.pods == w.pods - Matched(w, c, c.replicas[k].typ)
    ensures PodsLeft(w0, w', c, k + 1)
  {
    var typ := c.replicas[k].typ;
    forall ref | ref in w0.pods
      ensures ref in w'.pods && w'.pods[ref] == w0.pods[ref]
    {
      assert ref !in Matched(w0, c, typ);
    }
    forall ref | ref in w'.pods && ref !in w0.pods
      ensures exists j :: k + 1 <= j < |c.replicas| && ref in Matched(w', c, c.replicas[j].typ)
    {
      var j :| k <= j < |c.replicas| && ref in Matched(w, c, c.replicas[j].typ);
      assert j != k && ref in Matched(w', c, c.replicas[j].typ);
    }
  }

  // No two replicas of the job have services of one name.
  lemma ServiceNamesDistinct(c: Ctx, j: nat, i: nat, k: nat)
    requires j < |c.replicas| && k < |c.replicas| && j != k && TypesDistinct(c)
    ensures RefOf(c, c.replicas[j].typ, i) !in ServiceRefs(c, c.replicas[k].typ, Size(c.replicas[k]), 0)
  {
    forall l: nat
      ensures RefOf(c, c.replicas[j].typ, i) != RefOf(c, c.replicas[k].typ, l)
    {
      if RefOf(c, c.replicas[j].typ, i) == RefOf(c, c.replicas[k].typ, l) {
        GenNameInjectiveWithinJob(c.ref.name, c.spec.runtimeId, c.replicas[j].typ, i, c.replicas[k].typ, l);
      }
    }
  }

  lemma {:induction false} RefsFromHas(c: Ctx, k: nat, j: nat, i: nat)
    requires k <= j < |c.replicas| && i < Size(c.replicas[j])
    ensures RefOf(c, c.replicas[j].typ, i) in RefsFrom(c, k)
    decreases j - k
  {
    if k < j {
      RefsFromHas(c, k + 1, j, i);
    }
  }

  lemma {:induction false} RefsFromOnly(c: Ctx, k: nat, ref: Ref) returns (j: nat, i: nat)
    requires ref in RefsFrom(c, k)
    ensures k <= j < |c.replicas| && i < Size(c.replicas[j]) && ref == RefOf(c, c.replicas[j].typ, i)
    decreases |c.replicas| - k
  {
    if ref in ServiceRefs(c, c.replicas[k].typ, Size(c.replicas[k]), 0) {
      j := k;
      i :| i < Size(c.replicas[k]) && ref == RefOf(c, c.replicas[k].typ, i);
    } else {
      j, i := RefsFromOnly(c, k + 1, ref);
    }
  }

  lemma RefsDisjoint(c: Ctx, k: nat)
    requires k < |c.replicas| && TypesDistinct(c)
    ensures ServiceRefs(c, c.replicas[k].typ, Size(c.replicas[k]), 0) !! RefsFrom(c, k + 1)
  {
    forall ref | ref in RefsFrom(c, k + 1)
      ensures ref !in ServiceRefs(c, c.replicas[k].typ, Size(c.replicas[k]), 0)
    {
      var j, i := RefsFromOnly(c, k + 1, ref);
      ServiceNamesDistinct(c, j, i, k);
    }
  }

  lemma ServicesShrink(w0: World, w: World, w': World, c: Ctx, k: nat)
    requires k < |c.replicas| && ServicesLeft(w0, w, c, k) && TypesDistinct(c)
    requires w0.services.Keys !! RefsFrom(c, k)
    requires w'.services == w.services - ServiceRefs(c, c.replicas[k].typ, Size(c.replicas[k]), 0)
    ensures ServicesLeft(w0, w', c, k + 1)
  {
    RefsDisjoint(c, k);
    var gone, rest := ServiceRefs(c, c.replicas[k].typ, Size(c.replicas[k]), 0), RefsFrom(c, k + 1);
    assert w'.services.Keys == w.services.Keys - gone == w0.services.Keys + rest;
  }

  // Deleting set k in calm.
  lemma CalmDeleteNext(env: Env, w0: World, w: World, c: Ctx, k: nat)
    requires k < |c.replicas| && Still(env, w) && LeftOver(w0, w, c, k) && Untouched(w0, c) && TypesDistinct(c)
    requires w0.services.Keys !! RefsFrom(c, k)
    ensures var s := DeleteSet(env, w, c, c.replicas[k]);
            && s.v && Still(env, s.w) && LeftOver(w0, s.w, c, k + 1) && s.w.jobs == w.jobs
            && s.w.configMaps == w.configMaps - {ConfigMapRef(c)}
  {
    var r := c.replicas[k];
    forall i: nat | i < Size(r)
      ensures RefOf(c, r.typ, i) in w.services
    {
      RefsFromHas(c, k, k, i);
    }
    var one := DeleteSet(env, w, c, r);
    CalmDeleteSet(env, w, c, r);
    PodsShrink(w0, w, one.w, c, k);
    ServicesShrink(w0, w, one.w, c, k);
  }

  lemma {:induction false} CalmDeleteAll(env: Env, w0: World, w: World, c: Ctx, k: nat)
    requires k <= |c.replicas| && Still(env, w) && LeftOver(w0, w, c, k) && Untouched(w0, c) && TypesDistinct(c)
    requires w0.services.Keys !! RefsFrom(c, k)
    ensures var s := DeleteAll(env, w, c, k);
            && s.v && s.w.pods == w0.pods && s.w.services == w0.services && s.w.jobs == w.jobs
            && s.w.configMaps == if k == |c.replicas| then w.configMaps else w.configMaps - {ConfigMapRef(c)}
    decreases |c.replicas| - k
  {
    if k < |c.replicas| {
      CalmDeleteNext(env, w0, w, c, k);
      CalmDeleteAll(env, w0, DeleteSet(env, w, c, c.replicas[k]).w, c, k + 1);
    }
  }

  /** For replica sets of distinct types and a store without pods or services of the job, a calm
  creation of all pods and services followed by deleteResources reports no failure and restores
  both maps exactly, everybody else's objects included; a config map of the job is deleted. */
  lemma TeardownUndoesCreation(env: Env, w: World, c: Ctx)
    requires Still(env, w) && Untouched(w, c) && TypesDistinct(c)
    ensures var made := Synced(env, w, c);
            var gone := DeleteAll(env, made, c, 0);
            && gone.v && gone.w.pods == w.pods && gone.w.services == w.services
            && gone.w.configMaps == if c.replicas == [] then w.configMaps else w.configMaps - {ConfigMapRef(c)}
  {
    var made := Synced(env, w, c);
    SyncedStore(env, w, c);
    assert LeftOver(w, made, c, 0) by {
      forall ref | ref in made.pods && ref !in w.pods
        ensures exists j :: 0 <= j < |c.replicas| && ref in Matched(made, c, c.replicas[j].typ)
      {
        var k, i := NewPodIsOurs(c, w, made, ref);
        TaskSelectorsDisjoint(c.ref.name, c.spec.runtimeId, c.replicas[k].typ, 0,
                              c.ref.name, c.spec.runtimeId, c.replicas[k].typ, i);
        assert ref in Matched(made, c, c.replicas[k].typ);
      }
      forall ref | ref in made.services && ref !in w.services
        ensures ref in RefsFrom(c, 0)
      {
        var k, i := NewServiceIsOurs(c, w, made, ref);
        RefsFromHas(c, 0, k, i);
      }
      forall ref | ref in RefsFrom(c, 0)
        ensures ref in made.services
      {
        var j, i := RefsFromOnly(c, 0, ref);
        assert Served(made, c, c.replicas[j], 0);
      }
    }
    CalmDeleteAll(env, w, made, c, 0);
  }

  // ---------------------------------------------------------------- deleting when calls fail

  // Between two worlds of one run no delete was turned away or left unanswered, and no read failed.
  ghost predicate NoneFailed(env: Env, w: World, w': World)
  {
    forall n :: |w.trace| <= n < |w'.trace| ==>
      && w'.trace[n] != Refused(DeleteVerb) && w'.trace[n] != Unanswered(DeleteVerb)
      && (w'.trace[n] == Read ==> !env.readFails(n))
  }

  lemma NoneFailedThen(env: Env, w: World, w1: World, w2: World)
    requires w.trace <= w1.trace && w1.trace <= w2.trace
    ensures w.trace <= w2.trace && (NoneFailed(env, w, w2) <==> NoneFailed(env, w, w1) && NoneFailed(env, w1, w2))
  {
    assert forall n :: 0 <= n < |w1.trace| ==> w1.trace[n] == w2.trace[n];
  }

  // The deletes tried.
  function Tries(es: seq<Event>): nat
  {
    if es == [] then 0
    else
      (if es[0].PodsDeleted? || es[0].ServiceDeleted? || es[0].ConfigMapDeleted? || es[0] == Refused(DeleteVerb)
       then 1 else 0) + Tries(es[1..])
  }

  lemma {:induction false} TriesConcat(a: seq<Event>, b: seq<Event>)
    ensures Tries(a + b) == Tries(a) + Tries(b)
  {
    if a == [] {
      assert a + b == b;
    } else {
      assert (a + b)[1..] == a[1..] + b;
      TriesConcat(a[1..], b);
    }
  }

  lemma TriesThen(w: World, w1: World, w2: World)
    requires w.trace <= w1.trace && w1.trace <= w2.trace
    ensures Tries(Since(w, w2)) == Tries(Since(w, w1)) + Tries(Since(w1, w2))
  {
    SinceConcat(w, w1, w2);
    TriesConcat(Since(w, w1), Since(w1, w2));
  }

  lemma {:induction false} MovesFail(env: Env, w: World, ms: seq<Move>)
    ensures w.trace <= MoveAll(w, ms).trace && NoneFailed(env, w, MoveAll(w, ms))
    ensures Tries(Since(w, MoveAll(w, ms))) == 0
    decreases |ms|
  {
    if ms == [] {
      assert Since(w, w) == [];
    } else {
      var w1 := Apply(w, Moved(ms[0]));
      MovesFail(env, w1, ms[1..]);
      assert Since(w, w1) == [Moved(ms[0])] && [Moved(ms[0])][1..] == [];
      TriesThen(w, w1, MoveAll(w, ms));
      NoneFailedThen(env, w, w1, MoveAll(w, ms));
    }
  }

  // A call that has added these events to the trace, tried so many deletes, and failed just if so noted.
  ghost predicate Noted(env: Env, w: World, w': World, ok: bool, tries: nat)
  {
    w.trace <= w'.trace && (ok <==> NoneFailed(env, w, w')) && Tries(Since(w, w')) == tries
  }

  lemma NotedThen(env: Env, w: World, w1: World, w2: World, ok1: bool, ok2: bool, n1: nat, n2: nat)
    requires Noted(env, w, w1, ok1, n1) && Noted(env, w1, w2, ok2, n2)
    ensures Noted(env, w, w2, ok1 && ok2, n1 + n2)
  {
    NoneFailedThen(env, w, w1, w2);
    TriesThen(w, w1, w2);
  }

  lemma WriteIsNoted(env: Env, w1: World, allowed: bool, e: Event)
    requires e.PodsDeleted? || e.ServiceDeleted? || e.ConfigMapDeleted?
    ensures var s := Write(env, w1, allowed, DeleteVerb, e); Noted(env, w1, s.w, s.v, 1)
  {
    var s := Write(env, w1, allowed, DeleteVerb, e);
    var es := Since(w1, s.w);
    assert Tries([]) == 0;
    if env.reply(|w1.trace|) == Rejected || !allowed {
      assert es == [Refused(DeleteVerb)] && es[1..] == [];
      assert s.w.trace[|w1.trace|] == Refused(DeleteVerb);
    } else if env.reply(|w1.trace|) == Lost {
      assert es == [e, Unanswered(DeleteVerb)] && es[1..] == [Unanswered(DeleteVerb)] && es[1..][1..] == [];
      assert s.w.trace[|w1.trace| + 1] == Unanswered(DeleteVerb);
    } else {
      assert es == [e] && es[1..] == [];
    }
  }

  lemma DeleteIsNoted(env: Env, w: World, allowed: bool, e: Event)
    requires e.PodsDeleted? || e.ServiceDeleted? || e.ConfigMapDeleted?
    ensures var s := Write(env, Tick(env, w), allowed, DeleteVerb, e); Noted(env, w, s.w, s.v, 1)
  {
    var w1 := Tick(env, w);
    MovesFail(env, w, env.moves(|w.trace|));
    WriteIsNoted(env, w1, allowed, e);
    var done := Write(env, w1, allowed, DeleteVerb, e);
    NotedThen(env, w, w1, done.w, true, done.v, 0, 1);
  }

  lemma {:induction false} DeleteServicesNoted(env: Env, w: World, c: Ctx, r: ReplicaSpec, index: nat)
    ensures var s := DeleteServices(env, w, c, r, index);
            Noted(env, w, s.w, s.v, if index < Size(r) then Size(r) - index else 0)
    decreases Size(r) - index
  {
    if index >= Size(r) {
      assert Since(w, w) == [];
    } else {
      var ref := RefOf(c, r.typ, index);
      var one := DeleteService(env, w, ref);
      var rest := DeleteServices(env, one.w, c, r, index + 1);
      DeleteIsNoted(env, w, ref in Tick(env, w).services, ServiceDeleted(ref));
      DeleteServicesNoted(env, one.w, c, r, index + 1);
      NotedThen(env, w, one.w, rest.w, one.v, rest.v, 1, if index + 1 < Size(r) then Size(r) - index - 1 else 0);
    }
  }

  lemma ConfigMapNoted(env: Env, w: World, c: Ctx)
    ensures var s := DeleteDefaultConfigMap(env, w, c);
            var w1 := Tick(env, w);
            var found := !env.readFails(|w1.trace|) && Ref(c.ref.ns, "cm-ps-" + c.spec.runtimeId) in w1.configMaps;
            Noted(env, w, s.w, s.v, if found then 1 else 0)
  {
    var w1, got := Tick(env, w), GetConfigMap(env, w, ConfigMapRef(c));
    MovesFail(env, w, env.moves(|w.trace|));
    assert Since(w1, got.w) == [Read] && [Read][1..] == [];
    assert got.w.trace[|w1.trace|] == Read;
    assert Noted(env, w1, got.w, !env.readFails(|w1.trace|), 0);
    NotedThen(env, w, w1, got.w, true, !env.readFails(|w1.trace|), 0, 0);
    if got.v == Found {
      var ref := ConfigMapRef(c);
      DeleteIsNoted(env, got.w, ref in Tick(env, got.w).configMaps, ConfigMapDeleted(ref));
      var s := DeleteConfigMap(env, got.w, ref);
      NotedThen(env, w, got.w, s.w, true, s.v, 0, 1);
    }
  }

  /** Deleting a set, in every environment: it reports a failure exactly if one of its deletes was turned
  away or not answered, or the config map could not be read; and whatever fails it tries the pods
  twice, every service once, and the config map if it is there. */
  lemma DeleteSetReports(env: Env, w: World, c: Ctx, r: ReplicaSpec)
    ensures var s, n := DeleteSet(env, w, c, r), if Size(r) > 0 then Size(r) else 0;
            && w.trace <= s.w.trace && (s.v <==> NoneFailed(env, w, s.w))
            && 2 + n <= Tries(Since(w, s.w)) <= 3 + n
  {
    var selector := SetLabels(c.ref.name, c.spec.runtimeId, r.typ);
    var n := if Size(r) > 0 then Size(r) else 0;
    var first := DeletePods(env, w, c.ref.ns, selector);
    var second := DeletePods(env, first.w, c.ref.ns, selector);
    var services := DeleteServices(env, second.w, c, r, 0);
    DeleteIsNoted(env, w, true, PodsDeleted(c.ref.ns, selector));
    DeleteIsNoted(env, first.w, true, PodsDeleted(c.ref.ns, selector));
    NotedThen(env, w, first.w, second.w, first.v, second.v, 1, 1);
    DeleteServicesNoted(env, second.w, c, r, 0);
    NotedThen(env, w, second.w, services.w, first.v && second.v, services.v, 2, n);
    ConfigMapNoted(env, services.w, c);
    var cm := DeleteDefaultConfigMap(env, services.w, c);
    NotedThen(env, w, services.w, cm.w, first.v && second.v && services.v, cm.v, 2 + n, Tries(Since(services.w, cm.w)));
  }

  function DeletionOfSet(env: Env, c: Ctx): (World, nat) -> Ret<bool>
  {
    (w: World, i: nat) => if i < |c.replicas| then DeleteSet(env, w, c, c.replicas[i]) else Ret(w, true)
  }

  /** deleteResources deletes set after set, up to and including the first that reports a failure, and
  reports that. */
  lemma {:induction false} DeletesInTurn(env: Env, w: World, c: Ctx, k: nat) returns (ws: seq<World>)
    requires k <= |c.replicas|
    ensures var s, turn := DeleteAll(env, w, c, k), DeletionOfSet(env, c);
            && GoesThrough(turn, ws, k) && AllBefore(turn, ws, k, true) && ws[0] == w && ws[|ws| - 1] == s.w
            && s.v == LastOutcome(turn, ws, k, true) && (s.v ==> |ws| - 1 == |c.replicas| - k)
    decreases |c.replicas| - k
  {
    if k == |c.replicas| {
      ws := [w];
    } else {
      var one := DeleteSet(env, w, c, c.replicas[k]);
      if !one.v {
        ws := [w, one.w];
      } else {
        var rest := DeletesInTurn(env, one.w, c, k + 1);
        ws := [w] + rest;
        OneMoreTurn(DeletionOfSet(env, c), w, rest, k, true);
      }
    }
  }

  // ---------------------------------------------------------------- a job in CleanUp

  // The pods and services the sets from k on select and name.
  function PodsOf(w: World, c: Ctx): set<Ref>
  {
    set ref, k: nat | k < |c.replicas| && ref in Matched(w, c, c.replicas[k].typ) :: ref
  }

  /** The last step of a pass over a job in CleanUp, in calm and with all its services there, deletes the
  job's pods, services and config map, and nothing else. */
  lemma CleanUpDeletes(env: Env, w: World, m: Memory)
    requires Still(env, w) && m.job.status.phase == CleanUp && m.replicas != [] && TypesDistinct(CtxOf(m))
    requires forall k :: 0 <= k < |m.replicas| ==> Served(w, CtxOf(m), m.replicas[k], 0)
    ensures var c, w' := CtxOf(m), Finish(env, w, m).w;
            && w'.pods == w.pods - PodsOf(w, c) && w'.services == w.services - RefsFrom(c, 0)
            && w'.configMaps == w.configMaps - {Ref(c.ref.ns, "cm-ps-" + c.spec.runtimeId)} && w'.jobs == w.jobs
  {
    var c := CtxOf(m);
    var w0 := w.(pods := w.pods - PodsOf(w, c), services := w.services - RefsFrom(c, 0));
    assert PodsLeft(w0, w, c, 0) by {
      forall ref | ref in w.pods && ref !in w0.pods
        ensures exists j :: 0 <= j < |c.replicas| && ref in Matched(w, c, c.replicas[j].typ)
      {
        assert ref in PodsOf(w, c);
      }
    }
    assert RefsFrom(c, 0) <= w.services.Keys by {
      forall ref | ref in RefsFrom(c, 0)
        ensures ref in w.services
      {
        var j, i := RefsFromOnly(c, 0, ref);
        assert Served(w, c, c.replicas[j], 0);
      }
    }
    assert w.services.Keys == w0.services.Keys + RefsFrom(c, 0);
    assert Untouched(w0, c) by {
      forall k | 0 <= k < |c.replicas|
        ensures Matched(w0, c, c.replicas[k].typ) == {}
      {
        forall ref | ref in w0.pods
          ensures ref !in Matched(w, c, c.replicas[k].typ)
        {}
      }
    }
    CalmDeleteAll(env, w0, w, c, 0);
  }
}
