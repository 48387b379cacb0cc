/** Live-pod accounting: how many pods of one replica exist and how often it is created, over any
sequence of events of any number of jobs' passes. */
module LivePods {
  import opened Wrappers
  import opened Api
  import opened Naming
  import opened Selectors
  import opened Store
  import opened Replicas
  import opened Trails

  // One replica of one job: what its pods are labelled with.
  datatype Slot = Slot(ns: string, job: string, rid: string, typ: string, index: int)

  function SlotLabels(s: Slot): Labels
  {
    TaskLabels(s.job, s.rid, s.typ, s.index)
  }

  function LiveIn(w: World, s: Slot): set<Ref>
  {
    Live(w, s.ns, SlotLabels(s))
  }

  // A creation some pass over some job may make.
  ghost predicate FairCreation(env: Env, w: World, ref: Ref, pod: Pod)
  {
    && ref !in w.pods && pod.phase == PodPending
    && (exists s: Slot :: s.ns == ref.ns && SlotLabels(s) == pod.labels)
    && (Guarded(env, ref.ns, pod.labels) && !Misled(w, ref.ns, pod.labels) ==> Live(w, ref.ns, pod.labels) == {})
  }

  ghost predicate Fair(env: Env, w: World, e: Event)
  {
    match e
    case Moved(m) => FromEnv(env, m)
    case ListFailed(_, _, _) => env.readFails(|w.trace|)
    case PodCreated(ref, pod) => FairCreation(env, w, ref, pod)
    case PodsDeleted(_, _) => false
    case _ => true
  }

  ghost predicate FairAll(env: Env, w: World, es: seq<Event>)
    decreases |es|
  {
    es == [] || (Fair(env, w, es[0]) && FairAll(env, Apply(w, es[0]), es[1..]))
  }

  lemma LegalIsFair(env: Env, c: Ctx, puts: Puts, w: World, e: Event)
    requires Legal(env, c, puts, w, e)
    ensures Fair(env, w, e)
  {
    if e.PodCreated? {
      var k: nat, index: nat, n: nat :| PodFor(env, c, k, index, n, e.ref, e.pod);
      var s := Slot(e.ref.ns, c.ref.name, c.spec.runtimeId, c.replicas[k].typ, index);
      assert SlotLabels(s) == e.pod.labels;
    }
  }

  lemma {:induction false} LegalAllIsFair(env: Env, c: Ctx, puts: Puts, w: World, es: seq<Event>)
    requires LegalAll(env, c, puts, w, es)
    ensures FairAll(env, w, es)
    decreases |es|
  {
    if es != [] {
      LegalIsFair(env, c, puts, w, es[0]);
      LegalAllIsFair(env, c, puts, Apply(w, es[0]), es[1..]);
    }
  }

  lemma {:induction false} FairConcat(env: Env, w: World, a: seq<Event>, b: seq<Event>)
    requires FairAll(env, w, a) && FairAll(env, Replay(w, a), b)
    ensures FairAll(env, w, a + b)
    decreases |a|
  {
    if a == [] {
      assert a + b == b;
    } else {
      assert (a + b)[1..] == a[1..] + b;
      FairConcat(env, Apply(w, a[0]), a[1..], b);
    }
  }

  // ---------------------------------------------------------------- counting

  function Creates(e: Event, s: Slot): nat
  {
    if e.PodCreated? && e.ref.ns == s.ns && e.pod.labels == SlotLabels(s) then 1 else 0
  }

  // Pods the operator created for the replica.
  function CreatedIn(es: seq<Event>, s: Slot): nat
  {
    if es == [] then 0 else Creates(es[0], s) + CreatedIn(es[1..], s)
  }

  // Whether the environment fails or removes a live pod of the replica.
  function Kills(w: World, e: Event, s: Slot): nat
  {
    if e.Moved? && LiveIn(Apply(w, e), s) != LiveIn(w, s) then 1 else 0
  }

  function KilledIn(w: World, es: seq<Event>, s: Slot): nat
    decreases |es|
  {
    if es == [] then 0 else Kills(w, es[0], s) + KilledIn(Apply(w, es[0]), es[1..], s)
  }

  function Fails(e: Event, s: Slot): nat
  {
    if e == ListFailed(s.ns, SlotLabels(s), true) then 1 else 0
  }

  // The lists of the replica's pods that failed.
  function FailedLists(es: seq<Event>, s: Slot): nat
  {
    if es == [] then 0 else Fails(es[0], s) + FailedLists(es[1..], s)
  }

  // Whether a failed list is still to be followed by a creation.
  function Owed(w: World, s: Slot): nat
  {
    if Misled(w, s.ns, SlotLabels(s)) then 1 else 0
  }

  // ---------------------------------------------------------------- one event

  lemma MoveEffect(w: World, m: Move, s: Slot)
    requires Foreign(m, s.ns, SlotLabels(s))
    ensures LiveIn(Apply(w, Moved(m)), s) == LiveIn(w, s)
         || (exists ref :: ref in LiveIn(w, s) && LiveIn(Apply(w, Moved(m)), s) == LiveIn(w, s) - {ref})
  {
    var before, after := LiveIn(w, s), LiveIn(Apply(w, Moved(m)), s);
    match m
    case RemoveService(_) => assert after == before;
    case Place(_, _) => assert after == before;
    case Remove(ref) =>
      assert after == before - {ref};
    case Report(ref, _, _, _) =>
      assert after == before || after == before - {ref};
  }

  lemma CreationEffect(env: Env, w: World, ref: Ref, pod: Pod, s: Slot)
    requires FairCreation(env, w, ref, pod)
    ensures var w' := Apply(w, PodCreated(ref, pod));
            if Creates(PodCreated(ref, pod), s) == 1
            then && ref !in LiveIn(w, s) && LiveIn(w', s) == LiveIn(w, s) + {ref}
                 && (Guarded(env, s.ns, SlotLabels(s)) && !Misled(w, s.ns, SlotLabels(s)) ==> LiveIn(w, s) == {})
            else LiveIn(w', s) == LiveIn(w, s)
  {
    var o: Slot :| o.ns == ref.ns && SlotLabels(o) == pod.labels;
    TaskSelectorsDisjoint(s.job, s.rid, s.typ, s.index, o.job, o.rid, o.typ, o.index);
    if ref.ns == s.ns && pod.labels == SlotLabels(s) {
      LiveWith(w, ref, pod, s.ns, SlotLabels(s));
    } else {
      LiveWithout(w, ref, pod, s.ns, SlotLabels(s));
    }
  }

  lemma LiveWith(w: World, ref: Ref, pod: Pod, ns: string, labels: Labels)
    requires ref !in w.pods && pod.phase != PodFailed && ref.ns == ns && Matches(labels, pod.labels)
    ensures Live(Apply(w, PodCreated(ref, pod)), ns, labels) == Live(w, ns, labels) + {ref}
  {}

  lemma LiveWithout(w: World, ref: Ref, pod: Pod, ns: string, labels: Labels)
    requires ref !in w.pods && (ref.ns == ns ==> !Matches(labels, pod.labels))
    ensures Live(Apply(w, PodCreated(ref, pod)), ns, labels) == Live(w, ns, labels)
  {}

  lemma OwedAfter(w: World, e: Event, s: Slot)
    ensures Owed(Apply(w, e), s) == if e.Moved? then Owed(w, s) else Fails(e, s)
  {
    assert Apply(w, e).trace[..|w.trace|] == w.trace;
  }

  // Conservation, for one event.
  lemma EventEffect(env: Env, w: World, e: Event, s: Slot)
    requires Fair(env, w, e) && Guarded(env, s.ns, SlotLabels(s))
    ensures |LiveIn(Apply(w, e), s)| == |LiveIn(w, s)| + Creates(e, s) - Kills(w, e, s)
    ensures Creates(e, s) == 1 ==> LiveIn(w, s) == {} || Owed(w, s) == 1
    ensures Creates(e, s) == 0 || (Kills(w, e, s) == 0 && Fails(e, s) == 0)
  {
    match e
    case Moved(m) =>
      ForeignMove(env, m, s.ns, SlotLabels(s));
      MoveEffect(w, m, s);
    case PodCreated(ref, pod) => CreationEffect(env, w, ref, pod, s);
    case PodsDeleted(_, _) =>
    case _ => assert LiveIn(Apply(w, e), s) == LiveIn(w, s);
  }

  // ---------------------------------------------------------------- runs

  lemma {:induction false} Accounting(env: Env, w: World, es: seq<Event>, s: Slot)
    requires FairAll(env, w, es) && Guarded(env, s.ns, SlotLabels(s))
    ensures var n, n' := |LiveIn(w, s)|, |LiveIn(Replay(w, es), s)|;
            && n' == n + CreatedIn(es, s) - KilledIn(w, es, s)
            && CreatedIn(es, s) <= (if n == 0 then 1 else 0) + KilledIn(w, es, s) + FailedLists(es, s) + Owed(w, s)
    decreases |es|
  {
    if es != [] {
      EventEffect(env, w, es[0], s);
      OwedAfter(w, es[0], s);
      Accounting(env, Apply(w, es[0]), es[1..], s);
    }
  }

  /** Over any run: live pods are conserved; their number never rises above one, or above what it
  was, by more than the lists that failed; and the operator creates the replica at most once (not
  at all while it has a live pod), plus once for every pod of it that failed or was removed, plus
  once for every list of its pods that failed. */
  lemma {:induction false} LivePodAccounting(env: Env, w: World, es: seq<Event>, s: Slot)
    requires FairAll(env, w, es) && Guarded(env, s.ns, SlotLabels(s)) && Opened(es)
    ensures var n, n' := |LiveIn(w, s)|, |LiveIn(Replay(w, es), s)|;
            && n' == n + CreatedIn(es, s) - KilledIn(w, es, s)
            && n' <= (if n == 0 then 1 else n) + FailedLists(es, s)
            && CreatedIn(es, s) <= (if n == 0 then 1 else 0) + KilledIn(w, es, s) + FailedLists(es, s)
    decreases |es|
  {
    if es != [] {
      EventEffect(env, w, es[0], s);
      OwedAfter(w, es[0], s);
      if es[0].Moved? {
        LivePodAccounting(env, Apply(w, es[0]), es[1..], s);
      } else {
        Accounting(env, Apply(w, es[0]), es[1..], s);
      }
    }
  }

  lemma {:induction false} SucceededAccounting(env: Env, w: World, es: seq<Event>, s: Slot, ref: Ref)
    requires FairAll(env, w, es) && Guarded(env, s.ns, SlotLabels(s))
    requires ref in LiveIn(w, s) && w.pods[ref].phase == PodSucceeded
    requires Moved(Remove(ref)) !in es
    ensures CreatedIn(es, s) <= FailedLists(es, s) + Owed(w, s)
    ensures var w' := Replay(w, es); ref in LiveIn(w', s) && w'.pods[ref].phase == PodSucceeded
    decreases |es|
  {
    if es != [] {
      EventEffect(env, w, es[0], s);
      OwedAfter(w, es[0], s);
      SucceededStays(env, w, es[0], s, ref);
      assert es == [es[0]] + es[1..];
      SucceededAccounting(env, Apply(w, es[0]), es[1..], s, ref);
    }
  }

  /** A pod that succeeded and is not deleted stays, and keeps its replica from being created again,
  but for failed lists. */
  lemma {:induction false} SucceededIsNotRerun(env: Env, w: World, es: seq<Event>, s: Slot, ref: Ref)
    requires FairAll(env, w, es) && Guarded(env, s.ns, SlotLabels(s)) && Opened(es)
    requires ref in LiveIn(w, s) && w.pods[ref].phase == PodSucceeded
    requires Moved(Remove(ref)) !in es
    ensures CreatedIn(es, s) <= FailedLists(es, s)
    ensures var w' := Replay(w, es); ref in LiveIn(w', s) && w'.pods[ref].phase == PodSucceeded
    decreases |es|
  {
    if es != [] {
      OwedAfter(w, es[0], s);
      SucceededStays(env, w, es[0], s, ref);
      assert es == [es[0]] + es[1..];
      if es[0].Moved? {
        SucceededIsNotRerun(env, Apply(w, es[0]), es[1..], s, ref);
      } else {
        SucceededAccounting(env, Apply(w, es[0]), es[1..], s, ref);
      }
    }
  }

  /** The failed lists cannot be left out of the bounds: if nothing moves, and the list of a
  replica's pods is all that fails, SyncPods adds a pod to those the replica has, however many. */
  lemma AFailedListAddsAPod(env: Env, w: World, c: Ctx, r: ReplicaSpec, index: int)
    requires env.moves(|w.trace|) == [] && env.moves(|w.trace| + 1) == [] && env.moves(|w.trace| + 2) == []
    requires env.readFails(|w.trace| + 1) && env.reply(|w.trace| + 2) == Answered && !PodPanics(c, r)
    requires var name := GenPodName(c.ref.name, r.typ, c.spec.runtimeId, index, env.random(|w.trace| + 2, 5));
             Ref(c.ref.ns, name) !in w.pods
    ensures var s, labels := SyncPodAt(env, w, c, r, index), LabelsOf(c, r.typ, index);
            |Live(s.w, c.ref.ns, labels)| == |Live(w, c.ref.ns, labels)| + 1
  {
    var labels := LabelsOf(c, r.typ, index);
    var ref := Ref(c.ref.ns, GenPodName(c.ref.name, r.typ, c.spec.runtimeId, index, env.random(|w.trace| + 2, 5)));
    var seen := Look(env, w);
    assert seen == Apply(w, Read);
    var mine := ListPods(env, seen, c.ref.ns, labels, true);
    assert mine == Ret(Apply(seen, ListFailed(c.ref.ns, labels, true)), None);
    assert Tick(env, mine.w) == mine.w;
    LiveWith(mine.w, ref, BuildPod(c, r, index), c.ref.ns, labels);
    assert Live(mine.w, c.ref.ns, labels) == Live(w, c.ref.ns, labels);
  }

  lemma SucceededStays(env: Env, w: World, e: Event, s: Slot, ref: Ref)
    requires Fair(env, w, e) && e != Moved(Remove(ref))
    requires ref in LiveIn(w, s) && w.pods[ref].phase == PodSucceeded
    ensures var w' := Apply(w, e); ref in LiveIn(w', s) && w'.pods[ref].phase == PodSucceeded
  {}
}
