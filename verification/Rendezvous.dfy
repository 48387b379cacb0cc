/** Rendezvous: what the pods created in one calm pass are told about where to meet, and that the
service they are told of exists and leads to the scheduler. */
module Rendezvous {
  import opened Wrappers
  import opened Api
  import opened Naming
  import opened Selectors
  import opened Store
  import opened Replicas
  import opened Trails
  import opened CalmPasses
  import opened Locality

  // ---------------------------------------------------------------- where new objects come from

  // The pod built for replica `index` of set k, in the job's namespace.
  ghost predicate OursPod(c: Ctx, k: nat, index: nat, ref: Ref, pod: Pod)
  {
    && k < |c.replicas| && index < Size(c.replicas[k]) && c.replicas[k].template.Some?
    && pod == BuildPod(c, c.replicas[k], index) && ref.ns == c.ref.ns
  }

  ghost predicate OursService(c: Ctx, k: nat, index: nat, ref: Ref, service: Service)
  {
    && k < |c.replicas| && index < Size(c.replicas[k])
    && service == BuildService(c, c.replicas[k], index) && ref == RefOf(c, c.replicas[k].typ, index)
  }

  ghost predicate BuiltHere(c: Ctx, ref: Ref, pod: Pod)
  {
    exists k: nat, i: nat :: OursPod(c, k, i, ref, pod)
  }

  ghost predicate ServedHere(c: Ctx, ref: Ref, service: Service)
  {
    exists k: nat, i: nat :: OursService(c, k, i, ref, service)
  }

  // What is in w and was not in w0, but was not built for the job.
  ghost function StrayPods(c: Ctx, w0: World, w: World): set<Ref>
  {
    set ref | ref in w.pods && ref !in w0.pods && !BuiltHere(c, ref, w.pods[ref])
  }

  ghost function StrayServices(c: Ctx, w0: World, w: World): set<Ref>
  {
    set ref | ref in w.services && ref !in w0.services && !ServedHere(c, ref, w.services[ref])
  }

  // Everything in w that was not in w0 was built for the job.
  ghost predicate NewIsOurs(c: Ctx, w0: World, w: World)
  {
    StrayPods(c, w0, w) == {} && StrayServices(c, w0, w) == {} && w.configMaps == w0.configMaps
  }

  lemma NewPodIsOurs(c: Ctx, w0: World, w: World, ref: Ref) returns (k: nat, i: nat)
    requires NewIsOurs(c, w0, w) && ref in w.pods && ref !in w0.pods
    ensures OursPod(c, k, i, ref, w.pods[ref])
  {
    assert ref !in StrayPods(c, w0, w);
    k, i :| OursPod(c, k, i, ref, w.pods[ref]);
  }

  lemma NewServiceIsOurs(c: Ctx, w0: World, w: World, ref: Ref) returns (k: nat, i: nat)
    requires NewIsOurs(c, w0, w) && ref in w.services && ref !in w0.services
    ensures OursService(c, k, i, ref, w.services[ref])
  {
    assert ref !in StrayServices(c, w0, w);
    k, i :| OursService(c, k, i, ref, w.services[ref]);
  }

  lemma EventIsOurs(env: Env, c: Ctx, w0: World, w: World, e: Event)
    requires Legal(env, c, NoPuts, w, e) && !e.Moved? && NewIsOurs(c, w0, w)
    ensures NewIsOurs(c, w0, Apply(w, e))
  {
    var w' := Apply(w, e);
    if e.PodCreated? {
      var k: nat, index: nat, n: nat :| PodFor(env, c, k, index, n, e.ref, e.pod);
      assert OursPod(c, k, index, e.ref, e.pod);
      assert BuiltHere(c, e.ref, e.pod);
    } else if e.ServiceCreated? {
      var k: nat, index: nat :| ServiceFor(c, k, index, e.ref, e.service);
      assert OursService(c, k, index, e.ref, e.service);
      assert ServedHere(c, e.ref, e.service);
    }
    assert StrayPods(c, w0, w') <= StrayPods(c, w0, w) && StrayServices(c, w0, w') <= StrayServices(c, w0, w);
  }

  lemma NobodyMoves(env: Env, m: Move)
    requires Calm(env, 0)
    ensures !FromEnv(env, m)
  {
    forall n: nat
      ensures m !in env.moves(n)
    {
      assert n !in Disturbances(env, 0);
    }
  }

  lemma {:induction false} EventsAreOurs(env: Env, c: Ctx, w0: World, w: World, es: seq<Event>)
    requires LegalAll(env, c, NoPuts, w, es) && Calm(env, 0) && NewIsOurs(c, w0, w)
    ensures NewIsOurs(c, w0, Replay(w, es))
    decreases |es|
  {
    if es != [] {
      if es[0].Moved? {
        NobodyMoves(env, es[0].move);
      }
      EventIsOurs(env, c, w0, w, es[0]);
      EventsAreOurs(env, c, w0, Apply(w, es[0]), es[1..]);
    }
  }

  // The store after all pods and then all services have been synced.
  function Synced(env: Env, w: World, c: Ctx): World
  {
    SyncAllServices(env, SyncAllPods(env, w, c, 0).w, c, 0)
  }

  // The same environment, but with nothing moving and nothing failing before position n.
  function Quieted(env: Env, n: nat): Env
  {
    env.(moves := (i: nat) => if i < n then [] else env.moves(i), readFails := (i: nat) => n <= i && env.readFails(i),
         reply := (i: nat) => if i < n then Answered else env.reply(i))
  }

  lemma QuietedIsCalm(env: Env, n: nat)
    requires Calm(env, n)
    ensures Calm(Quieted(env, n), 0)
  {
    var env' := Quieted(env, n);
    forall k: nat
      ensures k !in Disturbances(env', 0)
    {
      if n <= k {
        assert k !in Disturbances(env, n);
      }
    }
  }

  // What was before the sync does not matter to it.
  lemma QuietedSync(env: Env, w: World, c: Ctx)
    ensures Synced(Quieted(env, |w.trace|), w, c) == Synced(env, w, c)
  {
    var env', pods := Quieted(env, |w.trace|), SyncAllPods(env, w, c, 0);
    forall k: nat | |w.trace| <= k
      ensures SameAt(env, env', k)
    {
      assert forall i: nat :: env.random(k, i) == env'.random(k, i);
    }
    SyncAllPodsTrail(env, w, c, 0);
    PodsLocal(env, env', w, c, 0);
    ServicesLocal(env, env', pods.w, c, 0);
  }

  /** A calm sync removes nothing, adds only what is built for the job, and leaves a service under
  every name of a replica. */
  lemma SyncedStore(env: Env, w: World, c: Ctx)
    requires Still(env, w)
    ensures var w' := Synced(env, w, c);
            && Grows(w, w') && NewIsOurs(c, w, w') && Still(env, w')
            && forall k :: 0 <= k < |c.replicas| ==> Served(w', c, c.replicas[k], 0)
  {
    var pods, w' := SyncAllPods(env, w, c, 0), Synced(env, w, c);
    CalmSyncAllPods(env, w, c, 0);
    CalmSyncAllServices(env, pods.w, c, 0);
    GrowsTrans(w, pods.w, w');
    QuietedIsCalm(env, |w.trace|);
    QuietedSync(env, w, c);
    SyncedIsOurs(Quieted(env, |w.trace|), w, c);
  }

  lemma SyncedIsOurs(env: Env, w: World, c: Ctx)
    requires Calm(env, 0)
    ensures NewIsOurs(c, w, Synced(env, w, c))
  {
    var pods, w' := SyncAllPods(env, w, c, 0), Synced(env, w, c);
    SyncAllPodsTrail(env, w, c, 0);
    SyncAllServicesTrail(env, pods.w, c, 0);
    TrailTrans(env, c, NoPuts, w, pods.w, w');
    assert StrayPods(c, w, w) == {} && StrayServices(c, w, w) == {};
    EventsAreOurs(env, c, w, w, Since(w, w'));
  }

  // ---------------------------------------------------------------- what pods are told

  // The value a container is told for a variable: the last one listed.
  function Told(env: seq<EnvVar>, name: string): Option<string>
  {
    if env == [] then None
    else if env[|env| - 1].name == name then Some(env[|env| - 1].value)
    else Told(env[..|env| - 1], name)
  }

  lemma {:induction false} ToldAt(env: seq<EnvVar>, k: nat)
    requires k < |env| && forall j :: k < j < |env| ==> env[j].name != env[k].name
    ensures Told(env, env[k].name) == Some(env[k].value)
  {
    if k < |env| - 1 {
      ToldAt(env[..|env| - 1], k);
    }
  }

  lemma NamesDiffer(d: seq<EnvVar>)
    requires |d| == 6 && d[0].name == "DMLC_ROLE" && d[1].name == "DMLC_PS_ROOT_URI" && d[2].name == "DMLC_PS_ROOT_PORT"
    requires d[3].name == "DMLC_NUM_SERVER" && d[4].name == "DMLC_NUM_WORKER" && d[5].name == "PS_VERBOSE"
    ensures forall i, j :: 0 <= i < j < 6 ==> d[i].name != d[j].name
  {
    assert |d[0].name| == 9 && |d[1].name| == 16 && |d[2].name| == 17;
    assert |d[3].name| == 15 && |d[4].name| == 15 && |d[5].name| == 10;
    assert d[3].name[9] == 'S' && d[4].name[9] == 'W';
  }

  lemma ToldLast(before: seq<EnvVar>, d: seq<EnvVar>, k: nat)
    requires k < |d| && forall i, j :: 0 <= i < j < |d| ==> d[i].name != d[j].name
    ensures Told(before + d, d[k].name) == Some(d[k].value)
  {
    var env := before + d;
    assert forall j :: |before| <= j < |env| ==> env[j] == d[j - |before|];
    ToldAt(env, |before| + k);
  }

  // What container i of a pod built for set r is told.
  predicate ToldBy(c: Ctx, r: ReplicaSpec, told: seq<EnvVar>)
  {
    && Told(told, "DMLC_PS_ROOT_URI") == Some(RootUri(c))
    && Told(told, "DMLC_NUM_SERVER") == Some(Decimal(SizeOfType(c.replicas, SERVER)))
    && Told(told, "DMLC_NUM_WORKER") == Some(Decimal(SizeOfType(c.replicas, WORKER)))
    && Told(told, "DMLC_PS_ROOT_PORT") == Some(Decimal(PortOf(r)))
    && Told(told, "DMLC_ROLE") == Some(Lower(r.typ))
  }

  lemma EnvTells(c: Ctx, r: ReplicaSpec, before: seq<EnvVar>)
    ensures ToldBy(c, r, before + DmlcEnv(c, r))
  {
    var d := DmlcEnv(c, r);
    NamesDiffer(d);
    ToldLast(before, d, 0);
    ToldLast(before, d, 1);
    ToldLast(before, d, 2);
    ToldLast(before, d, 3);
    ToldLast(before, d, 4);
  }

  lemma ContainerTold(c: Ctx, r: ReplicaSpec, index: int, i: nat)
    requires r.template.Some? && i < |r.template.value.containers|
    requires r.template.value.containers[i].name == DEFAULT_CONTAINER
    ensures ToldBy(c, r, BuildPod(c, r, index).spec.containers[i].env)
  {
    EnvTells(c, r, r.template.value.containers[i].env);
  }

  /** Every mxnet container of every pod a calm sync creates is told the same root, server count and
  worker count, and the role and port of its own set. */
  lemma PodsAgree(env: Env, w: World, c: Ctx, ref: Ref)
    requires Still(env, w) && ref in Synced(env, w, c).pods && ref !in w.pods
    ensures var pod := Synced(env, w, c).pods[ref];
            exists k: nat, index: nat :: OursPod(c, k, index, ref, pod)
              && forall i :: 0 <= i < |pod.spec.containers| && pod.spec.containers[i].name == DEFAULT_CONTAINER ==>
                   ToldBy(c, c.replicas[k], pod.spec.containers[i].env)
  {
    SyncedStore(env, w, c);
    var pod := Synced(env, w, c).pods[ref];
    var k, index := NewPodIsOurs(c, w, Synced(env, w, c), ref);
    forall i | 0 <= i < |pod.spec.containers| && pod.spec.containers[i].name == DEFAULT_CONTAINER
      ensures ToldBy(c, c.replicas[k], pod.spec.containers[i].env)
    {
      ContainerTold(c, c.replicas[k], index, i);
    }
  }

  // ---------------------------------------------------------------- where they are led

  /** If the first set is the scheduler, with its one replica, and all ports are equal, then after a
  calm sync of a store with no service of that name: the root every pod is told is a service of
  the job, on the port every pod is told, whose selector matches, among the pods the operator
  builds in the namespace for any job whatever, exactly those of scheduler 0 of this job under
  this runtime id. */
  lemma RootLeadsToScheduler(env: Env, w: World, c: Ctx)
    requires Still(env, w)
    requires |c.replicas| > 0 && c.replicas[0].typ == SCHEDULER && Size(c.replicas[0]) == 1
    requires forall k :: 0 <= k < |c.replicas| ==>
               ValidType(c.replicas[k].typ) && PortOf(c.replicas[k]) == PortOf(c.replicas[0])
    requires Ref(c.ref.ns, RootUri(c)) !in w.services
    ensures var w', root := Synced(env, w, c), Ref(c.ref.ns, RootUri(c));
            && root in w'.services
            && (forall k :: 0 <= k < |c.replicas| ==> w'.services[root].port == PortOf(c.replicas[k]))
            && (forall c': Ctx, k: nat, i: nat, ref: Ref, pod: Pod ::
                  OursPod(c', k, i, ref, pod) && c'.ref.ns == c.ref.ns ==>
                  (Matches(w'.services[root].selector, pod.labels)
                   <==> && c'.ref == c.ref && c'.spec.runtimeId == c.spec.runtimeId
                        && c'.replicas[k].typ == SCHEDULER && i == 0))
  {
    var w', root := Synced(env, w, c), Ref(c.ref.ns, RootUri(c));
    SyncedStore(env, w, c);
    assert Served(w', c, c.replicas[0], 0);
    assert root == RefOf(c, SCHEDULER, 0);
    var k0, i0 := NewServiceIsOurs(c, w, w', root);
    GenNameInjectiveWithinJob(c.ref.name, c.spec.runtimeId, SCHEDULER, 0, c.replicas[k0].typ, i0);
    forall c': Ctx, k: nat, i: nat, ref: Ref, pod: Pod | OursPod(c', k, i, ref, pod) && c'.ref.ns == c.ref.ns
      ensures Matches(w'.services[root].selector, pod.labels)
         <==> c'.ref == c.ref && c'.spec.runtimeId == c.spec.runtimeId && c'.replicas[k].typ == SCHEDULER && i == 0
    {
      TaskSelectorsDisjoint(c.ref.name, c.spec.runtimeId, SCHEDULER, 0,
                            c'.ref.name, c'.spec.runtimeId, c'.replicas[k].typ, i);
    }
  }

  // ---------------------------------------------------------------- the cluster spec

  function AddressOf(c: Ctx, r: ReplicaSpec, index: int): string
  {
    NameOf(c, r.typ, index) + ":" + Decimal(PortOf(r))
  }

  // host:port of the first n replicas of a set
  function Addresses(c: Ctx, r: ReplicaSpec, n: nat): (out: seq<string>)
    ensures |out| == n && forall i :: 0 <= i < n ==> out[i] == AddressOf(c, r, i)
  {
    seq(n, i requires 0 <= i < n => AddressOf(c, r, i))
  }

  function Count(r: ReplicaSpec): nat
  {
    if Size(r) > 0 then Size(r) else 0
  }

  function ClusterSpec(c: Ctx, k: nat): map<string, seq<string>>
    requires k <= |c.replicas|
  {
    if k == 0 then map[]
    else
      var r := c.replicas[k - 1];
      ClusterSpec(c, k - 1)[Lower(r.typ) := Addresses(c, r, Count(r))]
  }

  lemma {:induction false} ClusterSpecAt(c: Ctx, n: nat, k: nat)
    requires k < n <= |c.replicas|
    requires forall i :: 0 <= i < |c.replicas| ==> ValidType(c.replicas[i].typ)
    requires forall i, j :: 0 <= i < j < |c.replicas| ==> c.replicas[i].typ != c.replicas[j].typ
    ensures var low := Lower(c.replicas[k].typ);
            low in ClusterSpec(c, n) && ClusterSpec(c, n)[low] == Addresses(c, c.replicas[k], Count(c.replicas[k]))
  {
    if k < n - 1 {
      ClusterSpecAt(c, n - 1, k);
      if Lower(c.replicas[k].typ) == Lower(c.replicas[n - 1].typ) {
        LowerTypeInjective(c.replicas[k].typ, c.replicas[n - 1].typ);
      }
    }
  }

  lemma {:induction false} ClusterSpecKeys(c: Ctx, n: nat, role: string)
    requires n <= |c.replicas|
    ensures role in ClusterSpec(c, n) <==> exists k :: 0 <= k < n && Lower(c.replicas[k].typ) == role
  {
    if n > 0 {
      ClusterSpecKeys(c, n - 1, role);
    }
  }

  /** The cluster spec of sets of distinct types has an entry for each set and no other, under the set's
  role, and lists for each of its replicas, in order, the replica's name and the set's port. */
  lemma ClusterSpecReads(c: Ctx, k: nat, role: string)
    requires k < |c.replicas| && IsRole(c.replicas[k].typ, role) && c.replicas[k].port.Some?
    requires forall i :: 0 <= i < |c.replicas| ==> ValidType(c.replicas[i].typ)
    requires forall i, j :: 0 <= i < j < |c.replicas| ==> c.replicas[i].typ != c.replicas[j].typ
    ensures var r, spec := c.replicas[k], ClusterSpec(c, |c.replicas|);
            && role in spec && |spec[role]| == Count(r)
            && (forall i: nat :: i < Count(r) ==>
                  spec[role][i] == GenName(c.ref.name, r.typ, c.spec.runtimeId, i) + ":" + Decimal(r.port.value))
            && forall other <- spec :: exists i :: 0 <= i < |c.replicas| && IsRole(c.replicas[i].typ, other)
  {
    LowerTypes();
    ClusterSpecAt(c, |c.replicas|, k);
    var spec := ClusterSpec(c, |c.replicas|);
    forall other | other in spec
      ensures exists i :: 0 <= i < |c.replicas| && IsRole(c.replicas[i].typ, other)
    {
      ClusterSpecKeys(c, |c.replicas|, other);
      var i :| 0 <= i < |c.replicas| && Lower(c.replicas[i].typ) == other;
      assert IsRole(c.replicas[i].typ, other);
    }
  }

  /** With distinct types, the cluster spec lists, for each set and replica, the name of a service
  that a calm sync leaves in the store, and if that service is new, its port. */
  lemma AddressesAreServed(env: Env, w: World, c: Ctx, k: nat, i: nat)
    requires Still(env, w) && k < |c.replicas| && i < Size(c.replicas[k])
    requires forall j :: 0 <= j < |c.replicas| ==> ValidType(c.replicas[j].typ)
    requires forall j, l :: 0 <= j < l < |c.replicas| ==> c.replicas[j].typ != c.replicas[l].typ
    ensures var spec, low := ClusterSpec(c, |c.replicas|), Lower(c.replicas[k].typ);
            var ref, w' := RefOf(c, c.replicas[k].typ, i), Synced(env, w, c);
            && low in spec && i < |spec[low]| && ref in w'.services
            && (ref !in w.services ==> spec[low][i] == ref.name + ":" + Decimal(w'.services[ref].port))
  {
    var r := c.replicas[k];
    var ref, w' := RefOf(c, r.typ, i), Synced(env, w, c);
    ClusterSpecAt(c, |c.replicas|, k);
    SyncedStore(env, w, c);
    assert Served(w', c, r, 0);
    if ref !in w.services {
      var l, j := NewServiceIsOurs(c, w, w', ref);
      GenNameInjectiveWithinJob(c.ref.name, c.spec.runtimeId, r.typ, i, c.replicas[l].typ, j);
      assert l == k;
    }
  }
}
