/** What the pods and services that a pass creates look like, field by field, in terms of the job and of
its replica specs. */
module Created {
  import opened Wrappers
  import opened Api
  import opened Naming
  import opened Store
  import opened Loops
  import opened Replicas
  import opened Trails
  import opened Training
  import opened Passes
  import opened SetupSoundness

  // ---------------------------------------------------------------- what they are to look like

  predicate IsLastOf(rs: seq<ReplicaSpec>, typ: string, k: nat)
  {
    k < |rs| && rs[k].typ == typ && forall j :: k < j < |rs| ==> rs[j].typ != typ
  }

  // The size of the last of these sets of a type, if it has one; 0 if there is no such set.
  ghost predicate IsCount(n: int, rs: seq<ReplicaSpec>, typ: string)
  {
    && (forall k: nat :: IsLastOf(rs, typ, k) && rs[k].replicas.Some? ==> n == rs[k].replicas.value)
    && ((forall r <- rs :: r.typ != typ) ==> n == 0)
  }

  // The job as its replica sets know it: the six variables of a container of set r.
  ghost predicate SixVariables(c: Ctx, r: ReplicaSpec, six: seq<EnvVar>)
  {
    && |six| == 6 && c.replicas != []
    && six[0].name == "DMLC_ROLE" && IsRole(r.typ, six[0].value)
    && six[1] == EnvVar("DMLC_PS_ROOT_URI", GenName(c.ref.name, c.replicas[0].typ, c.spec.runtimeId, 0))
    && r.port.Some? && six[2] == EnvVar("DMLC_PS_ROOT_PORT", Decimal(r.port.value))
    && six[3].name == "DMLC_NUM_SERVER"
    && (exists n :: IsCount(n, c.replicas, "SERVER") && six[3].value == Decimal(n))
    && six[4].name == "DMLC_NUM_WORKER"
    && (exists n :: IsCount(n, c.replicas, "WORKER") && six[4].value == Decimal(n))
    && six[5] == EnvVar("PS_VERBOSE", "2")
  }

  // A container of the template as it is in the pod: an mxnet container has the six variables after
  // its own, and nothing else changes.
  ghost predicate ContainerMade(c: Ctx, r: ReplicaSpec, t: Container, made: Container)
  {
    if t.name != "mxnet" then made == t
    else
      && made.name == t.name && made.mounts == t.mounts && made.limits == t.limits && made.requests == t.requests
      && t.env <= made.env && SixVariables(c, r, made.env[|t.env|..])
  }

  predicate LabelsMade(c: Ctx, r: ReplicaSpec, index: nat, labels: Labels)
  {
    labels == map["fioravanzo.org" := "", "job_type" := r.typ, "runtime_id" := c.spec.runtimeId,
                  "mx_job_name" := c.ref.name, "task_index" := Decimal(index)]
  }

  // A pod of replica `index` of set r.
  ghost predicate PodShaped(env: Env, c: Ctx, r: ReplicaSpec, index: nat, ref: Ref, pod: Pod)
  {
    && r.template.Some? && ref.ns == c.ref.ns
    && (exists n: nat :: ref.name == GenName(c.ref.name, r.typ, c.spec.runtimeId, index) + "-" + env.random(n, 5))
    && LabelsMade(c, r, index, pod.labels) && pod.owner == Some(Owner(c.ref.name, c.uid))
    && pod.scheduler == c.spec.schedulerName
    && pod.spec.volumes == r.template.value.volumes
    && ContainersMade(c, r, r.template.value.containers, pod.spec.containers)
  }

  ghost predicate ContainersMade(c: Ctx, r: ReplicaSpec, template: seq<Container>, made: seq<Container>)
  {
    |made| == |template| && forall i :: 0 <= i < |made| ==> ContainerMade(c, r, template[i], made[i])
  }

  ghost predicate PodMade(env: Env, c: Ctx, k: nat, index: nat, ref: Ref, pod: Pod)
  {
    && k < |c.replicas| && c.replicas[k].replicas.Some? && index < c.replicas[k].replicas.value
    && PodShaped(env, c, c.replicas[k], index, ref, pod)
  }

  predicate ServiceMade(c: Ctx, k: nat, index: nat, ref: Ref, service: Service)
  {
    && k < |c.replicas|
    && var r := c.replicas[k];
    && r.replicas.Some? && index < r.replicas.value
    && ref == Ref(c.ref.ns, GenName(c.ref.name, r.typ, c.spec.runtimeId, index))
    && LabelsMade(c, r, index, service.labels) && service.owner == Some(Owner(c.ref.name, c.uid))
    && service.selector == service.labels && service.portName == "mx-port" && r.port == Some(service.port)
  }

  // ---------------------------------------------------------------- they do

  lemma CountIs(rs: seq<ReplicaSpec>, typ: string)
    ensures IsCount(SizeOfType(rs, typ), rs, typ)
  {
    forall k: nat | IsLastOf(rs, typ, k)
      ensures SizeOfType(rs, typ) == Size(rs[k])
    {
      SizeOfTypeIsLast(rs, typ, k);
    }
    if forall r <- rs :: r.typ != typ {
      SizeOfNoType(rs, typ);
    }
  }

  lemma VariablesMade(c: Ctx, r: ReplicaSpec)
    requires c.replicas != [] && ValidType(r.typ) && r.port.Some?
    ensures SixVariables(c, r, DmlcEnv(c, r))
  {
    LowerTypes();
    CountIs(c.replicas, "SERVER");
    CountIs(c.replicas, "WORKER");
  }

  lemma EquippedIsMade(c: Ctx, r: ReplicaSpec, t: Container)
    requires c.replicas != [] && ValidType(r.typ) && r.port.Some?
    ensures ContainerMade(c, r, t, Equip(t, DmlcEnv(c, r)))
  {
    VariablesMade(c, r);
    assert (t.env + DmlcEnv(c, r))[|t.env|..] == DmlcEnv(c, r);
  }

  lemma AllEquippedAreMade(c: Ctx, r: ReplicaSpec, template: seq<Container>)
    requires c.replicas != [] && ValidType(r.typ) && r.port.Some?
    ensures ContainersMade(c, r, template, EquipAll(template, DmlcEnv(c, r)))
  {
    forall i | 0 <= i < |template|
      ensures ContainerMade(c, r, template[i], EquipAll(template, DmlcEnv(c, r))[i])
    {
      EquippedIsMade(c, r, template[i]);
    }
  }

  lemma BuiltIsShaped(env: Env, c: Ctx, r: ReplicaSpec, index: nat, n: nat)
    requires c.replicas != [] && ValidType(r.typ) && r.port.Some? && r.template.Some?
    ensures var name := GenPodName(c.ref.name, r.typ, c.spec.runtimeId, index, env.random(n, 5));
            PodShaped(env, c, r, index, Ref(c.ref.ns, name), BuildPod(c, r, index))
  {
    LabelsAre(c, r, index);
    AllEquippedAreMade(c, r, r.template.value.containers);
  }

  lemma LabelsAre(c: Ctx, r: ReplicaSpec, index: nat)
    ensures LabelsMade(c, r, index, LabelsOf(c, r.typ, index))
  {}

  lemma PodForIsMade(env: Env, c: Ctx, k: nat, index: nat, n: nat, ref: Ref, pod: Pod)
    requires PodFor(env, c, k, index, n, ref, pod) && AllAccepted(c.replicas)
    ensures PodMade(env, c, k, index, ref, pod)
  {
    assert CheckReplica(c.replicas[k]) == Accepted;
    BuiltIsShaped(env, c, c.replicas[k], index, n);
  }

  ghost predicate EventMade(env: Env, c: Ctx, e: Event)
  {
    && (e.PodCreated? ==> exists k: nat, index: nat :: PodMade(env, c, k, index, e.ref, e.pod))
    && (e.ServiceCreated? ==> exists k: nat, index: nat :: ServiceMade(c, k, index, e.ref, e.service))
  }

  lemma LegalIsMade(env: Env, c: Ctx, puts: Puts, w: World, e: Event)
    requires Legal(env, c, puts, w, e) && AllAccepted(c.replicas)
    ensures EventMade(env, c, e)
  {
    if e.PodCreated? {
      var k: nat, index: nat, n: nat :| PodFor(env, c, k, index, n, e.ref, e.pod);
      PodForIsMade(env, c, k, index, n, e.ref, e.pod);
    } else if e.ServiceCreated? {
      var k: nat, index: nat :| ServiceFor(c, k, index, e.ref, e.service);
      assert CheckReplica(c.replicas[k]) == Accepted;
      LabelsAre(c, c.replicas[k], index);
      assert ServiceMade(c, k, index, e.ref, e.service);
    }
  }

  lemma {:induction false} AllMade(env: Env, c: Ctx, puts: Puts, w: World, es: seq<Event>)
    requires LegalAll(env, c, puts, w, es) && AllAccepted(c.replicas)
    ensures forall e <- es :: EventMade(env, c, e)
    decreases |es|
  {
    if es != [] {
      LegalIsMade(env, c, puts, w, es[0]);
      AllMade(env, c, puts, Apply(w, es[0]), es[1..]);
      assert es == [es[0]] + es[1..];
    }
  }

  // ---------------------------------------------------------------- the sets of a pass

  lemma PassKeepsCached(env: Env, w: World, m: Memory, accelerators: Accelerators)
    requires Agrees(m) && m.status.phase != CleanUp && Cached(m) && (m.status.phase == NoPhase ==> m.replicas == [])
    ensures Cached(Reconcile(env, w, m, accelerators).v.m)
  {
    if m.status.phase == NoPhase {
      var a := Begin(env, w, m, accelerators);
      BeginKeeps(env, w, m, accelerators);
      if a.v.out == Fine {
        RestStep(env, AnyPuts, a.w, a.v.m);
        CachedIsPrefix(a.v.m);
      }
    } else {
      RestStep(env, AnyPuts, w, m);
      CachedIsPrefix(m);
    }
  }

  lemma CachedIsAccepted(m: Memory)
    requires Cached(m)
    ensures AllAccepted(m.replicas) && m.replicas <= m.job.spec.replicaSpecs
  {
    BuildStopsAtFirst(m.job.spec.replicaSpecs, 0);
  }

  /** Every pod and every service a pass creates, in every environment, is for a replica of one of the
  job's sets.  Labels, owner and scheduler are the job's; a pod has the volumes and containers of the
  set's template, with the six variables at the end of each mxnet container and all else as it was; a
  service selects the labels it has, and is at the name and port of its replica. */
  lemma PassMakes(env: Env, w: World, m: Memory, accelerators: Accelerators)
    requires Agrees(m) && m.status.phase != CleanUp && Cached(m) && (m.status.phase == NoPhase ==> m.replicas == [])
    ensures var p := Reconcile(env, w, m, accelerators);
            && p.v.m.replicas <= p.v.m.job.spec.replicaSpecs
            && forall e <- Since(w, p.w) :: EventMade(env, CtxOf(p.v.m), e)
  {
    var p := Reconcile(env, w, m, accelerators);
    ReconcileKeeps(env, w, m, accelerators);
    PassKeepsCached(env, w, m, accelerators);
    CachedIsAccepted(p.v.m);
    AllMade(env, CtxOf(p.v.m), PutsFrom(m), w, Since(w, p.w));
  }
}
