/** Defaulting of a job spec (the closure in TrainingJob.setup) and its validation (ValidateTFJobSpec). */
module Validation {
  import opened Wrappers
  import opened Api
  import opened Naming

  // ---------------------------------------------------------------- defaults

  function DefaultReplica(r: ReplicaSpec): ReplicaSpec
  {
    r.(port := if r.port.None? then Some(DEFAULT_PORT) else r.port,
       typ := if r.typ == "" then SCHEDULER else r.typ,
       replicas := if r.replicas.None? then Some(DEFAULT_REPLICAS) else r.replicas)
  }

  function DefaultReplicas(rs: seq<ReplicaSpec>): (out: seq<ReplicaSpec>)
    ensures |out| == |rs| && forall i :: 0 <= i < |rs| ==> out[i] == DefaultReplica(rs[i])
  {
    if rs == [] then [] else [DefaultReplica(rs[0])] + DefaultReplicas(rs[1..])
  }

  function WithDefaults(spec: JobSpec): JobSpec
  {
    spec.(image := if spec.image == "" then DEFAULT_IMAGE else spec.image,
          replicaSpecs := DefaultReplicas(spec.replicaSpecs),
          policy := if spec.policy.None? then Some(Policy(Some(Chief(SCHEDULER, 0)))) else spec.policy)
  }

  /** Defaulting twice is defaulting once, and it leaves set fields alone. */
  lemma DefaultsIdempotent(spec: JobSpec)
    ensures WithDefaults(WithDefaults(spec)) == WithDefaults(spec)
    ensures WithDefaults(spec).runtimeId == spec.runtimeId && WithDefaults(spec).schedulerName == spec.schedulerName
    ensures forall i :: 0 <= i < |spec.replicaSpecs| ==>
              var r, d := spec.replicaSpecs[i], WithDefaults(spec).replicaSpecs[i];
              d.template == r.template && d.port.Some? && d.replicas.Some? && d.typ != ""
              && (r.port.Some? ==> d.port == r.port) && (r.replicas.Some? ==> d.replicas == r.replicas)
  {
    var once := DefaultReplicas(spec.replicaSpecs);
    assert DefaultReplicas(once) == once;
  }

  // d is spec with every field that was not set at its default.
  predicate HasDefaults(spec: JobSpec, d: JobSpec)
  {
    && d.runtimeId == spec.runtimeId && d.schedulerName == spec.schedulerName
    && d.image == (if spec.image == "" then "stefanofioravanzo/mxnet:1.3.0" else spec.image)
    && d.policy == (if spec.policy.None? then Some(Policy(Some(Chief("SCHEDULER", 0)))) else spec.policy)
    && |d.replicaSpecs| == |spec.replicaSpecs|
    && forall i :: 0 <= i < |spec.replicaSpecs| ==> Defaulted(spec.replicaSpecs[i], d.replicaSpecs[i])
  }

  predicate Defaulted(r: ReplicaSpec, d: ReplicaSpec)
  {
    && d.template == r.template
    && (if r.typ == "" then d.typ == "SCHEDULER" else d.typ == r.typ)
    && (if r.port.None? then d.port == Some(9000) else d.port == r.port)
    && (if r.replicas.None? then d.replicas == Some(1) else d.replicas == r.replicas)
  }

  /** The defaults, by value: image, a chief at scheduler 0, and for each set the scheduler's type, port
  9000 and one replica; what is set stays, and nothing else changes. */
  lemma DefaultsByValue(spec: JobSpec, d: JobSpec)
    ensures HasDefaults(spec, d) <==> d == WithDefaults(spec)
  {
    var e := WithDefaults(spec);
    assert HasDefaults(spec, e);
    if HasDefaults(spec, d) {
      forall i | 0 <= i < |spec.replicaSpecs|
        ensures d.replicaSpecs[i] == e.replicaSpecs[i]
      {
        assert Defaulted(spec.replicaSpecs[i], d.replicaSpecs[i]) && Defaulted(spec.replicaSpecs[i], e.replicaSpecs[i]);
      }
      assert d.replicaSpecs == e.replicaSpecs;
    }
  }

  method SetDefaults(spec: JobSpec) returns (out: JobSpec)
    ensures out == WithDefaults(spec) && HasDefaults(spec, out)
  {
    out := spec;
    if out.image == "" {
      out := out.(image := DEFAULT_IMAGE);
    }
    var rs := out.replicaSpecs;
    for i := 0 to |rs|
      invariant |rs| == |spec.replicaSpecs|
      invariant forall k :: 0 <= k < |rs| ==>
                  rs[k] == if k < i then DefaultReplica(spec.replicaSpecs[k]) else spec.replicaSpecs[k]
    {
      if rs[i].port.None? {
        rs := rs[i := rs[i].(port := Some(DEFAULT_PORT))];
      }
      if rs[i].typ == "" {
        rs := rs[i := rs[i].(typ := SCHEDULER)];
      }
      if rs[i].replicas.None? {
        rs := rs[i := rs[i].(replicas := Some(DEFAULT_REPLICAS))];
      }
    }
    assert rs == DefaultReplicas(spec.replicaSpecs);
    out := out.(replicaSpecs := rs);
    if out.policy.None? {
      out := out.(policy := Some(Policy(Some(Chief(SCHEDULER, 0)))));
    }
    DefaultsByValue(spec, out);
  }

  // ---------------------------------------------------------------- validation

  // Some container has the name the operator looks for.
  predicate HasDefaultContainer(t: Template)
  {
    exists i :: 0 <= i < |t.containers| && t.containers[i].name == DEFAULT_CONTAINER
  }

  predicate ValidReplica(r: ReplicaSpec)
  {
    r.template.Some? && r.port.Some? && ValidType(r.typ) && HasDefaultContainer(r.template.value)
  }

  predicate ChiefAmong(rs: seq<ReplicaSpec>, chief: string)
  {
    exists i :: 0 <= i < |rs| && rs[i].typ == chief
  }

  // What a valid spec is.
  predicate ValidSpec(spec: JobSpec)
  {
    && spec.policy.Some? && spec.policy.value.chief.Some?
    && (forall i :: 0 <= i < |spec.replicaSpecs| ==> ValidReplica(spec.replicaSpecs[i]))
    && ChiefAmong(spec.replicaSpecs, spec.policy.value.chief.value.name)
  }

  // What is wrong with replica spec i, looked at alone.
  function ReplicaFault(r: ReplicaSpec, i: nat): (fault: Option<SpecError>)
    ensures fault.None? <==> ValidReplica(r)
  {
    if r.template.None? then Some(MissingTemplate(i))
    else if r.port.None? then Some(NilPort(i))
    else if !ValidType(r.typ) then Some(BadType(i))
    else if !HasDefaultContainer(r.template.value) then Some(NoContainer(i))
    else None
  }

  function FirstFault(rs: seq<ReplicaSpec>, i: nat): (fault: Option<SpecError>)
    requires i <= |rs|
    ensures fault.None? <==> forall k :: i <= k < |rs| ==> ValidReplica(rs[k])
    decreases |rs| - i
  {
    if i == |rs| then None
    else if ReplicaFault(rs[i], i).Some? then ReplicaFault(rs[i], i)
    else FirstFault(rs, i + 1)
  }

  function Validate(spec: JobSpec): (fault: Option<SpecError>)
    ensures fault.None? <==> ValidSpec(spec)
  {
    if spec.policy.None? || spec.policy.value.chief.None? then Some(NoChiefPolicy)
    else if FirstFault(spec.replicaSpecs, 0).Some? then FirstFault(spec.replicaSpecs, 0)
    else if !ChiefAmong(spec.replicaSpecs, spec.policy.value.chief.value.name)
    then Some(MissingChief(spec.policy.value.chief.value.name))
    else None
  }

  // Nothing wrong with a replica spec looked at alone, in the source's own names.
  predicate Faultless(r: ReplicaSpec)
  {
    && r.template.Some? && r.port.Some? && r.typ in {"SCHEDULER", "SERVER", "WORKER"}
    && exists c <- r.template.value.containers :: c.name == "mxnet"
  }

  lemma FaultlessIsValid(r: ReplicaSpec)
    ensures Faultless(r) <==> ValidReplica(r)
  {
    if r.template.Some? {
      var cs := r.template.value.containers;
      if c :| c in cs && c.name == "mxnet" {
        var i :| 0 <= i < |cs| && cs[i] == c;
        assert HasDefaultContainer(r.template.value);
      }
    }
  }

  lemma {:induction false} FirstFaultAt(rs: seq<ReplicaSpec>, i: nat, k: nat)
    requires i <= k < |rs| && (forall j :: i <= j < k ==> ValidReplica(rs[j])) && !ValidReplica(rs[k])
    ensures FirstFault(rs, i) == ReplicaFault(rs[k], k)
    decreases k - i
  {
    if i < k {
      FirstFaultAt(rs, i + 1, k);
    }
  }

  lemma {:induction false} FaultIsOfASet(rs: seq<ReplicaSpec>, i: nat)
    requires i <= |rs|
    ensures FirstFault(rs, i) != Some(NoChiefPolicy)
    decreases |rs| - i
  {
    if i < |rs| {
      FaultIsOfASet(rs, i + 1);
    }
  }

  /** Which error a spec gets: a policy without a chief before all else; then the first replica spec that
  has one of the four faults, and of these the first in this order; last a chief's type that no
  replica spec has. */
  lemma ErrorsByCondition(spec: JobSpec, k: nat)
    ensures Validate(spec) == Some(NoChiefPolicy) <==> spec.policy.None? || spec.policy.value.chief.None?
    ensures spec.policy.Some? && spec.policy.value.chief.Some? && k < |spec.replicaSpecs|
            && (forall j :: 0 <= j < k ==> Faultless(spec.replicaSpecs[j])) && !Faultless(spec.replicaSpecs[k]) ==>
              var r := spec.replicaSpecs[k];
              Validate(spec) == Some(if r.template.None? then MissingTemplate(k)
                                     else if r.port.None? then NilPort(k)
                                     else if r.typ !in {"SCHEDULER", "SERVER", "WORKER"} then BadType(k)
                                     else NoContainer(k))
    ensures spec.policy.Some? && spec.policy.value.chief.Some? && (forall r <- spec.replicaSpecs :: Faultless(r)) ==>
              var chief := spec.policy.value.chief.value.name;
              Validate(spec) == if exists r <- spec.replicaSpecs :: r.typ == chief then None
                                else Some(MissingChief(chief))
  {
    var rs := spec.replicaSpecs;
    FaultIsOfASet(rs, 0);
    forall i | 0 <= i < |rs|
      ensures Faultless(rs[i]) <==> ValidReplica(rs[i])
    {
      FaultlessIsValid(rs[i]);
    }
    if spec.policy.Some? && spec.policy.value.chief.Some? {
      if k < |rs| && (forall j :: 0 <= j < k ==> Faultless(rs[j])) && !Faultless(rs[k]) {
        FirstFaultAt(rs, 0, k);
      }
      if forall r <- rs :: Faultless(r) {
        AllFaultless(spec);
      }
    }
  }

  lemma AllFaultless(spec: JobSpec)
    requires spec.policy.Some? && spec.policy.value.chief.Some?
    requires forall i :: 0 <= i < |spec.replicaSpecs| ==> ValidReplica(spec.replicaSpecs[i])
    ensures var chief := spec.policy.value.chief.value.name;
            Validate(spec) == if exists r <- spec.replicaSpecs :: r.typ == chief then None
                              else Some(MissingChief(chief))
  {
    var chief := spec.policy.value.chief.value.name;
    if r :| r in spec.replicaSpecs && r.typ == chief {
      var i :| 0 <= i < |spec.replicaSpecs| && spec.replicaSpecs[i] == r;
      assert ChiefAmong(spec.replicaSpecs, chief);
    }
  }

  method ValidateTFJobSpec(c: JobSpec) returns (err: Option<SpecError>)
    ensures err == Validate(c)
    ensures err.None? <==> ValidSpec(c)
  {
    if c.policy.None? || c.policy.value.chief.None? {
      return Some(NoChiefPolicy);
    }
    var chief := c.policy.value.chief.value.name;
    var rs := c.replicaSpecs;
    var chiefExists := false;
    for i := 0 to |rs|
      invariant chiefExists <==> exists k :: 0 <= k < i && rs[k].typ == chief
      invariant FirstFault(rs, 0) == FirstFault(rs, i)
    {
      var found, r := false, rs[i];
      if r.template.None? {
        return Some(MissingTemplate(i));
      }
      if r.typ == chief {
        chiefExists := true;
      }
      if r.port.None? {
        return Some(NilPort(i));
      }
      var validReplicaTypes := [SCHEDULER, SERVER, WORKER];
      var isValidReplicaType := false;
      for k := 0 to |validReplicaTypes|
        invariant !isValidReplicaType && forall m :: 0 <= m < k ==> validReplicaTypes[m] != r.typ
      {
        if validReplicaTypes[k] == r.typ {
          isValidReplicaType := true;
          break;
        }
      }
      assert isValidReplicaType <==> ValidType(r.typ) by {
        assert validReplicaTypes[0] == SCHEDULER && validReplicaTypes[1] == SERVER && validReplicaTypes[2] == WORKER;
      }
      if !isValidReplicaType {
        return Some(BadType(i));
      }
      var containers := r.template.value.containers;
      for k := 0 to |containers|
        invariant !found && forall m :: 0 <= m < k ==> containers[m].name != DEFAULT_CONTAINER
      {
        if containers[k].name == DEFAULT_CONTAINER {
          found := true;
          break;
        }
      }
      assert found <==> HasDefaultContainer(r.template.value);
      if !found {
        return Some(NoContainer(i));
      }
    }
    if !chiefExists {
      return Some(MissingChief(chief));
    }
    return None;
  }
}
