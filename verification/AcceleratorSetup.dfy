/** ConfigureAcceleratorsForTFJobSpec: volumes, mounts and environment added for the accelerators
that a replica's mxnet container asks for. */
module AcceleratorSetup {
  import opened Wrappers
  import opened Api

  // The order in which the i-th range over a map of accelerator configs visits its keys.
  type Order = (nat, set<string>) -> seq<string>

  // The names of q are those of s, each once.
  ghost predicate Enumerates(q: seq<string>, s: set<string>)
  {
    multiset(q) == multiset(s)
  }

  ghost predicate FairOrder(order: Order)
  {
    forall i: nat, s: set<string> :: Enumerates(order(i, s), s)
  }

  // ---------------------------------------------------------------- specification

  // The configured accelerators that a container lists, as limit or as request, each once.
  function Wanted(c: Container, accelerators: Accelerators): set<string>
  {
    set n | n in c.limits + c.requests && n in accelerators
  }

  function AddedVolumes(vs: seq<AcceleratorVolume>): seq<Volume>
  {
    if vs == [] then [] else [Volume(vs[0].name, vs[0].hostPath)] + AddedVolumes(vs[1..])
  }

  function AddedMounts(vs: seq<AcceleratorVolume>): seq<Mount>
  {
    if vs == [] then [] else [Mount(vs[0].name, vs[0].mountPath)] + AddedMounts(vs[1..])
  }

  function ConfigOf(accelerators: Accelerators, name: string): AcceleratorConfig
  {
    if name in accelerators then accelerators[name] else AcceleratorConfig([], [])
  }

  function AllVolumes(names: seq<string>, accelerators: Accelerators): seq<Volume>
  {
    if names == [] then []
    else AddedVolumes(ConfigOf(accelerators, names[0]).volumes) + AllVolumes(names[1..], accelerators)
  }

  function AllMounts(names: seq<string>, accelerators: Accelerators): seq<Mount>
  {
    if names == [] then []
    else AddedMounts(ConfigOf(accelerators, names[0]).volumes) + AllMounts(names[1..], accelerators)
  }

  function AllEnv(names: seq<string>, accelerators: Accelerators): seq<EnvVar>
  {
    if names == [] then [] else ConfigOf(accelerators, names[0]).env + AllEnv(names[1..], accelerators)
  }

  // What visiting q adds to a template and to the container c of it.
  function Visit(t: Template, c: Container, q: seq<string>, accelerators: Accelerators): (Template, Container)
  {
    (t.(volumes := t.volumes + AllVolumes(q, accelerators)),
     c.(mounts := c.mounts + AllMounts(q, accelerators), env := c.env + AllEnv(q, accelerators)))
  }

  // The position of the first mxnet container from i on, or the number of containers.
  function FirstDefault(cs: seq<Container>, i: nat): (k: nat)
    requires i <= |cs|
    ensures i <= k <= |cs| && (k < |cs| ==> cs[k].name == DEFAULT_CONTAINER)
    ensures forall j :: i <= j < k ==> cs[j].name != DEFAULT_CONTAINER
    decreases |cs| - i
  {
    if i == |cs| || cs[i].name == DEFAULT_CONTAINER then i else FirstDefault(cs, i + 1)
  }

  function WithAccelerators(t: Template, k: nat, names: seq<string>, accelerators: Accelerators): Template
    requires k < |t.containers|
  {
    var (t', c) := Visit(t, t.containers[k], names, accelerators);
    t'.(containers := t.containers[k := c])
  }

  function ConfigureTemplate(t: Template, i: nat, accelerators: Accelerators, order: Order): Template
  {
    var k := FirstDefault(t.containers, 0);
    if k == |t.containers| then t
    else WithAccelerators(t, k, order(i, Wanted(t.containers[k], accelerators)), accelerators)
  }

  // The specs from i on, and whether every one of them had a template; the specs before a missing
  // template are changed all the same.
  function ConfigureFrom(rs: seq<ReplicaSpec>, i: nat, accelerators: Accelerators, order: Order)
    : (out: (seq<ReplicaSpec>, bool))
    requires i <= |rs|
    ensures |out.0| == |rs| - i
    decreases |rs| - i
  {
    if i == |rs| then ([], true)
    else if rs[i].template.None? then (rs[i..], false)
    else
      var r := rs[i].(template := Some(ConfigureTemplate(rs[i].template.value, i, accelerators, order)));
      var rest := ConfigureFrom(rs, i + 1, accelerators, order);
      ([r] + rest.0, rest.1)
  }

  // ---------------------------------------------------------------- properties

  lemma {:induction false} SameLengths(vs: seq<AcceleratorVolume>)
    ensures |AddedVolumes(vs)| == |AddedMounts(vs)| == |vs|
  {
    if vs != [] {
      SameLengths(vs[1..]);
    }
  }

  /** Volume k and mount k added for an accelerator carry its name, its host path and its mount path. */
  lemma {:induction false} AddedAt(vs: seq<AcceleratorVolume>, k: nat)
    requires k < |vs|
    ensures |AddedVolumes(vs)| == |AddedMounts(vs)| == |vs|
    ensures AddedVolumes(vs)[k] == Volume(vs[k].name, vs[k].hostPath)
    ensures AddedMounts(vs)[k] == Mount(vs[k].name, vs[k].mountPath)
  {
    SameLengths(vs);
    if k > 0 {
      AddedAt(vs[1..], k - 1);
    }
  }

  lemma {:induction false} AllHas(names: seq<string>, accelerators: Accelerators, n: string)
    requires n in names
    ensures forall v <- AddedVolumes(ConfigOf(accelerators, n).volumes) :: v in AllVolumes(names, accelerators)
    ensures forall m <- AddedMounts(ConfigOf(accelerators, n).volumes) :: m in AllMounts(names, accelerators)
    ensures forall e <- ConfigOf(accelerators, n).env :: e in AllEnv(names, accelerators)
  {
    if n != names[0] {
      AllHas(names[1..], accelerators, n);
    }
  }

  /** What a template gets: for every configured accelerator that its first mxnet container lists as limit
  or request, each volume of the accelerator with its host path, mounted in that container at its
  mount path, and each of the accelerator's variables. */
  lemma TemplateGets(t: Template, i: nat, accelerators: Accelerators, order: Order, k: nat, n: string)
    requires FairOrder(order) && k < |t.containers| && t.containers[k].name == "mxnet"
    requires forall j :: 0 <= j < k ==> t.containers[j].name != "mxnet"
    requires (n in t.containers[k].limits || n in t.containers[k].requests) && n in accelerators
    ensures var t', a := ConfigureTemplate(t, i, accelerators, order), accelerators[n];
            && |t'.containers| == |t.containers|
            && (forall v <- a.volumes :: Volume(v.name, v.hostPath) in t'.volumes
                                         && Mount(v.name, v.mountPath) in t'.containers[k].mounts)
            && forall e <- a.env :: e in t'.containers[k].env
  {
    var c, a := t.containers[k], accelerators[n];
    assert FirstDefault(t.containers, 0) == k;
    var names := order(i, Wanted(c, accelerators));
    assert Enumerates(names, Wanted(c, accelerators));
    assert n in multiset(names);
    AllHas(names, accelerators, n);
    forall v | v in a.volumes
      ensures Volume(v.name, v.hostPath) in AllVolumes(names, accelerators)
      ensures Mount(v.name, v.mountPath) in AllMounts(names, accelerators)
    {
      var j :| 0 <= j < |a.volumes| && a.volumes[j] == v;
      AddedAt(a.volumes, j);
    }
  }

  lemma {:induction false} AsManyMountsAsVolumes(names: seq<string>, accelerators: Accelerators)
    ensures |AllVolumes(names, accelerators)| == |AllMounts(names, accelerators)|
  {
    if names != [] {
      AsManyMountsAsVolumes(names[1..], accelerators);
      SameLengths(ConfigOf(accelerators, names[0]).volumes);
    }
  }

  function Sum<T(==)>(names: seq<string>, f: string -> multiset<T>): multiset<T>
  {
    if names == [] then multiset{} else f(names[0]) + Sum(names[1..], f)
  }

  lemma {:induction false} SumTakeOut<T>(names: seq<string>, k: nat, f: string -> multiset<T>)
    requires k < |names|
    ensures Sum(names, f) == f(names[k]) + Sum(names[..k] + names[k + 1..], f)
  {
    var rest := names[..k] + names[k + 1..];
    if k == 0 {
      assert rest == names[1..];
    } else {
      SumTakeOut(names[1..], k - 1, f);
      assert rest[1..] == names[1..][..k - 1] + names[1..][k..];
    }
  }

  lemma DropOne(q: seq<string>, k: nat)
    requires k < |q|
    ensures multiset(q[..k] + q[k + 1..]) == multiset(q) - multiset{q[k]}
  {
    assert q == q[..k] + [q[k]] + q[k + 1..];
  }

  lemma {:induction false} SumOrder<T>(p: seq<string>, q: seq<string>, f: string -> multiset<T>)
    requires multiset(p) == multiset(q)
    ensures Sum(p, f) == Sum(q, f)
  {
    if p == [] {
      assert |multiset(q)| == 0;
    } else {
      assert p[0] in multiset(q);
      var k :| 0 <= k < |q| && q[k] == p[0];
      DropOne(p, 0);
      DropOne(q, k);
      assert p[..0] + p[1..] == p[1..];
      SumOrder(p[1..], q[..k] + q[k + 1..], f);
      SumTakeOut(q, k, f);
    }
  }

  lemma {:induction false} AddedSums(names: seq<string>, accelerators: Accelerators,
                                     v: string -> multiset<Volume>, m: string -> multiset<Mount>,
                                     e: string -> multiset<EnvVar>)
    requires forall n :: v(n) == multiset(AddedVolumes(ConfigOf(accelerators, n).volumes))
    requires forall n :: m(n) == multiset(AddedMounts(ConfigOf(accelerators, n).volumes))
    requires forall n :: e(n) == multiset(ConfigOf(accelerators, n).env)
    ensures multiset(AllVolumes(names, accelerators)) == Sum(names, v)
    ensures multiset(AllMounts(names, accelerators)) == Sum(names, m)
    ensures multiset(AllEnv(names, accelerators)) == Sum(names, e)
  {
    if names != [] {
      AddedSums(names[1..], accelerators, v, m, e);
    }
  }

  /** The additions, as multisets, do not depend on the order in which the map is visited. */
  lemma {:induction false} OrderDoesNotMatter(p: seq<string>, q: seq<string>, accelerators: Accelerators)
    requires multiset(p) == multiset(q)
    ensures multiset(AllVolumes(p, accelerators)) == multiset(AllVolumes(q, accelerators))
    ensures multiset(AllMounts(p, accelerators)) == multiset(AllMounts(q, accelerators))
    ensures multiset(AllEnv(p, accelerators)) == multiset(AllEnv(q, accelerators))
  {
    var v := (n: string) => multiset(AddedVolumes(ConfigOf(accelerators, n).volumes));
    var m := (n: string) => multiset(AddedMounts(ConfigOf(accelerators, n).volumes));
    var e := (n: string) => multiset(ConfigOf(accelerators, n).env);
    AddedSums(p, accelerators, v, m, e);
    AddedSums(q, accelerators, v, m, e);
    SumOrder(p, q, v);
    SumOrder(p, q, m);
    SumOrder(p, q, e);
  }

  /** Conservation: what a template had stays in front, as many mounts as volumes are added, only
  the first mxnet container changes, and the additions are the sum over the wanted accelerators,
  each counted once, for every enumeration q of them. */
  lemma {:induction false} TemplateConserved(t: Template, i: nat, accelerators: Accelerators, order: Order,
                                             q: seq<string>)
    requires FairOrder(order)
    ensures var t', k := ConfigureTemplate(t, i, accelerators, order), FirstDefault(t.containers, 0);
            && t.volumes <= t'.volumes && |t'.containers| == |t.containers|
            && (forall j :: 0 <= j < |t.containers| && j != k ==> t'.containers[j] == t.containers[j])
            && (k == |t.containers| ==> t' == t)
            && (k < |t.containers| && Enumerates(q, Wanted(t.containers[k], accelerators)) ==>
                  var c, c' := t.containers[k], t'.containers[k];
                  && c' == c.(mounts := c'.mounts, env := c'.env) && c.mounts <= c'.mounts && c.env <= c'.env
                  && |t'.volumes| - |t.volumes| == |c'.mounts| - |c.mounts|
                  && multiset(t'.volumes[|t.volumes|..]) == multiset(AllVolumes(q, accelerators))
                  && multiset(c'.mounts[|c.mounts|..]) == multiset(AllMounts(q, accelerators))
                  && multiset(c'.env[|c.env|..]) == multiset(AllEnv(q, accelerators)))
  {
    var t', k := ConfigureTemplate(t, i, accelerators, order), FirstDefault(t.containers, 0);
    if k < |t.containers| {
      var c := t.containers[k];
      var wanted := Wanted(c, accelerators);
      var p := order(i, wanted);
      assert Enumerates(p, wanted);
      AsManyMountsAsVolumes(p, accelerators);
      if Enumerates(q, wanted) {
        OrderDoesNotMatter(p, q, accelerators);
        assert t'.volumes[|t.volumes|..] == AllVolumes(p, accelerators);
        assert t'.containers[k].mounts[|c.mounts|..] == AllMounts(p, accelerators);
        assert t'.containers[k].env[|c.env|..] == AllEnv(p, accelerators);
      }
    }
  }

  /** The step succeeds exactly when no template is missing. */
  lemma {:induction false} ConfigureSucceeds(rs: seq<ReplicaSpec>, i: nat, accelerators: Accelerators, order: Order)
    requires i <= |rs|
    ensures ConfigureFrom(rs, i, accelerators, order).1 <==> forall k :: i <= k < |rs| ==> rs[k].template.Some?
    decreases |rs| - i
  {
    if i < |rs| && rs[i].template.Some? {
      ConfigureSucceeds(rs, i + 1, accelerators, order);
    }
  }

  /** It touches templates only, and replaces each template it reaches by the configured one. */
  lemma {:induction false} ConfigureTouchesTemplates(rs: seq<ReplicaSpec>, i: nat, k: nat,
                                                     accelerators: Accelerators, order: Order)
    requires i <= k < |rs|
    ensures var r, out := rs[k], ConfigureFrom(rs, i, accelerators, order);
            && out.0[k - i] == r.(template := out.0[k - i].template)
            && (out.0[k - i].template.Some? <==> r.template.Some?)
            && (out.1 && r.template.Some? ==>
                  out.0[k - i].template == Some(ConfigureTemplate(r.template.value, k, accelerators, order)))
    decreases k - i
  {
    if rs[i].template.Some? && i < k {
      ConfigureTouchesTemplates(rs, i + 1, k, accelerators, order);
    }
  }

  // ---------------------------------------------------------------- the algorithm

  // Specs that are done, put in front of those still to do.
  function After(out: seq<ReplicaSpec>, rest: (seq<ReplicaSpec>, bool)): (seq<ReplicaSpec>, bool)
  {
    (out + rest.0, rest.1)
  }

  lemma ConfigureStep(rs: seq<ReplicaSpec>, i: nat, accelerators: Accelerators, order: Order, out: seq<ReplicaSpec>)
    requires i < |rs| && rs[i].template.Some?
    ensures var r := rs[i].(template := Some(ConfigureTemplate(rs[i].template.value, i, accelerators, order)));
            After(out, ConfigureFrom(rs, i, accelerators, order)) ==
            After(out + [r], ConfigureFrom(rs, i + 1, accelerators, order))
  {
    var r := rs[i].(template := Some(ConfigureTemplate(rs[i].template.value, i, accelerators, order)));
    var rest := ConfigureFrom(rs, i + 1, accelerators, order).0;
    assert out + ([r] + rest) == (out + [r]) + rest;
  }

  method ConfigureAccelerators(rs: seq<ReplicaSpec>, accelerators: Accelerators, order: Order)
    returns (out: seq<ReplicaSpec>, ok: bool)
    ensures (out, ok) == ConfigureFrom(rs, 0, accelerators, order)
  {
    out := [];
    ghost var whole := ConfigureFrom(rs, 0, accelerators, order);
    assert out + whole.0 == whole.0;
    for i := 0 to |rs|
      invariant whole == After(out, ConfigureFrom(rs, i, accelerators, order))
    {
      if rs[i].template.None? {
        return out + rs[i..], false;
      }
      var t := ConfigureOne(rs[i].template.value, i, accelerators, order);
      ConfigureStep(rs, i, accelerators, order, out);
      out := out + [rs[i].(template := Some(t))];
    }
    assert out + [] == out;
    ok := true;
  }

  method ConfigureOne(t0: Template, i: nat, accelerators: Accelerators, order: Order) returns (t: Template)
    ensures t == ConfigureTemplate(t0, i, accelerators, order)
  {
    t := t0;
    for k := 0 to |t.containers|
      invariant t == t0 && FirstDefault(t.containers, 0) == FirstDefault(t.containers, k)
    {
      if t.containers[k].name == DEFAULT_CONTAINER {
        var a := Requested(t.containers[k], accelerators);
        var c;
        t, c := AddConfigs(t, t.containers[k], order(i, a), accelerators);
        t := t.(containers := t.containers[k := c]);
        break;
      }
    }
  }

  lemma Reassociate<T>(a: seq<T>, b: seq<T>, c: seq<T>)
    ensures (a + b) + c == a + (b + c)
  {}

  lemma VolumesStep(before: seq<Volume>, q: seq<string>, accelerators: Accelerators)
    requires q != []
    ensures (before + AddedVolumes(ConfigOf(accelerators, q[0]).volumes)) + AllVolumes(q[1..], accelerators)
         == before + AllVolumes(q, accelerators)
  {
    Reassociate(before, AddedVolumes(ConfigOf(accelerators, q[0]).volumes), AllVolumes(q[1..], accelerators));
  }

  lemma MountsStep(before: seq<Mount>, q: seq<string>, accelerators: Accelerators)
    requires q != []
    ensures (before + AddedMounts(ConfigOf(accelerators, q[0]).volumes)) + AllMounts(q[1..], accelerators)
         == before + AllMounts(q, accelerators)
  {
    Reassociate(before, AddedMounts(ConfigOf(accelerators, q[0]).volumes), AllMounts(q[1..], accelerators));
  }

  lemma EnvStep(before: seq<EnvVar>, q: seq<string>, accelerators: Accelerators)
    requires q != []
    ensures (before + ConfigOf(accelerators, q[0]).env) + AllEnv(q[1..], accelerators)
         == before + AllEnv(q, accelerators)
  {
    Reassociate(before, ConfigOf(accelerators, q[0]).env, AllEnv(q[1..], accelerators));
  }

  lemma VisitStep(t: Template, c: Container, q: seq<string>, accelerators: Accelerators, t': Template, c': Container)
    requires q != []
    requires var config := ConfigOf(accelerators, q[0]);
             && t' == t.(volumes := t.volumes + AddedVolumes(config.volumes))
             && c' == c.(mounts := c.mounts + AddedMounts(config.volumes), env := c.env + config.env)
    ensures Visit(t', c', q[1..], accelerators) == Visit(t, c, q, accelerators)
  {
    VolumesStep(t.volumes, q, accelerators);
    MountsStep(c.mounts, q, accelerators);
    EnvStep(c.env, q, accelerators);
  }

  method AddConfigs(t0: Template, c0: Container, names: seq<string>, accelerators: Accelerators)
    returns (t: Template, c: Container)
    ensures (t, c) == Visit(t0, c0, names, accelerators)
  {
    t, c := t0, c0;
    for n := 0 to |names|
      invariant Visit(t, c, names[n..], accelerators) == Visit(t0, c0, names, accelerators)
    {
      ghost var t1, c1 := t, c;
      t, c := AddConfig(t, c, ConfigOf(accelerators, names[n]));
      assert names[n..][0] == names[n] && names[n..][1..] == names[n + 1..];
      VisitStep(t1, c1, names[n..], accelerators, t, c);
    }
    assert names[|names|..] == [];
    assert t.volumes + [] == t.volumes && c.mounts + [] == c.mounts && c.env + [] == c.env;
  }

  // The keys of the map built from the container's two resource lists.
  method Requested(c: Container, accelerators: Accelerators) returns (a: set<string>)
    ensures a == Wanted(c, accelerators)
  {
    var lists := [c.limits, c.requests];
    a := {};
    for i := 0 to 2
      invariant a == set n | n in accelerators && ((i > 0 && n in c.limits) || (i > 1 && n in c.requests))
    {
      var more := Configured(lists[i], accelerators);
      a := a + more;
    }
  }

  method Configured(names: set<string>, accelerators: Accelerators) returns (a: set<string>)
    ensures a == set n | n in names && n in accelerators
  {
    a := {};
    var left := names;
    while left != {}
      invariant left <= names
      invariant a == set n | n in names && n !in left && n in accelerators
      decreases |left|
    {
      var name :| name in left;
      left := left - {name};
      if name in accelerators {
        a := a + {name};
      }
    }
  }

  method AddConfig(t0: Template, c0: Container, config: AcceleratorConfig) returns (t: Template, c: Container)
    ensures t == t0.(volumes := t0.volumes + AddedVolumes(config.volumes))
    ensures c == c0.(mounts := c0.mounts + AddedMounts(config.volumes), env := c0.env + config.env)
  {
    t, c := t0, c0;
    var vs := config.volumes;
    for i := 0 to |vs|
      invariant t == t0.(volumes := t.volumes) && t.volumes + AddedVolumes(vs[i..]) == t0.volumes + AddedVolumes(vs)
      invariant c == c0.(mounts := c.mounts) && c.mounts + AddedMounts(vs[i..]) == c0.mounts + AddedMounts(vs)
    {
      assert vs[i..][0] == vs[i] && vs[i..][1..] == vs[i + 1..];
      t := t.(volumes := t.volumes + [Volume(vs[i].name, vs[i].hostPath)]);
      c := c.(mounts := c.mounts + [Mount(vs[i].name, vs[i].mountPath)]);
    }
    assert vs[|vs|..] == [];
    for i := 0 to |config.env|
      invariant c == c0.(mounts := c.mounts, env := c0.env + config.env[..i])
      invariant c.mounts == c0.mounts + AddedMounts(vs)
    {
      c := c.(env := c.env + [EnvVar(config.env[i].name, config.env[i].value)]);
    }
  }
}
