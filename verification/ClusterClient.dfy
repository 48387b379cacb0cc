/** The clientset as an object: every call changes the one world that all replica sets, jobs and the
controller share. */
module ClusterClient {
  import opened Wrappers
  import opened Api
  import opened Store

  class Cluster {
    const env: Env
    var world: World

    constructor (env: Env, world: World)
      ensures this.env == env && this.world == world
    {
      this.env := env;
      this.world := world;
    }

    method Look()
      modifies this
      ensures world == Store.Look(env, old(world))
    {
      world := Store.Look(env, world);
    }

    method ListPods(ns: string, selector: Labels, notFailed: bool) returns (items: Option<seq<Pod>>)
      modifies this
      ensures Ret(world, items) == Store.ListPods(env, old(world), ns, selector, notFailed)
    {
      var r := Store.ListPods(env, world, ns, selector, notFailed);
      world, items := r.w, r.v;
    }

    method GetPod(ref: Ref) returns (pod: Option<Pod>)
      modifies this
      ensures Ret(world, pod) == Store.GetPod(env, old(world), ref)
    {
      var r := Store.GetPod(env, world, ref);
      world, pod := r.w, r.v;
    }

    method GetJob(ref: Ref) returns (job: Option<Job>)
      modifies this
      ensures Ret(world, job) == Store.GetJob(env, old(world), ref)
    {
      var r := Store.GetJob(env, world, ref);
      world, job := r.w, r.v;
    }

    method GetService(ref: Ref) returns (reply: GetReply)
      modifies this
      ensures Ret(world, reply) == Store.GetService(env, old(world), ref)
    {
      var r := Store.GetService(env, world, ref);
      world, reply := r.w, r.v;
    }

    method GetConfigMap(ref: Ref) returns (reply: GetReply)
      modifies this
      ensures Ret(world, reply) == Store.GetConfigMap(env, old(world), ref)
    {
      var r := Store.GetConfigMap(env, world, ref);
      world, reply := r.w, r.v;
    }

    method CreatePod(ref: Ref, pod: Pod) returns (reply: CreateReply)
      modifies this
      ensures Ret(world, reply) == Store.CreatePod(env, old(world), ref, pod)
    {
      var r := Store.CreatePod(env, world, ref, pod);
      world, reply := r.w, r.v;
    }

    method CreateService(ref: Ref, service: Service) returns (reply: CreateReply)
      modifies this
      ensures Ret(world, reply) == Store.CreateService(env, old(world), ref, service)
    {
      var r := Store.CreateService(env, world, ref, service);
      world, reply := r.w, r.v;
    }

    method UpdateJob(job: Job) returns (ok: bool)
      modifies this
      ensures Ret(world, ok) == Store.UpdateJob(env, old(world), job)
    {
      var r := Store.UpdateJob(env, world, job);
      world, ok := r.w, r.v;
    }

    method DeletePods(ns: string, selector: Labels) returns (ok: bool)
      modifies this
      ensures Ret(world, ok) == Store.DeletePods(env, old(world), ns, selector)
    {
      var r := Store.DeletePods(env, world, ns, selector);
      world, ok := r.w, r.v;
    }

    method DeleteService(ref: Ref) returns (ok: bool)
      modifies this
      ensures Ret(world, ok) == Store.DeleteService(env, old(world), ref)
    {
      var r := Store.DeleteService(env, world, ref);
      world, ok := r.w, r.v;
    }

    method DeleteConfigMap(ref: Ref) returns (ok: bool)
      modifies this
      ensures Ret(world, ok) == Store.DeleteConfigMap(env, old(world), ref)
    {
      var r := Store.DeleteConfigMap(env, world, ref);
      world, ok := r.w, r.v;
    }
  }
}
