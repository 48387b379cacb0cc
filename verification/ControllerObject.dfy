/** The controller as an object: a map from keys to TrainingJob objects, changed in place by syncMXJob. */
module ControllerObject {
  import opened Wrappers
  import opened Api
  import opened Store
  import opened Loops
  import opened Training
  import opened ClusterClient
  import opened Trainer
  import opened Controller

  lemma UpdatedTwice(jobs: Jobs, key: string, m: Memory, m': Memory)
    ensures jobs[key := m][key := m'] == jobs[key := m']
  {}

  class MXController {
    const cluster: Cluster
    var jobs: map<string, TrainingJob>

    constructor (cluster: Cluster)
      ensures this.cluster == cluster && jobs == map[] && Valid()
    {
      this.cluster := cluster;
      this.jobs := map[];
    }

    // Every key has a TrainingJob of its own.
    ghost predicate Valid()
      reads this, jobs.Values
    {
      && (forall key <- jobs :: jobs[key].cluster == cluster && jobs[key].Valid())
      && (forall k, l :: k in jobs && l in jobs && k != l ==> jobs[k] != jobs[l])
    }

    function Memories(): Jobs
      reads this, jobs.Values
    {
      map key | key in jobs :: jobs[key].Mem()
    }

    twostate lemma OneMemoryChanged(key: string)
      requires key in jobs && jobs == old(jobs)[key := jobs[key]]
      requires forall k <- old(jobs) :: k != key ==> unchanged(old(jobs)[k])
      ensures Memories() == old(Memories())[key := jobs[key].Mem()]
    {}

    twostate lemma SameMemories()
      requires jobs == old(jobs) && forall k <- old(jobs) :: unchanged(old(jobs)[k])
      ensures Memories() == old(Memories())
    {}

    // The TrainingJob for a listed job: the one kept, if it has the job's UID, else a new one in its place.
    method Adopt(key: string, job: Job) returns (nc: TrainingJob)
      requires Valid()
      modifies this`jobs
      ensures Valid() && key in jobs && jobs == old(jobs)[key := nc]
      ensures if key in old(jobs) && old(jobs[key].job.uid) == job.uid then nc == old(jobs[key]) else fresh(nc)
      ensures nc.Mem() == Controller.Adopt(old(Memories()), key, job)
      ensures Memories() == old(Memories())[key := nc.Mem()]
    {
      if key !in jobs || jobs[key].job.uid != job.uid {
        nc := new TrainingJob(cluster, job);
        jobs := jobs[key := nc];
      }
      nc := jobs[key];
      OneMemoryChanged(key);
    }

    // One pass over the TrainingJob of a key.
    method ReconcileKey(key: string, accelerators: Accelerators) returns (out: Outcome)
      requires Valid() && key in jobs
      modifies cluster, jobs[key]
      ensures Valid()
      ensures Ret(cluster.world, Turn(jobs[key].Mem(), out))
           == Training.Reconcile(cluster.env, old(cluster.world), old(jobs[key].Mem()), accelerators)
      ensures Memories() == old(Memories())[key := jobs[key].Mem()]
    {
      var nc := jobs[key];
      out := nc.Reconcile(accelerators);
      OneMemoryChanged(key);
    }

    // Every other key keeps its TrainingJob, as it is; this one keeps its own exactly if the UID is the same.
    twostate predicate OnlyThisKey(before: map<string, TrainingJob>, key: string, job: Job)
      reads this, before.Values
    {
      && (forall k <- before :: k != key ==> k in jobs && jobs[k] == before[k] && unchanged(before[k]))
      && key in jobs
      && (if key in before && old(before[key].job.uid) == job.uid then jobs[key] == before[key] else fresh(jobs[key]))
    }

    method Pass(key: string, job: Job, accelerators: Accelerators) returns (out: Outcome)
      requires Valid()
      modifies this`jobs, cluster, jobs.Values
      ensures Valid() && key in jobs
      ensures Ret(cluster.world, Turn(jobs[key].Mem(), out))
           == Training.Reconcile(cluster.env, old(cluster.world), Controller.Adopt(old(Memories()), key, job),
                                 accelerators)
      ensures Memories() == old(Memories())[key := jobs[key].Mem()]
      ensures OnlyThisKey(old(jobs), key, job)
    {
      ghost var before := Memories();
      var nc := Adopt(key, job);
      ghost var m := nc.Mem();
      out := ReconcileKey(key, accelerators);
      UpdatedTwice(before, key, m, jobs[key].Mem());
    }

    // After the pass: whether the stored job is done with.
    method Conclude(ref: Ref, out: Outcome, ghost memories: Jobs) returns (forget: bool, failed: bool, died: bool)
      modifies cluster
      ensures Ret(cluster.world, Synced(memories, forget, failed, died))
           == Controller.Conclude(cluster.env, old(cluster.world), memories, ref, out)
    {
      if out != Fine {
        return false, true, out == Panicked;
      }
      var mxJob := cluster.GetJob(ref);
      if mxJob.None? {
        return false, true, false;
      }
      return mxJob.value.status.phase == CleanUp, false, false;
    }

    method SyncListed(key: string, ref: Ref, job: Job, accelerators: Accelerators)
      returns (forget: bool, failed: bool, died: bool)
      requires Valid() && SplitKey(key) == Some(ref)
      modifies this`jobs, cluster, jobs.Values
      ensures Valid() && OnlyThisKey(old(jobs), key, job)
      ensures Ret(cluster.world, Synced(Memories(), forget, failed, died))
           == SyncJob(cluster.env, old(cluster.world), old(Memories()), key, InCache(job), accelerators)
    {
      var out := Pass(key, job, accelerators);
      label Passed:
      forget, failed, died := Conclude(ref, out, Memories());
      SameMemories@Passed();
    }

    // The lister is asked for the job of the key's namespace and name.
    method SyncMXJob(key: string, lister: Ref -> Listed, accelerators: Accelerators)
      returns (forget: bool, failed: bool, died: bool)
      requires Valid()
      modifies this`jobs, cluster, jobs.Values
      ensures Valid()
      ensures forall ref: Ref :: HasKey(ref) && key == ref.ns + "/" + ref.name ==>
                Ret(cluster.world, Synced(Memories(), forget, failed, died))
                == SyncJob(cluster.env, old(cluster.world), old(Memories()), key, lister(ref), accelerators)
      ensures forall ref: Ref :: HasKey(ref) && key == ref.ns + "/" + ref.name ==>
                if lister(ref).InCache? then OnlyThisKey(old(jobs), key, lister(ref).job)
                else jobs == old(jobs) && forall k <- jobs :: unchanged(jobs[k])
      ensures (forall ref: Ref :: HasKey(ref) ==> key != ref.ns + "/" + ref.name) ==>
                && failed && !forget && !died && cluster.world == old(cluster.world)
                && jobs == old(jobs) && forall k <- jobs :: unchanged(jobs[k])
    {
      var ref := SplitKey(key);
      forall r: Ref
        ensures ref == Some(r) <==> key == r.ns + "/" + r.name && HasKey(r)
      {
        SplitKeyIff(key, r);
      }
      if ref.None? {
        return false, true, false;
      }
      var listed := lister(ref.value);
      if listed.CacheError? {
        return false, true, false;
      }
      if listed.NotInCache? {
        return true, false, false;
      }
      forget, failed, died := SyncListed(key, ref.value, listed.job, accelerators);
    }
  }
}
