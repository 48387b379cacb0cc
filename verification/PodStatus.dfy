/** Reading a replica's state off its pods (replicaStatusFromPodList, isRetryableTerminationState)
and folding replica states into one (the second half of MXReplicaSet.GetStatus). */
module PodStatus {
  import opened Wrappers
  import opened Api

  // ---------------------------------------------------------------- one pod

  predicate Retryable(t: Termination)
  {
    t.reason != "OOMKilled" && !(0 <= t.exitCode <= 127)
  }

  // The container state that counts: of the last container with this name, the previous
  // termination if there was one.
  function RelevantState(statuses: seq<ContainerStatus>, name: string): ContainerState
  {
    if statuses == [] then ContainerState(false, false, None)
    else
      var s := statuses[|statuses| - 1];
      if s.name != name then RelevantState(statuses[..|statuses| - 1], name)
      else if s.last.terminated.Some? then s.last
      else s.state
  }

  function StateOf(s: ContainerState): ReplicaState
  {
    if s.running || s.waiting then ReplicaRunning
    else if s.terminated.None? then ReplicaUnknown
    else if s.terminated.value.exitCode == 0 then ReplicaSucceeded
    else if Retryable(s.terminated.value) then ReplicaRunning
    else ReplicaFailed
  }

  function StateOfPod(p: Pod, name: string): ReplicaState
  {
    StateOf(RelevantState(p.statuses, name))
  }

  // No container with the name after position k.
  predicate IsLastNamed(statuses: seq<ContainerStatus>, name: string, k: nat)
  {
    k < |statuses| && statuses[k].name == name && forall m :: k < m < |statuses| ==> statuses[m].name != name
  }

  /** The state that counts is that of the last container with the name, its previous termination first. */
  lemma {:induction false} RelevantIsLast(statuses: seq<ContainerStatus>, name: string, k: nat)
    requires IsLastNamed(statuses, name, k)
    ensures RelevantState(statuses, name)
         == if statuses[k].last.terminated.Some? then statuses[k].last else statuses[k].state
  {
    if k < |statuses| - 1 {
      RelevantIsLast(statuses[..|statuses| - 1], name, k);
    }
  }

  lemma {:induction false} NoneNamed(statuses: seq<ContainerStatus>, name: string)
    requires forall m :: 0 <= m < |statuses| ==> statuses[m].name != name
    ensures StateOf(RelevantState(statuses, name)) == ReplicaUnknown
  {
    if statuses != [] {
      NoneNamed(statuses[..|statuses| - 1], name);
    }
  }

  // What a container state says: that it runs or waits, that it ended well, with an error to retry or
  // for good, or nothing.
  predicate Says(s: ContainerState, v: ReplicaState)
  {
    if s.running || s.waiting then v == ReplicaRunning
    else if s.terminated.None? then v == ReplicaUnknown
    else
      var t := s.terminated.value;
      && (v == ReplicaSucceeded <==> t.exitCode == 0)
      && (v == ReplicaFailed <==> t.exitCode != 0 && (t.reason == "OOMKilled" || 1 <= t.exitCode <= 127))
      && (v == ReplicaRunning <==> t.reason != "OOMKilled" && (t.exitCode < 0 || t.exitCode > 127))
  }

  /** A pod's verdict: what the state says that counts of its last container of the name, the previous
  termination first; without such a container it is not known. */
  lemma {:induction false} PodVerdict(p: Pod, name: string)
    ensures (forall m :: 0 <= m < |p.statuses| ==> p.statuses[m].name != name) ==> StateOfPod(p, name) == ReplicaUnknown
    ensures forall k: nat :: IsLastNamed(p.statuses, name, k) ==>
              Says(if p.statuses[k].last.terminated.Some? then p.statuses[k].last else p.statuses[k].state,
                   StateOfPod(p, name))
  {
    if forall m :: 0 <= m < |p.statuses| ==> p.statuses[m].name != name {
      NoneNamed(p.statuses, name);
    }
    forall k: nat | IsLastNamed(p.statuses, name, k)
      ensures Says(if p.statuses[k].last.terminated.Some? then p.statuses[k].last else p.statuses[k].state,
                   StateOfPod(p, name))
    {
      RelevantIsLast(p.statuses, name, k);
    }
  }

  method RelevantContainerState(statuses: seq<ContainerStatus>, name: string) returns (state: ContainerState)
    ensures state == RelevantState(statuses, name)
  {
    state := ContainerState(false, false, None);
    for k := 0 to |statuses|
      invariant state == RelevantState(statuses[..k], name)
    {
      var i := statuses[k];
      assert statuses[..k + 1][..k] == statuses[..k];
      if i.name != name {
        continue;
      }
      state := i.state;
      if i.last.terminated.Some? {
        state := i.last;
      }
    }
    assert statuses[..|statuses|] == statuses;
  }

  // ---------------------------------------------------------------- the latest of several pods

  // k is the first position of the greatest start time.
  predicate IsFirstLatest(items: seq<Pod>, k: nat)
  {
    k < |items|
    && (forall m :: 0 <= m < |items| ==> items[m].started <= items[k].started)
    && (forall m :: 0 <= m < k ==> items[m].started < items[k].started)
  }

  /** What the scan is meant to do: pick the first pod with the latest start time. */
  method PickLatest(items: seq<Pod>) returns (latest: Option<nat>)
    ensures latest.None? <==> items == []
    ensures latest.Some? ==> IsFirstLatest(items, latest.value)
  {
    latest := None;
    for k := 0 to |items|
      invariant latest.None? <==> k == 0
      invariant latest.Some? ==> IsFirstLatest(items[..k], latest.value)
    {
      if latest.None? {
        latest := Some(k);
        continue;
      }
      if items[latest.value].started < items[k].started {
        latest := Some(k);
      }
    }
    assert items[..|items|] == items;
  }

  // The loop variable of a range loop, one variable for all iterations (Go before 1.22).
  class LoopVariable {
    var pod: Pod

    constructor (pod: Pod)
      ensures this.pod == pod
    {
      this.pod := pod;
    }
  }

  // What the code reads off a list of pods: the state of the last one listed.
  function ListedState(items: seq<Pod>, name: string): ReplicaState
  {
    if items == [] then ReplicaRunning else StateOfPod(items[|items| - 1], name)
  }

  /** What the scan does: `latest` points at the loop variable, so it follows the variable to the
  last item, whatever the start times are. */
  method ReplicaStatusFromPodList(items: seq<Pod>, name: string) returns (state: ReplicaState)
    ensures state == ListedState(items, name)
  {
    var latest: LoopVariable? := null;
    if items == [] {
      return ReplicaRunning;
    }
    var i := new LoopVariable(items[0]);
    for k := 0 to |items|
      invariant latest == null || latest == i
      invariant k > 0 ==> latest == i && i.pod == items[k - 1]
    {
      i.pod := items[k];
      if latest == null {
        latest := i;
        continue;
      }
      if latest.pod.started < i.pod.started {
        latest := i;
      }
    }
    var tfState := RelevantContainerState(latest.pod.statuses, name);
    if tfState.running || tfState.waiting {
      return ReplicaRunning;
    }
    if tfState.terminated.Some? {
      if tfState.terminated.value.exitCode == 0 {
        return ReplicaSucceeded;
      }
      if Retryable(tfState.terminated.value) {
        return ReplicaRunning;
      }
      return ReplicaFailed;
    }
    return ReplicaUnknown;
  }

  lemma {:induction false} FirstLatestExists(items: seq<Pod>) returns (k: nat)
    requires items != []
    ensures IsFirstLatest(items, k)
  {
    var n := |items| - 1;
    if n == 0 {
      k := 0;
    } else {
      var j := FirstLatestExists(items[..n]);
      k := if items[j].started < items[n].started then n else j;
    }
  }

  predicate SameStarts(items: seq<Pod>, other: seq<Pod>)
  {
    |items| == |other| && forall m :: 0 <= m < |items| ==> items[m].started == other[m].started
  }

  // Both scans read the same state off these pods.
  ghost predicate ScansMeet(items: seq<Pod>)
  {
    forall k: nat :: IsFirstLatest(items, k) ==>
      ListedState(items, DEFAULT_CONTAINER) == StateOfPod(items[k], DEFAULT_CONTAINER)
  }

  /** The two scans read the same state, whatever the containers of the pods are, exactly if the last
  pod listed started strictly after all others. */
  lemma {:induction false} ScansAgree(items: seq<Pod>)
    requires items != []
    ensures (forall other: seq<Pod> :: SameStarts(items, other) ==> ScansMeet(other))
       <==> forall m :: 0 <= m < |items| - 1 ==> items[m].started < items[|items| - 1].started
  {
    var n := |items| - 1;
    if forall m :: 0 <= m < n ==> items[m].started < items[n].started {
      forall other: seq<Pod>, k: nat | SameStarts(items, other) && IsFirstLatest(other, k)
        ensures k == n
      {
        assert other[n].started <= other[k].started;
      }
    } else {
      var k := FirstLatestExists(items);
      var m :| 0 <= m < n && items[n].started <= items[m].started;
      assert k != n;
      var other := items[k := Showing(items[k], true)][n := Showing(items[n], false)];
      ShownStates(items[k], items[n]);
      assert SameStarts(items, other) && IsFirstLatest(other, k);
    }
  }

  // The pod with an mxnet container that runs, or with none.
  function Showing(p: Pod, runs: bool): Pod
  {
    var running, none := ContainerState(true, false, None), ContainerState(false, false, None);
    p.(statuses := if runs then [ContainerStatus(DEFAULT_CONTAINER, running, none)] else [])
  }

  lemma ShownStates(p: Pod, q: Pod)
    ensures StateOfPod(Showing(p, true), DEFAULT_CONTAINER) == ReplicaRunning
    ensures StateOfPod(Showing(q, false), DEFAULT_CONTAINER) == ReplicaUnknown
  {
    RelevantIsLast(Showing(p, true).statuses, DEFAULT_CONTAINER, 0);
  }

  // ---------------------------------------------------------------- folding

  // How many replicas are in each state, for the states that occur.
  function Tally(states: seq<ReplicaState>): map<ReplicaState, nat>
  {
    if states == [] then map[]
    else
      var t, s := Tally(states[..|states| - 1]), states[|states| - 1];
      t[s := if s in t then t[s] + 1 else 1]
  }

  function FoldStates(states: seq<ReplicaState>): ReplicaState
  {
    if ReplicaFailed in states then ReplicaFailed
    else if ReplicaRunning in states then ReplicaRunning
    else if states != [] && forall s <- states :: s == ReplicaSucceeded then ReplicaSucceeded
    else ReplicaUnknown
  }

  /** The tally is the direct count. */
  lemma {:induction false} TallyCounts(states: seq<ReplicaState>)
    ensures Tally(states).Keys == set s | s in states
    ensures forall s <- states :: s in Tally(states) && Tally(states)[s] == multiset(states)[s]
  {
    if states != [] {
      var n := |states| - 1;
      TallyCounts(states[..n]);
      assert states == states[..n] + [states[n]];
    }
  }

  function CountOf(t: map<ReplicaState, nat>, s: ReplicaState): nat
  {
    if s in t then t[s] else 0
  }

  /** The counts add up to the number of replicas. */
  lemma {:induction false} TallyTotal(states: seq<ReplicaState>)
    ensures var t := Tally(states);
            CountOf(t, ReplicaUnknown) + CountOf(t, ReplicaRunning)
            + CountOf(t, ReplicaFailed) + CountOf(t, ReplicaSucceeded)
              == |states|
  {
    if states != [] {
      TallyTotal(states[..|states| - 1]);
      match states[|states| - 1]
      case ReplicaUnknown =>
      case ReplicaRunning =>
      case ReplicaFailed =>
      case ReplicaSucceeded =>
    }
  }

  lemma {:induction false} AllSucceeded(states: seq<ReplicaState>)
    requires states != []
    ensures (ReplicaSucceeded in Tally(states) && Tally(states)[ReplicaSucceeded] == |states|)
       <==> forall s <- states :: s == ReplicaSucceeded
  {
    TallyCounts(states);
    TallyTotal(states);
    var t := Tally(states);
    if forall s <- states :: s == ReplicaSucceeded {
      assert states[0] in states;
    } else {
      var s :| s in states && s != ReplicaSucceeded;
      assert t[s] == multiset(states)[s] > 0;
    }
  }

  // What a set's state says of its tally: Failed if any replica is, else Running if any is, else
  // Succeeded if all are.
  predicate Judged(state: ReplicaState, counts: map<ReplicaState, nat>, size: nat)
  {
    && CountOf(counts, ReplicaUnknown) + CountOf(counts, ReplicaRunning)
         + CountOf(counts, ReplicaFailed) + CountOf(counts, ReplicaSucceeded) == size
    && (state == ReplicaFailed <==> ReplicaFailed in counts)
    && (state == ReplicaRunning <==> ReplicaFailed !in counts && ReplicaRunning in counts)
    && (state == ReplicaSucceeded <==> size > 0 && CountOf(counts, ReplicaSucceeded) == size)
  }

  lemma FoldIsJudged(states: seq<ReplicaState>)
    ensures Judged(FoldStates(states), Tally(states), |states|)
  {
    TallyTotal(states);
    TallyCounts(states);
    if states != [] {
      AllSucceeded(states);
    }
  }

  // The state of a replica set, from its tally (the precedence Failed, Running, all Succeeded).
  method SetState(counts: map<ReplicaState, nat>, replicas: int, ghost states: seq<ReplicaState>)
    returns (state: ReplicaState)
    requires counts == Tally(states) && |states| == if replicas < 0 then 0 else replicas
    ensures state == FoldStates(states)
  {
    TallyCounts(states);
    if states != [] {
      AllSucceeded(states);
    }
    state := ReplicaUnknown;
    if ReplicaFailed in counts {
      return ReplicaFailed;
    }
    if ReplicaRunning in counts {
      return ReplicaRunning;
    }
    if ReplicaSucceeded in counts && counts[ReplicaSucceeded] == replicas {
      return ReplicaSucceeded;
    }
  }
}
