/** A job status as the pointer graph it is: DeepCopyInto, which makes TrainingJob.status independent of
the job it was read from, and the comparison (reflect.DeepEqual) that decides on a status write. */
module DeepCopy {
  import opened Wrappers
  import opened Api

  // map[ReplicaState]int, a reference
  class StateCounts {
    var counts: map<ReplicaState, nat>

    constructor (counts: map<ReplicaState, nat>)
      ensures this.counts == counts
    {
      this.counts := counts;
    }
  }

  // A replica status with everything it points to; a nil map is not an empty one.
  datatype ReplicaValue = ReplicaValue(typ: string, state: ReplicaState, counts: Option<map<ReplicaState, nat>>)

  class ReplicaStatusObject {
    var typ: string
    var state: ReplicaState
    var counts: StateCounts?

    constructor (typ: string, state: ReplicaState, counts: StateCounts?)
      ensures this.typ == typ && this.state == state && this.counts == counts
    {
      this.typ, this.state, this.counts := typ, state, counts;
    }

    function Value(): ReplicaValue
      reads this, counts
    {
      ReplicaValue(typ, state, if counts == null then None else Some(counts.counts))
    }

    method DeepCopyInto(out: ReplicaStatusObject)
      requires out != this
      modifies out
      ensures out.Value() == Value() == old(Value())
      ensures out.counts == null || fresh(out.counts)
    {
      out.typ, out.state, out.counts := typ, state, counts;
      if counts != null {
        var copy := new StateCounts(map[]);
        out.counts := copy;
        var left := counts.counts.Keys;
        while left != {}
          invariant left <= counts.counts.Keys && out.counts == copy && out.typ == typ && out.state == state
          invariant copy.counts == map s | s in counts.counts && s !in left :: counts.counts[s]
          decreases |left|
        {
          var s :| s in left;
          copy.counts := copy.counts[s := counts.counts[s]];
          left := left - {s};
        }
        assert copy.counts == counts.counts;
      }
    }
  }

  ghost function ValueOf(r: ReplicaStatusObject?): Option<ReplicaValue>
    reads r, if r == null then {} else {r.counts}
  {
    if r == null then None else Some(r.Value())
  }

  // ---------------------------------------------------------------- a slice of pointers

  type Slice = array<ReplicaStatusObject?>

  ghost function Cells(a: Slice): set<ReplicaStatusObject>
    reads a
  {
    set i | 0 <= i < a.Length && a[i] != null :: a[i]
  }

  ghost function Maps(a: Slice): set<StateCounts>
    reads a, Cells(a)
  {
    set r | r in Cells(a) && r.counts != null :: r.counts
  }

  // Everything reachable from a slice.
  ghost function Reach(a: Slice): set<object>
    reads a, Cells(a)
  {
    {a} + Cells(a) + Maps(a)
  }

  ghost function Entries(a: Slice): (entries: seq<Option<ReplicaValue>>)
    reads Reach(a)
    ensures |entries| == a.Length && forall i :: 0 <= i < a.Length ==> entries[i] == ValueOf(a[i])
  {
    seq(a.Length, i requires 0 <= i < a.Length reads Reach(a) => ValueOf(a[i]))
  }

  method CopySlice(a: Slice) returns (copy: Slice)
    ensures fresh(Reach(copy)) && Entries(copy) == Entries(a) == old(Entries(a))
  {
    var n := a.Length;
    copy := new ReplicaStatusObject?[n](_ => null);
    for i := 0 to n
      invariant forall k :: i <= k < n ==> copy[k] == null
      invariant forall k :: 0 <= k < i && copy[k] != null ==>
                  fresh(copy[k]) && (copy[k].counts == null || fresh(copy[k].counts))
      invariant forall k :: 0 <= k < i ==> ValueOf(copy[k]) == old(ValueOf(a[k]))
    {
      var r := a[i];
      assert ValueOf(r) == old(ValueOf(a[i]));
      if r != null {
        var c := new ReplicaStatusObject("", ReplicaUnknown, null);
        r.DeepCopyInto(c);
        copy[i] := c;
      }
    }
  }

  // Nothing that a slice reaches has changed.
  twostate lemma EntriesKept(a: Slice)
    requires forall i :: 0 <= i < a.Length ==> a[i] == old(a[i])
    requires forall i :: 0 <= i < a.Length && a[i] != null ==>
               unchanged(a[i]) && (a[i].counts != null ==> unchanged(a[i].counts))
    ensures Entries(a) == old(Entries(a))
  {
    assert forall i :: 0 <= i < a.Length ==> ValueOf(a[i]) == old(ValueOf(a[i]));
  }

  // ---------------------------------------------------------------- a status

  datatype StatusValue = StatusValue(phase: Phase, reason: Reason, state: State,
                                     replicaStatuses: Option<seq<Option<ReplicaValue>>>)

  class StatusObject {
    var phase: Phase
    var reason: Reason
    var state: State
    var replicaStatuses: array?<ReplicaStatusObject?>

    constructor ()
      ensures fresh(Below())
    {
      phase, reason, state, replicaStatuses := NoPhase, Text(""), NoState, null;
    }

    // Everything reachable below this object.
    ghost function Below(): set<object>
      reads this, replicaStatuses, if replicaStatuses == null then {} else Cells(replicaStatuses)
    {
      if replicaStatuses == null then {} else Reach(replicaStatuses)
    }

    // The status with everything it points to; a nil slice is not an empty one.
    ghost function Value(): StatusValue
      reads this, Below()
    {
      StatusValue(phase, reason, state, if replicaStatuses == null then None else Some(Entries(replicaStatuses)))
    }

    /** The copy is equal, down to which pointers are nil, and shares nothing with the original. */
    method DeepCopyInto(out: StatusObject)
      requires out != this
      modifies out
      ensures Value() == old(Value()) && out.Value() == Value()
      ensures fresh(out.Below())
    {
      out.phase, out.reason, out.state, out.replicaStatuses := phase, reason, state, replicaStatuses;
      if replicaStatuses != null {
        var copy := CopySlice(replicaStatuses);
        label Copied:
        out.replicaStatuses := copy;
        EntriesKept@Copied(copy);
        EntriesKept@Copied(replicaStatuses);
        EntriesKept(replicaStatuses);
      }
    }

    method Copy() returns (out: StatusObject)
      ensures fresh(out) && fresh(out.Below())
      ensures Value() == old(Value()) && out.Value() == Value()
    {
      out := new StatusObject();
      assert Value() == old(Value()) by {
        if replicaStatuses != null {
          assert forall i :: 0 <= i < replicaStatuses.Length ==>
                   ValueOf(replicaStatuses[i]) == old(ValueOf(replicaStatuses[i]));
          assert Entries(replicaStatuses) == old(Entries(replicaStatuses));
        }
      }
      DeepCopyInto(out);
    }

    /** reflect.DeepEqual: true exactly when the two graphs stand for the same value. */
    method DeepEqual(other: StatusObject) returns (same: bool)
      ensures same <==> Value() == other.Value()
    {
      if phase != other.phase || reason != other.reason || state != other.state {
        return false;
      }
      var a, b := replicaStatuses, other.replicaStatuses;
      if a == b {
        return true;
      }
      if a == null || b == null || a.Length != b.Length {
        return false;
      }
      for i := 0 to a.Length
        invariant forall k :: 0 <= k < i ==> ValueOf(a[k]) == ValueOf(b[k])
      {
        var eq := EqualReplica(a[i], b[i]);
        if !eq {
          assert Entries(a)[i] != Entries(b)[i];
          return false;
        }
      }
      assert Entries(a) == Entries(b);
      return true;
    }
  }

  method EqualReplica(a: ReplicaStatusObject?, b: ReplicaStatusObject?) returns (same: bool)
    ensures same <==> ValueOf(a) == ValueOf(b)
  {
    if a == null || b == null {
      return a == b;
    }
    if a.typ != b.typ || a.state != b.state || (a.counts == null) != (b.counts == null) {
      return false;
    }
    same := a.counts == null || a.counts.counts == b.counts.counts;
  }
}
