/** The loop over the indices of one replica set, which both SyncPods and SyncServices are: a turn for
each index, up to the first turn that does not end well. */
module Loops {
  import opened Store

  // How a call ended: fine, with an error, or with a nil dereference that kills the controller.
  datatype Outcome = Fine | Erred | Panicked

  type Body = (World, nat) -> Ret<Outcome>

  function Loop(turn: Body, w: World, index: nat, size: int): Ret<Outcome>
    decreases size - index
  {
    if index >= size then Ret(w, Fine)
    else
      var s := turn(w, index);
      if s.v != Fine then s else Loop(turn, s.w, index + 1, size)
  }

  // Every turn keeps the invariant, ends in one of the ways given, and if it ends well has done
  // what is to be done at its index; later turns do not undo it.
  ghost predicate Carries(turn: Body, size: int, inv: World -> bool, done: (World, nat) -> bool, outs: set<Outcome>)
  {
    && Fine in outs
    && (forall v: World, i: nat :: i < size && inv(v) ==>
          inv(turn(v, i).w) && turn(v, i).v in outs && (turn(v, i).v == Fine ==> done(turn(v, i).w, i)))
    && (forall v: World, i: nat, k: nat :: i < size && k < size && inv(v) && done(v, i) ==> done(turn(v, k).w, i))
  }

  /** What every turn carries, the loop carries; if it ends well, all is done. */
  lemma {:induction false} LoopCarries(turn: Body, w: World, index: nat, size: int,
                                       inv: World -> bool, done: (World, nat) -> bool, outs: set<Outcome>)
    requires Carries(turn, size, inv, done, outs) && inv(w)
    requires forall i: nat :: i < index && i < size ==> done(w, i)
    ensures var s := Loop(turn, w, index, size);
            inv(s.w) && s.v in outs && (s.v == Fine ==> forall i: nat :: i < size ==> done(s.w, i))
    decreases size - index
  {
    if index < size {
      var s := turn(w, index);
      if s.v == Fine {
        LoopCarries(turn, s.w, index + 1, size, inv, done, outs);
      }
    }
  }

  // The worlds a loop goes through: turn i is made in the i-th of them and leads to the next.
  ghost predicate GoesThrough<T>(turn: (World, nat) -> Ret<T>, ws: seq<World>, index: nat)
  {
    ws != [] && forall i :: 0 <= i < |ws| - 1 ==> turn(ws[i], index + i).w == ws[i + 1]
  }

  // Every turn but the last ended so.
  ghost predicate AllBefore<T>(turn: (World, nat) -> Ret<T>, ws: seq<World>, index: nat, v: T)
  {
    forall i :: 0 <= i < |ws| - 2 ==> turn(ws[i], index + i).v == v
  }

  // How the last turn ended, or this if there was none.
  ghost function LastOutcome<T>(turn: (World, nat) -> Ret<T>, ws: seq<World>, index: nat, none: T): T
    requires ws != []
  {
    if |ws| == 1 then none else turn(ws[|ws| - 2], index + |ws| - 2).v
  }

  lemma OneMoreTurn<T>(turn: (World, nat) -> Ret<T>, w: World, rest: seq<World>, index: nat, v: T)
    requires GoesThrough(turn, rest, index + 1) && AllBefore(turn, rest, index + 1, v)
    requires turn(w, index) == Ret(rest[0], v)
    ensures GoesThrough(turn, [w] + rest, index) && AllBefore(turn, [w] + rest, index, v)
    ensures LastOutcome(turn, [w] + rest, index, v) == LastOutcome(turn, rest, index + 1, v)
  {
    var ws := [w] + rest;
    forall i | 0 < i < |ws|
      ensures ws[i] == rest[i - 1] && index + i == (index + 1) + (i - 1)
    {}
  }

  /** The loop makes its turns one after another, each in the world the one before has left, and stops
  after the first that does not end well, with that turn's outcome; else after the last. */
  lemma {:induction false} LoopUnrolls(turn: Body, w: World, index: nat, size: int) returns (ws: seq<World>)
    ensures var s := Loop(turn, w, index, size);
            && GoesThrough(turn, ws, index) && AllBefore(turn, ws, index, Fine)
            && ws[0] == w && ws[|ws| - 1] == s.w && s.v == LastOutcome(turn, ws, index, Fine)
            && |ws| - 1 <= (if index < size then size - index else 0)
            && (s.v == Fine ==> |ws| - 1 == if index < size then size - index else 0)
    decreases size - index
  {
    if index >= size {
      ws := [w];
    } else {
      var one := turn(w, index);
      if one.v != Fine {
        ws := [w, one.w];
      } else {
        var rest := LoopUnrolls(turn, one.w, index + 1, size);
        ws := [w] + rest;
        OneMoreTurn(turn, w, rest, index, Fine);
      }
    }
  }
}
