/** Label selectors: printing them (KubernetesLabels.ToSelector), reading them back, matching. */
module Selectors {
  import opened Wrappers
  import opened Api

  predicate Matches(selector: Labels, labels: Labels)
  {
    forall k <- selector :: k in labels && labels[k] == selector[k]
  }

  // A selector over exactly the keys of a label set matches it only if they are equal.
  lemma MatchesSameKeys(selector: Labels, labels: Labels)
    requires selector.Keys == labels.Keys
    ensures Matches(selector, labels) <==> selector == labels
  {}

  // ---------------------------------------------------------------- text

  predicate Printable(l: Labels)
  {
    forall k <- l :: '=' !in k && ',' !in k && ',' !in l[k]
  }

  function Piece(k: string, v: string): string
  {
    k + "=" + v
  }

  // strings.Join(pieces, ",")
  function Join(pieces: seq<string>): string
  {
    if |pieces| == 0 then ""
    else if |pieces| == 1 then pieces[0]
    else pieces[0] + "," + Join(pieces[1..])
  }

  // The text up to the first c, and what follows it.
  function SplitFirst(s: string, c: char): Option<(string, string)>
  {
    if s == "" then None
    else if s[0] == c then Some(("", s[1..]))
    else
      match SplitFirst(s[1..], c)
      case None => None
      case Some((head, tail)) => Some(([s[0]] + head, tail))
  }

  lemma {:induction false} SplitFirstGlue(head: string, c: char, tail: string)
    requires c !in head
    ensures SplitFirst(head + [c] + tail, c) == Some((head, tail))
  {
    var s := head + [c] + tail;
    if head == "" {
      assert s[1..] == tail;
    } else {
      SplitFirstGlue(head[1..], c, tail);
      assert s[1..] == head[1..] + [c] + tail;
      assert [head[0]] + head[1..] == head;
    }
  }

  lemma {:induction false} SplitFirstFails(s: string, c: char)
    requires c !in s
    ensures SplitFirst(s, c) == None
  {
    if s != "" {
      SplitFirstFails(s[1..], c);
    }
  }

  lemma {:induction false} SplitFirstShrinks(s: string, c: char)
    ensures SplitFirst(s, c).Some? ==> |SplitFirst(s, c).value.1| < |s|
  {
    if s != "" {
      SplitFirstShrinks(s[1..], c);
    }
  }

  // What the API server reads: requirements separated by commas, each key=value.
  function ReadSelector(s: string): Option<Labels>
    decreases |s|
  {
    if s == "" then Some(map[]) else
      SplitFirstShrinks(s, ',');
      var (piece, rest) := match SplitFirst(s, ',') case None => (s, "") case Some(split) => split;
      match SplitFirst(piece, '=')
      case None => None
      case Some((k, v)) =>
        match ReadSelector(rest)
        case None => None
        case Some(l) => Some(l[k := v])
  }

  // ---------------------------------------------------------------- round trip

  lemma {:induction false} ReadJoin(ks: seq<string>, pieces: seq<string>, l: Labels)
    requires Printable(l) && |pieces| == |ks|
    requires forall i :: 0 <= i < |ks| ==> ks[i] in l && pieces[i] == Piece(ks[i], l[ks[i]])
    ensures ReadSelector(Join(pieces)) == Some(map k | k in l && k in ks :: l[k])
  {
    var m := map k | k in l && k in ks :: l[k];
    if |ks| == 0 {
      assert m == map[];
    } else {
      var k, v := ks[0], l[ks[0]];
      var rest := Join(pieces[1..]);
      ReadJoin(ks[1..], pieces[1..], l);
      var m' := map x | x in l && x in ks[1..] :: l[x];
      assert m == m'[k := v];
      SplitFirstGlue(k, '=', v);
      assert ',' !in Piece(k, v);
      if |ks| == 1 {
        assert Join(pieces) == Piece(k, v) && rest == "";
        SplitFirstFails(Piece(k, v), ',');
      } else {
        assert Join(pieces) == Piece(k, v) + [','] + rest;
        SplitFirstGlue(Piece(k, v), ',', rest);
      }
    }
  }

  /** Whatever order the labels are visited in, the text printed is read back as the same labels,
  so a list call selects by the label map itself. */
  method ToSelector(l: Labels) returns (selector: string)
    ensures Printable(l) ==> ReadSelector(selector) == Some(l)
  {
    var pieces: seq<string> := [];
    ghost var ks: seq<string> := [];
    var left := l.Keys;
    while left != {}
      invariant left <= l.Keys && |pieces| == |ks|
      invariant forall i :: 0 <= i < |ks| ==> ks[i] in l && pieces[i] == Piece(ks[i], l[ks[i]])
      invariant forall k <- l :: k in left || k in ks
      decreases |left|
    {
      var k :| k in left;
      pieces := pieces + [Piece(k, l[k])];
      ks := ks + [k];
      left := left - {k};
    }
    selector := Join(pieces);
    if Printable(l) {
      ReadJoin(ks, pieces, l);
      assert (map k | k in l && k in ks :: l[k]) == l;
    }
  }
}
