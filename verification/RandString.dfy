/** util.RandString: rejection sampling of base-36 letters from 63-bit random words.

A word is cut into ten six-bit chunks, low bits first; a chunk below 36 picks a letter, any other
chunk is thrown away.  The buffer is filled from its last position to its first. */
module RandString {

  // len(letterBytes) for letterBytes = "0123456789abcdefghijklmnopqrstuvwxyz"
  const N_LETTERS := 36

  // letterIdxMax, the six-bit chunks in 63 bits
  const PER_WORD: nat := 10

  // What rand.Source.Int63 returns.
  type Word = w: int | 0 <= w < 0x8000_0000_0000_0000

  // ---------------------------------------------------------------- specification

  // w & letterIdxMask and w >> letterIdxBits, by repeated subtraction: the solver does better
  // without division here.  MaskAndShift says that they are what their names say.
  function Mask(w: nat): nat
  {
    if w < 64 then w else Mask(w - 64)
  }

  function Shift(w: nat): nat
  {
    if w < 64 then 0 else 1 + Shift(w - 64)
  }

  lemma {:induction false} MaskAndShift(w: nat)
    ensures Mask(w) == w % 64 && Shift(w) == w / 64
  {
    if w >= 64 {
      MaskAndShift(w - 64);
    }
  }

  // The lowest k six-bit chunks of w, low bits first.
  function Low(w: nat, k: nat): (chunks: seq<nat>)
    ensures |chunks| == k
    decreases k
  {
    if k == 0 then [] else [Mask(w)] + Low(Shift(w), k - 1)
  }

  // The chunks of a stream of words, ten per word.
  function Cut(words: seq<Word>): seq<nat>
  {
    if words == [] then [] else Low(words[0], PER_WORD) + Cut(words[1..])
  }

  predicate Accepted(chunk: nat)
  {
    chunk < N_LETTERS
  }

  predicate IsLetter(c: char)
  {
    '0' <= c <= '9' || 'a' <= c <= 'z'
  }

  // letterBytes[idx]
  function Letter(idx: nat): (c: char)
    requires Accepted(idx)
    ensures IsLetter(c)
  {
    if idx < 10 then ('0' as nat + idx) as char else ('a' as nat + idx - 10) as char
  }

  // The letters picked by the accepted ones among the first k chunks, oldest first.
  function Picked(chunks: seq<nat>, k: nat): string
    requires k <= |chunks|
  {
    if k == 0 then ""
    else if Accepted(chunks[k - 1]) then Picked(chunks, k - 1) + [Letter(chunks[k - 1])]
    else Picked(chunks, k - 1)
  }

  // Chunk k-1 is the one that completes n letters.
  predicate Completes(chunks: seq<nat>, n: nat, k: nat)
  {
    k <= |chunks| && |Picked(chunks, k)| == n && (k == 0 || (n > 0 && Accepted(chunks[k - 1])))
  }

  function Reverse(s: string): string
  {
    if s == "" then "" else Reverse(s[1..]) + [s[0]]
  }

  predicate IsLabelText(s: string)
  {
    forall c <- s :: IsLetter(c)
  }

  // ---------------------------------------------------------------- properties

  /** The letters, by value. */
  lemma LettersByValue(idx: nat)
    requires Accepted(idx)
    ensures idx < |"0123456789abcdefghijklmnopqrstuvwxyz"| == 36
    ensures Letter(idx) == "0123456789abcdefghijklmnopqrstuvwxyz"[idx]
  {}

  // The i-th six-bit chunk of a word, counted from the low end.
  function Chunk(w: nat, i: nat): nat
  {
    if i == 0 then w % 64 else Chunk(w / 64, i - 1)
  }

  lemma {:induction false} LowIs(w: nat, k: nat, i: nat)
    requires i < k
    ensures Low(w, k)[i] == Chunk(w, i)
    decreases k
  {
    MaskAndShift(w);
    if i > 0 {
      LowIs(Shift(w), k - 1, i - 1);
    }
  }

  /** The chunks of the first word come first, low bits first, ten of them. */
  lemma CutIs(words: seq<Word>)
    requires words != []
    ensures |Cut(words)| == 10 + |Cut(words[1..])| && Cut(words)[10..] == Cut(words[1..])
    ensures forall i: nat :: i < 10 ==> Cut(words)[i] == Chunk(words[0], i)
  {
    forall i: nat | i < 10
      ensures Cut(words)[i] == Chunk(words[0], i)
    {
      LowIs(words[0], 10, i);
    }
  }

  /** Each accepted chunk gives its letter, after those of the accepted chunks before it. */
  lemma {:induction false} PickedAt(chunks: seq<nat>, k: nat, i: nat)
    requires i < k <= |chunks| && Accepted(chunks[i])
    ensures |Picked(chunks, i)| < |Picked(chunks, k)|
    ensures Picked(chunks, k)[|Picked(chunks, i)|] == Letter(chunks[i])
    decreases k
  {
    if i < k - 1 {
      PickedAt(chunks, k - 1, i);
    }
  }

  lemma {:induction false} ReverseAt(s: string, k: nat)
    requires k < |s|
    ensures |Reverse(s)| == |s| && Reverse(s)[k] == s[|s| - 1 - k]
  {
    if |s| > 1 {
      ReverseAt(s[1..], if k < |s| - 1 then k else 0);
    }
  }

  lemma {:induction false} PickedGrows(chunks: seq<nat>, k: nat, m: nat)
    requires k <= m <= |chunks|
    ensures Picked(chunks, k) <= Picked(chunks, m)
    decreases m
  {
    if k < m {
      PickedGrows(chunks, k, m - 1);
    }
  }

  lemma NotYetEnough(chunks: seq<nat>, k: nat, m: nat)
    requires k <= m <= |chunks|
    requires |Picked(chunks, k)| < |Picked(chunks, m)|
    ensures k < m
  {}

  /** The stopping chunk is determined by the stream and n, so the result of RandString is too. */
  lemma {:induction false} CompletesUnique(chunks: seq<nat>, n: nat, k: nat, m: nat)
    requires Completes(chunks, n, k) && Completes(chunks, n, m)
    ensures k == m
  {
    if k < m {
      PickedGrows(chunks, k, m - 1);
    } else if m < k {
      PickedGrows(chunks, m, k - 1);
    }
  }

  /** The sampler can stop exactly on the streams that hold n acceptable chunks. */
  lemma {:induction false} CompletesExists(chunks: seq<nat>, n: nat)
    ensures (exists k: nat :: Completes(chunks, n, k))
       <==> (exists m: nat :: m <= |chunks| && |Picked(chunks, m)| >= n)
  {
    if m: nat :| m <= |chunks| && |Picked(chunks, m)| >= n {
      var k := FirstCompletion(chunks, n, m);
    }
    if k: nat :| Completes(chunks, n, k) {
      assert |Picked(chunks, k)| >= n;
    }
  }

  lemma {:induction false} FirstCompletion(chunks: seq<nat>, n: nat, m: nat) returns (k: nat)
    requires m <= |chunks| && |Picked(chunks, m)| >= n
    ensures k <= m && Completes(chunks, n, k)
  {
    if n == 0 {
      k := 0;
    } else if |Picked(chunks, m - 1)| >= n {
      k := FirstCompletion(chunks, n, m - 1);
    } else {
      k := m;
    }
  }

  lemma {:induction false} PickedIsLabelText(chunks: seq<nat>, k: nat)
    requires k <= |chunks|
    ensures IsLabelText(Picked(chunks, k))
  {
    if k > 0 {
      PickedIsLabelText(chunks, k - 1);
    }
  }

  lemma LabelTextHasNoDash(s: string)
    requires IsLabelText(s)
    ensures '-' !in s
  {}

  lemma {:induction false} ReverseSnoc(s: string, c: char)
    ensures Reverse(s + [c]) == [c] + Reverse(s)
  {
    if s != "" {
      ReverseSnoc(s[1..], c);
      assert (s + [c])[1..] == s[1..] + [c];
    }
  }

  lemma {:induction false} ReverseKeepsLabelText(s: string)
    ensures |Reverse(s)| == |s|
    ensures IsLabelText(s) ==> IsLabelText(Reverse(s))
  {
    if s != "" {
      ReverseKeepsLabelText(s[1..]);
    }
  }

  // ---------------------------------------------------------------- the algorithm

  // The global math/rand source, with the words it is going to give.
  class Source {
    const words: seq<Word>
    var drawn: nat

    constructor (words: seq<Word>)
      ensures this.words == words && drawn == 0
    {
      this.words := words;
      drawn := 0;
    }

    method Int63() returns (w: Word)
      requires drawn < |words|
      modifies this
      ensures w == words[old(drawn)] && drawn == old(drawn) + 1
    {
      w := words[drawn];
      drawn := drawn + 1;
    }
  }

  // The chunks from `stop` on are the `remain` lowest of the cache, then those of the undrawn words.
  ghost predicate InStep(chunks: seq<nat>, stop: nat, cache: nat, remain: nat, undrawn: seq<Word>)
  {
    stop <= |chunks| && remain <= PER_WORD && chunks[stop..] == Low(cache, remain) + Cut(undrawn)
  }

  lemma StepChunk(chunks: seq<nat>, stop: nat, cache: nat, remain: nat, undrawn: seq<Word>)
    requires stop < |chunks| && remain > 0 && InStep(chunks, stop, cache, remain, undrawn)
    ensures chunks[stop] == Mask(cache) && InStep(chunks, stop + 1, Shift(cache), remain - 1, undrawn)
  {
    assert chunks[stop] == chunks[stop..][0];
    assert chunks[stop + 1..] == chunks[stop..][1..];
  }

  // `used` chunks have been used and `dropped` more are lost; what is still to come is in the undrawn words.
  ghost predicate Leaves(chunks: seq<nat>, used: nat, dropped: nat, undrawn: seq<Word>)
  {
    used + dropped <= |chunks| && chunks[used + dropped..] == Cut(undrawn)
  }

  lemma InStepLeaves(chunks: seq<nat>, stop: nat, cache: nat, remain: nat, undrawn: seq<Word>)
    requires InStep(chunks, stop, cache, remain, undrawn)
    ensures Leaves(chunks, stop, remain, undrawn)
  {
    assert |chunks[stop..]| == |Low(cache, remain)| + |Cut(undrawn)|;
    assert chunks[stop + remain..] == chunks[stop..][remain..];
  }

  // One turn: refill the cache if it is empty, take the chunk at its bottom, shift it out.
  method NextIndex(src: Source, cache0: nat, remain0: nat, ghost chunks: seq<nat>, ghost stop: nat)
    returns (idx: nat, cache: nat, remain: nat)
    requires src.drawn <= |src.words| && InStep(chunks, stop, cache0, remain0, src.words[src.drawn..])
    requires stop < |chunks|
    modifies src
    ensures old(src.drawn) <= src.drawn <= |src.words|
    ensures InStep(chunks, stop + 1, cache, remain, src.words[src.drawn..])
    ensures idx == chunks[stop] && remain < PER_WORD
  {
    cache, remain := cache0, remain0;
    if remain == 0 {
      cache := src.Int63();
      remain := PER_WORD;
    }
    StepChunk(chunks, stop, cache, remain, src.words[src.drawn..]);
    MaskAndShift(cache);
    idx := cache % 64;
    cache, remain := cache / 64, remain - 1;
  }

  lemma ReversedPick(chunks: seq<nat>, k: nat)
    requires k <= |chunks|
    ensures IsLabelText(Reverse(Picked(chunks, k)))
  {
    PickedIsLabelText(chunks, k);
    ReverseKeepsLabelText(Picked(chunks, k));
  }

  // A chunk that is accepted goes to position i.
  method Take(b: array<char>, i: nat, idx: nat, ghost chunks: seq<nat>, ghost stop: nat) returns (j: int)
    requires i < b.Length && stop < |chunks| && idx == chunks[stop]
    requires b[i + 1..] == Reverse(Picked(chunks, stop))
    modifies b
    ensures j == if Accepted(idx) then i - 1 else i
    ensures b[j + 1..] == Reverse(Picked(chunks, stop + 1))
  {
    j := i;
    if idx < N_LETTERS {
      b[i] := Letter(idx);
      ReverseSnoc(Picked(chunks, stop), Letter(idx));
      j := i - 1;
    }
  }

  /** The result is the reversed first n accepted letters of the words drawn from here on.  The
  witness `enough` only says that the stream holds n acceptable chunks; the distance to it is
  the loop's termination measure.  A word is drawn even for n == 0, and what is left of the last
  word (less than ten chunks if n > 0) is dropped. */
  method RandString(n: nat, src: Source, ghost enough: nat) returns (s: string, ghost stop: nat, ghost dropped: nat)
    requires src.drawn < |src.words| && enough <= |Cut(src.words[src.drawn..])|
    requires |Picked(Cut(src.words[src.drawn..]), enough)| >= n
    modifies src
    ensures Completes(Cut(src.words[old(src.drawn)..]), n, stop)
    ensures s == Reverse(Picked(Cut(src.words[old(src.drawn)..]), stop))
    ensures |s| == n && IsLabelText(s) && '-' !in s
    ensures old(src.drawn) < src.drawn <= |src.words|
    ensures Leaves(Cut(src.words[old(src.drawn)..]), stop, dropped, src.words[src.drawn..])
    ensures dropped <= PER_WORD && (n > 0 ==> dropped < PER_WORD)
  {
    ghost var chunks := Cut(src.words[src.drawn..]);
    stop := 0;
    var b := new char[n];
    var i := n - 1;
    var cache: nat := src.Int63();
    var remain: nat := PER_WORD;
    while i >= 0
      invariant -1 <= i < n && old(src.drawn) < src.drawn <= |src.words| && (i == n - 1 || remain < PER_WORD)
      invariant InStep(chunks, stop, cache, remain, src.words[src.drawn..]) && stop <= enough
      invariant |Picked(chunks, stop)| == n - 1 - i
      invariant b[i + 1..] == Reverse(Picked(chunks, stop))
      invariant i < 0 ==> Completes(chunks, n, stop)
      decreases enough - stop
    {
      NotYetEnough(chunks, stop, enough);
      var idx;
      idx, cache, remain := NextIndex(src, cache, remain, chunks, stop);
      i := Take(b, i, idx, chunks, stop);
      stop := stop + 1;
    }
    InStepLeaves(chunks, stop, cache, remain, src.words[src.drawn..]);
    dropped := remain;
    s := b[0..];
    ReversedPick(chunks, stop);
    LabelTextHasNoDash(s);
  }
}
