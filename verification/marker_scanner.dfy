/** The streaming marker scanner of `src/benchmark/startup.ts`.

    The scanner sees the output of a process in chunks of any size and must
    delete the first occurrence of a marker, even when the marker is split over
    several chunks, while holding back as little text as possible. */
module MarkerScanner {
  import opened Sequences

  // ---------------------------------------------------------------- substrings

  /** The first `n` characters of `m` stand in `s` at position `i`. */
  predicate Match(s: string, i: int, m: string, n: int) {
    0 <= i && 0 <= n <= |m| && i + n <= |s| && forall k | 0 <= k < n :: s[i + k] == m[k]
  }

  predicate OccursAt(s: string, m: string, i: int) {
    Match(s, i, m, |m|)
  }

  ghost predicate Occurs(s: string, m: string) {
    exists i :: OccursAt(s, m, i)
  }

  lemma MatchShift(out: string, t: string, i: nat, m: string, n: int)
    ensures Match(out + t, |out| + i, m, n) <==> Match(t, i, m, n)
  {
    if Match(out + t, |out| + i, m, n) {
      forall k | 0 <= k < n ensures t[i + k] == m[k] {
        assert (out + t)[|out| + i + k] == m[k];
      }
    }
  }

  lemma MatchInPrefix(s: string, c: string, i: int, m: string, n: int)
    requires i + n <= |s|
    ensures Match(s + c, i, m, n) <==> Match(s, i, m, n)
  {
    if Match(s + c, i, m, n) {
      forall k | 0 <= k < n ensures s[i + k] == m[k] {
        assert (s + c)[i + k] == m[k];
      }
    }
  }

  /** `String.prototype.indexOf`, searching from position `from` on. */
  function IndexOf(s: string, m: string, from: nat := 0): int
    requires from <= |s|
    decreases |s| - from
  {
    if OccursAt(s, m, from) then from
    else if from == |s| then -1
    else IndexOf(s, m, from + 1)
  }

  /** `indexOf` is the least position of an occurrence, or -1 if there is none. */
  lemma {:induction false} IndexOfIsFirst(s: string, m: string, from: nat := 0)
    requires from <= |s|
    ensures IndexOf(s, m, from) >= 0 ==> from <= IndexOf(s, m, from) && OccursAt(s, m, IndexOf(s, m, from))
    ensures IndexOf(s, m, from) < 0 ==> IndexOf(s, m, from) == -1
    ensures forall j :: from <= j && OccursAt(s, m, j) ==> 0 <= IndexOf(s, m, from) <= j
    decreases |s| - from
  {
    if !OccursAt(s, m, from) && from < |s| {
      IndexOfIsFirst(s, m, from + 1);
    }
  }

  /** What the scanner is for: the text without its first marker. */
  function RemoveFirst(s: string, m: string): string {
    Cut(s, |m|, IndexOf(s, m))
  }

  function Cut(s: string, n: nat, at: int): string {
    if 0 <= at <= |s| - n then s[..at] + s[at + n..] else s
  }

  function Flat(chunks: seq<string>): string {
    if chunks == [] then "" else Flat(chunks[..|chunks| - 1]) + chunks[|chunks| - 1]
  }

  lemma {:induction false} FlatAppend(a: seq<string>, b: seq<string>)
    ensures Flat(a + b) == Flat(a) + Flat(b)
  {
    if b == [] {
      assert a + b == a;
    } else {
      var init, x := b[..|b| - 1], b[|b| - 1];
      FlatAppend(a, init);
      assert b == init + [x];
      Regroup(a, init, [x]);
      FlatLast(a + init, x);
      Regroup(Flat(a), Flat(init), x);
    }
  }

  lemma FlatLast(a: seq<string>, x: string)
    ensures Flat(a + [x]) == Flat(a) + x
  {
    assert (a + [x])[..|a|] == a;
  }

  // ---------------------------------------------------------------- retained suffix

  /** `s` ends with the first `n` characters of `m`. */
  predicate EndsWithPrefix(s: string, m: string, n: int) {
    Match(s, |s| - n, m, n)
  }

  /** `n` is the length of the longest suffix of `s` that is a proper prefix of `m`. */
  ghost predicate IsRetained(s: string, m: string, n: int) {
    EndsWithPrefix(s, m, n) && n < |m| && forall k :: EndsWithPrefix(s, m, k) && k < |m| ==> k <= n
  }

  function Retained(s: string, m: string, bound: nat): (n: nat)
    requires bound <= |s| && bound < |m|
    ensures n <= bound
  {
    if bound == 0 || EndsWithPrefix(s, m, bound) then bound else Retained(s, m, bound - 1)
  }

  function RetainedLength(s: string, m: string): (n: nat)
    requires |m| > 0
    ensures n <= |s|
  {
    Retained(s, m, if |s| < |m| - 1 then |s| else |m| - 1)
  }

  lemma {:induction false} RetainedIsMaximal(s: string, m: string, bound: nat)
    requires bound <= |s| && bound < |m|
    ensures EndsWithPrefix(s, m, Retained(s, m, bound))
    ensures forall k :: Retained(s, m, bound) < k <= bound ==> !EndsWithPrefix(s, m, k)
  {
    if bound > 0 && !EndsWithPrefix(s, m, bound) {
      RetainedIsMaximal(s, m, bound - 1);
    }
  }

  lemma RetainedLengthIsRetained(s: string, m: string)
    requires |m| > 0
    ensures IsRetained(s, m, RetainedLength(s, m))
  {
    RetainedIsMaximal(s, m, if |s| < |m| - 1 then |s| else |m| - 1);
  }

  /** The decrementing search of the source. */
  method FindRetainedLength(input: string, marker: string) returns (length: nat)
    requires |marker| > 0
    ensures IsRetained(input, marker, length)
    ensures length == RetainedLength(input, marker)
  {
    RetainedLengthIsRetained(input, marker);
    var maxLength := if |input| < |marker| - 1 then |input| else |marker| - 1;
    length := maxLength;
    while length > 0
      invariant 0 <= length <= maxLength
      invariant forall k :: length < k <= maxLength ==> !EndsWithPrefix(input, marker, k)
    {
      if EndsWithPrefix(input, marker, length) {
        return;
      }
      length := length - 1;
    }
  }

  // ---------------------------------------------------------------- one push

  /** `output` is all the text passed to `onOutput`. */
  datatype Scan = Scan(pending: string, matched: bool, output: string)

  function Pushed(v: Scan, m: string, chunk: string): (Scan, bool)
    requires |m| > 0
  {
    var input := v.pending + chunk;
    var at := IndexOf(input, m);
    if v.matched then (Scan("", true, v.output + input), false)
    else if 0 <= at <= |input| - |m| then
      (Scan("", true, v.output + input[..at] + input[at + |m|..]), true)
    else
      var flush := |input| - RetainedLength(input, m);
      (Scan(input[flush..], false, v.output + input[..flush]), false)
  }

  /** The object returned by `createMarkerScanner`. */
  class Scanner {
    const marker: string
    var pending: string
    var matched: bool
    var output: string

    ghost function State(): Scan reads this { Scan(pending, matched, output) }

    constructor (marker: string)
      requires |marker| > 0
      ensures this.marker == marker && State() == Scan("", false, "")
    {
      this.marker := marker;
      pending, matched, output := "", false, "";
    }

    method Emit(text: string)
      modifies this`output
      ensures output == old(output) + text
    {
      if |text| > 0 { output := output + text; }
    }

    method Push(chunk: string) returns (hit: bool)
      requires |marker| > 0
      modifies this
      ensures (State(), hit) == Pushed(old(State()), marker, chunk)
    {
      var input := pending + chunk;
      if matched {
        Emit(input);
        pending := "";
        return false;
      }
      var markerIndex := IndexOf(input, marker);
      IndexOfIsFirst(input, marker);
      if markerIndex >= 0 {
        Emit(input[..markerIndex]);
        Emit(input[markerIndex + |marker|..]);
        pending, matched := "", true;
        return true;
      }
      var retainedLength := FindRetainedLength(input, marker);
      var flushLength := |input| - retainedLength;
      Emit(input[..flushLength]);
      pending := input[flushLength..];
      return false;
    }

    method Finish()
      modifies this
      ensures State() == Scan("", old(matched), old(output) + old(pending))
    {
      Emit(pending);
      pending := "";
    }
  }

  // ---------------------------------------------------------------- the streaming argument
  //
  // The stream seen so far is `out + p`: `out` has been written, `p` is retained.

  /** An occurrence in a longer stream starts inside the retained suffix. */
  lemma OccurrenceStartsInRetained(out: string, p: string, c: string, m: string, i: int)
    requires |m| > 0 && IsRetained(out + p, m, |p|) && !Occurs(out + p, m)
    requires OccursAt(out + p + c, m, i)
    ensures i >= |out|
  {
    var s := out + p;
    assert !OccursAt(s, m, i);
    if i + |m| <= |s| {
      MatchInPrefix(s, c, i, m, |m|);
    } else if i < |s| {
      MatchInPrefix(s, c, i, m, |s| - i);
      assert EndsWithPrefix(s, m, |s| - i);
    }
  }

  lemma OccurrencesAreInRetained(out: string, p: string, c: string, m: string, i: int)
    requires |m| > 0 && IsRetained(out + p, m, |p|) && !Occurs(out + p, m)
    ensures OccursAt(out + (p + c), m, i) <==> i >= |out| && OccursAt(p + c, m, i - |out|)
  {
    assert out + p + c == out + (p + c);
    if OccursAt(out + (p + c), m, i) {
      OccurrenceStartsInRetained(out, p, c, m, i);
    }
    if i >= |out| {
      MatchShift(out, p + c, i - |out|, m, |m|);
    }
  }

  /** So the first occurrence can be searched in the retained suffix alone. */
  lemma FirstOccurrence(out: string, p: string, c: string, m: string)
    requires |m| > 0 && IsRetained(out + p, m, |p|) && !Occurs(out + p, m)
    ensures IndexOf(out + (p + c), m)
         == if IndexOf(p + c, m) < 0 then -1 else |out| + IndexOf(p + c, m)
  {
    IndexOfIsFirst(out + (p + c), m);
    IndexOfIsFirst(p + c, m);
    OccurrencesAreInRetained(out, p, c, m, IndexOf(out + (p + c), m));
    OccurrencesAreInRetained(out, p, c, m, |out| + IndexOf(p + c, m));
  }

  /** The next retained suffix depends on the current one only. */
  lemma RetainedStep(out: string, p: string, c: string, m: string, r: nat)
    requires |m| > 0 && IsRetained(out + p, m, |p|) && IsRetained(p + c, m, r)
    ensures IsRetained(out + (p + c), m, r)
  {
    var s, t := out + (p + c), p + c;
    assert out + p + c == s;
    MatchShift(out, t, |t| - r, m, r);
    forall n | EndsWithPrefix(s, m, n) && n < |m| ensures n <= r { NoLongerSuffix(out, p, c, m, r, n); }
  }

  lemma NoLongerSuffix(out: string, p: string, c: string, m: string, r: nat, n: int)
    requires |m| > 0 && IsRetained(out + p, m, |p|) && IsRetained(p + c, m, r)
    requires EndsWithPrefix(out + (p + c), m, n) && n < |m|
    ensures n <= r
  {
    var s, t := out + (p + c), p + c;
    assert out + p + c == s;
    if n > |c| {
      MatchInPrefix(out + p, c, |s| - n, m, n - |c|);
      assert EndsWithPrefix(out + p, m, n - |c|);
    }
    MatchShift(out, t, |t| - n, m, n);
    assert EndsWithPrefix(t, m, n);
  }

  /** What every push keeps, for the whole stream `s` seen so far. */
  ghost predicate Tracks(v: Scan, m: string, s: string) {
    if v.matched then
      Occurs(s, m) && v.pending == "" && v.output == RemoveFirst(s, m)
    else
      && !Occurs(s, m)
      && IsRetained(s, m, |v.pending|)
      && s == v.output + v.pending
  }

  lemma CutAppend(s: string, c: string, n: nat, at: nat)
    requires at + n <= |s|
    ensures Cut(s + c, n, at) == Cut(s, n, at) + c
  {
    assert (s + c)[..at] == s[..at] && (s + c)[at + n..] == s[at + n..] + c;
    Regroup(s[..at], s[at + n..], c);
  }

  lemma CutShift(out: string, input: string, n: nat, at: nat)
    requires at + n <= |input|
    ensures Cut(out + input, n, |out| + at) == out + input[..at] + input[at + n..]
  {
  }

  lemma OccursGrows(s: string, c: string, m: string)
    requires Occurs(s, m)
    ensures Occurs(s + c, m)
    ensures RemoveFirst(s + c, m) == RemoveFirst(s, m) + c
  {
    var i, k := IndexOf(s, m), IndexOf(s + c, m);
    IndexOfIsFirst(s, m);
    IndexOfIsFirst(s + c, m);
    MatchInPrefix(s, c, i, m, |m|);
    assert OccursAt(s + c, m, i);
    MatchInPrefix(s, c, k, m, |m|);
    assert OccursAt(s, m, k);
    CutAppend(s, c, |m|, i);
  }

  lemma CompletionIndex(v: Scan, m: string, s: string, c: string)
    requires |m| > 0 && Tracks(v, m, s) && !v.matched && IndexOf(v.pending + c, m) >= 0
    ensures IndexOf(v.pending + c, m) + |m| <= |v.pending + c|
    ensures IndexOf(s + c, m) == |v.output| + IndexOf(v.pending + c, m)
    ensures Occurs(s + c, m)
  {
    assert s + c == v.output + (v.pending + c);
    FirstOccurrence(v.output, v.pending, c, m);
    IndexOfIsFirst(v.pending + c, m);
    IndexOfIsFirst(s + c, m);
  }

  lemma CutInParts(out: string, p: string, c: string, n: nat, at: nat)
    requires at + n <= |p + c|
    ensures Cut(out + p + c, n, |out| + at) == out + (p + c)[..at] + (p + c)[at + n..]
  {
    assert out + p + c == out + (p + c);
    CutShift(out, p + c, n, at);
  }

  /** The marker is completed by this chunk. */
  lemma CompletionTracks(v: Scan, m: string, c: string, at: nat)
    requires |m| > 0 && !v.matched && at == IndexOf(v.pending + c, m) <= |v.pending + c| - |m|
    requires IndexOf(v.output + v.pending + c, m) == |v.output| + at
    ensures Pushed(v, m, c).1 && Pushed(v, m, c).0.matched && Pushed(v, m, c).0.pending == ""
    ensures Pushed(v, m, c).0.output == RemoveFirst(v.output + v.pending + c, m)
  {
    CutInParts(v.output, v.pending, c, |m|, at);
  }

  lemma FlushIsRetained(v: Scan, m: string, s: string, c: string)
    requires |m| > 0 && Tracks(v, m, s) && !v.matched && IndexOf(v.pending + c, m) < 0
    ensures !Occurs(s + c, m) && IsRetained(s + c, m, RetainedLength(v.pending + c, m))
  {
    assert s + c == v.output + (v.pending + c);
    RetainedLengthIsRetained(v.pending + c, m);
    RetainedStep(v.output, v.pending, c, m, RetainedLength(v.pending + c, m));
    FirstOccurrence(v.output, v.pending, c, m);
    IndexOfIsFirst(s + c, m);
  }

  /** No occurrence yet: everything but the new retained suffix is written. */
  lemma FlushSplits(out: string, p: string, c: string, r: nat)
    requires r <= |p + c|
    ensures out + p + c == out + (p + c)[..|p + c| - r] + (p + c)[|p + c| - r..]
  {
  }

  lemma PushTracks(v: Scan, m: string, s: string, c: string)
    requires |m| > 0 && Tracks(v, m, s)
    ensures Tracks(Pushed(v, m, c).0, m, s + c)
    ensures Pushed(v, m, c).1 <==> Occurs(s + c, m) && !Occurs(s, m)
  {
    if v.matched {
      OccursGrows(s, c, m);
      assert v.pending + c == c;
    } else if IndexOf(v.pending + c, m) >= 0 {
      CompletionIndex(v, m, s, c);
      CompletionTracks(v, m, c, IndexOf(v.pending + c, m));
    } else {
      FlushIsRetained(v, m, s, c);
      FlushSplits(v.output, v.pending, c, RetainedLength(v.pending + c, m));
    }
  }

  /** The state after a sequence of pushes on a new scanner. */
  function After(m: string, chunks: seq<string>): Scan
    requires |m| > 0
  {
    if chunks == [] then Scan("", false, "")
    else Pushed(After(m, chunks[..|chunks| - 1]), m, chunks[|chunks| - 1]).0
  }

  /** Until the marker is complete, `pending` is the longest suffix of the whole
      stream that could start it; everything before it has been written. */
  lemma {:induction false} AfterTracks(m: string, chunks: seq<string>)
    requires |m| > 0
    ensures Tracks(After(m, chunks), m, Flat(chunks))
  {
    if chunks == [] {
      assert forall i :: !OccursAt("", m, i);
    } else {
      var k := |chunks| - 1;
      AfterTracks(m, chunks[..k]);
      PushTracks(After(m, chunks[..k]), m, Flat(chunks[..k]), chunks[k]);
    }
  }

  /** For every chunking: all text written by the pushes and the final `finish`
      is the input without its first marker. */
  lemma OutputIsRemoveFirst(m: string, chunks: seq<string>)
    requires |m| > 0
    ensures var v := After(m, chunks);
            v.output + v.pending == RemoveFirst(Flat(chunks), m)
  {
    AfterTracks(m, chunks);
    IndexOfIsFirst(Flat(chunks), m);
  }

  /** Two chunkings of one stream write the same text. */
  lemma ChunkingIsInvisible(m: string, chunks: seq<string>, others: seq<string>)
    requires |m| > 0 && Flat(chunks) == Flat(others)
    ensures After(m, chunks).output + After(m, chunks).pending
         == After(m, others).output + After(m, others).pending
  {
    OutputIsRemoveFirst(m, chunks);
    OutputIsRemoveFirst(m, others);
  }

  /** `push` reports a hit on exactly the chunk that first completes an occurrence. */
  lemma HitExactlyOnCompletion(m: string, chunks: seq<string>, i: nat)
    requires |m| > 0 && i < |chunks|
    ensures Pushed(After(m, chunks[..i]), m, chunks[i]).1
       <==> Occurs(Flat(chunks[..i + 1]), m) && !Occurs(Flat(chunks[..i]), m)
  {
    AfterTracks(m, chunks[..i]);
    PushTracks(After(m, chunks[..i]), m, Flat(chunks[..i]), chunks[i]);
    assert chunks[..i + 1][..i] == chunks[..i];
  }

  lemma OccursStays(m: string, chunks: seq<string>, i: nat, j: nat)
    requires i <= j <= |chunks| && Occurs(Flat(chunks[..i]), m)
    ensures Occurs(Flat(chunks[..j]), m)
  {
    assert chunks[..j] == chunks[..i] + chunks[i..j];
    FlatAppend(chunks[..i], chunks[i..j]);
    OccursGrows(Flat(chunks[..i]), Flat(chunks[i..j]), m);
  }

  /** ... and therefore at most once. */
  lemma HitAtMostOnce(m: string, chunks: seq<string>, i: nat, j: nat)
    requires |m| > 0 && i < j < |chunks|
    requires Pushed(After(m, chunks[..i]), m, chunks[i]).1
    ensures !Pushed(After(m, chunks[..j]), m, chunks[j]).1
  {
    HitExactlyOnCompletion(m, chunks, i);
    OccursStays(m, chunks, i + 1, j);
    HitExactlyOnCompletion(m, chunks, j);
  }
}
