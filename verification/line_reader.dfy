/** `RawLineReader` of `src/hostexec/gateway_execution.ts`: a pull reader that
    splits the byte stream of a socket into newline-terminated frames, keeps at
    most one bounded frame in memory and reports the first frame that is too long. */
module LineReader {
  import opened Wrappers

  newtype byte = x: int | 0 <= x < 256

  const NL: byte := 0x0a

  /** `maxControlBytes` of gateway_protocol.ts; a frame may add CR and LF. */
  const MAX_CONTROL_BYTES: nat := 4 * 1024 * 1024
  const LIMIT: nat := MAX_CONTROL_BYTES + 2

  /** `Transport` stands for socket errors and for `abort` by the owner. */
  datatype Error = TooLong | Transport(reason: nat)

  /** How one `read` promise settles: bytes, `null`, or a rejection. */
  datatype Outcome = Bytes(data: seq<byte>) | Null | Fail(error: Error)

  // ---------------------------------------------------------------- specification

  predicate NoneIn(q: seq<byte>, b: byte) {
    forall k | 0 <= k < |q| :: q[k] != b
  }

  /** The position of the first newline, or the length. */
  function Newline(q: seq<byte>): (n: nat)
    ensures n <= |q|
  {
    if q == [] || q[0] == NL then 0 else 1 + Newline(q[1..])
  }

  lemma {:induction false} NewlineIsFirst(q: seq<byte>)
    ensures Newline(q) < |q| ==> q[Newline(q)] == NL
    ensures forall k | 0 <= k < Newline(q) :: q[k] != NL
  {
    if q != [] && q[0] != NL {
      NewlineIsFirst(q[1..]);
      forall k | 0 <= k < Newline(q) ensures q[k] != NL {
        if k > 0 { assert q[k] == q[1..][k - 1]; }
      }
    }
  }

  /** `waiting`: a read is parked. `flowing`: the socket is not paused. */
  datatype Reader = Reader(queue: seq<byte>, ended: bool, failure: Option<Error>, waiting: bool, flowing: bool)

  const FRESH := Reader([], false, None, false, false)

  predicate HasLine(q: seq<byte>) { Newline(q) < |q| }

  predicate Fits(q: seq<byte>) { Newline(q) + 1 <= LIMIT }

  function FirstLine(q: seq<byte>): seq<byte>
    requires HasLine(q)
  {
    q[..Newline(q) + 1]
  }

  function AfterLine(q: seq<byte>): seq<byte>
    requires HasLine(q)
  {
    q[Newline(q) + 1..]
  }

  /** The first error sticks; it ends the stream and pauses the socket. */
  function Stuck(r: Reader, e: Error): (r': Reader)
    ensures r'.failure.Some?
  {
    if r.failure.Some? then r else r.(failure := Some(e), ended := true, flowing := false)
  }

  /** What the queue offers to a read, if anything. */
  function Take(r: Reader): (Reader, Option<Outcome>) {
    if HasLine(r.queue) && Fits(r.queue) then
      (r.(queue := AfterLine(r.queue)), Some(Bytes(FirstLine(r.queue))))
    else if HasLine(r.queue) || |r.queue| > LIMIT then
      (Stuck(r, TooLong), Some(Fail(Stuck(r, TooLong).failure.value)))
    else if r.failure.Some? then (r, Some(Fail(r.failure.value)))
    else if r.ended then (r.(queue := []), Some(if r.queue == [] then Null else Bytes(r.queue)))
    else (r, None)
  }

  /** `resolveAvailable`: settle the parked read, or ask the socket for more. */
  function Settle(r: Reader): (Reader, Option<Outcome>) {
    if !r.waiting then (r, None)
    else
      var (r', o) := Take(r);
      if o.Some? then (r'.(waiting := false), o) else (r'.(flowing := true), None)
  }

  function Failed(r: Reader, e: Error): (Reader, Option<Outcome>) {
    if r.failure.Some? then
      (r.(waiting := false), if r.waiting then Some(Fail(r.failure.value)) else None)
    else
      Settle(Stuck(r, e))
  }

  /** An oversized frame settles a parked read with the error that sticks. */
  lemma OversizedSettles(r: Reader)
    requires r.waiting && (if HasLine(r.queue) then !Fits(r.queue) else |r.queue| > LIMIT)
    ensures Failed(r, TooLong) == Settle(r)
    ensures !Settle(r).0.waiting && Settle(r).0.failure.Some?
  {
  }

  /** Between two socket events a parked read means that there is nothing to give it. */
  ghost predicate Quiet(r: Reader) {
    r.waiting ==> Take(r).1.None?
  }

  datatype ReadResult = Done(outcome: Outcome) | Parked | Joined

  function Pulled(r: Reader): (Reader, ReadResult) {
    var (r', o) := Take(r);
    if o.Some? then (r', Done(o.value))
    else if r.waiting then (r, Joined)
    else (r.(waiting := true, flowing := true), Parked)
  }

  // ---------------------------------------------------------------- segments

  function Flat(segs: seq<seq<byte>>): seq<byte> {
    if segs == [] then [] else segs[0] + Flat(segs[1..])
  }

  lemma {:induction false} FlatSplit(segs: seq<seq<byte>>, i: nat)
    requires i <= |segs|
    ensures Flat(segs) == Flat(segs[..i]) + Flat(segs[i..])
  {
    if i > 0 {
      FlatSplit(segs[1..], i - 1);
      assert segs[1..][..i - 1] == segs[..i][1..];
      assert segs[1..][i - 1..] == segs[i..];
    }
  }

  lemma FlatFrom(segs: seq<seq<byte>>, i: nat)
    requires i < |segs|
    ensures Flat(segs[i..]) == segs[i] + Flat(segs[i + 1..])
  {
    assert segs[i..][1..] == segs[i + 1..];
  }

  lemma FlatNext(segs: seq<seq<byte>>, i: nat)
    requires i < |segs|
    ensures Flat(segs[..i + 1]) == Flat(segs[..i]) + segs[i]
  {
    FlatSplit(segs[..i + 1], i);
    assert segs[..i + 1][..i] == segs[..i] && segs[..i + 1][i..] == [segs[i]];
    assert Flat([segs[i]]) == segs[i] + Flat([]);
  }

  lemma FlatAppend(segs: seq<seq<byte>>, seg: seq<byte>)
    ensures Flat(segs + [seg]) == Flat(segs) + seg
  {
    FlatNext(segs + [seg], |segs|);
    assert (segs + [seg])[..|segs|] == segs && (segs + [seg])[..|segs| + 1] == segs + [seg];
  }

  lemma NewlineIs(q: seq<byte>, n: nat)
    requires n < |q| && q[n] == NL && forall k | 0 <= k < n :: q[k] != NL
    ensures Newline(q) == n
  {
    NewlineIsFirst(q);
  }

  lemma NewlineInParts(before: seq<byte>, seg: seq<byte>, after: seq<byte>, k: nat)
    requires k < |seg| && seg[k] == NL && NoneIn(before, NL) && forall j | 0 <= j < k :: seg[j] != NL
    ensures Newline(before + (seg + after)) == |before| + k
  {
    var q := before + (seg + after);
    forall j | 0 <= j < |before| + k ensures q[j] != NL {
      if j < |before| { assert q[j] == before[j]; } else { assert q[j] == seg[j - |before|]; }
    }
    NewlineIs(q, |before| + k);
  }

  /** A newline found in segment `i` is the first newline of the whole queue. */
  lemma NewlineInSegment(segs: seq<seq<byte>>, i: nat, k: nat)
    requires i < |segs| && k < |segs[i]| && segs[i][k] == NL
    requires NoneIn(Flat(segs[..i]), NL) && NoneIn(segs[i][..k], NL)
    ensures |Flat(segs[..i])| + k < |Flat(segs)|
    ensures Newline(Flat(segs)) == |Flat(segs[..i])| + k
  {
    FlatSplit(segs, i);
    FlatFrom(segs, i);
    assert forall j | 0 <= j < k :: segs[i][..k][j] == segs[i][j];
    NewlineInParts(Flat(segs[..i]), segs[i], Flat(segs[i + 1..]), k);
  }

  lemma NoneInNext(segs: seq<seq<byte>>, i: nat)
    requires i < |segs| && NoneIn(Flat(segs[..i]), NL) && NoneIn(segs[i], NL)
    ensures NoneIn(Flat(segs[..i + 1]), NL)
  {
    FlatNext(segs, i);
  }

  /** The segments from `i` on hold `n` bytes, none of them a newline. */
  predicate TailWithout(segs: seq<seq<byte>>, i: nat, n: nat) {
    i <= |segs| && n == |Flat(segs[i..])| && NoneIn(Flat(segs[i..]), NL)
  }

  lemma TailGrows(segs: seq<seq<byte>>, i: nat, n: nat)
    requires i < |segs| && TailWithout(segs, i + 1, n) && NoneIn(segs[i], NL)
    ensures TailWithout(segs, i, n + |segs[i]|)
  {
    FlatFrom(segs, i);
  }

  lemma WholeTail(segs: seq<seq<byte>>, n: nat)
    requires TailWithout(segs, 0, n)
    ensures Partial(Flat(segs)) == n
  {
    assert segs[0..] == segs;
    LastIndexIsLast(Flat(segs), NL);
  }

  /** In the whole list, nothing found means that there is no line. */
  lemma NoneInAll(segs: seq<seq<byte>>)
    requires NoneIn(Flat(segs[..|segs|]), NL)
    ensures Newline(Flat(segs)) == |Flat(segs)|
  {
    assert segs[..|segs|] == segs;
    NewlineIsFirst(Flat(segs));
  }

  lemma PrefixOfNext(before: seq<byte>, seg: seq<byte>, n: nat, after: seq<byte>)
    requires n <= |seg|
    ensures before + seg[..n] <= before + seg + after
  {
  }

  /** One turn of the gathering loop. */
  lemma GatherStep(segs: seq<seq<byte>>, i: nat, n: nat)
    requires i < |segs| && n <= |segs[i]|
    ensures Flat(segs[..i]) + segs[i][..n] <= Flat(segs)
    ensures Flat(segs[..i + 1]) == Flat(segs[..i]) + segs[i]
  {
    FlatNext(segs, i);
    FlatSplit(segs, i + 1);
    PrefixOfNext(Flat(segs[..i]), segs[i], n, Flat(segs[i + 1..]));
  }

  lemma DropFromFirst(seg: seq<byte>, rest: seq<byte>, n: nat)
    requires n <= |seg|
    ensures (seg + rest)[n..] == seg[n..] + rest
  {
  }

  predicate Dropped(all: seq<byte>, n: nat, rest: seq<byte>) {
    n <= |all| && rest == all[n..]
  }

  lemma DropDrop(all: seq<byte>, n: nat, rest: seq<byte>, m: nat)
    requires Dropped(all, n, rest) && m <= |rest|
    ensures Dropped(all, n + m, rest[m..])
  {
  }

  /** `Buffer.indexOf(byte, from)` and `Buffer.lastIndexOf(byte)`. */
  function IndexOfByte(s: seq<byte>, b: byte, from: nat): (i: int)
    requires from <= |s|
    ensures i < 0 ==> forall k | from <= k < |s| :: s[k] != b
    ensures i >= 0 ==> from <= i < |s| && s[i] == b && forall k | from <= k < i :: s[k] != b
    decreases |s| - from
  {
    if from == |s| then -1 else if s[from] == b then from else IndexOfByte(s, b, from + 1)
  }

  /** What `IndexOfByte` says of the bytes from `from` on. */
  lemma IndexInRest(s: seq<byte>, b: byte, from: nat)
    requires from <= |s|
    ensures var i := IndexOfByte(s, b, from);
            if i < 0 then NoneIn(s[from..], b)
            else i - from < |s[from..]| && s[from..][i - from] == b && NoneIn(s[from..][..i - from], b)
  {
  }

  function LastIndexOfByte(s: seq<byte>, b: byte): (i: int)
    ensures -1 <= i < |s|
  {
    if s == [] then -1
    else if s[|s| - 1] == b then |s| - 1
    else LastIndexOfByte(s[..|s| - 1], b)
  }

  lemma {:induction false} LastIndexIsLast(s: seq<byte>, b: byte)
    ensures LastIndexOfByte(s, b) >= 0 ==> s[LastIndexOfByte(s, b)] == b
    ensures forall k | LastIndexOfByte(s, b) < k < |s| :: s[k] != b
  {
    if s != [] && s[|s| - 1] != b {
      LastIndexIsLast(s[..|s| - 1], b);
    }
  }

  /** What `LastIndexOfByte` says of the bytes from `from` on. */
  lemma LastIndexInRest(s: seq<byte>, b: byte, from: nat)
    requires from <= |s|
    ensures var i := LastIndexOfByte(s, b);
            if i < from then NoneIn(s[from..], b)
            else i - from < |s[from..]| && s[from..][i - from] == b && NoneIn(s[from..][i - from + 1..], b)
  {
    LastIndexIsLast(s, b);
  }

  /** The number of bytes after the last newline. */
  function Partial(q: seq<byte>): nat {
    |q| - 1 - LastIndexOfByte(q, NL)
  }

  lemma PartialWithoutLine(q: seq<byte>)
    requires !HasLine(q)
    ensures Partial(q) == |q|
  {
    NewlineIsFirst(q);
    LastIndexIsLast(q, NL);
  }

  lemma LastIndexIs(q: seq<byte>, b: byte, n: nat)
    requires n < |q| && q[n] == b && forall k | n < k < |q| :: q[k] != b
    ensures LastIndexOfByte(q, b) == n
  {
    LastIndexIsLast(q, b);
  }

  lemma LastNewlineInParts(before: seq<byte>, seg: seq<byte>, after: seq<byte>, k: nat)
    requires k < |seg| && seg[k] == NL && NoneIn(seg[k + 1..], NL) && NoneIn(after, NL)
    ensures Partial(before + (seg + after)) == |seg| - k - 1 + |after|
  {
    var q := before + (seg + after);
    forall j | |before| + k < j < |q| ensures q[j] != NL {
      if j < |before| + |seg| {
        assert q[j] == seg[k + 1..][j - |before| - k - 1];
      } else {
        assert q[j] == after[j - |before| - |seg|];
      }
    }
    LastIndexIs(q, NL, |before| + k);
  }

  /** A last newline found in segment `i` is the last newline of the whole queue. */
  lemma LastNewlineInSegment(segs: seq<seq<byte>>, i: nat, k: nat, n: nat)
    requires i < |segs| && k < |segs[i]| && segs[i][k] == NL
    requires TailWithout(segs, i + 1, n) && NoneIn(segs[i][k + 1..], NL)
    ensures Partial(Flat(segs)) == |segs[i]| - k - 1 + n
  {
    FlatSplit(segs, i);
    FlatFrom(segs, i);
    LastNewlineInParts(Flat(segs[..i]), segs[i], Flat(segs[i + 1..]), k);
  }

  // ---------------------------------------------------------------- the class

  class RawLineReader {
    var chunks: seq<seq<byte>>
    var chunkOffset: nat
    var queuedBytes: nat
    ghost var queue: seq<byte>  // all unread bytes
    var ended: bool
    var failure: Option<Error>
    var waiting: bool
    var flowing: bool

    ghost predicate Shape() reads `chunks, `chunkOffset {
      if chunks == [] then chunkOffset == 0 else chunkOffset <= |chunks[0]|
    }

    /** The unread part of every chunk. */
    ghost function Segs(): seq<seq<byte>>
      requires Shape()
      reads `chunks, `chunkOffset
    {
      if chunks == [] then [] else [chunks[0][chunkOffset..]] + chunks[1..]
    }

    /** How the chunks represent the queue. */
    ghost predicate Valid()
      reads `chunks, `chunkOffset, `queuedBytes, `queue
    {
      Shape() && queue == Flat(Segs()) && queuedBytes == |queue|
    }

    ghost function State(): Reader reads this {
      Reader(queue, ended, failure, waiting, flowing)
    }

    constructor ()
      ensures Valid() && State() == FRESH
    {
      chunks, chunkOffset, queuedBytes, queue := [], 0, 0, [];
      ended, failure, waiting, flowing := false, None, false, false;
    }

    function Start(index: nat): nat reads `chunkOffset {
      if index == 0 then chunkOffset else 0
    }

    lemma SegmentIs(index: nat)
      requires Valid() && index < |chunks|
      ensures |Segs()| == |chunks| && Start(index) <= |chunks[index]| && Segs()[index] == chunks[index][Start(index)..]
    {
    }

    method FindNewline() returns (found: bool, chunkIndex: nat, offset: nat)
      requires Valid()
      ensures found <==> Newline(queue) < |queue|
      ensures found ==> chunkIndex < |chunks| && Start(chunkIndex) <= offset < |chunks[chunkIndex]|
      ensures found ==> Newline(queue) == |Flat(Segs()[..chunkIndex])| + (offset - Start(chunkIndex))
    {
      ghost var segs := Segs();
      var index := 0;
      while index < |chunks|
        invariant index <= |chunks|
        invariant NoneIn(Flat(segs[..index]), NL)
      {
        var start := Start(index);
        var at := IndexOfByte(chunks[index], NL, start);
        IndexInRest(chunks[index], NL, start);
        assert segs[index] == chunks[index][start..];
        if at >= 0 {
          NewlineInSegment(segs, index, at - start);
          return true, index, at;
        }
        NoneInNext(segs, index);
        index := index + 1;
      }
      NoneInAll(segs);
      return false, 0, 0;
    }

    /** The length of the queued line, summed chunk by chunk. */
    method LineLength(chunkIndex: nat, offset: nat) returns (lineLength: nat)
      requires Valid() && chunkIndex < |chunks| && Start(chunkIndex) <= offset < |chunks[chunkIndex]|
      ensures lineLength == |Flat(Segs()[..chunkIndex])| + (offset - Start(chunkIndex)) + 1
    {
      ghost var segs := Segs();
      lineLength := 0;
      for index := 0 to chunkIndex + 1
        invariant index <= chunkIndex ==> lineLength == |Flat(segs[..index])|
        invariant index == chunkIndex + 1 ==>
          lineLength == |Flat(segs[..chunkIndex])| + (offset - Start(chunkIndex)) + 1
      {
        var end := if index == chunkIndex then offset + 1 else |chunks[index]|;
        FlatNext(segs, index);
        lineLength := lineLength + (end - Start(index));
      }
    }

    /** The first `length` queued bytes, gathered from as many chunks as needed. */
    method Gather(length: nat) returns (bytes: seq<byte>)
      requires Valid() && length <= |queue|
      ensures bytes == queue[..length]
    {
      ghost var segs := Segs();
      assert segs[..|segs|] == segs;
      bytes := [];
      var remaining, index := length, 0;
      while remaining > 0
        invariant 0 <= remaining <= length && |bytes| == length - remaining
        invariant bytes <= Flat(segs)
        invariant remaining > 0 ==> index <= |chunks| && bytes == Flat(segs[..index])
        decreases remaining, |chunks| - index
      {
        var chunk, start := chunks[index], Start(index);
        var available := |chunk| - start;
        var n := if remaining < available then remaining else available;
        assert segs[index] == chunk[start..];
        GatherStep(segs, index, n);
        assert chunk[start..start + n] == segs[index][..n];
        bytes := bytes + chunk[start..start + n];
        remaining := remaining - n;
        index := index + 1;
      }
    }

    /** One turn of the loop in `consume`. */
    method ConsumeHead(remaining: nat) returns (consumed: nat)
      requires Valid() && 0 < remaining <= |queue|
      modifies this`chunks, this`chunkOffset, this`queuedBytes, this`queue
      ensures Valid() && consumed <= remaining && queue == old(queue)[consumed..]
      ensures consumed == remaining || |chunks| < |old(chunks)|
    {
      var chunk := chunks[0];
      var available := |chunk| - chunkOffset;
      consumed := if remaining < available then remaining else available;
      DropFromFirst(chunk[chunkOffset..], Flat(chunks[1..]), consumed);
      assert chunk[chunkOffset..][consumed..] == chunk[chunkOffset + consumed..];
      chunkOffset := chunkOffset + consumed;
      queuedBytes, queue := queuedBytes - consumed, queue[consumed..];
      if chunkOffset == |chunk| {
        chunks := chunks[1..];
        chunkOffset := 0;
        assert Segs() == chunks;
      }
    }

    method Consume(length: nat)
      requires Valid() && length <= |queue|
      modifies this`chunks, this`chunkOffset, this`queuedBytes, this`queue
      ensures Valid() && queue == old(queue)[length..]
    {
      ghost var all := queue;
      ghost var taken := 0;
      var remaining := length;
      while remaining > 0
        invariant Valid() && 0 <= remaining && taken + remaining == length
        invariant Dropped(all, taken, queue) && remaining <= |queue|
        decreases remaining, |chunks|
      {
        ghost var before := queue;
        var consumed := ConsumeHead(remaining);
        DropDrop(all, taken, before, consumed);
        taken, remaining := taken + consumed, remaining - consumed;
      }
    }

    /** The loop of `assertPartialBounded`: the bytes after the last queued newline. */
    method PartialBytes() returns (partialBytes: nat)
      requires Valid()
      ensures partialBytes == Partial(queue)
    {
      ghost var segs := Segs();
      partialBytes := 0;
      for index := |chunks| downto 0
        invariant TailWithout(segs, index, partialBytes)
      {
        var chunk, start := chunks[index], Start(index);
        SegmentIs(index);
        var newline := LastIndexOfByte(chunk, NL);
        LastIndexInRest(chunk, NL, start);
        if newline >= start {
          LastNewlineInSegment(segs, index, newline - start, partialBytes);
          return partialBytes + (|chunk| - newline - 1);
        }
        TailGrows(segs, index, partialBytes);
        partialBytes := partialBytes + (|chunk| - start);
      }
      WholeTail(segs, partialBytes);
    }

    method TakeRemainder() returns (o: Outcome)
      requires Valid()
      modifies this`chunks, this`chunkOffset, this`queuedBytes, this`queue
      ensures Valid() && queue == []
      ensures o == if old(queue) == [] then Null else Bytes(old(queue))
    {
      if queuedBytes == 0 { return Null; }
      ghost var segs := Segs();
      var remainder := [];
      for index := 0 to |chunks|
        modifies {}
        invariant remainder == Flat(segs[..index])
      {
        FlatNext(segs, index);
        remainder := remainder + chunks[index][Start(index)..];
      }
      assert segs[..|chunks|] == segs;
      chunks, chunkOffset, queuedBytes, queue := [], 0, 0, [];
      return Bytes(remainder);
    }

    /** `takeLine`; `threw` is the exception after `fail`. */
    method TakeLine() returns (line: Option<seq<byte>>, threw: bool, settled: Option<Outcome>)
      requires Valid()
      modifies this
      ensures Valid()
      ensures !HasLine(old(queue)) ==> line.None? && !threw && State() == old(State())
      ensures HasLine(old(queue)) && Fits(old(queue)) ==>
                line == Some(FirstLine(old(queue))) && !threw
                && State() == old(State()).(queue := AfterLine(old(queue)))
      ensures HasLine(old(queue)) && !Fits(old(queue)) ==>
                line.None? && threw && failure.Some? && (State(), settled) == Failed(old(State()), TooLong)
      decreases if failure.None? then 1 else 0, 1
    {
      var found, chunkIndex, offset := FindNewline();
      if !found { return None, false, None; }
      var lineLength := LineLength(chunkIndex, offset);
      if lineLength > LIMIT {
        settled := FailWith(TooLong);
        return None, true, settled;
      }
      var bytes := Gather(lineLength);
      Consume(lineLength);
      return Some(bytes), false, None;
    }

    /** `fail`: the first error sticks; a parked read is settled with it. */
    method FailWith(e: Error) returns (settled: Option<Outcome>)
      requires Valid()
      modifies this
      ensures Valid() && failure.Some?
      ensures (State(), settled) == Failed(old(State()), e)
      decreases if failure.None? then 1 else 0, 0
    {
      if failure.Some? {
        settled := if waiting then Some(Fail(failure.value)) else None;
        waiting := false;
        return;
      }
      failure, ended, flowing := Some(e), true, false;
      settled := ResolveAvailable();
    }

    method AssertPartialBounded() returns (threw: bool, settled: Option<Outcome>)
      requires Valid() && !HasLine(queue)
      modifies this
      ensures Valid()
      ensures |old(queue)| <= LIMIT ==> !threw && State() == old(State())
      ensures |old(queue)| > LIMIT ==>
                threw && failure.Some? && (State(), settled) == Failed(old(State()), TooLong)
      decreases if failure.None? then 1 else 0, 1
    {
      PartialWithoutLine(queue);
      var partialBytes := PartialBytes();
      if partialBytes > LIMIT {
        settled := FailWith(TooLong);
        return true, settled;
      }
      return false, None;
    }

    /** What `read` and `resolveAvailable` try first: a line, or else the bound on a partial one. */
    method NextLine() returns (line: Option<seq<byte>>, threw: bool, settled: Option<Outcome>)
      requires Valid()
      modifies this
      ensures Valid()
      ensures HasLine(old(queue)) && Fits(old(queue)) ==>
                line == Some(FirstLine(old(queue))) && !threw
                && State() == old(State()).(queue := AfterLine(old(queue)))
      ensures !HasLine(old(queue)) && |old(queue)| <= LIMIT ==> line.None? && !threw && State() == old(State())
      ensures (if HasLine(old(queue)) then !Fits(old(queue)) else |old(queue)| > LIMIT) ==>
                line.None? && threw && failure.Some? && (State(), settled) == Failed(old(State()), TooLong)
      decreases if failure.None? then 1 else 0, 2
    {
      line, threw, settled := TakeLine();
      if line.None? && !threw { threw, settled := AssertPartialBounded(); }
    }

    method ResolveAvailable() returns (settled: Option<Outcome>)
      requires Valid()
      modifies this
      ensures Valid() && (old(failure).Some? ==> failure.Some?)
      ensures (State(), settled) == Settle(old(State()))
      decreases if failure.None? then 1 else 0, 3
    {
      if !waiting { return None; }
      ghost var r := State();
      var line, threw, rejected := NextLine();
      if line.Some? {
        waiting := false;
        return Some(Bytes(line.value));
      }
      if threw {
        OversizedSettles(r);
        assert (State(), rejected) == Settle(r);
        // The catch block calls `fail` again, which finds no parked read any more.
        var again := FailWith(TooLong);
        return rejected;
      }
      settled := SettleWithoutLine();
    }

    /** The rest of `resolveAvailable`, for a queue without a line. */
    method SettleWithoutLine() returns (settled: Option<Outcome>)
      requires Valid() && waiting && !HasLine(queue) && |queue| <= LIMIT
      modifies this
      ensures Valid() && failure == old(failure)
      ensures (State(), settled) == Settle(old(State()))
    {
      if failure.Some? {
        waiting := false;
        return Some(Fail(failure.value));
      }
      if ended {
        waiting := false;
        var o := TakeRemainder();
        return Some(o);
      }
      flowing := true;
      return None;
    }

    /** The `data` handler: the socket is paused before the chunk is queued. */
    method OnData(chunk: seq<byte>) returns (settled: Option<Outcome>)
      requires Valid()
      modifies this
      ensures Valid()
      ensures (State(), settled)
           == Settle(old(State()).(queue := old(queue) + chunk, flowing := false))
    {
      flowing := false;
      Enqueue(chunk);
      settled := ResolveAvailable();
    }

    method Enqueue(chunk: seq<byte>)
      requires Valid()
      modifies this`chunks, this`queuedBytes, this`queue
      ensures Valid() && queue == old(queue) + chunk
    {
      ghost var before := Segs();
      FlatAppend(before, chunk);
      chunks := chunks + [chunk];
      queuedBytes, queue := queuedBytes + |chunk|, queue + chunk;
      assert Segs() == before + [chunk];
    }

    /** The `end` and `close` handlers. */
    method OnEnd() returns (settled: Option<Outcome>)
      requires Valid()
      modifies this
      ensures Valid()
      ensures (State(), settled) == Settle(old(State()).(ended := true))
    {
      ended := true;
      settled := ResolveAvailable();
    }

    method Read() returns (r: ReadResult)
      requires Valid() && Quiet(State())
      modifies this
      ensures Valid()
      ensures (State(), r) == Pulled(old(State()))
    {
      var line, threw, rejected := NextLine();
      if line.Some? { return Done(Bytes(line.value)); }
      if threw || failure.Some? { return Done(Fail(failure.value)); }
      if ended {
        var o := TakeRemainder();
        return Done(o);
      }
      if waiting { return Joined; }
      waiting, flowing := true, true;
      return Parked;
    }
  }
}
