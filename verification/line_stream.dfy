/** What `RawLineReader` promises over whole runs: whatever the chunking and the
    interleaving of socket events with reads, the reads deliver the lines of the
    byte stream. The reader is the specification `LineReader.Reader`, which the
    class `LineReader.RawLineReader` implements method by method. */
module LineStream {
  import opened Wrappers
  import opened Sequences
  import opened LineReader

  datatype Event = Data(chunk: seq<byte>) | End | Error(error: LineReader.Error) | Pull

  /** `received`: all bytes delivered by the socket. `outcomes`: how the reads
      settled, in order. `closed`, `broken`: an `End`, an `Error` happened. */
  datatype World = World(
    reader: Reader, received: seq<byte>, outcomes: seq<Outcome>, closed: bool, broken: bool)

  const INIT := World(FRESH, [], [], false, false)

  /** Data arrives only while the socket flows and not after its end; one read at a time. */
  predicate Enabled(w: World, e: Event) {
    match e
    case Data(_) => w.reader.flowing && !w.closed
    case Pull => !w.reader.waiting
    case _ => true
  }

  function Settled(w: World, step: (Reader, Option<Outcome>)): World {
    w.(reader := step.0, outcomes := if step.1.Some? then w.outcomes + [step.1.value] else w.outcomes)
  }

  function Next(w: World, e: Event): World {
    var r := w.reader;
    match e
    case Data(c) =>
      Settled(w.(received := w.received + c), Settle(r.(queue := r.queue + c, flowing := false)))
    case End => Settled(w.(closed := true), Settle(r.(ended := true)))
    case Error(e) => Settled(w.(broken := true), Failed(r, e))
    case Pull =>
      var (r', result) := Pulled(r);
      Settled(w, (r', if result.Done? then Some(result.outcome) else None))
  }

  ghost predicate Legal(es: seq<Event>) {
    es == [] || (Legal(es[..|es| - 1]) && Enabled(After(es[..|es| - 1]), es[|es| - 1]))
  }

  function After(es: seq<Event>): World {
    if es == [] then INIT else Next(After(es[..|es| - 1]), es[|es| - 1])
  }

  // ---------------------------------------------------------------- the reference

  /** One read on a complete stream: its outcome and what is left. */
  function Expect(s: seq<byte>): (Outcome, seq<byte>) {
    if HasLine(s) && Fits(s) then (Bytes(FirstLine(s)), AfterLine(s))
    else if HasLine(s) || |s| > LIMIT then (Fail(TooLong), s)
    else if s == [] then (Null, [])
    else (Bytes(s), [])
  }

  /** The outcomes of `n` successive reads on a complete stream. */
  function Reads(s: seq<byte>, n: nat): (o: seq<Outcome>)
    ensures |o| == n
  {
    if n == 0 then [] else Reads(s, n - 1) + [Expect(Rest(s, n - 1)).0]
  }

  function Rest(s: seq<byte>, n: nat): seq<byte> {
    if n == 0 then s else Expect(Rest(s, n - 1)).1
  }

  // ---------------------------------------------------------------- one read

  /** `queue` starts with a frame that no continuation can make short enough. */
  predicate Oversized(q: seq<byte>) {
    if HasLine(q) then !Fits(q) else |q| > LIMIT
  }

  lemma NewlineExtends(q: seq<byte>, more: seq<byte>)
    ensures if HasLine(q) then Newline(q + more) == Newline(q) else Newline(q + more) >= |q|
  {
    NewlineIsFirst(q);
    NewlineIsFirst(q + more);
    if HasLine(q) {
      assert (q + more)[Newline(q)] == NL;
    } else {
      assert forall k | 0 <= k < |q| :: (q + more)[k] == q[k];
    }
  }

  lemma LineExtends(q: seq<byte>, more: seq<byte>)
    requires HasLine(q)
    ensures HasLine(q + more) && FirstLine(q + more) == FirstLine(q)
    ensures AfterLine(q + more) == AfterLine(q) + more
  {
    NewlineExtends(q, more);
  }

  /** A read that settles gives what the complete stream gives, whatever follows. */
  lemma TakeIsExpected(r: Reader, more: seq<byte>)
    requires Take(r).1.Some?
    requires r.failure.Some? && Take(r).1.value.Fail? ==> r.failure.value == TooLong && Oversized(r.queue)
    requires r.ended && r.failure.None? ==> more == []
    ensures Expect(r.queue + more) == (Take(r).1.value, Take(r).0.queue + more)
  {
    NewlineExtends(r.queue, more);
    if HasLine(r.queue) {
      LineExtends(r.queue, more);
    } else if r.ended && r.failure.None? {
      assert r.queue + more == r.queue && [] + more == [];
    }
  }

  // ---------------------------------------------------------------- whole runs

  ghost predicate NoFail(outs: seq<Outcome>) {
    forall i | 0 <= i < |outs| :: !outs[i].Fail?
  }

  /** `more` can still arrive after the bytes received so far. */
  predicate Continues(w: World, more: seq<byte>) {
    w.closed ==> more == []
  }

  /** `outs` are the first reads of the stream, and `rest` is left of it. */
  predicate ReadSoFar(outs: seq<Outcome>, rest: seq<byte>, stream: seq<byte>) {
    outs == Reads(stream, |outs|) && rest == Rest(stream, |outs|)
  }

  lemma OneMoreRead(outs: seq<Outcome>, rest: seq<byte>, stream: seq<byte>, o: Outcome, rest': seq<byte>)
    requires ReadSoFar(outs, rest, stream) && Expect(rest) == (o, rest')
    ensures ReadSoFar(outs + [o], rest', stream)
  {
  }

  predicate Agrees(w: World, more: seq<byte>) {
    ReadSoFar(w.outcomes, w.reader.queue + more, w.received + more)
  }

  function DataOf(o: Outcome): seq<byte> {
    if o.Bytes? then o.data else []
  }

  function Delivered(outs: seq<Outcome>): seq<byte> {
    if outs == [] then [] else Delivered(outs[..|outs| - 1]) + DataOf(outs[|outs| - 1])
  }

  lemma DeliveredAppend(outs: seq<Outcome>, o: Outcome)
    ensures Delivered(outs + [o]) == Delivered(outs) + DataOf(o)
  {
    assert (outs + [o])[..|outs|] == outs;
  }

  lemma LineSplits(q: seq<byte>)
    requires HasLine(q)
    ensures FirstLine(q) + AfterLine(q) == q
  {
  }

  ghost predicate Sound(w: World) {
    var r := w.reader;
    && Quiet(r)
    && (r.ended <==> w.closed || r.failure.Some?)
    && (r.failure.Some? && !w.broken ==> r.failure.value == TooLong && Oversized(r.queue))
    && (r.failure.Some? ==> !r.flowing)
    && (!w.closed ==> (r.flowing <==> r.waiting))
  }

  ghost predicate Conserves(w: World) {
    Delivered(w.outcomes) + w.reader.queue == w.received
  }

  /** What an event does before the parked or new read looks at the queue. */
  function Before(r: Reader, e: Event): Reader {
    match e
    case Data(c) => r.(queue := r.queue + c, flowing := false)
    case End => r.(ended := true)
    case Error(e) => Stuck(r, e)
    case Pull => r
  }

  /** An event gives the read a look at the queue, or it leaves queue and outcomes alone. */
  predicate Looks(w: World, e: Event) {
    (e.Pull? || w.reader.waiting) && Take(Before(w.reader, e)).1.Some?
  }

  lemma StepShape(w: World, e: Event)
    requires Sound(w) && Enabled(w, e)
    ensures var w', b := Next(w, e), Before(w.reader, e);
            && w'.received == (if e.Data? then w.received + e.chunk else w.received)
            && w'.closed == (w.closed || e.End?) && w'.broken == (w.broken || e.Error?)
            && if Looks(w, e) then
                 w'.outcomes == w.outcomes + [Take(b).1.value] && w'.reader == Take(b).0.(waiting := false)
               else
                 && w'.outcomes == w.outcomes && w'.reader.queue == b.queue
                 && w'.reader.ended == b.ended && w'.reader.failure == b.failure
                 && (!w'.closed ==> (w'.reader.flowing <==> w'.reader.waiting))
                 && Quiet(w'.reader)
  {
  }

  lemma TakeKeepsDelivered(outs: seq<Outcome>, r: Reader)
    requires Take(r).1.Some?
    ensures Delivered(outs + [Take(r).1.value]) + Take(r).0.queue == Delivered(outs) + r.queue
  {
    var o := Take(r).1.value;
    TakeSplits(r);
    DeliveredAppend(outs, o);
    Regroup(Delivered(outs), DataOf(o), Take(r).0.queue);
  }

  lemma TakeSplits(r: Reader)
    requires Take(r).1.Some?
    ensures DataOf(Take(r).1.value) + Take(r).0.queue == r.queue
  {
    if HasLine(r.queue) && Fits(r.queue) {
      LineSplits(r.queue);
    } else if r.ended && Take(r).1.value.Bytes? {
      NothingLeft(r.queue);
    } else {
      NothingTaken(Take(r).0.queue);
    }
  }

  lemma NothingLeft(q: seq<byte>)
    ensures q + [] == q
  {
  }

  lemma NothingTaken(q: seq<byte>)
    ensures [] + q == q
  {
  }

  lemma StepSound(w: World, e: Event)
    requires Sound(w) && Enabled(w, e)
    ensures Sound(Next(w, e))
  {
    StepShape(w, e);
  }

  lemma StepConserves(w: World, e: Event)
    requires Sound(w) && Conserves(w) && Enabled(w, e)
    ensures Conserves(Next(w, e))
  {
    StepShape(w, e);
    if e.Data? {
      Regroup(Delivered(w.outcomes), w.reader.queue, e.chunk);
    }
    if Looks(w, e) {
      TakeKeepsDelivered(w.outcomes, Before(w.reader, e));
    }
  }

  /** The bytes an event brings stand before what follows. */
  lemma Follows(w: World, e: Event, more: seq<byte>)
    ensures var ahead := if e.Data? then e.chunk + more else more;
            && Before(w.reader, e).queue + more == w.reader.queue + ahead
            && (if e.Data? then w.received + e.chunk else w.received) + more == w.received + ahead
  {
    if e.Data? {
      Regroup(w.reader.queue, e.chunk, more);
      Regroup(w.received, e.chunk, more);
    }
  }

  lemma LookedAgrees(w: World, e: Event, more: seq<byte>)
    requires Sound(w) && Enabled(w, e) && Looks(w, e) && Continues(Next(w, e), more)
    requires !Next(w, e).broken || NoFail(Next(w, e).outcomes)
    ensures var b := Before(w.reader, e);
            Expect(b.queue + more) == (Take(b).1.value, Take(b).0.queue + more)
  {
    StepShape(w, e);
    var b := Before(w.reader, e);
    assert Next(w, e).outcomes[|w.outcomes|] == Take(b).1.value;
    TakeIsExpected(b, more);
  }

  /** Without transport errors, or before the first rejection, the reads agree with
      the reference after every step, for every possible continuation. */
  lemma StepAgrees(w: World, e: Event, more: seq<byte>)
    requires Sound(w) && Enabled(w, e)
    requires !Next(w, e).broken || NoFail(Next(w, e).outcomes)
    requires Continues(Next(w, e), more)
    requires Agrees(w, if e.Data? then e.chunk + more else more)
    ensures Agrees(Next(w, e), more)
  {
    var b := Before(w.reader, e);
    StepShape(w, e);
    Follows(w, e, more);
    if Looks(w, e) {
      LookedAgrees(w, e, more);
      OneMoreRead(w.outcomes, b.queue + more, Next(w, e).received + more, Take(b).1.value, Take(b).0.queue + more);
    }
  }

  lemma {:induction false} AfterSound(es: seq<Event>)
    requires Legal(es)
    ensures Sound(After(es))
  {
    if es != [] {
      AfterSound(es[..|es| - 1]);
      StepSound(After(es[..|es| - 1]), es[|es| - 1]);
    }
  }

  lemma StepMonotone(w: World, e: Event)
    requires Sound(w) && Enabled(w, e)
    ensures w.outcomes <= Next(w, e).outcomes
    ensures w.closed ==> Next(w, e).closed
    ensures w.broken ==> Next(w, e).broken
  {
    StepShape(w, e);
  }

  /** Main result. In every legal run, as long as no transport error has caused a
      rejection, the settled reads are exactly the reads of the complete stream:
      they depend neither on the chunking nor on the timing, and every
      continuation of the stream would give the same ones. */
  lemma {:induction false} ReadsAreTheLines(es: seq<Event>, more: seq<byte>)
    requires Legal(es)
    requires !After(es).broken || NoFail(After(es).outcomes)
    requires Continues(After(es), more)
    ensures After(es).outcomes == Reads(After(es).received + more, |After(es).outcomes|)
    ensures After(es).reader.queue + more == Rest(After(es).received + more, |After(es).outcomes|)
  {
    if es != [] {
      var w, e := After(es[..|es| - 1]), es[|es| - 1];
      AfterSound(es[..|es| - 1]);
      StepMonotone(w, e);
      ReadsAreTheLines(es[..|es| - 1], if e.Data? then e.chunk + more else more);
      StepAgrees(w, e, more);
    }
  }

  /** Two runs over one byte stream, however chunked: the common reads are equal. */
  lemma ChunkingIsInvisible(es: seq<Event>, fs: seq<Event>, n: nat)
    requires Legal(es) && Legal(fs) && !After(es).broken && !After(fs).broken
    requires After(es).received == After(fs).received
    requires n <= |After(es).outcomes| && n <= |After(fs).outcomes|
    ensures After(es).outcomes[..n] == After(fs).outcomes[..n]
  {
    var s := After(es).received;
    ReadsAreTheLines(es, []);
    ReadsAreTheLines(fs, []);
    assert s + [] == s;
    ReadsPrefix(s, |After(es).outcomes|, n);
    ReadsPrefix(s, |After(fs).outcomes|, n);
  }

  lemma {:induction false} ReadsPrefix(s: seq<byte>, m: nat, n: nat)
    requires n <= m
    ensures Reads(s, m)[..n] == Reads(s, n)
  {
    if n < m {
      ReadsPrefix(s, m - 1, n);
      assert Reads(s, m)[..n] == Reads(s, m - 1)[..n];
    }
  }

  /** No byte is lost, invented or moved: also in runs with transport errors. */
  lemma {:induction false} BytesAreConserved(es: seq<Event>)
    requires Legal(es)
    ensures Delivered(After(es).outcomes) + After(es).reader.queue == After(es).received
  {
    if es != [] {
      AfterSound(es[..|es| - 1]);
      BytesAreConserved(es[..|es| - 1]);
      StepConserves(After(es[..|es| - 1]), es[|es| - 1]);
    }
  }

  /** As long as the socket is open it flows if and only if a read is parked, which then found
      neither a line nor a partial frame over the limit, and never again after the first
      error. */
  lemma FlowsExactlyForAParkedRead(es: seq<Event>)
    requires Legal(es) && !After(es).closed
    ensures var r := After(es).reader;
            && (r.flowing <==> r.waiting)
            && (r.waiting ==> r.failure.None? && !HasLine(r.queue) && |r.queue| <= LIMIT)
  {
    AfterSound(es);
  }

  /** So a parked read never stalls: the next chunk can arrive, and if it completes a line or
      makes the partial frame too long, it settles the read. */
  lemma ChunkSettlesAParkedRead(es: seq<Event>, chunk: seq<byte>)
    requires Legal(es) && !After(es).closed && After(es).reader.waiting
    ensures Legal(es + [Data(chunk)])
    ensures var w, z, q := After(es), After(es + [Data(chunk)]), After(es).reader.queue + chunk;
            if HasLine(q) || |q| > LIMIT then
              && !z.reader.waiting
              && z.outcomes == w.outcomes + [if HasLine(q) && Fits(q) then Bytes(FirstLine(q)) else Fail(TooLong)]
            else
              z.reader.waiting && z.reader.flowing && z.outcomes == w.outcomes && z.reader.queue == q
  {
    FlowsExactlyForAParkedRead(es);
    var fs := es + [Data(chunk)];
    assert fs[..|fs| - 1] == es;
    assert After(fs) == Next(After(es), Data(chunk));
    AfterSound(es);
  }

  /** The end of the stream settles a parked read with the unterminated rest, or null. */
  lemma EndSettlesAParkedRead(es: seq<Event>)
    requires Legal(es) && After(es).reader.waiting && !After(es).closed
    ensures Legal(es + [End])
    ensures var w, z := After(es), After(es + [End]);
            && !z.reader.waiting
            && z.outcomes == w.outcomes + [if w.reader.queue == [] then Null else Bytes(w.reader.queue)]
  {
    FlowsExactlyForAParkedRead(es);
    var fs := es + [End];
    assert fs[..|fs| - 1] == es;
    assert After(fs) == Next(After(es), End);
  }

  /** And a transport error rejects it. */
  lemma ErrorRejectsAParkedRead(es: seq<Event>, error: LineReader.Error)
    requires Legal(es) && After(es).reader.waiting && !After(es).closed
    ensures Legal(es + [Event.Error(error)])
    ensures var w, z := After(es), After(es + [Event.Error(error)]);
            !z.reader.waiting && !z.reader.flowing && z.outcomes == w.outcomes + [Fail(error)]
  {
    FlowsExactlyForAParkedRead(es);
    var fs := es + [Event.Error(error)];
    assert fs[..|fs| - 1] == es;
    assert After(fs) == Next(After(es), Event.Error(error));
  }

  /** A read is answered at once, or parked. */
  lemma ReadIsAnsweredOrParked(es: seq<Event>)
    requires Legal(es) && !After(es).reader.waiting
    ensures Legal(es + [Pull])
    ensures var w, z := After(es), After(es + [Pull]);
            if z.reader.waiting then z.outcomes == w.outcomes && z.reader.queue == w.reader.queue
            else |z.outcomes| == |w.outcomes| + 1 && w.outcomes <= z.outcomes
  {
    AfterSound(es);
    var fs := es + [Pull];
    assert fs[..|fs| - 1] == es;
    assert After(fs) == Next(After(es), Pull);
  }

  /** What the reference means: a delivered frame is a non-empty line within the
      limit, or the unterminated rest at the end of the stream. */
  lemma ReferenceFrames(s: seq<byte>, n: nat)
    requires Expect(Rest(s, n)).0.Bytes?
    ensures var d := Expect(Rest(s, n)).0.data;
            0 < |d| <= LIMIT && (Newline(d) == |d| - 1 || (!HasLine(d) && Rest(s, n + 1) == []))
  {
    var t := Rest(s, n);
    if HasLine(t) && Fits(t) {
      NewlineIsFirst(t);
      NewlineIs(FirstLine(t), Newline(t));
    }
  }

  /** A read is rejected if and only if more than the limit is left and no newline stands
      within it, and gives null if and only if nothing is left. */
  lemma ReferenceRefusesIff(s: seq<byte>, n: nat)
    ensures var t := Rest(s, n);
            && (Expect(t).0.Fail? <==> LIMIT < |t| && forall k | 0 <= k < LIMIT :: t[k] != NL)
            && (Expect(t).0 == Null <==> t == [])
  {
    var t := Rest(s, n);
    NewlineIsFirst(t);
    if LIMIT < |t| && HasLine(t) && Fits(t) { assert t[Newline(t)] == NL; }
  }

  lemma ExpectSplits(t: seq<byte>)
    ensures DataOf(Expect(t).0) + Expect(t).1 == t
  {
    if HasLine(t) && Fits(t) {
      LineSplits(t);
    }
  }

  lemma OneMoreSplit(outs: seq<Outcome>, rest: seq<byte>, stream: seq<byte>)
    requires Delivered(outs) + rest == stream
    ensures Delivered(outs + [Expect(rest).0]) + Expect(rest).1 == stream
  {
    ExpectSplits(rest);
    DeliveredAppend(outs, Expect(rest).0);
    Regroup(Delivered(outs), DataOf(Expect(rest).0), Expect(rest).1);
  }

  /** ... and the frames and what is left make up the stream. */
  lemma {:induction false} ReferenceSplits(s: seq<byte>, n: nat)
    ensures Delivered(Reads(s, n)) + Rest(s, n) == s
  {
    if n > 0 {
      ReferenceSplits(s, n - 1);
      OneMoreSplit(Reads(s, n - 1), Rest(s, n - 1), s);
    } else {
      assert Delivered([]) + s == s;
    }
  }
}
