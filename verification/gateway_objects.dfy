/** The mutable side of a gateway execution: `MessageWriter`, the locals that the main
    loop of `runGatewayExecution` updates, and the slicing loop of `pumpOutput`. */
module GatewayObjects {
  import opened GatewayExecution

  // ---------------------------------------------------------------- MessageWriter

  class MessageWriter {
    var queue: seq<Out>      // messages whose promise has not settled
    var written: seq<Out>
    var broken: bool
    var rejected: seq<Out>

    /** The promise chain as one list: what was written, what was rejected, what waits. */
    ghost function Contents(): Writer
      reads this
    {
      Writer(written + rejected + queue, |written|, broken)
    }

    ghost predicate Valid()
      reads this
    {
      broken <==> rejected != []
    }

    constructor ()
      ensures Valid() && Contents() == Writer([], 0, false)
    {
      queue, written, broken, rejected := [], [], false, [];
    }

    method Send(m: Out)
      returns (job: nat)
      requires Valid()
      modifies this`queue
      ensures Valid() && job == |old(Contents()).jobs|
      ensures Contents() == GatewayExecution.Send(old(Contents()), m)
    {
      ghost var before := Contents().jobs;
      job := |written| + |queue| + |rejected|;
      queue := queue + [m];
      assert Contents().jobs == before + [m];
    }

    /** The head of the chain runs: the message is validated, then written. After a
        failure the rest of the chain is rejected without running. */
    method Turn(state: GatewayState, ok: bool)
      requires Valid() && queue != []
      modifies this
      ensures Valid() && queue == old(queue)[1..]
      ensures old(broken) ==> Contents() == old(Contents())
      ensures !old(broken) ==> |old(written)| < |old(Contents()).jobs|
      ensures !old(broken) ==> Contents() == WriteNext(old(Contents()), state, ok)
    {
      ghost var before := Contents().jobs;
      assert !broken ==> before[|written|] == queue[0];
      var m := queue[0];
      queue := queue[1..];
      if !broken && OutLegal(m, state) && ok {
        written := written + [m];
      } else {
        broken := true;
        rejected := rejected + [m];
      }
      assert Contents().jobs == before;
    }
  }

  // ---------------------------------------------------------------- the main loop's locals

  class Execution {
    const filtered: bool
    const writer: MessageWriter
    var pc: Pc
    var state: GatewayState
    var spawned: bool
    var startSent: bool
    var commandMayExist: bool
    var pipelines: map<Fd, Pump>
    ghost var log: Log

    ghost predicate Valid()
      reads this, writer
    {
      writer.Valid()
    }

    ghost function Value(): State
      reads this, writer
    {
      State(Control(pc, state, spawned, startSent, commandMayExist), writer.Contents(), pipelines, log)
    }

    constructor (filtered: bool)
      ensures Valid() && this.filtered == filtered && Value() == Init()
    {
      this.filtered := filtered;
      writer := new MessageWriter();
      pc, state, spawned, startSent, commandMayExist := Begin, AwaitingDecision, false, false, false;
      pipelines := map[Stdout := NoPump, Stderr := NoPump];
      log := Init().log;
    }

    /** The `catch` block. */
    method Catch()
      requires Valid()
      modifies this`pc, writer
      ensures Valid() && Value() == Throw(old(Value()))
    {
      if startSent && commandMayExist && state == Running {
        var job := writer.Send(Kill);
        pc := Killing(job);
      } else {
        pc := Stopping;
      }
    }

    /** One turn of the loop: the checks on the frame, then the switch. */
    method HandleMessage(ours: bool, m: In)
      requires Valid()
      modifies this, writer
      ensures Valid() && Value() == OnMessage(filtered, old(Value()), ours, m)
    {
      if !InLegal(m, state) || m.Execute? || !ours { Catch(); return; }
      match m
      case Spawned(_) =>
        if spawned { Catch(); return; }
        spawned := true;
        state := Running;
        pc := Spawning;
        log := log.(accepted := log.accepted + [m]);
      case RawChunk(fd, data) =>
        if !spawned { Catch(); return; }
        log := log.(accepted := log.accepted + [m]);
        if filtered {
          pc := Feeding(fd, data);
        } else {
          var job := writer.Send(MaskedChunk(fd, data));
          pc := Writing(job);
        }
      case ProcessExit(code) =>
        if !spawned { Catch(); return; }
        state := AwaitingResult;
        pc := Exiting(code);
        log := log.(accepted := log.accepted + [m]);
      case Cancelled => Catch();
      case TransportError => Catch();
    }

    /** What follows `await writer.drain()`. */
    method Report(code: int)
      requires Valid() && pc == Draining(code)
      modifies this`pc, writer
      ensures Valid() && Value() == OnMain(filtered, old(Value()), Proceed)
    {
      if writer.broken { Catch(); return; }
      var job := writer.Send(Result(code));
      pc := Reporting(code);
    }
  }

  // ---------------------------------------------------------------- slicing

  function Concat(parts: seq<Bytes>): Bytes {
    if parts == [] then [] else Concat(parts[..|parts| - 1]) + parts[|parts| - 1]
  }

  /** Full slices, and a last one that may be shorter but not empty. */
  predicate Sliced(parts: seq<Bytes>, max: nat) {
    && (forall i | 0 <= i < |parts| :: 0 < |parts[i]| <= max)
    && (forall i | 0 <= i < |parts| - 1 :: |parts[i]| == max)
  }

  /** Splits one chunk of filter output as `pumpOutput` sends it; `max` is `maxChunkBytes` of
      gateway_protocol.ts. */
  method Slices(chunk: Bytes, max: nat)
    returns (parts: seq<Bytes>)
    requires 0 < max
    ensures Concat(parts) == chunk && Sliced(parts, max)
  {
    parts := [];
    var offset := 0;
    while offset < |chunk|
      invariant 0 <= offset && Concat(parts) == chunk[..if offset < |chunk| then offset else |chunk|]
      invariant Sliced(parts, max) && (offset < |chunk| ==> forall i | 0 <= i < |parts| :: |parts[i]| == max)
      decreases |chunk| - offset
    {
      var end := if offset + max < |chunk| then offset + max else |chunk|;
      var part := chunk[offset..end];
      assert chunk[..end] == chunk[..offset] + part;
      assert (parts + [part])[..|parts|] == parts;
      parts := parts + [part];
      offset := offset + max;
    }
  }

  /** The slices are determined by their form: no other way to cut has it. */
  lemma {:induction false} SlicesAreUnique(a: seq<Bytes>, b: seq<Bytes>, max: nat)
    requires 0 < max && Sliced(a, max) && Sliced(b, max) && Concat(a) == Concat(b)
    ensures a == b
  {
    ConcatLength(a, max);
    ConcatLength(b, max);
    if a != [] && b != [] {
      var a0, b0, x, y := a[..|a| - 1], b[..|b| - 1], a[|a| - 1], b[|b| - 1];
      SameLast(a, b, max);
      assert Concat(a0) == Concat(a)[..|Concat(a)| - |x|] && Concat(b0) == Concat(b)[..|Concat(b)| - |y|];
      SlicesAreUnique(a0, b0, max);
      assert x == Concat(a)[|Concat(a)| - |x|..] && y == Concat(b)[|Concat(b)| - |y|..];
      assert a == a0 + [x] && b == b0 + [y];
    }
  }

  lemma {:induction false} FullLength(parts: seq<Bytes>, max: nat)
    requires forall i | 0 <= i < |parts| :: |parts[i]| == max
    ensures |Concat(parts)| == |parts| * max
  {
    if parts != [] { FullLength(parts[..|parts| - 1], max); }
  }

  lemma ConcatLength(parts: seq<Bytes>, max: nat)
    requires Sliced(parts, max)
    ensures parts != [] ==> |Concat(parts)| == (|parts| - 1) * max + |parts[|parts| - 1]|
  {
    if parts != [] { FullLength(parts[..|parts| - 1], max); }
  }

  lemma MoreIsMore(m: nat, d: nat, max: nat)
    requires 0 < d
    ensures (m + d) * max >= m * max + max
  {
    assert (m + d) * max == m * max + d * max;
    assert d * max == max + (d - 1) * max;
  }

  lemma SameQuotient(m: nat, n: nat, x: nat, r: nat, t: nat, max: nat)
    requires x == m * max + r && x == n * max + t && 0 < r <= max && 0 < t <= max
    ensures m == n
  {
    if m < n {
      MoreIsMore(m, n - m, max);
    } else if n < m {
      MoreIsMore(n, m - n, max);
    }
  }

  lemma SameLast(a: seq<Bytes>, b: seq<Bytes>, max: nat)
    requires a != [] && b != [] && 0 < max && Sliced(a, max) && Sliced(b, max) && |Concat(a)| == |Concat(b)|
    ensures |a| == |b| && |a[|a| - 1]| == |b[|b| - 1]|
  {
    ConcatLength(a, max);
    ConcatLength(b, max);
    SameQuotient(|a| - 1, |b| - 1, |Concat(a)|, |a[|a| - 1]|, |b[|b| - 1]|, max);
  }
}
