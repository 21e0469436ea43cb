/** What every run of a gateway execution keeps: the order of the outgoing messages,
    the bytes they carry, and the legality of each in the state it is written in. */
module GatewaySafety {
  import opened GatewayExecution

  // ---------------------------------------------------------------- message order

  /** Where the sequence of outgoing messages stands. */
  datatype Phase = Silent | Started | Killed | Reported(code: int) | Broken

  function After(p: Phase, m: Out): Phase {
    match m
    case Start => if p == Silent then Started else Broken
    case MaskedChunk(_, _) => if p == Started || p == Killed then p else Broken
    case Kill => if p == Started then Killed else Broken
    case Result(code) => if p == Started then Reported(code) else Broken
    case _ => Broken
  }

  function PhaseOf(jobs: seq<Out>): Phase {
    if jobs == [] then Silent else After(PhaseOf(jobs[..|jobs| - 1]), jobs[|jobs| - 1])
  }

  lemma PhaseAppend(jobs: seq<Out>, m: Out)
    ensures PhaseOf(jobs + [m]) == After(PhaseOf(jobs), m)
  {
    assert (jobs + [m])[..|jobs|] == jobs;
  }

  /** The order the protocol promises. */
  ghost predicate InOrder(jobs: seq<Out>) {
    && (forall i | 0 <= i < |jobs| :: jobs[i] == Start <==> i == 0)
    && (forall i | 0 <= i < |jobs| :: !jobs[i].Fallback? && !jobs[i].ErrorReply?)
    && (forall i | 0 <= i < |jobs| :: jobs[i].Result? ==> i == |jobs| - 1)
    && (forall i, j | 0 <= i < j < |jobs| :: !(jobs[i] == Kill && (jobs[j] == Kill || jobs[j].Result?)))
  }

  lemma {:induction false} PhaseOrder(jobs: seq<Out>)
    requires PhaseOf(jobs) != Broken
    ensures InOrder(jobs)
    ensures PhaseOf(jobs) == Silent <==> jobs == []
    ensures PhaseOf(jobs) == Killed <==> Kill in jobs
    ensures forall i | 0 <= i < |jobs| && jobs[i].Result? :: PhaseOf(jobs) == Reported(jobs[i].code)
  {
    if jobs != [] { PhaseOrder(jobs[..|jobs| - 1]); }
  }

  lemma {:induction false} PhasePrefix(jobs: seq<Out>, n: nat)
    requires PhaseOf(jobs) != Broken && n <= |jobs|
    ensures PhaseOf(jobs[..n]) != Broken
  {
    if n < |jobs| {
      PhasePrefix(jobs[..|jobs| - 1], n);
      assert jobs[..|jobs| - 1][..n] == jobs[..n];
    } else {
      assert jobs[..n] == jobs;
    }
  }

  /** The order of what the gateway sends, as far as it was accepted. */
  datatype Heard = Nothing | Live | Exited(code: int) | Wrong

  function HeardOf(accepted: seq<In>): Heard {
    if accepted == [] then Nothing
    else
      var h, m := HeardOf(accepted[..|accepted| - 1]), accepted[|accepted| - 1];
      if m.Spawned? && h == Nothing then Live
      else if m.RawChunk? && h == Live then Live
      else if m.ProcessExit? && h == Live then Exited(m.code)
      else Wrong
  }

  lemma HeardAppend(accepted: seq<In>, m: In)
    ensures HeardOf(accepted + [m]) ==
              if m.Spawned? && HeardOf(accepted) == Nothing then Live
              else if m.RawChunk? && HeardOf(accepted) == Live then Live
              else if m.ProcessExit? && HeardOf(accepted) == Live then Exited(m.code)
              else Wrong
  {
    assert (accepted + [m])[..|accepted|] == accepted;
  }

  lemma {:induction false} HeardOrder(accepted: seq<In>)
    requires HeardOf(accepted) != Wrong
    ensures forall i | 0 <= i < |accepted| :: accepted[i].Spawned? <==> i == 0
    ensures forall i | 0 <= i < |accepted| :: accepted[i].ProcessExit? ==>
        i == |accepted| - 1 && HeardOf(accepted) == Exited(accepted[i].code)
    ensures forall i | 0 < i < |accepted| - 1 :: accepted[i].RawChunk?
    ensures HeardOf(accepted).Exited? ==>
        accepted != [] && accepted[|accepted| - 1] == ProcessExit(HeardOf(accepted).code)
    ensures HeardOf(accepted) == Nothing <==> accepted == []
    ensures HeardOf(accepted) == Live && |accepted| > 1 ==> accepted[|accepted| - 1].RawChunk?
  {
    if accepted != [] { HeardOrder(accepted[..|accepted| - 1]); }
  }

  // ---------------------------------------------------------------- the bytes

  function MaskedData(jobs: seq<Out>, fd: Fd): Bytes {
    if jobs == [] then []
    else
      var m := jobs[|jobs| - 1];
      MaskedData(jobs[..|jobs| - 1], fd) + if m.MaskedChunk? && m.fd == fd then m.data else []
  }

  function RawData(accepted: seq<In>, fd: Fd): Bytes {
    if accepted == [] then []
    else
      var m := accepted[|accepted| - 1];
      RawData(accepted[..|accepted| - 1], fd) + if m.RawChunk? && m.fd == fd then m.data else []
  }

  lemma MaskedAppend(jobs: seq<Out>, m: Out, fd: Fd)
    ensures MaskedData(jobs + [m], fd) ==
              if m.MaskedChunk? && m.fd == fd then MaskedData(jobs, fd) + m.data else MaskedData(jobs, fd)
  {
    assert (jobs + [m])[..|jobs|] == jobs;
  }

  lemma RawAppend(accepted: seq<In>, m: In, fd: Fd)
    ensures RawData(accepted + [m], fd) ==
              if m.RawChunk? && m.fd == fd then RawData(accepted, fd) + m.data else RawData(accepted, fd)
  {
    assert (accepted + [m])[..|accepted|] == accepted;
  }

  lemma {:induction false} MaskedPrefix(jobs: seq<Out>, n: nat, fd: Fd)
    requires n <= |jobs|
    ensures MaskedData(jobs[..n], fd) <= MaskedData(jobs, fd)
  {
    if n < |jobs| {
      MaskedPrefix(jobs[..|jobs| - 1], n, fd);
      assert jobs[..|jobs| - 1][..n] == jobs[..n];
    } else {
      assert jobs[..n] == jobs;
    }
  }

  // ---------------------------------------------------------------- the control invariant

  predicate PumpsClosed(s: State) {
    s.pumps == map[Stdout := Closed(true), Stderr := Closed(true)]
  }

  predicate NoPumps(s: State) {
    s.pumps == map[Stdout := NoPump, Stderr := NoPump]
  }

  predicate StateAt(s: State) {
    match s.ctl.pc
    case Begin => s.ctl.gw == AwaitingDecision
    case Starting => s.ctl.gw == AwaitingDecision
    case Exiting(_) => s.ctl.gw == AwaitingResult
    case Finishing(_) => s.ctl.gw == AwaitingResult
    case Draining(_) => s.ctl.gw == AwaitingResult
    case Reporting(_) => s.ctl.gw == AwaitingResult
    case Done => s.ctl.gw == Terminal
    case Stopping => s.ctl.gw != Terminal
    case Failed => s.ctl.gw != Terminal
    case _ => s.ctl.gw == Running
  }

  predicate PhaseAt(s: State, p: Phase) {
    match s.ctl.pc
    case Begin => p == Silent
    case Killing(_) => p == Killed
    case Reporting(code) => p == Reported(code)
    case Done => p.Reported?
    case Stopping => if s.ctl.gw == Running then p == Killed
        else p == Started || (s.ctl.gw == AwaitingResult && p.Reported?)
    case Failed => if s.ctl.gw == Running then p == Killed
        else p == Started || (s.ctl.gw == AwaitingResult && p.Reported?)
    case _ => p == Started
  }

  predicate HeardAt(s: State, h: Heard) {
    && (s.ctl.spawned <==> h != Nothing)
    && (h.Exited? <==> s.ctl.gw == AwaitingResult || s.ctl.gw == Terminal)
    && h != Wrong
    && match s.ctl.pc
       case Spawning => h == Live
       case Writing(_) => h == Live
       case Feeding(_, _) => h == Live
       case Exiting(code) => h == Exited(code)
       case Finishing(code) => h == Exited(code)
       case Draining(code) => h == Exited(code)
       case Reporting(code) => h == Exited(code)
       case _ => true
  }

  predicate WriterAt(s: State) {
    var w := s.writer;
    && w.written <= |w.jobs| && (w.broken ==> w.written < |w.jobs|)
    && (s.ctl.startSent <==> s.ctl.gw != AwaitingDecision) && (s.ctl.startSent ==> 0 < w.written)
    && (s.ctl.gw == AwaitingDecision ==> |w.jobs| <= 1)
    && (s.ctl.gw == Terminal ==> w.written == |w.jobs|)
    && (s.ctl.commandMayExist <==> s.ctl.startSent && s.ctl.gw != Terminal)
  }

  predicate PumpsAt(filtered: bool, s: State) {
    && s.pumps.Keys == {Stdout, Stderr}
    && (!filtered || s.ctl.gw == AwaitingDecision || !s.ctl.spawned ==> NoPumps(s))
    && (s.ctl.pc.Draining? || s.ctl.pc.Reporting? || s.ctl.pc.Done? ==> filtered ==> PumpsClosed(s))
  }

  /** Once the result is queued no pump sends again. */
  predicate ReportedIsLast(filtered: bool, s: State, p: Phase, h: Heard) {
    p.Reported? ==>
        h == Exited(p.code) && (filtered ==> PumpsClosed(s))
        && (s.ctl.pc.Stopping? || s.ctl.pc.Failed? ==> s.writer.broken)
  }

  predicate Control(filtered: bool, s: State, p: Phase, h: Heard) {
    StateAt(s) && PhaseAt(s, p) && HeardAt(s, h) && WriterAt(s) && PumpsAt(filtered, s)
        && ReportedIsLast(filtered, s, p, h)
  }

  ghost predicate Inv(filtered: bool, s: State) {
    Control(filtered, s, PhaseOf(s.writer.jobs), HeardOf(s.log.accepted))
  }

  lemma MessageInv(filtered: bool, s: State, ours: bool, m: In)
    requires Inv(filtered, s) && s.ctl.pc == Reading
    ensures Inv(filtered, OnMessage(filtered, s, ours, m))
  {
    HeardAppend(s.log.accepted, m);
    PhaseAppend(s.writer.jobs, Kill);
    if m.RawChunk? { PhaseAppend(s.writer.jobs, MaskedChunk(m.fd, m.data)); }
  }

  lemma ThrowInv(filtered: bool, s: State)
    requires Inv(filtered, s) && !s.ctl.pc.Begin? && !s.ctl.pc.Done? && !s.ctl.pc.Killing? && !s.ctl.pc.Stopping?
        && !s.ctl.pc.Failed?
    requires s.ctl.pc.Reporting? ==> s.writer.broken
    ensures Inv(filtered, Throw(s))
  {
    PhaseAppend(s.writer.jobs, Kill);
  }

  lemma SpawnedInv(filtered: bool, s: State, a: Answer)
    requires Inv(filtered, s) && s.ctl.pc == Spawning
    ensures Inv(filtered, OnSpawned(filtered, s, a))
  {
    PhaseAppend(s.writer.jobs, Kill);
  }

  lemma StartInv(filtered: bool, s: State, a: Answer)
    requires Inv(filtered, s) && Enabled(filtered, s, Main(a)) && (s.ctl.pc == Begin || s.ctl.pc == Starting)
    ensures Inv(filtered, OnMain(filtered, s, a))
  {
    PhaseAppend(s.writer.jobs, Start);
    if s.ctl.pc == Starting { ThrowInv(filtered, s); }
  }

  lemma ChunkInv(filtered: bool, s: State, a: Answer)
    requires Inv(filtered, s) && (s.ctl.pc.Writing? || s.ctl.pc.Feeding?)
    ensures Inv(filtered, OnMain(filtered, s, a))
  {
    if OnMain(filtered, s, a) == Throw(s) { ThrowInv(filtered, s); }
  }

  lemma StopInv(filtered: bool, s: State, a: Answer)
    requires Inv(filtered, s) && Enabled(filtered, s, Main(a)) && (s.ctl.pc.Killing? || s.ctl.pc.Stopping?)
    ensures Inv(filtered, OnMain(filtered, s, a))
  {
  }

  lemma ExitInv(filtered: bool, s: State, a: Answer)
    requires Inv(filtered, s) && Enabled(filtered, s, Main(a)) && (s.ctl.pc.Exiting? || s.ctl.pc.Finishing?)
    ensures Inv(filtered, OnMain(filtered, s, a))
  {
    ThrowInv(filtered, s);
  }

  lemma DrainInv(filtered: bool, s: State, a: Answer)
    requires Inv(filtered, s) && s.ctl.pc.Draining?
    ensures Inv(filtered, OnMain(filtered, s, a))
  {
    ThrowInv(filtered, s);
    PhaseAppend(s.writer.jobs, Result(s.ctl.pc.code));
  }

  lemma ReportInv(filtered: bool, s: State, a: Answer)
    requires Inv(filtered, s) && Enabled(filtered, s, Main(a)) && s.ctl.pc.Reporting?
    ensures Inv(filtered, OnMain(filtered, s, a))
  {
    if s.writer.broken { ThrowInv(filtered, s); }
  }

  lemma MainInv(filtered: bool, s: State, a: Answer)
    requires Inv(filtered, s) && Enabled(filtered, s, Main(a))
    ensures Inv(filtered, OnMain(filtered, s, a))
  {
    match s.ctl.pc
    case Begin => StartInv(filtered, s, a);
    case Starting => StartInv(filtered, s, a);
    case Reading => if a.Frame? { MessageInv(filtered, s, a.ours, a.message); } else { ThrowInv(filtered, s); }
    case Spawning => SpawnedInv(filtered, s, a);
    case Writing(_) => ChunkInv(filtered, s, a);
    case Feeding(_, _) => ChunkInv(filtered, s, a);
    case Exiting(_) => ExitInv(filtered, s, a);
    case Finishing(_) => ExitInv(filtered, s, a);
    case Draining(_) => DrainInv(filtered, s, a);
    case Reporting(_) => ReportInv(filtered, s, a);
    case _ => StopInv(filtered, s, a);
  }

  lemma StepInv(filtered: bool, s: State, e: Event)
    requires Inv(filtered, s) && Enabled(filtered, s, e)
    ensures Inv(filtered, Step(filtered, s, e))
  {
    match e
    case Main(a) => MainInv(filtered, s, a);
    case Write(_) =>
    case Emit(fd, data) => PhaseAppend(s.writer.jobs, MaskedChunk(fd, data));
    case PumpNext(_) =>
    case PumpEnd(_) =>
  }

  // ---------------------------------------------------------------- the data invariant

  predicate Gone(pc: Pc) {
    pc.Killing? || pc.Stopping? || pc.Failed?
  }

  /** What was sent is what came out of the pipeline, and what went into the pipeline is
      what the gateway sent. */
  predicate BytesAt(filtered: bool, s: State, fd: Fd, masked: Bytes, raw: Bytes) {
    && fd in s.log.emitted && fd in s.log.fed
    && masked == (if filtered then s.log.emitted[fd] else raw)
    && (filtered && !Gone(s.ctl.pc) ==>
          if s.ctl.pc.Feeding? && s.ctl.pc.fd == fd then raw == s.log.fed[fd] + s.ctl.pc.data else raw == s.log.fed[fd])
    && (filtered ==> s.log.fed[fd] <= raw)
  }

  ghost predicate DataInv(filtered: bool, s: State, fd: Fd) {
    BytesAt(filtered, s, fd, MaskedData(s.writer.jobs, fd), RawData(s.log.accepted, fd))
  }

  /** A step that moves no bytes; it may send the message `m`. */
  lemma QuietData(filtered: bool, s: State, s': State, m: Out, fd: Fd)
    requires DataInv(filtered, s, fd) && s'.log == s.log
    requires s'.writer.jobs == s.writer.jobs || (!m.MaskedChunk? && s'.writer.jobs == Send(s.writer, m).jobs)
    requires Gone(s'.ctl.pc) || (!s.ctl.pc.Feeding? && !s'.ctl.pc.Feeding? && !Gone(s.ctl.pc))
    ensures DataInv(filtered, s', fd)
  {
    MaskedAppend(s.writer.jobs, m, fd);
  }

  /** A chunk on its way to the filter. */
  lemma FilteredChunk(s: State, f: Fd, data: Bytes, fd: Fd)
    requires s.ctl.pc == Reading && DataInv(true, s, fd)
    ensures DataInv(true, Goto(Accept(s, RawChunk(f, data)), Feeding(f, data)), fd)
  {
    RawAppend(s.log.accepted, RawChunk(f, data), fd);
    LongerPrefix(s.log.fed[fd], data);
  }

  /** A chunk that is sent on as it is. */
  lemma PlainChunk(s: State, f: Fd, data: Bytes, fd: Fd)
    requires s.ctl.pc == Reading && DataInv(false, s, fd)
    ensures DataInv(false, SendAt(Accept(s, RawChunk(f, data)), Writing(|s.writer.jobs|), MaskedChunk(f, data)), fd)
  {
    RawAppend(s.log.accepted, RawChunk(f, data), fd);
    MaskedAppend(s.writer.jobs, MaskedChunk(f, data), fd);
  }

  lemma LongerPrefix(a: Bytes, b: Bytes)
    ensures a <= a + b
  {
  }

  lemma MessageData(filtered: bool, s: State, ours: bool, m: In, fd: Fd)
    requires s.ctl.pc == Reading && DataInv(filtered, s, fd)
    ensures DataInv(filtered, OnMessage(filtered, s, ours, m), fd)
  {
    if Rejected(s, ours, m) {
      QuietData(filtered, s, Throw(s), Kill, fd);
    } else if m.RawChunk? {
      if filtered { FilteredChunk(s, m.fd, m.data, fd); } else { PlainChunk(s, m.fd, m.data, fd); }
    } else {
      ControlData(filtered, s, OnMessage(filtered, s, ours, m), m, fd);
    }
  }

  /** A frame that carries no bytes. */
  lemma ControlData(filtered: bool, s: State, s': State, m: In, fd: Fd)
    requires !m.RawChunk? && !s.ctl.pc.Feeding? && !Gone(s.ctl.pc) && !s'.ctl.pc.Feeding? && DataInv(filtered, s, fd)
    requires s'.log == Accept(s, m).log && s'.writer == s.writer
    ensures DataInv(filtered, s', fd)
  {
    RawAppend(s.log.accepted, m, fd);
  }

  lemma FedData(filtered: bool, s: State, a: Answer, fd: Fd)
    requires s.ctl.pc.Feeding? && DataInv(filtered, s, fd)
    ensures DataInv(filtered, OnMain(filtered, s, a), fd)
  {
    if OnMain(filtered, s, a) == Throw(s) { QuietData(filtered, s, Throw(s), Kill, fd); }
  }

  /** The message a step of the main loop may send that carries no bytes. */
  function Notice(s: State): Out {
    if s.ctl.pc == Begin then Start else if s.ctl.pc.Draining? && !s.writer.broken then Result(s.ctl.pc.code) else Kill
  }

  predicate Quiet(s: State, s': State) {
    s'.log == s.log
  }

  lemma ThrowIsQuiet(s: State)
    ensures Quiet(s, Throw(s)) && Gone(Throw(s).ctl.pc)
    ensures Throw(s).writer in {s.writer, Send(s.writer, Kill)}
  {
  }

  lemma SpawnIsQuiet(filtered: bool, s: State, a: Answer)
    ensures var s' := OnSpawned(filtered, s, a);
            Quiet(s, s') && (s'.ctl.pc == Reading || Gone(s'.ctl.pc)) && s'.writer in {s.writer, Send(s.writer, Kill)}
  {
  }

  predicate QuietMove(s: State, s': State) {
    && Quiet(s, s') && !s'.ctl.pc.Feeding? && s'.writer in {s.writer, Send(s.writer, Notice(s))}
    && (Gone(s.ctl.pc) ==> Gone(s'.ctl.pc))
  }

  predicate Ending(pc: Pc) {
    Gone(pc) || pc.Draining? || pc.Reporting? || pc.Done?
  }

  lemma EndIsQuiet(filtered: bool, s: State, a: Answer)
    requires Ending(s.ctl.pc)
    ensures QuietMove(s, OnMain(filtered, s, a))
  {
    ThrowIsQuiet(s);
  }

  lemma MainIsQuiet(filtered: bool, s: State, a: Answer)
    requires !s.ctl.pc.Feeding? && !(s.ctl.pc == Reading && a.Frame?)
    ensures QuietMove(s, OnMain(filtered, s, a))
  {
    if Ending(s.ctl.pc) {
      EndIsQuiet(filtered, s, a);
    } else if s.ctl.pc == Spawning {
      SpawnIsQuiet(filtered, s, a);
    } else {
      ThrowIsQuiet(s);
    }
  }

  lemma MainData(filtered: bool, s: State, a: Answer, fd: Fd)
    requires DataInv(filtered, s, fd)
    ensures DataInv(filtered, OnMain(filtered, s, a), fd)
  {
    if s.ctl.pc.Feeding? {
      FedData(filtered, s, a, fd);
    } else if s.ctl.pc == Reading && a.Frame? {
      MessageData(filtered, s, a.ours, a.message, fd);
    } else {
      MainIsQuiet(filtered, s, a);
      QuietData(filtered, s, OnMain(filtered, s, a), Notice(s), fd);
    }
  }

  lemma StepData(filtered: bool, s: State, e: Event, fd: Fd)
    requires Inv(filtered, s) && DataInv(filtered, s, fd) && Enabled(filtered, s, e)
    ensures DataInv(filtered, Step(filtered, s, e), fd)
  {
    match e
    case Main(a) => MainData(filtered, s, a, fd);
    case Emit(of, data) => MaskedAppend(s.writer.jobs, MaskedChunk(of, data), fd);
    case _ =>
  }

  // ---------------------------------------------------------------- the kill

  /** A command that may still run when the execution has failed was sent a kill,
      unless the writer failed before. */
  ghost predicate KillInv(s: State) {
    && (s.ctl.pc.Killing? ==> s.ctl.pc.job < |s.writer.jobs| && s.writer.jobs[s.ctl.pc.job] == Kill)
    && (s.ctl.gw == Running && (s.ctl.pc.Stopping? || s.ctl.pc.Failed?) ==>
          s.writer.broken || exists i | 0 <= i < s.writer.written && i < |s.writer.jobs| :: s.writer.jobs[i] == Kill)
  }

  lemma MainKill(filtered: bool, s: State, a: Answer)
    requires Inv(filtered, s) && KillInv(s) && Enabled(filtered, s, Main(a)) && !Gone(s.ctl.pc)
    ensures KillInv(OnMain(filtered, s, a))
  {
    assert Send(s.writer, Kill).jobs[|s.writer.jobs|] == Kill;
  }

  lemma StepKill(filtered: bool, s: State, e: Event)
    requires Inv(filtered, s) && KillInv(s) && Enabled(filtered, s, e)
    ensures KillInv(Step(filtered, s, e))
  {
    if e.Main? && !Gone(s.ctl.pc) {
      MainKill(filtered, s, e.answer);
    } else {
      var s' := Step(filtered, s, e);
      assert forall i | 0 <= i < s.writer.written && i < |s.writer.jobs| :: s'.writer.jobs[i] == s.writer.jobs[i];
    }
  }

  // ---------------------------------------------------------------- runs

  lemma {:induction false} RunInv(filtered: bool, ss: seq<State>, es: seq<Event>, i: nat)
    requires IsRun(filtered, ss, es) && i < |ss|
    ensures Inv(filtered, ss[i]) && KillInv(ss[i])
  {
    if i > 0 {
      RunInv(filtered, ss, es, i - 1);
      StepInv(filtered, ss[i - 1], es[i - 1]);
      StepKill(filtered, ss[i - 1], es[i - 1]);
    }
  }

  lemma {:induction false} RunData(filtered: bool, ss: seq<State>, es: seq<Event>, i: nat, fd: Fd)
    requires IsRun(filtered, ss, es) && i < |ss|
    ensures DataInv(filtered, ss[i], fd)
  {
    if i > 0 {
      RunInv(filtered, ss, es, i - 1);
      RunData(filtered, ss, es, i - 1, fd);
      StepData(filtered, ss[i - 1], es[i - 1], fd);
    }
  }

  /** The messages that have reached the gateway. */
  function Sent(s: State): seq<Out> {
    if s.writer.written <= |s.writer.jobs| then s.writer.jobs[..s.writer.written] else []
  }

  /** In every run: the first message is `start` and no other is; a `result` is the last
      message and carries the exit code the gateway reported; there is at most one
      `kill`, and none beside a `result` or once a `process_exit` was accepted. */
  lemma MessagesAreInOrder(filtered: bool, ss: seq<State>, es: seq<Event>, n: nat)
    requires IsRun(filtered, ss, es) && n < |ss|
    ensures var out, heard := Sent(ss[n]), ss[n].log.accepted;
            && (forall i | 0 <= i < |out| :: out[i] == Start <==> i == 0)
            && (forall i | 0 <= i < |out| && out[i].Result? ::
                  i == |out| - 1 && heard != [] && heard[|heard| - 1] == ProcessExit(out[i].code))
            && (forall i, j | 0 <= i < j < |out| :: !(out[i] == Kill && (out[j] == Kill || out[j].Result?)))
            && (forall i, k | 0 <= i < |out| && 0 <= k < |heard| :: !(out[i] == Kill && heard[k].ProcessExit?))
  {
    RunInv(filtered, ss, es, n);
    var s := ss[n];
    PhaseOrder(s.writer.jobs);
    HeardOrder(s.log.accepted);
    PhasePrefix(s.writer.jobs, s.writer.written);
    PhaseOrder(Sent(s));
  }

  /** The gateway is heard as `spawned`, then raw chunks, then one `process_exit`. */
  lemma AcceptedInOrder(filtered: bool, ss: seq<State>, es: seq<Event>, n: nat)
    requires IsRun(filtered, ss, es) && n < |ss|
    ensures var heard := ss[n].log.accepted;
            && (forall i | 0 <= i < |heard| :: heard[i].Spawned? <==> i == 0)
            && (forall i | 0 <= i < |heard| :: heard[i].ProcessExit? ==> i == |heard| - 1)
            && (forall i | 0 < i < |heard| - 1 :: heard[i].RawChunk?)
  {
    RunInv(filtered, ss, es, n);
    HeardOrder(ss[n].log.accepted);
  }

  /** Before a `result`, everything was sent. Without a filter that is, for each
      descriptor, exactly the raw bytes received for it, in order; with filters, exactly
      what the filter wrote, which has read exactly the raw bytes. Without a `result` it is
      a prefix of that. */
  lemma BytesArriveInOrder(filtered: bool, ss: seq<State>, es: seq<Event>, n: nat, fd: Fd)
    requires IsRun(filtered, ss, es) && n < |ss|
    ensures fd in ss[n].log.emitted && fd in ss[n].log.fed
    ensures MaskedData(Sent(ss[n]), fd) <= if filtered then ss[n].log.emitted[fd] else RawData(ss[n].log.accepted, fd)
    ensures filtered ==> ss[n].log.fed[fd] <= RawData(ss[n].log.accepted, fd)
    ensures (exists i :: 0 <= i < |Sent(ss[n])| && Sent(ss[n])[i].Result?) ==>
              if filtered then MaskedData(Sent(ss[n]), fd) == ss[n].log.emitted[fd]
                  && ss[n].log.fed[fd] == RawData(ss[n].log.accepted, fd)
              else MaskedData(Sent(ss[n]), fd) == RawData(ss[n].log.accepted, fd)
  {
    RunInv(filtered, ss, es, n);
    RunData(filtered, ss, es, n, fd);
    MaskedPrefix(ss[n].writer.jobs, ss[n].writer.written, fd);
    if i :| 0 <= i < |Sent(ss[n])| && Sent(ss[n])[i].Result? { ResultIsAll(filtered, ss[n], i); }
  }

  lemma ResultIsAll(filtered: bool, s: State, i: nat)
    requires Inv(filtered, s) && i < |Sent(s)| && Sent(s)[i].Result?
    ensures Sent(s) == s.writer.jobs && !Gone(s.ctl.pc) && !s.ctl.pc.Feeding?
  {
    PhaseOrder(s.writer.jobs);
  }

  /** An execution that is done has reported the exit code of its process. */
  lemma DoneMeansReported(filtered: bool, ss: seq<State>, es: seq<Event>, n: nat)
    requires IsRun(filtered, ss, es) && n < |ss| && ss[n].ctl.pc == Done
    ensures Sent(ss[n]) != [] && ss[n].log.accepted != []
    ensures Sent(ss[n])[|Sent(ss[n])| - 1].Result?
    ensures ss[n].log.accepted[|ss[n].log.accepted| - 1] == ProcessExit(Sent(ss[n])[|Sent(ss[n])| - 1].code)
  {
    RunInv(filtered, ss, es, n);
    var s := ss[n];
    HeardOrder(s.log.accepted);
    assert Sent(s) == s.writer.jobs;
  }

  /** The state check of the writer never rejects a message: whatever is about to be
      written is legal in the state the execution is then in. */
  lemma WritesAreLegal(filtered: bool, ss: seq<State>, es: seq<Event>, n: nat)
    requires IsRun(filtered, ss, es) && n < |ss| && Enabled(filtered, ss[n], Write(true))
    ensures OutLegal(ss[n].writer.jobs[ss[n].writer.written], ss[n].ctl.gw)
  {
    RunInv(filtered, ss, es, n);
    PhaseOrder(ss[n].writer.jobs);
  }

  /** If an execution fails after `start` was sent and before the process has exited, a
      `kill` has been sent; it has been written unless its own or an earlier write failed. */
  lemma FailureKills(filtered: bool, ss: seq<State>, es: seq<Event>, n: nat)
    requires IsRun(filtered, ss, es) && n < |ss| && ss[n].ctl.pc == Failed && ss[n].ctl.startSent
    requires forall k | 0 <= k < |ss[n].log.accepted| :: !ss[n].log.accepted[k].ProcessExit?
    ensures var w := ss[n].writer;
            exists k | 0 <= k < |w.jobs| :: w.jobs[k] == Kill && (k < w.written || (w.broken && w.written <= k))
  {
    RunInv(filtered, ss, es, n);
    HeardOrder(ss[n].log.accepted);
    PhaseOrder(ss[n].writer.jobs);
  }
}
