/** What a gateway execution brings about when nothing fails: every frame that is due is
    accepted, the execution never stops before its end, and a process exit is reported. */
module GatewayProgress {
  import opened GatewayExecution
  import opened GatewaySafety

  // ---------------------------------------------------------------- frames

  /** The frames the gateway may send next: `spawned` once, then chunks or the exit. */
  predicate IsDue(heard: seq<In>, m: In) {
    if heard == [] then m.Spawned? else m.RawChunk? || m.ProcessExit?
  }

  lemma DueIsNotRejected(filtered: bool, s: State, ours: bool, m: In)
    requires Inv(filtered, s) && s.ctl.pc == Reading
    ensures Rejected(s, ours, m) <==> !(ours && IsDue(s.log.accepted, m))
  {
    HeardOrder(s.log.accepted);
  }

  /** A frame of this request that is due is accepted, and does what its type says; every
      other frame is refused, and the command is killed. */
  lemma FrameIsAcceptedIffDue(filtered: bool, ss: seq<State>, es: seq<Event>, n: nat, ours: bool, m: In)
    requires IsRun(filtered, ss, es) && n < |ss| && ss[n].ctl.pc == Reading
    ensures var s, z := ss[n], OnMain(filtered, ss[n], Frame(ours, m));
            if ours && IsDue(s.log.accepted, m) then
              && z.log.accepted == s.log.accepted + [m]
              && match m
                 case RawChunk(fd, data) =>
                   if filtered then z.ctl.pc == Feeding(fd, data) && z.writer == s.writer
                   else z.ctl.pc == Writing(|s.writer.jobs|) && z.writer.jobs == s.writer.jobs + [MaskedChunk(fd, data)]
                 case ProcessExit(code) =>
                   z.ctl.pc == Exiting(code) && z.ctl.gw == AwaitingResult && z.writer == s.writer
                 case _ => z.ctl.pc == Spawning && z.ctl.gw == Running && z.writer == s.writer
            else
              && z.log.accepted == s.log.accepted && z.ctl.pc.Killing? && z.writer.jobs == s.writer.jobs + [Kill]
  {
    RunInv(filtered, ss, es, n);
    DueIsNotRejected(filtered, ss[n], ours, m);
    if !(ours && IsDue(ss[n].log.accepted, m)) { RefusedIsKilled(filtered, ss[n], ours, m); }
  }

  lemma RefusedIsKilled(filtered: bool, s: State, ours: bool, m: In)
    requires Inv(filtered, s) && s.ctl.pc == Reading && Rejected(s, ours, m)
    ensures var z := OnMain(filtered, s, Frame(ours, m));
            z.log.accepted == s.log.accepted && z.ctl.pc.Killing? && z.writer.jobs == s.writer.jobs + [Kill]
  {
  }

  // ---------------------------------------------------------------- nothing fails

  /** The awaited operation succeeds, and the gateway sends what is due. */
  predicate Succeeds(s: State, e: Event) {
    e.Main? ==>
      if s.ctl.pc == Reading then e.answer.Frame? && e.answer.ours && IsDue(s.log.accepted, e.answer.message)
      else e.answer.Proceed?
  }

  predicate FedOk(s: State) {
    Stdout in s.log.fed && Stderr in s.log.fed
  }

  lemma BrokenStays(filtered: bool, s: State, e: Event)
    requires Enabled(filtered, s, e) && s.writer.broken
    ensures Step(filtered, s, e).writer.broken
  {
  }

  lemma ReadingGoesOn(filtered: bool, s: State, e: Event)
    requires Inv(filtered, s) && s.ctl.pc == Reading && e.Main? && Succeeds(s, e)
    ensures !Gone(OnMain(filtered, s, e.answer).ctl.pc)
  {
    DueIsNotRejected(filtered, s, true, e.answer.message);
  }

  lemma MainGoesOn(filtered: bool, s: State, e: Event)
    requires Inv(filtered, s) && FedOk(s) && Enabled(filtered, s, e) && e.Main? && s.ctl.pc != Reading
    requires !Gone(s.ctl.pc) && Succeeds(s, e) && !s.writer.broken
    ensures !Gone(OnMain(filtered, s, e.answer).ctl.pc)
  {
    match s.ctl.pc
    case Feeding(fd, _) => assert fd == Stdout || fd == Stderr;
    case _ =>
  }

  lemma StepGoesOn(filtered: bool, s: State, e: Event)
    requires Inv(filtered, s) && FedOk(s) && Enabled(filtered, s, e) && !Gone(s.ctl.pc)
    requires Succeeds(s, e) && !Step(filtered, s, e).writer.broken
    ensures !Gone(Step(filtered, s, e).ctl.pc)
  {
    if s.writer.broken { BrokenStays(filtered, s, e); }
    match e
    case Main(_) => if s.ctl.pc == Reading { ReadingGoesOn(filtered, s, e); } else { MainGoesOn(filtered, s, e); }
    case Write(_) =>
    case Emit(_, _) =>
    case PumpNext(_) =>
    case PumpEnd(_) =>
  }

  lemma RunFed(filtered: bool, ss: seq<State>, es: seq<Event>, i: nat)
    requires IsRun(filtered, ss, es) && i < |ss|
    ensures FedOk(ss[i])
  {
    RunData(filtered, ss, es, i, Stdout);
    RunData(filtered, ss, es, i, Stderr);
  }

  ghost predicate SucceedsUntil(ss: seq<State>, es: seq<Event>, n: nat)
    requires n <= |ss| && n <= |es|
  {
    forall m | 0 <= m < n :: Succeeds(ss[m], es[m])
  }

  lemma RunGoesOn(filtered: bool, ss: seq<State>, es: seq<Event>, i: nat)
    requires IsRun(filtered, ss, es) && i < |es| && !Gone(ss[i].ctl.pc) && Succeeds(ss[i], es[i])
    requires !ss[i + 1].writer.broken
    ensures !Gone(ss[i + 1].ctl.pc)
  {
    assert Enabled(filtered, ss[i], es[i]) && ss[i + 1] == Step(filtered, ss[i], es[i]);
    RunInv(filtered, ss, es, i);
    RunFed(filtered, ss, es, i);
    StepGoesOn(filtered, ss[i], es[i]);
  }

  lemma {:induction false} RunNeverGone(filtered: bool, ss: seq<State>, es: seq<Event>, n: nat)
    requires IsRun(filtered, ss, es) && n < |ss| && !ss[n].writer.broken && SucceedsUntil(ss, es, n)
    ensures !Gone(ss[n].ctl.pc)
  {
    if n > 0 {
      UnbrokenBefore(filtered, ss, es, n - 1);
      RunNeverGone(filtered, ss, es, n - 1);
      RunGoesOn(filtered, ss, es, n - 1);
    }
  }

  /** As long as nothing fails and the gateway sends what is due, an execution never fails
      and never kills its command. */
  lemma SuccessNeverFails(filtered: bool, ss: seq<State>, es: seq<Event>, n: nat)
    requires IsRun(filtered, ss, es) && n < |ss| && !ss[n].writer.broken && SucceedsUntil(ss, es, n)
    ensures !ss[n].ctl.pc.Killing? && !ss[n].ctl.pc.Stopping? && !ss[n].ctl.pc.Failed?
  {
    RunNeverGone(filtered, ss, es, n);
  }

  /** The main loop awaits something that can fail, and it does. */
  predicate Disturbs(s: State, e: Event) {
    e == Main(Throws)
    && (s.ctl.pc == Reading || s.ctl.pc == Spawning || s.ctl.pc.Feeding? || s.ctl.pc.Exiting? || s.ctl.pc.Finishing?)
  }

  lemma GoneStays(filtered: bool, s: State, e: Event)
    requires Enabled(filtered, s, e) && (Gone(s.ctl.pc) || Disturbs(s, e))
    ensures Gone(Step(filtered, s, e).ctl.pc)
  {
  }

  lemma RunGone(filtered: bool, ss: seq<State>, es: seq<Event>, i: nat)
    requires IsRun(filtered, ss, es) && i < |es| && (Gone(ss[i].ctl.pc) || Disturbs(ss[i], es[i]))
    ensures Gone(ss[i + 1].ctl.pc)
  {
    GoneStays(filtered, ss[i], es[i]);
  }

  /** One failure of what the main loop awaits is enough: from then on the execution is only
      being killed and stopped, or has failed. */
  lemma {:induction false} FailureIsFinal(filtered: bool, ss: seq<State>, es: seq<Event>, m: nat, n: nat)
    requires IsRun(filtered, ss, es) && m < n < |ss| && Disturbs(ss[m], es[m])
    ensures ss[n].ctl.pc.Killing? || ss[n].ctl.pc.Stopping? || ss[n].ctl.pc.Failed?
  {
    if m + 1 < n { FailureIsFinal(filtered, ss, es, m, n - 1); }
    RunGone(filtered, ss, es, n - 1);
  }

  lemma WorkedBefore(filtered: bool, s: State, e: Event)
    requires Enabled(filtered, s, e) && !Step(filtered, s, e).writer.broken
    ensures !s.writer.broken
  {
    if s.writer.broken { BrokenStays(filtered, s, e); }
  }

  // ---------------------------------------------------------------- after the exit

  /** Between the exit of the process and the report of its code. */
  predicate Reports(s: State, code: int) {
    match s.ctl.pc
    case Exiting(c) => c == code
    case Finishing(c) => c == code
    case Draining(c) => c == code
    case Reporting(c) => c == code
    case Done => s.log.accepted != [] && s.log.accepted[|s.log.accepted| - 1] == ProcessExit(code)
    case _ => false
  }

  /** What the main loop awaits succeeds. */
  predicate Proceeds(e: Event) {
    e.Main? ==> e.answer.Proceed?
  }

  lemma StepReports(filtered: bool, s: State, e: Event, code: int)
    requires Inv(filtered, s) && Enabled(filtered, s, e) && Reports(s, code)
    requires Proceeds(e) && !Step(filtered, s, e).writer.broken
    ensures Reports(Step(filtered, s, e), code)
  {
    if s.writer.broken { BrokenStays(filtered, s, e); }
    HeardOrder(s.log.accepted);
  }

  /** The gateway's `process_exit` with this code is accepted. */
  predicate Exits(s: State, e: Event, z: State, code: int) {
    e.Main? && e.answer.Frame? && e.answer.message == ProcessExit(code) && s.ctl.pc == Reading
    && z.log.accepted == s.log.accepted + [ProcessExit(code)]
  }

  lemma {:induction false} ExitOn(filtered: bool, ss: seq<State>, es: seq<Event>, i: nat, n: nat, code: int)
    requires IsRun(filtered, ss, es) && i <= n < |ss| && Reports(ss[i], code) && !ss[n].writer.broken
    requires forall m | i <= m < n :: Proceeds(es[m])
    ensures Reports(ss[n], code)
    decreases n - i
  {
    if i < n {
      Unbroken(filtered, ss, es, i + 1, n);
      RunReports(filtered, ss, es, i, code);
      ExitOn(filtered, ss, es, i + 1, n, code);
    }
  }

  lemma {:induction false} Unbroken(filtered: bool, ss: seq<State>, es: seq<Event>, i: nat, n: nat)
    requires IsRun(filtered, ss, es) && i <= n < |ss| && !ss[n].writer.broken
    ensures !ss[i].writer.broken
    decreases n - i
  {
    if i < n {
      Unbroken(filtered, ss, es, i + 1, n);
      UnbrokenBefore(filtered, ss, es, i);
    }
  }

  lemma UnbrokenBefore(filtered: bool, ss: seq<State>, es: seq<Event>, i: nat)
    requires IsRun(filtered, ss, es) && i < |es| && !ss[i + 1].writer.broken
    ensures !ss[i].writer.broken
  {
    assert Enabled(filtered, ss[i], es[i]) && ss[i + 1] == Step(filtered, ss[i], es[i]);
    WorkedBefore(filtered, ss[i], es[i]);
  }

  lemma RunReports(filtered: bool, ss: seq<State>, es: seq<Event>, i: nat, code: int)
    requires IsRun(filtered, ss, es) && i < |es| && Reports(ss[i], code) && Proceeds(es[i]) && !ss[i + 1].writer.broken
    ensures Reports(ss[i + 1], code)
  {
    assert Enabled(filtered, ss[i], es[i]) && ss[i + 1] == Step(filtered, ss[i], es[i]);
    RunInv(filtered, ss, es, i);
    StepReports(filtered, ss[i], es[i], code);
  }

  lemma ExitStep(filtered: bool, ss: seq<State>, es: seq<Event>, k: nat, code: int)
    requires IsRun(filtered, ss, es) && k < |es| && Exits(ss[k], es[k], ss[k + 1], code)
    ensures Reports(ss[k + 1], code)
  {
    assert ss[k + 1] == Step(filtered, ss[k], es[k]);
    RunInv(filtered, ss, es, k);
    ExitIsAccepted(filtered, ss[k], es[k].answer.ours, code);
  }

  lemma ExitIsAccepted(filtered: bool, s: State, ours: bool, code: int)
    requires Inv(filtered, s) && s.ctl.pc == Reading
    requires OnMain(filtered, s, Frame(ours, ProcessExit(code))).log.accepted == s.log.accepted + [ProcessExit(code)]
    ensures Reports(OnMain(filtered, s, Frame(ours, ProcessExit(code))), code)
  {
    assert |s.log.accepted| < |s.log.accepted + [ProcessExit(code)]|;
    assert Rejected(s, ours, ProcessExit(code)) ==> Throw(s).log.accepted == s.log.accepted;
  }

  // ---------------------------------------------------------------- the pumps

  /** What is waited for was sent; a pump fails only with the writer, and runs once the
      filters have been started. */
  predicate PumpOk(filtered: bool, s: State, fd: Fd) {
    && fd in s.pumps
    && (s.ctl.pc.Writing? ==> s.ctl.pc.job < |s.writer.jobs|)
    && (s.pumps[fd] == Closed(false) ==> s.writer.broken)
    && (s.pumps[fd].Waiting? ==> s.pumps[fd].job < |s.writer.jobs|)
    && (filtered && s.ctl.spawned && s.ctl.pc != Spawning && !Gone(s.ctl.pc) ==> s.pumps[fd] != NoPump)
  }

  lemma MessagePumps(filtered: bool, s: State, ours: bool, m: In, fd: Fd)
    requires Inv(filtered, s) && s.ctl.pc == Reading && PumpOk(filtered, s, fd)
    ensures PumpOk(filtered, OnMessage(filtered, s, ours, m), fd)
  {
  }

  lemma SpawnPumps(filtered: bool, s: State, a: Answer, fd: Fd)
    requires Inv(filtered, s) && s.ctl.pc == Spawning && PumpOk(filtered, s, fd)
    ensures PumpOk(filtered, OnSpawned(filtered, s, a), fd)
  {
    assert fd == Stdout || fd == Stderr;
  }

  lemma MainPumps(filtered: bool, s: State, a: Answer, fd: Fd)
    requires Inv(filtered, s) && Enabled(filtered, s, Main(a)) && PumpOk(filtered, s, fd)
    ensures PumpOk(filtered, OnMain(filtered, s, a), fd)
  {
    match s.ctl.pc
    case Reading => if a.Frame? { MessagePumps(filtered, s, a.ours, a.message, fd); }
    case Spawning => SpawnPumps(filtered, s, a, fd);
    case Draining(_) => LatePumps(filtered, s, a, fd);
    case Reporting(_) => LatePumps(filtered, s, a, fd);
    case Exiting(_) => LatePumps(filtered, s, a, fd);
    case Finishing(_) => LatePumps(filtered, s, a, fd);
    case _ =>
  }

  lemma LatePumps(filtered: bool, s: State, a: Answer, fd: Fd)
    requires s.ctl.pc.Draining? || s.ctl.pc.Reporting? || s.ctl.pc.Exiting? || s.ctl.pc.Finishing?
    requires PumpOk(filtered, s, fd)
    ensures PumpOk(filtered, OnMain(filtered, s, a), fd)
  {
  }

  lemma StepPumps(filtered: bool, s: State, e: Event, fd: Fd)
    requires Inv(filtered, s) && Enabled(filtered, s, e) && PumpOk(filtered, s, fd)
    ensures PumpOk(filtered, Step(filtered, s, e), fd)
  {
    if e.Main? { MainPumps(filtered, s, e.answer, fd); }
  }

  lemma {:induction false} RunPumps(filtered: bool, ss: seq<State>, es: seq<Event>, n: nat, fd: Fd)
    requires IsRun(filtered, ss, es) && n < |ss|
    ensures PumpOk(filtered, ss[n], fd)
  {
    if n > 0 {
      RunPumps(filtered, ss, es, n - 1, fd);
      RunInv(filtered, ss, es, n - 1);
      StepPumps(filtered, ss[n - 1], es[n - 1], fd);
    }
  }

  // ---------------------------------------------------------------- the end

  /** No await of the main loop can succeed, no message can be written, and no pump can go on. */
  ghost predicate AtRest(filtered: bool, s: State) {
    && !Enabled(filtered, s, Main(Proceed)) && !Enabled(filtered, s, Write(true))
    && forall fd :: !Enabled(filtered, s, PumpNext(fd)) && !Enabled(filtered, s, PumpEnd(fd))
  }

  lemma ClosedAtRest(filtered: bool, s: State, fd: Fd)
    requires Inv(filtered, s) && PumpOk(filtered, s, fd) && !s.writer.broken && filtered && s.ctl.pc.Finishing?
    requires !Enabled(filtered, s, PumpNext(fd)) && !Enabled(filtered, s, PumpEnd(fd))
    requires !Enabled(filtered, s, Write(true))
    ensures s.pumps[fd] == Closed(true)
  {
  }

  lemma FinishingEnds(filtered: bool, s: State)
    requires Inv(filtered, s) && PumpOk(filtered, s, Stdout) && PumpOk(filtered, s, Stderr) && s.ctl.pc.Finishing?
    requires s.pumps[Stdout] == s.pumps[Stderr] == Closed(true)
    ensures Enabled(filtered, s, Main(Proceed))
  {
    assert s.pumps == map[Stdout := Closed(true), Stderr := Closed(true)];
  }

  lemma NotFinishing(filtered: bool, s: State)
    requires Inv(filtered, s) && PumpOk(filtered, s, Stdout) && PumpOk(filtered, s, Stderr)
    requires AtRest(filtered, s) && !s.writer.broken
    ensures !s.ctl.pc.Finishing?
  {
    if filtered && s.ctl.pc.Finishing? {
      ClosedAtRest(filtered, s, Stdout);
      ClosedAtRest(filtered, s, Stderr);
      FinishingEnds(filtered, s);
      assert false;
    }
  }

  /** An execution whose writer works never hangs: it rests only when it is over. */
  lemma RestsOnlyAtItsEnd(filtered: bool, ss: seq<State>, es: seq<Event>, n: nat)
    requires IsRun(filtered, ss, es) && n < |ss| && AtRest(filtered, ss[n]) && !ss[n].writer.broken
    ensures ss[n].ctl.pc == Done || ss[n].ctl.pc == Failed
  {
    RunInv(filtered, ss, es, n);
    RunPumps(filtered, ss, es, n, Stdout);
    RunPumps(filtered, ss, es, n, Stderr);
    NotFinishing(filtered, ss[n]);
  }

  /** Once a `process_exit` is accepted, and nothing fails afterwards, the execution goes
      on to report that code and never kills or fails; and when there is nothing left to do
      it is done, and the result with that code is the last message it has written. */
  lemma ExitIsReported(filtered: bool, ss: seq<State>, es: seq<Event>, k: nat, n: nat, code: int)
    requires IsRun(filtered, ss, es) && k < n < |ss| && Exits(ss[k], es[k], ss[k + 1], code) && !ss[n].writer.broken
    requires forall m | k < m < n :: Proceeds(es[m])
    ensures !ss[n].ctl.pc.Killing? && !ss[n].ctl.pc.Stopping? && !ss[n].ctl.pc.Failed?
    ensures AtRest(filtered, ss[n]) ==>
              && ss[n].ctl.pc == Done && Sent(ss[n]) == ss[n].writer.jobs != []
              && Sent(ss[n])[|Sent(ss[n])| - 1] == Result(code)
  {
    ExitStep(filtered, ss, es, k, code);
    ExitOn(filtered, ss, es, k + 1, n, code);
    if AtRest(filtered, ss[n]) {
      RestsOnlyAtItsEnd(filtered, ss, es, n);
      DoneMeansReported(filtered, ss, es, n);
      RunInv(filtered, ss, es, n);
      HeardOrder(ss[n].log.accepted);
    }
  }

  // ---------------------------------------------------------------- the filters before the result

  /** Where the main loop has waited for the pumps, or the result is sent. */
  predicate PastFilters(s: State) {
    s.ctl.pc.Draining? || s.ctl.pc.Reporting? || s.ctl.pc.Done? || PhaseOf(s.writer.jobs).Reported?
  }

  lemma MainWaits(filtered: bool, s: State, a: Answer)
    requires Inv(filtered, s) && Enabled(filtered, s, Main(a)) && filtered && (PastFilters(s) ==> PumpsClosed(s))
    ensures PastFilters(OnMain(filtered, s, a)) ==> PumpsClosed(OnMain(filtered, s, a))
  {
    PhaseAppend(s.writer.jobs, Kill);
    match s.ctl.pc
    case Reading =>
      if a.Frame? && a.message.RawChunk? {
        PhaseAppend(s.writer.jobs, MaskedChunk(a.message.fd, a.message.data));
      }
    case Draining(code) => PhaseAppend(s.writer.jobs, Result(code));
    case Begin => PhaseAppend(s.writer.jobs, Start);
    case _ =>
  }

  lemma StepWaits(filtered: bool, s: State, e: Event)
    requires Inv(filtered, s) && Enabled(filtered, s, e) && filtered && (PastFilters(s) ==> PumpsClosed(s))
    ensures PastFilters(Step(filtered, s, e)) ==> PumpsClosed(Step(filtered, s, e))
  {
    match e
    case Main(a) => MainWaits(filtered, s, a);
    case Emit(fd, data) => PhaseAppend(s.writer.jobs, MaskedChunk(fd, data));
    case _ =>
  }

  lemma {:induction false} RunWaits(ss: seq<State>, es: seq<Event>, n: nat)
    requires IsRun(true, ss, es) && n < |ss|
    ensures PastFilters(ss[n]) ==> PumpsClosed(ss[n])
  {
    if n > 0 {
      RunWaits(ss, es, n - 1);
      RunInv(true, ss, es, n - 1);
      StepWaits(true, ss[n - 1], es[n - 1]);
    }
  }

  /** A pump stops without a failure only when its filter has closed its output. */
  lemma {:induction false} ClosedMeansEnded(filtered: bool, ss: seq<State>, es: seq<Event>, n: nat, fd: Fd)
    requires IsRun(filtered, ss, es) && n < |ss| && fd in ss[n].pumps && ss[n].pumps[fd] == Closed(true)
    ensures exists j | 0 <= j < n :: es[j] == PumpEnd(fd)
  {
    if n > 0 {
      assert Enabled(filtered, ss[n - 1], es[n - 1]) && ss[n] == Step(filtered, ss[n - 1], es[n - 1]);
      if es[n - 1] != PumpEnd(fd) {
        StaysOpen(filtered, ss[n - 1], es[n - 1], fd);
        ClosedMeansEnded(filtered, ss, es, n - 1, fd);
      }
    }
  }

  lemma StaysOpen(filtered: bool, s: State, e: Event, fd: Fd)
    requires Enabled(filtered, s, e) && e != PumpEnd(fd)
    requires fd in Step(filtered, s, e).pumps && Step(filtered, s, e).pumps[fd] == Closed(true)
    ensures fd in s.pumps && s.pumps[fd] == Closed(true)
  {
  }

  /** With filters the result is sent only after both filters have closed their output; what
      they wrote until then was sent before it. */
  lemma ResultWaitsForTheFilters(ss: seq<State>, es: seq<Event>, n: nat, code: int, fd: Fd)
    requires IsRun(true, ss, es) && n < |ss| && Result(code) in ss[n].writer.jobs
    ensures exists j | 0 <= j < n :: es[j] == PumpEnd(fd)
  {
    RunWaits(ss, es, n);
    RunInv(true, ss, es, n);
    PhaseOrder(ss[n].writer.jobs);
    ClosedMeansEnded(true, ss, es, n, fd);
  }

  // ---------------------------------------------------------------- filters that were started

  /** The filter of `fd` is started: both are, or the second one fails to start. */
  predicate StartsFilter(s: State, e: Event, fd: Fd) {
    s.ctl.pc == Spawning && (e == Main(Proceed) || (e == Main(HalfSpawned) && fd == Stdout))
  }

  lemma StepStarts(s: State, e: Event, fd: Fd)
    requires Inv(true, s) && Enabled(true, s, e) && fd in s.pumps
    ensures fd in Step(true, s, e).pumps
    ensures Step(true, s, e).pumps[fd] != NoPump <==> s.pumps[fd] != NoPump || StartsFilter(s, e, fd)
  {
  }

  lemma RunStarts(ss: seq<State>, es: seq<Event>, i: nat, fd: Fd)
    requires IsRun(true, ss, es) && i < |es| && fd in ss[i].pumps
    ensures fd in ss[i + 1].pumps
    ensures ss[i + 1].pumps[fd] != NoPump <==> ss[i].pumps[fd] != NoPump || StartsFilter(ss[i], es[i], fd)
  {
    RunInv(true, ss, es, i);
    StepStarts(ss[i], es[i], fd);
  }

  /** What a filter writes is forwarded from its start on, also if the other one fails to start. */
  lemma {:induction false} PumpedIffStarted(ss: seq<State>, es: seq<Event>, n: nat, fd: Fd)
    requires IsRun(true, ss, es) && n < |ss|
    ensures fd in ss[n].pumps
    ensures ss[n].pumps[fd] != NoPump <==> exists j | 0 <= j < n :: StartsFilter(ss[j], es[j], fd)
  {
    if n > 0 {
      PumpedIffStarted(ss, es, n - 1, fd);
      RunStarts(ss, es, n - 1, fd);
    }
  }

  // ---------------------------------------------------------------- a write that fails

  /** Without filters nothing is unwritten while the next frame is awaited. */
  predicate Awaited(s: State) {
    s.ctl.pc == Reading || s.ctl.pc == Spawning ==> s.writer.written == |s.writer.jobs|
  }

  /** What is waited for is the last message sent. */
  predicate LastIsAwaited(s: State) {
    && (s.ctl.pc.Writing? ==> s.ctl.pc.job + 1 == |s.writer.jobs|)
    && (s.ctl.pc.Starting? ==> |s.writer.jobs| == 1)
    && (s.ctl.pc.Feeding? ==> false)
    && (forall fd | fd in s.pumps :: s.pumps[fd] == NoPump)
  }

  lemma StepAwaits(s: State, e: Event)
    requires Inv(false, s) && Enabled(false, s, e) && Awaited(s) && LastIsAwaited(s)
    ensures Awaited(Step(false, s, e)) && LastIsAwaited(Step(false, s, e))
    ensures s.writer.broken ==> Step(false, s, e).log.accepted == s.log.accepted && Step(false, s, e).writer.broken
  {
  }

  lemma RunStepAwaits(ss: seq<State>, es: seq<Event>, i: nat)
    requires IsRun(false, ss, es) && i < |es| && ss[i].writer.broken
    ensures ss[i + 1].log.accepted == ss[i].log.accepted && ss[i + 1].writer.broken
  {
    RunAwaits(ss, es, i);
    RunInv(false, ss, es, i);
    StepAwaits(ss[i], es[i]);
  }

  lemma {:induction false} RunAwaits(ss: seq<State>, es: seq<Event>, n: nat)
    requires IsRun(false, ss, es) && n < |ss|
    ensures Awaited(ss[n]) && LastIsAwaited(ss[n])
  {
    if n > 0 {
      RunAwaits(ss, es, n - 1);
      RunInv(false, ss, es, n - 1);
      StepAwaits(ss[n - 1], es[n - 1]);
    }
  }

  /** Without filters no frame is accepted once a write has failed. */
  lemma {:induction false} FailedWriteEndsReading(ss: seq<State>, es: seq<Event>, n: nat, m: nat)
    requires IsRun(false, ss, es) && n <= m < |ss| && ss[n].writer.broken
    ensures ss[m].log.accepted == ss[n].log.accepted && ss[m].writer.broken
  {
    if n < m {
      FailedWriteEndsReading(ss, es, n, m - 1);
      RunStepAwaits(ss, es, m - 1);
    }
  }
}
