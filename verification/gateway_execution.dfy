/** `runGatewayExecution` (src/hostexec/gateway_execution.ts) with its message writer
    and its two output pipelines, as a state machine: one event is the code between
    two awaits of the main loop, of the writer's promise chain or of a filter pump. */
module GatewayExecution {

  type Bytes = seq<bv8>
  datatype Fd = Stdout | Stderr
  datatype GatewayState = AwaitingDecision | Running | AwaitingResult | Terminal

  /** Messages of the gateway and of the broker; ids other than "is it this
      request's" do not matter here. */
  datatype In =
    | Execute | Spawned(pid: int) | RawChunk(fd: Fd, data: Bytes) | ProcessExit(code: int) | Cancelled | TransportError
  datatype Out = Fallback | ErrorReply | Start | MaskedChunk(fd: Fd, data: Bytes) | Result(code: int) | Kill

  /** `statesForGatewayType` and `statesForBrokerType`. */
  predicate InLegal(m: In, s: GatewayState) {
    match m
    case Execute => s == AwaitingDecision
    case Spawned(_) => s == Running
    case RawChunk(_, _) => s == Running
    case ProcessExit(_) => s == Running
    case _ => s != Terminal
  }

  predicate OutLegal(m: Out, s: GatewayState) {
    match m
    case Fallback => s == AwaitingDecision
    case ErrorReply => s == AwaitingDecision || s == AwaitingResult
    case Start => s == AwaitingDecision
    case MaskedChunk(_, _) => s == Running || s == AwaitingResult
    case Result(_) => s == AwaitingResult
    case Kill => s == Running
  }

  // ---------------------------------------------------------------- the message writer

  /** The promise chain `pending`: messages are written in the order of their sends,
      and once one fails every later one is rejected unwritten. */
  datatype Writer = Writer(jobs: seq<Out>, written: nat, broken: bool)

  function Send(w: Writer, m: Out): Writer {
    w.(jobs := w.jobs + [m])
  }

  predicate Settled(w: Writer, job: nat) {
    job < w.written || w.broken
  }

  function WriteNext(w: Writer, s: GatewayState, ok: bool): Writer
    requires w.written < |w.jobs|
  {
    if OutLegal(w.jobs[w.written], s) && ok then w.(written := w.written + 1) else w.(broken := true)
  }

  // ---------------------------------------------------------------- state

  datatype Pump = NoPump | Idle | Waiting(job: nat) | Closed(ok: bool)

  /** The await the main loop stands at. */
  datatype Pc =
    | Begin | Starting
    | Reading | Spawning | Writing(job: nat) | Feeding(fd: Fd, data: Bytes)
    | Exiting(code: int) | Finishing(code: int) | Draining(code: int) | Reporting(code: int)
    | Killing(job: nat) | Stopping | Done | Failed

  /** The locals of `runGatewayExecution`. */
  datatype Control = Control(pc: Pc, gw: GatewayState, spawned: bool, startSent: bool, commandMayExist: bool)

  /** History: the gateway messages that passed all checks, the bytes written to each
      filter and the bytes each filter wrote. */
  datatype Log = Log(accepted: seq<In>, fed: map<Fd, Bytes>, emitted: map<Fd, Bytes>)

  datatype State = State(ctl: Control, writer: Writer, pumps: map<Fd, Pump>, log: Log)

  function Init(): State {
    State(Control(Begin, AwaitingDecision, false, false, false), Writer([], 0, false),
          map[Stdout := NoPump, Stderr := NoPump],
          Log([], map[Stdout := [], Stderr := []], map[Stdout := [], Stderr := []]))
  }

  datatype Answer =
    | Proceed | Throws
    | Frame(ours: bool, message: In)
    | HalfSpawned                        // the first filter started, the second did not

  datatype Event =
    | Main(answer: Answer)
    | Write(ok: bool)
    | Emit(fd: Fd, data: Bytes)          // a slice of the filter's output
    | PumpNext(fd: Fd)                   // the pump's send has settled
    | PumpEnd(fd: Fd)                    // the filter closed its output

  // ---------------------------------------------------------------- the main loop

  function Goto(s: State, pc: Pc): State {
    s.(ctl := s.ctl.(pc := pc))
  }

  /** `await writer.send(m)`. */
  function SendAt(s: State, pc: Pc, m: Out): State {
    Goto(s, pc).(writer := Send(s.writer, m))
  }

  function Accept(s: State, m: In): State {
    s.(log := s.log.(accepted := s.log.accepted + [m]))
  }

  /** The `catch` block. */
  function Throw(s: State): State {
    if s.ctl.startSent && s.ctl.commandMayExist && s.ctl.gw == Running
    then SendAt(s, Killing(|s.writer.jobs|), Kill)
    else Goto(s, Stopping)
  }

  predicate Rejected(s: State, ours: bool, m: In) {
    || !InLegal(m, s.ctl.gw) || m.Execute? || !ours || m.Cancelled? || m.TransportError?
    || (m.Spawned? && s.ctl.spawned) || (!m.Spawned? && !s.ctl.spawned)
  }

  function OnMessage(filtered: bool, s: State, ours: bool, m: In): State {
    if Rejected(s, ours, m) then Throw(s)
    else
      match m
      case RawChunk(fd, data) =>
        if filtered then Goto(Accept(s, m), Feeding(fd, data))
        else SendAt(Accept(s, m), Writing(|s.writer.jobs|), MaskedChunk(fd, data))
      case ProcessExit(code) => Accept(s, m).(ctl := s.ctl.(gw := AwaitingResult, pc := Exiting(code)))
      case _ => Accept(s, m).(ctl := s.ctl.(spawned := true, gw := Running, pc := Spawning))
  }

  function OnSpawned(filtered: bool, s: State, a: Answer): State {
    match a
    case Proceed => Goto(s, Reading).(pumps := if filtered then map[Stdout := Idle, Stderr := Idle] else s.pumps)
    case HalfSpawned => Throw(s.(pumps := if filtered then s.pumps[Stdout := Idle] else s.pumps))
    case _ => Throw(s)
  }

  function OnFed(s: State, fd: Fd, data: Bytes, a: Answer): State {
    if a.Proceed? && fd in s.log.fed
    then Goto(s, Reading).(log := s.log.(fed := s.log.fed[fd := s.log.fed[fd] + data]))
    else Throw(s)
  }

  function OnMain(filtered: bool, s: State, a: Answer): State {
    match s.ctl.pc
    case Begin => SendAt(s, Starting, Start)
    case Starting =>
      if 0 < s.writer.written
      then s.(ctl := s.ctl.(pc := Reading, startSent := true, commandMayExist := true, gw := Running))
      else Throw(s)
    case Reading => if a.Frame? then OnMessage(filtered, s, a.ours, a.message) else Throw(s)
    case Spawning => OnSpawned(filtered, s, a)
    case Writing(job) => if job < s.writer.written then Goto(s, Reading) else Throw(s)
    case Feeding(fd, data) => OnFed(s, fd, data, a)
    case Exiting(code) => if a.Proceed? then Goto(s, Finishing(code)) else Throw(s)
    case Finishing(code) => if a.Proceed? then Goto(s, Draining(code)) else Throw(s)
    case Draining(code) => if s.writer.broken then Throw(s) else SendAt(s, Reporting(code), Result(code))
    case Reporting(code) =>
      if s.writer.broken then Throw(s) else s.(ctl := s.ctl.(pc := Done, commandMayExist := false, gw := Terminal))
    case Killing(_) => Goto(s, Stopping)
    case Stopping => Goto(s, Failed)
    case _ => s
  }

  // ---------------------------------------------------------------- steps

  predicate AllWritten(w: Writer) {
    w.written == |w.jobs| || w.broken
  }

  predicate Enabled(filtered: bool, s: State, e: Event) {
    match e
    case Main(a) =>
      (match s.ctl.pc
       case Starting => Settled(s.writer, 0)
       case Writing(job) => Settled(s.writer, job)
       case Killing(job) => Settled(s.writer, job)
       case Finishing(_) =>
         a.Proceed? && filtered ==> s.pumps == map[Stdout := Closed(true), Stderr := Closed(true)]
       case Draining(_) => AllWritten(s.writer)
       case Reporting(_) => AllWritten(s.writer)
       case Done => false
       case Failed => false
       case _ => true)
    case Write(_) => !s.writer.broken && s.writer.written < |s.writer.jobs|
    case Emit(fd, _) => fd in s.pumps && s.pumps[fd] == Idle
    case PumpNext(fd) => fd in s.pumps && s.pumps[fd].Waiting? && Settled(s.writer, s.pumps[fd].job)
    case PumpEnd(fd) => fd in s.pumps && s.pumps[fd] == Idle
  }

  function Step(filtered: bool, s: State, e: Event): State
    requires Enabled(filtered, s, e)
  {
    match e
    case Main(a) => OnMain(filtered, s, a)
    case Write(ok) => s.(writer := WriteNext(s.writer, s.ctl.gw, ok))
    case Emit(fd, data) =>
      s.(pumps := s.pumps[fd := Waiting(|s.writer.jobs|)], writer := Send(s.writer, MaskedChunk(fd, data)),
         log := if fd in s.log.emitted then s.log.(emitted := s.log.emitted[fd := s.log.emitted[fd] + data]) else s.log)
    case PumpNext(fd) =>
      s.(pumps := s.pumps[fd := if s.pumps[fd].job < s.writer.written then Idle else Closed(false)])
    case PumpEnd(fd) => s.(pumps := s.pumps[fd := Closed(true)])
  }

  ghost predicate IsRun(filtered: bool, ss: seq<State>, es: seq<Event>) {
    && |ss| == |es| + 1
    && ss[0] == Init()
    && forall i | 0 <= i < |es| :: Enabled(filtered, ss[i], es[i]) && ss[i + 1] == Step(filtered, ss[i], es[i])
  }
}
