/** `BufferedGatewayLineReader` (src/hostexec/gateway_execution.ts): one pull reader
    shared by the approval monitor and by sequential `read` calls. One event is the code
    between two awaits; `Settle` is the source answering one of its reads. */
module ReadAhead {
  import opened Wrappers
  import opened LineReader

  /** The promise of `startMonitor`: not started, waiting for the source read `slot`,
      between its `then` and its `finally`, or settled. */
  datatype Monitor = Off | Waiting(slot: nat) | Noted | Settled

  /** The one outstanding `read`. */
  datatype Reader = Idle | Pulling(slot: nat) | OnMonitor

  /** `slots` lists the answers of all source reads in the order of the reads;
      `returned` lists what the `read` calls returned. */
  datatype State = State(
    queued: Option<Outcome>, inFlight: Option<nat>, monitor: Monitor, failed: bool,
    reader: Reader, slots: seq<Option<Outcome>>, returned: seq<Outcome>)

  const INIT := State(None, None, Off, false, Idle, [], [])

  datatype Event =
    | Read | StartMonitor | Abort
    | Settle(slot: nat, outcome: Outcome)
    | ReaderResumes | MonitorResumes | MonitorSettles | ReaderWakes

  function PullSlot(s: State): nat {
    if s.inFlight.Some? then s.inFlight.value else |s.slots|
  }

  /** `pull`, up to its await. */
  function Pull(s: State): State {
    if s.inFlight.Some? then s else s.(inFlight := Some(|s.slots|), slots := s.slots + [None])
  }

  function Return(s: State, o: Outcome): State {
    s.(reader := Idle, returned := if o.Fail? then s.returned else s.returned + [o])
  }

  function OnRead(s: State): State {
    if s.queued.Some? then Return(s.(queued := None), s.queued.value)
    else if s.failed then s.(reader := Idle)
    else if s.monitor.Waiting? || s.monitor.Noted? then s.(reader := OnMonitor)
    else Pull(s).(reader := Pulling(PullSlot(s)))
  }

  function OnMonitorLine(s: State, o: Outcome): State {
    var x := s.(inFlight := None, monitor := Noted);
    if o.Fail? then x.(failed := true) else x.(queued := Some(o))
  }

  predicate Answered(s: State, slot: nat) {
    slot < |s.slots| && s.slots[slot].Some?
  }

  predicate Enabled(s: State, e: Event) {
    match e
    case Read => s.reader == Idle
    case StartMonitor => true
    case Abort => true
    case Settle(slot, _) => slot < |s.slots| && s.slots[slot].None?
    case ReaderResumes => s.reader.Pulling? && Answered(s, s.reader.slot)
    case MonitorResumes => s.monitor.Waiting? && Answered(s, s.monitor.slot)
    case MonitorSettles => s.monitor.Noted?
    case ReaderWakes => s.reader.OnMonitor? && s.monitor.Settled?
  }

  function Step(s: State, e: Event): State
    requires Enabled(s, e)
  {
    match e
    case Read => OnRead(s)
    case StartMonitor => if s.monitor.Off? then Pull(s).(monitor := Waiting(PullSlot(s))) else s
    case Abort => s.(failed := true)
    case Settle(slot, o) => s.(slots := s.slots[slot := Some(o)])
    case ReaderResumes => Return(s.(inFlight := None), s.slots[s.reader.slot].value)
    case MonitorResumes => OnMonitorLine(s, s.slots[s.monitor.slot].value)
    case MonitorSettles => s.(monitor := Settled)
    case ReaderWakes => OnRead(s)
  }

  ghost predicate IsPath(s: State, ss: seq<State>, es: seq<Event>) {
    && |ss| == |es| + 1
    && ss[0] == s
    && forall i | 0 <= i < |es| :: Enabled(ss[i], es[i]) && ss[i + 1] == Step(ss[i], es[i])
  }

  ghost predicate IsRun(ss: seq<State>, es: seq<Event>) {
    IsPath(INIT, ss, es)
  }

  /** The monitor is started while a read is pulling from the source. */
  predicate Overlaps(s: State, e: Event) {
    e == StartMonitor && s.monitor.Off? && s.reader.Pulling?
  }

  /** It is, and the source has not failed that pull. */
  predicate Duplicates(s: State, e: Event) {
    Overlaps(s, e) && !(Answered(s, s.reader.slot) && s.slots[s.reader.slot].value.Fail?)
  }

  ghost predicate NeverDuplicates(ss: seq<State>, es: seq<Event>)
    requires |ss| >= |es|
  {
    forall j | 0 <= j < |es| :: !Duplicates(ss[j], es[j])
  }

  // ---------------------------------------------------------------- delivery

  /** The frames among the first answers of the source. */
  function Frames(slots: seq<Option<Outcome>>): seq<Outcome> {
    if slots == [] then []
    else
      var o := slots[|slots| - 1];
      Frames(slots[..|slots| - 1]) + if o.Some? && !o.value.Fail? then [o.value] else []
  }

  lemma FramesAppend(slots: seq<Option<Outcome>>, o: Option<Outcome>)
    ensures Frames(slots + [o]) == if o.Some? && !o.value.Fail? then Frames(slots) + [o.value] else Frames(slots)
  {
    assert (slots + [o])[..|slots|] == slots;
  }

  function Ahead(s: State): seq<Outcome> {
    if s.queued.Some? then [s.queued.value] else []
  }

  /** The source reads whose answer somebody has taken. */
  function Taken(s: State): nat {
    if s.inFlight.Some? && 0 < |s.slots| then |s.slots| - 1 else |s.slots|
  }

  predicate LastFailed(s: State) {
    0 < |s.slots| && Answered(s, |s.slots| - 1) && s.slots[|s.slots| - 1].value.Fail?
  }

  /** Who waits for the one source read that may be in flight. Only a failed one has two
      waiters, of which the second finds `inFlight` cleared. */
  predicate Wired(s: State) {
    && (s.inFlight.Some? ==> s.reader.Pulling? || s.monitor.Waiting?)
    && (s.inFlight.Some? ==> 0 < |s.slots| && s.inFlight.value == |s.slots| - 1)
    && (s.reader.Pulling? ==> s.reader.slot + 1 == |s.slots| && s.queued.None?)
    && (s.monitor.Waiting? ==> s.monitor.slot + 1 == |s.slots| && s.queued.None?)
    && (s.reader.Pulling? && s.inFlight.None? ==> s.monitor.Noted? || s.monitor.Settled?)
    && ((s.reader.Pulling? || s.monitor.Waiting?) && s.inFlight.None? ==> LastFailed(s))
    && (s.reader.Pulling? && !s.monitor.Off? && !s.monitor.Settled? ==> LastFailed(s))
    && (s.monitor.Off? ==> s.queued.None? && !s.reader.OnMonitor?)
    && (s.queued.Some? ==> !s.queued.value.Fail?)
  }

  ghost predicate Inv(s: State) {
    && Wired(s)
    && (forall k | 0 <= k < Taken(s) :: s.slots[k].Some?)
    && s.returned + Ahead(s) == Frames(s.slots[..Taken(s)])
  }

  lemma PullInv(s: State)
    requires Inv(s) && s.inFlight.None?
    ensures Pull(s).slots[..Taken(Pull(s))] == s.slots && s.slots[..Taken(s)] == s.slots
  {
  }

  lemma TakeInv(s: State)
    requires Inv(s) && s.inFlight.Some? && Answered(s, s.inFlight.value)
    ensures var o := s.slots[s.inFlight.value].value;
            Frames(s.slots[..|s.slots|]) == s.returned + Ahead(s) + if o.Fail? then [] else [o]
  {
    var n := |s.slots| - 1;
    assert s.slots[..|s.slots|] == s.slots[..n] + [s.slots[n]];
    FramesAppend(s.slots[..n], s.slots[n]);
  }

  lemma ReadInv(s: State)
    requires Inv(s) && !s.reader.Pulling?
    ensures Inv(OnRead(s))
  {
    if s.queued.None? && !s.failed && !s.monitor.Waiting? && !s.monitor.Noted? { PullInv(s); }
  }

  lemma StartInv(s: State)
    requires Inv(s) && !Duplicates(s, StartMonitor)
    ensures Inv(Step(s, StartMonitor))
  {
    if s.monitor.Off? && s.inFlight.None? { PullInv(s); }
  }

  lemma SettleInv(s: State, slot: nat, o: Outcome)
    requires Inv(s) && Enabled(s, Settle(slot, o))
    ensures Inv(Step(s, Settle(slot, o)))
  {
    assert Step(s, Settle(slot, o)).slots[..Taken(s)] == s.slots[..Taken(s)];
  }

  lemma ReaderResumesInv(s: State)
    requires Inv(s) && Enabled(s, ReaderResumes)
    ensures Inv(Step(s, ReaderResumes))
  {
    if s.inFlight.Some? { TakeInv(s); }
  }

  lemma MonitorResumesInv(s: State)
    requires Inv(s) && Enabled(s, MonitorResumes)
    ensures Inv(Step(s, MonitorResumes))
  {
    if s.inFlight.Some? { TakeInv(s); }
  }

  lemma StepInv(s: State, e: Event)
    requires Inv(s) && Enabled(s, e) && !Duplicates(s, e)
    ensures Inv(Step(s, e))
  {
    match e
    case Read => ReadInv(s);
    case ReaderWakes => ReadInv(s);
    case StartMonitor => StartInv(s);
    case Settle(slot, o) => SettleInv(s, slot, o);
    case ReaderResumes => ReaderResumesInv(s);
    case MonitorResumes => MonitorResumesInv(s);
    case _ =>
  }

  lemma {:induction false} PathInv(s: State, ss: seq<State>, es: seq<Event>, i: nat)
    requires Inv(s) && IsPath(s, ss, es) && i < |ss| && NeverDuplicates(ss, es)
    ensures Inv(ss[i])
  {
    if i > 0 {
      PathInv(s, ss, es, i - 1);
      StepInv(ss[i - 1], es[i - 1]);
    }
  }

  /** Over every interleaving in which the monitor does not start in the middle of a
      read, unless the source has failed that read: the reads return exactly the frames of
      the source, in order, none lost and none twice; at most one frame is held back, at most
      one source read is open, and no frame that was answered is anywhere else. */
  lemma ReadsAreTheSourceFrames(ss: seq<State>, es: seq<Event>, i: nat)
    requires IsRun(ss, es) && i < |ss| && NeverDuplicates(ss, es)
    ensures var s := ss[i];
            && s.returned <= Frames(s.slots[..Taken(s)])
            && |Frames(s.slots[..Taken(s)])| <= |s.returned| + 1
            && |s.slots| <= Taken(s) + 1
            && (forall k | 0 <= k < Taken(s) :: s.slots[k].Some?)
            && (s.monitor.Off? ==> s.returned == Frames(s.slots[..Taken(s)]))
  {
    PathInv(INIT, ss, es, i);
  }

  /** A frame the monitor saw is what the next read returns, even after an abort. */
  lemma MonitoredFrameIsReadNext(ss: seq<State>, es: seq<Event>, i: nat)
    requires IsRun(ss, es) && i < |ss| && NeverDuplicates(ss, es)
    requires ss[i].queued.Some? && ss[i].reader.Idle?
    ensures Step(ss[i], Read).returned == Frames(ss[i].slots[..Taken(ss[i])])
    ensures Step(ss[i], Read).queued.None? && Step(ss[i], Read).inFlight == ss[i].inFlight
  {
    PathInv(INIT, ss, es, i);
  }

  /** A read that waits can always go on: the source, the monitor's own steps or the
      settled monitor let it. */
  lemma WaitingReadIsOwed(ss: seq<State>, es: seq<Event>, i: nat)
    requires IsRun(ss, es) && i < |ss| && NeverDuplicates(ss, es)
    requires !ss[i].reader.Idle?
    ensures var s := ss[i];
            || (s.inFlight.Some? && s.inFlight.value < |s.slots| && s.slots[s.inFlight.value].None?)
            || Enabled(s, ReaderResumes) || Enabled(s, MonitorResumes)
            || Enabled(s, MonitorSettles) || Enabled(s, ReaderWakes)
  {
    PathInv(INIT, ss, es, i);
  }

  // ---------------------------------------------------------------- after a failure

  /** The reader is aborted, or the monitor learns that the source failed. */
  predicate Fails(s: State, e: Event)
    requires Enabled(s, e)
  {
    e == Abort || (e == MonitorResumes && s.slots[s.monitor.slot].value.Fail?)
  }

  /** A failure is recorded if and only if one of these has happened, and for good. */
  lemma {:induction false} FailedIffSomethingFailed(ss: seq<State>, es: seq<Event>, i: nat)
    requires IsRun(ss, es) && i < |ss|
    ensures ss[i].failed <==> exists j :: 0 <= j < i && Enabled(ss[j], es[j]) && Fails(ss[j], es[j])
  {
    if i > 0 {
      FailedIffSomethingFailed(ss, es, i - 1);
      assert Enabled(ss[i - 1], es[i - 1]) && ss[i] == Step(ss[i - 1], es[i - 1]);
    }
  }

  /** After a failure a read without a queued frame is refused: nothing is returned and no
      source read is opened. The same holds of a read that waited for the monitor. */
  lemma FailureRefusesReads(ss: seq<State>, es: seq<Event>, j: nat, i: nat, e: Event)
    requires IsRun(ss, es) && j < i < |ss| && Enabled(ss[j], es[j]) && Fails(ss[j], es[j])
    requires (e == Read || e == ReaderWakes) && Enabled(ss[i], e) && ss[i].queued.None?
    ensures Step(ss[i], e) == ss[i].(reader := Idle)
  {
    FailedIffSomethingFailed(ss, es, i);
  }

  /** The frames that may still come: the queued one, that of a read on its way and that of the monitor. */
  function Left(s: State): nat {
    (if s.queued.Some? then 1 else 0) + (if s.reader.Pulling? then 1 else 0)
    + (if s.monitor.Off? || s.monitor.Waiting? then 1 else 0)
  }

  /** So after a failure at most these frames are still returned. */
  lemma {:induction false} FewFramesAfterFailure(ss: seq<State>, es: seq<Event>, i: nat, k: nat)
    requires IsRun(ss, es) && i <= k < |ss| && ss[i].failed
    ensures ss[k].failed && |ss[k].returned| + Left(ss[k]) <= |ss[i].returned| + Left(ss[i])
    decreases k - i
  {
    if i < k {
      assert Enabled(ss[i], es[i]) && ss[i + 1] == Step(ss[i], es[i]);
      FewFramesAfterFailure(ss, es, i + 1, k);
    }
  }

  // ---------------------------------------------------------------- a late start of the monitor

  /** The reads returned frames of the source in order, none twice. */
  predicate Faithful(s: State) {
    s.returned <= Frames(s.slots[..Taken(s)])
  }

  /** The state once the source has answered the pull that both wait for. */
  function Shared(s: State, frame: Outcome): State
    requires Overlaps(s, StartMonitor) && s.reader.slot < |s.slots|
  {
    var x := Step(s, StartMonitor);
    if Answered(s, s.reader.slot) then x else Step(x, Settle(s.reader.slot, frame))
  }

  lemma SharedFrames(s: State, frame: Outcome)
    requires Inv(s) && Duplicates(s, StartMonitor) && !frame.Fail?
    requires Answered(s, s.reader.slot) ==> s.slots[s.reader.slot].value == frame
    ensures Frames(Shared(s, frame).slots) == s.returned + [frame]
    ensures Shared(s, frame).slots == s.slots[s.reader.slot := Some(frame)]
  {
    var n := |s.slots| - 1;
    var answered := s.slots[n := Some(frame)];
    assert Shared(s, frame).slots == answered;
    assert answered[..n] == s.slots[..n] && answered == answered[..n] + [Some(frame)];
    FramesAppend(answered[..n], Some(frame));
  }

  /** If the monitor starts in the middle of a read that the source has not failed, both
      take the same answer: whatever frame the source answers, or has answered, comes back
      twice. */
  lemma OverlapReturnsTwice(s: State, frame: Outcome)
    requires Inv(s) && Duplicates(s, StartMonitor) && !frame.Fail?
    requires Answered(s, s.reader.slot) ==> s.slots[s.reader.slot].value == frame
    ensures !Answered(s, s.reader.slot) ==> Enabled(Step(s, StartMonitor), Settle(s.reader.slot, frame))
    ensures var s2 := Shared(s, frame);
            && Enabled(s2, ReaderResumes)
            && var s3 := Step(s2, ReaderResumes);
               && Enabled(s3, MonitorResumes)
               && var s4 := Step(s3, MonitorResumes);
                  && Enabled(s4, Read)
                  && Step(s4, Read).returned == s.returned + [frame, frame]
                  && Frames(s4.slots) == s.returned + [frame]
                  && !Faithful(Step(s4, Read))
  {
    SharedFrames(s, frame);
    var s5 := Step(Step(Step(Shared(s, frame), ReaderResumes), MonitorResumes), Read);
    assert s5.returned == s.returned + [frame] + [frame];
    assert s5.slots[..|s5.slots|] == s5.slots;
  }

  /** A path from the start of the monitor to such a second return. */
  lemma DoublingPath(s: State)
    returns (ss: seq<State>, es: seq<Event>)
    requires Inv(s) && Duplicates(s, StartMonitor)
    ensures IsPath(Step(s, StartMonitor), ss, es) && !Faithful(ss[|es|])
  {
    var slot := s.reader.slot;
    var frame := if Answered(s, slot) then s.slots[slot].value else Null;
    OverlapReturnsTwice(s, frame);
    var s1, s2 := Step(s, StartMonitor), Shared(s, frame);
    var s3 := Step(s2, ReaderResumes);
    var s4 := Step(s3, MonitorResumes);
    var s5 := Step(s4, Read);
    if Answered(s, slot) {
      ss, es := [s1, s3, s4, s5], [ReaderResumes, MonitorResumes, Read];
    } else {
      ss, es := [s1, s2, s3, s4, s5], [Settle(slot, frame), ReaderResumes, MonitorResumes, Read];
    }
  }

  /** The monitor starts once. */
  lemma {:induction false} StaysStarted(s: State, ss: seq<State>, es: seq<Event>, i: nat)
    requires !s.monitor.Off? && IsPath(s, ss, es) && i < |ss|
    ensures !ss[i].monitor.Off?
  {
    if i > 0 { StaysStarted(s, ss, es, i - 1); }
  }

  lemma StartedPathIsFaithful(s: State, ss: seq<State>, es: seq<Event>, i: nat)
    requires Inv(s) && !s.monitor.Off? && IsPath(s, ss, es) && i < |ss|
    ensures Faithful(ss[i])
  {
    forall j | 0 <= j < |es| ensures !Duplicates(ss[j], es[j]) { StaysStarted(s, ss, es, j); }
    PathInv(s, ss, es, i);
  }

  /** Starting the monitor is harmless, whatever happens afterwards, if and only if it is not
      in the middle of a read that the source has not failed. */
  lemma StartIsHarmlessIff(s: State)
    requires Inv(s)
    ensures (forall ss, es, i | IsPath(Step(s, StartMonitor), ss, es) && 0 <= i < |ss| :: Faithful(ss[i]))
            <==> !Duplicates(s, StartMonitor)
  {
    if Duplicates(s, StartMonitor) {
      var ss, es := DoublingPath(s);
      assert IsPath(Step(s, StartMonitor), ss, es) && !Faithful(ss[|es|]);
    } else {
      StepInv(s, StartMonitor);
      forall ss, es, i | IsPath(Step(s, StartMonitor), ss, es) && 0 <= i < |ss| ensures Faithful(ss[i]) {
        StartedPathIsFaithful(Step(s, StartMonitor), ss, es, i);
      }
    }
  }

  // ---------------------------------------------------------------- the same over runs

  /** The run `ts`, `fs` agrees with `ss`, `es` up to and including the event `j`. */
  ghost predicate Branches(ss: seq<State>, es: seq<Event>, j: nat, ts: seq<State>, fs: seq<Event>)
    requires j < |es| && |es| < |ss|
  {
    IsRun(ts, fs) && j < |fs| && ts[..j + 2] == ss[..j + 2] && fs[..j + 1] == es[..j + 1]
  }

  lemma {:induction false} OffUntil(s: State, ss: seq<State>, es: seq<Event>, i: nat, j: nat)
    requires IsPath(s, ss, es) && i <= j < |ss| && ss[j].monitor.Off?
    ensures ss[i].monitor.Off?
    ensures i < j ==> es[i] != StartMonitor
    decreases j - i
  {
    if i < j { OffUntil(s, ss, es, i + 1, j); }
  }

  /** Before the monitor starts every read is faithful. */
  lemma InvUntilStart(ss: seq<State>, es: seq<Event>, j: nat)
    requires IsRun(ss, es) && j < |ss| && ss[j].monitor.Off?
    ensures Inv(ss[j])
  {
    var ps, pe := ss[..j + 1], es[..j];
    forall i | 0 <= i < |pe| ensures !Duplicates(ps[i], pe[i]) { OffUntil(INIT, ss, es, i, j); }
    PathInv(INIT, ps, pe, j);
  }

  lemma AfterIsPath(ts: seq<State>, fs: seq<Event>, k: nat)
    requires IsRun(ts, fs) && k < |ts|
    ensures IsPath(ts[k], ts[k..], fs[k..])
  {
    var us, gs := ts[k..], fs[k..];
    forall i | 0 <= i < |gs| ensures Enabled(us[i], gs[i]) && us[i + 1] == Step(us[i], gs[i]) {
      assert us[i] == ts[k + i] && us[i + 1] == ts[k + i + 1] && gs[i] == fs[k + i];
    }
  }

  lemma Joined(ss: seq<State>, es: seq<Event>, k: nat, us: seq<State>, gs: seq<Event>)
    requires IsRun(ss, es) && k < |ss| && IsPath(ss[k], us, gs)
    ensures IsRun(ss[..k] + us, es[..k] + gs)
  {
    var ts, fs := ss[..k] + us, es[..k] + gs;
    forall i | 0 <= i < |fs| ensures Enabled(ts[i], fs[i]) && ts[i + 1] == Step(ts[i], fs[i]) {
      if i < k {
        assert ts[i] == ss[i] && ts[i + 1] == ss[i + 1] && fs[i] == es[i];
      } else {
        assert ts[i] == us[i - k] && ts[i + 1] == us[i - k + 1] && fs[i] == gs[i - k];
      }
    }
  }

  lemma DoublingRun(ss: seq<State>, es: seq<Event>, j: nat)
    returns (ts: seq<State>, fs: seq<Event>)
    requires IsRun(ss, es) && j < |es| && Duplicates(ss[j], es[j])
    ensures Branches(ss, es, j, ts, fs) && !Faithful(ts[|fs|])
  {
    InvUntilStart(ss, es, j);
    var us, gs := DoublingPath(ss[j]);
    Joined(ss, es, j + 1, us, gs);
    ts, fs := ss[..j + 1] + us, es[..j + 1] + gs;
    assert ts[..j + 2] == ss[..j + 2];
    assert fs[..j + 1] == es[..j + 1];
    assert ts[|fs|] == us[|gs|];
  }

  lemma HarmlessRun(ss: seq<State>, es: seq<Event>, j: nat, ts: seq<State>, fs: seq<Event>, i: nat)
    requires IsRun(ss, es) && j < |es| && es[j] == StartMonitor && ss[j].monitor.Off? && !Duplicates(ss[j], es[j])
    requires Branches(ss, es, j, ts, fs) && i < |ts|
    ensures Faithful(ts[i])
  {
    assert ts[j] == ts[..j + 2][j] == ss[j] && fs[j] == fs[..j + 1][j] == es[j];
    if i <= j {
      OffUntil(INIT, ts, fs, i, j);
      InvUntilStart(ts, fs, i);
    } else {
      InvUntilStart(ts, fs, j);
      StepInv(ts[j], fs[j]);
      AfterIsPath(ts, fs, j + 1);
      StartedPathIsFaithful(ts[j + 1], ts[j + 1..], fs[j + 1..], i - (j + 1));
    }
  }

  /** Over runs: once the monitor has started, all ways to go on are faithful if and only
      if that start was not in the middle of a read that the source had not failed. */
  lemma RunsAreFaithfulIff(ss: seq<State>, es: seq<Event>, j: nat)
    requires IsRun(ss, es) && j < |es| && es[j] == StartMonitor && ss[j].monitor.Off?
    ensures (forall ts, fs, i | Branches(ss, es, j, ts, fs) && 0 <= i < |ts| :: Faithful(ts[i]))
            <==> !Duplicates(ss[j], es[j])
  {
    if Duplicates(ss[j], es[j]) {
      var ts, fs := DoublingRun(ss, es, j);
      assert Branches(ss, es, j, ts, fs) && !Faithful(ts[|fs|]);
    } else {
      forall ts, fs, i | Branches(ss, es, j, ts, fs) && 0 <= i < |ts| ensures Faithful(ts[i]) {
        HarmlessRun(ss, es, j, ts, fs, i);
      }
    }
  }

  // ---------------------------------------------------------------- the object

  class BufferedGatewayLineReader {
    var queued: bool
    var queuedLine: Outcome
    var inFlight: Option<nat>
    var monitorSlot: Option<nat>   // monitorPromise, until its `then` has run
    var monitorStarted: bool
    var monitorSettled: bool
    var failure: bool
    ghost var reader: Reader
    ghost var slots: seq<Option<Outcome>>
    ghost var returned: seq<Outcome>
    var pulls: nat                 // source reads so far

    ghost predicate Valid()
      reads this
    {
      && pulls == |slots| && (monitorSlot.Some? ==> monitorStarted && !monitorSettled)
      && (monitorSettled ==> monitorStarted)
    }

    ghost function Value(): State
      reads this
    {
      State(if queued then Some(queuedLine) else None, inFlight,
            if !monitorStarted then Off else if monitorSlot.Some? then Waiting(monitorSlot.value)
            else if monitorSettled then Settled else Noted,
            failure, reader, slots, returned)
    }

    constructor ()
      ensures Valid() && Value() == INIT
    {
      queued, queuedLine, inFlight, monitorSlot := false, Null, None, None;
      monitorStarted, monitorSettled, failure, pulls := false, false, false, 0;
      reader, slots, returned := Idle, [], [];
    }

    method PullFromSource()
      returns (slot: nat)
      requires Valid()
      modifies this`inFlight, this`pulls, this`slots
      ensures Valid() && slot == PullSlot(old(Value())) && Value() == Pull(old(Value()))
    {
      if inFlight.None? {
        inFlight := Some(pulls);
        pulls := pulls + 1;
        slots := slots + [None];
      }
      slot := inFlight.value;
    }

    /** `read`, up to its first await; `line` is set if it returns at once. */
    method Read()
      returns (line: Option<Outcome>, wait: Option<nat>)
      requires Valid() && !reader.Pulling?
      modifies this
      ensures Valid() && Value() == OnRead(old(Value()))
      ensures line == old(Value()).queued
      ensures wait == if Value().reader.Pulling? then Some(Value().reader.slot) else None
    {
      line, wait := None, None;
      if queued {
        queued := false;
        line := Some(queuedLine);
        returned := Return(old(Value()), queuedLine).returned;
        queuedLine := Null;
        reader := Idle;
        return;
      }
      if failure {
        reader := Idle;
        return;
      }
      if monitorStarted && !monitorSettled {
        reader := OnMonitor;
        return;
      }
      var slot := PullFromSource();
      wait := Some(slot);
      reader := Pulling(slot);
    }

    method StartMonitor()
      requires Valid()
      modifies this
      ensures Valid() && Value() == Step(old(Value()), Event.StartMonitor)
    {
      if monitorStarted { return; }
      var slot := PullFromSource();
      monitorStarted := true;
      monitorSlot := Some(slot);
    }

    /** The `then` or `catch` of the monitor's promise. */
    method MonitorAnswered(o: Outcome)
      requires Valid() && monitorSlot.Some?
      modifies this
      ensures Valid() && Value() == OnMonitorLine(old(Value()), o)
    {
      inFlight := None;
      monitorSlot := None;
      if o.Fail? {
        failure := true;
      } else {
        queued := true;
        queuedLine := o;
      }
    }
  }
}
