/** Four runs of the broker as it is written that break what one expects of it. */
module BrokerTraces {
  import opened Wrappers
  import opened Broker
  import opened BrokerTables
  import opened BrokerWaiters
  import opened BrokerLoss
  import opened BrokerLost
  import opened BrokerSettle
  import opened BrokerIndex

  predicate Fails(e: Event) {
    (e.Work? || e.Resume?) && e.answer.Throws?
  }

  function Failures(es: seq<Event>): nat {
    if es == [] then 0 else Failures(es[..|es| - 1]) + if Fails(es[|es| - 1]) then 1 else 0
  }

  /** Some run with `n` failing operations ends in `s`. */
  ghost predicate Reached(cfg: Config, n: nat, s: State) {
    exists ss, es {:trigger IsRun(cfg, ss, es)} :: IsRun(cfg, ss, es) && Failures(es) == n && ss[|es|] == s
  }

  lemma Start(cfg: Config)
    ensures Reached(cfg, 0, INIT)
  {
    assert IsRun(cfg, [INIT], []) && Failures([]) == 0;
  }

  lemma Go(cfg: Config, n: nat, s: State, e: Event)
    requires Reached(cfg, n, s) && Enabled(s, e)
    ensures Reached(cfg, if Fails(e) then n + 1 else n, Step(cfg, s, e))
  {
    var ss, es :| IsRun(cfg, ss, es) && Failures(es) == n && ss[|es|] == s;
    var ss', es' := ss + [Step(cfg, s, e)], es + [e];
    assert es'[..|es|] == es;
    assert IsRun(cfg, ss', es') && ss'[|es'|] == Step(cfg, s, e);
  }

  // ---------------------------------------------------------------- admitting a request

  /** The state with a connection that arrived last. */
  function Newest(s: State, id: Id, c: Conn): State {
    SetConn(s, s.nextTok, c).(active := s.active + {id}, nextTok := s.nextTok + 1)
  }

  function Asking(id: Id, key: Key): Conn {
    Conn(id, Ops([Pend]), Awaiting, None, key, RulePrompts, true, None, false)
  }

  /** A new connection has come as far as its approval group. */
  function Asked(s: State, id: Id, key: Key): State {
    Newest(s, id, Asking(id, key))
  }

  function Admitted(s: State, id: Id, key: Key): State {
    OnPend(Asked(s, id, key), s.nextTok, Asking(id, key))
  }

  /** One resumption that only moves the newest connection on. */
  lemma Move(cfg: Config, n: nat, s: State, id: Id, c: Conn, a: Answer, d: Conn)
    requires Reached(cfg, n, Newest(s, id, c)) && c.pc != Finished && c.pc.Ops? && !AtPend(c) && d.pc != Finished
        && !a.Throws?
    requires LocalStep(cfg, c.key in s.approvedKeys, s.nextTok, c, s.log, a) == (d, s.log)
    ensures Reached(cfg, n, Newest(s, id, d))
  {
    var x, t := Newest(s, id, c), s.nextTok;
    assert Step(cfg, x, Resume(t, a)) == Newest(s, id, d) by {
      assert s.conns[t := c][t := d] == s.conns[t := d];
    }
    Go(cfg, n, x, Resume(t, a));
  }

  lemma Resolve(cfg: Config, n: nat, s: State, id: Id, key: Key)
    requires Reached(cfg, n, s) && id !in s.active
    ensures Reached(cfg, n,
        Newest(s, id, Conn(id, Ops([Check, Verdict]), Preflight, None, key, RulePrompts, false, None, false)))
  {
    var t, c := s.nextTok, Conn(id, Resolving, Preflight, None, 0, RulePrompts, false, None, false);
    var d := c.(pc := Ops([Check, Verdict]), key := key);
    Go(cfg, n, s, Arrive(id));
    assert Newest(s, id, c) == OnArrive(s, id);
    assert Step(cfg, Newest(s, id, c), Resume(t, RuleFound(RulePrompts, key))) == Newest(s, id, d) by {
      assert s.conns[t := c][t := d] == s.conns[t := d];
    }
    Go(cfg, n, Newest(s, id, c), Resume(t, RuleFound(RulePrompts, key)));
  }

  lemma Ask(cfg: Config, n: nat, s: State, id: Id, key: Key)
    requires Reached(cfg, n, s) && id !in s.active && cfg.promptEnable && key !in s.approvedKeys
    ensures Reached(cfg, n, Asked(s, id, key))
  {
    var c := Conn(id, Ops([Check, Verdict]), Preflight, None, key, RulePrompts, false, None, false);
    Resolve(cfg, n, s, id, key);
    assert [Check, Verdict][1..] == [Verdict] && [Check, Pend][1..] == [Pend];
    Move(cfg, n, s, id, c, Ok, c.(pc := Ops([Verdict])));
    var d := c.(pc := Ops([Check, Pend]), pass := true, life := Awaiting);
    Move(cfg, n, s, id, c.(pc := Ops([Verdict])), Integrity(true), d);
    Move(cfg, n, s, id, d, Ok, Asking(id, key));
  }

  lemma Admit(cfg: Config, n: nat, s: State, id: Id, key: Key)
    requires Reached(cfg, n, s) && id !in s.active && cfg.promptEnable && key !in s.approvedKeys
    ensures Reached(cfg, n, Admitted(s, id, key))
  {
    Ask(cfg, n, s, id, key);
    var s1 := Asked(s, id, key);
    assert s1.conns[s.nextTok] == Asking(id, key);
    Go(cfg, n, s1, Resume(s.nextTok, Ok));
  }

  // ---------------------------------------------------------------- the lost waiter

  const UNGUARDED := Config(true, Once, false)

  const TWO_WAITING: State := Admitted(Admitted(INIT, 1, 7), 2, 7)

  const ONE_APPROVED: State := OnApprove(UNGUARDED, TWO_WAITING, 1, None)

  const TWO_APPROVED: State := OnApprove(UNGUARDED, ONE_APPROVED, 2, None)

  /** The first approval resumes and drops the group that ran empty. */
  const GROUP_DROPPED: State :=
    if 0 in TWO_APPROVED.calls then OnWork(UNGUARDED, TWO_APPROVED, 0, TWO_APPROVED.calls[0], Ok) else TWO_APPROVED

  /** A third request of the same key registers a group of its own. */
  const THIRD_WAITING: State := Admitted(GROUP_DROPPED, 3, 7)

  const STRANGER_DROPPED: State :=
    if 1 in THIRD_WAITING.calls then OnWork(UNGUARDED, THIRD_WAITING, 1, THIRD_WAITING.calls[1], Ok) else THIRD_WAITING

  predicate Untouched(s: State) {
    s.active == {1, 2} && s.approvedKeys == {} && s.nextTok == 2 && s.tables.nextGid == 1
  }

  lemma TwoWaitingFacts()
    ensures var s := TWO_WAITING;
            && Untouched(s) && s.tables.groups == map[7 := 0] && s.calls == map[] && s.nextTid == 0
            && 0 in s.tables.heap && s.tables.heap[0].key == 7
            && s.tables.heap[0].waiters == map[1 := 0, 2 := 1] && s.tables.heap[0].requests == map[1 := 0, 2 := 1]
            && s.tables.keyOf == map[1 := 7, 2 := 7]
  {
  }

  /** The call of an approval for one request, up to its await of the registry. */
  predicate Approves(s: State, k: Tid, t: Tok) {
    k in s.calls && s.calls[k].at == Entry && s.calls[k].group == Some(0) && !s.calls[k].whole
        && s.calls[k].held == Some(t)
  }

  lemma OneApprovedFacts()
    ensures var s := ONE_APPROVED;
            && Untouched(s) && s.tables.groups == map[7 := 0] && s.calls.Keys == {0} && s.nextTid == 1
                && Approves(s, 0, 0)
            && 0 in s.tables.heap && s.tables.heap[0].key == 7
            && s.tables.heap[0].waiters == map[2 := 1] && s.tables.heap[0].requests == map[2 := 1]
            && s.tables.keyOf == map[2 := 7]
  {
    TwoWaitingFacts();
  }

  lemma TwoApprovedFacts()
    ensures var s := TWO_APPROVED;
            && Untouched(s) && s.tables.groups == map[7 := 0] && s.calls.Keys == {0, 1}
            && Approves(s, 0, 0) && Approves(s, 1, 1)
            && 0 in s.tables.heap && s.tables.heap[0].key == 7 && s.tables.heap[0].requests == map[]
  {
    OneApprovedFacts();
  }

  predicate HoldTwo(s: State) {
    && s.calls.Keys == {0, 1} && Approves(s, 1, 1) && !s.calls[0].whole && s.calls[0].held == Some(0)
    && 0 in s.tables.heap && s.tables.heap[0].key == 7 && s.tables.heap[0].requests == map[]
  }

  function Dropped(s: State, k: Tid): State
    requires 0 in s.tables.heap && k in s.calls
  {
    SetCall(s.(tables := Detach(s.tables, 0, 7)), k, s.calls[k].(at := EntryClose))
  }

  lemma DropsTheKey(s: State, k: Tid, t: Tok)
    requires Approves(s, k, t) && 0 in s.tables.heap && s.tables.heap[0].key == 7 && s.tables.heap[0].requests == map[]
    ensures OnWork(UNGUARDED, s, k, s.calls[k], Ok) == Dropped(s, k)
  {
  }

  lemma GroupDroppedFacts()
    ensures Untouched(GROUP_DROPPED) && HoldTwo(GROUP_DROPPED) && GROUP_DROPPED.tables.groups == map[]
  {
    TwoApprovedFacts();
    DropsTheKey(TWO_APPROVED, 0, 0);
  }

  lemma ThirdWaitingFacts()
    ensures var s := THIRD_WAITING;
            && HoldTwo(s) && s.tables.groups == map[7 := 1]
            && 2 in s.conns && s.conns[2].group == Some(1) && !s.conns[2].settled
  {
    GroupDroppedFacts();
  }

  /** No group is registered, and the two calls hold the first two waiters. */
  predicate Forsaken(s: State) {
    && s.tables.groups == map[] && s.calls.Keys == {0, 1} && !s.calls[0].whole && !s.calls[1].whole
    && s.calls[0].held == Some(0) && s.calls[1].held == Some(1)
    && 2 in s.conns && s.conns[2].group == Some(1) && !s.conns[2].settled
  }

  lemma ForsakenLoses(s: State)
    requires Forsaken(s)
    ensures Open(s, 2) && !Safe(s, 2)
  {
  }

  lemma StrangerDroppedFacts()
    ensures Forsaken(STRANGER_DROPPED)
  {
    ThirdWaitingFacts();
    DropsTheKey(THIRD_WAITING, 1, 1);
  }

  lemma TwoApprovedReached()
    ensures Reached(UNGUARDED, 0, TWO_APPROVED)
  {
    Start(UNGUARDED);
    Admit(UNGUARDED, 0, INIT, 1, 7);
    Admit(UNGUARDED, 0, Admitted(INIT, 1, 7), 2, 7);
    Go(UNGUARDED, 0, TWO_WAITING, Approve(1, None));
    Go(UNGUARDED, 0, ONE_APPROVED, Approve(2, None));
  }

  lemma StrangerDroppedReached()
    ensures Reached(UNGUARDED, 0, STRANGER_DROPPED)
  {
    TwoApprovedReached();
    TwoApprovedFacts();
    Go(UNGUARDED, 0, TWO_APPROVED, Work(0, Ok));
    GroupDroppedFacts();
    Admit(UNGUARDED, 0, GROUP_DROPPED, 3, 7);
    ThirdWaitingFacts();
    Go(UNGUARDED, 0, THIRD_WAITING, Work(1, Ok));
  }

  lemma ReachedOk(cfg: Config, n: nat, s: State)
    requires Reached(cfg, n, s)
    ensures Inv(s) && TimersOk(s.tables, cfg.guarded)
  {
    var ss, es :| IsRun(cfg, ss, es) && Failures(es) == n && ss[|es|] == s;
    RunTimers(cfg, ss, es, |es|);
  }

  /** Two requests of one group are approved once each; a third with the same key
      arrives between the two resumptions. The second resumption deletes the group of
      the third: its waiter is open and unowned, and stays so in every continuation, so no
      decision, timer or call will ever settle it. */
  lemma UnguardedLosesAWaiter()
    ensures exists s :: Reached(UNGUARDED, 0, s) && Open(s, 2) && !Safe(s, 2) && !CanSettle(UNGUARDED, s, 2)
  {
    StrangerDroppedReached();
    StrangerDroppedFacts();
    ForsakenLoses(STRANGER_DROPPED);
    LosesForGood(UNGUARDED, 0, STRANGER_DROPPED, 2);
  }

  lemma LosesForGood(cfg: Config, n: nat, s: State, t: Tok)
    requires Reached(cfg, n, s) && Open(s, t) && !Safe(s, t)
    ensures exists z :: Reached(cfg, n, z) && Open(z, t) && !Safe(z, t) && !CanSettle(cfg, z, t)
  {
    ReachedOk(cfg, n, s);
    LostIsForGood(cfg, s, t);
  }

  // ---------------------------------------------------------------- the failing registry

  function Approved(cfg: Config): State {
    OnApprove(cfg, Admitted(INIT, 1, 7), 1, Some(Once))
  }

  lemma ApprovedFacts(cfg: Config)
    ensures var s := Approved(cfg);
            && s.calls.Keys == {0} && Approves(s, 0, 0) && 0 in s.tables.heap && s.tables.heap[0].waiters == map[]
            && 0 in s.conns && s.conns[0].group == Some(0) && !s.conns[0].settled && s.conns[0].id == 1
  {
  }

  lemma ApprovedReached(cfg: Config)
    requires cfg.promptEnable
    ensures Reached(cfg, 0, Approved(cfg))
  {
    Start(cfg);
    Admit(cfg, 0, INIT, 1, 7);
    Go(cfg, 0, Admitted(INIT, 1, 7), Approve(1, Some(Once)));
  }

  /** A request is approved once, and the registry fails to remove its entry: the call ends
      with the waiter in its hands, and nobody ever settles it, guard or no guard. */
  lemma FailingRegistryLosesAWaiter(cfg: Config)
    requires cfg.promptEnable
    ensures exists s :: Reached(cfg, 1, s) && Open(s, 0) && !Safe(s, 0) && !CanSettle(cfg, s, 0)
  {
    ApprovedReached(cfg);
    ApprovedFacts(cfg);
    var s, e := Approved(cfg), Work(0, Throws);
    assert Enabled(s, e);
    var z := Step(cfg, s, e);
    Go(cfg, 0, s, e);
    assert z == EndCall(s, 0);
    assert Open(z, 0) && !Safe(z, 0);
    LosesForGood(cfg, 1, z, 0);
  }

  // ---------------------------------------------------------------- the request another one hides

  /** The registry fails to write the entry of the first request, which ends. */
  function WriteFailed(): State {
    SetConn(Admitted(INIT, 1, 7), 0, Asking(1, 7).(pc := Finished, group := Some(0))).(active := {})
  }

  lemma WriteFails(cfg: Config)
    requires cfg.promptEnable
    ensures Reached(cfg, 1, WriteFailed())
  {
    var s := Admitted(INIT, 1, 7);
    Start(cfg);
    Admit(cfg, 0, INIT, 1, 7);
    Go(cfg, 0, s, Resume(0, Throws));
    assert Step(cfg, s, Resume(0, Throws)) == WriteFailed();
  }

  lemma WriteFailedFacts()
    ensures var s := WriteFailed();
            && s.active == {} && s.approvedKeys == {} && s.nextTok == 1 && s.tables.nextGid == 1
            && s.tables.groups == map[7 := 0] && s.tables.heap.Keys == {0}
            && s.tables.heap[0].key == 7 && s.tables.heap[0].waiters == map[1 := 0]
  {
  }

  /** The same id under another key, as far as its approval group. */
  function AskedAgain(): State {
    Asked(WriteFailed(), 1, 9)
  }

  lemma AskedAgainFacts()
    ensures var s := AskedAgain();
            && 1 in s.conns && s.conns[1] == Asking(1, 9) && s.tables == WriteFailed().tables
            && Enabled(s, Resume(1, Ok)) && Unmaps(s, Resume(1, Ok))
  {
    WriteFailedFacts();
    assert Lists(AskedAgain().tables, 0, 1);
  }

  lemma HiddenFacts(x: Tables)
    requires x.groups == map[7 := 0] && x.heap.Keys == {0} && x.heap[0].key == 7 && x.heap[0].waiters == map[1 := 0]
    requires x.nextGid == 1
    ensures var y := Create(x, 9, 1, 1); Lists(y, 0, 1) && Lists(y, 1, 1) && FindGroup(y, 1) == Some(1)
  {
  }

  /** The registry fails to write the entry of a request, whose group goes on listing it; the
      peer uses the id again under another key. The index then leads from that id to the
      group of the second request only. */
  lemma FailedWriteHidesARequest(cfg: Config)
    requires cfg.promptEnable
    ensures exists s :: Reached(cfg, 1, s) && Enabled(s, Resume(1, Ok)) && Unmaps(s, Resume(1, Ok))
              && var z := Step(cfg, s, Resume(1, Ok)).tables;
                 Lists(z, 0, 1) && Lists(z, 1, 1) && FindGroup(z, 1) == Some(1)
  {
    WriteFails(cfg);
    WriteFailedFacts();
    Ask(cfg, 1, WriteFailed(), 1, 9);
    AskedAgainFacts();
    HiddenFacts(AskedAgain().tables);
    assert Step(cfg, AskedAgain(), Resume(1, Ok)).tables == Create(AskedAgain().tables, 9, 1, 1);
  }

  // ---------------------------------------------------------------- the request nobody finds

  const GUARDED := Config(true, Once, true)

  /** A group is approved as a whole while the registry write of its one request
      still runs. */
  const WHOLE_APPROVED: State := OnApprove(GUARDED, Admitted(INIT, 1, 7), 1, Some(Capability))

  function Conn0(pc: Pc): Conn {
    Conn(1, pc, Cancelled, Some(1), 7, RulePrompts, true, Some(0), false)
  }

  /** What stays the same while the first connection is cancelled and leaves. */
  predicate Stuck(s: State) {
    && s.tables.groups == map[] && 0 in s.tables.heap && s.tables.heap[0].requests == map[1 := 0]
    && s.tables.heap[0].waiters == map[1 := 0]
    && s.tables.nextGid == 1 && s.nextTok == 1 && s.approvedKeys == {7}
    && 0 in s.calls && s.calls[0] == Closing(0, Approving)
  }

  /** The connection stands at `pc`, and only the approval call and the calls `ks` run. */
  predicate At0(s: State, pc: Pc, ks: set<Tid>, nextTid: Tid) {
    && Stuck(s) && s.conns == map[0 := Conn0(pc)] && s.calls.Keys == {0} + ks && s.nextTid == nextTid
    && s.active == if pc == Finished then {} else {1}
  }

  lemma WholeApprovedFacts()
    ensures Reached(GUARDED, 0, WHOLE_APPROVED) && Stuck(WHOLE_APPROVED)
    ensures WHOLE_APPROVED.conns ==
        map[0 := Conn(1, Writing(true), Awaiting, None, 7, RulePrompts, true, Some(0), false)]
    ensures WHOLE_APPROVED.calls.Keys == {0} && WHOLE_APPROVED.nextTid == 1 && WHOLE_APPROVED.active == {1}
  {
    Start(GUARDED);
    Admit(GUARDED, 0, INIT, 1, 7);
    Go(GUARDED, 0, Admitted(INIT, 1, 7), Approve(1, Some(Capability)));
  }

  /** `removePendingRequest` no longer finds the group that was taken off the table. */
  lemma RemovesNothing(s: State, pc: Pc, k: Tid)
    returns (z: State)
    requires Reached(GUARDED, 0, s) && At0(s, pc, {k}, k + 1) && k != 0 && s.calls[k] == Removal(1)
    ensures Reached(GUARDED, 0, z) && At0(z, pc, {}, k + 1)
  {
    var y := OnRemoveBegin(s, k, s.calls[k]);
    Go(GUARDED, 0, s, Work(k, Ok));
    assert At0(y, pc, {k}, k + 1) && y.calls[k] == Removal(1).(at := RemoveEntry);
    z := EndCall(y, k);
    Go(GUARDED, 0, y, Work(k, Ok));
    assert OnWork(GUARDED, y, k, y.calls[k], Ok) == z;
  }

  lemma Cancels()
    returns (z: State)
    ensures Reached(GUARDED, 0, z) && At0(z, Writing(true), {1}, 2) && z.calls[1] == Removal(1)
  {
    WholeApprovedFacts();
    Go(GUARDED, 0, WHOLE_APPROVED, Cancel(0));
    z := OnCancel(WHOLE_APPROVED, 0, WHOLE_APPROVED.conns[0]);
  }

  lemma Leaves(s: State)
    returns (z: State)
    requires Reached(GUARDED, 0, s) && At0(s, Writing(true), {}, 2)
    ensures Reached(GUARDED, 0, z) && At0(z, Removing(2), {2}, 3) && z.calls[2] == Removal(1)
  {
    var y := OnResume(GUARDED, s, 0, s.conns[0], Ok);
    Go(GUARDED, 0, s, Resume(0, Ok));
    assert At0(y, Leaving(true), {}, 2);
    z := OnResume(GUARDED, y, 0, y.conns[0], Ok);
    Go(GUARDED, 0, y, Resume(0, Ok));
  }

  lemma Ends(s: State)
    returns (z: State)
    requires Reached(GUARDED, 0, s) && At0(s, Removing(2), {}, 3)
    ensures Reached(GUARDED, 0, z) && At0(z, Finished, {}, 3)
  {
    Go(GUARDED, 0, s, Resume(0, Ok));
    z := OnResume(GUARDED, s, 0, s.conns[0], Ok);
  }

  lemma CancelledGone()
    returns (z: State)
    ensures Reached(GUARDED, 0, z) && At0(z, Finished, {}, 3)
  {
    z := Cancels();
    z := RemovesNothing(z, Writing(true), 1);
    z := Leaves(z);
    z := RemovesNothing(z, Removing(2), 2);
    z := Ends(z);
  }

  /** The loop takes the stale id off its worklist. */
  lemma Forgets(s: State)
    returns (z: State)
    requires Reached(GUARDED, 0, s) && 0 in s.calls && s.calls[0] == Closing(0, Approving)
    requires Mapped(s.tables, 1) && 1 in s.tables.heap[1].waiters && 0 in s.tables.heap
    requires s.tables.heap[0].requests == s.tables.heap[0].waiters == map[1 := 0]
    ensures Reached(GUARDED, 0, z) && Lists(z.tables, 1, 1) && FindGroup(z.tables, 1).None?
  {
    var y := SetCall(s, 0, Closing(0, Approving).(at := Loop, rest := [1]));
    assert IsOrder([1], s.tables.heap[0]);
    Go(GUARDED, 0, s, Work(0, Order([1])));
    z := OnLoop(y, 0, y.calls[0]);
    Go(GUARDED, 0, y, Work(0, Ok));
  }

  /** An id that is used again while its first, cancelled request still stands on the
      worklist of a running approval: the new request is registered, but no decision
      that names it finds it. */
  lemma ReusedIdIsNotFound()
    ensures exists s :: Reached(GUARDED, 0, s) && Lists(s.tables, 1, 1) && FindGroup(s.tables, 1).None?
  {
    var s := CancelledGone();
    Admit(GUARDED, 0, s, 1, 9);
    var z := Forgets(Admitted(s, 1, 9));
  }
}
