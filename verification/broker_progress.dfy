/** Decisions are carried out in every interleaving: who is approved runs, who is denied
    is told so, and a whole group is worked off in the order of its list, as long as
    nothing the deciding call or the connection waits for fails. */
module BrokerProgress {
  import opened Wrappers
  import opened Sequences
  import opened Broker
  import opened BrokerTables
  import opened BrokerDecisions

  // ---------------------------------------------------------------- what other events leave alone

  predicate Extends(log: Log, log': Log) {
    log.audit <= log'.audit && log.started <= log'.started
  }

  /** The connection is as before, and the log has only grown. */
  predicate Leaves(s: State, s': State, t: Tok) {
    t in s.conns && t in s'.conns && s'.conns[t] == s.conns[t] && Extends(s.log, s'.log)
  }

  lemma LocalExtends(cfg: Config, cached: bool, t: Tok, c: Conn, log: Log, a: Answer)
    ensures Extends(log, LocalStep(cfg, cached, t, c, log, a).1)
  {
    if c.pc.Ops? && c.pc.ops != [] {
      assert Extends(log, LocalOp(cfg, cached, t, c, log, a, c.pc.ops[0], c.pc.ops[1..]).1);
    }
  }

  lemma ResumeExtends(cfg: Config, s: State, u: Tok, a: Answer)
    requires u in s.conns
    ensures Extends(s.log, OnResume(cfg, s, u, s.conns[u], a).log)
    ensures forall t | t in s.conns && t != u :: Leaves(s, OnResume(cfg, s, u, s.conns[u], a), t)
  {
    LocalExtends(cfg, s.conns[u].key in s.approvedKeys, u, s.conns[u], s.log, a);
  }

  lemma DecideLeaves(s: State, k: Tid, c: Call, a: Answer, t: Tok)
    requires t in s.conns && c.held != Some(t)
    ensures Leaves(s, OnDecide(s, k, c, a), t)
  {
  }

  lemma EndLeaves(s: State, k: Tid, held: Option<Tok>, t: Tok)
    requires t in s.conns && held != Some(t)
    ensures Leaves(s, EndCall(Settle(s, held), k), t) && Leaves(s, EndCall(s, k), t)
  {
  }

  lemma EntryLeaves(cfg: Config, s: State, k: Tid, c: Call, a: Answer, t: Tok)
    requires t in s.conns && c.held != Some(t)
    ensures Leaves(s, OnEntry(cfg, s, k, c, a), t) && Leaves(s, OnRemoveEntry(s, k, c, a), t)
  {
    DecideLeaves(s, k, c, a, t);
    EndLeaves(s, k, c.held, t);
  }

  lemma WorkLeaves(cfg: Config, s: State, k: Tid, a: Answer, t: Tok)
    requires k in s.calls && t in s.conns && s.calls[k].held != Some(t)
    ensures Leaves(s, OnWork(cfg, s, k, s.calls[k], a), t)
  {
    var c := s.calls[k];
    match c.at
    case RemoveBegin =>
    case RemoveEntry => EntryLeaves(cfg, s, k, c, a, t);
    case RemoveClose => EndLeaves(s, k, c.held, t);
    case GroupClose =>
    case Loop =>
    case Entry => EntryLeaves(cfg, s, k, c, a, t);
    case _ => DecideLeaves(s, k, c, a, t);
  }

  lemma StepLeaves(cfg: Config, s: State, e: Event, t: Tok)
    requires Inv(s) && Enabled(s, e) && t in s.conns && e != Cancel(t) && !(e.Resume? && e.tok == t)
    requires e.Work? ==> s.calls[e.tid].held != Some(t)
    ensures Leaves(s, Step(cfg, s, e), t)
  {
    match e
    case Arrive(_) => assert t < s.nextTok;
    case Cancel(_) =>
    case Resume(u, a) => ResumeExtends(cfg, s, u, a);
    case Approve(_, _) =>
    case DenyRequest(_) =>
    case Timeout(_) =>
    case Work(k, a) => WorkLeaves(cfg, s, k, a, t);
  }

  lemma DecideTables(s: State, k: Tid, c: Call, a: Answer)
    ensures OnDecide(s, k, c, a).tables == s.tables
  {
  }

  lemma DropDetachedSame(x: Tables, gid: Gid, guarded: bool)
    requires gid in x.heap
    ensures DetachedSame(x, DropEmpty(x, gid, guarded))
  {
  }

  lemma EntryDetachedSame(cfg: Config, s: State, k: Tid, c: Call, a: Answer)
    ensures DetachedSame(s.tables, OnEntry(cfg, s, k, c, a).tables)
  {
    if RanEmpty(s.tables, c.group) { DropDetachedSame(s.tables, c.group.value, cfg.guarded); }
    DecideTables(s, k, c, a);
  }

  lemma RemoveDetachedSame(s: State, k: Tid, c: Call, a: Answer)
    ensures DetachedSame(s.tables, OnRemoveEntry(s, k, c, a).tables)
  {
    if RanEmpty(s.tables, c.group) { DropDetachedSame(s.tables, c.group.value, true); }
  }

  lemma WorkDetachedSame(cfg: Config, s: State, k: Tid, a: Answer)
    requires Sound(cfg, s) && Enabled(s, Work(k, a))
    ensures DetachedSame(s.tables, OnWork(cfg, s, k, s.calls[k], a).tables)
  {
    var c := s.calls[k];
    assert CallOk(s, c) && GrantOk(s, c);
    match c.at
    case RemoveBegin => RemoveBeginUndecides(s, k);
    case RemoveEntry => RemoveDetachedSame(s, k, c, a);
    case RemoveClose =>
    case GroupClose =>
    case Loop =>
    case Entry => EntryDetachedSame(cfg, s, k, c, a);
    case _ => DecideTables(s, k, c, a);
  }

  lemma StepDetachedSame(cfg: Config, s: State, e: Event)
    requires Sound(cfg, s) && Enabled(s, e)
    ensures DetachedSame(s.tables, Step(cfg, s, e).tables)
  {
    match e
    case Arrive(_) =>
    case Cancel(_) =>
    case Resume(t, a) => if AtPend(s.conns[t]) { PendDetachedSame(s, t); }
    case Approve(id, scope) =>
      if FindGroup(s.tables, id).Some? && scope != Some(OtherScope) {
        if (if scope.Some? then scope.value else cfg.defaultScope) == Capability {
          ApproveWholes(cfg, s, id, scope, FindGroup(s.tables, id).value);
        } else {
          ApproveSelects(cfg, s, id, scope, FindGroup(s.tables, id).value);
        }
      }
    case DenyRequest(id) =>
      if FindGroup(s.tables, id).Some? {
        FoundIsMapped(s.tables, id);
        SelectUndecides(s, OnDeny(s, id), FindGroup(s.tables, id).value, id, Denying);
      }
    case Timeout(gid) => TimeoutUndecides(s, gid);
    case Work(k, a) => WorkDetachedSame(cfg, s, k, a);
  }

  predicate SameCall(s: State, s': State, k: Tid) {
    k < s'.nextTid && (k in s'.calls <==> k in s.calls) && (k in s.calls ==> s'.calls[k] == s.calls[k])
  }

  lemma DecideSameCall(s: State, l: Tid, c: Call, a: Answer, k: Tid)
    requires k < s.nextTid && k != l
    ensures SameCall(s, OnDecide(s, l, c, a), k)
  {
  }

  lemma WorkSameCall(cfg: Config, s: State, l: Tid, a: Answer, k: Tid)
    requires k < s.nextTid && l in s.calls && k != l
    ensures SameCall(s, OnWork(cfg, s, l, s.calls[l], a), k)
  {
    var c := s.calls[l];
    match c.at
    case RemoveBegin =>
    case RemoveEntry =>
    case RemoveClose =>
    case GroupClose =>
    case Loop =>
    case _ => DecideSameCall(s, l, c, a, k);
  }

  lemma TidsGrow(cfg: Config, s: State, e: Event)
    requires Enabled(s, e)
    ensures s.nextTid <= Step(cfg, s, e).nextTid
  {
  }

  /** Only its own steps change or end a call, and no call is begun twice. */
  lemma CallStays(cfg: Config, s: State, e: Event, k: Tid)
    requires Enabled(s, e) && k < s.nextTid && !(e.Work? && e.tid == k)
    ensures SameCall(s, Step(cfg, s, e), k)
  {
    match e
    case Arrive(_) =>
    case Cancel(_) =>
    case Resume(_, _) =>
    case Approve(_, _) =>
    case DenyRequest(_) =>
    case Timeout(_) =>
    case Work(l, a) => WorkSameCall(cfg, s, l, a, k);
  }

  // ---------------------------------------------------------------- the way of one waiter

  /** The decision a call records for its waiter. */
  function Recorded(mode: Mode, t: Tok): AuditEntry {
    match mode
    case Approving => AuditEntry(t, Allow, ApprovedByUser)
    case Denying => AuditEntry(t, Deny, DeniedByUser)
    case TimingOut => AuditEntry(t, Deny, PromptTimeout)
  }

  predicate Logged(log: Log, mode: Mode, t: Tok) {
    Recorded(mode, t) in log.audit && (mode == Approving ==> t in log.started)
  }

  /** On the worklist of the call. */
  predicate Queued(s: State, k: Tid, gid: Gid, mode: Mode, t: Tok) {
    && k in s.calls && t in s.conns && gid in s.tables.heap
    && var c, id, w := s.calls[k], s.conns[t].id, s.tables.heap[gid].waiters;
       && c.whole && c.group == Some(gid) && c.mode == mode && id in w && w[id] == t
       && (c.at == GroupClose || id in c.rest)
  }

  /** In the hands of the call, before or after its decision. */
  predicate InHand(s: State, k: Tid, mode: Mode, t: Tok) {
    && k in s.calls && s.calls[k].held == Some(t) && s.calls[k].mode == mode
    && (s.calls[k].at in {Entry, EntryClose, Auditing}
        || (s.calls[k].at in {Replying, At.Running} && Logged(s.log, mode, t)))
  }

  /** Recorded, started if approved, answered, and settled. */
  predicate Done(s: State, mode: Mode, t: Tok) {
    t in s.conns && s.conns[t].settled && s.conns[t].life == Terminal && Logged(s.log, mode, t)
  }

  /** The call `k` is on its way to decide on `t`, or has done so. */
  predicate Pursues(s: State, k: Tid, gid: Gid, mode: Mode, t: Tok) {
    && k < s.nextTid && t in s.conns && s.conns[t].group.Some? && s.conns[t].life != Cancelled
    && (Queued(s, k, gid, mode, t) || InHand(s, k, mode, t) || Done(s, mode, t))
  }

  /** Whoever still waits for `k` is in nobody else's hands. */
  lemma OnlyOwnerHolds(s: State, k: Tid, gid: Gid, mode: Mode, t: Tok, l: Tid)
    requires Inv(s) && Pursues(s, k, gid, mode, t) && l in s.calls && s.calls[l].held == Some(t)
    ensures l == k && InHand(s, k, mode, t)
  {
    assert CallOk(s, s.calls[l]);
    if k in s.calls {
      assert CallOk(s, s.calls[k]);
      assert k != l ==> Apart(s.calls[k], s.calls[l]);
    }
  }

  lemma LeftPursues(s: State, s': State, k: Tid, gid: Gid, mode: Mode, t: Tok)
    requires Inv(s) && Pursues(s, k, gid, mode, t) && k < s'.nextTid && DetachedSame(s.tables, s'.tables)
    requires t in s'.conns && s'.conns[t].id == s.conns[t].id && s'.conns[t].group == s.conns[t].group
    requires s'.conns[t].life == s.conns[t].life && s'.conns[t].settled == s.conns[t].settled && Extends(s.log, s'.log)
    requires !Done(s, mode, t) ==> k in s.calls ==> k in s'.calls && s'.calls[k] == s.calls[k]
    ensures Pursues(s', k, gid, mode, t)
  {
    if Logged(s.log, mode, t) { assert Logged(s'.log, mode, t); }
    if k in s.calls { assert CallOk(s, s.calls[k]); }
  }

  /** A connection that waits in a group only moves towards its end. */
  lemma OwnResume(cfg: Config, s: State, t: Tok, a: Answer)
    requires Inv(s) && t in s.conns && s.conns[t].group.Some?
    ensures var s' := OnResume(cfg, s, t, s.conns[t], a);
            && t in s'.conns && s'.conns[t].id == s.conns[t].id && s'.conns[t].group == s.conns[t].group
            && s'.conns[t].life == s.conns[t].life && s'.conns[t].settled == s.conns[t].settled
  {
    assert PcOk(s.conns[t]);
  }

  lemma OthersPursue(cfg: Config, s: State, e: Event, k: Tid, gid: Gid, mode: Mode, t: Tok)
    requires Sound(cfg, s) && Enabled(s, e) && Pursues(s, k, gid, mode, t)
    requires e != Cancel(t) && (e.Work? && e.tid == k ==> Done(s, mode, t))
    ensures Pursues(Step(cfg, s, e), k, gid, mode, t)
  {
    StepDetachedSame(cfg, s, e);
    TidsGrow(cfg, s, e);
    if !(e.Work? && e.tid == k) { CallStays(cfg, s, e, k); }
    if e.Resume? && e.tok == t {
      OwnResume(cfg, s, t, e.answer);
      ResumeExtends(cfg, s, t, e.answer);
    } else {
      if e.Work? && s.calls[e.tid].held == Some(t) { OnlyOwnerHolds(s, k, gid, mode, t, e.tid); }
      StepLeaves(cfg, s, e, t);
    }
    LeftPursues(s, Step(cfg, s, e), k, gid, mode, t);
  }

  // ---------------------------------------------------------------- the steps of the call itself

  /** The head of the loop takes `t`, or leaves it on the list. */
  lemma LoopPursues(cfg: Config, s: State, k: Tid, gid: Gid, mode: Mode, t: Tok)
    requires Sound(cfg, s) && Pursues(s, k, gid, mode, t) && Queued(s, k, gid, mode, t) && s.calls[k].at == Loop
    ensures Pursues(OnLoop(s, k, s.calls[k]), k, gid, mode, t)
  {
    var c := s.calls[k];
    assert CallOk(s, c) && GroupAgrees(s.tables.heap[gid]);
    assert c.rest == [c.rest[0]] + c.rest[1..];
  }

  lemma DecideKeepsList(s: State, k: Tid, a: Answer)
    requires k in s.calls && s.calls[k].whole
    ensures var s' := OnDecide(s, k, s.calls[k], a);
            && s'.nextTid == s.nextTid && k in s'.calls
            && var c, d := s.calls[k], s'.calls[k];
               d.whole && d.group == c.group && d.mode == c.mode && d.rest == c.rest
               && (d.at == c.at || d.at in {Loop, Auditing, Replying, At.Running})
  {
  }

  /** A turn for somebody else leaves `t` on the list. */
  lemma QueuedPursued(cfg: Config, s: State, k: Tid, a: Answer, gid: Gid, mode: Mode, t: Tok)
    requires Sound(cfg, s) && Enabled(s, Work(k, a)) && Pursues(s, k, gid, mode, t) && Queued(s, k, gid, mode, t)
    requires !a.Throws?
    ensures Pursues(Step(cfg, s, Work(k, a)), k, gid, mode, t)
  {
    var c := s.calls[k];
    assert CallOk(s, c);
    match c.at
    case GroupClose => assert GroupAgrees(s.tables.heap[gid]);
    case Loop => LoopPursues(cfg, s, k, gid, mode, t);
    case _ =>
      DecideKeepsList(s, k, a);
      DecideLeaves(s, k, c, a, t);
      DecideTables(s, k, c, a);
  }

  lemma EntryPursued(cfg: Config, s: State, k: Tid, a: Answer, mode: Mode, t: Tok)
    requires Inv(s) && InHand(s, k, mode, t) && t in s.conns && s.conns[t].life != Cancelled && !a.Throws?
    requires s.calls[k].at in {Entry, EntryClose}
    ensures var s' := OnWork(cfg, s, k, s.calls[k], a);
            InHand(s', k, mode, t) && t in s'.conns && s'.conns[t] == s.conns[t] && s'.nextTid == s.nextTid
  {
  }

  lemma AuditPursued(cfg: Config, s: State, k: Tid, a: Answer, mode: Mode, t: Tok)
    requires Inv(s) && InHand(s, k, mode, t) && t in s.conns && s.conns[t].life != Cancelled && !a.Throws?
    requires s.calls[k].at == Auditing
    ensures var s' := OnWork(cfg, s, k, s.calls[k], a);
            InHand(s', k, mode, t) && t in s'.conns && s'.conns[t].group == s.conns[t].group
            && s'.conns[t].life != Cancelled && s'.nextTid == s.nextTid
  {
    assert s.log.audit + [Recorded(mode, t)] ==
        Audited(s.log, t, Recorded(mode, t).decision, Recorded(mode, t).reason).audit;
  }

  lemma FinishPursued(cfg: Config, s: State, k: Tid, a: Answer, mode: Mode, t: Tok)
    requires Inv(s) && InHand(s, k, mode, t) && t in s.conns && s.conns[t].life != Cancelled
    requires s.calls[k].at in {Replying, At.Running}
    ensures var s' := OnWork(cfg, s, k, s.calls[k], a);
            Done(s', mode, t) && s'.conns[t].group == s.conns[t].group && s'.nextTid == s.nextTid
  {
  }

  lemma StepPursues(cfg: Config, s: State, e: Event, k: Tid, gid: Gid, mode: Mode, t: Tok)
    requires Sound(cfg, s) && Enabled(s, e) && Pursues(s, k, gid, mode, t)
    requires e != Cancel(t) && !(e.Work? && e.tid == k && e.answer.Throws?)
    ensures Pursues(Step(cfg, s, e), k, gid, mode, t)
  {
    if !(e.Work? && e.tid == k) || Done(s, mode, t) {
      OthersPursue(cfg, s, e, k, gid, mode, t);
    } else if Queued(s, k, gid, mode, t) {
      QueuedPursued(cfg, s, k, e.answer, gid, mode, t);
    } else if s.calls[k].at in {Entry, EntryClose} {
      EntryPursued(cfg, s, k, e.answer, mode, t);
    } else if s.calls[k].at == Auditing {
      AuditPursued(cfg, s, k, e.answer, mode, t);
    } else {
      FinishPursued(cfg, s, k, e.answer, mode, t);
    }
  }

  // ---------------------------------------------------------------- runs

  /** After the event `i` and before the state `j` the connection is not cancelled, and
      nothing fails that the call awaits. */
  predicate Calm(es: seq<Event>, i: nat, j: nat, k: Tid, t: Tok)
    requires j <= |es|
  {
    forall m | i < m < j :: es[m] != Cancel(t) && !(es[m].Work? && es[m].tid == k && es[m].answer.Throws?)
  }

  /** The call has returned, or its worklist is empty. */
  predicate Ended(s: State, k: Tid) {
    k !in s.calls || (s.calls[k].at == Loop && s.calls[k].rest == [])
  }

  lemma {:induction false} PursuedOn(cfg: Config, ss: seq<State>, es: seq<Event>, i: nat, j: nat, k: Tid, gid: Gid,
      mode: Mode, t: Tok)
    requires IsRun(cfg, ss, es) && i < j <= |es| && Calm(es, i, j, k, t) && Pursues(ss[i + 1], k, gid, mode, t)
    ensures Pursues(ss[j], k, gid, mode, t)
  {
    if i + 1 < j {
      PursuedOn(cfg, ss, es, i, j - 1, k, gid, mode, t);
      RunSound(cfg, ss, es, j - 1);
      StepPursues(cfg, ss[j - 1], es[j - 1], k, gid, mode, t);
    }
  }

  lemma EndedIsDone(s: State, k: Tid, gid: Gid, mode: Mode, t: Tok)
    requires Inv(s) && Pursues(s, k, gid, mode, t) && Ended(s, k)
    ensures Done(s, mode, t)
  {
    if k in s.calls { assert CallOk(s, s.calls[k]); }
  }

  lemma PursuedToTheEnd(cfg: Config, ss: seq<State>, es: seq<Event>, i: nat, j: nat, k: Tid, gid: Gid, mode: Mode,
      t: Tok)
    requires IsRun(cfg, ss, es) && i < j <= |es| && Calm(es, i, j, k, t) && Pursues(ss[i + 1], k, gid, mode, t)
    requires Ended(ss[j], k)
    ensures Done(ss[j], mode, t)
  {
    PursuedOn(cfg, ss, es, i, j, k, gid, mode, t);
    RunInv(cfg, ss, es, j);
    EndedIsDone(ss[j], k, gid, mode, t);
  }

  /** Who has been denied is never started. */
  lemma DeniedNeverStarts(log: Log, t: Tok, e: AuditEntry)
    requires LogOk(log) && e in log.audit && e.tok == t && e.decision == Deny
    ensures t !in log.started
  {
    forall x | x in log.audit && x.tok == t ensures x == e {
      var p :| 0 <= p < |log.audit| && log.audit[p] == x;
      var q :| 0 <= q < |log.audit| && log.audit[q] == e;
      assert p == q;
    }
    assert t in log.started ==> Decided(log, t, Allow);
  }

  // ---------------------------------------------------------------- one request

  function ScopeOf(cfg: Config, scope: Option<Scope>): Scope {
    if scope.Some? then scope.value else cfg.defaultScope
  }

  /** `id` names an uncancelled waiter of the registered group `gid`. */
  predicate Asks(s: State, id: Id, gid: Gid, t: Tok) {
    && FindGroup(s.tables, id) == Some(gid) && gid in s.tables.heap
    && id in s.tables.heap[gid].waiters && s.tables.heap[gid].waiters[id] == t
    && t in s.conns && s.conns[t].life != Cancelled
  }

  lemma ApprovalPursues(cfg: Config, s: State, id: Id, scope: Option<Scope>, gid: Gid, t: Tok)
    requires Inv(s) && Asks(s, id, gid, t) && scope != Some(OtherScope) && ScopeOf(cfg, scope) != Capability
    ensures Pursues(OnApprove(cfg, s, id, scope), s.nextTid, gid, Approving, t)
  {
    assert GroupAgrees(s.tables.heap[gid]);
  }

  lemma DenialPursues(s: State, id: Id, gid: Gid, t: Tok)
    requires Inv(s) && Asks(s, id, gid, t)
    ensures Pursues(OnDeny(s, id), s.nextTid, gid, Denying, t)
  {
    assert GroupAgrees(s.tables.heap[gid]);
  }

  /** A request that is approved once, and neither cancelled nor failed by its registry or
      its audit log: when the call of that approval has returned, whatever else happened
      meanwhile, the allow is on record, the command was started, and the waiter is
      settled and terminal. */
  lemma ApprovedOnceIsStarted(cfg: Config, ss: seq<State>, es: seq<Event>, i: nat, j: nat, id: Id,
      scope: Option<Scope>, gid: Gid, t: Tok)
    requires IsRun(cfg, ss, es) && i < j <= |es| && es[i] == Approve(id, scope) && Asks(ss[i], id, gid, t)
    requires scope != Some(OtherScope) && ScopeOf(cfg, scope) != Capability
    requires Calm(es, i, j, ss[i].nextTid, t) && Ended(ss[j], ss[i].nextTid)
    ensures AuditEntry(t, Allow, ApprovedByUser) in ss[j].log.audit && t in ss[j].log.started
    ensures t in ss[j].conns && ss[j].conns[t].settled && ss[j].conns[t].life == Terminal
  {
    RunInv(cfg, ss, es, i);
    ApprovalPursues(cfg, ss[i], id, scope, gid, t);
    PursuedToTheEnd(cfg, ss, es, i, j, ss[i].nextTid, gid, Approving, t);
  }

  /** One that is denied is recorded as such, settled, and not started. */
  lemma DeniedIsRecorded(cfg: Config, ss: seq<State>, es: seq<Event>, i: nat, j: nat, id: Id, gid: Gid, t: Tok)
    requires IsRun(cfg, ss, es) && i < j <= |es| && es[i] == DenyRequest(id) && Asks(ss[i], id, gid, t)
    requires Calm(es, i, j, ss[i].nextTid, t) && Ended(ss[j], ss[i].nextTid)
    ensures AuditEntry(t, Deny, DeniedByUser) in ss[j].log.audit && t !in ss[j].log.started
    ensures t in ss[j].conns && ss[j].conns[t].settled && ss[j].conns[t].life == Terminal
  {
    RunInv(cfg, ss, es, i);
    DenialPursues(ss[i], id, gid, t);
    PursuedToTheEnd(cfg, ss, es, i, j, ss[i].nextTid, gid, Denying, t);
    RunSound(cfg, ss, es, j);
    DeniedNeverStarts(ss[j].log, t, Recorded(Denying, t));
  }

  // ---------------------------------------------------------------- a whole group

  /** The event takes the registered group `gid` off the table to resolve it as a whole. */
  predicate Takes(cfg: Config, s: State, e: Event, gid: Gid, mode: Mode) {
    match e
    case Approve(id, scope) =>
      mode == Approving && FindGroup(s.tables, id) == Some(gid) && scope != Some(OtherScope)
          && ScopeOf(cfg, scope) == Capability
    case Timeout(g) =>
      mode == TimingOut && g in s.tables.heap && GroupByKey(s.tables, s.tables.heap[g].key) == Some(gid)
    case _ => false
  }

  lemma TakenIsPursued(cfg: Config, s: State, e: Event, gid: Gid, mode: Mode, id: Id)
    requires Inv(s) && Enabled(s, e) && Takes(cfg, s, e, gid, mode) && gid in s.tables.heap
        && id in s.tables.heap[gid].waiters
    requires s.tables.heap[gid].waiters[id] in s.conns && s.conns[s.tables.heap[gid].waiters[id]].life != Cancelled
    ensures Pursues(Step(cfg, s, e), s.nextTid, gid, mode, s.tables.heap[gid].waiters[id])
  {
    if e.Approve? {
      FoundIsMapped(s.tables, e.id);
    } else {
      TimeoutWholes(s, e.gid, gid);
    }
  }

  /** A group that is approved for the session or times out: when its call has worked off
      the list, every waiter that was not cancelled is decided accordingly, started if
      approved and not started if timed out, settled and terminal, in every interleaving. */
  lemma WholeGroupIsDecided(cfg: Config, ss: seq<State>, es: seq<Event>, i: nat, j: nat, gid: Gid, mode: Mode, id: Id,
      t: Tok)
    requires IsRun(cfg, ss, es) && i < j <= |es| && Takes(cfg, ss[i], es[i], gid, mode)
    requires gid in ss[i].tables.heap && id in ss[i].tables.heap[gid].waiters && ss[i].tables.heap[gid].waiters[id] == t
    requires t in ss[i].conns && ss[i].conns[t].life != Cancelled
    requires Calm(es, i, j, ss[i].nextTid, t) && Ended(ss[j], ss[i].nextTid)
    ensures Recorded(mode, t) in ss[j].log.audit && (t in ss[j].log.started <==> mode == Approving)
    ensures t in ss[j].conns && ss[j].conns[t].settled && ss[j].conns[t].life == Terminal
  {
    RunInv(cfg, ss, es, i);
    TakenIsPursued(cfg, ss[i], es[i], gid, mode, id);
    PursuedToTheEnd(cfg, ss, es, i, j, ss[i].nextTid, gid, mode, t);
    RunSound(cfg, ss, es, j);
    if mode != Approving { DeniedNeverStarts(ss[j].log, t, Recorded(mode, t)); }
  }

  // ---------------------------------------------------------------- in the order of the list

  /** The call has taken the list up to its head from the front: what it holds is the last
      request it took. */
  ghost predicate WorksOff(s: State, k: Tid, ids: seq<Id>) {
    k in s.calls ==>
      && var c := s.calls[k];
         && c.whole && c.at != GroupClose && Suffix(c.rest, ids)
         && (c.held.Some? ==> |c.rest| < |ids| && c.id == ids[|ids| - |c.rest| - 1])
  }

  predicate Suffix(rest: seq<Id>, ids: seq<Id>) {
    |rest| <= |ids| && rest == ids[|ids| - |rest|..]
  }

  lemma SuffixRest(rest: seq<Id>, ids: seq<Id>)
    requires Suffix(rest, ids) && rest != []
    ensures Suffix(rest[1..], ids) && rest[0] == ids[|ids| - |rest[1..]| - 1]
  {
  }

  lemma LoopWorksOff(s: State, k: Tid, ids: seq<Id>)
    requires Inv(s) && k in s.calls && WorksOff(s, k, ids) && s.calls[k].at == Loop
    ensures WorksOff(OnLoop(s, k, s.calls[k]), k, ids)
  {
    assert CallOk(s, s.calls[k]);
    if s.calls[k].rest != [] { SuffixRest(s.calls[k].rest, ids); }
  }

  lemma OwnWorksOff(cfg: Config, s: State, k: Tid, a: Answer, ids: seq<Id>)
    requires Inv(s) && k in s.calls && WorksOff(s, k, ids)
    ensures WorksOff(OnWork(cfg, s, k, s.calls[k], a), k, ids)
  {
    var c := s.calls[k];
    assert CallOk(s, c);
    match c.at
    case Loop => LoopWorksOff(s, k, ids);
    case Entry => DecideWorksOff(s, k, a);
    case Auditing => DecideWorksOff(s, k, a);
    case Replying => DecideWorksOff(s, k, a);
    case Running => DecideWorksOff(s, k, a);
    case _ =>
  }

  lemma DecideWorksOff(s: State, k: Tid, a: Answer)
    requires k in s.calls && s.calls[k].whole && s.calls[k].at != GroupClose
    ensures var s' := OnDecide(s, k, s.calls[k], a);
            k in s'.calls ==>
              && var c, d := s.calls[k], s'.calls[k];
                 d.whole && d.at != GroupClose && d.rest == c.rest && d.id == c.id
                     && (d.held.Some? ==> d.held == c.held)
  {
  }

  lemma StepWorksOff(cfg: Config, s: State, e: Event, k: Tid, ids: seq<Id>)
    requires Inv(s) && Enabled(s, e) && k < s.nextTid && WorksOff(s, k, ids)
    ensures WorksOff(Step(cfg, s, e), k, ids)
  {
    if e.Work? && e.tid == k { OwnWorksOff(cfg, s, k, e.answer, ids); } else { CallStays(cfg, s, e, k); }
  }

  /** While the call holds a later request of the list, it is done with an earlier one. */
  lemma EarlierIsDone(s: State, k: Tid, gid: Gid, mode: Mode, ids: seq<Id>, a: nat, b: nat, t: Tok, u: Tok)
    requires Inv(s) && Distinct(ids) && a < b < |ids| && WorksOff(s, k, ids) && Pursues(s, k, gid, mode, t)
    requires s.conns[t].id == ids[a] && k in s.calls && s.calls[k].held == Some(u) && s.calls[k].id == ids[b]
    ensures Done(s, mode, t)
  {
    var c := s.calls[k];
    assert CallOk(s, c);
    assert |ids| - |c.rest| - 1 == b;
    forall i | 0 <= i < |c.rest| ensures c.rest[i] != ids[a] { assert c.rest[i] == ids[b + 1 + i]; }
  }

  /** Only the call that holds a waiter writes about it. */
  lemma OnlyHolderWrites(cfg: Config, s: State, e: Event, u: Tok)
    requires Sound(cfg, s) && Enabled(s, e) && u in s.conns && s.conns[u].group.Some?
    requires !(e.Work? && s.calls[e.tid].held == Some(u))
    ensures var l, l' := s.log, Step(cfg, s, e).log;
            && (forall x | x in l'.audit && x.tok == u :: x in l.audit)
            && (u in l'.started ==> u in l.started)
  {
    match e
    case Arrive(_) =>
    case Cancel(_) =>
    case Resume(t, a) => ResumeWritesOwn(cfg, s, t, a, u);
    case Approve(_, _) =>
    case DenyRequest(_) =>
    case Timeout(_) =>
    case Work(k, a) => WorkWritesHeld(cfg, s, k, a, u);
  }

  lemma LocalWritesOwn(cfg: Config, cached: bool, t: Tok, c: Conn, log: Log, a: Answer, u: Tok)
    requires u != t
    ensures var log' := LocalStep(cfg, cached, t, c, log, a).1;
            (forall x | x in log'.audit && x.tok == u :: x in log.audit) && (u in log'.started ==> u in log.started)
  {
    if c.pc.Ops? && c.pc.ops != [] {
      var log' := LocalOp(cfg, cached, t, c, log, a, c.pc.ops[0], c.pc.ops[1..]).1;
      assert (forall x | x in log'.audit && x.tok == u :: x in log.audit) && (u in log'.started ==> u in log.started);
    }
  }

  lemma ResumeWritesOwn(cfg: Config, s: State, t: Tok, a: Answer, u: Tok)
    requires Inv(s) && t in s.conns && u in s.conns && s.conns[u].group.Some?
    ensures var l, l' := s.log, OnResume(cfg, s, t, s.conns[t], a).log;
            (forall x | x in l'.audit && x.tok == u :: x in l.audit) && (u in l'.started ==> u in l.started)
  {
    var c := s.conns[t];
    if t != u {
      LocalWritesOwn(cfg, c.key in s.approvedKeys, t, c, s.log, a, u);
    } else {
      LocalQuiet(cfg, c.key in s.approvedKeys, t, c, s.log, a);
    }
  }

  lemma DecideWritesHeld(s: State, k: Tid, c: Call, a: Answer, u: Tok)
    requires c.held != Some(u)
    ensures var l, l' := s.log, OnDecide(s, k, c, a).log;
            (forall x | x in l'.audit && x.tok == u :: x in l.audit) && (u in l'.started ==> u in l.started)
  {
  }

  /** A call writes to the log only where it decides. */
  lemma WorkWrites(cfg: Config, s: State, k: Tid, a: Answer)
    requires k in s.calls
    ensures OnWork(cfg, s, k, s.calls[k], a).log in {s.log, OnDecide(s, k, s.calls[k], a).log}
  {
    match s.calls[k].at
    case RemoveBegin =>
    case RemoveEntry =>
    case RemoveClose =>
    case GroupClose =>
    case Loop =>
    case _ =>
  }

  lemma WorkWritesHeld(cfg: Config, s: State, k: Tid, a: Answer, u: Tok)
    requires k in s.calls && s.calls[k].held != Some(u)
    ensures var l, l' := s.log, OnWork(cfg, s, k, s.calls[k], a).log;
            (forall x | x in l'.audit && x.tok == u :: x in l.audit) && (u in l'.started ==> u in l.started)
  {
    WorkWrites(cfg, s, k, a);
    DecideWritesHeld(s, k, s.calls[k], a, u);
  }

  /** `y` stands in `s` only behind `x`. */
  ghost predicate Behind<T(!new)>(s: seq<T>, x: T, y: T) {
    y in s ==> exists p, q | 0 <= p < q < |s| :: s[p] == x && s[q] == y
  }

  lemma GrownBehind<T(!new)>(s: seq<T>, s': seq<T>, x: T, y: T)
    requires Behind(s, x, y) && s <= s' && (y in s' && y !in s ==> x in s)
    ensures Behind(s', x, y)
  {
    if y in s {
      var p, q :| 0 <= p < q < |s| && s[p] == x && s[q] == y;
      assert s'[p] == x && s'[q] == y;
    } else if y in s' {
      var p :| 0 <= p < |s| && s[p] == x;
      var q :| 0 <= q < |s'| && s'[q] == y;
      assert s'[p] == x;
    }
  }

  ghost predicate InOrder(log: Log, mode: Mode, t: Tok, u: Tok) {
    && Behind(log.audit, Recorded(mode, t), Recorded(mode, u))
    && (mode == Approving ==> Behind(log.started, t, u))
  }

  /** Two uncancelled waiters of a list that is worked off. */
  ghost predicate Pair(s: State, k: Tid, gid: Gid, mode: Mode, ids: seq<Id>, a: nat, b: nat, t: Tok, u: Tok) {
    && Distinct(ids) && a < b < |ids| && WorksOff(s, k, ids)
    && Pursues(s, k, gid, mode, t) && s.conns[t].id == ids[a] && Pursues(s, k, gid, mode, u) && s.conns[u].id == ids[b]
    && InOrder(s.log, mode, t, u)
  }

  lemma LogGrows(cfg: Config, s: State, e: Event)
    requires Inv(s) && Enabled(s, e)
    ensures Extends(s.log, Step(cfg, s, e).log)
  {
    match e
    case Arrive(_) =>
    case Cancel(_) =>
    case Resume(t, a) => ResumeExtends(cfg, s, t, a);
    case Approve(_, _) =>
    case DenyRequest(_) =>
    case Timeout(_) =>
    case Work(k, a) => WorkExtends(cfg, s, k, a);
  }

  lemma DecideExtends(s: State, k: Tid, c: Call, a: Answer)
    ensures Extends(s.log, OnDecide(s, k, c, a).log)
  {
  }

  lemma WorkExtends(cfg: Config, s: State, k: Tid, a: Answer)
    requires k in s.calls
    ensures Extends(s.log, OnWork(cfg, s, k, s.calls[k], a).log)
  {
    WorkWrites(cfg, s, k, a);
    DecideExtends(s, k, s.calls[k], a);
  }

  lemma StepInOrder(cfg: Config, s: State, e: Event, k: Tid, gid: Gid, mode: Mode, ids: seq<Id>, a: nat, b: nat,
      t: Tok, u: Tok)
    requires Sound(cfg, s) && Enabled(s, e) && Pair(s, k, gid, mode, ids, a, b, t, u)
    ensures InOrder(Step(cfg, s, e).log, mode, t, u)
  {
    var l, l' := s.log, Step(cfg, s, e).log;
    LogGrows(cfg, s, e);
    if e.Work? && s.calls[e.tid].held == Some(u) {
      OnlyOwnerHolds(s, k, gid, mode, u, e.tid);
      assert CallOk(s, s.calls[k]);
      EarlierIsDone(s, k, gid, mode, ids, a, b, t, u);
    } else {
      OnlyHolderWrites(cfg, s, e, u);
    }
    GrownBehind(l.audit, l'.audit, Recorded(mode, t), Recorded(mode, u));
    if mode == Approving { GrownBehind(l.started, l'.started, t, u); }
  }

  lemma DecideSameId(s: State, k: Tid, a: Answer, t: Tok)
    requires k in s.calls && s.calls[k].held == Some(t) && t in s.conns
    ensures var s' := OnDecide(s, k, s.calls[k], a); t in s'.conns && s'.conns[t].id == s.conns[t].id
  {
  }

  lemma WorkSameId(cfg: Config, s: State, k: Tid, a: Answer, t: Tok)
    requires k in s.calls && s.calls[k].held == Some(t) && t in s.conns
    ensures var s' := OnWork(cfg, s, k, s.calls[k], a); t in s'.conns && s'.conns[t].id == s.conns[t].id
  {
    match s.calls[k].at
    case RemoveBegin =>
    case RemoveEntry =>
    case RemoveClose =>
    case GroupClose =>
    case Loop =>
    case _ => DecideSameId(s, k, a, t);
  }

  lemma StepSameId(cfg: Config, s: State, e: Event, t: Tok)
    requires Inv(s) && Enabled(s, e) && t in s.conns && s.conns[t].group.Some? && e != Cancel(t)
    ensures t in Step(cfg, s, e).conns && Step(cfg, s, e).conns[t].id == s.conns[t].id
  {
    if e.Resume? && e.tok == t {
      OwnResume(cfg, s, t, e.answer);
    } else if e.Work? && s.calls[e.tid].held == Some(t) {
      WorkSameId(cfg, s, e.tid, e.answer, t);
    } else {
      StepLeaves(cfg, s, e, t);
    }
  }

  lemma StepPair(cfg: Config, s: State, e: Event, k: Tid, gid: Gid, mode: Mode, ids: seq<Id>, a: nat, b: nat, t: Tok,
      u: Tok)
    requires Sound(cfg, s) && Enabled(s, e) && Pair(s, k, gid, mode, ids, a, b, t, u)
    requires e != Cancel(t) && e != Cancel(u) && !(e.Work? && e.tid == k && e.answer.Throws?)
    ensures Pair(Step(cfg, s, e), k, gid, mode, ids, a, b, t, u)
  {
    StepInOrder(cfg, s, e, k, gid, mode, ids, a, b, t, u);
    StepWorksOff(cfg, s, e, k, ids);
    StepPursues(cfg, s, e, k, gid, mode, t);
    StepPursues(cfg, s, e, k, gid, mode, u);
    StepSameId(cfg, s, e, t);
    StepSameId(cfg, s, e, u);
  }

  lemma {:induction false} PairOn(cfg: Config, ss: seq<State>, es: seq<Event>, i: nat, j: nat, k: Tid, gid: Gid,
      mode: Mode, ids: seq<Id>, a: nat, b: nat, t: Tok, u: Tok)
    requires IsRun(cfg, ss, es) && i < j <= |es| && Calm(es, i, j, k, t) && Calm(es, i, j, k, u)
    requires Pair(ss[i + 1], k, gid, mode, ids, a, b, t, u)
    ensures Pair(ss[j], k, gid, mode, ids, a, b, t, u)
  {
    if i + 1 < j {
      PairOn(cfg, ss, es, i, j - 1, k, gid, mode, ids, a, b, t, u);
      RunSound(cfg, ss, es, j - 1);
      StepPair(cfg, ss[j - 1], es[j - 1], k, gid, mode, ids, a, b, t, u);
    }
  }

  /** `t` waits uncancelled under `id` in the group that the call is about to list. */
  predicate Lists(s: State, k: Tid, gid: Gid, id: Id, t: Tok) {
    && k in s.calls && s.calls[k].at == GroupClose && s.calls[k].group == Some(gid)
    && gid in s.tables.heap && id in s.tables.heap[gid].waiters && s.tables.heap[gid].waiters[id] == t
    && t in s.conns && s.conns[t].life != Cancelled
  }

  lemma ListedIsFresh(cfg: Config, s: State, k: Tid, gid: Gid, id: Id, t: Tok)
    requires Sound(cfg, s) && Lists(s, k, gid, id, t)
    ensures Fresh(s.log, t) && s.conns[t].id == id && Pursues(s, k, gid, s.calls[k].mode, t)
  {
    var c := s.calls[k];
    assert CallOk(s, c);
    assert c.whole;
    assert OnList(s, gid, id);
    if Concluding(s, t) {
      var l :| l in s.calls && Concludes(s.calls[l], t);
      OnlyOwnerHolds(s, k, gid, c.mode, t, l);
    }
  }

  lemma FreshIsUnrecorded(log: Log, mode: Mode, t: Tok)
    requires Fresh(log, t)
    ensures Recorded(mode, t) !in log.audit && t !in log.started
  {
    assert Recorded(mode, t) in log.audit ==> Decided(log, t, Recorded(mode, t).decision);
  }

  lemma ListedPair(cfg: Config, s: State, k: Tid, gid: Gid, ids: seq<Id>, a: nat, b: nat, t: Tok, u: Tok)
    requires Sound(cfg, s) && Enabled(s, Work(k, Order(ids))) && a < b < |ids|
    requires Lists(s, k, gid, ids[a], t) && Lists(s, k, gid, ids[b], u)
    ensures Pair(Step(cfg, s, Work(k, Order(ids))), k, gid, s.calls[k].mode, ids, a, b, t, u)
  {
    ListedIsFresh(cfg, s, k, gid, ids[a], t);
    ListedIsFresh(cfg, s, k, gid, ids[b], u);
    FreshIsUnrecorded(s.log, s.calls[k].mode, u);
    StepPursues(cfg, s, Work(k, Order(ids)), k, gid, s.calls[k].mode, t);
    StepPursues(cfg, s, Work(k, Order(ids)), k, gid, s.calls[k].mode, u);
    assert CallOk(s, s.calls[k]);
    assert ids[|ids| - |ids|..] == ids;
  }

  /** And in the order in which the group listed them: when the call has worked off the
      list `ids`, of any two waiters that were not cancelled the earlier one was recorded,
      and started if approved, before the later one. */
  lemma WholeGroupIsDecidedInOrder(cfg: Config, ss: seq<State>, es: seq<Event>, i: nat, j: nat, k: Tid, gid: Gid,
      ids: seq<Id>, a: nat, b: nat, t: Tok, u: Tok)
    requires IsRun(cfg, ss, es) && i < j <= |es| && es[i] == Work(k, Order(ids)) && a < b < |ids|
    requires Lists(ss[i], k, gid, ids[a], t) && Lists(ss[i], k, gid, ids[b], u)
    requires Calm(es, i, j, k, t) && Calm(es, i, j, k, u) && Ended(ss[j], k)
    ensures var l, mode := ss[j].log, ss[i].calls[k].mode;
            && (exists p, q | 0 <= p < q < |l.audit| ::
                  l.audit[p] == Recorded(mode, t) && l.audit[q] == Recorded(mode, u))
            && (mode == Approving ==> exists p, q | 0 <= p < q < |l.started| :: l.started[p] == t && l.started[q] == u)
  {
    RunSound(cfg, ss, es, i);
    var mode := ss[i].calls[k].mode;
    ListedPair(cfg, ss[i], k, gid, ids, a, b, t, u);
    PairOn(cfg, ss, es, i, j, k, gid, mode, ids, a, b, t, u);
    RunInv(cfg, ss, es, j);
    EndedIsDone(ss[j], k, gid, mode, u);
  }

  // ---------------------------------------------------------------- without asking

  /** The reason of an allow that needs no asking. */
  function WithoutAsking(c: Conn): Reason {
    if c.approval == RuleAllows then RuleAllow else ApprovedCached
  }

  predicate Cleared(log: Log, t: Tok, r: Reason) {
    AuditEntry(t, Allow, r) in log.audit
  }

  /** How far the connection has come on its path to the start. */
  predicate Allowed(s: State, t: Tok, r: Reason) {
    && t in s.conns
    && var c := s.conns[t];
       && c.group.None?
       && match c.pc
          case Ops(ops) =>
            c.life != Cancelled
            && (|| ops == [Check, Audit(Allow, r), Check, Start]
                || ops == [Audit(Allow, r), Check, Start]
                || (ops == [Check, Start] && Cleared(s.log, t, r))
                || (ops == [Start] && Cleared(s.log, t, r)))
          case Executing => Cleared(s.log, t, r) && t in s.log.started && c.life == Life.Running
          case Finished => Cleared(s.log, t, r) && t in s.log.started && c.life == Terminal
          case _ => false
  }

  lemma AllowedCheck(cfg: Config, s: State, t: Tok, a: Answer, r: Reason)
    requires Allowed(s, t, r) && s.conns[t].pc.Ops? && s.conns[t].pc.ops[0] == Check
    ensures Allowed(OnResume(cfg, s, t, s.conns[t], a), t, r)
  {
    assert [Check, Audit(Allow, r), Check, Start][1..] == [Audit(Allow, r), Check, Start];
    assert [Check, Start][1..] == [Start];
  }

  lemma AllowedAudit(cfg: Config, s: State, t: Tok, a: Answer, r: Reason)
    requires Allowed(s, t, r) && s.conns[t].pc.Ops? && s.conns[t].pc.ops[0].Audit? && !a.Throws?
    ensures Allowed(OnResume(cfg, s, t, s.conns[t], a), t, r)
  {
    assert [Audit(Allow, r), Check, Start][1..] == [Check, Start];
    assert AuditEntry(t, Allow, r) in Audited(s.log, t, Allow, r).audit;
  }

  lemma AllowedStart(cfg: Config, s: State, t: Tok, a: Answer, r: Reason)
    requires Allowed(s, t, r) && s.conns[t].pc == Ops([Start])
    ensures Allowed(OnResume(cfg, s, t, s.conns[t], a), t, r)
  {
  }

  lemma AllowedOp(cfg: Config, s: State, t: Tok, a: Answer, r: Reason)
    requires Allowed(s, t, r) && s.conns[t].pc.Ops? && !a.Throws?
    ensures Allowed(OnResume(cfg, s, t, s.conns[t], a), t, r)
  {
    match s.conns[t].pc.ops[0]
    case Check => AllowedCheck(cfg, s, t, a, r);
    case Audit(_, _) => AllowedAudit(cfg, s, t, a, r);
    case _ => AllowedStart(cfg, s, t, a, r);
  }

  lemma StepAllowed(cfg: Config, s: State, e: Event, t: Tok, r: Reason)
    requires Inv(s) && Enabled(s, e) && Allowed(s, t, r)
    requires e != Cancel(t) && !(e.Resume? && e.tok == t && e.answer.Throws?)
    ensures Allowed(Step(cfg, s, e), t, r)
  {
    if e.Resume? && e.tok == t {
      if s.conns[t].pc.Ops? { AllowedOp(cfg, s, t, e.answer, r); }
    } else {
      if e.Work? { assert CallOk(s, s.calls[e.tid]); }
      StepLeaves(cfg, s, e, t);
    }
  }

  lemma {:induction false} AllowedOn(cfg: Config, ss: seq<State>, es: seq<Event>, i: nat, j: nat, t: Tok, r: Reason)
    requires IsRun(cfg, ss, es) && i < j <= |es| && Allowed(ss[i + 1], t, r)
    requires forall m | i < m < j :: es[m] != Cancel(t) && !(es[m].Resume? && es[m].tok == t && es[m].answer.Throws?)
    ensures Allowed(ss[j], t, r)
  {
    if i + 1 < j {
      AllowedOn(cfg, ss, es, i, j - 1, t, r);
      RunInv(cfg, ss, es, j - 1);
      StepAllowed(cfg, ss[j - 1], es[j - 1], t, r);
    }
  }

  /** A request that needs no asking, because its rule allows or its key was approved while
      prompting is enabled, and whose integrity check passes: once it has left its path,
      uncancelled and with nothing it awaited failing, it is on record with that reason, was
      started, and runs or has ended and is terminal, whatever else happened meanwhile. */
  lemma AllowedIsStarted(cfg: Config, ss: seq<State>, es: seq<Event>, i: nat, j: nat, t: Tok)
    requires IsRun(cfg, ss, es) && i < j <= |es| && es[i] == Resume(t, Integrity(true))
    requires t in ss[i].conns && ss[i].conns[t].pc == Ops([Verdict]) && ss[i].conns[t].life != Cancelled
    requires var c := ss[i].conns[t]; c.approval == RuleAllows || (c.key in ss[i].approvedKeys && cfg.promptEnable)
    requires forall m | i < m < j :: es[m] != Cancel(t) && !(es[m].Resume? && es[m].tok == t && es[m].answer.Throws?)
    requires t in ss[j].conns ==> !ss[j].conns[t].pc.Ops?
    ensures AuditEntry(t, Allow, WithoutAsking(ss[i].conns[t])) in ss[j].log.audit && t in ss[j].log.started
    ensures t in ss[j].conns
            && var c := ss[j].conns[t];
               (c.pc == Executing && c.life == Life.Running) || (c.pc == Finished && c.life == Terminal)
  {
    RunInv(cfg, ss, es, i);
    assert PcOk(ss[i].conns[t]);
    AllowedOn(cfg, ss, es, i, j, t, WithoutAsking(ss[i].conns[t]));
  }
}
