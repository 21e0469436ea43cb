/** No command starts without a recorded, justified decision, and no request gets two. */
module BrokerDecisions {
  import opened Wrappers
  import opened Broker
  import opened BrokerTables

  // ---------------------------------------------------------------- the log

  datatype Standing = Undecided | Cleared | Refused

  ghost predicate Decided(log: Log, t: Tok, d: Decision) {
    exists e | e in log.audit :: e.tok == t && e.decision == d
  }

  ghost function StandingOf(log: Log, t: Tok): Standing {
    if Decided(log, t, Allow) then Cleared else if Decided(log, t, Deny) then Refused else Undecided
  }

  ghost predicate Fresh(log: Log, t: Tok) {
    StandingOf(log, t) == Undecided && t !in log.started
  }

  /** One decision per connection, one start per connection, no start without leave. */
  ghost predicate LogOk(log: Log) {
    && (forall i, j | 0 <= i < j < |log.audit| :: log.audit[i].tok != log.audit[j].tok)
    && (forall i, j | 0 <= i < j < |log.started| :: log.started[i] != log.started[j])
    && (forall t | t in log.started :: Decided(log, t, Allow))
  }

  /** What a step may do to the log: decide on `t`, start `t`, or neither. */
  ghost predicate Writes(log: Log, log': Log, t: Tok) {
    && (forall u | u != t :: StandingOf(log', u) == StandingOf(log, u) && (u in log'.started <==> u in log.started))
    && (forall e | e in log'.audit :: e in log.audit || e.tok == t)
  }

  lemma AuditWrites(log: Log, t: Tok, d: Decision, r: Reason)
    requires LogOk(log) && Fresh(log, t)
    ensures var log' := Audited(log, t, d, r);
            && LogOk(log') && Writes(log, log', t) && t !in log'.started
            && StandingOf(log', t) == (if d == Allow then Cleared else Refused)
  {
    var log' := Audited(log, t, d, r);
    var e := AuditEntry(t, d, r);
    assert log'.audit[|log.audit|] == e;
    assert forall x :: x in log'.audit <==> x in log.audit || x == e;
    forall i | 0 <= i < |log.audit| ensures log.audit[i].tok != t {
      assert log.audit[i] in log.audit;
      assert Decided(log, log.audit[i].tok, log.audit[i].decision);
    }
    forall u, dd ensures Decided(log', u, dd) <==> Decided(log, u, dd) || (u == t && dd == d) {
      if u == t && dd == d { assert e in log'.audit; }
    }
  }

  lemma StartWrites(log: Log, t: Tok)
    requires LogOk(log) && StandingOf(log, t) == Cleared && t !in log.started
    ensures var log' := log.(started := log.started + [t]);
            LogOk(log') && Writes(log, log', t) && t in log'.started && StandingOf(log', t) == Cleared
  {
    var log' := log.(started := log.started + [t]);
    assert forall u, d :: Decided(log', u, d) <==> Decided(log, u, d);
  }

  // ---------------------------------------------------------------- the paths of a connection

  /** What an allow without asking rests on. */
  predicate Justified(cfg: Config, keys: set<Key>, c: Conn, r: Reason) {
    match r
    case RuleAllow => c.pass && c.approval == RuleAllows
    case ApprovedCached => c.pass && cfg.promptEnable && c.key in keys
    case _ => false
  }

  /** A path decides at most once, starts only after an allow, and checks for a
      cancellation directly before it starts. */
  predicate Follows(cfg: Config, keys: set<Key>, c: Conn, ops: seq<Op>, st: Standing) {
    if ops == [] then true
    else
      match ops[0]
      case Check => Follows(cfg, keys, c, ops[1..], st)
      case Reply => true
      case Verdict => st == Undecided
      case Pend => st == Undecided
      case Start => st == Cleared
      case Audit(d, r) =>
        && st == Undecided && (d == Allow ==> Justified(cfg, keys, c, r)) && ops[1..] != [] && ops[1] == Check
        && Follows(cfg, keys, c, ops[1..], if d == Allow then Cleared else Refused)
  }

  ghost predicate PathOk(cfg: Config, keys: set<Key>, log: Log, t: Tok, c: Conn) {
    match c.pc
    case Resolving => Fresh(log, t)
    case Ops(ops) => t !in log.started && Follows(cfg, keys, c, ops, StandingOf(log, t))
    case _ => true
  }

  lemma DenyPathFollows(cfg: Config, keys: set<Key>, c: Conn, r: Reason)
    ensures Follows(cfg, keys, c, DenyPath(r), Undecided)
  {
    assert [Check, Reply][1..] == [Reply];
    assert Follows(cfg, keys, c, [Check, Reply], Refused);
    assert [Audit(Deny, r), Check, Reply][1..] == [Check, Reply];
    assert Follows(cfg, keys, c, [Audit(Deny, r), Check, Reply], Undecided);
    assert DenyPath(r)[1..] == [Audit(Deny, r), Check, Reply];
  }

  lemma AllowPathFollows(cfg: Config, keys: set<Key>, c: Conn, r: Reason)
    requires Justified(cfg, keys, c, r)
    ensures Follows(cfg, keys, c, [Check, Audit(Allow, r), Check, Start], Undecided)
  {
    assert [Check, Start][1..] == [Start];
    assert Follows(cfg, keys, c, [Check, Start], Cleared);
    assert [Audit(Allow, r), Check, Start][1..] == [Check, Start];
    assert Follows(cfg, keys, c, [Audit(Allow, r), Check, Start], Undecided);
    assert [Check, Audit(Allow, r), Check, Start][1..] == [Audit(Allow, r), Check, Start];
  }

  lemma RulesFollow(cfg: Config, keys: set<Key>, c: Conn, a: Answer)
    ensures Follows(cfg, keys, c, PathAfterRules(a), Undecided)
  {
    DenyPathFollows(cfg, keys, c, PolicyDeny);
    assert [Check, Verdict][1..] == [Verdict];
  }

  lemma VerdictFollows(cfg: Config, keys: set<Key>, c: Conn, a: Answer)
    requires c.pass == (a == Integrity(true))
    ensures Follows(cfg, keys, c, PathAfterVerdict(cfg, c.key in keys, c.approval, a), Undecided)
  {
    DenyPathFollows(cfg, keys, c, IntegrityError);
    DenyPathFollows(cfg, keys, c, IntegrityMismatch);
    DenyPathFollows(cfg, keys, c, PromptDisabled);
    assert [Check, Pend][1..] == [Pend];
    if Immediate(cfg, c.key in keys, c.approval, a) && !(c.approval == RulePrompts && !cfg.promptEnable) {
      AllowPathFollows(cfg, keys, c, if c.approval == RuleAllows then RuleAllow else ApprovedCached);
    }
  }

  /** `Follows` reads these locals of the connection only. */
  lemma {:induction false} FollowsSame(cfg: Config, keys: set<Key>, keys': set<Key>, c: Conn, c': Conn, ops: seq<Op>,
      st: Standing)
    requires Follows(cfg, keys, c, ops, st) && keys <= keys'
    requires c'.pass == c.pass && c'.approval == c.approval && c'.key == c.key
    ensures Follows(cfg, keys', c', ops, st)
  {
    if ops != [] && (ops[0] == Check || ops[0].Audit?) {
      FollowsSame(cfg, keys, keys', c, c', ops[1..], if ops[0] == Check then st
          else if ops[0].decision == Allow then Cleared else Refused);
    }
  }

  /** Justification of an allow entry for a connection. */
  predicate Stands(cfg: Config, keys: set<Key>, granted: set<Tok>, c: Conn, e: AuditEntry) {
    e.decision == Allow ==> if e.reason == ApprovedByUser then e.tok in granted else Justified(cfg, keys, c, e.reason)
  }

  predicate SameLocals(c: Conn, c': Conn) {
    c'.pass == c.pass && c'.approval == c.approval && c'.key == c.key
  }

  predicate EntryStands(cfg: Config, keys: set<Key>, granted: set<Tok>, t: Tok, c: Conn, e: AuditEntry) {
    e.tok == t ==> Stands(cfg, keys, granted, c, e)
  }

  ghost predicate EntriesStand(cfg: Config, keys: set<Key>, log: Log, t: Tok, c: Conn) {
    forall e | e in log.audit :: EntryStands(cfg, keys, log.granted, t, c, e)
  }

  lemma UndecidedStands(cfg: Config, keys: set<Key>, log: Log, t: Tok, c: Conn)
    requires StandingOf(log, t) == Undecided
    ensures EntriesStand(cfg, keys, log, t, c)
  {
    forall e | e in log.audit ensures e.tok != t {
      assert e.tok == t ==> Decided(log, t, e.decision);
    }
  }

  ghost predicate TokOk(cfg: Config, keys: set<Key>, log: Log, t: Tok, c: Conn) {
    PathOk(cfg, keys, log, t, c) && EntriesStand(cfg, keys, log, t, c)
  }

  lemma LocalOpDecides(cfg: Config, keys: set<Key>, t: Tok, c: Conn, log: Log, a: Answer)
    requires LogOk(log) && TokOk(cfg, keys, log, t, c) && c.pc.Ops? && c.pc.ops != [] && c.pc.ops[0] != Pend
    ensures var (c', log') := LocalOp(cfg, c.key in keys, t, c, log, a, c.pc.ops[0], c.pc.ops[1..]);
            LogOk(log') && Writes(log, log', t) && log'.granted == log.granted && TokOk(cfg, keys, log', t, c')
  {
    var ops := c.pc.ops;
    var (c', log') := LocalOp(cfg, c.key in keys, t, c, log, a, ops[0], ops[1..]);
    match ops[0]
    case Check => FollowsSame(cfg, keys, keys, c, c', ops[1..], StandingOf(log, t));
    case Reply =>
    case Verdict =>
      VerdictFollows(cfg, keys, c', a);
      UndecidedStands(cfg, keys, log, t, c');
    case Start => StartWrites(log, t);
    case Audit(d, r) =>
      AuditWrites(log, t, d, r);
      UndecidedStands(cfg, keys, log, t, c');
      FollowsSame(cfg, keys, keys, c, c', ops[1..], if d == Allow then Cleared else Refused);
  }

  lemma LocalStepDecides(cfg: Config, keys: set<Key>, t: Tok, c: Conn, log: Log, a: Answer)
    requires LogOk(log) && TokOk(cfg, keys, log, t, c) && !AtPend(c)
    ensures var (c', log') := LocalStep(cfg, c.key in keys, t, c, log, a);
            LogOk(log') && Writes(log, log', t) && log'.granted == log.granted && TokOk(cfg, keys, log', t, c')
  {
    if c.pc.Ops? && c.pc.ops != [] {
      LocalOpDecides(cfg, keys, t, c, log, a);
    } else if c.pc.Resolving? {
      var c' := LocalStep(cfg, c.key in keys, t, c, log, a).0;
      RulesFollow(cfg, keys, c', a);
      UndecidedStands(cfg, keys, log, t, c');
    }
  }

  // ---------------------------------------------------------------- the invariant

  ghost predicate TokensOk(cfg: Config, s: State) {
    forall t | t in s.conns :: TokOk(cfg, s.approvedKeys, s.log, t, s.conns[t])
  }

  /** The call has decided on `t` and only has to finish it. */
  predicate Concludes(c: Call, t: Tok) {
    c.held == Some(t) && c.at in {Replying, At.Running}
  }

  ghost predicate Concluding(s: State, t: Tok) {
    exists k | k in s.calls :: Concludes(s.calls[k], t)
  }

  /** A waiter is undecided unless a call is finishing it. */
  ghost predicate OpensOk(s: State) {
    forall t | Open(s, t) :: Fresh(s.log, t) || Concluding(s, t)
  }

  /** An approving call works on waiters that the approval named. */
  ghost predicate GrantOk(s: State, c: Call) {
    c.mode == Approving ==>
      && c.at != RemoveBegin
      && (c.held.Some? ==> c.held.value in s.log.granted)
      && (c.whole && c.group.Some? && c.group.value in s.tables.heap ==>
            s.tables.heap[c.group.value].waiters.Values <= s.log.granted)
  }

  ghost predicate GrantsOk(s: State) {
    forall k | k in s.calls :: GrantOk(s, s.calls[k])
  }

  ghost predicate Known(s: State) {
    forall e | e in s.log.audit :: e.tok in s.conns
  }

  ghost predicate Sound(cfg: Config, s: State) {
    Inv(s) && LogOk(s.log) && TokensOk(cfg, s) && OpensOk(s) && GrantsOk(s) && Known(s)
  }

  // ---------------------------------------------------------------- frames

  lemma OtherTok(cfg: Config, keys: set<Key>, keys': set<Key>, log: Log, log': Log, t: Tok, u: Tok, c: Conn, c': Conn)
    requires TokOk(cfg, keys, log, u, c) && Writes(log, log', t) && u != t
    requires keys <= keys' && log.granted <= log'.granted && SameLocals(c, c') && c'.pc == c.pc
    ensures TokOk(cfg, keys', log', u, c')
  {
    if c.pc.Ops? { FollowsSame(cfg, keys, keys', c, c', c.pc.ops, StandingOf(log, u)); }
    forall e | e in log'.audit ensures EntryStands(cfg, keys', log'.granted, u, c', e) {
      assert e in log.audit ==> EntryStands(cfg, keys, log.granted, u, c, e);
    }
  }

  /** The log records nothing new. */
  predicate Silent(log: Log, log': Log) {
    log'.audit == log.audit && log'.started == log.started && log.granted <= log'.granted
  }

  lemma SilentTok(cfg: Config, keys: set<Key>, keys': set<Key>, log: Log, log': Log, u: Tok, c: Conn, c': Conn)
    requires TokOk(cfg, keys, log, u, c) && Silent(log, log') && keys <= keys'
    requires SameLocals(c, c') && (c'.pc == c.pc || !(c'.pc.Ops? || c'.pc.Resolving?))
    ensures TokOk(cfg, keys', log', u, c')
  {
    if c'.pc.Ops? { FollowsSame(cfg, keys, keys', c, c', c.pc.ops, StandingOf(log, u)); }
    forall e | e in log'.audit ensures EntryStands(cfg, keys', log'.granted, u, c', e) {
      assert EntryStands(cfg, keys, log.granted, u, c, e);
    }
  }

  /** A step that decides nothing: connections keep their locals and their place on
      their path, or leave it. */
  predicate Moves(s: State, s': State) {
    && Silent(s.log, s'.log) && s.approvedKeys <= s'.approvedKeys && s'.conns.Keys == s.conns.Keys
    && forall t | t in s.conns ::
         && SameLocals(s.conns[t], s'.conns[t])
         && (s'.conns[t].pc == s.conns[t].pc || !(s'.conns[t].pc.Ops? || s'.conns[t].pc.Resolving?))
  }

  lemma MovesTokens(cfg: Config, s: State, s': State)
    requires LogOk(s.log) && TokensOk(cfg, s) && Known(s) && Moves(s, s')
    ensures LogOk(s'.log) && TokensOk(cfg, s') && Known(s')
  {
    forall t | t in s'.conns ensures TokOk(cfg, s'.approvedKeys, s'.log, t, s'.conns[t]) {
      SilentTok(cfg, s.approvedKeys, s'.approvedKeys, s.log, s'.log, t, s.conns[t], s'.conns[t]);
    }
    forall t | t in s'.log.started ensures Decided(s'.log, t, Allow) {
      assert Decided(s.log, t, Allow);
    }
  }

  /** Groups that are off the table keep their waiters. */
  predicate DetachedSame(x: Tables, y: Tables) {
    forall g | g in x.heap && !Mapped(x, g) :: g in y.heap && y.heap[g].waiters == x.heap[g].waiters
  }

  lemma GrantStays(s: State, s': State, c: Call)
    requires CallOk(s, c) && GrantOk(s, c) && DetachedSame(s.tables, s'.tables) && s.log.granted <= s'.log.granted
    ensures GrantOk(s', c)
  {
  }

  lemma SilentFresh(log: Log, log': Log, t: Tok)
    requires Silent(log, log')
    ensures Fresh(log', t) <==> Fresh(log, t)
  {
    assert forall d :: Decided(log', t, d) <==> Decided(log, t, d);
  }

  lemma SilentOpens(s: State, s': State, k: Tid)
    requires OpensOk(s) && Silent(s.log, s'.log) && (forall u | Open(s', u) :: Open(s, u) || Fresh(s.log, u))
    requires forall l | l in s.calls && l != k :: l in s'.calls && s'.calls[l] == s.calls[l]
    requires k in s.calls ==> s.calls[k].at !in {Replying, At.Running}
    ensures OpensOk(s')
  {
    forall u | Open(s', u) ensures Fresh(s'.log, u) || Concluding(s', u) {
      SilentFresh(s.log, s'.log, u);
      if !Fresh(s.log, u) {
        var l :| l in s.calls && Concludes(s.calls[l], u);
        assert Concludes(s'.calls[l], u);
      }
    }
  }

  lemma CallsKeepGrants(s: State, s': State)
    requires Inv(s) && GrantsOk(s) && DetachedSame(s.tables, s'.tables) && s.log.granted <= s'.log.granted
    requires forall l | l in s'.calls && !(l in s.calls && s'.calls[l] == s.calls[l]) :: GrantOk(s', s'.calls[l])
    ensures GrantsOk(s')
  {
    forall l | l in s'.calls && l in s.calls && s'.calls[l] == s.calls[l] ensures GrantOk(s', s'.calls[l]) {
      GrantStays(s, s', s.calls[l]);
    }
  }

  /** The effect of a step of call `k` (or of no call) that decides nothing. */
  ghost predicate Undeciding(s: State, s': State, k: Tid) {
    && Moves(s, s') && DetachedSame(s.tables, s'.tables)
    && (forall u | Open(s', u) :: Open(s, u) || Fresh(s.log, u))
    && (forall l | l in s.calls && l != k :: l in s'.calls && s'.calls[l] == s.calls[l])
    && (k in s.calls ==> s.calls[k].at !in {Replying, At.Running})
    && (forall l | l in s'.calls && !(l in s.calls && s'.calls[l] == s.calls[l]) :: GrantOk(s', s'.calls[l]))
  }

  lemma UndecidingSound(cfg: Config, s: State, s': State, k: Tid)
    requires Sound(cfg, s) && Inv(s') && Undeciding(s, s', k)
    ensures Sound(cfg, s')
  {
    MovesTokens(cfg, s, s');
    SilentOpens(s, s', k);
    CallsKeepGrants(s, s');
  }

  // ---------------------------------------------------------------- steps that decide nothing

  lemma ArriveSound(cfg: Config, s: State, id: Id)
    requires Sound(cfg, s)
    ensures Sound(cfg, OnArrive(s, id))
  {
    ArriveInv(s, id);
    var s' := OnArrive(s, id);
    if id !in s.active {
      assert StandingOf(s.log, s.nextTok) == Undecided;
      assert s.nextTok !in s.log.started;
      UndecidedStands(cfg, s.approvedKeys, s.log, s.nextTok, s'.conns[s.nextTok]);
      SilentOpens(s, s', s.nextTid);
      CallsKeepGrants(s, s');
    }
  }

  /** Only the connection `t` changes, and it leaves its path. */
  lemma OneMoves(s: State, s': State, t: Tok, c: Conn)
    requires t in s.conns && s'.conns == s.conns[t := c] && SameLocals(s.conns[t], c) && !(c.pc.Ops? || c.pc.Resolving?)
    requires s'.log == s.log && s'.approvedKeys == s.approvedKeys
    requires Open(s', t) ==> Open(s, t) || Fresh(s.log, t)
    ensures Moves(s, s') && forall u | Open(s', u) :: Open(s, u) || Fresh(s.log, u)
  {
  }

  lemma PendMoves(s: State, t: Tok)
    requires t in s.conns && AtPend(s.conns[t]) && Fresh(s.log, t)
    ensures var s' := OnPend(s, t, s.conns[t]);
            Moves(s, s') && s'.calls == s.calls && forall u | Open(s', u) :: Open(s, u) || Fresh(s.log, u)
  {
    OneMoves(s, OnPend(s, t, s.conns[t]), t, OnPend(s, t, s.conns[t]).conns[t]);
  }

  lemma PendDetachedSame(s: State, t: Tok)
    requires TablesOk(s.tables) && t in s.conns && AtPend(s.conns[t])
    ensures DetachedSame(s.tables, OnPend(s, t, s.conns[t]).tables)
  {
    var c, x := s.conns[t], s.tables;
    if GroupByKey(x, c.key).None? {
      CreateTables(x, c.key, c.id, t);
    } else {
      assert Mapped(x, GroupByKey(x, c.key).value);
    }
  }

  lemma PendSound(cfg: Config, s: State, t: Tok)
    requires Sound(cfg, s) && t in s.conns && AtPend(s.conns[t])
    ensures Sound(cfg, OnPend(s, t, s.conns[t]))
  {
    PendInv(s, t);
    assert TokOk(cfg, s.approvedKeys, s.log, t, s.conns[t]);
    PendMoves(s, t);
    PendDetachedSame(s, t);
    UndecidingSound(cfg, s, OnPend(s, t, s.conns[t]), s.nextTid);
  }

  lemma LeaveUndecides(cfg: Config, s: State, t: Tok, a: Answer)
    requires t in s.conns && s.conns[t].pc == Leaving(true) && s.nextTid !in s.calls
    ensures Undeciding(s, OnResume(cfg, s, t, s.conns[t], a), s.nextTid)
  {
    OneMoves(s, OnResume(cfg, s, t, s.conns[t], a), t, s.conns[t].(pc := Removing(s.nextTid)));
  }

  lemma LeaveSound(cfg: Config, s: State, t: Tok, a: Answer)
    requires Sound(cfg, s) && t in s.conns && s.conns[t].pc == Leaving(true)
    ensures Sound(cfg, OnResume(cfg, s, t, s.conns[t], a))
  {
    ResumeInv(cfg, s, t, a);
    LeaveUndecides(cfg, s, t, a);
    UndecidingSound(cfg, s, OnResume(cfg, s, t, s.conns[t], a), s.nextTid);
  }

  lemma CancelUndecides(s: State, t: Tok)
    requires t in s.conns && s.nextTid !in s.calls
    ensures Undeciding(s, OnCancel(s, t, s.conns[t]), s.nextTid)
  {
  }

  lemma CancelSound(cfg: Config, s: State, t: Tok)
    requires Sound(cfg, s) && Enabled(s, Cancel(t))
    ensures Sound(cfg, OnCancel(s, t, s.conns[t]))
  {
    StepInv(cfg, s, Cancel(t));
    CancelUndecides(s, t);
    UndecidingSound(cfg, s, OnCancel(s, t, s.conns[t]), s.nextTid);
  }

  /** A request that is taken out for one decision. */
  lemma SelectUndecides(s: State, s': State, gid: Gid, id: Id, mode: Mode)
    requires TablesOk(s.tables) && Mapped(s.tables, gid) && s.nextTid !in s.calls && Silent(s.log, s'.log)
    requires s' == ResolveSelected(s, gid, id, mode).(log := s'.log)
    requires mode == Approving && id in s.tables.heap[gid].waiters ==> s.tables.heap[gid].waiters[id] in s'.log.granted
    ensures Undeciding(s, s', s.nextTid)
  {
    UnlistTables(s.tables, gid, id);
  }

  /** A group that is taken off the table as a whole. */
  lemma WholeUndecides(s: State, s': State, gid: Gid, mode: Mode)
    requires s.nextTid !in s.calls && Silent(s.log, s'.log) && s.approvedKeys <= s'.approvedKeys
    requires s' == s.(tables := s'.tables, calls := s.calls[s.nextTid := Closing(gid, mode)], nextTid := s.nextTid + 1,
                      approvedKeys := s'.approvedKeys, log := s'.log)
    requires s'.tables.heap.Keys == s.tables.heap.Keys && gid in s.tables.heap
    requires forall g | g in s.tables.heap :: s'.tables.heap[g].waiters == s.tables.heap[g].waiters
    requires mode == Approving ==> s.tables.heap[gid].waiters.Values <= s'.log.granted
    ensures Undeciding(s, s', s.nextTid)
  {
  }

  lemma ApproveSelects(cfg: Config, s: State, id: Id, scope: Option<Scope>, gid: Gid)
    requires TablesOk(s.tables) && s.nextTid !in s.calls && FindGroup(s.tables, id) == Some(gid)
        && scope != Some(OtherScope)
    requires (if scope.Some? then scope.value else cfg.defaultScope) != Capability
    ensures Undeciding(s, OnApprove(cfg, s, id, scope), s.nextTid)
  {
    FoundIsMapped(s.tables, id);
    SelectUndecides(s, OnApprove(cfg, s, id, scope), gid, id, Approving);
  }

  lemma ApproveWholes(cfg: Config, s: State, id: Id, scope: Option<Scope>, gid: Gid)
    requires TablesOk(s.tables) && s.nextTid !in s.calls && FindGroup(s.tables, id) == Some(gid)
        && scope != Some(OtherScope)
    requires (if scope.Some? then scope.value else cfg.defaultScope) == Capability
    ensures Undeciding(s, OnApprove(cfg, s, id, scope), s.nextTid)
  {
    var s', w := OnApprove(cfg, s, id, scope), s.tables.heap[gid].waiters;
    FoundIsMapped(s.tables, id);
    assert w.Values <= Tokens(w);
    WholeUndecides(s, s', gid, Approving);
  }

  lemma ApproveSound(cfg: Config, s: State, id: Id, scope: Option<Scope>)
    requires Sound(cfg, s)
    ensures Sound(cfg, OnApprove(cfg, s, id, scope))
  {
    ApproveInv(cfg, s, id, scope);
    if FindGroup(s.tables, id).Some? && scope != Some(OtherScope) {
      if (if scope.Some? then scope.value else cfg.defaultScope) == Capability {
        ApproveWholes(cfg, s, id, scope, FindGroup(s.tables, id).value);
      } else {
        ApproveSelects(cfg, s, id, scope, FindGroup(s.tables, id).value);
      }
      UndecidingSound(cfg, s, OnApprove(cfg, s, id, scope), s.nextTid);
    }
  }

  lemma DenySound(cfg: Config, s: State, id: Id)
    requires Sound(cfg, s)
    ensures Sound(cfg, OnDeny(s, id))
  {
    if FindGroup(s.tables, id).Some? {
      var gid := FindGroup(s.tables, id).value;
      FoundIsMapped(s.tables, id);
      SelectInv(s, gid, id, Denying);
      SelectUndecides(s, OnDeny(s, id), gid, id, Denying);
      UndecidingSound(cfg, s, OnDeny(s, id), s.nextTid);
    }
  }

  lemma StopUndecides(s: State, gid: Gid)
    requires gid in s.tables.heap && s.nextTid !in s.calls
    ensures Undeciding(s, s.(tables := StopTimer(s.tables, gid)), s.nextTid)
  {
  }

  lemma TimeoutWholes(s: State, gid: Gid, other: Gid)
    requires gid in s.tables.heap && GroupByKey(s.tables, s.tables.heap[gid].key) == Some(other)
    ensures var x := OnTimeout(s, gid).tables;
            x.heap.Keys == s.tables.heap.Keys
                && forall g | g in s.tables.heap :: x.heap[g].waiters == s.tables.heap[g].waiters
    ensures OnTimeout(s, gid) == s.(tables := OnTimeout(s, gid).tables, nextTid := s.nextTid + 1,
                                    calls := s.calls[s.nextTid := Closing(other, TimingOut)])
  {
  }

  lemma TimeoutUndecides(s: State, gid: Gid)
    requires gid in s.tables.heap && s.nextTid !in s.calls
    ensures Undeciding(s, OnTimeout(s, gid), s.nextTid)
  {
    var k := s.tables.heap[gid].key;
    if GroupByKey(s.tables, k).Some? {
      TimeoutWholes(s, gid, GroupByKey(s.tables, k).value);
      WholeUndecides(s, OnTimeout(s, gid), GroupByKey(s.tables, k).value, TimingOut);
    } else {
      StopUndecides(s, gid);
    }
  }

  lemma TimeoutSound(cfg: Config, s: State, gid: Gid)
    requires Sound(cfg, s) && Enabled(s, Timeout(gid))
    ensures Sound(cfg, OnTimeout(s, gid))
  {
    TimeoutInv(s, gid);
    TimeoutUndecides(s, gid);
    UndecidingSound(cfg, s, OnTimeout(s, gid), s.nextTid);
  }

  // ---------------------------------------------------------------- steps of running calls

  lemma RemoveBeginUndecides(s: State, k: Tid)
    requires TablesOk(s.tables) && k in s.calls && s.calls[k].at == RemoveBegin && GrantOk(s, s.calls[k])
    ensures Undeciding(s, OnRemoveBegin(s, k, s.calls[k]), k)
  {
    if FindGroup(s.tables, s.calls[k].id).Some? {
      FoundIsMapped(s.tables, s.calls[k].id);
      UnlistTables(s.tables, FindGroup(s.tables, s.calls[k].id).value, s.calls[k].id);
    }
  }

  lemma SettleEndUndecides(s: State, k: Tid, held: Option<Tok>)
    requires k in s.calls && s.calls[k].at !in {Replying, At.Running}
    ensures Undeciding(s, EndCall(Settle(s, held), k), k)
    ensures Undeciding(s, EndCall(s, k), k)
  {
  }

  lemma DropUndecides(s: State, k: Tid, gid: Gid, guarded: bool, at: At)
    requires k in s.calls && s.calls[k].at !in {Replying, At.Running} && gid in s.tables.heap && CallOk(s, s.calls[k])
    requires GrantOk(s, s.calls[k]) && at != RemoveBegin
    ensures Undeciding(s, SetCall(s.(tables := DropEmpty(s.tables, gid, guarded)), k, s.calls[k].(at := at)), k)
  {
    var s' := SetCall(s.(tables := DropEmpty(s.tables, gid, guarded)), k, s.calls[k].(at := at));
    GrantStays(s, s', s.calls[k]);
  }

  lemma OrderUndecides(s: State, k: Tid, ids: seq<Id>)
    requires k in s.calls && s.calls[k].at == GroupClose && GrantOk(s, s.calls[k])
    ensures Undeciding(s, SetCall(s, k, s.calls[k].(at := Loop, rest := ids)), k)
  {
  }

  lemma LoopUndecides(s: State, k: Tid)
    requires k in s.calls && s.calls[k].at == Loop && CallOk(s, s.calls[k]) && GrantOk(s, s.calls[k])
    ensures Undeciding(s, OnLoop(s, k, s.calls[k]), k)
  {
    var c := s.calls[k];
    if c.rest != [] { assert OnList(s, c.group.value, c.rest[0]); }
  }

  /** `finally` before any decision: the waiter was cancelled. */
  lemma AdvanceUndecides(s: State, k: Tid)
    requires k in s.calls && s.calls[k].at !in {Replying, At.Running} && GrantOk(s, s.calls[k])
    ensures Undeciding(s, Advance(s, k, s.calls[k]), k)
  {
  }

  // ---------------------------------------------------------------- steps that decide

  lemma WritesTokens(cfg: Config, s: State, s': State, t: Tok)
    requires LogOk(s.log) && TokensOk(cfg, s) && Known(s) && t in s.conns
    requires LogOk(s'.log) && Writes(s.log, s'.log, t) && s'.log.granted == s.log.granted
    requires s'.approvedKeys == s.approvedKeys && s'.conns.Keys == s.conns.Keys
    requires TokOk(cfg, s.approvedKeys, s'.log, t, s'.conns[t])
    requires forall u | u in s.conns && u != t :: s'.conns[u] == s.conns[u]
    ensures TokensOk(cfg, s') && Known(s')
  {
    forall u | u in s'.conns ensures TokOk(cfg, s'.approvedKeys, s'.log, u, s'.conns[u]) {
      if u != t {
        OtherTok(cfg, s.approvedKeys, s'.approvedKeys, s.log, s'.log, t, u, s.conns[u], s'.conns[u]);
      }
    }
  }

  lemma LocalQuiet(cfg: Config, cached: bool, t: Tok, c: Conn, log: Log, a: Answer)
    requires PcOk(c) && c.group.Some?
    ensures LocalStep(cfg, cached, t, c, log, a).1 == log
  {
  }

  lemma WritesOpens(s: State, s': State, t: Tok)
    requires OpensOk(s) && Writes(s.log, s'.log, t) && s'.calls == s.calls
    requires forall u | Open(s', u) :: Open(s, u) && (u == t ==> s'.log == s.log)
    ensures OpensOk(s')
  {
    forall u | Open(s', u) ensures Fresh(s'.log, u) || Concluding(s', u) {
      if !Fresh(s.log, u) {
        var l :| l in s.calls && Concludes(s.calls[l], u);
        assert Concludes(s'.calls[l], u);
      }
    }
  }

  lemma LocalSound(cfg: Config, s: State, t: Tok, a: Answer)
    requires Sound(cfg, s) && t in s.conns && !AtPend(s.conns[t]) && s.conns[t].pc != Leaving(true)
    ensures Sound(cfg, OnResume(cfg, s, t, s.conns[t], a))
  {
    var c, s' := s.conns[t], OnResume(cfg, s, t, s.conns[t], a);
    ResumeInv(cfg, s, t, a);
    LocalStepDecides(cfg, s.approvedKeys, t, c, s.log, a);
    LocalStepShape(cfg, c.key in s.approvedKeys, t, c, s.log, a);
    WritesTokens(cfg, s, s', t);
    if c.group.Some? { LocalQuiet(cfg, c.key in s.approvedKeys, t, c, s.log, a); }
    WritesOpens(s, s', t);
    CallsKeepGrants(s, s');
  }

  /** The waiter a call is about to decide on has no decision yet. */
  lemma HeldIsFresh(cfg: Config, s: State, k: Tid)
    requires Sound(cfg, s) && k in s.calls && s.calls[k].held.Some? && s.calls[k].at !in {Replying, At.Running}
    ensures Fresh(s.log, s.calls[k].held.value)
  {
    var t := s.calls[k].held.value;
    assert CallOk(s, s.calls[k]);
    assert forall l | l in s.calls && l != k :: Apart(s.calls[k], s.calls[l]);
  }

  /** The decision of a call: `allow` only with leave, and at most one. */
  lemma DecideDecides(cfg: Config, keys: set<Key>, c: Call, t: Tok, conn: Conn, log: Log, a: Answer)
    requires LogOk(log) && TokOk(cfg, keys, log, t, conn) && conn.group.Some? && PcOk(conn)
    requires c.at == Auditing ==> Fresh(log, t) && (c.mode == Approving ==> t in log.granted)
    ensures var (at, conn', log') := Decide(c, t, conn, log, a);
            LogOk(log') && Writes(log, log', t) && log'.granted == log.granted && TokOk(cfg, keys, log', t, conn')
  {
    if c.at == Auditing && !a.Throws? {
      var d := if c.mode == Approving then Allow else Deny;
      var r := if c.mode == Approving then ApprovedByUser else if c.mode == TimingOut then PromptTimeout
          else DeniedByUser;
      var audited := Audited(log, t, d, r);
      AuditWrites(log, t, d, r);
      UndecidedStands(cfg, keys, log, t, conn);
      assert forall e | e in audited.audit :: e in log.audit || e == AuditEntry(t, d, r);
      if c.mode == Approving && conn.life != Cancelled {
        StartWrites(audited, t);
      }
    }
  }

  lemma DecideTokens(cfg: Config, s: State, k: Tid, a: Answer)
    requires Sound(cfg, s) && k in s.calls && s.calls[k].held.Some?
    ensures var c := s.calls[k];
            && CallOk(s, c)
            && var (at, conn, log) := Decide(c, c.held.value, s.conns[c.held.value], s.log, a);
               var x := SetConn(s, c.held.value, conn).(log := log);
               LogOk(x.log) && Writes(s.log, x.log, c.held.value) && x.log.granted == s.log.granted
               && TokensOk(cfg, x) && Known(x)
  {
    var c := s.calls[k];
    assert CallOk(s, c) && GrantOk(s, c);
    if c.at == Auditing { HeldIsFresh(cfg, s, k); }
    DecideDecides(cfg, s.approvedKeys, c, c.held.value, s.conns[c.held.value], s.log, a);
    var (at, conn, log) := Decide(c, c.held.value, s.conns[c.held.value], s.log, a);
    WritesTokens(cfg, s, SetConn(s, c.held.value, conn).(log := log), c.held.value);
  }

  /** A call that has decided finishes the waiter or goes on with it. */
  lemma DecideOpens(cfg: Config, s: State, s': State, k: Tid)
    requires Sound(cfg, s) && k in s.calls && s.calls[k].held.Some? && Writes(s.log, s'.log, s.calls[k].held.value)
    requires forall u | Open(s', u) :: Open(s, u)
    requires forall l | l in s.calls && l != k :: l in s'.calls && s'.calls[l] == s.calls[l]
    requires var t := s.calls[k].held.value;
             Open(s', t) ==> Fresh(s'.log, t) || (k in s'.calls && Concludes(s'.calls[k], t))
    ensures OpensOk(s')
  {
    forall u | Open(s', u) ensures Fresh(s'.log, u) || Concluding(s', u) {
      if Concluding(s, u) && u != s.calls[k].held.value {
        var l :| l in s.calls && Concludes(s.calls[l], u);
        assert Concludes(s'.calls[l], u);
      }
    }
  }

  lemma SettleTokens(cfg: Config, x: State, t: Tok)
    requires LogOk(x.log) && TokensOk(cfg, x) && Known(x)
    ensures TokensOk(cfg, Settle(x, Some(t))) && Known(Settle(x, Some(t)))
  {
    MovesTokens(cfg, x, Settle(x, Some(t)));
  }

  /** What `OnDecide` leaves of the other calls. */
  lemma DecideFrame(s: State, k: Tid, a: Answer, l: Tid)
    requires k in s.calls && s.calls[k].held.Some? && s.calls[k].held.value in s.conns && l != k
    ensures var s' := OnDecide(s, k, s.calls[k], a);
            && s'.tables == s.tables && s'.approvedKeys == s.approvedKeys && s'.log.granted == s.log.granted
            && (l in s'.calls <==> l in s.calls) && (l in s.calls ==> s'.calls[l] == s.calls[l])
  {
  }

  lemma DecideOpenStays(s: State, k: Tid, a: Answer, u: Tok)
    requires k in s.calls && s.calls[k].held.Some? && s.calls[k].held.value in s.conns
    ensures Open(OnDecide(s, k, s.calls[k], a), u) ==> Open(s, u)
  {
  }

  /** What becomes of its own waiter: it is settled, undecided, or about to be finished. */
  lemma DecideOwn(s: State, k: Tid, a: Answer)
    requires k in s.calls && s.calls[k].held.Some? && s.calls[k].held.value in s.conns && GrantOk(s, s.calls[k])
    requires s.calls[k].at in {Entry, EntryClose, Auditing} ==> Fresh(s.log, s.calls[k].held.value)
    requires s.calls[k].at in {Entry, EntryClose, Auditing, Replying, At.Running}
    ensures var s', t := OnDecide(s, k, s.calls[k], a), s.calls[k].held.value;
            && (Open(s', t) ==> Fresh(s'.log, t) || (k in s'.calls && Concludes(s'.calls[k], t)))
            && (k in s'.calls ==> GrantOk(s', s'.calls[k]))
  {
  }

  lemma DecideHeldTokens(cfg: Config, s: State, k: Tid, a: Answer)
    requires Sound(cfg, s) && k in s.calls && s.calls[k].held.Some?
    requires s.calls[k].held.value in s.conns
    ensures var s' := OnDecide(s, k, s.calls[k], a);
            LogOk(s'.log) && TokensOk(cfg, s') && Known(s') && Writes(s.log, s'.log, s.calls[k].held.value)
  {
    var c := s.calls[k];
    DecideTokens(cfg, s, k, a);
    var (at, conn, log) := Decide(c, c.held.value, s.conns[c.held.value], s.log, a);
    SettleTokens(cfg, SetConn(s, c.held.value, conn).(log := log), c.held.value);
  }

  lemma DecideHeldSound(cfg: Config, s: State, k: Tid, a: Answer)
    requires Sound(cfg, s) && k in s.calls && s.calls[k].at in {Entry, EntryClose, Auditing, Replying, At.Running}
    requires s.calls[k].held.Some? && s.calls[k].held.value in s.conns
    ensures Sound(cfg, OnDecide(s, k, s.calls[k], a))
  {
    var s' := OnDecide(s, k, s.calls[k], a);
    DecideInv(s, k, a);
    DecideHeldTokens(cfg, s, k, a);
    if s.calls[k].at !in {Replying, At.Running} { HeldIsFresh(cfg, s, k); }
    DecideOwn(s, k, a);
    forall l | l != k ensures (l in s'.calls <==> l in s.calls) && (l in s.calls ==> s'.calls[l] == s.calls[l]) {
      DecideFrame(s, k, a, l);
    }
    DecideFrame(s, k, a, k + 1);
    forall u | Open(s', u) ensures Open(s, u) { DecideOpenStays(s, k, a, u); }
    DecideOpens(cfg, s, s', k);
    CallsKeepGrants(s, s');
  }

  lemma DecideSound(cfg: Config, s: State, k: Tid, a: Answer)
    requires Sound(cfg, s) && k in s.calls && s.calls[k].at in {Entry, EntryClose, Auditing, Replying, At.Running}
    ensures Sound(cfg, OnDecide(s, k, s.calls[k], a))
  {
    assert CallOk(s, s.calls[k]);
    if s.calls[k].held.None? {
      DecideInv(s, k, a);
      AdvanceUndecides(s, k);
      UndecidingSound(cfg, s, OnDecide(s, k, s.calls[k], a), k);
    } else {
      DecideHeldSound(cfg, s, k, a);
    }
  }

  lemma EntrySound(cfg: Config, s: State, k: Tid, a: Answer)
    requires Sound(cfg, s) && k in s.calls && s.calls[k].at == Entry
    ensures Sound(cfg, OnEntry(cfg, s, k, s.calls[k], a))
  {
    var c, s' := s.calls[k], OnEntry(cfg, s, k, s.calls[k], a);
    EntryInv(cfg, s, k, a);
    assert CallOk(s, c) && GrantOk(s, c);
    if a.Throws? {
      SettleEndUndecides(s, k, None);
      UndecidingSound(cfg, s, s', k);
    } else if !c.whole && RanEmpty(s.tables, c.group) {
      DropUndecides(s, k, c.group.value, cfg.guarded, EntryClose);
      UndecidingSound(cfg, s, s', k);
    } else {
      DecideSound(cfg, s, k, a);
    }
  }

  lemma RemoveEntrySound(cfg: Config, s: State, k: Tid, a: Answer)
    requires Sound(cfg, s) && k in s.calls && s.calls[k].at == RemoveEntry
    ensures Sound(cfg, OnRemoveEntry(s, k, s.calls[k], a))
  {
    var c, s' := s.calls[k], OnRemoveEntry(s, k, s.calls[k], a);
    RemoveEntryInv(s, k, a);
    assert CallOk(s, c) && GrantOk(s, c);
    if !a.Throws? && RanEmpty(s.tables, c.group) {
      DropUndecides(s, k, c.group.value, true, RemoveClose);
    } else {
      SettleEndUndecides(s, k, c.held);
    }
    UndecidingSound(cfg, s, s', k);
  }

  lemma WorkSound(cfg: Config, s: State, k: Tid, a: Answer)
    requires Sound(cfg, s) && Enabled(s, Work(k, a))
    ensures Sound(cfg, OnWork(cfg, s, k, s.calls[k], a))
  {
    var c, s' := s.calls[k], OnWork(cfg, s, k, s.calls[k], a);
    WorkInv(cfg, s, k, a);
    assert CallOk(s, c) && GrantOk(s, c);
    match c.at
    case RemoveBegin =>
      RemoveBeginUndecides(s, k);
      UndecidingSound(cfg, s, s', k);
    case RemoveEntry => RemoveEntrySound(cfg, s, k, a);
    case RemoveClose =>
      SettleEndUndecides(s, k, c.held);
      UndecidingSound(cfg, s, s', k);
    case GroupClose =>
      OrderUndecides(s, k, a.ids);
      UndecidingSound(cfg, s, s', k);
    case Loop =>
      LoopUndecides(s, k);
      UndecidingSound(cfg, s, s', k);
    case Entry => EntrySound(cfg, s, k, a);
    case _ => DecideSound(cfg, s, k, a);
  }

  lemma StepSound(cfg: Config, s: State, e: Event)
    requires Sound(cfg, s) && Enabled(s, e)
    ensures Sound(cfg, Step(cfg, s, e))
  {
    match e
    case Arrive(id) => ArriveSound(cfg, s, id);
    case Resume(t, a) =>
      if AtPend(s.conns[t]) {
        PendSound(cfg, s, t);
      } else if s.conns[t].pc == Leaving(true) {
        LeaveSound(cfg, s, t, a);
      } else {
        LocalSound(cfg, s, t, a);
      }
    case Cancel(t) => CancelSound(cfg, s, t);
    case Approve(id, scope) => ApproveSound(cfg, s, id, scope);
    case DenyRequest(id) => DenySound(cfg, s, id);
    case Timeout(gid) => TimeoutSound(cfg, s, gid);
    case Work(k, a) => WorkSound(cfg, s, k, a);
  }

  // ---------------------------------------------------------------- runs

  lemma {:induction false} RunSound(cfg: Config, ss: seq<State>, es: seq<Event>, i: nat)
    requires IsRun(cfg, ss, es) && i < |ss|
    ensures Sound(cfg, ss[i])
  {
    if i > 0 {
      RunSound(cfg, ss, es, i - 1);
      StepSound(cfg, ss[i - 1], es[i - 1]);
    }
  }

  /** A connection whose command was started has exactly one decision on record, an
      allow: its rule allows and integrity passed; or its key was approved for the
      session, prompting is enabled and integrity passed; or a user's approval named it.
      A denied request is therefore never started. */
  lemma StartsOnlyWhenAllowed(cfg: Config, ss: seq<State>, es: seq<Event>, i: nat, t: Tok)
    requires IsRun(cfg, ss, es) && i < |ss| && t in ss[i].log.started
    ensures t in ss[i].conns
    ensures exists e | e in ss[i].log.audit :: e.tok == t
    ensures forall e | e in ss[i].log.audit && e.tok == t ::
              && e.decision == Allow
              && (|| (e.reason == RuleAllow && ss[i].conns[t].pass && ss[i].conns[t].approval == RuleAllows)
                  || (e.reason == ApprovedCached && ss[i].conns[t].pass && cfg.promptEnable
                      && ss[i].conns[t].key in ss[i].approvedKeys)
                  || (e.reason == ApprovedByUser && t in ss[i].log.granted))
  {
    RunSound(cfg, ss, es, i);
    var s := ss[i];
    assert Decided(s.log, t, Allow);
    var x :| x in s.log.audit && x.tok == t && x.decision == Allow;
    assert TokOk(cfg, s.approvedKeys, s.log, t, s.conns[t]);
    forall e | e in s.log.audit && e.tok == t ensures e == x {
      var i :| 0 <= i < |s.log.audit| && s.log.audit[i] == e;
      var j :| 0 <= j < |s.log.audit| && s.log.audit[j] == x;
      assert i == j;
    }
    assert EntryStands(cfg, s.approvedKeys, s.log.granted, t, s.conns[t], x);
  }

  /** Every allow on record is justified in one of these ways, started or not. */
  lemma EveryAllowIsJustified(cfg: Config, ss: seq<State>, es: seq<Event>, i: nat, e: AuditEntry)
    requires IsRun(cfg, ss, es) && i < |ss| && e in ss[i].log.audit && e.decision == Allow
    ensures e.tok in ss[i].conns
    ensures || (e.reason == RuleAllow && ss[i].conns[e.tok].pass && ss[i].conns[e.tok].approval == RuleAllows)
            || (e.reason == ApprovedCached && ss[i].conns[e.tok].pass && cfg.promptEnable
                && ss[i].conns[e.tok].key in ss[i].approvedKeys)
            || (e.reason == ApprovedByUser && e.tok in ss[i].log.granted)
  {
    RunSound(cfg, ss, es, i);
    assert TokOk(cfg, ss[i].approvedKeys, ss[i].log, e.tok, ss[i].conns[e.tok]);
    assert EntryStands(cfg, ss[i].approvedKeys, ss[i].log.granted, e.tok, ss[i].conns[e.tok], e);
  }

  /** No connection gets two decisions, and none is started twice. */
  lemma OneDecisionOneStart(cfg: Config, ss: seq<State>, es: seq<Event>, i: nat, m: nat, n: nat)
    requires IsRun(cfg, ss, es) && i < |ss| && m < n
    ensures n < |ss[i].log.audit| ==> ss[i].log.audit[m].tok != ss[i].log.audit[n].tok
    ensures n < |ss[i].log.started| ==> ss[i].log.started[m] != ss[i].log.started[n]
  {
    RunSound(cfg, ss, es, i);
  }

  // ---------------------------------------------------------------- cancellation

  predicate AtStart(c: Conn) {
    c.pc.Ops? && c.pc.ops != [] && c.pc.ops[0] == Start
  }

  /** Cancelled, not started, and not past its last check. */
  predicate Withdrawn(s: State, t: Tok) {
    t in s.conns && s.conns[t].life == Cancelled && t !in s.log.started && !AtStart(s.conns[t])
  }

  lemma LocalOpWithdrawn(cfg: Config, keys: set<Key>, t: Tok, c: Conn, log: Log, a: Answer)
    requires PathOk(cfg, keys, log, t, c) && c.pc.Ops? && c.pc.ops != [] && c.life == Cancelled && !AtStart(c)
    ensures var (c', log') := LocalOp(cfg, c.key in keys, t, c, log, a, c.pc.ops[0], c.pc.ops[1..]);
            c'.life == Cancelled && !AtStart(c') && log'.started == log.started
  {
    if c.pc.ops[0] == Verdict {
      assert forall x :: PathAfterVerdict(cfg, c.key in keys, c.approval, x)[0] == Check;
    }
  }

  lemma LocalWithdrawn(cfg: Config, keys: set<Key>, t: Tok, c: Conn, log: Log, a: Answer)
    requires PathOk(cfg, keys, log, t, c) && !AtPend(c) && c.life == Cancelled && !AtStart(c)
    ensures var (c', log') := LocalStep(cfg, c.key in keys, t, c, log, a);
            c'.life == Cancelled && !AtStart(c') && log'.started == log.started
  {
    if c.pc.Ops? && c.pc.ops != [] { LocalOpWithdrawn(cfg, keys, t, c, log, a); }
  }

  lemma LocalStartsItself(cfg: Config, cached: bool, t: Tok, c: Conn, log: Log, a: Answer, u: Tok)
    requires u != t
    ensures u in LocalStep(cfg, cached, t, c, log, a).1.started <==> u in log.started
  {
    if c.pc.Ops? && c.pc.ops != [] {
      assert u in LocalOp(cfg, cached, t, c, log, a, c.pc.ops[0], c.pc.ops[1..]).1.started <==> u in log.started;
    }
  }

  lemma ResumeWithdrawn(cfg: Config, s: State, t: Tok, a: Answer, u: Tok)
    requires t in s.conns && Withdrawn(s, u) && PathOk(cfg, s.approvedKeys, s.log, t, s.conns[t])
    ensures Withdrawn(OnResume(cfg, s, t, s.conns[t], a), u)
  {
    var c := s.conns[t];
    if !AtPend(c) && c.pc != Leaving(true) {
      if u == t {
        LocalWithdrawn(cfg, s.approvedKeys, t, c, s.log, a);
      } else {
        LocalStartsItself(cfg, c.key in s.approvedKeys, t, c, s.log, a, u);
      }
    }
  }

  lemma DecideWithdrawn(s: State, k: Tid, c: Call, a: Answer, u: Tok)
    requires Withdrawn(s, u)
    ensures Withdrawn(OnDecide(s, k, c, a), u)
  {
  }

  lemma SettleWithdrawn(s: State, k: Tid, held: Option<Tok>, u: Tok)
    requires Withdrawn(s, u)
    ensures Withdrawn(EndCall(Settle(s, held), k), u)
  {
  }

  lemma WorkWithdrawn(cfg: Config, s: State, k: Tid, a: Answer, u: Tok)
    requires k in s.calls && Withdrawn(s, u)
    ensures Withdrawn(OnWork(cfg, s, k, s.calls[k], a), u)
  {
    var c := s.calls[k];
    match c.at
    case RemoveBegin =>
    case RemoveEntry => SettleWithdrawn(s, k, c.held, u);
    case RemoveClose => SettleWithdrawn(s, k, c.held, u);
    case GroupClose =>
    case Loop =>
    case _ => DecideWithdrawn(s, k, c, a, u);
  }

  lemma StepWithdrawn(cfg: Config, s: State, e: Event, u: Tok)
    requires Sound(cfg, s) && Enabled(s, e) && Withdrawn(s, u)
    ensures Withdrawn(Step(cfg, s, e), u)
  {
    match e
    case Arrive(_) => assert u < s.nextTok;
    case Cancel(_) =>
    case Resume(t, a) =>
      assert TokOk(cfg, s.approvedKeys, s.log, t, s.conns[t]);
      ResumeWithdrawn(cfg, s, t, a, u);
    case Approve(_, _) =>
    case DenyRequest(_) =>
    case Timeout(_) =>
    case Work(k, a) => WorkWithdrawn(cfg, s, k, a, u);
  }

  /** A connection that is cancelled before its last cancellation check never starts. */
  lemma {:induction false} CancelledNeverStarts(cfg: Config, ss: seq<State>, es: seq<Event>, i: nat, j: nat, t: Tok)
    requires IsRun(cfg, ss, es) && i <= j < |ss|
    requires t in ss[i].conns && ss[i].conns[t].life == Cancelled && t !in ss[i].log.started && !AtStart(ss[i].conns[t])
    ensures t !in ss[j].log.started && Withdrawn(ss[j], t)
  {
    if i < j {
      CancelledNeverStarts(cfg, ss, es, i, j - 1, t);
      RunSound(cfg, ss, es, j - 1);
      StepWithdrawn(cfg, ss[j - 1], es[j - 1], t);
    }
  }
}
