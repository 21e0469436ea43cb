/** Where the leave to start comes from: every key in `approvedKeys`, every granted waiter and
    every allow on record goes back to the events that gave it. */
module BrokerGrants {
  import opened Wrappers
  import opened Broker
  import opened BrokerTables
  import opened BrokerDecisions
  import opened BrokerProgress

  // ---------------------------------------------------------------- approvals by the user

  /** A user approves, in a scope that is allowed, a request of a registered group. */
  predicate ApprovesIn(s: State, e: Event, gid: Gid) {
    e.Approve? && e.scope != Some(OtherScope) && FindGroup(s.tables, e.id) == Some(gid) && gid in s.tables.heap
  }

  /** ... for the session, so that later requests of the key need no asking. */
  predicate ApprovesKey(cfg: Config, s: State, e: Event, k: Key) {
    && e.Approve? && FindGroup(s.tables, e.id).Some?
    && ApprovesIn(s, e, FindGroup(s.tables, e.id).value)
    && ScopeOf(cfg, e.scope) == Capability && s.tables.heap[FindGroup(s.tables, e.id).value].key == k
  }

  /** ... which names the waiter: with its whole group, or under its own id. */
  predicate ApprovesWaiter(cfg: Config, s: State, e: Event, t: Tok) {
    && e.Approve? && FindGroup(s.tables, e.id).Some?
    && ApprovesIn(s, e, FindGroup(s.tables, e.id).value)
    && var w := s.tables.heap[FindGroup(s.tables, e.id).value].waiters;
       if ScopeOf(cfg, e.scope) == Capability then t in w.Values else e.id in w && w[e.id] == t
  }

  lemma LocalGrants(cfg: Config, cached: bool, t: Tok, c: Conn, log: Log, a: Answer)
    ensures LocalStep(cfg, cached, t, c, log, a).1.granted == log.granted
  {
    if c.pc.Ops? && c.pc.ops != [] {
      assert LocalOp(cfg, cached, t, c, log, a, c.pc.ops[0], c.pc.ops[1..]).1.granted == log.granted;
    }
  }

  lemma ResumeGrants(cfg: Config, s: State, t: Tok, a: Answer)
    requires t in s.conns
    ensures var z := OnResume(cfg, s, t, s.conns[t], a);
            z.approvedKeys == s.approvedKeys && z.log.granted == s.log.granted
  {
    LocalGrants(cfg, s.conns[t].key in s.approvedKeys, t, s.conns[t], s.log, a);
  }

  lemma DecideGrants(s: State, k: Tid, c: Call, a: Answer)
    ensures var z := OnDecide(s, k, c, a); z.approvedKeys == s.approvedKeys && z.log.granted == s.log.granted
  {
  }

  lemma WorkGrants(cfg: Config, s: State, k: Tid, a: Answer)
    requires k in s.calls
    ensures var z := OnWork(cfg, s, k, s.calls[k], a);
            z.approvedKeys == s.approvedKeys && z.log.granted == s.log.granted
  {
    match s.calls[k].at
    case RemoveBegin =>
    case RemoveEntry =>
    case RemoveClose =>
    case GroupClose =>
    case Loop =>
    case _ => DecideGrants(s, k, s.calls[k], a);
  }

  lemma ApproveGrants(cfg: Config, s: State, id: Id, scope: Option<Scope>)
    ensures var z, e := OnApprove(cfg, s, id, scope), Approve(id, scope);
            && (forall k :: k in z.approvedKeys <==> k in s.approvedKeys || ApprovesKey(cfg, s, e, k))
            && (forall t :: t in z.log.granted <==> t in s.log.granted || ApprovesWaiter(cfg, s, e, t))
  {
  }

  lemma StepGrants(cfg: Config, s: State, e: Event)
    requires Enabled(s, e)
    ensures forall k :: k in Step(cfg, s, e).approvedKeys <==> k in s.approvedKeys || ApprovesKey(cfg, s, e, k)
    ensures forall t :: t in Step(cfg, s, e).log.granted <==> t in s.log.granted || ApprovesWaiter(cfg, s, e, t)
  {
    match e
    case Arrive(_) =>
    case Cancel(_) =>
    case Resume(t, a) => ResumeGrants(cfg, s, t, a);
    case Approve(id, scope) => ApproveGrants(cfg, s, id, scope);
    case DenyRequest(_) =>
    case Timeout(_) =>
    case Work(k, a) => WorkGrants(cfg, s, k, a);
  }

  /** In every run a key is approved if and only if a user has approved, for the session, a
      request of a group that was registered with that key. Nothing else adds a key, and
      nothing takes one away. */
  lemma {:induction false} KeysAreApproved(cfg: Config, ss: seq<State>, es: seq<Event>, i: nat, k: Key)
    requires IsRun(cfg, ss, es) && i < |ss|
    ensures k in ss[i].approvedKeys <==> exists j | 0 <= j < i :: ApprovesKey(cfg, ss[j], es[j], k)
  {
    if i > 0 {
      KeysAreApproved(cfg, ss, es, i - 1, k);
      StepGrants(cfg, ss[i - 1], es[i - 1]);
    }
  }

  /** And a waiter has leave by the user if and only if such an approval named it. */
  lemma {:induction false} WaitersAreNamed(cfg: Config, ss: seq<State>, es: seq<Event>, i: nat, t: Tok)
    requires IsRun(cfg, ss, es) && i < |ss|
    ensures t in ss[i].log.granted <==> exists j | 0 <= j < i :: ApprovesWaiter(cfg, ss[j], es[j], t)
  {
    if i > 0 {
      WaitersAreNamed(cfg, ss, es, i - 1, t);
      StepGrants(cfg, ss[i - 1], es[i - 1]);
    }
  }

  // ---------------------------------------------------------------- rules and integrity

  /** A rule is found for the connection. */
  predicate FindsRule(s: State, e: Event, t: Tok, approval: Approval, key: Key) {
    e == Resume(t, RuleFound(approval, key)) && t in s.conns && s.conns[t].pc == Resolving
  }

  predicate AtVerdict(c: Conn) {
    c.pc.Ops? && c.pc.ops != [] && c.pc.ops[0] == Verdict
  }

  /** The integrity of its target is confirmed. */
  predicate PassesIntegrity(s: State, e: Event, t: Tok) {
    e == Resume(t, Integrity(true)) && t in s.conns && AtVerdict(s.conns[t])
  }

  predicate SamePlace(c: Conn, c': Conn) {
    c'.pc == c.pc && c'.pass == c.pass && c'.approval == c.approval && c'.key == c.key
  }

  lemma DecidePlaces(s: State, k: Tid, c: Call, a: Answer, t: Tok)
    requires t in s.conns
    ensures var z := OnDecide(s, k, c, a); t in z.conns && SamePlace(s.conns[t], z.conns[t])
  {
    if c.held == Some(t) {
      var (at, conn, log) := Decide(c, t, s.conns[t], s.log, a);
      var x := SetConn(s, t, conn).(log := log);
      AdvancePlaces(x, k, c, t);
    } else {
      DecideLeaves(s, k, c, a, t);
    }
  }

  lemma AdvancePlaces(s: State, k: Tid, c: Call, t: Tok)
    requires t in s.conns
    ensures t in Advance(s, k, c).conns && SamePlace(s.conns[t], Advance(s, k, c).conns[t])
  {
  }

  lemma WorkPlaces(cfg: Config, s: State, k: Tid, a: Answer, t: Tok)
    requires k in s.calls && t in s.conns
    ensures var z := OnWork(cfg, s, k, s.calls[k], a); t in z.conns && SamePlace(s.conns[t], z.conns[t])
  {
    match s.calls[k].at
    case RemoveBegin =>
    case RemoveEntry =>
    case RemoveClose =>
    case GroupClose =>
    case Loop =>
    case _ => DecidePlaces(s, k, s.calls[k], a, t);
  }

  /** Only its own steps move a connection on. */
  lemma StepPlaces(cfg: Config, s: State, e: Event, t: Tok)
    requires Inv(s) && Enabled(s, e) && t in s.conns && !(e.Resume? && e.tok == t)
    ensures t in Step(cfg, s, e).conns && SamePlace(s.conns[t], Step(cfg, s, e).conns[t])
  {
    match e
    case Work(k, a) => WorkPlaces(cfg, s, k, a, t);
    case Cancel(_) =>
    case _ => StepLeaves(cfg, s, e, t);
  }

  predicate SameRule(c: Conn, d: Conn) {
    d.approval == c.approval && d.key == c.key
  }

  predicate AwaitsVerdict(c: Conn) {
    c.pc.Ops? && Verdict in c.pc.ops
  }

  lemma LocalOpRests(cfg: Config, cached: bool, t: Tok, c: Conn, log: Log, a: Answer, op: Op, ops: seq<Op>)
    requires c.pc == Ops([op] + ops)
    ensures var d := LocalOp(cfg, cached, t, c, log, a, op, ops).0;
            && SameRule(c, d) && d.pc != Resolving
            && (AwaitsVerdict(d) ==> AwaitsVerdict(c))
            && (d.pass ==> c.pass || (a == Integrity(true) && op == Verdict))
  {
    assert ([op] + ops)[0] == op && forall x | x in ops :: x in [op] + ops;
  }

  /** What a step of its own changes of what the connection rests on. */
  lemma LocalRests(cfg: Config, cached: bool, t: Tok, c: Conn, log: Log, a: Answer)
    requires c.pc == Resolving ==> !c.pass
    ensures var d := LocalStep(cfg, cached, t, c, log, a).0;
            && d.pc != Resolving
            && (AwaitsVerdict(d) ==>
                  if c.pc == Resolving then a == RuleFound(d.approval, d.key) else AwaitsVerdict(c) && SameRule(c, d))
            && (d.pass ==> SameRule(c, d) && (c.pass || (a == Integrity(true) && AtVerdict(c))))
  {
    if c.pc.Ops? && c.pc.ops != [] {
      assert c.pc.ops == [c.pc.ops[0]] + c.pc.ops[1..];
      LocalOpRests(cfg, cached, t, c, log, a, c.pc.ops[0], c.pc.ops[1..]);
    }
  }

  /** What the locals of a connection rest on. */
  ghost predicate Founded(ss: seq<State>, es: seq<Event>, i: nat, t: Tok, c: Conn)
    requires i <= |ss| && i <= |es|
  {
    && (c.pc == Resolving ==> !c.pass)
    && (AwaitsVerdict(c) ==> RuleWasFound(ss, es, i, t, c))
    && (c.pass ==> RuleAndIntegrity(ss, es, i, t, c.approval, c.key))
  }

  ghost predicate RuleWasFound(ss: seq<State>, es: seq<Event>, i: nat, t: Tok, c: Conn)
    requires i <= |ss| && i <= |es|
  {
    exists m | 0 <= m < i :: FindsRule(ss[m], es[m], t, c.approval, c.key)
  }

  /** The rule was found, and then the integrity of its target was confirmed. */
  ghost predicate RuleAndIntegrity(ss: seq<State>, es: seq<Event>, i: nat, t: Tok, approval: Approval, key: Key)
    requires i <= |ss| && i <= |es|
  {
    exists m, n | 0 <= m < n < i :: FindsRule(ss[m], es[m], t, approval, key) && PassesIntegrity(ss[n], es[n], t)
  }

  lemma FoundedLater(ss: seq<State>, es: seq<Event>, i: nat, t: Tok, c: Conn, d: Conn)
    requires i < |ss| && i < |es| && Founded(ss, es, i, t, c) && SamePlace(c, d)
    ensures Founded(ss, es, i + 1, t, d)
  {
  }

  lemma OwnFounded(cfg: Config, ss: seq<State>, es: seq<Event>, i: nat, t: Tok, a: Answer)
    requires i < |ss| && i < |es| && es[i] == Resume(t, a) && t in ss[i].conns
    requires Founded(ss, es, i, t, ss[i].conns[t]) && !AtPend(ss[i].conns[t]) && ss[i].conns[t].pc != Leaving(true)
    ensures Founded(ss, es, i + 1, t,
              LocalStep(cfg, ss[i].conns[t].key in ss[i].approvedKeys, t, ss[i].conns[t], ss[i].log, a).0)
  {
    var c := ss[i].conns[t];
    var d := LocalStep(cfg, c.key in ss[i].approvedKeys, t, c, ss[i].log, a).0;
    LocalRests(cfg, c.key in ss[i].approvedKeys, t, c, ss[i].log, a);
    if AwaitsVerdict(d) && c.pc == Resolving { assert FindsRule(ss[i], es[i], t, d.approval, d.key); }
    if d.pass && !c.pass {
      var m :| 0 <= m < i && FindsRule(ss[m], es[m], t, c.approval, c.key);
      assert PassesIntegrity(ss[i], es[i], t);
    }
  }

  lemma PendPlaces(s: State, t: Tok)
    requires t in s.conns && AtPend(s.conns[t])
    ensures var z := OnPend(s, t, s.conns[t]);
            t in z.conns && !z.conns[t].pc.Ops? && z.conns[t].pc != Resolving
            && z.conns[t].pass == s.conns[t].pass && SameRule(s.conns[t], z.conns[t])
  {
  }

  lemma ResumeFounded(cfg: Config, ss: seq<State>, es: seq<Event>, i: nat, t: Tok, a: Answer)
    requires i < |ss| && i < |es| && es[i] == Resume(t, a) && t in ss[i].conns && Founded(ss, es, i, t, ss[i].conns[t])
    ensures var z := OnResume(cfg, ss[i], t, ss[i].conns[t], a); t in z.conns && Founded(ss, es, i + 1, t, z.conns[t])
  {
    var c := ss[i].conns[t];
    if AtPend(c) {
      PendPlaces(ss[i], t);
    } else if c.pc != Leaving(true) {
      OwnFounded(cfg, ss, es, i, t, a);
    }
  }

  /** The step `i` of the run, taken by the connection itself. */
  lemma OwnStepFounded(cfg: Config, ss: seq<State>, es: seq<Event>, i: nat, t: Tok, a: Answer)
    requires IsRun(cfg, ss, es) && i < |es| && es[i] == Resume(t, a) && t in ss[i].conns
    requires Founded(ss, es, i, t, ss[i].conns[t]) && t in ss[i + 1].conns
    ensures Founded(ss, es, i + 1, t, ss[i + 1].conns[t])
  {
    assert ss[i + 1] == OnResume(cfg, ss[i], t, ss[i].conns[t], a);
    ResumeFounded(cfg, ss, es, i, t, a);
  }

  lemma OtherStepFounded(cfg: Config, ss: seq<State>, es: seq<Event>, i: nat, t: Tok)
    requires IsRun(cfg, ss, es) && i < |es| && Inv(ss[i]) && !(es[i].Resume? && es[i].tok == t) && t in ss[i].conns
    requires Founded(ss, es, i, t, ss[i].conns[t]) && t in ss[i + 1].conns
    ensures Founded(ss, es, i + 1, t, ss[i + 1].conns[t])
  {
    StepPlaces(cfg, ss[i], es[i], t);
    FoundedLater(ss, es, i, t, ss[i].conns[t], ss[i + 1].conns[t]);
  }

  lemma NewIsFounded(cfg: Config, ss: seq<State>, es: seq<Event>, i: nat, t: Tok)
    requires IsRun(cfg, ss, es) && i < |es| && Inv(ss[i]) && t !in ss[i].conns && t in ss[i + 1].conns
    ensures Founded(ss, es, i + 1, t, ss[i + 1].conns[t])
  {
    OnlyArrivalsAdd(cfg, ss[i], es[i], t);
  }

  lemma {:induction false} RunFounded(cfg: Config, ss: seq<State>, es: seq<Event>, i: nat, t: Tok)
    requires IsRun(cfg, ss, es) && i < |ss| && t in ss[i].conns
    ensures Founded(ss, es, i, t, ss[i].conns[t])
  {
    if i > 0 {
      RunInv(cfg, ss, es, i - 1);
      if t !in ss[i - 1].conns {
        NewIsFounded(cfg, ss, es, i - 1, t);
      } else {
        RunFounded(cfg, ss, es, i - 1, t);
        if es[i - 1].Resume? && es[i - 1].tok == t {
          OwnStepFounded(cfg, ss, es, i - 1, t, es[i - 1].answer);
        } else {
          OtherStepFounded(cfg, ss, es, i - 1, t);
        }
      }
    }
  }

  lemma OnlyArrivalsAdd(cfg: Config, s: State, e: Event, t: Tok)
    requires Inv(s) && Enabled(s, e) && t !in s.conns && t in Step(cfg, s, e).conns
    ensures Step(cfg, s, e).conns[t].pc == Resolving && !Step(cfg, s, e).conns[t].pass
  {
    if e.Work? { WorkAddsNone(cfg, s, e.tid, e.answer, t); }
  }

  lemma WorkAddsNone(cfg: Config, s: State, k: Tid, a: Answer, t: Tok)
    requires k in s.calls && t !in s.conns
    ensures t !in OnWork(cfg, s, k, s.calls[k], a).conns
  {
    match s.calls[k].at
    case RemoveBegin =>
    case RemoveEntry =>
    case RemoveClose =>
    case GroupClose =>
    case Loop =>
    case _ => DecideAddsNone(s, k, s.calls[k], a, t);
  }

  lemma DecideAddsNone(s: State, k: Tid, c: Call, a: Answer, t: Tok)
    requires t !in s.conns
    ensures t !in OnDecide(s, k, c, a).conns
  {
  }

  // ---------------------------------------------------------------- every allow

  /** The events before state `i` that justify an allow of `t` for the reason `r`. */
  ghost predicate HasLeave(cfg: Config, ss: seq<State>, es: seq<Event>, i: nat, t: Tok, r: Reason)
    requires i <= |ss| && i <= |es|
  {
    match r
    case RuleAllow => exists key :: RuleAndIntegrity(ss, es, i, t, RuleAllows, key)
    case ApprovedCached =>
      cfg.promptEnable
      && exists approval, key, j | 0 <= j < i ::
           RuleAndIntegrity(ss, es, i, t, approval, key) && ApprovesKey(cfg, ss[j], es[j], key)
    case ApprovedByUser => exists j | 0 <= j < i :: ApprovesWaiter(cfg, ss[j], es[j], t)
    case _ => false
  }

  /** Every allow on record goes back to events before it: the rule of the request was found
      and allows, and then its integrity was confirmed; or it was confirmed for a rule whose
      key a user had approved for the session while prompting is enabled; or a user's
      approval named the waiter. */
  lemma EveryAllowHasLeave(cfg: Config, ss: seq<State>, es: seq<Event>, i: nat, e: AuditEntry)
    requires IsRun(cfg, ss, es) && i < |ss| && e in ss[i].log.audit && e.decision == Allow
    ensures HasLeave(cfg, ss, es, i, e.tok, e.reason)
  {
    EveryAllowIsJustified(cfg, ss, es, i, e);
    RunFounded(cfg, ss, es, i, e.tok);
    var c := ss[i].conns[e.tok];
    if e.reason == ApprovedByUser {
      WaitersAreNamed(cfg, ss, es, i, e.tok);
    } else if e.reason == ApprovedCached {
      KeysAreApproved(cfg, ss, es, i, c.key);
      var j :| 0 <= j < i && ApprovesKey(cfg, ss[j], es[j], c.key);
      assert RuleAndIntegrity(ss, es, i, e.tok, c.approval, c.key);
    } else {
      assert RuleAndIntegrity(ss, es, i, e.tok, RuleAllows, c.key);
    }
  }

  /** A connection whose command was started has exactly one entry on record, an allow that
      goes back to such events. */
  lemma StartsOnlyWithLeave(cfg: Config, ss: seq<State>, es: seq<Event>, i: nat, t: Tok)
    requires IsRun(cfg, ss, es) && i < |ss| && t in ss[i].log.started
    ensures exists e | e in ss[i].log.audit && e.tok == t ::
              e.decision == Allow && HasLeave(cfg, ss, es, i, t, e.reason)
              && forall x | x in ss[i].log.audit && x.tok == t :: x == e
  {
    StartsOnlyWhenAllowed(cfg, ss, es, i, t);
    var e :| e in ss[i].log.audit && e.tok == t;
    EveryAllowHasLeave(cfg, ss, es, i, e);
    RunSound(cfg, ss, es, i);
    OneEntry(ss[i].log, t, e);
  }

  lemma OneEntry(log: Log, t: Tok, e: AuditEntry)
    requires LogOk(log) && e in log.audit && e.tok == t
    ensures forall x | x in log.audit && x.tok == t :: x == e
  {
    forall x | x in log.audit && x.tok == t ensures x == e {
      var p :| 0 <= p < |log.audit| && log.audit[p] == x;
      var q :| 0 <= q < |log.audit| && log.audit[q] == e;
      assert p == q;
    }
  }
}
