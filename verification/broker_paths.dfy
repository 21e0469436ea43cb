/** What becomes of a request that the broker decides by itself, or passes on to be asked
    about: each answer of the rules and of the integrity check leads to one outcome, in every
    interleaving in which the request is not cancelled and nothing it awaits fails. */
module BrokerPaths {
  import opened Wrappers
  import opened Broker
  import opened BrokerTables
  import opened BrokerDecisions
  import opened BrokerLoss
  import opened BrokerProgress
  import opened BrokerGrants

  // ---------------------------------------------------------------- entries

  predicate Unheard(log: Log, t: Tok) {
    t !in log.started && forall x | x in log.audit :: x.tok != t
  }

  /** The only entry of the connection. */
  predicate Sole(log: Log, t: Tok, d: Decision, r: Reason) {
    AuditEntry(t, d, r) in log.audit && forall x | x in log.audit && x.tok == t :: x == AuditEntry(t, d, r)
  }

  /** Where a request that waits for nobody is going: refused for a reason, or sent back to
      run unmediated because no rule matches. */
  datatype Fate = Denied(reason: Reason) | Unruled

  /** How far the connection has come. */
  predicate Fares(s: State, t: Tok, fate: Fate) {
    && t in s.conns && s.conns[t].group.None? && t !in s.log.started
    && match s.conns[t].pc
       case Ops(ops) => s.conns[t].life != Cancelled && OnWay(s.log, t, fate, ops)
       case Finished => s.conns[t].life == Terminal && Told(s.log, t, fate)
       case _ => false
  }

  predicate OnWay(log: Log, t: Tok, fate: Fate, ops: seq<Op>) {
    match fate
    case Unruled => ops == [Reply] && Unheard(log, t)
    case Denied(r) =>
      || (ops in {[Check, Audit(Deny, r), Check, Reply], [Audit(Deny, r), Check, Reply]} && Unheard(log, t))
      || (ops in {[Check, Reply], [Reply]} && Sole(log, t, Deny, r))
  }

  predicate Told(log: Log, t: Tok, fate: Fate) {
    match fate
    case Unruled => Unheard(log, t)
    case Denied(r) => Sole(log, t, Deny, r)
  }

  // ---------------------------------------------------------------- steps

  lemma FareCheck(cfg: Config, s: State, t: Tok, a: Answer, fate: Fate)
    requires Fares(s, t, fate) && s.conns[t].pc.Ops? && s.conns[t].pc.ops[0] == Check
    ensures Fares(OnResume(cfg, s, t, s.conns[t], a), t, fate)
  {
    assert [Check, Audit(Deny, fate.reason), Check, Reply][1..] == [Audit(Deny, fate.reason), Check, Reply];
    assert [Check, Reply][1..] == [Reply];
  }

  lemma FareAudit(cfg: Config, s: State, t: Tok, a: Answer, fate: Fate)
    requires Fares(s, t, fate) && s.conns[t].pc.Ops? && s.conns[t].pc.ops[0].Audit? && !a.Throws?
    ensures Fares(OnResume(cfg, s, t, s.conns[t], a), t, fate)
  {
    assert [Audit(Deny, fate.reason), Check, Reply][1..] == [Check, Reply];
    SoleAudit(s.log, t, Deny, fate.reason);
  }

  lemma SoleAudit(log: Log, t: Tok, d: Decision, r: Reason)
    requires Unheard(log, t)
    ensures Sole(Audited(log, t, d, r), t, d, r)
  {
    assert forall x :: x in Audited(log, t, d, r).audit <==> x in log.audit || x == AuditEntry(t, d, r);
  }

  lemma FareReply(cfg: Config, s: State, t: Tok, a: Answer, fate: Fate)
    requires Fares(s, t, fate) && s.conns[t].pc == Ops([Reply]) && !a.Throws?
    ensures Fares(OnResume(cfg, s, t, s.conns[t], a), t, fate)
  {
  }

  /** The log says as much about `t` as before. */
  ghost predicate SameWord(log: Log, log': Log, t: Tok) {
    && (forall x: AuditEntry | x.tok == t :: x in log'.audit <==> x in log.audit)
    && (t in log'.started <==> t in log.started)
  }

  lemma LocalSaysNothing(cfg: Config, cached: bool, u: Tok, c: Conn, log: Log, a: Answer, t: Tok)
    requires u != t
    ensures SameWord(log, LocalStep(cfg, cached, u, c, log, a).1, t)
  {
    if c.pc.Ops? && c.pc.ops != [] {
      assert SameWord(log, LocalOp(cfg, cached, u, c, log, a, c.pc.ops[0], c.pc.ops[1..]).1, t);
    }
  }

  lemma DecideSaysNothing(s: State, k: Tid, c: Call, a: Answer, t: Tok)
    requires c.held != Some(t)
    ensures SameWord(s.log, OnDecide(s, k, c, a).log, t)
  {
  }

  /** Only a connection itself and a call that holds it write about it. */
  lemma OthersSayNothing(cfg: Config, s: State, e: Event, t: Tok)
    requires Enabled(s, e) && !(e.Resume? && e.tok == t) && !(e.Work? && s.calls[e.tid].held == Some(t))
    ensures SameWord(s.log, Step(cfg, s, e).log, t)
  {
    match e
    case Arrive(_) =>
    case Cancel(_) =>
    case Resume(u, a) => LocalSaysNothing(cfg, s.conns[u].key in s.approvedKeys, u, s.conns[u], s.log, a, t);
    case Approve(_, _) =>
    case DenyRequest(_) =>
    case Timeout(_) =>
    case Work(k, a) =>
      WorkWrites(cfg, s, k, a);
      DecideSaysNothing(s, k, s.calls[k], a, t);
  }

  lemma FareStays(s: State, s': State, t: Tok, fate: Fate)
    requires Fares(s, t, fate) && Leaves(s, s', t) && SameWord(s.log, s'.log, t)
    ensures Fares(s', t, fate)
  {
    assert forall x | x in s'.log.audit && x.tok == t :: x in s.log.audit;
    if Unheard(s.log, t) { assert forall x | x in s'.log.audit :: x.tok != t; }
  }

  lemma OwnFares(cfg: Config, s: State, t: Tok, a: Answer, fate: Fate)
    requires Fares(s, t, fate) && s.conns[t].pc.Ops? && !a.Throws?
    ensures Fares(OnResume(cfg, s, t, s.conns[t], a), t, fate)
  {
    var op := s.conns[t].pc.ops[0];
    if op == Check {
      FareCheck(cfg, s, t, a, fate);
    } else if op.Audit? {
      FareAudit(cfg, s, t, a, fate);
    } else {
      FareReply(cfg, s, t, a, fate);
    }
  }

  lemma StepFares(cfg: Config, s: State, e: Event, t: Tok, fate: Fate)
    requires Inv(s) && Enabled(s, e) && Fares(s, t, fate)
    requires e != Cancel(t) && !(e.Resume? && e.tok == t && e.answer.Throws?)
    ensures Fares(Step(cfg, s, e), t, fate)
  {
    if e.Resume? && e.tok == t {
      OwnFares(cfg, s, t, e.answer, fate);
    } else {
      if e.Work? { assert CallOk(s, s.calls[e.tid]); }
      StepLeaves(cfg, s, e, t);
      OthersSayNothing(cfg, s, e, t);
      FareStays(s, Step(cfg, s, e), t, fate);
    }
  }

  // ---------------------------------------------------------------- runs

  /** After the event `i` and before the state `j` the connection is not cancelled, and
      nothing fails that it awaits itself. */
  predicate Undisturbed(es: seq<Event>, i: nat, j: nat, t: Tok)
    requires j <= |es|
  {
    forall m | i < m < j :: es[m] != Cancel(t) && !(es[m].Resume? && es[m].tok == t && es[m].answer.Throws?)
  }

  lemma {:induction false} FaresOn(cfg: Config, ss: seq<State>, es: seq<Event>, i: nat, j: nat, t: Tok, fate: Fate)
    requires IsRun(cfg, ss, es) && i < j <= |es| && Undisturbed(es, i, j, t) && Fares(ss[i + 1], t, fate)
    ensures Fares(ss[j], t, fate)
  {
    if i + 1 < j {
      FaresOn(cfg, ss, es, i, j - 1, t, fate);
      RunInv(cfg, ss, es, j - 1);
      StepFares(cfg, ss[j - 1], es[j - 1], t, fate);
    }
  }

  /** The connection has ended, with this one entry, unstarted and terminal. */
  predicate IsRefused(s: State, t: Tok, r: Reason) {
    && t in s.conns && s.conns[t].pc == Finished && s.conns[t].life == Terminal
    && Sole(s.log, t, Deny, r) && t !in s.log.started
  }

  /** The rules have answered for an uncancelled connection. */
  predicate Resolves(s: State, e: Event, t: Tok, a: Answer) {
    e == Resume(t, a) && !a.Throws? && t in s.conns && s.conns[t].pc == Resolving && s.conns[t].life != Cancelled
  }

  lemma ResolvingIsUnheard(cfg: Config, s: State, t: Tok)
    requires Sound(cfg, s) && t in s.conns && s.conns[t].pc == Resolving
    ensures Unheard(s.log, t) && s.conns[t].group.None?
  {
    assert TokOk(cfg, s.approvedKeys, s.log, t, s.conns[t]) && PcOk(s.conns[t]);
    forall x | x in s.log.audit ensures x.tok != t {
      assert x.tok == t ==> Decided(s.log, t, x.decision);
    }
  }

  lemma DenyingRuleFares(cfg: Config, s: State, t: Tok)
    requires t in s.conns && s.conns[t].pc == Resolving && s.conns[t].life != Cancelled
    requires Unheard(s.log, t) && s.conns[t].group.None?
    ensures Fares(OnResume(cfg, s, t, s.conns[t], RuleDenies), t, Denied(PolicyDeny))
  {
  }

  /** A request that a rule denies, once it has left its path: the denial by policy is its
      only entry, it has not been started, and it is terminal. */
  lemma DeniedByPolicy(cfg: Config, ss: seq<State>, es: seq<Event>, i: nat, j: nat, t: Tok)
    requires IsRun(cfg, ss, es) && i < j <= |es| && Resolves(ss[i], es[i], t, RuleDenies) && Undisturbed(es, i, j, t)
    requires t in ss[j].conns ==> !ss[j].conns[t].pc.Ops?
    ensures IsRefused(ss[j], t, PolicyDeny)
  {
    RunSound(cfg, ss, es, i);
    ResolvingIsUnheard(cfg, ss[i], t);
    DenyingRuleFares(cfg, ss[i], t);
    FaresOn(cfg, ss, es, i, j, t, Denied(PolicyDeny));
  }

  lemma NoRuleFares(cfg: Config, s: State, t: Tok, a: Answer)
    requires t in s.conns && s.conns[t].pc == Resolving && s.conns[t].life != Cancelled
    requires Unheard(s.log, t) && s.conns[t].group.None? && !a.Throws? && !a.RuleFound? && !a.RuleDenies?
    ensures Fares(OnResume(cfg, s, t, s.conns[t], a), t, Unruled)
  {
  }

  /** A request that no rule matches falls back: it is terminal, without any entry and
      without having been started. */
  lemma UnruledFallsBack(cfg: Config, ss: seq<State>, es: seq<Event>, i: nat, j: nat, t: Tok, a: Answer)
    requires IsRun(cfg, ss, es) && i < j <= |es| && Resolves(ss[i], es[i], t, a) && Undisturbed(es, i, j, t)
    requires !a.RuleFound? && !a.RuleDenies?
    requires t in ss[j].conns ==> !ss[j].conns[t].pc.Ops?
    ensures t in ss[j].conns && ss[j].conns[t].pc == Finished && ss[j].conns[t].life == Terminal
    ensures Unheard(ss[j].log, t)
  {
    RunSound(cfg, ss, es, i);
    ResolvingIsUnheard(cfg, ss[i], t);
    NoRuleFares(cfg, ss[i], t, a);
    FaresOn(cfg, ss, es, i, j, t, Unruled);
  }

  // ---------------------------------------------------------------- a rule that may allow

  /** On its way to the verdict, with the rule that was found. */
  predicate Ruled(s: State, t: Tok, approval: Approval, key: Key) {
    && t in s.conns
    && var c := s.conns[t];
       c.pc in {Ops([Check, Verdict]), Ops([Verdict])} && c.life != Cancelled && c.group.None?
       && c.approval == approval && c.key == key && Unheard(s.log, t)
  }

  lemma RuleStarts(cfg: Config, s: State, t: Tok, approval: Approval, key: Key)
    requires t in s.conns && s.conns[t].pc == Resolving && s.conns[t].life != Cancelled
    requires Unheard(s.log, t) && s.conns[t].group.None?
    ensures Ruled(OnResume(cfg, s, t, s.conns[t], RuleFound(approval, key)), t, approval, key)
  {
  }

  lemma StepRuled(cfg: Config, s: State, e: Event, t: Tok, approval: Approval, key: Key)
    requires Inv(s) && Enabled(s, e) && Ruled(s, t, approval, key) && e != Cancel(t)
    requires e.Resume? && e.tok == t ==> s.conns[t].pc == Ops([Check, Verdict])
    ensures Ruled(Step(cfg, s, e), t, approval, key)
    ensures e.Resume? && e.tok == t ==> Step(cfg, s, e).conns[t].pc == Ops([Verdict])
  {
    if e.Resume? && e.tok == t {
      assert [Check, Verdict][1..] == [Verdict];
    } else {
      if e.Work? { assert CallOk(s, s.calls[e.tid]); }
      StepLeaves(cfg, s, e, t);
      OthersSayNothing(cfg, s, e, t);
    }
  }

  /** The verdict is awaited for that rule. */
  predicate Judges(s: State, e: Event, t: Tok, a: Answer) {
    e == Resume(t, a) && !a.Throws? && t in s.conns && s.conns[t].pc == Ops([Verdict]) && s.conns[t].life != Cancelled
  }

  ghost predicate WasJudged(ss: seq<State>, es: seq<Event>, i: nat, j: nat, t: Tok, approval: Approval, key: Key)
    requires j <= |es| && j <= |ss|
  {
    exists m | i < m < j :: es[m].Resume? && Judges(ss[m], es[m], t, es[m].answer)
      && ss[m].conns[t].approval == approval && ss[m].conns[t].key == key && Unheard(ss[m].log, t)
  }

  lemma JudgedLater(ss: seq<State>, es: seq<Event>, i: nat, j: nat, t: Tok, approval: Approval, key: Key)
    requires 0 < j <= |es| && j <= |ss| && WasJudged(ss, es, i, j - 1, t, approval, key)
    ensures WasJudged(ss, es, i, j, t, approval, key)
  {
    var m :| i < m < j - 1 && es[m].Resume? && Judges(ss[m], es[m], t, es[m].answer)
      && ss[m].conns[t].approval == approval && ss[m].conns[t].key == key && Unheard(ss[m].log, t);
  }

  lemma JudgedNow(ss: seq<State>, es: seq<Event>, i: nat, j: nat, t: Tok, approval: Approval, key: Key)
    requires i + 1 < j <= |es| && j <= |ss| && Ruled(ss[j - 1], t, approval, key)
    requires ss[j - 1].conns[t].pc == Ops([Verdict])
    requires es[j - 1].Resume? && es[j - 1].tok == t && !es[j - 1].answer.Throws?
    ensures WasJudged(ss, es, i, j, t, approval, key)
  {
    assert Judges(ss[j - 1], es[j - 1], t, es[j - 1].answer);
  }

  /** A request whose rule allows or asks: the integrity verdict is awaited for exactly that
      rule, with nothing on record yet. */
  lemma {:induction false} RuledIsJudged(cfg: Config, ss: seq<State>, es: seq<Event>, i: nat, j: nat, t: Tok,
      approval: Approval, key: Key)
    requires IsRun(cfg, ss, es) && i < j <= |es| && Resolves(ss[i], es[i], t, RuleFound(approval, key))
    requires Undisturbed(es, i, j, t)
    ensures Ruled(ss[j], t, approval, key) || WasJudged(ss, es, i, j, t, approval, key)
  {
    if i + 1 == j {
      RunSound(cfg, ss, es, i);
      ResolvingIsUnheard(cfg, ss[i], t);
      RuleStarts(cfg, ss[i], t, approval, key);
    } else {
      RuledIsJudged(cfg, ss, es, i, j - 1, t, approval, key);
      var s, e := ss[j - 1], es[j - 1];
      RunInv(cfg, ss, es, j - 1);
      if WasJudged(ss, es, i, j - 1, t, approval, key) {
        JudgedLater(ss, es, i, j, t, approval, key);
      } else if e.Resume? && e.tok == t && s.conns[t].pc == Ops([Verdict]) {
        JudgedNow(ss, es, i, j, t, approval, key);
      } else {
        StepRuled(cfg, s, e, t, approval, key);
      }
    }
  }

  // ---------------------------------------------------------------- the verdict refuses

  lemma VerdictFares(cfg: Config, s: State, t: Tok, a: Answer)
    requires t in s.conns && s.conns[t].pc == Ops([Verdict]) && s.conns[t].life != Cancelled
    requires Unheard(s.log, t) && s.conns[t].group.None?
    ensures var z, c := OnResume(cfg, s, t, s.conns[t], a), s.conns[t];
            && (a.IntegrityThrows? ==> Fares(z, t, Denied(IntegrityError)))
            && (!a.IntegrityThrows? && a != Integrity(true) && !cfg.promptEnable ==>
                  Fares(z, t, Denied(IntegrityMismatch)))
            && (a == Integrity(true) && c.approval == RulePrompts && !cfg.promptEnable ==>
                  Fares(z, t, Denied(PromptDisabled)))
  {
  }

  lemma JudgedIsUnheard(cfg: Config, s: State, t: Tok)
    requires Sound(cfg, s) && t in s.conns && s.conns[t].pc == Ops([Verdict])
    ensures Unheard(s.log, t) && s.conns[t].group.None?
  {
    assert TokOk(cfg, s.approvedKeys, s.log, t, s.conns[t]) && PcOk(s.conns[t]);
    assert StandingOf(s.log, t) == Undecided;
    forall x | x in s.log.audit ensures x.tok != t {
      assert x.tok == t ==> Decided(s.log, t, x.decision);
    }
  }

  /** A request that the integrity verdict refuses, once it has left its path: a check that
      fails is recorded as such; a changed target without prompting as a mismatch; a rule
      that asks, with its target unchanged but without prompting, as prompting disabled,
      even for an approved key. The denial is the only entry, the request has not been
      started, and it is terminal. */
  lemma DeniedByVerdict(cfg: Config, ss: seq<State>, es: seq<Event>, i: nat, j: nat, t: Tok, a: Answer)
    requires IsRun(cfg, ss, es) && i < j <= |es| && Judges(ss[i], es[i], t, a) && Undisturbed(es, i, j, t)
    requires t in ss[j].conns ==> !ss[j].conns[t].pc.Ops?
    ensures a.IntegrityThrows? ==> IsRefused(ss[j], t, IntegrityError)
    ensures !a.IntegrityThrows? && a != Integrity(true) && !cfg.promptEnable ==> IsRefused(ss[j], t, IntegrityMismatch)
    ensures a == Integrity(true) && ss[i].conns[t].approval == RulePrompts && !cfg.promptEnable ==>
              IsRefused(ss[j], t, PromptDisabled)
  {
    RunSound(cfg, ss, es, i);
    JudgedIsUnheard(cfg, ss[i], t);
    VerdictFares(cfg, ss[i], t, a);
    if a.IntegrityThrows? {
      FaresOn(cfg, ss, es, i, j, t, Denied(IntegrityError));
    } else if a != Integrity(true) && !cfg.promptEnable {
      FaresOn(cfg, ss, es, i, j, t, Denied(IntegrityMismatch));
    } else if ss[i].conns[t].approval == RulePrompts && !cfg.promptEnable {
      FaresOn(cfg, ss, es, i, j, t, Denied(PromptDisabled));
    }
  }

  // ---------------------------------------------------------------- the verdict asks

  /** On its way to its approval group, or a waiter there until it is settled, or stopped
      because the group lists its id already. */
  predicate Waits(s: State, t: Tok, key: Key) {
    && t in s.conns && s.conns[t].life != Cancelled && s.conns[t].key == key
    && var c := s.conns[t];
       if c.group.None? then
         || (c.pc in {Ops([Check, Pend]), Ops([Pend])} && c.life != Preflight && Unheard(s.log, t))
         || c.pc == Finished
       else
         && c.group.value in s.tables.heap && s.tables.heap[c.group.value].key == key
         && (c.pc.Writing? || c.pc == Recheck || c.pc == Parked || (c.pc == Finished && c.settled))
  }

  lemma DecideKeepsLife(s: State, k: Tid, c: Call, a: Answer, t: Tok)
    requires t in s.conns && s.conns[t].life != Cancelled
    ensures var z := OnDecide(s, k, c, a);
            && t in z.conns && z.conns[t].life != Cancelled && z.conns[t].group == s.conns[t].group
            && (s.conns[t].settled ==> z.conns[t].settled)
  {
    if c.held == Some(t) {
      var (at, conn, log) := Decide(c, t, s.conns[t], s.log, a);
      var x := SetConn(s, t, conn).(log := log);
      AdvanceKeepsLife(x, k, c, t);
    } else {
      DecideLeaves(s, k, c, a, t);
    }
  }

  lemma AdvanceKeepsLife(s: State, k: Tid, c: Call, t: Tok)
    requires t in s.conns
    ensures var z := Advance(s, k, c);
            && t in z.conns && z.conns[t].life == s.conns[t].life && z.conns[t].group == s.conns[t].group
            && (s.conns[t].settled ==> z.conns[t].settled)
  {
  }

  lemma WorkKeepsLife(cfg: Config, s: State, k: Tid, a: Answer, t: Tok)
    requires k in s.calls && t in s.conns && s.conns[t].life != Cancelled
    ensures var z := OnWork(cfg, s, k, s.calls[k], a);
            && t in z.conns && z.conns[t].life != Cancelled && z.conns[t].group == s.conns[t].group
            && (s.conns[t].settled ==> z.conns[t].settled)
  {
    match s.calls[k].at
    case RemoveBegin =>
    case RemoveEntry =>
    case RemoveClose =>
    case GroupClose =>
    case Loop =>
    case _ => DecideKeepsLife(s, k, s.calls[k], a, t);
  }

  /** A group keeps its key. */
  predicate SameKeys(x: Tables, y: Tables) {
    forall g | g in x.heap :: g in y.heap && y.heap[g].key == x.heap[g].key
  }

  lemma TableKeys(x: Tables, gid: Gid, id: Id, k: Key, guarded: bool)
    requires gid in x.heap
    ensures SameKeys(x, StopTimer(x, gid)) && SameKeys(x, Unlist(x, gid, id)) && SameKeys(x, Detach(x, gid, k))
    ensures SameKeys(x, DropEmpty(x, gid, guarded))
  {
  }

  lemma PendKeys(s: State, t: Tok)
    requires TablesOk(s.tables) && t in s.conns
    ensures SameKeys(s.tables, OnPend(s, t, s.conns[t]).tables)
  {
  }

  lemma EntryKeys(cfg: Config, s: State, k: Tid, c: Call, a: Answer)
    ensures SameKeys(s.tables, OnEntry(cfg, s, k, c, a).tables)
    ensures SameKeys(s.tables, OnRemoveEntry(s, k, c, a).tables)
  {
    DecideTables(s, k, c, a);
    if RanEmpty(s.tables, c.group) {
      TableKeys(s.tables, c.group.value, 0, 0, cfg.guarded);
      TableKeys(s.tables, c.group.value, 0, 0, true);
    }
  }

  lemma WorkKeys(cfg: Config, s: State, k: Tid, a: Answer)
    requires k in s.calls
    ensures SameKeys(s.tables, OnWork(cfg, s, k, s.calls[k], a).tables)
  {
    var c := s.calls[k];
    match c.at
    case RemoveBegin =>
      if FindGroup(s.tables, c.id).Some? { TableKeys(s.tables, FindGroup(s.tables, c.id).value, c.id, 0, true); }
    case RemoveEntry => EntryKeys(cfg, s, k, c, a);
    case RemoveClose =>
    case GroupClose =>
    case Loop =>
    case Entry => EntryKeys(cfg, s, k, c, a);
    case _ => DecideTables(s, k, c, a);
  }

  lemma FoundKeys(x: Tables, id: Id)
    requires TablesOk(x) && FindGroup(x, id).Some?
    ensures var gid := FindGroup(x, id).value;
            SameKeys(x, Unlist(x, gid, id)) && SameKeys(x, Detach(x, gid, x.heap[gid].key))
            && GroupByKey(x, x.heap[gid].key) == Some(gid)
  {
    FoundIsMapped(x, id);
    TableKeys(x, FindGroup(x, id).value, id, x.heap[FindGroup(x, id).value].key, true);
  }

  lemma TimeoutKeys(s: State, gid: Gid)
    requires gid in s.tables.heap
    ensures SameKeys(s.tables, OnTimeout(s, gid).tables)
  {
    var k := s.tables.heap[gid].key;
    TableKeys(s.tables, gid, 0, k, true);
    if GroupByKey(s.tables, k).Some? {
      TableKeys(StopTimer(s.tables, gid), GroupByKey(s.tables, k).value, 0, k, true);
    }
  }

  lemma StepKeys(cfg: Config, s: State, e: Event)
    requires Inv(s) && Enabled(s, e)
    ensures SameKeys(s.tables, Step(cfg, s, e).tables)
  {
    match e
    case Arrive(_) =>
    case Cancel(_) =>
    case Resume(t, a) => PendKeys(s, t);
    case Approve(id, scope) =>
      ApproveTables(cfg, s, id, scope);
      if FindGroup(s.tables, id).Some? { FoundKeys(s.tables, id); }
    case DenyRequest(id) => if FindGroup(s.tables, id).Some? { FoundKeys(s.tables, id); }
    case Timeout(gid) => TimeoutKeys(s, gid);
    case Work(k, a) => WorkKeys(cfg, s, k, a);
  }

  /** The connection becomes a waiter of the group registered under its key, or the group
      lists its id already and it stops. */
  predicate Enters(s: State, e: Event, z: State, t: Tok, key: Key) {
    && e.Resume? && e.tok == t && t in s.conns && AtPend(s.conns[t])
    && if GroupByKey(s.tables, key).Some? && s.conns[t].id in s.tables.heap[GroupByKey(s.tables, key).value].requests
       then t in z.conns && z.conns[t].group.None? && z.conns[t].pc == Finished && z.tables == s.tables
       else Listed(z, t) && GroupByKey(z.tables, key) == z.conns[t].group && z.conns[t].pc.Writing?
  }

  lemma PendJoins(s: State, t: Tok, a: Answer)
    requires Inv(s) && t in s.conns && AtPend(s.conns[t]) && Waits(s, t, s.conns[t].key)
    ensures var z := OnPend(s, t, s.conns[t]);
            Enters(s, Resume(t, a), z, t, s.conns[t].key) && Waits(z, t, s.conns[t].key)
  {
  }

  lemma OwnWaits(cfg: Config, s: State, t: Tok, a: Answer, key: Key)
    requires Inv(s) && Enabled(s, Resume(t, a)) && Waits(s, t, key) && !AtPend(s.conns[t]) && !a.Throws?
    ensures Waits(OnResume(cfg, s, t, s.conns[t], a), t, key)
  {
    assert [Check, Pend][1..] == [Pend] && [Check, Pend][0] == Check;
    assert PcOk(s.conns[t]);
  }

  lemma StepWaits(cfg: Config, s: State, e: Event, t: Tok, key: Key)
    requires Inv(s) && Enabled(s, e) && Waits(s, t, key)
    requires e != Cancel(t) && !(e.Resume? && e.tok == t && e.answer.Throws?)
    ensures Waits(Step(cfg, s, e), t, key)
    ensures e.Resume? && e.tok == t && AtPend(s.conns[t]) ==> Enters(s, e, Step(cfg, s, e), t, key)
  {
    if e.Resume? && e.tok == t {
      if AtPend(s.conns[t]) { PendJoins(s, t, e.answer); } else { OwnWaits(cfg, s, t, e.answer, key); }
    } else {
      OthersWait(cfg, s, e, t, key);
    }
  }

  lemma OthersWait(cfg: Config, s: State, e: Event, t: Tok, key: Key)
    requires Inv(s) && Enabled(s, e) && Waits(s, t, key) && e != Cancel(t) && !(e.Resume? && e.tok == t)
    ensures Waits(Step(cfg, s, e), t, key)
  {
    StepKeys(cfg, s, e);
    StepPlaces(cfg, s, e, t);
    if e.Work? {
      assert CallOk(s, s.calls[e.tid]);
      WorkKeepsLife(cfg, s, e.tid, e.answer, t);
    }
    if s.conns[t].group.None? || !e.Work? { StepLeaves(cfg, s, e, t); }
    if s.conns[t].group.None? {
      OthersSayNothing(cfg, s, e, t);
      assert Unheard(s.log, t) ==> Unheard(Step(cfg, s, e).log, t);
    }
  }

  ghost predicate HasJoined(ss: seq<State>, es: seq<Event>, i: nat, j: nat, t: Tok, key: Key)
    requires j <= |es| && j < |ss|
  {
    exists m | i < m < j :: Enters(ss[m], es[m], ss[m + 1], t, key)
  }

  lemma VerdictAsks(cfg: Config, s: State, t: Tok, a: Answer)
    requires t in s.conns && s.conns[t].pc == Ops([Verdict]) && s.conns[t].life != Cancelled
    requires Unheard(s.log, t) && s.conns[t].group.None? && AsksUser(cfg, s, t, a)
    ensures Waits(OnResume(cfg, s, t, s.conns[t], a), t, s.conns[t].key)
  {
  }

  /** Prompting is on, and the target has changed, or the rule asks and its key is not
      approved yet. */
  predicate AsksUser(cfg: Config, s: State, t: Tok, a: Answer)
    requires t in s.conns
  {
    var c := s.conns[t];
    && cfg.promptEnable && !a.IntegrityThrows?
    && (a == Integrity(true) ==> c.approval == RulePrompts && c.key !in s.approvedKeys)
  }

  lemma {:induction false} WaitsOn(cfg: Config, ss: seq<State>, es: seq<Event>, i: nat, j: nat, t: Tok, key: Key)
    requires IsRun(cfg, ss, es) && i < j <= |es| && Undisturbed(es, i, j, t)
    requires Waits(ss[i + 1], t, key) && ss[i + 1].conns[t].pc.Ops?
    ensures Waits(ss[j], t, key) && (ss[j].conns[t].pc.Ops? || HasJoined(ss, es, i, j, t, key))
  {
    if i + 1 < j {
      WaitsOn(cfg, ss, es, i, j - 1, t, key);
      var s, e := ss[j - 1], es[j - 1];
      RunInv(cfg, ss, es, j - 1);
      StepWaits(cfg, s, e, t, key);
      if HasJoined(ss, es, i, j - 1, t, key) {
        assert HasJoined(ss, es, i, j, t, key);
      } else if e.Resume? && e.tok == t && AtPend(s.conns[t]) {
        assert Enters(ss[j - 1], es[j - 1], ss[j], t, key);
      } else {
        StillOps(cfg, s, e, t, key);
      }
    }
  }

  lemma StillOps(cfg: Config, s: State, e: Event, t: Tok, key: Key)
    requires Inv(s) && Enabled(s, e) && Waits(s, t, key) && s.conns[t].pc.Ops? && e != Cancel(t)
    requires !(e.Resume? && e.tok == t && AtPend(s.conns[t])) && t in Step(cfg, s, e).conns
    ensures Step(cfg, s, e).conns[t].pc.Ops?
  {
    if !(e.Resume? && e.tok == t) { StepPlaces(cfg, s, e, t); }
  }

  /** Every other verdict makes the request wait for the user: once it has left its path, it
      has become a waiter of the group that is registered under its key, unless that group
      listed its id already, and it waits there until it is settled. */
  lemma AskedWaits(cfg: Config, ss: seq<State>, es: seq<Event>, i: nat, j: nat, t: Tok, a: Answer)
    requires IsRun(cfg, ss, es) && i < j <= |es| && Judges(ss[i], es[i], t, a) && Undisturbed(es, i, j, t)
    requires AsksUser(cfg, ss[i], t, a)
    requires t in ss[j].conns ==> !ss[j].conns[t].pc.Ops?
    ensures HasJoined(ss, es, i, j, t, ss[i].conns[t].key) && Waits(ss[j], t, ss[i].conns[t].key)
  {
    RunSound(cfg, ss, es, i);
    JudgedIsUnheard(cfg, ss[i], t);
    VerdictAsks(cfg, ss[i], t, a);
    assert ss[i + 1].conns[t].pc.Ops?;
    WaitsOn(cfg, ss, es, i, j, t, ss[i].conns[t].key);
  }
}
