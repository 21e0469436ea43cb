/** A waiter that nobody owns is lost for good: no decision, timer or running call settles
    it in any continuation. */
module BrokerLost {
  import opened Wrappers
  import opened Broker
  import opened BrokerTables
  import opened BrokerWaiters
  import opened BrokerLoss
  import opened BrokerProgress
  import opened BrokerSettle

  /** Waits, and no call, decision or timer of its group will get to it. */
  ghost predicate Lost(s: State, t: Tok) {
    Open(s, t) && !Safe(s, t)
  }

  // ---------------------------------------------------------------- what a step leaves alone

  /** The waiter is as before, and listed or reachable only if it was. */
  predicate StillLost(s: State, s': State, t: Tok) {
    && t in s.conns && t in s'.conns && s'.conns[t].id == s.conns[t].id
    && s'.conns[t].group == s.conns[t].group && s'.conns[t].settled == s.conns[t].settled
    && (Listed(s', t) ==> Listed(s, t)) && (Reachable(s', t) ==> Reachable(s, t))
  }

  /** Only call `k` may have changed, and it has not got hold of the waiter. */
  lemma NobodyTakes(s: State, s': State, k: Tid, t: Tok)
    requires Lost(s, t) && StillLost(s, s', t)
    requires forall l | l in s'.calls && l != k :: l in s.calls && s'.calls[l] == s.calls[l]
    requires k in s'.calls ==> !Covers(s', s'.calls[k], t)
    ensures Lost(s', t)
  {
    forall l | l in s'.calls ensures !Covers(s', s'.calls[l], t) {
      assert l != k ==> !Covers(s, s.calls[l], t);
    }
  }

  lemma NotHeld(s: State, t: Tok, k: Tid)
    requires Lost(s, t) && k in s.calls
    ensures s.calls[k].held != Some(t) && !Covers(s, s.calls[k], t)
  {
  }

  lemma KeptConn(cfg: Config, s: State, e: Event, t: Tok)
    requires Inv(s) && Enabled(s, e) && Lost(s, t)
    ensures var s' := Step(cfg, s, e);
            && t in s'.conns && s'.conns[t].id == s.conns[t].id
            && s'.conns[t].group == s.conns[t].group && s'.conns[t].settled == s.conns[t].settled
  {
    if e.Resume? && e.tok == t {
      OwnResume(cfg, s, t, e.answer);
    } else if e != Cancel(t) {
      if e.Work? { NotHeld(s, t, e.tid); }
      StepLeaves(cfg, s, e, t);
    }
  }

  // ---------------------------------------------------------------- connections

  lemma JoinLost(s: State, u: Tok, gid: Gid, t: Tok)
    requires Joins(s, u, gid) && Lost(s, t)
    ensures Lost(OnPend(s, u, s.conns[u]), t)
  {
    JoinTables(s.tables, gid, s.conns[u].key, s.conns[u].id, u);
    NobodyTakes(s, OnPend(s, u, s.conns[u]), s.nextTid, t);
  }

  lemma CreateLost(s: State, u: Tok, t: Tok)
    requires Creates(s, u) && Lost(s, t)
    ensures Lost(OnPend(s, u, s.conns[u]), t)
  {
    CreateTables(s.tables, s.conns[u].key, s.conns[u].id, u);
    NobodyTakes(s, OnPend(s, u, s.conns[u]), s.nextTid, t);
  }

  lemma PendLost(s: State, u: Tok, t: Tok)
    requires Inv(s) && u in s.conns && AtPend(s.conns[u]) && Lost(s, t)
    ensures Lost(OnPend(s, u, s.conns[u]), t)
  {
    var c, gid := s.conns[u], GroupByKey(s.tables, s.conns[u].key);
    if gid.None? {
      CreateLost(s, u, t);
    } else if c.id in s.tables.heap[gid.value].requests {
      NobodyTakes(s, OnPend(s, u, c), s.nextTid, t);
    } else {
      JoinLost(s, u, gid.value, t);
    }
  }

  lemma ResumeLost(cfg: Config, s: State, u: Tok, a: Answer, t: Tok)
    requires Inv(s) && Enabled(s, Resume(u, a)) && Lost(s, t)
    ensures Lost(OnResume(cfg, s, u, s.conns[u], a), t)
  {
    if AtPend(s.conns[u]) {
      PendLost(s, u, t);
    } else {
      KeptConn(cfg, s, Resume(u, a), t);
      NobodyTakes(s, OnResume(cfg, s, u, s.conns[u], a), s.nextTid, t);
    }
  }

  // ---------------------------------------------------------------- control requests

  /** A waiter that is listed in a registered group is not lost. */
  lemma ListedIsReachable(s: State, gid: Gid, id: Id)
    requires Inv(s) && Timed(s.tables) && Mapped(s.tables, gid) && id in s.tables.heap[gid].waiters
    ensures Reachable(s, s.tables.heap[gid].waiters[id])
  {
  }

  lemma WholeLost(s: State, s': State, gid: Gid, mode: Mode, t: Tok)
    requires Inv(s) && Timed(s.tables) && Lost(s, t) && Detaches(s.tables, s'.tables, gid) && s'.conns == s.conns
    requires forall g | g in s.tables.heap :: s'.tables.heap[g].timer ==> s.tables.heap[g].timer
    requires s'.calls == s.calls[s.nextTid := Closing(gid, mode)]
    ensures Lost(s', t)
  {
    forall id | id in s.tables.heap[gid].waiters ensures Reachable(s, s.tables.heap[gid].waiters[id]) {
      ListedIsReachable(s, gid, id);
    }
    NobodyTakes(s, s', s.nextTid, t);
  }

  lemma UnlistLost(s: State, s': State, gid: Gid, id: Id, k: Tid, t: Tok)
    requires Inv(s) && Timed(s.tables) && Lost(s, t) && Mapped(s.tables, gid)
    requires s'.tables == Unlist(s.tables, gid, id) && s'.conns == s.conns
    requires k in s'.calls && s'.calls[k].held == WaiterOf(s.tables.heap[gid], id) && !s'.calls[k].whole
    requires forall l | l in s'.calls && l != k :: l in s.calls && s'.calls[l] == s.calls[l]
    ensures Lost(s', t)
  {
    UnlistTables(s.tables, gid, id);
    if id in s.tables.heap[gid].waiters { ListedIsReachable(s, gid, id); }
    NobodyTakes(s, s', k, t);
  }

  lemma SelectLost(s: State, s': State, gid: Gid, id: Id, mode: Mode, t: Tok)
    requires Inv(s) && Timed(s.tables) && Lost(s, t) && Mapped(s.tables, gid)
    requires var z := ResolveSelected(s, gid, id, mode);
          s'.tables == z.tables && s'.conns == z.conns && s'.calls == z.calls
    ensures Lost(s', t)
  {
    if id in s.tables.heap[gid].requests {
      UnlistLost(s, s', gid, id, s.nextTid, t);
    } else {
      NobodyTakes(s, s', s.nextTid, t);
    }
  }

  lemma ApproveWholeLost(cfg: Config, s: State, id: Id, scope: Option<Scope>, gid: Gid, t: Tok)
    requires Inv(s) && Timed(s.tables) && Lost(s, t) && FindGroup(s.tables, id) == Some(gid)
    requires scope != Some(OtherScope) && ScopeOf(cfg, scope) == Capability
    ensures Lost(OnApprove(cfg, s, id, scope), t)
  {
    FoundIsMapped(s.tables, id);
    WholeLost(s, OnApprove(cfg, s, id, scope), gid, Approving, t);
  }

  lemma ApproveLost(cfg: Config, s: State, id: Id, scope: Option<Scope>, t: Tok)
    requires Inv(s) && Timed(s.tables) && Lost(s, t)
    ensures Lost(OnApprove(cfg, s, id, scope), t)
  {
    if FindGroup(s.tables, id).Some? && scope != Some(OtherScope) {
      FoundIsMapped(s.tables, id);
      var gid := FindGroup(s.tables, id).value;
      if ScopeOf(cfg, scope) == Capability {
        ApproveWholeLost(cfg, s, id, scope, gid, t);
      } else {
        SelectLost(s, OnApprove(cfg, s, id, scope), gid, id, Approving, t);
      }
    }
  }

  lemma TimeoutWholeLost(s: State, gid: Gid, other: Gid, t: Tok)
    requires Inv(s) && Timed(s.tables) && gid in s.tables.heap && Lost(s, t)
    requires GroupByKey(s.tables, s.tables.heap[gid].key) == Some(other)
    ensures Lost(OnTimeout(s, gid), t)
  {
    TimeoutDetaches(s.tables, gid, other);
    WholeLost(s, OnTimeout(s, gid), other, TimingOut, t);
  }

  lemma TimeoutLost(s: State, gid: Gid, t: Tok)
    requires Inv(s) && Timed(s.tables) && gid in s.tables.heap && Lost(s, t)
    ensures Lost(OnTimeout(s, gid), t)
  {
    var k := s.tables.heap[gid].key;
    if GroupByKey(s.tables, k).Some? {
      TimeoutWholeLost(s, gid, GroupByKey(s.tables, k).value, t);
    } else {
      NobodyTakes(s, OnTimeout(s, gid), s.nextTid, t);
    }
  }

  // ---------------------------------------------------------------- running calls

  lemma RemoveBeginLost(s: State, k: Tid, t: Tok)
    requires Inv(s) && Timed(s.tables) && k in s.calls && s.calls[k].at == RemoveBegin && Lost(s, t)
    ensures Lost(OnRemoveBegin(s, k, s.calls[k]), t)
  {
    var c, s' := s.calls[k], OnRemoveBegin(s, k, s.calls[k]);
    assert CallOk(s, c);
    if FindGroup(s.tables, c.id).Some? {
      FoundIsMapped(s.tables, c.id);
      UnlistLost(s, s', FindGroup(s.tables, c.id).value, c.id, k, t);
    } else {
      NobodyTakes(s, s', k, t);
    }
  }

  lemma DropLost(s: State, k: Tid, gid: Gid, guarded: bool, at: At, t: Tok)
    requires Inv(s) && k in s.calls && !s.calls[k].whole && gid in s.tables.heap && Lost(s, t)
    ensures Lost(SetCall(s.(tables := DropEmpty(s.tables, gid, guarded)), k, s.calls[k].(at := at)), t)
  {
    NotHeld(s, t, k);
    NobodyTakes(s, SetCall(s.(tables := DropEmpty(s.tables, gid, guarded)), k, s.calls[k].(at := at)), k, t);
  }

  lemma EndLost(s: State, k: Tid, held: Option<Tok>, t: Tok)
    requires Inv(s) && k in s.calls && held != Some(t) && Lost(s, t)
    ensures Lost(EndCall(Settle(s, held), k), t) && Lost(EndCall(s, k), t)
  {
    NobodyTakes(s, EndCall(Settle(s, held), k), k, t);
    NobodyTakes(s, EndCall(s, k), k, t);
  }

  lemma OrderLost(s: State, k: Tid, ids: seq<Id>, t: Tok)
    requires Inv(s) && k in s.calls && s.calls[k].at == GroupClose && Lost(s, t)
    ensures Lost(SetCall(s, k, s.calls[k].(at := Loop, rest := ids)), t)
  {
    NotHeld(s, t, k);
    NobodyTakes(s, SetCall(s, k, s.calls[k].(at := Loop, rest := ids)), k, t);
  }

  lemma LoopLost(s: State, k: Tid, t: Tok)
    requires Inv(s) && k in s.calls && s.calls[k].at == Loop && Lost(s, t)
    ensures Lost(OnLoop(s, k, s.calls[k]), t)
  {
    var c, s' := s.calls[k], OnLoop(s, k, s.calls[k]);
    NotHeld(s, t, k);
    assert CallOk(s, c);
    if c.rest != [] {
      assert c.rest == [c.rest[0]] + c.rest[1..];
      assert OnList(s, c.group.value, c.rest[0]);
    }
    NobodyTakes(s, s', k, t);
  }

  lemma DecideKeepsHands(s: State, k: Tid, a: Answer)
    requires k in s.calls
    ensures var s' := OnDecide(s, k, s.calls[k], a);
            && s'.tables == s.tables
                && (forall l | l in s'.calls && l != k :: l in s.calls && s'.calls[l] == s.calls[l])
            && (k in s'.calls ==>
                  && var c, d := s.calls[k], s'.calls[k];
                     d.whole == c.whole && d.group == c.group && d.rest == c.rest && d.at != GroupClose
                     && (d.held.None? || d.held == c.held))
  {
  }

  lemma DecideLost(s: State, k: Tid, a: Answer, t: Tok)
    requires Inv(s) && k in s.calls && Lost(s, t)
    ensures Lost(OnDecide(s, k, s.calls[k], a), t)
  {
    NotHeld(s, t, k);
    DecideKeepsHands(s, k, a);
    DecideLeaves(s, k, s.calls[k], a, t);
    NobodyTakes(s, OnDecide(s, k, s.calls[k], a), k, t);
  }

  lemma EntryLost(cfg: Config, s: State, k: Tid, a: Answer, t: Tok)
    requires Inv(s) && k in s.calls && s.calls[k].at == Entry && Lost(s, t)
    ensures Lost(OnEntry(cfg, s, k, s.calls[k], a), t)
  {
    var c := s.calls[k];
    NotHeld(s, t, k);
    if a.Throws? {
      EndLost(s, k, c.held, t);
    } else if !c.whole && RanEmpty(s.tables, c.group) {
      DropLost(s, k, c.group.value, cfg.guarded, EntryClose, t);
    } else {
      DecideLost(s, k, a, t);
    }
  }

  lemma RemoveEntryLost(s: State, k: Tid, a: Answer, t: Tok)
    requires Inv(s) && k in s.calls && s.calls[k].at == RemoveEntry && Lost(s, t)
    ensures Lost(OnRemoveEntry(s, k, s.calls[k], a), t)
  {
    var c := s.calls[k];
    NotHeld(s, t, k);
    assert CallOk(s, c);
    if !a.Throws? && RanEmpty(s.tables, c.group) {
      DropLost(s, k, c.group.value, true, RemoveClose, t);
    } else {
      EndLost(s, k, c.held, t);
    }
  }

  lemma WorkLost(cfg: Config, s: State, k: Tid, a: Answer, t: Tok)
    requires Inv(s) && Timed(s.tables) && Enabled(s, Work(k, a)) && Lost(s, t)
    ensures Lost(OnWork(cfg, s, k, s.calls[k], a), t)
  {
    NotHeld(s, t, k);
    match s.calls[k].at
    case RemoveBegin => RemoveBeginLost(s, k, t);
    case RemoveEntry => RemoveEntryLost(s, k, a, t);
    case RemoveClose => EndLost(s, k, s.calls[k].held, t);
    case GroupClose => OrderLost(s, k, a.ids, t);
    case Loop => LoopLost(s, k, t);
    case Entry => EntryLost(cfg, s, k, a, t);
    case _ => DecideLost(s, k, a, t);
  }

  // ---------------------------------------------------------------- for good

  /** Whatever happens next, an unsettled waiter that nobody owns stays unsettled, and
      nobody comes to own it. */
  lemma LostStaysLost(cfg: Config, s: State, e: Event, t: Tok)
    requires Inv(s) && Timed(s.tables) && Enabled(s, e) && Open(s, t) && !Safe(s, t)
    ensures Open(Step(cfg, s, e), t) && !Safe(Step(cfg, s, e), t)
  {
    match e
    case Arrive(id) =>
      KeptConn(cfg, s, e, t);
      NobodyTakes(s, OnArrive(s, id), s.nextTid, t);
    case Cancel(u) =>
      KeptConn(cfg, s, e, t);
      NobodyTakes(s, OnCancel(s, u, s.conns[u]), s.nextTid, t);
    case Resume(u, a) => ResumeLost(cfg, s, u, a, t);
    case Approve(id, scope) => ApproveLost(cfg, s, id, scope, t);
    case DenyRequest(id) =>
      if FindGroup(s.tables, id).Some? {
        FoundIsMapped(s.tables, id);
        SelectLost(s, OnDeny(s, id), FindGroup(s.tables, id).value, id, Denying, t);
      }
    case Timeout(gid) => TimeoutLost(s, gid, t);
    case Work(k, a) => WorkLost(cfg, s, k, a, t);
  }

  lemma {:induction false} LostOn(cfg: Config, s: State, ss: seq<State>, es: seq<Event>, i: nat, t: Tok)
    requires Inv(s) && TimersOk(s.tables, cfg.guarded) && Lost(s, t) && IsPath(cfg, s, ss, es) && i < |ss|
    ensures Inv(ss[i]) && TimersOk(ss[i].tables, cfg.guarded) && Lost(ss[i], t)
  {
    if i > 0 {
      LostOn(cfg, s, ss, es, i - 1, t);
      StepInv(cfg, ss[i - 1], es[i - 1]);
      StepTimers(cfg, ss[i - 1], es[i - 1]);
      LostStaysLost(cfg, ss[i - 1], es[i - 1], t);
    }
  }

  /** In no state that can follow is the waiter settled, or owned again. */
  lemma LostIsForGood(cfg: Config, s: State, t: Tok)
    requires Inv(s) && TimersOk(s.tables, cfg.guarded) && Lost(s, t)
    ensures !CanSettle(cfg, s, t)
    ensures forall ss: seq<State>, es: seq<Event>, i {:trigger IsPath(cfg, s, ss, es), ss[i]}
              | IsPath(cfg, s, ss, es) && 0 <= i < |ss| :: Lost(ss[i], t)
  {
    forall ss: seq<State>, es: seq<Event>, i | IsPath(cfg, s, ss, es) && 0 <= i < |ss| ensures Lost(ss[i], t) {
      LostOn(cfg, s, ss, es, i, t);
    }
  }

  /** To be owned is exactly to have a way to be settled. */
  lemma OwnedIffCanSettle(cfg: Config, s: State, t: Tok)
    requires Inv(s) && TimersOk(s.tables, cfg.guarded) && Open(s, t)
    ensures Safe(s, t) <==> CanSettle(cfg, s, t)
  {
    if Safe(s, t) { SafeCanSettle(cfg, s, t); } else { LostIsForGood(cfg, s, t); }
  }

  /** A step from a state that owns all its waiters drops one if and only if no way to go
      on settles some unsettled waiter after it. */
  lemma DropsExactlyForGood(cfg: Config, s: State, e: Event)
    requires Good(s) && TimersOk(s.tables, cfg.guarded) && Enabled(s, e)
    ensures Drops(cfg, s, e) <==> exists t :: Open(Step(cfg, s, e), t) && !CanSettle(cfg, Step(cfg, s, e), t)
  {
    var z := Step(cfg, s, e);
    LosesExactlyOnDrop(cfg, s, e);
    StepInv(cfg, s, e);
    StepTimers(cfg, s, e);
    forall t | Open(z, t) ensures Safe(z, t) <==> CanSettle(cfg, z, t) { OwnedIffCanSettle(cfg, z, t); }
  }

  /** Every unsettled waiter has a way to be settled. */
  ghost predicate AllCanSettle(cfg: Config, s: State) {
    forall t | Open(s, t) :: CanSettle(cfg, s, t)
  }

  /** Over a whole run: at every await point every unsettled waiter has a way to be settled,
      if and only if no event of the run drops one. */
  lemma WaitersCanSettleIffNothingDrops(cfg: Config, ss: seq<State>, es: seq<Event>)
    requires IsRun(cfg, ss, es)
    ensures (forall i | 0 <= i < |ss| :: AllCanSettle(cfg, ss[i]))
            <==> (forall i | 0 <= i < |es| :: !Drops(cfg, ss[i], es[i]))
  {
    forall i | 0 <= i < |ss| ensures AllCanSettle(cfg, ss[i]) <==> NoLoss(ss[i]) {
      RunTimers(cfg, ss, es, i);
      forall t | Open(ss[i], t) ensures Safe(ss[i], t) <==> CanSettle(cfg, ss[i], t) {
        OwnedIffCanSettle(cfg, ss[i], t);
      }
    }
    WaitersOwnedIffNothingDrops(cfg, ss, es);
  }
}
