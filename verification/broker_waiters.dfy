/** Which events of a run lose a waiter: exactly a failing registry removal, and the
    unguarded `groups.delete` of `resolveGroup`. */
module BrokerWaiters {
  import opened Wrappers
  import opened Broker
  import opened BrokerTables

  /** A decision or the timer of its own group can still reach the waiter. */
  predicate Reachable(s: State, t: Tok) {
    && Listed(s, t) && Mapped(s.tables, s.conns[t].group.value)
    && s.tables.heap[s.conns[t].group.value].timer
  }

  /** A running call has the waiter in its hands or on its worklist. */
  predicate Covers(s: State, c: Call, t: Tok) {
    || c.held == Some(t)
    || (c.whole && Listed(s, t) && s.conns[t].group == c.group && (c.at == GroupClose || s.conns[t].id in c.rest))
  }

  ghost predicate Safe(s: State, t: Tok) {
    Reachable(s, t) || exists k | k in s.calls :: Covers(s, s.calls[k], t)
  }

  /** Every connection that waits for a decision is still owned by someone. */
  ghost predicate NoLoss(s: State) {
    forall t | Open(s, t) :: Safe(s, t)
  }

  /** The timer of a registered group runs. */
  predicate Timed(x: Tables) {
    forall k | k in x.groups && x.groups[k] in x.heap :: x.heap[x.groups[k]].timer
  }

  /** The registered group that `DropEmpty` removes without it being `gid`. */
  predicate DropsStranger(x: Tables, gid: Gid) {
    && gid in x.heap && x.heap[gid].key in x.groups
    && var other := x.groups[x.heap[gid].key];
       other != gid && other in x.heap && x.heap[other].waiters != map[]
  }

  /** The events that lose a waiter. */
  predicate Drops(cfg: Config, s: State, e: Event) {
    && e.Work? && e.tid in s.calls
    && var c := s.calls[e.tid];
       if e.answer.Throws? then c.at in {RemoveEntry, Entry} && (c.held.Some? || c.rest != [])
       else
         && !cfg.guarded && c.at == Entry && !c.whole
         && RanEmpty(s.tables, c.group) && DropsStranger(s.tables, c.group.value)
  }

  // ---------------------------------------------------------------- frames

  /** What the step of call `k` (if any) must do for the waiters it leaves open. */
  ghost predicate Hands(s: State, s': State, k: Tid) {
    && (forall l | l in s.calls && l != k :: l in s'.calls && s'.calls[l] == s.calls[l])
    && (forall t | Open(s', t) ::
          Open(s, t) && s'.conns[t].id == s.conns[t].id && s'.conns[t].group == s.conns[t].group)
    && (forall t | Open(s', t) && Reachable(s, t) :: Safe(s', t))
    && (forall t | Open(s', t) && Listed(s, t) && !Mapped(s.tables, s.conns[t].group.value) :: Listed(s', t))
    && (k in s.calls ==> forall t | Open(s', t) && Covers(s, s.calls[k], t) :: Safe(s', t))
  }

  lemma HandsSafe(s: State, s': State, k: Tid, t: Tok)
    requires Inv(s) && NoLoss(s) && Hands(s, s', k) && Open(s', t)
    ensures Safe(s', t)
  {
    assert Safe(s, t);
    if !Reachable(s, t) {
      var l :| l in s.calls && Covers(s, s.calls[l], t);
      assert CallOk(s, s.calls[l]);
      if l != k { assert Covers(s', s'.calls[l], t); }
    }
  }

  lemma HandsNoLoss(s: State, s': State, k: Tid)
    requires Inv(s) && NoLoss(s) && Hands(s, s', k)
    ensures NoLoss(s')
  {
    forall t | Open(s', t) ensures Safe(s', t) { HandsSafe(s, s', k, t); }
  }

  ghost predicate Good(s: State) {
    Inv(s) && NoLoss(s) && Timed(s.tables)
  }

  // ---------------------------------------------------------------- connections

  lemma SetConnGood(s: State, s': State, t: Tok, c: Conn)
    requires Good(s) && t in s.conns && SameWaiter(s.conns[t], c)
    requires s'.conns == s.conns[t := c] && s'.tables == s.tables
    requires forall k | k in s.calls :: k in s'.calls && s'.calls[k] == s.calls[k]
    ensures NoLoss(s')
  {
    HandsNoLoss(s, s', s.nextTid);
  }

  lemma JoinGood(s: State, t: Tok, gid: Gid)
    requires Good(s) && Joins(s, t, gid)
    ensures NoLoss(OnPend(s, t, s.conns[t]))
  {
    var c, s' := s.conns[t], OnPend(s, t, s.conns[t]);
    JoinTables(s.tables, gid, c.key, c.id, t);
    assert GroupAgrees(s.tables.heap[gid]);
    assert Reachable(s', t);
    forall u | Open(s', u) ensures Safe(s', u) {
      if u != t {
        assert Safe(s, u) && (Listed(s, u) ==> Listed(s', u));
        assert Reachable(s, u) ==> Reachable(s', u);
        assert forall k | k in s.calls :: Covers(s, s.calls[k], u) ==> Covers(s', s'.calls[k], u);
      }
    }
  }

  lemma CreateGood(s: State, t: Tok)
    requires Good(s) && Creates(s, t)
    ensures NoLoss(OnPend(s, t, s.conns[t]))
  {
    var c, s' := s.conns[t], OnPend(s, t, s.conns[t]);
    CreateTables(s.tables, c.key, c.id, t);
    assert Reachable(s', t);
    forall u | Open(s', u) ensures Safe(s', u) {
      if u != t {
        assert Safe(s, u) && (Listed(s, u) ==> Listed(s', u));
        assert Reachable(s, u) ==> Reachable(s', u);
        assert forall k | k in s.calls :: Covers(s, s.calls[k], u) ==> Covers(s', s'.calls[k], u);
      }
    }
  }

  lemma ResumeGood(cfg: Config, s: State, t: Tok, a: Answer)
    requires Good(s) && t in s.conns
    ensures NoLoss(OnResume(cfg, s, t, s.conns[t], a))
  {
    var c, s' := s.conns[t], OnResume(cfg, s, t, s.conns[t], a);
    if AtPend(c) {
      var gid := GroupByKey(s.tables, c.key);
      if gid.None? {
        CreateGood(s, t);
      } else if c.id in s.tables.heap[gid.value].requests {
        SetConnGood(s, s', t, c.(pc := Finished));
      } else {
        JoinGood(s, t, gid.value);
      }
    } else if c.pc == Leaving(true) {
      SetConnGood(s, s', t, c.(pc := Removing(s.nextTid)));
    } else {
      LocalStepShape(cfg, c.key in s.approvedKeys, t, c, s.log, a);
      SetConnGood(s, s', t, LocalStep(cfg, c.key in s.approvedKeys, t, c, s.log, a).0);
    }
  }

  // ---------------------------------------------------------------- control requests

  /** Steps that touch the heap only in timers of groups that are not registered. */
  lemma SameListsGood(s: State, s': State)
    requires Good(s) && s'.conns == s.conns && s'.calls == s.calls && s'.tables.groups == s.tables.groups
    requires s'.tables.heap.Keys == s.tables.heap.Keys
    requires forall g | g in s.tables.heap ::
      && s'.tables.heap[g].waiters == s.tables.heap[g].waiters && s'.tables.heap[g].key == s.tables.heap[g].key
      && (Mapped(s.tables, g) ==> s'.tables.heap[g].timer)
    ensures NoLoss(s')
  {
    HandsNoLoss(s, s', s.nextTid);
  }

  predicate Detaches(x: Tables, y: Tables, gid: Gid) {
    && Mapped(x, gid) && y.heap.Keys == x.heap.Keys && y.groups == x.groups - {x.heap[gid].key}
    && forall g | g in y.heap ::
         && y.heap[g].waiters == x.heap[g].waiters && y.heap[g].key == x.heap[g].key
         && (Mapped(x, g) && g != gid ==> y.heap[g].timer == x.heap[g].timer)
  }

  lemma DetachedListed(s: State, z: State, gid: Gid, t: Tok)
    requires Good(s) && Detaches(s.tables, z.tables, gid) && z.conns == s.conns
    ensures Listed(s, t) <==> Listed(z, t)
    ensures Reachable(s, t) && s.conns[t].group != Some(gid) ==> Reachable(z, t)
  {
  }

  /** A group that is resolved as a whole goes to the worklist of its call. */
  lemma DetachGood(s: State, z: State, gid: Gid, mode: Mode)
    requires Good(s) && Detaches(s.tables, z.tables, gid) && z.conns == s.conns
    requires z.calls == s.calls[s.nextTid := Closing(gid, mode)]
    ensures NoLoss(z)
  {
    forall t | Open(z, t) ensures Safe(z, t) {
      assert Safe(s, t) by { assert Open(s, t); }
      DetachedListed(s, z, gid, t);
      if s.conns[t].group == Some(gid) && Reachable(s, t) {
        assert Covers(z, z.calls[s.nextTid], t);
      } else if !Reachable(s, t) {
        var l :| l in s.calls && Covers(s, s.calls[l], t);
        assert CallOk(s, s.calls[l]) && Covers(z, z.calls[l], t);
      }
    }
  }

  lemma WholeGood(s: State, k: Key, mode: Mode)
    requires Good(s)
    ensures NoLoss(ResolveWhole(s, k, mode))
  {
    if GroupByKey(s.tables, k).Some? {
      DetachGood(s, ResolveWhole(s, k, mode), GroupByKey(s.tables, k).value, mode);
    }
  }

  lemma UnlistedElsewhere(s: State, z: State, gid: Gid, id: Id, t: Tok)
    requires Good(s) && Mapped(s.tables, gid) && z.tables == Unlist(s.tables, gid, id) && z.conns == s.conns
    requires t in s.conns && !(s.conns[t].group == Some(gid) && s.conns[t].id == id)
    ensures Listed(s, t) <==> Listed(z, t)
    ensures Reachable(s, t) ==> Reachable(z, t)
  {
  }

  /** A request that is taken out of its group goes into the hands of the call. */
  lemma UnlistGood(s: State, z: State, gid: Gid, id: Id, k: Tid)
    requires Good(s) && Mapped(s.tables, gid) && z.tables == Unlist(s.tables, gid, id) && z.conns == s.conns
    requires k in z.calls && z.calls[k].held == WaiterOf(s.tables.heap[gid], id)
    requires k in s.calls ==> s.calls[k].held.None? && !s.calls[k].whole
    requires forall l | l in s.calls && l != k :: l in z.calls && z.calls[l] == s.calls[l]
    ensures NoLoss(z)
  {
    forall t | Open(z, t) ensures Safe(z, t) {
      assert Safe(s, t) by { assert Open(s, t); }
      if s.conns[t].group == Some(gid) && s.conns[t].id == id && Reachable(s, t) {
        assert Covers(z, z.calls[k], t);
      } else if Reachable(s, t) {
        UnlistedElsewhere(s, z, gid, id, t);
      } else {
        var l :| l in s.calls && Covers(s, s.calls[l], t);
        UnlistedCovers(s, z, gid, id, l, t);
        assert Covers(z, z.calls[l], t);
      }
    }
  }

  lemma UnlistedCovers(s: State, z: State, gid: Gid, id: Id, l: Tid, t: Tok)
    requires Good(s) && Mapped(s.tables, gid) && z.tables == Unlist(s.tables, gid, id) && z.conns == s.conns
    requires l in s.calls && Covers(s, s.calls[l], t)
    ensures Covers(z, s.calls[l], t)
  {
    assert CallOk(s, s.calls[l]);
    if t in s.conns && s.calls[l].whole && s.conns[t].group == s.calls[l].group {
      UnlistedElsewhere(s, z, gid, id, t);
    }
  }

  lemma SelectGood(s: State, gid: Gid, id: Id, mode: Mode)
    requires Good(s) && Mapped(s.tables, gid)
    ensures NoLoss(ResolveSelected(s, gid, id, mode))
  {
    if id in s.tables.heap[gid].requests {
      UnlistGood(s, ResolveSelected(s, gid, id, mode), gid, id, s.nextTid);
    }
  }

  lemma GrantGood(s: State, ts: set<Tok>, keys: set<Key>)
    requires Good(s)
    ensures Good(Grant(s, ts).(approvedKeys := keys)) && Good(Grant(s, ts))
  {
    GrantInv(s, ts, keys);
    SameListsGood(s, Grant(s, ts).(approvedKeys := keys));
    SameListsGood(s, Grant(s, ts));
  }

  lemma ApproveGood(cfg: Config, s: State, id: Id, scope: Option<Scope>)
    requires Good(s)
    ensures NoLoss(OnApprove(cfg, s, id, scope))
  {
    if FindGroup(s.tables, id).Some? && scope != Some(OtherScope) {
      FoundIsMapped(s.tables, id);
      var gid := FindGroup(s.tables, id).value;
      var g := s.tables.heap[gid];
      GrantGood(s, Tokens(g.waiters), s.approvedKeys + {g.key});
      GrantGood(s, if id in g.waiters then {g.waiters[id]} else {}, {});
      if (if scope.Some? then scope.value else cfg.defaultScope) == Capability {
        WholeGood(Grant(s, Tokens(g.waiters)).(approvedKeys := s.approvedKeys + {g.key}), g.key, Approving);
      } else {
        SelectGood(Grant(s, if id in g.waiters then {g.waiters[id]} else {}), gid, id, Approving);
      }
    }
  }

  lemma TimeoutDetaches(x: Tables, gid: Gid, other: Gid)
    requires TablesOk(x) && gid in x.heap && GroupByKey(x, x.heap[gid].key) == Some(other)
    ensures Detaches(x, Detach(StopTimer(x, gid), other, x.heap[gid].key), other)
  {
    assert gid != other ==> !Mapped(x, gid);
  }

  lemma TimeoutGood(s: State, gid: Gid)
    requires Good(s) && gid in s.tables.heap
    ensures NoLoss(OnTimeout(s, gid))
  {
    var k := s.tables.heap[gid].key;
    StopTimerTables(s.tables, gid);
    if GroupByKey(s.tables, k).Some? {
      TimeoutDetaches(s.tables, gid, GroupByKey(s.tables, k).value);
      DetachGood(s, OnTimeout(s, gid), GroupByKey(s.tables, k).value, TimingOut);
    } else {
      SameListsGood(s, s.(tables := StopTimer(s.tables, gid)));
    }
  }

  // ---------------------------------------------------------------- running calls

  lemma RemoveBeginGood(s: State, k: Tid)
    requires Good(s) && k in s.calls && s.calls[k].at == RemoveBegin
    ensures NoLoss(OnRemoveBegin(s, k, s.calls[k]))
  {
    var c, z := s.calls[k], OnRemoveBegin(s, k, s.calls[k]);
    assert CallOk(s, c);
    if FindGroup(s.tables, c.id).None? {
      HandsNoLoss(s, z, k);
    } else {
      FoundIsMapped(s.tables, c.id);
      UnlistGood(s, z, FindGroup(s.tables, c.id).value, c.id, k);
    }
  }

  /** Settling a waiter and going on loses nobody else. */
  lemma SettleGood(s: State, z: State, k: Tid)
    requires Good(s) && k in s.calls
    requires z.conns == Settle(s, s.calls[k].held).conns && z.tables == s.tables
    requires forall l | l in s.calls && l != k :: l in z.calls && z.calls[l] == s.calls[l]
    requires s.calls[k].whole ==>
               k in z.calls && z.calls[k].whole && z.calls[k].group == s.calls[k].group
               && (s.calls[k].at == GroupClose ==> z.calls[k].at == GroupClose) && z.calls[k].rest == s.calls[k].rest
    ensures NoLoss(z)
  {
    assert CallOk(s, s.calls[k]);
    forall t | Open(z, t) && Covers(s, s.calls[k], t) ensures Safe(z, t) {
      assert Covers(z, z.calls[k], t);
    }
    HandsNoLoss(s, z, k);
  }

  lemma DropTables(x: Tables, gid: Gid, guarded: bool, g: Gid)
    requires TablesOk(x) && RanEmpty(x, Some(gid)) && (guarded || !DropsStranger(x, gid)) && g in x.heap
    ensures var y := DropEmpty(x, gid, guarded);
            && g in y.heap && y.heap[g].waiters == x.heap[g].waiters
            && (Mapped(x, g) && x.heap[g].waiters != map[] ==> Mapped(y, g) && y.heap[g].timer == x.heap[g].timer)
  {
    assert GroupAgrees(x.heap[gid]);
  }

  /** A group that ran empty takes nobody with it unless it drops a stranger. */
  lemma DropGood(s: State, z: State, gid: Gid, guarded: bool)
    requires Good(s) && RanEmpty(s.tables, Some(gid)) && (guarded || !DropsStranger(s.tables, gid))
    requires z == s.(tables := DropEmpty(s.tables, gid, guarded))
    ensures NoLoss(z)
  {
    forall t | Listed(s, t) ensures Listed(z, t) && (Reachable(s, t) ==> Reachable(z, t)) {
      DropTables(s.tables, gid, guarded, s.conns[t].group.value);
    }
    HandsNoLoss(s, z, s.nextTid);
  }

  /** Moving on without dropping the waiter or the worklist. */
  lemma MoveGood(s: State, z: State, k: Tid, at: At)
    requires Inv(s) && NoLoss(s) && k in s.calls && s.calls[k].at != GroupClose
        && z == SetCall(s, k, s.calls[k].(at := at))
    ensures NoLoss(z)
  {
    forall t | Open(z, t) && Covers(s, s.calls[k], t) ensures Safe(z, t) {
      assert Covers(z, z.calls[k], t);
    }
    HandsNoLoss(s, z, k);
  }

  lemma RemoveEntryGood(s: State, k: Tid, a: Answer)
    requires Good(s) && k in s.calls && s.calls[k].at == RemoveEntry && (a.Throws? ==> s.calls[k].held.None?)
    ensures NoLoss(OnRemoveEntry(s, k, s.calls[k], a))
  {
    var c, z := s.calls[k], OnRemoveEntry(s, k, s.calls[k], a);
    assert CallOk(s, c);
    if a.Throws? || !RanEmpty(s.tables, c.group) {
      SettleGood(s, z, k);
    } else {
      var x := s.(tables := DropEmpty(s.tables, c.group.value, true));
      DropInv(s, c.group.value, true);
      DropGood(s, x, c.group.value, true);
      MoveGood(x, z, k, RemoveClose);
    }
  }

  lemma OrderGood(s: State, k: Tid, ids: seq<Id>)
    requires Good(s) && k in s.calls && s.calls[k].at == GroupClose && s.calls[k].group.Some?
    requires s.calls[k].group.value in s.tables.heap && IsOrder(ids, s.tables.heap[s.calls[k].group.value])
    ensures NoLoss(SetCall(s, k, s.calls[k].(at := Loop, rest := ids)))
  {
    var z := SetCall(s, k, s.calls[k].(at := Loop, rest := ids));
    assert CallOk(s, s.calls[k]);
    assert GroupAgrees(s.tables.heap[s.calls[k].group.value]);
    forall t | Open(z, t) && Covers(s, s.calls[k], t) ensures Safe(z, t) {
      assert s.conns[t].id in ids;
      assert Covers(z, z.calls[k], t);
    }
    HandsNoLoss(s, z, k);
  }

  lemma LoopCovers(s: State, k: Tid, t: Tok)
    requires Inv(s) && k in s.calls && s.calls[k].at == Loop && Covers(s, s.calls[k], t)
    ensures var z := OnLoop(s, k, s.calls[k]); k in z.calls && Covers(z, z.calls[k], t)
  {
    var c := s.calls[k];
    assert CallOk(s, c);
    assert OnList(s, c.group.value, c.rest[0]) && GroupAgrees(s.tables.heap[c.group.value]);
    assert c.rest == [c.rest[0]] + c.rest[1..];
  }

  lemma LoopGood(s: State, k: Tid)
    requires Good(s) && k in s.calls && s.calls[k].at == Loop
    ensures NoLoss(OnLoop(s, k, s.calls[k]))
  {
    var z := OnLoop(s, k, s.calls[k]);
    forall t | Open(z, t) && Covers(s, s.calls[k], t) ensures Safe(z, t) { LoopCovers(s, k, t); }
    HandsNoLoss(s, z, k);
  }

  lemma DecideHeldGood(s: State, k: Tid, a: Answer)
    requires Good(s) && k in s.calls && s.calls[k].at != GroupClose && s.calls[k].held.Some?
    ensures NoLoss(OnDecide(s, k, s.calls[k], a))
  {
    var c, z := s.calls[k], OnDecide(s, k, s.calls[k], a);
    var (at, conn, log) := Decide(c, c.held.value, s.conns[c.held.value], s.log, a);
    var x := SetConn(s, c.held.value, conn).(log := log);
    DecideShape(s, c, a);
    SetConnInv(s, x, c.held.value, conn);
    SetConnGood(s, x, c.held.value, conn);
    if at.Some? {
      MoveGood(x, z, k, at.value);
    } else {
      SettleGood(x, z, k);
    }
  }

  lemma DecideGood(s: State, k: Tid, a: Answer)
    requires Good(s) && k in s.calls && s.calls[k].at in {Entry, EntryClose, Auditing, Replying, At.Running}
    ensures NoLoss(OnDecide(s, k, s.calls[k], a))
  {
    if s.calls[k].held.None? {
      SettleGood(s, OnDecide(s, k, s.calls[k], a), k);
    } else {
      assert CallOk(s, s.calls[k]);
      DecideHeldGood(s, k, a);
    }
  }

  lemma EntryGood(cfg: Config, s: State, k: Tid, a: Answer)
    requires Good(s) && k in s.calls && s.calls[k].at == Entry && !Drops(cfg, s, Work(k, a))
    ensures NoLoss(OnEntry(cfg, s, k, s.calls[k], a))
  {
    var c, z := s.calls[k], OnEntry(cfg, s, k, s.calls[k], a);
    assert CallOk(s, c);
    if a.Throws? {
      HandsNoLoss(s, z, k);
    } else if !c.whole && RanEmpty(s.tables, c.group) {
      var x := s.(tables := DropEmpty(s.tables, c.group.value, cfg.guarded));
      DropInv(s, c.group.value, cfg.guarded);
      DropGood(s, x, c.group.value, cfg.guarded);
      MoveGood(x, z, k, EntryClose);
    } else {
      DecideGood(s, k, a);
    }
  }

  lemma WorkGood(cfg: Config, s: State, k: Tid, a: Answer)
    requires Good(s) && Enabled(s, Work(k, a)) && !Drops(cfg, s, Work(k, a))
    ensures NoLoss(OnWork(cfg, s, k, s.calls[k], a))
  {
    match s.calls[k].at
    case RemoveBegin => RemoveBeginGood(s, k);
    case RemoveEntry => RemoveEntryGood(s, k, a);
    case RemoveClose =>
      assert CallOk(s, s.calls[k]);
      SettleGood(s, OnWork(cfg, s, k, s.calls[k], a), k);
    case GroupClose => OrderGood(s, k, a.ids);
    case Loop => LoopGood(s, k);
    case Entry => EntryGood(cfg, s, k, a);
    case _ => DecideGood(s, k, a);
  }

  lemma KeptGood(cfg: Config, s: State, e: Event)
    requires Good(s) && Enabled(s, e) && !Drops(cfg, s, e)
    ensures NoLoss(Step(cfg, s, e))
  {
    match e
    case Arrive(id) =>
      HandsNoLoss(s, OnArrive(s, id), s.nextTid);
    case Resume(t, a) => ResumeGood(cfg, s, t, a);
    case Cancel(t) =>
      SetConnGood(s, OnCancel(s, t, s.conns[t]), t,
                  if OnCancel(s, t, s.conns[t]) == s then s.conns[t]
                  else s.conns[t].(life := Cancelled, cleanup := Some(s.nextTid)));
    case Approve(id, scope) => ApproveGood(cfg, s, id, scope);
    case DenyRequest(id) =>
      if FindGroup(s.tables, id).Some? {
        FoundIsMapped(s.tables, id);
        SelectGood(s, FindGroup(s.tables, id).value, id, Denying);
      }
    case Timeout(gid) => TimeoutGood(s, gid);
    case Work(k, a) => WorkGood(cfg, s, k, a);
  }
}
