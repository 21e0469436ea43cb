/** No waiter is lost, exactly as long as no event drops one; and with the identity test and
    no failing registry removal none does. */
module BrokerLoss {
  import opened Wrappers
  import opened Broker
  import opened BrokerTables
  import opened BrokerWaiters

  // ---------------------------------------------------------------- timers

  /** Only registered groups have a running timer. */
  predicate OwnTimers(x: Tables) {
    forall g | g in x.heap && x.heap[g].timer :: Mapped(x, g)
  }

  ghost predicate TimersOk(x: Tables, guarded: bool) {
    TablesOk(x) && Timed(x) && (guarded ==> OwnTimers(x))
  }

  lemma JoinTimers(x: Tables, gid: Gid, key: Key, id: Id, t: Tok, guarded: bool)
    requires TimersOk(x, guarded) && gid in x.heap
    ensures TimersOk(Join(x, gid, key, id, t), guarded)
  {
    JoinTables(x, gid, key, id, t);
  }

  lemma CreateTimers(x: Tables, key: Key, id: Id, t: Tok, guarded: bool)
    requires TimersOk(x, guarded) && GroupByKey(x, key).None?
    ensures TimersOk(Create(x, key, id, t), guarded)
  {
    CreateTables(x, key, id, t);
  }

  lemma UnlistTimers(x: Tables, gid: Gid, id: Id, guarded: bool)
    requires TimersOk(x, guarded) && gid in x.heap
    ensures TimersOk(Unlist(x, gid, id), guarded)
  {
    UnlistTables(x, gid, id);
  }

  lemma DetachTimers(x: Tables, gid: Gid, k: Key, guarded: bool)
    requires TimersOk(x, guarded) && gid in x.heap && k == x.heap[gid].key && (guarded ==> Mapped(x, gid))
    ensures TimersOk(Detach(x, gid, k), guarded)
  {
    StopTimerTables(x, gid);
  }

  lemma StopTimers(x: Tables, gid: Gid, guarded: bool)
    requires TimersOk(x, guarded) && gid in x.heap && !Mapped(x, gid)
    ensures TimersOk(StopTimer(x, gid), guarded)
  {
    StopTimerTables(x, gid);
  }

  lemma DropTimers(x: Tables, gid: Gid, g: bool, guarded: bool)
    requires TimersOk(x, guarded) && gid in x.heap && (guarded ==> g)
    ensures TimersOk(DropEmpty(x, gid, g), guarded)
  {
    if g && GroupByKey(x, x.heap[gid].key) != Some(gid) {
      StopTimers(x, gid, guarded);
    } else {
      DetachTimers(x, gid, x.heap[gid].key, guarded);
    }
  }

  lemma TimeoutTimers(x: Tables, gid: Gid, guarded: bool)
    requires TimersOk(x, guarded) && gid in x.heap && x.heap[gid].timer
    ensures var y, k := StopTimer(x, gid), x.heap[gid].key;
            && (GroupByKey(y, k).None? ==> TimersOk(y, guarded))
            && (GroupByKey(y, k).Some? ==> TimersOk(Detach(y, GroupByKey(y, k).value, k), guarded))
  {
    var y, k := StopTimer(x, gid), x.heap[gid].key;
    StopTimerTables(x, gid);
    if !Mapped(x, gid) {
      StopTimers(x, gid, guarded);
      if GroupByKey(y, k).Some? { DetachTimers(y, GroupByKey(y, k).value, k, guarded); }
    } else {
      assert Detach(y, gid, k).heap == Detach(x, gid, k).heap;
      DetachTimers(x, gid, k, guarded);
    }
  }

  predicate SameTimers(x: Tables, y: Tables) {
    y.heap == x.heap && y.groups == x.groups && y.nextGid == x.nextGid
  }

  lemma KeyOfIsNoTimer(x: Tables, y: Tables, guarded: bool)
    requires TimersOk(x, guarded) && SameTimers(x, y)
    ensures TimersOk(y, guarded)
  {
  }

  lemma QuietDecide(s: State, k: Tid, c: Call, a: Answer)
    ensures SameTimers(s.tables, OnDecide(s, k, c, a).tables)
  {
  }

  lemma QuietWork(cfg: Config, s: State, k: Tid, c: Call, a: Answer)
    requires c.at == RemoveBegin ==> FindGroup(s.tables, c.id).None?
    requires c.at in {RemoveEntry, Entry} ==> a.Throws? || !RanEmpty(s.tables, c.group) || (c.at == Entry && c.whole)
    ensures SameTimers(s.tables, OnWork(cfg, s, k, c, a).tables)
  {
    QuietDecide(s, k, c, a);
  }

  lemma WorkTimers(cfg: Config, s: State, k: Tid, a: Answer)
    requires TimersOk(s.tables, cfg.guarded) && k in s.calls
    ensures TimersOk(OnWork(cfg, s, k, s.calls[k], a).tables, cfg.guarded)
  {
    var c := s.calls[k];
    if c.at == RemoveBegin && FindGroup(s.tables, c.id).Some? {
      UnlistTimers(s.tables, FindGroup(s.tables, c.id).value, c.id, cfg.guarded);
    } else if c.at == RemoveEntry && !a.Throws? && RanEmpty(s.tables, c.group) {
      DropTimers(s.tables, c.group.value, true, cfg.guarded);
    } else if c.at == Entry && !a.Throws? && !c.whole && RanEmpty(s.tables, c.group) {
      DropTimers(s.tables, c.group.value, cfg.guarded, cfg.guarded);
    } else {
      QuietWork(cfg, s, k, c, a);
      KeyOfIsNoTimer(s.tables, OnWork(cfg, s, k, c, a).tables, cfg.guarded);
    }
  }

  lemma FoundTimers(x: Tables, id: Id, guarded: bool)
    requires TimersOk(x, guarded) && FindGroup(x, id).Some?
    ensures var gid := FindGroup(x, id).value;
            TimersOk(Unlist(x, gid, id), guarded) && TimersOk(Detach(x, gid, x.heap[gid].key), guarded)
            && GroupByKey(x, x.heap[gid].key) == Some(gid)
  {
    FoundIsMapped(x, id);
    UnlistTimers(x, FindGroup(x, id).value, id, guarded);
    DetachTimers(x, FindGroup(x, id).value, x.heap[FindGroup(x, id).value].key, guarded);
  }

  lemma ApproveTables(cfg: Config, s: State, id: Id, scope: Option<Scope>)
    ensures var y := OnApprove(cfg, s, id, scope).tables;
            || y == s.tables
            || (FindGroup(s.tables, id).Some?
                && var gid := FindGroup(s.tables, id).value;
                   || y == Unlist(s.tables, gid, id)
                   || (GroupByKey(s.tables, s.tables.heap[gid].key).Some?
                       && y == Detach(s.tables, GroupByKey(s.tables, s.tables.heap[gid].key).value,
                           s.tables.heap[gid].key)))
  {
  }

  lemma PendTimers(s: State, t: Tok, guarded: bool)
    requires TimersOk(s.tables, guarded) && t in s.conns
    ensures TimersOk(OnPend(s, t, s.conns[t]).tables, guarded)
  {
    var c := s.conns[t];
    if GroupByKey(s.tables, c.key).None? {
      CreateTimers(s.tables, c.key, c.id, t, guarded);
    } else {
      JoinTimers(s.tables, GroupByKey(s.tables, c.key).value, c.key, c.id, t, guarded);
    }
  }

  lemma StepTimers(cfg: Config, s: State, e: Event)
    requires TimersOk(s.tables, cfg.guarded) && Enabled(s, e)
    ensures TimersOk(Step(cfg, s, e).tables, cfg.guarded)
  {
    match e
    case Arrive(_) =>
    case Cancel(_) =>
    case Resume(t, a) => PendTimers(s, t, cfg.guarded);
    case Approve(id, scope) =>
      ApproveTables(cfg, s, id, scope);
      if FindGroup(s.tables, id).Some? { FoundTimers(s.tables, id, cfg.guarded); }
    case DenyRequest(id) =>
      if FindGroup(s.tables, id).Some? { FoundTimers(s.tables, id, cfg.guarded); }
    case Timeout(gid) => TimeoutTimers(s.tables, gid, cfg.guarded);
    case Work(k, a) => WorkTimers(cfg, s, k, a);
  }

  // ---------------------------------------------------------------- a dropped waiter

  /** Nobody else holds or lists a waiter that call `k` is responsible for. */
  lemma OnlyOneCovers(s: State, k: Tid, l: Tid, t: Tok)
    requires Inv(s) && k in s.calls && l in s.calls && k != l && Covers(s, s.calls[k], t)
    ensures !Covers(s, s.calls[l], t)
  {
    assert CallOk(s, s.calls[k]) && CallOk(s, s.calls[l]);
    assert Apart(s.calls[k], s.calls[l]);
  }

  lemma CoveredIsUnreachable(s: State, k: Tid, t: Tok)
    requires Inv(s) && k in s.calls && Covers(s, s.calls[k], t)
    ensures !Reachable(s, t)
  {
    assert CallOk(s, s.calls[k]);
  }

  /** A call that ends without settling a waiter it owned loses it. */
  lemma AbandonedIsLost(s: State, k: Tid, t: Tok)
    requires Inv(s) && k in s.calls && Covers(s, s.calls[k], t) && Open(s, t)
    ensures !NoLoss(EndCall(s, k))
  {
    var z := EndCall(s, k);
    CoveredIsUnreachable(s, k, t);
    forall l | l in z.calls ensures !Covers(z, z.calls[l], t) {
      OnlyOneCovers(s, k, l, t);
    }
    assert Open(z, t) && !Safe(z, t);
  }

  lemma ThrowLoses(s: State, k: Tid)
    requires Inv(s) && k in s.calls && s.calls[k].at in {RemoveEntry, Entry}
    requires s.calls[k].held.Some? || s.calls[k].rest != []
    ensures !NoLoss(EndCall(s, k))
  {
    var c := s.calls[k];
    assert CallOk(s, c);
    if c.held.Some? {
      AbandonedIsLost(s, k, c.held.value);
    } else {
      assert OnList(s, c.group.value, c.rest[0]);
      AbandonedIsLost(s, k, s.tables.heap[c.group.value].waiters[c.rest[0]]);
    }
  }

  lemma StrangerLoses(s: State, k: Tid, gid: Gid)
    requires Inv(s) && k in s.calls && gid in s.tables.heap && DropsStranger(s.tables, gid)
    ensures !NoLoss(SetCall(s.(tables := DropEmpty(s.tables, gid, false)), k, s.calls[k].(at := EntryClose)))
  {
    var other := s.tables.groups[s.tables.heap[gid].key];
    var z := SetCall(s.(tables := DropEmpty(s.tables, gid, false)), k, s.calls[k].(at := EntryClose));
    var id :| id in s.tables.heap[other].waiters;
    var t := s.tables.heap[other].waiters[id];
    assert Listed(s, t) && Mapped(s.tables, other) && Open(s, t);
    forall l | l in z.calls ensures !Covers(z, z.calls[l], t) {
      assert CallOk(s, s.calls[l]);
    }
    assert Open(z, t) && !Safe(z, t);
  }

  lemma DropLoses(cfg: Config, s: State, e: Event)
    requires Good(s) && Enabled(s, e) && Drops(cfg, s, e)
    ensures !NoLoss(Step(cfg, s, e))
  {
    if e.answer.Throws? {
      ThrowLoses(s, e.tid);
    } else {
      StrangerLoses(s, e.tid, s.calls[e.tid].group.value);
    }
  }

  // ---------------------------------------------------------------- runs

  lemma RunTimers(cfg: Config, ss: seq<State>, es: seq<Event>, i: nat)
    requires IsRun(cfg, ss, es) && i < |ss|
    ensures Inv(ss[i]) && TimersOk(ss[i].tables, cfg.guarded)
  {
    RunInv(cfg, ss, es, i);
    if i > 0 {
      RunTimers(cfg, ss, es, i - 1);
      StepTimers(cfg, ss[i - 1], es[i - 1]);
    }
  }

  /** One step from a state that owns all its waiters loses one if and only if it is
      a failing registry removal in the hands of a call that still owes a waiter, or an
      unguarded delete that hits a group other than the one that ran empty. */
  lemma LosesExactlyOnDrop(cfg: Config, s: State, e: Event)
    requires Good(s) && Enabled(s, e)
    ensures NoLoss(Step(cfg, s, e)) <==> !Drops(cfg, s, e)
  {
    if Drops(cfg, s, e) { DropLoses(cfg, s, e); } else { KeptGood(cfg, s, e); }
  }

  lemma {:induction false} KeptUpTo(cfg: Config, ss: seq<State>, es: seq<Event>, i: nat)
    requires IsRun(cfg, ss, es) && i < |ss| && forall j | 0 <= j < i :: !Drops(cfg, ss[j], es[j])
    ensures NoLoss(ss[i])
  {
    if i > 0 {
      KeptUpTo(cfg, ss, es, i - 1);
      RunTimers(cfg, ss, es, i - 1);
      LosesExactlyOnDrop(cfg, ss[i - 1], es[i - 1]);
    }
  }

  /** Over a whole run: every waiter is owned at every await point, if and only if no
      event of the run drops one. */
  lemma WaitersOwnedIffNothingDrops(cfg: Config, ss: seq<State>, es: seq<Event>)
    requires IsRun(cfg, ss, es)
    ensures (forall i | 0 <= i < |ss| :: NoLoss(ss[i])) <==> (forall i | 0 <= i < |es| :: !Drops(cfg, ss[i], es[i]))
  {
    if forall i | 0 <= i < |es| :: !Drops(cfg, ss[i], es[i]) {
      forall i | 0 <= i < |ss| ensures NoLoss(ss[i]) { KeptUpTo(cfg, ss, es, i); }
    } else {
      var i :| 0 <= i < |es| && Drops(cfg, ss[i], es[i]);
      RunTimers(cfg, ss, es, i);
      if NoLoss(ss[i]) {
        LosesExactlyOnDrop(cfg, ss[i], es[i]);
        assert !NoLoss(ss[i + 1]);
      }
    }
  }

  /** With the identity guard in both places and a registry that never fails to
      remove an entry, no waiter is ever lost. */
  lemma GuardedKeepsEveryWaiter(cfg: Config, ss: seq<State>, es: seq<Event>, i: nat, t: Tok)
    requires IsRun(cfg, ss, es) && i < |ss| && cfg.guarded
    requires forall j | 0 <= j < |es| :: !(es[j].Work? && es[j].answer.Throws?)
    requires Open(ss[i], t)
    ensures Reachable(ss[i], t) || exists k | k in ss[i].calls :: Covers(ss[i], ss[i].calls[k], t)
  {
    KeptUpTo(cfg, ss, es, i);
    assert Safe(ss[i], t);
  }

  /** With the guard, a timer only ever ends the group it was started for. */
  lemma GuardedTimeoutIsOwn(cfg: Config, ss: seq<State>, es: seq<Event>, i: nat, gid: Gid)
    requires IsRun(cfg, ss, es) && i < |ss| && cfg.guarded && Enabled(ss[i], Timeout(gid))
    ensures GroupByKey(ss[i].tables, ss[i].tables.heap[gid].key) == Some(gid)
  {
    RunTimers(cfg, ss, es, i);
  }
}
