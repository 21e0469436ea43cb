/** What every interleaving keeps of the broker's tables. */
module BrokerTables {
  import opened Wrappers
  import opened Sequences
  import opened Broker

  // ---------------------------------------------------------------- agreement

  /** The four tables of a pending group list the same requests, and `requests` and
      `waiters` give each of them the same connection. */
  predicate GroupAgrees(g: Group) {
    g.requests == g.waiters == g.pendingEntries && g.requestIds == g.waiters.Keys
  }

  ghost predicate Agreement(x: Tables) {
    forall g | g in x.heap :: GroupAgrees(x.heap[g])
  }

  // ---------------------------------------------------------------- the invariant

  /** The connection `t` waits in the group object it joined. */
  predicate Listed(s: State, t: Tok) {
    && t in s.conns && s.conns[t].group.Some? && s.conns[t].group.value in s.tables.heap
    && var g := s.tables.heap[s.conns[t].group.value];
       s.conns[t].id in g.waiters && g.waiters[s.conns[t].id] == t
  }

  /** The group object `g` is the one registered under its key. */
  predicate Mapped(x: Tables, g: Gid) {
    g in x.heap && x.heap[g].key in x.groups && x.groups[x.heap[g].key] == g
  }

  predicate Open(s: State, t: Tok) {
    t in s.conns && s.conns[t].group.Some? && !s.conns[t].settled
  }

  ghost predicate TablesOk(x: Tables) {
    && Agreement(x)
    && (forall g | g in x.heap :: g < x.nextGid)
    && (forall k | k in x.groups :: x.groups[k] in x.heap && x.heap[x.groups[k]].key == k)
  }

  /** Waiters carry the id and the group object they are listed under. */
  ghost predicate WaitersOk(s: State) {
    forall g, id {:trigger s.tables.heap[g].waiters[id]} | g in s.tables.heap && id in s.tables.heap[g].waiters ::
      var t := s.tables.heap[g].waiters[id];
      && t in s.conns && s.conns[t].id == id && s.conns[t].group == Some(g)
      && (Mapped(s.tables, g) ==> !s.conns[t].settled)
  }

  /** `id` waits unsettled in the detached group of a call. */
  predicate OnList(s: State, g: Gid, id: Id) {
    g in s.tables.heap && id in s.tables.heap[g].waiters && Open(s, s.tables.heap[g].waiters[id])
  }

  ghost predicate WholeOk(s: State, c: Call) {
    && c.at in {GroupClose, Loop, Entry, Auditing, Replying, At.Running}
    && c.group.Some? && c.group.value in s.tables.heap && !Mapped(s.tables, c.group.value)
    && Distinct(c.rest) && (forall id | id in c.rest :: OnList(s, c.group.value, id))
    && (c.held.Some? ==> Listed(s, c.held.value) && s.conns[c.held.value].group == c.group && c.id !in c.rest)
    && (c.at == GroupClose ==> forall id | id in s.tables.heap[c.group.value].waiters :: OnList(s, c.group.value, id))
  }

  ghost predicate CallOk(s: State, c: Call) {
    && (c.held.Some? ==> Open(s, c.held.value) && s.conns[c.held.value].id == c.id)
    && (c.at in {RemoveBegin, GroupClose, Loop} ==> c.held.None?)
    && (c.at in {Auditing, Replying, At.Running} ==> c.held.Some?)
    && if c.whole then WholeOk(s, c)
       else c.at !in {GroupClose, Loop} && c.rest == [] && (c.held.Some? ==> !Listed(s, c.held.value))
  }

  /** Two calls never hold the same waiter or work on the same detached group. */
  predicate Apart(c: Call, d: Call) {
    && (c.held.Some? && d.held.Some? ==> c.held.value != d.held.value)
    && (c.whole && d.whole ==> c.group != d.group)
  }

  ghost predicate CallsOk(s: State) {
    && (forall k | k in s.calls :: k < s.nextTid && CallOk(s, s.calls[k]))
    && (forall k, l | k in s.calls && l in s.calls && k != l :: Apart(s.calls[k], s.calls[l]))
  }

  /** A connection has joined a group once it has passed `Pend`. */
  predicate PcOk(c: Conn) {
    && (c.pc.Resolving? || c.pc.Ops? || c.pc.Executing? || (c.pc.Leaving? && !c.pc.listed) ==> c.group.None?)
    && (c.pc.Writing? || c.pc.Recheck? || c.pc.Parked? || c.pc.Removing? || (c.pc.Leaving? && c.pc.listed) ==>
          c.group.Some?)
  }

  ghost predicate ConnsOk(s: State) {
    forall t | t in s.conns ::
      t < s.nextTok && PcOk(s.conns[t]) && (s.conns[t].settled ==> s.conns[t].group.Some?)
  }

  ghost predicate Inv(s: State) {
    TablesOk(s.tables) && WaitersOk(s) && CallsOk(s) && ConnsOk(s)
  }

  // ---------------------------------------------------------------- frames

  /** What a step must leave alone for the calls that do not take part in it:
      detached groups, and the waiters that are still open. */
  ghost predicate Keeps(s: State, s': State) {
    && (forall g | g in s.tables.heap ::
          && g in s'.tables.heap
          && (!Mapped(s.tables, g) ==>
                !Mapped(s'.tables, g) && s'.tables.heap[g].waiters == s.tables.heap[g].waiters))
    && (forall t | Open(s, t) ::
          && Open(s', t) && s'.conns[t].id == s.conns[t].id && s'.conns[t].group == s.conns[t].group
          && (Listed(s', t) ==> Listed(s, t)))
  }

  lemma KeepsCallOk(s: State, s': State, c: Call)
    requires Keeps(s, s') && CallOk(s, c)
    ensures CallOk(s', c)
  {
    if c.whole {
      assert forall id :: OnList(s, c.group.value, id) ==> OnList(s', c.group.value, id);
    }
  }

  lemma KeepsCalls(s: State, s': State)
    requires Keeps(s, s') && CallsOk(s) && s'.calls == s.calls && s'.nextTid == s.nextTid
    ensures CallsOk(s')
  {
    forall k | k in s'.calls ensures CallOk(s', s'.calls[k]) {
      KeepsCallOk(s, s', s.calls[k]);
    }
  }

  lemma SpawnCalls(s: State, c: Call)
    requires CallsOk(s) && CallOk(s, c) && forall k | k in s.calls :: Apart(s.calls[k], c)
    ensures CallsOk(Spawn(s, c))
  {
    assert Keeps(s, Spawn(s, c));
    forall k | k in Spawn(s, c).calls ensures CallOk(Spawn(s, c), Spawn(s, c).calls[k]) {
      KeepsCallOk(s, Spawn(s, c), if k == s.nextTid then c else s.calls[k]);
    }
  }

  lemma SetCalls(s: State, k: Tid, c: Call)
    requires CallsOk(s) && k in s.calls && CallOk(s, c)
    requires forall l | l in s.calls && l != k :: Apart(s.calls[l], c)
    ensures CallsOk(SetCall(s, k, c))
  {
    assert Keeps(s, SetCall(s, k, c));
    forall l | l in s.calls ensures CallOk(SetCall(s, k, c), if l == k then c else s.calls[l]) {
      KeepsCallOk(s, SetCall(s, k, c), if l == k then c else s.calls[l]);
    }
  }

  lemma EndCalls(s: State, k: Tid)
    requires CallsOk(s)
    ensures CallsOk(EndCall(s, k))
  {
    assert Keeps(s, EndCall(s, k));
    forall l | l in EndCall(s, k).calls ensures CallOk(EndCall(s, k), s.calls[l]) {
      KeepsCallOk(s, EndCall(s, k), s.calls[l]);
    }
  }

  // ---------------------------------------------------------------- connections

  predicate SameWaiter(c: Conn, c': Conn) {
    PcOk(c') && c'.id == c.id && c'.group == c.group && c'.settled == c.settled
  }

  lemma SetConnInv(s: State, s': State, t: Tok, c: Conn)
    requires Inv(s) && t in s.conns && SameWaiter(s.conns[t], c)
    requires s'.conns == s.conns[t := c] && s'.tables == s.tables && s'.calls == s.calls
    requires s'.nextTid == s.nextTid && s'.nextTok == s.nextTok
    ensures Inv(s')
  {
    KeepsCalls(s, s');
  }

  lemma LocalOpShape(cfg: Config, cached: bool, t: Tok, c: Conn, log: Log, a: Answer, op: Op, ops: seq<Op>)
    requires c.group.None?
    ensures SameWaiter(c, LocalOp(cfg, cached, t, c, log, a, op, ops).0)
  {
  }

  lemma LocalStepShape(cfg: Config, cached: bool, t: Tok, c: Conn, log: Log, a: Answer)
    requires PcOk(c)
    ensures SameWaiter(c, LocalStep(cfg, cached, t, c, log, a).0)
  {
    if c.pc.Ops? && c.pc.ops != [] {
      LocalOpShape(cfg, cached, t, c, log, a, c.pc.ops[0], c.pc.ops[1..]);
    }
  }

  lemma SpawnRemovalInv(s: State, t: Tok, c: Conn, id: Id)
    requires Inv(s) && t in s.conns && SameWaiter(s.conns[t], c)
    ensures Inv(Spawn(SetConn(s, t, c), Removal(id)))
  {
    SetConnInv(s, SetConn(s, t, c), t, c);
    SpawnCalls(SetConn(s, t, c), Removal(id));
  }

  lemma JoinTables(x: Tables, gid: Gid, key: Key, id: Id, t: Tok)
    requires TablesOk(x) && gid in x.heap
    ensures TablesOk(Join(x, gid, key, id, t))
    ensures forall g :: Mapped(Join(x, gid, key, id, t), g) <==> Mapped(x, g)
  {
  }

  ghost predicate Joins(s: State, t: Tok, gid: Gid) {
    && Inv(s) && t in s.conns && AtPend(s.conns[t]) && GroupByKey(s.tables, s.conns[t].key) == Some(gid)
    && s.conns[t].id !in s.tables.heap[gid].requests
  }

  lemma JoinKeeps(s: State, t: Tok, gid: Gid)
    requires Joins(s, t, gid)
    ensures Keeps(s, OnPend(s, t, s.conns[t]))
  {
    JoinTables(s.tables, gid, s.conns[t].key, s.conns[t].id, t);
  }

  lemma JoinWaiters(s: State, t: Tok, gid: Gid)
    requires Joins(s, t, gid)
    ensures WaitersOk(OnPend(s, t, s.conns[t]))
  {
    var c, s' := s.conns[t], OnPend(s, t, s.conns[t]);
    JoinTables(s.tables, gid, c.key, c.id, t);
    assert s'.tables.heap[gid].waiters == s.tables.heap[gid].waiters[c.id := t];
  }

  lemma JoinInv(s: State, t: Tok, gid: Gid)
    requires Joins(s, t, gid)
    ensures Inv(OnPend(s, t, s.conns[t]))
  {
    JoinOthers(s, t, gid);
    JoinKeeps(s, t, gid);
    JoinWaiters(s, t, gid);
    KeepsCalls(s, OnPend(s, t, s.conns[t]));
  }

  lemma JoinOthers(s: State, t: Tok, gid: Gid)
    requires Joins(s, t, gid)
    ensures var s' := OnPend(s, t, s.conns[t]);
            TablesOk(s'.tables) && ConnsOk(s') && s'.calls == s.calls && s'.nextTid == s.nextTid
  {
    JoinTables(s.tables, gid, s.conns[t].key, s.conns[t].id, t);
  }

  lemma CreateTables(x: Tables, key: Key, id: Id, t: Tok)
    requires TablesOk(x) && GroupByKey(x, key).None?
    ensures var y := Create(x, key, id, t);
            && TablesOk(y) && x.nextGid !in x.heap
            && y.heap == x.heap[x.nextGid := y.heap[x.nextGid]] && y.heap[x.nextGid].waiters == map[id := t]
            && forall g :: Mapped(y, g) <==> Mapped(x, g) || g == x.nextGid
  {
  }

  ghost predicate Creates(s: State, t: Tok) {
    Inv(s) && t in s.conns && AtPend(s.conns[t]) && GroupByKey(s.tables, s.conns[t].key).None?
  }

  lemma CreateKeeps(s: State, t: Tok)
    requires Creates(s, t)
    ensures Keeps(s, OnPend(s, t, s.conns[t]))
  {
    CreateTables(s.tables, s.conns[t].key, s.conns[t].id, t);
  }

  lemma CreateWaiters(s: State, t: Tok)
    requires Creates(s, t)
    ensures WaitersOk(OnPend(s, t, s.conns[t]))
  {
    CreateTables(s.tables, s.conns[t].key, s.conns[t].id, t);
  }

  lemma CreateInv(s: State, t: Tok)
    requires Creates(s, t)
    ensures Inv(OnPend(s, t, s.conns[t]))
  {
    CreateTables(s.tables, s.conns[t].key, s.conns[t].id, t);
    CreateKeeps(s, t);
    CreateWaiters(s, t);
    KeepsCalls(s, OnPend(s, t, s.conns[t]));
  }

  lemma PendInv(s: State, t: Tok)
    requires Inv(s) && t in s.conns && AtPend(s.conns[t])
    ensures Inv(OnPend(s, t, s.conns[t]))
  {
    var c, gid := s.conns[t], GroupByKey(s.tables, s.conns[t].key);
    if gid.None? {
      CreateInv(s, t);
    } else if c.id in s.tables.heap[gid.value].requests {
      SetConnInv(s, OnPend(s, t, c), t, c.(pc := Finished));
    } else {
      JoinInv(s, t, gid.value);
    }
  }

  lemma ResumeInv(cfg: Config, s: State, t: Tok, a: Answer)
    requires Inv(s) && t in s.conns
    ensures Inv(OnResume(cfg, s, t, s.conns[t], a))
  {
    var c := s.conns[t];
    if AtPend(c) {
      PendInv(s, t);
    } else if c.pc == Leaving(true) {
      SpawnRemovalInv(s, t, c.(pc := Removing(s.nextTid)), c.id);
    } else {
      LocalStepShape(cfg, c.key in s.approvedKeys, t, c, s.log, a);
      SetConnInv(s, OnResume(cfg, s, t, c, a), t, LocalStep(cfg, c.key in s.approvedKeys, t, c, s.log, a).0);
    }
  }

  lemma ArriveInv(s: State, id: Id)
    requires Inv(s)
    ensures Inv(OnArrive(s, id))
  {
    assert Keeps(s, OnArrive(s, id));
    KeepsCalls(s, OnArrive(s, id));
  }

  // ---------------------------------------------------------------- control requests

  lemma StopTimerTables(x: Tables, gid: Gid)
    requires TablesOk(x) && gid in x.heap
    ensures var y := StopTimer(x, gid);
            && TablesOk(y) && y.heap.Keys == x.heap.Keys && forall g | g in x.heap ::
                 y.heap[g].waiters == x.heap[g].waiters && (Mapped(y, g) <==> Mapped(x, g))
  {
  }

  lemma StopTimerInv(s: State, gid: Gid)
    requires Inv(s) && gid in s.tables.heap
    ensures Inv(s.(tables := StopTimer(s.tables, gid))) && Keeps(s, s.(tables := StopTimer(s.tables, gid)))
  {
    StopTimerTables(s.tables, gid);
    KeepsCalls(s, s.(tables := StopTimer(s.tables, gid)));
  }

  function Forget(s: State, k: Key): State {
    s.(tables := s.tables.(groups := s.tables.groups - {k}))
  }

  lemma ForgetInv(s: State, k: Key)
    requires Inv(s)
    ensures Inv(Forget(s, k)) && Keeps(s, Forget(s, k))
    ensures forall g :: Mapped(Forget(s, k).tables, g) <==> Mapped(s.tables, g) && s.tables.heap[g].key != k
  {
    KeepsCalls(s, Forget(s, k));
  }

  function Closing(gid: Gid, mode: Mode): Call {
    Call(GroupClose, true, Some(gid), mode, 0, [], None)
  }

  lemma ClosingOk(s: State, s': State, gid: Gid, mode: Mode)
    requires Inv(s) && Mapped(s.tables, gid) && Keeps(s, s') && !Mapped(s'.tables, gid)
    requires s'.tables.heap[gid].waiters == s.tables.heap[gid].waiters && s'.conns == s.conns
    ensures CallOk(s', Closing(gid, mode))
    ensures forall l | l in s.calls :: Apart(s.calls[l], Closing(gid, mode))
  {
    assert forall id | id in s.tables.heap[gid].waiters :: Open(s, s.tables.heap[gid].waiters[id]);
    forall l | l in s.calls ensures Apart(s.calls[l], Closing(gid, mode)) {
      assert CallOk(s, s.calls[l]);
    }
  }

  lemma DetachInv(s: State, gid: Gid, k: Key, mode: Mode)
    requires Inv(s) && GroupByKey(s.tables, k) == Some(gid)
    ensures Inv(ResolveWhole(s, k, mode))
  {
    var stopped := s.(tables := StopTimer(s.tables, gid));
    StopTimerInv(s, gid);
    StopTimerTables(s.tables, gid);
    ForgetInv(stopped, k);
    ClosingOk(stopped, Forget(stopped, k), gid, mode);
    SpawnCalls(Forget(stopped, k), Closing(gid, mode));
  }

  lemma UnlistTables(x: Tables, gid: Gid, id: Id)
    requires TablesOk(x) && gid in x.heap
    ensures var y := Unlist(x, gid, id);
            && TablesOk(y) && y.heap.Keys == x.heap.Keys
            && y.heap[gid].waiters == x.heap[gid].waiters - {id}
            && (forall g | g in x.heap && g != gid :: y.heap[g].waiters == x.heap[g].waiters)
            && (forall g :: Mapped(y, g) <==> Mapped(x, g))
  {
  }

  lemma UnlistInv(s: State, gid: Gid, id: Id)
    requires Inv(s) && Mapped(s.tables, gid)
    ensures Inv(s.(tables := Unlist(s.tables, gid, id)))
  {
    UnlistTables(s.tables, gid, id);
    KeepsCalls(s, s.(tables := Unlist(s.tables, gid, id)));
  }

  lemma UnlistedIsOpen(s: State, gid: Gid, id: Id)
    requires Inv(s) && Mapped(s.tables, gid) && id in s.tables.heap[gid].waiters
    ensures var t, s' := s.tables.heap[gid].waiters[id], s.(tables := Unlist(s.tables, gid, id));
            Open(s', t) && s'.conns[t].id == id && !Listed(s', t) && Listed(s, t)
  {
  }

  /** A waiter of a registered group is in no call's hands. */
  lemma ListedApart(s: State, gid: Gid, id: Id, l: Tid, c: Call)
    requires Inv(s) && Mapped(s.tables, gid) && l in s.calls
    requires !c.whole && c.held == WaiterOf(s.tables.heap[gid], id)
    ensures Apart(s.calls[l], c)
  {
    assert CallOk(s, s.calls[l]);
    if c.held.Some? && s.calls[l].held.Some? {
      assert s.tables.heap[gid].waiters[id] == c.held.value;
      assert Listed(s, c.held.value);
    }
  }

  lemma SelectInv(s: State, gid: Gid, id: Id, mode: Mode)
    requires Inv(s) && Mapped(s.tables, gid)
    ensures Inv(ResolveSelected(s, gid, id, mode))
  {
    if id in s.tables.heap[gid].requests {
      var x := s.(tables := Unlist(s.tables, gid, id));
      var c := Call(Entry, false, Some(gid), mode, id, [], WaiterOf(s.tables.heap[gid], id));
      UnlistInv(s, gid, id);
      UnlistedIsOpen(s, gid, id);
      forall l | l in s.calls ensures Apart(s.calls[l], c) { ListedApart(s, gid, id, l, c); }
      SpawnCalls(x, c);
    }
  }

  lemma FoundIsMapped(x: Tables, id: Id)
    requires TablesOk(x) && FindGroup(x, id).Some?
    ensures Mapped(x, FindGroup(x, id).value)
    ensures GroupByKey(x, x.heap[FindGroup(x, id).value].key) == FindGroup(x, id)
  {
  }

  lemma GrantInv(s: State, ts: set<Tok>, keys: set<Key>)
    requires Inv(s)
    ensures Inv(Grant(s, ts).(approvedKeys := keys)) && Inv(Grant(s, ts))
  {
    KeepsCalls(s, Grant(s, ts).(approvedKeys := keys));
    KeepsCalls(s, Grant(s, ts));
  }

  lemma ApproveInv(cfg: Config, s: State, id: Id, scope: Option<Scope>)
    requires Inv(s)
    ensures Inv(OnApprove(cfg, s, id, scope))
  {
    if FindGroup(s.tables, id).Some? && scope != Some(OtherScope) {
      FoundIsMapped(s.tables, id);
      var gid := FindGroup(s.tables, id).value;
      var g := s.tables.heap[gid];
      GrantInv(s, Tokens(g.waiters), s.approvedKeys + {g.key});
      GrantInv(s, if id in g.waiters then {g.waiters[id]} else {}, {});
      if (if scope.Some? then scope.value else cfg.defaultScope) == Capability {
        DetachInv(Grant(s, Tokens(g.waiters)).(approvedKeys := s.approvedKeys + {g.key}), gid, g.key, Approving);
      } else {
        SelectInv(Grant(s, if id in g.waiters then {g.waiters[id]} else {}), gid, id, Approving);
      }
    }
  }

  lemma TimeoutInv(s: State, gid: Gid)
    requires Inv(s) && gid in s.tables.heap
    ensures Inv(OnTimeout(s, gid))
  {
    var x, k := s.(tables := StopTimer(s.tables, gid)), s.tables.heap[gid].key;
    StopTimerInv(s, gid);
    if GroupByKey(x.tables, k).Some? {
      DetachInv(x, GroupByKey(x.tables, k).value, k, TimingOut);
    }
  }

  // ---------------------------------------------------------------- running calls

  lemma RemoveBeginInv(s: State, k: Tid)
    requires Inv(s) && k in s.calls && s.calls[k].at == RemoveBegin
    ensures Inv(OnRemoveBegin(s, k, s.calls[k]))
  {
    var c := s.calls[k];
    if FindGroup(s.tables, c.id).None? {
      var x := s.(tables := s.tables.(keyOf := s.tables.keyOf - {c.id}));
      assert Keeps(s, x);
      KeepsCalls(s, x);
      SetCalls(x, k, c.(at := RemoveEntry));
    } else {
      FoundIsMapped(s.tables, c.id);
      var gid := FindGroup(s.tables, c.id).value;
      var d := c.(at := RemoveEntry, group := Some(gid), held := WaiterOf(s.tables.heap[gid], c.id));
      UnlistInv(s, gid, c.id);
      if c.id in s.tables.heap[gid].waiters { UnlistedIsOpen(s, gid, c.id); }
      forall l | l in s.calls ensures Apart(s.calls[l], d) { ListedApart(s, gid, c.id, l, d); }
      SetCalls(s.(tables := Unlist(s.tables, gid, c.id)), k, d);
    }
  }

  lemma DropInv(s: State, gid: Gid, guarded: bool)
    requires Inv(s) && gid in s.tables.heap
    ensures Inv(s.(tables := DropEmpty(s.tables, gid, guarded)))
    ensures Keeps(s, s.(tables := DropEmpty(s.tables, gid, guarded)))
  {
    StopTimerInv(s, gid);
    ForgetInv(s.(tables := StopTimer(s.tables, gid)), s.tables.heap[gid].key);
  }

  /** What remains of a call after it has settled its waiter. */
  function Rest(c: Call): Call {
    c.(at := Loop, held := None)
  }

  /** Only the call itself holds the waiter it settles. */
  lemma OthersStayOpen(s: State, k: Tid, l: Tid)
    requires Inv(s) && k in s.calls && l in s.calls && k != l
    ensures CallOk(Settle(s, s.calls[k].held), s.calls[l])
  {
    var c, d := s.calls[k], s.calls[l];
    assert CallOk(s, c) && CallOk(s, d) && Apart(c, d);
    if d.whole && c.held.Some? {
      forall id | OnList(s, d.group.value, id) ensures OnList(Settle(s, c.held), d.group.value, id) {
        assert s.tables.heap[d.group.value].waiters[id] in s.conns;
      }
    }
  }

  lemma OwnListStaysOpen(s: State, k: Tid)
    requires Inv(s) && k in s.calls && s.calls[k].whole && s.calls[k].at != GroupClose
    ensures CallOk(Settle(s, s.calls[k].held), Rest(s.calls[k]))
  {
    var c := s.calls[k];
    assert CallOk(s, c);
    forall id | id in c.rest ensures OnList(Settle(s, c.held), c.group.value, id) {
      assert s.tables.heap[c.group.value].waiters[id] in s.conns;
    }
  }

  lemma SettleRest(s: State, k: Tid)
    requires Inv(s) && k in s.calls
    ensures var x := Settle(s, s.calls[k].held);
            TablesOk(x.tables) && WaitersOk(x) && ConnsOk(x)
  {
    assert CallOk(s, s.calls[k]);
    if s.calls[k].held.Some? && Listed(s, s.calls[k].held.value) {
      assert !Mapped(s.tables, s.conns[s.calls[k].held.value].group.value);
    }
  }

  lemma EndInv(s: State, k: Tid)
    requires Inv(s) && k in s.calls
    ensures Inv(EndCall(Settle(s, s.calls[k].held), k))
  {
    SettleRest(s, k);
    var x := EndCall(Settle(s, s.calls[k].held), k);
    forall l | l in x.calls ensures CallOk(x, x.calls[l]) {
      OthersStayOpen(s, k, l);
      KeepsCallOk(Settle(s, s.calls[k].held), x, x.calls[l]);
    }
  }

  lemma AdvanceInv(s: State, k: Tid)
    requires Inv(s) && k in s.calls && s.calls[k].at !in {RemoveBegin, RemoveEntry, RemoveClose, GroupClose}
    ensures Inv(Advance(s, k, s.calls[k]))
  {
    var c := s.calls[k];
    if c.whole {
      var y := Settle(s, c.held);
      var x := SetCall(y, k, Rest(c));
      SettleRest(s, k);
      OwnListStaysOpen(s, k);
      forall l | l in x.calls ensures CallOk(x, x.calls[l]) {
        if l != k { OthersStayOpen(s, k, l); }
        KeepsCallOk(y, x, x.calls[l]);
      }
    } else {
      EndInv(s, k);
    }
  }

  lemma RemoveEntryInv(s: State, k: Tid, a: Answer)
    requires Inv(s) && k in s.calls && s.calls[k].at == RemoveEntry
    ensures Inv(OnRemoveEntry(s, k, s.calls[k], a))
  {
    var c := s.calls[k];
    assert CallOk(s, c);
    if a.Throws? {
      EndCalls(s, k);
    } else if RanEmpty(s.tables, c.group) {
      DropInv(s, c.group.value, true);
      SetCalls(s.(tables := DropEmpty(s.tables, c.group.value, true)), k, c.(at := RemoveClose));
    } else {
      EndInv(s, k);
    }
  }

  lemma OrderInv(s: State, k: Tid, ids: seq<Id>)
    requires Inv(s) && k in s.calls && s.calls[k].at == GroupClose && s.calls[k].group.Some?
    requires s.calls[k].group.value in s.tables.heap && IsOrder(ids, s.tables.heap[s.calls[k].group.value])
    ensures Inv(SetCall(s, k, s.calls[k].(at := Loop, rest := ids)))
  {
    var c := s.calls[k].(at := Loop, rest := ids);
    assert CallOk(s, s.calls[k]);
    assert GroupAgrees(s.tables.heap[c.group.value]);
    assert CallOk(s, c);
    SetCalls(s, k, c);
  }

  lemma LoopInv(s: State, k: Tid)
    requires Inv(s) && k in s.calls && s.calls[k].at == Loop
    ensures Inv(OnLoop(s, k, s.calls[k]))
  {
    var c := s.calls[k];
    assert CallOk(s, c);
    if c.rest == [] {
      EndCalls(s, k);
    } else {
      var id, g := c.rest[0], s.tables.heap[c.group.value];
      assert OnList(s, c.group.value, id) && GroupAgrees(g);
      var x := s.(tables := s.tables.(keyOf := s.tables.keyOf - {id}));
      var d := c.(at := Entry, id := id, rest := c.rest[1..], held := WaiterOf(g, id));
      assert Keeps(s, x);
      KeepsCalls(s, x);
      CapturedOk(s, k, id);
      KeepsCallOk(s, x, d);
      SetCalls(x, k, d);
    }
  }

  lemma CapturedOk(s: State, k: Tid, id: Id)
    requires Inv(s) && k in s.calls && s.calls[k].at == Loop && s.calls[k].rest != [] && s.calls[k].rest[0] == id
    ensures var c := s.calls[k];
            && c.group.Some? && c.group.value in s.tables.heap
            && var d := c.(at := Entry, id := id, rest := c.rest[1..],
                           held := WaiterOf(s.tables.heap[c.group.value], id));
               CallOk(s, d) && forall l | l in s.calls && l != k :: Apart(s.calls[l], d)
  {
    var c := s.calls[k];
    assert CallOk(s, c) && OnList(s, c.group.value, id);
    assert forall j | j in c.rest[1..] :: j in c.rest && j != id;
    forall l | l in s.calls && l != k
      ensures Apart(s.calls[l], c.(at := Entry, held := Some(s.tables.heap[c.group.value].waiters[id])))
    {
      assert CallOk(s, s.calls[l]) && Apart(s.calls[k], s.calls[l]);
      assert Listed(s, s.tables.heap[c.group.value].waiters[id]);
    }
  }

  lemma DecideShape(s: State, c: Call, a: Answer)
    requires Inv(s) && CallOk(s, c) && c.held.Some?
    ensures SameWaiter(s.conns[c.held.value], Decide(c, c.held.value, s.conns[c.held.value], s.log, a).1)
    ensures Decide(c, c.held.value, s.conns[c.held.value], s.log, a).0.Some? ==>
              Decide(c, c.held.value, s.conns[c.held.value], s.log, a).0.value in {Auditing, Replying, At.Running}
  {
  }

  lemma MoveInv(s: State, k: Tid, at: At)
    requires Inv(s) && k in s.calls && s.calls[k].held.Some? && at in {Auditing, Replying, At.Running}
    requires s.calls[k].whole ==> s.calls[k].at != GroupClose
    ensures Inv(SetCall(s, k, s.calls[k].(at := at)))
  {
    assert CallOk(s, s.calls[k]);
    SetCalls(s, k, s.calls[k].(at := at));
  }

  lemma DecideInv(s: State, k: Tid, a: Answer)
    requires Inv(s) && k in s.calls && s.calls[k].at in {Entry, EntryClose, Auditing, Replying, At.Running}
    ensures Inv(OnDecide(s, k, s.calls[k], a))
  {
    var c := s.calls[k];
    assert CallOk(s, c);
    if c.held.None? {
      AdvanceInv(s, k);
    } else {
      var (at, conn, log) := Decide(c, c.held.value, s.conns[c.held.value], s.log, a);
      var x := SetConn(s, c.held.value, conn).(log := log);
      DecideShape(s, c, a);
      SetConnInv(s, x, c.held.value, conn);
      if at.Some? {
        MoveInv(x, k, at.value);
      } else {
        AdvanceInv(x, k);
      }
    }
  }

  lemma EntryInv(cfg: Config, s: State, k: Tid, a: Answer)
    requires Inv(s) && k in s.calls && s.calls[k].at == Entry
    ensures Inv(OnEntry(cfg, s, k, s.calls[k], a))
  {
    var c := s.calls[k];
    assert CallOk(s, c);
    if a.Throws? {
      EndCalls(s, k);
    } else if !c.whole && RanEmpty(s.tables, c.group) {
      DropInv(s, c.group.value, cfg.guarded);
      SetCalls(s.(tables := DropEmpty(s.tables, c.group.value, cfg.guarded)), k, c.(at := EntryClose));
    } else {
      DecideInv(s, k, a);
    }
  }

  lemma WorkInv(cfg: Config, s: State, k: Tid, a: Answer)
    requires Inv(s) && Enabled(s, Work(k, a))
    ensures Inv(OnWork(cfg, s, k, s.calls[k], a))
  {
    match s.calls[k].at
    case RemoveBegin => RemoveBeginInv(s, k);
    case RemoveEntry => RemoveEntryInv(s, k, a);
    case RemoveClose => EndInv(s, k);
    case GroupClose => OrderInv(s, k, a.ids);
    case Loop => LoopInv(s, k);
    case Entry => EntryInv(cfg, s, k, a);
    case _ => DecideInv(s, k, a);
  }

  lemma StepInv(cfg: Config, s: State, e: Event)
    requires Inv(s) && Enabled(s, e)
    ensures Inv(Step(cfg, s, e))
  {
    match e
    case Arrive(id) => ArriveInv(s, id);
    case Resume(t, a) => ResumeInv(cfg, s, t, a);
    case Cancel(t) =>
      SpawnRemovalInv(s, t, s.conns[t].(life := Cancelled, cleanup := Some(s.nextTid)), s.conns[t].id);
    case Approve(id, scope) => ApproveInv(cfg, s, id, scope);
    case DenyRequest(id) =>
      if FindGroup(s.tables, id).Some? {
        FoundIsMapped(s.tables, id);
        SelectInv(s, FindGroup(s.tables, id).value, id, Denying);
      }
    case Timeout(gid) => TimeoutInv(s, gid);
    case Work(k, a) => WorkInv(cfg, s, k, a);
  }

  lemma {:induction false} RunInv(cfg: Config, ss: seq<State>, es: seq<Event>, i: nat)
    requires IsRun(cfg, ss, es) && i < |ss|
    ensures Inv(ss[i])
  {
    if i > 0 {
      RunInv(cfg, ss, es, i - 1);
      StepInv(cfg, ss[i - 1], es[i - 1]);
    }
  }

  /** At every await point of every interleaving: each registered group lists the
      same requests in its four tables, every waiter is listed under its own id in
      the group it joined, and no waiter listed in a registered group is settled. */
  lemma TablesAgree(cfg: Config, ss: seq<State>, es: seq<Event>, i: nat, k: Key, id: Id)
    requires IsRun(cfg, ss, es) && i < |ss| && k in ss[i].tables.groups
    ensures var s, x := ss[i], ss[i].tables;
            && x.groups[k] in x.heap
            && var g := x.heap[x.groups[k]];
               && g.key == k && g.requestIds == g.requests.Keys == g.waiters.Keys == g.pendingEntries.Keys
               && (id in g.waiters ==>
                     && g.requests[id] == g.waiters[id] && g.waiters[id] in s.conns
                     && s.conns[g.waiters[id]].id == id && !s.conns[g.waiters[id]].settled)
  {
    RunInv(cfg, ss, es, i);
    assert GroupAgrees(ss[i].tables.heap[ss[i].tables.groups[k]]);
  }
}
