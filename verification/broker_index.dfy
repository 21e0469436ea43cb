/** When `requestToApprovalKey` leads from every listed request back to its group. */
module BrokerIndex {
  import opened Wrappers
  import opened Broker
  import opened BrokerTables

  predicate Lists(x: Tables, g: Gid, id: Id) {
    Mapped(x, g) && id in x.heap[g].waiters
  }

  /** A registered group and a request listed in it find each other. */
  ghost predicate MapsBack(x: Tables) {
    forall g, id | Lists(x, g, id) :: id in x.keyOf && x.keyOf[id] == x.heap[g].key
  }

  ghost predicate ListedElsewhere(x: Tables, id: Id, key: Key) {
    exists g :: Lists(x, g, id) && x.heap[g].key != key
  }

  ghost predicate ListedAnywhere(x: Tables, id: Id) {
    exists g :: Lists(x, g, id)
  }

  /** The two events that break the index: a connection joins under an id that another
      registered group still lists, and the loop of `resolveGroup` forgets an id of
      its detached group that a registered group lists again. */
  ghost predicate Unmaps(s: State, e: Event) {
    match e
    case Resume(t, _) =>
      t in s.conns && AtPend(s.conns[t]) && ListedElsewhere(s.tables, s.conns[t].id, s.conns[t].key)
    case Work(k, _) =>
      k in s.calls && s.calls[k].at == Loop && s.calls[k].rest != [] && ListedAnywhere(s.tables, s.calls[k].rest[0])
    case _ => false
  }

  // ---------------------------------------------------------------- table operations

  lemma JoinMaps(x: Tables, gid: Gid, id: Id, t: Tok)
    requires TablesOk(x) && MapsBack(x) && Mapped(x, gid)
    ensures MapsBack(Join(x, gid, x.heap[gid].key, id, t)) <==> !ListedElsewhere(x, id, x.heap[gid].key)
  {
    var y := Join(x, gid, x.heap[gid].key, id, t);
    JoinTables(x, gid, x.heap[gid].key, id, t);
    forall g | Lists(x, g, id) && x.heap[g].key != x.heap[gid].key ensures !MapsBack(y) {
      assert Lists(y, g, id);
    }
    assert forall g, i | Lists(y, g, i) :: Lists(x, g, i) || (g == gid && i == id);
  }

  lemma CreateMaps(x: Tables, key: Key, id: Id, t: Tok)
    requires TablesOk(x) && MapsBack(x) && GroupByKey(x, key).None?
    ensures MapsBack(Create(x, key, id, t)) <==> !ListedElsewhere(x, id, key)
  {
    var y := Create(x, key, id, t);
    CreateTables(x, key, id, t);
    forall g | Lists(x, g, id) && x.heap[g].key != key ensures !MapsBack(y) {
      assert Lists(y, g, id);
    }
    assert forall g, i | Lists(y, g, i) :: Lists(x, g, i) || (g == x.nextGid && i == id);
  }

  lemma UnlistMaps(x: Tables, id: Id)
    requires TablesOk(x) && MapsBack(x) && FindGroup(x, id).Some?
    ensures MapsBack(Unlist(x, FindGroup(x, id).value, id))
  {
    var gid := FindGroup(x, id).value;
    UnlistTables(x, gid, id);
    assert forall g, i | Lists(Unlist(x, gid, id), g, i) :: Lists(x, g, i);
  }

  lemma ForgetMaps(x: Tables, id: Id)
    requires TablesOk(x) && MapsBack(x)
    ensures MapsBack(x.(keyOf := x.keyOf - {id})) <==> !ListedAnywhere(x, id)
  {
    var y := x.(keyOf := x.keyOf - {id});
    forall g | Lists(x, g, id) ensures !MapsBack(y) {
      assert Lists(y, g, id);
    }
    assert forall g, i | Lists(y, g, i) :: Lists(x, g, i);
  }

  lemma NotFoundIsUnlisted(x: Tables, id: Id)
    requires TablesOk(x) && MapsBack(x) && FindGroup(x, id).None?
    ensures !ListedAnywhere(x, id)
  {
  }

  /** Tables that list no more than `x` did. */
  lemma FewerMaps(x: Tables, y: Tables)
    requires MapsBack(x) && y.keyOf == x.keyOf
    requires forall g | Mapped(y, g) ::
          Mapped(x, g) && y.heap[g].key == x.heap[g].key && y.heap[g].waiters == x.heap[g].waiters
    ensures MapsBack(y)
  {
    assert forall g, i | Lists(y, g, i) :: Lists(x, g, i);
  }

  lemma StopMaps(x: Tables, gid: Gid)
    requires MapsBack(x) && gid in x.heap
    ensures MapsBack(StopTimer(x, gid))
  {
    FewerMaps(x, StopTimer(x, gid));
  }

  lemma DetachMaps(x: Tables, gid: Gid, k: Key)
    requires MapsBack(x) && gid in x.heap
    ensures MapsBack(Detach(x, gid, k))
  {
    FewerMaps(x, Detach(x, gid, k));
  }

  // ---------------------------------------------------------------- steps

  lemma PendMaps(s: State, t: Tok)
    requires Inv(s) && MapsBack(s.tables) && t in s.conns && AtPend(s.conns[t])
    ensures MapsBack(OnPend(s, t, s.conns[t]).tables) <==> !ListedElsewhere(s.tables, s.conns[t].id, s.conns[t].key)
  {
    var c, x := s.conns[t], s.tables;
    if GroupByKey(x, c.key).None? {
      CreateMaps(x, c.key, c.id, t);
    } else {
      var gid := GroupByKey(x, c.key).value;
      assert GroupAgrees(x.heap[gid]);
      if c.id in x.heap[gid].requests {
        assert Lists(x, gid, c.id);
      } else {
        JoinMaps(x, gid, c.id, t);
      }
    }
  }

  lemma ApproveMaps(cfg: Config, s: State, id: Id, scope: Option<Scope>)
    requires Inv(s) && MapsBack(s.tables)
    ensures MapsBack(OnApprove(cfg, s, id, scope).tables)
  {
    if FindGroup(s.tables, id).Some? {
      UnlistMaps(s.tables, id);
      FoundIsMapped(s.tables, id);
      DetachMaps(s.tables, FindGroup(s.tables, id).value, s.tables.heap[FindGroup(s.tables, id).value].key);
    }
  }

  lemma TimeoutMaps(s: State, gid: Gid)
    requires Inv(s) && MapsBack(s.tables) && gid in s.tables.heap
    ensures MapsBack(OnTimeout(s, gid).tables)
  {
    var x, k := StopTimer(s.tables, gid), s.tables.heap[gid].key;
    StopMaps(s.tables, gid);
    if GroupByKey(x, k).Some? { DetachMaps(x, GroupByKey(x, k).value, k); }
  }

  lemma DropMaps(x: Tables, gid: Gid, guarded: bool)
    requires MapsBack(x) && gid in x.heap
    ensures MapsBack(DropEmpty(x, gid, guarded))
  {
    StopMaps(x, gid);
    DetachMaps(x, gid, x.heap[gid].key);
  }

  lemma LoopMaps(s: State, k: Tid)
    requires Inv(s) && MapsBack(s.tables) && k in s.calls && s.calls[k].at == Loop
    ensures MapsBack(OnLoop(s, k, s.calls[k]).tables) <==>
            !(s.calls[k].rest != [] && ListedAnywhere(s.tables, s.calls[k].rest[0]))
  {
    var c := s.calls[k];
    assert CallOk(s, c);
    if c.rest != [] {
      assert OnList(s, c.group.value, c.rest[0]) && GroupAgrees(s.tables.heap[c.group.value]);
      ForgetMaps(s.tables, c.rest[0]);
    }
  }

  lemma RemoveBeginMaps(s: State, k: Tid, c: Call)
    requires Inv(s) && MapsBack(s.tables)
    ensures MapsBack(OnRemoveBegin(s, k, c).tables)
  {
    if FindGroup(s.tables, c.id).None? {
      NotFoundIsUnlisted(s.tables, c.id);
      ForgetMaps(s.tables, c.id);
    } else {
      UnlistMaps(s.tables, c.id);
    }
  }

  lemma DecideKeepsTables(s: State, k: Tid, c: Call, a: Answer)
    ensures OnDecide(s, k, c, a).tables == s.tables
  {
  }

  lemma WorkMaps(cfg: Config, s: State, k: Tid, a: Answer)
    requires Inv(s) && MapsBack(s.tables) && Enabled(s, Work(k, a))
    ensures MapsBack(OnWork(cfg, s, k, s.calls[k], a).tables) <==> !Unmaps(s, Work(k, a))
  {
    var c := s.calls[k];
    DecideKeepsTables(s, k, c, a);
    match c.at
    case RemoveBegin => RemoveBeginMaps(s, k, c);
    case RemoveEntry => if RanEmpty(s.tables, c.group) { DropMaps(s.tables, c.group.value, true); }
    case Entry => if RanEmpty(s.tables, c.group) { DropMaps(s.tables, c.group.value, cfg.guarded); }
    case Loop => LoopMaps(s, k);
    case _ =>
  }

  /** One step from a state whose index is complete keeps it complete if and only if
      it is not one of the two events that meet an id listed twice. */
  lemma BreaksExactlyOnUnmap(cfg: Config, s: State, e: Event)
    requires Inv(s) && MapsBack(s.tables) && Enabled(s, e)
    ensures MapsBack(Step(cfg, s, e).tables) <==> !Unmaps(s, e)
  {
    match e
    case Arrive(_) =>
    case Cancel(_) =>
    case Resume(t, a) => if AtPend(s.conns[t]) { PendMaps(s, t); }
    case Approve(id, scope) => ApproveMaps(cfg, s, id, scope);
    case DenyRequest(id) => if FindGroup(s.tables, id).Some? { UnlistMaps(s.tables, id); }
    case Timeout(gid) => TimeoutMaps(s, gid);
    case Work(k, a) => WorkMaps(cfg, s, k, a);
  }

  // ---------------------------------------------------------------- fresh ids

  /** Every connection brings an id of its own. */
  ghost predicate OwnIds(s: State) {
    forall t, u | t in s.conns && u in s.conns && s.conns[t].id == s.conns[u].id :: t == u
  }

  lemma ListedUnderOwnId(s: State, g: Gid, t: Tok)
    requires Inv(s) && OwnIds(s) && t in s.conns && Lists(s.tables, g, s.conns[t].id)
    ensures s.conns[t].group == Some(g)
  {
    assert s.tables.heap[g].waiters[s.conns[t].id] == t;
  }

  lemma OwnIdsKeepTheIndex(s: State, e: Event)
    requires Inv(s) && OwnIds(s)
    ensures !Unmaps(s, e)
  {
    if e.Work? && e.tid in s.calls && s.calls[e.tid].at == Loop && s.calls[e.tid].rest != [] {
      var c := s.calls[e.tid];
      assert CallOk(s, c) && OnList(s, c.group.value, c.rest[0]);
      forall g | Lists(s.tables, g, c.rest[0]) ensures false {
        ListedUnderOwnId(s, g, s.tables.heap[c.group.value].waiters[c.rest[0]]);
      }
    }
    if e.Resume? && e.tok in s.conns && AtPend(s.conns[e.tok]) {
      forall g | Lists(s.tables, g, s.conns[e.tok].id) ensures false {
        ListedUnderOwnId(s, g, e.tok);
      }
    }
  }

  predicate FreshIds(es: seq<Event>) {
    forall i, j | 0 <= i < j < |es| && es[i].Arrive? && es[j].Arrive? :: es[i].id != es[j].id
  }

  predicate Arrived(es: seq<Event>, n: nat, id: Id) {
    exists j | 0 <= j < n && j < |es| :: es[j] == Arrive(id)
  }

  predicate SameIdAt(s: State, s': State, t: Tok) {
    (t in s'.conns <==> t in s.conns) && (t in s.conns ==> s'.conns[t].id == s.conns[t].id)
  }

  lemma LocalIds(cfg: Config, cached: bool, t: Tok, c: Conn, log: Log, a: Answer)
    ensures LocalStep(cfg, cached, t, c, log, a).0.id == c.id
  {
    if c.pc.Ops? && c.pc.ops != [] {
      assert LocalOp(cfg, cached, t, c, log, a, c.pc.ops[0], c.pc.ops[1..]).0.id == c.id;
    }
  }

  lemma ResumeIds(cfg: Config, s: State, t: Tok, a: Answer, u: Tok)
    requires t in s.conns
    ensures SameIdAt(s, OnResume(cfg, s, t, s.conns[t], a), u)
  {
    LocalIds(cfg, s.conns[t].key in s.approvedKeys, t, s.conns[t], s.log, a);
  }

  lemma DecideIds(s: State, k: Tid, c: Call, a: Answer, u: Tok)
    ensures SameIdAt(s, OnDecide(s, k, c, a), u)
  {
    if c.held.Some? && c.held.value in s.conns {
      assert Decide(c, c.held.value, s.conns[c.held.value], s.log, a).1.id == s.conns[c.held.value].id;
    }
  }

  lemma EndIds(s: State, k: Tid, held: Option<Tok>, u: Tok)
    ensures SameIdAt(s, EndCall(Settle(s, held), k), u)
  {
  }

  lemma WorkIds(cfg: Config, s: State, k: Tid, a: Answer, u: Tok)
    requires k in s.calls
    ensures SameIdAt(s, OnWork(cfg, s, k, s.calls[k], a), u)
  {
    var c := s.calls[k];
    match c.at
    case RemoveBegin =>
    case RemoveEntry => EndIds(s, k, c.held, u);
    case RemoveClose => EndIds(s, k, c.held, u);
    case GroupClose =>
    case Loop =>
    case _ => DecideIds(s, k, c, a, u);
  }

  lemma StepIds(cfg: Config, s: State, e: Event, u: Tok)
    requires Enabled(s, e)
    ensures SameIdAt(s, Step(cfg, s, e), u)
            || (u == s.nextTok && u in Step(cfg, s, e).conns && e == Arrive(Step(cfg, s, e).conns[u].id))
  {
    match e
    case Arrive(_) =>
    case Cancel(_) =>
    case Resume(t, a) => ResumeIds(cfg, s, t, a, u);
    case Approve(_, _) =>
    case DenyRequest(_) =>
    case Timeout(_) =>
    case Work(k, a) => WorkIds(cfg, s, k, a, u);
  }

  lemma RunIds(cfg: Config, ss: seq<State>, es: seq<Event>, i: nat, t: Tok)
    requires IsRun(cfg, ss, es) && i < |ss| && t in ss[i].conns
    ensures Arrived(es, i, ss[i].conns[t].id)
  {
    if i > 0 {
      StepIds(cfg, ss[i - 1], es[i - 1], t);
      if t in ss[i - 1].conns && ss[i].conns[t].id == ss[i - 1].conns[t].id { RunIds(cfg, ss, es, i - 1, t); }
    }
  }

  lemma {:induction false} RunOwnIds(cfg: Config, ss: seq<State>, es: seq<Event>, i: nat)
    requires IsRun(cfg, ss, es) && i < |ss| && FreshIds(es)
    ensures OwnIds(ss[i])
  {
    if i > 0 {
      RunOwnIds(cfg, ss, es, i - 1);
      forall t, u | t in ss[i].conns && u in ss[i].conns && ss[i].conns[t].id == ss[i].conns[u].id ensures t == u {
        StepIds(cfg, ss[i - 1], es[i - 1], t);
        StepIds(cfg, ss[i - 1], es[i - 1], u);
        if t in ss[i - 1].conns { RunIds(cfg, ss, es, i - 1, t); }
        if u in ss[i - 1].conns { RunIds(cfg, ss, es, i - 1, u); }
      }
    }
  }

  lemma {:induction false} KeptUpTo(cfg: Config, ss: seq<State>, es: seq<Event>, i: nat)
    requires IsRun(cfg, ss, es) && i < |ss| && forall j | 0 <= j < i :: !Unmaps(ss[j], es[j])
    ensures MapsBack(ss[i].tables)
  {
    if i > 0 {
      KeptUpTo(cfg, ss, es, i - 1);
      RunInv(cfg, ss, es, i - 1);
      BreaksExactlyOnUnmap(cfg, ss[i - 1], es[i - 1]);
    }
  }

  /** Over a whole run: the index is complete at every await point, if and only if no
      event meets an id that is listed twice. */
  lemma IndexCompleteIffNothingUnmaps(cfg: Config, ss: seq<State>, es: seq<Event>)
    requires IsRun(cfg, ss, es)
    ensures (forall i | 0 <= i < |ss| :: MapsBack(ss[i].tables)) <==>
        (forall i | 0 <= i < |es| :: !Unmaps(ss[i], es[i]))
  {
    if forall i | 0 <= i < |es| :: !Unmaps(ss[i], es[i]) {
      forall i | 0 <= i < |ss| ensures MapsBack(ss[i].tables) { KeptUpTo(cfg, ss, es, i); }
    } else {
      var i :| 0 <= i < |es| && Unmaps(ss[i], es[i]);
      RunInv(cfg, ss, es, i);
      if MapsBack(ss[i].tables) {
        BreaksExactlyOnUnmap(cfg, ss[i], es[i]);
        assert !MapsBack(ss[i + 1].tables);
      }
    }
  }

  /** If no request id arrives twice, every id in a registered group leads back
      through `requestToApprovalKey` to the key of that group, at every await point. */
  lemma FreshIdsMapBack(cfg: Config, ss: seq<State>, es: seq<Event>, i: nat, k: Key, id: Id)
    requires IsRun(cfg, ss, es) && i < |ss| && FreshIds(es)
    requires k in ss[i].tables.groups && ss[i].tables.groups[k] in ss[i].tables.heap
    requires id in ss[i].tables.heap[ss[i].tables.groups[k]].requestIds
    ensures id in ss[i].tables.keyOf && ss[i].tables.keyOf[id] == k
    ensures FindGroup(ss[i].tables, id) == Some(ss[i].tables.groups[k])
  {
    forall j | 0 <= j < i ensures !Unmaps(ss[j], es[j]) {
      RunInv(cfg, ss, es, j);
      RunOwnIds(cfg, ss, es, j);
      OwnIdsKeepTheIndex(ss[j], es[j]);
    }
    KeptUpTo(cfg, ss, es, i);
    RunInv(cfg, ss, es, i);
    assert GroupAgrees(ss[i].tables.heap[ss[i].tables.groups[k]]);
    assert Lists(ss[i].tables, ss[i].tables.groups[k], id);
  }
}
