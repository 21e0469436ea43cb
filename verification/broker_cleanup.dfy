/** What the broker clears away: the groups that ran empty, the requests of cancelled
    connections, and the ids that `requestToApprovalKey` no longer needs. */
module BrokerCleanup {
  import opened Wrappers
  import opened Broker
  import opened BrokerTables
  import opened BrokerIndex
  import BrokerLoss
  import opened BrokerProgress
  import opened BrokerGrants
  import opened BrokerPaths

  // ---------------------------------------------------------------- groups that ran empty

  /** Registered, with no request left. */
  predicate IsEmpty(x: Tables, g: Gid) {
    Mapped(x, g) && x.heap[g].requests == map[]
  }

  /** The call has taken a request out of `g` and looks next whether it ran empty. */
  predicate Looks(c: Call, g: Gid) {
    c.group == Some(g) && (c.at == RemoveEntry || (c.at == Entry && !c.whole))
  }

  ghost predicate SomeoneLooks(s: State, g: Gid) {
    exists k | k in s.calls :: Looks(s.calls[k], g)
  }

  /** The file removal before that look fails. */
  predicate LookFails(s: State, e: Event, g: Gid) {
    e.Work? && e.answer.Throws? && e.tid in s.calls && Looks(s.calls[e.tid], g)
  }

  lemma StillLooks(s: State, s': State, g: Gid, k: Tid)
    requires IsEmpty(s.tables, g) ==> SomeoneLooks(s, g)
    requires IsEmpty(s'.tables, g) ==> IsEmpty(s.tables, g)
    requires forall l | l in s.calls && l != k :: l in s'.calls && s'.calls[l] == s.calls[l]
    requires k in s.calls && Looks(s.calls[k], g) ==> k in s'.calls && Looks(s'.calls[k], g)
    ensures IsEmpty(s'.tables, g) ==> SomeoneLooks(s', g)
  {
    if IsEmpty(s'.tables, g) {
      var l :| l in s.calls && Looks(s.calls[l], g);
      assert l in s'.calls && Looks(s'.calls[l], g);
    }
  }

  lemma PendLooks(s: State, t: Tok, g: Gid)
    requires Inv(s) && t in s.conns && AtPend(s.conns[t]) && (IsEmpty(s.tables, g) ==> SomeoneLooks(s, g))
    ensures IsEmpty(OnPend(s, t, s.conns[t]).tables, g) ==> SomeoneLooks(OnPend(s, t, s.conns[t]), g)
  {
    var z, id := OnPend(s, t, s.conns[t]), s.conns[t].id;
    if z.conns[t].pc.Writing? { assert id in z.tables.heap[z.conns[t].group.value].requests; }
    StillLooks(s, z, g, s.nextTid);
  }

  lemma ResumeLooks(cfg: Config, s: State, t: Tok, a: Answer, g: Gid)
    requires Inv(s) && t in s.conns && (IsEmpty(s.tables, g) ==> SomeoneLooks(s, g))
    ensures var z := OnResume(cfg, s, t, s.conns[t], a); IsEmpty(z.tables, g) ==> SomeoneLooks(z, g)
  {
    if AtPend(s.conns[t]) {
      PendLooks(s, t, g);
    } else {
      StillLooks(s, OnResume(cfg, s, t, s.conns[t], a), g, s.nextTid);
    }
  }

  lemma SelectLooks(s: State, x: State, gid: Gid, id: Id, mode: Mode, g: Gid)
    requires Inv(s) && gid in s.tables.heap && (IsEmpty(s.tables, g) ==> SomeoneLooks(s, g))
    requires x.tables == s.tables && x.calls == s.calls && x.nextTid == s.nextTid
    ensures var z := ResolveSelected(x, gid, id, mode); IsEmpty(z.tables, g) ==> SomeoneLooks(z, g)
  {
    var z := ResolveSelected(x, gid, id, mode);
    if g == gid && id in s.tables.heap[gid].requests {
      assert s.nextTid in z.calls && Looks(z.calls[s.nextTid], g);
    } else {
      StillLooks(s, z, g, s.nextTid);
    }
  }

  lemma WholeLooks(s: State, x: State, k: Key, mode: Mode, g: Gid)
    requires Inv(s) && (IsEmpty(s.tables, g) ==> SomeoneLooks(s, g))
    requires x.calls == s.calls && x.nextTid == s.nextTid && (IsEmpty(x.tables, g) ==> IsEmpty(s.tables, g))
    ensures var z := ResolveWhole(x, k, mode); IsEmpty(z.tables, g) ==> SomeoneLooks(z, g)
  {
    StillLooks(s, ResolveWhole(x, k, mode), g, s.nextTid);
  }

  lemma ApproveLooks(cfg: Config, s: State, id: Id, scope: Option<Scope>, g: Gid)
    requires Inv(s) && (IsEmpty(s.tables, g) ==> SomeoneLooks(s, g))
    ensures var z := OnApprove(cfg, s, id, scope); IsEmpty(z.tables, g) ==> SomeoneLooks(z, g)
  {
    if FindGroup(s.tables, id).Some? {
      var gid := FindGroup(s.tables, id).value;
      var h := s.tables.heap[gid];
      WholeLooks(s, Grant(s, Tokens(h.waiters)).(approvedKeys := s.approvedKeys + {h.key}), h.key, Approving, g);
      SelectLooks(s, Grant(s, if id in h.waiters then {h.waiters[id]} else {}), gid, id, Approving, g);
    }
  }

  lemma RemoveBeginLooks(s: State, k: Tid, g: Gid)
    requires Inv(s) && k in s.calls && s.calls[k].at == RemoveBegin && (IsEmpty(s.tables, g) ==> SomeoneLooks(s, g))
    ensures var z := OnRemoveBegin(s, k, s.calls[k]); IsEmpty(z.tables, g) ==> SomeoneLooks(z, g)
  {
    var z := OnRemoveBegin(s, k, s.calls[k]);
    if FindGroup(s.tables, s.calls[k].id) == Some(g) {
      assert k in z.calls && Looks(z.calls[k], g);
    } else {
      StillLooks(s, z, g, k);
    }
  }

  lemma DropEmpties(x: Tables, gid: Gid, guarded: bool, g: Gid)
    requires gid in x.heap
    ensures IsEmpty(DropEmpty(x, gid, guarded), g) ==> IsEmpty(x, g) && g != gid
  {
  }

  lemma WorkEmpties(cfg: Config, s: State, k: Tid, a: Answer, g: Gid)
    requires k in s.calls && s.calls[k].at != RemoveBegin
    ensures var z := OnWork(cfg, s, k, s.calls[k], a);
            IsEmpty(z.tables, g) ==> IsEmpty(s.tables, g) && (a.Throws? || !Looks(s.calls[k], g))
  {
    var c := s.calls[k];
    match c.at
    case RemoveEntry => if RanEmpty(s.tables, c.group) { DropEmpties(s.tables, c.group.value, true, g); }
    case RemoveClose =>
    case GroupClose =>
    case Loop =>
    case Entry =>
      DecideTables(s, k, c, a);
      if RanEmpty(s.tables, c.group) { DropEmpties(s.tables, c.group.value, cfg.guarded, g); }
    case _ => DecideTables(s, k, c, a);
  }

  lemma DecideCalls(s: State, k: Tid, c: Call, a: Answer)
    ensures var z := OnDecide(s, k, c, a);
            forall l | l in s.calls && l != k :: l in z.calls && z.calls[l] == s.calls[l]
  {
  }

  lemma WorkCalls(cfg: Config, s: State, k: Tid, a: Answer)
    requires k in s.calls
    ensures var z := OnWork(cfg, s, k, s.calls[k], a);
            forall l | l in s.calls && l != k :: l in z.calls && z.calls[l] == s.calls[l]
  {
    match s.calls[k].at
    case RemoveBegin =>
    case RemoveEntry =>
    case RemoveClose =>
    case GroupClose =>
    case Loop =>
    case _ => DecideCalls(s, k, s.calls[k], a);
  }

  /** The look itself: a group that ran empty is no longer registered afterwards. */
  lemma LookDrops(cfg: Config, s: State, k: Tid, a: Answer, g: Gid)
    requires k in s.calls && Looks(s.calls[k], g) && !a.Throws?
    ensures !IsEmpty(OnWork(cfg, s, k, s.calls[k], a).tables, g)
  {
    WorkEmpties(cfg, s, k, a, g);
  }

  lemma OthersDropLooks(cfg: Config, s: State, k: Tid, a: Answer, g: Gid)
    requires k in s.calls && !Looks(s.calls[k], g) && s.calls[k].at != RemoveBegin
    requires IsEmpty(s.tables, g) ==> SomeoneLooks(s, g)
    ensures var z := OnWork(cfg, s, k, s.calls[k], a); IsEmpty(z.tables, g) ==> SomeoneLooks(z, g)
  {
    WorkEmpties(cfg, s, k, a, g);
    WorkCalls(cfg, s, k, a);
    StillLooks(s, OnWork(cfg, s, k, s.calls[k], a), g, k);
  }

  lemma StepLooks(cfg: Config, s: State, e: Event, g: Gid)
    requires Inv(s) && Enabled(s, e) && !LookFails(s, e, g) && (IsEmpty(s.tables, g) ==> SomeoneLooks(s, g))
    ensures IsEmpty(Step(cfg, s, e).tables, g) ==> SomeoneLooks(Step(cfg, s, e), g)
  {
    match e
    case Arrive(_) => StillLooks(s, Step(cfg, s, e), g, s.nextTid);
    case Cancel(_) => StillLooks(s, Step(cfg, s, e), g, s.nextTid);
    case Resume(t, a) => ResumeLooks(cfg, s, t, a, g);
    case Approve(id, scope) => ApproveLooks(cfg, s, id, scope, g);
    case DenyRequest(id) =>
      if FindGroup(s.tables, id).Some? { SelectLooks(s, s, FindGroup(s.tables, id).value, id, Denying, g); }
    case Timeout(gid) => WholeLooks(s, s.(tables := StopTimer(s.tables, gid)), s.tables.heap[gid].key, TimingOut, g);
    case Work(k, a) =>
      if Looks(s.calls[k], g) {
        LookDrops(cfg, s, k, a, g);
      } else if s.calls[k].at == RemoveBegin {
        RemoveBeginLooks(s, k, g);
      } else {
        OthersDropLooks(cfg, s, k, a, g);
      }
  }

  /** A registered group without requests does not stay: at every await point some call is
      about to look, and its next step drops the group, unless a file removal before such a
      look has failed. */
  lemma {:induction false} EmptyGroupIsDropped(cfg: Config, ss: seq<State>, es: seq<Event>, i: nat, g: Gid)
    requires IsRun(cfg, ss, es) && i < |ss| && IsEmpty(ss[i].tables, g)
    requires forall j | 0 <= j < i :: !LookFails(ss[j], es[j], g)
    ensures exists k | k in ss[i].calls :: Looks(ss[i].calls[k], g)
              && forall a: Answer | !a.Throws? :: !IsEmpty(OnWork(cfg, ss[i], k, ss[i].calls[k], a).tables, g)
  {
    EmptyIsLookedAt(cfg, ss, es, i, g);
    var k :| k in ss[i].calls && Looks(ss[i].calls[k], g);
    forall a: Answer | !a.Throws? ensures !IsEmpty(OnWork(cfg, ss[i], k, ss[i].calls[k], a).tables, g) {
      LookDrops(cfg, ss[i], k, a, g);
    }
  }

  lemma {:induction false} EmptyIsLookedAt(cfg: Config, ss: seq<State>, es: seq<Event>, i: nat, g: Gid)
    requires IsRun(cfg, ss, es) && i < |ss| && forall j | 0 <= j < i :: !LookFails(ss[j], es[j], g)
    ensures IsEmpty(ss[i].tables, g) ==> SomeoneLooks(ss[i], g)
  {
    if i > 0 {
      EmptyIsLookedAt(cfg, ss, es, i - 1, g);
      RunInv(cfg, ss, es, i - 1);
      StepLooks(cfg, ss[i - 1], es[i - 1], g);
    }
  }

  // ---------------------------------------------------------------- requests of cancelled connections

  /** A waiter of a registered group. */
  predicate Stays(s: State, t: Tok) {
    Listed(s, t) && Mapped(s.tables, s.conns[t].group.value)
  }

  /** A removal of its id has not looked for it yet. */
  ghost predicate RemovalDue(s: State, id: Id) {
    exists k | k in s.calls :: s.calls[k].at == RemoveBegin && s.calls[k].id == id
  }

  /** Or it will start one itself. */
  predicate WillLeave(c: Conn) {
    c.pc.Writing? || c.pc == Recheck || c.pc == Leaving(true)
  }

  /** A cancelled connection does not stay, or will be removed. */
  ghost predicate Clears(s: State, t: Tok) {
    t in s.conns && s.conns[t].life == Cancelled && Stays(s, t) ==>
      RemovalDue(s, s.conns[t].id) || WillLeave(s.conns[t])
  }

  /** Writing its pending entry fails. */
  predicate WriteFails(s: State, e: Event, t: Tok) {
    e == Resume(t, Throws) && t in s.conns && s.conns[t].pc.Writing?
  }

  predicate KeepsCallsBut(s: State, s': State, k: Tid) {
    forall l | l in s.calls && l != k :: l in s'.calls && s'.calls[l] == s.calls[l]
  }

  lemma StillDue(s: State, s': State, k: Tid, id: Id)
    requires KeepsCallsBut(s, s', k)
    requires k in s.calls ==> s.calls[k].at != RemoveBegin || s.calls[k].id != id
    ensures RemovalDue(s, id) ==> RemovalDue(s', id)
  {
    if RemovalDue(s, id) {
      var l :| l in s.calls && s.calls[l].at == RemoveBegin && s.calls[l].id == id;
      assert l in s'.calls && s'.calls[l] == s.calls[l];
    }
  }

  /** A step in which `t` does not move and comes to stay nowhere. */
  lemma StillClears(s: State, s': State, k: Tid, t: Tok)
    requires Clears(s, t) && KeepsCallsBut(s, s', k) && t in s.conns && t in s'.conns
    requires s'.conns[t].id == s.conns[t].id && s'.conns[t].pc == s.conns[t].pc
    requires s'.conns[t].life == Cancelled ==> s.conns[t].life == Cancelled
    requires Stays(s', t) ==> Stays(s, t)
    requires Stays(s', t) && k in s.calls ==> s.calls[k].at != RemoveBegin || s.calls[k].id != s.conns[t].id
    ensures Clears(s', t)
  {
    if Stays(s', t) { StillDue(s, s', k, s.conns[t].id); }
  }

  lemma CancelClears(s: State, u: Tok, t: Tok)
    requires Inv(s) && u in s.conns && t in s.conns && Clears(s, t)
    ensures Clears(OnCancel(s, u, s.conns[u]), t)
  {
    var z := OnCancel(s, u, s.conns[u]);
    if u == t && z.conns[t].life == Cancelled && s.conns[t].life != Cancelled {
      assert s.nextTid in z.calls && z.calls[s.nextTid].at == RemoveBegin && z.calls[s.nextTid].id == z.conns[t].id;
    } else {
      StillClears(s, z, s.nextTid, t);
    }
  }

  /** The connection's own steps: it parks uncancelled, and is settled before it goes on. */
  lemma OwnClears(cfg: Config, s: State, t: Tok, a: Answer)
    requires Inv(s) && Enabled(s, Resume(t, a)) && Clears(s, t) && !WriteFails(s, Resume(t, a), t)
    ensures Clears(OnResume(cfg, s, t, s.conns[t], a), t)
  {
    if AtPend(s.conns[t]) {
      OwnPendClears(s, t);
    } else if s.conns[t].pc == Leaving(true) {
      var z := OnResume(cfg, s, t, s.conns[t], a);
      assert z.calls[s.nextTid].at == RemoveBegin && z.calls[s.nextTid].id == z.conns[t].id;
    } else {
      OwnLocalClears(cfg, s, t, a);
    }
  }

  lemma OwnPendClears(s: State, t: Tok)
    requires Inv(s) && t in s.conns && AtPend(s.conns[t])
    ensures Clears(OnPend(s, t, s.conns[t]), t)
  {
    assert s.conns[t].group.None?;
  }

  lemma OwnLocalClears(cfg: Config, s: State, t: Tok, a: Answer)
    requires Inv(s) && Enabled(s, Resume(t, a)) && Clears(s, t) && !WriteFails(s, Resume(t, a), t)
    requires !AtPend(s.conns[t]) && s.conns[t].pc != Leaving(true)
    ensures Clears(OnResume(cfg, s, t, s.conns[t], a), t)
  {
    var c, z := s.conns[t], OnResume(cfg, s, t, s.conns[t], a);
    assert PcOk(c);
    LocalIds(cfg, c.key in s.approvedKeys, t, c, s.log, a);
    LocalStepShape(cfg, c.key in s.approvedKeys, t, c, s.log, a);
    if c.group.Some? && Stays(s, t) {
      assert !c.settled;
      StillDue(s, z, s.nextTid, c.id);
    }
  }

  lemma ResumeClears(cfg: Config, s: State, u: Tok, a: Answer, t: Tok)
    requires Inv(s) && Enabled(s, Resume(u, a)) && t in s.conns && t != u && Clears(s, t)
    ensures Clears(OnResume(cfg, s, u, s.conns[u], a), t)
  {
    var z := OnResume(cfg, s, u, s.conns[u], a);
    ResumeStays(cfg, s, u, a, t);
    StillClears(s, z, s.nextTid, t);
  }

  lemma ResumeStays(cfg: Config, s: State, u: Tok, a: Answer, t: Tok)
    requires Inv(s) && Enabled(s, Resume(u, a)) && t in s.conns && t != u
    ensures var z := OnResume(cfg, s, u, s.conns[u], a);
            t in z.conns && z.conns[t] == s.conns[t] && (Stays(z, t) ==> Stays(s, t))
  {
    if AtPend(s.conns[u]) {
      PendStays(s, u, t);
    }
  }

  lemma PendStays(s: State, u: Tok, t: Tok)
    requires Inv(s) && u in s.conns && t in s.conns && t != u
    ensures var z := OnPend(s, u, s.conns[u]);
            t in z.conns && z.conns[t] == s.conns[t] && (Stays(z, t) ==> Stays(s, t))
  {
  }

  lemma SelectClears(s: State, x: State, gid: Gid, id: Id, mode: Mode, t: Tok)
    requires Inv(s) && gid in s.tables.heap && t in s.conns && Clears(s, t)
    requires x.conns == s.conns && x.tables == s.tables && x.calls == s.calls && x.nextTid == s.nextTid
    ensures Clears(ResolveSelected(x, gid, id, mode), t)
  {
    StillClears(s, ResolveSelected(x, gid, id, mode), s.nextTid, t);
  }

  lemma WholeClears(s: State, x: State, k: Key, mode: Mode, t: Tok)
    requires Inv(s) && t in s.conns && Clears(s, t)
    requires x.conns == s.conns && x.calls == s.calls && x.nextTid == s.nextTid && (Stays(x, t) ==> Stays(s, t))
    ensures Clears(ResolveWhole(x, k, mode), t)
  {
    StillClears(s, ResolveWhole(x, k, mode), s.nextTid, t);
  }

  lemma ApproveClears(cfg: Config, s: State, id: Id, scope: Option<Scope>, t: Tok)
    requires Inv(s) && t in s.conns && Clears(s, t)
    ensures Clears(OnApprove(cfg, s, id, scope), t)
  {
    if FindGroup(s.tables, id).Some? {
      var gid := FindGroup(s.tables, id).value;
      var h := s.tables.heap[gid];
      WholeClears(s, Grant(s, Tokens(h.waiters)).(approvedKeys := s.approvedKeys + {h.key}), h.key, Approving, t);
      SelectClears(s, Grant(s, if id in h.waiters then {h.waiters[id]} else {}), gid, id, Approving, t);
    }
  }

  /** The removal takes out whom the index leads to. */
  lemma RemoveBeginClears(s: State, k: Tid, t: Tok)
    requires Inv(s) && MapsBack(s.tables) && k in s.calls && s.calls[k].at == RemoveBegin
    requires t in s.conns && Clears(s, t)
    ensures Clears(OnRemoveBegin(s, k, s.calls[k]), t)
  {
    var z, id := OnRemoveBegin(s, k, s.calls[k]), s.calls[k].id;
    if Stays(s, t) && s.conns[t].id == id {
      assert BrokerIndex.Lists(s.tables, s.conns[t].group.value, id);
      assert FindGroup(s.tables, id) == s.conns[t].group;
    } else {
      StillClears(s, z, k, t);
    }
  }

  predicate Stayed(s: State, z: State, t: Tok)
    requires t in s.conns
  {
    t in z.conns && z.conns[t].id == s.conns[t].id && (Stays(z, t) ==> Stays(s, t))
    && (z.conns[t].life == Cancelled ==> s.conns[t].life == Cancelled)
  }

  lemma DecideStays(s: State, k: Tid, c: Call, a: Answer, t: Tok)
    requires t in s.conns
    ensures Stayed(s, OnDecide(s, k, c, a), t)
  {
    DecideTables(s, k, c, a);
    if c.held == Some(t) {
      var (at, conn, log) := Decide(c, t, s.conns[t], s.log, a);
      assert conn.group == s.conns[t].group && conn.id == s.conns[t].id;
      assert conn.life == Cancelled ==> s.conns[t].life == Cancelled;
    } else {
      DecideLeaves(s, k, c, a, t);
    }
  }

  lemma DropStays(s: State, gid: Gid, guarded: bool, t: Tok)
    requires t in s.conns && gid in s.tables.heap
    ensures Stays(s.(tables := DropEmpty(s.tables, gid, guarded)), t) ==> Stays(s, t)
  {
  }

  lemma EntryStays(cfg: Config, s: State, k: Tid, c: Call, a: Answer, t: Tok)
    requires t in s.conns
    ensures Stayed(s, OnEntry(cfg, s, k, c, a), t) && Stayed(s, OnRemoveEntry(s, k, c, a), t)
  {
    DecideStays(s, k, c, a, t);
    if RanEmpty(s.tables, c.group) {
      DropStays(s, c.group.value, cfg.guarded, t);
      DropStays(s, c.group.value, true, t);
    }
  }

  lemma WorkStays(cfg: Config, s: State, k: Tid, a: Answer, t: Tok)
    requires k in s.calls && t in s.conns && s.calls[k].at != RemoveBegin
    ensures Stayed(s, OnWork(cfg, s, k, s.calls[k], a), t)
  {
    var c := s.calls[k];
    match c.at
    case RemoveEntry => EntryStays(cfg, s, k, c, a, t);
    case RemoveClose =>
    case GroupClose =>
    case Loop =>
    case Entry => EntryStays(cfg, s, k, c, a, t);
    case _ => DecideStays(s, k, c, a, t);
  }

  lemma WorkClears(cfg: Config, s: State, k: Tid, a: Answer, t: Tok)
    requires Inv(s) && MapsBack(s.tables) && k in s.calls && t in s.conns && Clears(s, t)
    ensures Clears(OnWork(cfg, s, k, s.calls[k], a), t)
  {
    if s.calls[k].at == RemoveBegin {
      RemoveBeginClears(s, k, t);
    } else {
      WorkStays(cfg, s, k, a, t);
      WorkPlaces(cfg, s, k, a, t);
      WorkCalls(cfg, s, k, a);
      StillClears(s, OnWork(cfg, s, k, s.calls[k], a), k, t);
    }
  }

  lemma StepClears(cfg: Config, s: State, e: Event, t: Tok)
    requires Inv(s) && MapsBack(s.tables) && Enabled(s, e) && Clears(s, t) && !WriteFails(s, e, t) && t in s.conns
    ensures Clears(Step(cfg, s, e), t)
  {
    match e
    case Arrive(_) => StillClears(s, Step(cfg, s, e), s.nextTid, t);
    case Cancel(u) => CancelClears(s, u, t);
    case Resume(u, a) => if u == t { OwnClears(cfg, s, t, a); } else { ResumeClears(cfg, s, u, a, t); }
    case Approve(id, scope) => ApproveClears(cfg, s, id, scope, t);
    case DenyRequest(id) =>
      if FindGroup(s.tables, id).Some? { SelectClears(s, s, FindGroup(s.tables, id).value, id, Denying, t); }
    case Timeout(gid) => WholeClears(s, s.(tables := StopTimer(s.tables, gid)), s.tables.heap[gid].key, TimingOut, t);
    case Work(k, a) => WorkClears(cfg, s, k, a, t);
  }

  /** The index leads back to every request, and the pending entry of `t` is written. */
  ghost predicate Untroubled(ss: seq<State>, es: seq<Event>, i: nat, t: Tok)
    requires i <= |ss| && i <= |es|
  {
    forall j | 0 <= j < i :: !Unmaps(ss[j], es[j]) && !WriteFails(ss[j], es[j], t)
  }

  lemma RunStepClears(cfg: Config, ss: seq<State>, es: seq<Event>, i: nat, t: Tok)
    requires IsRun(cfg, ss, es) && i < |es| && MapsBack(ss[i].tables) && Clears(ss[i], t)
    requires !WriteFails(ss[i], es[i], t)
    ensures Clears(ss[i + 1], t)
  {
    assert Enabled(ss[i], es[i]) && ss[i + 1] == Step(cfg, ss[i], es[i]);
    RunInv(cfg, ss, es, i);
    if t in ss[i].conns {
      StepClears(cfg, ss[i], es[i], t);
    } else if t in ss[i + 1].conns {
      NewIsPreflight(cfg, ss[i], es[i], t);
    }
  }

  lemma {:induction false} RunClears(cfg: Config, ss: seq<State>, es: seq<Event>, i: nat, t: Tok)
    requires IsRun(cfg, ss, es) && i < |ss| && Untroubled(ss, es, i, t)
    ensures Clears(ss[i], t)
  {
    if i > 0 {
      RunClears(cfg, ss, es, i - 1, t);
      KeptUpTo(cfg, ss, es, i - 1);
      RunStepClears(cfg, ss, es, i - 1, t);
    }
  }

  /** A cancelled request does not stay in a registered group: as long as it is listed there,
      a removal of its id is still to look for it or the connection itself will start one.
      This holds as long as the index leads back to every request and the connection's
      pending entry could be written. */
  lemma CancelledIsTakenOut(cfg: Config, ss: seq<State>, es: seq<Event>, i: nat, t: Tok)
    requires IsRun(cfg, ss, es) && i < |ss| && Untroubled(ss, es, i, t)
    requires t in ss[i].conns && ss[i].conns[t].life == Cancelled && Stays(ss[i], t)
    ensures RemovalDue(ss[i], ss[i].conns[t].id) || WillLeave(ss[i].conns[t])
  {
    RunClears(cfg, ss, es, i, t);
  }

  // ---------------------------------------------------------------- ids of cancelled connections

  /** ... and neither does the index keep its id. */
  ghost predicate Forgets(s: State, t: Tok) {
    t in s.conns && s.conns[t].life == Cancelled && s.conns[t].id in s.tables.keyOf ==>
      RemovalDue(s, s.conns[t].id) || WillLeave(s.conns[t])
  }

  lemma StillForgets(s: State, s': State, k: Tid, t: Tok)
    requires Forgets(s, t) && KeepsCallsBut(s, s', k) && t in s.conns && t in s'.conns
    requires s'.conns[t].id == s.conns[t].id && s'.conns[t].pc == s.conns[t].pc
    requires s'.conns[t].life == Cancelled ==> s.conns[t].life == Cancelled
    requires s.conns[t].id in s'.tables.keyOf ==> s.conns[t].id in s.tables.keyOf
    requires s.conns[t].id in s'.tables.keyOf && k in s.calls ==>
               s.calls[k].at != RemoveBegin || s.calls[k].id != s.conns[t].id
    ensures Forgets(s', t)
  {
    if s.conns[t].id in s'.tables.keyOf { StillDue(s, s', k, s.conns[t].id); }
  }

  lemma CancelForgets(s: State, u: Tok, t: Tok)
    requires Inv(s) && u in s.conns && t in s.conns && Forgets(s, t)
    ensures Forgets(OnCancel(s, u, s.conns[u]), t)
  {
    var z := OnCancel(s, u, s.conns[u]);
    if u == t && z.conns[t].life == Cancelled && s.conns[t].life != Cancelled {
      assert z.calls[s.nextTid].at == RemoveBegin && z.calls[s.nextTid].id == z.conns[t].id;
    } else {
      StillForgets(s, z, s.nextTid, t);
    }
  }

  lemma OwnForgets(cfg: Config, s: State, t: Tok, a: Answer)
    requires Inv(s) && Enabled(s, Resume(t, a)) && Forgets(s, t) && !WriteFails(s, Resume(t, a), t)
    requires AtPend(s.conns[t]) ==> !ListedAnywhere(s.tables, s.conns[t].id)
    ensures Forgets(OnResume(cfg, s, t, s.conns[t], a), t)
  {
    var c, z := s.conns[t], OnResume(cfg, s, t, s.conns[t], a);
    if AtPend(c) {
      PendForgets(s, t);
    } else if c.pc == Leaving(true) {
      assert z.calls[s.nextTid].at == RemoveBegin && z.calls[s.nextTid].id == z.conns[t].id;
    } else {
      LocalIds(cfg, c.key in s.approvedKeys, t, c, s.log, a);
      StillDue(s, z, s.nextTid, c.id);
    }
  }

  lemma PendForgets(s: State, t: Tok)
    requires Inv(s) && t in s.conns && AtPend(s.conns[t]) && !ListedAnywhere(s.tables, s.conns[t].id)
    ensures Forgets(OnPend(s, t, s.conns[t]), t)
  {
    var c := s.conns[t];
    if GroupByKey(s.tables, c.key).Some? {
      var gid := GroupByKey(s.tables, c.key).value;
      assert GroupAgrees(s.tables.heap[gid]);
      assert !BrokerIndex.Lists(s.tables, gid, c.id);
    }
  }

  lemma OtherResumeForgets(cfg: Config, s: State, u: Tok, a: Answer, t: Tok)
    requires Inv(s) && Enabled(s, Resume(u, a)) && t in s.conns && t != u && Forgets(s, t)
    requires s.conns[u].id != s.conns[t].id
    ensures Forgets(OnResume(cfg, s, u, s.conns[u], a), t)
  {
    ResumeStays(cfg, s, u, a, t);
    StillForgets(s, OnResume(cfg, s, u, s.conns[u], a), s.nextTid, t);
  }

  lemma ApproveForgets(cfg: Config, s: State, id: Id, scope: Option<Scope>, t: Tok)
    requires Inv(s) && t in s.conns && Forgets(s, t)
    ensures Forgets(OnApprove(cfg, s, id, scope), t)
  {
    StillForgets(s, OnApprove(cfg, s, id, scope), s.nextTid, t);
  }

  lemma DenyForgets(s: State, id: Id, t: Tok)
    requires Inv(s) && t in s.conns && Forgets(s, t)
    ensures Forgets(OnDeny(s, id), t)
  {
    StillForgets(s, OnDeny(s, id), s.nextTid, t);
  }

  lemma TimeoutForgets(s: State, gid: Gid, t: Tok)
    requires Inv(s) && t in s.conns && Forgets(s, t) && gid in s.tables.heap
    ensures Forgets(OnTimeout(s, gid), t)
  {
    StillForgets(s, OnTimeout(s, gid), s.nextTid, t);
  }

  lemma WorkIndex(cfg: Config, s: State, k: Tid, a: Answer, id: Id)
    requires k in s.calls
    ensures var z := OnWork(cfg, s, k, s.calls[k], a);
            id in z.tables.keyOf ==> id in s.tables.keyOf && (s.calls[k].at != RemoveBegin || s.calls[k].id != id)
  {
    match s.calls[k].at
    case RemoveBegin =>
    case RemoveEntry =>
    case RemoveClose =>
    case GroupClose =>
    case Loop =>
    case _ => DecideTables(s, k, s.calls[k], a);
  }

  lemma WorkForgets(cfg: Config, s: State, k: Tid, a: Answer, t: Tok)
    requires Inv(s) && k in s.calls && t in s.conns && Forgets(s, t)
    ensures Forgets(OnWork(cfg, s, k, s.calls[k], a), t)
  {
    var z := OnWork(cfg, s, k, s.calls[k], a);
    WorkIndex(cfg, s, k, a, s.conns[t].id);
    WorkPlaces(cfg, s, k, a, t);
    WorkCalls(cfg, s, k, a);
    if s.calls[k].at == RemoveBegin {
      assert z.conns == s.conns;
    } else {
      WorkStays(cfg, s, k, a, t);
    }
    StillForgets(s, z, k, t);
  }

  lemma StepForgets(cfg: Config, s: State, e: Event, t: Tok)
    requires Inv(s) && OwnIds(s) && Enabled(s, e) && Forgets(s, t) && !WriteFails(s, e, t) && t in s.conns
    ensures Forgets(Step(cfg, s, e), t)
  {
    match e
    case Arrive(_) => StillForgets(s, Step(cfg, s, e), s.nextTid, t);
    case Cancel(u) => CancelForgets(s, u, t);
    case Resume(u, a) =>
      if u == t {
        if AtPend(s.conns[t]) { NotYetListed(s, t); }
        OwnForgets(cfg, s, t, a);
      } else {
        OtherResumeForgets(cfg, s, u, a, t);
      }
    case Approve(id, scope) => ApproveForgets(cfg, s, id, scope, t);
    case DenyRequest(id) => DenyForgets(s, id, t);
    case Timeout(gid) => TimeoutForgets(s, gid, t);
    case Work(k, a) => WorkForgets(cfg, s, k, a, t);
  }

  lemma NotYetListed(s: State, t: Tok)
    requires Inv(s) && OwnIds(s) && t in s.conns && AtPend(s.conns[t])
    ensures !ListedAnywhere(s.tables, s.conns[t].id)
  {
    assert PcOk(s.conns[t]);
    forall g | BrokerIndex.Lists(s.tables, g, s.conns[t].id) ensures false { ListedUnderOwnId(s, g, t); }
  }

  lemma RunStepForgets(cfg: Config, ss: seq<State>, es: seq<Event>, i: nat, t: Tok)
    requires IsRun(cfg, ss, es) && i < |es| && FreshIds(es) && Forgets(ss[i], t) && !WriteFails(ss[i], es[i], t)
    ensures Forgets(ss[i + 1], t)
  {
    assert Enabled(ss[i], es[i]) && ss[i + 1] == Step(cfg, ss[i], es[i]);
    RunInv(cfg, ss, es, i);
    RunOwnIds(cfg, ss, es, i);
    if t in ss[i].conns {
      StepForgets(cfg, ss[i], es[i], t);
    } else if t in ss[i + 1].conns {
      NewIsPreflight(cfg, ss[i], es[i], t);
    }
  }

  ghost predicate Written(ss: seq<State>, es: seq<Event>, i: nat, t: Tok)
    requires i <= |ss| && i <= |es|
  {
    forall j | 0 <= j < i :: !WriteFails(ss[j], es[j], t)
  }

  /** Nor does the index keep the id of a cancelled request: as long as it does, a removal is
      due or the connection will start one. This holds if no id arrives twice and the
      connection's pending entry could be written. */
  lemma {:induction false} CancelledIsForgotten(cfg: Config, ss: seq<State>, es: seq<Event>, i: nat, t: Tok)
    requires IsRun(cfg, ss, es) && i < |ss| && FreshIds(es) && Written(ss, es, i, t)
    ensures t in ss[i].conns && ss[i].conns[t].life == Cancelled && ss[i].conns[t].id in ss[i].tables.keyOf ==>
              RemovalDue(ss[i], ss[i].conns[t].id) || WillLeave(ss[i].conns[t])
  {
    if i > 0 {
      CancelledIsForgotten(cfg, ss, es, i - 1, t);
      RunStepForgets(cfg, ss, es, i - 1, t);
    }
  }

  // ---------------------------------------------------------------- cancelled connections

  /** About to record, reply or start. */
  predicate Acts(c: Conn) {
    c.pc.Ops? && c.pc.ops != [] && (c.pc.ops[0].Audit? || c.pc.ops[0] == Reply || c.pc.ops[0] == Start)
  }

  /** Recording, replying to or running the waiter it holds. */
  predicate ActsOn(c: Call, t: Tok) {
    c.held == Some(t) && c.at in {Auditing, Replying, At.Running}
  }

  /** Cancelled, and nobody is in the middle of acting on it. */
  ghost predicate Quiet(s: State, t: Tok) {
    && t in s.conns && s.conns[t].life == Cancelled && !Acts(s.conns[t])
    && forall k | k in s.calls :: !ActsOn(s.calls[k], t)
  }

  lemma LocalQuiet(cfg: Config, cached: bool, t: Tok, c: Conn, log: Log, a: Answer)
    requires c.life == Cancelled && !Acts(c) && !AtPend(c)
    ensures var (d, l) := LocalStep(cfg, cached, t, c, log, a); d.life == Cancelled && !Acts(d) && l == log
  {
    if c.pc.Ops? && c.pc.ops != [] && c.pc.ops[0] == Verdict {
      assert forall x :: PathAfterVerdict(cfg, cached, c.approval, x)[0] == Check;
    }
  }

  lemma ResumeQuiet(cfg: Config, s: State, t: Tok, a: Answer)
    requires Quiet(s, t)
    ensures var z := OnResume(cfg, s, t, s.conns[t], a); Quiet(z, t) && z.log == s.log
  {
    var c := s.conns[t];
    if !AtPend(c) && c.pc != Leaving(true) { LocalQuiet(cfg, c.key in s.approvedKeys, t, c, s.log, a); }
  }

  lemma DecideQuiet(s: State, k: Tid, c: Call, a: Answer, t: Tok)
    requires Quiet(s, t) && !ActsOn(c, t)
    ensures Quiet(OnDecide(s, k, c, a), t) && SameWord(s.log, OnDecide(s, k, c, a).log, t)
  {
    if c.held != Some(t) { DecideSaysNothing(s, k, c, a, t); }
  }

  lemma EntryQuiet(cfg: Config, s: State, k: Tid, c: Call, a: Answer, t: Tok)
    requires Quiet(s, t) && c.at == Entry
    ensures var z := OnEntry(cfg, s, k, c, a); Quiet(z, t) && SameWord(s.log, z.log, t)
  {
    DecideQuiet(s, k, c, a, t);
  }

  lemma RemoveEntryQuiet(s: State, k: Tid, c: Call, a: Answer, t: Tok)
    requires Quiet(s, t)
    ensures var z := OnRemoveEntry(s, k, c, a); Quiet(z, t) && z.log == s.log
  {
  }

  lemma WorkQuiet(cfg: Config, s: State, k: Tid, a: Answer, t: Tok)
    requires k in s.calls && Quiet(s, t)
    ensures var z := OnWork(cfg, s, k, s.calls[k], a); Quiet(z, t) && SameWord(s.log, z.log, t)
  {
    match s.calls[k].at
    case RemoveBegin =>
    case RemoveEntry => RemoveEntryQuiet(s, k, s.calls[k], a, t);
    case RemoveClose =>
    case GroupClose =>
    case Loop =>
    case Entry => EntryQuiet(cfg, s, k, s.calls[k], a, t);
    case _ => DecideQuiet(s, k, s.calls[k], a, t);
  }

  lemma SpawnQuiet(s: State, z: State, t: Tok)
    requires Quiet(s, t) && t in z.conns && z.conns[t] == s.conns[t]
    requires forall k | k in z.calls && !(k in s.calls && z.calls[k] == s.calls[k]) :: !ActsOn(z.calls[k], t)
    ensures Quiet(z, t)
  {
  }

  lemma ApproveQuiet(cfg: Config, s: State, id: Id, scope: Option<Scope>, t: Tok)
    requires Quiet(s, t)
    ensures Quiet(OnApprove(cfg, s, id, scope), t)
  {
    SpawnQuiet(s, OnApprove(cfg, s, id, scope), t);
  }

  lemma DenyQuiet(s: State, id: Id, t: Tok)
    requires Quiet(s, t)
    ensures Quiet(OnDeny(s, id), t)
  {
    SpawnQuiet(s, OnDeny(s, id), t);
  }

  lemma TimeoutQuiet(s: State, gid: Gid, t: Tok)
    requires Quiet(s, t) && gid in s.tables.heap
    ensures Quiet(OnTimeout(s, gid), t)
  {
    SpawnQuiet(s, OnTimeout(s, gid), t);
  }

  lemma ConnQuiet(cfg: Config, s: State, e: Event, t: Tok)
    requires Inv(s) && Enabled(s, e) && Quiet(s, t) && (e.Arrive? || e.Cancel?)
    ensures Quiet(Step(cfg, s, e), t)
  {
    SpawnQuiet(s, Step(cfg, s, e), t);
  }

  lemma OtherResumeQuiet(cfg: Config, s: State, u: Tok, a: Answer, t: Tok)
    requires Inv(s) && Enabled(s, Resume(u, a)) && Quiet(s, t) && u != t
    ensures Quiet(OnResume(cfg, s, u, s.conns[u], a), t)
  {
    ResumeStays(cfg, s, u, a, t);
    SpawnQuiet(s, OnResume(cfg, s, u, s.conns[u], a), t);
  }

  lemma StepQuiet(cfg: Config, s: State, e: Event, t: Tok)
    requires Inv(s) && Enabled(s, e) && Quiet(s, t)
    ensures Quiet(Step(cfg, s, e), t) && SameWord(s.log, Step(cfg, s, e).log, t)
  {
    match e
    case Resume(u, a) =>
      if u == t {
        ResumeQuiet(cfg, s, t, a);
      } else {
        OthersSayNothing(cfg, s, e, t);
        OtherResumeQuiet(cfg, s, u, a, t);
      }
    case Work(k, a) => WorkQuiet(cfg, s, k, a, t);
    case Approve(id, scope) => ApproveQuiet(cfg, s, id, scope, t);
    case DenyRequest(id) => DenyQuiet(s, id, t);
    case Timeout(gid) => TimeoutQuiet(s, gid, t);
    case _ => ConnQuiet(cfg, s, e, t);
  }

  lemma SameWordOn(x: Log, y: Log, z: Log, t: Tok)
    requires SameWord(x, y, t) && SameWord(y, z, t)
    ensures SameWord(x, z, t)
  {
  }

  lemma RunStepQuiet(cfg: Config, ss: seq<State>, es: seq<Event>, log: Log, i: nat, t: Tok)
    requires IsRun(cfg, ss, es) && i < |es| && Quiet(ss[i], t) && SameWord(log, ss[i].log, t)
    ensures Quiet(ss[i + 1], t) && SameWord(log, ss[i + 1].log, t)
  {
    assert Enabled(ss[i], es[i]) && ss[i + 1] == Step(cfg, ss[i], es[i]);
    RunInv(cfg, ss, es, i);
    StepQuiet(cfg, ss[i], es[i], t);
    SameWordOn(log, ss[i].log, ss[i + 1].log, t);
  }

  /** Once a connection is cancelled and nobody is in the middle of recording, answering or
      running it, nobody ever does: it stays off its path, gets no entry and is not started. */
  lemma {:induction false} CancelledIsLeftAlone(cfg: Config, ss: seq<State>, es: seq<Event>, i: nat, j: nat, t: Tok)
    requires IsRun(cfg, ss, es) && i <= j < |ss| && Quiet(ss[i], t)
    ensures Quiet(ss[j], t) && SameWord(ss[i].log, ss[j].log, t)
  {
    if i < j {
      CancelledIsLeftAlone(cfg, ss, es, i, j - 1, t);
      RunStepQuiet(cfg, ss, es, ss[i].log, j - 1, t);
    }
  }

  // ---------------------------------------------------------------- who awaits approval

  predicate AsksLater(c: Conn) {
    c.pc.Ops? && Pend in c.pc.ops
  }

  predicate Decides(c: Conn) {
    c.pc == Resolving || (c.pc.Ops? && Pend !in c.pc.ops)
  }

  predicate LifeOk(c: Conn) {
    && (AsksLater(c) ==> c.life in {Awaiting, Cancelled} && Verdict !in c.pc.ops)
    && (Decides(c) ==> c.life in {Preflight, Cancelled})
  }

  /** A call is running the command of the waiter. */
  ghost predicate IsRunBy(s: State, t: Tok) {
    exists k | k in s.calls :: s.calls[k].held == Some(t) && s.calls[k].at == At.Running
  }

  /** A waiter that is not settled awaits approval, or is run. */
  ghost predicate Lives(s: State, t: Tok) {
    t in s.conns ==>
      && LifeOk(s.conns[t])
      && (Open(s, t) ==> s.conns[t].life in {Awaiting, Cancelled} || (s.conns[t].life == Life.Running && IsRunBy(s, t)))
  }

  lemma PathsLife(cfg: Config, cached: bool, approval: Approval, a: Answer)
    ensures Pend !in PathAfterRules(a)
    ensures var ops := PathAfterVerdict(cfg, cached, approval, a);
            (Pend in ops <==> MustPend(cfg, cached, approval, a)) && Verdict !in ops
  {
  }

  lemma LocalOpLife(cfg: Config, cached: bool, t: Tok, c: Conn, log: Log, a: Answer, op: Op, ops: seq<Op>)
    requires LifeOk(c) && c.pc == Ops([op] + ops) && op != Pend
    ensures LifeOk(LocalOp(cfg, cached, t, c, log, a, op, ops).0)
  {
    assert forall x :: x in [op] + ops <==> x == op || x in ops;
    PathsLife(cfg, cached, c.approval, a);
  }

  lemma LocalLife(cfg: Config, cached: bool, t: Tok, c: Conn, log: Log, a: Answer)
    requires LifeOk(c) && !AtPend(c)
    ensures var d := LocalStep(cfg, cached, t, c, log, a).0;
            LifeOk(d) && (c.group.Some? && PcOk(c) && !c.pc.Finished? ==> d.life == c.life)
  {
    PathsLife(cfg, cached, c.approval, a);
    if c.pc.Ops? && c.pc.ops != [] {
      assert c.pc.ops == [c.pc.ops[0]] + c.pc.ops[1..];
      LocalOpLife(cfg, cached, t, c, log, a, c.pc.ops[0], c.pc.ops[1..]);
    }
  }

  lemma OwnLives(cfg: Config, s: State, t: Tok, a: Answer)
    requires Inv(s) && Enabled(s, Resume(t, a)) && Lives(s, t)
    ensures Lives(OnResume(cfg, s, t, s.conns[t], a), t)
  {
    var c, z := s.conns[t], OnResume(cfg, s, t, s.conns[t], a);
    assert PcOk(c);
    if AtPend(c) {
      assert c.pc.ops[0] == Pend && AsksLater(c);
    } else {
      StillRun(s, z, s.nextTid, t);
      if c.pc != Leaving(true) {
        LocalLife(cfg, c.key in s.approvedKeys, t, c, s.log, a);
        LocalStepShape(cfg, c.key in s.approvedKeys, t, c, s.log, a);
      }
    }
  }

  lemma StillRun(s: State, z: State, k: Tid, t: Tok)
    requires KeepsCallsBut(s, z, k) && (k in s.calls ==> s.calls[k].held != Some(t) || s.calls[k].at != At.Running)
    ensures IsRunBy(s, t) ==> IsRunBy(z, t)
  {
    if IsRunBy(s, t) {
      var l :| l in s.calls && s.calls[l].held == Some(t) && s.calls[l].at == At.Running;
      assert l in z.calls && z.calls[l] == s.calls[l];
    }
  }

  lemma ResumeLives(cfg: Config, s: State, u: Tok, a: Answer, t: Tok)
    requires Inv(s) && Enabled(s, Resume(u, a)) && t in s.conns && t != u && Lives(s, t)
    ensures Lives(OnResume(cfg, s, u, s.conns[u], a), t)
  {
    ResumeStays(cfg, s, u, a, t);
    StillRun(s, OnResume(cfg, s, u, s.conns[u], a), s.nextTid, t);
  }

  /** The waiter in the hands of a call that decides awaits approval, unless it is being run. */
  lemma HeldLife(s: State, k: Tid, t: Tok)
    requires Inv(s) && k in s.calls && s.calls[k].held == Some(t) && Lives(s, t)
    ensures Open(s, t) && (s.calls[k].at != At.Running ==> s.conns[t].life in {Awaiting, Cancelled})
  {
    assert CallOk(s, s.calls[k]);
    if IsRunBy(s, t) && s.calls[k].at != At.Running {
      var l :| l in s.calls && s.calls[l].held == Some(t) && s.calls[l].at == At.Running;
      assert Apart(s.calls[k], s.calls[l]);
    }
  }

  lemma DecideLives(s: State, k: Tid, a: Answer, t: Tok)
    requires Inv(s) && k in s.calls && s.calls[k].held == Some(t) && t in s.conns && Lives(s, t)
    ensures Lives(OnDecide(s, k, s.calls[k], a), t)
  {
    var c, z := s.calls[k], OnDecide(s, k, s.calls[k], a);
    HeldLife(s, k, t);
    assert PcOk(s.conns[t]);
    var (at, conn, log) := Decide(c, t, s.conns[t], s.log, a);
    DecidedLife(c, t, s.conns[t], s.log, a);
    if at == Some(At.Running) { assert z.calls[k].held == Some(t) && z.calls[k].at == At.Running; }
  }

  lemma DecidedLife(c: Call, t: Tok, conn: Conn, log: Log, a: Answer)
    requires c.at != At.Running ==> conn.life in {Awaiting, Cancelled}
    ensures var (at, conn', log') := Decide(c, t, conn, log, a);
            && (at.Some? ==>
                  conn'.life in {Awaiting, Cancelled} || (at.value == At.Running && conn'.life == Life.Running))
            && conn'.group == conn.group && conn'.pc == conn.pc && conn'.id == conn.id && conn'.settled == conn.settled
  {
  }

  lemma HeldLives(cfg: Config, s: State, k: Tid, a: Answer, t: Tok)
    requires Inv(s) && k in s.calls && s.calls[k].held == Some(t) && t in s.conns && Lives(s, t)
    ensures Lives(OnWork(cfg, s, k, s.calls[k], a), t)
  {
    HeldLife(s, k, t);
    assert PcOk(s.conns[t]) && CallOk(s, s.calls[k]);
    if s.calls[k].at in {RemoveEntry, RemoveClose, Entry} {
      EntryLives(cfg, s, k, a, t);
    } else {
      DecideLives(s, k, a, t);
    }
  }

  lemma EntryLives(cfg: Config, s: State, k: Tid, a: Answer, t: Tok)
    requires Inv(s) && k in s.calls && s.calls[k].held == Some(t) && t in s.conns && Lives(s, t)
    requires s.calls[k].at in {RemoveEntry, RemoveClose, Entry}
    ensures Lives(OnWork(cfg, s, k, s.calls[k], a), t)
  {
    HeldLife(s, k, t);
    DecideLives(s, k, a, t);
  }

  lemma WorkLives(cfg: Config, s: State, k: Tid, a: Answer, t: Tok)
    requires Inv(s) && k in s.calls && t in s.conns && Lives(s, t)
    ensures Lives(OnWork(cfg, s, k, s.calls[k], a), t)
  {
    if s.calls[k].held == Some(t) {
      HeldLives(cfg, s, k, a, t);
    } else {
      WorkLeaves(cfg, s, k, a, t);
      WorkCalls(cfg, s, k, a);
      StillRun(s, OnWork(cfg, s, k, s.calls[k], a), k, t);
    }
  }

  lemma ConnLives(cfg: Config, s: State, e: Event, t: Tok)
    requires Inv(s) && Enabled(s, e) && t in s.conns && Lives(s, t) && (e.Arrive? || e.Cancel?)
    ensures Lives(Step(cfg, s, e), t)
  {
    StillRun(s, Step(cfg, s, e), s.nextTid, t);
  }

  lemma ApproveLives(cfg: Config, s: State, id: Id, scope: Option<Scope>, t: Tok)
    requires Inv(s) && t in s.conns && Lives(s, t)
    ensures Lives(OnApprove(cfg, s, id, scope), t)
  {
    StillRun(s, OnApprove(cfg, s, id, scope), s.nextTid, t);
  }

  lemma DenyLives(s: State, id: Id, t: Tok)
    requires Inv(s) && t in s.conns && Lives(s, t)
    ensures Lives(OnDeny(s, id), t)
  {
    StillRun(s, OnDeny(s, id), s.nextTid, t);
  }

  lemma TimeoutLives(s: State, gid: Gid, t: Tok)
    requires Inv(s) && t in s.conns && Lives(s, t) && gid in s.tables.heap
    ensures Lives(OnTimeout(s, gid), t)
  {
    StillRun(s, OnTimeout(s, gid), s.nextTid, t);
  }

  lemma StepLives(cfg: Config, s: State, e: Event, t: Tok)
    requires Inv(s) && Enabled(s, e) && t in s.conns && Lives(s, t)
    ensures Lives(Step(cfg, s, e), t)
  {
    match e
    case Resume(u, a) => if u == t { OwnLives(cfg, s, t, a); } else { ResumeLives(cfg, s, u, a, t); }
    case Work(k, a) => WorkLives(cfg, s, k, a, t);
    case Approve(id, scope) => ApproveLives(cfg, s, id, scope, t);
    case DenyRequest(id) => DenyLives(s, id, t);
    case Timeout(gid) => TimeoutLives(s, gid, t);
    case _ => ConnLives(cfg, s, e, t);
  }

  lemma {:induction false} RunLives(cfg: Config, ss: seq<State>, es: seq<Event>, i: nat, t: Tok)
    requires IsRun(cfg, ss, es) && i < |ss|
    ensures Lives(ss[i], t)
  {
    if i > 0 {
      RunInv(cfg, ss, es, i - 1);
      if t in ss[i - 1].conns {
        RunLives(cfg, ss, es, i - 1, t);
        StepLives(cfg, ss[i - 1], es[i - 1], t);
      } else if t in ss[i].conns {
        NewIsPreflight(cfg, ss[i - 1], es[i - 1], t);
      }
    }
  }

  /** A connection awaits approval, unless it is cancelled, from the verdict that asks until it
      leaves its registered group; before that it is in preflight. */
  lemma AwaitsWhileAsked(cfg: Config, ss: seq<State>, es: seq<Event>, i: nat, t: Tok)
    requires IsRun(cfg, ss, es) && i < |ss| && t in ss[i].conns && ss[i].conns[t].life != Cancelled
    ensures AsksLater(ss[i].conns[t]) || Stays(ss[i], t) ==> ss[i].conns[t].life == Awaiting
    ensures Decides(ss[i].conns[t]) ==> ss[i].conns[t].life == Preflight
  {
    RunInv(cfg, ss, es, i);
    RunLives(cfg, ss, es, i, t);
    if Stays(ss[i], t) { StayingIsNotRun(ss[i], t); }
  }

  lemma StayingIsNotRun(s: State, t: Tok)
    requires Inv(s) && Stays(s, t)
    ensures Open(s, t) && !IsRunBy(s, t)
  {
    forall k | k in s.calls ensures s.calls[k].held != Some(t) { assert CallOk(s, s.calls[k]); }
  }

  lemma StepTerminal(cfg: Config, s: State, e: Event, t: Tok)
    requires Inv(s) && Enabled(s, e) && t in s.conns && s.conns[t].life == Terminal && Lives(s, t)
    ensures var z := Step(cfg, s, e); t in z.conns && z.conns[t].life == Terminal
  {
    match e
    case Resume(u, a) =>
      if u == t { assert PcOk(s.conns[t]); } else { ResumeStays(cfg, s, u, a, t); }
    case Work(k, a) =>
      if s.calls[k].held == Some(t) { HeldLife(s, k, t); } else { WorkLeaves(cfg, s, k, a, t); }
    case _ =>
  }

  lemma RunStepTerminal(cfg: Config, ss: seq<State>, es: seq<Event>, i: nat, t: Tok)
    requires IsRun(cfg, ss, es) && i < |es| && t in ss[i].conns && ss[i].conns[t].life == Terminal
    ensures t in ss[i + 1].conns && ss[i + 1].conns[t].life == Terminal
  {
    assert Enabled(ss[i], es[i]) && ss[i + 1] == Step(cfg, ss[i], es[i]);
    RunInv(cfg, ss, es, i);
    RunLives(cfg, ss, es, i, t);
    StepTerminal(cfg, ss[i], es[i], t);
  }

  /** Terminal is the end: no cancellation, decision or step of its own takes a connection
      out of it. */
  lemma {:induction false} TerminalStays(cfg: Config, ss: seq<State>, es: seq<Event>, i: nat, j: nat, t: Tok)
    requires IsRun(cfg, ss, es) && i <= j < |ss| && t in ss[i].conns && ss[i].conns[t].life == Terminal
    ensures t in ss[j].conns && ss[j].conns[t].life == Terminal
  {
    if i < j {
      TerminalStays(cfg, ss, es, i, j - 1, t);
      RunStepTerminal(cfg, ss, es, j - 1, t);
    }
  }

  lemma NewIsPreflight(cfg: Config, s: State, e: Event, t: Tok)
    requires Inv(s) && Enabled(s, e) && t !in s.conns && t in Step(cfg, s, e).conns
    ensures var c := Step(cfg, s, e).conns[t]; c.pc == Resolving && c.life == Preflight && c.group.None?
  {
    if e.Work? { WorkAddsNone(cfg, s, e.tid, e.answer, t); }
  }

  // ---------------------------------------------------------------- ids in the index

  /** What the index says of `id` some group object confirms. */
  ghost predicate Confirmed(x: Tables, id: Id) {
    id in x.keyOf ==> exists g | g in x.heap :: x.heap[g].key == x.keyOf[id] && id in x.heap[g].waiters
  }

  /** The index says no more, and no group object forgets `id`. */
  lemma StillConfirmed(x: Tables, y: Tables, id: Id)
    requires Confirmed(x, id) && (id in y.keyOf ==> id in x.keyOf && y.keyOf[id] == x.keyOf[id])
    requires id in y.keyOf ==> forall g | g in x.heap && id in x.heap[g].waiters ::
                                  g in y.heap && y.heap[g].key == x.heap[g].key && id in y.heap[g].waiters
    ensures Confirmed(y, id)
  {
    if id in y.keyOf {
      var g :| g in x.heap && x.heap[g].key == x.keyOf[id] && id in x.heap[g].waiters;
      assert g in y.heap && y.heap[g].key == y.keyOf[id] && id in y.heap[g].waiters;
    }
  }

  lemma TablesConfirm(x: Tables, gid: Gid, i: Id, k: Key, guarded: bool, id: Id)
    requires Confirmed(x, id) && gid in x.heap
    ensures Confirmed(StopTimer(x, gid), id) && Confirmed(Unlist(x, gid, i), id) && Confirmed(Detach(x, gid, k), id)
    ensures Confirmed(DropEmpty(x, gid, guarded), id) && Confirmed(x.(keyOf := x.keyOf - {i}), id)
  {
    StillConfirmed(x, StopTimer(x, gid), id);
    StillConfirmed(x, Unlist(x, gid, i), id);
    StillConfirmed(x, Detach(x, gid, k), id);
    StillConfirmed(x, DropEmpty(x, gid, guarded), id);
    StillConfirmed(x, x.(keyOf := x.keyOf - {i}), id);
  }

  lemma PendConfirms(s: State, t: Tok, id: Id)
    requires Inv(s) && t in s.conns && AtPend(s.conns[t]) && Confirmed(s.tables, id)
    ensures Confirmed(OnPend(s, t, s.conns[t]).tables, id)
  {
    var c, y := s.conns[t], OnPend(s, t, s.conns[t]).tables;
    var d := OnPend(s, t, c).conns[t];
    if d.pc.Writing? && c.id == id {
      var g := d.group.value;
      assert g in y.heap && y.heap[g].key == y.keyOf[id] && id in y.heap[g].waiters;
    } else {
      StillConfirmed(s.tables, y, id);
    }
  }

  lemma EntryConfirms(cfg: Config, s: State, k: Tid, c: Call, a: Answer, id: Id)
    requires Confirmed(s.tables, id)
    ensures Confirmed(OnEntry(cfg, s, k, c, a).tables, id) && Confirmed(OnRemoveEntry(s, k, c, a).tables, id)
  {
    DecideTables(s, k, c, a);
    if RanEmpty(s.tables, c.group) {
      TablesConfirm(s.tables, c.group.value, 0, 0, true, id);
      TablesConfirm(s.tables, c.group.value, 0, 0, cfg.guarded, id);
    }
  }

  lemma WorkConfirms(cfg: Config, s: State, k: Tid, a: Answer, id: Id)
    requires k in s.calls && Confirmed(s.tables, id)
    ensures Confirmed(OnWork(cfg, s, k, s.calls[k], a).tables, id)
  {
    var c := s.calls[k];
    match c.at
    case RemoveBegin =>
      if FindGroup(s.tables, c.id).Some? {
        TablesConfirm(s.tables, FindGroup(s.tables, c.id).value, c.id, 0, true, id);
      } else {
        StillConfirmed(s.tables, s.tables.(keyOf := s.tables.keyOf - {c.id}), id);
      }
    case RemoveEntry => EntryConfirms(cfg, s, k, c, a, id);
    case RemoveClose =>
    case GroupClose =>
    case Loop => if c.rest != [] { StillConfirmed(s.tables, s.tables.(keyOf := s.tables.keyOf - {c.rest[0]}), id); }
    case Entry => EntryConfirms(cfg, s, k, c, a, id);
    case _ => DecideTables(s, k, c, a);
  }

  lemma TimeoutConfirms(s: State, gid: Gid, id: Id)
    requires gid in s.tables.heap && Confirmed(s.tables, id)
    ensures Confirmed(OnTimeout(s, gid).tables, id)
  {
    var k := s.tables.heap[gid].key;
    TablesConfirm(s.tables, gid, 0, k, true, id);
    if GroupByKey(s.tables, k).Some? {
      TablesConfirm(StopTimer(s.tables, gid), GroupByKey(s.tables, k).value, 0, k, true, id);
    }
  }

  lemma FoundConfirms(x: Tables, i: Id, id: Id)
    requires TablesOk(x) && FindGroup(x, i).Some? && Confirmed(x, id)
    ensures var gid := FindGroup(x, i).value;
            && Confirmed(Unlist(x, gid, i), id) && Confirmed(Detach(x, gid, x.heap[gid].key), id)
            && GroupByKey(x, x.heap[gid].key) == Some(gid)
  {
    FoundIsMapped(x, i);
    TablesConfirm(x, FindGroup(x, i).value, i, x.heap[FindGroup(x, i).value].key, true, id);
  }

  lemma StepConfirms(cfg: Config, s: State, e: Event, id: Id)
    requires Inv(s) && Enabled(s, e) && Confirmed(s.tables, id)
    ensures Confirmed(Step(cfg, s, e).tables, id)
  {
    match e
    case Arrive(_) =>
    case Cancel(_) =>
    case Resume(t, a) => if AtPend(s.conns[t]) { PendConfirms(s, t, id); }
    case Approve(i, scope) =>
      BrokerLoss.ApproveTables(cfg, s, i, scope);
      if FindGroup(s.tables, i).Some? { FoundConfirms(s.tables, i, id); }
    case DenyRequest(i) => if FindGroup(s.tables, i).Some? { FoundConfirms(s.tables, i, id); }
    case Timeout(gid) => TimeoutConfirms(s, gid, id);
    case Work(k, a) => WorkConfirms(cfg, s, k, a, id);
  }

  /** The other direction of the index: an id that leads to a key is listed by a group object
      with that key, registered or detached, at every await point of every run. */
  lemma {:induction false} IndexedIsListed(cfg: Config, ss: seq<State>, es: seq<Event>, i: nat, id: Id)
    requires IsRun(cfg, ss, es) && i < |ss| && id in ss[i].tables.keyOf
    ensures exists g | g in ss[i].tables.heap ::
              ss[i].tables.heap[g].key == ss[i].tables.keyOf[id] && id in ss[i].tables.heap[g].waiters
  {
    IndexIsConfirmed(cfg, ss, es, i, id);
  }

  lemma {:induction false} IndexIsConfirmed(cfg: Config, ss: seq<State>, es: seq<Event>, i: nat, id: Id)
    requires IsRun(cfg, ss, es) && i < |ss|
    ensures Confirmed(ss[i].tables, id)
  {
    if i > 0 {
      IndexIsConfirmed(cfg, ss, es, i - 1, id);
      RunInv(cfg, ss, es, i - 1);
      StepConfirms(cfg, ss[i - 1], es[i - 1], id);
    }
  }
}
