/** The approval protocol of `HostExecBroker` (src/hostexec/broker.ts) as a state
    machine. The broker is a single-threaded program whose async functions yield at
    every `await`; one `Event` is the code between two awaits of one of them, and
    every interleaving of events is a run. */
module Broker {
  import opened Wrappers
  import opened Sequences

  type Id = nat   // request ids, chosen by the peer
  type Key = nat  // approval keys
  type Tok = nat  // identity of one gateway connection and of its waiter object
  type Gid = nat  // identity of one PendingGroup object
  type Tid = nat  // identity of one running async call

  datatype Decision = Allow | Deny
  datatype Reason =
    | RuleAllow | ApprovedCached | ApprovedByUser
    | PolicyDeny | IntegrityError | IntegrityMismatch | PromptDisabled | PromptTimeout | DeniedByUser
  datatype AuditEntry = AuditEntry(tok: Tok, decision: Decision, reason: Reason)

  datatype Approval = RuleAllows | RulePrompts
  datatype Scope = Once | Capability | OtherScope

  /** `guarded`: line 1189 deletes a group only if it is still the registered one. */
  datatype Config = Config(promptEnable: bool, defaultScope: Scope, guarded: bool)

  // ---------------------------------------------------------------- connections

  /** `GatewayLifecycleState`; `Cancelled` is `isCancelled`. */
  datatype Life = Preflight | Awaiting | Running | Terminal | Cancelled

  /** What is left of `executeStreaming` on its current path, one item per await. */
  datatype Op =
    | Check                                   // if (await wasCancelled()) return
    | Audit(decision: Decision, reason: Reason)
    | Reply                                   // write the error or fallback, mark terminal
    | Verdict                                 // await integrityVerdict
    | Pend                                    // join or create the approval group
    | Start                                   // mark running, run the command

  datatype Pc =
    | Resolving
    | Ops(ops: seq<Op>)
    | Writing(created: bool)                  // await writeHostExecPendingEntry
    | Recheck                                 // the second check after creating a group
    | Parked                                  // await deferred.promise
    | Executing
    | Leaving(listed: bool)                   // cancelled: wait for the cleanup
    | Removing(call: Tid)                     // await removePendingRequest
    | Finished

  /** `pass`, `approval` and `key` are the locals of `executeStreaming`; `group` is
      the group it joined; `settled` says that `waiter.resolve` was called. */
  datatype Conn = Conn(
    id: Id, pc: Pc, life: Life, cleanup: Option<Tid>,
    key: Key, approval: Approval, pass: bool, group: Option<Gid>, settled: bool)

  function MarkTerminal(c: Conn): Conn {
    if c.life == Cancelled then c else c.(life := Terminal)
  }

  function MarkRunning(c: Conn): Conn {
    if c.life == Cancelled then c else c.(life := Life.Running)
  }

  // ---------------------------------------------------------------- tables and calls

  datatype Group = Group(
    key: Key, requestIds: set<Id>, requests: map<Id, Tok>, waiters: map<Id, Tok>,
    pendingEntries: map<Id, Tok>, timer: bool)

  /** `heap` holds every PendingGroup object ever created, `groups` and `keyOf` are
      the maps `groups` and `requestToApprovalKey`. */
  datatype Tables = Tables(
    heap: map<Gid, Group>, groups: map<Key, Gid>, keyOf: map<Id, Key>, nextGid: Gid)

  datatype Mode = Approving | Denying | TimingOut

  /** The await a call of `removePendingRequest` or `resolveGroup` stands at. */
  datatype At =
    | RemoveBegin | RemoveEntry | RemoveClose
    | GroupClose | Loop | Entry | EntryClose | Auditing | Replying | Running

  /** `whole`: `resolveGroup` without a selected request; `rest` is its worklist.
      `held` is the local variable `waiter`. */
  datatype Call = Call(
    at: At, whole: bool, group: Option<Gid>, mode: Mode, id: Id, rest: seq<Id>, held: Option<Tok>)

  /** `started` and `granted` are history: the connections whose command was started,
      in order, and those that an approval by the user named. */
  datatype Log = Log(audit: seq<AuditEntry>, started: seq<Tok>, granted: set<Tok>)

  datatype State = State(
    conns: map<Tok, Conn>, active: set<Id>, approvedKeys: set<Key>, tables: Tables,
    calls: map<Tid, Call>, log: Log, nextTok: Tok, nextTid: Tid)

  const INIT :=
    State(map[], {}, {}, Tables(map[], map[], map[], 0), map[], Log([], [], {}), 0, 0)

  /** How an awaited operation ends. */
  datatype Answer =
    | Ok | Throws
    | NoRule | RuleDenies | RuleFound(approval: Approval, key: Key)
    | Integrity(pass: bool) | IntegrityThrows
    | Order(ids: seq<Id>)                     // the iteration order of group.requests

  datatype Event =
    | Arrive(id: Id)
    | Resume(tok: Tok, answer: Answer)
    | Cancel(tok: Tok)
    | Approve(id: Id, scope: Option<Scope>)
    | DenyRequest(id: Id)
    | Timeout(gid: Gid)
    | Work(tid: Tid, answer: Answer)

  // ---------------------------------------------------------------- table operations

  function GroupByKey(x: Tables, k: Key): Option<Gid> {
    if k in x.groups && x.groups[k] in x.heap then Some(x.groups[k]) else None
  }

  function FindGroup(x: Tables, id: Id): Option<Gid> {
    if id in x.keyOf then GroupByKey(x, x.keyOf[id]) else None
  }

  function WaiterOf(g: Group, id: Id): Option<Tok> {
    if id in g.waiters then Some(g.waiters[id]) else None
  }

  function WithRequest(g: Group, id: Id, t: Tok): Group {
    g.(requestIds := g.requestIds + {id}, requests := g.requests[id := t],
       waiters := g.waiters[id := t], pendingEntries := g.pendingEntries[id := t])
  }

  function WithoutRequest(g: Group, id: Id): Group {
    g.(requestIds := g.requestIds - {id}, requests := g.requests - {id},
       waiters := g.waiters - {id}, pendingEntries := g.pendingEntries - {id})
  }

  function SetGroup(x: Tables, gid: Gid, g: Group): Tables {
    x.(heap := x.heap[gid := g])
  }

  function StopTimer(x: Tables, gid: Gid): Tables
    requires gid in x.heap
  {
    SetGroup(x, gid, x.heap[gid].(timer := false))
  }

  /** The registration of a waiter: everything before the first await. */
  function Join(x: Tables, gid: Gid, key: Key, id: Id, t: Tok): Tables
    requires gid in x.heap
  {
    SetGroup(x, gid, WithRequest(x.heap[gid], id, t)).(keyOf := x.keyOf[id := key])
  }

  function Create(x: Tables, key: Key, id: Id, t: Tok): Tables {
    SetGroup(x, x.nextGid, WithRequest(Group(key, {}, map[], map[], map[], true), id, t))
      .(groups := x.groups[key := x.nextGid], keyOf := x.keyOf[id := key], nextGid := x.nextGid + 1)
  }

  /** Removes one request from its group and from `requestToApprovalKey`. */
  function Unlist(x: Tables, gid: Gid, id: Id): Tables
    requires gid in x.heap
  {
    SetGroup(x, gid, WithoutRequest(x.heap[gid], id)).(keyOf := x.keyOf - {id})
  }

  function Detach(x: Tables, gid: Gid, k: Key): Tables
    requires gid in x.heap
  {
    StopTimer(x, gid).(groups := x.groups - {k})
  }

  /** `this.groups.delete(key)` after a group ran empty. `removePendingRequest` deletes
      the entry only if it is still this group; `resolveGroup` deletes any entry. */
  function DropEmpty(x: Tables, gid: Gid, guarded: bool): Tables
    requires gid in x.heap
  {
    var key := x.heap[gid].key;
    if guarded && GroupByKey(x, key) != Some(gid) then StopTimer(x, gid) else Detach(x, gid, key)
  }

  // ---------------------------------------------------------------- executeStreaming

  function SetConn(s: State, t: Tok, c: Conn): State {
    s.(conns := s.conns[t := c])
  }

  /** The `finally` of `handleGatewayConnection`. */
  function Finish(s: State, t: Tok, c: Conn): State {
    SetConn(s, t, c.(pc := Finished)).(active := s.active - {c.id})
  }

  function Spawn(s: State, c: Call): State {
    s.(calls := s.calls[s.nextTid := c], nextTid := s.nextTid + 1)
  }

  function Removal(id: Id): Call {
    Call(RemoveBegin, false, None, Denying, id, [], None)
  }

  function DenyPath(r: Reason): seq<Op> {
    [Check, Audit(Deny, r), Check, Reply]
  }

  /** The branches after `resolveRequest`. */
  function PathAfterRules(a: Answer): seq<Op> {
    if a.RuleFound? then [Check, Verdict]
    else if a.RuleDenies? then DenyPath(PolicyDeny)
    else [Reply]
  }

  /** The three branches after the integrity verdict that decide without asking. */
  predicate Undecidable(cfg: Config, a: Answer) {
    a != Integrity(true) && !cfg.promptEnable
  }

  predicate Immediate(cfg: Config, cached: bool, approval: Approval, a: Answer) {
    a == Integrity(true) && (approval == RuleAllows || cached || !cfg.promptEnable)
  }

  predicate MustPend(cfg: Config, cached: bool, approval: Approval, a: Answer) {
    !a.IntegrityThrows? && !Undecidable(cfg, a) && !Immediate(cfg, cached, approval, a)
  }

  function PathAfterVerdict(cfg: Config, cached: bool, approval: Approval, a: Answer): seq<Op> {
    if a.IntegrityThrows? then DenyPath(IntegrityError)
    else if Undecidable(cfg, a) then DenyPath(IntegrityMismatch)
    else if Immediate(cfg, cached, approval, a) then
      if approval == RulePrompts && !cfg.promptEnable then DenyPath(PromptDisabled)
      else [Check, Audit(Allow, if approval == RuleAllows then RuleAllow else ApprovedCached), Check, Start]
    else [Check, Pend]
  }

  function OnPend(s: State, t: Tok, c: Conn): State {
    match GroupByKey(s.tables, c.key)
    case Some(gid) =>
      if c.id in s.tables.heap[gid].requests then Finish(s, t, c)
      else
        SetConn(s, t, c.(pc := Writing(false), group := Some(gid)))
          .(tables := Join(s.tables, gid, c.key, c.id, t))
    case None =>
      SetConn(s, t, c.(pc := Writing(true), group := Some(s.tables.nextGid)))
        .(tables := Create(s.tables, c.key, c.id, t))
  }

  function Audited(log: Log, t: Tok, d: Decision, r: Reason): Log {
    log.(audit := log.audit + [AuditEntry(t, d, r)])
  }

  /** Runs the head of the path; `ops` is what follows it. */
  function LocalOp(cfg: Config, cached: bool, t: Tok, c: Conn, log: Log, a: Answer, op: Op, ops: seq<Op>): (Conn, Log) {
    match op
    case Check => (c.(pc := if c.life == Cancelled then Leaving(false) else Ops(ops)), log)
    case Audit(d, r) =>
      if a.Throws? then (c.(pc := Finished), log) else (c.(pc := Ops(ops)), Audited(log, t, d, r))
    case Verdict =>
      var life := if MustPend(cfg, cached, c.approval, a) && c.life == Preflight then Awaiting else c.life;
      (c.(pc := Ops(PathAfterVerdict(cfg, cached, c.approval, a)), pass := a == Integrity(true), life := life), log)
    case Start => (MarkRunning(c).(pc := Executing), log.(started := log.started + [t]))
    case _ => ((if a.Throws? then c else MarkTerminal(c)).(pc := Finished), log)
  }

  /** The steps that touch only the connection and the log. */
  function LocalStep(cfg: Config, cached: bool, t: Tok, c: Conn, log: Log, a: Answer): (Conn, Log) {
    match c.pc
    case Resolving =>
      if a.Throws? then (c.(pc := Finished), log)
      else if c.life == Cancelled then (c.(pc := Leaving(false)), log)
      else if a.RuleFound? then (c.(pc := Ops(PathAfterRules(a)), approval := a.approval, key := a.key), log)
      else (c.(pc := Ops(PathAfterRules(a))), log)
    case Ops(ops) =>
      if ops == [] then (c.(pc := Finished), log)
      else LocalOp(cfg, cached, t, c, log, a, ops[0], ops[1..])
    case Writing(created) =>
      if a.Throws? then (c.(pc := Finished), log)
      else (c.(pc := if c.life == Cancelled then Leaving(true) else if created then Recheck else Parked), log)
    case Recheck => (c.(pc := if c.life == Cancelled then Leaving(true) else Parked), log)
    case Executing => ((if a.Throws? then c else MarkTerminal(c)).(pc := Finished), log)
    case _ => (c.(pc := Finished), log)
  }

  predicate AtPend(c: Conn) {
    c.pc.Ops? && c.pc.ops != [] && c.pc.ops[0] == Pend
  }

  function OnResume(cfg: Config, s: State, t: Tok, c: Conn, a: Answer): State {
    if AtPend(c) then OnPend(s, t, c)
    else if c.pc == Leaving(true) then Spawn(SetConn(s, t, c.(pc := Removing(s.nextTid))), Removal(c.id))
    else
      var (c', log') := LocalStep(cfg, c.key in s.approvedKeys, t, c, s.log, a);
      SetConn(s, t, c').(log := log', active := if c'.pc == Finished then s.active - {c.id} else s.active)
  }

  /** `lifecycle.cancel`: the cleanup runs as a call of its own. */
  function OnCancel(s: State, t: Tok, c: Conn): State {
    if c.life == Cancelled || c.life == Terminal then s
    else Spawn(SetConn(s, t, c.(life := Cancelled, cleanup := Some(s.nextTid))), Removal(c.id))
  }

  // ---------------------------------------------------------------- control requests

  function Grant(s: State, ts: set<Tok>): State {
    s.(log := s.log.(granted := s.log.granted + ts))
  }

  function Tokens(m: map<Id, Tok>): set<Tok> {
    set id | id in m :: m[id]
  }

  /** `resolveGroup` without a selected request, up to its first await. */
  function ResolveWhole(s: State, k: Key, mode: Mode): State {
    match GroupByKey(s.tables, k)
    case None => s
    case Some(gid) =>
      Spawn(s.(tables := Detach(s.tables, gid, k)), Call(GroupClose, true, Some(gid), mode, 0, [], None))
  }

  /** `resolveGroup` for one request of a group, up to its first await. */
  function ResolveSelected(s: State, gid: Gid, id: Id, mode: Mode): State
    requires gid in s.tables.heap
  {
    if id !in s.tables.heap[gid].requests then s
    else
      Spawn(s.(tables := Unlist(s.tables, gid, id)),
            Call(Entry, false, Some(gid), mode, id, [], WaiterOf(s.tables.heap[gid], id)))
  }

  function OnApprove(cfg: Config, s: State, id: Id, scope: Option<Scope>): State {
    match FindGroup(s.tables, id)
    case None => s
    case Some(gid) =>
      var g := s.tables.heap[gid];
      if scope == Some(OtherScope) then s
      else if (if scope.Some? then scope.value else cfg.defaultScope) == Capability then
        ResolveWhole(Grant(s, Tokens(g.waiters)).(approvedKeys := s.approvedKeys + {g.key}), g.key, Approving)
      else
        ResolveSelected(Grant(s, if id in g.waiters then {g.waiters[id]} else {}), gid, id, Approving)
  }

  function OnDeny(s: State, id: Id): State {
    match FindGroup(s.tables, id)
    case None => s
    case Some(gid) => ResolveSelected(s, gid, id, Denying)
  }

  /** The timer closure knows the key of its group, not the group. */
  function OnTimeout(s: State, gid: Gid): State
    requires gid in s.tables.heap
  {
    ResolveWhole(s.(tables := StopTimer(s.tables, gid)), s.tables.heap[gid].key, TimingOut)
  }

  // ---------------------------------------------------------------- running calls

  function SetCall(s: State, k: Tid, c: Call): State {
    s.(calls := s.calls[k := c])
  }

  function EndCall(s: State, k: Tid): State {
    s.(calls := s.calls - {k})
  }

  /** `waiter?.resolve()`. */
  function Settle(s: State, held: Option<Tok>): State {
    if held.Some? && held.value in s.conns
    then SetConn(s, held.value, s.conns[held.value].(settled := true)) else s
  }

  /** `removePendingRequest`, up to its first await. */
  function OnRemoveBegin(s: State, k: Tid, c: Call): State {
    match FindGroup(s.tables, c.id)
    case None =>
      SetCall(s.(tables := s.tables.(keyOf := s.tables.keyOf - {c.id})), k, c.(at := RemoveEntry))
    case Some(gid) =>
      SetCall(s.(tables := Unlist(s.tables, gid, c.id)), k,
              c.(at := RemoveEntry, group := Some(gid), held := WaiterOf(s.tables.heap[gid], c.id)))
  }

  predicate RanEmpty(x: Tables, gid: Option<Gid>) {
    gid.Some? && gid.value in x.heap && x.heap[gid.value].requests == map[]
  }

  function OnRemoveEntry(s: State, k: Tid, c: Call, a: Answer): State {
    if a.Throws? then EndCall(s, k)
    else if RanEmpty(s.tables, c.group) then
      SetCall(s.(tables := DropEmpty(s.tables, c.group.value, true)), k, c.(at := RemoveClose))
    else EndCall(Settle(s, c.held), k)
  }

  /** The head of the loop of `resolveGroup`. */
  function OnLoop(s: State, k: Tid, c: Call): State {
    if c.rest == [] || c.group.None? || c.group.value !in s.tables.heap then EndCall(s, k)
    else
      var id, g := c.rest[0], s.tables.heap[c.group.value];
      if id !in g.requests then SetCall(s, k, c.(rest := c.rest[1..]))
      else
        SetCall(s.(tables := s.tables.(keyOf := s.tables.keyOf - {id})), k,
                c.(at := Entry, id := id, rest := c.rest[1..], held := WaiterOf(g, id)))
  }

  /** The end of an iteration: the `finally` block, then the next request. */
  function Advance(s: State, k: Tid, c: Call): State {
    if c.whole then SetCall(Settle(s, c.held), k, c.(at := Loop, held := None))
    else EndCall(Settle(s, c.held), k)
  }

  /** One turn of the loop body for the held waiter: where the call waits next, or
      `None` when the `finally` block runs. */
  function Decide(c: Call, t: Tok, conn: Conn, log: Log, a: Answer): (Option<At>, Conn, Log) {
    match c.at
    case Auditing =>
      if a.Throws? then (None, conn, log)
      else if c.mode == TimingOut then (Some(Replying), conn, Audited(log, t, Deny, PromptTimeout))
      else if c.mode == Denying then (Some(Replying), conn, Audited(log, t, Deny, DeniedByUser))
      else
        var allowed := Audited(log, t, Allow, ApprovedByUser);
        if conn.life == Cancelled then (None, conn, allowed)
        else (Some(At.Running), MarkRunning(conn), allowed.(started := log.started + [t]))
    case Replying => (None, MarkTerminal(conn), log)
    case Running => (None, MarkTerminal(conn), log)
    case _ => (if conn.life == Cancelled then None else Some(Auditing), conn, log)
  }

  function OnDecide(s: State, k: Tid, c: Call, a: Answer): State {
    if c.held.None? || c.held.value !in s.conns then Advance(s, k, c)
    else
      var (at, conn, log) := Decide(c, c.held.value, s.conns[c.held.value], s.log, a);
      var s' := SetConn(s, c.held.value, conn).(log := log);
      if at.Some? then SetCall(s', k, c.(at := at.value)) else Advance(s', k, c)
  }

  function OnEntry(cfg: Config, s: State, k: Tid, c: Call, a: Answer): State {
    if a.Throws? then EndCall(s, k)
    else if !c.whole && RanEmpty(s.tables, c.group) then
      SetCall(s.(tables := DropEmpty(s.tables, c.group.value, cfg.guarded)), k, c.(at := EntryClose))
    else OnDecide(s, k, c, a)
  }

  function OnWork(cfg: Config, s: State, k: Tid, c: Call, a: Answer): State {
    match c.at
    case RemoveBegin => OnRemoveBegin(s, k, c)
    case RemoveEntry => OnRemoveEntry(s, k, c, a)
    case RemoveClose => EndCall(Settle(s, c.held), k)
    case GroupClose => SetCall(s, k, c.(at := Loop, rest := if a.Order? then a.ids else []))
    case Loop => OnLoop(s, k, c)
    case Entry => OnEntry(cfg, s, k, c, a)
    case _ => OnDecide(s, k, c, a)
  }

  // ---------------------------------------------------------------- runs

  ghost predicate IsOrder(ids: seq<Id>, g: Group) {
    Distinct(ids) && forall id :: id in ids <==> id in g.requests
  }

  ghost predicate Enabled(s: State, e: Event) {
    match e
    case Resume(t, _) =>
      && t in s.conns && s.conns[t].pc != Finished
      && (s.conns[t].pc == Parked ==> s.conns[t].settled)
      && (s.conns[t].pc.Leaving? && s.conns[t].cleanup.Some? ==> s.conns[t].cleanup.value !in s.calls)
      && (s.conns[t].pc.Removing? ==> s.conns[t].pc.call !in s.calls)
    case Cancel(t) => t in s.conns && s.conns[t].pc != Finished
    case Timeout(gid) => gid in s.tables.heap && s.tables.heap[gid].timer
    case Work(k, a) =>
      && k in s.calls
      && (s.calls[k].at == GroupClose ==>
            && s.calls[k].group.Some? && s.calls[k].group.value in s.tables.heap
            && a.Order? && IsOrder(a.ids, s.tables.heap[s.calls[k].group.value]))
    case _ => true
  }

  function OnArrive(s: State, id: Id): State {
    if id in s.active then s
    else
      SetConn(s, s.nextTok, Conn(id, Resolving, Preflight, None, 0, RulePrompts, false, None, false))
        .(active := s.active + {id}, nextTok := s.nextTok + 1)
  }

  function Step(cfg: Config, s: State, e: Event): State
    requires Enabled(s, e)
  {
    match e
    case Arrive(id) => OnArrive(s, id)
    case Resume(t, a) => OnResume(cfg, s, t, s.conns[t], a)
    case Cancel(t) => OnCancel(s, t, s.conns[t])
    case Approve(id, scope) => OnApprove(cfg, s, id, scope)
    case DenyRequest(id) => OnDeny(s, id)
    case Timeout(gid) => OnTimeout(s, gid)
    case Work(k, a) => OnWork(cfg, s, k, s.calls[k], a)
  }

  /** A run: the states before, between and after its events. */
  ghost predicate IsRun(cfg: Config, ss: seq<State>, es: seq<Event>) {
    && |ss| == |es| + 1
    && ss[0] == INIT
    && forall i | 0 <= i < |es| :: Enabled(ss[i], es[i]) && ss[i + 1] == Step(cfg, ss[i], es[i])
  }
}
