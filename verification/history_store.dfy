/** The history database (src/history/store.ts): five tables with foreign keys, and the
    writes its upserts and inserts make. A write that would break a foreign key is
    refused; a batch of writes is one transaction. */
module HistoryStore {
  import opened Wrappers

  type Id = nat            // TEXT keys and values, of which only equality matters
  type Time = int          // ISO timestamps, whose string order is the order of time

  datatype Invocation = Invocation(
    profile: Option<Id>, agent: Option<Id>, worktree: Option<Id>,
    startedAt: Time, endedAt: Option<Time>, exitReason: Option<Id>)
  datatype Conversation = Conversation(agent: Option<Id>, firstSeenAt: Time, lastSeenAt: Time)
  datatype Trace = Trace(invocation: Id, conversation: Option<Id>, startedAt: Time, endedAt: Option<Time>)
  datatype Usage = Usage(model: Option<Id>, inTok: Option<int>, outTok: Option<int>, cacheR: Option<int>,
      cacheW: Option<int>)
  datatype Span = Span(trace: Id, usage: Usage, startedAt: Time, rest: Id)
  datatype LogKey = LogKey(conversation: Id, sequence: int)
  datatype LogRecord = LogRecord(invocation: Id, prompt: Id, time: Time, rest: Id)

  datatype Db = Db(
    invocations: map<Id, Invocation>, conversations: map<Id, Conversation>, traces: map<Id, Trace>,
    spans: map<Id, Span>, logs: map<LogKey, LogRecord>)

  // ---------------------------------------------------------------- foreign keys

  predicate ConversationKnown(db: Db, c: Option<Id>) {
    c.Some? ==> c.value in db.conversations
  }

  ghost predicate Referenced(db: Db) {
    && (forall t | t in db.traces ::
          db.traces[t].invocation in db.invocations && ConversationKnown(db, db.traces[t].conversation))
    && (forall s | s in db.spans :: db.spans[s].trace in db.traces)
    && (forall l | l in db.logs :: l.conversation in db.conversations && db.logs[l].invocation in db.invocations)
  }

  // ---------------------------------------------------------------- one write

  /** `COALESCE(a, b)`. */
  function Coalesce<T>(a: Option<T>, b: Option<T>): Option<T> {
    if a.Some? then a else b
  }

  function Min(a: Time, b: Time): Time { if a <= b then a else b }
  function Max(a: Time, b: Time): Time { if a >= b then a else b }

  function MergeInvocation(stored: Invocation, row: Invocation): Invocation {
    Invocation(Coalesce(row.profile, stored.profile), Coalesce(row.agent, stored.agent),
               Coalesce(row.worktree, stored.worktree),
               stored.startedAt, Coalesce(row.endedAt, stored.endedAt), Coalesce(row.exitReason, stored.exitReason))
  }

  function MergeConversation(stored: Conversation, row: Conversation): Conversation {
    Conversation(Coalesce(row.agent, stored.agent), Min(stored.firstSeenAt, row.firstSeenAt),
        Max(stored.lastSeenAt, row.lastSeenAt))
  }

  function MergeTrace(stored: Trace, row: Trace): Trace {
    Trace(stored.invocation, Coalesce(stored.conversation, row.conversation), stored.startedAt,
        Coalesce(row.endedAt, stored.endedAt))
  }

  datatype Write =
    | UpsertInvocation(id: Id, invocation: Invocation)
    | MarkEnded(id: Id, endedAt: Time, exitReason: Id)
    | UpsertConversation(id: Id, conversation: Conversation)
    | UpsertTrace(id: Id, trace: Trace)
    | InsertSpan(id: Id, span: Span)              // INSERT OR REPLACE
    | InsertLog(key: LogKey, log: LogRecord)      // INSERT OR IGNORE

  function PutConversation(db: Db, id: Id, row: Conversation): Db {
    var merged := if id in db.conversations then MergeConversation(db.conversations[id], row) else row;
    db.(conversations := db.conversations[id := merged])
  }

  /** A conflicting trace keeps its invocation, so only a new one is checked for it. */
  function PutTrace(db: Db, id: Id, row: Trace): Option<Db> {
    var merged := if id in db.traces then MergeTrace(db.traces[id], row) else row;
    if !ConversationKnown(db, merged.conversation) || (id !in db.traces && row.invocation !in db.invocations) then None
    else Some(db.(traces := db.traces[id := merged]))
  }

  function PutSpan(db: Db, id: Id, row: Span): Option<Db> {
    if row.trace !in db.traces then None else Some(db.(spans := db.spans[id := row]))
  }

  /** A record whose key is taken is skipped without any check. */
  function PutLog(db: Db, key: LogKey, row: LogRecord): Option<Db> {
    if key in db.logs then Some(db)
    else if row.invocation !in db.invocations || key.conversation !in db.conversations then None
    else Some(db.(logs := db.logs[key := row]))
  }

  function PutInvocation(db: Db, id: Id, row: Invocation): Db {
    var merged := if id in db.invocations then MergeInvocation(db.invocations[id], row) else row;
    db.(invocations := db.invocations[id := merged])
  }

  function PutEnd(db: Db, id: Id, at: Time, reason: Id): Db {
    if id !in db.invocations then db
    else
      var r := db.invocations[id];
      var ended := r.(endedAt := Coalesce(r.endedAt, Some(at)), exitReason := Coalesce(r.exitReason, Some(reason)));
      db.(invocations := db.invocations[id := ended])
  }

  /** `None`: the write violates a foreign key. */
  function Apply(db: Db, w: Write): Option<Db> {
    match w
    case UpsertInvocation(id, row) => Some(PutInvocation(db, id, row))
    case MarkEnded(id, at, reason) => Some(PutEnd(db, id, at, reason))
    case UpsertConversation(id, row) => Some(PutConversation(db, id, row))
    case UpsertTrace(id, row) => PutTrace(db, id, row)
    case InsertSpan(id, row) => PutSpan(db, id, row)
    case InsertLog(key, row) => PutLog(db, key, row)
  }

  // ---------------------------------------------------------------- transactions

  function Run(db: Db, ws: seq<Write>): Option<Db>
    decreases |ws|
  {
    if ws == [] then Some(db)
    else
      match Apply(db, ws[0])
      case None => None
      case Some(x) => Run(x, ws[1..])
  }

  /** One transaction: all of it or nothing. */
  function Transact(db: Db, ws: seq<Write>): Db {
    match Run(db, ws)
    case None => db
    case Some(x) => x
  }

  lemma ApplyKeepsReferences(db: Db, w: Write)
    requires Referenced(db) && Apply(db, w).Some?
    ensures Referenced(Apply(db, w).value)
  {
  }

  lemma {:induction false} RunKeepsReferences(db: Db, ws: seq<Write>)
    requires Referenced(db) && Run(db, ws).Some?
    ensures Referenced(Run(db, ws).value)
    decreases |ws|
  {
    if ws != [] {
      ApplyKeepsReferences(db, ws[0]);
      RunKeepsReferences(Apply(db, ws[0]).value, ws[1..]);
    }
  }

  /** No transaction ever leaves a dangling reference. */
  lemma TransactKeepsReferences(db: Db, ws: seq<Write>)
    requires Referenced(db)
    ensures Referenced(Transact(db, ws))
  {
    if Run(db, ws).Some? { RunKeepsReferences(db, ws); }
  }

  lemma {:induction false} RunConcat(db: Db, a: seq<Write>, b: seq<Write>)
    ensures Run(db, a + b) == match Run(db, a) case None => None case Some(x) => Run(x, b)
    decreases |a|
  {
    if a == [] {
      assert a + b == b;
    } else {
      assert (a + b)[1..] == a[1..] + b;
      if Apply(db, a[0]).Some? { RunConcat(Apply(db, a[0]).value, a[1..], b); }
    }
  }
}
