/** `pruneHistory` (src/history/retention.ts): five deletes in one transaction, each of
    which the database refuses if it leaves a dangling reference. */
module HistoryRetention {
  import opened Wrappers
  import opened HistoryStore

  // ---------------------------------------------------------------- the deletes

  predicate Old(db: Db, i: Id, cutoff: Time) {
    i in db.invocations && db.invocations[i].startedAt < cutoff
  }

  function DeleteLogs(db: Db, cutoff: Time): Db {
    db.(logs := map l | l in db.logs && !Old(db, db.logs[l].invocation, cutoff) :: db.logs[l])
  }

  predicate OldTrace(db: Db, t: Id, cutoff: Time) {
    t in db.traces && Old(db, db.traces[t].invocation, cutoff)
  }

  function DeleteSpans(db: Db, cutoff: Time): Db {
    db.(spans := map s | s in db.spans && !OldTrace(db, db.spans[s].trace, cutoff) :: db.spans[s])
  }

  /** Refused while a span still points to a deleted trace. */
  function DeleteTraces(db: Db, cutoff: Time): Option<Db> {
    if exists s | s in db.spans :: OldTrace(db, db.spans[s].trace, cutoff) then None
    else Some(db.(traces := map t | t in db.traces && !OldTrace(db, t, cutoff) :: db.traces[t]))
  }

  /** Refused while a trace or a log record still points to a deleted invocation. */
  function DeleteInvocations(db: Db, cutoff: Time): Option<Db> {
    if exists t | t in db.traces :: OldTrace(db, t, cutoff) then None
    else if exists l | l in db.logs :: Old(db, db.logs[l].invocation, cutoff) then None
    else Some(db.(invocations := map i | i in db.invocations && !Old(db, i, cutoff) :: db.invocations[i]))
  }

  predicate Traced(db: Db, c: Id) {
    exists t | t in db.traces :: db.traces[t].conversation == Some(c)
  }

  predicate Orphan(db: Db, c: Id, cutoff: Time) {
    c in db.conversations && db.conversations[c].lastSeenAt < cutoff && !Traced(db, c)
  }

  /** Refused while a log record still points to a deleted conversation. */
  function DeleteConversations(db: Db, cutoff: Time): Option<Db> {
    if exists l | l in db.logs :: Orphan(db, l.conversation, cutoff) then None
    else Some(db.(conversations := map c | c in db.conversations && !Orphan(db, c, cutoff) :: db.conversations[c]))
  }

  /** The transaction: `None` if any delete is refused, and then nothing changes. */
  function Prune(db: Db, cutoff: Time): Option<Db> {
    match DeleteTraces(DeleteSpans(DeleteLogs(db, cutoff), cutoff), cutoff)
    case None => None
    case Some(x) =>
      match DeleteInvocations(x, cutoff)
      case None => None
      case Some(y) => DeleteConversations(y, cutoff)
  }

  // ---------------------------------------------------------------- what survives

  predicate Kept(db: Db, i: Id, cutoff: Time) {
    i in db.invocations && db.invocations[i].startedAt >= cutoff
  }

  predicate KeptTrace(db: Db, t: Id, cutoff: Time) {
    t in db.traces && Kept(db, db.traces[t].invocation, cutoff)
  }

  predicate KeptConversation(db: Db, c: Id, cutoff: Time) {
    c in db.conversations
    && (db.conversations[c].lastSeenAt >= cutoff
        || exists t | t in db.traces :: KeptTrace(db, t, cutoff) && db.traces[t].conversation == Some(c))
  }

  /** The database restricted to what belongs to the kept invocations. */
  function Survivors(db: Db, cutoff: Time): Db {
    Db(map i | i in db.invocations && Kept(db, i, cutoff) :: db.invocations[i],
       map c | c in db.conversations && KeptConversation(db, c, cutoff) :: db.conversations[c],
       map t | t in db.traces && KeptTrace(db, t, cutoff) :: db.traces[t],
       map s | s in db.spans && KeptTrace(db, db.spans[s].trace, cutoff) :: db.spans[s],
       map l | l in db.logs && Kept(db, db.logs[l].invocation, cutoff) :: db.logs[l])
  }

  /** A log record that outlives its conversation. */
  ghost predicate Stranded(db: Db, cutoff: Time) {
    exists l | l in db.logs :: Kept(db, db.logs[l].invocation, cutoff) && !KeptConversation(db, l.conversation, cutoff)
  }

  /** The first two deletes leave nothing that points to an old trace. */
  lemma ChildrenFirst(db: Db, cutoff: Time)
    requires Referenced(db)
    ensures var b := DeleteSpans(DeleteLogs(db, cutoff), cutoff);
            && b.spans == Survivors(db, cutoff).spans && b.logs == Survivors(db, cutoff).logs
            && b.traces == db.traces && b.invocations == db.invocations && b.conversations == db.conversations
  {
  }

  lemma TracesNext(db: Db, b: Db, cutoff: Time)
    requires Referenced(db) && b == db.(spans := Survivors(db, cutoff).spans, logs := Survivors(db, cutoff).logs)
    ensures DeleteTraces(b, cutoff) == Some(b.(traces := Survivors(db, cutoff).traces))
  {
    assert DeleteTraces(b, cutoff).Some?;
    assert DeleteTraces(b, cutoff).value.traces == Survivors(db, cutoff).traces;
  }

  lemma InvocationsNext(db: Db, x: Db, cutoff: Time)
    requires Referenced(db)
        && x == Survivors(db, cutoff).(conversations := db.conversations, invocations := db.invocations)
    ensures DeleteInvocations(x, cutoff) == Some(x.(invocations := Survivors(db, cutoff).invocations))
  {
    assert DeleteInvocations(x, cutoff).Some?;
    assert DeleteInvocations(x, cutoff).value.invocations == Survivors(db, cutoff).invocations;
  }

  /** After the first four deletes everything but the conversations is restricted, and
      none of the four was refused. */
  lemma FourDeletes(db: Db, cutoff: Time)
    requires Referenced(db)
    ensures var x := DeleteTraces(DeleteSpans(DeleteLogs(db, cutoff), cutoff), cutoff);
            && x.Some?
            && var y := DeleteInvocations(x.value, cutoff);
               y.Some? && y.value == Survivors(db, cutoff).(conversations := db.conversations)
  {
    var b := db.(spans := Survivors(db, cutoff).spans, logs := Survivors(db, cutoff).logs);
    ChildrenFirst(db, cutoff);
    assert DeleteSpans(DeleteLogs(db, cutoff), cutoff) == b;
    TracesNext(db, b, cutoff);
    InvocationsNext(db, b.(traces := Survivors(db, cutoff).traces), cutoff);
  }

  lemma LastDelete(db: Db, cutoff: Time)
    requires Referenced(db)
    ensures var y := Survivors(db, cutoff).(conversations := db.conversations);
            && (DeleteConversations(y, cutoff).Some? <==> !Stranded(db, cutoff))
            && (DeleteConversations(y, cutoff).Some? ==> DeleteConversations(y, cutoff).value == Survivors(db, cutoff))
  {
    var y := Survivors(db, cutoff).(conversations := db.conversations);
    forall c | c in db.conversations ensures Orphan(y, c, cutoff) <==> !KeptConversation(db, c, cutoff) {
      OrphanIsNotKept(db, y, c, cutoff);
    }
    assert forall l | l in y.logs ::
          l in db.logs && Kept(db, db.logs[l].invocation, cutoff) && l.conversation in db.conversations;
    assert forall l | l in db.logs && Kept(db, db.logs[l].invocation, cutoff) :: l in y.logs;
  }

  lemma OrphanIsNotKept(db: Db, y: Db, c: Id, cutoff: Time)
    requires y == Survivors(db, cutoff).(conversations := db.conversations) && c in db.conversations
    ensures Orphan(y, c, cutoff) <==> !KeptConversation(db, c, cutoff)
  {
    if Traced(y, c) {
      var t :| t in y.traces && y.traces[t].conversation == Some(c);
      assert KeptTrace(db, t, cutoff) && db.traces[t].conversation == Some(c);
    }
    if t :| t in db.traces && KeptTrace(db, t, cutoff) && db.traces[t].conversation == Some(c) {
      assert t in y.traces && y.traces[t].conversation == Some(c);
    }
  }

  /** A prune succeeds if and only if no log record outlives its conversation, and then
      exactly the invocations at or after the cutoff survive, with all their traces,
      spans and log records, and the conversations seen since or still traced. */
  lemma PruneKeepsExactlyTheSurvivors(db: Db, cutoff: Time)
    requires Referenced(db)
    ensures Prune(db, cutoff) == if Stranded(db, cutoff) then None else Some(Survivors(db, cutoff))
  {
    FourDeletes(db, cutoff);
    LastDelete(db, cutoff);
  }

  /** A successful prune leaves no dangling reference. */
  lemma PruneKeepsReferences(db: Db, cutoff: Time)
    requires Referenced(db) && Prune(db, cutoff).Some?
    ensures Referenced(Prune(db, cutoff).value)
  {
    PruneKeepsExactlyTheSurvivors(db, cutoff);
    var x := Survivors(db, cutoff);
    forall t | t in x.traces ensures ConversationKnown(x, x.traces[t].conversation) {
      if x.traces[t].conversation.Some? {
        assert KeptTrace(db, t, cutoff) && db.traces[t].conversation == Some(x.traces[t].conversation.value);
        assert KeptConversation(db, x.traces[t].conversation.value, cutoff);
      }
    }
  }

  // ---------------------------------------------------------------- when it succeeds

  /** No log record is older than its invocation. */
  ghost predicate LogsAfterStart(db: Db) {
    forall l | l in db.logs :: db.logs[l].invocation in db.invocations
      && db.invocations[db.logs[l].invocation].startedAt <= db.logs[l].time
  }

  /** `last_seen_at` bounds the log records of a conversation. */
  ghost predicate Bounded(db: Db) {
    forall l | l in db.logs :: l.conversation in db.conversations
      && db.logs[l].time <= db.conversations[l.conversation].lastSeenAt
  }

  /** With both, every prune succeeds. */
  lemma PruneSucceeds(db: Db, cutoff: Time)
    requires Referenced(db) && LogsAfterStart(db) && Bounded(db)
    ensures Prune(db, cutoff) == Some(Survivors(db, cutoff))
  {
    PruneKeepsExactlyTheSurvivors(db, cutoff);
  }

  lemma SurvivorsKeepHypotheses(db: Db, cutoff: Time)
    requires Referenced(db) && LogsAfterStart(db) && Bounded(db)
    ensures LogsAfterStart(Survivors(db, cutoff)) && Bounded(Survivors(db, cutoff))
  {
  }

  /** A log record at the epoch is older than its invocation, and a prune between the epoch
      and the start of the invocation is refused. */
  lemma EpochLogBlocksPruning(id: Id, row: Invocation, key: LogKey, log: LogRecord, cutoff: Time)
    requires log.invocation == id && log.time == 0 && 0 < cutoff <= row.startedAt
    ensures var ws :=
        [UpsertConversation(key.conversation, Conversation(None, log.time, log.time)), InsertLog(key, log)];
            var db := Transact(PutInvocation(Db(map[], map[], map[], map[], map[]), id, row), ws);
            Referenced(db) && Bounded(db) && !LogsAfterStart(db) && Prune(db, cutoff).None?
  {
    var ws := [UpsertConversation(key.conversation, Conversation(None, log.time, log.time)), InsertLog(key, log)];
    var a := PutInvocation(Db(map[], map[], map[], map[], map[]), id, row);
    var b := PutConversation(a, key.conversation, Conversation(None, log.time, log.time));
    var c := b.(logs := b.logs[key := log]);
    assert ws[1..] == [ws[1]] && ws[1..][1..] == [];
    assert Apply(b, ws[1]) == Some(c) && Run(c, []) == Some(c);
    assert Run(b, ws[1..]) == Some(c);
    assert Run(a, ws) == Some(c);
    PruneKeepsExactlyTheSurvivors(c, cutoff);
    assert key in c.logs && !KeptConversation(c, key.conversation, cutoff);
  }

  // ---------------------------------------------------------------- repeated prunes

  lemma SurvivorTraces(db: Db, c1: Time, c2: Time, t: Id)
    requires c1 <= c2
    ensures KeptTrace(Survivors(db, c1), t, c2) <==> KeptTrace(db, t, c2)
  {
  }

  lemma SurvivorConversations(db: Db, c1: Time, c2: Time, c: Id)
    requires c1 <= c2
    ensures KeptConversation(Survivors(db, c1), c, c2) <==> KeptConversation(db, c, c2)
  {
    var x := Survivors(db, c1);
    if t :| t in db.traces && KeptTrace(db, t, c2) && db.traces[t].conversation == Some(c) {
      SurvivorTraces(db, c1, c2, t);
      assert KeptTrace(db, t, c1) && t in x.traces && x.traces[t].conversation == Some(c);
    }
    if t :| t in x.traces && KeptTrace(x, t, c2) && x.traces[t].conversation == Some(c) {
      SurvivorTraces(db, c1, c2, t);
      assert t in db.traces && db.traces[t].conversation == Some(c);
    }
  }

  lemma SurvivorRows(db: Db, c1: Time, c2: Time)
    requires c1 <= c2
    ensures Survivors(Survivors(db, c1), c2).invocations == Survivors(db, c2).invocations
    ensures Survivors(Survivors(db, c1), c2).logs == Survivors(db, c2).logs
  {
  }

  lemma SurvivorTraceRows(db: Db, c1: Time, c2: Time)
    requires c1 <= c2
    ensures Survivors(Survivors(db, c1), c2).traces == Survivors(db, c2).traces
    ensures Survivors(Survivors(db, c1), c2).spans == Survivors(db, c2).spans
  {
    var x := Survivors(db, c1);
    forall t ensures KeptTrace(x, t, c2) <==> KeptTrace(db, t, c2) { SurvivorTraces(db, c1, c2, t); }
    assert forall t :: KeptTrace(db, t, c2) ==> KeptTrace(db, t, c1);
  }

  /** Pruning in steps keeps what the last, latest cutoff alone keeps. */
  lemma PruningInStepsIsPruningOnce(db: Db, c1: Time, c2: Time)
    requires c1 <= c2
    ensures Survivors(Survivors(db, c1), c2) == Survivors(db, c2)
  {
    var x := Survivors(db, c1);
    SurvivorRows(db, c1, c2);
    SurvivorTraceRows(db, c1, c2);
    forall c ensures KeptConversation(x, c, c2) <==> KeptConversation(db, c, c2) {
      SurvivorConversations(db, c1, c2, c);
    }
    assert forall c :: KeptConversation(db, c, c2) ==> c in x.conversations by {
      forall c | KeptConversation(db, c, c2) ensures c in x.conversations {
        assert KeptConversation(x, c, c2);
      }
    }
    assert Survivors(x, c2).conversations == Survivors(db, c2).conversations;
  }
}
