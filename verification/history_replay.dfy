/** Delivering a batch twice leaves what delivering it once leaves, and which write a
    column takes its value from. */
module HistoryReplay {
  import opened Wrappers
  import opened HistoryStore

  // ---------------------------------------------------------------- one row at a time

  function Row<K, V>(m: map<K, V>, k: K): Option<V> {
    if k in m then Some(m[k]) else None
  }

  function ConversationStep(v: Option<Conversation>, w: Write, k: Id): Option<Conversation> {
    if !w.UpsertConversation? || w.id != k then v
    else Some(if v.Some? then MergeConversation(v.value, w.conversation) else w.conversation)
  }

  function TraceStep(v: Option<Trace>, w: Write, k: Id): Option<Trace> {
    if !w.UpsertTrace? || w.id != k then v
    else Some(if v.Some? then MergeTrace(v.value, w.trace) else w.trace)
  }

  function SpanStep(v: Option<Span>, w: Write, k: Id): Option<Span> {
    if w.InsertSpan? && w.id == k then Some(w.span) else v
  }

  function LogStep(v: Option<LogRecord>, w: Write, k: LogKey): Option<LogRecord> {
    if w.InsertLog? && w.key == k && v.None? then Some(w.log) else v
  }

  function InvocationStep(v: Option<Invocation>, w: Write, k: Id): Option<Invocation> {
    if w.UpsertInvocation? && w.id == k then
      Some(if v.Some? then MergeInvocation(v.value, w.invocation) else w.invocation)
    else if w.MarkEnded? && w.id == k && v.Some? then
      Some(v.value.(endedAt := Coalesce(v.value.endedAt, Some(w.endedAt)),
          exitReason := Coalesce(v.value.exitReason, Some(w.exitReason))))
    else v
  }

  function ConversationFold(v: Option<Conversation>, ws: seq<Write>, k: Id): Option<Conversation>
    decreases |ws|
  {
    if ws == [] then v else ConversationFold(ConversationStep(v, ws[0], k), ws[1..], k)
  }

  function TraceFold(v: Option<Trace>, ws: seq<Write>, k: Id): Option<Trace>
    decreases |ws|
  {
    if ws == [] then v else TraceFold(TraceStep(v, ws[0], k), ws[1..], k)
  }

  function SpanFold(v: Option<Span>, ws: seq<Write>, k: Id): Option<Span>
    decreases |ws|
  {
    if ws == [] then v else SpanFold(SpanStep(v, ws[0], k), ws[1..], k)
  }

  function LogFold(v: Option<LogRecord>, ws: seq<Write>, k: LogKey): Option<LogRecord>
    decreases |ws|
  {
    if ws == [] then v else LogFold(LogStep(v, ws[0], k), ws[1..], k)
  }

  function InvocationFold(v: Option<Invocation>, ws: seq<Write>, k: Id): Option<Invocation>
    decreases |ws|
  {
    if ws == [] then v else InvocationFold(InvocationStep(v, ws[0], k), ws[1..], k)
  }

  lemma ApplyToTelemetry(db: Db, w: Write, k: Id, l: LogKey)
    requires Apply(db, w).Some?
    ensures var x := Apply(db, w).value;
            && Row(x.traces, k) == TraceStep(Row(db.traces, k), w, k)
            && Row(x.spans, k) == SpanStep(Row(db.spans, k), w, k)
            && Row(x.logs, l) == LogStep(Row(db.logs, l), w, l)
  {
    match w
    case UpsertTrace(_, _) =>
    case InsertSpan(_, _) =>
    case InsertLog(_, _) =>
    case _ =>
  }

  lemma ApplyToOwners(db: Db, w: Write, k: Id)
    requires Apply(db, w).Some?
    ensures var x := Apply(db, w).value;
            && Row(x.conversations, k) == ConversationStep(Row(db.conversations, k), w, k)
            && Row(x.invocations, k) == InvocationStep(Row(db.invocations, k), w, k)
  {
    match w
    case UpsertInvocation(_, _) =>
    case MarkEnded(_, _, _) =>
    case UpsertConversation(_, _) =>
    case _ =>
  }

  /** What a transaction does to a row depends on that row and the writes only. */
  lemma {:induction false} RunIsRowwise(db: Db, ws: seq<Write>, k: Id, l: LogKey)
    requires Run(db, ws).Some?
    ensures var x := Run(db, ws).value;
            && Row(x.conversations, k) == ConversationFold(Row(db.conversations, k), ws, k)
            && Row(x.traces, k) == TraceFold(Row(db.traces, k), ws, k)
            && Row(x.spans, k) == SpanFold(Row(db.spans, k), ws, k)
            && Row(x.logs, l) == LogFold(Row(db.logs, l), ws, l)
            && Row(x.invocations, k) == InvocationFold(Row(db.invocations, k), ws, k)
    decreases |ws|
  {
    if ws != [] {
      ApplyToTelemetry(db, ws[0], k, l);
      ApplyToOwners(db, ws[0], k);
      RunIsRowwise(Apply(db, ws[0]).value, ws[1..], k, l);
    }
  }

  lemma RunOne(db: Db, w: Write)
    ensures Run(db, [w]) == Apply(db, w)
  {
    var none: seq<Write> := [];
    assert [w][1..] == none;
    if Apply(db, w).Some? { assert Run(Apply(db, w).value, none) == Apply(db, w); }
  }

  // ---------------------------------------------------------------- conversations

  lemma {:induction false} ConversationFoldConcat(v: Option<Conversation>, a: seq<Write>, b: seq<Write>, k: Id)
    ensures ConversationFold(v, a + b, k) == ConversationFold(ConversationFold(v, a, k), b, k)
    decreases |a|
  {
    if a == [] {
      assert a + b == b;
    } else {
      assert (a + b)[1..] == a[1..] + b;
      ConversationFoldConcat(ConversationStep(v, a[0], k), a[1..], b, k);
    }
  }

  lemma ConversationFoldOne(v: Option<Conversation>, w: Write, k: Id)
    ensures ConversationFold(v, [w], k) == ConversationStep(v, w, k)
  {
    var none: seq<Write> := [];
    assert [w][1..] == none && ConversationFold(ConversationStep(v, w, k), none, k) == ConversationStep(v, w, k);
  }

  lemma {:induction false} NoConversationWritten(v: Option<Conversation>, ws: seq<Write>, k: Id)
    requires forall w | w in ws :: !w.UpsertConversation?
    ensures ConversationFold(v, ws, k) == v
    decreases |ws|
  {
    if ws != [] {
      assert ws[0] in ws && forall w | w in ws[1..] :: w in ws;
      NoConversationWritten(v, ws[1..], k);
    }
  }

  /** The last agent that a write names, or `a`. */
  function LastAgent(a: Option<Id>, ws: seq<Write>, k: Id): Option<Id>
    decreases |ws|
  {
    if ws == [] then a
    else
      var named := if ws[0].UpsertConversation? && ws[0].id == k then ws[0].conversation.agent else None;
      LastAgent(Coalesce(named, a), ws[1..], k)
  }

  lemma LastAgentTwice(a: Option<Id>, b: Option<Id>, ws: seq<Write>, k: Id)
    requires LastAgent(a, ws, k) == b || (LastAgent(None, ws, k).Some? && a == b)
    ensures LastAgent(b, ws, k) == LastAgent(a, ws, k)
  {
    LastAgentDefault(a, ws, k);
    LastAgentDefault(b, ws, k);
  }

  lemma {:induction false} LastAgentDefault(a: Option<Id>, ws: seq<Write>, k: Id)
    ensures LastAgent(a, ws, k) == Coalesce(LastAgent(None, ws, k), a)
    decreases |ws|
  {
    if ws != [] {
      var w := ws[0];
      LastAgentDefault(if w.UpsertConversation? && w.id == k then Coalesce(w.conversation.agent, a) else a, ws[1..], k);
      var named := if w.UpsertConversation? && w.id == k then w.conversation.agent else None;
      LastAgentDefault(Coalesce(named, None), ws[1..], k);
    }
  }

  predicate Writes(w: Write, k: Id) {
    w.UpsertConversation? && w.id == k
  }

  predicate Spans(v: Option<Conversation>, w: Write, k: Id) {
    Writes(w, k) ==>
        v.Some? && v.value.firstSeenAt <= w.conversation.firstSeenAt && w.conversation.lastSeenAt <= v.value.lastSeenAt
  }

  /** `v` covers the times of all writes of conversation `k`. */
  predicate Covers(v: Option<Conversation>, ws: seq<Write>, k: Id) {
    forall i | 0 <= i < |ws| :: Spans(v, ws[i], k)
  }

  predicate Widens(v: Option<Conversation>, u: Option<Conversation>) {
    v.Some? ==> u.Some? && u.value.firstSeenAt <= v.value.firstSeenAt && v.value.lastSeenAt <= u.value.lastSeenAt
  }

  lemma {:induction false} FoldCovers(v: Option<Conversation>, ws: seq<Write>, k: Id)
    ensures Covers(ConversationFold(v, ws, k), ws, k) && Widens(v, ConversationFold(v, ws, k))
    decreases |ws|
  {
    if ws != [] { FoldCovers(ConversationStep(v, ws[0], k), ws[1..], k); }
  }

  lemma {:induction false} FoldCovered(v: Conversation, ws: seq<Write>, k: Id)
    requires Covers(Some(v), ws, k)
    ensures ConversationFold(Some(v), ws, k) == Some(v.(agent := LastAgent(v.agent, ws, k)))
    decreases |ws|
  {
    if ws != [] {
      assert Spans(Some(v), ws[0], k);
      FoldCovered(ConversationStep(Some(v), ws[0], k).value, ws[1..], k);
    }
  }

  lemma {:induction false} FoldAgent(v: Option<Conversation>, ws: seq<Write>, k: Id)
    ensures var u := ConversationFold(v, ws, k);
            u.Some? ==> u.value.agent == LastAgent(if v.Some? then v.value.agent else None, ws, k)
    ensures v.Some? ==> ConversationFold(v, ws, k).Some?
    decreases |ws|
  {
    if ws != [] { FoldAgent(ConversationStep(v, ws[0], k), ws[1..], k); }
  }

  lemma ConversationFoldTwice(v: Option<Conversation>, ws: seq<Write>, k: Id)
    ensures ConversationFold(ConversationFold(v, ws, k), ws, k) == ConversationFold(v, ws, k)
  {
    var u := ConversationFold(v, ws, k);
    if u.Some? {
      FoldCovers(v, ws, k);
      FoldCovered(u.value, ws, k);
      FoldAgent(v, ws, k);
      LastAgentTwice(if v.Some? then v.value.agent else None, u.value.agent, ws, k);
    } else {
      FoldCovers(v, ws, k);
      NothingWritten(ws, k);
    }
  }

  lemma {:induction false} NothingWritten(ws: seq<Write>, k: Id)
    requires Covers(None, ws, k)
    ensures ConversationFold(None, ws, k) == None
    decreases |ws|
  {
    if ws != [] {
      assert Spans(None, ws[0], k);
      NothingWritten(ws[1..], k);
    }
  }

  // ---------------------------------------------------------------- traces, spans, logs, invocations

  function LastEnd(a: Option<Time>, ws: seq<Write>, k: Id): Option<Time>
    decreases |ws|
  {
    if ws == [] then a
    else LastEnd(if ws[0].UpsertTrace? && ws[0].id == k then Coalesce(ws[0].trace.endedAt, a) else a, ws[1..], k)
  }

  lemma {:induction false} LastEndDefault(a: Option<Time>, ws: seq<Write>, k: Id)
    ensures LastEnd(a, ws, k) == Coalesce(LastEnd(None, ws, k), a)
    decreases |ws|
  {
    if ws != [] {
      var w := ws[0];
      LastEndDefault(if w.UpsertTrace? && w.id == k then Coalesce(w.trace.endedAt, a) else a, ws[1..], k);
      LastEndDefault(if w.UpsertTrace? && w.id == k then Coalesce(w.trace.endedAt, None) else None, ws[1..], k);
    }
  }

  /** `v` has a conversation if a write of trace `k` names one. */
  predicate Linked(v: Option<Trace>, ws: seq<Write>, k: Id) {
    forall i | 0 <= i < |ws| && ws[i].UpsertTrace? && ws[i].id == k ::
      v.Some? && (ws[i].trace.conversation.Some? ==> v.value.conversation.Some?)
  }

  /** The first writer decides the invocation and the start of a trace, the first that
      names a conversation decides the conversation. */
  lemma {:induction false} TraceKeepsFirst(v: Trace, ws: seq<Write>, k: Id)
    ensures var u := TraceFold(Some(v), ws, k);
            && u.Some? && u.value.invocation == v.invocation && u.value.startedAt == v.startedAt
            && (v.conversation.Some? ==> u.value.conversation == v.conversation)
            && u.value.endedAt == LastEnd(v.endedAt, ws, k)
    decreases |ws|
  {
    if ws != [] { TraceKeepsFirst(TraceStep(Some(v), ws[0], k).value, ws[1..], k); }
  }

  lemma {:induction false} FoldLinks(v: Option<Trace>, ws: seq<Write>, k: Id)
    ensures Linked(TraceFold(v, ws, k), ws, k)
    ensures v.Some? ==> TraceFold(v, ws, k).Some?
    ensures TraceFold(v, ws, k).Some? ==>
        TraceFold(v, ws, k).value.endedAt == LastEnd(if v.Some? then v.value.endedAt else None, ws, k)
    decreases |ws|
  {
    if ws != [] {
      var x := TraceStep(v, ws[0], k);
      FoldLinks(x, ws[1..], k);
      if x.Some? { TraceKeepsFirst(x.value, ws[1..], k); }
    }
  }

  lemma {:induction false} FoldLinked(v: Trace, ws: seq<Write>, k: Id)
    requires Linked(Some(v), ws, k)
    ensures TraceFold(Some(v), ws, k) == Some(v.(endedAt := LastEnd(v.endedAt, ws, k)))
    decreases |ws|
  {
    if ws != [] { FoldLinked(TraceStep(Some(v), ws[0], k).value, ws[1..], k); }
  }

  lemma {:induction false} NoTraceWritten(ws: seq<Write>, k: Id)
    requires Linked(None, ws, k)
    ensures TraceFold(None, ws, k) == None
    decreases |ws|
  {
    if ws != [] { NoTraceWritten(ws[1..], k); }
  }

  lemma TraceFoldTwice(v: Option<Trace>, ws: seq<Write>, k: Id)
    ensures TraceFold(TraceFold(v, ws, k), ws, k) == TraceFold(v, ws, k)
  {
    var u := TraceFold(v, ws, k);
    FoldLinks(v, ws, k);
    if u.Some? {
      FoldLinked(u.value, ws, k);
      LastEndDefault(if v.Some? then v.value.endedAt else None, ws, k);
      LastEndDefault(u.value.endedAt, ws, k);
    } else {
      NoTraceWritten(ws, k);
    }
  }

  lemma {:induction false} SpanFoldDefault(v: Option<Span>, ws: seq<Write>, k: Id)
    ensures SpanFold(v, ws, k) == Coalesce(SpanFold(None, ws, k), v)
    decreases |ws|
  {
    if ws != [] {
      SpanFoldDefault(SpanStep(v, ws[0], k), ws[1..], k);
      SpanFoldDefault(SpanStep(None, ws[0], k), ws[1..], k);
    }
  }

  lemma {:induction false} LogFoldFirst(v: Option<LogRecord>, ws: seq<Write>, k: LogKey)
    ensures v.Some? ==> LogFold(v, ws, k) == v
    ensures LogFold(LogFold(v, ws, k), ws, k) == LogFold(v, ws, k)
    decreases |ws|
  {
    if ws != [] {
      LogFoldFirst(LogStep(v, ws[0], k), ws[1..], k);
      var u := LogFold(v, ws, k);
      if u.Some? { LogFoldFirst(u, ws[1..], k); }
    }
  }

  // ---------------------------------------------------------------- the references of a replay

  /** The write meets no foreign key it could break. */
  ghost predicate Settled(db: Db, w: Write) {
    match w
    case UpsertTrace(id, row) => id in db.traces && (row.conversation.Some? ==> db.traces[id].conversation.Some?)
    case InsertSpan(_, row) => row.trace in db.traces
    case InsertLog(key, _) => key in db.logs
    case _ => true
  }

  ghost predicate AllSettled(db: Db, ws: seq<Write>) {
    forall i | 0 <= i < |ws| :: Settled(db, ws[i])
  }

  lemma ApplyKeepsSettled(db: Db, w: Write, u: Write)
    requires Apply(db, w).Some? && (Settled(db, u) || w == u)
    ensures Settled(Apply(db, w).value, u)
  {
  }

  lemma {:induction false} RunKeepsSettled(db: Db, ws: seq<Write>, u: Write)
    requires Run(db, ws).Some? && Settled(db, u)
    ensures Settled(Run(db, ws).value, u)
    decreases |ws|
  {
    if ws != [] {
      ApplyKeepsSettled(db, ws[0], u);
      RunKeepsSettled(Apply(db, ws[0]).value, ws[1..], u);
    }
  }

  lemma {:induction false} RunSettles(db: Db, ws: seq<Write>)
    requires Run(db, ws).Some?
    ensures AllSettled(Run(db, ws).value, ws)
    decreases |ws|
  {
    if ws != [] {
      var x := Apply(db, ws[0]).value;
      ApplyKeepsSettled(db, ws[0], ws[0]);
      RunKeepsSettled(x, ws[1..], ws[0]);
      RunSettles(x, ws[1..]);
      assert forall i | 0 < i < |ws| :: ws[i] == ws[1..][i - 1];
    }
  }

  lemma SettledApplies(db: Db, w: Write)
    requires Referenced(db) && Settled(db, w)
    ensures Apply(db, w).Some? && Referenced(Apply(db, w).value)
  {
    assert Apply(db, w).Some?;
    ApplyKeepsReferences(db, w);
  }

  lemma {:induction false} SettledRuns(db: Db, ws: seq<Write>)
    requires Referenced(db) && AllSettled(db, ws)
    ensures Run(db, ws).Some?
    decreases |ws|
  {
    if ws != [] {
      SettledApplies(db, ws[0]);
      var x := Apply(db, ws[0]).value;
      forall i | 0 <= i < |ws[1..]| ensures Settled(x, ws[1..][i]) {
        assert ws[1..][i] == ws[i + 1];
        ApplyKeepsSettled(db, ws[0], ws[1..][i]);
      }
      SettledRuns(x, ws[1..]);
    }
  }

  // ---------------------------------------------------------------- redelivery

  /** Writes of a telemetry batch: no invocation rows. */
  predicate Telemetry(ws: seq<Write>) {
    forall i | 0 <= i < |ws| :: !ws[i].UpsertInvocation? && !ws[i].MarkEnded?
  }

  lemma {:induction false} TelemetryKeepsInvocations(db: Db, ws: seq<Write>)
    requires Telemetry(ws) && Run(db, ws).Some?
    ensures Run(db, ws).value.invocations == db.invocations
    decreases |ws|
  {
    if ws != [] { TelemetryKeepsInvocations(Apply(db, ws[0]).value, ws[1..]); }
  }

  lemma SameRows<K, V>(a: map<K, V>, b: map<K, V>)
    requires forall k :: Row(a, k) == Row(b, k)
    ensures a == b
  {
    forall k ensures k in a <==> k in b { assert Row(a, k) == Row(b, k); }
    forall k | k in a ensures a[k] == b[k] { assert Row(a, k) == Row(b, k); }
  }

  lemma ReplayRow(db: Db, ws: seq<Write>, k: Id, l: LogKey)
    requires Run(db, ws).Some? && Run(Run(db, ws).value, ws).Some?
    ensures var x := Run(db, ws).value; var y := Run(x, ws).value;
            && Row(y.conversations, k) == Row(x.conversations, k) && Row(y.traces, k) == Row(x.traces, k)
            && Row(y.spans, k) == Row(x.spans, k) && Row(y.logs, l) == Row(x.logs, l)
  {
    var x := Run(db, ws).value;
    RunIsRowwise(db, ws, k, l);
    RunIsRowwise(x, ws, k, l);
    ConversationFoldTwice(Row(db.conversations, k), ws, k);
    TraceFoldTwice(Row(db.traces, k), ws, k);
    SpanFoldDefault(Row(db.spans, k), ws, k);
    SpanFoldDefault(Row(x.spans, k), ws, k);
    LogFoldFirst(Row(db.logs, l), ws, l);
  }

  /** Delivering any batch of telemetry twice leaves the same database as delivering it
      once, whether or not the batch fits the database. */
  lemma RedeliveryChangesNothing(db: Db, ws: seq<Write>)
    requires Referenced(db) && Telemetry(ws)
    ensures Transact(Transact(db, ws), ws) == Transact(db, ws)
  {
    if Run(db, ws).Some? {
      var x := Run(db, ws).value;
      RunKeepsReferences(db, ws);
      RunSettles(db, ws);
      SettledRuns(x, ws);
      var y := Run(x, ws).value;
      forall k ensures Row(y.conversations, k) == Row(x.conversations, k) { ReplayRow(db, ws, k, LogKey(k, 0)); }
      forall k ensures Row(y.traces, k) == Row(x.traces, k) { ReplayRow(db, ws, k, LogKey(k, 0)); }
      forall k ensures Row(y.spans, k) == Row(x.spans, k) { ReplayRow(db, ws, k, LogKey(k, 0)); }
      forall l ensures Row(y.logs, l) == Row(x.logs, l) { ReplayRow(db, ws, 0, l); }
      SameRows(y.conversations, x.conversations);
      SameRows(y.traces, x.traces);
      SameRows(y.spans, x.spans);
      SameRows(y.logs, x.logs);
      TelemetryKeepsInvocations(x, ws);
    }
  }

  // ---------------------------------------------------------------- columns over many deliveries

  function Deliver(db: Db, batches: seq<seq<Write>>): Db
    decreases |batches|
  {
    if batches == [] then db else Deliver(Transact(db, batches[0]), batches[1..])
  }

  /** The writes of the batches that were not refused, in order. */
  function Accepted(db: Db, batches: seq<seq<Write>>): seq<Write>
    decreases |batches|
  {
    if batches == [] then []
    else (if Run(db, batches[0]).Some? then batches[0] else []) + Accepted(Transact(db, batches[0]), batches[1..])
  }

  lemma {:induction false} DeliverIsRun(db: Db, batches: seq<seq<Write>>)
    ensures Run(db, Accepted(db, batches)) == Some(Deliver(db, batches))
    decreases |batches|
  {
    if batches != [] {
      var x, rest := Transact(db, batches[0]), batches[1..];
      DeliverIsRun(x, rest);
      if Run(db, batches[0]).Some? {
        RunConcat(db, batches[0], Accepted(x, rest));
      } else {
        assert [] + Accepted(x, rest) == Accepted(x, rest);
      }
    }
  }

  /** The times of a conversation are those of its row before, or of a write. */
  predicate FirstFrom(u: Conversation, v: Option<Conversation>, ws: seq<Write>, k: Id) {
    || (v.Some? && u.firstSeenAt == v.value.firstSeenAt)
    || exists i | 0 <= i < |ws| :: Writes(ws[i], k) && u.firstSeenAt == ws[i].conversation.firstSeenAt
  }

  predicate LastFrom(u: Conversation, v: Option<Conversation>, ws: seq<Write>, k: Id) {
    || (v.Some? && u.lastSeenAt == v.value.lastSeenAt)
    || exists i | 0 <= i < |ws| :: Writes(ws[i], k) && u.lastSeenAt == ws[i].conversation.lastSeenAt
  }

  lemma {:induction false} FoldAttains(v: Option<Conversation>, ws: seq<Write>, k: Id)
    requires ConversationFold(v, ws, k).Some?
    ensures FirstFrom(ConversationFold(v, ws, k).value, v, ws, k)
    ensures LastFrom(ConversationFold(v, ws, k).value, v, ws, k)
    decreases |ws|
  {
    if ws != [] {
      var u := ConversationFold(v, ws, k).value;
      FoldAttains(ConversationStep(v, ws[0], k), ws[1..], k);
      if i :| 0 <= i < |ws[1..]| && Writes(ws[1..][i], k) && u.firstSeenAt == ws[1..][i].conversation.firstSeenAt {
        assert Writes(ws[i + 1], k) && u.firstSeenAt == ws[i + 1].conversation.firstSeenAt;
      }
      if i :| 0 <= i < |ws[1..]| && Writes(ws[1..][i], k) && u.lastSeenAt == ws[1..][i].conversation.lastSeenAt {
        assert Writes(ws[i + 1], k) && u.lastSeenAt == ws[i + 1].conversation.lastSeenAt;
      }
    }
  }

  /** Over any deliveries, `first_seen_at` is the least and `last_seen_at` the greatest of
      the times the row had before and those the accepted writes bring: a bound for all
      of them, and one of them. */
  lemma SeenAreExtremes(db: Db, batches: seq<seq<Write>>, k: Id)
    requires k in Deliver(db, batches).conversations
    ensures var u, ws := Deliver(db, batches).conversations[k], Accepted(db, batches);
            && (k in db.conversations ==>
                u.firstSeenAt <= db.conversations[k].firstSeenAt && db.conversations[k].lastSeenAt <= u.lastSeenAt)
            && (forall i | 0 <= i < |ws| && Writes(ws[i], k) ::
                  u.firstSeenAt <= ws[i].conversation.firstSeenAt && ws[i].conversation.lastSeenAt <= u.lastSeenAt)
            && FirstFrom(u, Row(db.conversations, k), ws, k) && LastFrom(u, Row(db.conversations, k), ws, k)
  {
    var ws := Accepted(db, batches);
    DeliverIsRun(db, batches);
    RunIsRowwise(db, ws, k, LogKey(k, 0));
    FoldCovers(Row(db.conversations, k), ws, k);
    FoldAttains(Row(db.conversations, k), ws, k);
    assert forall i | 0 <= i < |ws| :: Spans(Row(Deliver(db, batches).conversations, k), ws[i], k);
  }

  /** The order of the writes makes no difference to them. */
  lemma SeenIgnoresOrder(db: Db, a: seq<Write>, b: seq<Write>, k: Id)
    requires Run(db, a).Some? && Run(db, b).Some? && multiset(a) == multiset(b)
    requires k in Run(db, a).value.conversations && k in Run(db, b).value.conversations
    ensures Run(db, a).value.conversations[k].firstSeenAt == Run(db, b).value.conversations[k].firstSeenAt
    ensures Run(db, a).value.conversations[k].lastSeenAt == Run(db, b).value.conversations[k].lastSeenAt
  {
    var v := Row(db.conversations, k);
    RunIsRowwise(db, a, k, LogKey(k, 0));
    RunIsRowwise(db, b, k, LogKey(k, 0));
    FoldNotAfter(v, a, b, k);
    FoldNotAfter(v, b, a, k);
  }

  lemma FoldNotAfter(v: Option<Conversation>, a: seq<Write>, b: seq<Write>, k: Id)
    requires ConversationFold(v, a, k).Some? && ConversationFold(v, b, k).Some? && multiset(a) == multiset(b)
    ensures ConversationFold(v, a, k).value.firstSeenAt <= ConversationFold(v, b, k).value.firstSeenAt
    ensures ConversationFold(v, a, k).value.lastSeenAt >= ConversationFold(v, b, k).value.lastSeenAt
  {
    var x, y := ConversationFold(v, a, k), ConversationFold(v, b, k);
    FoldCovers(v, a, k);
    FoldAttains(v, b, k);
    forall i | 0 <= i < |b| ensures Spans(x, b[i], k) {
      assert b[i] in multiset(b) && b[i] in multiset(a);
      var j :| 0 <= j < |a| && a[j] == b[i];
      assert Spans(x, a[j], k);
    }
  }

  /** Deliveries never change what a trace was first written with: its invocation, its
      start and, once it has one, its conversation. */
  lemma TraceIdentityIsStable(db: Db, batches: seq<seq<Write>>, k: Id)
    requires k in db.traces
    ensures k in Deliver(db, batches).traces
    ensures var u := Deliver(db, batches).traces[k];
            && u.invocation == db.traces[k].invocation && u.startedAt == db.traces[k].startedAt
            && (db.traces[k].conversation.Some? ==> u.conversation == db.traces[k].conversation)
  {
    var ws := Accepted(db, batches);
    DeliverIsRun(db, batches);
    RunIsRowwise(db, ws, k, LogKey(k, 0));
    TraceKeepsFirst(db.traces[k], ws, k);
  }

  /** A log record keeps its first text, an invocation its start, and an end, once
      marked, is not marked again. */
  lemma FirstWriteStays(db: Db, batches: seq<seq<Write>>, k: Id, l: LogKey)
    ensures l in db.logs ==> l in Deliver(db, batches).logs && Deliver(db, batches).logs[l] == db.logs[l]
    ensures k in db.invocations ==>
              && k in Deliver(db, batches).invocations
              && Deliver(db, batches).invocations[k].startedAt == db.invocations[k].startedAt
              && (db.invocations[k].endedAt.Some? ==> Deliver(db, batches).invocations[k].endedAt.Some?)
  {
    var ws := Accepted(db, batches);
    DeliverIsRun(db, batches);
    RunIsRowwise(db, ws, k, l);
    LogFoldFirst(Row(db.logs, l), ws, l);
    if k in db.invocations { InvocationKeepsStart(db.invocations[k], ws, k); }
  }

  lemma {:induction false} InvocationKeepsStart(v: Invocation, ws: seq<Write>, k: Id)
    ensures var u := InvocationFold(Some(v), ws, k);
            u.Some? && u.value.startedAt == v.startedAt && (v.endedAt.Some? ==> u.value.endedAt.Some?)
    decreases |ws|
  {
    if ws != [] { InvocationKeepsStart(InvocationStep(Some(v), ws[0], k).value, ws[1..], k); }
  }

  // ---------------------------------------------------------------- which write a column comes from

  /** What a write can bring to a column. */
  datatype Column = AgentOf(id: Id) | LinkOf(id: Id) | SpanOf(id: Id) | LogOf(key: LogKey) | ProfileOf(id: Id)

  predicate Names(c: Column, w: Write) {
    match c
    case AgentOf(k) => w.UpsertConversation? && w.id == k && w.conversation.agent.Some?
    case LinkOf(k) => w.UpsertTrace? && w.id == k && w.trace.conversation.Some?
    case SpanOf(k) => w.InsertSpan? && w.id == k
    case LogOf(k) => w.InsertLog? && w.key == k
    case ProfileOf(k) => w.UpsertInvocation? && w.id == k && w.invocation.profile.Some?
  }

  /** Write `i` is the last (or first) of those that bring one. */
  predicate LastOf(ws: seq<Write>, i: int, c: Column) {
    0 <= i < |ws| && Names(c, ws[i]) && forall j | i < j < |ws| :: !Names(c, ws[j])
  }

  predicate FirstOf(ws: seq<Write>, i: int, c: Column) {
    0 <= i < |ws| && Names(c, ws[i]) && forall j | 0 <= j < i :: !Names(c, ws[j])
  }

  predicate NoneOf(ws: seq<Write>, c: Column) {
    forall j | 0 <= j < |ws| :: !Names(c, ws[j])
  }

  lemma LastOfTail(ws: seq<Write>, i: int, c: Column)
    requires LastOf(ws, i, c)
    ensures i > 0 ==> LastOf(ws[1..], i - 1, c)
    ensures i == 0 ==> NoneOf(ws[1..], c)
  {
    assert forall j | 0 <= j < |ws[1..]| :: ws[1..][j] == ws[j + 1];
  }

  lemma FirstOfTail(ws: seq<Write>, i: int, c: Column)
    requires FirstOf(ws, i, c) && i > 0
    ensures FirstOf(ws[1..], i - 1, c) && !Names(c, ws[0])
  {
    assert forall j | 0 <= j < |ws[1..]| :: ws[1..][j] == ws[j + 1];
  }

  /** The agent of a conversation is the last one that a write names. */
  lemma {:induction false} AgentIsLastNamed(v: Option<Conversation>, ws: seq<Write>, k: Id, i: int)
    requires LastOf(ws, i, AgentOf(k))
    ensures ConversationFold(v, ws, k).Some? && ConversationFold(v, ws, k).value.agent == ws[i].conversation.agent
    decreases |ws|
  {
    LastOfTail(ws, i, AgentOf(k));
    var x := ConversationStep(v, ws[0], k);
    if i > 0 {
      AgentIsLastNamed(x, ws[1..], k, i - 1);
    } else {
      AgentStays(x.value, ws[1..], k);
    }
  }

  lemma {:induction false} AgentStays(v: Conversation, ws: seq<Write>, k: Id)
    requires NoneOf(ws, AgentOf(k))
    ensures ConversationFold(Some(v), ws, k).Some? && ConversationFold(Some(v), ws, k).value.agent == v.agent
    decreases |ws|
  {
    if ws != [] { AgentStays(ConversationStep(Some(v), ws[0], k).value, ws[1..], k); }
  }

  /** The conversation of a new trace is the first one that a write names. */
  lemma {:induction false} ConversationIsFirstNamed(v: Option<Trace>, ws: seq<Write>, k: Id, i: int)
    requires v.Some? ==> v.value.conversation.None?
    requires FirstOf(ws, i, LinkOf(k))
    ensures TraceFold(v, ws, k).Some? && TraceFold(v, ws, k).value.conversation == ws[i].trace.conversation
    decreases |ws|
  {
    var x := TraceStep(v, ws[0], k);
    if i > 0 {
      FirstOfTail(ws, i, LinkOf(k));
      ConversationIsFirstNamed(x, ws[1..], k, i - 1);
    } else {
      TraceKeepsFirst(x.value, ws[1..], k);
    }
  }

  /** A span is as its last write left it. */
  lemma {:induction false} SpanIsLastWritten(v: Option<Span>, ws: seq<Write>, k: Id, i: int)
    requires LastOf(ws, i, SpanOf(k))
    ensures SpanFold(v, ws, k) == Some(ws[i].span)
    decreases |ws|
  {
    LastOfTail(ws, i, SpanOf(k));
    var x := SpanStep(v, ws[0], k);
    if i > 0 { SpanIsLastWritten(x, ws[1..], k, i - 1); } else { SpanStays(x, ws[1..], k); }
  }

  lemma {:induction false} SpanStays(v: Option<Span>, ws: seq<Write>, k: Id)
    requires NoneOf(ws, SpanOf(k))
    ensures SpanFold(v, ws, k) == v
    decreases |ws|
  {
    if ws != [] { SpanStays(SpanStep(v, ws[0], k), ws[1..], k); }
  }

  /** A new log record is as its first write brought it. */
  lemma {:induction false} LogIsFirstWritten(ws: seq<Write>, k: LogKey, i: int)
    requires FirstOf(ws, i, LogOf(k))
    ensures LogFold(None, ws, k) == Some(ws[i].log)
    decreases |ws|
  {
    if i > 0 {
      FirstOfTail(ws, i, LogOf(k));
      LogIsFirstWritten(ws[1..], k, i - 1);
    } else {
      LogFoldFirst(Some(ws[0].log), ws[1..], k);
    }
  }

  /** The profile of an invocation is the last one that a write names. */
  lemma {:induction false} ProfileIsLastNamed(v: Option<Invocation>, ws: seq<Write>, k: Id, i: int)
    requires LastOf(ws, i, ProfileOf(k))
    ensures InvocationFold(v, ws, k).Some? && InvocationFold(v, ws, k).value.profile == ws[i].invocation.profile
    decreases |ws|
  {
    LastOfTail(ws, i, ProfileOf(k));
    var x := InvocationStep(v, ws[0], k);
    if i > 0 { ProfileIsLastNamed(x, ws[1..], k, i - 1); } else { ProfileStays(x.value, ws[1..], k); }
  }

  lemma {:induction false} ProfileStays(v: Invocation, ws: seq<Write>, k: Id)
    requires NoneOf(ws, ProfileOf(k))
    ensures InvocationFold(Some(v), ws, k).Some? && InvocationFold(Some(v), ws, k).value.profile == v.profile
    decreases |ws|
  {
    if ws != [] { ProfileStays(InvocationStep(Some(v), ws[0], k).value, ws[1..], k); }
  }

  /** Marking an invocation as ended twice is marking it once, with the first end. */
  lemma SecondEndChangesNothing(db: Db, id: Id, at: Time, reason: Id, at': Time, reason': Id)
    ensures PutEnd(PutEnd(db, id, at, reason), id, at', reason') == PutEnd(db, id, at, reason)
    ensures id in db.invocations && db.invocations[id].endedAt.None? ==>
        PutEnd(db, id, at, reason).invocations[id].endedAt == Some(at)
  {
    if id in db.invocations {
      var r := PutEnd(db, id, at, reason).invocations[id];
      assert db.invocations[id := r][id := r] == db.invocations[id := r];
    }
  }
}
