/** The two ingest paths (src/history/ingest.ts, src/history/ingest_logs.ts): telemetry
    payloads become batches of writes, each applied in one transaction. */
module HistoryIngest {
  import opened Wrappers
  import opened HistoryStore
  import opened HistoryUsage
  import opened HistoryReplay
  import opened HistoryRetention

  /** 1970-01-01T00:00:00.000Z, the stand-in for a missing time. */
  const EPOCH: Time := 0

  // ---------------------------------------------------------------- traces: the payload

  datatype Resource = Resource(session: Option<Id>, agent: Option<Id>, spans: seq<RawSpan>)

  /** A row to be written. */
  datatype SpanRow = SpanRow(id: Id, span: Span)

  datatype Plan = Plan(
    session: Id, agent: Option<Id>, trace: Id, conversation: Option<Id>,
    startedAt: Time, endedAt: Option<Time>, rows: seq<SpanRow>)

  // ---------------------------------------------------------------- grouping

  /** The valid spans of trace `t`, in payload order. */
  function Of(spans: seq<RawSpan>, t: Id): seq<RawSpan> {
    if spans == [] then []
    else
      var s := spans[|spans| - 1];
      Of(spans[..|spans| - 1], t) + if s.valid && s.trace == t then [s] else []
  }

  /** The traces of the valid spans, in the order of their first span. */
  function Order(spans: seq<RawSpan>): seq<Id> {
    if spans == [] then []
    else
      var before, s := Order(spans[..|spans| - 1]), spans[|spans| - 1];
      if s.valid && s.trace !in before then before + [s.trace] else before
  }

  function MinOf(a: Option<Time>, b: Option<Time>): Option<Time> {
    if a.None? then b else if b.None? then a else Some(Min(a.value, b.value))
  }

  function MaxOf(a: Option<Time>, b: Option<Time>): Option<Time> {
    if a.None? then b else if b.None? then a else Some(Max(a.value, b.value))
  }

  function Earliest(spans: seq<RawSpan>): Option<Time> {
    if spans == [] then None else MinOf(Earliest(spans[..|spans| - 1]), spans[|spans| - 1].startNano)
  }

  function Latest(spans: seq<RawSpan>): Option<Time> {
    if spans == [] then None else MaxOf(Latest(spans[..|spans| - 1]), spans[|spans| - 1].endNano)
  }

  /** `Earliest` is the least start there is. */
  lemma {:induction false} EarliestIsLeast(spans: seq<RawSpan>)
    ensures forall i | 0 <= i < |spans| && spans[i].startNano.Some? ::
              Earliest(spans).Some? && Earliest(spans).value <= spans[i].startNano.value
    ensures Earliest(spans).Some? ==> exists i | 0 <= i < |spans| :: spans[i].startNano == Earliest(spans)
  {
    if spans != [] {
      var n := |spans| - 1;
      EarliestIsLeast(spans[..n]);
      if Earliest(spans).Some? {
        if Earliest(spans) != spans[n].startNano {
          var i :| 0 <= i < n && spans[..n][i].startNano == Earliest(spans[..n]);
          assert spans[i].startNano == Earliest(spans);
        }
      }
    }
  }

  lemma {:induction false} LatestIsGreatest(spans: seq<RawSpan>)
    ensures forall i | 0 <= i < |spans| && spans[i].endNano.Some? ::
              Latest(spans).Some? && spans[i].endNano.value <= Latest(spans).value
    ensures Latest(spans).Some? ==> exists i | 0 <= i < |spans| :: spans[i].endNano == Latest(spans)
  {
    if spans != [] {
      var n := |spans| - 1;
      LatestIsGreatest(spans[..n]);
      if Latest(spans).Some? {
        if Latest(spans) != spans[n].endNano {
          var i :| 0 <= i < n && spans[..n][i].endNano == Latest(spans[..n]);
          assert spans[i].endNano == Latest(spans);
        }
      }
    }
  }

  /** Every valid span is in the group of its trace. */
  lemma {:induction false} GroupsAreComplete(spans: seq<RawSpan>, i: nat)
    requires i < |spans| && spans[i].valid
    ensures spans[i].trace in Order(spans) && spans[i] in Of(spans, spans[i].trace)
  {
    var n := |spans| - 1;
    if i < n { GroupsAreComplete(spans[..n], i); }
  }

  /** Every group has a span, and no group occurs twice. */
  lemma {:induction false} GroupsAreDistinct(spans: seq<RawSpan>)
    ensures forall t | t in Order(spans) :: Of(spans, t) != []
    ensures forall i, j | 0 <= i < j < |Order(spans)| :: Order(spans)[i] != Order(spans)[j]
  {
    if spans != [] { GroupsAreDistinct(spans[..|spans| - 1]); }
  }

  lemma {:induction false} GroupsAreOfTheirTrace(spans: seq<RawSpan>, t: Id)
    ensures forall s | s in Of(spans, t) :: s.valid && s.trace == t && s in spans
    ensures multiset(Of(spans, t)) <= multiset(spans)
  {
    if spans != [] {
      GroupsAreOfTheirTrace(spans[..|spans| - 1], t);
      LastCounts(spans);
    }
  }

  lemma LastCounts(spans: seq<RawSpan>)
    requires spans != []
    ensures multiset(spans) == multiset(spans[..|spans| - 1]) + multiset{spans[|spans| - 1]}
  {
    assert spans == spans[..|spans| - 1] + [spans[|spans| - 1]];
  }

  // ---------------------------------------------------------------- plans

  function FirstCanonical(spans: seq<RawSpan>): Option<Id> {
    if spans == [] then None else Coalesce(spans[0].canonical, FirstCanonical(spans[1..]))
  }

  function FirstFallback(spans: seq<RawSpan>): Option<Id> {
    if spans == [] then None else Coalesce(spans[0].fallback, FirstFallback(spans[1..]))
  }

  /** `pickConversationIdFromSpans`: a canonical id anywhere beats any fallback id. */
  function PickConversation(spans: seq<RawSpan>): Option<Id> {
    Coalesce(FirstCanonical(spans), FirstFallback(spans))
  }

  /** Agents are numbered; this one counts cached tokens as input. */
  const COPILOT: Id := 0

  /** Only the input that was not cached is counted. */
  function Uncached(agent: Option<Id>, u: Usage): Usage {
    if agent == Some(COPILOT) && u.inTok.Some? && u.cacheR.Some?
    then u.(inTok := Some(Max(u.inTok.value - u.cacheR.value, 0)))
    else u
  }

  function RowFor(agent: Option<Id>, s: RawSpan, x: Sources): SpanRow {
    SpanRow(s.id, Span(s.trace, Uncached(agent, UsageColumns(s, x)),
                       if s.startNano.Some? then s.startNano.value else EPOCH, s.rest))
  }

  /** The rows of the spans of one trace. */
  function RowsFor(agent: Option<Id>, spans: seq<RawSpan>): seq<SpanRow> {
    seq(|spans|, i requires 0 <= i < |spans| => RowFor(agent, spans[i], SourcesIn(spans)))
  }

  function PlanOf(session: Id, agent: Option<Id>, t: Id, spans: seq<RawSpan>): Plan {
    var started, ended := Earliest(spans), Latest(spans);
    Plan(session, agent, t, PickConversation(spans),
         if started.Some? then started.value else if ended.Some? then ended.value else EPOCH,
         ended, RowsFor(agent, spans))
  }

  function PlansFor(session: Id, agent: Option<Id>, order: seq<Id>, spans: seq<RawSpan>): seq<Plan> {
    if order == [] then []
    else
      var t := order[|order| - 1];
      PlansFor(session, agent, order[..|order| - 1], spans) + [PlanOf(session, agent, t, Of(spans, t))]
  }

  function Plans(resources: seq<Resource>): seq<Plan> {
    if resources == [] then []
    else
      var r := resources[|resources| - 1];
      Plans(resources[..|resources| - 1])
      + if r.session.None? then [] else PlansFor(r.session.value, r.agent, Order(r.spans), r.spans)
  }

  // ---------------------------------------------------------------- the writes of a trace batch

  function SpanWrites(rows: seq<SpanRow>): seq<Write> {
    if rows == [] then []
    else SpanWrites(rows[..|rows| - 1]) + [InsertSpan(rows[|rows| - 1].id, rows[|rows| - 1].span)]
  }

  function SeenBy(p: Plan): Conversation {
    Conversation(p.agent, p.startedAt, if p.endedAt.Some? then p.endedAt.value else p.startedAt)
  }

  function PlanHead(p: Plan): seq<Write> {
    (if p.conversation.Some?
     then [UpsertConversation(p.conversation.value, SeenBy(p))]
     else [])
    + [UpsertTrace(p.trace, Trace(p.session, p.conversation, p.startedAt, p.endedAt))]
  }

  function PlanWrites(p: Plan): seq<Write> {
    PlanHead(p) + SpanWrites(p.rows)
  }

  function TraceBatch(plans: seq<Plan>): seq<Write> {
    if plans == [] then [] else TraceBatch(plans[..|plans| - 1]) + PlanWrites(plans[|plans| - 1])
  }

  // ---------------------------------------------------------------- logs

  /** What `ingestLogRecords` makes of one record. `whitelisted` and `known` say where its
      event name stands; an attribute that is missing or empty is `None`. */
  datatype RawLog = RawLog(
    event: Option<Id>, whitelisted: bool, known: bool, conversation: Option<Id>, prompt: Option<Id>,
    sequence: Option<int>, timeNano: Option<Time>, rest: Id)

  datatype LogRow = LogRow(key: LogKey, log: LogRecord)

  predicate Accepts(r: RawLog) {
    r.event.Some? && r.whitelisted && r.conversation.Some? && r.prompt.Some? && r.sequence.Some?
  }

  predicate Unknown(r: RawLog) {
    r.event.Some? && !r.whitelisted && !r.known
  }

  function RowOf(r: RawLog, invocation: Id): LogRow
    requires Accepts(r)
  {
    LogRow(LogKey(r.conversation.value, r.sequence.value),
           LogRecord(invocation, r.prompt.value, if r.timeNano.Some? then r.timeNano.value else EPOCH, r.rest))
  }

  function RowsOf(records: seq<RawLog>, invocation: Id): seq<LogRow> {
    if records == [] then []
    else
      var r := records[|records| - 1];
      RowsOf(records[..|records| - 1], invocation) + if Accepts(r) then [RowOf(r, invocation)] else []
  }

  function CountUnknown(records: seq<RawLog>): nat {
    if records == [] then 0
    else CountUnknown(records[..|records| - 1]) + if Unknown(records[|records| - 1]) then 1 else 0
  }

  /** The conversations of the rows, in the order of their first row. */
  function Conversations(rows: seq<LogRow>): seq<Id> {
    if rows == [] then []
    else
      var before, c := Conversations(rows[..|rows| - 1]), rows[|rows| - 1].key.conversation;
      if c in before then before else before + [c]
  }

  /** First and last time of a conversation's rows. */
  function SeenIn(rows: seq<LogRow>, c: Id): Option<Conversation> {
    if rows == [] then None
    else
      var before, r := SeenIn(rows[..|rows| - 1], c), rows[|rows| - 1];
      if r.key.conversation != c then before
      else
        var seen := Conversation(None, r.log.time, r.log.time);
        Some(if before.Some? then MergeConversation(before.value, seen) else seen)
  }

  function SeenWrites(cs: seq<Id>, rows: seq<LogRow>): seq<Write> {
    if cs == [] then []
    else
      var c := cs[|cs| - 1];
      SeenWrites(cs[..|cs| - 1], rows)
      + if SeenIn(rows, c).Some? then [UpsertConversation(c, SeenIn(rows, c).value)] else []
  }

  function LogWrites(rows: seq<LogRow>): seq<Write> {
    if rows == [] then [] else LogWrites(rows[..|rows| - 1]) + [InsertLog(rows[|rows| - 1].key, rows[|rows| - 1].log)]
  }

  function LogBatch(rows: seq<LogRow>): seq<Write> {
    SeenWrites(Conversations(rows), rows) + LogWrites(rows)
  }

  // ---------------------------------------------------------------- both are telemetry

  lemma {:induction false} SpansAreTelemetry(rows: seq<SpanRow>)
    ensures Telemetry(SpanWrites(rows)) && forall w | w in SpanWrites(rows) :: w.InsertSpan?
  {
    if rows != [] { SpansAreTelemetry(rows[..|rows| - 1]); }
  }

  lemma {:induction false} TraceBatchIsTelemetry(plans: seq<Plan>)
    ensures Telemetry(TraceBatch(plans)) && forall w | w in TraceBatch(plans) :: !w.InsertLog?
  {
    if plans != [] {
      TraceBatchIsTelemetry(plans[..|plans| - 1]);
      SpansAreTelemetry(plans[|plans| - 1].rows);
    }
  }

  lemma {:induction false} SeenWritesAreUpserts(cs: seq<Id>, rows: seq<LogRow>)
    ensures forall w | w in SeenWrites(cs, rows) :: w.UpsertConversation?
  {
    if cs != [] { SeenWritesAreUpserts(cs[..|cs| - 1], rows); }
  }

  lemma {:induction false} LogWritesAreInserts(rows: seq<LogRow>)
    ensures forall w | w in LogWrites(rows) :: w.InsertLog? && LogRow(w.key, w.log) in rows
  {
    if rows != [] { LogWritesAreInserts(rows[..|rows| - 1]); }
  }

  lemma LogBatchIsTelemetry(rows: seq<LogRow>)
    ensures Telemetry(LogBatch(rows))
  {
    SeenWritesAreUpserts(Conversations(rows), rows);
    LogWritesAreInserts(rows);
    forall i | 0 <= i < |LogBatch(rows)| ensures !LogBatch(rows)[i].UpsertInvocation? && !LogBatch(rows)[i].MarkEnded? {
      assert LogBatch(rows)[i] in SeenWrites(Conversations(rows), rows) || LogBatch(rows)[i] in LogWrites(rows);
    }
  }

  /** Ingesting any trace payload twice, or any log payload twice, changes nothing. */
  lemma IngestTwiceIsOnce(db: Db, resources: seq<Resource>, records: seq<RawLog>, invocation: Id)
    requires Referenced(db)
    ensures var t := TraceBatch(Plans(resources)); Transact(Transact(db, t), t) == Transact(db, t)
    ensures var l := LogBatch(RowsOf(records, invocation)); Transact(Transact(db, l), l) == Transact(db, l)
  {
    TraceBatchIsTelemetry(Plans(resources));
    RedeliveryChangesNothing(db, TraceBatch(Plans(resources)));
    LogBatchIsTelemetry(RowsOf(records, invocation));
    RedeliveryChangesNothing(db, LogBatch(RowsOf(records, invocation)));
  }

  // ---------------------------------------------------------------- what a plan stores

  /** The conversation of a trace: the canonical id of the first span that has one, and
      only if none has, the first fallback id. */
  lemma {:induction false} PickedIsFirst(spans: seq<RawSpan>, i: nat)
    requires i < |spans| && spans[i].canonical.Some? && forall j | 0 <= j < i :: spans[j].canonical.None?
    ensures PickConversation(spans) == FirstCanonical(spans) == spans[i].canonical
  {
    if i > 0 {
      assert forall j | 0 <= j < i - 1 :: spans[1..][j] == spans[j + 1];
      PickedIsFirst(spans[1..], i - 1);
    }
  }

  /** Once the plan of a trace is stored, its conversation spans every start and end of its
      spans, and the trace is there with that conversation unless it had another. */
  lemma PlanCoversItsSpans(db: Db, session: Id, agent: Option<Id>, t: Id, spans: seq<RawSpan>, i: nat)
    requires var p := PlanOf(session, agent, t, spans);
             Run(db, PlanWrites(p)).Some? && p.conversation.Some? && i < |spans|
    ensures var p := PlanOf(session, agent, t, spans);
            var x := Run(db, PlanWrites(p)).value;
            && p.conversation.value in x.conversations && t in x.traces && x.traces[t].conversation.Some?
            && var c := x.conversations[p.conversation.value];
               && (spans[i].startNano.Some? ==> c.firstSeenAt <= spans[i].startNano.value)
               && (spans[i].endNano.Some? ==> spans[i].endNano.value <= c.lastSeenAt)
  {
    var p := PlanOf(session, agent, t, spans);
    var c, ws := p.conversation.value, PlanWrites(p);
    EarliestIsLeast(spans);
    LatestIsGreatest(spans);
    RunIsRowwise(db, ws, c, LogKey(c, 0));
    RunIsRowwise(db, ws, t, LogKey(c, 0));
    FoldCovers(Row(db.conversations, c), ws, c);
    FoldLinks(Row(db.traces, t), ws, t);
    assert Writes(ws[0], c) && ws[1].UpsertTrace? && ws[1].id == t;
    assert Spans(Row(Run(db, ws).value.conversations, c), ws[0], c);
  }

  // ---------------------------------------------------------------- what ingest keeps for retention

  ghost predicate Within(db: Db, w: Write) {
    w.InsertLog? ==>
        w.key.conversation in db.conversations && w.log.time <= db.conversations[w.key.conversation].lastSeenAt
  }

  lemma ApplyKeepsBounded(db: Db, w: Write)
    requires Bounded(db) && Within(db, w) && Apply(db, w).Some?
    ensures Bounded(Apply(db, w).value)
  {
  }

  lemma ApplyKeepsWithin(db: Db, w: Write, u: Write)
    requires Within(db, u) && Apply(db, w).Some?
    ensures Within(Apply(db, w).value, u)
  {
  }

  lemma {:induction false} RunKeepsBounded(db: Db, ws: seq<Write>)
    requires Bounded(db) && (forall i | 0 <= i < |ws| :: Within(db, ws[i])) && Run(db, ws).Some?
    ensures Bounded(Run(db, ws).value)
    decreases |ws|
  {
    if ws != [] {
      var x := Apply(db, ws[0]).value;
      ApplyKeepsBounded(db, ws[0]);
      forall i | 0 <= i < |ws[1..]| ensures Within(x, ws[1..][i]) {
        ApplyKeepsWithin(db, ws[0], ws[i + 1]);
      }
      RunKeepsBounded(x, ws[1..]);
    }
  }

  lemma {:induction false} SeenBounds(rows: seq<LogRow>, c: Id)
    ensures forall i | 0 <= i < |rows| && rows[i].key.conversation == c ::
              SeenIn(rows, c).Some? && rows[i].log.time <= SeenIn(rows, c).value.lastSeenAt
              && SeenIn(rows, c).value.firstSeenAt <= rows[i].log.time
  {
    if rows != [] { SeenBounds(rows[..|rows| - 1], c); }
  }

  lemma {:induction false} ConversationsListed(rows: seq<LogRow>, i: nat)
    requires i < |rows|
    ensures rows[i].key.conversation in Conversations(rows)
  {
    if i < |rows| - 1 { ConversationsListed(rows[..|rows| - 1], i); }
  }

  lemma {:induction false} SeenWritten(cs: seq<Id>, rows: seq<LogRow>, c: Id)
    requires c in cs && SeenIn(rows, c).Some?
    ensures UpsertConversation(c, SeenIn(rows, c).value) in SeenWrites(cs, rows)
  {
    var n := |cs| - 1;
    if c in cs[..n] { SeenWritten(cs[..n], rows, c); } else { assert cs[n] == c; }
  }

  /** After the conversation writes, every row of the batch lies within its conversation. */
  lemma RowsWithin(db: Db, rows: seq<LogRow>, i: nat)
    requires i < |rows| && Run(db, SeenWrites(Conversations(rows), rows)).Some?
    ensures Within(Run(db, SeenWrites(Conversations(rows), rows)).value, InsertLog(rows[i].key, rows[i].log))
  {
    var c, ws := rows[i].key.conversation, SeenWrites(Conversations(rows), rows);
    SeenBounds(rows, c);
    ConversationsListed(rows, i);
    SeenWritten(Conversations(rows), rows, c);
    var j :| 0 <= j < |ws| && ws[j] == UpsertConversation(c, SeenIn(rows, c).value);
    RunIsRowwise(db, ws, c, rows[i].key);
    FoldCovers(Row(db.conversations, c), ws, c);
    assert Spans(Row(Run(db, ws).value.conversations, c), ws[j], c);
  }

  lemma LogBatchKeepsBounded(db: Db, rows: seq<LogRow>)
    requires Bounded(db)
    ensures Bounded(Transact(db, LogBatch(rows)))
  {
    var seen, logs := SeenWrites(Conversations(rows), rows), LogWrites(rows);
    RunConcat(db, seen, logs);
    if Run(db, LogBatch(rows)).Some? {
      SeenWritesAreUpserts(Conversations(rows), rows);
      forall i | 0 <= i < |seen| ensures Within(db, seen[i]) { assert seen[i] in seen; }
      RunKeepsBounded(db, seen);
      var x := Run(db, seen).value;
      LogWritesAreInserts(rows);
      forall i | 0 <= i < |logs| ensures Within(x, logs[i]) {
        assert LogRow(logs[i].key, logs[i].log) in rows;
        var j :| 0 <= j < |rows| && rows[j] == LogRow(logs[i].key, logs[i].log);
        RowsWithin(db, rows, j);
      }
      RunKeepsBounded(x, logs);
    }
  }

  lemma TraceBatchKeepsBounded(db: Db, plans: seq<Plan>)
    requires Bounded(db)
    ensures Bounded(Transact(db, TraceBatch(plans)))
  {
    TraceBatchIsTelemetry(plans);
    if Run(db, TraceBatch(plans)).Some? { RunKeepsBounded(db, TraceBatch(plans)); }
  }

  ghost predicate Later(db: Db, w: Write) {
    w.InsertLog? ==> w.log.invocation in db.invocations ==> db.invocations[w.log.invocation].startedAt <= w.log.time
  }

  lemma {:induction false} RunKeepsLogsAfterStart(db: Db, ws: seq<Write>)
    requires LogsAfterStart(db) && Telemetry(ws) && (forall i | 0 <= i < |ws| :: Later(db, ws[i])) && Run(db, ws).Some?
    ensures LogsAfterStart(Run(db, ws).value)
    decreases |ws|
  {
    if ws != [] {
      var x := Apply(db, ws[0]).value;
      assert x.invocations == db.invocations && LogsAfterStart(x);
      assert forall i | 0 <= i < |ws[1..]| :: Later(db, ws[i + 1]) && ws[1..][i] == ws[i + 1];
      RunKeepsLogsAfterStart(x, ws[1..]);
    }
  }

  // ---------------------------------------------------------------- histories

  datatype Event =
    | IngestTraces(resources: seq<Resource>)
    | IngestLogs(records: seq<RawLog>, invocation: Id)
    | StartInvocation(id: Id, row: Invocation)
    | EndInvocation(id: Id, at: Time, reason: Id)
    | PruneAt(cutoff: Time)

  ghost function Step(db: Db, e: Event): Db {
    match e
    case IngestTraces(resources) => Transact(db, TraceBatch(Plans(resources)))
    case IngestLogs(records, invocation) => Transact(db, LogBatch(RowsOf(records, invocation)))
    case StartInvocation(id, row) => PutInvocation(db, id, row)
    case EndInvocation(id, at, reason) => PutEnd(db, id, at, reason)
    case PruneAt(cutoff) => if Prune(db, cutoff).Some? then Prune(db, cutoff).value else db
  }

  const EMPTY := Db(map[], map[], map[], map[], map[])

  ghost predicate IsHistory(dbs: seq<Db>, es: seq<Event>) {
    && |dbs| == |es| + 1
    && dbs[0] == EMPTY
    && forall i | 0 <= i < |es| :: dbs[i + 1] == Step(dbs[i], es[i])
  }

  /** No record arrives with a time before the start of the invocation it is filed under;
      a record without a time arrives with the epoch. */
  predicate Timely(db: Db, e: Event) {
    e.IngestLogs? && e.invocation in db.invocations ==>
      forall i | 0 <= i < |e.records| && Accepts(e.records[i]) ::
        db.invocations[e.invocation].startedAt <= RowOf(e.records[i], e.invocation).log.time
  }

  lemma {:induction false} RowsAreOf(records: seq<RawLog>, invocation: Id)
    ensures forall r | r in RowsOf(records, invocation) ::
              exists i | 0 <= i < |records| :: Accepts(records[i]) && r == RowOf(records[i], invocation)
  {
    if records != [] {
      var n := |records| - 1;
      RowsAreOf(records[..n], invocation);
      forall r | r in RowsOf(records, invocation)
        ensures exists i | 0 <= i < |records| :: Accepts(records[i]) && r == RowOf(records[i], invocation)
      {
        if r in RowsOf(records[..n], invocation) {
          var i :| 0 <= i < n && Accepts(records[..n][i]) && r == RowOf(records[..n][i], invocation);
          assert Accepts(records[i]) && r == RowOf(records[i], invocation);
        } else {
          assert Accepts(records[n]) && r == RowOf(records[n], invocation);
        }
      }
    }
  }

  lemma LogsStepKeepsStart(db: Db, records: seq<RawLog>, invocation: Id)
    requires LogsAfterStart(db) && Timely(db, IngestLogs(records, invocation))
    ensures LogsAfterStart(Transact(db, LogBatch(RowsOf(records, invocation))))
  {
    var rows := RowsOf(records, invocation);
    var ws := LogBatch(rows);
    if Run(db, ws).Some? {
      LogBatchIsTelemetry(rows);
      SeenWritesAreUpserts(Conversations(rows), rows);
      LogWritesAreInserts(rows);
      RowsAreOf(records, invocation);
      forall i | 0 <= i < |ws| ensures Later(db, ws[i]) {
        assert ws[i] in SeenWrites(Conversations(rows), rows) || ws[i] in LogWrites(rows);
        if ws[i].InsertLog? {
          assert LogRow(ws[i].key, ws[i].log) in rows;
        }
      }
      RunKeepsLogsAfterStart(db, ws);
    }
  }

  ghost predicate Healthy(db: Db) {
    Referenced(db) && Bounded(db) && LogsAfterStart(db)
  }

  lemma StepHealthy(db: Db, e: Event)
    requires Healthy(db) && Timely(db, e)
    ensures Healthy(Step(db, e))
  {
    match e
    case IngestTraces(resources) =>
      var ws := TraceBatch(Plans(resources));
      TraceBatchIsTelemetry(Plans(resources));
      TransactKeepsReferences(db, ws);
      TraceBatchKeepsBounded(db, Plans(resources));
      if Run(db, ws).Some? { RunKeepsLogsAfterStart(db, ws); }
    case IngestLogs(records, invocation) =>
      TransactKeepsReferences(db, LogBatch(RowsOf(records, invocation)));
      LogBatchKeepsBounded(db, RowsOf(records, invocation));
      LogsStepKeepsStart(db, records, invocation);
    case StartInvocation(id, row) => ApplyKeepsReferences(db, UpsertInvocation(id, row));
    case EndInvocation(id, at, reason) => ApplyKeepsReferences(db, MarkEnded(id, at, reason));
    case PruneAt(cutoff) =>
      PruneSucceeds(db, cutoff);
      PruneKeepsReferences(db, cutoff);
      SurvivorsKeepHypotheses(db, cutoff);
  }

  /** In every history of invocations, deliveries and prunes, started from an empty
      database, in which log records are timely: references hold throughout and every
      prune succeeds and keeps exactly the survivors. */
  lemma {:induction false} TimelyHistoriesPrune(dbs: seq<Db>, es: seq<Event>, i: nat, cutoff: Time)
    requires IsHistory(dbs, es) && i < |dbs| && forall j | 0 <= j < |es| :: Timely(dbs[j], es[j])
    ensures Healthy(dbs[i]) && Prune(dbs[i], cutoff) == Some(Survivors(dbs[i], cutoff))
    decreases i
  {
    if i > 0 {
      TimelyHistoriesPrune(dbs, es, i - 1, cutoff);
      StepHealthy(dbs[i - 1], es[i - 1]);
    }
    PruneSucceeds(dbs[i], cutoff);
  }

  // ---------------------------------------------------------------- deliveries to a new session

  lemma OneGroup(s: RawSpan)
    requires s.valid
    ensures Order([s]) == [s.trace] && Of([s], s.trace) == [s]
  {
    assert [s][..0] == [];
    assert Order([]) == [] && Of([], s.trace) == [];
  }

  lemma OneResource(r: Resource)
    requires r.session.Some?
    ensures Plans([r]) == PlansFor(r.session.value, r.agent, Order(r.spans), r.spans)
  {
    assert [r][..0] == [];
    assert Plans([]) == [];
  }

  lemma OneTrace(session: Id, agent: Option<Id>, t: Id, spans: seq<RawSpan>)
    ensures PlansFor(session, agent, [t], spans) == [PlanOf(session, agent, t, Of(spans, t))]
  {
    assert [t][..0] == [];
    assert PlansFor(session, agent, [], spans) == [];
  }

  lemma NoConversation(s: RawSpan)
    requires s.canonical.None? && s.fallback.None?
    ensures PickConversation([s]).None?
  {
    var none: seq<RawSpan> := [];
    assert [s][1..] == none && FirstCanonical(none).None? && FirstFallback(none).None?;
    assert FirstCanonical([s]).None? && FirstFallback([s]).None?;
  }

  lemma OneBatch(p: Plan, r: SpanRow)
    requires p.conversation.None? && p.rows == [r]
    ensures TraceBatch([p]) ==
              [UpsertTrace(p.trace, Trace(p.session, None, p.startedAt, p.endedAt)), InsertSpan(r.id, r.span)]
  {
    assert [p][..0] == [] && [r][..0] == [];
    assert TraceBatch([]) == [] && SpanWrites([]) == [];
    assert SpanWrites([r]) == [InsertSpan(r.id, r.span)];
    assert PlanHead(p) == [UpsertTrace(p.trace, Trace(p.session, None, p.startedAt, p.endedAt))];
  }

  lemma TwoWrites(db: Db, v: Write, w: Write)
    requires Apply(db, v).Some? && Apply(Apply(db, v).value, w).Some?
    ensures Transact(db, [v, w]) == Apply(Apply(db, v).value, w).value
  {
    var x := Apply(db, v).value;
    assert [v, w][1..] == [w] && [w][1..] == [];
    assert Run(Apply(x, w).value, []) == Apply(x, w);
    assert Run(x, [w]) == Apply(x, w);
  }

  lemma OnePlan(session: Id, s: RawSpan)
    requires s.valid && s.canonical.None? && s.fallback.None?
    ensures var p := PlanOf(session, None, s.trace, [s]);
            && Plans([Resource(Some(session), None, [s])]) == [p] && p.conversation.None?
            && p.rows == [RowFor(None, s, SourcesIn([s]))]
  {
    OneResource(Resource(Some(session), None, [s]));
    OneGroup(s);
    OneTrace(session, None, s.trace, [s]);
    NoConversation(s);
  }

  /** A span that is delivered to a session which has just begun is stored with the usage
      it was read with. */
  lemma OneSpanIsStored(session: Id, row: Invocation, s: RawSpan)
    requires s.valid && s.canonical.None? && s.fallback.None?
    ensures var z :=
        Step(Step(EMPTY, StartInvocation(session, row)), IngestTraces([Resource(Some(session), None, [s])]));
            z.spans.Keys == {s.id} && z.spans[s.id].usage == UsageColumns(s, SourcesIn([s]))
  {
    var p, r := PlanOf(session, None, s.trace, [s]), RowFor(None, s, SourcesIn([s]));
    OnePlan(session, s);
    OneBatch(p, r);
    SpanFollowsTrace(session, row, s.trace, Trace(session, None, p.startedAt, p.endedAt), r.id, r.span);
  }

  lemma SpanFollowsTrace(session: Id, row: Invocation, t: Id, trace: Trace, id: Id, span: Span)
    requires trace.invocation == session && trace.conversation.None? && span.trace == t
    ensures Transact(PutInvocation(EMPTY, session, row), [UpsertTrace(t, trace), InsertSpan(id, span)]).spans ==
        map[id := span]
  {
    TwoWrites(PutInvocation(EMPTY, session, row), UpsertTrace(t, trace), InsertSpan(id, span));
  }

  lemma OneRow(log: RawLog, invocation: Id)
    requires Accepts(log)
    ensures RowsOf([log], invocation) == [RowOf(log, invocation)]
  {
    assert [log][..0] == [];
    assert RowsOf([], invocation) == [];
  }

  lemma OneConversation(row: LogRow)
    ensures Conversations([row]) == [row.key.conversation]
    ensures SeenIn([row], row.key.conversation) == Some(Conversation(None, row.log.time, row.log.time))
    ensures LogWrites([row]) == [InsertLog(row.key, row.log)]
  {
    assert [row][..0] == [];
    assert Conversations([]) == [] && LogWrites([]) == [] && SeenIn([], row.key.conversation).None?;
  }

  lemma OneLogBatch(row: LogRow)
    ensures LogBatch([row]) ==
              [UpsertConversation(row.key.conversation, Conversation(None, row.log.time, row.log.time)),
                  InsertLog(row.key, row.log)]
  {
    var c := row.key.conversation;
    OneConversation(row);
    assert [c][..0] == [];
    assert SeenWrites([], [row]) == [];
    assert SeenWrites([c], [row]) == [UpsertConversation(c, Conversation(None, row.log.time, row.log.time))];
  }

  /** The epoch that stands for a missing time makes a log record older than its invocation:
      an invocation starts, one acceptable record without a time is delivered to it, and a
      prune between the epoch and that start is refused. */
  lemma MissingTimeBlocksPruning(invocation: Id, row: Invocation, log: RawLog, cutoff: Time)
    requires Accepts(log) && log.timeNano.None? && EPOCH < cutoff <= row.startedAt
    ensures var db := Step(Step(EMPTY, StartInvocation(invocation, row)), IngestLogs([log], invocation));
            Referenced(db) && Bounded(db) && !LogsAfterStart(db) && Prune(db, cutoff).None?
  {
    OneRow(log, invocation);
    OneLogBatch(RowOf(log, invocation));
    EpochLogBlocksPruning(invocation, row, RowOf(log, invocation).key, RowOf(log, invocation).log, cutoff);
  }
}
