/** The history database as the program uses it: tables updated in place by loops of
    statements inside transactions that roll back on a refused statement. */
module HistoryObjects {
  import opened Wrappers
  import opened HistoryStore
  import opened HistoryUsage
  import opened HistoryIngest
  import opened HistoryRetention

  lemma RunAppend(db: Db, ws: seq<Write>, w: Write)
    ensures Run(db, ws + [w]) == match Run(db, ws) case None => None case Some(x) => Apply(x, w)
  {
    RunConcat(db, ws, [w]);
    if Run(db, ws).Some? {
      var x := Run(db, ws).value;
      assert [w][1..] == [];
      if Apply(x, w).Some? { assert Run(Apply(x, w).value, []) == Apply(x, w); }
    }
  }

  lemma {:induction false} SpanPrefixFails(db: Db, rows: seq<SpanRow>, n: nat)
    requires n <= |rows| && Run(db, SpanWrites(rows[..n])).None?
    ensures Run(db, SpanWrites(rows)).None?
  {
    if n == |rows| {
      assert rows[..n] == rows;
    } else {
      assert rows[..|rows| - 1][..n] == rows[..n];
      SpanPrefixFails(db, rows[..|rows| - 1], n);
      RunAppend(db, SpanWrites(rows[..|rows| - 1]), InsertSpan(rows[|rows| - 1].id, rows[|rows| - 1].span));
    }
  }

  lemma {:induction false} PlanPrefixFails(db: Db, plans: seq<Plan>, n: nat)
    requires n <= |plans| && Run(db, TraceBatch(plans[..n])).None?
    ensures Run(db, TraceBatch(plans)).None?
  {
    if n == |plans| {
      assert plans[..n] == plans;
    } else {
      assert plans[..|plans| - 1][..n] == plans[..n];
      PlanPrefixFails(db, plans[..|plans| - 1], n);
      RunConcat(db, TraceBatch(plans[..|plans| - 1]), PlanWrites(plans[|plans| - 1]));
    }
  }

  lemma {:induction false} LogPrefixFails(db: Db, rows: seq<LogRow>, n: nat)
    requires n <= |rows| && Run(db, LogWrites(rows[..n])).None?
    ensures Run(db, LogWrites(rows)).None?
  {
    if n == |rows| {
      assert rows[..n] == rows;
    } else {
      assert rows[..|rows| - 1][..n] == rows[..n];
      LogPrefixFails(db, rows[..|rows| - 1], n);
      RunAppend(db, LogWrites(rows[..|rows| - 1]), InsertLog(rows[|rows| - 1].key, rows[|rows| - 1].log));
    }
  }

  // ---------------------------------------------------------------- transform

  class Accum {
    const traceId: Id
    var spansInOrder: seq<RawSpan>
    var minStartNano: Option<Time>
    var maxEndNano: Option<Time>

    ghost predicate Holds(spans: seq<RawSpan>)
      reads this
    {
      spansInOrder == spans && minStartNano == Earliest(spans) && maxEndNano == Latest(spans)
    }

    constructor (traceId: Id)
      ensures this.traceId == traceId && Holds([])
    {
      this.traceId := traceId;
      spansInOrder, minStartNano, maxEndNano := [], None, None;
    }

    method Push(sp: RawSpan)
      modifies this
      ensures forall before | old(Holds(before)) :: Holds(before + [sp])
    {
      ghost var was := spansInOrder;
      assert (was + [sp])[..|was|] == was;
      spansInOrder := spansInOrder + [sp];
      if sp.startNano.Some? {
        minStartNano := if minStartNano.None? then sp.startNano else Some(Min(minStartNano.value, sp.startNano.value));
      }
      if sp.endNano.Some? {
        maxEndNano := if maxEndNano.None? then sp.endNano else Some(Max(maxEndNano.value, sp.endNano.value));
      }
    }
  }

  /** Every trace has an accumulator of its own, which holds its spans. */
  ghost predicate Holding(traces: map<Id, Accum>, spans: seq<RawSpan>)
    reads traces.Values
  {
    forall t | t in traces :: traces[t].traceId == t && traces[t].Holds(Of(spans, t))
  }

  ghost predicate Keyed(traces: map<Id, Accum>, order: seq<Id>) {
    forall t :: t in traces <==> t in order
  }

  ghost predicate Grouped(traces: map<Id, Accum>, order: seq<Id>, spans: seq<RawSpan>)
    reads traces.Values
  {
    order == Order(spans) && Keyed(traces, order) && Holding(traces, spans)
  }

  lemma GroupStep(before: seq<RawSpan>, sp: RawSpan, t: Id)
    ensures Order(before + [sp]) ==
              if sp.valid && sp.trace !in Order(before) then Order(before) + [sp.trace] else Order(before)
    ensures Of(before + [sp], t) == if sp.valid && sp.trace == t then Of(before, t) + [sp] else Of(before, t)
  {
    assert (before + [sp])[..|before|] == before;
  }

  lemma GroupSteps(before: seq<RawSpan>, sp: RawSpan)
    ensures forall t ::
              Of(before + [sp], t) == if sp.valid && sp.trace == t then Of(before, t) + [sp] else Of(before, t)
  {
    forall t ensures Of(before + [sp], t) == if sp.valid && sp.trace == t then Of(before, t) + [sp] else Of(before, t) {
      GroupStep(before, sp, t);
    }
  }

  /** The span goes to the accumulator of its trace. */
  method PushTo(traces: map<Id, Accum>, sp: RawSpan, ghost before: seq<RawSpan>)
    requires sp.valid && sp.trace in traces && Holding(traces, before)
    modifies traces[sp.trace]
    ensures Holding(traces, before + [sp])
  {
    GroupSteps(before, sp);
    assert forall t | t in traces && t != sp.trace :: traces[t] != traces[sp.trace];
    traces[sp.trace].Push(sp);
  }

  /** An accumulator for a trace of which no span has come yet. */
  method AddTrace(order: seq<Id>, traces: map<Id, Accum>, t: Id, ghost before: seq<RawSpan>)
    returns (order': seq<Id>, traces': map<Id, Accum>)
    requires t !in traces && Grouped(traces, order, before)
    ensures order' == order + [t] && Keyed(traces', order') && Holding(traces', before)
    ensures t in traces' && fresh(traces'[t]) && traces' == traces[t := traces'[t]]
  {
    OfNone(before, t);
    var acc := new Accum(t);
    order', traces' := order + [t], traces[t := acc];
  }

  lemma SkippedSpan(traces: map<Id, Accum>, order: seq<Id>, sp: RawSpan, before: seq<RawSpan>)
    requires !sp.valid && Grouped(traces, order, before)
    ensures Grouped(traces, order, before + [sp])
  {
    GroupStep(before, sp, sp.trace);
    GroupSteps(before, sp);
  }

  /** One turn of the inner loop. */
  method AddSpan(order: seq<Id>, traces: map<Id, Accum>, sp: RawSpan, ghost before: seq<RawSpan>)
    returns (order': seq<Id>, traces': map<Id, Accum>)
    requires Grouped(traces, order, before)
    modifies traces.Values
    ensures Grouped(traces', order', before + [sp])
    ensures traces' == traces
            || (sp.trace in traces' && fresh(traces'[sp.trace]) && traces' == traces[sp.trace := traces'[sp.trace]])
  {
    order', traces' := order, traces;
    if !sp.valid {
      SkippedSpan(traces, order, sp, before);
      return;
    }
    GroupStep(before, sp, sp.trace);
    if sp.trace !in traces {
      order', traces' := AddTrace(order, traces, sp.trace, before);
    }
    PushTo(traces', sp, before);
  }

  lemma TakeOne(spans: seq<RawSpan>, i: nat)
    requires i < |spans|
    ensures spans[..i + 1] == spans[..i] + [spans[i]]
  {
  }

  /** The accumulators of one resource, in the insertion order of the map. */
  method GroupSpans(spans: seq<RawSpan>)
    returns (order: seq<Id>, traces: map<Id, Accum>)
    ensures Grouped(traces, order, spans) && forall t | t in traces :: fresh(traces[t])
  {
    order, traces := [], map[];
    ghost var before: seq<RawSpan> := [];
    var i := 0;
    while i < |spans|
      invariant 0 <= i <= |spans| && before == spans[..i] && Grouped(traces, order, before)
      invariant forall t | t in traces :: fresh(traces[t])
    {
      order, traces := AddSpan(order, traces, spans[i], before);
      TakeOne(spans, i);
      before := before + [spans[i]];
      i := i + 1;
    }
    assert before == spans;
  }

  lemma {:induction false} OfNone(spans: seq<RawSpan>, t: Id)
    requires t !in Order(spans)
    ensures Of(spans, t) == []
  {
    if spans != [] { OfNone(spans[..|spans| - 1], t); }
  }

  function SpanCount(plans: seq<Plan>): nat {
    if plans == [] then 0 else SpanCount(plans[..|plans| - 1]) + |plans[|plans| - 1].rows|
  }

  // ---------------------------------------------------------------- the tables

  class HistoryDatabase {
    var invocations: map<Id, Invocation>
    var conversations: map<Id, Conversation>
    var traces: map<Id, Trace>
    var spans: map<Id, Span>
    var logs: map<LogKey, LogRecord>

    ghost function Contents(): Db
      reads this
    {
      Db(invocations, conversations, traces, spans, logs)
    }

    constructor ()
      ensures Contents() == Db(map[], map[], map[], map[], map[])
    {
      invocations, conversations, traces, spans, logs := map[], map[], map[], map[], map[];
    }

    method UpsertConversation(id: Id, row: Conversation)
      modifies this`conversations
      ensures Contents() == PutConversation(old(Contents()), id, row)
    {
      if id in conversations {
        var was := conversations[id];
        conversations := conversations[id := Conversation(
          Coalesce(row.agent, was.agent), Min(was.firstSeenAt, row.firstSeenAt), Max(was.lastSeenAt, row.lastSeenAt))];
      } else {
        conversations := conversations[id := row];
      }
    }

    method UpsertTrace(id: Id, row: Trace)
      returns (ok: bool)
      modifies this`traces
      ensures ok == PutTrace(old(Contents()), id, row).Some?
      ensures Contents() == if ok then PutTrace(old(Contents()), id, row).value else old(Contents())
    {
      if id in traces {
        var was := traces[id];
        var conversation := Coalesce(was.conversation, row.conversation);
        if conversation.Some? && conversation.value !in conversations { return false; }
        traces := traces[id := Trace(was.invocation, conversation, was.startedAt, Coalesce(row.endedAt, was.endedAt))];
      } else {
        if row.invocation !in invocations { return false; }
        if row.conversation.Some? && row.conversation.value !in conversations { return false; }
        traces := traces[id := row];
      }
      ok := true;
    }

    method InsertSpans(rows: seq<SpanRow>)
      returns (ok: bool)
      modifies this`spans
      ensures ok == Run(old(Contents()), SpanWrites(rows)).Some?
      ensures Contents() == Transact(old(Contents()), SpanWrites(rows))
    {
      var savepoint := spans;
      ghost var was := Contents();
      var i := 0;
      while i < |rows|
        invariant 0 <= i <= |rows| && Run(was, SpanWrites(rows[..i])) == Some(Contents())
        invariant Contents() == was.(spans := spans)
      {
        var r := rows[i];
        assert rows[..i + 1][..i] == rows[..i];
        RunAppend(was, SpanWrites(rows[..i]), InsertSpan(r.id, r.span));
        if r.span.trace !in traces {
          SpanPrefixFails(was, rows, i + 1);
          spans := savepoint;
          return false;
        }
        spans := spans[r.id := r.span];
        i := i + 1;
      }
      assert rows[..i] == rows;
      ok := true;
    }

    method InsertLogRecords(rows: seq<LogRow>)
      returns (ok: bool)
      modifies this`logs
      ensures ok == Run(old(Contents()), LogWrites(rows)).Some?
      ensures Contents() == Transact(old(Contents()), LogWrites(rows))
    {
      var savepoint := logs;
      ghost var was := Contents();
      var i := 0;
      while i < |rows|
        invariant 0 <= i <= |rows| && Run(was, LogWrites(rows[..i])) == Some(Contents())
        invariant Contents() == was.(logs := logs)
      {
        var r := rows[i];
        assert rows[..i + 1][..i] == rows[..i];
        RunAppend(was, LogWrites(rows[..i]), InsertLog(r.key, r.log));
        if r.key !in logs {
          if r.log.invocation !in invocations || r.key.conversation !in conversations {
            LogPrefixFails(was, rows, i + 1);
            logs := savepoint;
            return false;
          }
          logs := logs[r.key := r.log];
        }
        i := i + 1;
      }
      assert rows[..i] == rows;
      ok := true;
    }

    method ApplyPlan(p: Plan)
      returns (ok: bool)
      modifies this
      ensures ok == Run(old(Contents()), PlanWrites(p)).Some?
      ensures ok ==> Contents() == Run(old(Contents()), PlanWrites(p)).value
    {
      ghost var was := Contents();
      ghost var head: seq<Write> := [];
      ghost var row := Trace(p.session, p.conversation, p.startedAt, p.endedAt);
      if p.conversation.Some? {
        var c := Conversation(p.agent, p.startedAt, if p.endedAt.Some? then p.endedAt.value else p.startedAt);
        UpsertConversation(p.conversation.value, c);
        RunAppend(was, [], Write.UpsertConversation(p.conversation.value, c));
        head := [Write.UpsertConversation(p.conversation.value, c)];
        assert [] + head == head;
      }
      assert Run(was, head) == Some(Contents());
      RunAppend(was, head, Write.UpsertTrace(p.trace, row));
      assert head + [Write.UpsertTrace(p.trace, row)] == PlanHead(p);
      RunConcat(was, PlanHead(p), SpanWrites(p.rows));
      ok := UpsertTrace(p.trace, Trace(p.session, p.conversation, p.startedAt, p.endedAt));
      if !ok { return; }
      ok := InsertSpans(p.rows);
    }

    /** `applyIngestPlans`: all plans in one transaction. */
    method ApplyIngestPlans(plans: seq<Plan>)
      returns (ok: bool, acceptedSpans: nat)
      modifies this
      ensures ok == Run(old(Contents()), TraceBatch(plans)).Some?
      ensures Contents() == Transact(old(Contents()), TraceBatch(plans))
      ensures acceptedSpans == if ok then SpanCount(plans) else 0
    {
      var i0, c0, t0, s0, l0 := invocations, conversations, traces, spans, logs;
      ghost var was := Contents();
      acceptedSpans := 0;
      var i := 0;
      while i < |plans|
        invariant 0 <= i <= |plans| && Run(was, TraceBatch(plans[..i])) == Some(Contents())
        invariant acceptedSpans == SpanCount(plans[..i])
      {
        assert plans[..i + 1][..i] == plans[..i];
        RunConcat(was, TraceBatch(plans[..i]), PlanWrites(plans[i]));
        ok := ApplyPlan(plans[i]);
        if !ok {
          PlanPrefixFails(was, plans, i + 1);
          Rollback(i0, c0, t0, s0, l0);
          return false, 0;
        }
        acceptedSpans := acceptedSpans + |plans[i].rows|;
        i := i + 1;
      }
      assert plans[..i] == plans;
      ok := true;
    }
  
    /** The write part of `ingestLogRecords`: one transaction. */
    method IngestLogRecords(records: seq<RawLog>, invocation: Id)
      returns (ok: bool, acceptedRecords: nat, droppedRecords: nat, unknownEvents: nat)
      modifies this
      ensures ok == Run(old(Contents()), LogBatch(RowsOf(records, invocation))).Some?
      ensures Contents() == Transact(old(Contents()), LogBatch(RowsOf(records, invocation)))
      ensures acceptedRecords == |RowsOf(records, invocation)| && acceptedRecords + droppedRecords == |records|
      ensures unknownEvents == CountUnknown(records)
    {
      var rows;
      rows, droppedRecords, unknownEvents := Classify(records, invocation);
      acceptedRecords := |rows|;
      ghost var was := Contents();
      var c0 := conversations;
      var order, seen := ConversationTimes(rows);
      WriteSeen(rows, order, seen);
      RunConcat(was, SeenWrites(order, rows), LogWrites(rows));
      ok := InsertLogRecords(rows);
      if !ok { conversations := c0; }
    }

    method WriteSeen(ghost rows: seq<LogRow>, order: seq<Id>, seen: map<Id, Conversation>)
      requires forall c | c in order :: c in seen && SeenIn(rows, c) == Some(seen[c])
      modifies this`conversations
      ensures Run(old(Contents()), SeenWrites(order, rows)) == Some(Contents())
    {
      ghost var was := Contents();
      var i := 0;
      while i < |order|
        invariant 0 <= i <= |order| && Run(was, SeenWrites(order[..i], rows)) == Some(Contents())
      {
        assert order[..i + 1][..i] == order[..i];
        RunAppend(was, SeenWrites(order[..i], rows), Write.UpsertConversation(order[i], seen[order[i]]));
        UpsertConversation(order[i], seen[order[i]]);
        i := i + 1;
      }
      assert order[..i] == order;
    }

    // -------------------------------------------------------------- the five deletes

    predicate Expired(i: Id, cutoff: Time)
      reads this
    {
      i in invocations && invocations[i].startedAt < cutoff
    }

    method DeleteLogs(cutoff: Time)
      modifies this`logs
      ensures Contents() == HistoryRetention.DeleteLogs(old(Contents()), cutoff)
    {
      logs := map l | l in logs && !Expired(logs[l].invocation, cutoff) :: logs[l];
    }

    method DeleteSpans(cutoff: Time)
      modifies this`spans
      ensures Contents() == HistoryRetention.DeleteSpans(old(Contents()), cutoff)
    {
      var gone := set t | t in traces && Expired(traces[t].invocation, cutoff);
      spans := map s | s in spans && spans[s].trace !in gone :: spans[s];
    }

    method DeleteTraces(cutoff: Time)
      returns (ok: bool)
      modifies this`traces
      ensures Outcome(HistoryRetention.DeleteTraces(old(Contents()), cutoff), ok, old(Contents()), Contents())
    {
      ghost var db := Contents();
      var gone := set t | t in traces && Expired(traces[t].invocation, cutoff);
      assert forall t :: t in gone <==> OldTrace(db, t, cutoff);
      if exists s | s in spans :: spans[s].trace in gone { return false; }
      traces := map t | t in traces && t !in gone :: traces[t];
      assert Contents().traces == HistoryRetention.DeleteTraces(db, cutoff).value.traces;
      ok := true;
    }

    method DeleteInvocations(cutoff: Time)
      returns (ok: bool)
      modifies this`invocations
      ensures Outcome(HistoryRetention.DeleteInvocations(old(Contents()), cutoff), ok, old(Contents()), Contents())
    {
      ghost var db := Contents();
      if exists t | t in traces :: Expired(traces[t].invocation, cutoff) {
        assert exists t | t in traces :: OldTrace(db, t, cutoff);
        return false;
      }
      if exists l | l in logs :: Expired(logs[l].invocation, cutoff) { return false; }
      assert forall t | t in traces :: !Expired(traces[t].invocation, cutoff);
      invocations := map i | i in invocations && invocations[i].startedAt >= cutoff :: invocations[i];
      assert Contents().invocations == HistoryRetention.DeleteInvocations(db, cutoff).value.invocations;
      ok := true;
    }

    method DeleteConversations(cutoff: Time)
      returns (ok: bool)
      modifies this`conversations
      ensures Outcome(HistoryRetention.DeleteConversations(old(Contents()), cutoff), ok, old(Contents()), Contents())
    {
      ghost var db := Contents();
      var gone := set c | c in conversations && conversations[c].lastSeenAt < cutoff
                          && forall t | t in traces :: traces[t].conversation != Some(c);
      assert forall c :: c in gone <==> Orphan(db, c, cutoff);
      if exists l | l in logs :: l.conversation in gone { return false; }
      conversations := map c | c in conversations && c !in gone :: conversations[c];
      assert Contents().conversations == HistoryRetention.DeleteConversations(db, cutoff).value.conversations;
      ok := true;
    }

    /** The body of the transaction. */
    method DeleteAll(cutoff: Time)
      returns (ok: bool)
      modifies this
      ensures Prune(old(Contents()), cutoff) == if ok then Some(Contents()) else None
    {
      DeleteLogs(cutoff);
      DeleteSpans(cutoff);
      ok := DeleteTraces(cutoff);
      if !ok { return; }
      ok := DeleteInvocations(cutoff);
      if !ok { return; }
      ok := DeleteConversations(cutoff);
    }

    /** `pruneHistory`; `retentionSeconds <= 0` is a no-op. */
    method PruneHistory(retentionSeconds: int, now: Time)
      returns (ok: bool)
      modifies this
      ensures retentionSeconds <= 0 ==> ok && Contents() == old(Contents())
      ensures retentionSeconds > 0 ==>
                && Prune(old(Contents()), now - retentionSeconds * 1000) == (if ok then Some(Contents()) else None)
                && (ok || Contents() == old(Contents()))
    {
      if retentionSeconds <= 0 { return true; }
      var i0, c0, t0, s0, l0 := invocations, conversations, traces, spans, logs;
      ok := DeleteAll(now - retentionSeconds * 1000);
      if !ok { Rollback(i0, c0, t0, s0, l0); }
    }

    method Rollback(
      i0: map<Id, Invocation>, c0: map<Id, Conversation>, t0: map<Id, Trace>, s0: map<Id, Span>,
      l0: map<LogKey, LogRecord>)
      modifies this
      ensures Contents() == Db(i0, c0, t0, s0, l0)
    {
      invocations, conversations, traces, spans, logs := i0, c0, t0, s0, l0;
    }
  }

  /** A statement that is refused leaves the tables as they are. */
  ghost predicate Outcome(x: Option<Db>, ok: bool, before: Db, after: Db) {
    x == (if ok then Some(after) else None) && (ok || after == before)
  }

  // ---------------------------------------------------------------- log records

  /** The classification loop. */
  method Classify(records: seq<RawLog>, invocation: Id)
    returns (rows: seq<LogRow>, dropped: nat, unknown: nat)
    ensures rows == RowsOf(records, invocation) && |rows| + dropped == |records| && unknown == CountUnknown(records)
  {
    rows, dropped, unknown := [], 0, 0;
    var i := 0;
    while i < |records|
      invariant 0 <= i <= |records| && rows == RowsOf(records[..i], invocation)
      invariant |rows| + dropped == i && unknown == CountUnknown(records[..i])
    {
      var r := records[i];
      assert records[..i + 1][..i] == records[..i];
      i := i + 1;
      if r.event.None? { dropped := dropped + 1; continue; }
      if !r.whitelisted {
        if !r.known { unknown := unknown + 1; }
        dropped := dropped + 1;
        continue;
      }
      if r.conversation.None? || r.prompt.None? || r.sequence.None? { dropped := dropped + 1; continue; }
      rows := rows + [RowOf(r, invocation)];
    }
    assert records[..i] == records;
  }

  /** The loop over `convTimes`. */
  method ConversationTimes(rows: seq<LogRow>)
    returns (order: seq<Id>, seen: map<Id, Conversation>)
    ensures order == Conversations(rows)
    ensures forall c | c in order :: c in seen && SeenIn(rows, c) == Some(seen[c])
  {
    order, seen := [], map[];
    var i := 0;
    while i < |rows|
      invariant 0 <= i <= |rows| && order == Conversations(rows[..i])
      invariant forall c :: c in order <==> c in seen
      invariant forall c :: SeenIn(rows[..i], c) == if c in seen then Some(seen[c]) else None
      invariant forall c | c in seen :: seen[c].agent.None?
    {
      var r := rows[i];
      var c := r.key.conversation;
      assert rows[..i + 1][..i] == rows[..i];
      if c !in seen {
        order := order + [c];
        seen := seen[c := Conversation(None, r.log.time, r.log.time)];
      } else {
        var was := seen[c];
        seen := seen[c := Conversation(None, if r.log.time < was.firstSeenAt then r.log.time else was.firstSeenAt,
                                       if r.log.time > was.lastSeenAt then r.log.time else was.lastSeenAt)];
      }
      i := i + 1;
    }
    assert rows[..i] == rows;
  }

  // ---------------------------------------------------------------- throttling

  /** The per-process map `lastPrunedAt`. */
  class PruneThrottle {
    var lastPrunedAt: map<Id, Time>

    constructor ()
      ensures lastPrunedAt == map[]
    {
      lastPrunedAt := map[];
    }

    /** A prune runs unless one succeeded for this path less than `minInterval` ago; only
        a success moves the baseline. */
    method PruneWithThrottle(db: HistoryDatabase, path: Id, retentionSeconds: int, now: Time, minInterval: int)
      returns (ok: bool, skipped: bool)
      modifies this, db
      ensures skipped <==>
          retentionSeconds > 0 && path in old(lastPrunedAt) && now - old(lastPrunedAt)[path] < minInterval
      ensures skipped || retentionSeconds <= 0 ==>
          ok && db.Contents() == old(db.Contents()) && lastPrunedAt == old(lastPrunedAt)
      ensures !skipped && retentionSeconds > 0 ==>
                && Prune(old(db.Contents()), now - retentionSeconds * 1000) ==
                    (if ok then Some(db.Contents()) else None)
                && (ok || db.Contents() == old(db.Contents()))
                && lastPrunedAt == if ok then old(lastPrunedAt)[path := now] else old(lastPrunedAt)
    {
      if retentionSeconds <= 0 { return true, false; }
      if path in lastPrunedAt && now - lastPrunedAt[path] < minInterval { return true, true; }
      ok := db.PruneHistory(retentionSeconds, now);
      if ok { lastPrunedAt := lastPrunedAt[path := now]; }
      skipped := false;
    }
  }
}
