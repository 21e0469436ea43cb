/** What a whole log payload leaves in the database: each record, each conversation and the
    counts that are reported, whatever was there before. */
module HistoryLogs {
  import opened Wrappers
  import opened Sequences
  import opened HistoryStore
  import opened HistoryReplay
  import opened HistoryIngest

  // ---------------------------------------------------------------- records

  /** The record is kept: its event is on the list, and its conversation, prompt and number are there. */
  predicate Wanted(r: RawLog) {
    r.event.Some? && r.whitelisted && r.conversation.Some? && r.prompt.Some? && r.sequence.Some?
  }

  predicate Names(r: RawLog, k: LogKey) {
    Wanted(r) && r.conversation.value == k.conversation && r.sequence.value == k.sequence
  }

  /** A missing time is stored as 1970-01-01. */
  function TimeOf(r: RawLog): Time {
    if r.timeNano.Some? then r.timeNano.value else 0
  }

  predicate LoggedAs(r: RawLog, invocation: Id, row: LogRecord) {
    r.prompt == Some(row.prompt) && row.invocation == invocation && row.time == TimeOf(r) && row.rest == r.rest
  }

  ghost predicate IsFirst(records: seq<RawLog>, k: LogKey, i: int) {
    0 <= i < |records| && Names(records[i], k) && forall j | 0 <= j < i :: !Names(records[j], k)
  }

  lemma {:induction false} LogFoldConcat(v: Option<LogRecord>, a: seq<Write>, b: seq<Write>, k: LogKey)
    ensures LogFold(v, a + b, k) == LogFold(LogFold(v, a, k), b, k)
    decreases |a|
  {
    if a == [] {
      assert a + b == b;
    } else {
      assert (a + b)[1..] == a[1..] + b;
      LogFoldConcat(LogStep(v, a[0], k), a[1..], b, k);
    }
  }

  lemma LogFoldLast(v: Option<LogRecord>, a: seq<Write>, w: Write, k: LogKey)
    ensures LogFold(v, a + [w], k) == LogStep(LogFold(v, a, k), w, k)
  {
    LogFoldConcat(v, a, [w], k);
    var none: seq<Write> := [];
    assert [w][1..] == none;
  }

  lemma {:induction false} NoLogWritten(v: Option<LogRecord>, ws: seq<Write>, k: LogKey)
    requires forall w | w in ws :: !w.InsertLog?
    ensures LogFold(v, ws, k) == v
    decreases |ws|
  {
    if ws != [] {
      assert ws[0] in ws && forall w | w in ws[1..] :: w in ws;
      NoLogWritten(v, ws[1..], k);
    }
  }

  lemma RowsAppend(init: seq<RawLog>, r: RawLog, invocation: Id)
    ensures Wanted(r) <==> Accepts(r)
    ensures RowsOf(init + [r], invocation) ==
              if Wanted(r) then RowsOf(init, invocation) + [RowOf(r, invocation)] else RowsOf(init, invocation)
  {
    assert (init + [r])[..|init|] == init;
  }

  lemma LogWritesAppend(rows: seq<LogRow>, r: LogRow)
    ensures LogWrites(rows + [r]) == LogWrites(rows) + [InsertLog(r.key, r.log)]
  {
    assert (rows + [r])[..|rows|] == rows;
  }

  /** What is found under a key that was new. */
  ghost predicate FirstStored(records: seq<RawLog>, invocation: Id, k: LogKey, u: Option<LogRecord>) {
    if u.None? then forall i | 0 <= i < |records| :: !Names(records[i], k)
    else exists i :: IsFirst(records, k, i) && LoggedAs(records[i], invocation, u.value)
  }

  lemma FirstStoredAppend(init: seq<RawLog>, r: RawLog, invocation: Id, k: LogKey, u: Option<LogRecord>)
    requires FirstStored(init, invocation, k, u)
    ensures FirstStored(init + [r], invocation, k, if u.None? && Names(r, k) then Some(RowOf(r, invocation).log) else u)
  {
    var records := init + [r];
    assert records[|init|] == r && forall i | 0 <= i < |init| :: records[i] == init[i];
    if u.Some? {
      var i :| IsFirst(init, k, i) && LoggedAs(init[i], invocation, u.value);
      assert IsFirst(records, k, i) && LoggedAs(records[i], invocation, u.value);
    } else if Names(r, k) {
      assert IsFirst(records, k, |init|) && LoggedAs(records[|init|], invocation, RowOf(r, invocation).log);
    }
  }

  lemma RecordWrites(init: seq<RawLog>, r: RawLog, invocation: Id, v: Option<LogRecord>, k: LogKey)
    ensures var u := LogFold(v, LogWrites(RowsOf(init, invocation)), k);
            LogFold(v, LogWrites(RowsOf(init + [r], invocation)), k) ==
              if u.None? && Names(r, k) then Some(RowOf(r, invocation).log) else u
  {
    RowsAppend(init, r, invocation);
    if Wanted(r) {
      var row := RowOf(r, invocation);
      LogWritesAppend(RowsOf(init, invocation), row);
      LogFoldLast(v, LogWrites(RowsOf(init, invocation)), InsertLog(row.key, row.log), k);
    }
  }

  /** The records of a payload, one row: the first record of a key is stored if the key is new. */
  lemma {:induction false} RecordsFold(v: Option<LogRecord>, records: seq<RawLog>, invocation: Id, k: LogKey)
    ensures var u := LogFold(v, LogWrites(RowsOf(records, invocation)), k);
            if v.Some? then u == v else FirstStored(records, invocation, k, u)
  {
    if records == [] {
      assert RowsOf(records, invocation) == [] && LogWrites([]) == [];
    } else {
      var init, r := records[..|records| - 1], records[|records| - 1];
      assert records == init + [r];
      RecordsFold(v, init, invocation, k);
      RecordWrites(init, r, invocation, v, k);
      if v.None? { FirstStoredAppend(init, r, invocation, k, LogFold(v, LogWrites(RowsOf(init, invocation)), k)); }
    }
  }

  /** After a log payload whose transaction succeeds: the first record kept under a new key is
      stored, with its own prompt, time and rest and the invocation of the delivery; what was
      stored before stays; and nothing else is there. */
  lemma RecordsAreStored(db: Db, records: seq<RawLog>, invocation: Id, k: LogKey)
    requires Run(db, LogBatch(RowsOf(records, invocation))).Some?
    ensures var x := Run(db, LogBatch(RowsOf(records, invocation))).value;
            && (k in x.logs <==> k in db.logs || exists i | 0 <= i < |records| :: Names(records[i], k))
            && (k in db.logs ==> x.logs[k] == db.logs[k])
            && forall i | k !in db.logs && IsFirst(records, k, i) :: LoggedAs(records[i], invocation, x.logs[k])
  {
    var rows := RowsOf(records, invocation);
    var x := Run(db, LogBatch(rows)).value;
    RunIsRowwise(db, LogBatch(rows), 0, k);
    SeenWritesAreUpserts(Conversations(rows), rows);
    LogFoldConcat(Row(db.logs, k), SeenWrites(Conversations(rows), rows), LogWrites(rows), k);
    NoLogWritten(Row(db.logs, k), SeenWrites(Conversations(rows), rows), k);
    RecordsFold(Row(db.logs, k), records, invocation, k);
    if k !in db.logs && k in x.logs {
      var i :| IsFirst(records, k, i) && LoggedAs(records[i], invocation, x.logs[k]);
      forall j | IsFirst(records, k, j) ensures j == i {}
    }
  }

  // ---------------------------------------------------------------- counts

  /** The places of the records with a property. */
  ghost function Places(records: seq<RawLog>, p: RawLog -> bool): set<int> {
    set i | 0 <= i < |records| && p(records[i])
  }

  lemma PlacesAppend(init: seq<RawLog>, r: RawLog, p: RawLog -> bool)
    ensures |Places(init + [r], p)| == |Places(init, p)| + if p(r) then 1 else 0
  {
    var a, b := Places(init, p), Places(init + [r], p);
    forall i ensures i in b <==> i in a || (i == |init| && p(r)) {
      if 0 <= i < |init| { assert (init + [r])[i] == init[i]; }
    }
    assert |init| !in a;
    if p(r) { assert b == a + {|init|}; } else { assert b == a; }
  }

  /** What is reported: how many records are kept, and how many name an event nobody knows. */
  lemma {:induction false} CountsAreExact(records: seq<RawLog>, invocation: Id)
    ensures |RowsOf(records, invocation)| == |Places(records, Wanted)|
    ensures CountUnknown(records) ==
              |Places(records, (r: RawLog) => r.event.Some? && !r.whitelisted && !r.known)|
  {
    if records != [] {
      var init, r := records[..|records| - 1], records[|records| - 1];
      assert records == init + [r];
      CountsAreExact(init, invocation);
      RowsAppend(init, r, invocation);
      PlacesAppend(init, r, Wanted);
      PlacesAppend(init, r, (r: RawLog) => r.event.Some? && !r.whitelisted && !r.known);
    }
  }

  // ---------------------------------------------------------------- conversations

  lemma {:induction false} ConversationsAreListed(rows: seq<LogRow>)
    ensures Distinct(Conversations(rows))
    ensures forall c :: c in Conversations(rows) <==> exists i | 0 <= i < |rows| :: rows[i].key.conversation == c
  {
    if rows != [] {
      var n := |rows| - 1;
      ConversationsAreListed(rows[..n]);
      forall c ensures c in Conversations(rows) <==> exists i | 0 <= i < |rows| :: rows[i].key.conversation == c {
        if i :| 0 <= i < n && rows[i].key.conversation == c { assert rows[..n][i].key.conversation == c; }
      }
    }
  }

  /** The least and the greatest time of the conversation's rows. */
  ghost predicate SeenOk(rows: seq<LogRow>, c: Id, seen: Option<Conversation>) {
    if seen.None? then forall i | 0 <= i < |rows| :: rows[i].key.conversation != c
    else
      && seen.value.agent.None?
      && (forall i | 0 <= i < |rows| && rows[i].key.conversation == c ::
            seen.value.firstSeenAt <= rows[i].log.time <= seen.value.lastSeenAt)
      && (exists i | 0 <= i < |rows| :: rows[i].key.conversation == c && rows[i].log.time == seen.value.firstSeenAt)
      && (exists i | 0 <= i < |rows| :: rows[i].key.conversation == c && rows[i].log.time == seen.value.lastSeenAt)
  }

  lemma {:induction false} SeenIsOk(rows: seq<LogRow>, c: Id)
    ensures SeenOk(rows, c, SeenIn(rows, c))
  {
    if rows != [] {
      SeenIsOk(rows[..|rows| - 1], c);
      SeenGrows(rows[..|rows| - 1], rows[|rows| - 1], c);
      assert rows == rows[..|rows| - 1] + [rows[|rows| - 1]];
    }
  }

  lemma SeenGrows(init: seq<LogRow>, r: LogRow, c: Id)
    requires SeenOk(init, c, SeenIn(init, c))
    ensures SeenOk(init + [r], c, SeenIn(init + [r], c))
  {
    var rows := init + [r];
    assert rows[..|init|] == init && rows[|init|] == r;
    assert forall i | 0 <= i < |init| :: rows[i] == init[i];
    var before := SeenIn(init, c);
    if before.Some? {
      var i :| 0 <= i < |init| && init[i].key.conversation == c && init[i].log.time == before.value.firstSeenAt;
      var j :| 0 <= j < |init| && init[j].key.conversation == c && init[j].log.time == before.value.lastSeenAt;
      assert rows[i].log.time == before.value.firstSeenAt && rows[j].log.time == before.value.lastSeenAt;
    }
  }

  lemma SeenWritesAppend(cs: seq<Id>, c: Id, rows: seq<LogRow>)
    ensures SeenWrites(cs + [c], rows) ==
              if SeenIn(rows, c).Some? then SeenWrites(cs, rows) + [UpsertConversation(c, SeenIn(rows, c).value)]
              else SeenWrites(cs, rows)
  {
    assert (cs + [c])[..|cs|] == cs;
  }

  lemma InAppended(cs: seq<Id>, c: Id, k: Id)
    requires Distinct(cs + [c])
    ensures Distinct(cs) && c !in cs && (k in cs + [c] <==> k in cs || k == c)
  {
    var all := cs + [c];
    assert forall i | 0 <= i < |cs| :: all[i] == cs[i];
    assert all[|cs|] == c;
  }

  /** The upserts of a batch merge one row into each conversation on the list. */
  lemma {:induction false} SeenFold(v: Option<Conversation>, cs: seq<Id>, rows: seq<LogRow>, k: Id)
    requires Distinct(cs)
    ensures ConversationFold(v, SeenWrites(cs, rows), k) ==
              if k in cs && SeenIn(rows, k).Some? then
                Some(if v.Some? then MergeConversation(v.value, SeenIn(rows, k).value) else SeenIn(rows, k).value)
              else v
  {
    if cs != [] {
      var init, c := cs[..|cs| - 1], cs[|cs| - 1];
      assert cs == init + [c];
      InAppended(init, c, k);
      SeenFold(v, init, rows, k);
      SeenWritesAppend(init, c, rows);
      if SeenIn(rows, c).Some? {
        var w := UpsertConversation(c, SeenIn(rows, c).value);
        ConversationFoldConcat(v, SeenWrites(init, rows), [w], k);
        ConversationFoldOne(ConversationFold(v, SeenWrites(init, rows), k), w, k);
      }
    }
  }

  /** A record kept for the conversation. */
  predicate Speaks(r: RawLog, c: Id) {
    Wanted(r) && r.conversation.value == c
  }

  /** The record that a row was made of. */
  lemma RowOfRecord(records: seq<RawLog>, invocation: Id, m: nat)
    returns (i: nat)
    requires m < |RowsOf(records, invocation)|
    ensures i < |records| && Wanted(records[i]) && RowsOf(records, invocation)[m] == RowOf(records[i], invocation)
  {
    RowsAreOf(records, invocation);
    assert RowsOf(records, invocation)[m] in RowsOf(records, invocation);
    i :| 0 <= i < |records| && Accepts(records[i])
      && RowsOf(records, invocation)[m] == RowOf(records[i], invocation);
  }

  /** The row that a kept record has. */
  lemma {:induction false} RecordHasRow(records: seq<RawLog>, invocation: Id, i: nat)
    returns (m: nat)
    requires i < |records| && Wanted(records[i])
    ensures m < |RowsOf(records, invocation)| && RowsOf(records, invocation)[m] == RowOf(records[i], invocation)
  {
    var init, r := records[..|records| - 1], records[|records| - 1];
    assert records == init + [r];
    RowsAppend(init, r, invocation);
    if i == |records| - 1 {
      m := |RowsOf(init, invocation)|;
    } else {
      m := RecordHasRow(init, invocation, i);
    }
  }

  /** What the payload says of a conversation, merged into what was known before. */
  ghost predicate HeardOf(records: seq<RawLog>, c: Id, before: Option<Conversation>, after: Option<Conversation>) {
    if forall i | 0 <= i < |records| :: !Speaks(records[i], c) then after == before
    else
      && after.Some?
      && after.value.agent == (if before.Some? then before.value.agent else None)
      && (before.Some? ==>
            after.value.firstSeenAt <= before.value.firstSeenAt && before.value.lastSeenAt <= after.value.lastSeenAt)
      && (forall i | 0 <= i < |records| && Speaks(records[i], c) ::
            after.value.firstSeenAt <= TimeOf(records[i]) <= after.value.lastSeenAt)
      && ((before.Some? && after.value.firstSeenAt == before.value.firstSeenAt)
          || exists i | 0 <= i < |records| :: Speaks(records[i], c) && TimeOf(records[i]) == after.value.firstSeenAt)
      && ((before.Some? && after.value.lastSeenAt == before.value.lastSeenAt)
          || exists i | 0 <= i < |records| :: Speaks(records[i], c) && TimeOf(records[i]) == after.value.lastSeenAt)
  }

  lemma SpeakerIsSeen(records: seq<RawLog>, invocation: Id, c: Id, i: nat)
    requires i < |records| && Speaks(records[i], c)
    ensures var seen := SeenIn(RowsOf(records, invocation), c);
            seen.Some? && seen.value.firstSeenAt <= TimeOf(records[i]) <= seen.value.lastSeenAt
  {
    var rows := RowsOf(records, invocation);
    SeenIsOk(rows, c);
    var m := RecordHasRow(records, invocation, i);
    assert rows[m].key.conversation == c && rows[m].log.time == TimeOf(records[i]);
  }

  lemma SeenHasSpeakers(records: seq<RawLog>, invocation: Id, c: Id)
    returns (i: nat, j: nat)
    requires SeenIn(RowsOf(records, invocation), c).Some?
    ensures i < |records| && Speaks(records[i], c) && j < |records| && Speaks(records[j], c)
    ensures var seen := SeenIn(RowsOf(records, invocation), c).value;
            seen.agent.None? && TimeOf(records[i]) == seen.firstSeenAt && TimeOf(records[j]) == seen.lastSeenAt
  {
    var rows := RowsOf(records, invocation);
    var seen := SeenIn(rows, c).value;
    SeenIsOk(rows, c);
    var m :| 0 <= m < |rows| && rows[m].key.conversation == c && rows[m].log.time == seen.firstSeenAt;
    var n :| 0 <= n < |rows| && rows[n].key.conversation == c && rows[n].log.time == seen.lastSeenAt;
    i := RowOfRecord(records, invocation, m);
    j := RowOfRecord(records, invocation, n);
  }

  lemma SeenIsHeard(records: seq<RawLog>, invocation: Id, c: Id, before: Option<Conversation>)
    ensures var seen := SeenIn(RowsOf(records, invocation), c);
            HeardOf(records, c, before,
                    if seen.None? then before
                    else Some(if before.Some? then MergeConversation(before.value, seen.value) else seen.value))
  {
    forall i | 0 <= i < |records| && Speaks(records[i], c)
      ensures var seen := SeenIn(RowsOf(records, invocation), c);
              seen.Some? && seen.value.firstSeenAt <= TimeOf(records[i]) <= seen.value.lastSeenAt
    {
      SpeakerIsSeen(records, invocation, c, i);
    }
    if SeenIn(RowsOf(records, invocation), c).Some? {
      var i, j := SeenHasSpeakers(records, invocation, c);
    }
  }

  /** After a log payload whose transaction succeeds, every conversation has heard of exactly
      the records kept for it: its times are the extremes of theirs and of what was known,
      its agent is as before, and a conversation without such a record is as it was. */
  lemma ConversationsHearOfRecords(db: Db, records: seq<RawLog>, invocation: Id, c: Id)
    requires Run(db, LogBatch(RowsOf(records, invocation))).Some?
    ensures HeardOf(records, c, Row(db.conversations, c),
                    Row(Run(db, LogBatch(RowsOf(records, invocation))).value.conversations, c))
  {
    var rows := RowsOf(records, invocation);
    var cs, v := Conversations(rows), Row(db.conversations, c);
    RunIsRowwise(db, LogBatch(rows), c, LogKey(0, 0));
    ConversationsAreListed(rows);
    SeenIsOk(rows, c);
    SeenFold(v, cs, rows, c);
    ConversationFoldConcat(v, SeenWrites(cs, rows), LogWrites(rows), c);
    LogWritesAreInserts(rows);
    NoConversationWritten(ConversationFold(v, SeenWrites(cs, rows), c), LogWrites(rows), c);
    SeenIsHeard(records, invocation, c, v);
  }

  // ---------------------------------------------------------------- when a payload is refused

  lemma {:induction false} SeenRuns(db: Db, cs: seq<Id>, rows: seq<LogRow>)
    ensures var x := Run(db, SeenWrites(cs, rows));
            x.Some? && x.value.invocations == db.invocations && x.value.logs == db.logs
            && forall c | c in cs && SeenIn(rows, c).Some? :: c in x.value.conversations
  {
    if cs == [] {
      assert SeenWrites(cs, rows) == [];
    } else {
      var init, c := cs[..|cs| - 1], cs[|cs| - 1];
      assert cs == init + [c];
      SeenRuns(db, init, rows);
      SeenWritesAppend(init, c, rows);
      if SeenIn(rows, c).Some? {
        var w := UpsertConversation(c, SeenIn(rows, c).value);
        RunConcat(db, SeenWrites(init, rows), [w]);
        RunOne(Run(db, SeenWrites(init, rows)).value, w);
      }
    }
  }

  /** A row that brings nothing new, or is filed under a known invocation. */
  predicate Fits(db: Db, r: LogRow) {
    r.key in db.logs || r.log.invocation in db.invocations
  }

  ghost predicate Filed(db: Db, rows: seq<LogRow>, invocation: Id) {
    forall i | 0 <= i < |rows| :: rows[i].key.conversation in db.conversations && rows[i].log.invocation == invocation
  }

  /** What the log writes leave for the next one. */
  predicate After(db: Db, x: Db, invocation: Id) {
    x.invocations == db.invocations && x.conversations == db.conversations
    && (invocation !in db.invocations ==> x.logs == db.logs)
  }

  lemma {:induction false} LogsRun(db: Db, rows: seq<LogRow>, invocation: Id)
    requires Filed(db, rows, invocation)
    ensures Run(db, LogWrites(rows)).Some? <==> forall i | 0 <= i < |rows| :: Fits(db, rows[i])
    ensures Run(db, LogWrites(rows)).Some? ==> After(db, Run(db, LogWrites(rows)).value, invocation)
  {
    if rows == [] {
      assert LogWrites(rows) == [];
    } else {
      var init, r := rows[..|rows| - 1], rows[|rows| - 1];
      assert rows == init + [r] && forall i | 0 <= i < |init| :: init[i] == rows[i];
      LogsRun(db, init, invocation);
      LastLogRuns(db, init, r);
      assert rows[|rows| - 1] == r;
      if Run(db, LogWrites(init)).Some? {
        OneLogRuns(db, Run(db, LogWrites(init)).value, r, invocation);
      }
    }
  }

  lemma LastLogRuns(db: Db, init: seq<LogRow>, r: LogRow)
    ensures var x := Run(db, LogWrites(init));
            Run(db, LogWrites(init + [r])) == if x.Some? then PutLog(x.value, r.key, r.log) else None
  {
    LogWritesAppend(init, r);
    RunConcat(db, LogWrites(init), [InsertLog(r.key, r.log)]);
    if Run(db, LogWrites(init)).Some? { RunOne(Run(db, LogWrites(init)).value, InsertLog(r.key, r.log)); }
  }

  lemma OneLogRuns(db: Db, x: Db, r: LogRow, invocation: Id)
    requires After(db, x, invocation) && r.key.conversation in db.conversations && r.log.invocation == invocation
    ensures PutLog(x, r.key, r.log).Some? <==> Fits(db, r)
    ensures PutLog(x, r.key, r.log).Some? ==> After(db, PutLog(x, r.key, r.log).value, invocation)
  {
  }

  /** A log payload is refused as a whole if and only if it brings a kept record under a new
      key for an invocation that is not stored. */
  lemma PayloadIsRefusedIff(db: Db, records: seq<RawLog>, invocation: Id)
    ensures Run(db, LogBatch(RowsOf(records, invocation))).None? <==>
              && invocation !in db.invocations
              && exists i | 0 <= i < |records| ::
                   Wanted(records[i]) && LogKey(records[i].conversation.value, records[i].sequence.value) !in db.logs
  {
    var rows := RowsOf(records, invocation);
    var cs := Conversations(rows);
    SeenRuns(db, cs, rows);
    var x := Run(db, SeenWrites(cs, rows)).value;
    ConversationsAreListed(rows);
    forall m | 0 <= m < |rows|
      ensures rows[m].key.conversation in x.conversations && rows[m].log.invocation == invocation
    {
      SeenIsOk(rows, rows[m].key.conversation);
      var i := RowOfRecord(records, invocation, m);
    }
    LogsRun(x, rows, invocation);
    RunConcat(db, SeenWrites(cs, rows), LogWrites(rows));
    forall i | 0 <= i < |records| && Wanted(records[i]) && invocation !in db.invocations
      && LogKey(records[i].conversation.value, records[i].sequence.value) !in db.logs
      ensures exists m | 0 <= m < |rows| :: !Fits(x, rows[m])
    {
      var m := RecordHasRow(records, invocation, i);
      assert !Fits(x, rows[m]);
    }
    if m :| 0 <= m < |rows| && !Fits(x, rows[m]) {
      var i := RowOfRecord(records, invocation, m);
    }
  }
}
