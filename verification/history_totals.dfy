/** The token totals of the store (src/history/store.ts) per model, and the part of them
    that is billed on the upper tier. */
module HistoryTotals {
  import opened Wrappers
  import opened HistoryStore
  import opened HistoryUsage
  import HistoryIngest

  // ---------------------------------------------------------------- totals

  datatype Totals = Totals(input: int, output: int, cacheRead: int, cacheWrite: int)

  const ZERO := Totals(0, 0, 0, 0)

  function Val(v: Option<int>): int {
    if v.Some? then v.value else 0
  }

  function Plus(a: Totals, b: Totals): Totals {
    Totals(a.input + b.input, a.output + b.output, a.cacheRead + b.cacheRead, a.cacheWrite + b.cacheWrite)
  }

  function RowTotals(r: Usage): Totals {
    Totals(Val(r.inTok), Val(r.outTok), Val(r.cacheR), Val(r.cacheW))
  }

  /** `SUM` over the rows. */
  function Sum(rows: seq<Usage>): Totals {
    if rows == [] then ZERO else Plus(RowTotals(rows[0]), Sum(rows[1..]))
  }

  /** The rows of one group of `GROUP BY model`; NULL is a group of its own. */
  function OfModel(rows: seq<Usage>, m: Option<Id>): seq<Usage> {
    if rows == [] then [] else (if rows[0].model == m then [rows[0]] else []) + OfModel(rows[1..], m)
  }

  function SumGroups(rows: seq<Usage>, models: seq<Option<Id>>): Totals {
    if models == [] then ZERO else Plus(Sum(OfModel(rows, models[0])), SumGroups(rows, models[1..]))
  }

  ghost predicate Lists(models: seq<Option<Id>>, rows: seq<Usage>) {
    && (forall i, j | 0 <= i < j < |models| :: models[i] != models[j])
    && (forall r | r in rows :: r.model in models)
  }

  lemma SumCons(r: Usage, rest: seq<Usage>)
    ensures Sum([r] + rest) == Plus(RowTotals(r), Sum(rest))
  {
    assert ([r] + rest)[1..] == rest;
  }

  lemma SumOfModel(rows: seq<Usage>, m: Option<Id>)
    requires rows != []
    ensures Sum(OfModel(rows, m)) ==
              if rows[0].model == m then Plus(RowTotals(rows[0]), Sum(OfModel(rows[1..], m)))
                  else Sum(OfModel(rows[1..], m))
  {
    SumCons(rows[0], OfModel(rows[1..], m));
    assert [] + OfModel(rows[1..], m) == OfModel(rows[1..], m);
  }

  lemma PlusMoves(a: Totals, b: Totals, c: Totals)
    ensures Plus(Plus(a, b), c) == Plus(a, Plus(b, c)) && Plus(b, Plus(a, c)) == Plus(a, Plus(b, c))
  {
  }

  lemma HeadOrTail(m: Option<Id>, models: seq<Option<Id>>)
    requires models != [] && forall i, j | 0 <= i < j < |models| :: models[i] != models[j]
    ensures m in models <==> m == models[0] || m in models[1..]
    ensures models[0] !in models[1..]
    ensures forall i, j | 0 <= i < j < |models[1..]| :: models[1..][i] != models[1..][j]
  {
    assert models == [models[0]] + models[1..];
    assert forall i | 0 <= i < |models[1..]| :: models[1..][i] == models[i + 1];
  }

  /** A row adds to the one group it belongs to. */
  lemma {:induction false} RowJoinsOneGroup(rows: seq<Usage>, models: seq<Option<Id>>)
    requires rows != [] && forall i, j | 0 <= i < j < |models| :: models[i] != models[j]
    ensures SumGroups(rows, models) ==
              if rows[0].model in models then Plus(RowTotals(rows[0]), SumGroups(rows[1..], models))
                  else SumGroups(rows[1..], models)
    decreases |models|
  {
    if models != [] {
      var r, m, rest := rows[0], models[0], models[1..];
      HeadOrTail(r.model, models);
      SumOfModel(rows, m);
      RowJoinsOneGroup(rows, rest);
      PlusMoves(RowTotals(r), Sum(OfModel(rows[1..], m)), SumGroups(rows[1..], rest));
    }
  }

  lemma {:induction false} NoRowsNoSum(models: seq<Option<Id>>)
    ensures SumGroups([], models) == ZERO
  {
    if models != [] { NoRowsNoSum(models[1..]); }
  }

  /** The per-model totals add up to the totals of the conversation, whatever list of
      the occurring models, each once, they are grouped by. */
  lemma {:induction false} ModelTotalsSumUp(rows: seq<Usage>, models: seq<Option<Id>>)
    requires Lists(models, rows)
    ensures SumGroups(rows, models) == Sum(rows)
    decreases |rows|
  {
    if rows == [] {
      NoRowsNoSum(models);
    } else {
      ModelTotalsSumUp(rows[1..], models);
      RowJoinsOneGroup(rows, models);
    }
  }

  /** A span is billed on the upper tier as a whole. */
  predicate Above200k(r: Usage) {
    Val(r.inTok) + Val(r.cacheR) + Val(r.cacheW) > 200000
  }

  function SumAbove(rows: seq<Usage>): Totals {
    if rows == [] then ZERO else Plus(if Above200k(rows[0]) then RowTotals(rows[0]) else ZERO, SumAbove(rows[1..]))
  }

  predicate AtMost(a: Totals, b: Totals) {
    a.input <= b.input && a.output <= b.output && a.cacheRead <= b.cacheRead && a.cacheWrite <= b.cacheWrite
  }

  function SumBelow(rows: seq<Usage>): Totals {
    if rows == [] then ZERO else Plus(if Above200k(rows[0]) then ZERO else RowTotals(rows[0]), SumBelow(rows[1..]))
  }

  /** Each upper bucket is at most its total exactly when the other spans do not sum to less
      than nothing, as they cannot where token counts are not negative. */
  lemma {:induction false} BucketWithinTotal(rows: seq<Usage>)
    ensures Plus(SumAbove(rows), SumBelow(rows)) == Sum(rows)
    ensures AtMost(SumAbove(rows), Sum(rows)) <==> AtMost(ZERO, SumBelow(rows))
    ensures (forall r | r in rows :: AtMost(ZERO, RowTotals(r))) ==>
        AtMost(SumAbove(rows), Sum(rows)) && AtMost(ZERO, SumBelow(rows))
  {
    if rows != [] { BucketWithinTotal(rows[1..]); }
  }

  lemma OneRow(r: Usage)
    ensures Sum([r]) == RowTotals(r) && SumAbove([r]) == (if Above200k(r) then RowTotals(r) else ZERO)
  {
    var none: seq<Usage> := [];
    assert [r][1..] == none && Sum(none) == ZERO && SumAbove(none) == ZERO;
  }

  /** Whatever rows are picked, and however often, from a set of stored spans, each upper
      bucket is at most its total, if and only if no span of the set that is billed on the
      lower tier has a negative count. */
  lemma BoundHoldsIffNoneNegative(stored: set<Usage>)
    ensures (forall rows: seq<Usage> | (forall r | r in rows :: r in stored) :: AtMost(SumAbove(rows), Sum(rows)))
            <==> (forall r | r in stored && !Above200k(r) :: AtMost(ZERO, RowTotals(r)))
  {
    if forall r | r in stored && !Above200k(r) :: AtMost(ZERO, RowTotals(r)) {
      forall rows: seq<Usage> | (forall r | r in rows :: r in stored) ensures AtMost(SumAbove(rows), Sum(rows)) {
        BoundHolds(rows);
      }
    } else {
      var r :| r in stored && !Above200k(r) && !AtMost(ZERO, RowTotals(r));
      OneRow(r);
      assert forall x | x in [r] :: x in stored;
      assert !AtMost(SumAbove([r]), Sum([r]));
    }
  }

  lemma PlusKeepsOrder(a: Totals, b: Totals, c: Totals, d: Totals)
    requires AtMost(a, b) && AtMost(c, d)
    ensures AtMost(Plus(a, c), Plus(b, d))
  {
  }

  lemma {:induction false} BoundHolds(rows: seq<Usage>)
    requires forall r | r in rows && !Above200k(r) :: AtMost(ZERO, RowTotals(r))
    ensures AtMost(SumAbove(rows), Sum(rows))
  {
    if rows != [] {
      var r, rest := rows[0], rows[1..];
      assert r in rows && forall x | x in rest :: x in rows;
      BoundHolds(rest);
      PlusKeepsOrder(if Above200k(r) then RowTotals(r) else ZERO, RowTotals(r), SumAbove(rest), Sum(rest));
    }
  }

  // ---------------------------------------------------------------- a negative attribute

  lemma ReadsFirst(a: Attrs, n: int, more: seq<string>)
    requires IN_KEYS[0] in a && a[IN_KEYS[0]] == Number(n)
    ensures ReadTokens(a, IN_KEYS + more) == Some(n)
  {
    assert (IN_KEYS + more)[0] == IN_KEYS[0];
  }

  /** The span is delivered alone to a session of no particular agent. */
  function Delivered(session: Id, s: RawSpan): HistoryIngest.Event {
    HistoryIngest.IngestTraces([HistoryIngest.Resource(Some(session), None, [s])])
  }

  /** The reading and the storing of a span keep a negative attribute, and the bound breaks:
      a chat span of no particular name, with a negative first input-token attribute and no
      more than the threshold in all, is delivered to a new session. */
  lemma NegativeTokensBreakTheBound(s: RawSpan, n: int, session: Id, row: Invocation)
    requires s.valid && s.canonical.None? && s.fallback.None?
    requires s.kind == Chat && !TurnName(s.name) && !ResponseName(s.name)
    requires IN_KEYS[0] in s.attrs && s.attrs[IN_KEYS[0]] == Number(n) && n < 0
    requires !Above200k(UsageColumns(s, SourcesIn([s])))
    ensures var started := HistoryIngest.Step(HistoryIngest.EMPTY, HistoryIngest.StartInvocation(session, row));
            var db := HistoryIngest.Step(started, Delivered(session, s));
            && db.spans.Keys == {s.id} && db.spans[s.id].usage.inTok == Some(n)
            && var rows := [db.spans[s.id].usage]; !AtMost(SumAbove(rows), Sum(rows))
  {
    ReadsFirst(s.attrs, n, [TURN_IN_KEY]);
    HistoryIngest.OneSpanIsStored(session, row, s);
    OneRow(UsageColumns(s, SourcesIn([s])));
  }
}
