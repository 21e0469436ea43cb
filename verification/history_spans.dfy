/** What a whole trace payload leaves in the database: each span, each trace and each
    conversation, whatever was there before. */
module HistorySpans {
  import opened Wrappers
  import opened Sequences
  import opened HistoryStore
  import opened HistoryReplay
  import opened HistoryUsage
  import opened HistoryIngest

  // ---------------------------------------------------------------- the groups of a payload

  /** The valid spans of one trace in one resource that names a session. */
  datatype Group = Group(session: Id, agent: Option<Id>, trace: Id, spans: seq<RawSpan>)

  function GroupsFor(session: Id, agent: Option<Id>, order: seq<Id>, spans: seq<RawSpan>): seq<Group> {
    if order == [] then []
    else
      var t := order[|order| - 1];
      GroupsFor(session, agent, order[..|order| - 1], spans) + [Group(session, agent, t, Of(spans, t))]
  }

  /** All groups, in the order in which they are written. */
  function Groups(resources: seq<Resource>): seq<Group> {
    if resources == [] then []
    else
      var r := resources[|resources| - 1];
      Groups(resources[..|resources| - 1])
      + if r.session.None? then [] else GroupsFor(r.session.value, r.agent, Order(r.spans), r.spans)
  }

  function PlanFor(g: Group): Plan {
    PlanOf(g.session, g.agent, g.trace, g.spans)
  }

  lemma {:induction false} PlansForAreOfGroups(session: Id, agent: Option<Id>, order: seq<Id>, spans: seq<RawSpan>)
    ensures PlansFor(session, agent, order, spans) == Map(PlanFor, GroupsFor(session, agent, order, spans))
  {
    if order != [] {
      var init, t := order[..|order| - 1], order[|order| - 1];
      PlansForAreOfGroups(session, agent, init, spans);
      MapConcat(PlanFor, GroupsFor(session, agent, init, spans), [Group(session, agent, t, Of(spans, t))]);
      MapOne(PlanFor, Group(session, agent, t, Of(spans, t)));
    }
  }

  lemma {:induction false} PlansAreOfGroups(resources: seq<Resource>)
    ensures Plans(resources) == Map(PlanFor, Groups(resources))
  {
    if resources != [] {
      var init, r := resources[..|resources| - 1], resources[|resources| - 1];
      PlansAreOfGroups(init);
      if r.session.Some? {
        PlansForAreOfGroups(r.session.value, r.agent, Order(r.spans), r.spans);
        MapConcat(PlanFor, Groups(init), GroupsFor(r.session.value, r.agent, Order(r.spans), r.spans));
      } else {
        MapConcat(PlanFor, Groups(init), []);
      }
    }
  }

  lemma LastResourceHasGroup(resources: seq<Resource>, g: Group)
    requires resources != []
    requires var r := resources[|resources| - 1];
             r.session.Some? && g in GroupsFor(r.session.value, r.agent, Order(r.spans), r.spans)
    ensures g in Groups(resources)
  {
  }

  lemma {:induction false} ResourceHasGroup(resources: seq<Resource>, i: nat, g: Group)
    requires i < |resources| && resources[i].session.Some?
    requires var r := resources[i]; g in GroupsFor(r.session.value, r.agent, Order(r.spans), r.spans)
    ensures g in Groups(resources)
  {
    if i == |resources| - 1 {
      LastResourceHasGroup(resources, g);
    } else {
      ResourceHasGroup(resources[..|resources| - 1], i, g);
    }
  }

  /** Every valid span of a resource with a session is in the group of its trace. */
  lemma SpanHasGroup(resources: seq<Resource>, i: nat, j: nat)
    requires i < |resources| && resources[i].session.Some? && j < |resources[i].spans| && resources[i].spans[j].valid
    ensures var r, s := resources[i], resources[i].spans[j];
            && Group(r.session.value, r.agent, s.trace, Of(r.spans, s.trace)) in Groups(resources)
            && s in Of(r.spans, s.trace)
  {
    var r, s := resources[i], resources[i].spans[j];
    GroupsAreComplete(r.spans, j);
    TraceHasGroup(r.session.value, r.agent, Order(r.spans), r.spans, s.trace);
    ResourceHasGroup(resources, i, Group(r.session.value, r.agent, s.trace, Of(r.spans, s.trace)));
  }

  lemma {:induction false} TraceHasGroup(session: Id, agent: Option<Id>, order: seq<Id>, spans: seq<RawSpan>, t: Id)
    requires t in order
    ensures Group(session, agent, t, Of(spans, t)) in GroupsFor(session, agent, order, spans)
  {
    var n := |order| - 1;
    if order[n] != t { TraceHasGroup(session, agent, order[..n], spans, t); }
  }

  lemma {:induction false} GroupHasTrace(session: Id, agent: Option<Id>, order: seq<Id>, spans: seq<RawSpan>, g: Group)
    requires g in GroupsFor(session, agent, order, spans)
    ensures g.trace in order && g == Group(session, agent, g.trace, Of(spans, g.trace))
  {
    var n := |order| - 1;
    if g in GroupsFor(session, agent, order[..n], spans) { GroupHasTrace(session, agent, order[..n], spans, g); }
  }

  /** And every group is one of a resource with a session. */
  ghost predicate IsGroup(resources: seq<Resource>, g: Group) {
    exists i | 0 <= i < |resources| ::
      && resources[i].session == Some(g.session) && resources[i].agent == g.agent
      && g.trace in Order(resources[i].spans) && g.spans == Of(resources[i].spans, g.trace)
  }

  lemma {:induction false} GroupsAreGroups(resources: seq<Resource>, n: nat)
    requires n < |Groups(resources)|
    ensures IsGroup(resources, Groups(resources)[n])
  {
    var init, r := resources[..|resources| - 1], resources[|resources| - 1];
    if n < |Groups(init)| {
      GroupsAreGroups(init, n);
      var i :| 0 <= i < |init| && init[i].session == Some(Groups(init)[n].session)
        && init[i].agent == Groups(init)[n].agent && Groups(init)[n].trace in Order(init[i].spans)
        && Groups(init)[n].spans == Of(init[i].spans, Groups(init)[n].trace);
      assert resources[i] == init[i];
    } else {
      GroupHasTrace(r.session.value, r.agent, Order(r.spans), r.spans, Groups(resources)[n]);
      assert resources[|resources| - 1] == r;
    }
  }

  ghost predicate Precedes(g: seq<RawSpan>, a: RawSpan, b: RawSpan) {
    exists p, q | 0 <= p < q < |g| :: g[p] == a && g[q] == b
  }

  lemma PrecedesIn(g: seq<RawSpan>, more: seq<RawSpan>, a: RawSpan, b: RawSpan)
    requires Precedes(g, a, b) || (a in g && b in more)
    ensures Precedes(g + more, a, b)
  {
    if Precedes(g, a, b) {
      var p, q :| 0 <= p < q < |g| && g[p] == a && g[q] == b;
      assert (g + more)[p] == a && (g + more)[q] == b;
    } else {
      var p :| 0 <= p < |g| && g[p] == a;
      var q :| 0 <= q < |more| && more[q] == b;
      assert (g + more)[p] == a && (g + more)[|g| + q] == b;
    }
  }

  /** Within a group the spans stand in the order of the payload. */
  lemma {:induction false} GroupKeepsOrder(spans: seq<RawSpan>, i: nat, j: nat)
    requires i < j < |spans| && spans[i].valid && spans[j].valid && spans[i].trace == spans[j].trace
    ensures Precedes(Of(spans, spans[i].trace), spans[i], spans[j])
  {
    var n, t := |spans| - 1, spans[i].trace;
    var last := if spans[n].valid && spans[n].trace == t then [spans[n]] else [];
    if j < n {
      GroupKeepsOrder(spans[..n], i, j);
    } else {
      GroupsAreComplete(spans[..n], i);
    }
    PrecedesIn(Of(spans[..n], t), last, spans[i], spans[j]);
  }

  // ---------------------------------------------------------------- spans

  /** A span with the agent and the whole group it is written with. */
  datatype Placing = Placing(agent: Option<Id>, span: RawSpan, group: seq<RawSpan>)

  function PlacingsIn(g: Group): seq<Placing> {
    Map((s: RawSpan) => Placing(g.agent, s, g.spans), g.spans)
  }

  function PlacingsOf(gs: seq<Group>): seq<Placing> {
    if gs == [] then [] else PlacingsOf(gs[..|gs| - 1]) + PlacingsIn(gs[|gs| - 1])
  }

  /** All spans of the payload, in the order in which they are written. */
  function Placings(resources: seq<Resource>): seq<Placing> {
    PlacingsOf(Groups(resources))
  }

  /** What is stored of a span: its own trace, start and rest; its usage judged by the sources
      of its whole trace, and counted without the cache for one agent. */
  predicate StoredAs(p: Placing, row: Span) {
    && row.trace == p.span.trace && row.rest == p.span.rest
    && row.startedAt == (if p.span.startNano.Some? then p.span.startNano.value else EPOCH)
    && row.usage == Uncached(p.agent, UsageColumns(p.span, SourcesIn(p.group)))
  }

  /** The last placing of the id decides; without one the row stays. */
  ghost predicate LastStored(ps: seq<Placing>, k: Id, before: Option<Span>, after: Option<Span>)
    decreases |ps|
  {
    if ps == [] then after == before
    else if ps[|ps| - 1].span.id == k then after.Some? && StoredAs(ps[|ps| - 1], after.value)
    else LastStored(ps[..|ps| - 1], k, before, after)
  }

  lemma {:induction false} SpanFoldConcat(v: Option<Span>, a: seq<Write>, b: seq<Write>, k: Id)
    ensures SpanFold(v, a + b, k) == SpanFold(SpanFold(v, a, k), b, k)
    decreases |a|
  {
    if a == [] {
      assert a + b == b;
    } else {
      assert (a + b)[1..] == a[1..] + b;
      SpanFoldConcat(SpanStep(v, a[0], k), a[1..], b, k);
    }
  }

  lemma SpanFoldLast(v: Option<Span>, a: seq<Write>, w: Write, k: Id)
    ensures SpanFold(v, a + [w], k) == SpanStep(SpanFold(v, a, k), w, k)
  {
    SpanFoldConcat(v, a, [w], k);
    var none: seq<Write> := [];
    assert [w][1..] == none;
  }

  lemma {:induction false} LastStoredConcat(
    a: seq<Placing>, b: seq<Placing>, k: Id, u: Option<Span>, v: Option<Span>, w: Option<Span>)
    requires LastStored(a, k, u, v) && LastStored(b, k, v, w)
    ensures LastStored(a + b, k, u, w)
    decreases |b|
  {
    if b == [] {
      assert a + b == a;
    } else {
      assert (a + b)[..|a + b| - 1] == a + b[..|b| - 1];
      if b[|b| - 1].span.id != k { LastStoredConcat(a, b[..|b| - 1], k, u, v, w); }
    }
  }

  /** The writes of the first `n` rows of a group. */
  lemma {:induction false} RowsStore(g: Group, n: nat, k: Id, v: Option<Span>)
    requires n <= |g.spans|
    ensures LastStored(PlacingsIn(g)[..n], k, v, SpanFold(v, SpanWrites(RowsFor(g.agent, g.spans)[..n]), k))
    decreases n
  {
    if n > 0 {
      var ps, rows := PlacingsIn(g), RowsFor(g.agent, g.spans);
      RowsStore(g, n - 1, k, v);
      PrefixOfPrefix(ps, n);
      PrefixOfPrefix(rows, n);
      SpanFoldLast(v, SpanWrites(rows[..n - 1]), InsertSpan(rows[n - 1].id, rows[n - 1].span), k);
      RowIsStored(g, n - 1);
    }
  }

  lemma PrefixOfPrefix<T>(s: seq<T>, n: nat)
    requires 0 < n <= |s|
    ensures s[..n][..n - 1] == s[..n - 1] && s[..n][n - 1] == s[n - 1]
  {
  }

  lemma RowIsStored(g: Group, i: nat)
    requires i < |g.spans|
    ensures PlacingsIn(g)[i] == Placing(g.agent, g.spans[i], g.spans)
    ensures var row := RowsFor(g.agent, g.spans)[i]; StoredAs(PlacingsIn(g)[i], row.span) && row.id == g.spans[i].id
  {
  }

  lemma HeadStoresNone(v: Option<Span>, p: Plan, k: Id)
    ensures SpanFold(v, PlanHead(p), k) == v
  {
    assert forall w | w in PlanHead(p) :: !w.InsertSpan?;
    NoSpanWritten(v, PlanHead(p), k);
  }

  lemma {:induction false} NoSpanWritten(v: Option<Span>, ws: seq<Write>, k: Id)
    requires forall w | w in ws :: !w.InsertSpan?
    ensures SpanFold(v, ws, k) == v
    decreases |ws|
  {
    if ws != [] {
      assert ws[0] in ws && forall w | w in ws[1..] :: w in ws;
      NoSpanWritten(v, ws[1..], k);
    }
  }

  lemma GroupStores(v: Option<Span>, g: Group, k: Id)
    ensures LastStored(PlacingsIn(g), k, v, SpanFold(v, PlanWrites(PlanFor(g)), k))
  {
    var n, p := |g.spans|, PlanFor(g);
    RowsStore(g, n, k, v);
    assert PlacingsIn(g)[..n] == PlacingsIn(g) && p.rows[..n] == p.rows;
    SpanFoldConcat(v, PlanHead(p), SpanWrites(p.rows), k);
    HeadStoresNone(v, p, k);
  }

  lemma {:induction false} GroupsStore(v: Option<Span>, gs: seq<Group>, k: Id)
    ensures LastStored(PlacingsOf(gs), k, v, SpanFold(v, TraceBatch(Map(PlanFor, gs)), k))
  {
    if gs != [] {
      var init, g := gs[..|gs| - 1], gs[|gs| - 1];
      var plans := Map(PlanFor, gs);
      assert plans[..|plans| - 1] == Map(PlanFor, init);
      GroupsStore(v, init, k);
      var u := SpanFold(v, TraceBatch(Map(PlanFor, init)), k);
      SpanFoldConcat(v, TraceBatch(Map(PlanFor, init)), PlanWrites(PlanFor(g)), k);
      GroupStores(u, g, k);
      LastStoredConcat(PlacingsOf(init), PlacingsIn(g), k, v, u, SpanFold(u, PlanWrites(PlanFor(g)), k));
    }
  }

  /** After any payload whose transaction succeeds, the row of every span id is what the last
      placing of that id says, or what it was before if the payload has no such span. */
  lemma SpansAreTheLastPlaced(db: Db, resources: seq<Resource>, k: Id)
    requires Run(db, TraceBatch(Plans(resources))).Some?
    ensures LastStored(Placings(resources), k, Row(db.spans, k),
                       Row(Run(db, TraceBatch(Plans(resources))).value.spans, k))
  {
    PlansAreOfGroups(resources);
    GroupsStore(Row(db.spans, k), Groups(resources), k);
    RunIsRowwise(db, TraceBatch(Plans(resources)), k, LogKey(0, 0));
  }

  lemma {:induction false} LastPlacedIs(ps: seq<Placing>, k: Id, before: Option<Span>, after: Option<Span>, n: nat)
    requires LastStored(ps, k, before, after) && n < |ps| && ps[n].span.id == k
    requires forall m | n < m < |ps| :: ps[m].span.id != k
    ensures after.Some? && StoredAs(ps[n], after.value)
  {
    if n < |ps| - 1 { LastPlacedIs(ps[..|ps| - 1], k, before, after, n); }
  }

  /** So the stored row of a span is its own, if no later span of the payload has its id. */
  lemma StoredSpanIsTheLast(db: Db, resources: seq<Resource>, n: nat)
    requires Run(db, TraceBatch(Plans(resources))).Some? && n < |Placings(resources)|
    requires var ps := Placings(resources); forall m | n < m < |ps| :: ps[m].span.id != ps[n].span.id
    ensures var x, p := Run(db, TraceBatch(Plans(resources))).value, Placings(resources)[n];
            && p.span.id in x.spans
            && var row := x.spans[p.span.id];
               && row.trace == p.span.trace && row.rest == p.span.rest
               && row.startedAt == (if p.span.startNano.Some? then p.span.startNano.value else EPOCH)
               && row.usage == Uncached(p.agent, UsageColumns(p.span, SourcesIn(p.group)))
  {
    var k := Placings(resources)[n].span.id;
    SpansAreTheLastPlaced(db, resources, k);
    LastPlacedIs(Placings(resources), k, Row(db.spans, k),
                 Row(Run(db, TraceBatch(Plans(resources))).value.spans, k), n);
  }

  lemma {:induction false} PlacedIsStored(ps: seq<Placing>, k: Id, before: Option<Span>, after: Option<Span>, n: nat)
    requires LastStored(ps, k, before, after) && n < |ps| && ps[n].span.id == k
    ensures after.Some?
  {
    if n < |ps| - 1 && ps[|ps| - 1].span.id != k { PlacedIsStored(ps[..|ps| - 1], k, before, after, n); }
  }

  lemma {:induction false} GroupIsPlaced(gs: seq<Group>, g: Group, s: RawSpan)
    requires g in gs && s in g.spans
    ensures Placing(g.agent, s, g.spans) in PlacingsOf(gs)
  {
    var n := |gs| - 1;
    if gs[n] == g {
      var i :| 0 <= i < |g.spans| && g.spans[i] == s;
      assert PlacingsIn(g)[i] == Placing(g.agent, s, g.spans);
    } else {
      assert g in gs[..n];
      GroupIsPlaced(gs[..n], g, s);
    }
  }

  /** Every valid span of a resource with a session is placed, with its agent and with all
      valid spans of its trace in that resource. */
  lemma SpanIsPlaced(resources: seq<Resource>, i: nat, j: nat)
    requires i < |resources| && resources[i].session.Some? && j < |resources[i].spans| && resources[i].spans[j].valid
    ensures var r, s := resources[i], resources[i].spans[j];
            Placing(r.agent, s, Of(r.spans, s.trace)) in Placings(resources)
  {
    var r, s := resources[i], resources[i].spans[j];
    SpanHasGroup(resources, i, j);
    GroupIsPlaced(Groups(resources), Group(r.session.value, r.agent, s.trace, Of(r.spans, s.trace)), s);
  }

  /** And so it is stored. */
  lemma EverySpanIsStored(db: Db, resources: seq<Resource>, i: nat, j: nat)
    requires Run(db, TraceBatch(Plans(resources))).Some?
    requires i < |resources| && resources[i].session.Some? && j < |resources[i].spans| && resources[i].spans[j].valid
    ensures resources[i].spans[j].id in Run(db, TraceBatch(Plans(resources))).value.spans
  {
    var k := resources[i].spans[j].id;
    SpanIsPlaced(resources, i, j);
    var p := Placing(resources[i].agent, resources[i].spans[j], Of(resources[i].spans, resources[i].spans[j].trace));
    var n :| 0 <= n < |Placings(resources)| && Placings(resources)[n] == p;
    SpansAreTheLastPlaced(db, resources, k);
    PlacedIsStored(Placings(resources), k, Row(db.spans, k),
                   Row(Run(db, TraceBatch(Plans(resources))).value.spans, k), n);
  }

  lemma {:induction false} NotPlacedIsKept(ps: seq<Placing>, k: Id, before: Option<Span>, after: Option<Span>)
    requires LastStored(ps, k, before, after) && forall p | p in ps :: p.span.id != k
    ensures after == before
    decreases |ps|
  {
    if ps != [] {
      assert ps[|ps| - 1] in ps && forall p | p in ps[..|ps| - 1] :: p in ps;
      NotPlacedIsKept(ps[..|ps| - 1], k, before, after);
    }
  }

  lemma {:induction false} PlacedIsInGroup(gs: seq<Group>, p: Placing)
    requires p in PlacingsOf(gs)
    ensures exists g :: g in gs && p.agent == g.agent && p.span in g.spans && p.group == g.spans
  {
    var n := |gs| - 1;
    if p in PlacingsOf(gs[..n]) {
      PlacedIsInGroup(gs[..n], p);
      var g :| g in gs[..n] && p.agent == g.agent && p.span in g.spans && p.group == g.spans;
      assert g in gs;
    } else {
      assert p in PlacingsIn(gs[n]) && gs[n] in gs;
    }
  }

  /** Every placed span is a valid span of a resource with a session, and is placed with the
      agent of that resource and its whole trace there. */
  lemma PlacedIsASpan(resources: seq<Resource>, p: Placing)
    requires p in Placings(resources)
    ensures exists i | 0 <= i < |resources| ::
              && resources[i].session.Some? && resources[i].agent == p.agent
              && p.span in resources[i].spans && p.span.valid && p.group == Of(resources[i].spans, p.span.trace)
  {
    PlacedIsInGroup(Groups(resources), p);
    var g :| g in Groups(resources) && p.agent == g.agent && p.span in g.spans && p.group == g.spans;
    var n :| 0 <= n < |Groups(resources)| && Groups(resources)[n] == g;
    GroupsAreGroups(resources, n);
    var i :| 0 <= i < |resources| && resources[i].session == Some(g.session) && resources[i].agent == g.agent
      && g.trace in Order(resources[i].spans) && g.spans == Of(resources[i].spans, g.trace);
    GroupsAreOfTheirTrace(resources[i].spans, g.trace);
  }

  /** A span row whose id no valid span of the payload has stays as it was. */
  lemma OtherSpansStay(db: Db, resources: seq<Resource>, k: Id)
    requires Run(db, TraceBatch(Plans(resources))).Some?
    requires forall i, j | 0 <= i < |resources| && resources[i].session.Some? && 0 <= j < |resources[i].spans|
               && resources[i].spans[j].valid :: resources[i].spans[j].id != k
    ensures Row(Run(db, TraceBatch(Plans(resources))).value.spans, k) == Row(db.spans, k)
  {
    SpansAreTheLastPlaced(db, resources, k);
    forall p | p in Placings(resources) ensures p.span.id != k {
      PlacedIsASpan(resources, p);
      var i :| 0 <= i < |resources| && resources[i].session.Some? && resources[i].agent == p.agent
        && p.span in resources[i].spans && p.span.valid && p.group == Of(resources[i].spans, p.span.trace);
      var j :| 0 <= j < |resources[i].spans| && resources[i].spans[j] == p.span;
    }
    NotPlacedIsKept(Placings(resources), k, Row(db.spans, k),
                    Row(Run(db, TraceBatch(Plans(resources))).value.spans, k));
  }

  /** Of what was read as input, the part that one agent's cached tokens do not cover. */
  predicate CountsInput(agent: Option<Id>, read: Option<int>, cached: Option<int>, stored: Option<int>) {
    if agent == Some(COPILOT) && read.Some? && cached.Some?
    then stored == Some(if read.value < cached.value then 0 else read.value - cached.value)
    else stored == read
  }

  /** What is stored of the usage of a span, attribute by attribute: nothing, unless its kind,
      its name and its trace let it keep its usage. */
  ghost predicate UsageStored(p: Placing, u: Usage) {
    if KeepsUsage(p.span, p.group) then
      exists read :: ReadFrom(p.span.attrs, u.(inTok := read)) && CountsInput(p.agent, read, u.cacheR, u.inTok)
    else u == Usage(None, None, None, None, None)
  }

  lemma UsageIsStored(p: Placing, row: Span)
    requires StoredAs(p, row)
    ensures UsageStored(p, row.usage)
  {
    ColumnsAreRead(p.span, p.group);
    var u := UsageColumns(p.span, SourcesIn(p.group));
    assert row.usage.(inTok := u.inTok) == u;
  }

  /** So the stored usage of a span that no later span replaces comes from these attributes. */
  lemma StoredUsageIsRead(db: Db, resources: seq<Resource>, n: nat)
    requires Run(db, TraceBatch(Plans(resources))).Some? && n < |Placings(resources)|
    requires var ps := Placings(resources); forall m | n < m < |ps| :: ps[m].span.id != ps[n].span.id
    ensures var x, p := Run(db, TraceBatch(Plans(resources))).value, Placings(resources)[n];
            p.span.id in x.spans && UsageStored(p, x.spans[p.span.id].usage)
  {
    var x, p := Run(db, TraceBatch(Plans(resources))).value, Placings(resources)[n];
    StoredSpanIsTheLast(db, resources, n);
    UsageIsStored(p, x.spans[p.span.id]);
  }

  // ---------------------------------------------------------------- traces and conversations

  lemma {:induction false} WrittenInBatch(plans: seq<Plan>, n: nat, w: Write)
    requires n < |plans| && w in PlanWrites(plans[n])
    ensures w in TraceBatch(plans)
  {
    if n < |plans| - 1 { WrittenInBatch(plans[..|plans| - 1], n, w); }
  }

  lemma GroupWrites(resources: seq<Resource>, n: nat)
    requires n < |Groups(resources)|
    ensures var p, ws := PlanFor(Groups(resources)[n]), TraceBatch(Plans(resources));
            && (p.conversation.Some? ==> UpsertConversation(p.conversation.value, SeenBy(p)) in ws)
            && UpsertTrace(p.trace, Trace(p.session, p.conversation, p.startedAt, p.endedAt)) in ws
  {
    PlansAreOfGroups(resources);
    var p := PlanFor(Groups(resources)[n]);
    assert Plans(resources)[n] == p;
    var w := UpsertTrace(p.trace, Trace(p.session, p.conversation, p.startedAt, p.endedAt));
    assert w in PlanHead(p) && w in PlanWrites(p);
    WrittenInBatch(Plans(resources), n, w);
    if p.conversation.Some? {
      assert UpsertConversation(p.conversation.value, SeenBy(p)) in PlanHead(p);
      WrittenInBatch(Plans(resources), n, UpsertConversation(p.conversation.value, SeenBy(p)));
    }
  }

  /** After any payload whose transaction succeeds, the trace of each of its groups is there,
      with a conversation if its spans name one, and that conversation spans every start
      and end of the group. */
  lemma PayloadIsCovered(db: Db, resources: seq<Resource>, n: nat, i: nat)
    requires Run(db, TraceBatch(Plans(resources))).Some?
    requires n < |Groups(resources)| && i < |Groups(resources)[n].spans|
    ensures var x, g := Run(db, TraceBatch(Plans(resources))).value, Groups(resources)[n];
            && g.trace in x.traces
            && (PickConversation(g.spans).Some? ==>
                  && x.traces[g.trace].conversation.Some? && PickConversation(g.spans).value in x.conversations
                  && var c := x.conversations[PickConversation(g.spans).value];
                     && (g.spans[i].startNano.Some? ==> c.firstSeenAt <= g.spans[i].startNano.value)
                     && (g.spans[i].endNano.Some? ==> g.spans[i].endNano.value <= c.lastSeenAt))
  {
    var ws, g, p := TraceBatch(Plans(resources)), Groups(resources)[n], PlanFor(Groups(resources)[n]);
    GroupWrites(resources, n);
    var m :| 0 <= m < |ws| && ws[m] == UpsertTrace(p.trace, Trace(p.session, p.conversation, p.startedAt, p.endedAt));
    RunIsRowwise(db, ws, g.trace, LogKey(0, 0));
    FoldLinks(Row(db.traces, g.trace), ws, g.trace);
    if p.conversation.Some? { ConversationCovers(db, ws, g, i); }
  }

  lemma ConversationCovers(db: Db, ws: seq<Write>, g: Group, i: nat)
    requires var p := PlanFor(g);
             Run(db, ws).Some? && p.conversation.Some? && UpsertConversation(p.conversation.value, SeenBy(p)) in ws
    requires i < |g.spans|
    ensures var x, c := Run(db, ws).value, PickConversation(g.spans).value;
            && c in x.conversations
            && (g.spans[i].startNano.Some? ==> x.conversations[c].firstSeenAt <= g.spans[i].startNano.value)
            && (g.spans[i].endNano.Some? ==> g.spans[i].endNano.value <= x.conversations[c].lastSeenAt)
  {
    var c := PickConversation(g.spans).value;
    var m :| 0 <= m < |ws| && ws[m] == UpsertConversation(c, SeenBy(PlanFor(g)));
    EarliestIsLeast(g.spans);
    LatestIsGreatest(g.spans);
    RunIsRowwise(db, ws, c, LogKey(c, 0));
    FoldCovers(Row(db.conversations, c), ws, c);
    assert Spans(Row(Run(db, ws).value.conversations, c), ws[m], c);
  }

  // ---------------------------------------------------------------- new traces

  lemma {:induction false} TraceFoldConcat(v: Option<Trace>, a: seq<Write>, b: seq<Write>, k: Id)
    ensures TraceFold(v, a + b, k) == TraceFold(TraceFold(v, a, k), b, k)
    decreases |a|
  {
    if a == [] {
      assert a + b == b;
    } else {
      assert (a + b)[1..] == a[1..] + b;
      TraceFoldConcat(TraceStep(v, a[0], k), a[1..], b, k);
    }
  }

  lemma {:induction false} OtherWritesKeepTrace(v: Option<Trace>, ws: seq<Write>, k: Id)
    requires forall w | w in ws :: !(w.UpsertTrace? && w.id == k)
    ensures TraceFold(v, ws, k) == v
    decreases |ws|
  {
    if ws != [] {
      assert ws[0] in ws && forall w | w in ws[1..] :: w in ws;
      OtherWritesKeepTrace(v, ws[1..], k);
    }
  }

  function RowOfTrace(g: Group): Trace {
    Trace(g.session, PickConversation(g.spans), PlanFor(g).startedAt, Latest(g.spans))
  }

  lemma TraceFoldOne(v: Option<Trace>, w: Write, k: Id)
    ensures TraceFold(v, [w], k) == TraceStep(v, w, k)
  {
    var none: seq<Write> := [];
    assert [w][1..] == none && TraceFold(TraceStep(v, w, k), none, k) == TraceStep(v, w, k);
  }

  lemma HeadTrace(v: Option<Trace>, g: Group, k: Id)
    ensures TraceFold(v, PlanHead(PlanFor(g)), k) == TraceStep(v, UpsertTrace(g.trace, RowOfTrace(g)), k)
  {
    var p := PlanFor(g);
    var first := if p.conversation.Some? then [UpsertConversation(p.conversation.value, SeenBy(p))] else [];
    TraceFoldConcat(v, first, [UpsertTrace(g.trace, RowOfTrace(g))], k);
    OtherWritesKeepTrace(v, first, k);
    TraceFoldOne(v, UpsertTrace(g.trace, RowOfTrace(g)), k);
  }

  lemma GroupTrace(v: Option<Trace>, g: Group, k: Id)
    ensures TraceFold(v, PlanWrites(PlanFor(g)), k) ==
              if g.trace == k then TraceStep(v, UpsertTrace(k, RowOfTrace(g)), k) else v
  {
    var p := PlanFor(g);
    SpansAreTelemetry(p.rows);
    TraceFoldConcat(v, PlanHead(p), SpanWrites(p.rows), k);
    HeadTrace(v, g, k);
    OtherWritesKeepTrace(TraceFold(v, PlanHead(p), k), SpanWrites(p.rows), k);
  }

  lemma {:induction false} GroupsTrace(gs: seq<Group>, n: nat, k: Id)
    requires n < |gs| && gs[n].trace == k && forall m | 0 <= m < n :: gs[m].trace != k
    ensures var u := TraceFold(None, TraceBatch(Map(PlanFor, gs)), k);
            u.Some? && u.value.invocation == gs[n].session && u.value.startedAt == PlanFor(gs[n]).startedAt
    decreases |gs|
  {
    var init, g := gs[..|gs| - 1], gs[|gs| - 1];
    BatchOfGroups(None, gs, k);
    GroupTrace(TraceFold(None, TraceBatch(Map(PlanFor, init)), k), g, k);
    if n < |gs| - 1 { GroupsTrace(init, n, k); } else { NoGroupNoTrace(init, k); }
  }

  lemma BatchOfGroups(v: Option<Trace>, gs: seq<Group>, k: Id)
    requires gs != []
    ensures TraceFold(v, TraceBatch(Map(PlanFor, gs)), k) ==
              TraceFold(TraceFold(v, TraceBatch(Map(PlanFor, gs[..|gs| - 1])), k), PlanWrites(PlanFor(gs[|gs| - 1])), k)
  {
    var plans := Map(PlanFor, gs);
    assert plans[..|plans| - 1] == Map(PlanFor, gs[..|gs| - 1]);
    TraceFoldConcat(v, TraceBatch(plans[..|plans| - 1]), PlanWrites(PlanFor(gs[|gs| - 1])), k);
  }

  lemma {:induction false} NoGroupNoTrace(gs: seq<Group>, k: Id)
    requires forall m | 0 <= m < |gs| :: gs[m].trace != k
    ensures TraceFold(None, TraceBatch(Map(PlanFor, gs)), k) == None
    decreases |gs|
  {
    if gs == [] {
      assert Map(PlanFor, gs) == [] && TraceBatch([]) == [];
    } else {
      var init := gs[..|gs| - 1];
      BatchOfGroups(None, gs, k);
      NoGroupNoTrace(init, k);
      GroupTrace(None, gs[|gs| - 1], k);
    }
  }

  /** A trace that was not there belongs to the session of the first group with that trace, and
      starts with the least start of the group, or else with its greatest end. */
  lemma NewTraceIsOfTheFirstGroup(db: Db, resources: seq<Resource>, n: nat)
    requires Run(db, TraceBatch(Plans(resources))).Some? && n < |Groups(resources)|
    requires Groups(resources)[n].trace !in db.traces
    requires forall m | 0 <= m < n :: Groups(resources)[m].trace != Groups(resources)[n].trace
    ensures var x, g := Run(db, TraceBatch(Plans(resources))).value, Groups(resources)[n];
            && g.trace in x.traces && x.traces[g.trace].invocation == g.session
            && x.traces[g.trace].startedAt ==
                 (if Earliest(g.spans).Some? then Earliest(g.spans).value
                  else if Latest(g.spans).Some? then Latest(g.spans).value else EPOCH)
  {
    var k := Groups(resources)[n].trace;
    PlansAreOfGroups(resources);
    GroupsTrace(Groups(resources), n, k);
    RunIsRowwise(db, TraceBatch(Plans(resources)), k, LogKey(0, 0));
  }

  // ---------------------------------------------------------------- when a payload is refused

  /** What a group needs of the database. */
  predicate Welcome(db: Db, g: Group) {
    g.trace in db.traces || g.session in db.invocations
  }

  /** What the writes of a group leave for the next ones. */
  predicate Extends(db: Db, x: Db, t: Id) {
    x.invocations == db.invocations && x.traces.Keys == db.traces.Keys + {t}
  }

  lemma HeadRuns(db: Db, g: Group)
    requires Referenced(db)
    ensures Run(db, PlanHead(PlanFor(g))).Some? <==> Welcome(db, g)
    ensures Welcome(db, g) ==> Extends(db, Run(db, PlanHead(PlanFor(g))).value, g.trace)
  {
    var p := PlanFor(g);
    var w := UpsertTrace(g.trace, RowOfTrace(g));
    if p.conversation.Some? {
      var u := UpsertConversation(p.conversation.value, SeenBy(p));
      RunConcat(db, [u], [w]);
      RunOne(db, u);
      RunOne(Apply(db, u).value, w);
      assert PlanHead(p) == [u] + [w];
    } else {
      RunOne(db, w);
      assert PlanHead(p) == [w];
    }
  }

  lemma {:induction false} SpansRun(db: Db, rows: seq<SpanRow>)
    requires forall i | 0 <= i < |rows| :: rows[i].span.trace in db.traces
    ensures Run(db, SpanWrites(rows)).Some?
    ensures var x := Run(db, SpanWrites(rows)).value; x.invocations == db.invocations && x.traces == db.traces
  {
    if rows == [] {
      assert Run(db, []) == Some(db);
    } else {
      var init, r := rows[..|rows| - 1], rows[|rows| - 1];
      SpansRun(db, init);
      RunConcat(db, SpanWrites(init), [InsertSpan(r.id, r.span)]);
      RunOne(Run(db, SpanWrites(init)).value, InsertSpan(r.id, r.span));
    }
  }

  lemma GroupRuns(db: Db, g: Group)
    requires Referenced(db) && forall s | s in g.spans :: s.trace == g.trace
    ensures Run(db, PlanWrites(PlanFor(g))).Some? <==> Welcome(db, g)
    ensures Welcome(db, g) ==> Extends(db, Run(db, PlanWrites(PlanFor(g))).value, g.trace)
  {
    var p := PlanFor(g);
    HeadRuns(db, g);
    RunConcat(db, PlanHead(p), SpanWrites(p.rows));
    if Welcome(db, g) {
      forall i | 0 <= i < |p.rows| ensures p.rows[i].span.trace == g.trace { assert g.spans[i] in g.spans; }
      SpansRun(Run(db, PlanHead(p)).value, p.rows);
    }
  }

  /** The group `n` is the first to name its trace, and neither trace nor session is known. */
  predicate Strange(db: Db, gs: seq<Group>, n: nat)
    requires n < |gs|
  {
    !Welcome(db, gs[n]) && forall m | 0 <= m < n :: gs[m].trace != gs[n].trace
  }

  ghost predicate Known(db: Db, gs: seq<Group>) {
    forall n | 0 <= n < |gs| :: !Strange(db, gs, n)
  }

  /** What `gs` leave of the database they were written to. */
  ghost predicate Reached(db: Db, gs: seq<Group>, x: Db) {
    && x.invocations == db.invocations
    && forall t :: t in x.traces <==> t in db.traces || exists n | 0 <= n < |gs| :: gs[n].trace == t
  }

  lemma ReachedLast(db: Db, gs: seq<Group>, x: Db, y: Db)
    requires gs != [] && Reached(db, gs[..|gs| - 1], x) && Extends(x, y, gs[|gs| - 1].trace)
    ensures Reached(db, gs, y)
  {
    var init, k := gs[..|gs| - 1], |gs| - 1;
    forall t ensures t in y.traces <==> t in db.traces || exists n | 0 <= n < |gs| :: gs[n].trace == t {
      assert t in y.traces <==> t in x.traces || gs[k].trace == t;
      if n :| 0 <= n < k && gs[n].trace == t { assert init[n].trace == t; }
      if n :| 0 <= n < k && init[n].trace == t { assert gs[n].trace == t; }
    }
  }

  lemma WelcomeLast(db: Db, gs: seq<Group>, x: Db)
    requires gs != [] && Reached(db, gs[..|gs| - 1], x)
    ensures Welcome(x, gs[|gs| - 1]) <==> !Strange(db, gs, |gs| - 1)
  {
    var init, g := gs[..|gs| - 1], gs[|gs| - 1];
    assert g.trace in x.traces <==> g.trace in db.traces || exists n | 0 <= n < |init| :: init[n].trace == g.trace;
    forall n | 0 <= n < |init| ensures init[n].trace == gs[n].trace {}
  }

  ghost predicate Uniform(gs: seq<Group>) {
    forall n | 0 <= n < |gs| :: forall s | s in gs[n].spans :: s.trace == gs[n].trace
  }

  lemma UniformInit(gs: seq<Group>)
    requires gs != [] && Uniform(gs)
    ensures Uniform(gs[..|gs| - 1]) && forall s | s in gs[|gs| - 1].spans :: s.trace == gs[|gs| - 1].trace
  {
    var init := gs[..|gs| - 1];
    forall n | 0 <= n < |init| ensures forall s | s in init[n].spans :: s.trace == init[n].trace {
      assert init[n] == gs[n];
    }
  }

  lemma {:induction false} GroupsRun(db: Db, gs: seq<Group>)
    requires Referenced(db) && Uniform(gs)
    ensures Run(db, TraceBatch(Map(PlanFor, gs))).Some? <==> Known(db, gs)
    ensures Known(db, gs) ==> Reached(db, gs, Run(db, TraceBatch(Map(PlanFor, gs))).value)
    decreases |gs|
  {
    if gs == [] {
      assert Map(PlanFor, gs) == [] && TraceBatch([]) == [] && Run(db, []) == Some(db);
    } else {
      var init, g := gs[..|gs| - 1], gs[|gs| - 1];
      UniformInit(gs);
      GroupsRun(db, init);
      KnownInit(db, gs);
      BatchLast(db, gs);
      if Known(db, init) {
        var x := Run(db, TraceBatch(Map(PlanFor, init))).value;
        RunKeepsReferences(db, TraceBatch(Map(PlanFor, init)));
        GroupRuns(x, g);
        WelcomeLast(db, gs, x);
        if Welcome(x, g) { ReachedLast(db, gs, x, Run(x, PlanWrites(PlanFor(g))).value); }
      }
    }
  }

  lemma BatchLast(db: Db, gs: seq<Group>)
    requires gs != []
    ensures var init := Run(db, TraceBatch(Map(PlanFor, gs[..|gs| - 1])));
            Run(db, TraceBatch(Map(PlanFor, gs))) ==
              if init.Some? then Run(init.value, PlanWrites(PlanFor(gs[|gs| - 1]))) else None
  {
    var init, plans := gs[..|gs| - 1], Map(PlanFor, gs);
    assert plans[..|plans| - 1] == Map(PlanFor, init);
    RunConcat(db, TraceBatch(Map(PlanFor, init)), PlanWrites(PlanFor(gs[|gs| - 1])));
  }

  lemma KnownInit(db: Db, gs: seq<Group>)
    requires gs != []
    ensures Known(db, gs) <==> Known(db, gs[..|gs| - 1]) && !Strange(db, gs, |gs| - 1)
  {
    var init := gs[..|gs| - 1];
    forall n | 0 <= n < |init| ensures Strange(db, init, n) <==> Strange(db, gs, n) {
      assert forall m | 0 <= m <= n :: init[m] == gs[m];
    }
  }

  /** A payload is refused as a whole if and only if a group of it names a trace that is not
      stored, and that no earlier group names, for a session that is not stored. */
  lemma PayloadIsRefusedIffStrange(db: Db, resources: seq<Resource>)
    requires Referenced(db)
    ensures Run(db, TraceBatch(Plans(resources))).None?
            <==> exists n | 0 <= n < |Groups(resources)| :: Strange(db, Groups(resources), n)
  {
    PlansAreOfGroups(resources);
    forall n | 0 <= n < |Groups(resources)|
      ensures forall s | s in Groups(resources)[n].spans :: s.trace == Groups(resources)[n].trace
    {
      var g := Groups(resources)[n];
      GroupsAreGroups(resources, n);
      var i :| 0 <= i < |resources| && resources[i].session == Some(g.session) && resources[i].agent == g.agent
        && g.trace in Order(resources[i].spans) && g.spans == Of(resources[i].spans, g.trace);
      GroupsAreOfTheirTrace(resources[i].spans, g.trace);
    }
    GroupsRun(db, Groups(resources));
  }
}
