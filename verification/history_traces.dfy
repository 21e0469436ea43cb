/** What a whole trace payload leaves of each trace and of each conversation, whatever was
    known before. */
module HistoryTraces {
  import opened Wrappers
  import opened Sequences
  import opened HistoryStore
  import opened HistoryReplay
  import opened HistoryIngest
  import opened HistoryUsage
  import opened HistorySpans

  // ---------------------------------------------------------------- the conversation of a group

  /** Without a canonical id the first fallback id names the conversation, if there is one. */
  lemma {:induction false} PickedFallbackIsFirst(spans: seq<RawSpan>, i: nat)
    requires i <= |spans| && forall j | 0 <= j < |spans| :: spans[j].canonical.None?
    requires forall j | 0 <= j < i :: spans[j].fallback.None?
    requires i < |spans| ==> spans[i].fallback.Some?
    ensures PickConversation(spans) == if i < |spans| then spans[i].fallback else None
  {
    if i < |spans| {
      if i > 0 {
        assert forall j | 0 <= j < |spans| - 1 :: spans[1..][j] == spans[j + 1];
        PickedFallbackIsFirst(spans[1..], i - 1);
      } else {
        NoCanonical(spans);
      }
    } else if spans != [] {
      assert forall j | 0 <= j < |spans| - 1 :: spans[1..][j] == spans[j + 1];
      PickedFallbackIsFirst(spans[1..], i - 1);
    }
  }

  lemma {:induction false} NoCanonical(spans: seq<RawSpan>)
    requires forall j | 0 <= j < |spans| :: spans[j].canonical.None?
    ensures FirstCanonical(spans).None?
  {
    if spans != [] {
      assert forall j | 0 <= j < |spans| - 1 :: spans[1..][j] == spans[j + 1];
      NoCanonical(spans[1..]);
    }
  }

  /** The start of a trace: the least start of the group, or else its greatest end, or 1970. */
  function StartOf(g: Group): Time {
    if Earliest(g.spans).Some? then Earliest(g.spans).value
    else if Latest(g.spans).Some? then Latest(g.spans).value else 0
  }

  function EndOf(g: Group): Time {
    if Latest(g.spans).Some? then Latest(g.spans).value else StartOf(g)
  }

  // ---------------------------------------------------------------- traces

  /** The conversation of a trace: the one it had, or the first one that a group of it names. */
  ghost predicate LinkIs(gs: seq<Group>, k: Id, before: Option<Id>, after: Option<Id>) {
    if before.Some? then after == before
    else if after.None? then forall n | 0 <= n < |gs| && gs[n].trace == k :: PickConversation(gs[n].spans).None?
    else
      exists n | 0 <= n < |gs| ::
        && gs[n].trace == k && PickConversation(gs[n].spans) == after
        && forall m | 0 <= m < n && gs[m].trace == k :: PickConversation(gs[m].spans).None?
  }

  predicate EndsLast(gs: seq<Group>, k: Id, n: int)
    requires 0 <= n < |gs|
  {
    && gs[n].trace == k && Latest(gs[n].spans).Some?
    && forall m | n < m < |gs| && gs[m].trace == k :: Latest(gs[m].spans).None?
  }

  /** The end of a trace: that of the last group of it that has one, or the one it had. */
  ghost predicate EndIs(gs: seq<Group>, k: Id, before: Option<Time>, after: Option<Time>) {
    if forall n | 0 <= n < |gs| && gs[n].trace == k :: Latest(gs[n].spans).None? then after == before
    else exists n | 0 <= n < |gs| :: EndsLast(gs, k, n) && Latest(gs[n].spans) == after
  }

  lemma LinkAppend(gs: seq<Group>, g: Group, k: Id, before: Option<Id>, after: Option<Id>)
    requires LinkIs(gs, k, before, after)
    ensures LinkIs(gs + [g], k, before, if g.trace == k then Coalesce(after, PickConversation(g.spans)) else after)
  {
    var all := gs + [g];
    assert all[|gs|] == g && forall n | 0 <= n < |gs| :: all[n] == gs[n];
    if before.None? && after.Some? {
      var n :| 0 <= n < |gs| && gs[n].trace == k && PickConversation(gs[n].spans) == after
        && forall m | 0 <= m < n && gs[m].trace == k :: PickConversation(gs[m].spans).None?;
      assert all[n].trace == k;
    }
  }

  lemma EndAppend(gs: seq<Group>, g: Group, k: Id, before: Option<Time>, after: Option<Time>)
    requires EndIs(gs, k, before, after)
    ensures EndIs(gs + [g], k, before, if g.trace == k then Coalesce(Latest(g.spans), after) else after)
  {
    var all := gs + [g];
    assert all[|gs|] == g && forall n | 0 <= n < |gs| :: all[n] == gs[n];
    if n :| 0 <= n < |gs| && EndsLast(gs, k, n) && Latest(gs[n].spans) == after {
      assert Latest(g.spans).None? || g.trace != k ==> EndsLast(all, k, n);
      assert all[n].trace == k && Latest(all[n].spans).Some?;
    }
    if g.trace == k && Latest(g.spans).Some? { assert EndsLast(all, k, |gs|); }
  }

  /** What is left of the trace `k`. */
  ghost predicate TraceAfter(gs: seq<Group>, k: Id, before: Option<Trace>, after: Option<Trace>) {
    if forall n | 0 <= n < |gs| :: gs[n].trace != k then after == before
    else
      && after.Some?
      && (before.Some? ==>
            after.value.invocation == before.value.invocation && after.value.startedAt == before.value.startedAt)
      && LinkIs(gs, k, if before.Some? then before.value.conversation else None, after.value.conversation)
      && EndIs(gs, k, if before.Some? then before.value.endedAt else None, after.value.endedAt)
  }

  lemma NothingBrought(gs: seq<Group>, k: Id, c: Option<Id>, e: Option<Time>)
    requires forall n | 0 <= n < |gs| :: gs[n].trace != k
    ensures LinkIs(gs, k, c, c) && EndIs(gs, k, e, e)
  {
  }

  lemma TraceAppend(gs: seq<Group>, g: Group, k: Id, before: Option<Trace>, after: Option<Trace>)
    requires TraceAfter(gs, k, before, after)
    ensures TraceAfter(gs + [g], k, before,
              if g.trace == k then TraceStep(after, UpsertTrace(k, RowOfTrace(g)), k) else after)
  {
    var all := gs + [g];
    assert all[|gs|] == g && forall n | 0 <= n < |gs| :: all[n] == gs[n];
    var c := if before.Some? then before.value.conversation else None;
    var e := if before.Some? then before.value.endedAt else None;
    if forall n | 0 <= n < |gs| :: gs[n].trace != k {
      NothingBrought(gs, k, c, e);
      LinkAppend(gs, g, k, c, c);
      EndAppend(gs, g, k, e, e);
    } else {
      var n :| 0 <= n < |gs| && gs[n].trace == k;
      assert all[n].trace == k;
      LinkAppend(gs, g, k, c, after.value.conversation);
      EndAppend(gs, g, k, e, after.value.endedAt);
    }
  }

  lemma {:induction false} GroupsLeave(v: Option<Trace>, gs: seq<Group>, k: Id)
    ensures TraceAfter(gs, k, v, TraceFold(v, TraceBatch(Map(PlanFor, gs)), k))
  {
    if gs == [] {
      assert Map(PlanFor, gs) == [] && TraceBatch([]) == [];
    } else {
      var init, g := gs[..|gs| - 1], gs[|gs| - 1];
      assert gs == init + [g];
      GroupsLeave(v, init, k);
      BatchOfGroups(v, gs, k);
      var u := TraceFold(v, TraceBatch(Map(PlanFor, init)), k);
      GroupTrace(u, g, k);
      TraceAppend(init, g, k, v, u);
    }
  }

  /** After any payload whose transaction succeeds, every trace is what its groups say: it
      belongs to its first conversation, ends with its last group that has an end, keeps the
      invocation and the start it had, and stays as it was if no group is its own. */
  lemma TracesAreOfTheirGroups(db: Db, resources: seq<Resource>, k: Id)
    requires Run(db, TraceBatch(Plans(resources))).Some?
    ensures TraceAfter(Groups(resources), k, Row(db.traces, k),
                       Row(Run(db, TraceBatch(Plans(resources))).value.traces, k))
  {
    PlansAreOfGroups(resources);
    GroupsLeave(Row(db.traces, k), Groups(resources), k);
    RunIsRowwise(db, TraceBatch(Plans(resources)), k, LogKey(0, 0));
  }

  // ---------------------------------------------------------------- conversations

  predicate Tells(g: Group, c: Id) {
    PickConversation(g.spans) == Some(c)
  }

  predicate NamesLast(gs: seq<Group>, c: Id, n: int)
    requires 0 <= n < |gs|
  {
    Tells(gs[n], c) && gs[n].agent.Some? && forall m | n < m < |gs| && Tells(gs[m], c) :: gs[m].agent.None?
  }

  /** The agent of a conversation: the last one that a group of it names, or the one it had. */
  ghost predicate AgentIs(gs: seq<Group>, c: Id, before: Option<Id>, after: Option<Id>) {
    if forall n | 0 <= n < |gs| && Tells(gs[n], c) :: gs[n].agent.None? then after == before
    else exists n | 0 <= n < |gs| :: NamesLast(gs, c, n) && gs[n].agent == after
  }

  /** Its first time: the least start of its groups and of what was known. */
  ghost predicate FirstIs(gs: seq<Group>, c: Id, before: Option<Time>, after: Time) {
    && (forall n | 0 <= n < |gs| && Tells(gs[n], c) :: after <= StartOf(gs[n]))
    && (before.Some? ==> after <= before.value)
    && (before == Some(after) || exists n | 0 <= n < |gs| :: Tells(gs[n], c) && after == StartOf(gs[n]))
  }

  /** Its last time: the greatest end. */
  ghost predicate LastIs(gs: seq<Group>, c: Id, before: Option<Time>, after: Time) {
    && (forall n | 0 <= n < |gs| && Tells(gs[n], c) :: EndOf(gs[n]) <= after)
    && (before.Some? ==> before.value <= after)
    && (before == Some(after) || exists n | 0 <= n < |gs| :: Tells(gs[n], c) && after == EndOf(gs[n]))
  }

  /** What is left of the conversation `c`. */
  ghost predicate ConversationAfter(gs: seq<Group>, c: Id, before: Option<Conversation>, after: Option<Conversation>) {
    if forall n | 0 <= n < |gs| :: !Tells(gs[n], c) then after == before
    else
      && after.Some?
      && AgentIs(gs, c, if before.Some? then before.value.agent else None, after.value.agent)
      && FirstIs(gs, c, if before.Some? then Some(before.value.firstSeenAt) else None, after.value.firstSeenAt)
      && LastIs(gs, c, if before.Some? then Some(before.value.lastSeenAt) else None, after.value.lastSeenAt)
  }

  lemma AgentAppend(gs: seq<Group>, g: Group, c: Id, before: Option<Id>, after: Option<Id>)
    requires AgentIs(gs, c, before, after) && Tells(g, c)
    ensures AgentIs(gs + [g], c, before, Coalesce(g.agent, after))
  {
    var all := gs + [g];
    assert all[|gs|] == g && forall n | 0 <= n < |gs| :: all[n] == gs[n];
    if n :| 0 <= n < |gs| && NamesLast(gs, c, n) && gs[n].agent == after {
      assert g.agent.None? || !Tells(g, c) ==> NamesLast(all, c, n);
      assert Tells(all[n], c) && all[n].agent.Some?;
    }
    if g.agent.Some? { assert NamesLast(all, c, |gs|); }
  }

  lemma FirstAppend(gs: seq<Group>, g: Group, c: Id, before: Option<Time>, after: Time)
    requires FirstIs(gs, c, before, after) && Tells(g, c)
    ensures FirstIs(gs + [g], c, before, Min(after, StartOf(g)))
  {
    var all := gs + [g];
    assert all[|gs|] == g && forall n | 0 <= n < |gs| :: all[n] == gs[n];
    if n :| 0 <= n < |gs| && Tells(gs[n], c) && after == StartOf(gs[n]) { assert Tells(all[n], c); }
  }

  lemma LastAppend(gs: seq<Group>, g: Group, c: Id, before: Option<Time>, after: Time)
    requires LastIs(gs, c, before, after) && Tells(g, c)
    ensures LastIs(gs + [g], c, before, Max(after, EndOf(g)))
  {
    var all := gs + [g];
    assert all[|gs|] == g && forall n | 0 <= n < |gs| :: all[n] == gs[n];
    if n :| 0 <= n < |gs| && Tells(gs[n], c) && after == EndOf(gs[n]) { assert Tells(all[n], c); }
  }

  lemma FirstTeller(gs: seq<Group>, g: Group, c: Id, before: Option<Conversation>)
    requires (forall n | 0 <= n < |gs| :: !Tells(gs[n], c)) && Tells(g, c)
    ensures ConversationAfter(gs + [g], c, before,
              Some(if before.Some? then MergeConversation(before.value, SeenBy(PlanFor(g))) else SeenBy(PlanFor(g))))
  {
    var all := gs + [g];
    assert all[|gs|] == g && forall n | 0 <= n < |gs| :: all[n] == gs[n];
  }

  lemma SilentAppend(gs: seq<Group>, g: Group, c: Id, before: Option<Conversation>, after: Option<Conversation>)
    requires ConversationAfter(gs, c, before, after) && !Tells(g, c)
    ensures ConversationAfter(gs + [g], c, before, after)
  {
    var all := gs + [g];
    assert all[|gs|] == g && forall n | 0 <= n < |gs| :: all[n] == gs[n];
    if n :| 0 <= n < |gs| && Tells(gs[n], c) {
      assert Tells(all[n], c);
      SilentAgent(gs, g, c, if before.Some? then before.value.agent else None, after.value.agent);
      SilentTimes(gs, g, c, before, after.value);
    }
  }

  lemma SilentAgent(gs: seq<Group>, g: Group, c: Id, before: Option<Id>, after: Option<Id>)
    requires AgentIs(gs, c, before, after) && !Tells(g, c)
    ensures AgentIs(gs + [g], c, before, after)
  {
    var all := gs + [g];
    assert all[|gs|] == g && forall n | 0 <= n < |gs| :: all[n] == gs[n];
    if n :| 0 <= n < |gs| && NamesLast(gs, c, n) && gs[n].agent == after {
      assert g.agent.None? || !Tells(g, c) ==> NamesLast(all, c, n);
      assert Tells(all[n], c) && all[n].agent.Some?;
    }
  }

  lemma SilentTimes(gs: seq<Group>, g: Group, c: Id, before: Option<Conversation>, after: Conversation)
    requires FirstIs(gs, c, if before.Some? then Some(before.value.firstSeenAt) else None, after.firstSeenAt)
    requires LastIs(gs, c, if before.Some? then Some(before.value.lastSeenAt) else None, after.lastSeenAt)
    requires !Tells(g, c)
    ensures FirstIs(gs + [g], c, if before.Some? then Some(before.value.firstSeenAt) else None, after.firstSeenAt)
    ensures LastIs(gs + [g], c, if before.Some? then Some(before.value.lastSeenAt) else None, after.lastSeenAt)
  {
    var all := gs + [g];
    assert all[|gs|] == g && forall n | 0 <= n < |gs| :: all[n] == gs[n];
    if n :| 0 <= n < |gs| && Tells(gs[n], c) && after.firstSeenAt == StartOf(gs[n]) { assert Tells(all[n], c); }
    if n :| 0 <= n < |gs| && Tells(gs[n], c) && after.lastSeenAt == EndOf(gs[n]) { assert Tells(all[n], c); }
  }

  /** What the writes of one group do to the conversation `c`. */
  function Heard(v: Option<Conversation>, g: Group, c: Id): Option<Conversation> {
    if !Tells(g, c) then v
    else Some(if v.Some? then MergeConversation(v.value, SeenBy(PlanFor(g))) else SeenBy(PlanFor(g)))
  }

  lemma ConversationAppend(gs: seq<Group>, g: Group, c: Id, before: Option<Conversation>, after: Option<Conversation>)
    requires ConversationAfter(gs, c, before, after)
    ensures ConversationAfter(gs + [g], c, before, Heard(after, g, c))
  {
    if !Tells(g, c) {
      SilentAppend(gs, g, c, before, after);
    } else if forall n | 0 <= n < |gs| :: !Tells(gs[n], c) {
      FirstTeller(gs, g, c, before);
    } else {
      assert (gs + [g])[|gs|] == g;
      AgentAppend(gs, g, c, if before.Some? then before.value.agent else None, after.value.agent);
      FirstAppend(gs, g, c, if before.Some? then Some(before.value.firstSeenAt) else None, after.value.firstSeenAt);
      LastAppend(gs, g, c, if before.Some? then Some(before.value.lastSeenAt) else None, after.value.lastSeenAt);
    }
  }

  lemma GroupConversation(v: Option<Conversation>, g: Group, c: Id)
    ensures ConversationFold(v, PlanWrites(PlanFor(g)), c) == Heard(v, g, c)
  {
    var p := PlanFor(g);
    var first := if p.conversation.Some? then [UpsertConversation(p.conversation.value, SeenBy(p))] else [];
    var second := [UpsertTrace(p.trace, RowOfTrace(g))];
    assert PlanHead(p) == first + second;
    SpansAreTelemetry(p.rows);
    ConversationFoldConcat(v, PlanHead(p), SpanWrites(p.rows), c);
    ConversationFoldConcat(v, first, second, c);
    var u := ConversationFold(v, first, c);
    NoConversationWritten(u, second, c);
    NoConversationWritten(u, SpanWrites(p.rows), c);
    if p.conversation.Some? { ConversationFoldOne(v, UpsertConversation(p.conversation.value, SeenBy(p)), c); }
  }

  lemma LastGroupTells(v: Option<Conversation>, gs: seq<Group>, c: Id)
    requires gs != []
    ensures ConversationFold(v, TraceBatch(Map(PlanFor, gs)), c) ==
              ConversationFold(ConversationFold(v, TraceBatch(Map(PlanFor, gs[..|gs| - 1])), c),
                               PlanWrites(PlanFor(gs[|gs| - 1])), c)
  {
    var plans := Map(PlanFor, gs);
    assert plans[..|plans| - 1] == Map(PlanFor, gs[..|gs| - 1]);
    ConversationFoldConcat(v, TraceBatch(plans[..|plans| - 1]), PlanWrites(PlanFor(gs[|gs| - 1])), c);
  }

  lemma {:induction false} GroupsTell(v: Option<Conversation>, gs: seq<Group>, c: Id)
    ensures ConversationAfter(gs, c, v, ConversationFold(v, TraceBatch(Map(PlanFor, gs)), c))
  {
    if gs == [] {
      assert Map(PlanFor, gs) == [] && TraceBatch([]) == [];
    } else {
      var init, g := gs[..|gs| - 1], gs[|gs| - 1];
      assert gs == init + [g];
      GroupsTell(v, init, c);
      LastGroupTells(v, gs, c);
      var u := ConversationFold(v, TraceBatch(Map(PlanFor, init)), c);
      GroupConversation(u, g, c);
      ConversationAppend(init, g, c, v, u);
    }
  }

  /** After any payload whose transaction succeeds, every conversation is what its groups say:
      its agent is the last one they name, its times are the extremes of theirs and of what was
      known, and it stays as it was if no group names it. */
  lemma ConversationsAreOfTheirGroups(db: Db, resources: seq<Resource>, c: Id)
    requires Run(db, TraceBatch(Plans(resources))).Some?
    ensures ConversationAfter(Groups(resources), c, Row(db.conversations, c),
                              Row(Run(db, TraceBatch(Plans(resources))).value.conversations, c))
  {
    PlansAreOfGroups(resources);
    GroupsTell(Row(db.conversations, c), Groups(resources), c);
    RunIsRowwise(db, TraceBatch(Plans(resources)), c, LogKey(0, 0));
  }
}
