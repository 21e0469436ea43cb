/** Token usage: which spans of a trace keep their usage columns
    (src/history/otlp_semantics.ts). */
module HistoryUsage {
  import opened Wrappers
  import opened HistoryStore

  datatype Attr = Text(text: Id) | Number(number: int) | Other
  type Attrs = map<string, Attr>
  datatype Kind = Chat | ExecuteTool | InvokeAgent | OtherKind

  /** A span as it arrives. `valid`: it has a trace id, a span id and a name. `canonical` and
      `fallback`: the conversation ids its attributes name. `kind` is what `classifySpan`
      says; nothing depends on how. */
  datatype RawSpan = RawSpan(
    valid: bool, trace: Id, id: Id, startNano: Option<Time>, endNano: Option<Time>,
    canonical: Option<Id>, fallback: Option<Id>, name: string, kind: Kind, attrs: Attrs, rest: Id)

  // ---------------------------------------------------------------- names

  predicate TokenUsageName(n: string) {
    n == "codex.turn.token_usage"
  }

  predicate ResponseName(n: string) {
    || n == "codex.response" || n == "codex.responses"
    || n == "model_client.stream_responses" || n == "model_client.stream_responses_websocket"
    || n == "responses.stream_request" || n == "responses_websocket.stream_request"
  }

  predicate TurnName(n: string) {
    n == "session_task.turn"
  }

  /** No name belongs to two tiers; they differ in length already. */
  lemma NamesAreApart(n: string)
    ensures TokenUsageName(n) ==> |n| == 22
    ensures TurnName(n) ==> |n| == 17
    ensures ResponseName(n) ==> |n| in {14, 15, 24, 29, 34, 39}
  {
  }

  // ---------------------------------------------------------------- usage sources

  function ReadNumber(a: Attrs, k: string): Option<int> {
    if k in a && a[k].Number? then Some(a[k].number) else None
  }

  /** The first of the keys that is a number. */
  function ReadTokens(a: Attrs, keys: seq<string>): Option<int> {
    if keys == [] then None
    else if ReadNumber(a, keys[0]).Some? then ReadNumber(a, keys[0])
    else ReadTokens(a, keys[1..])
  }

  const IN_KEYS := ["gen_ai.usage.input_tokens", "input_tokens"]
  const OUT_KEYS := ["gen_ai.usage.output_tokens", "output_tokens"]
  const TURN_IN_KEY := "codex.turn.token_usage.input_tokens"
  const TURN_OUT_KEY := "codex.turn.token_usage.output_tokens"

  predicate HasResponseUsage(a: Attrs) {
    ReadTokens(a, IN_KEYS).Some? || ReadTokens(a, OUT_KEYS).Some?
  }

  datatype Sources = Sources(tokenUsage: bool, response: bool)

  function SourcesIn(spans: seq<RawSpan>): Sources {
    Sources(exists s :: s in spans && TokenUsageName(s.name),
            exists s :: s in spans && ResponseName(s.name) && HasResponseUsage(s.attrs))
  }

  /** `analyzeTraceUsageSources`. */
  method AnalyzeTraceUsageSources(spans: seq<RawSpan>)
    returns (x: Sources)
    ensures x == SourcesIn(spans)
  {
    x := Sources(false, false);
    for i := 0 to |spans|
      invariant x == SourcesIn(spans[..i])
    {
      var s := spans[i];
      if TokenUsageName(s.name) { x := x.(tokenUsage := true); }
      if ResponseName(s.name) && HasResponseUsage(s.attrs) { x := x.(response := true); }
      assert spans[..i + 1] == spans[..i] + [s];
      SourcesStep(spans[..i], s);
    }
    assert spans[..|spans|] == spans;
  }

  lemma SourcesStep(before: seq<RawSpan>, s: RawSpan)
    ensures var x := SourcesIn(before);
            SourcesIn(before + [s]) ==
              Sources(x.tokenUsage || TokenUsageName(s.name),
                      x.response || (ResponseName(s.name) && HasResponseUsage(s.attrs)))
  {
    var all := before + [s];
    assert s in all && forall r :: r in all <==> r in before || r == s;
  }

  predicate ShouldPromote(kind: Kind, name: string, x: Sources) {
    if TurnName(name) then !x.tokenUsage && !x.response
    else kind == Chat && !(x.tokenUsage && ResponseName(name))
  }

  const MODEL_KEYS := ["gen_ai.response.model", "gen_ai.request.model", "model"]

  const CACHE_READ_KEYS := [
    "gen_ai.usage.cache_read.input_tokens", "gen_ai.usage.cache_read_input_tokens", "cache_read_tokens",
    "codex.turn.token_usage.cache_read_input_tokens", "codex.turn.token_usage.cache_read.input_tokens"]

  const CACHE_WRITE_KEYS := [
    "gen_ai.usage.cache_creation.input_tokens", "gen_ai.usage.cache_creation_input_tokens", "cache_creation_tokens",
    "codex.turn.token_usage.cache_creation_input_tokens", "codex.turn.token_usage.cache_creation.input_tokens"]

  /** The first of the keys that is a text. */
  function ReadText(a: Attrs, keys: seq<string>): Option<Id> {
    if keys == [] then None
    else if keys[0] in a && a[keys[0]].Text? then Some(a[keys[0]].text)
    else ReadText(a, keys[1..])
  }

  /** `resolveSpanUsageColumns`. */
  function UsageColumns(s: RawSpan, x: Sources): Usage {
    if !ShouldPromote(s.kind, s.name, x) then Usage(None, None, None, None, None)
    else
      Usage(ReadText(s.attrs, MODEL_KEYS),
            ReadTokens(s.attrs, IN_KEYS + [TURN_IN_KEY]), ReadTokens(s.attrs, OUT_KEYS + [TURN_OUT_KEY]),
            ReadTokens(s.attrs, CACHE_READ_KEYS), ReadTokens(s.attrs, CACHE_WRITE_KEYS))
  }

  // ---------------------------------------------------------------- which attribute fills a column

  /** `v` is the number under the first of the keys that has one. */
  ghost predicate FirstNumber(a: Attrs, keys: seq<string>, v: Option<int>) {
    match v
    case None => forall i | 0 <= i < |keys| :: ReadNumber(a, keys[i]).None?
    case Some(n) =>
      exists i | 0 <= i < |keys| ::
        keys[i] in a && a[keys[i]] == Number(n) && forall j | 0 <= j < i :: ReadNumber(a, keys[j]).None?
  }

  ghost predicate FirstText(a: Attrs, keys: seq<string>, v: Option<Id>) {
    match v
    case None => forall i | 0 <= i < |keys| :: keys[i] in a ==> !a[keys[i]].Text?
    case Some(n) =>
      exists i | 0 <= i < |keys| ::
        keys[i] in a && a[keys[i]] == Text(n) && forall j | 0 <= j < i :: keys[j] in a ==> !a[keys[j]].Text?
  }

  lemma FirstNumberCons(a: Attrs, k: string, rest: seq<string>, v: Option<int>)
    requires ReadNumber(a, k).None? && FirstNumber(a, rest, v)
    ensures FirstNumber(a, [k] + rest, v)
  {
    var keys := [k] + rest;
    if v.Some? {
      var i :| 0 <= i < |rest| && rest[i] in a && a[rest[i]] == Number(v.value)
        && forall j | 0 <= j < i :: ReadNumber(a, rest[j]).None?;
      assert keys[i + 1] == rest[i] && forall j | 0 <= j < i + 1 :: ReadNumber(a, keys[j]).None?;
    }
  }

  lemma {:induction false} ReadsFirstNumber(a: Attrs, keys: seq<string>)
    ensures FirstNumber(a, keys, ReadTokens(a, keys))
  {
    if keys != [] && ReadNumber(a, keys[0]).None? {
      ReadsFirstNumber(a, keys[1..]);
      FirstNumberCons(a, keys[0], keys[1..], ReadTokens(a, keys[1..]));
      assert [keys[0]] + keys[1..] == keys;
    }
  }

  lemma FirstTextCons(a: Attrs, k: string, rest: seq<string>, v: Option<Id>)
    requires (k in a ==> !a[k].Text?) && FirstText(a, rest, v)
    ensures FirstText(a, [k] + rest, v)
  {
    var keys := [k] + rest;
    if v.Some? {
      var i :| 0 <= i < |rest| && rest[i] in a && a[rest[i]] == Text(v.value)
        && forall j | 0 <= j < i :: rest[j] in a ==> !a[rest[j]].Text?;
      assert keys[i + 1] == rest[i] && forall j | 0 <= j < i + 1 :: keys[j] in a ==> !a[keys[j]].Text?;
    }
  }

  lemma {:induction false} ReadsFirstText(a: Attrs, keys: seq<string>)
    ensures FirstText(a, keys, ReadText(a, keys))
  {
    if keys != [] && !(keys[0] in a && a[keys[0]].Text?) {
      ReadsFirstText(a, keys[1..]);
      FirstTextCons(a, keys[0], keys[1..], ReadText(a, keys[1..]));
      assert [keys[0]] + keys[1..] == keys;
    }
  }

  /** What each usage column of a span holds, attribute by attribute. */
  ghost predicate ReadFrom(a: Attrs, u: Usage) {
    && FirstText(a, ["gen_ai.response.model", "gen_ai.request.model", "model"], u.model)
    && FirstNumber(a, ["gen_ai.usage.input_tokens", "input_tokens", "codex.turn.token_usage.input_tokens"], u.inTok)
    && FirstNumber(a, ["gen_ai.usage.output_tokens", "output_tokens", "codex.turn.token_usage.output_tokens"], u.outTok)
    && FirstNumber(a, ["gen_ai.usage.cache_read.input_tokens", "gen_ai.usage.cache_read_input_tokens",
                       "cache_read_tokens", "codex.turn.token_usage.cache_read_input_tokens",
                       "codex.turn.token_usage.cache_read.input_tokens"], u.cacheR)
    && FirstNumber(a, ["gen_ai.usage.cache_creation.input_tokens", "gen_ai.usage.cache_creation_input_tokens",
                       "cache_creation_tokens", "codex.turn.token_usage.cache_creation_input_tokens",
                       "codex.turn.token_usage.cache_creation.input_tokens"], u.cacheW)
  }

  /** A turn span keeps its usage if the trace has no token-usage span and no response span
      with tokens; a chat span does unless it is a response beside a token-usage span; no
      other span does. */
  ghost predicate KeepsUsage(s: RawSpan, trace: seq<RawSpan>) {
    var better := exists r | r in trace :: r.name == "codex.turn.token_usage";
    if s.name == "session_task.turn" then
      !better && forall r | r in trace && ResponseName(r.name) ::
        && ReadNumber(r.attrs, "gen_ai.usage.input_tokens").None? && ReadNumber(r.attrs, "input_tokens").None?
        && ReadNumber(r.attrs, "gen_ai.usage.output_tokens").None? && ReadNumber(r.attrs, "output_tokens").None?
    else
      s.kind == Chat && !(better && ResponseName(s.name))
  }

  lemma ReadTwo(a: Attrs, j: string, k: string)
    ensures ReadTokens(a, [j, k]).None? <==> ReadNumber(a, j).None? && ReadNumber(a, k).None?
  {
    var none: seq<string> := [];
    assert [j, k][1..] == [k] && [k][1..] == none;
    assert ReadTokens(a, none).None? && ReadTokens(a, [k]) == ReadNumber(a, k);
  }

  lemma KeepsIffPromoted(s: RawSpan, trace: seq<RawSpan>)
    ensures KeepsUsage(s, trace) <==> ShouldPromote(s.kind, s.name, SourcesIn(trace))
  {
    forall r | r in trace
      ensures HasResponseUsage(r.attrs) <==>
        !(&& ReadNumber(r.attrs, "gen_ai.usage.input_tokens").None? && ReadNumber(r.attrs, "input_tokens").None?
          && ReadNumber(r.attrs, "gen_ai.usage.output_tokens").None? && ReadNumber(r.attrs, "output_tokens").None?)
    {
      ReadTwo(r.attrs, "gen_ai.usage.input_tokens", "input_tokens");
      ReadTwo(r.attrs, "gen_ai.usage.output_tokens", "output_tokens");
    }
  }

  lemma ThreeKeys(j: string, k: string, l: string)
    ensures [j, k] + [l] == [j, k, l]
  {
  }

  /** A span that keeps its usage stores it from these attributes; every other span stores
      none. */
  lemma ColumnsAreRead(s: RawSpan, trace: seq<RawSpan>)
    ensures var u := UsageColumns(s, SourcesIn(trace));
            if KeepsUsage(s, trace) then ReadFrom(s.attrs, u) else u == Usage(None, None, None, None, None)
  {
    KeepsIffPromoted(s, trace);
    ReadsFirstText(s.attrs, MODEL_KEYS);
    ReadsFirstNumber(s.attrs, IN_KEYS + [TURN_IN_KEY]);
    ReadsFirstNumber(s.attrs, OUT_KEYS + [TURN_OUT_KEY]);
    ReadsFirstNumber(s.attrs, CACHE_READ_KEYS);
    ReadsFirstNumber(s.attrs, CACHE_WRITE_KEYS);
    ThreeKeys("gen_ai.usage.input_tokens", "input_tokens", TURN_IN_KEY);
    ThreeKeys("gen_ai.usage.output_tokens", "output_tokens", TURN_OUT_KEY);
  }

  // ---------------------------------------------------------------- one tier

  datatype Tier = TokenUsageTier | ResponseTier | TurnTier

  function TierOf(n: string): Option<Tier> {
    if TokenUsageName(n) then Some(TokenUsageTier) else if ResponseName(n) then Some(ResponseTier)
    else if TurnName(n) then Some(TurnTier) else None
  }

  predicate Counts(s: RawSpan, x: Sources) {
    TierOf(s.name).Some? && (UsageColumns(s, x).inTok.Some? || UsageColumns(s, x).outTok.Some?)
  }

  /** The usage that is counted for a trace comes from one tier. */
  ghost predicate OneTier(spans: seq<RawSpan>, x: Sources) {
    forall s, r | s in spans && r in spans && Counts(s, x) && Counts(r, x) :: TierOf(s.name) == TierOf(r.name)
  }

  predicate HasTurnKeys(a: Attrs) {
    ReadNumber(a, TURN_IN_KEY).Some? || ReadNumber(a, TURN_OUT_KEY).Some?
  }

  /** A chat response span with turn keys stands beside a turn span with tokens, in a
      trace that has no token-usage span and no response span with usage of its own. */
  ghost predicate Doubles(spans: seq<RawSpan>, x: Sources) {
    && !x.tokenUsage && !x.response
    && (exists s :: s in spans && ResponseName(s.name) && s.kind == Chat && HasTurnKeys(s.attrs))
    && (exists s :: s in spans && TurnName(s.name) && (HasResponseUsage(s.attrs) || HasTurnKeys(s.attrs)))
  }

  lemma {:induction false} ReadConcat(a: Attrs, j: seq<string>, k: seq<string>)
    ensures ReadTokens(a, j + k) == if ReadTokens(a, j).Some? then ReadTokens(a, j) else ReadTokens(a, k)
  {
    if j == [] {
      assert j + k == k;
    } else {
      assert (j + k)[1..] == j[1..] + k;
      ReadConcat(a, j[1..], k);
    }
  }

  lemma ReadsBoth(a: Attrs)
    ensures ReadTokens(a, IN_KEYS + [TURN_IN_KEY]).Some? || ReadTokens(a, OUT_KEYS + [TURN_OUT_KEY]).Some?
            <==> HasResponseUsage(a) || HasTurnKeys(a)
  {
    ReadConcat(a, IN_KEYS, [TURN_IN_KEY]);
    ReadConcat(a, OUT_KEYS, [TURN_OUT_KEY]);
    assert [TURN_IN_KEY][1..] == [] && [TURN_OUT_KEY][1..] == [];
  }

  /** Which response and turn spans count when the trace has no better source. */
  lemma CountsWithoutSource(s: RawSpan, x: Sources)
    requires !x.tokenUsage && !x.response
    ensures ResponseName(s.name) ==>
        (Counts(s, x) <==> s.kind == Chat && (HasResponseUsage(s.attrs) || HasTurnKeys(s.attrs)))
    ensures TurnName(s.name) ==> (Counts(s, x) <==> HasResponseUsage(s.attrs) || HasTurnKeys(s.attrs))
  {
    ReadsBoth(s.attrs);
    NamesAreApart(s.name);
  }

  /** The tiers a pair of counted spans may have. */
  lemma PairTiers(spans: seq<RawSpan>, x: Sources, s: RawSpan, r: RawSpan)
    requires x == SourcesIn(spans) && s in spans && r in spans && Counts(s, x) && Counts(r, x)
    requires TierOf(s.name) == Some(TokenUsageTier) || TierOf(s.name) == Some(ResponseTier)
    ensures TierOf(s.name) == TierOf(r.name)
            || (!x.tokenUsage && TierOf(s.name) == Some(ResponseTier) && TierOf(r.name) == Some(TurnTier)
                && !x.response)
  {
    NamesAreApart(s.name);
    NamesAreApart(r.name);
  }

  lemma DoubledIsTwoTiers(spans: seq<RawSpan>, x: Sources)
    requires Doubles(spans, x)
    ensures !OneTier(spans, x)
  {
    var s :| s in spans && ResponseName(s.name) && s.kind == Chat && HasTurnKeys(s.attrs);
    var r :| r in spans && TurnName(r.name) && (HasResponseUsage(r.attrs) || HasTurnKeys(r.attrs));
    CountsWithoutSource(s, x);
    CountsWithoutSource(r, x);
    NamesAreApart(s.name);
    NamesAreApart(r.name);
  }

  lemma TwoTiersAreDoubled(spans: seq<RawSpan>, x: Sources, s: RawSpan, r: RawSpan)
    requires x == SourcesIn(spans) && s in spans && r in spans && Counts(s, x) && Counts(r, x)
    requires TierOf(s.name) == Some(ResponseTier) && TierOf(r.name) == Some(TurnTier) && !x.tokenUsage && !x.response
    ensures Doubles(spans, x)
  {
    NamesAreApart(r.name);
    CountsWithoutSource(s, x);
    CountsWithoutSource(r, x);
    assert !HasResponseUsage(s.attrs);
  }

  /** The counted usage of a trace comes from at most one of token-usage, response and
      turn spans, if and only if no chat response span with turn keys stands beside a turn
      span with tokens while the trace has no better source. */
  lemma OneTierUnlessDoubled(spans: seq<RawSpan>, x: Sources)
    requires x == SourcesIn(spans)
    ensures OneTier(spans, x) <==> !Doubles(spans, x)
  {
    if Doubles(spans, x) {
      DoubledIsTwoTiers(spans, x);
    } else {
      forall s, r | s in spans && r in spans && Counts(s, x) && Counts(r, x) ensures TierOf(s.name) == TierOf(r.name) {
        if TierOf(s.name) != Some(TurnTier) { PairIsOne(spans, x, s, r); }
        if TierOf(r.name) != Some(TurnTier) { PairIsOne(spans, x, r, s); }
      }
    }
  }

  lemma PairIsOne(spans: seq<RawSpan>, x: Sources, s: RawSpan, r: RawSpan)
    requires x == SourcesIn(spans) && s in spans && r in spans && Counts(s, x) && Counts(r, x) && !Doubles(spans, x)
    requires TierOf(s.name) != Some(TurnTier)
    ensures TierOf(s.name) == TierOf(r.name)
  {
    PairTiers(spans, x, s, r);
    if TierOf(s.name) != TierOf(r.name) { TwoTiersAreDoubled(spans, x, s, r); }
  }

  /** In particular where response spans carry no turn keys. */
  lemma OneTierWithoutTurnKeys(spans: seq<RawSpan>, x: Sources)
    requires x == SourcesIn(spans)
    requires forall s | s in spans && ResponseName(s.name) :: !HasTurnKeys(s.attrs)
    ensures OneTier(spans, x)
  {
    OneTierUnlessDoubled(spans, x);
  }
}
