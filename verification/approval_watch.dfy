/** The approval watch (src/cli/approval_watch.ts): the diff of two polls, the loop that
    emits it, and the replay of everything it emitted. */
module ApprovalWatch {
  import opened Wrappers
  import opened Sequences

  datatype Item = Item(session: string, request: string, entry: nat)
  datatype Snapshot = Snapshot(session: string, request: string)

  datatype Event = Added(session: string, request: string, entry: nat) | Removed(session: string, request: string)

  /** `pendingKey`. */
  function Key(session: string, request: string): string {
    session + "/" + request
  }

  function ItemKey(i: Item): string {
    Key(i.session, i.request)
  }

  predicate SlashFree(s: string) {
    '/' !in s
  }

  /** For session ids without a slash a key identifies session and request. */
  lemma KeysIdentify(s: string, r: string, s': string, r': string)
    requires SlashFree(s) && SlashFree(s') && Key(s, r) == Key(s', r')
    ensures s == s' && r == r'
  {
    var k := Key(s, r);
    assert forall i | 0 <= i < |s| :: k[i] == s[i] && s[i] in s;
    assert forall i | 0 <= i < |s'| :: k[i] == s'[i] && s'[i] in s';
    assert k[|s|] == '/' && k[|s'|] == '/';
    assert |s| == |s'|;
    assert k[..|s|] == s && k[..|s'|] == s' && k[|s| + 1..] == r && k[|s'| + 1..] == r';
  }

  // ---------------------------------------------------------------- one poll

  /** A JavaScript `Map`: its keys in insertion order, and their values. */
  datatype State = State(order: seq<string>, entries: map<string, Snapshot>)

  ghost predicate StateOk(s: State) {
    && (forall k :: k in s.order <==> k in s.entries)
    && (forall i, j | 0 <= i < j < |s.order| :: s.order[i] != s.order[j])
    && (forall k | k in s.entries :: Key(s.entries[k].session, s.entries[k].request) == k)
  }

  function Set(s: State, i: Item): State {
    var k := ItemKey(i);
    State(if k in s.entries then s.order else s.order + [k], s.entries[k := Snapshot(i.session, i.request)])
  }

  function NextState(items: seq<Item>): State {
    if items == [] then State([], map[]) else Set(NextState(items[..|items| - 1]), items[|items| - 1])
  }

  /** What vanished, in the order of the earlier poll. */
  function Gone(order: seq<string>, prev: map<string, Snapshot>, next: map<string, Snapshot>): seq<Event> {
    if order == [] then []
    else
      var k := order[|order| - 1];
      if k in next || k !in prev then Gone(order[..|order| - 1], prev, next)
      else Gone(order[..|order| - 1], prev, next) + [Removed(prev[k].session, prev[k].request)]
  }

  /** What is new, in the order of this poll. */
  function New(items: seq<Item>, prev: map<string, Snapshot>): seq<Event> {
    if items == [] then []
    else
      var i := items[|items| - 1];
      if ItemKey(i) in prev then New(items[..|items| - 1], prev)
      else New(items[..|items| - 1], prev) + [Added(i.session, i.request, i.entry)]
  }

  function DiffEvents(prev: State, items: seq<Item>): seq<Event> {
    Gone(prev.order, prev.entries, NextState(items).entries) + New(items, prev.entries)
  }

  method Snapshots(next: seq<Item>)
    returns (nextState: State)
    ensures nextState == NextState(next)
  {
    nextState := State([], map[]);
    for n := 0 to |next|
      invariant nextState == NextState(next[..n])
    {
      assert next[..n + 1][..n] == next[..n];
      nextState := Set(nextState, next[n]);
    }
    assert next[..|next|] == next;
  }

  method Removals(prev: State, next: map<string, Snapshot>)
    returns (events: seq<Event>)
    requires forall k | k in prev.order :: k in prev.entries
    ensures events == Gone(prev.order, prev.entries, next)
  {
    events := [];
    for n := 0 to |prev.order|
      invariant events == Gone(prev.order[..n], prev.entries, next)
    {
      assert prev.order[..n + 1][..n] == prev.order[..n];
      var k := prev.order[n];
      if k !in next { events := events + [Removed(prev.entries[k].session, prev.entries[k].request)]; }
    }
    assert prev.order[..|prev.order|] == prev.order;
  }

  method Additions(prev: map<string, Snapshot>, next: seq<Item>)
    returns (events: seq<Event>)
    ensures events == New(next, prev)
  {
    events := [];
    for n := 0 to |next|
      invariant events == New(next[..n], prev)
    {
      assert next[..n + 1][..n] == next[..n];
      if ItemKey(next[n]) !in prev { events := events + [Added(next[n].session, next[n].request, next[n].entry)]; }
    }
    assert next[..|next|] == next;
  }

  /** `diffPending`. */
  method DiffPending(prev: State, next: seq<Item>)
    returns (events: seq<Event>, nextState: State)
    requires StateOk(prev)
    ensures events == DiffEvents(prev, next) && nextState == NextState(next)
  {
    nextState := Snapshots(next);
    events := Removals(prev, nextState.entries);
    var added := Additions(prev.entries, next);
    events := events + added;
  }

  // ---------------------------------------------------------------- replay

  /** What an event means to a client that keeps the set of pending keys. */
  datatype Mark = Mark(added: bool, key: string)

  function MarkOf(e: Event): Mark {
    Mark(e.Added?, Key(e.session, e.request))
  }

  function Marks(es: seq<Event>): seq<Mark> {
    if es == [] then [] else Marks(es[..|es| - 1]) + [MarkOf(es[|es| - 1])]
  }

  /** The pending set after the marks. */
  function Fold(pending: set<string>, ms: seq<Mark>): set<string> {
    if ms == [] then pending
    else
      var before, m := Fold(pending, ms[..|ms| - 1]), ms[|ms| - 1];
      if m.added then before + {m.key} else before - {m.key}
  }

  /** Adds only what is absent and removes only what is present: the events of each key
      alternate, beginning with an addition for a key that is not pending. */
  predicate Legal(pending: set<string>, ms: seq<Mark>) {
    if ms == [] then true
    else
      Legal(pending, ms[..|ms| - 1])
      && (ms[|ms| - 1].added <==> ms[|ms| - 1].key !in Fold(pending, ms[..|ms| - 1]))
  }

  lemma {:induction false} FoldConcat(pending: set<string>, a: seq<Mark>, b: seq<Mark>)
    ensures Fold(pending, a + b) == Fold(Fold(pending, a), b)
    ensures Legal(pending, a + b) <==> Legal(pending, a) && Legal(Fold(pending, a), b)
    decreases |b|
  {
    if b == [] {
      assert a + b == a;
    } else {
      FoldConcat(pending, a, b[..|b| - 1]);
      assert (a + b)[..|a + b| - 1] == a + b[..|b| - 1];
    }
  }

  lemma {:induction false} MarksConcat(a: seq<Event>, b: seq<Event>)
    ensures Marks(a + b) == Marks(a) + Marks(b)
    decreases |b|
  {
    if b == [] {
      assert a + b == a;
    } else {
      MarksConcat(a, b[..|b| - 1]);
      assert (a + b)[..|a + b| - 1] == a + b[..|b| - 1];
    }
  }

  lemma MarksAppend(a: seq<Event>, e: Event)
    ensures Marks(a + [e]) == Marks(a) + [MarkOf(e)]
  {
    assert (a + [e])[..|a|] == a;
  }

  function GoneMarks(order: seq<string>, next: set<string>): seq<Mark> {
    if order == [] then []
    else
      var k := order[|order| - 1];
      if k in next then GoneMarks(order[..|order| - 1], next)
          else GoneMarks(order[..|order| - 1], next) + [Mark(false, k)]
  }

  function NewMarks(keys: seq<string>, prev: set<string>): seq<Mark> {
    if keys == [] then []
    else
      var k := keys[|keys| - 1];
      if k in prev then NewMarks(keys[..|keys| - 1], prev) else NewMarks(keys[..|keys| - 1], prev) + [Mark(true, k)]
  }

  function Elements(keys: seq<string>): set<string> {
    set k | k in keys
  }

  lemma MarkFolds(pending: set<string>, ms: seq<Mark>, m: Mark)
    ensures Fold(pending, ms + [m]) == if m.added then Fold(pending, ms) + {m.key} else Fold(pending, ms) - {m.key}
    ensures Legal(pending, ms + [m]) <==> Legal(pending, ms) && (m.added <==> m.key !in Fold(pending, ms))
  {
    assert (ms + [m])[..|ms|] == ms;
  }

  lemma LastIsNew(keys: seq<string>)
    requires Distinct(keys) && keys != []
    ensures Distinct(keys[..|keys| - 1]) && keys[|keys| - 1] !in keys[..|keys| - 1]
    ensures Elements(keys) == Elements(keys[..|keys| - 1]) + {keys[|keys| - 1]}
  {
    assert keys == keys[..|keys| - 1] + [keys[|keys| - 1]];
  }

  lemma {:induction false} GoneFolds(order: seq<string>, pending: set<string>, next: set<string>)
    requires Distinct(order) && Elements(order) <= pending
    ensures Fold(pending, GoneMarks(order, next)) == pending - (Elements(order) - next)
    ensures Legal(pending, GoneMarks(order, next))
  {
    if order != [] {
      var n := |order| - 1;
      LastIsNew(order);
      GoneFolds(order[..n], pending, next);
      MarkFolds(pending, GoneMarks(order[..n], next), Mark(false, order[n]));
    }
  }

  lemma {:induction false} NewFolds(keys: seq<string>, prev: set<string>, pending: set<string>)
    requires Distinct(keys) && pending <= prev
    ensures Fold(pending, NewMarks(keys, prev)) == pending + (Elements(keys) - prev)
    ensures Legal(pending, NewMarks(keys, prev))
  {
    if keys != [] {
      var n := |keys| - 1;
      LastIsNew(keys);
      NewFolds(keys[..n], prev, pending);
      MarkFolds(pending, NewMarks(keys[..n], prev), Mark(true, keys[n]));
    }
  }

  // ---------------------------------------------------------------- replay of one poll

  function Keys(items: seq<Item>): seq<string> {
    if items == [] then [] else Keys(items[..|items| - 1]) + [ItemKey(items[|items| - 1])]
  }

  ghost predicate DistinctKeys(items: seq<Item>) {
    Distinct(Keys(items))
  }

  lemma {:induction false} GoneMarked(order: seq<string>, prev: map<string, Snapshot>, next: map<string, Snapshot>)
    requires forall k | k in order :: k in prev && Key(prev[k].session, prev[k].request) == k
    ensures Marks(Gone(order, prev, next)) == GoneMarks(order, next.Keys)
  {
    if order != [] {
      var n := |order| - 1;
      GoneMarked(order[..n], prev, next);
      if order[n] !in next {
        MarksAppend(Gone(order[..n], prev, next), Removed(prev[order[n]].session, prev[order[n]].request));
      }
    }
  }

  lemma {:induction false} NewMarked(items: seq<Item>, prev: map<string, Snapshot>)
    ensures Marks(New(items, prev)) == NewMarks(Keys(items), prev.Keys)
  {
    if items != [] {
      var n := |items| - 1;
      NewMarked(items[..n], prev);
      assert Keys(items)[..n] == Keys(items[..n]) by { KeysLength(items[..n]); }
      if ItemKey(items[n]) !in prev {
        MarksAppend(New(items[..n], prev), Added(items[n].session, items[n].request, items[n].entry));
      }
    }
  }

  lemma {:induction false} KeysLength(items: seq<Item>)
    ensures |Keys(items)| == |items|
  {
    if items != [] { KeysLength(items[..|items| - 1]); }
  }

  lemma {:induction false} NextStateOk(items: seq<Item>)
    ensures StateOk(NextState(items))
    ensures NextState(items).entries.Keys == Elements(Keys(items))
  {
    if items != [] { NextStateOk(items[..|items| - 1]); }
  }

  lemma MarksReplay(order: seq<string>, keys: seq<string>, was: set<string>)
    requires Distinct(order) && Elements(order) == was && Distinct(keys)
    ensures var ms := GoneMarks(order, Elements(keys)) + NewMarks(keys, was);
            Fold(was, ms) == Elements(keys) && Legal(was, ms)
  {
    var next := Elements(keys);
    var kept := was - (was - next);
    GoneFolds(order, was, next);
    NewFolds(keys, was, kept);
    FoldConcat(was, GoneMarks(order, next), NewMarks(keys, was));
    assert kept + (next - was) == next;
  }

  lemma DiffMarks(prev: State, items: seq<Item>)
    requires StateOk(prev)
    ensures Marks(DiffEvents(prev, items)) ==
              GoneMarks(prev.order, Elements(Keys(items))) + NewMarks(Keys(items), prev.entries.Keys)
  {
    NextStateOk(items);
    GoneMarked(prev.order, prev.entries, NextState(items).entries);
    NewMarked(items, prev.entries);
    MarksConcat(Gone(prev.order, prev.entries, NextState(items).entries), New(items, prev.entries));
  }

  /** Replaying the diff over the earlier pending set gives the later one. */
  lemma DiffReplays(prev: State, items: seq<Item>)
    requires StateOk(prev) && DistinctKeys(items)
    ensures Fold(prev.entries.Keys, Marks(DiffEvents(prev, items))) == NextState(items).entries.Keys
    ensures Legal(prev.entries.Keys, Marks(DiffEvents(prev, items)))
  {
    DiffMarks(prev, items);
    NextStateOk(items);
    assert Elements(prev.order) == prev.entries.Keys;
    MarksReplay(prev.order, Keys(items), prev.entries.Keys);
  }

  // ---------------------------------------------------------------- the loop

  /** One turn: what the poll gave (`None`: it failed), what the liveness question gave
      (`None`: it failed too), and whether a stop was requested before or after. */
  datatype Turn = Turn(stopBefore: bool, items: Option<seq<Item>>, alive: Option<bool>, stopAfter: bool)

  function Scoped(filter: Option<string>, items: seq<Item>): seq<Item> {
    if items == [] then []
    else
      var i := items[|items| - 1];
      Scoped(filter, items[..|items| - 1]) + if filter.None? || filter.value == ""
          || i.session == filter.value then [i] else []
  }

  function After(filter: Option<string>, s: State, t: Turn): State {
    if t.items.Some? then NextState(Scoped(filter, t.items.value)) else s
  }

  function Emitted(filter: Option<string>, s: State, t: Turn): seq<Event> {
    if t.items.Some? then DiffEvents(s, Scoped(filter, t.items.value)) else []
  }

  /** The state after, and everything written in, the first `n` turns. */
  function StateAt(filter: Option<string>, turns: seq<Turn>, n: nat): State
    requires n <= |turns|
  {
    if n == 0 then State([], map[]) else After(filter, StateAt(filter, turns, n - 1), turns[n - 1])
  }

  function Written(filter: Option<string>, turns: seq<Turn>, n: nat): seq<Event>
    requires n <= |turns|
  {
    if n == 0 then [] else Written(filter, turns, n - 1) + Emitted(filter, StateAt(filter, turns, n - 1), turns[n - 1])
  }

  /** The session was seen alive in one of the first `n` turns. */
  predicate Seen(turns: seq<Turn>, n: nat)
    requires n <= |turns|
  {
    0 < n && (Seen(turns, n - 1) || turns[n - 1].alive == Some(true))
  }

  /** The session ended at turn `n`: seen alive before, now reported dead. */
  predicate EndedAt(turns: seq<Turn>, n: nat)
    requires n < |turns|
  {
    Seen(turns, n) && turns[n].alive == Some(false)
  }

  ghost predicate NeverEnded(turns: seq<Turn>, n: nat)
    requires n <= |turns|
  {
    forall i | 0 <= i < n :: !EndedAt(turns, i)
  }

  datatype Stop = Requested | SessionEnded | OutOfTurns

  /** What the watch holds and has written after `n` turns. */
  ghost predicate Follows(filter: Option<string>, turns: seq<Turn>, n: nat, s: State, written: seq<Event>)
    requires n <= |turns|
  {
    s == StateAt(filter, turns, n) && written == Written(filter, turns, n)
  }

  /** The `try` block of turn `n`: a failed poll leaves the state and emits nothing. */
  method Poll(filter: Option<string>, turns: seq<Turn>, n: nat, s: State, written: seq<Event>)
    returns (state: State, written': seq<Event>)
    requires n < |turns| && Follows(filter, turns, n, s, written)
    ensures Follows(filter, turns, n + 1, state, written')
  {
    state, written' := s, written;
    if turns[n].items.Some? {
      var scoped := Filter(filter, turns[n].items.value);
      var events;
      StateAtOk(filter, turns, n);
      events, state := DiffPending(s, scoped);
      written' := written + events;
    } else {
      assert written + [] == written;
    }
  }

  /** `runApprovalWatch` over the turns it is given. A session watch stops by itself at the
      first turn at which the session has ended, with the events of that turn written. */
  method RunApprovalWatch(filter: Option<string>, asksAlive: bool, turns: seq<Turn>)
    returns (written: seq<Event>, state: State, done: nat, stop: Stop)
    ensures done <= |turns|
    ensures Follows(filter, turns, done, state, written)
    ensures stop == SessionEnded ==> filter.Some? && asksAlive && 0 < done && EndedAt(turns, done - 1)
    ensures filter.Some? && asksAlive ==>
              NeverEnded(turns, if stop == SessionEnded then done - 1 else done)
    ensures stop == OutOfTurns ==> done == |turns|
  {
    written, state, done := [], State([], map[]), 0;
    var seen := false;
    while done < |turns|
      invariant done <= |turns|
      invariant Follows(filter, turns, done, state, written)
      invariant filter.Some? && asksAlive ==> (seen <==> Seen(turns, done))
      invariant filter.Some? && asksAlive ==> NeverEnded(turns, done)
    {
      var t := turns[done];
      if t.stopBefore { return written, state, done, Requested; }
      state, written := Poll(filter, turns, done, state, written);
      done := done + 1;
      if filter.Some? && asksAlive {
        if t.alive == Some(true) {
          seen := true;
        } else if t.alive == Some(false) && seen {
          return written, state, done, SessionEnded;
        }
      }
      if t.stopAfter { return written, state, done, Requested; }
    }
    stop := OutOfTurns;
  }

  method Filter(filter: Option<string>, items: seq<Item>)
    returns (scoped: seq<Item>)
    ensures scoped == Scoped(filter, items)
  {
    scoped := [];
    for n := 0 to |items|
      invariant scoped == Scoped(filter, items[..n])
    {
      assert items[..n + 1][..n] == items[..n];
      if filter.None? || filter.value == "" || items[n].session == filter.value { scoped := scoped + [items[n]]; }
    }
    assert items[..|items|] == items;
  }

  // ---------------------------------------------------------------- replay of a whole watch

  ghost predicate Orderly(turns: seq<Turn>) {
    forall i | 0 <= i < |turns| && turns[i].items.Some? :: DistinctKeys(turns[i].items.value)
  }

  lemma {:induction false} ScopedKeepsOrder(filter: Option<string>, items: seq<Item>)
    requires DistinctKeys(items)
    ensures DistinctKeys(Scoped(filter, items)) && Elements(Keys(Scoped(filter, items))) <= Elements(Keys(items))
  {
    if items != [] {
      var n := |items| - 1;
      KeysLength(items[..n]);
      assert Keys(items)[..n] == Keys(items[..n]);
      LastIsNew(Keys(items));
      ScopedKeepsOrder(filter, items[..n]);
      var before := Scoped(filter, items[..n]);
      assert (before + [items[n]])[..|before|] == before;
      if Scoped(filter, items) != before { DistinctAppend(Keys(before), ItemKey(items[n])); }
    }
  }

  lemma DistinctAppend(keys: seq<string>, k: string)
    requires Distinct(keys) && k !in keys
    ensures Distinct(keys + [k])
  {
  }

  lemma {:induction false} StateAtOk(filter: Option<string>, turns: seq<Turn>, n: nat)
    requires n <= |turns|
    ensures StateOk(StateAt(filter, turns, n))
  {
    if n > 0 {
      StateAtOk(filter, turns, n - 1);
      if turns[n - 1].items.Some? { NextStateOk(Scoped(filter, turns[n - 1].items.value)); }
    }
  }

  lemma PollReplays(s: State, items: seq<Item>, before: seq<Event>)
    requires StateOk(s) && DistinctKeys(items)
    requires Fold({}, Marks(before)) == s.entries.Keys && Legal({}, Marks(before))
    ensures Fold({}, Marks(before + DiffEvents(s, items))) == NextState(items).entries.Keys
    ensures Legal({}, Marks(before + DiffEvents(s, items)))
  {
    MarksConcat(before, DiffEvents(s, items));
    FoldConcat({}, Marks(before), Marks(DiffEvents(s, items)));
    DiffReplays(s, items);
  }

  /** Whatever polls failed in between: folding everything written over the empty set
      gives the pending set the watch holds, and for each key the events alternate,
      beginning with `added`. */
  lemma {:induction false} WatchReplays(filter: Option<string>, turns: seq<Turn>, n: nat)
    requires n <= |turns| && Orderly(turns)
    ensures Fold({}, Marks(Written(filter, turns, n))) == StateAt(filter, turns, n).entries.Keys
    ensures Legal({}, Marks(Written(filter, turns, n)))
  {
    if n > 0 {
      var s, t := StateAt(filter, turns, n - 1), turns[n - 1];
      var before := Written(filter, turns, n - 1);
      WatchReplays(filter, turns, n - 1);
      StateAtOk(filter, turns, n - 1);
      if t.items.Some? {
        ScopedKeepsOrder(filter, t.items.value);
        PollReplays(s, Scoped(filter, t.items.value), before);
      } else {
        assert before + [] == before;
      }
    }
  }

  /** The pending set the watch holds is that of the last successful poll. */
  lemma {:induction false} StateIsLastPoll(filter: Option<string>, turns: seq<Turn>, n: nat, last: nat)
    requires last < n <= |turns| && turns[last].items.Some? && forall i | last < i < n :: turns[i].items.None?
    ensures StateAt(filter, turns, n).entries.Keys == Elements(Keys(Scoped(filter, turns[last].items.value)))
  {
    if last < n - 1 {
      StateIsLastPoll(filter, turns, n - 1, last);
    } else {
      NextStateOk(Scoped(filter, turns[last].items.value));
    }
  }
}
