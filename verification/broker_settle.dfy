/** A waiter that is owned can still be settled: its owner only has to go on. */
module BrokerSettle {
  import opened Wrappers
  import opened Sequences
  import opened Broker
  import opened BrokerTables
  import opened BrokerWaiters
  import opened BrokerProgress

  /** Any way to go on from `s`. */
  ghost predicate IsPath(cfg: Config, s: State, ss: seq<State>, es: seq<Event>) {
    && |ss| == |es| + 1 && ss[0] == s
    && forall i | 0 <= i < |es| :: Enabled(ss[i], es[i]) && ss[i + 1] == Step(cfg, ss[i], es[i])
  }

  predicate IsSettled(s: State, t: Tok) {
    t in s.conns && s.conns[t].settled
  }

  /** Some way to go on settles the waiter. */
  ghost predicate CanSettle(cfg: Config, s: State, t: Tok) {
    exists ss, es {:trigger IsPath(cfg, s, ss, es)} :: IsPath(cfg, s, ss, es) && IsSettled(ss[|es|], t)
  }

  lemma AlreadySettled(cfg: Config, s: State, t: Tok)
    requires IsSettled(s, t)
    ensures CanSettle(cfg, s, t)
  {
    assert IsPath(cfg, s, [s], []);
  }

  lemma AfterStep(cfg: Config, s: State, e: Event, t: Tok)
    requires Enabled(s, e) && CanSettle(cfg, Step(cfg, s, e), t)
    ensures CanSettle(cfg, s, t)
  {
    var ss, es :| IsPath(cfg, Step(cfg, s, e), ss, es) && IsSettled(ss[|es|], t);
    var ts, fs := [s] + ss, [e] + es;
    forall i | 0 <= i < |fs| ensures Enabled(ts[i], fs[i]) && ts[i + 1] == Step(cfg, ts[i], fs[i]) {
      if i > 0 { assert ts[i] == ss[i - 1] && fs[i] == es[i - 1]; }
    }
    assert IsPath(cfg, s, ts, fs) && ts[|fs|] == ss[|es|];
  }

  // ---------------------------------------------------------------- how far a call has to go

  function Rank(at: At): nat {
    match at
    case RemoveEntry => 5
    case RemoveClose => 4
    case Entry => 4
    case EntryClose => 3
    case Auditing => 2
    case Replying => 1
    case Running => 1
    case _ => 0
  }

  /** The call `d` has less to do than `c`. */
  predicate Nearer(c: Call, d: Call) {
    || (c.at.GroupClose? && !d.at.GroupClose?)
    || (c.at.GroupClose? == d.at.GroupClose? && |d.rest| < |c.rest|)
    || (c.at.GroupClose? == d.at.GroupClose? && |d.rest| == |c.rest| && Rank(d.at) < Rank(c.at))
  }

  /** The waiter is settled, or still with the call, which has less to do. */
  predicate Advances(s: State, s': State, k: Tid, t: Tok)
    requires k in s.calls
  {
    || IsSettled(s', t)
    || (Open(s', t) && k in s'.calls && Covers(s', s'.calls[k], t) && Nearer(s.calls[k], s'.calls[k]))
  }

  // ---------------------------------------------------------------- the waiter in hand

  lemma SettleEnds(s: State, k: Tid, t: Tok)
    requires k in s.calls && t in s.conns && s.calls[k].held == Some(t)
    ensures IsSettled(EndCall(Settle(s, Some(t)), k), t) && IsSettled(Advance(s, k, s.calls[k]), t)
  {
  }

  lemma HeldDecides(s: State, k: Tid, t: Tok)
    requires Inv(s) && k in s.calls && Open(s, t) && s.calls[k].held == Some(t)
    requires s.calls[k].at in {Entry, EntryClose, Auditing, Replying, At.Running}
    ensures Advances(s, OnDecide(s, k, s.calls[k], Ok), k, t)
  {
    var c := s.calls[k];
    var (at, conn, log) := Decide(c, t, s.conns[t], s.log, Ok);
    var x := SetConn(s, t, conn).(log := log);
    if at.None? { SettleEnds(x, k, t); }
  }

  lemma HeldEntry(cfg: Config, s: State, k: Tid, t: Tok)
    requires Inv(s) && k in s.calls && Open(s, t) && s.calls[k].held == Some(t) && s.calls[k].at == Entry
    ensures Advances(s, OnEntry(cfg, s, k, s.calls[k], Ok), k, t)
  {
    HeldDecides(s, k, t);
  }

  lemma HeldRemoves(s: State, k: Tid, t: Tok)
    requires Inv(s) && k in s.calls && Open(s, t) && s.calls[k].held == Some(t) && s.calls[k].at == RemoveEntry
    ensures Advances(s, OnRemoveEntry(s, k, s.calls[k], Ok), k, t)
  {
    SettleEnds(s, k, t);
  }

  lemma HeldAdvances(cfg: Config, s: State, k: Tid, t: Tok)
    requires Inv(s) && k in s.calls && Open(s, t) && s.calls[k].held == Some(t)
    ensures Advances(s, OnWork(cfg, s, k, s.calls[k], Ok), k, t)
  {
    assert CallOk(s, s.calls[k]);
    match s.calls[k].at
    case RemoveEntry => HeldRemoves(s, k, t);
    case RemoveClose => SettleEnds(s, k, t);
    case Entry => HeldEntry(cfg, s, k, t);
    case _ => HeldDecides(s, k, t);
  }

  // ---------------------------------------------------------------- the waiter on the list

  /** The call works on a list that `t` is on. */
  predicate OnItsList(s: State, k: Tid, t: Tok) {
    && k in s.calls && s.calls[k].whole && Listed(s, t) && s.conns[t].group == s.calls[k].group
    && s.conns[t].id in s.calls[k].rest && s.calls[k].held != Some(t)
  }

  lemma LoopAdvances(s: State, k: Tid, t: Tok)
    requires Inv(s) && Open(s, t) && OnItsList(s, k, t) && s.calls[k].at == Loop
    ensures Advances(s, OnLoop(s, k, s.calls[k]), k, t)
  {
    var c := s.calls[k];
    assert CallOk(s, c) && GroupAgrees(s.tables.heap[c.group.value]);
    assert c.rest == [c.rest[0]] + c.rest[1..];
  }

  lemma ListDecides(s: State, k: Tid, t: Tok)
    requires Inv(s) && Open(s, t) && OnItsList(s, k, t) && s.calls[k].at in {Entry, Auditing, Replying, At.Running}
    ensures Advances(s, OnDecide(s, k, s.calls[k], Ok), k, t)
  {
    DecideLeaves(s, k, s.calls[k], Ok, t);
    DecideTables(s, k, s.calls[k], Ok);
    DecideKeepsList(s, k, Ok);
    DecideRank(s, k);
  }

  lemma DecideRank(s: State, k: Tid)
    requires k in s.calls && s.calls[k].whole && s.calls[k].at in {Entry, Auditing, Replying, At.Running}
    ensures var s' := OnDecide(s, k, s.calls[k], Ok); k in s'.calls && Rank(s'.calls[k].at) < Rank(s.calls[k].at)
  {
  }

  lemma ListAdvances(cfg: Config, s: State, k: Tid, t: Tok)
    requires Inv(s) && Open(s, t) && OnItsList(s, k, t) && s.calls[k].at != GroupClose
    ensures Advances(s, OnWork(cfg, s, k, s.calls[k], Ok), k, t)
  {
    assert CallOk(s, s.calls[k]);
    if s.calls[k].at == Loop { LoopAdvances(s, k, t); } else { ListDecides(s, k, t); }
  }

  /** Every group can be listed in some order. */
  lemma SomeOrder(ids: set<Id>)
    returns (order: seq<Id>)
    ensures Distinct(order) && forall id :: id in order <==> id in ids
  {
    if ids == {} {
      order := [];
    } else {
      var id :| id in ids;
      var rest := SomeOrder(ids - {id});
      order := [id] + rest;
    }
  }

  lemma CloseAdvances(cfg: Config, s: State, k: Tid, t: Tok, order: seq<Id>)
    requires Inv(s) && Open(s, t) && Listed(s, t) && Enabled(s, Work(k, Order(order)))
    requires s.calls[k].at == GroupClose && s.calls[k].whole && s.conns[t].group == s.calls[k].group
    ensures Advances(s, OnWork(cfg, s, k, s.calls[k], Order(order)), k, t)
  {
    assert GroupAgrees(s.tables.heap[s.calls[k].group.value]);
  }

  // ---------------------------------------------------------------- any owner

  /** One more answer that the call waits for. */
  lemma CoveredAdvances(cfg: Config, s: State, k: Tid, t: Tok)
    returns (a: Answer)
    requires Inv(s) && k in s.calls && Open(s, t) && Covers(s, s.calls[k], t)
    ensures Enabled(s, Work(k, a)) && Advances(s, Step(cfg, s, Work(k, a)), k, t)
  {
    assert CallOk(s, s.calls[k]);
    if s.calls[k].held == Some(t) {
      a := Ok;
      HeldAdvances(cfg, s, k, t);
    } else if s.calls[k].at == GroupClose {
      var order := SomeOrder(s.tables.heap[s.calls[k].group.value].requests.Keys);
      a := Order(order);
      CloseAdvances(cfg, s, k, t, order);
    } else {
      a := Ok;
      ListAdvances(cfg, s, k, t);
    }
  }

  lemma {:induction false} CoveredCanSettle(cfg: Config, s: State, k: Tid, t: Tok)
    requires Inv(s) && k in s.calls && Open(s, t) && Covers(s, s.calls[k], t)
    ensures CanSettle(cfg, s, t)
    decreases if s.calls[k].at.GroupClose? then 1 else 0, |s.calls[k].rest|, Rank(s.calls[k].at)
  {
    var a := CoveredAdvances(cfg, s, k, t);
    var s' := Step(cfg, s, Work(k, a));
    StepInv(cfg, s, Work(k, a));
    if IsSettled(s', t) { AlreadySettled(cfg, s', t); } else { CoveredCanSettle(cfg, s', k, t); }
    AfterStep(cfg, s, Work(k, a), t);
  }

  /** The timer of its group takes a registered waiter onto the list of a call. */
  lemma TimeoutCovers(s: State, t: Tok)
    requires Inv(s) && Open(s, t) && Reachable(s, t)
    ensures var z := OnTimeout(s, s.conns[t].group.value);
            Open(z, t) && s.nextTid in z.calls && Covers(z, z.calls[s.nextTid], t)
  {
  }

  /** A waiter that somebody owns can still be settled. */
  lemma SafeCanSettle(cfg: Config, s: State, t: Tok)
    requires Inv(s) && Open(s, t) && Safe(s, t)
    ensures CanSettle(cfg, s, t)
  {
    if Reachable(s, t) {
      var e := Timeout(s.conns[t].group.value);
      TimeoutCovers(s, t);
      StepInv(cfg, s, e);
      CoveredCanSettle(cfg, Step(cfg, s, e), s.nextTid, t);
      AfterStep(cfg, s, e, t);
    } else {
      var k :| k in s.calls && Covers(s, s.calls[k], t);
      CoveredCanSettle(cfg, s, k, t);
    }
  }
}
