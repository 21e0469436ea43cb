/** `activeRequestIds` is exactly the set of ids of the connections that still run. */
module BrokerReservation {
  import opened Wrappers
  import opened Broker
  import opened BrokerTables
  import opened BrokerIndex

  predicate Runs(s: State, t: Tok) {
    t in s.conns && s.conns[t].pc != Finished
  }

  ghost predicate Reserved(s: State) {
    && (forall t | Runs(s, t) :: s.conns[t].id in s.active)
    && (forall id | id in s.active :: exists t :: Runs(s, t) && s.conns[t].id == id)
    && (forall t, u | Runs(s, t) && Runs(s, u) && s.conns[t].id == s.conns[u].id :: t == u)
  }

  /** All steps but arrivals and resumptions leave every connection at its await. */
  lemma OthersKeepRunning(cfg: Config, s: State, e: Event, u: Tok)
    requires Enabled(s, e) && !e.Arrive? && !e.Resume?
    ensures Runs(Step(cfg, s, e), u) <==> Runs(s, u)
    ensures Step(cfg, s, e).active == s.active
  {
    if e.Work? {
      WorkKeepsRunning(cfg, s, e.tid, e.answer, u);
    }
  }

  lemma DecideKeepsRunning(s: State, k: Tid, c: Call, a: Answer, u: Tok)
    ensures Runs(OnDecide(s, k, c, a), u) <==> Runs(s, u)
    ensures OnDecide(s, k, c, a).active == s.active
  {
  }

  lemma SettleKeepsRunning(s: State, k: Tid, held: Option<Tok>, u: Tok)
    ensures Runs(EndCall(Settle(s, held), k), u) <==> Runs(s, u)
    ensures EndCall(Settle(s, held), k).active == s.active
  {
  }

  lemma WorkKeepsRunning(cfg: Config, s: State, k: Tid, a: Answer, u: Tok)
    requires k in s.calls
    ensures Runs(OnWork(cfg, s, k, s.calls[k], a), u) <==> Runs(s, u)
    ensures OnWork(cfg, s, k, s.calls[k], a).active == s.active
  {
    var c := s.calls[k];
    match c.at
    case RemoveBegin =>
    case RemoveEntry => SettleKeepsRunning(s, k, c.held, u);
    case RemoveClose => SettleKeepsRunning(s, k, c.held, u);
    case GroupClose =>
    case Loop =>
    case _ => DecideKeepsRunning(s, k, c, a, u);
  }

  /** A resumption ends at most its own connection, and then frees its id. */
  lemma ResumeEndsItself(cfg: Config, s: State, t: Tok, a: Answer, u: Tok)
    requires Runs(s, t)
    ensures var s' := OnResume(cfg, s, t, s.conns[t], a);
            && (u != t ==> (Runs(s', u) <==> Runs(s, u)))
            && s'.active == (if Runs(s', t) then s.active else s.active - {s.conns[t].id})
  {
    LocalIds(cfg, s.conns[t].key in s.approvedKeys, t, s.conns[t], s.log, a);
  }

  lemma SameRuns(s: State, s': State)
    requires Reserved(s) && s'.active == s.active
    requires forall u :: (Runs(s', u) <==> Runs(s, u)) && SameIdAt(s, s', u)
    ensures Reserved(s')
  {
    forall id | id in s'.active ensures exists t :: Runs(s', t) && s'.conns[t].id == id {
      var t :| Runs(s, t) && s.conns[t].id == id;
      assert Runs(s', t);
    }
  }

  lemma EndsReserved(s: State, s': State, t: Tok)
    requires Reserved(s) && Runs(s, t) && !Runs(s', t) && s'.active == s.active - {s.conns[t].id}
    requires forall u :: (u != t ==> (Runs(s', u) <==> Runs(s, u))) && SameIdAt(s, s', u)
    ensures Reserved(s')
  {
    forall id | id in s'.active ensures exists u :: Runs(s', u) && s'.conns[u].id == id {
      var u :| Runs(s, u) && s.conns[u].id == id;
      assert Runs(s', u);
    }
  }

  lemma ArriveReserved(s: State, id: Id)
    requires Reserved(s) && s.nextTok !in s.conns
    ensures Reserved(OnArrive(s, id))
  {
    var s' := OnArrive(s, id);
    if id !in s.active {
      forall i | i in s'.active ensures exists t :: Runs(s', t) && s'.conns[t].id == i {
        if i == id {
          assert Runs(s', s.nextTok);
        } else {
          var t :| Runs(s, t) && s.conns[t].id == i;
          assert Runs(s', t);
        }
      }
    }
  }

  lemma StepReserved(cfg: Config, s: State, e: Event)
    requires Reserved(s) && Inv(s) && Enabled(s, e)
    ensures Reserved(Step(cfg, s, e))
  {
    var s' := Step(cfg, s, e);
    if e.Arrive? {
      ArriveReserved(s, e.id);
    } else {
      forall u ensures SameIdAt(s, s', u) { StepIds(cfg, s, e, u); }
      if e.Resume? {
        forall u ensures u != e.tok ==> (Runs(s', u) <==> Runs(s, u)) { ResumeEndsItself(cfg, s, e.tok, e.answer, u); }
        ResumeEndsItself(cfg, s, e.tok, e.answer, e.tok);
        if Runs(s', e.tok) { SameRuns(s, s'); } else { EndsReserved(s, s', e.tok); }
      } else {
        forall u ensures Runs(s', u) <==> Runs(s, u) { OthersKeepRunning(cfg, s, e, u); }
        OthersKeepRunning(cfg, s, e, 0);
        SameRuns(s, s');
      }
    }
  }

  /** At every await point an id is reserved if and only if a connection with that id
      still runs, and then exactly one does. */
  lemma {:induction false} ReservationIsExact(cfg: Config, ss: seq<State>, es: seq<Event>, i: nat)
    requires IsRun(cfg, ss, es) && i < |ss|
    ensures forall id :: id in ss[i].active <==> exists t :: Runs(ss[i], t) && ss[i].conns[t].id == id
    ensures forall t, u | Runs(ss[i], t) && Runs(ss[i], u) && ss[i].conns[t].id == ss[i].conns[u].id :: t == u
    ensures Reserved(ss[i])
  {
    if i > 0 {
      ReservationIsExact(cfg, ss, es, i - 1);
      RunInv(cfg, ss, es, i - 1);
      StepReserved(cfg, ss[i - 1], es[i - 1]);
    }
  }
}
