/** `normalizePortForwards` (src/config/port_forwards.ts): when it reports no error, and
    what the normalised entries are then. */
module PortForwards {
  import opened Sequences

  datatype Direction = Local | Remote

  /** `forwardKey` is an injective function of direction and container port. */
  datatype Key = Key(direction: Direction, containerPort: int)
  datatype Spec = Spec(direction: Direction, hostPort: int, containerPort: int)
  datatype Pair = Pair(hostPort: int, containerPort: int)

  datatype Error =
    | BadPort(spec: Spec) | Reserved(spec: Spec)
    | HostConflict(spec: Spec, other: Spec) | ListenerConflict(spec: Spec, other: Spec)

  function KeyOf(s: Spec): Key {
    Key(s.direction, s.containerPort)
  }

  predicate PortOk(p: int) {
    1 <= p <= 65535
  }

  /** The inputs in the order in which they are added. */
  function Specs(d: Direction, pairs: seq<Pair>): seq<Spec> {
    if pairs == [] then []
    else Specs(d, pairs[..|pairs| - 1]) + [Spec(d, pairs[|pairs| - 1].hostPort, pairs[|pairs| - 1].containerPort)]
  }

  function Legacy(ports: seq<int>): seq<Pair> {
    if ports == [] then [] else Legacy(ports[..|ports| - 1]) + [Pair(ports[|ports| - 1], ports[|ports| - 1])]
  }

  function Inputs(local: seq<Pair>, remote: seq<Pair>, legacy: seq<int>): seq<Spec> {
    Specs(Local, local) + Specs(Remote, remote) + Specs(Remote, Legacy(legacy))
  }

  // ---------------------------------------------------------------- adding

  /** The variables that the closure `add` updates. */
  datatype Table = Table(byKey: map<Key, Spec>, listeners: map<int, Spec>, entries: seq<Spec>, errors: seq<Error>)

  const EMPTY_TABLE := Table(map[], map[], [], [])

  function PortErrors(s: Spec): seq<Error> {
    (if PortOk(s.hostPort) then [] else [BadPort(s)]) + (if PortOk(s.containerPort) then [] else [BadPort(s)])
  }

  function ReservedErrors(s: Spec, reserved: set<int>): seq<Error> {
    if s.direction == Remote && s.containerPort in reserved then [Reserved(s)] else []
  }

  function Conflicts(t: Table, s: Spec): seq<Error> {
    if KeyOf(s) in t.byKey then
      if t.byKey[KeyOf(s)].hostPort != s.hostPort then [HostConflict(s, t.byKey[KeyOf(s)])] else []
    else if s.direction == Local && s.hostPort in t.listeners
        && t.listeners[s.hostPort].containerPort != s.containerPort then
      [ListenerConflict(s, t.listeners[s.hostPort])]
    else []
  }

  function NewErrors(t: Table, s: Spec, reserved: set<int>): seq<Error> {
    PortErrors(s) + ReservedErrors(s, reserved) + Conflicts(t, s)
  }

  /** A new key without a conflict becomes an entry, whatever its ports. */
  function Place(t: Table, s: Spec): Table {
    if KeyOf(s) in t.byKey || Conflicts(t, s) != [] then t
    else
      t.(byKey := t.byKey[KeyOf(s) := s], entries := t.entries + [s],
         listeners := if s.direction == Local then t.listeners[s.hostPort := s] else t.listeners)
  }

  function Add(t: Table, s: Spec, reserved: set<int>): Table {
    Place(t, s).(errors := t.errors + NewErrors(t, s, reserved))
  }

  function AddAll(ss: seq<Spec>, reserved: set<int>): Table {
    if ss == [] then EMPTY_TABLE else Add(AddAll(ss[..|ss| - 1], reserved), ss[|ss| - 1], reserved)
  }

  class Normalizer {
    var byKey: map<Key, Spec>
    var localListeners: map<int, Spec>
    var entries: seq<Spec>
    var errors: seq<Error>

    ghost function Value(): Table
      reads this
    {
      Table(byKey, localListeners, entries, errors)
    }

    constructor ()
      ensures Value() == EMPTY_TABLE
    {
      byKey, localListeners, entries, errors := map[], map[], [], [];
    }

    /** The checks at the head of `add`. */
    method CheckSpec(s: Spec, reserved: set<int>)
      modifies this`errors
      ensures errors == old(errors) + (PortErrors(s) + ReservedErrors(s, reserved))
    {
      if !PortOk(s.hostPort) { errors := errors + [BadPort(s)]; }
      if !PortOk(s.containerPort) { errors := errors + [BadPort(s)]; }
      assert errors == old(errors) + PortErrors(s);
      if s.direction == Remote && s.containerPort in reserved { errors := errors + [Reserved(s)]; }
    }

    /** The closure `add`. */
    method AddSpec(s: Spec, reserved: set<int>)
      modifies this
      ensures Value() == Add(old(Value()), s, reserved)
    {
      ghost var checked := PortErrors(s) + ReservedErrors(s, reserved);
      CheckSpec(s, reserved);
      assert old(errors) + (checked + Conflicts(old(Value()), s)) == (old(errors) + checked)
          + Conflicts(old(Value()), s);
      if KeyOf(s) in byKey {
        var existing := byKey[KeyOf(s)];
        if existing.hostPort != s.hostPort { errors := errors + [HostConflict(s, existing)]; }
        return;
      }
      if s.direction == Local {
        if s.hostPort in localListeners {
          var listener := localListeners[s.hostPort];
          if listener.containerPort != s.containerPort {
            errors := errors + [ListenerConflict(s, listener)];
            return;
          }
        }
        localListeners := localListeners[s.hostPort := s];
      }
      byKey := byKey[KeyOf(s) := s];
      entries := entries + [s];
    }

    method AddPairs(d: Direction, pairs: seq<Pair>, reserved: set<int>, ghost before: seq<Spec>)
      requires Value() == AddAll(before, reserved)
      modifies this
      ensures Value() == AddAll(before + Specs(d, pairs), reserved)
    {
      assert before + [] == before;
      for i := 0 to |pairs|
        invariant Value() == AddAll(before + Specs(d, pairs[..i]), reserved)
      {
        AddAllStep(d, pairs, i, reserved, before);
        AddSpec(Spec(d, pairs[i].hostPort, pairs[i].containerPort), reserved);
      }
      assert pairs[..|pairs|] == pairs;
    }
  }

  lemma AddAllStep(d: Direction, pairs: seq<Pair>, i: nat, reserved: set<int>, before: seq<Spec>)
    requires i < |pairs|
    ensures AddAll(before + Specs(d, pairs[..i + 1]), reserved)
            == Add(AddAll(before + Specs(d, pairs[..i]), reserved),
                Spec(d, pairs[i].hostPort, pairs[i].containerPort), reserved)
  {
    var added, s := before + Specs(d, pairs[..i]), Spec(d, pairs[i].hostPort, pairs[i].containerPort);
    assert pairs[..i + 1][..i] == pairs[..i];
    assert before + Specs(d, pairs[..i + 1]) == added + [s];
    assert (added + [s])[..|added|] == added;
  }

  method LegacyPairs(ports: seq<int>)
    returns (pairs: seq<Pair>)
    ensures pairs == Legacy(ports)
  {
    pairs := [];
    for i := 0 to |ports|
      invariant pairs == Legacy(ports[..i])
    {
      assert ports[..i + 1][..i] == ports[..i];
      pairs := pairs + [Pair(ports[i], ports[i])];
    }
    assert ports[..|ports|] == ports;
  }

  /** `normalizePortForwards`. */
  method NormalizePortForwards(local: seq<Pair>, remote: seq<Pair>, legacy: seq<int>, reserved: set<int>)
    returns (entries: seq<Spec>, errors: seq<Error>, warned: bool)
    ensures entries == AddAll(Inputs(local, remote, legacy), reserved).entries
    ensures errors == AddAll(Inputs(local, remote, legacy), reserved).errors
    ensures warned <==> legacy != []
  {
    var n := new Normalizer();
    n.AddPairs(Local, local, reserved, []);
    assert [] + Specs(Local, local) == Specs(Local, local);
    n.AddPairs(Remote, remote, reserved, Specs(Local, local));
    var more := LegacyPairs(legacy);
    n.AddPairs(Remote, more, reserved, Specs(Local, local) + Specs(Remote, remote));
    entries, errors, warned := n.entries, n.errors, legacy != [];
  }

  // ---------------------------------------------------------------- when there is no error

  predicate SpecOk(s: Spec, reserved: set<int>) {
    PortOk(s.hostPort) && PortOk(s.containerPort) && (s.direction == Remote ==> s.containerPort !in reserved)
  }

  /** Two inputs that cannot both be honoured. */
  predicate Clash(a: Spec, b: Spec) {
    || (KeyOf(a) == KeyOf(b) && a.hostPort != b.hostPort)
    || (a.direction == Local && b.direction == Local && a.hostPort == b.hostPort && a.containerPort != b.containerPort)
  }

  ghost predicate Consistent(ss: seq<Spec>, reserved: set<int>) {
    && (forall i | 0 <= i < |ss| :: SpecOk(ss[i], reserved))
    && (forall i, j | 0 <= i < j < |ss| :: !Clash(ss[i], ss[j]))
  }

  ghost predicate MapsHold(t: Table, ss: seq<Spec>) {
    && (forall k | k in t.byKey :: t.byKey[k] in ss && KeyOf(t.byKey[k]) == k)
    && (forall s | s in ss :: KeyOf(s) in t.byKey)
    && (forall p | p in t.listeners ::
          t.listeners[p] in ss && t.listeners[p].hostPort == p && t.listeners[p].direction == Local)
    && (forall s | s in ss && s.direction == Local :: s.hostPort in t.listeners)
  }

  /** While nothing clashes the table holds exactly the inputs so far. */
  ghost predicate Holds(t: Table, ss: seq<Spec>) {
    t.entries == Dedupe(ss) && MapsHold(t, ss)
  }

  lemma NewErrorsEmpty(t: Table, s: Spec, reserved: set<int>)
    ensures NewErrors(t, s, reserved) == [] <==> SpecOk(s, reserved) && Conflicts(t, s) == []
  {
    var p, r, c := PortErrors(s), ReservedErrors(s, reserved), Conflicts(t, s);
    assert |NewErrors(t, s, reserved)| == |p| + |r| + |c|;
    assert |p| == 0 <==> PortOk(s.hostPort) && PortOk(s.containerPort);
  }

  lemma NoConflict(t: Table, before: seq<Spec>, s: Spec)
    requires Holds(t, before) && forall b | b in before :: !Clash(b, s)
    ensures Conflicts(t, s) == [] && (KeyOf(s) in t.byKey ==> t.byKey[KeyOf(s)] == s)
  {
    if KeyOf(s) in t.byKey {
      assert t.byKey[KeyOf(s)] in before;
    }
    assert forall p | p in t.listeners :: t.listeners[p] in before;
  }

  lemma PlaceMaps(t: Table, before: seq<Spec>, s: Spec)
    requires MapsHold(t, before) && Conflicts(t, s) == [] && (KeyOf(s) in t.byKey ==> t.byKey[KeyOf(s)] == s)
    ensures MapsHold(Place(t, s), before + [s])
  {
    assert forall x :: x in before + [s] <==> x in before || x == s;
    if s.direction == Local && s.hostPort in t.listeners {
      assert t.listeners[s.hostPort].containerPort == s.containerPort || KeyOf(s) in t.byKey;
    }
  }

  lemma PlaceHolds(t: Table, before: seq<Spec>, s: Spec)
    requires Holds(t, before) && Conflicts(t, s) == [] && (KeyOf(s) in t.byKey ==> t.byKey[KeyOf(s)] == s)
    ensures Holds(Place(t, s), before + [s])
  {
    DedupeAppend(before, s);
    PlaceMaps(t, before, s);
  }

  lemma {:induction false} ConsistentHolds(ss: seq<Spec>, reserved: set<int>)
    requires Consistent(ss, reserved)
    ensures Holds(AddAll(ss, reserved), ss) && AddAll(ss, reserved).errors == []
  {
    if ss != [] {
      var n := |ss| - 1;
      var t := AddAll(ss[..n], reserved);
      ConsistentHolds(ss[..n], reserved);
      assert ss == ss[..n] + [ss[n]];
      forall b | b in ss[..n] ensures !Clash(b, ss[n]) { var i :| 0 <= i < n && ss[..n][i] == b; }
      HoldsOne(t, ss[..n], ss[n], reserved);
    }
  }

  lemma HoldsOne(t: Table, before: seq<Spec>, s: Spec, reserved: set<int>)
    requires Holds(t, before) && SpecOk(s, reserved) && forall b | b in before :: !Clash(b, s)
    ensures Holds(Add(t, s, reserved), before + [s]) && Add(t, s, reserved).errors == t.errors
  {
    NoConflict(t, before, s);
    NewErrorsEmpty(t, s, reserved);
    PlaceHolds(t, before, s);
    assert t.errors + [] == t.errors;
  }

  lemma ClashConflicts(t: Table, before: seq<Spec>, s: Spec, b: Spec, reserved: set<int>)
    requires Holds(t, before) && Consistent(before, reserved) && b in before && Clash(b, s)
    ensures Conflicts(t, s) != []
  {
    if KeyOf(b) == KeyOf(s) {
      SameKeySame(before, t.byKey[KeyOf(s)], b, reserved);
    } else if KeyOf(s) in t.byKey {
      var a := t.byKey[KeyOf(s)];
      if a.hostPort == s.hostPort { SameHostSame(before, a, b, reserved); }
    } else {
      SameHostSame(before, t.listeners[s.hostPort], b, reserved);
    }
  }

  lemma SameKeySame(ss: seq<Spec>, a: Spec, b: Spec, reserved: set<int>)
    requires Consistent(ss, reserved) && a in ss && b in ss && KeyOf(a) == KeyOf(b)
    ensures a == b
  {
    var i :| 0 <= i < |ss| && ss[i] == a;
    var j :| 0 <= j < |ss| && ss[j] == b;
    if i < j { assert !Clash(ss[i], ss[j]); } else if j < i { assert !Clash(ss[j], ss[i]); }
  }

  lemma SameHostSame(ss: seq<Spec>, a: Spec, b: Spec, reserved: set<int>)
    requires Consistent(ss, reserved) && a in ss && b in ss && a.direction == b.direction == Local
        && a.hostPort == b.hostPort
    ensures a == b
  {
    var i :| 0 <= i < |ss| && ss[i] == a;
    var j :| 0 <= j < |ss| && ss[j] == b;
    if i < j { assert !Clash(ss[i], ss[j]); } else if j < i { assert !Clash(ss[j], ss[i]); }
  }

  lemma LastBreaks(ss: seq<Spec>, n: nat, reserved: set<int>) returns (b: Spec)
    requires ss != [] && n == |ss| - 1 && Consistent(ss[..n], reserved) && !Consistent(ss, reserved)
        && SpecOk(ss[n], reserved)
    ensures b in ss[..n] && Clash(b, ss[n])
  {
    assert forall i | 0 <= i < n :: ss[..n][i] == ss[i];
    var i :| 0 <= i < n && Clash(ss[i], ss[n]);
    b := ss[..n][i];
  }

  /** No error is reported if and only if every port is in range, no remote listener is
      reserved, no key has two host ports and no local host port two container ports. */
  lemma {:induction false} NoErrorsIffConsistent(ss: seq<Spec>, reserved: set<int>)
    ensures AddAll(ss, reserved).errors == [] <==> Consistent(ss, reserved)
  {
    if Consistent(ss, reserved) {
      ConsistentHolds(ss, reserved);
    } else {
      var n := |ss| - 1;
      var t := AddAll(ss[..n], reserved);
      NoErrorsIffConsistent(ss[..n], reserved);
      NewErrorsEmpty(t, ss[n], reserved);
      if Consistent(ss[..n], reserved) && SpecOk(ss[n], reserved) {
        var b := LastBreaks(ss, n, reserved);
        ConsistentHolds(ss[..n], reserved);
        ClashConflicts(t, ss[..n], ss[n], b, reserved);
      }
      assert |AddAll(ss, reserved).errors| == |t.errors| + |NewErrors(t, ss[n], reserved)|;
    }
  }

  /** Without an error every input pair is represented, in the order of first occurrence,
      under a unique key and, if local, on a unique listener. */
  lemma EntriesAreTheInputs(ss: seq<Spec>, reserved: set<int>)
    requires AddAll(ss, reserved).errors == []
    ensures var es := AddAll(ss, reserved).entries;
            && es == Dedupe(ss) && (forall s :: s in es <==> s in ss)
            && (forall i, j | 0 <= i < j < |es| :: KeyOf(es[i]) != KeyOf(es[j]))
            && (forall i, j | 0 <= i < j < |es|
                && es[i].direction == es[j].direction == Local :: es[i].hostPort != es[j].hostPort)
  {
    var es := AddAll(ss, reserved).entries;
    NoErrorsIffConsistent(ss, reserved);
    ConsistentHolds(ss, reserved);
    DedupeMembers(ss);
    forall i, j | 0 <= i < j < |es| ensures KeyOf(es[i]) != KeyOf(es[j]) {
      assert es[i] in es && es[j] in es;
      if KeyOf(es[i]) == KeyOf(es[j]) { SameKeySame(ss, es[i], es[j], reserved); }
    }
    forall i, j | 0 <= i < j < |es| && es[i].direction == es[j].direction == Local
      ensures es[i].hostPort != es[j].hostPort
    {
      assert es[i] in es && es[j] in es;
      if es[i].hostPort == es[j].hostPort { SameHostSame(ss, es[i], es[j], reserved); }
    }
  }

  /** Normalising the entries again gives the same entries and no error. */
  lemma NormalisingTwiceIsOnce(ss: seq<Spec>, reserved: set<int>)
    requires AddAll(ss, reserved).errors == []
    ensures AddAll(AddAll(ss, reserved).entries, reserved).errors == []
    ensures AddAll(AddAll(ss, reserved).entries, reserved).entries == AddAll(ss, reserved).entries
  {
    var es := AddAll(ss, reserved).entries;
    NoErrorsIffConsistent(ss, reserved);
    EntriesAreTheInputs(ss, reserved);
    DedupeMembers(ss);
    forall i | 0 <= i < |es| ensures SpecOk(es[i], reserved) {
      assert es[i] in es;
      var k :| 0 <= k < |ss| && ss[k] == es[i];
    }
    forall i, j | 0 <= i < j < |es| ensures !Clash(es[i], es[j]) {
      assert KeyOf(es[i]) != KeyOf(es[j]);
    }
    ConsistentHolds(es, reserved);
    DedupeDistinct(es);
  }

  // ---------------------------------------------------------------- the entries as a new configuration

  function PairsOf(d: Direction, ss: seq<Spec>): seq<Pair> {
    if ss == [] then []
    else
      var s := ss[|ss| - 1];
      if s.direction == d then PairsOf(d, ss[..|ss| - 1]) + [Pair(s.hostPort, s.containerPort)]
          else PairsOf(d, ss[..|ss| - 1])
  }

  predicate All(d: Direction, ss: seq<Spec>) {
    forall i | 0 <= i < |ss| :: ss[i].direction == d
  }

  lemma {:induction false} SpecsHaveDirection(d: Direction, pairs: seq<Pair>)
    ensures All(d, Specs(d, pairs))
  {
    if pairs != [] { SpecsHaveDirection(d, pairs[..|pairs| - 1]); }
  }

  lemma {:induction false} PairsBack(d: Direction, e: Direction, ss: seq<Spec>)
    requires All(d, ss)
    ensures PairsOf(e, ss) == [] || e == d
    ensures Specs(d, PairsOf(d, ss)) == ss
  {
    if ss != [] {
      var n := |ss| - 1;
      PairsBack(d, e, ss[..n]);
      var before := PairsOf(d, ss[..n]);
      assert (before + [Pair(ss[n].hostPort, ss[n].containerPort)])[..|before|] == before;
      assert ss == ss[..n] + [ss[n]];
    }
  }

  lemma {:induction false} PairsConcat(d: Direction, a: seq<Spec>, b: seq<Spec>)
    ensures PairsOf(d, a + b) == PairsOf(d, a) + PairsOf(d, b)
    decreases |b|
  {
    if b == [] {
      assert a + b == a;
    } else {
      PairsConcat(d, a, b[..|b| - 1]);
      assert (a + b)[..|a + b| - 1] == a + b[..|b| - 1];
    }
  }

  lemma ApartStep(a: seq<Spec>, c: seq<Spec>, x: Spec)
    requires x !in a && Dedupe(a + c) == Dedupe(a) + Dedupe(c)
    ensures Dedupe((a + c) + [x]) == Dedupe(a) + Dedupe(c + [x])
  {
    DedupeAppend(a + c, x);
    DedupeAppend(c, x);
    Regroup(Dedupe(a), Dedupe(c), [x]);
  }

  lemma {:induction false} DedupeApart(a: seq<Spec>, b: seq<Spec>)
    requires All(Local, a) && All(Remote, b)
    ensures Dedupe(a + b) == Dedupe(a) + Dedupe(b)
    decreases |b|
  {
    if b == [] {
      assert a + b == a;
    } else {
      var c, x := b[..|b| - 1], b[|b| - 1];
      DedupeApart(a, c);
      assert forall s | s in a :: s.direction == Local;
      ApartStep(a, c, x);
      assert c + [x] == b && (a + c) + [x] == a + b;
    }
  }

  lemma DedupeKeepsDirection(d: Direction, ss: seq<Spec>)
    requires All(d, ss)
    ensures All(d, Dedupe(ss))
  {
    DedupeMembers(ss);
    forall i | 0 <= i < |Dedupe(ss)| ensures Dedupe(ss)[i].direction == d { assert Dedupe(ss)[i] in Dedupe(ss); }
  }

  lemma SplitBack(x: seq<Spec>, y: seq<Spec>)
    requires All(Local, x) && All(Remote, y)
    ensures Inputs(PairsOf(Local, x + y), PairsOf(Remote, x + y), []) == x + y
  {
    PairsConcat(Local, x, y);
    PairsConcat(Remote, x, y);
    PairsBack(Local, Remote, x);
    PairsBack(Remote, Local, y);
    assert PairsOf(Local, x) + [] == PairsOf(Local, x) && [] + PairsOf(Remote, y) == PairsOf(Remote, y);
    assert x + y + [] == x + y;
  }

  lemma LocalsComeFirst(local: seq<Pair>, remote: seq<Pair>, legacy: seq<int>) returns (x: seq<Spec>, y: seq<Spec>)
    ensures All(Local, x) && All(Remote, y) && Dedupe(Inputs(local, remote, legacy)) == x + y
  {
    var a, b := Specs(Local, local), Specs(Remote, remote) + Specs(Remote, Legacy(legacy));
    SpecsHaveDirection(Local, local);
    SpecsHaveDirection(Remote, remote);
    SpecsHaveDirection(Remote, Legacy(legacy));
    assert Inputs(local, remote, legacy) == a + b;
    DedupeApart(a, b);
    DedupeKeepsDirection(Local, a);
    DedupeKeepsDirection(Remote, b);
    x, y := Dedupe(a), Dedupe(b);
  }

  /** Written back as local and remote forwards, the entries of an error-free
      configuration normalise to themselves. */
  lemma EntriesAreANormalForm(local: seq<Pair>, remote: seq<Pair>, legacy: seq<int>, reserved: set<int>)
    requires AddAll(Inputs(local, remote, legacy), reserved).errors == []
    ensures var es := AddAll(Inputs(local, remote, legacy), reserved).entries;
            var again := AddAll(Inputs(PairsOf(Local, es), PairsOf(Remote, es), []), reserved);
            again.errors == [] && again.entries == es
  {
    var x, y := LocalsComeFirst(local, remote, legacy);
    EntriesAreTheInputs(Inputs(local, remote, legacy), reserved);
    SplitBack(x, y);
    NormalisingTwiceIsOnce(Inputs(local, remote, legacy), reserved);
  }
}
