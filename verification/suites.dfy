/** Expansion of aggregate test scripts (scripts/run_tests.ts): `expandSuites` walks the
    script table depth first, detects unknown names and cycles and lists each leaf once. */
module Suites {
  import opened Sequences

  type Name = string

  /** A script's command: empty, an ordinary command, or the names an aggregate runs. */
  datatype Command = Empty | Leaf | Aggregate(members: seq<Name>)
  type Table = map<Name, Command>

  datatype Result = Ok(names: seq<Name>) | Unknown(name: Name) | Circular(path: seq<Name>)

  predicate Known(t: Table, n: Name) {
    n in t && t[n] != Empty
  }

  function Members(s: seq<Name>): set<Name> {
    set x | x in s
  }

  /** Results of `flatMap`: the first failure, or the lists put together. */
  function Append(a: Result, b: Result): Result {
    if !a.Ok? then a else if !b.Ok? then b else Ok(a.names + b.names)
  }

  function ExpandSuites(names: seq<Name>, t: Table, ancestors: seq<Name>): Result
    decreases t.Keys - Members(ancestors), |names|, 1
  {
    var r := ExpandEach(names, t, ancestors);
    if r.Ok? then Ok(Dedupe(r.names)) else r
  }

  function ExpandEach(names: seq<Name>, t: Table, ancestors: seq<Name>): Result
    decreases t.Keys - Members(ancestors), |names|, 0
  {
    if names == [] then Ok([])
    else
      var n := names[0];
      var first :=
        if !Known(t, n) then Unknown(n)
        else if n in ancestors then Circular(ancestors + [n])
        else if t[n].Aggregate? then
          Descend(t, ancestors, n);
          ExpandSuites(t[n].members, t, ancestors + [n])
        else Ok([n]);
      if first.Ok? then Append(first, ExpandEach(names[1..], t, ancestors)) else first
  }

  /** The measure: each level takes one more name of the table. */
  lemma Descend(t: Table, ancestors: seq<Name>, n: Name)
    requires n in t && n !in ancestors
    ensures t.Keys - Members(ancestors + [n]) < t.Keys - Members(ancestors)
  {
    assert n in t.Keys - Members(ancestors) && n !in t.Keys - Members(ancestors + [n]);
    assert forall x | x in ancestors :: x in ancestors + [n];
  }

  // ---------------------------------------------------------------- paths

  /** From each name on the path an aggregate leads to the next. */
  ghost predicate IsPath(t: Table, p: seq<Name>) {
    p != [] && forall i | 0 <= i < |p| - 1 :: p[i] in t && t[p[i]].Aggregate? && p[i + 1] in t[p[i]].members
  }

  ghost predicate PathFrom(t: Table, names: seq<Name>, p: seq<Name>) {
    IsPath(t, p) && p[0] in names
  }

  /** No name occurs twice, and none is among `ancestors`. */
  ghost predicate Simple(p: seq<Name>, ancestors: seq<Name>) {
    && (forall i, j | 0 <= i < j < |p| :: p[i] != p[j])
    && (forall i | 0 <= i < |p| :: p[i] !in ancestors)
  }

  ghost predicate PathOk(t: Table, p: seq<Name>, ancestors: seq<Name>) {
    p != [] && Known(t, p[|p| - 1]) && Simple(p, ancestors)
  }

  /** Every path from the names ends at a known script and never meets itself. */
  ghost predicate AllPathsOk(t: Table, names: seq<Name>, ancestors: seq<Name>) {
    forall p | PathFrom(t, names, p) :: PathOk(t, p, ancestors)
  }

  lemma TailPath(t: Table, p: seq<Name>)
    requires IsPath(t, p) && |p| > 1
    ensures p[0] in t && t[p[0]].Aggregate? && PathFrom(t, t[p[0]].members, p[1..])
  {
    forall i | 0 <= i < |p[1..]| - 1
        ensures p[1..][i] in t && t[p[1..][i]].Aggregate? && p[1..][i + 1] in t[p[1..][i]].members {
      assert p[1..][i] == p[i + 1] && p[1..][i + 1] == p[i + 2];
    }
  }

  lemma ConsPath(t: Table, n: Name, p: seq<Name>)
    requires n in t && t[n].Aggregate? && PathFrom(t, t[n].members, p)
    ensures IsPath(t, [n] + p)
  {
    forall i | 0 <= i < |[n] + p| - 1
        ensures ([n] + p)[i] in t && t[([n] + p)[i]].Aggregate? && ([n] + p)[i + 1] in t[([n] + p)[i]].members {
      if i > 0 { assert ([n] + p)[i] == p[i - 1] && ([n] + p)[i + 1] == p[i]; }
    }
  }

  lemma SimpleCons(n: Name, p: seq<Name>, ancestors: seq<Name>)
    requires n !in ancestors
    ensures Simple([n] + p, ancestors) <==> Simple(p, ancestors + [n])
  {
    var q := [n] + p;
    if Simple(q, ancestors) {
      forall i | 0 <= i < |p| ensures p[i] !in ancestors + [n] { assert q[i + 1] == p[i] && q[0] == n; }
      forall i, j | 0 <= i < j < |p| ensures p[i] != p[j] { assert q[i + 1] == p[i] && q[j + 1] == p[j]; }
    }
    if Simple(p, ancestors + [n]) {
      assert forall i | 0 < i < |q| :: q[i] == p[i - 1] && p[i - 1] !in ancestors + [n];
    }
  }

  /** A successful expansion means that every path is sound. */
  lemma {:induction false} SuccessMeansSound(names: seq<Name>, t: Table, ancestors: seq<Name>, p: seq<Name>)
    requires ExpandEach(names, t, ancestors).Ok? && PathFrom(t, names, p)
    ensures PathOk(t, p, ancestors)
    decreases t.Keys - Members(ancestors), |names|
  {
    var n := names[0];
    if p[0] != n {
      assert p[0] in names[1..];
      SuccessMeansSound(names[1..], t, ancestors, p);
    } else if |p| > 1 {
      TailPath(t, p);
      Descend(t, ancestors, n);
      SuccessMeansSound(t[n].members, t, ancestors + [n], p[1..]);
      SimpleCons(n, p[1..], ancestors);
      assert p == [n] + p[1..];
    }
  }

  /** If every path is sound the expansion succeeds. */
  lemma {:induction false} SoundMeansSuccess(names: seq<Name>, t: Table, ancestors: seq<Name>)
    requires AllPathsOk(t, names, ancestors)
    ensures ExpandEach(names, t, ancestors).Ok?
    decreases t.Keys - Members(ancestors), |names|
  {
    if names != [] {
      var n := names[0];
      assert PathFrom(t, names, [n]);
      assert PathOk(t, [n], ancestors) && [n][0] == n;
      if t[n].Aggregate? {
        Descend(t, ancestors, n);
        forall p | PathFrom(t, t[n].members, p) ensures PathOk(t, p, ancestors + [n]) {
          ConsPath(t, n, p);
          assert PathFrom(t, names, [n] + p);
          assert PathOk(t, [n] + p, ancestors);
          SimpleCons(n, p, ancestors);
          assert ([n] + p)[|p|] == p[|p| - 1];
        }
        SoundMeansSuccess(t[n].members, t, ancestors + [n]);
      }
      assert forall p | PathFrom(t, names[1..], p) :: PathFrom(t, names, p);
      SoundMeansSuccess(names[1..], t, ancestors);
    }
  }

  /** `expandSuites` throws exactly when some path from the names leads to an unknown
      script or runs into itself. */
  lemma ExpandsIffSound(names: seq<Name>, t: Table)
    ensures ExpandSuites(names, t, []).Ok? <==> AllPathsOk(t, names, [])
  {
    if AllPathsOk(t, names, []) { SoundMeansSuccess(names, t, []); }
    if ExpandSuites(names, t, []).Ok? {
      forall p | PathFrom(t, names, p) ensures PathOk(t, p, []) { SuccessMeansSound(names, t, [], p); }
    }
  }

  /** The error names what is wrong: an unknown name at the end of a path, or a path
      whose last name closes a cycle. */
  ghost predicate Blames(t: Table, names: seq<Name>, ancestors: seq<Name>, r: Result, p: seq<Name>) {
    && PathFrom(t, names, p)
    && (r.Unknown? ==> p[|p| - 1] == r.name && !Known(t, r.name))
    && (r.Circular? ==> r.path == ancestors + p && p[|p| - 1] in r.path[..|r.path| - 1])
  }

  lemma {:induction false} ErrorsAreReal(names: seq<Name>, t: Table, ancestors: seq<Name>)
    requires !ExpandEach(names, t, ancestors).Ok?
    ensures exists p :: Blames(t, names, ancestors, ExpandEach(names, t, ancestors), p)
    decreases t.Keys - Members(ancestors), |names|
  {
    var n, r := names[0], ExpandEach(names, t, ancestors);
    if !Known(t, n) || n in ancestors {
      assert (ancestors + [n])[..|ancestors|] == ancestors;
      assert Blames(t, names, ancestors, r, [n]);
    } else if t[n].Aggregate? && !ExpandEach(t[n].members, t, ancestors + [n]).Ok? {
      Descend(t, ancestors, n);
      ErrorsAreReal(t[n].members, t, ancestors + [n]);
      var p :| Blames(t, t[n].members, ancestors + [n], r, p);
      ConsPath(t, n, p);
      assert ancestors + ([n] + p) == (ancestors + [n]) + p;
      assert ([n] + p)[|p|] == p[|p| - 1];
      assert Blames(t, names, ancestors, r, [n] + p);
    } else {
      ErrorsAreReal(names[1..], t, ancestors);
      var p :| Blames(t, names[1..], ancestors, r, p);
      assert Blames(t, names, ancestors, r, p);
    }
  }

  // ---------------------------------------------------------------- the list

  /** The leaves in depth-first order, as often as they are met. */
  function Leaves(names: seq<Name>, t: Table, ancestors: seq<Name>): seq<Name>
    decreases t.Keys - Members(ancestors), |names|
  {
    if names == [] then []
    else
      var n := names[0];
      (if !Known(t, n) || n in ancestors then []
       else if t[n].Aggregate? then
         Descend(t, ancestors, n);
         Leaves(t[n].members, t, ancestors + [n])
       else [n])
      + Leaves(names[1..], t, ancestors)
  }

  /** Nested deduplication equals one deduplication at the end. */
  lemma {:induction false} ExpandIsOneDedupe(names: seq<Name>, t: Table, ancestors: seq<Name>)
    requires ExpandEach(names, t, ancestors).Ok?
    ensures Dedupe(ExpandEach(names, t, ancestors).names) == Dedupe(Leaves(names, t, ancestors))
    decreases t.Keys - Members(ancestors), |names|
  {
    if names != [] {
      var n := names[0];
      var rest, leaves := ExpandEach(names[1..], t, ancestors).names, Leaves(names[1..], t, ancestors);
      ExpandIsOneDedupe(names[1..], t, ancestors);
      if t[n].Aggregate? {
        Descend(t, ancestors, n);
        var inner := ExpandEach(t[n].members, t, ancestors + [n]).names;
        var below := Leaves(t[n].members, t, ancestors + [n]);
        ExpandIsOneDedupe(t[n].members, t, ancestors + [n]);
        DedupeLeft(inner, rest);
        DedupeLeft(below, rest);
        DedupeRight(below, rest);
        DedupeRight(below, leaves);
        assert Dedupe(Dedupe(inner) + rest) == Dedupe(Dedupe(below) + rest);
      } else {
        DedupeRight([n], rest);
        DedupeRight([n], leaves);
      }
    }
  }

  ghost predicate LeadsTo(t: Table, names: seq<Name>, p: seq<Name>, x: Name) {
    PathFrom(t, names, p) && p[|p| - 1] == x
  }

  lemma {:induction false} LeafHasPath(names: seq<Name>, t: Table, ancestors: seq<Name>, x: Name) returns (p: seq<Name>)
    requires x in Leaves(names, t, ancestors)
    ensures x in t && t[x].Leaf? && LeadsTo(t, names, p, x)
    decreases t.Keys - Members(ancestors), |names|
  {
    var n := names[0];
    if x in Leaves(names[1..], t, ancestors) {
      p := LeafHasPath(names[1..], t, ancestors, x);
    } else if t[n].Aggregate? {
      Descend(t, ancestors, n);
      p := LeafHasPath(t[n].members, t, ancestors + [n], x);
      ConsPath(t, n, p);
      assert ([n] + p)[|p|] == x;
      p := [n] + p;
    } else {
      p := [n];
    }
  }

  lemma {:induction false} PathHasLeaf(names: seq<Name>, t: Table, ancestors: seq<Name>, x: Name, p: seq<Name>)
    requires ExpandEach(names, t, ancestors).Ok? && LeadsTo(t, names, p, x) && x in t && t[x].Leaf?
    ensures x in Leaves(names, t, ancestors)
    decreases t.Keys - Members(ancestors), |names|
  {
    var n := names[0];
    if p[0] != n {
      PathHasLeaf(names[1..], t, ancestors, x, p);
    } else if |p| > 1 {
      TailPath(t, p);
      Descend(t, ancestors, n);
      assert p[1..][|p| - 2] == x;
      PathHasLeaf(t[n].members, t, ancestors + [n], x, p[1..]);
    }
  }

  /** A leaf is listed if and only if a path from the names leads to it. */
  lemma LeavesAreReachable(names: seq<Name>, t: Table, x: Name)
    requires ExpandEach(names, t, []).Ok?
    ensures x in Leaves(names, t, []) <==> x in t && t[x].Leaf? && exists p :: LeadsTo(t, names, p, x)
  {
    if x in Leaves(names, t, []) { var p := LeafHasPath(names, t, [], x); }
    if x in t && t[x].Leaf? && exists p :: LeadsTo(t, names, p, x) {
      var p :| LeadsTo(t, names, p, x);
      PathHasLeaf(names, t, [], x, p);
    }
  }

  /** On success the result is the duplicate-free list of the reachable leaves, in the
      order of their first visit in a depth-first walk. */
  lemma ResultIsTheReachableLeaves(names: seq<Name>, t: Table, x: Name)
    requires ExpandSuites(names, t, []).Ok?
    ensures var r := ExpandSuites(names, t, []).names;
            && r == Dedupe(Leaves(names, t, []))
            && Distinct(r)
            && (x in r <==> x in t && t[x].Leaf? && exists p :: LeadsTo(t, names, p, x))
  {
    ExpandIsOneDedupe(names, t, []);
    DedupeMembers(Leaves(names, t, []));
    LeavesAreReachable(names, t, x);
  }
}
