/** Facts about sequences that several modules use. */
module Sequences {

  lemma Regroup<T>(a: seq<T>, b: seq<T>, c: seq<T>)
    ensures (a + b) + c == a + (b + c)
  {
  }

  /** `s.map(f)`. */
  function Map<T, R>(f: T -> R, s: seq<T>): (r: seq<R>)
    ensures |r| == |s| && forall i | 0 <= i < |s| :: r[i] == f(s[i])
  {
    seq(|s|, i requires 0 <= i < |s| => f(s[i]))
  }

  lemma MapRest<T, R>(f: T -> R, s: seq<T>)
    requires s != []
    ensures Map(f, s) == [f(s[0])] + Map(f, s[1..])
  {
  }

  lemma MapOne<T, R>(f: T -> R, x: T)
    ensures Map(f, [x]) == [f(x)]
  {
  }

  lemma MapConcat<T, R>(f: T -> R, a: seq<T>, b: seq<T>)
    ensures Map(f, a + b) == Map(f, a) + Map(f, b)
  {
  }

  ghost predicate Distinct<T>(s: seq<T>) {
    forall i, j | 0 <= i < j < |s| :: s[i] != s[j]
  }

  /** First occurrences, in order: what `[...new Set(s)]` gives. */
  function Dedupe<T(==)>(s: seq<T>): seq<T> {
    if s == [] then []
    else
      var before, x := Dedupe(s[..|s| - 1]), s[|s| - 1];
      if x in before then before else before + [x]
  }

  lemma {:induction false} DedupeMembers<T>(s: seq<T>)
    ensures forall x :: x in Dedupe(s) <==> x in s
    ensures Distinct(Dedupe(s))
  {
    if s != [] {
      DedupeMembers(s[..|s| - 1]);
      assert s == s[..|s| - 1] + [s[|s| - 1]];
    }
  }

  lemma DedupeAppend<T>(s: seq<T>, x: T)
    ensures Dedupe(s + [x]) == if x in s then Dedupe(s) else Dedupe(s) + [x]
  {
    assert (s + [x])[..|s|] == s;
    DedupeMembers(s);
  }

  lemma {:induction false} DedupeDistinct<T>(s: seq<T>)
    requires Distinct(s)
    ensures Dedupe(s) == s
  {
    if s != [] {
      var n := |s| - 1;
      DedupeDistinct(s[..n]);
      assert forall i | 0 <= i < n :: s[..n][i] == s[i];
      assert s == s[..n] + [s[n]];
    }
  }

  /** Removing duplicates inside a part first makes no difference. */
  lemma {:induction false} DedupeLeft<T>(a: seq<T>, b: seq<T>)
    ensures Dedupe(Dedupe(a) + b) == Dedupe(a + b)
    decreases |b|
  {
    if b == [] {
      assert Dedupe(a) + b == Dedupe(a) && a + b == a;
      DedupeMembers(a);
      DedupeDistinct(Dedupe(a));
    } else {
      var n := |b| - 1;
      DedupeLeft(a, b[..n]);
      assert (Dedupe(a) + b)[..|Dedupe(a) + b| - 1] == Dedupe(a) + b[..n];
      assert (a + b)[..|a + b| - 1] == a + b[..n];
    }
  }

  lemma {:induction false} DedupeRight<T>(a: seq<T>, b: seq<T>)
    ensures Dedupe(a + Dedupe(b)) == Dedupe(a + b)
    decreases |b|
  {
    if b != [] {
      var n := |b| - 1;
      var before := Dedupe(b[..n]);
      DedupeRight(a, b[..n]);
      DedupeMembers(a + b[..n]);
      DedupeMembers(b[..n]);
      assert (a + b)[..|a + b| - 1] == a + b[..n];
      if b[n] !in before {
        assert (a + (before + [b[n]]))[..|a| + |before|] == a + before;
      }
    }
  }
}
