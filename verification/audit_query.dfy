/** The bounded form of `queryAuditLogs` (src/audit/store.ts): it walks the matching rows
    backwards, stops at the limit and reverses, and so returns the newest rows of the
    unbounded result, in the same order. */
module AuditQuery {

  datatype Entry = Entry(timestamp: int, id: nat, rest: nat)

  /** `ORDER BY timestamp, id`; ids are unique. */
  predicate Older(a: Entry, b: Entry) {
    a.timestamp < b.timestamp || (a.timestamp == b.timestamp && a.id < b.id)
  }

  ghost predicate Ascending(s: seq<Entry>) {
    forall i, j | 0 <= i < j < |s| :: Older(s[i], s[j])
  }

  ghost predicate Descending(s: seq<Entry>) {
    forall i, j | 0 <= i < j < |s| :: Older(s[j], s[i])
  }

  /** `rows.reverse()`. */
  function Reverse(rows: seq<Entry>): seq<Entry> {
    seq(|rows|, i requires 0 <= i < |rows| => rows[|rows| - 1 - i])
  }

  lemma {:induction false} SortedIsUnique(a: seq<Entry>, b: seq<Entry>)
    requires Ascending(a) && Ascending(b) && forall e :: e in a <==> e in b
    ensures a == b
  {
    if a == [] {
      assert forall k | 0 <= k < |b| :: b[k] in b;
    } else {
      assert a[0] in a && a[0] in b;
      var i :| 0 <= i < |b| && b[i] == a[0];
      assert b[0] in b && b[0] in a;
      var j :| 0 <= j < |a| && a[j] == b[0];
      FirstIsFirst(a, b, i, j);
      forall e ensures e in a[1..] <==> e in b[1..] { TailHolds(a, e); TailHolds(b, e); }
      SortedIsUnique(a[1..], b[1..]);
      assert a == [a[0]] + a[1..] && b == [b[0]] + b[1..];
    }
  }

  lemma FirstIsFirst(a: seq<Entry>, b: seq<Entry>, i: nat, j: nat)
    requires Ascending(a) && Ascending(b) && i < |b| && j < |a| && b[i] == a[0] && a[j] == b[0]
    ensures a[0] == b[0]
  {
    assert i > 0 ==> Older(b[0], b[i]);
    assert j > 0 ==> Older(a[0], a[j]);
  }

  lemma TailHolds(a: seq<Entry>, e: Entry)
    requires Ascending(a) && a != []
    ensures e in a[1..] <==> e in a && e != a[0]
  {
    if e in a[1..] {
      var i :| 0 <= i < |a[1..]| && a[1..][i] == e;
      assert a[i + 1] == e && Older(a[0], a[i + 1]);
    }
  }

  lemma DescendingReversed(asc: seq<Entry>, desc: seq<Entry>)
    requires Ascending(asc) && Descending(desc) && forall e :: e in asc <==> e in desc
    ensures Reverse(desc) == asc
  {
    var r := Reverse(desc);
    forall e ensures e in r <==> e in asc {
      if e in r {
        var k :| 0 <= k < |r| && r[k] == e;
        assert desc[|desc| - 1 - k] in desc;
      }
      if e in asc {
        assert e in desc;
        var k :| 0 <= k < |desc| && desc[k] == e;
        assert r[|desc| - 1 - k] == e;
      }
    }
    SortedIsUnique(r, asc);
  }

  /** `LIMIT` on the descending listing. */
  function Bounded(desc: seq<Entry>, limit: nat): seq<Entry> {
    Reverse(if limit < |desc| then desc[..limit] else desc)
  }

  /** `asc` and `desc` are what the engine lists for the same filter. The bounded query
      returns exactly the last `limit` rows of the unbounded one. */
  lemma BoundedIsNewestOfUnbounded(asc: seq<Entry>, desc: seq<Entry>, limit: nat)
    requires 0 < limit && Ascending(asc) && Descending(desc) && forall e :: e in asc <==> e in desc
    ensures Bounded(desc, limit) == asc[if limit < |asc| then |asc| - limit else 0..]
    ensures Ascending(Bounded(desc, limit))
  {
    DescendingReversed(asc, desc);
    var top := if limit < |desc| then desc[..limit] else desc;
    var n := |asc| - |top|;
    forall k | 0 <= k < |top| ensures Reverse(top)[k] == asc[n..][k] {
      assert asc[n + k] == Reverse(desc)[n + k];
    }
    assert Reverse(top) == asc[n..];
  }
}
