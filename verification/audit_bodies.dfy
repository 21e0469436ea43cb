/** The request-body table of the audit store (src/audit/store.ts): one write transaction
    with expiry, duplicates, an aggregate byte budget and eviction of the oldest. */
module AuditBodies {
  import opened Wrappers

  type Time = int
  datatype Key = Key(session: nat, request: nat)

  /** `capturedAt` is compared as text: its rank in the order of the stored strings. */
  datatype Row = Row(capturedAt: Time, expiresAt: Time, byteLength: nat, sha: nat, body: nat)

  type Table = map<Key, Row>

  /** `bodyLength` and `shaMatches`: what the bytes that came with the metadata say. */
  datatype Input = Input(
    key: Key, capturedAt: Time, capturedMs: Option<Time>, byteLength: int, sha: nat, body: nat, bodyLength: nat,
        shaMatches: bool)
  datatype Limits = Limits(retentionSeconds: int, maxTotalBytes: int)
  datatype Result = Attached(byteLength: nat, sha: nat) | InvalidCapture | Capacity | RangeError

  // ---------------------------------------------------------------- the eviction order

  /** `ORDER BY captured_at, session_id, request_id`. */
  predicate Before(t: Table, a: Key, b: Key)
    requires a in t && b in t
  {
    || t[a].capturedAt < t[b].capturedAt
    || (t[a].capturedAt == t[b].capturedAt
        && (a.session < b.session || (a.session == b.session && a.request < b.request)))
  }

  ghost predicate IsOldest(t: Table, k: Key) {
    k in t && forall j | j in t && j != k :: Before(t, k, j)
  }

  lemma {:induction false} HasOldest(t: Table)
    requires t != map[]
    ensures exists k :: IsOldest(t, k)
    decreases |t|
  {
    var x :| x in t;
    var u := t - {x};
    assert forall j | j in t && j != x :: j in u;
    if u == map[] {
      assert IsOldest(t, x);
    } else {
      HasOldest(u);
      var y :| IsOldest(u, y);
      assert IsOldest(t, if Before(t, x, y) then x else y);
    }
  }

  ghost function Oldest(t: Table): (k: Key)
    requires t != map[]
    ensures IsOldest(t, k)
  {
    HasOldest(t);
    var k :| IsOldest(t, k);
    k
  }

  lemma OldestIsUnique(t: Table, k: Key)
    requires IsOldest(t, k)
    ensures t != map[] && Oldest(t) == k
  {
  }

  /** The rows from the oldest to the newest. */
  ghost function Order(t: Table): seq<Key>
    decreases |t|
  {
    if t == map[] then [] else [Oldest(t)] + Order(t - {Oldest(t)})
  }

  lemma {:induction false} OrderListsRows(t: Table)
    ensures forall k :: k in Order(t) <==> k in t
    decreases |t|
  {
    if t != map[] { OrderListsRows(t - {Oldest(t)}); }
  }

  /** `Order` lists every row once, each before the younger ones. */
  lemma {:induction false} OrderIsSorted(t: Table, i: nat, j: nat)
    requires i < j < |Order(t)|
    ensures Order(t)[i] in t && Order(t)[j] in t && Before(t, Order(t)[i], Order(t)[j])
    decreases |t|
  {
    var u := t - {Oldest(t)};
    OrderRest(t, j);
    if i == 0 {
      OrderListsRows(u);
    } else {
      OrderRest(t, i);
      OrderIsSorted(u, i - 1, j - 1);
    }
  }

  lemma OrderRest(t: Table, i: nat)
    requires 0 < i < |Order(t)|
    ensures t != map[] && i - 1 < |Order(t - {Oldest(t)})| && Order(t)[i] == Order(t - {Oldest(t)})[i - 1]
    ensures Order(t)[0] == Oldest(t) && Order(t)[i] in Order(t - {Oldest(t)})
  {
  }

  // ---------------------------------------------------------------- totals

  /** `SUM(byte_length)`. */
  ghost function Total(t: Table): nat
    decreases |t|
  {
    if t == map[] then 0 else t[Oldest(t)].byteLength + Total(t - {Oldest(t)})
  }

  function Sum(t: Table, keys: seq<Key>): nat {
    if keys == [] then 0
    else (if keys[0] in t then t[keys[0]].byteLength else 0) + Sum(t, keys[1..])
  }

  /** Any row counts with exactly its bytes. */
  lemma {:induction false} TotalRemove(t: Table, k: Key)
    requires k in t
    ensures Total(t) == t[k].byteLength + Total(t - {k})
    decreases |t|
  {
    var m := Oldest(t);
    if k != m {
      var u := t - {k};
      assert IsOldest(u, m);
      OldestIsUnique(u, m);
      TotalRemove(t - {m}, k);
      assert (t - {m}) - {k} == u - {m};
    }
  }

  lemma TotalInsert(t: Table, k: Key, r: Row)
    requires k !in t
    ensures Total(t[k := r]) == Total(t) + r.byteLength
  {
    assert t[k := r] - {k} == t;
    TotalRemove(t[k := r], k);
  }

  lemma {:induction false} SumSame(t: Table, u: Table, keys: seq<Key>)
    requires forall k | k in keys :: (k in t <==> k in u) && (k in t ==> u[k] == t[k])
    ensures Sum(t, keys) == Sum(u, keys)
  {
    if keys != [] { SumSame(t, u, keys[1..]); }
  }

  /** The rows `keys` and no others are gone. */
  function Without(t: Table, keys: seq<Key>): Table {
    map k | k in t && k !in keys :: t[k]
  }

  /** Deleting the `n` oldest rows frees exactly their bytes. */
  lemma {:induction false} TotalDrop(t: Table, n: nat)
    requires n <= |Order(t)|
    ensures Total(Without(t, Order(t)[..n])) + Sum(t, Order(t)[..n]) == Total(t)
    decreases n
  {
    if n == 0 {
      assert Without(t, Order(t)[..0]) == t;
    } else {
      var k := Oldest(t);
      var u := t - {k};
      var rest := Order(u)[..n - 1];
      assert Order(t)[..n] == [k] + rest && ([k] + rest)[1..] == rest;
      TotalDrop(u, n - 1);
      OrderListsRows(u);
      forall j | j in rest ensures j in u { assert j in Order(u); }
      SumSame(t, u, rest);
      assert Without(t, [k] + rest) == Without(u, rest);
    }
  }

  lemma {:induction false} TotalSubset(t: Table, u: Table)
    requires forall k | k in u :: k in t && t[k] == u[k]
    ensures Total(u) <= Total(t)
    decreases |t|
  {
    if t != map[] {
      var k := Oldest(t);
      TotalSubset(t - {k}, u - {k});
      if k in u { TotalRemove(u, k); } else { assert u - {k} == u; }
    } else {
      assert u == map[];
    }
  }

  // ---------------------------------------------------------------- the write transaction

  /** `DELETE ... WHERE expires_at <= now`. */
  function Expire(t: Table, now: Time): Table {
    map k | k in t && t[k].expiresAt > now :: t[k]
  }

  /** The eviction loop. */
  ghost function Evict(t: Table, overflow: int): Table
    decreases |t|
  {
    if overflow <= 0 || t == map[] then t else Evict(t - {Oldest(t)}, overflow - t[Oldest(t)].byteLength)
  }

  predicate CaptureOk(i: Input) {
    0 <= i.byteLength && i.byteLength == i.bodyLength && i.shaMatches && i.capturedMs.Some?
  }

  predicate LimitsOk(l: Limits) {
    0 < l.retentionSeconds && 0 < l.maxTotalBytes
  }

  function NewRow(i: Input, l: Limits): Row
    requires CaptureOk(i)
  {
    Row(i.capturedAt, i.capturedMs.value + l.retentionSeconds * 1000, i.byteLength, i.sha, i.body)
  }

  predicate Fits(e: Table, i: Input, l: Limits) {
    CaptureOk(i) && LimitsOk(l) && i.key !in e && i.byteLength <= l.maxTotalBytes
  }

  /** A write whose key is taken. */
  function Repeated(r: Row, i: Input): Result {
    if r.byteLength == i.byteLength && r.sha == i.sha then Attached(i.byteLength, i.sha) else InvalidCapture
  }

  ghost function Store(t: Table, now: Time, i: Input, l: Limits): (Result, Table) {
    if !CaptureOk(i) then (InvalidCapture, t)
    else if !LimitsOk(l) then (RangeError, t)
    else
      var e := Expire(t, now);
      if i.key in e then (Repeated(e[i.key], i), e)
      else if i.byteLength > l.maxTotalBytes then (Capacity, e)
      else (Attached(i.byteLength, i.sha), Evict(e, Total(e) + i.byteLength - l.maxTotalBytes)[i.key := NewRow(i, l)])
  }

  // ---------------------------------------------------------------- what eviction takes

  /** How many rows the loop deletes. */
  ghost function Cut(t: Table, overflow: int): nat
    decreases |t|
  {
    if overflow <= 0 || t == map[] then 0 else 1 + Cut(t - {Oldest(t)}, overflow - t[Oldest(t)].byteLength)
  }

  lemma {:induction false} EvictIsPrefix(t: Table, overflow: int)
    ensures Cut(t, overflow) <= |Order(t)|
    ensures Evict(t, overflow) == Without(t, Order(t)[..Cut(t, overflow)])
    decreases |t|
  {
    var n := Cut(t, overflow);
    if n == 0 {
      WithoutNone(t);
    } else {
      var k := Oldest(t);
      var rest := Order(t - {k});
      assert Order(t) == [k] + rest;
      EvictIsPrefix(t - {k}, overflow - t[k].byteLength);
      PrefixOfCons(k, rest, n);
      WithoutCons(t, k, rest[..n - 1]);
    }
  }

  lemma PrefixOfCons(k: Key, rest: seq<Key>, n: nat)
    requires 0 < n <= |rest| + 1
    ensures ([k] + rest)[..n] == [k] + rest[..n - 1]
  {
  }

  lemma WithoutNone(t: Table)
    ensures Without(t, Order(t)[..0]) == t
  {
    assert Order(t)[..0] == [];
  }

  lemma WithoutCons(t: Table, k: Key, keys: seq<Key>)
    ensures Without(t, [k] + keys) == Without(t - {k}, keys)
  {
    assert forall j :: j in [k] + keys <==> j == k || j in keys;
  }

  lemma {:induction false} CutIsShortest(t: Table, overflow: int, m: nat)
    requires m <= Cut(t, overflow) <= |Order(t)|
    ensures m < Cut(t, overflow) ==> Sum(t, Order(t)[..m]) < overflow
    ensures m == Cut(t, overflow) && overflow <= Total(t) ==> overflow <= Sum(t, Order(t)[..m])
    decreases |t|
  {
    if m > 0 {
      PrefixSum(t, m);
      CutIsShortest(t - {Oldest(t)}, overflow - t[Oldest(t)].byteLength, m - 1);
    }
  }

  /** The deleted rows are a prefix of the order; it frees the overflow whenever deleting
      everything would; and no shorter prefix does. */
  lemma EvictIsShortestPrefix(t: Table, overflow: int)
    ensures var n := Cut(t, overflow);
            && n <= |Order(t)|
            && Evict(t, overflow) == Without(t, Order(t)[..n])
            && (overflow <= Total(t) ==> overflow <= Sum(t, Order(t)[..n]))
            && (forall m | 0 <= m < n :: Sum(t, Order(t)[..m]) < overflow)
  {
    EvictIsPrefix(t, overflow);
    CutIsShortest(t, overflow, Cut(t, overflow));
    forall m | 0 <= m < Cut(t, overflow) ensures Sum(t, Order(t)[..m]) < overflow { CutIsShortest(t, overflow, m); }
  }

  lemma PrefixSum(t: Table, m: nat)
    requires t != map[] && 0 < m <= |Order(t)|
    ensures Sum(t, Order(t)[..m]) == t[Oldest(t)].byteLength + Sum(t - {Oldest(t)}, Order(t - {Oldest(t)})[..m - 1])
  {
    var k := Oldest(t);
    var u, rest := t - {k}, Order(t - {k})[..m - 1];
    assert Order(t)[..m] == [k] + rest && ([k] + rest)[1..] == rest;
    OrderListsRows(u);
    forall j | j in rest ensures j in u { assert j in Order(u); }
    SumSame(t, u, rest);
  }

  /** An inserting write stays within the budget; what it evicts of the unexpired rows is
      the shortest prefix, oldest first, that makes the body fit; every other unexpired row
      stays as it is. */
  lemma InsertEvictsShortestPrefix(t: Table, now: Time, i: Input, l: Limits)
    requires Fits(Expire(t, now), i, l)
    ensures var e := Expire(t, now);
            var overflow := Total(e) + i.byteLength - l.maxTotalBytes;
            var n := Cut(e, overflow);
            var (result, u) := Store(t, now, i, l);
            && n <= |Order(e)|
            && u == Without(e, Order(e)[..n])[i.key := NewRow(i, l)]
            && Total(u) == Total(e) - Sum(e, Order(e)[..n]) + i.byteLength
            && Total(u) <= l.maxTotalBytes
            && (forall m | 0 <= m < n :: Total(e) - Sum(e, Order(e)[..m]) + i.byteLength > l.maxTotalBytes)
  {
    var e := Expire(t, now);
    var overflow := Total(e) + i.byteLength - l.maxTotalBytes;
    EvictIsShortestPrefix(e, overflow);
    InsertTotal(e, Cut(e, overflow), i, l);
  }

  lemma InsertTotal(e: Table, n: nat, i: Input, l: Limits)
    requires Fits(e, i, l) && n <= |Order(e)|
    ensures Total(Without(e, Order(e)[..n])[i.key := NewRow(i, l)]) == Total(e) - Sum(e, Order(e)[..n]) + i.byteLength
  {
    TotalDrop(e, n);
    TotalInsert(Without(e, Order(e)[..n]), i.key, NewRow(i, l));
  }

  /** Whatever is evicted is older than whatever stays. */
  lemma EvictedAreOlder(t: Table, n: nat, a: Key, b: Key)
    requires n <= |Order(t)| && a in Order(t)[..n] && b in Without(t, Order(t)[..n])
    ensures a in t && Before(t, a, b)
  {
    OrderListsRows(t);
    var i :| 0 <= i < n && Order(t)[..n][i] == a;
    assert b in Order(t);
    var j :| 0 <= j < |Order(t)| && Order(t)[j] == b;
    assert forall m | 0 <= m < n :: Order(t)[..n][m] == Order(t)[m] && Order(t)[m] in Order(t)[..n];
    OrderIsSorted(t, i, j);
  }

  /** Anything but an inserting write changes nothing beyond expiry. */
  lemma OtherWritesChangeNothing(t: Table, now: Time, i: Input, l: Limits)
    requires !Fits(Expire(t, now), i, l)
    ensures Store(t, now, i, l).1 == (if CaptureOk(i) && LimitsOk(l) then Expire(t, now) else t)
    ensures Store(t, now, i, l).0.Attached? ==>
              i.key in t && t[i.key].byteLength == i.byteLength && t[i.key].sha == i.sha
  {
  }

  /** What is answered: the body itself is judged first, then the limits, then a row that has
      not expired under its key, and the size last. */
  lemma ResultIsExact(t: Table, now: Time, i: Input, l: Limits)
    ensures var sound := 0 <= i.byteLength && i.byteLength == i.bodyLength && i.shaMatches && i.capturedMs.Some?;
            var limited := 0 < l.retentionSeconds && 0 < l.maxTotalBytes;
            var taken := i.key in t && now < t[i.key].expiresAt;
            var same := taken && t[i.key].byteLength == i.byteLength && t[i.key].sha == i.sha;
            var r := Store(t, now, i, l).0;
            && (r == InvalidCapture <==> !sound || (limited && taken && !same))
            && (r == RangeError <==> sound && !limited)
            && (r == Capacity <==> sound && limited && !taken && l.maxTotalBytes < i.byteLength)
            && (r.Attached? <==> sound && limited && (same || (!taken && i.byteLength <= l.maxTotalBytes)))
            && (r.Attached? ==> r.byteLength == i.bodyLength && r.sha == i.sha)
  {
  }

  /** Repeating a write that was attached reports the same and changes nothing beyond
      expiry, as long as its row has not expired; a different body under its key is refused. */
  lemma RepeatedWriteIsIdempotent(t: Table, now: Time, i: Input, l: Limits, now': Time, j: Input)
    requires Store(t, now, i, l).0.Attached? && CaptureOk(j) && j.key == i.key
    requires var u := Store(t, now, i, l).1; i.key in u && u[i.key].expiresAt > now'
    ensures var u := Store(t, now, i, l).1;
            && Store(u, now', j, l).1 == Expire(u, now')
            && Store(u, now', j, l).0 ==
                (if j.byteLength == i.byteLength && j.sha == i.sha then Store(t, now, i, l).0 else InvalidCapture)
  {
  }

  /** A fetch: the expired rows go first. */
  function Fetch(t: Table, now: Time, k: Key): (r: (Option<Row>, Table)) {
    var e := Expire(t, now);
    (if k in e then Some(e[k]) else None, e)
  }

  /** A body that an insertion attached is fetched, with what came with it, at every time
      before its capture plus the retention, and at no later time. */
  lemma StoredBodyIsReadBack(t: Table, now: Time, i: Input, l: Limits, now': Time)
    requires Fits(Expire(t, now), i, l)
    ensures var r := Fetch(Store(t, now, i, l).1, now', i.key).0;
            && (r.Some? <==> now' < i.capturedMs.value + l.retentionSeconds * 1000)
            && (r.Some? ==>
                  && r.value.body == i.body && r.value.sha == i.sha && r.value.byteLength == i.bodyLength
                  && r.value.capturedAt == i.capturedAt
                  && r.value.expiresAt == i.capturedMs.value + l.retentionSeconds * 1000)
  {
  }

  /** A fetch takes no body away from a later fetch. */
  lemma FetchesDoNotDisturb(t: Table, now: Time, k: Key, now': Time, k': Key)
    requires now <= now'
    ensures Fetch(Fetch(t, now, k).1, now', k') == Fetch(t, now', k')
  {
    assert Expire(Expire(t, now), now') == Expire(t, now');
  }

  ghost function StoreAll(t: Table, writes: seq<(Time, Input)>, l: Limits): Table
    decreases |writes|
  {
    if writes == [] then t else StoreAll(Store(t, writes[0].0, writes[0].1, l).1, writes[1..], l)
  }

  /** Under one limit the budget holds after any number of writes. */
  lemma {:induction false} BudgetHolds(t: Table, writes: seq<(Time, Input)>, l: Limits)
    requires Total(t) <= l.maxTotalBytes
    ensures Total(StoreAll(t, writes, l)) <= l.maxTotalBytes
    decreases |writes|
  {
    if writes != [] {
      var now, i := writes[0].0, writes[0].1;
      TotalSubset(t, Expire(t, now));
      if Fits(Expire(t, now), i, l) { InsertEvictsShortestPrefix(t, now, i, l); }
      BudgetHolds(Store(t, now, i, l).1, writes[1..], l);
    }
  }

  // ---------------------------------------------------------------- the transaction as it runs

  class BodyStore {
    var rows: Table

    constructor ()
      ensures rows == map[]
    {
      rows := map[];
    }

    /** The eviction query. */
    method Candidates()
      returns (keys: seq<Key>)
      ensures keys == Order(rows)
    {
      keys := [];
      var rest := rows;
      while rest != map[]
        invariant keys + Order(rest) == Order(rows)
        decreases |rest|
      {
        HasOldest(rest);
        var k :| k in rest && forall j | j in rest && j != k :: Before(rest, k, j);
        OldestIsUnique(rest, k);
        assert keys + Order(rest) == (keys + [k]) + Order(rest - {k});
        keys := keys + [k];
        rest := rest - {k};
      }
      assert keys + Order(rest) == keys;
    }

    method TotalBytes()
      returns (total: nat)
      ensures total == Total(rows)
    {
      total := 0;
      var rest := rows;
      while rest != map[]
        invariant total + Total(rest) == Total(rows)
        decreases |rest|
      {
        var k :| k in rest;
        TotalRemove(rest, k);
        total := total + rest[k].byteLength;
        rest := rest - {k};
      }
    }

    method EvictOldest(overflow: int)
      modifies this
      ensures rows == Evict(old(rows), overflow)
    {
      var left := overflow;
      var candidates := Candidates();
      var i := 0;
      while i < |candidates| && left > 0
        invariant 0 <= i <= |candidates| && candidates[i..] == Order(rows)
        invariant Evict(rows, left) == Evict(old(rows), overflow)
      {
        var c := candidates[i];
        assert candidates[i..][0] == c && candidates[i..][1..] == candidates[i + 1..];
        assert Order(rows)[1..] == Order(rows - {Oldest(rows)});
        left := left - rows[c].byteLength;
        rows := rows - {c};
        i := i + 1;
      }
      if i == |candidates| { assert Order(rows) == []; }
    }

    method StoreRequestBody(now: Time, i: Input, l: Limits)
      returns (result: Result)
      modifies this
      ensures (result, rows) == Store(old(rows), now, i, l)
    {
      if !CaptureOk(i) { return InvalidCapture; }
      if !LimitsOk(l) { return RangeError; }
      rows := Expire(rows, now);
      if i.key in rows {
        var existing := rows[i.key];
        if existing.byteLength == i.byteLength && existing.sha == i.sha { return Attached(i.byteLength, i.sha); }
        return InvalidCapture;
      }
      if i.byteLength > l.maxTotalBytes { return Capacity; }
      var total := TotalBytes();
      EvictOldest(total + i.byteLength - l.maxTotalBytes);
      rows := rows[i.key := NewRow(i, l)];
      result := Attached(i.byteLength, i.sha);
    }

    method GetRequestBody(now: Time, k: Key)
      returns (row: Option<Row>)
      modifies this
      ensures (row, rows) == Fetch(old(rows), now, k)
    {
      rows := Expire(rows, now);
      row := None;
      if k in rows { row := Some(rows[k]); }
    }
  }
}
