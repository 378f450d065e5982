/** The key-value table refines a map without expired keys, over every run with a nondecreasing clock. */
module KvRefinement {
  import opened Prelude
  import opened KvStore
  import Decimal

  /** `Mget` is one of its statements: a call with several chunks makes one for each, with any calls in between. */
  datatype Op =
    | Get(key: string)
    | Set(key: string, value: string, exMs: Option<int>, nx: bool)
    | Del(key: string)
    | CompareDelete(key: string, value: string)
    | IncrBy(key: string, delta: int, exMs: Option<int>)
    | Expire(key: string, ttlMs: int)
    | Mget(keys: seq<string>)
    | Sweep

  datatype Reply = Value(value: Option<string>) | Flag(ok: bool) | Number(n: int) | Values(values: seq<Option<string>>) | Unit

  datatype Call = Call(op: Op, now: int)

  /** What the SQL statements do. */
  function Exec(t: Table, c: Call): (Table, Reply) {
    match c.op
    case Get(k) => (t, Value(SqlGet(t, k, c.now)))
    case Set(k, v, ex, nx) => var (t', ok) := SqlSet(t, k, v, ex, nx, c.now); (t', Flag(ok))
    case Del(k) => (t - {k}, Unit)
    case CompareDelete(k, v) => (SqlCompareDelete(t, k, v), Unit)
    case IncrBy(k, d, ex) => var (t', n) := SqlIncrBy(t, k, d, ex, c.now); (t', Number(n))
    case Expire(k, ttl) => (SqlExpire(t, k, ttl, c.now), Unit)
    case Mget(keys) => (t, Values(SqlMget(t, keys, c.now)))
    case Sweep => (SqlSweep(t, c.now), Unit)
  }

  function Lookup(m: Table, k: string): Option<string> { if k in m then Some(m[k].value) else None }

  /**
   * The reference store: `m` holds exactly the keys that exist. No operation looks at an expiry;
   * counters are integers; a sweep does nothing.
   */
  function Reference(m: Table, c: Call): (Table, Reply) {
    match c.op
    case Get(k) => (m, Value(Lookup(m, k)))
    case Set(k, v, ex, nx) =>
      if nx && k in m then (m, Flag(false)) else (m[k := Row(v, ExpiryFor(ex, c.now))], Flag(true))
    case Del(k) => (m - {k}, Unit)
    case CompareDelete(k, v) => (if Lookup(m, k) == Some(v) then m - {k} else m, Unit)
    case IncrBy(k, d, ex) =>
      if k in m then
        var n := CastInt(m[k].value) + d;
        (m[k := m[k].(value := Decimal.IntText(n))], Number(n))
      else (m[k := Row(Decimal.IntText(d), ExpiryFor(ex, c.now))], Number(d))
    case Expire(k, ttl) => (if k in m then m[k := m[k].(expiresAt := Some(c.now + ttl))] else m, Unit)
    case Mget(keys) => (m, Values(seq(|keys|, i requires 0 <= i < |keys| => Lookup(m, keys[i]))))
    case Sweep => (m, Unit)
  }

  /** Time passes in the reference store by dropping what has expired, before and after each call. */
  function ReferenceAt(m: Table, c: Call): (Table, Reply) {
    var (m', r) := Reference(View(m, c.now), c);
    (View(m', c.now), r)
  }

  lemma ViewLater(t: Table, clock: int, now: int)
    requires clock <= now
    ensures View(View(t, clock), now) == View(t, now)
  {
  }

  lemma ViewUpdate(t: Table, k: string, row: Row, now: int)
    ensures View(t[k := row], now) == View(View(t, now)[k := row], now)
  {
  }

  lemma ViewRemove(t: Table, k: string, now: int)
    ensures View(t - {k}, now) == View(View(t, now) - {k}, now)
    ensures k !in View(t, now) ==> View(t - {k}, now) == View(t, now)
  {
  }

  /** The statement's text arithmetic is integer arithmetic. */
  lemma IncrIsAddition(t: Table, k: string, delta: int, exMs: Option<int>, now: int)
    ensures SqlIncrBy(t, k, delta, exMs, now) ==
      if k in t && Live(t[k], now)
      then (t[k := Row(Decimal.IntText(CastInt(t[k].value) + delta), t[k].expiresAt)], CastInt(t[k].value) + delta)
      else (t[k := Row(Decimal.IntText(delta), ExpiryFor(exMs, now))], delta)
  {
    CastIntText(delta);
    CastIntText((if k in t then CastInt(t[k].value) else 0) + delta);
  }

  lemma IncrRefines(t: Table, k: string, delta: int, exMs: Option<int>, now: int)
    ensures var c := Call(IncrBy(k, delta, exMs), now);
      && Exec(t, c).1 == Reference(View(t, now), c).1
      && View(Exec(t, c).0, now) == View(Reference(View(t, now), c).0, now)
  {
    IncrIsAddition(t, k, delta, exMs, now);
    ViewUpdate(t, k, SqlIncrBy(t, k, delta, exMs, now).0[k], now);
  }

  /** One call: same reply, and the table still shows exactly the reference map. */
  lemma StepRefines(t: Table, c: Call)
    ensures Exec(t, c).1 == Reference(View(t, c.now), c).1
    ensures View(Exec(t, c).0, c.now) == View(Reference(View(t, c.now), c).0, c.now)
  {
    ViewLater(t, c.now, c.now);
    match c.op
    case IncrBy(k, d, ex) => IncrRefines(t, k, d, ex, c.now);
    case Mget(keys) => assert SqlMget(t, keys, c.now) == Reference(View(t, c.now), c).1.values;
    case Get(_) =>
    case Set(k, v, ex, nx) => ViewUpdate(t, k, Row(v, ExpiryFor(ex, c.now)), c.now);
    case Del(k) => ViewRemove(t, k, c.now);
    case CompareDelete(k, v) => ViewRemove(t, k, c.now);
    case Expire(k, ttl) =>
      if k in t {
        ViewUpdate(t, k, t[k].(expiresAt := Some(c.now + ttl)), c.now);
      }
    case Sweep =>
  }

  predicate Clocked(calls: seq<Call>, from: int)
    decreases |calls|
  {
    calls == [] || (from <= calls[0].now && Clocked(calls[1..], calls[0].now))
  }

  /** The replies of a run, sweeps excluded. */
  function Replies(t: Table, calls: seq<Call>): seq<Reply>
    decreases |calls|
  {
    if calls == [] then [] else
    var (t', r) := Exec(t, calls[0]);
    (if calls[0].op.Sweep? then [] else [r]) + Replies(t', calls[1..])
  }

  function ReferenceReplies(m: Table, calls: seq<Call>): seq<Reply>
    decreases |calls|
  {
    if calls == [] then [] else
    var (m', r) := ReferenceAt(m, calls[0]);
    (if calls[0].op.Sweep? then [] else [r]) + ReferenceReplies(m', calls[1..])
  }

  /** Every run on the table is answered as by the reference store. */
  lemma {:induction false} TableRefinesMap(t: Table, m: Table, clock: int, calls: seq<Call>)
    requires View(t, clock) == View(m, clock) && Clocked(calls, clock)
    ensures Replies(t, calls) == ReferenceReplies(m, calls)
    decreases |calls|
  {
    if calls != [] {
      var c := calls[0];
      ViewLater(t, clock, c.now);
      ViewLater(m, clock, c.now);
      StepRefines(t, c);
      TableRefinesMap(Exec(t, c).0, ReferenceAt(m, c).0, c.now, calls[1..]);
    }
  }

  function WithoutSweeps(calls: seq<Call>): seq<Call>
    decreases |calls|
  {
    if calls == [] then [] else
    (if calls[0].op.Sweep? then [] else [calls[0]]) + WithoutSweeps(calls[1..])
  }

  /** In the reference store a sweep leaves everything later as it was. */
  lemma {:induction false} ReferenceIgnoresSweeps(m: Table, clock: int, calls: seq<Call>)
    requires Clocked(calls, clock)
    ensures ReferenceReplies(m, calls) == ReferenceReplies(View(m, clock), WithoutSweeps(calls))
    ensures Clocked(WithoutSweeps(calls), clock)
    decreases |calls|
  {
    if calls != [] {
      var c := calls[0];
      ViewLater(m, clock, c.now);
      if c.op.Sweep? {
        assert WithoutSweeps(calls) == WithoutSweeps(calls[1..]);
        ViewLater(m, c.now, c.now);
        ReferenceIgnoresSweeps(View(m, c.now), c.now, calls[1..]);
        EarlierStart(WithoutSweeps(calls), View(m, clock), clock, c.now);
      } else {
        var m' := ReferenceAt(m, c).0;
        ReferenceIgnoresSweeps(m', c.now, calls[1..]);
        ViewLater(Reference(View(m, c.now), c).0, c.now, c.now);
        assert WithoutSweeps(calls)[1..] == WithoutSweeps(calls[1..]);
      }
    }
  }

  /** Dropping expired keys early, at a moment before the first call, changes nothing. */
  lemma {:induction false} EarlierStart(calls: seq<Call>, m: Table, clock: int, now: int)
    requires clock <= now && Clocked(calls, now)
    ensures Clocked(calls, clock) && ReferenceReplies(View(m, now), calls) == ReferenceReplies(m, calls)
  {
    if calls != [] {
      ViewLater(m, now, calls[0].now);
    }
  }

  /** Inserting sweeps at any points of a run changes no reply. */
  lemma SweepsAreInvisible(t: Table, clock: int, calls: seq<Call>)
    requires Clocked(calls, clock)
    ensures Replies(t, calls) == Replies(t, WithoutSweeps(calls))
  {
    ReferenceIgnoresSweeps(t, clock, calls);
    TableRefinesMap(t, t, clock, calls);
    ViewLater(t, clock, clock);
    TableRefinesMap(t, View(t, clock), clock, WithoutSweeps(calls));
  }

  function Sum(deltas: seq<int>): int { if deltas == [] then 0 else deltas[0] + Sum(deltas[1..]) }

  function AfterIncrements(t: Table, k: string, deltas: seq<int>, now: int): Table
    decreases |deltas|
  {
    if deltas == [] then t else AfterIncrements(SqlIncrBy(t, k, deltas[0], None, now).0, k, deltas[1..], now)
  }

  /** One increment of a live key adds to its value and keeps its expiry. */
  lemma IncrementLive(t: Table, k: string, delta: int, now: int)
    requires k in t && Live(t[k], now)
    ensures var t' := SqlIncrBy(t, k, delta, None, now).0;
      && k in t' && t'[k].expiresAt == t[k].expiresAt
      && CastInt(t'[k].value) == CastInt(t[k].value) + delta
  {
    IncrIsAddition(t, k, delta, None, now);
    CastIntText(CastInt(t[k].value) + delta);
  }

  /** Any series of increments of a live key adds up, and none of them moves its expiry. */
  lemma {:induction false} CountersCount(t: Table, k: string, deltas: seq<int>, now: int)
    requires k in t && Live(t[k], now)
    ensures var t' := AfterIncrements(t, k, deltas, now);
      && k in t' && t'[k].expiresAt == t[k].expiresAt
      && CastInt(t'[k].value) == CastInt(t[k].value) + Sum(deltas)
    decreases |deltas|
  {
    if deltas != [] {
      IncrementLive(t, k, deltas[0], now);
      CountersCount(SqlIncrBy(t, k, deltas[0], None, now).0, k, deltas[1..], now);
    }
  }

  // ---------------------------------------------------------------- mget over several chunks

  /** The answer for `k` put together from the replies to the chunks. */
  function Combined(keys: seq<string>, k: string, replies: seq<seq<Option<string>>>, n: nat): Option<string>
    requires n <= Chunks(keys) == |replies| && forall c :: 0 <= c < n ==> |replies[c]| == |Chunk(keys, c)|
  {
    if n == 0 then None
    else if k in Chunk(keys, n - 1) && replies[n - 1][FirstIndex(Chunk(keys, n - 1), k)].Some?
    then replies[n - 1][FirstIndex(Chunk(keys, n - 1), k)]
    else Combined(keys, k, replies, n - 1)
  }

  /** What `mget` answers depends on the tables only through its statements' replies, which every run refines. */
  lemma {:induction false} MgetIsItsChunks(keys: seq<string>, k: string, tables: seq<Table>, nows: seq<int>, replies: seq<seq<Option<string>>>, n: nat)
    requires n <= Chunks(keys) == |replies| == |tables| == |nows|
    requires forall c :: 0 <= c < |replies| ==> |replies[c]| == |Chunk(keys, c)|
    requires forall c :: 0 <= c < |replies| ==> replies[c] == SqlMget(tables[c], Chunk(keys, c), nows[c])
    ensures LastSeen(keys, k, tables, nows, n) == Combined(keys, k, replies, n)
  {
    if n > 0 {
      MgetIsItsChunks(keys, k, tables, nows, replies, n - 1);
      assert replies[n - 1] == SqlMget(tables[n - 1], Chunk(keys, n - 1), nows[n - 1]);
    }
  }

  /** So the reference maps give the same answer, whatever was written between the statements. */
  lemma MgetRefines(keys: seq<string>, k: string, tables: seq<Table>, maps: seq<Table>, nows: seq<int>)
    requires |tables| == |maps| == |nows| == Chunks(keys)
    requires forall c :: 0 <= c < |nows| ==> View(tables[c], nows[c]) == View(maps[c], nows[c])
    ensures LastSeen(keys, k, tables, nows, Chunks(keys)) == LastSeen(keys, k, maps, nows, Chunks(keys))
  {
    LastSeenOfView(keys, k, tables, maps, nows, Chunks(keys));
  }

  lemma {:induction false} LastSeenOfView(keys: seq<string>, k: string, tables: seq<Table>, maps: seq<Table>, nows: seq<int>, n: nat)
    requires |tables| == |maps| == |nows| == Chunks(keys) && n <= Chunks(keys)
    requires forall c :: 0 <= c < |nows| ==> View(tables[c], nows[c]) == View(maps[c], nows[c])
    ensures LastSeen(keys, k, tables, nows, n) == LastSeen(keys, k, maps, nows, n)
  {
    if n > 0 {
      LastSeenOfView(keys, k, tables, maps, nows, n - 1);
      SameGet(tables[n - 1], maps[n - 1], k, nows[n - 1]);
    }
  }

  lemma SameGet(t: Table, m: Table, k: string, now: int)
    requires View(t, now) == View(m, now)
    ensures SqlGet(t, k, now) == SqlGet(m, k, now)
  {
    assert SqlGet(t, k, now).Some? <==> k in View(t, now);
    assert SqlGet(m, k, now).Some? <==> k in View(m, now);
  }
}
