/**
 * The TTL key-value store of apps/web/lib/kv.ts. `SqlKv` is the table with its SQL statements:
 * rows outlive their expiry until something overwrites or sweeps them. The reference store is a
 * plain map in which expired keys do not exist. Every run gets the same answers from both, with
 * sweeps inserted anywhere.
 */
module KvStore {
  import opened Prelude
  import Decimal

  /** One row of the `kv` table; no expiry means the key never expires. */
  datatype Row = Row(value: string, expiresAt: Option<int>)

  type Table = map<string, Row>

  predicate Live(row: Row, now: int) { row.expiresAt.None? || row.expiresAt.value > now }

  /** The rows a reader at `now` can see. */
  function View(t: Table, now: int): Table { map k | k in t && Live(t[k], now) :: t[k] }

  function ExpiryFor(exMs: Option<int>, now: int): Option<int> {
    if exMs.None? then None else Some(now + exMs.value)
  }

  // ---------------------------------------------------------------- integers as text

  /** Value of the longest run of digits at the head of `s`, continuing from `acc`. */
  function LeadingDigits(s: string, acc: nat): nat
    decreases |s|
  {
    if s == "" || !('0' <= s[0] <= '9') then acc
    else LeadingDigits(s[1..], acc * 10 + (s[0] - '0') as nat)
  }

  /** `CAST(s AS INTEGER)`: leading white space, an optional sign, then the longest digit prefix. */
  function CastInt(s: string): int
    decreases |s|
  {
    if s == "" then 0
    else if s[0] in " \t\n\r" then CastInt(s[1..])
    else if s[0] == '-' then 0 - LeadingDigits(s[1..], 0)
    else if s[0] == '+' then LeadingDigits(s[1..], 0)
    else LeadingDigits(s, 0)
  }

  lemma {:induction false} LeadingDigitsSnoc(s: string, c: char, acc: nat)
    requires (forall i :: 0 <= i < |s| ==> '0' <= s[i] <= '9') && '0' <= c <= '9'
    ensures LeadingDigits(s + [c], acc) == LeadingDigits(s, acc) * 10 + (c - '0') as nat
    decreases |s|
  {
    if s == "" {
      assert (s + [c])[1..] == "";
    } else {
      assert (s + [c])[1..] == s[1..] + [c];
      LeadingDigitsSnoc(s[1..], c, acc * 10 + (s[0] - '0') as nat);
    }
  }

  lemma {:induction false} LeadingDigitsOfText(digits: seq<nat>)
    requires Decimal.AllDigits(digits)
    ensures LeadingDigits(Decimal.DigitText(digits), 0) == Decimal.Value(digits)
  {
    if digits != [] {
      var init, last := digits[..|digits| - 1], digits[|digits| - 1];
      LeadingDigitsOfText(init);
      LeadingDigitsSnoc(Decimal.DigitText(init), Decimal.DigitChar(last), 0);
    }
  }

  /** Storing a counter as text and casting it back loses nothing. */
  lemma CastIntText(n: int)
    ensures CastInt(Decimal.IntText(n)) == n
  {
    var m: nat := if n < 0 then -n else n;
    Decimal.ValueOfDigits(m);
    LeadingDigitsOfText(Decimal.Digits(m));
    assert Decimal.NatText(m)[0] !in " \t\n\r+-";
    if n < 0 {
      assert Decimal.IntText(n)[1..] == Decimal.NatText(m);
    }
  }

  // ---------------------------------------------------------------- the SQL statements

  function SqlGet(t: Table, k: string, now: int): Option<string> {
    if k in t && Live(t[k], now) then Some(t[k].value) else None
  }

  /** INSERT .. ON CONFLICT DO UPDATE, restricted to expired rows under `nx`; also rowsAffected > 0. */
  function SqlSet(t: Table, k: string, v: string, exMs: Option<int>, nx: bool, now: int): (Table, bool) {
    if k in t && nx && Live(t[k], now) then (t, false) else (t[k := Row(v, ExpiryFor(exMs, now))], true)
  }

  /** DELETE .. WHERE key=? AND value=?: the expiry is not consulted. */
  function SqlCompareDelete(t: Table, k: string, v: string): Table {
    if k in t && t[k].value == v then t - {k} else t
  }

  function SqlIncrBy(t: Table, k: string, delta: int, exMs: Option<int>, now: int): (Table, int) {
    if k !in t || !Live(t[k], now) then (t[k := Row(Decimal.IntText(delta), ExpiryFor(exMs, now))], CastInt(Decimal.IntText(delta)))
    else
      var text := Decimal.IntText(CastInt(t[k].value) + delta);
      (t[k := Row(text, t[k].expiresAt)], CastInt(text))
  }

  function SqlExpire(t: Table, k: string, exMs: int, now: int): Table {
    if k in t && Live(t[k], now) then t[k := t[k].(expiresAt := Some(now + exMs))] else t
  }

  function SqlMget(t: Table, keys: seq<string>, now: int): seq<Option<string>> {
    seq(|keys|, i requires 0 <= i < |keys| => SqlGet(t, keys[i], now))
  }

  /** DELETE .. WHERE expires_at<=?: rows without an expiry never match. */
  function SqlSweep(t: Table, now: int): Table { View(t, now) }

  // ---------------------------------------------------------------- the class

  /** Position of the first occurrence of `k`. */
  function FirstIndex(keys: seq<string>, k: string): (i: nat)
    requires k in keys
    ensures i < |keys| && keys[i] == k && k !in keys[..i]
  {
    if keys[0] == k then 0 else
    assert k in keys[1..];
    var i := FirstIndex(keys[1..], k);
    assert keys[..i + 1] == [keys[0]] + keys[1..][..i];
    i + 1
  }

  class SqlKv {
    var table: Table

    constructor ()
      ensures table == map[]
    {
      table := map[];
    }

    method Get(key: string, now: int) returns (value: Option<string>)
      ensures value.Some? <==> key in View(table, now)
      ensures value.Some? ==> value.value == View(table, now)[key].value
    {
      value := if key in table && Live(table[key], now) then Some(table[key].value) else None;
    }

    method Set(key: string, value: string, exMs: Option<int>, nx: bool, now: int) returns (ok: bool)
      modifies this
      ensures (table, ok) == SqlSet(old(table), key, value, exMs, nx, now)
    {
      var expiresAt := if exMs.Some? then Some(now + exMs.value) else None;
      if key in table && nx && !(table[key].expiresAt.Some? && table[key].expiresAt.value <= now) {
        return false;
      }
      table := table[key := Row(value, expiresAt)];
      ok := true;
    }

    method Del(key: string)
      modifies this
      ensures table == old(table) - {key}
    {
      table := table - {key};
    }

    method CompareDelete(key: string, value: string)
      modifies this
      ensures table == SqlCompareDelete(old(table), key, value)
    {
      if key in table && table[key].value == value {
        table := table - {key};
      }
    }

    method IncrBy(key: string, delta: int, exMs: Option<int>, now: int) returns (n: int)
      modifies this
      ensures (table, n) == SqlIncrBy(old(table), key, delta, exMs, now)
    {
      var inserted := Row(Decimal.IntText(delta), ExpiryFor(exMs, now));
      if key !in table || (table[key].expiresAt.Some? && table[key].expiresAt.value <= now) {
        table := table[key := inserted];
      } else {
        table := table[key := Row(Decimal.IntText(CastInt(table[key].value) + delta), table[key].expiresAt)];
      }
      n := CastInt(table[key].value);
    }

    method Expire(key: string, exMs: int, now: int)
      modifies this
      ensures table == SqlExpire(old(table), key, exMs, now)
    {
      if key in table && (table[key].expiresAt.None? || table[key].expiresAt.value > now) {
        table := table[key := Row(table[key].value, Some(now + exMs))];
      }
    }

    /**
     * One SELECT per 100 keys. Other instances may write between two of them: chunk `c` is read at
     * `nows[c]`, when the table is `tables[c]`. Every position gets what the last chunk that names
     * its key and finds it has read.
     */
    method Mget(keys: seq<string>, tables: seq<Table>, nows: seq<int>) returns (found: seq<Option<string>>)
      requires |tables| == |nows| == Chunks(keys)
      modifies this
      ensures table == if keys == [] then old(table) else tables[Chunks(keys) - 1]
      ensures |found| == |keys|
      ensures forall j :: 0 <= j < |keys| ==> found[j] == LastSeen(keys, keys[j], tables, nows, Chunks(keys))
    {
      var values: map<string, string> := map[];
      ghost var c := 0;
      var i := 0;
      while i < |keys|
        invariant i == 100 * c && c <= Chunks(keys)
        invariant table == if c == 0 then old(table) else tables[c - 1]
        invariant forall k :: LastSeen(keys, k, tables, nows, c) == if k in values then Some(values[k]) else None
      {
        table := tables[i / 100];
        ghost var before := values;
        values := values + ReadChunk(table, Chunk(keys, i / 100), nows[i / 100]);
        ChunkRead(table, Chunk(keys, c), nows[c]);
        i, c := i + 100, c + 1;
      }
      found := seq(|keys|, j requires 0 <= j < |keys| => if keys[j] in values then Some(values[keys[j]]) else None);
    }
  }

  function Chunks(keys: seq<string>): nat { (|keys| + 99) / 100 }

  function Chunk(keys: seq<string>, c: nat): seq<string>
    requires c < Chunks(keys)
  {
    keys[100 * c..Min(100 * c + 100, |keys|)]
  }

  /** SELECT key,value .. WHERE key IN (chunk) AND live. */
  function ReadChunk(t: Table, chunk: seq<string>, now: int): map<string, string> {
    map k | k in chunk && k in t && Live(t[k], now) :: t[k].value
  }

  lemma ChunkRead(t: Table, chunk: seq<string>, now: int)
    ensures forall k :: k in ReadChunk(t, chunk, now) <==> k in chunk && SqlGet(t, k, now).Some?
    ensures forall k :: k in ReadChunk(t, chunk, now) ==> SqlGet(t, k, now) == Some(ReadChunk(t, chunk, now)[k])
  {
  }

  /** The newest value that one of the first `n` chunks naming `k` has found. */
  function LastSeen(keys: seq<string>, k: string, tables: seq<Table>, nows: seq<int>, n: nat): Option<string>
    requires n <= Chunks(keys) && |tables| == |nows| == Chunks(keys)
  {
    if n == 0 then None
    else if k in Chunk(keys, n - 1) && SqlGet(tables[n - 1], k, nows[n - 1]).Some? then SqlGet(tables[n - 1], k, nows[n - 1])
    else LastSeen(keys, k, tables, nows, n - 1)
  }

  lemma {:induction false} ChunkOfFirst(keys: seq<string>, k: string, c: nat)
    requires k in keys && c < Chunks(keys)
    ensures c == FirstIndex(keys, k) / 100 ==> k in Chunk(keys, c)
    ensures k in Chunk(keys, c) ==> FirstIndex(keys, k) / 100 <= c
  {
    var f := FirstIndex(keys, k);
    if c == f / 100 {
      assert Chunk(keys, c)[f - 100 * c] == k;
    }
    if k in Chunk(keys, c) {
      FirstIndexInSlice(keys, 100 * c, Min(100 * c + 100, |keys|), k);
    }
  }

  /** When nobody writes in between, it is what `Get` returns as the first chunk naming the key is read. */
  lemma {:induction false} LastSeenUndisturbed(keys: seq<string>, k: string, t: Table, tables: seq<Table>, nows: seq<int>, n: nat)
    requires k in keys && n <= Chunks(keys) && |tables| == |nows| == Chunks(keys) && Sorted(nows)
    requires forall c :: 0 <= c < |tables| ==> tables[c] == t
    ensures LastSeen(keys, k, tables, nows, n) ==
      if FirstIndex(keys, k) / 100 < n then SqlGet(t, k, nows[FirstIndex(keys, k) / 100]) else None
  {
    if n > 0 {
      LastSeenUndisturbed(keys, k, t, tables, nows, n - 1);
      ChunkOfFirst(keys, k, n - 1);
    }
  }

  lemma FirstIndexInSlice(keys: seq<string>, lo: nat, hi: nat, k: string)
    requires lo <= hi <= |keys| && k in keys[lo..hi]
    ensures k in keys && FirstIndex(keys, k) < hi
  {
    var j :| 0 <= j < hi - lo && keys[lo..hi][j] == k;
    assert keys[lo + j] == k;
  }
}
