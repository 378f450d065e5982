/**
 * The log batching task of sandbox/supervisor/src/logs.rs: a bounded queue with per-source rate
 * limiting, drop accounting, re-queueing of failed batches, halving of the batch size on 413
 * answers and recovery after a streak of accepted batches.
 */
module LogBatcher {
  import opened Prelude

  const MAX_BATCH_LINES: nat := 200
  const MAX_BATCH_BYTES: nat := 256 * 1024
  const MAX_QUEUE_LINES: nat := 5_000
  const MAX_QUEUE_BYTES: nat := 8 * 1024 * 1024
  const RATE_LIMIT: nat := 200
  const RATE_WINDOW_MS: int := 1_000
  const BATCH_RECOVERY_SUCCESSES: nat := 20
  const BATCH_ENVELOPE_BYTES: nat := 512

  /**
   * One queued line. `id` is its place in arrival order, `size` its encoded size, and `notice`
   * the number of drops it reports when the batcher itself created it.
   */
  datatype Entry = Entry(id: nat, source: string, size: nat, notice: nat)

  datatype Config = Config(maxBatch: nat, maxBatchBytes: nat)

  /** What the control plane answered to one POST. */
  datatype Answer = Accepted | TooLarge | OtherFailure

  /** The fields of the batching task. */
  datatype Core = Core(
    queue: seq<Entry>, bytes: nat, maxBatch: nat, successes: nat, dropped: nat, reported: nat,
    buckets: map<string, (int, nat)>)

  /** What an observer of the whole run has seen so far. */
  datatype Ledger = Ledger(offered: nat, outside: nat, notices: seq<nat>, acked: seq<Entry>, nextId: nat)

  datatype State = State(core: Core, ledger: Ledger)

  datatype Event =
    | Offer(source: string, size: nat, now: int)
    | ChannelFull
    | Flush(config: Option<Config>, noticeSize: nat, answer: Answer)
    | Discard

  const INITIAL := State(Core([], 0, MAX_BATCH_LINES, 0, 0, 0, map[]), Ledger(0, 0, [], [], 0))

  // ---------------------------------------------------------------- the queue

  function Size(q: seq<Entry>): nat { if q == [] then 0 else q[0].size + Size(q[1..]) }

  predicate UnderCeilings(q: seq<Entry>) { |q| <= MAX_QUEUE_LINES && Size(q) <= MAX_QUEUE_BYTES }

  /** The longest suffix under both ceilings: the oldest entries go first. */
  function Trim(q: seq<Entry>): (r: seq<Entry>)
    ensures |r| <= |q|
  {
    if UnderCeilings(q) then q else Trim(q[1..])
  }

  lemma {:induction false} TrimIsSuffix(q: seq<Entry>)
    ensures Trim(q) == q[|q| - |Trim(q)|..] && UnderCeilings(Trim(q))
  {
    if UnderCeilings(q) {
      assert q[0..] == q;
    } else {
      TrimIsSuffix(q[1..]);
      assert q[1..][|q| - 1 - |Trim(q)|..] == q[|q| - |Trim(q)|..];
    }
  }

  lemma {:induction false} TrimIsLongest(q: seq<Entry>, i: nat)
    requires i < |q| - |Trim(q)|
    ensures !UnderCeilings(q[i..])
  {
    if i == 0 {
      assert q[0..] == q;
    } else {
      TrimIsLongest(q[1..], i - 1);
      assert q[1..][i - 1..] == q[i..];
    }
  }

  lemma {:induction false} SizeAppend(a: seq<Entry>, b: seq<Entry>)
    ensures Size(a + b) == Size(a) + Size(b)
  {
    if a == [] {
      assert a + b == b;
    } else {
      assert (a + b)[1..] == a[1..] + b;
      SizeAppend(a[1..], b);
    }
  }

  /** How many entries one batch takes once `n` of them, `bytes` bytes in all, are already in it. */
  function BatchEnd(q: seq<Entry>, n: nat, bytes: nat, maxBatch: nat, maxBytes: nat): (k: nat)
    requires n <= |q|
    ensures n <= k <= |q| && (n <= maxBatch ==> k <= maxBatch)
    ensures n == 0 && q != [] && maxBatch > 0 ==> k > 0
    decreases |q| - n
  {
    if n < maxBatch && n < |q| && (n == 0 || bytes + q[n].size <= maxBytes)
    then BatchEnd(q, n + 1, bytes + q[n].size, maxBatch, maxBytes)
    else n
  }

  lemma BatchEndTakes(q: seq<Entry>, n: nat, bytes: nat, maxBatch: nat, maxBytes: nat)
    requires n < maxBatch && n < |q| && (n == 0 || bytes + q[n].size <= maxBytes)
    ensures BatchEnd(q, n, bytes, maxBatch, maxBytes) == BatchEnd(q, n + 1, bytes + q[n].size, maxBatch, maxBytes)
  {
  }

  lemma HeadMoves(taken: seq<Entry>, queue: seq<Entry>)
    requires queue != []
    ensures (taken + queue)[|taken|] == queue[0]
    ensures taken + queue == taken + [queue[0]] + queue[1..]
  {
  }

  function Clamp(x: nat, lo: nat, hi: nat): nat { Min(Max(x, lo), hi) }

  function EffectiveBatch(c: Core, config: Config): nat { Max(Min(c.maxBatch, config.maxBatch), 1) }

  function BatchSize(c: Core, config: Config): nat {
    BatchEnd(c.queue, 0, BATCH_ENVELOPE_BYTES, EffectiveBatch(c, config), Clamp(config.maxBatchBytes, 1024, MAX_BATCH_BYTES))
  }

  // ---------------------------------------------------------------- one event

  /** The token bucket of `source`: a fixed window of one second holding at most 200 lines. */
  function Bucket(c: Core, source: string, now: int): (int, nat) {
    if source in c.buckets && now - c.buckets[source].0 < RATE_WINDOW_MS then c.buckets[source] else (now, 0)
  }

  function Allowed(c: Core, source: string, now: int): bool { Bucket(c, source, now).1 < RATE_LIMIT }

  function AfterAllow(c: Core, source: string, now: int): Core {
    var b := Bucket(c, source, now);
    c.(buckets := c.buckets[source := if b.1 < RATE_LIMIT then (b.0, b.1 + 1) else b])
  }

  function Trimmed(c: Core): Core {
    var q := Trim(c.queue);
    c.(queue := q, bytes := Size(q), dropped := c.dropped + |c.queue| - |q|)
  }

  function AfterEnqueue(c: Core, e: Entry, now: int): Core {
    var c1 := AfterAllow(c, e.source, now);
    if Allowed(c, e.source, now) then Trimmed(c1.(queue := c1.queue + [e])) else c1.(dropped := c1.dropped + 1)
  }

  function AfterNoteDrops(c: Core, id: nat, size: nat): Core {
    if c.dropped <= c.reported then c
    else c.(queue := c.queue + [Entry(id, "agent", size, c.dropped - c.reported)], bytes := c.bytes + size,
            reported := c.dropped)
  }

  function AfterSuccess(c: Core, ceiling: nat): Core {
    var top := Clamp(ceiling, 1, MAX_BATCH_LINES);
    if c.maxBatch >= top then c.(successes := 0)
    else if c.successes + 1 >= BATCH_RECOVERY_SUCCESSES then c.(successes := 0, maxBatch := Min(2 * c.maxBatch, top))
    else c.(successes := c.successes + 1)
  }

  /** The POST of the first `k` queued entries was answered. */
  function AfterAnswer(c: Core, config: Config, k: nat, answer: Answer): Core
    requires k <= |c.queue|
  {
    var rest := c.queue[k..];
    match answer
    case Accepted => AfterSuccess(c.(queue := rest, bytes := Size(rest)), config.maxBatch)
    case OtherFailure => Trimmed(c)
    case TooLarge =>
      if k <= 1 then c.(queue := rest, bytes := Size(rest), successes := 0, dropped := c.dropped + k)
      else Trimmed(c.(successes := 0, maxBatch := Max(EffectiveBatch(c, config) / 2, 1)))
  }

  function AfterFlush(c: Core, id: nat, config: Option<Config>, noticeSize: nat, answer: Answer): Core {
    var c1 := AfterNoteDrops(c, id, noticeSize);
    if config.None? || c1.queue == [] then c1
    else AfterAnswer(c1, config.value, BatchSize(c1, config.value), answer)
  }

  function Step(s: State, ev: Event): State {
    var c, l := s.core, s.ledger;
    match ev
    case Offer(source, size, now) =>
      State(AfterEnqueue(c, Entry(l.nextId, source, size, 0), now), l.(offered := l.offered + 1, nextId := l.nextId + 1))
    case ChannelFull =>
      State(c.(dropped := c.dropped + 1), l.(outside := l.outside + 1))
    case Discard =>
      State(c.(queue := [], bytes := 0, dropped := c.dropped + |c.queue|), l)
    case Flush(config, size, answer) =>
      var c1 := AfterNoteDrops(c, l.nextId, size);
      var l1 := if c1 == c then l else l.(notices := l.notices + [c.dropped - c.reported], nextId := l.nextId + 1);
      var sent := if config.None? || answer != Accepted then [] else c1.queue[..BatchSize(c1, config.value)];
      State(AfterFlush(c, l.nextId, config, size, answer), l1.(acked := l1.acked + sent))
  }

  function Run(s: State, evs: seq<Event>): State
    decreases |evs|
  {
    if evs == [] then s else Run(Step(s, evs[0]), evs[1..])
  }

  // ---------------------------------------------------------------- the batching loop

  class Batcher {
    var queue: seq<Entry>
    var queueBytes: nat
    var maxBatch: nat
    var successes: nat
    var dropped: nat
    var reportedDropped: nat
    var buckets: map<string, (int, nat)>

    ghost function Value(): Core
      reads this
    {
      Core(queue, queueBytes, maxBatch, successes, dropped, reportedDropped, buckets)
    }

    ghost predicate Valid()
      reads this
    {
      queueBytes == Size(queue) && 1 <= maxBatch <= MAX_BATCH_LINES && reportedDropped <= dropped
    }

    constructor ()
      ensures Valid() && Value() == INITIAL.core
    {
      queue, queueBytes, maxBatch, successes := [], 0, MAX_BATCH_LINES, 0;
      dropped, reportedDropped, buckets := 0, 0, map[];
    }

    method Allow(source: string, now: int) returns (ok: bool)
      modifies this`buckets
      ensures ok == Allowed(old(Value()), source, now)
      ensures Value() == AfterAllow(old(Value()), source, now)
    {
      var bucket := if source in buckets then buckets[source] else (now, 0);
      if now - bucket.0 >= RATE_WINDOW_MS {
        bucket := (now, 0);
      }
      ok := bucket.1 < RATE_LIMIT;
      buckets := buckets[source := if ok then (bucket.0, bucket.1 + 1) else bucket];
    }

    /** Pops the oldest entries until both ceilings hold, counting each. */
    method TrimQueue()
      requires queueBytes == Size(queue)
      modifies this`queue, this`queueBytes, this`dropped
      ensures Value() == Trimmed(old(Value())) && UnderCeilings(queue)
    {
      while |queue| > MAX_QUEUE_LINES || queueBytes > MAX_QUEUE_BYTES
        invariant queueBytes == Size(queue) && |queue| <= |old(queue)|
        invariant Trim(queue) == Trim(old(queue)) && dropped == old(dropped) + |old(queue)| - |queue|
        decreases |queue|
      {
        if queue == [] {
          break;
        }
        assert Trim(queue) == Trim(queue[1..]);
        queueBytes := Max(0, queueBytes - queue[0].size);
        queue := queue[1..];
        dropped := dropped + 1;
      }
      assert Trim(queue) == queue;
    }

    method Enqueue(entry: Entry, now: int)
      requires Valid()
      modifies this
      ensures Valid() && Value() == AfterEnqueue(old(Value()), entry, now)
      ensures Allowed(old(Value()), entry.source, now) ==> UnderCeilings(queue)
    {
      var ok := Allow(entry.source, now);
      if !ok {
        dropped := dropped + 1;
        return;
      }
      SizeAppend(queue, [entry]);
      queue := queue + [entry];
      queueBytes := queueBytes + entry.size;
      TrimQueue();
    }

    /** `id` and `size` are those of the notice about to be built, when there is one. */
    method NoteDrops(id: nat, size: nat)
      requires Valid()
      modifies this
      ensures Valid() && Value() == AfterNoteDrops(old(Value()), id, size)
    {
      if dropped <= reportedDropped {
        return;
      }
      var delta := dropped - reportedDropped;
      reportedDropped := dropped;
      var entry := Entry(id, "agent", size, delta);
      SizeAppend(queue, [entry]);
      queue := queue + [entry];
      queueBytes := queueBytes + size;
    }

    method NoteSuccess(ceiling: nat)
      requires Valid()
      modifies this`successes, this`maxBatch
      ensures Valid() && Value() == AfterSuccess(old(Value()), ceiling)
    {
      var top := Clamp(ceiling, 1, MAX_BATCH_LINES);
      if maxBatch >= top {
        successes := 0;
        return;
      }
      successes := successes + 1;
      if successes >= BATCH_RECOVERY_SUCCESSES {
        successes := 0;
        maxBatch := Min(maxBatch * 2, top);
      }
    }

    /** Puts a failed batch back in front, youngest entry first, then trims to the ceilings. */
    method Requeue(entries: seq<Entry>)
      requires Valid()
      modifies this`queue, this`queueBytes, this`dropped
      ensures Valid() && UnderCeilings(queue)
      ensures Value() == Trimmed(old(Value()).(queue := entries + old(queue)))
    {
      var i := |entries|;
      while i > 0
        invariant 0 <= i <= |entries| && Valid() && dropped == old(dropped)
        invariant queue == entries[i..] + old(queue)
      {
        i := i - 1;
        PushFront(entries[i]);
        assert entries[i..] == [entries[i]] + entries[i + 1..];
      }
      assert entries[0..] == entries;
      TrimQueue();
    }

    method PushFront(entry: Entry)
      requires Valid()
      modifies this`queue, this`queueBytes
      ensures Valid() && queue == [entry] + old(queue)
    {
      queueBytes := queueBytes + entry.size;
      queue := [entry] + queue;
      assert queue[1..] == old(queue);
    }

    /** Takes the oldest entry off the queue and its bytes off the count. */
    method PopFront() returns (entry: Entry)
      requires Valid() && queue != []
      modifies this`queue, this`queueBytes
      ensures Valid() && entry == old(queue)[0] && queue == old(queue)[1..]
    {
      entry := queue[0];
      queueBytes := Max(0, queueBytes - entry.size);
      queue := queue[1..];
    }

    /** The batch-building loop of `flush`: pops the next batch off the queue. */
    method TakeBatch(config: Config) returns (entries: seq<Entry>)
      requires Valid() && queue != []
      modifies this`queue, this`queueBytes
      ensures Valid() && |entries| == BatchSize(old(Value()), config) && 0 < |entries|
      ensures old(queue) == entries + queue
    {
      var limit := Max(Min(maxBatch, config.maxBatch), 1);
      var maxBytes := Clamp(config.maxBatchBytes, 1024, MAX_BATCH_BYTES);
      entries := [];
      var bytes: nat := BATCH_ENVELOPE_BYTES;
      ghost var all, target := queue, BatchSize(Value(), config);
      while |entries| < limit
        invariant Valid() && all == entries + queue && |entries| <= limit
        invariant target == BatchEnd(all, |entries|, bytes, limit, maxBytes)
      {
        if queue == [] {
          break;
        }
        HeadMoves(entries, queue);
        if entries != [] && bytes + queue[0].size > maxBytes {
          break;
        }
        BatchEndTakes(all, |entries|, bytes, limit, maxBytes);
        bytes := bytes + queue[0].size;
        var entry := PopFront();
        entries := entries + [entry];
      }
    }

    /** Ships at most one batch; `false` when it failed. */
    method Flush(config: Option<Config>, id: nat, noticeSize: nat, answer: Answer) returns (ok: bool)
      requires Valid()
      modifies this
      ensures Valid() && Value() == AfterFlush(old(Value()), id, config, noticeSize, answer)
      ensures ok <==> config.None? || AfterNoteDrops(old(Value()), id, noticeSize).queue == [] || answer.Accepted?
    {
      NoteDrops(id, noticeSize);
      if config.None? || queue == [] {
        return true;
      }
      var limit := Max(Min(maxBatch, config.value.maxBatch), 1);
      ghost var noted := Value();
      var entries := TakeBatch(config.value);
      ok := Settle(config.value, limit, entries, answer, noted);
    }

    /** The match on the answer to one POST; `noted` is the batcher as it was before the batch was taken. */
    method Settle(config: Config, limit: nat, entries: seq<Entry>, answer: Answer, ghost noted: Core) returns (ok: bool)
      requires Valid() && noted == Value().(queue := entries + queue, bytes := noted.bytes)
      requires limit == EffectiveBatch(noted, config)
      modifies this
      ensures Valid() && Value() == AfterAnswer(noted, config, |entries|, answer)
      ensures ok == answer.Accepted?
    {
      assert noted.queue[|entries|..] == queue;
      match answer
      case Accepted =>
        NoteSuccess(config.maxBatch);
        ok := true;
      case TooLarge =>
        successes := 0;
        if |entries| <= 1 {
          dropped := dropped + |entries|;
          return false;
        }
        maxBatch := Max(limit / 2, 1);
        Requeue(entries);
        ok := false;
      case OtherFailure =>
        Requeue(entries);
        ok := false;
    }

    /**
     * The shutdown path: ship until the queue is empty or a POST fails; without a configuration
     * count the queue as dropped. `answers[i]` is what the i-th POST would be told, `firstId` the
     * next arrival number. Whatever happens is an ordinary run of the events above.
     */
    method Drain(config: Option<Config>, answers: seq<Answer>, firstId: nat, noticeSize: nat, ghost start: Ledger)
      returns (ghost evs: seq<Event>)
      requires Valid() && |answers| == MAX_QUEUE_LINES + 1 && start.nextId == firstId
      modifies this
      ensures Valid() && Value() == Run(State(old(Value()), start), evs).core
      ensures config.None? ==> queue == [] && dropped == old(dropped) + |old(queue)|
      ensures (config.Some? && |old(queue)| <= MAX_QUEUE_LINES && AllAccepted(answers)) ==> queue == []
    {
      var remaining, id := MAX_QUEUE_LINES + 1, firstId;
      evs := [];
      ghost var s := State(Value(), start);
      while queue != [] && remaining > 0
        invariant Valid() && remaining <= MAX_QUEUE_LINES + 1
        invariant s == Run(State(old(Value()), start), evs) && s.core == Value() && s.ledger.nextId == id
        invariant config.None? ==> Value() == old(Value()) && remaining == MAX_QUEUE_LINES + 1
        invariant |old(queue)| <= MAX_QUEUE_LINES ==> |queue| + Unreported(Value()) <= remaining
        decreases remaining
      {
        remaining := remaining - 1;
        if config.None? {
          dropped := dropped + |queue|;
          queue, queueBytes := [], 0;
          RunSnoc(State(old(Value()), start), evs, Discard);
          evs := evs + [Discard];
          return;
        }
        ghost var ev := Event.Flush(config, noticeSize, answers[MAX_QUEUE_LINES - remaining]);
        var notice := dropped > reportedDropped;
        ghost var before := Value();
        var ok := Flush(config, id, noticeSize, answers[MAX_QUEUE_LINES - remaining]);
        RunSnoc(State(old(Value()), start), evs, ev);
        evs, s := evs + [ev], Step(s, ev);
        if !ok {
          break;
        }
        AcceptedFlushShrinks(before, id, config.value, noticeSize);
        id := if notice then id + 1 else id;
      }
    }
  }

  predicate AllAccepted(answers: seq<Answer>) { forall i :: 0 <= i < |answers| ==> answers[i] == Accepted }

  /** 1 when the next flush will add a drop notice. */
  function Unreported(c: Core): nat { if c.dropped > c.reported then 1 else 0 }

  /** An accepted batch removes at least one entry, and its notice cannot be followed by another. */
  lemma AcceptedFlushShrinks(c: Core, id: nat, config: Config, size: nat)
    requires c.queue != [] && c.reported <= c.dropped
    ensures var c' := AfterFlush(c, id, Some(config), size, Accepted);
      |c'.queue| + Unreported(c') < |c.queue| + Unreported(c) && c'.reported == c'.dropped
  {
  }

  lemma {:induction false} RunSnoc(s: State, evs: seq<Event>, ev: Event)
    ensures Run(s, evs + [ev]) == Step(Run(s, evs), ev)
    decreases |evs|
  {
    if evs == [] {
      assert evs + [ev] == [ev] && [ev][1..] == [];
    } else {
      assert (evs + [ev])[1..] == evs[1..] + [ev];
      RunSnoc(Step(s, evs[0]), evs[1..], ev);
    }
  }
}
