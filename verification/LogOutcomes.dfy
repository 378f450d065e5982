/** What one event of the log batcher does to the lines, and how rates and batch sizes move over runs. */
module LogOutcomes {
  import opened Prelude
  import opened LogBatcher
  import opened LogAccounting

  // ---------------------------------------------------------------- ceilings and batches

  /** `r` is what is left of `q` once no more than necessary has been dropped from its front. */
  predicate LeastDropped(q: seq<Entry>, r: seq<Entry>) {
    && |r| <= |q| && r == q[|q| - |r|..] && UnderCeilings(r)
    && (|r| < |q| ==> !UnderCeilings(q[|q| - |r| - 1..]))
  }

  lemma TrimDropsLeast(q: seq<Entry>)
    ensures LeastDropped(q, Trim(q)) && (UnderCeilings(q) ==> Trim(q) == q)
  {
    TrimIsSuffix(q);
    if |Trim(q)| < |q| {
      TrimIsLongest(q, |q| - |Trim(q)| - 1);
    }
  }

  /** `k` entries fill one batch: they fit, unless it is a single entry, and one more would be too many. */
  predicate FillsBatch(q: seq<Entry>, k: nat, limit: nat, maxBytes: nat) {
    && 0 < k <= |q| && k <= limit
    && (k > 1 ==> BATCH_ENVELOPE_BYTES + Size(q[..k]) <= maxBytes)
    && (k < limit && k < |q| ==> BATCH_ENVELOPE_BYTES + Size(q[..k + 1]) > maxBytes)
  }

  lemma SizeNext(q: seq<Entry>, n: nat)
    requires n < |q|
    ensures Size(q[..n + 1]) == Size(q[..n]) + q[n].size
  {
    SizeAppend(q[..n], [q[n]]);
    assert q[..n + 1] == q[..n] + [q[n]];
  }

  lemma {:induction false} BatchEndFills(q: seq<Entry>, n: nat, limit: nat, maxBytes: nat)
    requires n <= |q| && n <= limit && q != [] && limit > 0
    requires n > 1 ==> BATCH_ENVELOPE_BYTES + Size(q[..n]) <= maxBytes
    ensures FillsBatch(q, BatchEnd(q, n, BATCH_ENVELOPE_BYTES + Size(q[..n]), limit, maxBytes), limit, maxBytes)
    decreases |q| - n
  {
    if n < limit && n < |q| {
      SizeNext(q, n);
      if n == 0 || BATCH_ENVELOPE_BYTES + Size(q[..n]) + q[n].size <= maxBytes {
        BatchEndFills(q, n + 1, limit, maxBytes);
      }
    }
  }

  // ---------------------------------------------------------------- one flush

  /** The queue once a flush has reported the drops so far. */
  function NotedQueue(s: State, size: nat): seq<Entry> {
    s.core.queue + if s.core.dropped > s.core.reported
                   then [Entry(s.ledger.nextId, "agent", size, s.core.dropped - s.core.reported)] else []
  }

  function Limit(c: Core, config: Config): nat { Max(Min(c.maxBatch, config.maxBatch), 1) }

  function ByteLimit(config: Config): nat { Min(Max(config.maxBatchBytes, 1024), MAX_BATCH_BYTES) }

  /** How many entries the flush ships. */
  function Shipped(s: State, config: Config, size: nat): nat { BatchSize(Noted(s, size).core, config) }

  lemma NotedIs(s: State, size: nat)
    requires Accounted(s)
    ensures Noted(s, size).core.queue == NotedQueue(s, size) && Noted(s, size).core == AfterNoteDrops(s.core, s.ledger.nextId, size)
    ensures Noted(s, size).core.(queue := [], bytes := 0, reported := 0) == s.core.(queue := [], bytes := 0, reported := 0)
    ensures Noted(s, size).core.reported == s.core.dropped
  {
    NotedAccounted(s, size);
  }

  /** A flush ships as much as the line and byte limits let into one batch. */
  lemma FlushFillsBatch(s: State, config: Config, size: nat)
    requires Accounted(s) && NotedQueue(s, size) != []
    ensures FillsBatch(NotedQueue(s, size), Shipped(s, config, size), Limit(s.core, config), ByteLimit(config))
  {
    NotedIs(s, size);
    var q := NotedQueue(s, size);
    assert q[..0] == [];
    BatchEndFills(q, 0, Limit(s.core, config), ByteLimit(config));
  }

  /** Whatever is answered, the drops so far are reported first; an empty queue or no configuration ends it there. */
  lemma FlushWithoutPost(s: State, ev: Event)
    requires Accounted(s) && ev.Flush? && (ev.config.None? || NotedQueue(s, ev.noticeSize) == [])
    ensures var t := Step(s, ev);
      && t.core.queue == NotedQueue(s, ev.noticeSize) && t.ledger.acked == s.ledger.acked && t.core.dropped == s.core.dropped
      && t.core.reported == s.core.dropped && t.core.maxBatch == s.core.maxBatch && t.core.successes == s.core.successes
  {
    NotedIs(s, ev.noticeSize);
    if ev.config.Some? {
      assert NotedQueue(s, ev.noticeSize)[..Shipped(s, ev.config.value, ev.noticeSize)] == [];
    }
    assert s.ledger.acked + [] == s.ledger.acked;
  }

  /** An accepted batch, and it alone, is acknowledged; the rest stays queued and nothing is dropped. */
  lemma AcceptedIsAcked(s: State, ev: Event)
    requires Accounted(s) && ev.Flush? && ev.config.Some? && NotedQueue(s, ev.noticeSize) != [] && ev.answer == Accepted
    ensures var t, q, k := Step(s, ev), NotedQueue(s, ev.noticeSize), Shipped(s, ev.config.value, ev.noticeSize);
      && t.ledger.acked == s.ledger.acked + q[..k] && t.core.queue == q[k..] && t.core.dropped == s.core.dropped
      && t.core.reported == s.core.dropped
  {
    NotedIs(s, ev.noticeSize);
  }

  /** The core after a POST, and the acknowledgements, told from the noted core. */
  lemma PostIs(s: State, ev: Event)
    requires Accounted(s) && ev.Flush? && ev.config.Some? && NotedQueue(s, ev.noticeSize) != []
    ensures var n, k := Noted(s, ev.noticeSize).core, Shipped(s, ev.config.value, ev.noticeSize);
      && 0 < k <= |n.queue| && Step(s, ev).core == AfterAnswer(n, ev.config.value, k, ev.answer)
      && (ev.answer != Accepted ==> Step(s, ev).ledger.acked == s.ledger.acked)
  {
    NotedIs(s, ev.noticeSize);
    assert s.ledger.acked + [] == s.ledger.acked;
  }

  lemma FailedAnswer(c: Core, config: Config, k: nat, answer: Answer)
    requires k <= |c.queue| && (answer == OtherFailure || (answer == TooLarge && k > 1))
    ensures var t := AfterAnswer(c, config, k, answer);
      && LeastDropped(c.queue, t.queue) && t.dropped == c.dropped + |c.queue| - |t.queue| && t.reported == c.reported
      && (UnderCeilings(c.queue) ==> t.queue == c.queue)
      && (if answer == OtherFailure then t.maxBatch == c.maxBatch && t.successes == c.successes
          else t.maxBatch == Max(Limit(c, config) / 2, 1) && t.successes == 0)
  {
    TrimDropsLeast(c.queue);
  }

  /**
   * A failed batch is kept: nothing is acknowledged, and only what the ceilings force out of the
   * front of the queue is dropped, one count each. A failure other than 413 leaves the batch size alone.
   */
  lemma FailureKeepsBatch(s: State, ev: Event)
    requires Accounted(s) && ev.Flush? && ev.config.Some? && NotedQueue(s, ev.noticeSize) != []
    requires ev.answer == OtherFailure || (ev.answer == TooLarge && Shipped(s, ev.config.value, ev.noticeSize) > 1)
    ensures var t, q := Step(s, ev), NotedQueue(s, ev.noticeSize);
      && t.ledger.acked == s.ledger.acked && LeastDropped(q, t.core.queue)
      && t.core.dropped == s.core.dropped + |q| - |t.core.queue| && t.core.reported == s.core.dropped
      && (UnderCeilings(q) ==> t.core.queue == q && t.core.dropped == s.core.dropped)
      && (if ev.answer == OtherFailure then t.core.maxBatch == s.core.maxBatch && t.core.successes == s.core.successes
          else t.core.maxBatch == Max(Limit(s.core, ev.config.value) / 2, 1) && t.core.successes == 0)
  {
    NotedIs(s, ev.noticeSize);
    PostIs(s, ev);
    FailedAnswer(Noted(s, ev.noticeSize).core, ev.config.value, Shipped(s, ev.config.value, ev.noticeSize), ev.answer);
  }

  /** A single line the control plane refuses as too large is given up and counted; nothing else is. */
  lemma OversizedLineIsDropped(s: State, ev: Event)
    requires Accounted(s) && ev.Flush? && ev.config.Some? && NotedQueue(s, ev.noticeSize) != []
    requires ev.answer == TooLarge && Shipped(s, ev.config.value, ev.noticeSize) == 1
    ensures var t, q := Step(s, ev), NotedQueue(s, ev.noticeSize);
      && t.ledger.acked == s.ledger.acked && t.core.queue == q[1..] && t.core.dropped == s.core.dropped + 1
      && t.core.maxBatch == s.core.maxBatch && t.core.successes == 0
  {
    NotedIs(s, ev.noticeSize);
    assert s.ledger.acked + [] == s.ledger.acked;
  }

  /** An admitted line joins the end of the queue and pushes out only what it must; a refused one is counted. */
  lemma OfferOutcome(s: State, ev: Event)
    requires Accounted(s) && ev.Offer?
    ensures var t, q := Step(s, ev), s.core.queue + [Entry(s.ledger.nextId, ev.source, ev.size, 0)];
      && t.ledger.acked == s.ledger.acked && t.core.maxBatch == s.core.maxBatch && t.core.successes == s.core.successes
      && if Allowed(s.core, ev.source, ev.now)
         then LeastDropped(q, t.core.queue) && t.core.dropped == s.core.dropped + |q| - |t.core.queue|
         else t.core.queue == s.core.queue && t.core.dropped == s.core.dropped + 1
  {
    TrimDropsLeast(s.core.queue + [Entry(s.ledger.nextId, ev.source, ev.size, 0)]);
  }

  // ---------------------------------------------------------------- the rate of one source

  /** The time of an event that admits a line of `source`. */
  function Admission(c: Core, ev: Event, source: string): seq<int> {
    if ev.Offer? && ev.source == source && Allowed(c, source, ev.now) then [ev.now] else []
  }

  /** The times at which a run admits lines of `source`. */
  function Admissions(s: State, evs: seq<Event>, source: string): seq<int>
    decreases |evs|
  {
    if evs == [] then [] else Admission(s.core, evs[0], source) + Admissions(Step(s, evs[0]), evs[1..], source)
  }

  /** The clock of the offers never runs backwards. */
  predicate Clocked(evs: seq<Event>, from: int)
    decreases |evs|
  {
    evs == [] || (if evs[0].Offer? then from <= evs[0].now && Clocked(evs[1..], evs[0].now) else Clocked(evs[1..], from))
  }

  /** No more than two windows' worth of lines lies within one window's length. */
  predicate Spread(log: seq<int>) { forall i :: 0 <= i && i + 2 * RATE_LIMIT < |log| ==> log[i + 2 * RATE_LIMIT] - log[i] >= RATE_WINDOW_MS }

  /** The bucket counts the admissions of its window, each after all those of earlier windows. */
  predicate Rated(c: Core, source: string, log: seq<int>, clock: int) {
    if source !in c.buckets then log == [] else
    var (start, n) := c.buckets[source];
    && n <= RATE_LIMIT && n <= |log| && start <= clock
    && (forall i :: |log| - n <= i < |log| ==> start <= log[i] < start + RATE_WINDOW_MS)
    && (forall i :: 0 <= i < |log| - n ==> log[i] < start)
    && (forall i :: 0 <= i < |log| - n - RATE_LIMIT ==> log[i] + RATE_WINDOW_MS <= start)
  }

  lemma OtherEventsKeepRate(s: State, ev: Event, source: string)
    requires !(ev.Offer? && ev.source == source)
    ensures source in s.core.buckets <==> source in Step(s, ev).core.buckets
    ensures source in s.core.buckets ==> Step(s, ev).core.buckets[source] == s.core.buckets[source]
  {
  }

  lemma OfferKeepsRate(s: State, ev: Event, log: seq<int>, clock: int)
    requires ev.Offer? && clock <= ev.now && Rated(s.core, ev.source, log, clock) && Spread(log)
    ensures var log' := if Allowed(s.core, ev.source, ev.now) then log + [ev.now] else log;
      Rated(Step(s, ev).core, ev.source, log', ev.now) && Spread(log')
  {
  }

  function Later(ev: Event, clock: int): int { if ev.Offer? then ev.now else clock }

  lemma RateStep(s: State, ev: Event, source: string, log: seq<int>, clock: int)
    requires Rated(s.core, source, log, clock) && Spread(log) && (ev.Offer? ==> clock <= ev.now)
    ensures var log' := log + Admission(s.core, ev, source); Rated(Step(s, ev).core, source, log', Later(ev, clock)) && Spread(log')
  {
    if ev.Offer? && ev.source == source {
      OfferKeepsRate(s, ev, log, clock);
    } else {
      OtherEventsKeepRate(s, ev, source);
    }
    assert log + [] == log;
  }

  function LastOffer(evs: seq<Event>, from: int): int
    decreases |evs|
  {
    if evs == [] then from else LastOffer(evs[1..], Later(evs[0], from))
  }

  lemma AdmissionsCons(s: State, evs: seq<Event>, source: string, log: seq<int>)
    requires evs != []
    ensures log + Admissions(s, evs, source) == log + Admission(s.core, evs[0], source) + Admissions(Step(s, evs[0]), evs[1..], source)
  {
  }

  /** What a run leaves in the bucket, told by the times it admitted. */
  lemma {:induction false} RunIsRated(s: State, evs: seq<Event>, source: string, log: seq<int>, clock: int)
    requires Rated(s.core, source, log, clock) && Spread(log) && Clocked(evs, clock)
    ensures var log' := log + Admissions(s, evs, source); Rated(Run(s, evs).core, source, log', LastOffer(evs, clock)) && Spread(log')
    decreases |evs|
  {
    if evs == [] {
      assert log + [] == log;
    } else {
      RateStep(s, evs[0], source, log, clock);
      RunIsRated(Step(s, evs[0]), evs[1..], source, log + Admission(s.core, evs[0], source), Later(evs[0], clock));
      AdmissionsCons(s, evs, source, log);
    }
  }

  /** In any run no source gets more than twice its budget into any one-second span. */
  lemma SourceRateIsBounded(evs: seq<Event>, source: string, clock: int)
    requires Clocked(evs, clock)
    ensures Spread(Admissions(INITIAL, evs, source))
  {
    RunIsRated(INITIAL, evs, source, [], clock);
    assert [] + Admissions(INITIAL, evs, source) == Admissions(INITIAL, evs, source);
  }

  /** Only a source that got its whole budget within the last second is refused; after a quiet second it never is. */
  lemma RefusedOnlyWhenSpent(s: State, source: string, log: seq<int>, clock: int, now: int)
    requires Rated(s.core, source, log, clock) && clock <= now && !Allowed(s.core, source, now)
    ensures |log| >= RATE_LIMIT && forall i :: |log| - RATE_LIMIT <= i < |log| ==> now - log[i] < RATE_WINDOW_MS
  {
  }

  /** After any run, a refused line's source got its whole budget within the last second. */
  lemma RefusalHasCause(evs: seq<Event>, source: string, clock: int, now: int)
    requires Clocked(evs, clock) && LastOffer(evs, clock) <= now && !Allowed(Run(INITIAL, evs).core, source, now)
    ensures var log := Admissions(INITIAL, evs, source);
      |log| >= RATE_LIMIT && forall i :: |log| - RATE_LIMIT <= i < |log| ==> now - log[i] < RATE_WINDOW_MS
  {
    RunIsRated(INITIAL, evs, source, [], clock);
    assert [] + Admissions(INITIAL, evs, source) == Admissions(INITIAL, evs, source);
    RefusedOnlyWhenSpent(Run(INITIAL, evs), source, Admissions(INITIAL, evs, source), LastOffer(evs, clock), now);
  }

  // ---------------------------------------------------------------- recovery of the batch size

  /** Lines may arrive, and every flush ships something and is accepted. */
  predicate Shipping(s: State, evs: seq<Event>, config: Config)
    decreases |evs|
  {
    evs != [] ==>
      && (evs[0].Offer? || evs[0].ChannelFull? || (evs[0].Flush? && evs[0].config == Some(config) && evs[0].answer == Accepted
                                                   && NotedQueue(s, evs[0].noticeSize) != []))
      && Shipping(Step(s, evs[0]), evs[1..], config)
  }

  function Ceiling(config: Config): nat { Min(Max(config.maxBatch, 1), MAX_BATCH_LINES) }

  lemma AcceptedCounts(s: State, ev: Event, config: Config)
    requires Accounted(s) && ev.Flush? && ev.config == Some(config) && ev.answer == Accepted && NotedQueue(s, ev.noticeSize) != []
    requires s.core.maxBatch < Ceiling(config) && s.core.successes < BATCH_RECOVERY_SUCCESSES
    ensures var t := Step(s, ev).core;
      if s.core.successes + 1 < BATCH_RECOVERY_SUCCESSES then t.maxBatch == s.core.maxBatch && t.successes == s.core.successes + 1
      else t.maxBatch == Min(2 * s.core.maxBatch, Ceiling(config)) && t.successes == 0
  {
    NotedIs(s, ev.noticeSize);
  }

  /** Below the ceiling the streak counts accepted batches, and the twentieth doubles the batch size up to the ceiling. */
  lemma {:induction false} TwentyDouble(s: State, evs: seq<Event>, config: Config)
    requires Accounted(s) && Shipping(s, evs, config) && s.core.maxBatch < Ceiling(config)
    requires s.core.successes < BATCH_RECOVERY_SUCCESSES && s.core.successes + Flushes(evs) <= BATCH_RECOVERY_SUCCESSES
    requires evs != [] && s.core.successes + Flushes(evs) == BATCH_RECOVERY_SUCCESSES ==> evs[|evs| - 1].Flush?
    ensures var t := Run(s, evs).core;
      if s.core.successes + Flushes(evs) < BATCH_RECOVERY_SUCCESSES
      then t.maxBatch == s.core.maxBatch && t.successes == s.core.successes + Flushes(evs)
      else t.maxBatch == Min(2 * s.core.maxBatch, Ceiling(config)) && t.successes == 0
    decreases |evs|
  {
    if evs != [] {
      var t := Step(s, evs[0]);
      StepAccounted(s, evs[0]);
      if evs[0].Flush? {
        AcceptedCounts(s, evs[0], config);
        if s.core.successes + 1 == BATCH_RECOVERY_SUCCESSES {
          NoFlushLeft(evs[1..]);
          assert evs[1..] == [];
        } else {
          TwentyDouble(t, evs[1..], config);
        }
      } else {
        TwentyDouble(t, evs[1..], config);
      }
    }
  }

  lemma {:induction false} NoFlushLeft(evs: seq<Event>)
    requires Flushes(evs) == 0
    ensures forall i :: 0 <= i < |evs| ==> !evs[i].Flush?
  {
    if evs != [] {
      NoFlushLeft(evs[1..]);
    }
  }
}
