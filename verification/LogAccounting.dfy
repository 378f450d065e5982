/** What holds in every run of the log batcher: conservation, order, bounds and progress. */
module LogAccounting {
  import opened Prelude
  import opened LogBatcher

  function Sum(s: seq<nat>): nat { if s == [] then 0 else Sum(s[..|s| - 1]) + s[|s| - 1] }

  /** Strictly increasing arrival numbers, all of them already handed out. */
  predicate Ordered(s: seq<Entry>, next: nat) {
    && (forall i :: 0 <= i < |s| ==> s[i].id < next)
    && (forall i, j :: 0 <= i < j < |s| ==> s[i].id < s[j].id)
  }

  /** Nothing offered and no notice is ever unaccounted for. */
  predicate Balanced(c: Core, l: Ledger) {
    l.offered + |l.notices| + l.outside == |l.acked| + |c.queue| + c.dropped && l.outside <= c.dropped
  }

  predicate Reported(c: Core, l: Ledger) { Sum(l.notices) == c.reported <= c.dropped }

  predicate Bounded(c: Core) { c.bytes == Size(c.queue) && 1 <= c.maxBatch <= MAX_BATCH_LINES }

  predicate Accounted(s: State) {
    && Balanced(s.core, s.ledger)
    && Reported(s.core, s.ledger)
    && Bounded(s.core)
    && Ordered(s.ledger.acked + s.core.queue, s.ledger.nextId)
  }

  // ---------------------------------------------------------------- order

  lemma OrderedDrop(a: seq<Entry>, q: seq<Entry>, d: nat, next: nat)
    requires d <= |q| && Ordered(a + q, next)
    ensures Ordered(a + q[d..], next)
  {
    var s, t := a + q, a + q[d..];
    forall i | 0 <= i < |t| ensures t[i] == s[if i < |a| then i else i + d] {}
  }

  lemma OrderedPush(s: seq<Entry>, e: Entry)
    requires Ordered(s, e.id)
    ensures Ordered(s + [e], e.id + 1)
  {
  }

  lemma OrderedTrim(a: seq<Entry>, q: seq<Entry>, next: nat)
    requires Ordered(a + q, next)
    ensures Ordered(a + Trim(q), next)
  {
    TrimIsSuffix(q);
    OrderedDrop(a, q, |q| - |Trim(q)|, next);
  }

  // ---------------------------------------------------------------- one event

  lemma OfferAccounted(s: State, ev: Event)
    requires ev.Offer? && Accounted(s)
    ensures Accounted(Step(s, ev))
  {
    var a, q, e := s.ledger.acked, s.core.queue, Entry(s.ledger.nextId, ev.source, ev.size, 0);
    OrderedPush(a + q, e);
    if Allowed(s.core, ev.source, ev.now) {
      assert a + (q + [e]) == a + q + [e];
      OrderedTrim(a, q + [e], e.id + 1);
    }
  }

  /** The state as it is when a flush has added its notice and has not sent anything yet. */
  function Noted(s: State, size: nat): State {
    Step(s, Flush(None, size, OtherFailure))
  }

  lemma NotedAccounted(s: State, size: nat)
    requires Accounted(s)
    ensures Accounted(Noted(s, size)) && Noted(s, size).core == AfterNoteDrops(s.core, s.ledger.nextId, size)
    ensures Noted(s, size).ledger.acked == s.ledger.acked
  {
    var c, l := s.core, s.ledger;
    assert l.acked + [] == l.acked;
    if c.dropped > c.reported {
      var e := Entry(l.nextId, "agent", size, c.dropped - c.reported);
      SizeAppend(c.queue, [e]);
      assert (l.notices + [e.notice])[..|l.notices|] == l.notices;
      assert l.acked + (c.queue + [e]) == l.acked + c.queue + [e];
      OrderedPush(l.acked + c.queue, e);
    }
  }

  lemma AnswerAccounted(s: State, config: Config, answer: Answer)
    requires Accounted(s) && s.core.queue != []
    ensures var k := BatchSize(s.core, config);
      Accounted(State(AfterAnswer(s.core, config, k, answer),
                      s.ledger.(acked := s.ledger.acked + if answer == Accepted then s.core.queue[..k] else [])))
  {
    var c, l, k := s.core, s.ledger, BatchSize(s.core, config);
    assert c.queue[..k] + c.queue[k..] == c.queue;
    match answer
    case Accepted =>
      assert l.acked + c.queue[..k] + c.queue[k..] == l.acked + c.queue;
    case TooLarge =>
      assert l.acked + [] == l.acked;
      OrderedDrop(l.acked, c.queue, k, l.nextId);
      OrderedTrim(l.acked, c.queue, l.nextId);
    case OtherFailure =>
      assert l.acked + [] == l.acked;
      OrderedTrim(l.acked, c.queue, l.nextId);
  }

  lemma FlushAccounted(s: State, ev: Event)
    requires ev.Flush? && Accounted(s)
    ensures Accounted(Step(s, ev))
  {
    var n := Noted(s, ev.noticeSize);
    NotedAccounted(s, ev.noticeSize);
    if ev.config.Some? && n.core.queue != [] {
      AnswerAccounted(n, ev.config.value, ev.answer);
    } else {
      assert n.core.queue == [] ==> n.core.queue[..0] == [];
      assert n.ledger.acked + [] == n.ledger.acked;
    }
  }

  lemma StepAccounted(s: State, ev: Event)
    requires Accounted(s)
    ensures Accounted(Step(s, ev))
  {
    match ev
    case Offer(_, _, _) => OfferAccounted(s, ev);
    case Flush(_, _, _) => FlushAccounted(s, ev);
    case ChannelFull =>
    case Discard =>
      OrderedDrop(s.ledger.acked, s.core.queue, |s.core.queue|, s.ledger.nextId);
      assert s.core.queue[|s.core.queue|..] == [];
  }

  /**
   * In every run: offered lines plus notices equal accepted plus queued plus dropped by the
   * batcher; accepted lines followed by queued ones are in strict arrival order; the byte counter
   * is the sum of the queued sizes; the notices add up to what was reported; the batch size stays
   * within 1..=200.
   */
  lemma {:induction false} RunAccounted(s: State, evs: seq<Event>)
    requires Accounted(s)
    ensures Accounted(Run(s, evs))
    decreases |evs|
  {
    if evs != [] {
      StepAccounted(s, evs[0]);
      RunAccounted(Step(s, evs[0]), evs[1..]);
    }
  }

  lemma EveryRunIsAccounted(evs: seq<Event>)
    ensures Accounted(Run(INITIAL, evs))
  {
    assert Accounted(INITIAL);
    RunAccounted(INITIAL, evs);
  }

  /** The event puts a failed batch back into the queue. */
  predicate Requeues(s: State, ev: Event) {
    && ev.Flush? && ev.config.Some?
    && var n := AfterNoteDrops(s.core, s.ledger.nextId, ev.noticeSize);
       n.queue != [] && (ev.answer == OtherFailure || (ev.answer == TooLarge && BatchSize(n, ev.config.value) > 1))
  }

  /** Both queue ceilings hold after every admitted line and every re-queue. */
  lemma CeilingsHold(s: State, ev: Event)
    requires (ev.Offer? && Allowed(s.core, ev.source, ev.now)) || Requeues(s, ev)
    ensures UnderCeilings(Step(s, ev).core.queue)
  {
    if ev.Offer? {
      TrimIsSuffix(s.core.queue + [Entry(s.ledger.nextId, ev.source, ev.size, 0)]);
    } else {
      TrimIsSuffix(AfterNoteDrops(s.core, s.ledger.nextId, ev.noticeSize).queue);
    }
  }

  // ---------------------------------------------------------------- progress under 413

  /** How many 413 answers a batch size survives before a batch of one is dropped. */
  function Patience(maxBatch: nat): (n: nat)
    ensures n >= 1
  {
    if maxBatch <= 1 then 1 else 1 + Patience(maxBatch / 2)
  }

  lemma {:induction false} PatienceMonotone(a: nat, b: nat)
    requires a <= b
    ensures Patience(a) <= Patience(b)
  {
    if a > 1 {
      PatienceMonotone(a / 2, b / 2);
    }
  }

  lemma EightIsEnough(maxBatch: nat)
    requires maxBatch <= MAX_BATCH_LINES
    ensures Patience(maxBatch) <= 8
  {
    PatienceMonotone(maxBatch, 200);
    assert Patience(1) == 1 && Patience(3) == 2 && Patience(6) == 3 && Patience(12) == 4;
    assert Patience(25) == 5 && Patience(50) == 6;
    assert Patience(100) == 7;
  }

  predicate Queued(s: State, id: nat) { !Absent(s.core.queue, id) }

  predicate AtHead(s: State, id: nat) { s.core.queue != [] && s.core.queue[0].id == id }

  /** Every flush of the run was configured and answered 413. */
  predicate All413(evs: seq<Event>) {
    forall i :: 0 <= i < |evs| ==> evs[i].Flush? ==> evs[i].config.Some? && evs[i].answer == TooLarge
  }

  function Flushes(evs: seq<Event>): nat
    decreases |evs|
  {
    if evs == [] then 0 else (if evs[0].Flush? then 1 else 0) + Flushes(evs[1..])
  }

  predicate Absent(q: seq<Entry>, id: nat) { forall i :: 0 <= i < |q| ==> q[i].id != id }

  lemma AbsentTrim(q: seq<Entry>, id: nat)
    requires Absent(q, id)
    ensures Absent(Trim(q), id)
  {
    TrimIsSuffix(q);
  }

  /** A line that is no longer queued never comes back. */
  lemma GoneStaysGone(s: State, ev: Event, id: nat)
    requires id < s.ledger.nextId && Absent(s.core.queue, id)
    ensures Absent(Step(s, ev).core.queue, id) && id < Step(s, ev).ledger.nextId
  {
    match ev
    case Offer(_, _, _) =>
      AbsentTrim(s.core.queue + [Entry(s.ledger.nextId, ev.source, ev.size, 0)], id);
    case Flush(config, size, answer) =>
      var n := AfterNoteDrops(s.core, s.ledger.nextId, size);
      assert Absent(n.queue, id);
      AbsentTrim(n.queue, id);
    case ChannelFull =>
    case Discard =>
  }

  /** A suffix either still starts with the old head or has lost it for good. */
  lemma HeadOfSuffix(q: seq<Entry>, d: nat, next: nat)
    requires q != [] && d <= |q| && Ordered(q, next)
    ensures d == 0 ==> q[d..] == q
    ensures d > 0 ==> Absent(q[d..], q[0].id)
  {
  }

  /** One 413 either removes the head of the queue or at least halves the batch size. */
  lemma Halving(s: State, ev: Event, id: nat)
    requires Accounted(s) && AtHead(s, id) && ev.Flush? && ev.config.Some? && ev.answer == TooLarge
    ensures var s' := Step(s, ev);
      !Queued(s', id) || (AtHead(s', id) && s.core.maxBatch > 1 && s'.core.maxBatch <= s.core.maxBatch / 2)
  {
    var n := Noted(s, ev.noticeSize);
    NotedAccounted(s, ev.noticeSize);
    var c, k := n.core, BatchSize(n.core, ev.config.value);
    assert AtHead(n, id);
    QueueOrdered(n);
    if k <= 1 {
      HeadOfSuffix(c.queue, k, n.ledger.nextId);
    } else {
      TrimIsSuffix(c.queue);
      HeadOfSuffix(c.queue, |c.queue| - |Trim(c.queue)|, n.ledger.nextId);
    }
  }

  /** Offers and full channels leave the batch size alone and the head in place or gone. */
  lemma OtherEvents(s: State, ev: Event, id: nat)
    requires Accounted(s) && AtHead(s, id) && !ev.Flush?
    ensures var s' := Step(s, ev);
      !Queued(s', id) || (AtHead(s', id) && s'.core.maxBatch == s.core.maxBatch)
  {
    if ev.Offer? && Allowed(s.core, ev.source, ev.now) {
      var e := Entry(s.ledger.nextId, ev.source, ev.size, 0);
      var q := s.core.queue + [e];
      QueueOrdered(s);
      OrderedPush(s.core.queue, e);
      TrimIsSuffix(q);
      HeadOfSuffix(q, |q| - |Trim(q)|, e.id + 1);
    }
  }

  lemma QueueOrdered(s: State)
    requires Accounted(s)
    ensures Ordered(s.core.queue, s.ledger.nextId)
  {
    var a, q := s.ledger.acked, s.core.queue;
    assert forall i :: 0 <= i < |q| ==> q[i] == (a + q)[|a| + i];
  }

  /** While every answer is 413, `Patience(maxBatch)` flushes always rid the queue of its head. */
  lemma {:induction false} HeadLeaves(s: State, evs: seq<Event>, id: nat)
    requires Accounted(s) && All413(evs) && id < s.ledger.nextId
    requires !Queued(s, id) || (AtHead(s, id) && Flushes(evs) >= Patience(s.core.maxBatch))
    ensures !Queued(Run(s, evs), id)
    decreases |evs|
  {
    if evs != [] {
      var s' := Step(s, evs[0]);
      StepAccounted(s, evs[0]);
      if !Queued(s, id) {
        GoneStaysGone(s, evs[0], id);
      } else if evs[0].Flush? {
        Halving(s, evs[0], id);
        if Queued(s', id) {
          PatienceMonotone(s'.core.maxBatch, s.core.maxBatch / 2);
        }
      } else {
        OtherEvents(s, evs[0], id);
      }
      HeadLeaves(s', evs[1..], id);
    }
  }

  /** Eight consecutive 413 answers free the head of the queue, from any state of any run. */
  lemma EightRefusalsFreeTheHead(before: seq<Event>, evs: seq<Event>, id: nat)
    requires AtHead(Run(INITIAL, before), id) && All413(evs) && Flushes(evs) >= 8
    ensures !Queued(Run(Run(INITIAL, before), evs), id)
  {
    var s := Run(INITIAL, before);
    EveryRunIsAccounted(before);
    EightIsEnough(s.core.maxBatch);
    assert (s.ledger.acked + s.core.queue)[|s.ledger.acked|] == s.core.queue[0];
    HeadLeaves(s, evs, id);
  }
}
