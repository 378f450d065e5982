/**
 * The promise-chained queue in front of the local libSQL client
 * (apps/web/lib/db-local-client.ts). Every call captures the current `tail` promise as its gate
 * and replaces `tail` by a promise of its own; nothing else orders the calls. Promises are
 * numbered; promise 0 is the initial `Promise.resolve()`.
 */
module LocalClientQueue {
  import opened Prelude

  /** A queued client operation, or a transaction that stays open until it is released. */
  datatype Kind = Operation | Transaction

  /**
   * `Waiting` for the gate; `Running` the operation, or opening the transaction; `Holding` an open
   * transaction; `Released` when the operation settled either way, the transaction failed to open,
   * or was committed, rolled back or closed; `Settled` once the ticket's own tail promise resolved.
   * `failed` is what the caller's own promise was told.
   */
  datatype Phase = Waiting | Running | Holding | Released | Settled

  datatype Ticket = Ticket(kind: Kind, gate: nat, done: nat, phase: Phase, failed: bool)

  /** `started` records the tickets in the order their work reached the client. */
  datatype Queue = Queue(tail: nat, resolved: set<nat>, tickets: seq<Ticket>, started: seq<nat>)

  const EMPTY := Queue(0, {0}, [], [])

  datatype Event =
    | Call(kind: Kind)
    | Start(i: nat)
    | Finish(i: nat, ok: bool)
    | Opened(i: nat, ok: bool)
    | Release(i: nat)
    | Propagate(i: nat)

  function SetPhase(q: Queue, i: nat, phase: Phase): Queue
    requires i < |q.tickets|
  {
    q.(tickets := q.tickets[i := q.tickets[i].(phase := phase)])
  }

  function SetFailed(q: Queue, i: nat, failed: bool): Queue
    requires i < |q.tickets|
  {
    q.(tickets := q.tickets[i := q.tickets[i].(failed := failed)])
  }

  /** A turn of the event loop; a turn that is not enabled changes nothing. */
  function Step(q: Queue, ev: Event): Queue {
    match ev
    case Call(kind) =>
      var done := |q.tickets| + 1;
      q.(tail := done, tickets := q.tickets + [Ticket(kind, q.tail, done, Waiting, false)])
    case Start(i) =>
      if i < |q.tickets| && q.tickets[i].phase == Waiting && q.tickets[i].gate in q.resolved
      then SetPhase(q, i, Running).(started := q.started + [i]) else q
    case Finish(i, ok) =>
      if i < |q.tickets| && q.tickets[i].kind == Operation && q.tickets[i].phase == Running
      then SetFailed(SetPhase(q, i, Released), i, !ok) else q
    case Opened(i, ok) =>
      if i < |q.tickets| && q.tickets[i].kind == Transaction && q.tickets[i].phase == Running
      then SetFailed(SetPhase(q, i, if ok then Holding else Released), i, !ok) else q
    case Release(i) =>
      if i < |q.tickets| && q.tickets[i].phase == Holding then SetPhase(q, i, Released) else q
    case Propagate(i) =>
      if i < |q.tickets| && q.tickets[i].phase == Released && q.tickets[i].gate in q.resolved
      then SetPhase(q, i, Settled).(resolved := q.resolved + {q.tickets[i].done}) else q
  }

  function Run(q: Queue, evs: seq<Event>): Queue
    decreases |evs|
  {
    if evs == [] then q else Run(Step(q, evs[0]), evs[1..])
  }

  class LocalClient {
    var tail: nat
    var resolved: set<nat>
    var tickets: seq<Ticket>
    ghost var started: seq<nat>

    ghost function Value(): Queue
      reads this
    {
      Queue(tail, resolved, tickets, started)
    }

    constructor ()
      ensures Value() == EMPTY
    {
      tail, resolved, tickets, started := 0, {0}, [], [];
    }

    /** Any queued client method, or `transaction`: the new tail is chained behind the old one. */
    method Enter(kind: Kind) returns (i: nat)
      modifies this
      ensures Value() == Step(old(Value()), Call(kind)) && i == |old(tickets)|
    {
      i := |tickets|;
      var previous := tail;
      tail := |tickets| + 1;
      tickets := tickets + [Ticket(kind, previous, tail, Waiting, false)];
    }

    /** The gate's reaction runs: the operation is issued, or the transaction is being opened. */
    method Proceed(i: nat)
      modifies this
      ensures Value() == Step(old(Value()), Start(i))
    {
      if i < |tickets| && tickets[i].phase == Waiting && tickets[i].gate in resolved {
        tickets := tickets[i := tickets[i].(phase := Running)];
        started := started + [i];
      }
    }

    /** The operation's promise settles; success and failure are treated alike. */
    method OperationSettled(i: nat, ok: bool)
      modifies this
      ensures Value() == Step(old(Value()), Finish(i, ok))
    {
      if i < |tickets| && tickets[i].kind == Operation && tickets[i].phase == Running {
        tickets := tickets[i := tickets[i].(phase := Released, failed := !ok)];
      }
    }

    /** The client opened the transaction, or refused to: then the catch releases at once. */
    method TransactionOpened(i: nat, ok: bool)
      modifies this
      ensures Value() == Step(old(Value()), Opened(i, ok))
    {
      if i < |tickets| && tickets[i].kind == Transaction && tickets[i].phase == Running {
        tickets := tickets[i := tickets[i].(phase := if ok then Holding else Released, failed := !ok)];
      }
    }

    /** commit, rollback or close; a second call does nothing. */
    method ReleaseTransaction(i: nat)
      modifies this
      ensures Value() == Step(old(Value()), Release(i))
    {
      if i < |tickets| && tickets[i].phase == Holding {
        tickets := tickets[i := tickets[i].(phase := Released)];
      }
    }

    /** The ticket's tail promise resolves, opening the next gate. */
    method ResolveTail(i: nat)
      modifies this
      ensures Value() == Step(old(Value()), Propagate(i))
    {
      if i < |tickets| && tickets[i].phase == Released && tickets[i].gate in resolved {
        resolved := resolved + {tickets[i].done};
        tickets := tickets[i := tickets[i].(phase := Settled)];
      }
    }
  }

  // ---------------------------------------------------------------- the invariant

  /** Gates and tails form one chain, and a promise is resolved exactly when its ticket settled. */
  ghost predicate Chained(q: Queue) {
    && q.tail == |q.tickets|
    && (forall i :: 0 <= i < |q.tickets| ==> q.tickets[i].gate == i && q.tickets[i].done == i + 1)
    && (forall p: nat :: p in q.resolved <==> p == 0 || (p <= |q.tickets| && q.tickets[p - 1].phase == Settled))
  }

  /** Whoever has left the waiting line has only settled tickets before it. */
  predicate OneAtATime(q: Queue) {
    forall i, j :: 0 <= i < j < |q.tickets| && q.tickets[j].phase != Waiting ==> q.tickets[i].phase == Settled
  }

  /** The client saw the tickets in call order, without gaps. */
  predicate InCallOrder(q: Queue) {
    && |q.started| <= |q.tickets|
    && (forall k :: 0 <= k < |q.started| ==> q.started[k] == k)
    && (forall i :: 0 <= i < |q.tickets| ==> (q.tickets[i].phase != Waiting <==> i < |q.started|))
  }

  ghost predicate Sound(q: Queue) { Chained(q) && OneAtATime(q) && InCallOrder(q) }

  lemma SetFailedSound(q: Queue, i: nat, failed: bool)
    requires Sound(q) && i < |q.tickets|
    ensures Sound(SetFailed(q, i, failed))
  {
  }

  lemma SetPhaseSound(q: Queue, i: nat, phase: Phase)
    requires Sound(q) && i < |q.tickets| && q.tickets[i].phase !in {Waiting, Settled} && phase in {Holding, Released}
    ensures Sound(SetPhase(q, i, phase))
  {
  }

  lemma StartSound(q: Queue, i: nat)
    requires Sound(q)
    ensures Sound(Step(q, Start(i)))
  {
    var q' := Step(q, Start(i));
    if q' != q {
      assert i == 0 || q.tickets[i - 1].phase == Settled;
      assert |q.started| == i;
    }
  }

  lemma StepSound(q: Queue, ev: Event)
    requires Sound(q)
    ensures Sound(Step(q, ev))
  {
    match ev
    case Call(_) =>
    case Start(i) => StartSound(q, i);
    case Finish(i, ok) =>
      if i < |q.tickets| && q.tickets[i].kind == Operation && q.tickets[i].phase == Running {
        SetPhaseSound(q, i, Released);
        SetFailedSound(SetPhase(q, i, Released), i, !ok);
      }
    case Opened(i, ok) =>
      if i < |q.tickets| && q.tickets[i].kind == Transaction && q.tickets[i].phase == Running {
        SetPhaseSound(q, i, if ok then Holding else Released);
        SetFailedSound(SetPhase(q, i, if ok then Holding else Released), i, !ok);
      }
    case Release(i) => if Step(q, ev) != q { SetPhaseSound(q, i, Released); }
    case Propagate(i) =>
  }

  /** Under every interleaving of calls, settlements and failures the invariant holds. */
  lemma {:induction false} RunSound(q: Queue, evs: seq<Event>)
    requires Sound(q)
    ensures Sound(Run(q, evs))
    decreases |evs|
  {
    if evs != [] {
      StepSound(q, evs[0]);
      RunSound(Step(q, evs[0]), evs[1..]);
    }
  }

  predicate Active(t: Ticket) { t.phase == Running || t.phase == Holding }

  /** One at a time and in call order, in every reachable state. */
  lemma SerialInCallOrder(evs: seq<Event>)
    ensures var q := Run(EMPTY, evs);
      && (forall i, j :: 0 <= i < |q.tickets| && 0 <= j < |q.tickets| && Active(q.tickets[i]) && Active(q.tickets[j]) ==> i == j)
      && (forall k :: 0 <= k < |q.started| ==> q.started[k] == k)
  {
    assert Sound(EMPTY);
    RunSound(EMPTY, evs);
  }

  // ---------------------------------------------------------------- nothing blocks the queue

  /** The queue without what the callers were told. */
  function Untold(q: Queue): Queue {
    q.(tickets := seq(|q.tickets|, i requires 0 <= i < |q.tickets| => q.tickets[i].(failed := false)))
  }

  /** The same turn, with the operation perhaps ending the other way. */
  predicate SameTurn(a: Event, b: Event) { a == b || (a.Finish? && b.Finish? && a.i == b.i) }

  predicate SameTurns(a: seq<Event>, b: seq<Event>) { |a| == |b| && forall k :: 0 <= k < |a| ==> SameTurn(a[k], b[k]) }

  lemma SameStep(q: Queue, r: Queue, a: Event, b: Event)
    requires Untold(q) == Untold(r) && SameTurn(a, b)
    ensures Untold(Step(q, a)) == Untold(Step(r, b))
  {
    assert |Untold(q).tickets| == |Untold(r).tickets|;
    forall i | 0 <= i < |q.tickets|
      ensures q.tickets[i].(failed := false) == r.tickets[i].(failed := false)
    {
      assert Untold(q).tickets[i] == Untold(r).tickets[i];
    }
  }

  /** Operations that fail instead of succeeding, anywhere in a run, change nothing but what their callers are told. */
  lemma {:induction false} FailureIsLikeSuccess(q: Queue, r: Queue, a: seq<Event>, b: seq<Event>)
    requires Untold(q) == Untold(r) && SameTurns(a, b)
    ensures Untold(Run(q, a)) == Untold(Run(r, b)) && Run(q, a).started == Run(r, b).started
    decreases |a|
  {
    if a != [] {
      SameStep(q, r, a[0], b[0]);
      FailureIsLikeSuccess(Step(q, a[0]), Step(r, b[0]), a[1..], b[1..]);
    } else {
      assert Untold(q).started == Untold(r).started;
    }
  }

  /** A transaction that cannot be opened leaves the queue as one released at once; a second release does nothing. */
  lemma RefusedOpenReleases(q: Queue, i: nat)
    ensures Untold(Step(q, Opened(i, false))) == Untold(Step(Step(q, Opened(i, true)), Release(i))) || Step(q, Opened(i, false)) == q
    ensures Step(Step(q, Release(i)), Release(i)) == Step(q, Release(i))
  {
  }

  /** Unless its owner is still at work, the first unsettled ticket can always take its next turn. */
  lemma NeverStuck(evs: seq<Event>, i: nat)
    requires var q := Run(EMPTY, evs);
      i < |q.tickets| && q.tickets[i].phase != Settled && forall j :: 0 <= j < i ==> q.tickets[j].phase == Settled
    ensures var q := Run(EMPTY, evs);
      Active(q.tickets[i]) || Step(q, Start(i)) != q || Step(q, Propagate(i)) != q
  {
    assert Sound(EMPTY);
    RunSound(EMPTY, evs);
    var q := Run(EMPTY, evs);
    assert i == 0 || q.tickets[i - 1].phase == Settled;
    assert i in q.resolved;
  }

  /** The turns that take one ticket from any phase to its end. */
  function Turns(i: nat): seq<Event> {
    [Start(i), Finish(i, false), Opened(i, true), Release(i), Propagate(i)]
  }

  function AfterTurns(q: Queue, i: nat): Queue {
    Step(Step(Step(Step(Step(q, Start(i)), Finish(i, false)), Opened(i, true)), Release(i)), Propagate(i))
  }

  lemma RunTurns(q: Queue, i: nat)
    ensures Run(q, Turns(i)) == AfterTurns(q, i)
  {
    var e4: seq<Event> := [Propagate(i)];
    var e3 := [Release(i)] + e4;
    var e2 := [Opened(i, true)] + e3;
    var e1 := [Finish(i, false)] + e2;
    assert Turns(i) == [Start(i)] + e1 && e4 == [Propagate(i)] + [];
    RunCons(q, Start(i), e1);
    var q1 := Step(q, Start(i));
    RunCons(q1, Finish(i, false), e2);
    var q2 := Step(q1, Finish(i, false));
    RunCons(q2, Opened(i, true), e3);
    var q3 := Step(q2, Opened(i, true));
    RunCons(q3, Release(i), e4);
    RunCons(Step(q3, Release(i)), Propagate(i), []);
  }

  lemma RunCons(q: Queue, ev: Event, evs: seq<Event>)
    ensures Run(q, [ev] + evs) == Run(Step(q, ev), evs)
  {
    assert ([ev] + evs)[1..] == evs;
  }

  predicate SettledUpTo(q: Queue, n: nat) {
    n <= |q.tickets| && forall j :: 0 <= j < n ==> q.tickets[j].phase == Settled
  }

  predicate SameExcept(q: Queue, q': Queue, lo: nat, hi: nat) {
    |q'.tickets| == |q.tickets| && forall j :: 0 <= j < |q.tickets| && !(lo <= j < hi) ==> q'.tickets[j] == q.tickets[j]
  }

  /** An open gate is enough: the five turns settle the ticket and touch no other. */
  lemma TurnsSettle(q: Queue, i: nat)
    requires i < |q.tickets| && q.tickets[i].gate in q.resolved
    ensures var t := AfterTurns(q, i).tickets; |t| == |q.tickets| && t == q.tickets[i := t[i]] && t[i].phase == Settled
  {
    var q1 := Step(q, Start(i));
    assert q1.tickets[i].phase != Waiting && q1.tickets == q.tickets[i := q1.tickets[i]];
    var q2 := Step(q1, Finish(i, false));
    assert q2.tickets == q.tickets[i := q2.tickets[i]];
    var q3 := Step(q2, Opened(i, true));
    assert q3.tickets[i].phase in {Holding, Released, Settled} && q3.tickets == q.tickets[i := q3.tickets[i]];
    var q4 := Step(q3, Release(i));
    assert q4.tickets[i].phase in {Released, Settled} && q4.tickets == q.tickets[i := q4.tickets[i]];
  }

  function TurnsUpTo(n: nat): seq<Event> { if n == 0 then [] else TurnsUpTo(n - 1) + Turns(n - 1) }

  lemma {:induction false} RunAppend(q: Queue, a: seq<Event>, b: seq<Event>)
    ensures Run(q, a + b) == Run(Run(q, a), b)
    decreases |a|
  {
    if a == [] {
      assert a + b == b;
    } else {
      assert (a + b)[1..] == a[1..] + b;
      RunAppend(Step(q, a[0]), a[1..], b);
    }
  }

  /**
   * Progress: once the owners ahead of ticket `n` let go, in success or failure, everything ahead
   * of it is settled and nothing behind it has been touched.
   */
  lemma {:induction false} QueueDrains(q: Queue, n: nat)
    requires Sound(q) && n <= |q.tickets|
    ensures var q' := Run(q, TurnsUpTo(n));
      SettledUpTo(q', n) && SameExcept(q, q', 0, n)
  {
    if n > 0 {
      var i, evs := n - 1, TurnsUpTo(n - 1);
      QueueDrains(q, i);
      RunSound(q, evs);
      GateOpen(Run(q, evs), i);
      RunAppend(q, evs, Turns(i));
      RunTurns(Run(q, evs), i);
      TurnsSettle(Run(q, evs), i);
    }
  }

  lemma GateOpen(q: Queue, i: nat)
    requires Sound(q) && i < |q.tickets| && SettledUpTo(q, i)
    ensures q.tickets[i].gate in q.resolved
  {
    assert i == 0 || q.tickets[i - 1].phase == Settled;
  }

  /** Hence every waiting ticket gets its turn. */
  lemma EveryTicketStarts(evs: seq<Event>, n: nat)
    requires n < |Run(EMPTY, evs).tickets| && Run(EMPTY, evs).tickets[n].phase == Waiting
    ensures var q := Step(Run(Run(EMPTY, evs), TurnsUpTo(n)), Start(n));
      n < |q.tickets| && q.tickets[n].phase == Running
  {
    assert Sound(EMPTY);
    RunSound(EMPTY, evs);
    var q := Run(EMPTY, evs);
    QueueDrains(q, n);
    RunSound(q, TurnsUpTo(n));
    GateOpen(Run(q, TurnsUpTo(n)), n);
  }

  // ---------------------------------------------------------------- every schedule

  /** Turns a ticket still needs at most. */
  function Needs(t: Ticket): nat {
    match t.phase
    case Waiting => 4
    case Running => 3
    case Holding => 2
    case Released => 1
    case Settled => 0
  }

  /** Turns the first `n` tickets still need at most. */
  function Ahead(q: Queue, n: nat): nat
    requires n <= |q.tickets|
  {
    if n == 0 then 0 else Ahead(q, n - 1) + Needs(q.tickets[n - 1])
  }

  lemma {:induction false} AheadSame(q: Queue, r: Queue, n: nat)
    requires n <= |q.tickets| <= |r.tickets| && forall j :: 0 <= j < n ==> r.tickets[j].phase == q.tickets[j].phase
    ensures Ahead(r, n) == Ahead(q, n)
  {
    if n > 0 {
      AheadSame(q, r, n - 1);
    }
  }

  lemma {:induction false} AheadDrops(q: Queue, r: Queue, n: nat, i: nat)
    requires i < n <= |q.tickets| && |q.tickets| == |r.tickets| && Needs(r.tickets[i]) < Needs(q.tickets[i])
    requires forall j :: 0 <= j < n && j != i ==> r.tickets[j].phase == q.tickets[j].phase
    ensures Ahead(r, n) < Ahead(q, n)
  {
    if i == n - 1 {
      AheadSame(q, r, n - 1);
    } else {
      AheadDrops(q, r, n - 1, i);
    }
  }

  lemma {:induction false} AheadZero(q: Queue, n: nat)
    requires n <= |q.tickets|
    ensures Ahead(q, n) == 0 <==> SettledUpTo(q, n)
  {
    if n > 0 {
      AheadZero(q, n - 1);
    }
  }

  /** A turn that does something to a ticket already in the queue. */
  predicate Works(q: Queue, ev: Event) { !ev.Call? && Step(q, ev) != q }

  lemma WorkIsOneTicket(q: Queue, ev: Event)
    requires Works(q, ev)
    ensures var r := Step(q, ev);
      && ev.i < |q.tickets| && |r.tickets| == |q.tickets| && Needs(r.tickets[ev.i]) < Needs(q.tickets[ev.i])
      && forall j :: 0 <= j < |q.tickets| && j != ev.i ==> r.tickets[j] == q.tickets[j]
  {
  }

  /** A turn works only for a ticket whose predecessors have settled. */
  lemma WorkNeedsSettled(q: Queue, ev: Event)
    requires Sound(q) && Works(q, ev)
    ensures ev.i < |q.tickets| && SettledUpTo(q, ev.i)
  {
    WorkIsOneTicket(q, ev);
    StepSound(q, ev);
    assert Step(q, ev).tickets[ev.i].phase != Waiting;
    forall j | 0 <= j < ev.i
      ensures q.tickets[j].phase == Settled
    {
      assert Step(q, ev).tickets[j] == q.tickets[j];
    }
  }

  /** Until the first `n` tickets have settled, every working turn is for one of them. */
  lemma WorkIsAhead(q: Queue, ev: Event, n: nat)
    requires Sound(q) && n <= |q.tickets| && !SettledUpTo(q, n) && Works(q, ev)
    ensures ev.i < n && Ahead(Step(q, ev), n) < Ahead(q, n)
  {
    WorkIsOneTicket(q, ev);
    WorkNeedsSettled(q, ev);
    assert ev.i >= n ==> SettledUpTo(q, n);
    AheadDrops(q, Step(q, ev), n, ev.i);
  }

  /** Working turns of a run. */
  function Work(q: Queue, evs: seq<Event>): nat
    decreases |evs|
  {
    if evs == [] then 0 else (if Works(q, evs[0]) then 1 else 0) + Work(Step(q, evs[0]), evs[1..])
  }

  lemma SettledStays(q: Queue, ev: Event, n: nat)
    requires SettledUpTo(q, n)
    ensures SettledUpTo(Step(q, ev), n)
  {
  }

  /**
   * Progress under every schedule: with calls arriving at any time and work ending either way, the
   * first `n` tickets are settled after as many working turns as they need, at most four each.
   */
  lemma {:induction false} EveryScheduleSettles(q: Queue, evs: seq<Event>, n: nat)
    requires Sound(q) && n <= |q.tickets| && Work(q, evs) >= Ahead(q, n)
    ensures SettledUpTo(Run(q, evs), n)
    decreases |evs|
  {
    AheadZero(q, n);
    if evs != [] {
      var r := Step(q, evs[0]);
      StepSound(q, evs[0]);
      if SettledUpTo(q, n) {
        SettledStays(q, evs[0], n);
        AheadZero(r, n);
      } else if Works(q, evs[0]) {
        WorkIsAhead(q, evs[0], n);
      } else {
        AheadSame(q, r, n);
      }
      EveryScheduleSettles(r, evs[1..], n);
    }
  }

  /** While some ticket is unsettled, some turn works. */
  lemma SomeTurnWorks(evs: seq<Event>, i: nat) returns (ev: Event)
    requires i < |Run(EMPTY, evs).tickets| && Run(EMPTY, evs).tickets[i].phase != Settled
    ensures Works(Run(EMPTY, evs), ev)
  {
    var q := Run(EMPTY, evs);
    var first := FirstUnsettled(q, i);
    NeverStuck(evs, first);
    match q.tickets[first].phase
    case Waiting => ev := Start(first);
    case Released => ev := Propagate(first);
    case Holding => ev := Release(first); assert Step(q, ev).tickets[first].phase == Released;
    case Running =>
      ev := if q.tickets[first].kind == Operation then Finish(first, true) else Opened(first, true);
      assert Step(q, ev).tickets[first].phase != Running;
  }

  lemma {:induction false} FirstUnsettled(q: Queue, i: nat) returns (first: nat)
    requires i < |q.tickets| && q.tickets[i].phase != Settled
    ensures first <= i && q.tickets[first].phase != Settled && SettledUpTo(q, first)
    decreases i
  {
    if j :| 0 <= j < i && q.tickets[j].phase != Settled {
      first := FirstUnsettled(q, j);
    } else {
      first := i;
    }
  }

  // ---------------------------------------------------------------- what callers are told

  /** The turn in which the operation of ticket `i`, or its opening, fails. */
  predicate Fails(q: Queue, ev: Event, i: nat) { Works(q, ev) && (ev == Finish(i, false) || ev == Opened(i, false)) }

  predicate FailedIn(q: Queue, evs: seq<Event>, i: nat)
    decreases |evs|
  {
    evs != [] && (Fails(q, evs[0], i) || FailedIn(Step(q, evs[0]), evs[1..], i))
  }

  predicate Told(q: Queue, i: nat) { i < |q.tickets| && q.tickets[i].failed }

  /** Nobody is told anything before the own work ends. */
  predicate ToldLate(q: Queue) {
    forall i :: 0 <= i < |q.tickets| && q.tickets[i].phase in {Waiting, Running} ==> !q.tickets[i].failed
  }

  lemma ToldStep(q: Queue, ev: Event, i: nat)
    requires ToldLate(q)
    ensures ToldLate(Step(q, ev))
    ensures Told(Step(q, ev), i) <==> Told(q, i) || Fails(q, ev, i)
  {
    if Works(q, ev) {
      WorkIsOneTicket(q, ev);
    }
  }

  lemma {:induction false} ToldAlong(q: Queue, evs: seq<Event>, i: nat)
    requires ToldLate(q)
    ensures Told(Run(q, evs), i) <==> Told(q, i) || FailedIn(q, evs, i)
    decreases |evs|
  {
    if evs != [] {
      ToldStep(q, evs[0], i);
      ToldAlong(Step(q, evs[0]), evs[1..], i);
    }
  }

  /** In every run a caller is told of failure exactly when its own operation or opening failed. */
  lemma ToldExactly(evs: seq<Event>, i: nat)
    ensures Told(Run(EMPTY, evs), i) <==> FailedIn(EMPTY, evs, i)
  {
    ToldAlong(EMPTY, evs, i);
  }
}
