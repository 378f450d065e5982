/**
 * The sliding-window limiter of apps/web/lib/ratelimit.ts. One `kv` row per subject holds the
 * times of recent accepted requests; the row expires one window after the last of them and may
 * be swept at any moment after that. The reference limiter keeps the whole log and never
 * expires anything: the two give the same answer to every request of every run.
 */
module RateLimit {
  import opened Prelude

  /** `tokens` requests per window of `windowMs` milliseconds. */
  datatype Budget = Budget(tokens: int, windowMs: int) {
    /** Every entry of the LIMITS table grants at least one request per non-empty window. */
    predicate Valid() { tokens >= 1 && windowMs >= 1 }
  }

  datatype Row = Row(hits: seq<int>, expiresAt: int)

  datatype Outcome = Accepted | RateLimited(retryAfterSec: int)

  datatype Event = Request(at: int) | Sweep(at: int)

  /** The times in `s` later than `t`, in order. */
  function Since(s: seq<int>, t: int): seq<int> {
    if s == [] then [] else
    var rest := Since(s[..|s| - 1], t);
    if s[|s| - 1] > t then rest + [s[|s| - 1]] else rest
  }

  /** `Math.max(1, Math.ceil(ms / 1000))`. */
  function RetryAfter(ms: int): (sec: int)
    ensures sec >= 1 && 1000 * sec >= ms
    ensures sec == 1 || 1000 * (sec - 1) < ms
  {
    Max(1, (ms + 999) / 1000)
  }

  /** The hits a request made at `now` sees: none when the row is missing or has expired. */
  function LiveHits(row: Option<Row>, now: int, windowMs: int): seq<int> {
    if row.Some? && row.value.expiresAt > now then Since(row.value.hits, now - windowMs) else []
  }

  /** The answer given the accepted requests still inside the window. */
  function Decide(b: Budget, recent: seq<int>, now: int): Outcome
    requires b.Valid()
  {
    if |recent| >= b.tokens then RateLimited(RetryAfter(recent[0] + b.windowMs - now)) else Accepted
  }

  class Limiter {
    const budget: Budget
    var row: Option<Row>

    constructor (budget: Budget)
      ensures this.budget == budget && row == None
    {
      this.budget := budget;
      row := None;
    }

    /** One write transaction: read, drop what left the window, refuse or append and write back. */
    method Limit(now: int) returns (outcome: Outcome)
      requires budget.Valid()
      modifies this
      ensures outcome == Decide(budget, LiveHits(old(row), now, budget.windowMs), now)
      ensures row == RowAfter(budget, old(row), Request(now))
    {
      var hits := [];
      if row.Some? && row.value.expiresAt > now {
        hits := Since(row.value.hits, now - budget.windowMs);
      }
      if |hits| >= budget.tokens {
        return RateLimited(RetryAfter(hits[0] + budget.windowMs - now));
      }
      hits := hits + [now];
      row := Some(Row(hits, now + budget.windowMs));
      outcome := Accepted;
    }
  }

  /** The row left behind by one event; a sweep deletes the row once it has expired. */
  function RowAfter(b: Budget, row: Option<Row>, ev: Event): Option<Row>
    requires b.Valid()
  {
    match ev
    case Request(now) =>
      var hits := LiveHits(row, now, b.windowMs);
      if Decide(b, hits, now).Accepted? then Some(Row(hits + [now], now + b.windowMs)) else row
    case Sweep(now) =>
      if row.Some? && row.value.expiresAt <= now then None else row
  }

  function RowOf(b: Budget, row: Option<Row>, evs: seq<Event>): Option<Row>
    requires b.Valid()
    decreases |evs|
  {
    if evs == [] then row else RowOf(b, RowAfter(b, row, evs[0]), evs[1..])
  }

  /** A request is answered; a sweep is not. */
  function Answer(b: Budget, recent: seq<int>, ev: Event): seq<Outcome>
    requires b.Valid()
  {
    if ev.Request? then [Decide(b, recent, ev.at)] else []
  }

  /** What every request of a run is answered, in order. */
  function Answers(b: Budget, row: Option<Row>, evs: seq<Event>): seq<Outcome>
    requires b.Valid()
    decreases |evs|
  {
    if evs == [] then [] else
    var rest := Answers(b, RowAfter(b, row, evs[0]), evs[1..]);
    Answer(b, LiveHits(row, evs[0].at, b.windowMs), evs[0]) + rest
  }

  // The reference limiter: a log of every accepted request, nothing ever forgotten.

  function LogAfter(b: Budget, log: seq<int>, ev: Event): seq<int>
    requires b.Valid()
  {
    if ev.Request? && |Since(log, ev.at - b.windowMs)| < b.tokens then log + [ev.at] else log
  }

  function ReferenceAnswers(b: Budget, log: seq<int>, evs: seq<Event>): seq<Outcome>
    requires b.Valid()
    decreases |evs|
  {
    if evs == [] then [] else
    var rest := ReferenceAnswers(b, LogAfter(b, log, evs[0]), evs[1..]);
    Answer(b, Since(log, evs[0].at - b.windowMs), evs[0]) + rest
  }

  function LogOf(b: Budget, log: seq<int>, evs: seq<Event>): seq<int>
    requires b.Valid()
    decreases |evs|
  {
    if evs == [] then log else LogOf(b, LogAfter(b, log, evs[0]), evs[1..])
  }

  /** The clock never runs backwards along a run that starts at `from`. */
  predicate Clocked(evs: seq<Event>, from: int)
    decreases |evs|
  {
    evs == [] || (from <= evs[0].at && Clocked(evs[1..], evs[0].at))
  }

  /** The time of the last event. */
  function EndOf(evs: seq<Event>, from: int): int
    decreases |evs|
  {
    if evs == [] then from else EndOf(evs[1..], evs[0].at)
  }

  predicate AllUpTo(s: seq<int>, t: int) {
    forall i :: 0 <= i < |s| ==> s[i] <= t
  }

  lemma {:induction false} SinceBounds(s: seq<int>, t: int, hi: int)
    requires AllUpTo(s, hi)
    ensures AllUpTo(Since(s, t), hi) && |Since(s, t)| <= |s|
    ensures forall i :: 0 <= i < |Since(s, t)| ==> t < Since(s, t)[i]
    ensures hi <= t ==> Since(s, t) == []
  {
    if s != [] {
      SinceBounds(s[..|s| - 1], t, hi);
    }
  }

  /** A later cut-off may be applied to the already trimmed hits. */
  lemma {:induction false} SinceSince(s: seq<int>, early: int, late: int)
    requires early <= late
    ensures Since(Since(s, early), late) == Since(s, late)
    ensures |Since(s, late)| <= |Since(s, early)|
  {
    if s != [] {
      var init, last := s[..|s| - 1], s[|s| - 1];
      SinceSince(init, early, late);
      if last > early {
        assert (Since(init, early) + [last])[..|Since(init, early)|] == Since(init, early);
      }
    }
  }

  lemma {:induction false} SinceAppend(s: seq<int>, a: int, t: int)
    ensures Since(s + [a], t) == if a > t then Since(s, t) + [a] else Since(s, t)
  {
    assert (s + [a])[..|s|] == s;
  }

  /** The row tells, about every instant from `clock` on, exactly what the full log tells. */
  ghost predicate Represents(b: Budget, row: Option<Row>, log: seq<int>, clock: int) {
    && AllUpTo(log, clock)
    && match row
       case None => Since(log, clock - b.windowMs) == []
       case Some(r) =>
         && AllUpTo(r.hits, r.expiresAt - b.windowMs)
         && Since(r.hits, clock - b.windowMs) == Since(log, clock - b.windowMs)
  }

  lemma {:induction false} RepresentsLater(b: Budget, row: Option<Row>, log: seq<int>, clock: int, now: int)
    requires b.Valid() && Represents(b, row, log, clock) && clock <= now
    ensures Represents(b, row, log, now)
    ensures LiveHits(row, now, b.windowMs) == Since(log, now - b.windowMs)
  {
    SinceSince(log, clock - b.windowMs, now - b.windowMs);
    if row.Some? {
      SinceSince(row.value.hits, clock - b.windowMs, now - b.windowMs);
      SinceBounds(row.value.hits, now - b.windowMs, row.value.expiresAt - b.windowMs);
    }
  }

  lemma {:induction false} AcceptedHits(log: seq<int>, cut: int, at: int)
    requires AllUpTo(log, at) && cut < at
    ensures AllUpTo(log + [at], at) && AllUpTo(Since(log, cut) + [at], at)
    ensures Since(Since(log, cut) + [at], cut) == Since(log + [at], cut)
  {
    SinceBounds(log, cut, at);
    SinceSince(log, cut, cut);
    SinceAppend(Since(log, cut), at, cut);
    SinceAppend(log, at, cut);
  }

  lemma {:induction false} RepresentsSwept(b: Budget, row: Option<Row>, log: seq<int>, at: int)
    requires b.Valid() && Represents(b, row, log, at) && row.Some? && row.value.expiresAt <= at
    ensures Represents(b, None, log, at)
  {
    SinceBounds(row.value.hits, at - b.windowMs, row.value.expiresAt - b.windowMs);
  }

  lemma {:induction false} RepresentsAccepted(b: Budget, hits: seq<int>, log: seq<int>, at: int)
    requires b.Valid() && AllUpTo(log, at) && hits == Since(log, at - b.windowMs)
    ensures Represents(b, Some(Row(hits + [at], at + b.windowMs)), log + [at], at)
  {
    AcceptedHits(log, at - b.windowMs, at);
  }

  lemma {:induction false} RepresentsStep(b: Budget, row: Option<Row>, log: seq<int>, ev: Event)
    requires b.Valid() && Represents(b, row, log, ev.at)
    ensures Represents(b, RowAfter(b, row, ev), LogAfter(b, log, ev), ev.at)
  {
    match ev
    case Request(at) =>
      RepresentsLater(b, row, log, at, at);
      var hits := LiveHits(row, at, b.windowMs);
      RepresentsAccepted(b, hits, log, at);
      assert Decide(b, hits, at).Accepted? <==> |hits| < b.tokens;
    case Sweep(at) =>
      if row.Some? && row.value.expiresAt <= at {
        RepresentsSwept(b, row, log, at);
      }
  }

  lemma {:induction false} RepresentsNext(b: Budget, row: Option<Row>, log: seq<int>, clock: int, ev: Event)
    requires b.Valid() && Represents(b, row, log, clock) && clock <= ev.at
    ensures Represents(b, RowAfter(b, row, ev), LogAfter(b, log, ev), ev.at)
    ensures Answer(b, LiveHits(row, ev.at, b.windowMs), ev) == Answer(b, Since(log, ev.at - b.windowMs), ev)
  {
    RepresentsLater(b, row, log, clock, ev.at);
    RepresentsStep(b, row, log, ev);
  }

  lemma AnswersOfFirst(b: Budget, row: Option<Row>, log: seq<int>, evs: seq<Event>)
    requires b.Valid() && evs != []
    ensures Answers(b, row, evs) == Answer(b, LiveHits(row, evs[0].at, b.windowMs), evs[0]) + Answers(b, RowAfter(b, row, evs[0]), evs[1..])
    ensures ReferenceAnswers(b, log, evs) == Answer(b, Since(log, evs[0].at - b.windowMs), evs[0]) + ReferenceAnswers(b, LogAfter(b, log, evs[0]), evs[1..])
  {
  }

  /** Row expiry and sweeps never change a decision: every run is answered as by the full log. */
  lemma {:induction false} RefinesReference(b: Budget, row: Option<Row>, log: seq<int>, clock: int, evs: seq<Event>)
    requires b.Valid() && Represents(b, row, log, clock) && Clocked(evs, clock)
    ensures Answers(b, row, evs) == ReferenceAnswers(b, log, evs)
    decreases |evs|
  {
    if evs != [] {
      AnswersOfFirst(b, row, log, evs);
      RepresentsNext(b, row, log, clock, evs[0]);
      RefinesReference(b, RowAfter(b, row, evs[0]), LogAfter(b, log, evs[0]), evs[0].at, evs[1..]);
    }
  }

  lemma {:induction false} RunRepresents(b: Budget, row: Option<Row>, log: seq<int>, clock: int, evs: seq<Event>)
    requires b.Valid() && Represents(b, row, log, clock) && Clocked(evs, clock)
    ensures Represents(b, RowOf(b, row, evs), LogOf(b, log, evs), EndOf(evs, clock))
    decreases |evs|
  {
    if evs != [] {
      var ev := evs[0];
      RepresentsLater(b, row, log, clock, ev.at);
      RepresentsStep(b, row, log, ev);
      RunRepresents(b, RowAfter(b, row, ev), LogAfter(b, log, ev), ev.at, evs[1..]);
    }
  }

  /** How many of the times in `log` fall into `(lo, hi]`. */
  function CountIn(log: seq<int>, lo: int, hi: int): nat {
    if log == [] then 0 else
    CountIn(log[..|log| - 1], lo, hi) + if lo < log[|log| - 1] <= hi then 1 else 0
  }

  function WindowLoad(b: Budget, log: seq<int>, hi: int): nat { CountIn(log, hi - b.windowMs, hi) }

  /** No window of the configured length, wherever it lies, holds more than `tokens`. */
  ghost predicate WithinBudget(b: Budget, log: seq<int>) {
    forall hi: int :: WindowLoad(b, log, hi) <= b.tokens
  }

  lemma CountInSince(log: seq<int>, lo: int, hi: int)
    ensures CountIn(log, lo, hi) <= |Since(log, lo)|
    ensures AllUpTo(log, hi) ==> CountIn(log, lo, hi) == |Since(log, lo)|
  {
  }

  lemma CountInAppend(log: seq<int>, a: int, lo: int, hi: int)
    ensures CountIn(log + [a], lo, hi) == CountIn(log, lo, hi) + if lo < a <= hi then 1 else 0
  {
    assert (log + [a])[..|log|] == log;
  }

  lemma WithinBudgetStep(b: Budget, log: seq<int>, ev: Event)
    requires b.Valid() && WithinBudget(b, log) && AllUpTo(log, ev.at)
    ensures WithinBudget(b, LogAfter(b, log, ev))
  {
    var log' := LogAfter(b, log, ev);
    if log' != log {
      forall hi: int ensures WindowLoad(b, log', hi) <= b.tokens {
        assert WindowLoad(b, log, hi) <= b.tokens;
        CountInAppend(log, ev.at, hi - b.windowMs, hi);
        if ev.at <= hi {
          CountInSince(log, hi - b.windowMs, hi);
          SinceSince(log, ev.at - b.windowMs, hi - b.windowMs);
        }
      }
    }
  }

  lemma {:induction false} RunKeepsBudget(b: Budget, log: seq<int>, clock: int, evs: seq<Event>)
    requires b.Valid() && WithinBudget(b, log) && AllUpTo(log, clock) && Clocked(evs, clock)
    ensures WithinBudget(b, LogOf(b, log, evs))
    decreases |evs|
  {
    if evs != [] {
      WithinBudgetStep(b, log, evs[0]);
      RunKeepsBudget(b, LogAfter(b, log, evs[0]), evs[0].at, evs[1..]);
    }
  }

  /** From an empty table, over every run: exact decisions and no overfull window. */
  lemma LimiterIsExact(b: Budget, evs: seq<Event>, from: int)
    requires b.Valid() && Clocked(evs, from)
    ensures Answers(b, None, evs) == ReferenceAnswers(b, [], evs)
    ensures WithinBudget(b, LogOf(b, [], evs))
  {
    RefinesReference(b, None, [], from, evs);
    RunKeepsBudget(b, [], from, evs);
  }

  /**
   * After a refusal, waiting the advertised time with no other traffic is always enough,
   * whatever run led to the refusal.
   */
  lemma {:induction false} RetryAfterSuffices(b: Budget, evs: seq<Event>, from: int, now: int, later: int)
    requires b.Valid() && Clocked(evs, from) && EndOf(evs, from) <= now
    requires Decide(b, LiveHits(RowOf(b, None, evs), now, b.windowMs), now).RateLimited?
    requires later >= now + 1000 * Decide(b, LiveHits(RowOf(b, None, evs), now, b.windowMs), now).retryAfterSec
    ensures Decide(b, LiveHits(RowOf(b, None, evs), later, b.windowMs), later).Accepted?
  {
    var row, log := RowOf(b, None, evs), LogOf(b, [], evs);
    RunRepresents(b, None, [], from, evs);
    RunKeepsBudget(b, [], from, evs);
    RepresentsLater(b, row, log, EndOf(evs, from), now);
    RepresentsLater(b, row, log, now, later);
    RefusalWearsOff(b, log, now, later);
  }

  lemma {:induction false} RefusalWearsOff(b: Budget, log: seq<int>, now: int, later: int)
    requires b.Valid() && WithinBudget(b, log) && AllUpTo(log, now)
    requires Decide(b, Since(log, now - b.windowMs), now).RateLimited?
    requires later >= now + 1000 * Decide(b, Since(log, now - b.windowMs), now).retryAfterSec
    ensures Decide(b, Since(log, later - b.windowMs), later).Accepted?
  {
    var recent := Since(log, now - b.windowMs);
    SinceSince(log, now - b.windowMs, later - b.windowMs);
    assert |recent| <= b.tokens by {
      CountInSince(log, now - b.windowMs, now);
      assert WindowLoad(b, log, now) <= b.tokens;
    }
    HeadDropsOut(recent, later - b.windowMs);
  }

  /** Once the oldest hit has left the window, strictly fewer remain. */
  lemma {:induction false} HeadDropsOut(s: seq<int>, t: int)
    requires s != [] && s[0] <= t
    ensures |Since(s, t)| < |s|
  {
    if |s| > 1 {
      HeadDropsOut(s[..|s| - 1], t);
    }
  }

  predicate NonDecreasing(s: seq<int>) { forall i, j :: 0 <= i <= j < |s| ==> s[i] <= s[j] }

  lemma {:induction false} LogInOrder(b: Budget, log: seq<int>, clock: int, evs: seq<Event>)
    requires b.Valid() && NonDecreasing(log) && AllUpTo(log, clock) && Clocked(evs, clock)
    ensures NonDecreasing(LogOf(b, log, evs)) && AllUpTo(LogOf(b, log, evs), EndOf(evs, clock))
    decreases |evs|
  {
    if evs != [] {
      LogInOrder(b, LogAfter(b, log, evs[0]), evs[0].at, evs[1..]);
    }
  }

  /** The oldest time still in the window comes first. */
  lemma {:induction false} SinceInOrder(s: seq<int>, t: int)
    requires NonDecreasing(s)
    ensures NonDecreasing(Since(s, t)) && forall i :: 0 <= i < |Since(s, t)| ==> Since(s, t)[i] in s
  {
    if s != [] {
      SinceInOrder(s[..|s| - 1], t);
    }
  }

  lemma {:induction false} SinceAll(s: seq<int>, t: int)
    requires forall i :: 0 <= i < |s| ==> s[i] > t
    ensures Since(s, t) == s
  {
    if s != [] {
      SinceAll(s[..|s| - 1], t);
    }
  }

  /** While the oldest hit is in the window, all of them are. */
  lemma {:induction false} StillAll(log: seq<int>, early: int, late: int)
    requires NonDecreasing(log) && early <= late && Since(log, early) != [] && Since(log, early)[0] > late
    ensures Since(log, late) == Since(log, early)
  {
    SinceInOrder(log, early);
    SinceSince(log, early, late);
    SinceAll(Since(log, early), late);
  }

  /** After any run, what a request sees is exactly what the full log tells of its window. */
  lemma SeesWindow(b: Budget, evs: seq<Event>, from: int, now: int)
    requires b.Valid() && Clocked(evs, from) && EndOf(evs, from) <= now
    ensures LiveHits(RowOf(b, None, evs), now, b.windowMs) == Since(LogOf(b, [], evs), now - b.windowMs)
    ensures AllUpTo(LogOf(b, [], evs), now)
  {
    RunRepresents(b, None, [], from, evs);
    RepresentsLater(b, RowOf(b, None, evs), LogOf(b, [], evs), EndOf(evs, from), now);
  }

  /** Until the advertised second the oldest hit has not left the window, and the answer stays a refusal. */
  lemma NotYet(b: Budget, recent: seq<int>, now: int, sec: int)
    requires b.Valid() && Decide(b, recent, now).RateLimited? && 1 <= sec < Decide(b, recent, now).retryAfterSec
    ensures recent != [] && recent[0] > now + 1000 * sec - b.windowMs && Decide(b, recent, now + 1000 * sec).RateLimited?
  {
  }

  lemma {:induction false} LeastOnLog(b: Budget, log: seq<int>, now: int, sec: int)
    requires b.Valid() && NonDecreasing(log)
    requires Decide(b, Since(log, now - b.windowMs), now).RateLimited? && 1 <= sec < Decide(b, Since(log, now - b.windowMs), now).retryAfterSec
    ensures Decide(b, Since(log, now + 1000 * sec - b.windowMs), now + 1000 * sec).RateLimited?
  {
    NotYet(b, Since(log, now - b.windowMs), now, sec);
    StillAll(log, now - b.windowMs, now + 1000 * sec - b.windowMs);
  }

  /** An ordered log that tells what requests at two instants after a run see. */
  lemma OrderedLog(b: Budget, evs: seq<Event>, from: int, now: int, later: int) returns (log: seq<int>)
    requires b.Valid() && Clocked(evs, from) && EndOf(evs, from) <= now <= later
    ensures NonDecreasing(log)
    ensures LiveHits(RowOf(b, None, evs), now, b.windowMs) == Since(log, now - b.windowMs)
    ensures LiveHits(RowOf(b, None, evs), later, b.windowMs) == Since(log, later - b.windowMs)
  {
    log := LogOf(b, [], evs);
    SeesWindow(b, evs, from, now);
    SeesWindow(b, evs, from, later);
    LogInOrder(b, [], from, evs);
  }

  /** What a request made at `now` after a run is answered. */
  function AnswerAt(b: Budget, evs: seq<Event>, now: int): Outcome
    requires b.Valid()
  {
    Decide(b, LiveHits(RowOf(b, None, evs), now, b.windowMs), now)
  }

  /** No shorter whole number of seconds, at least one, would do: a second too early the caller is still refused. */
  lemma {:induction false} RetryAfterIsLeast(b: Budget, evs: seq<Event>, from: int, now: int, sec: int)
    requires b.Valid() && Clocked(evs, from) && EndOf(evs, from) <= now
    requires AnswerAt(b, evs, now).RateLimited? && 1 <= sec < AnswerAt(b, evs, now).retryAfterSec
    ensures AnswerAt(b, evs, now + 1000 * sec).RateLimited?
  {
    var log := OrderedLog(b, evs, from, now, now + 1000 * sec);
    LeastOnLog(b, log, now, sec);
  }

  /** After any run, a request is accepted exactly when fewer than `tokens` were accepted in the window before it. */
  lemma AcceptedExactly(b: Budget, evs: seq<Event>, from: int, now: int)
    requires b.Valid() && Clocked(evs, from) && EndOf(evs, from) <= now
    ensures AnswerAt(b, evs, now).Accepted? <==> WindowLoad(b, LogOf(b, [], evs), now) < b.tokens
  {
    SeesWindow(b, evs, from, now);
    CountInSince(LogOf(b, [], evs), now - b.windowMs, now);
  }
}
